/** The recursive page walk `process_page` (backend/services/notion.py:222-259).

    The two HTTP fetches of a page are replaced by a store: an id without a
    record is a page whose fetch raises, and a record's `body` is the
    children listing `get_block_contents` reads (which may itself fail).
    The shared `titles_stack` list is threaded through the calls as a value
    that each call returns in the state its `finally` clause leaves it. The
    source only prints each page's chunks; the model returns them, in the
    order they are printed. */
module PageWalk {
  import opened Options
  import opened Blocks
  import opened Chunker

  /** What the page endpoint and the page's children endpoint return. */
  datatype PageRecord = PageRecord(meta: PageJson, body: Listing)

  /** Pages by id; an id without a record is a page whose fetch fails. */
  type PageStore = map<string, PageRecord>

  /** The chunks produced, and the title stack as the call leaves it. */
  datatype Outcome = Outcome(chunks: seq<Chunk>, titles: seq<string>)

  /** The `finally` clause: pop while the stack is longer than `len`. */
  function PopTo(titles: seq<string>, len: nat): (r: seq<string>)
    ensures |titles| >= len ==> r == titles[..len]
    ensures |titles| < len ==> r == titles
    decreases |titles|
  {
    if |titles| > len then PopTo(titles[..|titles| - 1], len) else titles
  }

  /** `process_page(page_id, titles_stack)`, visiting at most `fuel` levels
      of pages. Any failure while fetching the page or its blocks is caught:
      the page then yields no chunks and no subpage is visited. */
  function ProcessPage(store: PageStore, fuel: nat, pageId: string, titles: seq<string>): (r: Outcome)
    ensures r.titles == titles
    ensures pageId !in store ==> r.chunks == []
    decreases fuel, 0
  {
    if fuel == 0 then Outcome([], titles)
    else if pageId !in store then Outcome([], PopTo(titles, |titles|))
    else
      var rec := store[pageId];
      var pushed := titles + [GetTitle(rec.meta)];
      match FlattenListing(rec.body)
      case None => Outcome([], PopTo(pushed, |titles|))
      case Some(flat) =>
        var own := ChunkPage(flat.entries, pushed, pageId);
        var rest := ProcessSubpages(store, fuel - 1, flat.subpages, pushed);
        Outcome(own + rest.chunks, PopTo(rest.titles, |titles|))
  }

  /** The loop `for subpage_id in subpage_ids: await process_page(...)`,
      sharing one title stack. */
  function ProcessSubpages(store: PageStore, fuel: nat, ids: seq<string>, titles: seq<string>): (r: Outcome)
    ensures r.titles == titles
    decreases fuel, |ids|
  {
    if ids == [] then Outcome([], titles)
    else
      var first := ProcessPage(store, fuel, ids[0], titles);
      var rest := ProcessSubpages(store, fuel, ids[1..], first.titles);
      Outcome(first.chunks + rest.chunks, rest.titles)
  }

  // ---------------------------------------------------------------------
  // Reference walk: the ancestor titles passed down by value
  // ---------------------------------------------------------------------

  /** A depth-first, pre-order walk in which each call receives its own
      copy of the ancestor titles and nothing is restored afterwards. */
  function Visit(store: PageStore, fuel: nat, pageId: string, path: seq<string>): seq<Chunk>
    decreases fuel, 0
  {
    if fuel == 0 || pageId !in store then []
    else
      var rec := store[pageId];
      var path' := path + [GetTitle(rec.meta)];
      match FlattenListing(rec.body)
      case None => []
      case Some(flat) =>
        ChunkPage(flat.entries, path', pageId) + VisitAll(store, fuel - 1, flat.subpages, path')
  }

  function VisitAll(store: PageStore, fuel: nat, ids: seq<string>, path: seq<string>): seq<Chunk>
    decreases fuel, |ids|
  {
    if ids == [] then []
    else Visit(store, fuel, ids[0], path) + VisitAll(store, fuel, ids[1..], path)
  }

  /** Every call leaves the title stack exactly as it found it, and the
      shared stack gives the same chunks as passing the titles by value. */
  lemma {:induction false} ProcessPageMatchesVisit(store: PageStore, fuel: nat, pageId: string, titles: seq<string>)
    ensures ProcessPage(store, fuel, pageId, titles).titles == titles
    ensures ProcessPage(store, fuel, pageId, titles).chunks == Visit(store, fuel, pageId, titles)
    decreases fuel, 0
  {
    if fuel > 0 && pageId in store && FlattenListing(store[pageId].body).Some? {
      var rec, flat := store[pageId], FlattenListing(store[pageId].body).value;
      var pushed := titles + [GetTitle(rec.meta)];
      ProcessSubpagesMatchesVisitAll(store, fuel - 1, flat.subpages, pushed);
      FetchedPageStep(store, fuel, pageId, titles);
    }
  }

  /** One fetched page: if its subpages agree with the by-value walk, so does the page. */
  lemma FetchedPageStep(store: PageStore, fuel: nat, pageId: string, titles: seq<string>)
    requires fuel > 0 && pageId in store && FlattenListing(store[pageId].body).Some?
    requires var flat := FlattenListing(store[pageId].body).value;
      var pushed := titles + [GetTitle(store[pageId].meta)];
      ProcessSubpages(store, fuel - 1, flat.subpages, pushed).chunks == VisitAll(store, fuel - 1, flat.subpages, pushed)
    ensures ProcessPage(store, fuel, pageId, titles).chunks == Visit(store, fuel, pageId, titles)
  {
    var rec, flat := store[pageId], FlattenListing(store[pageId].body).value;
    var pushed := titles + [GetTitle(rec.meta)];
    var own := ChunkPage(flat.entries, pushed, pageId);
    assert ProcessPage(store, fuel, pageId, titles).chunks == own + ProcessSubpages(store, fuel - 1, flat.subpages, pushed).chunks;
    assert Visit(store, fuel, pageId, titles) == own + VisitAll(store, fuel - 1, flat.subpages, pushed);
  }

  lemma {:induction false} ProcessSubpagesMatchesVisitAll(store: PageStore, fuel: nat, ids: seq<string>, titles: seq<string>)
    ensures ProcessSubpages(store, fuel, ids, titles).titles == titles
    ensures ProcessSubpages(store, fuel, ids, titles).chunks == VisitAll(store, fuel, ids, titles)
    decreases fuel, |ids|
  {
    if ids != [] {
      ProcessPageMatchesVisit(store, fuel, ids[0], titles);
      ProcessSubpagesMatchesVisitAll(store, fuel, ids[1..], titles);
    }
  }

  // ---------------------------------------------------------------------
  // Properties of the walk
  // ---------------------------------------------------------------------

  /** A page whose own fetch fails, or whose block listing fails, yields no
      chunks, visits no subpage, and leaves the title stack as it was. */
  lemma FailedPageYieldsNothing(store: PageStore, fuel: nat, pageId: string, titles: seq<string>)
    requires pageId !in store || FlattenListing(store[pageId].body).None?
    ensures ProcessPage(store, fuel, pageId, titles) == Outcome([], titles)
  {
  }

  /** A page that is fetched yields its own chunks first, built with its own
      title as the last ancestor, then the chunks of its subpages in
      `subpage_ids` order, each subpage starting from that same stack. */
  lemma FetchedPageChunks(store: PageStore, fuel: nat, pageId: string, titles: seq<string>)
    requires fuel > 0 && pageId in store && FlattenListing(store[pageId].body).Some?
    ensures var rec, flat := store[pageId], FlattenListing(store[pageId].body).value;
      var pushed := titles + [GetTitle(rec.meta)];
      ProcessPage(store, fuel, pageId, titles).chunks
        == ChunkPage(flat.entries, pushed, pageId) + VisitAll(store, fuel - 1, flat.subpages, pushed)
  {
    var rec, flat := store[pageId], FlattenListing(store[pageId].body).value;
    var pushed := titles + [GetTitle(rec.meta)];
    ProcessPageMatchesVisit(store, fuel, pageId, titles);
    assert Visit(store, fuel, pageId, titles)
        == ChunkPage(flat.entries, pushed, pageId) + VisitAll(store, fuel - 1, flat.subpages, pushed);
  }

  /** Every subpage is processed from the same title stack, whatever happened
      in the siblings before it; a failing sibling contributes nothing. */
  lemma SiblingsIndependent(store: PageStore, fuel: nat, ids: seq<string>, titles: seq<string>)
    requires ids != []
    ensures ProcessSubpages(store, fuel, ids, titles).chunks
         == ProcessPage(store, fuel, ids[0], titles).chunks + ProcessSubpages(store, fuel, ids[1..], titles).chunks
    ensures ids[0] !in store || FlattenListing(store[ids[0]].body).None? ==>
      ProcessSubpages(store, fuel, ids, titles).chunks == ProcessSubpages(store, fuel, ids[1..], titles).chunks
  {
    ProcessPageMatchesVisit(store, fuel, ids[0], titles);
    if ids[0] !in store || FlattenListing(store[ids[0]].body).None? {
      FailedPageYieldsNothing(store, fuel, ids[0], titles);
    }
  }

  /** What holds of every chunk the walk emits below ancestor titles `path`:
      it names a stored page, its id is `page_id-order`, its title path
      extends `path` and ends with its own page's title. */
  predicate WalkChunk(store: PageStore, path: seq<string>, c: Chunk) {
    && c.sourcePageId in store
    && c.id == ChunkId(c.sourcePageId, c.orderWithinPage)
    && c.sourceBlockId == None
    && |path| < |c.pageTitlePath|
    && c.pageTitlePath[..|path|] == path
    && c.pageTitlePath[|c.pageTitlePath| - 1] == GetTitle(store[c.sourcePageId].meta)
  }

  lemma WalkChunkWeaken(store: PageStore, path: seq<string>, title: string, c: Chunk)
    requires WalkChunk(store, path + [title], c)
    ensures WalkChunk(store, path, c)
  {
  }

  lemma OwnChunksWellFormed(store: PageStore, pageId: string, entries: seq<Entry>, path: seq<string>)
    requires pageId in store
    ensures var cs := ChunkPage(entries, path + [GetTitle(store[pageId].meta)], pageId);
      forall k :: 0 <= k < |cs| ==> WalkChunk(store, path, cs[k])
  {
    var pushed := path + [GetTitle(store[pageId].meta)];
    ChunkPageFields(entries, pushed, pageId);
    assert pushed[..|path|] == path;
  }

  lemma {:induction false} VisitWellFormed(store: PageStore, fuel: nat, pageId: string, path: seq<string>)
    ensures forall c :: c in Visit(store, fuel, pageId, path) ==> WalkChunk(store, path, c)
    decreases fuel, 0
  {
    if fuel > 0 && pageId in store {
      var rec := store[pageId];
      var title := GetTitle(rec.meta);
      match FlattenListing(rec.body)
      case None =>
      case Some(flat) =>
        OwnChunksWellFormed(store, pageId, flat.entries, path);
        VisitAllWellFormed(store, fuel - 1, flat.subpages, path + [title]);
        forall c | c in VisitAll(store, fuel - 1, flat.subpages, path + [title])
          ensures WalkChunk(store, path, c)
        {
          WalkChunkWeaken(store, path, title, c);
        }
    }
  }

  lemma {:induction false} VisitAllWellFormed(store: PageStore, fuel: nat, ids: seq<string>, path: seq<string>)
    ensures forall c :: c in VisitAll(store, fuel, ids, path) ==> WalkChunk(store, path, c)
    decreases fuel, |ids|
  {
    if ids != [] {
      VisitWellFormed(store, fuel, ids[0], path);
      VisitAllWellFormed(store, fuel, ids[1..], path);
    }
  }

  /** Every emitted chunk extends the stack the walk started from, ends its
      title path with its own page's title, and carries the id
      `page_id-order`; so two chunks with the same id come from the same
      page and the same block position. */
  lemma WalkChunksWellFormed(store: PageStore, fuel: nat, pageId: string, titles: seq<string>)
    ensures var cs := ProcessPage(store, fuel, pageId, titles).chunks;
      && (forall c :: c in cs ==> WalkChunk(store, titles, c))
      && (forall c1, c2 :: c1 in cs && c2 in cs && c1.id == c2.id ==>
            c1.sourcePageId == c2.sourcePageId && c1.orderWithinPage == c2.orderWithinPage)
  {
    var cs := ProcessPage(store, fuel, pageId, titles).chunks;
    ProcessPageMatchesVisit(store, fuel, pageId, titles);
    VisitWellFormed(store, fuel, pageId, titles);
    forall c1, c2 | c1 in cs && c2 in cs && c1.id == c2.id
      ensures c1.sourcePageId == c2.sourcePageId && c1.orderWithinPage == c2.orderWithinPage
    {
      ChunkIdInjective(c1.sourcePageId, c1.orderWithinPage, c2.sourcePageId, c2.orderWithinPage);
    }
  }
}
