/** The chunk builder `apply_hierarchy_and_chunk`
    (backend/services/notion.py:133-220): a left-to-right fold over the
    flattened `(text, type)` entries of one page that keeps the heading
    stack and emits one chunk record per content-bearing block. */
module Chunker {
  import opened Options
  import opened Text
  import opened Blocks
  import opened Headings

  /** One chunk dictionary. */
  datatype Chunk = Chunk(
    id: string,
    text: string,
    sourcePageId: string,
    sourceBlockId: Option<string>,
    pageTitlePath: seq<string>,
    activeHeadings: seq<string>,
    blockType: Kind,
    orderWithinPage: nat)

  /** `f"{page_id}-{i}"`. */
  function ChunkId(pageId: string, i: nat): (r: string)
    ensures |r| > |pageId| + 1 && r[..|pageId|] == pageId && r[|pageId|] == '-'
    ensures AllDigits(r[|pageId| + 1..])
  {
    assert (pageId + "-" + Decimal(i))[|pageId| + 1..] == Decimal(i);
    pageId + "-" + Decimal(i)
  }

  /** The digits after the page id and '-' read back as the index itself. */
  lemma ChunkIdIndex(p: string, i: nat)
    ensures |ChunkId(p, i)| > |p| + 1
    ensures AllDigits(ChunkId(p, i)[|p| + 1..]) && DigitsValue(ChunkId(p, i)[|p| + 1..]) == i
  {
    assert ChunkId(p, i)[|p| + 1..] == Decimal(i);
    DecimalRoundTrip(i);
  }

  /** In a chunk id, the character before the decimal index is '-' and
      the index itself is all digits. */
  lemma ChunkIdSuffix(p: string, i: nat)
    ensures var s, d := ChunkId(p, i), Decimal(i);
      && s[|s| - |d| - 1] == '-'
      && forall k :: |s| - |d| <= k < |s| ==> IsDigit(s[k])
  {
  }

  /** The decimal part of a chunk id holds no '-', so the id determines both
      the page id and the block index, even across pages. */
  lemma ChunkIdInjective(p: string, i: nat, q: string, j: nat)
    ensures ChunkId(p, i) == ChunkId(q, j) ==> p == q && i == j
  {
    if ChunkId(p, i) == ChunkId(q, j) {
      var s := ChunkId(p, i);
      var d, e := Decimal(i), Decimal(j);
      ChunkIdSuffix(p, i);
      ChunkIdSuffix(q, j);
      assert |d| == |e|;
      assert d == s[|s| - |d|..] == e;
      assert p == s[..|p|] == q;
      DecimalInjective(i, j);
    }
  }

  /** The types whose text is taken verbatim as the chunk's core content. */
  predicate IsTextType(k: Kind) {
    k.Paragraph? || k.BulletedListItem? || k.NumberedListItem? || k.Code?
    || k.Quote? || k.ToDo? || k.Toggle?
  }

  /** `core_content`: the block's own text, "Link: " + url for a link
      preview, and `None` for every other type (headings, embeds, child
      pages), which therefore emit no chunk. */
  function CoreContent(e: Entry): (r: Option<string>)
    ensures r.Some? <==> IsTextType(e.kind) || e.kind == LinkPreview
    ensures IsTextType(e.kind) ==> r == Some(e.content)
    ensures e.kind == LinkPreview ==> r == Some("Link: " + e.content)
  {
    if IsTextType(e.kind) then Some(e.content)
    else if e.kind == LinkPreview then Some("Link: " + e.content)
    else None
  }

  predicate IsContent(e: Entry) {
    CoreContent(e).Some?
  }

  /** `" ".join(filter(None, ancestor_titles + active_headings + [core_content]))`. */
  function ChunkText(ancestors: seq<string>, active: seq<string>, core: string): (r: string)
    ensures core != "" ==> |core| <= |r| && r[|r| - |core|..] == core
    ensures core == "" ==> r == JoinSpace(NonEmpty(ancestors + active))
  {
    var context := NonEmpty(ancestors + active);
    NonEmptyAppend(ancestors + active, [core]);
    NonEmptySingleton(core);
    if core == "" then
      assert context + [] == context;
      JoinSpace(NonEmpty(ancestors + active + [core]))
    else if context == [] then
      assert [] + [core] == [core];
      JoinSpace(NonEmpty(ancestors + active + [core]))
    else
      JoinSpaceSnoc(context, core);
      JoinSpace(NonEmpty(ancestors + active + [core]))
  }

  /** The oversize test `len(words) * 1.3 > 256`, in exact integer arithmetic. */
  predicate Oversize(text: string) {
    WordCount(text) * 13 > 2560
  }

  /** The integer test agrees with the guard read over the reals, and it
      first holds at 197 words: 196 words give 254.8, 197 give 256.1. */
  lemma OversizeExact(text: string)
    ensures Oversize(text) <==> (WordCount(text) as real) * 1.3 > 256.0
    ensures Oversize(text) <==> WordCount(text) >= 197
  {
  }

  /** The sub-chunks of one chunk text: both branches of the oversize guard
      keep the text whole. */
  function SubChunks(text: string): (r: seq<string>)
    ensures r == [text]
  {
    if Oversize(text) then [text] else [text]
  }

  /** The chunks emitted for entry `i`, given the heading stack after it. */
  function EmitAt(entries: seq<Entry>, i: nat, slots: Slots, ancestors: seq<string>, pageId: string): (r: seq<Chunk>)
    requires i < |entries|
    ensures |r| == (if IsContent(entries[i]) then 1 else 0)
    ensures forall c :: c in r ==> c.orderWithinPage == i && c.id == ChunkId(pageId, i) && c.blockType == entries[i].kind
    ensures forall c :: c in r ==> c.pageTitlePath == ancestors
  {
    var e := entries[i];
    match CoreContent(e)
    case None => []
    case Some(core) =>
      var active := ActiveHeadings(slots);
      var subs := SubChunks(ChunkText(ancestors, active, core));
      seq(|subs|, k requires 0 <= k < |subs| =>
        Chunk(ChunkId(pageId, i), subs[k], pageId,
              if e.kind == ChildPage then Some(e.content) else None,
              ancestors, active, e.kind, i))
  }

  /** The loop from entry `i` on, with heading stack `slots` before entry `i`. */
  function ChunkFrom(entries: seq<Entry>, i: nat, slots: Slots, ancestors: seq<string>, pageId: string): (r: seq<Chunk>)
    requires i <= |entries|
    ensures |r| <= |entries| - i
    ensures forall k :: 0 <= k < |r| ==> i <= r[k].orderWithinPage < |entries| && r[k].pageTitlePath == ancestors
    decreases |entries| - i
  {
    if i == |entries| then []
    else
      var slots' := Observe(slots, entries[i]);
      EmitAt(entries, i, slots', ancestors, pageId) + ChunkFrom(entries, i + 1, slots', ancestors, pageId)
  }

  /** `apply_hierarchy_and_chunk(blocks_data, ancestor_titles, page_id)`. */
  function ChunkPage(entries: seq<Entry>, ancestors: seq<string>, pageId: string): (r: seq<Chunk>)
    ensures |r| <= |entries|
    ensures forall k :: 0 <= k < |r| ==> r[k].orderWithinPage < |entries| && r[k].pageTitlePath == ancestors
  {
    ChunkFrom(entries, 0, NoHeadings, ancestors, pageId)
  }

  // ---------------------------------------------------------------------
  // Reference description of the output
  // ---------------------------------------------------------------------

  /** The indices, from `i` on, of the entries that produce a chunk. */
  function ContentIndicesFrom(entries: seq<Entry>, i: nat): (r: seq<nat>)
    requires i <= |entries|
    ensures forall k :: 0 <= k < |r| ==> i <= r[k] < |entries| && IsContent(entries[r[k]])
    ensures forall k, l :: 0 <= k < l < |r| ==> r[k] < r[l]
    ensures forall j :: i <= j < |entries| && IsContent(entries[j]) ==> j in r
    decreases |entries| - i
  {
    if i == |entries| then []
    else (if IsContent(entries[i]) then [i] else []) + ContentIndicesFrom(entries, i + 1)
  }

  /** The chunk that entry `i` must produce, described without the fold. */
  function ExpectedChunk(entries: seq<Entry>, i: nat, ancestors: seq<string>, pageId: string): Chunk
    requires i < |entries| && IsContent(entries[i])
  {
    var active := ActiveHeadings(SlotsAfter(entries, i + 1));
    Chunk(ChunkId(pageId, i), ChunkText(ancestors, active, CoreContent(entries[i]).value),
          pageId, None, ancestors, active, entries[i].kind, i)
  }

  predicate ValidIndices(entries: seq<Entry>, idx: seq<nat>) {
    forall k :: 0 <= k < |idx| ==> idx[k] < |entries| && IsContent(entries[idx[k]])
  }

  function ExpectedChunks(entries: seq<Entry>, idx: seq<nat>, ancestors: seq<string>, pageId: string): seq<Chunk>
    requires ValidIndices(entries, idx)
  {
    seq(|idx|, k requires 0 <= k < |idx| => ExpectedChunk(entries, idx[k], ancestors, pageId))
  }

  lemma ExpectedChunksAppend(entries: seq<Entry>, a: seq<nat>, b: seq<nat>, ancestors: seq<string>, pageId: string)
    requires ValidIndices(entries, a) && ValidIndices(entries, b)
    ensures ValidIndices(entries, a + b)
    ensures ExpectedChunks(entries, a + b, ancestors, pageId)
         == ExpectedChunks(entries, a, ancestors, pageId) + ExpectedChunks(entries, b, ancestors, pageId)
  {
    ValidIndicesAppend(entries, a, b);
    var ca := ExpectedChunks(entries, a, ancestors, pageId);
    var cb := ExpectedChunks(entries, b, ancestors, pageId);
    forall k | 0 <= k < |a| ensures ExpectedChunks(entries, a + b, ancestors, pageId)[k] == ca[k] {
      ExpectedChunkAt(entries, a + b, k, a, k, ancestors, pageId);
    }
    forall k | 0 <= k < |b| ensures ExpectedChunks(entries, a + b, ancestors, pageId)[|a| + k] == cb[k] {
      ExpectedChunkAt(entries, a + b, |a| + k, b, k, ancestors, pageId);
    }
    assert |ExpectedChunks(entries, a + b, ancestors, pageId)| == |ca| + |cb|;
  }

  /** Two index lists that agree at one position give the same expected chunk there. */
  lemma ExpectedChunkAt(entries: seq<Entry>, x: seq<nat>, k: nat, y: seq<nat>, l: nat, ancestors: seq<string>, pageId: string)
    requires ValidIndices(entries, x) && ValidIndices(entries, y)
    requires k < |x| && l < |y| && x[k] == y[l]
    ensures ExpectedChunks(entries, x, ancestors, pageId)[k] == ExpectedChunks(entries, y, ancestors, pageId)[l]
  {
  }

  lemma ValidIndicesAppend(entries: seq<Entry>, a: seq<nat>, b: seq<nat>)
    requires ValidIndices(entries, a) && ValidIndices(entries, b)
    ensures ValidIndices(entries, a + b)
  {
    var ab := a + b;
    forall k | 0 <= k < |ab| ensures ab[k] < |entries| && IsContent(entries[ab[k]]) {
      if k < |a| { assert ab[k] == a[k]; } else { assert ab[k] == b[k - |a|]; }
    }
  }

  lemma EmitAtIsExpected(entries: seq<Entry>, i: nat, ancestors: seq<string>, pageId: string)
    requires i < |entries|
    ensures EmitAt(entries, i, SlotsAfter(entries, i + 1), ancestors, pageId)
         == (if IsContent(entries[i]) then [ExpectedChunk(entries, i, ancestors, pageId)] else [])
  {
  }

  /** The fold from entry `i` on produces exactly the expected chunks of the
      content entries from `i` on, in order. */
  lemma {:induction false} ChunkFromIsExpected(entries: seq<Entry>, i: nat, ancestors: seq<string>, pageId: string)
    requires i <= |entries|
    ensures ChunkFrom(entries, i, SlotsAfter(entries, i), ancestors, pageId)
         == ExpectedChunks(entries, ContentIndicesFrom(entries, i), ancestors, pageId)
    decreases |entries| - i
  {
    if i < |entries| {
      var head: seq<nat> := if IsContent(entries[i]) then [i] else [];
      var tail := ContentIndicesFrom(entries, i + 1);
      ChunkFromIsExpected(entries, i + 1, ancestors, pageId);
      EmitAtIsExpected(entries, i, ancestors, pageId);
      ExpectedChunksAppend(entries, head, tail, ancestors, pageId);
      assert ExpectedChunks(entries, head, ancestors, pageId)
          == (if IsContent(entries[i]) then [ExpectedChunk(entries, i, ancestors, pageId)] else []);
    }
  }

  /** The page's chunks, one per content entry, each as described by `ExpectedChunk`. */
  lemma ChunkPageIsExpected(entries: seq<Entry>, ancestors: seq<string>, pageId: string)
    ensures ChunkPage(entries, ancestors, pageId)
         == ExpectedChunks(entries, ContentIndicesFrom(entries, 0), ancestors, pageId)
  {
    ChunkFromIsExpected(entries, 0, ancestors, pageId);
  }

  // ---------------------------------------------------------------------
  // Properties of one page's chunks
  // ---------------------------------------------------------------------

  /** Every chunk comes from a content entry at index `orderWithinPage`,
      carries that entry's type, the id `page_id-i`, no source block id, a
      copy of the ancestor titles, the headings in scope after that entry,
      and the single-space join of the non-empty context and core texts. */
  lemma ChunkPageFields(entries: seq<Entry>, ancestors: seq<string>, pageId: string)
    ensures var cs := ChunkPage(entries, ancestors, pageId);
      forall k :: 0 <= k < |cs| ==>
        var c, i := cs[k], cs[k].orderWithinPage;
        && i < |entries| && IsContent(entries[i])
        && (IsTextType(c.blockType) || c.blockType == LinkPreview)
        && c.blockType == entries[i].kind
        && c.id == ChunkId(pageId, i)
        && c.sourcePageId == pageId
        && c.sourceBlockId == None
        && c.pageTitlePath == ancestors
        && c.activeHeadings == ActiveHeadings(SlotsAfter(entries, i + 1))
        && |c.activeHeadings| <= 3
        && c.text == ChunkText(ancestors, c.activeHeadings, CoreContent(entries[i]).value)
  {
    ChunkPageIsExpected(entries, ancestors, pageId);
  }

  /** An entry yields a chunk if and only if its type is one of the eight
      content types; headings, embeds and child pages yield none. */
  lemma ChunkPageCoversContent(entries: seq<Entry>, ancestors: seq<string>, pageId: string)
    ensures var cs := ChunkPage(entries, ancestors, pageId);
      forall j :: 0 <= j < |entries| ==>
        ((IsTextType(entries[j].kind) || entries[j].kind == LinkPreview)
         <==> exists k :: 0 <= k < |cs| && cs[k].orderWithinPage == j)
  {
    var cs := ChunkPage(entries, ancestors, pageId);
    var idx := ContentIndicesFrom(entries, 0);
    ChunkPageIsExpected(entries, ancestors, pageId);
    assert |cs| == |idx|;
    assert forall k :: 0 <= k < |cs| ==> cs[k].orderWithinPage == idx[k];
    forall j | 0 <= j < |entries|
      ensures IsContent(entries[j]) <==> exists k :: 0 <= k < |cs| && cs[k].orderWithinPage == j
    {
      if IsContent(entries[j]) {
        assert j in idx;
        var k :| 0 <= k < |idx| && idx[k] == j;
        assert cs[k].orderWithinPage == j;
      }
    }
  }

  /** Orders strictly increase along the chunk list (with gaps where
      entries were skipped). */
  lemma ChunkPageOrderIncreasing(entries: seq<Entry>, ancestors: seq<string>, pageId: string)
    ensures var cs := ChunkPage(entries, ancestors, pageId);
      forall k, l :: 0 <= k < l < |cs| ==> cs[k].orderWithinPage < cs[l].orderWithinPage
  {
    ChunkPageIsExpected(entries, ancestors, pageId);
  }

  /** No two chunks of a page share an id. */
  lemma ChunkPageIdsUnique(entries: seq<Entry>, ancestors: seq<string>, pageId: string)
    ensures var cs := ChunkPage(entries, ancestors, pageId);
      forall k, l :: 0 <= k < |cs| && 0 <= l < |cs| && k != l ==> cs[k].id != cs[l].id
  {
    var cs := ChunkPage(entries, ancestors, pageId);
    ChunkPageIsExpected(entries, ancestors, pageId);
    forall k, l | 0 <= k < |cs| && 0 <= l < |cs| && k != l
      ensures cs[k].id != cs[l].id
    {
      ChunkIdInjective(pageId, cs[k].orderWithinPage, pageId, cs[l].orderWithinPage);
    }
  }

  /** The number of content entries. */
  function CountContent(entries: seq<Entry>): nat {
    if entries == [] then 0
    else (if IsContent(entries[0]) then 1 else 0) + CountContent(entries[1..])
  }

  lemma {:induction false} ContentIndicesCount(entries: seq<Entry>, i: nat)
    requires i <= |entries|
    ensures |ContentIndicesFrom(entries, i)| == CountContent(entries[i..])
    decreases |entries| - i
  {
    if i < |entries| {
      assert entries[i..][1..] == entries[i + 1..];
      ContentIndicesCount(entries, i + 1);
    }
  }

  /** A page yields exactly as many chunks as it has content entries. */
  lemma ChunkPageCount(entries: seq<Entry>, ancestors: seq<string>, pageId: string)
    ensures |ChunkPage(entries, ancestors, pageId)| == CountContent(entries)
  {
    ChunkPageIsExpected(entries, ancestors, pageId);
    ContentIndicesCount(entries, 0);
    assert entries[0..] == entries;
  }

  /** The active headings of a chunk are the headings in scope after its
      entry, read level by level without the fold. */
  lemma ChunkHeadingsInScope(entries: seq<Entry>, ancestors: seq<string>, pageId: string)
    ensures var cs := ChunkPage(entries, ancestors, pageId);
      forall k :: 0 <= k < |cs| ==>
        var n := cs[k].orderWithinPage + 1;
        && n <= |entries|
        && cs[k].activeHeadings
           == Present([InScope(entries, n, 0), InScope(entries, n, 1), InScope(entries, n, 2)])
  {
    var cs := ChunkPage(entries, ancestors, pageId);
    ChunkPageFields(entries, ancestors, pageId);
    forall k | 0 <= k < |cs|
      ensures cs[k].orderWithinPage + 1 <= |entries|
      ensures var n := cs[k].orderWithinPage + 1;
        cs[k].activeHeadings == Present([InScope(entries, n, 0), InScope(entries, n, 1), InScope(entries, n, 2)])
    {
      SlotsAfterAsScope(entries, cs[k].orderWithinPage + 1);
    }
  }

  /** The chunk text ends with the core content, after one space when some
      context text is non-empty; an empty core adds nothing. */
  lemma ChunkTextShape(ancestors: seq<string>, active: seq<string>, core: string)
    ensures var context := NonEmpty(ancestors + active);
      ChunkText(ancestors, active, core) ==
        if core == "" then JoinSpace(context)
        else if context == [] then core
        else JoinSpace(context) + " " + core
  {
    var context := NonEmpty(ancestors + active);
    NonEmptyAppend(ancestors + active, [core]);
    NonEmptySingleton(core);
    if core == "" {
      assert context + [] == context;
    } else if context != [] {
      JoinSpaceSnoc(context, core);
    }
  }

  /** The example heading sequence H1 "Intro", H3 "Detail", H2 "Overview",
      then a paragraph: the level-2 heading clears "Detail" and keeps "Intro". */
  lemma HeadingExample()
    ensures ChunkPage(ExampleEntries(), ["Root"], "p") == [ExampleChunk()]
  {
    ExampleSlots();
    ExampleMiddleSteps();
    assert ChunkFrom(ExampleEntries(), 1, [Some("Intro"), None, None], ["Root"], "p") == [ExampleChunk()];
  }

  /** The two headings after the first emit nothing. */
  lemma ExampleMiddleSteps()
    ensures ChunkFrom(ExampleEntries(), 1, [Some("Intro"), None, None], ["Root"], "p") == [ExampleChunk()]
  {
    var entries := ExampleEntries();
    var s2: Slots := [Some("Intro"), None, Some("Detail")];
    ExampleSlots();
    ExampleLastStep();
    assert ChunkFrom(entries, 2, s2, ["Root"], "p") == [ExampleChunk()];
  }

  /** The fold over the example's last entry emits the example chunk. */
  lemma ExampleLastStep()
    ensures ChunkFrom(ExampleEntries(), 3, [Some("Intro"), Some("Overview"), None], ["Root"], "p") == [ExampleChunk()]
  {
    var entries := ExampleEntries();
    var s3: Slots := [Some("Intro"), Some("Overview"), None];
    ExampleSlots();
    ExampleEmit();
    assert ChunkFrom(entries, 4, s3, ["Root"], "p") == [];
  }

  function ExampleEntries(): seq<Entry> {
    [Entry("Intro", Heading1), Entry("Detail", Heading3), Entry("Overview", Heading2), Entry("text", Paragraph)]
  }

  function ExampleChunk(): Chunk {
    Chunk("p" + "-" + "3", "Root" + " " + "Intro" + " " + "Overview" + " " + "text",
          "p", None, ["Root"], ["Intro", "Overview"], Paragraph, 3)
  }

  lemma ExampleEmit()
    ensures EmitAt(ExampleEntries(), 3, [Some("Intro"), Some("Overview"), None], ["Root"], "p") == [ExampleChunk()]
  {
    var s3: Slots := [Some("Intro"), Some("Overview"), None];
    ActiveHeadingsInLevelOrder(s3);
    ExampleText();
    assert ActiveHeadings(s3) == ["Intro", "Overview"];
    assert Decimal(3) == "3";
    assert CoreContent(ExampleEntries()[3]) == Some("text");
    assert ChunkId("p", 3) == "p" + "-" + "3";
    var out := EmitAt(ExampleEntries(), 3, s3, ["Root"], "p");
    assert |out| == 1 && out[0] == ExampleChunk();
  }

  lemma ExampleSlots()
    ensures Observe([None, None, None], Entry("Intro", Heading1)) == [Some("Intro"), None, None]
    ensures Observe([Some("Intro"), None, None], Entry("Detail", Heading3)) == [Some("Intro"), None, Some("Detail")]
    ensures Observe([Some("Intro"), None, Some("Detail")], Entry("Overview", Heading2)) == [Some("Intro"), Some("Overview"), None]
    ensures Observe([Some("Intro"), Some("Overview"), None], Entry("text", Paragraph)) == [Some("Intro"), Some("Overview"), None]
  {
  }

  lemma ExampleText()
    ensures ChunkText(["Root"], ["Intro", "Overview"], "text") == "Root" + " " + "Intro" + " " + "Overview" + " " + "text"
  {
    var parts := ["Root", "Intro", "Overview", "text"];
    assert ["Root"] + ["Intro", "Overview"] + ["text"] == parts;
    ExampleNonEmpty();
    ExampleJoin();
  }

  lemma ExampleJoin()
    ensures JoinSpace(["Root", "Intro", "Overview", "text"]) == "Root" + " " + "Intro" + " " + "Overview" + " " + "text"
  {
    JoinSpaceSnoc(["Root"], "Intro");
    assert ["Root"] + ["Intro"] == ["Root", "Intro"];
    JoinSpaceSnoc(["Root", "Intro"], "Overview");
    assert ["Root", "Intro"] + ["Overview"] == ["Root", "Intro", "Overview"];
    JoinSpaceSnoc(["Root", "Intro", "Overview"], "text");
    assert ["Root", "Intro", "Overview"] + ["text"] == ["Root", "Intro", "Overview", "text"];
  }

  lemma ExampleNonEmpty()
    ensures NonEmpty(["Root", "Intro", "Overview", "text"]) == ["Root", "Intro", "Overview", "text"]
  {
  }
}
