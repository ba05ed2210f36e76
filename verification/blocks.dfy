/** Notion blocks and their flattening into `(text, type)` entries
    (`get_title` and `get_block_contents` in backend/services/notion.py).

    The HTTP responses are replaced by datatypes: a block's children
    listing is either the fetched sequence of blocks or a fetch failure,
    and the JSON paths the extractor reads are optional fields. */
module Blocks {
  import opened Options

  /** The Notion block types the extractor knows by name; `Unsupported`
      stands for every other type (image, divider, table, ...). */
  datatype Kind =
    | Paragraph | BulletedListItem | NumberedListItem | Code | Quote | ToDo | Toggle
    | LinkPreview | Embed | ChildPage | Heading1 | Heading2 | Heading3
    | Unsupported

  /** Membership in `STRING_BLOCK_TYPES`. */
  predicate IsStringType(k: Kind) {
    !k.Unsupported?
  }

  /** One rich-text object; `plainText` is `None` when it has no `plain_text` string. */
  datatype RichText = RichText(plainText: Option<string>)

  /** The type-specific object `block[block_type]`: its `rich_text` list
      (`None` when the key is absent), whether a `caption` key is present,
      and the `url` (`None` when absent). */
  datatype Payload = Payload(richText: Option<seq<RichText>>, hasCaption: bool, url: Option<string>)

  /** A block as the children endpoint returns it. `payload` is `None` when
      `block[block_type]` is missing; `children` is what fetching this
      block's own children would return. */
  datatype BlockNode = BlockNode(
    id: string,
    kind: Kind,
    payload: Option<Payload>,
    hasChildren: bool,
    children: Listing)

  /** The outcome of fetching one children listing. */
  datatype Listing = Fetched(blocks: seq<BlockNode>) | FetchFailed

  /** One `(text, type)` pair of the flattened block list. */
  datatype Entry = Entry(content: string, kind: Kind)

  /** The pair `get_block_contents` returns: flattened entries and child-page ids. */
  datatype Flat = Flat(entries: seq<Entry>, subpages: seq<string>)

  /** Text extraction either yields a string or raises KeyError/IndexError/TypeError. */
  datatype Extraction = Extracted(text: string) | ExtractionFailed

  /** The page object; `titleItems` is `properties.title.title`, `None`
      when any key on that path is missing. */
  datatype PageJson = PageJson(titleItems: Option<seq<RichText>>)

  predicate HasRichText(p: Payload) {
    p.richText.Some? && |p.richText.value| > 0
  }

  /** The expression `items[0]['plain_text']`, which raises when the list is
      absent, empty, or its first object has no plain text. */
  function FirstPlainText(items: Option<seq<RichText>>): (r: Extraction)
    ensures r.Extracted? <==> items.Some? && |items.value| > 0 && items.value[0].plainText.Some?
    ensures r.Extracted? ==> Some(r.text) == items.value[0].plainText
  {
    match items
    case None => ExtractionFailed
    case Some(xs) =>
      if |xs| == 0 then ExtractionFailed
      else match xs[0].plainText
        case None => ExtractionFailed
        case Some(t) => Extracted(t)
  }

  /** The title of a page, or "" when it cannot be extracted. */
  function GetTitle(page: PageJson): (r: string)
    ensures page.titleItems.None? ==> r == ""
    ensures page.titleItems.Some? && |page.titleItems.value| == 0 ==> r == ""
    ensures r != "" ==> page.titleItems.Some? && |page.titleItems.value| > 0
                        && page.titleItems.value[0].plainText == Some(r)
    ensures page.titleItems.Some? && |page.titleItems.value| > 0 && page.titleItems.value[0].plainText.Some?
            ==> Some(r) == page.titleItems.value[0].plainText
  {
    match FirstPlainText(page.titleItems)
    case Extracted(t) => t
    case ExtractionFailed => ""
  }

  /** The text extraction of one block of a type in `STRING_BLOCK_TYPES`. */
  function ExtractText(kind: Kind, payload: Option<Payload>): (r: Extraction)
    ensures r.ExtractionFailed? <==>
      || payload.None?
      || (HasRichText(payload.value) && payload.value.richText.value[0].plainText.None?)
      || (!HasRichText(payload.value) && kind == Code && payload.value.hasCaption)
    ensures r.Extracted? && HasRichText(payload.value) ==>
      Some(r.text) == payload.value.richText.value[0].plainText
    ensures r.Extracted? && !HasRichText(payload.value) ==>
      r.text == (if kind == LinkPreview && payload.value.url.Some? then payload.value.url.value else "")
  {
    match payload
    case None => ExtractionFailed
    case Some(p) =>
      if HasRichText(p) then FirstPlainText(p.richText)
      // The code-caption branch reads `rich_text[0]` again, not the caption.
      else if kind == Code && p.hasCaption then FirstPlainText(p.richText)
      else if kind == LinkPreview && p.url.Some? then Extracted(p.url.value)
      else Extracted("")
  }

  function Concat(a: Flat, b: Flat): Flat {
    Flat(a.entries + b.entries, a.subpages + b.subpages)
  }

  /** Both halves succeed, or the whole fails (an exception propagates). */
  function Combine(a: Option<Flat>, b: Option<Flat>): Option<Flat> {
    if a.Some? && b.Some? then Some(Concat(a.value, b.value)) else None
  }

  /** `get_block_contents` on one listing; `None` means the call raised. */
  function FlattenListing(l: Listing): (r: Option<Flat>)
    ensures r.Some? ==> |r.value.subpages| <= |r.value.entries|
    ensures l.FetchFailed? ==> r.None?
    decreases l
  {
    match l
    case FetchFailed => None
    case Fetched(bs) => FlattenSeq(bs)
  }

  /** The loop over `block_json['results']`. */
  function FlattenSeq(bs: seq<BlockNode>): (r: Option<Flat>)
    ensures r.Some? ==> |r.value.subpages| <= |r.value.entries|
    decreases bs
  {
    if bs == [] then Some(Flat([], []))
    else Combine(FlattenBlock(bs[0]), FlattenSeq(bs[1..]))
  }

  /** What one block contributes to the flattened lists. */
  function FlattenBlock(b: BlockNode): (r: Option<Flat>)
    ensures r.Some? ==> |r.value.subpages| <= |r.value.entries|
    decreases b
  {
    if b.kind == ChildPage then
      Some(Flat([Entry(b.id, ChildPage)], [b.id]))
    else if !IsStringType(b.kind) then
      Some(Flat([], []))
    else match ExtractText(b.kind, b.payload)
      case ExtractionFailed => Some(Flat([Entry("", b.kind)], []))
      case Extracted(t) =>
        if b.hasChildren then Combine(Some(Flat([Entry(t, b.kind)], [])), FlattenListing(b.children))
        else Some(Flat([Entry(t, b.kind)], []))
  }

  /** The ids carried by the child-page entries, in order. */
  function ChildPageIds(entries: seq<Entry>): seq<string>
  {
    if entries == [] then []
    else (if entries[0].kind == ChildPage then [entries[0].content] else []) + ChildPageIds(entries[1..])
  }

  lemma {:induction false} ChildPageIdsAppend(a: seq<Entry>, b: seq<Entry>)
    ensures ChildPageIds(a + b) == ChildPageIds(a) + ChildPageIds(b)
  {
    if a == [] {
      assert a + b == b;
    } else {
      assert (a + b)[1..] == a[1..] + b;
      ChildPageIdsAppend(a[1..], b);
    }
  }

  // ---------------------------------------------------------------------
  // Properties of the flattening
  // ---------------------------------------------------------------------

  lemma CombineAssociative(a: Option<Flat>, b: Option<Flat>, c: Option<Flat>)
    ensures Combine(Combine(a, b), c) == Combine(a, Combine(b, c))
  {
    if a.Some? && b.Some? && c.Some? {
      assert a.value.entries + b.value.entries + c.value.entries
          == a.value.entries + (b.value.entries + c.value.entries);
      assert a.value.subpages + b.value.subpages + c.value.subpages
          == a.value.subpages + (b.value.subpages + c.value.subpages);
    }
  }

  lemma CombineEmpty(a: Option<Flat>)
    ensures Combine(a, Some(Flat([], []))) == a
    ensures Combine(Some(Flat([], [])), a) == a
  {
    if a.Some? {
      assert a.value.entries + [] == a.value.entries == [] + a.value.entries;
      assert a.value.subpages + [] == a.value.subpages == [] + a.value.subpages;
    }
  }

  /** Flattening distributes over concatenation of sibling lists: the
      entries of `a` come first, then those of `b`; a failure anywhere is a
      failure of the whole. */
  lemma {:induction false} FlattenSeqAppend(a: seq<BlockNode>, b: seq<BlockNode>)
    ensures FlattenSeq(a + b) == Combine(FlattenSeq(a), FlattenSeq(b))
  {
    if a == [] {
      assert a + b == b;
      CombineEmpty(FlattenSeq(b));
    } else {
      assert (a + b)[0] == a[0];
      assert (a + b)[1..] == a[1..] + b;
      FlattenSeqAppend(a[1..], b);
      CombineAssociative(FlattenBlock(a[0]), FlattenSeq(a[1..]), FlattenSeq(b));
    }
  }

  /** A listing flattens successfully exactly when every top-level block does. */
  lemma {:induction false} FlattenSeqSucceeds(bs: seq<BlockNode>)
    ensures FlattenSeq(bs).Some? <==> forall i :: 0 <= i < |bs| ==> FlattenBlock(bs[i]).Some?
  {
    if bs != [] {
      FlattenSeqSucceeds(bs[1..]);
      assert forall i :: 1 <= i < |bs| ==> bs[i] == bs[1..][i - 1];
    }
  }

  /** A string-typed block with extracted text and children, listed alone:
      its entry, then its children's entries and subpages. */
  lemma SplicedBlockAlone(b: BlockNode, t: string)
    requires b.kind != ChildPage && IsStringType(b.kind) && b.hasChildren
    requires ExtractText(b.kind, b.payload) == Extracted(t)
    requires FlattenListing(b.children).Some?
    ensures var kids := FlattenListing(b.children).value;
      FlattenSeq([b]) == Some(Flat([Entry(t, b.kind)] + kids.entries, kids.subpages))
  {
    var kids := FlattenListing(b.children).value;
    var own := Flat([Entry(t, b.kind)] + kids.entries, kids.subpages);
    assert FlattenBlock(b) == Some(own) by {
      assert [] + kids.subpages == kids.subpages;
    }
    assert [b][1..] == [];
    CombineEmpty(FlattenBlock(b));
  }

  /** A string-typed block whose text extracts and that has children is
      followed immediately by its flattened children, before its next sibling. */
  lemma ChildrenSplicedAfterParent(pre: seq<BlockNode>, b: BlockNode, post: seq<BlockNode>, t: string)
    requires b.kind != ChildPage && IsStringType(b.kind) && b.hasChildren
    requires ExtractText(b.kind, b.payload) == Extracted(t)
    requires FlattenSeq(pre).Some? && FlattenListing(b.children).Some? && FlattenSeq(post).Some?
    ensures FlattenSeq(pre + [b] + post).Some?
    ensures FlattenSeq(pre + [b] + post).value.entries ==
      FlattenSeq(pre).value.entries + [Entry(t, b.kind)]
      + FlattenListing(b.children).value.entries + FlattenSeq(post).value.entries
  {
    var kids := FlattenListing(b.children).value.entries;
    SplicedBlockAlone(b, t);
    FlattenSeqAppend(pre, [b]);
    FlattenSeqAppend(pre + [b], post);
    var p := FlattenSeq(pre).value.entries;
    var q := FlattenSeq(post).value.entries;
    var e := [Entry(t, b.kind)];
    assert FlattenSeq(pre + [b] + post).value.entries == (p + (e + kids)) + q;
    assert (p + (e + kids)) + q == p + e + kids + q;
  }

  /** A block whose children are not visited: its contribution does not
      depend on its children listing at all, even a failing one. */
  predicate ChildrenSkipped(b: BlockNode) {
    || b.kind == ChildPage
    || !IsStringType(b.kind)
    || ExtractText(b.kind, b.payload).ExtractionFailed?
    || !b.hasChildren
  }

  lemma ChildrenNotVisited(b: BlockNode, other: Listing)
    requires ChildrenSkipped(b)
    ensures FlattenBlock(b) == FlattenBlock(b.(children := other))
    ensures FlattenBlock(b).Some?
  {
  }

  /** Unsupported types vanish; a failed extraction keeps its place with "". */
  lemma SingleBlockContribution(b: BlockNode)
    ensures !IsStringType(b.kind) ==> FlattenBlock(b) == Some(Flat([], []))
    ensures b.kind == ChildPage ==> FlattenBlock(b) == Some(Flat([Entry(b.id, ChildPage)], [b.id]))
    ensures b.kind != ChildPage && IsStringType(b.kind) && ExtractText(b.kind, b.payload).ExtractionFailed?
            ==> FlattenBlock(b) == Some(Flat([Entry("", b.kind)], []))
    ensures b.kind != ChildPage && IsStringType(b.kind) && ExtractText(b.kind, b.payload).Extracted? && !b.hasChildren
            ==> FlattenBlock(b) == Some(Flat([Entry(ExtractText(b.kind, b.payload).text, b.kind)], []))
    ensures (b.kind != ChildPage && IsStringType(b.kind) && ExtractText(b.kind, b.payload).Extracted?
             && b.hasChildren && FlattenListing(b.children).None?)
            ==> FlattenBlock(b).None?
  {
  }

  /** A block whose text extracts, listed alone: without children it gives
      exactly its `(text, type)` entry; with a failing children listing the
      whole call fails. */
  lemma ExtractedBlockContribution(b: BlockNode, t: string)
    requires b.kind != ChildPage && IsStringType(b.kind)
    requires ExtractText(b.kind, b.payload) == Extracted(t)
    ensures !b.hasChildren ==> FlattenSeq([b]) == Some(Flat([Entry(t, b.kind)], []))
    ensures b.hasChildren && FlattenListing(b.children).None? ==> FlattenSeq([b]).None?
  {
    assert [b][1..] == [];
    CombineEmpty(FlattenBlock(b));
  }

  /** One block anywhere in a listing whose text extracts and whose own
      children listing fails makes the whole listing fail. */
  lemma NestedFailureFailsListing(bs: seq<BlockNode>, i: nat)
    requires i < |bs| && bs[i].kind != ChildPage && IsStringType(bs[i].kind)
    requires ExtractText(bs[i].kind, bs[i].payload).Extracted? && bs[i].hasChildren
    requires FlattenListing(bs[i].children).None?
    ensures FlattenListing(Fetched(bs)).None?
  {
    SingleBlockContribution(bs[i]);
    FlattenSeqSucceeds(bs);
  }

  /** A code block with a caption but no rich text always takes the
      extraction-failure path, whatever the caption holds. */
  lemma CodeCaptionAlwaysFails(p: Payload)
    requires p.hasCaption && !HasRichText(p)
    ensures ExtractText(Code, Some(p)) == ExtractionFailed
  {
  }

  /** Every flattened entry has a type from `STRING_BLOCK_TYPES`, and the
      child-page ids are exactly the contents of the child-page entries, in
      the same relative order. */
  predicate WellFormed(f: Flat) {
    && (forall k :: 0 <= k < |f.entries| ==> IsStringType(f.entries[k].kind))
    && f.subpages == ChildPageIds(f.entries)
  }

  lemma WellFormedConcat(a: Flat, b: Flat)
    requires WellFormed(a) && WellFormed(b)
    ensures WellFormed(Concat(a, b))
  {
    ChildPageIdsAppend(a.entries, b.entries);
  }

  lemma {:induction false} FlattenListingWellFormed(l: Listing)
    ensures FlattenListing(l).Some? ==> WellFormed(FlattenListing(l).value)
    decreases l
  {
    match l
    case FetchFailed =>
    case Fetched(bs) => FlattenSeqWellFormed(bs);
  }

  lemma {:induction false} FlattenSeqWellFormed(bs: seq<BlockNode>)
    ensures FlattenSeq(bs).Some? ==> WellFormed(FlattenSeq(bs).value)
    decreases bs
  {
    if bs != [] {
      FlattenBlockWellFormed(bs[0]);
      FlattenSeqWellFormed(bs[1..]);
      if FlattenSeq(bs).Some? {
        WellFormedConcat(FlattenBlock(bs[0]).value, FlattenSeq(bs[1..]).value);
      }
    }
  }

  lemma {:induction false} FlattenBlockWellFormed(b: BlockNode)
    ensures FlattenBlock(b).Some? ==> WellFormed(FlattenBlock(b).value)
    decreases b
  {
    if b.kind != ChildPage && IsStringType(b.kind) && b.hasChildren {
      match ExtractText(b.kind, b.payload)
      case ExtractionFailed =>
      case Extracted(t) =>
        FlattenListingWellFormed(b.children);
        if FlattenListing(b.children).Some? {
          var head := Flat([Entry(t, b.kind)], []);
          assert WellFormed(head);
          WellFormedConcat(head, FlattenListing(b.children).value);
        }
    }
  }
}
