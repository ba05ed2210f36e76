/** The three-slot heading stack of `apply_hierarchy_and_chunk`
    (backend/services/notion.py:142-164). Slot 0 holds the active
    heading_1 text, slot 1 heading_2, slot 2 heading_3. */
module Headings {
  import opened Options
  import opened Blocks

  type Slots = s: seq<Option<string>> | |s| == 3 witness [None, None, None]

  /** `current_headings` before the first block. */
  const NoHeadings: Slots := [None, None, None]

  /** `heading_level_map`: the slot a heading type writes, `None` for the other types. */
  function HeadingSlot(k: Kind): (r: Option<nat>)
    ensures r.Some? <==> k.Heading1? || k.Heading2? || k.Heading3?
    ensures r.Some? ==> r.value < 3
    ensures k.Heading1? ==> r == Some(0)
    ensures k.Heading2? ==> r == Some(1)
    ensures k.Heading3? ==> r == Some(2)
  {
    match k
    case Heading1 => Some(0)
    case Heading2 => Some(1)
    case Heading3 => Some(2)
    case _ => None
  }

  /** The loop `for j in range(idx + 1, 3): current_headings[j] = None`, from slot `j` on. */
  function ClearFrom(s: Slots, j: nat): (r: Slots)
    ensures forall k :: 0 <= k < 3 ==> r[k] == (if k >= j then None else s[k])
    decreases 3 - j
  {
    if j >= 3 then s else ClearFrom(s[j := None], j + 1)
  }

  /** The heading stack after seeing one block: a heading writes its slot
      and clears every deeper slot; any other block changes nothing. */
  function Observe(s: Slots, e: Entry): (r: Slots)
    ensures HeadingSlot(e.kind).None? ==> r == s
    ensures HeadingSlot(e.kind).Some? ==>
      var level := HeadingSlot(e.kind).value;
      && r[level] == Some(e.content)
      && (forall k :: 0 <= k < level ==> r[k] == s[k])
      && (forall k :: level < k < 3 ==> r[k] == None)
  {
    match HeadingSlot(e.kind)
    case None => s
    case Some(level) => ClearFrom(s[level := Some(e.content)], level + 1)
  }

  /** `[h for h in slots if h is not None]`. */
  function Present(slots: seq<Option<string>>): (r: seq<string>)
    ensures |r| <= |slots|
    ensures forall k :: 0 <= k < |slots| && slots[k].Some? ==> slots[k].value in r
    ensures forall x :: x in r ==> Some(x) in slots
  {
    if slots == [] then []
    else (if slots[0].Some? then [slots[0].value] else []) + Present(slots[1..])
  }

  /** One slot keeps its text exactly when it is filled; with `PresentAppend`
      this fixes the order and the multiplicity of the kept texts. */
  lemma PresentSingleton(x: Option<string>)
    ensures Present([x]) == (if x.Some? then [x.value] else [])
  {
    assert [x][1..] == [];
  }

  /** Keeping the filled slots of a concatenation keeps those of each part. */
  lemma {:induction false} PresentAppend(a: seq<Option<string>>, b: seq<Option<string>>)
    ensures Present(a + b) == Present(a) + Present(b)
    decreases |a|
  {
    if a == [] {
      assert a + b == b;
    } else {
      assert (a + b)[1..] == a[1..] + b;
      PresentAppend(a[1..], b);
    }
  }

  /** The active headings, shallowest first. */
  function ActiveHeadings(s: Slots): (r: seq<string>)
    ensures |r| <= 3
    ensures forall k :: 0 <= k < 3 && s[k].Some? ==> s[k].value in r
    ensures forall x :: x in r ==> Some(x) in s
  {
    Present(s)
  }

  /** The active headings list the filled slots in level order; an empty
      heading text stays in the list, since only `None` is filtered out. */
  lemma ActiveHeadingsInLevelOrder(s: Slots)
    ensures ActiveHeadings(s) ==
      (if s[0].Some? then [s[0].value] else [])
      + (if s[1].Some? then [s[1].value] else [])
      + (if s[2].Some? then [s[2].value] else [])
  {
    var t := s[1..];
    var u := t[1..];
    assert u[1..] == [];
    assert Present(u) == (if s[2].Some? then [s[2].value] else []);
    assert Present(t) == (if s[1].Some? then [s[1].value] else []) + Present(u);
  }

  /** The heading stack after the first `n` blocks, starting from no headings. */
  function SlotsAfter(entries: seq<Entry>, n: nat): Slots
    requires n <= |entries|
  {
    if n == 0 then NoHeadings else Observe(SlotsAfter(entries, n - 1), entries[n - 1])
  }

  /** A block that opens a scope at level `level` or shallower. */
  predicate OpensAtMost(e: Entry, level: nat) {
    HeadingSlot(e.kind).Some? && HeadingSlot(e.kind).value <= level
  }

  /** The last of the first `n` blocks that is a heading at `level` or shallower. */
  function LastOpener(entries: seq<Entry>, n: nat, level: nat): (r: Option<nat>)
    requires n <= |entries|
    ensures r.Some? ==>
      && r.value < n
      && OpensAtMost(entries[r.value], level)
      && (forall j :: r.value < j < n ==> !OpensAtMost(entries[j], level))
    ensures r.None? ==> forall j :: 0 <= j < n ==> !OpensAtMost(entries[j], level)
  {
    if n == 0 then None
    else if OpensAtMost(entries[n - 1], level) then Some(n - 1)
    else LastOpener(entries, n - 1, level)
  }

  /** Declarative reading of slot `level` after `n` blocks: the heading text
      of the last block opening a scope at that level or shallower, provided
      that block is itself at exactly that level; otherwise nothing. */
  function InScope(entries: seq<Entry>, n: nat, level: nat): Option<string>
    requires n <= |entries|
  {
    match LastOpener(entries, n, level)
    case None => None
    case Some(j) => if HeadingSlot(entries[j].kind) == Some(level) then Some(entries[j].content) else None
  }

  /** The heading stack after `n` blocks, read slot by slot from `InScope`. */
  lemma SlotsAfterAsScope(entries: seq<Entry>, n: nat)
    requires n <= |entries|
    ensures SlotsAfter(entries, n) == [InScope(entries, n, 0), InScope(entries, n, 1), InScope(entries, n, 2)]
  {
    SlotsAfterAreInScope(entries, n);
  }

  /** The fold of `Observe` computes exactly the headings in scope. */
  lemma {:induction false} SlotsAfterAreInScope(entries: seq<Entry>, n: nat)
    requires n <= |entries|
    ensures forall level :: 0 <= level < 3 ==> SlotsAfter(entries, n)[level] == InScope(entries, n, level)
  {
    if n > 0 {
      SlotsAfterAreInScope(entries, n - 1);
    }
  }
}
