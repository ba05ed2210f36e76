# Hierarchical Notion chunker: a Dafny model

This project models the chunking core of `backend/services/notion.py`.
That core turns a tree of Notion pages into flat text chunks, each carrying
the context of its ancestor page titles and the headings that are open
above it. The model has three layers, as the Python code does:

1. **Block flattening** (`get_title`, `get_block_contents`), in module
   `Blocks`. A page's children listing is a tree of `BlockNode`s. It is
   flattened into `(text, type)` entries plus the ordered list of child-page
   ids. The children of a block are spliced in right after it. Blocks of
   unknown types are dropped. When text extraction fails, the block keeps
   its place with text `""` and its children are skipped. A failed nested
   fetch makes the whole page listing fail.
2. **Heading-scoped chunking** (`apply_hierarchy_and_chunk`), in modules
   `Headings` and `Chunker`. A left-to-right fold keeps a three-slot heading
   stack and emits one chunk record per content-bearing entry. The record
   has the id `page_id-i`, the single-space joined text, the title path, the
   active headings, the type and the order.
3. **Page walk** (`process_page`), in module `PageWalk`. This is a
   depth-first, pre-order recursion over child pages. It threads one shared
   title stack, which the `finally` clause pops back to its length on
   entry. A failure inside one page is swallowed.

Module `Text` holds the string operations the chunker relies on:
`str(i)` for the index, `filter(None, ...)`, `" ".join(...)` and the word
count behind `str.split()`. Module `Options` holds `Option`.

The HTTP responses are datatypes. A `Listing` is either the fetched blocks
or `FetchFailed`. A page store maps page ids to their page object and
children listing, and an id with no entry is a page whose fetch raises.
The JSON paths the extractor reads are optional fields, so each
`KeyError`, `IndexError` or `TypeError` the code catches is a reachable
case of the model.

The model follows what the code does:

- The chunk text is the single-space join of the non-empty strings among
  the ancestor titles, the active headings and the core content. It has no
  markdown prefixes, no blank-line separators and no `last_updated`
  timestamp.
- `order_within_page` is the index in the flattened list. Skipped entries
  (headings, embeds, child pages) count too, so orders have gaps.
- Headings produce no chunk.
- A failing subpage does not stop its siblings.
- The code-caption branch (notion.py:98-99) reads `rich_text[0]` again. It
  therefore always takes the extraction-failure path. This is proved as
  `Blocks.CodeCaptionAlwaysFails`.

The source only prints each page's chunk list. `PageWalk.ProcessPage`
returns the lists, concatenated in the order they are printed.

Two formulations are proved equal:

- `Chunker.ChunkPage` is the fold with its heading stack. The reference
  `Chunker.ExpectedChunks` lists one chunk per content entry, each built
  from the heading stack after that entry. Separately,
  `Headings.SlotsAfterAreInScope` shows that this stack holds exactly the
  headings in scope by `Headings.InScope`, with no fold involved, and
  `Chunker.ChunkHeadingsInScope` restates each chunk's headings that way.
- `PageWalk.ProcessPage` threads the mutable title stack.
  `PageWalk.Visit` passes the ancestor titles down by value.

## Model

| member | source | states |
|---|---|---|
| Blocks.GetTitle | backend/services/notion.py:63-70 | the title is the first title object's plain text; it is "" when the title path is missing, the list is empty or the plain text is missing |
| Blocks.FirstPlainText | backend/services/notion.py:96-97 | `items[0]['plain_text']` succeeds exactly when the list is present and non-empty and its first object has plain text, and then yields that text |
| Blocks.ExtractText | backend/services/notion.py:93-113 | extraction fails exactly when the type object is missing, or the first rich-text object lacks plain text, or a code block with a caption has no rich text. Otherwise the text is the first rich-text plain text, else a link preview's url, else "" |
| Blocks.CodeCaptionAlwaysFails | backend/services/notion.py:98-99 | a code block with a caption key and no rich text always takes the extraction-failure path |
| Blocks.FlattenListing | backend/services/notion.py:84-125 | a failed children fetch makes the call fail; a successful flattening lists no more subpage ids than entries, since each id comes with its own `child_page` entry; what each block contributes is stated by `Blocks.SingleBlockContribution` and `Blocks.ExtractedBlockContribution`, and the order and splicing by `Blocks.FlattenSeqAppend`, `Blocks.ChildrenSplicedAfterParent` and `Blocks.FlattenListingWellFormed` |
| Blocks.FlattenSeq | backend/services/notion.py:84-119 | the same bound for a list of sibling blocks; `Blocks.ExtractedBlockContribution` fixes a one-block list, and `Blocks.FlattenSeqAppend`, `Blocks.FlattenSeqSucceeds` and `Blocks.NestedFailureFailsListing` give its order and its failure cases |
| Blocks.FlattenBlock | backend/services/notion.py:88-119 | the same bound for one block with its children; `Blocks.SingleBlockContribution` gives what every kind of block contributes, `Blocks.ChildrenSplicedAfterParent` where its children go, and `Blocks.ChildrenNotVisited` when they are ignored |
| Blocks.FlattenSeqAppend | backend/services/notion.py:84-119 | flattening sibling lists `a + b` gives the entries and subpage ids of `a` followed by those of `b`, and fails if either part fails |
| Blocks.FlattenSeqSucceeds | backend/services/notion.py:115-123 | a listing flattens successfully exactly when every block in it does |
| Blocks.NestedFailureFailsListing | backend/services/notion.py:115-123 | one block whose text extracts, which has children and whose children fetch fails makes the whole listing fail |
| Blocks.ChildrenSplicedAfterParent | backend/services/notion.py:115-119 | a block with children is followed immediately by its flattened children, before its next sibling |
| Blocks.ChildrenNotVisited | backend/services/notion.py:88-113 | child pages, unsupported types, failed extractions and blocks without `has_children` contribute the same whatever their children listing holds, even a failing one |
| Blocks.SingleBlockContribution | backend/services/notion.py:88-119 | an unsupported type contributes nothing, a child page contributes `(id, child_page)` and its id, and a failed extraction contributes `("", type)`; an extracted block without children contributes `(text, type)`, and one with a failing children fetch fails |
| Blocks.ExtractedBlockContribution | backend/services/notion.py:96-119 | listed alone, a block whose text extracts gives exactly its `(text, type)` entry when it has no children, and makes the call fail when its children fetch fails |
| Blocks.FlattenListingWellFormed | backend/services/notion.py:84-125 | every flattened entry has a type from `STRING_BLOCK_TYPES`, and the subpage ids are the child-page entries' ids in the same relative order |
| Blocks.FlattenSeqWellFormed | backend/services/notion.py:84-119 | the same invariant for a list of sibling blocks |
| Blocks.FlattenBlockWellFormed | backend/services/notion.py:88-119 | the same invariant for one block and its spliced children |
| Headings.HeadingSlot | backend/services/notion.py:142-146 | `heading_1` writes slot 0, `heading_2` slot 1 and `heading_3` slot 2; no other type has a slot |
| Headings.ClearFrom | backend/services/notion.py:159-160 | every slot from `j` on is cleared, and the slots before `j` are kept |
| Headings.Observe | backend/services/notion.py:156-160 | a level-L heading sets slot L to its text, clears every deeper slot and keeps the shallower ones; other blocks change nothing |
| Headings.Present | backend/services/notion.py:163 | the kept texts are no more than the slots; every filled slot's text is kept and nothing else is; its order and multiplicity follow from `Headings.PresentSingleton` and `Headings.PresentAppend` |
| Headings.PresentSingleton | backend/services/notion.py:163 | one slot keeps its text exactly when it is filled |
| Headings.PresentAppend | backend/services/notion.py:163 | keeping the filled slots of a concatenation keeps those of each part, in order |
| Headings.ActiveHeadings | backend/services/notion.py:163 | there are at most three active headings, and they are exactly the filled slots' texts (their order is stated by `Headings.ActiveHeadingsInLevelOrder`) |
| Headings.ActiveHeadingsInLevelOrder | backend/services/notion.py:163 | the active headings list the filled slots in level order, and empty heading texts are kept |
| Headings.LastOpener | backend/services/notion.py:152-160 | finds the last of the first n blocks that is a heading at the given level or shallower; no later block is one |
| Headings.SlotsAfterAreInScope | backend/services/notion.py:148-160 | after n blocks, slot L holds the text of the last heading at level L or shallower if it is exactly at level L, and is empty otherwise |
| Text.Decimal | backend/services/notion.py:209 | the rendering of an index is a non-empty string of digits, one digit long exactly for indices below 10, starting with '0' only for index 0, so never with a leading zero |
| Text.DecimalRoundTrip | backend/services/notion.py:209 | reading the rendered digits back gives the index |
| Text.DecimalInjective | backend/services/notion.py:209 | distinct indices render differently |
| Text.NonEmpty | backend/services/notion.py:179 | `filter(None, ...)` keeps every non-empty string and only strings from the input, none of them empty; its order and multiplicity follow from `Text.NonEmptySingleton` and `Text.NonEmptyAppend` |
| Text.NonEmptySingleton | backend/services/notion.py:179 | a single string is kept exactly when it is non-empty |
| Text.NonEmptyAppend | backend/services/notion.py:179 | filtering a concatenation filters each part |
| Text.JoinSpace | backend/services/notion.py:179 | joining no parts gives ""; otherwise the joined text starts with the first part, and its length is at least the number of parts minus one, the number of separators; `Text.JoinSpaceSnoc` and `Text.JoinSpaceLength` state its exact shape |
| Text.JoinSpaceSnoc | backend/services/notion.py:179 | joining one more part appends one space and that part |
| Text.JoinSpaceLength | backend/services/notion.py:179 | the joined text is the parts' characters plus one space between neighbours |
| Text.WordCount | backend/services/notion.py:189 | there are no more words than characters, and there are none exactly when every character is a separator |
| Chunker.ChunkId | backend/services/notion.py:209 | a chunk id is the page id, then '-', then a non-empty run of digits; `Chunker.ChunkIdIndex` fixes those digits to the index, and `Chunker.ChunkIdInjective` shows that the id determines the page and the index |
| Chunker.ChunkIdIndex | backend/services/notion.py:209 | the digits after the page id and '-' read back as the index `i` itself |
| Chunker.ChunkIdSuffix | backend/services/notion.py:209 | a chunk id has '-' just before its index, and the index is all digits |
| Chunker.ChunkIdInjective | backend/services/notion.py:209 | equal chunk ids have equal page ids and equal indices |
| Chunker.CoreContent | backend/services/notion.py:167-176 | only the seven text types and link previews have core content; text types use the text unchanged, and link previews use "Link: " + url |
| Chunker.ChunkText | backend/services/notion.py:179 | the text ends with the core content when that is non-empty, and is the join of the non-empty context alone when the core is empty; `Chunker.ChunkTextShape` gives the full shape |
| Chunker.OversizeExact | backend/services/notion.py:189-191 | the integer test `13 * n > 2560` holds exactly when `n * 1.3 > 256` over the reals, that is from 197 words on |
| Chunker.SubChunks | backend/services/notion.py:181-205 | the oversize guard never changes the text; the sub-chunk list is always the text alone |
| Chunker.EmitAt | backend/services/notion.py:178-218 | an entry emits one chunk exactly when it has core content, and none otherwise; that chunk has the entry's index as its order, the id `page_id-i`, the entry's type and the ancestor titles as its path |
| Chunker.ChunkFrom | backend/services/notion.py:152-218 | the fold from entry i on emits at most one chunk per remaining entry, each with an order among the remaining entries and the ancestor titles as its path; `Chunker.ChunkFromIsExpected` states exactly which |
| Chunker.ChunkPage | backend/services/notion.py:133-220 | a page yields at most one chunk per entry, each ordered within the page and carrying the ancestor titles; the exact list is given by `Chunker.ChunkPageIsExpected` and `Chunker.ChunkPageFields` |
| Chunker.ContentIndicesFrom | backend/services/notion.py:152-178 | the content entries' indices from i on, strictly increasing, including every content entry |
| Chunker.ExpectedChunksAppend | backend/services/notion.py:207-218 | the expected chunks of two index lists concatenate |
| Chunker.ChunkFromIsExpected | backend/services/notion.py:152-218 | the fold from entry i on, started from the heading stack after i entries, emits exactly the expected chunks of the content entries from i on, in order |
| Chunker.ChunkPageIsExpected | backend/services/notion.py:133-220 | a page's chunk list is exactly one expected chunk per content entry, in entry order |
| Chunker.ChunkPageFields | backend/services/notion.py:207-218 | each chunk has a content type, id `page_id-i` with `i` its order, no source block id, the ancestor titles as its title path, at most three active headings (those after its entry), and the join of the non-empty titles, headings and core |
| Chunker.ChunkPageCoversContent | backend/services/notion.py:167-178 | an entry yields a chunk exactly when its type is paragraph, bulleted or numbered list item, code, quote, to-do, toggle or link preview |
| Chunker.ChunkPageOrderIncreasing | backend/services/notion.py:216 | orders strictly increase along a page's chunks |
| Chunker.ChunkPageIdsUnique | backend/services/notion.py:209 | no two chunks of a page share an id |
| Chunker.ChunkPageCount | backend/services/notion.py:152-178 | a page yields as many chunks as it has content entries |
| Chunker.ChunkHeadingsInScope | backend/services/notion.py:156-164 | a chunk's active headings are the in-scope headings of levels 1 to 3 after its entry, with no fold involved |
| Chunker.ChunkTextShape | backend/services/notion.py:179 | the text is the joined non-empty context followed by one space and the core. It is the core alone when no context is non-empty, and an empty core adds nothing |
| Chunker.HeadingExample | backend/services/notion.py:142-218 | for H1 "Intro", H3 "Detail", H2 "Overview", then a paragraph, the only chunk is `p-3` with headings ["Intro", "Overview"] and text "Root Intro Overview text" |
| PageWalk.PopTo | backend/services/notion.py:255-259 | popping leaves the first `len` titles, or the stack unchanged when it is not longer |
| PageWalk.ProcessPage | backend/services/notion.py:222-259 | a page call returns the title stack exactly as it received it, on every path, and a page whose fetch fails yields no chunks; `PageWalk.ProcessPageMatchesVisit` and `PageWalk.FetchedPageChunks` give its chunks |
| PageWalk.ProcessSubpages | backend/services/notion.py:248-250 | the subpage loop also returns the stack as it received it; `PageWalk.ProcessSubpagesMatchesVisitAll` and `PageWalk.SiblingsIndependent` give its chunks |
| PageWalk.ProcessPageMatchesVisit | backend/services/notion.py:222-259 | on every path, a page call returns the title stack exactly as it received it, and its chunks equal those of the walk that passes titles by value |
| PageWalk.ProcessSubpagesMatchesVisitAll | backend/services/notion.py:248-250 | the subpage loop restores the stack too, and matches the by-value walk |
| PageWalk.FailedPageYieldsNothing | backend/services/notion.py:231-259 | a page whose fetch or block listing fails yields no chunks, visits no subpage and leaves the stack as it was |
| PageWalk.FetchedPageChunks | backend/services/notion.py:236-250 | a fetched page's own chunks come first, built with its own title as the last ancestor; then come its subpages' chunks in `subpage_ids` order |
| PageWalk.SiblingsIndependent | backend/services/notion.py:249-254 | each subpage starts from the same stack, whatever its earlier siblings did, and a sibling whose fetch or block listing fails contributes nothing |
| PageWalk.WalkChunksWellFormed | backend/services/notion.py:236-250 | every emitted chunk names a stored page, has id `page_id-order`, and extends the starting stack with a title path that ends in its own page's title; equal ids mean the same page and position |

## Left out

- HTTP (`fetch_url`, httpx, timeouts, status codes) and the JSON decoding are left out. Each fetch is an input: a `Listing` or a page-store entry, either present or failed.
- Loading the environment, the `sys.exit` on missing configuration, and the request headers are left out, because they are configuration plumbing.
- Logging, `pprint` and the oversize warning are side effects only.
- The tokenizer import and `split_text_by_tokens` are left out. The stub is never called.
- Asynchrony is not modelled. The traversal awaits each call in turn, so it is plain recursion here.
- PageWalk.ProcessPage: recursion depth is bounded by a `fuel` argument. Pages `fuel` or more levels below the start (the start page is level 0) are not visited. The Python code has no such bound: a cyclic page graph would recurse until Python's `RecursionError`, and `process_page` would catch that error.
- Blocks.ExtractText: JSON values of the wrong kind are not modelled separately. A failing `plain_text` lookup is one case (`RichText.plainText` is `None`). A `null` plain text, which Python would carry as `None` into the chunker, is not modelled.
- Chunker.Oversize: reads `1.3` as an exact decimal and compares in integers. Binary floating point is not modelled. No word count puts `n * 1.3` within rounding distance of 256 (196 words give 254.8, 197 give 256.1), so the outcome is the same.
- Text.WordCount: splits on space, \t, \n, \r, \v and \f only, not on the other characters Python's `str.split()` treats as whitespace (including \x1c to \x1f and the Unicode spaces). This only affects the warning branch, and both branches keep the text.
- A missing `type`, `id` or `results` key in a listing, which makes `get_block_contents` raise, is folded into `FetchFailed`.
- Exceptions outside `Exception` (for example `KeyboardInterrupt`) are not modelled. `process_page` does not catch them.
- `backend/services/chroma.py`, `backend/db/clients.py`, `backend/seed_database.py`, `backend/api/endpoints.py`, `backend/run_local.py` and the frontend are not part of this model. They are wrappers over the vector store, the HTTP service and the UI, and none of them holds hierarchy logic.
