# pyopml core in Dafny

A model of the core of pyopml, an OPML 2.0 reader and writer, with proofs about it. The core maps
an in-memory OPML document onto an XML element tree and back. The document has header fields and a
tree of outlines.

- **Outlines** (`outline.dfy`, module `Outlines`). An outline is a value: its text, its optional
  fields and its child outlines.
  - Writing an outline first applies the per-type rules. The text must be non-empty. An `rss`
    outline needs a feed URL, and any version it declares must be one of RSS, RSS1, RSS2 or
    scriptingNews. `link` and `include` outlines need a URL.
  - The element is then built one `set` at a time, in the source's order: `text`, `type`,
    `isComment`, `isBreakpoint`, `created`, `xmlUrl`, `description`, `htmlUrl`, `language`, `title`,
    `version`, `url`, `category`.
  - The children are then built in order. The first failure, in depth-first order, is the result.
- **Outlinable** (`outlinable.dfy`; the document's own list is in `document.dfy`). Both the document
  and every outline have an append-only list of outlines, plus factories that fill in `type` and the
  field that type requires. Reading walks only the children tagged `outline`, in document order.
- **Document** (`document.dfy`, class `Document.OpmlDocument`). The header fields and the outline
  list are fields of a class that methods update in place.
  - Building writes `opml version="2.0"` with `head`, then `body`. `head` holds each present header
    field in a fixed order and always ends with `docs`.
  - The older builder is the same, except that its `docs` link differs.
  - Reading checks, in order: the root `version`, then that `head` exists. It then reads the header
    fields one at a time, then checks that `body` exists, then reads the outlines.
- **XML** (`xml.dfy`). A plain recursive element with tag, ordered attributes, optional text and
  ordered children stands in for lxml. `findtext` gives `""` for a child found without text.
- Errors are values `Error(family, reason, outline)`. `family` is the read or write error class.
  `outline` is the text of the outline at fault, when there is one.
- `outline_properties.dfy` and `document_properties.dfy` hold the properties proved about the
  encoders.
- `scenarios.dfy` replays the library's read and write scenarios on concrete documents.

Python truthiness (`None` and `""` both false) is `Text.Present`. Dates are an opaque type. Writing
one is a `Formatter` parameter (RFC 2822 text); reading one is a `Parser` parameter that gives `None`
for malformed text. Outline decoding (`OpmlOutline.unbuild_tree`) is a parameter `unbuild`.

## Model

| member | source | states |
|---|---|---|
| Outlines.NewOutline | opml/outline.py:7-22 | a new outline has the given text and options and no children |
| Outlines.Validate | opml/outline.py:24-38 | a missing or empty text fails first, with no outline named; an "rss" outline passes iff its feed URL is present and its version is absent or a known RSS version, and fails for the URL before the version; "link"/"include" pass iff the URL is present; any other or no type adds no rule; the failing outline is named |
| Outlines.OutlineElement | opml/outline.py:24-77 | an outline that breaks its own rules fails with that error before any child is looked at; a built element is an `outline` without text with one child per child outline |
| Outlines.ChildErrorPropagates | opml/outline.py:75-77 | an outline that passes its own rules but whose child list fails gives that list's error; with `ChildElementsFirstError` this is the first failure in depth-first order at every depth |
| Outlines.ChildElements | opml/outlinable.py:104-106 | a list that builds gives exactly one element per outline (the elements themselves and the failure case are stated by the three lemmas below) |
| Outlines.ChildElementsOk | opml/outlinable.py:104-106 | a list of outlines builds iff every outline in it builds |
| Outlines.ChildElementsValues | opml/outlinable.py:104-106 | the elements built for a list are the outlines' elements, in the same order |
| Outlines.ChildElementsFirstError | opml/outlinable.py:104-106 | a failing list fails with the error of its first failing outline, and every outline before it builds |
| Outlines.OutlineErrorFamily | opml/outline.py:24-77 | every error from writing an outline tree is a write error |
| Outlines.ChildErrorFamily | opml/outlinable.py:104-106 | every error from writing a list of outline trees is a write error |
| Outlines.ErrorPersists | opml/outlinable.py:104-106 | once a prefix of the list fails, the whole list fails with the same error (the walk stops) |
| Outlines.BuildOutline | opml/outline.py:24-77 | the step-by-step build gives exactly the specified element or error |
| Outlines.SetAttributes | opml/outline.py:28-73 | creating the element with `text` and then setting each present attribute in order gives the specified attribute list |
| Outlines.SetFeedAttributes | opml/outline.py:51-61 | setting `xmlUrl`, `description`, `htmlUrl`, `language` when present advances the attribute list by those four |
| Outlines.SetRemainingAttributes | opml/outline.py:63-73 | setting `title`, `version`, `url` and the comma-joined `category` when present completes the attribute list |
| Outlines.BuildOutlinesTree | opml/outlinable.py:104-106 | the loop appends one element per outline, in order, after the parent's existing children, and stops at the first failure with its error |
| OutlineProperties.AttributedUpToGet | opml/outline.py:28-73 | after `text` and the first k attributes are written: `text` is the outline's text, each of the k attributes has its value, the later ones are absent, and no unknown attribute exists |
| OutlineProperties.OutlineAttributes | opml/outline.py:28-73 | `text` is always written; `type` iff present; `isComment`/`isBreakpoint` are "true" iff the flag is set, otherwise absent; `created` is the formatted date iff there is one; each feed and link field iff present, with its value; `category` is absent for no categories, otherwise their comma-join in order; no other attribute |
| OutlineProperties.OutlineChildren | opml/outline.py:75-77 | a built element has the outline's attributes and, as children, exactly its child outlines' elements in order |
| OutlineProperties.BuildOkIffValid | opml/outline.py:24-77 | a tree builds iff every outline in it passes its own rules |
| OutlineProperties.EmptyTitleLost | opml/outline.py:63-64 | an empty title is not written: an outline with title "" and the same outline without a title build the same element, so no decoder can invert the encoder on every outline |
| OutlineProperties.OwnErrorFirst | opml/outline.py:24-38 | an invalid outline fails with its own error whatever its children are |
| OutlineProperties.BuildErrorNamesOutline | opml/outline.py:24-38 | an outline's own failure is a write error naming the outline, except a missing text |
| Outlinable.RssOptions | opml/outlinable.py:31-60 | `add_rss` sets type "rss" and the feed URL and passes every other argument through unchanged, with no URL |
| Outlinable.LinkOptions | opml/outlinable.py:62-81 | `add_link` sets type "link" and the URL and passes the flags, date and categories through; the feed fields stay absent |
| Outlinable.IncludeOptions | opml/outlinable.py:83-102 | `add_include` sets type "include" and the URL, as for links |
| Outlinable.AddOutline | opml/outlinable.py:25-29 | adding to an outline appends exactly one new outline last and keeps the existing children and the outline's own fields |
| Outlinable.UnbuiltOutlines | opml/outlinable.py:108-114 | reading the children gives at most one outline per child (which ones, and the failure case, are stated by `UnbuiltOutlinesTagged`) |
| Outlinable.UnbuiltOutlinesTagged | opml/outlinable.py:108-114 | reading succeeds iff every `outline` child decodes, giving one outline per such child in order and skipping other tags; a failure gives the outlines before the first child that fails, and that child's error |
| Document.OpmlDocument.constructor | opml/document.py:57-71 | a new document has the given header fields (every one absent and no expansion state by default) and no outlines |
| Document.OpmlDocument.AddOutline | opml/outlinable.py:25-29 | appends exactly the new outline at the end, keeps the existing ones, and returns it |
| Document.OpmlDocument.AddRss | opml/outlinable.py:31-60 | appends and returns an outline of type "rss" with the given feed URL, without validating it |
| Document.OpmlDocument.AddLink | opml/outlinable.py:62-81 | appends and returns an outline of type "link" with the given URL |
| Document.OpmlDocument.AddInclude | opml/outlinable.py:83-102 | appends and returns an outline of type "include" with the given URL |
| Document.OpmlDocument.UnbuildOutlinesTree | opml/outlinable.py:108-114 | the loop appends the decoded outlines after the existing ones, in order; on a failure the outlines decoded before it stay appended and the error is returned |
| Document.HeadUpTo | opml/document.py:214-251 | the `head` under construction is a bare `head` element (no attributes, no text) |
| Document.EncodeDocument | opml/document.py:212-257 | building succeeds iff every top-level outline builds; a failure is the first outline's write error; the result is `opml` whose only attribute is `version="2.0"`, no text and exactly the children `head` then `body`, `body` holding the outlines' elements in order |
| Document.ParseDate | opml/document.py:148-156 | a date fails to read iff its text is non-empty and malformed, as an invalid-date read error; otherwise there is a date iff the text is non-empty, the parsed one |
| Document.SplitExpansion | opml/document.py:173-176 | a non-empty `expansionState` text gives line numbers whose comma-join is that text; otherwise none |
| Document.DecodeHeader | opml/document.py:143-201 | reading the header fails iff a present date text is malformed, with an invalid-date read error |
| Document.DecodeDocument | opml/document.py:127-210 | a missing or empty version fails first; then a version other than "2.0"; then a missing `head`; then a header error; then a missing `body`; when all of them pass, the result is the first outline-decoding error if there is one, and otherwise success with the header read from `head` and the outlines read from `body`; conversely a success has passed every check |
| Document.OpmlDocument.BuildHead | opml/document.py:214-253 | the step-by-step `head` is the specified one |
| Document.OpmlDocument.AppendTitleAndDates | opml/document.py:217-224 | appends `title`, `dateCreated`, `dateModified` when present |
| Document.OpmlDocument.AppendOwner | opml/document.py:226-233 | appends `ownerName`, `ownerEmail`, `ownerId` when present |
| Document.OpmlDocument.AppendViewState | opml/document.py:235-239 | appends the comma-joined `expansionState` when there are line numbers, and `vertScrollState` when present |
| Document.OpmlDocument.AppendWindow | opml/document.py:241-251 | appends the four window edges when present |
| Document.OpmlDocument.BuildWith | opml/document.py:212-257 | building reads the fields and assigns none; it gives the specified document element or error |
| Document.OpmlDocument.BuildTree | opml/document.py:212-257 | the current builder, with `docs` = http://opml.org/spec2.opml |
| Document.OpmlDocument.LegacyBuildTree | opml/opml_document.py:39-84 | the older builder: the same tree with `docs` = http://dev.opml.org/spec2.html |
| Document.OpmlDocument.ReadHeader | opml/document.py:143-201 | on an empty document, the field-by-field reading fails iff the header is malformed, with its error; otherwise the fields are exactly the header read |
| Document.OpmlDocument.ReadTitleAndDates | opml/document.py:143-156 | sets the title and dates only from non-empty texts; a malformed date stops with an invalid-date error |
| Document.OpmlDocument.ReadOwner | opml/document.py:158-171 | sets `ownerName`, `ownerEmail` and `ownerId` each to its tag's text when that is non-empty, and otherwise leaves it as it was |
| Document.OpmlDocument.ReadViewState | opml/document.py:173-181 | sets the expansion state to the text split on commas and the scroll state, only from non-empty texts |
| Document.OpmlDocument.ReadWindow | opml/document.py:183-201 | sets each of the four window edges to its tag's text when that is non-empty, and otherwise leaves it as it was |
| Document.OpmlDocument.UnbuildTree | opml/document.py:127-210 | reading into a fresh document agrees with `DecodeDocument`: the same error, or the same header and outlines |
| Document.HeaderFromTexts | opml/document.py:143-201 | a header whose fields hold the non-empty texts of `head` over the defaults is the header read |
| Document.FirstUnbuildFailure | opml/outlinable.py:108-114 | once reading a prefix of the children fails, reading all of them fails the same way |
| DocumentProperties.HeadUpToFindText | opml/document.py:217-251 | after k fields, the text of each of the first k tags is the field's written value, the later tags are absent, and there is no `docs` yet |
| DocumentProperties.HeadFields | opml/document.py:217-253 | in `head`, each header tag's text is the field's written value, and `docs` holds the link |
| DocumentProperties.HeadUpToChildren | opml/document.py:217-251 | the children of `head` are exactly the present fields, in the fixed order, each with its value |
| DocumentProperties.HeadOrder | opml/opml_document.py:44-80 | a header tag appears iff its field is present, in the fixed order title … windowRight, and `docs` is the last child |
| DocumentProperties.ExpansionRoundTrip | opml/document.py:173-176 | line numbers without commas that are not empty or a single empty one survive join then split |
| DocumentProperties.ExpansionTextRoundTrip | opml/document.py:173-176 | a non-empty `expansionState` text survives split then join |
| DocumentProperties.NormalizedIdentity | opml/document.py:143-201 | a header without empty texts, and without a single empty line number, reads back unchanged |
| DocumentProperties.HeadTexts | opml/document.py:217-251 | the text under each header tag of the written `head`, field by field |
| DocumentProperties.HeaderRoundTrip | opml/document.py:143-201 | reading the written `head` gives the header back, up to empty texts, when the header's own dates read back and its line numbers hold no comma |
| DocumentProperties.BodyRoundTrip | opml/outlinable.py:104-114 | reading back the elements written for a list of outlines gives the list, when the decoder reads each of these outlines' elements back as that outline |
| DocumentProperties.DocumentRoundTrip | opml/document.py:127-257 | decoding an encoded document gives its header (up to empty texts) and its outlines back, whichever `docs` link was written, under the two premises above for this header and these outlines |
| DocumentProperties.DocumentRoundTripInstance | opml/document.py:127-257 | the premises can be met: a header with a title, a creation date and line numbers "2", "5", with any valid outline tree, decodes back unchanged |
| DocumentProperties.EncodeFailsOnAnyOutline | opml/opml_document.py:82 | building fails iff some top-level outline fails |
| DocumentProperties.EncodersDifferOnlyInDocs | opml/opml_document.py:39-84 | the current and older builders succeed together and differ only in the `docs` child |
| Text.Split | opml/document.py:176 | `split(',')` gives at least one piece and no piece holds the separator |
| Text.JoinSplit | opml/document.py:176 | joining the pieces of a split text with the separator gives the text back |
| Text.SplitJoin | opml/document.py:236 | splitting the join of a non-empty list of separator-free pieces gives the list back |
| Scenarios.SampleHeaderReads | tests/test_document_unserialize.py:31-36 | `expansionState` "2,5" reads as "2", "5"; "4" and "50" stay text; fields without a tag keep their defaults |
| Scenarios.MissingVersionRefused | tests/test_document_unserialize.py:107-111 | a root without `version` is refused for the version |
| Scenarios.OldVersionRefusedBeforeHead | tests/test_document_unserialize.py:114-118 | a 1.0 root is refused as unsupported even without `head` |
| Scenarios.MissingBodyRefused | tests/test_document_unserialize.py:128-132 | a good root and header without `body` is refused for the body |
| Scenarios.FeedWithoutXmlUrlFails | tests/test_document_serialize.py:119-126 | a nested feed without a feed URL fails the whole document, naming "CIA News Feed" |
| Scenarios.FeedWithUnknownVersionFails | tests/test_document_serialize.py:129-136 | a nested feed with version "NONE" fails the whole document, naming the feed |
| Scenarios.LinkWithoutUrlFails | tests/test_document_serialize.py:139-146 | a nested link without a URL fails the whole document, naming the link |
| Scenarios.UnknownVersionFailsOnlyAtBuild | opml/outlinable.py:31-60 | `add_rss` accepts version "NONE"; only building the document fails, with the invalid-version write error |

## Left out

- `loads`, `load`, `dumps`, `dump`, `to_string` and `to_file`. These cover XML text parsing and
  serialising, pretty-printing, encodings and file I/O (opml/document.py:73-125,
  opml/opml_document.py:23-37). The model starts and ends at the element tree. For the same reason
  it does not compare output byte for byte with a sample file.
- RFC 2822 date formatting and parsing (`email.utils`). These are the `Formatter` and `Parser`
  parameters. The round-trip lemmas assume only that the header's own dates format as non-empty
  text that parses back (`DatesRoundTrip`). RFC 2822 text keeps whole seconds, so a date with a
  fraction of a second does not meet this.
- `OpmlOutline.unbuild_tree` is not part of this model. It is the `unbuild` parameter. The
  document round trip assumes only that it reads back the elements of the outlines at hand
  (`OutlinesRoundTrip`). A decoder that does this for every outline cannot exist, because the
  encoder drops empty texts (`EmptyTitleLost`).
- Aliasing of outlines. The source returns the outline object it appended, and callers then add
  children to it or edit its fields in place, so the change shows in the parent's list. In the model
  outlines are values. A nested tree is built with `Outlinable.AddOutline` before it is added, so an
  edit after adding is not modelled.
- Python's shared mutable default `categories=[]` in the factories. Categories are value sequences.
- Exceptions and messages. The code raises `ValueError`, with a message that does not name the
  outline. The library's scenarios expect the read or write error class with an `(outline: "...")`
  suffix. The model keeps the error class as `family`, the rule as `reason` and the outline's text
  as `outline`, and follows the code's checks and their order. Message texts are not modelled.
- XML character restrictions. lxml refuses texts and attribute values that XML cannot hold, such
  as NUL or other control characters, with `ValueError`. So in the source an outline with text
  `"a\x00"` fails at opml/outline.py:28, but it builds in the model, whose element accepts any string.
- A malformed date: the parser used by the code raises on it. The model reports that as an
  invalid-date read error and stops reading.
- The root tag is never checked on reading (opml/document.py:127-210). So the "Not an OPML
  document" case expected by the scenarios has no counterpart in the model.
- Numeric header fields (`vertScrollState`, the window edges) are kept as the text read, as the
  code does. Building writes them as given, and the model's header holds strings. The library's
  write scenarios set integers here (`expansion_state = [2, 5]`, integer window edges), which the
  code as written cannot write: `','.join` of integers and an integer element text both raise
  `TypeError` (opml/document.py:236-251). Those scenarios would stop at the header before reaching
  the failing outline. The string-typed header rules this case out, so the model replays the
  scenarios' outline failures only.
- Outlines.ChildElements: its own contract states only the length of a built list; which
  elements, and which error, are stated by `ChildElementsOk`, `ChildElementsValues` and
  `ChildElementsFirstError`.
- Outlinable.UnbuiltOutlines: its own contract states only a bound on the outlines read; which
  outlines, and which error, are stated by `UnbuiltOutlinesTagged`.
- Text.Split: its own contract states the pieces' shape; their content is pinned by `JoinSplit`
  and `SplitJoin`.
- Document.DecodeHeader: its contract states only when reading fails. What a successful read
  gives, field by field, is stated by `DocumentProperties.HeaderRoundTrip` and
  `Scenarios.SampleHeaderReads`, and by `Document.OpmlDocument.ReadHeader` against the function.
- DocumentProperties.HeaderRoundTrip: holds up to `Normalized`. Empty texts read back as absent,
  and an expansion state that is one empty line number reads back as none. This is how the code
  behaves, not a weaker promise.
