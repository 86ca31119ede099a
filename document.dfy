/**
 * The OPML 2.0 document: its header fields and top-level outlines, the
 * encoder into an `opml` element (root `version="2.0"`, a `head` of present
 * header fields closed by a `docs` link, a `body` of outline elements) and
 * the decoder back, with its structural checks in order.
 */
module Document {
  import opened Wrappers
  import opened Text
  import opened Xml
  import opened Errors
  import opened Dates
  import opened Outlines
  import opened Outlinable

  /**
   * The header fields. The scroll and window positions are kept as the text
   * the decoder reads; `expansionState` is the list of line numbers as text.
   */
  datatype Header = Header(
    title: Option<string>,
    dateCreated: Option<DateTime>,
    dateModified: Option<DateTime>,
    ownerName: Option<string>,
    ownerEmail: Option<string>,
    ownerId: Option<string>,
    expansionState: seq<string>,
    vertScrollState: Option<string>,
    windowTop: Option<string>,
    windowLeft: Option<string>,
    windowBottom: Option<string>,
    windowRight: Option<string>)

  /** Every header field absent and no expanded lines. */
  const EmptyHeader := Header(None, None, None, None, None, None, [], None, None, None, None, None)

  /** The `docs` link written by the current encoder. */
  const DocsUrl := "http://opml.org/spec2.opml"

  /** The `docs` link written by the older encoder. */
  const LegacyDocsUrl := "http://dev.opml.org/spec2.html"

  /** The `expansionState` text: the line numbers joined by commas, when there are any. */
  function ExpansionText(xs: seq<string>): Option<string>
  {
    if xs != [] then Some(Join(xs, ',')) else None
  }

  /** Adds a last child with tag `t` and text `v` when there is a value. */
  function AppendIf(e: Element, t: string, v: Option<string>): (r: Element)
    ensures r.tag == e.tag && r.attributes == e.attributes && r.text == e.text
    ensures r.children == e.children + (if v.Some? then [Element(t, [], v, [])] else [])
  {
    if v.Some? then e.AppendText(t, v.value) else e
  }

  /** How many header fields `head` may hold before `docs`. */
  const HeadFieldCount := 12

  /** The tag of the `k`-th header field, in the order the fields are written. */
  function HeadTag(k: nat): string
    requires k < HeadFieldCount
  {
    match k
    case 0 => "title"
    case 1 => "dateCreated"
    case 2 => "dateModified"
    case 3 => "ownerName"
    case 4 => "ownerEmail"
    case 5 => "ownerId"
    case 6 => "expansionState"
    case 7 => "vertScrollState"
    case 8 => "windowTop"
    case 9 => "windowLeft"
    case 10 => "windowBottom"
    case 11 => "windowRight"
  }

  /** The text written for header field `HeadTag(k)`, if any: only present fields are written. */
  function HeadValue(h: Header, fmt: Formatter, k: nat): Option<string>
    requires k < HeadFieldCount
  {
    match k
    case 0 => Truthy(h.title)
    case 1 => DateText(h.dateCreated, fmt)
    case 2 => DateText(h.dateModified, fmt)
    case 3 => Truthy(h.ownerName)
    case 4 => Truthy(h.ownerEmail)
    case 5 => Truthy(h.ownerId)
    case 6 => ExpansionText(h.expansionState)
    case 7 => Truthy(h.vertScrollState)
    case 8 => Truthy(h.windowTop)
    case 9 => Truthy(h.windowLeft)
    case 10 => Truthy(h.windowBottom)
    case 11 => Truthy(h.windowRight)
  }

  /** The `head` element after the first `k` header fields are written. */
  function HeadUpTo(h: Header, fmt: Formatter, k: nat): (r: Element)
    requires k <= HeadFieldCount
    ensures r.tag == "head" && r.attributes == [] && r.text.None?
  {
    if k == 0 then NewElement("head")
    else AppendIf(HeadUpTo(h, fmt, k - 1), HeadTag(k - 1), HeadValue(h, fmt, k - 1))
  }

  /** The `head` element: the present header fields in their fixed order, then `docs`. */
  function HeadElement(h: Header, fmt: Formatter, docsUrl: string): (r: Element)
    ensures r.tag == "head" && r.attributes == [] && r.text.None?
  {
    HeadUpTo(h, fmt, HeadFieldCount).AppendText("docs", docsUrl)
  }

  /**
   * The `opml` element of a document: `version="2.0"`, then `head`, then a
   * `body` holding the top-level outlines' elements in order. The first
   * outline that fails to build makes the whole document fail.
   */
  function EncodeDocument(h: Header, outlines: seq<Outline>, fmt: Formatter, docsUrl: string): (r: Result<Element, Error>)
    ensures r.Ok? <==> ChildElements(outlines, fmt).Ok?
    ensures r.Err? ==> r.error == ChildElements(outlines, fmt).error && r.error.family == WriteError
    ensures r.Ok? ==> r.value.tag == "opml" && r.value.attributes == [("version", "2.0")] && r.value.text.None?
    ensures r.Ok? ==> |r.value.children| == 2 && r.value.children[0] == HeadElement(h, fmt, docsUrl) &&
                      r.value.children[1] == Element("body", [], None, ChildElements(outlines, fmt).value)
  {
    match ChildElements(outlines, fmt)
    case Err(err) =>
      ChildErrorFamily(outlines, fmt);
      Err(err)
    case Ok(kids) =>
      var root := NewElement("opml").Set("version", "2.0");
      Ok(root.Append(HeadElement(h, fmt, docsUrl)).Append(NewElement("body").(children := kids)))
  }

  /** A header date: parsed when its text is present; malformed text is a read error. */
  function ParseDate(t: Option<string>, parse: Parser): (r: Result<Option<DateTime>, Error>)
    ensures r.Err? <==> Present(t) && parse(t.value).None?
    ensures r.Err? ==> r.error == Error(ReadError, InvalidDate, None)
    ensures r.Ok? ==> (r.value.Some? <==> Present(t)) && (r.value.Some? ==> parse(t.value) == r.value)
  {
    if Present(t) then
      match parse(t.value)
      case Some(d) => Ok(Some(d))
      case None => Err(Error(ReadError, InvalidDate, None))
    else Ok(None)
  }

  /** The `expansionState` line numbers: the text split on commas, or none when the text is empty or absent. */
  function SplitExpansion(t: Option<string>): (xs: seq<string>)
    ensures Present(t) ==> Join(xs, ',') == t.value
    ensures !Present(t) ==> xs == []
  {
    if Present(t) then
      JoinSplit(t.value, ',');
      Split(t.value, ',')
    else []
  }

  /**
   * The header read from a `head` element: each field is taken from the
   * text of its tag when that text is non-empty, and keeps its default
   * otherwise; dates are parsed, created first.
   */
  function DecodeHeader(head: Element, parse: Parser): (r: Result<Header, Error>)
    ensures r.Err? <==> ParseDate(head.FindText("dateCreated"), parse).Err? ||
                        ParseDate(head.FindText("dateModified"), parse).Err?
    ensures r.Err? ==> r.error == Error(ReadError, InvalidDate, None)
  {
    match ParseDate(head.FindText("dateCreated"), parse)
    case Err(err) => Err(err)
    case Ok(dateCreated) =>
      match ParseDate(head.FindText("dateModified"), parse)
      case Err(err) => Err(err)
      case Ok(dateModified) =>
        Ok(Header(
          Truthy(head.FindText("title")),
          dateCreated,
          dateModified,
          Truthy(head.FindText("ownerName")),
          Truthy(head.FindText("ownerEmail")),
          Truthy(head.FindText("ownerId")),
          SplitExpansion(head.FindText("expansionState")),
          Truthy(head.FindText("vertScrollState")),
          Truthy(head.FindText("windowTop")),
          Truthy(head.FindText("windowLeft")),
          Truthy(head.FindText("windowBottom")),
          Truthy(head.FindText("windowRight"))))
  }

  /**
   * The document read from a root element, checked in order: the root
   * `version` is present, it is "2.0", there is a `head`, the header reads,
   * there is a `body`, and every `outline` child of the body decodes.
   */
  function DecodeDocument(root: Element, parse: Parser, unbuild: Element -> Result<Outline, Error>): (r: Result<(Header, seq<Outline>), Error>)
    ensures !Present(root.Get("version")) ==> r == Err(Error(ReadError, VersionNotFound, None))
    ensures Present(root.Get("version")) && root.Get("version") != Some("2.0") ==>
              r == Err(Error(ReadError, UnsupportedVersion, None))
    ensures root.Get("version") == Some("2.0") && root.Find("head").None? ==>
              r == Err(Error(ReadError, HeadNotFound, None))
    ensures root.Get("version") == Some("2.0") && root.Find("head").Some? ==>
              (DecodeHeader(root.Find("head").value, parse).Err? ==> r == Err(DecodeHeader(root.Find("head").value, parse).error)) &&
              (DecodeHeader(root.Find("head").value, parse).Ok? && root.Find("body").None? ==>
                 r == Err(Error(ReadError, BodyNotFound, None)))
    ensures root.Get("version") == Some("2.0") && root.Find("head").Some? &&
            DecodeHeader(root.Find("head").value, parse).Ok? && root.Find("body").Some? ==>
              var (outlines, err) := UnbuiltOutlines(root.Find("body").value.children, unbuild);
              (err.Some? ==> r == Err(err.value)) &&
              (err.None? ==> r == Ok((DecodeHeader(root.Find("head").value, parse).value, outlines)))
    ensures r.Ok? ==> root.Get("version") == Some("2.0") && root.Find("head").Some? && root.Find("body").Some? &&
                      DecodeHeader(root.Find("head").value, parse) == Ok(r.value.0) &&
                      UnbuiltOutlines(root.Find("body").value.children, unbuild) == (r.value.1, None)
  {
    var version := root.Get("version");
    if !Present(version) then Err(Error(ReadError, VersionNotFound, None))
    else if version.value != "2.0" then Err(Error(ReadError, UnsupportedVersion, None))
    else
      match root.Find("head")
      case None => Err(Error(ReadError, HeadNotFound, None))
      case Some(head) =>
        match DecodeHeader(head, parse)
        case Err(err) => Err(err)
        case Ok(header) =>
          match root.Find("body")
          case None => Err(Error(ReadError, BodyNotFound, None))
          case Some(body) =>
            var (outlines, err) := UnbuiltOutlines(body.children, unbuild);
            if err.Some? then Err(err.value) else Ok((header, outlines))
  }

  /** A text read from the document when it is present and non-empty, otherwise the current value `d`. */
  function Or(t: Option<string>, d: Option<string>): (r: Option<string>)
  {
    if Present(t) then t else d
  }

  /** A parsed date when there is one, otherwise the current value `d`. */
  function OrDate(t: Option<DateTime>, d: Option<DateTime>): Option<DateTime>
  {
    if t.Some? then t else d
  }

  /** An OPML document whose header fields and outline list are updated in place. */
  class OpmlDocument {
    var title: Option<string>
    var dateCreated: Option<DateTime>
    var dateModified: Option<DateTime>
    var ownerName: Option<string>
    var ownerEmail: Option<string>
    var ownerId: Option<string>
    var expansionState: seq<string>
    var vertScrollState: Option<string>
    var windowTop: Option<string>
    var windowLeft: Option<string>
    var windowBottom: Option<string>
    var windowRight: Option<string>
    var outlines: seq<Outline>

    /** The header fields as one value. */
    function CurrentHeader(): Header
      reads this
    {
      Header(title, dateCreated, dateModified, ownerName, ownerEmail, ownerId, expansionState,
             vertScrollState, windowTop, windowLeft, windowBottom, windowRight)
    }

    /** A document with the given header fields and no outlines. */
    constructor (h: Header)
      ensures CurrentHeader() == h && outlines == []
    {
      title, dateCreated, dateModified := h.title, h.dateCreated, h.dateModified;
      ownerName, ownerEmail, ownerId := h.ownerName, h.ownerEmail, h.ownerId;
      expansionState, vertScrollState := h.expansionState, h.vertScrollState;
      windowTop, windowLeft, windowBottom, windowRight := h.windowTop, h.windowLeft, h.windowBottom, h.windowRight;
      outlines := [];
    }

    /** Creates an outline from `text` and `opts`, appends it last and returns it. */
    method AddOutline(text: string, opts: Options) returns (o: Outline)
      modifies this`outlines
      ensures o == NewOutline(text, opts)
      ensures outlines == old(outlines) + [o]
    {
      o := NewOutline(text, opts);
      outlines := outlines + [o];
    }

    /** Appends an "rss" outline for the feed at `xmlUrl`; the other fields are passed through. */
    method AddRss(text: string, xmlUrl: string, description: Option<string>, htmlUrl: Option<string>,
                  language: Option<string>, title: Option<string>, version: Option<string>,
                  isComment: bool, isBreakpoint: bool, created: Option<DateTime>, categories: seq<string>)
      returns (o: Outline)
      modifies this`outlines
      ensures o == NewOutline(text, RssOptions(xmlUrl, description, htmlUrl, language, title, version,
                                               isComment, isBreakpoint, created, categories))
      ensures o.text == Some(text) && o.kind == Some("rss") && o.xmlUrl == Some(xmlUrl) && o.outlines == []
      ensures outlines == old(outlines) + [o]
    {
      o := AddOutline(text, RssOptions(xmlUrl, description, htmlUrl, language, title, version,
                                       isComment, isBreakpoint, created, categories));
    }

    /** Appends a "link" outline to the web page at `url`. */
    method AddLink(text: string, url: string, isComment: bool, isBreakpoint: bool,
                   created: Option<DateTime>, categories: seq<string>)
      returns (o: Outline)
      modifies this`outlines
      ensures o == NewOutline(text, LinkOptions(url, isComment, isBreakpoint, created, categories))
      ensures o.text == Some(text) && o.kind == Some("link") && o.url == Some(url) && o.outlines == []
      ensures outlines == old(outlines) + [o]
    {
      o := AddOutline(text, LinkOptions(url, isComment, isBreakpoint, created, categories));
    }

    /** Appends an "include" outline for the OPML document at `url`. */
    method AddInclude(text: string, url: string, isComment: bool, isBreakpoint: bool,
                      created: Option<DateTime>, categories: seq<string>)
      returns (o: Outline)
      modifies this`outlines
      ensures o == NewOutline(text, IncludeOptions(url, isComment, isBreakpoint, created, categories))
      ensures o.text == Some(text) && o.kind == Some("include") && o.url == Some(url) && o.outlines == []
      ensures outlines == old(outlines) + [o]
    {
      o := AddOutline(text, IncludeOptions(url, isComment, isBreakpoint, created, categories));
    }

    /**
     * Appends the outline read from each `outline` child of `parent`, in
     * order. On a failure the outlines read before it stay appended.
     */
    method UnbuildOutlinesTree(parent: Element, unbuild: Element -> Result<Outline, Error>) returns (err: Option<Error>)
      modifies this`outlines
      ensures outlines == old(outlines) + UnbuiltOutlines(parent.children, unbuild).0
      ensures err == UnbuiltOutlines(parent.children, unbuild).1
    {
      var i := 0;
      err := None;
      ghost var decoded: seq<Outline> := [];
      while i < |parent.children|
        invariant 0 <= i <= |parent.children|
        invariant UnbuiltOutlines(parent.children[..i], unbuild) == (decoded, None)
        invariant outlines == old(outlines) + decoded
        invariant err.None?
      {
        var node := parent.children[i];
        UnbuiltStep(parent.children, i, unbuild);
        if node.tag == "outline" {
          var outline := unbuild(node);
          if outline.Err? {
            err := Some(outline.error);
            FirstUnbuildFailure(parent.children, i + 1, unbuild);
            return;
          }
          outlines := outlines + [outline.value];
          decoded := decoded + [outline.value];
        }
        i := i + 1;
      }
      assert parent.children[..i] == parent.children;
    }

    /** Writes the `head` fields one group at a time, in their fixed order, and closes with `docs`. */
    method BuildHead(fmt: Formatter, docsUrl: string) returns (head: Element)
      ensures head == HeadElement(CurrentHeader(), fmt, docsUrl)
    {
      head := NewElement("head");
      head := AppendTitleAndDates(head, fmt);
      head := AppendOwner(head, fmt);
      head := AppendViewState(head, fmt);
      head := AppendWindow(head, fmt);
      head := head.AppendText("docs", docsUrl);
    }

    /** Adds a child to `e` for each of the title and the creation and modification dates that is present. */
    method AppendTitleAndDates(e: Element, fmt: Formatter) returns (head: Element)
      requires e == HeadUpTo(CurrentHeader(), fmt, 0)
      ensures head == HeadUpTo(CurrentHeader(), fmt, 3)
    {
      head := e;
      if Present(title) {
        head := head.AppendText("title", title.value);
      }
      assert head == HeadUpTo(CurrentHeader(), fmt, 1);
      if dateCreated.Some? {
        head := head.AppendText("dateCreated", fmt(dateCreated.value));
      }
      assert head == HeadUpTo(CurrentHeader(), fmt, 2);
      if dateModified.Some? {
        head := head.AppendText("dateModified", fmt(dateModified.value));
      }
    }

    /** Adds a child to `e` for each of the owner's name, email and id that is present. */
    method AppendOwner(e: Element, fmt: Formatter) returns (head: Element)
      requires e == HeadUpTo(CurrentHeader(), fmt, 3)
      ensures head == HeadUpTo(CurrentHeader(), fmt, 6)
    {
      head := e;
      if Present(ownerName) {
        head := head.AppendText("ownerName", ownerName.value);
      }
      assert head == HeadUpTo(CurrentHeader(), fmt, 4);
      if Present(ownerEmail) {
        head := head.AppendText("ownerEmail", ownerEmail.value);
      }
      assert head == HeadUpTo(CurrentHeader(), fmt, 5);
      if Present(ownerId) {
        head := head.AppendText("ownerId", ownerId.value);
      }
    }

    /** Adds a child to `e` for each of the expansion state and the vertical scroll state that is present. */
    method AppendViewState(e: Element, fmt: Formatter) returns (head: Element)
      requires e == HeadUpTo(CurrentHeader(), fmt, 6)
      ensures head == HeadUpTo(CurrentHeader(), fmt, 8)
    {
      head := e;
      if expansionState != [] {
        head := head.AppendText("expansionState", Join(expansionState, ','));
      }
      assert head == HeadUpTo(CurrentHeader(), fmt, 7);
      if Present(vertScrollState) {
        head := head.AppendText("vertScrollState", vertScrollState.value);
      }
    }

    /** Adds a child to `e` for each of the window position that is present. */
    method AppendWindow(e: Element, fmt: Formatter) returns (head: Element)
      requires e == HeadUpTo(CurrentHeader(), fmt, 8)
      ensures head == HeadUpTo(CurrentHeader(), fmt, 12)
    {
      head := e;
      if Present(windowTop) {
        head := head.AppendText("windowTop", windowTop.value);
      }
      assert head == HeadUpTo(CurrentHeader(), fmt, 9);
      if Present(windowLeft) {
        head := head.AppendText("windowLeft", windowLeft.value);
      }
      assert head == HeadUpTo(CurrentHeader(), fmt, 10);
      if Present(windowBottom) {
        head := head.AppendText("windowBottom", windowBottom.value);
      }
      assert head == HeadUpTo(CurrentHeader(), fmt, 11);
      if Present(windowRight) {
        head := head.AppendText("windowRight", windowRight.value);
      }
    }

    /** The document encoder, with the given `docs` link; reads the document and changes nothing. */
    method BuildWith(fmt: Formatter, docsUrl: string) returns (r: Result<Element, Error>)
      ensures r == EncodeDocument(CurrentHeader(), outlines, fmt, docsUrl)
    {
      var root := NewElement("opml").Set("version", "2.0");
      var head := BuildHead(fmt, docsUrl);
      var body := BuildOutlinesTree(outlines, NewElement("body"), fmt);
      if body.Err? {
        return Err(body.error);
      }
      assert NewElement("body").children + ChildElements(outlines, fmt).value == ChildElements(outlines, fmt).value;
      r := Ok(root.Append(head).Append(body.value));
    }

    /** The current encoder: `docs` links to DocsUrl. */
    method BuildTree(fmt: Formatter) returns (r: Result<Element, Error>)
      ensures r == EncodeDocument(CurrentHeader(), outlines, fmt, DocsUrl)
    {
      r := BuildWith(fmt, DocsUrl);
    }

    /** The older encoder: the same tree, but `docs` links to LegacyDocsUrl. */
    method LegacyBuildTree(fmt: Formatter) returns (r: Result<Element, Error>)
      ensures r == EncodeDocument(CurrentHeader(), outlines, fmt, LegacyDocsUrl)
    {
      r := BuildWith(fmt, LegacyDocsUrl);
    }

    /**
     * Sets the header fields of a document that has none from the texts of
     * `head`, group by group; a date that does not parse stops the reading.
     */
    method ReadHeader(head: Element, parse: Parser) returns (err: Option<Error>)
      requires title.None? && dateCreated.None? && dateModified.None? && ownerName.None? && ownerEmail.None? && ownerId.None?
      requires expansionState == [] && vertScrollState.None? && windowTop.None? && windowLeft.None? && windowBottom.None? && windowRight.None?
      modifies this`title, this`dateCreated, this`dateModified, this`ownerName, this`ownerEmail, this`ownerId,
               this`expansionState, this`vertScrollState, this`windowTop, this`windowLeft, this`windowBottom, this`windowRight
      ensures err.Some? <==> DecodeHeader(head, parse).Err?
      ensures err.Some? ==> err.value == DecodeHeader(head, parse).error
      ensures err.None? ==> CurrentHeader() == DecodeHeader(head, parse).value
    {
      err := ReadTitleAndDates(head, parse);
      if err.Some? {
        return;
      }
      ReadOwner(head);
      ReadViewState(head);
      ReadWindow(head);
      HeaderFromTexts(head, parse, CurrentHeader());
    }

    /**
     * Sets the title and the dates from the texts of `head` that are present
     * and non-empty; the others keep their values. A date that does not parse
     * stops the reading with a read error.
     */
    method ReadTitleAndDates(head: Element, parse: Parser) returns (err: Option<Error>)
      modifies this`title, this`dateCreated, this`dateModified
      ensures err.Some? <==> ParseDate(head.FindText("dateCreated"), parse).Err? ||
                             ParseDate(head.FindText("dateModified"), parse).Err?
      ensures err.Some? ==> err.value == Error(ReadError, InvalidDate, None)
      ensures err.None? ==>
                title == Or(head.FindText("title"), old(title)) &&
                dateCreated == OrDate(ParseDate(head.FindText("dateCreated"), parse).value, old(dateCreated)) &&
                dateModified == OrDate(ParseDate(head.FindText("dateModified"), parse).value, old(dateModified))
    {
      err := None;
      var title := head.FindText("title");
      if Present(title) {
        this.title := title;
      }
      var dateCreated := head.FindText("dateCreated");
      if Present(dateCreated) {
        var d := parse(dateCreated.value);
        if d.None? {
          return Some(Error(ReadError, InvalidDate, None));
        }
        this.dateCreated := d;
      }
      var dateModified := head.FindText("dateModified");
      if Present(dateModified) {
        var d := parse(dateModified.value);
        if d.None? {
          return Some(Error(ReadError, InvalidDate, None));
        }
        this.dateModified := d;
      }
    }

    /** Sets the owner's name, email and id from the texts of `head` that are present and non-empty. */
    method ReadOwner(head: Element)
      modifies this`ownerName, this`ownerEmail, this`ownerId
      ensures ownerName == Or(head.FindText("ownerName"), old(ownerName))
      ensures ownerEmail == Or(head.FindText("ownerEmail"), old(ownerEmail))
      ensures ownerId == Or(head.FindText("ownerId"), old(ownerId))
    {
      var ownerName := head.FindText("ownerName");
      if Present(ownerName) {
        this.ownerName := ownerName;
      }
      var ownerEmail := head.FindText("ownerEmail");
      if Present(ownerEmail) {
        this.ownerEmail := ownerEmail;
      }
      var ownerId := head.FindText("ownerId");
      if Present(ownerId) {
        this.ownerId := ownerId;
      }
    }

    /**
     * Sets the expansion state (the text split on commas) and the vertical
     * scroll state from the texts of `head` that are present and non-empty.
     */
    method ReadViewState(head: Element)
      modifies this`expansionState, this`vertScrollState
      ensures expansionState == if Present(head.FindText("expansionState"))
                                then SplitExpansion(head.FindText("expansionState")) else old(expansionState)
      ensures vertScrollState == Or(head.FindText("vertScrollState"), old(vertScrollState))
    {
      var expansionState := head.FindText("expansionState");
      if Present(expansionState) {
        this.expansionState := Split(expansionState.value, ',');
      }
      var vertScrollState := head.FindText("vertScrollState");
      if Present(vertScrollState) {
        this.vertScrollState := vertScrollState;
      }
    }

    /** Sets the window position from the texts of `head` that are present and non-empty. */
    method ReadWindow(head: Element)
      modifies this`windowTop, this`windowLeft, this`windowBottom, this`windowRight
      ensures windowTop == Or(head.FindText("windowTop"), old(windowTop))
      ensures windowLeft == Or(head.FindText("windowLeft"), old(windowLeft))
      ensures windowBottom == Or(head.FindText("windowBottom"), old(windowBottom))
      ensures windowRight == Or(head.FindText("windowRight"), old(windowRight))
    {
      var windowTop := head.FindText("windowTop");
      if Present(windowTop) {
        this.windowTop := windowTop;
      }
      var windowLeft := head.FindText("windowLeft");
      if Present(windowLeft) {
        this.windowLeft := windowLeft;
      }
      var windowBottom := head.FindText("windowBottom");
      if Present(windowBottom) {
        this.windowBottom := windowBottom;
      }
      var windowRight := head.FindText("windowRight");
      if Present(windowRight) {
        this.windowRight := windowRight;
      }
    }

    /**
     * Reads a document from its root element: the version checks, then a new
     * empty document whose header fields are set one at a time from `head`,
     * then the outlines of `body`.
     */
    static method UnbuildTree(root: Element, parse: Parser, unbuild: Element -> Result<Outline, Error>)
      returns (r: Result<OpmlDocument, Error>)
      ensures r.Ok? ==> fresh(r.value)
      ensures match r
              case Ok(document) => DecodeDocument(root, parse, unbuild) == Ok((document.CurrentHeader(), document.outlines))
              case Err(err) => DecodeDocument(root, parse, unbuild) == Err(err)
    {
      var version := root.Get("version");
      if !Present(version) {
        return Err(Error(ReadError, VersionNotFound, None));
      } else if version.value != "2.0" {
        return Err(Error(ReadError, UnsupportedVersion, None));
      }
      var document := new OpmlDocument(EmptyHeader);
      var found := root.Find("head");
      if found.None? {
        return Err(Error(ReadError, HeadNotFound, None));
      }
      var head := found.value;
      var err := document.ReadHeader(head, parse);
      if err.Some? {
        return Err(err.value);
      }
      ghost var header := document.CurrentHeader();
      var body := root.Find("body");
      if body.None? {
        return Err(Error(ReadError, BodyNotFound, None));
      }
      assert document.outlines == [];
      err := document.UnbuildOutlinesTree(body.value, unbuild);
      if err.Some? {
        return Err(err.value);
      }
      assert document.CurrentHeader() == header;
      assert UnbuiltOutlines(body.value.children, unbuild) == (document.outlines, None) by {
        assert [] + UnbuiltOutlines(body.value.children, unbuild).0 == UnbuiltOutlines(body.value.children, unbuild).0;
      }
      assert DecodeHeader(head, parse) == Ok(header);
      r := Ok(document);
    }
  }

  /** A header holding, field by field, what is read from the texts of `head` over empty fields is the decoded header. */
  lemma HeaderFromTexts(head: Element, parse: Parser, h: Header)
    requires ParseDate(head.FindText("dateCreated"), parse).Ok? && ParseDate(head.FindText("dateModified"), parse).Ok?
    requires h.title == Or(head.FindText("title"), None) &&
             h.dateCreated == OrDate(ParseDate(head.FindText("dateCreated"), parse).value, None) &&
             h.dateModified == OrDate(ParseDate(head.FindText("dateModified"), parse).value, None)
    requires h.ownerName == Or(head.FindText("ownerName"), None) &&
             h.ownerEmail == Or(head.FindText("ownerEmail"), None) &&
             h.ownerId == Or(head.FindText("ownerId"), None)
    requires h.expansionState == (if Present(head.FindText("expansionState"))
                                  then SplitExpansion(head.FindText("expansionState")) else []) &&
             h.vertScrollState == Or(head.FindText("vertScrollState"), None)
    requires h.windowTop == Or(head.FindText("windowTop"), None) &&
             h.windowLeft == Or(head.FindText("windowLeft"), None) &&
             h.windowBottom == Or(head.FindText("windowBottom"), None) &&
             h.windowRight == Or(head.FindText("windowRight"), None)
    ensures DecodeHeader(head, parse) == Ok(h)
  {
  }

  /** The walk over one more child: an `outline` child is decoded, any other child is skipped. */
  lemma UnbuiltStep(children: seq<Element>, i: nat, unbuild: Element -> Result<Outline, Error>)
    requires i < |children|
    requires UnbuiltOutlines(children[..i], unbuild).1.None?
    ensures var (decoded, _) := UnbuiltOutlines(children[..i], unbuild);
            UnbuiltOutlines(children[..i + 1], unbuild) ==
              if children[i].tag != "outline" then (decoded, None)
              else match unbuild(children[i])
                   case Ok(o) => (decoded + [o], None)
                   case Err(e) => (decoded, Some(e))
  {
    assert children[..i + 1][..i] == children[..i];
    assert children[..i + 1][i] == children[i];
  }

  /** When the walk over the first `k` children fails, the walk over all of them fails the same way. */
  lemma {:induction false} FirstUnbuildFailure(children: seq<Element>, k: nat, unbuild: Element -> Result<Outline, Error>)
    requires k <= |children|
    requires UnbuiltOutlines(children[..k], unbuild).1.Some?
    ensures UnbuiltOutlines(children, unbuild) == UnbuiltOutlines(children[..k], unbuild)
    decreases |children| - k
  {
    if k < |children| {
      assert children[..|children| - 1][..k] == children[..k];
      FirstUnbuildFailure(children[..|children| - 1], k, unbuild);
    } else {
      assert children[..k] == children;
    }
  }
}
