/**
 * An OPML outline and its encoding as an `outline` element: the per-type
 * validation rules, the attributes written when present, and the ordered,
 * recursive build of the children.
 */
module Outlines {
  import opened Wrappers
  import opened Text
  import opened Xml
  import opened Errors
  import opened Dates

  /**
   * The optional fields an outline is created with (the keyword arguments of
   * the outline constructor). `kind` is the outline's `type`.
   */
  datatype Options = Options(
    kind: Option<string>,
    isComment: bool,
    isBreakpoint: bool,
    created: Option<DateTime>,
    xmlUrl: Option<string>,
    description: Option<string>,
    htmlUrl: Option<string>,
    language: Option<string>,
    title: Option<string>,
    version: Option<string>,
    url: Option<string>,
    categories: seq<string>)

  /** Every option left at its default. */
  const DefaultOptions := Options(None, false, false, None, None, None, None, None, None, None, None, [])

  /** An outline: its text, its optional fields and its ordered child outlines. */
  datatype Outline = Outline(
    text: Option<string>,
    kind: Option<string>,
    isComment: bool,
    isBreakpoint: bool,
    created: Option<DateTime>,
    xmlUrl: Option<string>,
    description: Option<string>,
    htmlUrl: Option<string>,
    language: Option<string>,
    title: Option<string>,
    version: Option<string>,
    url: Option<string>,
    categories: seq<string>,
    outlines: seq<Outline>)
  {
    /** The optional fields of this outline. */
    function Attributes(): Options
    {
      Options(kind, isComment, isBreakpoint, created, xmlUrl, description, htmlUrl, language, title, version, url, categories)
    }
  }

  /** A new outline: the given text and options, and no children yet. */
  function NewOutline(text: string, opts: Options): (o: Outline)
    ensures o.text == Some(text) && o.Attributes() == opts && o.outlines == []
  {
    Outline(Some(text), opts.kind, opts.isComment, opts.isBreakpoint, opts.created, opts.xmlUrl,
            opts.description, opts.htmlUrl, opts.language, opts.title, opts.version, opts.url,
            opts.categories, [])
  }

  /** The RSS versions an "rss" outline may declare. */
  const RssVersions: set<string> := {"RSS", "RSS1", "RSS2", "scriptingNews"}

  /** The attribute names an outline element can carry. */
  const OutlineAttributeNames: set<string> :=
    {"text", "type", "isComment", "isBreakpoint", "created", "xmlUrl", "description",
     "htmlUrl", "language", "title", "version", "url", "category"}

  /**
   * The type-conditional rules an outline must meet, checked in order; the
   * first rule broken gives the error, of the given family.
   */
  function Validate(family: Family, text: Option<string>, kind: Option<string>,
                    xmlUrl: Option<string>, version: Option<string>, url: Option<string>): (err: Option<Error>)
    ensures err.Some? ==> err.value.family == family
    // the text is checked first, whatever the type
    ensures !Present(text) ==> err == Some(Error(family, TextMissing, None))
    // "rss": the feed URL is required, and a declared version must be known
    ensures Present(text) && kind == Some("rss") ==>
              (err.None? <==> Present(xmlUrl) && (Present(version) ==> version.value in RssVersions))
    ensures Present(text) && kind == Some("rss") && !Present(xmlUrl) ==>
              err == Some(Error(family, XmlUrlMissing, text))
    ensures Present(text) && kind == Some("rss") && Present(xmlUrl) && Present(version) && version.value !in RssVersions ==>
              err == Some(Error(family, InvalidRssVersion, text))
    // "link" and "include": the URL is required
    ensures Present(text) && (kind == Some("link") || kind == Some("include")) ==>
              (err.None? <==> Present(url)) && (err.Some? ==> err == Some(Error(family, UrlMissing, text)))
    // any other type, or none, adds no rule
    ensures Present(text) && kind != Some("rss") && kind != Some("link") && kind != Some("include") ==> err.None?
  {
    if !Present(text) then Some(Error(family, TextMissing, None))
    else if kind == Some("rss") then
      if !Present(xmlUrl) then Some(Error(family, XmlUrlMissing, text))
      else if Present(version) && version.value !in RssVersions then Some(Error(family, InvalidRssVersion, text))
      else None
    else if (kind == Some("link") || kind == Some("include")) && !Present(url) then
      Some(Error(family, UrlMissing, text))
    else None
  }

  /** The outline's own rules, as checked when it is written. */
  function WriteCheck(o: Outline): Option<Error>
  {
    Validate(WriteError, o.text, o.kind, o.xmlUrl, o.version, o.url)
  }

  /** Sets attribute `name` when there is a value for it. */
  function Emit(e: Element, name: string, v: Option<string>): (r: Element)
    ensures r.tag == e.tag && r.text == e.text && r.children == e.children
  {
    if v.Some? then e.Set(name, v.value) else e
  }

  /** A flag as an attribute value: "true" when set, nothing otherwise. */
  function FlagValue(b: bool): Option<string>
  {
    if b then Some("true") else None
  }

  /** The `category` attribute: the categories joined by commas, when there are any. */
  function CategoryValue(categories: seq<string>): Option<string>
  {
    if categories != [] then Some(Join(categories, ',')) else None
  }

  /** A timestamp rendered as RFC 2822 text, when there is one. */
  function DateText(created: Option<DateTime>, fmt: Formatter): Option<string>
  {
    if created.Some? then Some(fmt(created.value)) else None
  }

  /** How many attributes may follow `text`. */
  const AttributeCount := 12

  /** The name of the `k`-th attribute written after `text`. */
  function AttributeName(k: nat): string
    requires k < AttributeCount
  {
    match k
    case 0 => "type"
    case 1 => "isComment"
    case 2 => "isBreakpoint"
    case 3 => "created"
    case 4 => "xmlUrl"
    case 5 => "description"
    case 6 => "htmlUrl"
    case 7 => "language"
    case 8 => "title"
    case 9 => "version"
    case 10 => "url"
    case 11 => "category"
  }

  /** The value written for attribute `AttributeName(k)`, if any: only present values are written. */
  function AttributeValue(o: Outline, fmt: Formatter, k: nat): Option<string>
    requires k < AttributeCount
  {
    match k
    case 0 => Truthy(o.kind)
    case 1 => FlagValue(o.isComment)
    case 2 => FlagValue(o.isBreakpoint)
    case 3 => DateText(o.created, fmt)
    case 4 => Truthy(o.xmlUrl)
    case 5 => Truthy(o.description)
    case 6 => Truthy(o.htmlUrl)
    case 7 => Truthy(o.language)
    case 8 => Truthy(o.title)
    case 9 => Truthy(o.version)
    case 10 => Truthy(o.url)
    case 11 => CategoryValue(o.categories)
  }

  /** The outline element after `text` and the first `k` attributes named by AttributeName are written. */
  function AttributedUpTo(o: Outline, fmt: Formatter, k: nat): (r: Element)
    requires Present(o.text) && k <= AttributeCount
    ensures r.tag == "outline" && r.text.None? && r.children == []
  {
    if k == 0 then NewElement("outline").Set("text", o.text.value)
    else Emit(AttributedUpTo(o, fmt, k - 1), AttributeName(k - 1), AttributeValue(o, fmt, k - 1))
  }

  /** The outline element without its children: the text, then each present attribute. */
  function Attributed(o: Outline, fmt: Formatter): (r: Element)
    requires Present(o.text)
    ensures r.tag == "outline" && r.text.None? && r.children == []
  {
    AttributedUpTo(o, fmt, AttributeCount)
  }

  /**
   * The element an outline is written as: it is validated first, then its
   * children are built in order; the first failure in depth-first order is
   * the result.
   */
  function OutlineElement(o: Outline, fmt: Formatter): (r: Result<Element, Error>)
    ensures WriteCheck(o).Some? ==> r == Err(WriteCheck(o).value)
    ensures r.Ok? ==> r.value.tag == "outline" && r.value.text.None?
    ensures r.Ok? ==> |r.value.children| == |o.outlines|
    decreases o
  {
    match WriteCheck(o)
    case Some(err) => Err(err)
    case None =>
      match ChildElements(o.outlines, fmt)
      case Err(err) => Err(err)
      case Ok(kids) => Ok(Attributed(o, fmt).(children := kids))
  }

  /**
   * The elements of a list of outlines, in order; the error of the first
   * outline that fails, if one does.
   */
  function ChildElements(os: seq<Outline>, fmt: Formatter): (r: Result<seq<Element>, Error>)
    ensures r.Ok? ==> |r.value| == |os|
    decreases os
  {
    if os == [] then Ok([])
    else
      match ChildElements(os[..|os| - 1], fmt)
      case Err(err) => Err(err)
      case Ok(kids) =>
        match OutlineElement(os[|os| - 1], fmt)
        case Err(err) => Err(err)
        case Ok(kid) => Ok(kids + [kid])
  }

  /**
   * An outline that passes its own rules but has a child list that fails
   * fails with that list's error: the first failure below it, depth first.
   */
  lemma ChildErrorPropagates(o: Outline, fmt: Formatter)
    requires WriteCheck(o).None? && ChildElements(o.outlines, fmt).Err?
    ensures OutlineElement(o, fmt) == Err(ChildElements(o.outlines, fmt).error)
  {
  }

  /** A list of outlines builds exactly when each of them does. */
  lemma {:induction false} ChildElementsOk(os: seq<Outline>, fmt: Formatter)
    ensures ChildElements(os, fmt).Ok? <==> forall i :: 0 <= i < |os| ==> OutlineElement(os[i], fmt).Ok?
  {
    if os != [] {
      var init := os[..|os| - 1];
      ChildElementsOk(init, fmt);
      assert forall j :: 0 <= j < |init| ==> init[j] == os[j];
    }
  }

  /** The elements of a list of outlines that builds are those of its outlines, in order. */
  lemma {:induction false} ChildElementsValues(os: seq<Outline>, fmt: Formatter)
    requires ChildElements(os, fmt).Ok?
    ensures forall i :: 0 <= i < |os| ==> OutlineElement(os[i], fmt) == Ok(ChildElements(os, fmt).value[i])
  {
    if os != [] {
      var init := os[..|os| - 1];
      ChildElementsValues(init, fmt);
      var kids := ChildElements(init, fmt).value;
      var r := ChildElements(os, fmt).value;
      assert forall j :: 0 <= j < |init| ==> init[j] == os[j] && r[j] == kids[j];
    }
  }

  /** A list of outlines that fails has the error of its first outline that fails. */
  lemma {:induction false} ChildElementsFirstError(os: seq<Outline>, fmt: Formatter)
    ensures ChildElements(os, fmt).Err? ==>
              exists i :: 0 <= i < |os| && OutlineElement(os[i], fmt) == Err(ChildElements(os, fmt).error) &&
                          forall j :: 0 <= j < i ==> OutlineElement(os[j], fmt).Ok?
  {
    if os != [] {
      var init := os[..|os| - 1];
      ChildElementsFirstError(init, fmt);
      ChildElementsOk(init, fmt);
      assert forall j :: 0 <= j < |init| ==> init[j] == os[j];
    }
  }

  /** Every error from writing an outline tree is a write error. */
  lemma {:induction false} OutlineErrorFamily(o: Outline, fmt: Formatter)
    ensures OutlineElement(o, fmt).Err? ==> OutlineElement(o, fmt).error.family == WriteError
    decreases o
  {
    if WriteCheck(o).None? {
      ChildErrorFamily(o.outlines, fmt);
    }
  }

  /** Every error from writing a list of outline trees is a write error. */
  lemma {:induction false} ChildErrorFamily(os: seq<Outline>, fmt: Formatter)
    ensures ChildElements(os, fmt).Err? ==> ChildElements(os, fmt).error.family == WriteError
    decreases os
  {
    if os != [] {
      ChildErrorFamily(os[..|os| - 1], fmt);
      OutlineErrorFamily(os[|os| - 1], fmt);
    }
  }

  /** Once a prefix of the outlines fails, the whole list fails with the same error. */
  lemma {:induction false} ErrorPersists(os: seq<Outline>, k: nat, fmt: Formatter)
    requires k <= |os|
    requires ChildElements(os[..k], fmt).Err?
    ensures ChildElements(os, fmt) == ChildElements(os[..k], fmt)
    decreases |os| - k
  {
    if k < |os| {
      assert os[..|os| - 1][..k] == os[..k];
      ErrorPersists(os[..|os| - 1], k, fmt);
    } else {
      assert os[..k] == os;
    }
  }

  /** Writes one outline: validation, then the attributes one at a time, then the children. */
  method BuildOutline(o: Outline, fmt: Formatter) returns (r: Result<Element, Error>)
    ensures r == OutlineElement(o, fmt)
    decreases o
  {
    var err := WriteCheck(o);
    if err.Some? {
      return Err(err.value);
    }
    var element := SetAttributes(o, fmt);
    r := BuildOutlinesTree(o.outlines, element, fmt);
    ghost var kids := ChildElements(o.outlines, fmt);
    if kids.Ok? {
      assert element.children + kids.value == kids.value;
    }
  }

  /** Creates the outline element with its text, then sets each present attribute in turn. */
  method SetAttributes(o: Outline, fmt: Formatter) returns (element: Element)
    requires Present(o.text)
    ensures element == Attributed(o, fmt)
  {
    element := NewElement("outline").Set("text", o.text.value);
    if Present(o.kind) {
      element := element.Set("type", o.kind.value);
    }
    assert element == AttributedUpTo(o, fmt, 1);
    if o.isComment {
      element := element.Set("isComment", "true");
    }
    assert element == AttributedUpTo(o, fmt, 2);
    if o.isBreakpoint {
      element := element.Set("isBreakpoint", "true");
    }
    assert element == AttributedUpTo(o, fmt, 3);
    if o.created.Some? {
      element := element.Set("created", fmt(o.created.value));
    }
    element := SetFeedAttributes(element, o, fmt);
    element := SetRemainingAttributes(element, o, fmt);
  }

  /** Sets the feed URL and the feed's description, home page and language, where present. */
  method SetFeedAttributes(e: Element, o: Outline, fmt: Formatter) returns (element: Element)
    requires Present(o.text) && e == AttributedUpTo(o, fmt, 4)
    ensures element == AttributedUpTo(o, fmt, 8)
  {
    element := e;
    if Present(o.xmlUrl) {
      element := element.Set("xmlUrl", o.xmlUrl.value);
    }
    assert element == AttributedUpTo(o, fmt, 5);
    if Present(o.description) {
      element := element.Set("description", o.description.value);
    }
    assert element == AttributedUpTo(o, fmt, 6);
    if Present(o.htmlUrl) {
      element := element.Set("htmlUrl", o.htmlUrl.value);
    }
    assert element == AttributedUpTo(o, fmt, 7);
    if Present(o.language) {
      element := element.Set("language", o.language.value);
    }
  }

  /** Sets the title, version, URL and categories, where present. */
  method SetRemainingAttributes(e: Element, o: Outline, fmt: Formatter) returns (element: Element)
    requires Present(o.text) && e == AttributedUpTo(o, fmt, 8)
    ensures element == AttributedUpTo(o, fmt, AttributeCount)
  {
    element := e;
    if Present(o.title) {
      element := element.Set("title", o.title.value);
    }
    assert element == AttributedUpTo(o, fmt, 9);
    if Present(o.version) {
      element := element.Set("version", o.version.value);
    }
    assert element == AttributedUpTo(o, fmt, 10);
    if Present(o.url) {
      element := element.Set("url", o.url.value);
    }
    assert element == AttributedUpTo(o, fmt, 11);
    if o.categories != [] {
      element := element.Set("category", Join(o.categories, ','));
    }
  }

  /**
   * Appends the element of each outline to `parent`, in order, after its
   * existing children; stops at the first outline that fails.
   */
  method BuildOutlinesTree(os: seq<Outline>, parent: Element, fmt: Formatter) returns (r: Result<Element, Error>)
    ensures r == match ChildElements(os, fmt)
                 case Ok(kids) => Ok(parent.(children := parent.children + kids))
                 case Err(err) => Err(err)
    decreases os
  {
    var result := parent;
    ghost var kids: seq<Element> := [];
    var i := 0;
    while i < |os|
      invariant 0 <= i <= |os|
      invariant ChildElements(os[..i], fmt) == Ok(kids)
      invariant result == parent.(children := parent.children + kids)
    {
      assert os[..i + 1][..i] == os[..i];
      var child := BuildOutline(os[i], fmt);
      if child.Err? {
        assert ChildElements(os[..i + 1], fmt) == Err(child.error);
        ErrorPersists(os, i + 1, fmt);
        return Err(child.error);
      }
      result := result.Append(child.value);
      kids := kids + [child.value];
      i := i + 1;
    }
    assert os[..i] == os;
    r := Ok(result);
  }
}
