/**
 * Concrete documents from the library's read and write scenarios: the
 * Hendley Associates header read back field by field, the read errors and
 * their order, and the write errors of a nested feed, link or include.
 */
module Scenarios {
  import opened Wrappers
  import opened Text
  import opened Xml
  import opened Errors
  import opened Dates
  import opened Outlines
  import opened Outlinable
  import opened Document

  /** A header child with text. */
  function Tag(t: string, s: string): Element
  {
    Element(t, [], Some(s), [])
  }

  /** A `head` holding the view-state fields of the sample document, and `docs`. */
  const SampleHead := Element("head", [], None, [
    Tag("expansionState", "2,5"),
    Tag("vertScrollState", "4"),
    Tag("windowTop", "50"),
    Tag("docs", DocsUrl)])

  /** The child at `i` is found for its tag when no earlier child carries that tag. */
  lemma FindAt(cs: seq<Element>, i: nat, t: string)
    requires i < |cs| && cs[i].tag == t
    requires forall j :: 0 <= j < i ==> cs[j].tag != t
    ensures FindIn(cs, t) == Some(cs[i])
  {
    FindInFirst(cs, t);
  }

  /** `"2,5".split(",")` is the two pieces "2" and "5". */
  lemma SplitSample()
    ensures Split("2,5", ',') == ["2", "5"]
  {
    assert Split("", ',') == [""];
    assert "5"[1..] == "";
    assert Split("5", ',') == [['5'] + ""] + [""][1..];
    assert ['5'] + "" == "5";
    assert ",5"[1..] == "5";
    assert Split(",5", ',') == [""] + ["5"];
    assert "2,5"[1..] == ",5";
    assert Split("2,5", ',') == [['2'] + ""] + ["", "5"][1..];
    assert ['2'] + "" == "2";
  }

  /** The sample head has no tag for the title, owner, date and other window fields. */
  lemma SampleAbsent(t: string)
    requires t in {"title", "dateCreated", "dateModified", "ownerName", "ownerEmail", "ownerId",
                   "windowLeft", "windowBottom", "windowRight"}
    ensures SampleHead.FindText(t).None?
  {
    FindInFirst(SampleHead.children, t);
  }

  /**
   * The sample head reads back with its texts unchanged: `expansionState`
   * becomes the list "2", "5", the numeric fields stay the strings "4" and
   * "50", and the fields without a tag keep their defaults.
   */
  lemma SampleHeaderReads(parse: Parser)
    ensures DecodeHeader(SampleHead, parse) ==
            Ok(EmptyHeader.(expansionState := ["2", "5"], vertScrollState := Some("4"), windowTop := Some("50")))
  {
    var cs := SampleHead.children;
    FindAt(cs, 0, "expansionState");
    FindAt(cs, 1, "vertScrollState");
    FindAt(cs, 2, "windowTop");
    SampleAbsent("title");
    SampleAbsent("dateCreated");
    SampleAbsent("dateModified");
    SampleAbsent("ownerName");
    SampleAbsent("ownerEmail");
    SampleAbsent("ownerId");
    SampleAbsent("windowLeft");
    SampleAbsent("windowBottom");
    SampleAbsent("windowRight");
    SplitSample();
  }

  /** A root without `version` is refused before anything else is looked at. */
  lemma MissingVersionRefused(head: Element, body: Element, parse: Parser, unbuild: Element -> Result<Outline, Error>)
    ensures DecodeDocument(Element("opml", [], None, [head, body]), parse, unbuild) ==
            Err(Error(ReadError, VersionNotFound, None))
  {
    assert Element("opml", [], None, [head, body]).Get("version") == None;
  }

  /** A 1.0 document is refused as unsupported even when it lacks a `head`. */
  lemma OldVersionRefusedBeforeHead(parse: Parser, unbuild: Element -> Result<Outline, Error>)
    ensures DecodeDocument(Element("opml", [("version", "1.0")], None, []), parse, unbuild) ==
            Err(Error(ReadError, UnsupportedVersion, None))
  {
    assert Element("opml", [("version", "1.0")], None, []).Get("version") == Some("1.0");
  }

  /** With a good version and header but no `body`, the document is refused for the body. */
  lemma MissingBodyRefused(parse: Parser, unbuild: Element -> Result<Outline, Error>)
    ensures DecodeDocument(Element("opml", [("version", "2.0")], None, [SampleHead]), parse, unbuild) ==
            Err(Error(ReadError, BodyNotFound, None))
  {
    var root := Element("opml", [("version", "2.0")], None, [SampleHead]);
    assert root.Get("version") == Some("2.0");
    FindAt(root.children, 0, "head");
    FindInFirst(root.children, "body");
    SampleHeaderReads(parse);
  }

  /** The "Feeds" folder holding one feed outline made with `opts`. */
  function Feeds(opts: Options): Outline
  {
    AddOutline(NewOutline("Feeds", DefaultOptions), "CIA News Feed", opts)
  }

  /** The options of the sample feed, with the given version. */
  function FeedOptions(version: Option<string>, created: Option<DateTime>): Options
  {
    RssOptions("https://hendley-associates.com/feeds/cia.rss", Some("CIA News Feed"),
               Some("https://hendley-associates.com/news/cia"), Some("en_US"), Some("CIA News Feed"),
               version, false, false, created, ["/Intelligence/USA", "intelligence"])
  }

  /** A one-outline list builds as that outline does. */
  lemma SingleChild(o: Outline, fmt: Formatter)
    ensures OutlineElement(o, fmt).Err? ==> ChildElements([o], fmt) == Err(OutlineElement(o, fmt).error)
  {
    assert [o][..0] == [];
  }

  /** An "rss" outline with a feed URL and version "NONE" is rejected for its version. */
  lemma UnknownVersionRejected(o: Outline)
    requires Present(o.text) && o.kind == Some("rss") && Present(o.xmlUrl) && o.version == Some("NONE")
    ensures WriteCheck(o) == Some(Error(WriteError, InvalidRssVersion, o.text))
  {
    assert "NONE" !in RssVersions;
  }

  /** A document holding one outline that breaks a rule fails with that outline's error. */
  lemma OneOutlineFailure(o: Outline, h: Header, fmt: Formatter, docsUrl: string)
    requires WriteCheck(o).Some?
    ensures EncodeDocument(h, [o], fmt, docsUrl) == Err(WriteCheck(o).value)
  {
    SingleChild(o, fmt);
  }

  /**
   * A folder outline (text, no type) whose only child breaks a rule fails
   * with that child's error, and so does a document holding the folder.
   */
  lemma NestedFailure(folder: string, child: Outline, h: Header, fmt: Formatter, docsUrl: string)
    requires folder != "" && WriteCheck(child).Some?
    requires child.text.Some? && child.outlines == []
    ensures EncodeDocument(h, [AddOutline(NewOutline(folder, DefaultOptions), child.text.value, child.Attributes())], fmt, docsUrl) ==
            Err(WriteCheck(child).value)
  {
    var made := NewOutline(child.text.value, child.Attributes());
    assert made == child;
    var parent := AddOutline(NewOutline(folder, DefaultOptions), child.text.value, child.Attributes());
    assert parent.outlines == [child];
    SingleChild(child, fmt);
    assert WriteCheck(parent).None?;
    assert OutlineElement(parent, fmt) == Err(WriteCheck(child).value);
    SingleChild(parent, fmt);
  }

  /** A nested feed whose `xml_url` was cleared makes the whole document fail, naming the feed. */
  lemma FeedWithoutXmlUrlFails(h: Header, fmt: Formatter, created: Option<DateTime>)
    ensures EncodeDocument(h, [Feeds(FeedOptions(Some("RSS2"), created).(xmlUrl := None))], fmt, DocsUrl) ==
            Err(Error(WriteError, XmlUrlMissing, Some("CIA News Feed")))
  {
    var feed := NewOutline("CIA News Feed", FeedOptions(Some("RSS2"), created).(xmlUrl := None));
    assert WriteCheck(feed) == Some(Error(WriteError, XmlUrlMissing, Some("CIA News Feed")));
    NestedFailure("Feeds", feed, h, fmt, DocsUrl);
  }

  /** A nested feed with version "NONE" makes the whole document fail, naming the feed. */
  lemma FeedWithUnknownVersionFails(h: Header, fmt: Formatter, created: Option<DateTime>)
    ensures EncodeDocument(h, [Feeds(FeedOptions(Some("NONE"), created))], fmt, DocsUrl) ==
            Err(Error(WriteError, InvalidRssVersion, Some("CIA News Feed")))
  {
    var feed := NewOutline("CIA News Feed", FeedOptions(Some("NONE"), created));
    UnknownVersionRejected(feed);
    NestedFailure("Feeds", feed, h, fmt, DocsUrl);
  }

  /** A nested link whose `url` was cleared makes the whole document fail, naming the link. */
  lemma LinkWithoutUrlFails(h: Header, fmt: Formatter, created: Option<DateTime>)
    ensures var opts := LinkOptions("https://hendley-associates.com/articles", false, false, created,
                                    ["/Intelligence/USA", "intelligence"]).(url := None);
            EncodeDocument(h, [AddOutline(NewOutline("Links", DefaultOptions), "Jack Ryan re-elected for second mandate", opts)],
                           fmt, DocsUrl) ==
            Err(Error(WriteError, UrlMissing, Some("Jack Ryan re-elected for second mandate")))
  {
    var opts := LinkOptions("https://hendley-associates.com/articles", false, false, created,
                            ["/Intelligence/USA", "intelligence"]).(url := None);
    var link := NewOutline("Jack Ryan re-elected for second mandate", opts);
    assert WriteCheck(link) == Some(Error(WriteError, UrlMissing, Some("Jack Ryan re-elected for second mandate")));
    NestedFailure("Links", link, h, fmt, DocsUrl);
  }

  /**
   * The factory accepts a feed with an unknown version; only the build of
   * the document that holds it fails.
   */
  method UnknownVersionFailsOnlyAtBuild(fmt: Formatter) returns (added: Outline, r: Result<Element, Error>)
    ensures added.kind == Some("rss") && added.version == Some("NONE")
    ensures r == Err(Error(WriteError, InvalidRssVersion, Some("CIA News Feed")))
  {
    var document := new OpmlDocument(EmptyHeader);
    added := document.AddRss("CIA News Feed", "https://hendley-associates.com/feeds/cia.rss", None, None,
                             None, None, Some("NONE"), false, false, None, []);
    assert document.outlines == [added];
    r := document.BuildTree(fmt);
    UnknownVersionRejected(added);
    OneOutlineFailure(added, document.CurrentHeader(), fmt, DocsUrl);
  }
}
