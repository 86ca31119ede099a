/**
 * What the document and every outline share: an ordered list of child
 * outlines that only grows, the typed factories that pre-fill `type` and the
 * field that type requires, and the walk that reads child outlines back from
 * an element. (The walk that writes them is `Outlines.BuildOutlinesTree`,
 * which the outline encoder recurses through.)
 */
module Outlinable {
  import opened Wrappers
  import opened Xml
  import opened Errors
  import opened Dates
  import opened Outlines

  /** The options `add_rss` passes on: type "rss" and the feed URL, the rest as given. */
  function RssOptions(xmlUrl: string, description: Option<string>, htmlUrl: Option<string>,
                      language: Option<string>, title: Option<string>, version: Option<string>,
                      isComment: bool, isBreakpoint: bool, created: Option<DateTime>,
                      categories: seq<string>): (opts: Options)
    ensures opts.kind == Some("rss") && opts.xmlUrl == Some(xmlUrl) && opts.url.None?
    ensures opts.description == description && opts.htmlUrl == htmlUrl && opts.language == language
    ensures opts.title == title && opts.version == version
    ensures opts.isComment == isComment && opts.isBreakpoint == isBreakpoint
    ensures opts.created == created && opts.categories == categories
  {
    DefaultOptions.(kind := Some("rss"), xmlUrl := Some(xmlUrl), description := description,
                    htmlUrl := htmlUrl, language := language, title := title, version := version,
                    isComment := isComment, isBreakpoint := isBreakpoint, created := created,
                    categories := categories)
  }

  /** The options `add_link` and `add_include` pass on: the given type and the URL; no feed fields. */
  function UrlOptions(kind: string, url: string, isComment: bool, isBreakpoint: bool, created: Option<DateTime>,
                      categories: seq<string>): Options
  {
    DefaultOptions.(kind := Some(kind), url := Some(url), isComment := isComment,
                    isBreakpoint := isBreakpoint, created := created, categories := categories)
  }

  /** The options `add_link` passes on: type "link" and the URL; no feed fields. */
  function LinkOptions(url: string, isComment: bool, isBreakpoint: bool, created: Option<DateTime>,
                       categories: seq<string>): (opts: Options)
    ensures opts.kind == Some("link") && opts.url == Some(url)
    ensures opts.xmlUrl.None? && opts.description.None? && opts.htmlUrl.None?
    ensures opts.language.None? && opts.title.None? && opts.version.None?
    ensures opts.isComment == isComment && opts.isBreakpoint == isBreakpoint
    ensures opts.created == created && opts.categories == categories
  {
    UrlOptions("link", url, isComment, isBreakpoint, created, categories)
  }

  /** The options `add_include` passes on: type "include" and the URL; no feed fields. */
  function IncludeOptions(url: string, isComment: bool, isBreakpoint: bool, created: Option<DateTime>,
                          categories: seq<string>): (opts: Options)
    ensures opts.kind == Some("include") && opts.url == Some(url)
    ensures opts.xmlUrl.None? && opts.description.None? && opts.htmlUrl.None?
    ensures opts.language.None? && opts.title.None? && opts.version.None?
    ensures opts.isComment == isComment && opts.isBreakpoint == isBreakpoint
    ensures opts.created == created && opts.categories == categories
  {
    UrlOptions("include", url, isComment, isBreakpoint, created, categories)
  }

  /**
   * `add_outline` on an outline: one new child, last, made from `text` and
   * `opts`; the existing children and the outline's own fields are kept.
   * The typed factories are this with RssOptions, LinkOptions or IncludeOptions.
   */
  function AddOutline(parent: Outline, text: string, opts: Options): (r: Outline)
    ensures |r.outlines| == |parent.outlines| + 1
    ensures r.outlines[..|parent.outlines|] == parent.outlines
    ensures r.outlines[|parent.outlines|] == NewOutline(text, opts)
    ensures r.text == parent.text && r.Attributes() == parent.Attributes()
  {
    parent.(outlines := parent.outlines + [NewOutline(text, opts)])
  }

  /**
   * Reads the children tagged `outline` in document order with `unbuild`,
   * the outline decoder, and collects the outlines. On the first failure the
   * walk stops: it gives the outlines read before it and the error.
   */
  function UnbuiltOutlines(children: seq<Element>, unbuild: Element -> Result<Outline, Error>): (r: (seq<Outline>, Option<Error>))
    ensures |r.0| <= |children|
  {
    if children == [] then ([], None)
    else
      var (decoded, err) := UnbuiltOutlines(children[..|children| - 1], unbuild);
      var last := children[|children| - 1];
      if err.Some? || last.tag != "outline" then (decoded, err)
      else
        match unbuild(last)
        case Ok(o) => (decoded + [o], None)
        case Err(e) => (decoded, Some(e))
  }

  /**
   * The walk reads exactly the children tagged `outline`, in order, and
   * skips every other child: it succeeds iff each of them decodes, and then
   * gives one outline per such child; when it fails, it gives the outlines
   * of the children before the first one that does not decode, and that
   * child's error.
   */
  lemma {:induction false} UnbuiltOutlinesTagged(children: seq<Element>, unbuild: Element -> Result<Outline, Error>)
    ensures var r := UnbuiltOutlines(children, unbuild);
            var tagged := Tagged(children, "outline");
            r.1.None? <==> forall i :: 0 <= i < |tagged| ==> unbuild(tagged[i]).Ok?
    ensures var r := UnbuiltOutlines(children, unbuild);
            var tagged := Tagged(children, "outline");
            r.1.None? ==> |r.0| == |tagged| && forall i :: 0 <= i < |tagged| ==> unbuild(tagged[i]) == Ok(r.0[i])
    ensures var r := UnbuiltOutlines(children, unbuild);
            var tagged := Tagged(children, "outline");
            r.1.Some? ==> |r.0| < |tagged| && unbuild(tagged[|r.0|]) == Err(r.1.value) &&
                          forall i :: 0 <= i < |r.0| ==> unbuild(tagged[i]) == Ok(r.0[i])
  {
    if children != [] {
      var init := children[..|children| - 1];
      var last := children[|children| - 1];
      UnbuiltOutlinesTagged(init, unbuild);
      var (decoded, err) := UnbuiltOutlines(init, unbuild);
      var before := Tagged(init, "outline");
      var tagged := Tagged(children, "outline");
      assert tagged == before + (if last.tag == "outline" then [last] else []);
      if err.Some? || last.tag != "outline" {
        assert UnbuiltOutlines(children, unbuild) == (decoded, err);
        assert forall i :: 0 <= i < |before| ==> tagged[i] == before[i];
        if err.Some? && last.tag == "outline" {
          assert !unbuild(tagged[|decoded|]).Ok?;
        }
      } else if unbuild(last).Ok? {
        assert UnbuiltOutlines(children, unbuild) == (decoded + [unbuild(last).value], None);
        assert forall i :: 0 <= i < |before| ==> tagged[i] == before[i];
        assert tagged[|before|] == last;
      } else {
        assert UnbuiltOutlines(children, unbuild) == (decoded, Some(unbuild(last).error));
        assert forall i :: 0 <= i < |before| ==> tagged[i] == before[i];
        assert tagged[|decoded|] == last;
      }
    }
  }
}
