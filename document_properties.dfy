/**
 * What the document encoder and decoder promise: the shape of the written
 * tree, which header fields `head` holds and in which order, the
 * `expansionState` split/join round trips, and that decoding what was
 * encoded gives the document back.
 */
module DocumentProperties {
  import opened Wrappers
  import opened Text
  import opened Xml
  import opened Errors
  import opened Dates
  import opened Outlines
  import opened Outlinable
  import opened Document
  import opened OutlineProperties

  /** The header tags are pairwise distinct and never `docs`. */
  lemma HeadTagsDistinct(i: nat, j: nat)
    requires i < HeadFieldCount && j < HeadFieldCount
    ensures HeadTag(i) != "docs"
    ensures i != j ==> HeadTag(i) != HeadTag(j)
  {
  }

  /** Writing header field `k - 1` adds its text under its tag when present, and hides no earlier text. */
  lemma HeadStep(h: Header, fmt: Formatter, k: nat, q: string)
    requires 0 < k <= HeadFieldCount
    ensures var prev := HeadUpTo(h, fmt, k - 1).FindText(q);
            HeadUpTo(h, fmt, k).FindText(q) ==
              if prev.Some? then prev else if q == HeadTag(k - 1) then HeadValue(h, fmt, k - 1) else None
  {
    var v := HeadValue(h, fmt, k - 1);
    if v.Some? {
      FindTextAppendText(HeadUpTo(h, fmt, k - 1), HeadTag(k - 1), v.value);
    }
  }

  /**
   * After the first `k` header fields are written, the text under each
   * header tag is that field's value when present, and nothing otherwise;
   * there is no `docs` yet.
   */
  lemma {:induction false} HeadUpToFindText(h: Header, fmt: Formatter, k: nat)
    requires k <= HeadFieldCount
    ensures forall j :: 0 <= j < HeadFieldCount ==>
              HeadUpTo(h, fmt, k).FindText(HeadTag(j)) == if j < k then HeadValue(h, fmt, j) else None
    ensures HeadUpTo(h, fmt, k).FindText("docs").None?
  {
    if k > 0 {
      HeadUpToFindText(h, fmt, k - 1);
      forall j | 0 <= j < HeadFieldCount
        ensures HeadUpTo(h, fmt, k).FindText(HeadTag(j)) == if j < k then HeadValue(h, fmt, j) else None
      {
        HeadStep(h, fmt, k, HeadTag(j));
        HeadTagsDistinct(j, k - 1);
      }
      HeadStep(h, fmt, k, "docs");
      HeadTagsDistinct(k - 1, k - 1);
    }
  }

  /**
   * Each header tag's text in the written `head` is its field's value: the
   * title and owner fields when present, the dates as formatted text, the
   * expansion state as comma-joined line numbers when there are any; and
   * `docs` holds the given link.
   */
  lemma HeadFields(h: Header, fmt: Formatter, docsUrl: string)
    ensures forall j :: 0 <= j < HeadFieldCount ==> HeadElement(h, fmt, docsUrl).FindText(HeadTag(j)) == HeadValue(h, fmt, j)
    ensures HeadElement(h, fmt, docsUrl).FindText("docs") == Some(docsUrl)
  {
    var body := HeadUpTo(h, fmt, HeadFieldCount);
    HeadUpToFindText(h, fmt, HeadFieldCount);
    FindTextAppendText(body, "docs", docsUrl);
  }

  /** The positions, in the fixed order, of the first `k` header fields that are present. */
  function PresentFields(h: Header, fmt: Formatter, k: nat): (r: seq<nat>)
    requires k <= HeadFieldCount
    ensures forall i :: 0 <= i < |r| ==> r[i] < k && HeadValue(h, fmt, r[i]).Some?
    ensures forall i, j :: 0 <= i < j < |r| ==> r[i] < r[j]
  {
    if k == 0 then []
    else PresentFields(h, fmt, k - 1) + (if HeadValue(h, fmt, k - 1).Some? then [k - 1] else [])
  }

  /** After the first `k` fields are written, the children are the present fields, in the fixed order, each with its text. */
  lemma {:induction false} HeadUpToChildren(h: Header, fmt: Formatter, k: nat)
    requires k <= HeadFieldCount
    ensures var cs := HeadUpTo(h, fmt, k).children;
            var fs := PresentFields(h, fmt, k);
            |cs| == |fs| && forall i :: 0 <= i < |cs| ==> cs[i] == Element(HeadTag(fs[i]), [], HeadValue(h, fmt, fs[i]), [])
  {
    if k > 0 {
      HeadUpToChildren(h, fmt, k - 1);
      var prev := HeadUpTo(h, fmt, k - 1).children;
      var cs := HeadUpTo(h, fmt, k).children;
      var fs := PresentFields(h, fmt, k);
      var pfs := PresentFields(h, fmt, k - 1);
      var v := HeadValue(h, fmt, k - 1);
      if v.Some? {
        assert cs == prev + [Element(HeadTag(k - 1), [], v, [])] && fs == pfs + [k - 1];
      } else {
        assert cs == prev && fs == pfs;
      }
      forall i | 0 <= i < |cs|
        ensures cs[i] == Element(HeadTag(fs[i]), [], HeadValue(h, fmt, fs[i]), [])
      {
        if i < |prev| {
          assert cs[i] == prev[i] && fs[i] == pfs[i];
        }
      }
    }
  }

  /**
   * The written `head`: the present header fields, each once with its text,
   * in the fixed order title, dateCreated, dateModified, ownerName,
   * ownerEmail, ownerId, expansionState, vertScrollState, windowTop,
   * windowLeft, windowBottom, windowRight; then `docs`, always last.
   */
  lemma HeadOrder(h: Header, fmt: Formatter, docsUrl: string)
    ensures var cs := HeadElement(h, fmt, docsUrl).children;
            |cs| >= 1 && cs[|cs| - 1] == Element("docs", [], Some(docsUrl), [])
    ensures var cs := HeadElement(h, fmt, docsUrl).children;
            var fs := PresentFields(h, fmt, HeadFieldCount);
            |cs| == |fs| + 1 &&
            forall i :: 0 <= i < |fs| ==> cs[i] == Element(HeadTag(fs[i]), [], HeadValue(h, fmt, fs[i]), [])
  {
    HeadUpToChildren(h, fmt, HeadFieldCount);
    var prev := HeadUpTo(h, fmt, HeadFieldCount).children;
    var cs := HeadElement(h, fmt, docsUrl).children;
    assert forall i :: 0 <= i < |prev| ==> cs[i] == prev[i];
  }

  /** Reading the `expansionState` text back from a written list gives the list, when no line number holds a comma and the joined text is not empty. */
  lemma ExpansionRoundTrip(xs: seq<string>)
    requires forall i :: 0 <= i < |xs| ==> ',' !in xs[i]
    requires xs != [] && xs != [""]
    ensures SplitExpansion(ExpansionText(xs)) == xs
  {
    JoinEmpty(xs, ',');
    SplitJoin(xs, ',');
  }

  /** Writing back an `expansionState` that was read gives the text that was read. */
  lemma ExpansionTextRoundTrip(t: Option<string>)
    requires Present(t)
    ensures ExpansionText(SplitExpansion(t)) == t
  {
  }

  /** A header as it reads back: empty texts count as absent, and a single empty line number is lost. */
  function Normalized(h: Header): (r: Header)
    ensures r.dateCreated == h.dateCreated && r.dateModified == h.dateModified
  {
    h.(title := Truthy(h.title),
       ownerName := Truthy(h.ownerName),
       ownerEmail := Truthy(h.ownerEmail),
       ownerId := Truthy(h.ownerId),
       expansionState := if h.expansionState == [""] then [] else h.expansionState,
       vertScrollState := Truthy(h.vertScrollState),
       windowTop := Truthy(h.windowTop),
       windowLeft := Truthy(h.windowLeft),
       windowBottom := Truthy(h.windowBottom),
       windowRight := Truthy(h.windowRight))
  }

  /** A header whose texts are absent or non-empty and whose expansion state is not a single empty entry reads back unchanged. */
  lemma NormalizedIdentity(h: Header)
    requires h.title != Some("") && h.ownerName != Some("") && h.ownerEmail != Some("") && h.ownerId != Some("")
    requires h.vertScrollState != Some("") && h.windowTop != Some("") && h.windowLeft != Some("")
    requires h.windowBottom != Some("") && h.windowRight != Some("")
    requires h.expansionState != [""]
    ensures Normalized(h) == h
  {
  }

  /**
   * A date, when there is one, is formatted as non-empty text that parses
   * back to the same date (RFC 2822 text keeps whole seconds only, so this
   * holds of dates without a fraction of a second).
   */
  predicate DateReadsBack(d: Option<DateTime>, fmt: Formatter, parse: Parser)
  {
    d.Some? ==> fmt(d.value) != "" && parse(fmt(d.value)) == Some(d.value)
  }

  /** Both dates of the header read back. */
  predicate DatesRoundTrip(h: Header, fmt: Formatter, parse: Parser)
  {
    DateReadsBack(h.dateCreated, fmt, parse) && DateReadsBack(h.dateModified, fmt, parse)
  }

  /** No line number of the expansion state holds a comma. */
  predicate CommaFree(xs: seq<string>)
  {
    forall i :: 0 <= i < |xs| ==> ',' !in xs[i]
  }

  /** A date written into `head` reads back as the same date. */
  lemma DateRoundTrip(d: Option<DateTime>, fmt: Formatter, parse: Parser)
    requires DateReadsBack(d, fmt, parse)
    ensures ParseDate(DateText(d, fmt), parse) == Ok(d)
  {
  }

  /** The text under each header tag of the written `head`, field by field. */
  lemma HeadTexts(h: Header, fmt: Formatter, docsUrl: string)
    ensures var head := HeadElement(h, fmt, docsUrl);
            head.FindText("title") == Truthy(h.title) &&
            head.FindText("dateCreated") == DateText(h.dateCreated, fmt) &&
            head.FindText("dateModified") == DateText(h.dateModified, fmt) &&
            head.FindText("ownerName") == Truthy(h.ownerName) &&
            head.FindText("ownerEmail") == Truthy(h.ownerEmail) &&
            head.FindText("ownerId") == Truthy(h.ownerId)
    ensures var head := HeadElement(h, fmt, docsUrl);
            head.FindText("expansionState") == ExpansionText(h.expansionState) &&
            head.FindText("vertScrollState") == Truthy(h.vertScrollState) &&
            head.FindText("windowTop") == Truthy(h.windowTop) &&
            head.FindText("windowLeft") == Truthy(h.windowLeft) &&
            head.FindText("windowBottom") == Truthy(h.windowBottom) &&
            head.FindText("windowRight") == Truthy(h.windowRight)
  {
    HeadFields(h, fmt, docsUrl);
    assert HeadTag(0) == "title" && HeadTag(1) == "dateCreated" && HeadTag(2) == "dateModified";
    assert HeadTag(3) == "ownerName" && HeadTag(4) == "ownerEmail" && HeadTag(5) == "ownerId";
    assert HeadTag(6) == "expansionState" && HeadTag(7) == "vertScrollState" && HeadTag(8) == "windowTop";
    assert HeadTag(9) == "windowLeft" && HeadTag(10) == "windowBottom" && HeadTag(11) == "windowRight";
  }

  /** The written expansion state reads back, except that a single empty entry is lost. */
  lemma ExpansionReadsBack(xs: seq<string>)
    requires CommaFree(xs)
    ensures SplitExpansion(ExpansionText(xs)) == if xs == [""] then [] else xs
  {
    if xs != [] && xs != [""] {
      ExpansionRoundTrip(xs);
    } else if xs == [""] {
      assert Join(xs, ',') == "";
    }
  }

  /** A `head` carrying the texts written for `h` reads back as `h`, up to empty texts. */
  lemma DecodeWrittenTexts(head: Element, h: Header, fmt: Formatter, parse: Parser)
    requires DatesRoundTrip(h, fmt, parse)
    requires CommaFree(h.expansionState)
    requires head.FindText("title") == Truthy(h.title) &&
             head.FindText("dateCreated") == DateText(h.dateCreated, fmt) &&
             head.FindText("dateModified") == DateText(h.dateModified, fmt) &&
             head.FindText("ownerName") == Truthy(h.ownerName) &&
             head.FindText("ownerEmail") == Truthy(h.ownerEmail) &&
             head.FindText("ownerId") == Truthy(h.ownerId)
    requires head.FindText("expansionState") == ExpansionText(h.expansionState) &&
             head.FindText("vertScrollState") == Truthy(h.vertScrollState) &&
             head.FindText("windowTop") == Truthy(h.windowTop) &&
             head.FindText("windowLeft") == Truthy(h.windowLeft) &&
             head.FindText("windowBottom") == Truthy(h.windowBottom) &&
             head.FindText("windowRight") == Truthy(h.windowRight)
    ensures DecodeHeader(head, parse) == Ok(Normalized(h))
  {
    DateRoundTrip(h.dateCreated, fmt, parse);
    DateRoundTrip(h.dateModified, fmt, parse);
    ExpansionReadsBack(h.expansionState);
  }

  /** Reading the written `head` gives the header back, up to empty texts. */
  lemma HeaderRoundTrip(h: Header, fmt: Formatter, parse: Parser, docsUrl: string)
    requires DatesRoundTrip(h, fmt, parse)
    requires CommaFree(h.expansionState)
    ensures DecodeHeader(HeadElement(h, fmt, docsUrl), parse) == Ok(Normalized(h))
  {
    HeadTexts(h, fmt, docsUrl);
    DecodeWrittenTexts(HeadElement(h, fmt, docsUrl), h, fmt, parse);
  }

  /**
   * The element written for each outline of `os` is read back by `unbuild`
   * as that outline. (No decoder can do this for every outline: an empty
   * text and an absent one write the same element, see `EmptyTitleLost`.)
   */
  ghost predicate OutlinesRoundTrip(os: seq<Outline>, fmt: Formatter, unbuild: Element -> Result<Outline, Error>)
  {
    forall i :: 0 <= i < |os| && OutlineElement(os[i], fmt).Ok? ==> unbuild(OutlineElement(os[i], fmt).value) == Ok(os[i])
  }

  /** Children that are all `outline` elements and all decode read back as the decoded list. */
  lemma UnbuiltAll(kids: seq<Element>, os: seq<Outline>, unbuild: Element -> Result<Outline, Error>)
    requires |kids| == |os|
    requires forall i :: 0 <= i < |kids| ==> kids[i].tag == "outline" && unbuild(kids[i]) == Ok(os[i])
    ensures UnbuiltOutlines(kids, unbuild) == (os, None)
  {
    TaggedAll(kids, "outline");
    UnbuiltOutlinesTagged(kids, unbuild);
    var r := UnbuiltOutlines(kids, unbuild);
    assert r.1.None?;
    assert r.0 == os;
  }

  /** Reading the `body` children written for a list of outlines gives the list back. */
  lemma BodyRoundTrip(os: seq<Outline>, fmt: Formatter, unbuild: Element -> Result<Outline, Error>)
    requires ChildElements(os, fmt).Ok?
    requires OutlinesRoundTrip(os, fmt, unbuild)
    ensures UnbuiltOutlines(ChildElements(os, fmt).value, unbuild) == (os, None)
  {
    var kids := ChildElements(os, fmt).value;
    ChildElementsValues(os, fmt);
    forall i | 0 <= i < |kids|
      ensures kids[i].tag == "outline" && unbuild(kids[i]) == Ok(os[i])
    {
      assert OutlineElement(os[i], fmt) == Ok(kids[i]);
    }
    UnbuiltAll(kids, os, unbuild);
  }

  /**
   * Decoding an encoded document gives its header (up to empty texts) and
   * its outlines back, whichever `docs` link was written.
   */
  lemma DocumentRoundTrip(h: Header, os: seq<Outline>, fmt: Formatter, parse: Parser,
                          unbuild: Element -> Result<Outline, Error>, docsUrl: string)
    requires EncodeDocument(h, os, fmt, docsUrl).Ok?
    requires DatesRoundTrip(h, fmt, parse) && CommaFree(h.expansionState)
    requires OutlinesRoundTrip(os, fmt, unbuild)
    ensures DecodeDocument(EncodeDocument(h, os, fmt, docsUrl).value, parse, unbuild) == Ok((Normalized(h), os))
  {
    var root := EncodeDocument(h, os, fmt, docsUrl).value;
    var head := HeadElement(h, fmt, docsUrl);
    var body := Element("body", [], None, ChildElements(os, fmt).value);
    assert root.children == [head, body];
    assert root.Find("head") == Some(head);
    assert root.Find("body") == Some(body);
    HeaderRoundTrip(h, fmt, parse, docsUrl);
    BodyRoundTrip(os, fmt, unbuild);
  }

  /**
   * The round trip's premises can be met: a header with a title, a creation
   * date and line numbers, and one outline tree that builds, are read back
   * unchanged through a date parser and an outline decoder that invert what
   * was written.
   */
  lemma DocumentRoundTripInstance(d: DateTime, o: Outline)
    requires ValidTree(o)
    ensures var stamp := "Mon, 01 Jan 2024 00:00:00 +0000";
            var fmt: Formatter := _ => stamp;
            var parse: Parser := s => if s == stamp then Some(d) else None;
            var h := EmptyHeader.(title := Some("Subscriptions"), dateCreated := Some(d), expansionState := ["2", "5"]);
            EncodeDocument(h, [o], fmt, DocsUrl).Ok? &&
            DecodeDocument(EncodeDocument(h, [o], fmt, DocsUrl).value, parse, _ => Ok(o)) == Ok((h, [o]))
  {
    var stamp := "Mon, 01 Jan 2024 00:00:00 +0000";
    var fmt: Formatter := _ => stamp;
    var parse: Parser := s => if s == stamp then Some(d) else None;
    var h := EmptyHeader.(title := Some("Subscriptions"), dateCreated := Some(d), expansionState := ["2", "5"]);
    BuildOkIffValid(o, fmt);
    ChildElementsOk([o], fmt);
    assert CommaFree(h.expansionState) by {
      assert h.expansionState[0] == "2" && h.expansionState[1] == "5";
    }
    assert DatesRoundTrip(h, fmt, parse);
    assert OutlinesRoundTrip([o], fmt, _ => Ok(o));
    DocumentRoundTrip(h, [o], fmt, parse, _ => Ok(o), DocsUrl);
    NormalizedIdentity(h);
  }

  /** A document that builds writes every outline it holds: building fails exactly when one of its outlines does. */
  lemma EncodeFailsOnAnyOutline(h: Header, os: seq<Outline>, fmt: Formatter, docsUrl: string)
    ensures EncodeDocument(h, os, fmt, docsUrl).Err? <==> exists i :: 0 <= i < |os| && OutlineElement(os[i], fmt).Err?
  {
    ChildElementsOk(os, fmt);
  }

  /** The current and the older encoder differ only in the `docs` link. */
  lemma EncodersDifferOnlyInDocs(h: Header, os: seq<Outline>, fmt: Formatter)
    ensures EncodeDocument(h, os, fmt, DocsUrl).Ok? == EncodeDocument(h, os, fmt, LegacyDocsUrl).Ok?
    ensures EncodeDocument(h, os, fmt, DocsUrl).Ok? ==>
              var a := EncodeDocument(h, os, fmt, DocsUrl).value;
              var b := EncodeDocument(h, os, fmt, LegacyDocsUrl).value;
              a.(children := [a.children[0].(children := a.children[0].children[..|a.children[0].children| - 1]), a.children[1]]) ==
              b.(children := [b.children[0].(children := b.children[0].children[..|b.children[0].children| - 1]), b.children[1]])
  {
    var body := HeadUpTo(h, fmt, HeadFieldCount);
    assert HeadElement(h, fmt, DocsUrl).children[..|body.children|] == body.children;
    assert HeadElement(h, fmt, LegacyDocsUrl).children[..|body.children|] == body.children;
  }
}
