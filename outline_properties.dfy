/**
 * What the outline encoder promises: which attributes an outline element
 * carries and with which values, that its children are the elements of its
 * child outlines in order, and that a tree builds exactly when every outline
 * in it passes its own rules.
 */
module OutlineProperties {
  import opened Wrappers
  import opened Text
  import opened Xml
  import opened Errors
  import opened Dates
  import opened Outlines

  /** The attribute names written after `text` are pairwise distinct and never `text`. */
  lemma AttributeNamesDistinct(i: nat, j: nat)
    requires i < AttributeCount && j < AttributeCount
    ensures AttributeName(i) != "text"
    ensures i != j ==> AttributeName(i) != AttributeName(j)
  {
  }

  /** Writing attribute `k - 1` sets it when it has a value and leaves every other attribute alone. */
  lemma AttributedStep(o: Outline, fmt: Formatter, k: nat, n: string)
    requires Present(o.text) && 0 < k <= AttributeCount
    ensures AttributedUpTo(o, fmt, k).Get(n) ==
              if n == AttributeName(k - 1) && AttributeValue(o, fmt, k - 1).Some? then AttributeValue(o, fmt, k - 1)
              else AttributedUpTo(o, fmt, k - 1).Get(n)
  {
    var v := AttributeValue(o, fmt, k - 1);
    if v.Some? {
      LookupSet(AttributedUpTo(o, fmt, k - 1).attributes, AttributeName(k - 1), v.value, n);
    }
  }

  /** Every attribute name written after `text` is a known outline attribute. */
  lemma AttributeNameKnown(j: nat)
    requires j < AttributeCount
    ensures AttributeName(j) in OutlineAttributeNames
  {
  }

  /** Writing attribute `k - 1` adds it, when it has a value, to the named attributes written before. */
  lemma NamedAttributesStep(o: Outline, fmt: Formatter, k: nat)
    requires Present(o.text) && 0 < k <= AttributeCount
    requires forall j :: 0 <= j < AttributeCount ==>
               AttributedUpTo(o, fmt, k - 1).Get(AttributeName(j)) == if j < k - 1 then AttributeValue(o, fmt, j) else None
    ensures forall j :: 0 <= j < AttributeCount ==>
              AttributedUpTo(o, fmt, k).Get(AttributeName(j)) == if j < k then AttributeValue(o, fmt, j) else None
  {
    forall j | 0 <= j < AttributeCount
      ensures AttributedUpTo(o, fmt, k).Get(AttributeName(j)) == if j < k then AttributeValue(o, fmt, j) else None
    {
      AttributedStep(o, fmt, k, AttributeName(j));
      AttributeNamesDistinct(j, k - 1);
    }
  }

  /** Writing attribute `k - 1` adds no attribute outside the known names. */
  lemma OtherAttributesStep(o: Outline, fmt: Formatter, k: nat)
    requires Present(o.text) && 0 < k <= AttributeCount
    requires forall n :: n !in OutlineAttributeNames ==> AttributedUpTo(o, fmt, k - 1).Get(n).None?
    ensures forall n :: n !in OutlineAttributeNames ==> AttributedUpTo(o, fmt, k).Get(n).None?
  {
    AttributeNameKnown(k - 1);
    forall n | n !in OutlineAttributeNames
      ensures AttributedUpTo(o, fmt, k).Get(n).None?
    {
      AttributedStep(o, fmt, k, n);
    }
  }

  /**
   * The attributes of the element once `text` and the first `k` attributes
   * are written: `text`, each of the first `k` with its value, and nothing else.
   */
  lemma {:induction false} AttributedUpToGet(o: Outline, fmt: Formatter, k: nat)
    requires Present(o.text) && k <= AttributeCount
    ensures AttributedUpTo(o, fmt, k).Get("text") == o.text
    ensures forall j :: 0 <= j < AttributeCount ==>
              AttributedUpTo(o, fmt, k).Get(AttributeName(j)) == if j < k then AttributeValue(o, fmt, j) else None
    ensures forall n :: n !in OutlineAttributeNames ==> AttributedUpTo(o, fmt, k).Get(n).None?
  {
    if k == 0 {
      forall n {
        LookupSet([], "text", o.text.value, n);
      }
      forall j | 0 <= j < AttributeCount {
        AttributeNamesDistinct(j, j);
      }
    } else {
      AttributedUpToGet(o, fmt, k - 1);
      AttributedStep(o, fmt, k, "text");
      AttributeNamesDistinct(k - 1, k - 1);
      NamedAttributesStep(o, fmt, k);
      OtherAttributesStep(o, fmt, k);
    }
  }

  /**
   * The attributes of an outline element: `text` always; `type` when the
   * type is present; `isComment` and `isBreakpoint` as "true" exactly when
   * the flag is set; `created` as the formatted date when there is one;
   * each feed and link field when present, with its value; `category` as the
   * comma-joined categories when there are any; and no other attribute.
   */
  lemma OutlineAttributes(o: Outline, fmt: Formatter)
    requires Present(o.text)
    ensures Attributed(o, fmt).Get("text") == o.text
    ensures Attributed(o, fmt).Get("type") == Truthy(o.kind)
    ensures Attributed(o, fmt).Get("isComment") == (if o.isComment then Some("true") else None)
    ensures Attributed(o, fmt).Get("isBreakpoint") == (if o.isBreakpoint then Some("true") else None)
    ensures Attributed(o, fmt).Get("created") == (if o.created.Some? then Some(fmt(o.created.value)) else None)
    ensures Attributed(o, fmt).Get("xmlUrl") == Truthy(o.xmlUrl)
    ensures Attributed(o, fmt).Get("description") == Truthy(o.description)
    ensures Attributed(o, fmt).Get("htmlUrl") == Truthy(o.htmlUrl)
    ensures Attributed(o, fmt).Get("language") == Truthy(o.language)
    ensures Attributed(o, fmt).Get("title") == Truthy(o.title)
    ensures Attributed(o, fmt).Get("version") == Truthy(o.version)
    ensures Attributed(o, fmt).Get("url") == Truthy(o.url)
    ensures Attributed(o, fmt).Get("category") == (if o.categories == [] then None else Some(Join(o.categories, ',')))
    ensures forall n :: n !in OutlineAttributeNames ==> Attributed(o, fmt).Get(n).None?
  {
    AttributedUpToGet(o, fmt, AttributeCount);
    assert AttributeName(0) == "type" && AttributeName(1) == "isComment" && AttributeName(2) == "isBreakpoint";
    assert AttributeName(3) == "created" && AttributeName(4) == "xmlUrl" && AttributeName(5) == "description";
    assert AttributeName(6) == "htmlUrl" && AttributeName(7) == "language" && AttributeName(8) == "title";
    assert AttributeName(9) == "version" && AttributeName(10) == "url" && AttributeName(11) == "category";
  }

  /** A built outline element carries the outline's attributes and, as children, its child outlines' elements in order. */
  lemma OutlineChildren(o: Outline, fmt: Formatter)
    requires OutlineElement(o, fmt).Ok?
    ensures Present(o.text)
    ensures OutlineElement(o, fmt).value.attributes == Attributed(o, fmt).attributes
    ensures forall i :: 0 <= i < |o.outlines| ==>
              OutlineElement(o.outlines[i], fmt).Ok? &&
              OutlineElement(o, fmt).value.children[i] == OutlineElement(o.outlines[i], fmt).value
  {
    ChildElementsValues(o.outlines, fmt);
  }

  /** An outline tree every node of which passes its own rules. */
  ghost predicate ValidTree(o: Outline)
    decreases o
  {
    WriteCheck(o).None? && forall i :: 0 <= i < |o.outlines| ==> ValidTree(o.outlines[i])
  }

  /** An outline tree builds exactly when every outline in it is valid; the nodes are checked before their children. */
  lemma {:induction false} BuildOkIffValid(o: Outline, fmt: Formatter)
    ensures OutlineElement(o, fmt).Ok? <==> ValidTree(o)
    decreases o
  {
    if WriteCheck(o).None? {
      ChildElementsOk(o.outlines, fmt);
      forall i | 0 <= i < |o.outlines| {
        BuildOkIffValid(o.outlines[i], fmt);
      }
    }
  }

  /** Two outlines with the same text and the same first `k` attribute values are written alike up to `k`. */
  lemma {:induction false} SameValuesUpTo(a: Outline, b: Outline, fmt: Formatter, k: nat)
    requires Present(a.text) && a.text == b.text && k <= AttributeCount
    requires forall j :: 0 <= j < k ==> AttributeValue(a, fmt, j) == AttributeValue(b, fmt, j)
    ensures AttributedUpTo(a, fmt, k) == AttributedUpTo(b, fmt, k)
  {
    if k > 0 {
      SameValuesUpTo(a, b, fmt, k - 1);
    }
  }

  /** An empty title is not written, so an outline with an empty title and one without a title build the same element. */
  lemma EmptyTitleLost(o: Outline, fmt: Formatter)
    ensures OutlineElement(o.(title := Some("")), fmt) == OutlineElement(o.(title := None), fmt)
  {
    var a, b := o.(title := Some("")), o.(title := None);
    if Present(o.text) {
      forall j | 0 <= j < AttributeCount
        ensures AttributeValue(a, fmt, j) == AttributeValue(b, fmt, j)
      {
      }
      SameValuesUpTo(a, b, fmt, AttributeCount);
    }
  }

  /** Building an outline that is invalid itself fails with its own error, whatever its children. */
  lemma OwnErrorFirst(o: Outline, fmt: Formatter, children: seq<Outline>)
    requires WriteCheck(o).Some?
    ensures OutlineElement(o.(outlines := children), fmt) == Err(WriteCheck(o).value)
  {
  }

  /** Every error from writing an outline is a write error that names the outline, except a missing text. */
  lemma BuildErrorNamesOutline(o: Outline, fmt: Formatter)
    requires WriteCheck(o).Some?
    ensures OutlineElement(o, fmt).error.family == WriteError
    ensures OutlineElement(o, fmt).error.reason == TextMissing ==> OutlineElement(o, fmt).error.outline.None?
    ensures OutlineElement(o, fmt).error.reason != TextMissing ==> OutlineElement(o, fmt).error.outline == o.text
  {
  }
}
