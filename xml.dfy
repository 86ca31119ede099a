/**
 * The XML element tree that the OPML mapping reads and writes: a tag, an
 * ordered attribute list, an optional text and ordered children. Only the
 * element operations the mapping uses are modelled (attribute get and set,
 * child append, first child by tag, text of the first child by tag,
 * children by tag).
 */
module Xml {
  import opened Wrappers

  datatype Element = Element(tag: string, attributes: seq<(string, string)>, text: Option<string>, children: seq<Element>)
  {
    /** The value of attribute `name`, if the element has one. */
    function Get(name: string): Option<string>
    {
      Lookup(attributes, name)
    }

    /** Sets attribute `name`: replaces its value where it is, or adds it last. */
    function Set(name: string, value: string): (r: Element)
      ensures r.tag == tag && r.text == text && r.children == children
      ensures Get(name).None? ==> r.attributes == attributes + [(name, value)]
    {
      this.(attributes := SetAttribute(attributes, name, value))
    }

    /** Appends `child` after the existing children. */
    function Append(child: Element): (r: Element)
      ensures r.tag == tag && r.attributes == attributes && r.text == text
      ensures r.children == children + [child]
      ensures forall t :: r.Find(t) == if Find(t).Some? then Find(t) else if child.tag == t then Some(child) else None
    {
      FindInAppend(children, child);
      this.(children := children + [child])
    }

    /** Adds a last child with tag `t` whose text is `s`. */
    function AppendText(t: string, s: string): (r: Element)
      ensures r.tag == tag && r.attributes == attributes && r.text == text
      ensures r.children == children + [Element(t, [], Some(s), [])]
    {
      Append(Element(t, [], Some(s), []))
    }

    /** The first child with tag `t`. */
    function Find(t: string): Option<Element>
    {
      FindIn(children, t)
    }

    /**
     * The text of the first child with tag `t`: absent when there is no such
     * child, and empty when that child has no text.
     */
    function FindText(t: string): Option<string>
    {
      match Find(t)
      case None => None
      case Some(c) => Some(if c.text.Some? then c.text.value else "")
    }

    /** The children with tag `t`, in document order. */
    function ChildrenTagged(t: string): seq<Element>
    {
      Tagged(children, t)
    }
  }

  function NewElement(tag: string): Element
  {
    Element(tag, [], None, [])
  }

  function Lookup(attrs: seq<(string, string)>, name: string): Option<string>
  {
    if attrs == [] then None
    else if attrs[0].0 == name then Some(attrs[0].1)
    else Lookup(attrs[1..], name)
  }

  function SetAttribute(attrs: seq<(string, string)>, name: string, value: string): (r: seq<(string, string)>)
    ensures Lookup(attrs, name).None? ==> r == attrs + [(name, value)]
  {
    if attrs == [] then [(name, value)]
    else if attrs[0].0 == name then [(name, value)] + attrs[1..]
    else
      assert attrs == [attrs[0]] + attrs[1..];
      [attrs[0]] + SetAttribute(attrs[1..], name, value)
  }

  /** After a set, the attribute set has the new value and every other keeps its own. */
  lemma {:induction false} LookupSet(attrs: seq<(string, string)>, name: string, value: string, n: string)
    ensures Lookup(SetAttribute(attrs, name, value), n) == if n == name then Some(value) else Lookup(attrs, n)
  {
    if attrs != [] && attrs[0].0 != name {
      LookupSet(attrs[1..], name, value, n);
    }
  }

  function FindIn(cs: seq<Element>, t: string): Option<Element>
  {
    if cs == [] then None
    else if cs[0].tag == t then Some(cs[0])
    else FindIn(cs[1..], t)
  }

  /** The child found for `t` is the first child carrying tag `t`; none is found exactly when no child carries it. */
  lemma {:induction false} FindInFirst(cs: seq<Element>, t: string)
    ensures FindIn(cs, t).Some? ==> exists i :: 0 <= i < |cs| && cs[i] == FindIn(cs, t).value && cs[i].tag == t &&
                                               forall j :: 0 <= j < i ==> cs[j].tag != t
    ensures FindIn(cs, t).None? <==> forall i :: 0 <= i < |cs| ==> cs[i].tag != t
  {
    if cs != [] {
      FindInFirst(cs[1..], t);
      if cs[0].tag != t && FindIn(cs, t).Some? {
        var i :| 0 <= i < |cs[1..]| && cs[1..][i] == FindIn(cs, t).value && cs[1..][i].tag == t &&
                 forall j :: 0 <= j < i ==> cs[1..][j].tag != t;
        assert cs[i + 1] == cs[1..][i];
        assert forall j :: 1 <= j < i + 1 ==> cs[j] == cs[1..][j - 1];
      }
    }
  }

  lemma {:induction false} FindInAppend(cs: seq<Element>, x: Element)
    ensures forall t :: FindIn(cs + [x], t) == if FindIn(cs, t).Some? then FindIn(cs, t) else if x.tag == t then Some(x) else None
  {
    if cs != [] {
      FindInAppend(cs[1..], x);
      assert (cs + [x])[1..] == cs[1..] + [x];
    }
  }

  /** After a text child is added, a tag's text is the earlier child's when there was one, else the new text. */
  lemma FindTextAppendText(e: Element, t: string, s: string)
    ensures forall q :: e.AppendText(t, s).FindText(q) ==
                        if e.FindText(q).Some? then e.FindText(q) else if q == t then Some(s) else None
  {
    FindInAppend(e.children, Element(t, [], Some(s), []));
  }

  function Tagged(cs: seq<Element>, t: string): (r: seq<Element>)
    ensures forall i :: 0 <= i < |r| ==> r[i].tag == t
    ensures |r| <= |cs|
  {
    if cs == [] then []
    else Tagged(cs[..|cs| - 1], t) + (if cs[|cs| - 1].tag == t then [cs[|cs| - 1]] else [])
  }

  /** Filtering by tag distributes over concatenation: the order of the children is kept. */
  lemma {:induction false} TaggedConcat(a: seq<Element>, b: seq<Element>, t: string)
    ensures Tagged(a + b, t) == Tagged(a, t) + Tagged(b, t)
    decreases |b|
  {
    if b == [] {
      assert a + b == a;
    } else {
      var init := b[..|b| - 1];
      var last := if b[|b| - 1].tag == t then [b[|b| - 1]] else [];
      TaggedConcat(a, init, t);
      assert (a + b)[..|a + b| - 1] == a + init;
      assert (a + b)[|a + b| - 1] == b[|b| - 1];
      calc {
        Tagged(a + b, t);
        Tagged(a + init, t) + last;
        (Tagged(a, t) + Tagged(init, t)) + last;
        Tagged(a, t) + (Tagged(init, t) + last);
        Tagged(a, t) + Tagged(b, t);
      }
    }
  }

  /** When every child carries tag `t`, filtering by `t` keeps them all. */
  lemma {:induction false} TaggedAll(cs: seq<Element>, t: string)
    requires forall i :: 0 <= i < |cs| ==> cs[i].tag == t
    ensures Tagged(cs, t) == cs
  {
    if cs != [] {
      TaggedAll(cs[..|cs| - 1], t);
      assert cs[..|cs| - 1] + [cs[|cs| - 1]] == cs;
    }
  }

  /** When no child carries tag `t`, filtering by `t` keeps none. */
  lemma {:induction false} TaggedNone(cs: seq<Element>, t: string)
    requires forall i :: 0 <= i < |cs| ==> cs[i].tag != t
    ensures Tagged(cs, t) == []
  {
    if cs != [] {
      TaggedNone(cs[..|cs| - 1], t);
    }
  }
}
