/** The part of Python's ElementTree that the descriptor builder uses, as
    values: an element is a tag, an attribute dictionary, optional text and
    an ordered list of children. `ET.SubElement(parent, tag)` appends a child
    at the end of that list, so an element built by a run of such calls is
    the element whose children are the appended ones, in call order. */
module ElementTree {
  import opened OvfNames

  datatype Option<T> = None | Some(value: T)

  datatype Element = Element(tag: Name, attrib: map<Name, string>, text: Option<string>, children: seq<Element>)

  /** A child that carries only text: `SubElement(parent, tag).text = text`. */
  function Leaf(tag: Name, text: string): Element
  {
    Element(tag, map[], Some(text), [])
  }

  /** The elements of `s` whose tag is `tag`, in document order
      (`findall(tag)` on their parent). */
  function WithTag(s: seq<Element>, tag: Name): (r: seq<Element>)
    ensures |r| <= |s|
  {
    if s == [] then []
    else WithTag(s[..|s| - 1], tag) + (if s[|s| - 1].tag == tag then [s[|s| - 1]] else [])
  }

  /** `findall(tag)`: the children of `e` with that tag. */
  function FindAll(e: Element, tag: Name): seq<Element>
  {
    WithTag(e.children, tag)
  }

  /** `find(tag)`: the first child of `e` with that tag, if any. */
  function Find(e: Element, tag: Name): Option<Element>
  {
    var r := FindAll(e, tag);
    if r == [] then None else Some(r[0])
  }

  /** The text of the first child of `e` with that tag, if there is one and it has text. */
  function ChildText(e: Element, tag: Name): Option<string>
  {
    match Find(e, tag)
    case Some(c) => c.text
    case None => None
  }

  /** Filtering `s + [c]` filters `s` and then keeps `c` if its tag matches. */
  lemma WithTagSnoc(s: seq<Element>, c: Element, tag: Name)
    ensures WithTag(s + [c], tag) == WithTag(s, tag) + (if c.tag == tag then [c] else [])
  {
    assert (s + [c])[..|s|] == s;
  }

  lemma {:induction false} WithTagAppend(a: seq<Element>, b: seq<Element>, tag: Name)
    ensures WithTag(a + b, tag) == WithTag(a, tag) + WithTag(b, tag)
    decreases |b|
  {
    if b == [] {
      assert a + b == a;
    } else {
      var b' := b[..|b| - 1];
      assert (a + b)[..|a + b| - 1] == a + b';
      WithTagAppend(a, b', tag);
    }
  }

  /** When no element of `s` has the tag, filtering by it keeps none. */
  lemma {:induction false} WithTagNone(s: seq<Element>, tag: Name)
    requires forall i :: 0 <= i < |s| ==> s[i].tag != tag
    ensures WithTag(s, tag) == []
  {
    if s != [] {
      WithTagNone(s[..|s| - 1], tag);
    }
  }

  /** The first element of `s` with the tag of `s[i]` is `s[i]` when none
      before it has that tag. */
  lemma FirstWithTag(s: seq<Element>, i: nat)
    requires i < |s|
    requires forall j :: 0 <= j < i ==> s[j].tag != s[i].tag
    ensures WithTag(s, s[i].tag) != [] && WithTag(s, s[i].tag)[0] == s[i]
  {
    var tag := s[i].tag;
    assert s == s[..i] + [s[i]] + s[i + 1..];
    WithTagNone(s[..i], tag);
    WithTagSnoc(s[..i], s[i], tag);
    WithTagAppend(s[..i] + [s[i]], s[i + 1..], tag);
  }

  /** `find` returns the first child with the tag: the child at `i` when
      none before it has that tag. */
  lemma FindAt(e: Element, i: nat)
    requires i < |e.children|
    requires forall j :: 0 <= j < i ==> e.children[j].tag != e.children[i].tag
    ensures Find(e, e.children[i].tag) == Some(e.children[i])
    ensures ChildText(e, e.children[i].tag) == e.children[i].text
  {
    FirstWithTag(e.children, i);
  }

  /** `find` finds nothing when no child has the tag. */
  lemma FindNone(e: Element, tag: Name)
    requires forall j :: 0 <= j < |e.children| ==> e.children[j].tag != tag
    ensures Find(e, tag) == None && ChildText(e, tag) == None
  {
    WithTagNone(e.children, tag);
  }
}
