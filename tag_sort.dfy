/** The sort step of `get_xml` (nixops/backends/vsphere.py lines 250-253):
    `item[:] = sorted(item, key=lambda child: child.tag)`. Python's `sorted`
    is a stable sort under `<` on the key strings. It is modelled here by a
    stable insertion sort, and StableSortUnique shows that every stable sort
    of the same children gives the same list, so the choice of algorithm
    does not matter. */
module TagSort {
  import opened Text
  import opened OvfNames
  import opened ElementTree

  /** The sort key: the tag as the string ElementTree holds. */
  function Key(e: Element): string
  {
    TagText(e.tag)
  }

  /** Children in non-decreasing order of key. */
  predicate Sorted(s: seq<Element>)
  {
    forall i, j :: 0 <= i < j < |s| ==> LexLe(Key(s[i]), Key(s[j]))
  }

  /** The elements of `s` whose key is `k`, in order: what a stable sort
      must leave in place. */
  function WithKey(s: seq<Element>, k: string): (r: seq<Element>)
    ensures |r| <= |s|
  {
    if s == [] then []
    else WithKey(s[..|s| - 1], k) + (if Key(s[|s| - 1]) == k then [s[|s| - 1]] else [])
  }

  /** `x` placed into `s` after the last element whose key is not greater
      than its own: where a stable sort puts an element that came after all
      of `s`. */
  function Insert(s: seq<Element>, x: Element): (r: seq<Element>)
    ensures |r| == |s| + 1
  {
    if s == [] || LexLe(Key(s[|s| - 1]), Key(x)) then s + [x]
    else Insert(s[..|s| - 1], x) + [s[|s| - 1]]
  }

  /** The children of `s` sorted stably by key. */
  function SortByTag(s: seq<Element>): (r: seq<Element>)
    ensures |r| == |s|
  {
    if s == [] then []
    else Insert(SortByTag(s[..|s| - 1]), s[|s| - 1])
  }

  /** Inserting adds `x` and keeps everything else. */
  lemma {:induction false} InsertPermutes(s: seq<Element>, x: Element)
    ensures multiset(Insert(s, x)) == multiset(s) + multiset{x}
  {
    if s != [] && !LexLe(Key(s[|s| - 1]), Key(x)) {
      InsertPermutes(s[..|s| - 1], x);
      SplitLast(s);
    }
  }

  /** Sorting only reorders: the result holds the same children, as often. */
  lemma {:induction false} SortByTagPermutes(s: seq<Element>)
    ensures multiset(SortByTag(s)) == multiset(s)
  {
    if s != [] {
      SortByTagPermutes(s[..|s| - 1]);
      InsertPermutes(SortByTag(s[..|s| - 1]), s[|s| - 1]);
      SplitLast(s);
    }
  }

  lemma {:induction false} InsertSorted(s: seq<Element>, x: Element)
    requires Sorted(s)
    ensures Sorted(Insert(s, x))
  {
    if s == [] {
    } else if LexLe(Key(s[|s| - 1]), Key(x)) {
      var last := s[|s| - 1];
      forall i | 0 <= i < |s|
        ensures LexLe(Key(s[i]), Key(x))
      {
        if i < |s| - 1 {
          LexLeTransitive(Key(s[i]), Key(last), Key(x));
        }
      }
    } else {
      var init, last := s[..|s| - 1], s[|s| - 1];
      LexLeTotal(Key(last), Key(x));
      InsertSorted(init, x);
      var r := Insert(init, x);
      InsertPermutes(init, x);
      forall i | 0 <= i < |r|
        ensures LexLe(Key(r[i]), Key(last))
      {
        var e := r[i];
        assert e in multiset(r);
        if e != x {
          assert e in multiset(init);
          var k :| 0 <= k < |init| && init[k] == e;
          assert s[k] == e;
        }
      }
    }
  }

  /** Filtering `s + [c]` by key filters `s` and then keeps `c` if its key matches. */
  lemma WithKeySnoc(s: seq<Element>, c: Element, k: string)
    ensures WithKey(s + [c], k) == WithKey(s, k) + (if Key(c) == k then [c] else [])
  {
    assert (s + [c])[..|s|] == s;
  }

  /** Inserting keeps, for every key, the order of the elements that carry
      it: `x` comes after the ones already there. */
  lemma {:induction false} InsertWithKey(s: seq<Element>, x: Element, k: string)
    ensures WithKey(Insert(s, x), k) == WithKey(s + [x], k)
  {
    if s == [] || LexLe(Key(s[|s| - 1]), Key(x)) {
    } else {
      var init, last := s[..|s| - 1], s[|s| - 1];
      LexLeReflexive(Key(x));
      var inserted := Insert(init, x);
      var lastPart := if Key(last) == k then [last] else [];
      var xPart := if Key(x) == k then [x] else [];
      assert lastPart == [] || xPart == [];
      calc {
        WithKey(Insert(s, x), k);
        { assert Insert(s, x) == inserted + [last]; }
        WithKey(inserted + [last], k);
        { WithKeySnoc(inserted, last, k); }
        WithKey(inserted, k) + lastPart;
        { InsertWithKey(init, x, k); WithKeySnoc(init, x, k); }
        WithKey(init, k) + xPart + lastPart;
        WithKey(init, k) + lastPart + xPart;
        { assert s == init + [last]; WithKeySnoc(init, last, k); }
        WithKey(s, k) + xPart;
        { WithKeySnoc(s, x, k); }
        WithKey(s + [x], k);
      }
    }
  }

  lemma {:induction false} SortByTagSorted(s: seq<Element>)
    ensures Sorted(SortByTag(s))
  {
    if s != [] {
      SortByTagSorted(s[..|s| - 1]);
      InsertSorted(SortByTag(s[..|s| - 1]), s[|s| - 1]);
    }
  }

  /** Stability: for every key, the children with that key keep their order. */
  lemma {:induction false} SortByTagStable(s: seq<Element>, k: string)
    ensures WithKey(SortByTag(s), k) == WithKey(s, k)
  {
    if s != [] {
      var init, last := s[..|s| - 1], s[|s| - 1];
      var sorted := SortByTag(init);
      var lastPart := if Key(last) == k then [last] else [];
      calc {
        WithKey(SortByTag(s), k);
        WithKey(Insert(sorted, last), k);
        { InsertWithKey(sorted, last, k); }
        WithKey(sorted + [last], k);
        { WithKeySnoc(sorted, last, k); }
        WithKey(sorted, k) + lastPart;
        { SortByTagStable(init, k); }
        WithKey(init, k) + lastPart;
        { WithKeySnoc(init, last, k); SplitLast(s); }
        WithKey(s, k);
      }
    }
  }

  /** The last element of `s` is the last of those with its key. */
  lemma WithKeyLast(s: seq<Element>)
    requires s != []
    ensures WithKey(s, Key(s[|s| - 1])) == WithKey(s[..|s| - 1], Key(s[|s| - 1])) + [s[|s| - 1]]
  {
  }

  /** What the key filter returns comes from the list and carries the key. */
  lemma {:induction false} WithKeyMember(s: seq<Element>, k: string, e: Element)
    requires e in WithKey(s, k)
    ensures e in s && Key(e) == k
  {
    var init := s[..|s| - 1];
    if e in WithKey(init, k) {
      WithKeyMember(init, k, e);
      assert init[..] == s[..|s| - 1];
    }
  }

  lemma SortedPrefix(s: seq<Element>)
    requires Sorted(s) && s != []
    ensures Sorted(s[..|s| - 1])
  {
    var init := s[..|s| - 1];
    assert forall i :: 0 <= i < |init| ==> init[i] == s[i];
  }

  /** An element of a sorted list has a key no greater than the last one's. */
  lemma SortedLastIsGreatest(s: seq<Element>, e: Element)
    requires Sorted(s) && e in s
    ensures LexLe(Key(e), Key(s[|s| - 1]))
  {
    var k :| 0 <= k < |s| && s[k] == e;
    if k == |s| - 1 {
      LexLeReflexive(Key(e));
    }
  }

  /** Two sorted lists that agree key by key end with the same element. */
  lemma SameLast(a: seq<Element>, b: seq<Element>)
    requires Sorted(a) && Sorted(b) && a != [] && b != []
    requires forall k :: WithKey(a, k) == WithKey(b, k)
    ensures a[|a| - 1] == b[|b| - 1]
  {
    var x, y := a[|a| - 1], b[|b| - 1];
    var ax, bx := WithKey(a, Key(x)), WithKey(b, Key(x));
    var ay, bY := WithKey(a, Key(y)), WithKey(b, Key(y));
    WithKeyLast(a);
    WithKeyLast(b);
    // x is among b's elements keyed like x, so its key is at most y's
    assert x == ax[|ax| - 1] && ax == bx;
    WithKeyMember(b, Key(x), x);
    SortedLastIsGreatest(b, x);
    // and symmetrically
    assert y == bY[|bY| - 1] && ay == bY;
    WithKeyMember(a, Key(y), y);
    SortedLastIsGreatest(a, y);
    LexLeAntisymmetric(Key(x), Key(y));
  }

  /** Dropping the same last element keeps the agreement key by key. */
  lemma DropSameLast(a: seq<Element>, b: seq<Element>, k: string)
    requires a != [] && b != [] && a[|a| - 1] == b[|b| - 1]
    requires WithKey(a, k) == WithKey(b, k)
    ensures WithKey(a[..|a| - 1], k) == WithKey(b[..|b| - 1], k)
  {
    var a', b', x := a[..|a| - 1], b[..|b| - 1], a[|a| - 1];
    var xPart := if Key(x) == k then [x] else [];
    var p, q := WithKey(a', k), WithKey(b', k);
    assert WithKey(a, k) == p + xPart;
    assert WithKey(b, k) == q + xPart;
    assert p == (p + xPart)[..|p|];
    assert q == (q + xPart)[..|q|];
  }

  /** A sorted list is determined by what it holds for each key, in order:
      two sorted lists that agree key by key are equal. So every stable sort
      of the same children returns the same list as SortByTag. */
  lemma {:induction false} StableSortUnique(a: seq<Element>, b: seq<Element>)
    requires Sorted(a) && Sorted(b)
    requires forall k :: WithKey(a, k) == WithKey(b, k)
    ensures a == b
    decreases |a|
  {
    if a == [] {
      if b != [] {
        WithKeyLast(b);
      }
    } else if b == [] {
      WithKeyLast(a);
    } else {
      SameLast(a, b);
      var a', b' := a[..|a| - 1], b[..|b| - 1];
      DropSameLastAll(a, b, a', b');
      SortedPrefix(a);
      SortedPrefix(b);
      StableSortUnique(a', b');
      SplitLast(a);
      SplitLast(b);
    }
  }

  /** Dropping the same last element keeps the agreement for every key. */
  lemma DropSameLastAll(a: seq<Element>, b: seq<Element>, a': seq<Element>, b': seq<Element>)
    requires a != [] && b != [] && a[|a| - 1] == b[|b| - 1]
    requires a' == a[..|a| - 1] && b' == b[..|b| - 1]
    requires forall k :: WithKey(a, k) == WithKey(b, k)
    ensures forall k :: WithKey(a', k) == WithKey(b', k)
  {
    forall k
      ensures WithKey(a', k) == WithKey(b', k)
    {
      DropSameLast(a, b, k);
    }
  }

  lemma SplitLast(s: seq<Element>)
    requires s != []
    ensures s == s[..|s| - 1] + [s[|s| - 1]]
  {
  }

  /** Any list that is sorted and keeps each key's children in order is
      SortByTag's result: the model of `sorted` does not depend on the
      algorithm Python uses. */
  lemma SortByTagIsTheStableSort(s: seq<Element>, r: seq<Element>)
    requires Sorted(r)
    requires forall k :: WithKey(r, k) == WithKey(s, k)
    ensures r == SortByTag(s)
  {
    SortByTagSorted(s);
    forall k
      ensures WithKey(r, k) == WithKey(SortByTag(s), k)
    {
      SortByTagStable(s, k);
    }
    StableSortUnique(r, SortByTag(s));
  }

  /** Sorting children that are already sorted leaves them as they are. */
  lemma {:induction false} SortByTagIdempotent(s: seq<Element>)
    requires Sorted(s)
    ensures SortByTag(s) == s
  {
    SortByTagIsTheStableSort(s, s);
  }

  /** Filtering by tag sees only the elements whose key is that tag's text. */
  lemma {:induction false} WithTagWithinKey(s: seq<Element>, tag: Name)
    ensures WithTag(WithKey(s, TagText(tag)), tag) == WithTag(s, tag)
  {
    if s != [] {
      var init, last := s[..|s| - 1], s[|s| - 1];
      WithTagWithinKey(init, tag);
      var keyed := WithKey(init, TagText(tag));
      var tagPart := if last.tag == tag then [last] else [];
      assert WithTag(s, tag) == WithTag(init, tag) + tagPart;
      if Key(last) == TagText(tag) {
        assert WithKey(s, TagText(tag)) == keyed + [last];
        WithTagSnoc(keyed, last, tag);
      } else {
        assert WithKey(s, TagText(tag)) == keyed;
        assert tagPart == [];
      }
    }
  }

  /** Sorting a child list does not change which children `findall(tag)`
      returns, nor their order, nor which one `find(tag)` returns. */
  lemma SortKeepsLookups(e: Element, tag: Name)
    ensures FindAll(e.(children := SortByTag(e.children)), tag) == FindAll(e, tag)
    ensures Find(e.(children := SortByTag(e.children)), tag) == Find(e, tag)
  {
    SortByTagStable(e.children, TagText(tag));
    WithTagWithinKey(e.children, tag);
    WithTagWithinKey(SortByTag(e.children), tag);
  }

  /** `sorted(children, key=tag)`: the children in non-decreasing key order,
      a permutation of the input that keeps each key's children in order. */
  method SortChildren(children: seq<Element>) returns (r: seq<Element>)
    ensures r == SortByTag(children)
    ensures Sorted(r)
    ensures multiset(r) == multiset(children)
    ensures forall k :: WithKey(r, k) == WithKey(children, k)
  {
    r := [];
    var i := 0;
    while i < |children|
      invariant 0 <= i <= |children|
      invariant r == SortByTag(children[..i])
    {
      assert children[..i + 1][..i] == children[..i];
      r := Insert(r, children[i]);
      i := i + 1;
    }
    assert children[..i] == children;
    SortByTagSorted(children);
    SortByTagPermutes(children);
    forall k
      ensures WithKey(r, k) == WithKey(children, k)
    {
      SortByTagStable(children, k);
    }
  }
}
