/**
 * The array built-ins the hooks use on their collections, as functions on
 * sequences: `filter` by element, `filter` by index, `map` by index and
 * `map` by element.
 */
module Seqs {

  /** `s.filter(p)`. */
  function Filter<T>(s: seq<T>, p: T -> bool): (r: seq<T>)
    ensures |r| <= |s|
    ensures forall x :: x in r ==> x in s && p(x)
  {
    if s == [] then [] else (if p(s[0]) then [s[0]] else []) + Filter(s[1..], p)
  }

  /** Every element of s that satisfies p survives the filter. */
  lemma {:induction false} FilterKeeps<T>(s: seq<T>, p: T -> bool, x: T)
    requires x in s && p(x)
    ensures x in Filter(s, p)
  {
    if s[0] != x {
      FilterKeeps(s[1..], p, x);
    }
  }

  /** Filtering distributes over concatenation, so it keeps the relative order of the survivors. */
  lemma {:induction false} FilterConcat<T>(a: seq<T>, b: seq<T>, p: T -> bool)
    ensures Filter(a + b, p) == Filter(a, p) + Filter(b, p)
  {
    if a != [] {
      assert (a + b)[1..] == a[1..] + b;
      FilterConcat(a[1..], b, p);
    } else {
      assert a + b == b;
    }
  }

  /** A filter that every element passes is the identity. */
  lemma {:induction false} FilterAll<T>(s: seq<T>, p: T -> bool)
    requires forall i :: 0 <= i < |s| ==> p(s[i])
    ensures Filter(s, p) == s
  {
    if s != [] {
      FilterAll(s[1..], p);
    }
  }

  /** The surviving elements appear in the filter exactly as often as in s. */
  lemma {:induction false} FilterMultiset<T>(s: seq<T>, p: T -> bool)
    ensures multiset(Filter(s, p)) <= multiset(s)
    ensures forall x :: p(x) ==> multiset(Filter(s, p))[x] == multiset(s)[x]
    ensures forall x :: !p(x) ==> multiset(Filter(s, p))[x] == 0
  {
    if s != [] {
      FilterMultiset(s[1..], p);
      assert s == [s[0]] + s[1..];
    }
  }

  /** `s.filter((_, idx) => idx !== i)`: drops position i; any other i leaves s as it is. */
  function RemoveAt<T>(s: seq<T>, i: int): (r: seq<T>)
    ensures 0 <= i < |s| ==> r == s[..i] + s[i + 1..]
    ensures !(0 <= i < |s|) ==> r == s
  {
    if s == [] then []
    else (if i == 0 then [] else [s[0]]) + RemoveAt(s[1..], i - 1)
  }

  /** `s.map((x, idx) => idx === i ? v : x)`: replaces position i and nothing else. */
  function ReplaceAt<T>(s: seq<T>, i: int, v: T): (r: seq<T>)
    ensures |r| == |s|
    ensures forall j :: 0 <= j < |s| ==> r[j] == (if j == i then v else s[j])
  {
    if s == [] then []
    else [if i == 0 then v else s[0]] + ReplaceAt(s[1..], i - 1, v)
  }

  /** `s.map(x => p(x) ? f(x) : x)`: rewrites exactly the elements that satisfy p. */
  function MapWhere<T>(s: seq<T>, p: T -> bool, f: T -> T): (r: seq<T>)
    ensures |r| == |s|
    ensures forall j :: 0 <= j < |s| ==> r[j] == (if p(s[j]) then f(s[j]) else s[j])
  {
    if s == [] then []
    else [if p(s[0]) then f(s[0]) else s[0]] + MapWhere(s[1..], p, f)
  }

  /** Removing a position that was just replaced forgets the replacement. */
  lemma RemoveAfterReplace<T>(s: seq<T>, i: int, v: T)
    requires 0 <= i < |s|
    ensures |RemoveAt(ReplaceAt(s, i, v), i)| == |s| - 1
    ensures RemoveAt(ReplaceAt(s, i, v), i) == RemoveAt(s, i)
  {
    var t := ReplaceAt(s, i, v);
    assert t[..i] == s[..i];
    assert t[i + 1..] == s[i + 1..];
  }

  // Array.prototype.sort with a comparator, as a stable insertion sort.

  /** Inserts x after every element that is not greater than x by cmp. */
  function Insert<T>(x: T, s: seq<T>, cmp: (T, T) -> int): (r: seq<T>)
    ensures multiset(r) == multiset(s) + multiset{x}
    ensures |r| == |s| + 1
  {
    if s == [] then [x]
    else if cmp(x, s[0]) < 0 then [x] + s
    else
      assert s == [s[0]] + s[1..];
      [s[0]] + Insert(x, s[1..], cmp)
  }

  /** `s.sort(cmp)`: a permutation of s; stable, like the engines' sort. */
  function SortBy<T>(s: seq<T>, cmp: (T, T) -> int): (r: seq<T>)
    ensures multiset(r) == multiset(s)
    ensures |r| == |s|
  {
    if s == [] then []
    else
      assert s == s[..|s| - 1] + [s[|s| - 1]];
      Insert(s[|s| - 1], SortBy(s[..|s| - 1], cmp), cmp)
  }

  /** Every earlier element compares not greater than every later one. */
  ghost predicate Ordered<T>(s: seq<T>, cmp: (T, T) -> int) {
    forall i, j :: 0 <= i < j < |s| ==> cmp(s[i], s[j]) <= 0
  }

  /** cmp behaves as a total preorder on the elements of s (sign-antisymmetric and transitive). */
  ghost predicate PreorderOn<T>(s: seq<T>, cmp: (T, T) -> int) {
    (forall a, b :: a in s && b in s && cmp(a, b) >= 0 ==> cmp(b, a) <= 0)
    && (forall a, b, c :: a in s && b in s && c in s && cmp(a, b) <= 0 && cmp(b, c) <= 0 ==> cmp(a, c) <= 0)
  }

  lemma PreorderOnSub<T>(s: seq<T>, t: seq<T>, cmp: (T, T) -> int)
    requires PreorderOn(s, cmp)
    requires forall x :: x in t ==> x in s
    ensures PreorderOn(t, cmp)
  {
  }

  /** y in front of an ordered sequence whose elements y does not exceed. */
  lemma OrderedCons<T>(y: T, t: seq<T>, cmp: (T, T) -> int)
    requires Ordered(t, cmp)
    requires forall j :: 0 <= j < |t| ==> cmp(y, t[j]) <= 0
    ensures Ordered([y] + t, cmp)
  {
    var r := [y] + t;
    forall i, j | 0 <= i < j < |r|
      ensures cmp(r[i], r[j]) <= 0
    {
      assert r[j] == t[j - 1];
      if i > 0 {
        assert r[i] == t[i - 1];
      }
    }
  }

  lemma InsertOrderedFront<T>(x: T, s: seq<T>, cmp: (T, T) -> int)
    requires s != [] && cmp(x, s[0]) < 0
    requires Ordered(s, cmp)
    requires PreorderOn(s + [x], cmp)
    ensures Ordered([x] + s, cmp)
  {
    var all := s + [x];
    assert x in all && s[0] in all;
    forall j | 0 <= j < |s|
      ensures cmp(x, s[j]) <= 0
    {
      if j > 0 {
        assert s[j] in all;
        assert cmp(s[0], s[j]) <= 0;
      }
    }
    OrderedCons(x, s, cmp);
  }

  lemma {:induction false} InsertOrdered<T>(x: T, s: seq<T>, cmp: (T, T) -> int)
    requires Ordered(s, cmp)
    requires PreorderOn(s + [x], cmp)
    ensures Ordered(Insert(x, s, cmp), cmp)
  {
    if s == [] {
    } else if cmp(x, s[0]) < 0 {
      InsertOrderedFront(x, s, cmp);
    } else {
      var t := s[1..];
      var all := s + [x];
      PreorderOnSub(all, t + [x], cmp);
      assert Ordered(t, cmp) by {
        forall i, j | 0 <= i < j < |t|
          ensures cmp(t[i], t[j]) <= 0
        {
          assert t[i] == s[i + 1] && t[j] == s[j + 1];
        }
      }
      InsertOrdered(x, t, cmp);
      var u := Insert(x, t, cmp);
      assert s[0] in all && x in all;
      forall j | 0 <= j < |u|
        ensures cmp(s[0], u[j]) <= 0
      {
        var y := u[j];
        assert y in multiset(u);
        if y != x {
          assert y in multiset(t);
          var k :| 0 <= k < |t| && t[k] == y;
          assert s[k + 1] == y;
        }
      }
      OrderedCons(s[0], u, cmp);
    }
  }

  /** Sorting with a comparator that is a total preorder on the elements orders them. */
  lemma {:induction false} SortByOrdered<T>(s: seq<T>, cmp: (T, T) -> int)
    requires PreorderOn(s, cmp)
    ensures Ordered(SortBy(s, cmp), cmp)
  {
    if s != [] {
      var init := s[..|s| - 1];
      var x := s[|s| - 1];
      PreorderOnSub(s, init, cmp);
      SortByOrdered(init, cmp);
      var sorted := SortBy(init, cmp);
      forall y | y in sorted + [x]
        ensures y in s
      {
        if y != x {
          assert y in multiset(sorted);
          assert y in multiset(init);
        }
      }
      PreorderOnSub(s, sorted + [x], cmp);
      InsertOrdered(x, sorted, cmp);
    }
  }

  /** A comparator that calls every pair of elements equal leaves the order as it was. */
  lemma {:induction false} SortByNeutral<T>(s: seq<T>, cmp: (T, T) -> int)
    requires forall a, b :: a in s && b in s ==> cmp(a, b) == 0
    ensures SortBy(s, cmp) == s
  {
    if s != [] {
      var init := s[..|s| - 1];
      var x := s[|s| - 1];
      assert s == init + [x];
      assert forall a :: a in init ==> a in s;
      SortByNeutral(init, cmp);
      assert forall b :: b in init ==> cmp(x, b) == 0;
      InsertNeutral(x, init, cmp);
    }
  }

  lemma {:induction false} InsertNeutral<T>(x: T, s: seq<T>, cmp: (T, T) -> int)
    requires forall b :: b in s ==> cmp(x, b) == 0
    ensures Insert(x, s, cmp) == s + [x]
  {
    if s != [] {
      assert s[0] in s;
      assert Insert(x, s, cmp) == [s[0]] + Insert(x, s[1..], cmp);
      assert forall b :: b in s[1..] ==> b in s;
      InsertNeutral(x, s[1..], cmp);
      assert [s[0]] + (s[1..] + [x]) == s + [x];
    }
  }
}
