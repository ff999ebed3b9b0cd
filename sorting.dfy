/** Python's list.sort / sorted with a key function: a stable sort, also when
    reverse=True (elements with equal keys keep their original order). One
    definition serves every sort in the helpers: descending by score, and
    ascending by price. */
module Sorting {

  datatype Direction = Ascending | Descending

  /** The key as the sort sees it: larger ranks come first. */
  function Rank<T>(key: T -> int, dir: Direction, x: T): int {
    if dir == Descending then key(x) else -key(x)
  }

  predicate Sorted<T>(s: seq<T>, key: T -> int, dir: Direction) {
    forall i, j :: 0 <= i < j < |s| ==> Rank(key, dir, s[i]) >= Rank(key, dir, s[j])
  }

  /** Insert x before the first element that it does not rank below. */
  function Insert<T(==)>(x: T, s: seq<T>, key: T -> int, dir: Direction): (r: seq<T>)
    ensures multiset(r) == multiset(s) + multiset{x}
  {
    if s == [] then [x]
    else if Rank(key, dir, x) >= Rank(key, dir, s[0]) then [x] + s
    else
      assert s == [s[0]] + s[1..];
      [s[0]] + Insert(x, s[1..], key, dir)
  }

  lemma {:induction false} InsertSorted<T>(x: T, s: seq<T>, key: T -> int, dir: Direction)
    requires Sorted(s, key, dir)
    ensures Sorted(Insert(x, s, key, dir), key, dir)
    decreases |s|
  {
    if s != [] && Rank(key, dir, x) < Rank(key, dir, s[0]) {
      var t := Insert(x, s[1..], key, dir);
      InsertSorted(x, s[1..], key, dir);
      InsertBounded(x, s[1..], key, dir, Rank(key, dir, s[0]));
      ConsSorted(s[0], t, key, dir);
    } else if s != [] {
      ConsSorted(x, s, key, dir);
    }
  }

  /** Inserting keeps every element ranked at most b, when x is. */
  lemma InsertBounded<T>(x: T, s: seq<T>, key: T -> int, dir: Direction, b: int)
    requires Sorted(s, key, dir) && Rank(key, dir, x) <= b
    requires forall i :: 0 <= i < |s| ==> Rank(key, dir, s[i]) <= b
    ensures forall y :: y in Insert(x, s, key, dir) ==> Rank(key, dir, y) <= b
  {
    var t := Insert(x, s, key, dir);
    forall y | y in t ensures Rank(key, dir, y) <= b {
      assert y in multiset(t);
      if y != x {
        assert y in multiset(s);
        var j :| 0 <= j < |s| && s[j] == y;
      }
    }
  }

  /** A head ranked at least as high as all of a sorted tail gives a sorted list. */
  lemma ConsSorted<T>(h: T, t: seq<T>, key: T -> int, dir: Direction)
    requires Sorted(t, key, dir)
    requires forall y :: y in t ==> Rank(key, dir, y) <= Rank(key, dir, h)
    ensures Sorted([h] + t, key, dir)
  {
    var r := [h] + t;
    forall i, j | 0 <= i < j < |r| ensures Rank(key, dir, r[i]) >= Rank(key, dir, r[j]) {
      if i == 0 {
        assert r[j] == t[j - 1] && r[j] in t;
      } else {
        assert r[i] == t[i - 1] && r[j] == t[j - 1];
      }
    }
  }

  /** Insertion sort: the ordering Python's sort produces. */
  function Sort<T(==)>(s: seq<T>, key: T -> int, dir: Direction): (r: seq<T>)
    ensures multiset(r) == multiset(s) && |r| == |s|
    ensures Sorted(r, key, dir)
  {
    if s == [] then []
    else
      var t := Sort(s[1..], key, dir);
      InsertSorted(s[0], t, key, dir);
      MultisetCons(s);
      Insert(s[0], t, key, dir)
  }

  lemma SortMembers<T>(s: seq<T>, key: T -> int, dir: Direction)
    ensures forall x :: x in Sort(s, key, dir) <==> x in s
  {
    var r := Sort(s, key, dir);
    assert forall x :: x in r <==> x in multiset(r);
    assert forall x :: x in s <==> x in multiset(s);
  }

  lemma MultisetCons<T>(s: seq<T>)
    requires s != []
    ensures multiset(s) == multiset(s[1..]) + multiset{s[0]}
  {
    assert s == [s[0]] + s[1..];
  }

  /** Taking the same element out of two permutations of each other leaves
      permutations of each other. */
  lemma RemoveMatching<T>(a: seq<T>, b: seq<T>, k: nat)
    requires a != [] && k < |b| && b[k] == a[0]
    requires multiset(a) == multiset(b)
    ensures multiset(a[1..]) == multiset(b[..k] + b[k + 1..])
  {
    var x := a[0];
    assert b == b[..k] + [x] + b[k + 1..];
    assert a == [x] + a[1..];
    calc {
      multiset(a[1..]);
      multiset(a) - multiset{x};
      multiset(b) - multiset{x};
      multiset(b[..k]) + multiset(b[k + 1..]);
      multiset(b[..k] + b[k + 1..]);
    }
  }

  /** The elements whose key is k, in their order of occurrence. */
  function WithKey<T>(s: seq<T>, key: T -> int, k: int): (r: seq<T>)
    ensures |r| <= |s|
  {
    if s == [] then []
    else (if key(s[0]) == k then [s[0]] else []) + WithKey(s[1..], key, k)
  }

  lemma WithKeyCons<T>(y: T, t: seq<T>, key: T -> int, k: int)
    ensures WithKey([y] + t, key, k) == (if key(y) == k then [y] else []) + WithKey(t, key, k)
  {
    assert ([y] + t)[0] == y && ([y] + t)[1..] == t;
  }

  /** Letting x pass over y (the step insertion takes) keeps the order of
      the elements of key k, since x and y do not both have key k. */
  lemma PassOver<T>(x: T, y: T, u: seq<T>, t: seq<T>, key: T -> int, k: int)
    requires WithKey(u, key, k) == WithKey([x] + t, key, k)
    requires key(x) == k ==> key(y) != k
    ensures WithKey([y] + u, key, k) == WithKey([x] + ([y] + t), key, k)
  {
    WithKeyCons(y, u, key, k);
    WithKeyCons(x, t, key, k);
    WithKeyCons(y, t, key, k);
    WithKeyCons(x, [y] + t, key, k);
  }

  lemma {:induction false} InsertStable<T>(x: T, s: seq<T>, key: T -> int, dir: Direction, k: int)
    ensures WithKey(Insert(x, s, key, dir), key, k) == WithKey([x] + s, key, k)
    decreases |s|
  {
    if s != [] && Rank(key, dir, x) < Rank(key, dir, s[0]) {
      InsertStable(x, s[1..], key, dir, k);
      assert s == [s[0]] + s[1..];
      PassOver(x, s[0], Insert(x, s[1..], key, dir), s[1..], key, k);
    }
  }

  /** Stability: sorting leaves the relative order of equal-key elements alone. */
  lemma {:induction false} SortStable<T>(s: seq<T>, key: T -> int, dir: Direction, k: int)
    ensures WithKey(Sort(s, key, dir), key, k) == WithKey(s, key, k)
    decreases |s|
  {
    if s != [] {
      var t := Sort(s[1..], key, dir);
      SortStable(s[1..], key, dir, k);
      InsertStable(s[0], t, key, dir, k);
      assert ([s[0]] + t)[0] == s[0] && ([s[0]] + t)[1..] == t;
    }
  }

  /** The elements of key k in a prefix are the first ones of key k. */
  lemma {:induction false} WithKeyPrefix<T>(s: seq<T>, n: nat, key: T -> int, k: int)
    requires n <= |s|
    ensures var w := WithKey(s[..n], key, k);
      |w| <= |WithKey(s, key, k)| && w == WithKey(s, key, k)[..|w|]
    decreases n
  {
    if n > 0 {
      WithKeyPrefix(s[1..], n - 1, key, k);
      assert s[..n][0] == s[0] && s[..n][1..] == s[1..][..n - 1];
      var head := if key(s[0]) == k then [s[0]] else [];
      assert WithKey(s[..n], key, k) == head + WithKey(s[1..][..n - 1], key, k);
      assert WithKey(s, key, k) == head + WithKey(s[1..], key, k);
    }
  }

  /** The index of the first element of highest rank (the first maximum when
      descending, the first minimum when ascending). */
  function FirstBest<T>(s: seq<T>, key: T -> int, dir: Direction): (i: nat)
    requires |s| > 0
    ensures i < |s|
    ensures forall j :: 0 <= j < |s| ==> Rank(key, dir, s[j]) <= Rank(key, dir, s[i])
    ensures forall j :: 0 <= j < i ==> Rank(key, dir, s[j]) < Rank(key, dir, s[i])
  {
    if |s| == 1 then 0
    else
      var k := FirstBest(s[1..], key, dir);
      assert forall j :: 1 <= j < |s| ==> s[j] == s[1..][j - 1];
      if Rank(key, dir, s[0]) >= Rank(key, dir, s[1..][k]) then 0 else k + 1
  }

  /** sorted(s, key=...)[0] is the first element of best rank. */
  lemma {:induction false} SortHead<T>(s: seq<T>, key: T -> int, dir: Direction)
    requires |s| > 0
    ensures Sort(s, key, dir)[0] == s[FirstBest(s, key, dir)]
    decreases |s|
  {
    if |s| > 1 {
      SortHead(s[1..], key, dir);
    }
  }
}
