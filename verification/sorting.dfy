/** Kotlin's `sortedBy` / `sortBy` and `takeLast` on lists.

    Kotlin sorts lists with a stable sort, so elements whose keys compare equal
    keep their original relative order; `SortBy` is a stable insertion sort and
    `SortByStable` states that property. A nullable selector (`sortedBy { it.date }`)
    puts null before every value, which `Key.Null` captures. */
module Sorting {

  datatype Key = Null | At(t: int)

  /** The order `compareValues` puts on nullable keys. */
  predicate KeyLe(a: Key, b: Key) {
    a.Null? || (b.At? && a.t <= b.t)
  }

  predicate SortedBy<T>(s: seq<T>, key: T -> Key) {
    forall i, j :: 0 <= i < j < |s| ==> KeyLe(key(s[i]), key(s[j]))
  }

  /** Places x in front of the first element whose key is not below its own. */
  function Insert<T>(x: T, s: seq<T>, key: T -> Key): (r: seq<T>)
    requires SortedBy(s, key)
    ensures SortedBy(r, key)
    ensures multiset(r) == multiset(s) + multiset{x}
    ensures |r| == |s| + 1
    ensures key(r[0]) == key(x) || (s != [] && key(r[0]) == key(s[0]))
  {
    if s == [] || KeyLe(key(x), key(s[0])) then [x] + s
    else
      var rest := Insert(x, s[1..], key);
      assert s == [s[0]] + s[1..];
      assert KeyLe(key(s[0]), key(rest[0]));
      [s[0]] + rest
  }

  /** `s.sortedBy(key)`. */
  function SortBy<T>(s: seq<T>, key: T -> Key): (r: seq<T>)
    ensures SortedBy(r, key)
    ensures multiset(r) == multiset(s)
    ensures |r| == |s|
  {
    if s == [] then []
    else
      assert s == [s[0]] + s[1..];
      Insert(s[0], SortBy(s[1..], key), key)
  }

  /** `s.takeLast(n)`. */
  function TakeLast<T>(s: seq<T>, n: nat): (r: seq<T>)
    ensures |r| == if |s| <= n then |s| else n
    ensures r == s[|s| - |r|..]
  {
    if |s| <= n then s else s[|s| - n..]
  }

  /** The elements of s whose key is k, in their order in s. */
  function KeyFilter<T>(s: seq<T>, key: T -> Key, k: Key): seq<T> {
    if s == [] then []
    else (if key(s[0]) == k then [s[0]] else []) + KeyFilter(s[1..], key, k)
  }

  lemma {:induction false} InsertKeyFilter<T>(x: T, s: seq<T>, key: T -> Key, k: Key)
    requires SortedBy(s, key)
    ensures KeyFilter(Insert(x, s, key), key, k)
         == (if key(x) == k then [x] else []) + KeyFilter(s, key, k)
  {
    if s == [] || KeyLe(key(x), key(s[0])) {
      assert Insert(x, s, key) == [x] + s;
      assert ([x] + s)[1..] == s;
    } else {
      InsertKeyFilter(x, s[1..], key, k);
      var r := Insert(x, s, key);
      assert r == [s[0]] + Insert(x, s[1..], key);
      assert r[1..] == Insert(x, s[1..], key);
      assert key(s[0]) != key(x);
    }
  }

  /** Stability: sorting keeps, for every key, the elements with that key in
      their original order. */
  lemma {:induction false} SortByStable<T>(s: seq<T>, key: T -> Key, k: Key)
    ensures KeyFilter(SortBy(s, key), key, k) == KeyFilter(s, key, k)
  {
    if s != [] {
      SortByStable(s[1..], key, k);
      InsertKeyFilter(s[0], SortBy(s[1..], key), key, k);
    }
  }

  /** What `takeLast` keeps of a sorted list is sorted, and no dropped element
      has a key above a kept one. */
  lemma TakeLastOfSorted<T>(s: seq<T>, key: T -> Key, n: nat)
    requires SortedBy(s, key)
    ensures SortedBy(TakeLast(s, n), key)
    ensures var r := TakeLast(s, n);
            multiset(s) == multiset(s[..|s| - |r|]) + multiset(r)
    ensures var r := TakeLast(s, n);
            forall i, j :: 0 <= i < |s| - |r| && 0 <= j < |r| ==> KeyLe(key(s[i]), key(r[j]))
  {
    var r := TakeLast(s, n);
    assert s == s[..|s| - |r|] + r;
    forall i, j | 0 <= i < |s| - |r| && 0 <= j < |r|
      ensures KeyLe(key(s[i]), key(r[j]))
    {
      assert r[j] == s[|s| - |r| + j];
    }
  }

  /** The kept part of `s.sortedBy(key).takeLast(n)` is drawn from s, and no
      element of s left out has a key above a kept one. */
  lemma LastOfSortBy<T>(s: seq<T>, key: T -> Key, n: nat)
    ensures var r := TakeLast(SortBy(s, key), n);
            multiset(r) <= multiset(s)
    ensures var r := TakeLast(SortBy(s, key), n);
            forall x, y :: x in multiset(s) - multiset(r) && y in r ==> KeyLe(key(x), key(y))
  {
    var sorted := SortBy(s, key);
    var r := TakeLast(sorted, n);
    TakeLastOfSorted(sorted, key, n);
    var dropped := sorted[..|sorted| - |r|];
    assert multiset(s) - multiset(r) == multiset(dropped);
    forall x, y | x in multiset(s) - multiset(r) && y in r
      ensures KeyLe(key(x), key(y))
    {
      assert x in dropped;
      var i :| 0 <= i < |dropped| && dropped[i] == x;
      var j :| 0 <= j < |r| && r[j] == y;
    }
  }

  lemma {:induction false} CountAtMostOne<T, U>(s: seq<T>, f: T -> U, x: T)
    requires forall p, q :: 0 <= p < q < |s| ==> f(s[p]) != f(s[q])
    ensures multiset(s)[x] <= 1
  {
    if s != [] {
      var init := s[..|s| - 1];
      assert s == init + [s[|s| - 1]];
      CountAtMostOne(init, f, x);
    }
  }

  lemma CountAtLeastTwo<T>(r: seq<T>, i: nat, j: nat)
    requires i < j < |r| && r[i] == r[j]
    ensures multiset(r)[r[i]] >= 2
  {
    assert r == r[..i] + [r[i]] + r[i + 1..j] + [r[j]] + r[j + 1..];
  }

  /** A sub-multiset of a list whose elements differ in their projection f
      also has pairwise different projections. */
  lemma DistinctByProjection<T, U>(r: seq<T>, s: seq<T>, f: T -> U)
    requires multiset(r) <= multiset(s)
    requires forall p, q :: 0 <= p < q < |s| ==> f(s[p]) != f(s[q])
    ensures forall i, j :: 0 <= i < j < |r| ==> f(r[i]) != f(r[j])
  {
    forall i, j | 0 <= i < j < |r|
      ensures f(r[i]) != f(r[j])
    {
      if f(r[i]) == f(r[j]) {
        assert r[i] in multiset(s) && r[j] in multiset(s);
        var p :| 0 <= p < |s| && s[p] == r[i];
        var q :| 0 <= q < |s| && s[q] == r[j];
        assert p == q;
        CountAtLeastTwo(r, i, j);
        CountAtMostOne(s, f, r[i]);
        assert false;
      }
    }
  }
}
