/** Grouping keyed amounts the way the app does it with a Kotlin
    `mutableMapOf<String, Float>()`: one entry per distinct key, keys iterated in
    order of first insertion (a LinkedHashMap), each entry holding the sum of
    the amounts recorded under that key. */
module Grouping {
  import opened Base

  /** A key (timestamp or "YYYY-MM" month) with the amount recorded under it. */
  type Entry = (string, real)

  /** The keys occurring in s. */
  function KeySet(s: seq<Entry>): set<string> {
    if s == [] then {} else KeySet(s[..|s| - 1]) + {s[|s| - 1].0}
  }

  lemma {:induction false} KeySetAppend(a: seq<Entry>, b: seq<Entry>)
    ensures KeySet(a + b) == KeySet(a) + KeySet(b)
  {
    if b == [] {
      assert a + b == a;
    } else {
      assert (a + b)[..|a + b| - 1] == a + b[..|b| - 1];
      KeySetAppend(a, b[..|b| - 1]);
    }
  }

  /** The distinct keys of s in order of first appearance: the iteration order
      of a LinkedHashMap filled from s. */
  function Distinct(s: seq<Entry>): (r: seq<string>)
    ensures forall i, j :: 0 <= i < j < |r| ==> r[i] != r[j]
    ensures forall k :: k in r <==> k in KeySet(s)
  {
    if s == [] then []
    else
      var p := Distinct(s[..|s| - 1]);
      if s[|s| - 1].0 in p then p else p + [s[|s| - 1].0]
  }

  /** The sum of the amounts recorded under key k. */
  function Total(s: seq<Entry>, k: string): real {
    if s == [] then 0.0
    else Total(s[..|s| - 1], k) + (if s[|s| - 1].0 == k then s[|s| - 1].1 else 0.0)
  }

  lemma {:induction false} TotalAppend(a: seq<Entry>, b: seq<Entry>, k: string)
    ensures Total(a + b, k) == Total(a, k) + Total(b, k)
  {
    if b == [] {
      assert a + b == a;
    } else {
      assert (a + b)[..|a + b| - 1] == a + b[..|b| - 1];
      TotalAppend(a, b[..|b| - 1], k);
    }
  }

  lemma {:induction false} TotalOfAbsentKey(s: seq<Entry>, k: string)
    requires k !in KeySet(s)
    ensures Total(s, k) == 0.0
  {
    if s != [] {
      TotalOfAbsentKey(s[..|s| - 1], k);
    }
  }

  /** All amounts of s, summed. */
  function Amounts(s: seq<Entry>): (r: seq<real>)
    ensures |r| == |s| && forall i :: 0 <= i < |s| ==> r[i] == s[i].1
  {
    seq(|s|, i requires 0 <= i < |s| => s[i].1)
  }

  /** The sum, over a list of keys, of their totals in s. */
  function SumOfTotals(keys: seq<string>, s: seq<Entry>): real {
    if keys == [] then 0.0 else Total(s, keys[0]) + SumOfTotals(keys[1..], s)
  }

  lemma {:induction false} SumOfTotalsStep(keys: seq<string>, s: seq<Entry>, e: Entry)
    requires forall i, j :: 0 <= i < j < |keys| ==> keys[i] != keys[j]
    ensures SumOfTotals(keys, s + [e])
         == SumOfTotals(keys, s) + (if e.0 in keys then e.1 else 0.0)
  {
    if keys != [] {
      SumOfTotalsStep(keys[1..], s, e);
      assert (s + [e])[..|s + [e]| - 1] == s;
      assert e.0 == keys[0] ==> e.0 !in keys[1..];
      assert e.0 in keys <==> e.0 == keys[0] || e.0 in keys[1..];
    }
  }

  lemma {:induction false} SumOfTotalsAppendKey(keys: seq<string>, k: string, s: seq<Entry>)
    ensures SumOfTotals(keys + [k], s) == SumOfTotals(keys, s) + Total(s, k)
  {
    if keys == [] {
      assert keys + [k] == [k];
    } else {
      assert (keys + [k])[1..] == keys[1..] + [k];
      SumOfTotalsAppendKey(keys[1..], k, s);
    }
  }

  /** Grouping loses nothing: the per-key totals add up to the sum of all amounts. */
  lemma {:induction false} GroupingPreservesSum(s: seq<Entry>)
    ensures SumOfTotals(Distinct(s), s) == Sum(Amounts(s))
  {
    if s != [] {
      var p := s[..|s| - 1];
      var e := s[|s| - 1];
      GroupingPreservesSum(p);
      assert s == p + [e];
      assert Amounts(s) == Amounts(p) + [e.1];
      SumOfTotalsStep(Distinct(p), p, e);
      if e.0 !in Distinct(p) {
        SumOfTotalsAppendKey(Distinct(p), e.0, s);
        TotalOfAbsentKey(p, e.0);
        assert Total(s, e.0) == Total(p, e.0) + e.1;
      }
    }
  }

  /** One step of the accumulation loops: appending an entry extends the key
      order only by a new key, and adds the amount to that key's total only. */
  lemma DistinctAndTotalStep(s: seq<Entry>, e: Entry)
    ensures Distinct(s + [e]) == if e.0 in Distinct(s) then Distinct(s) else Distinct(s) + [e.0]
    ensures forall k :: Total(s + [e], k) == Total(s, k) + (if k == e.0 then e.1 else 0.0)
    ensures KeySet(s + [e]) == KeySet(s) + {e.0}
  {
    assert (s + [e])[..|s + [e]| - 1] == s;
  }

  /** The amounts recorded under key k, in order: the `MutableList<Float>` a
      `map[key]?.add(value)` loop builds for k. */
  function AmountsFor(s: seq<Entry>, k: string): seq<real> {
    if s == [] then []
    else AmountsFor(s[..|s| - 1], k) + (if s[|s| - 1].0 == k then [s[|s| - 1].1] else [])
  }

  /** Summing the collected list gives the key's total. */
  lemma {:induction false} SumOfAmountsFor(s: seq<Entry>, k: string)
    ensures Sum(AmountsFor(s, k)) == Total(s, k)
  {
    if s != [] {
      var p := s[..|s| - 1];
      SumOfAmountsFor(p, k);
      SumAppend(AmountsFor(p, k), if s[|s| - 1].0 == k then [s[|s| - 1].1] else []);
      assert Sum([s[|s| - 1].1]) == s[|s| - 1].1 by {
        assert [s[|s| - 1].1][..0] == [];
      }
    }
  }

  /** A `mutableMapOf<String, Float>()`: a LinkedHashMap, so its keys in
      insertion order beside the map itself. */
  datatype LinkedTotals = LinkedTotals(keys: seq<string>, totals: map<string, real>)

  /** `map[k] = (map[k] ?: 0f) + amount`. */
  function AddAmount(t: LinkedTotals, k: string, amount: real): LinkedTotals {
    LinkedTotals(if k in t.totals then t.keys else t.keys + [k],
                 t.totals[k := (if k in t.totals then t.totals[k] else 0.0) + amount])
  }

  /** What the map holds once every entry of s has been added in order: its
      keys are the distinct keys of s in first-appearance order, each with its
      total. */
  ghost predicate TotalsOf(s: seq<Entry>, t: LinkedTotals) {
    && t.keys == Distinct(s)
    && (forall k :: k in t.totals <==> k in t.keys)
    && (forall k :: k in t.totals ==> t.totals[k] == Total(s, k))
  }

  /** Adding one more entry keeps TotalsOf. */
  lemma AddAmountStep(s: seq<Entry>, e: Entry, t: LinkedTotals)
    requires TotalsOf(s, t)
    ensures TotalsOf(s + [e], AddAmount(t, e.0, e.1))
  {
    DistinctAndTotalStep(s, e);
    if e.0 !in t.totals {
      TotalOfAbsentKey(s, e.0);
    }
  }
}
