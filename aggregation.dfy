/**
 * The pandas aggregations the report relies on, over rows reduced to the two
 * columns an analysis reads: a group key and an integer SALES amount.
 *
 * - `GroupTotals` is what `sns.barplot(..., estimator=sum)` plots: one total per group.
 * - `GroupBySum` is `df.groupby(key)['SALES'].sum()`: distinct keys in ascending
 *   order (groupby sorts keys by default), each with its total.
 * - `NLargest` is `Series.nlargest(n)` with the default `keep='first'`: a stable
 *   descending sort by value, cut to n entries.
 * - `TopCustomers` is the chain `groupby('CUSTOMERNAME')['SALES'].sum().nlargest(10)`.
 */
module Aggregation {

  function Min(a: int, b: int): int { if a <= b then a else b }

  /** Sum of the amounts of the rows whose key is `k`. */
  function SumFor<K(==)>(rows: seq<(K, int)>, k: K): int
  {
    if rows == [] then 0
    else SumFor(rows[..|rows| - 1], k) + (if rows[|rows| - 1].0 == k then rows[|rows| - 1].1 else 0)
  }

  /** The distinct keys that occur in `rows`. */
  function KeysOf<K>(rows: seq<(K, int)>): set<K>
  {
    set r | r in rows :: r.0
  }

  lemma {:induction false} SumForAbsent<K>(rows: seq<(K, int)>, k: K)
    requires k !in KeysOf(rows)
    ensures SumFor(rows, k) == 0
  {
    if rows != [] {
      var init := rows[..|rows| - 1];
      assert rows == init + [rows[|rows| - 1]];
      assert KeysOf(init) <= KeysOf(rows);
      SumForAbsent(init, k);
    }
  }

  /** Per-group totals, as a bar chart with `estimator=sum` plots them. */
  function GroupTotals<K(==)>(rows: seq<(K, int)>): (totals: map<K, int>)
    ensures totals.Keys == KeysOf(rows)
    ensures forall k :: k in totals ==> totals[k] == SumFor(rows, k)
  {
    if rows == [] then map[]
    else
      var init := rows[..|rows| - 1];
      var prev := GroupTotals(init);
      var last := rows[|rows| - 1];
      assert rows == init + [last];
      assert KeysOf(rows) == KeysOf(init) + {last.0};
      assert last.0 !in prev ==> SumFor(init, last.0) == 0 by {
        if last.0 !in prev { SumForAbsent(init, last.0); }
      }
      prev[last.0 := (if last.0 in prev then prev[last.0] else 0) + last.1]
  }

  // ---------------------------------------------------------------------------
  // Python's `<` on str: lexicographic by code point, a proper prefix first.

  predicate StrLess(a: string, b: string)
  {
    if a == [] then b != []
    else if b == [] then false
    else if a[0] != b[0] then a[0] < b[0]
    else StrLess(a[1..], b[1..])
  }

  lemma {:induction false} StrLessIrreflexive(a: string)
    ensures !StrLess(a, a)
  {
    if a != [] { StrLessIrreflexive(a[1..]); }
  }

  lemma {:induction false} StrLessTotal(a: string, b: string)
    ensures a == b || StrLess(a, b) || StrLess(b, a)
  {
    if a != [] && b != [] && a[0] == b[0] {
      StrLessTotal(a[1..], b[1..]);
      if a[1..] == b[1..] {
        assert a == [a[0]] + a[1..] && b == [b[0]] + b[1..];
      }
    }
  }

  lemma {:induction false} StrLessTransitive(a: string, b: string, c: string)
    requires StrLess(a, b) && StrLess(b, c)
    ensures StrLess(a, c)
  {
    if a != [] && a[0] == b[0] && b[0] == c[0] {
      StrLessTransitive(a[1..], b[1..], c[1..]);
    }
  }

  // ---------------------------------------------------------------------------
  // groupby(...).sum(): sorted distinct keys with their totals.

  ghost predicate StrictlyAscending(ks: seq<string>)
  {
    forall i, j :: 0 <= i < j < |ks| ==> StrLess(ks[i], ks[j])
  }

  /** Adds `k` to an ascending key list, keeping it ascending and duplicate-free. */
  function InsertKey(ks: seq<string>, k: string): (r: seq<string>)
    requires StrictlyAscending(ks)
    ensures StrictlyAscending(r)
    ensures forall x :: x in r <==> x in ks || x == k
  {
    if ks == [] then [k]
    else if ks[0] == k then ks
    else if StrLess(ks[0], k) then
      var rest := InsertKey(ks[1..], k);
      assert forall x :: x in ks <==> x == ks[0] || x in ks[1..];
      assert forall j :: 0 <= j < |rest| ==> StrLess(ks[0], rest[j]) by {
        forall j | 0 <= j < |rest|
          ensures StrLess(ks[0], rest[j])
        {
          if rest[j] != k {
            assert rest[j] in rest;
            var m :| 0 <= m < |ks[1..]| && ks[1..][m] == rest[j];
            assert ks[m + 1] == rest[j];
          }
        }
      }
      [ks[0]] + rest
    else
      StrLessTotal(ks[0], k);
      assert forall j :: 0 <= j < |ks| ==> StrLess(k, ks[j]) by {
        forall j | 0 <= j < |ks|
          ensures StrLess(k, ks[j])
        {
          if j > 0 { StrLessTransitive(k, ks[0], ks[j]); }
        }
      }
      [k] + ks
  }

  /** The distinct keys of `rows` in ascending order. */
  function SortedKeys(rows: seq<(string, int)>): (ks: seq<string>)
    ensures StrictlyAscending(ks)
    ensures forall x :: x in ks <==> x in KeysOf(rows)
  {
    if rows == [] then []
    else
      var init := rows[..|rows| - 1];
      assert rows == init + [rows[|rows| - 1]];
      assert KeysOf(rows) == KeysOf(init) + {rows[|rows| - 1].0};
      InsertKey(SortedKeys(init), rows[|rows| - 1].0)
  }

  ghost predicate KeysAscending(series: seq<(string, int)>)
  {
    forall i, j :: 0 <= i < j < |series| ==> StrLess(series[i].0, series[j].0)
  }

  /** `df.groupby(key)['SALES'].sum()`: one entry per distinct key, in key order. */
  function GroupBySum(rows: seq<(string, int)>): (series: seq<(string, int)>)
    ensures KeysAscending(series)
    ensures forall i :: 0 <= i < |series| ==> series[i].0 in KeysOf(rows) && series[i].1 == SumFor(rows, series[i].0)
    ensures forall k :: k in KeysOf(rows) ==> (k, SumFor(rows, k)) in series
  {
    var ks := SortedKeys(rows);
    var series := seq(|ks|, i requires 0 <= i < |ks| => (ks[i], SumFor(rows, ks[i])));
    assert forall k :: k in KeysOf(rows) ==> (k, SumFor(rows, k)) in series by {
      forall k | k in KeysOf(rows)
        ensures (k, SumFor(rows, k)) in series
      {
        var i :| 0 <= i < |ks| && ks[i] == k;
        assert series[i] == (k, SumFor(rows, k));
      }
    }
    series
  }

  lemma {:induction false} AscendingDistinctCard(ks: seq<string>)
    requires StrictlyAscending(ks)
    ensures |set x | x in ks| == |ks|
  {
    if ks != [] {
      AscendingDistinctCard(ks[1..]);
      StrLessIrreflexive(ks[0]);
      assert ks[0] !in ks[1..];
      assert (set x | x in ks) == {ks[0]} + (set x | x in ks[1..]);
    }
  }

  /** The number of groups is the number of distinct keys. */
  lemma GroupBySumLength(rows: seq<(string, int)>)
    ensures |GroupBySum(rows)| == |KeysOf(rows)|
  {
    var ks := SortedKeys(rows);
    AscendingDistinctCard(ks);
    assert (set x | x in ks) == KeysOf(rows);
  }

  // ---------------------------------------------------------------------------
  // nlargest(n, keep='first'): stable descending sort by value, then the first n.

  /** Puts `x` after every entry whose value is at least x's: a stable insertion. */
  function InsertByValue(t: seq<(string, int)>, x: (string, int)): seq<(string, int)>
  {
    if t == [] then [x]
    else if t[0].1 >= x.1 then [t[0]] + InsertByValue(t[1..], x)
    else [x] + t
  }

  /** Stable sort by descending value: equal values keep their input order. */
  function SortDescending(s: seq<(string, int)>): seq<(string, int)>
  {
    if s == [] then []
    else InsertByValue(SortDescending(s[..|s| - 1]), s[|s| - 1])
  }

  function NLargest(s: seq<(string, int)>, n: nat): seq<(string, int)>
  {
    var sorted := SortDescending(s);
    sorted[..Min(n, |sorted|)]
  }

  /** The ranking order of the top-customer chart: larger total first, ties by smaller key. */
  predicate RankBefore(a: (string, int), b: (string, int))
  {
    a.1 > b.1 || (a.1 == b.1 && StrLess(a.0, b.0))
  }

  ghost predicate Ranked(s: seq<(string, int)>)
  {
    forall i, j :: 0 <= i < j < |s| ==> RankBefore(s[i], s[j])
  }

  lemma {:induction false} InsertByValuePermutes(t: seq<(string, int)>, x: (string, int))
    ensures multiset(InsertByValue(t, x)) == multiset(t) + multiset{x}
  {
    if t != [] && t[0].1 >= x.1 {
      InsertByValuePermutes(t[1..], x);
      assert t == [t[0]] + t[1..];
    }
  }

  lemma {:induction false} SortDescendingPermutes(s: seq<(string, int)>)
    ensures multiset(SortDescending(s)) == multiset(s)
  {
    if s != [] {
      SortDescendingPermutes(s[..|s| - 1]);
      InsertByValuePermutes(SortDescending(s[..|s| - 1]), s[|s| - 1]);
      assert s == s[..|s| - 1] + [s[|s| - 1]];
    }
  }

  lemma {:induction false} InsertByValueRanked(t: seq<(string, int)>, x: (string, int))
    requires Ranked(t)
    requires forall e :: e in t ==> StrLess(e.0, x.0)
    ensures Ranked(InsertByValue(t, x))
  {
    if t != [] && t[0].1 >= x.1 {
      InsertByValueRanked(t[1..], x);
      var rest := InsertByValue(t[1..], x);
      InsertByValuePermutes(t[1..], x);
      forall j | 0 <= j < |rest|
        ensures RankBefore(t[0], rest[j])
      {
        assert rest[j] in multiset(rest);
        if rest[j] != x {
          assert rest[j] in multiset(t[1..]);
          var m :| 0 <= m < |t[1..]| && t[1..][m] == rest[j];
          assert t[m + 1] == rest[j];
        }
      }
    }
  }

  /**
   * Sorting a key-ordered series stably by value ranks it by value and then by
   * key: ties come out in key order because the input was in key order.
   */
  lemma {:induction false} SortDescendingRanks(s: seq<(string, int)>)
    requires KeysAscending(s)
    ensures Ranked(SortDescending(s))
  {
    if s != [] {
      var init, x := s[..|s| - 1], s[|s| - 1];
      SortDescendingRanks(init);
      SortDescendingPermutes(init);
      forall e | e in SortDescending(init)
        ensures StrLess(e.0, x.0)
      {
        assert e in multiset(init);
        var m :| 0 <= m < |init| && init[m] == e;
      }
      InsertByValueRanked(SortDescending(init), x);
    }
  }

  // ---------------------------------------------------------------------------
  // The top-10 customer ranking of the report.

  function TopCustomers(rows: seq<(string, int)>): seq<(string, int)>
  {
    NLargest(GroupBySum(rows), 10)
  }

  /** The ranking has ten entries, or one per customer when there are fewer. */
  lemma TopCustomersLength(rows: seq<(string, int)>)
    ensures |TopCustomers(rows)| == Min(10, |KeysOf(rows)|)
  {
    var series := GroupBySum(rows);
    SortDescendingPermutes(series);
    assert |SortDescending(series)| == |multiset(series)|;
    GroupBySumLength(rows);
  }

  /** Each entry is a customer of the table with the sum of SALES over that customer's rows. */
  lemma TopCustomersSums(rows: seq<(string, int)>)
    ensures forall i :: 0 <= i < |TopCustomers(rows)| ==>
      TopCustomers(rows)[i].0 in KeysOf(rows) && TopCustomers(rows)[i].1 == SumFor(rows, TopCustomers(rows)[i].0)
  {
    var series := GroupBySum(rows);
    var sorted := SortDescending(series);
    SortDescendingPermutes(series);
    forall i | 0 <= i < |TopCustomers(rows)|
      ensures TopCustomers(rows)[i].0 in KeysOf(rows) && TopCustomers(rows)[i].1 == SumFor(rows, TopCustomers(rows)[i].0)
    {
      assert TopCustomers(rows)[i] == sorted[i];
      assert sorted[i] in multiset(series);
    }
  }

  /** Values never increase along the ranking; equal values are in customer-name order. */
  lemma TopCustomersOrdered(rows: seq<(string, int)>)
    ensures Ranked(TopCustomers(rows))
    ensures forall i, j :: 0 <= i < j < |TopCustomers(rows)| ==> TopCustomers(rows)[i].1 >= TopCustomers(rows)[j].1
  {
    SortDescendingRanks(GroupBySum(rows));
  }

  /** An entry of a key-ordered series that `NLargest` drops ranks after every entry it keeps. */
  lemma NLargestDropsOnlyLower(series: seq<(string, int)>, n: nat, e: (string, int))
    requires KeysAscending(series)
    requires e in series
    requires e !in NLargest(series, n)
    ensures forall i :: 0 <= i < |NLargest(series, n)| ==> RankBefore(NLargest(series, n)[i], e)
  {
    var sorted := SortDescending(series);
    var top := NLargest(series, n);
    SortDescendingPermutes(series);
    assert e in multiset(sorted);
    var j :| 0 <= j < |sorted| && sorted[j] == e;
    assert j >= |top|;
    SortDescendingRanks(series);
    forall i | 0 <= i < |top|
      ensures RankBefore(top[i], e)
    {
      assert top[i] == sorted[i];
    }
  }

  /** No customer left out of the ranking outranks any customer in it. */
  lemma TopCustomersAreTop(rows: seq<(string, int)>, k: string)
    requires k in KeysOf(rows)
    requires forall i :: 0 <= i < |TopCustomers(rows)| ==> TopCustomers(rows)[i].0 != k
    ensures forall i :: 0 <= i < |TopCustomers(rows)| ==> RankBefore(TopCustomers(rows)[i], (k, SumFor(rows, k)))
  {
    var series := GroupBySum(rows);
    var e := (k, SumFor(rows, k));
    assert e in series;
    assert e !in NLargest(series, 10) by {
      assert NLargest(series, 10) == TopCustomers(rows);
    }
    NLargestDropsOnlyLower(series, 10, e);
  }
}
