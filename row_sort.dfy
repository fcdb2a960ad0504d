/**
 * The ranking step of `computeAnalytics` in lib/riot/service.ts: table rows sorted by
 * `totalMatches` descending, then `winrate` descending, with `Array.prototype.sort`,
 * which is stable, so rows of equal rank keep their order; then the first rows kept.
 * The sort is modelled as a stable insertion sort.
 */
module RowSort {

  /** One row of the duo or anchor table; `title` is the duo or the anchor's `charId`. */
  datatype Row<L> = Row(title: L, wins: nat, losses: nat, totalMatches: nat, winrate: int)

  /** `a` may come before `b`: the comparator `b.totalMatches - a.totalMatches ||
      b.winrate - a.winrate` is not positive. */
  predicate Outranks<L>(a: Row<L>, b: Row<L>) {
    a.totalMatches > b.totalMatches || (a.totalMatches == b.totalMatches && a.winrate >= b.winrate)
  }

  /** The comparator returns 0: `totalMatches` and `winrate` are both equal. */
  predicate HasRank<L>(a: Row<L>, totalMatches: nat, winrate: int) {
    a.totalMatches == totalMatches && a.winrate == winrate
  }

  predicate Ranked<L>(s: seq<Row<L>>) {
    forall i, j :: 0 <= i < j < |s| ==> Outranks(s[i], s[j])
  }

  /** Insert `x` after every row of `s` that outranks it; applied from the left this keeps
      rows of equal rank in their original order. */
  function Insert<L>(s: seq<Row<L>>, x: Row<L>): (r: seq<Row<L>>)
    ensures multiset(r) == multiset(s) + multiset{x}
  {
    if s == [] then [x]
    else if Outranks(s[|s| - 1], x) then s + [x]
    else
      assert s == s[..|s| - 1] + [s[|s| - 1]];
      Insert(s[..|s| - 1], x) + [s[|s| - 1]]
  }

  /** The sorted table. */
  function SortRows<L>(s: seq<Row<L>>): (r: seq<Row<L>>)
    ensures multiset(r) == multiset(s)
  {
    if s == [] then []
    else
      assert s == s[..|s| - 1] + [s[|s| - 1]];
      Insert(SortRows(s[..|s| - 1]), s[|s| - 1])
  }

  lemma {:induction false} InsertRanked<L>(s: seq<Row<L>>, x: Row<L>)
    requires Ranked(s)
    ensures Ranked(Insert(s, x))
    decreases |s|
  {
    if s != [] && !Outranks(s[|s| - 1], x) {
      var p, y := s[..|s| - 1], s[|s| - 1];
      InsertRanked(p, x);
      var q := Insert(p, x);
      forall i | 0 <= i < |q|
        ensures Outranks(q[i], y)
      {
        assert q[i] in multiset(p) + multiset{x};
        if q[i] != x {
          assert q[i] in p;
        }
      }
    }
  }

  /** The sorted table is ordered by the comparator and is a permutation of the input. */
  lemma {:induction false} SortRowsRanked<L>(s: seq<Row<L>>)
    ensures Ranked(SortRows(s))
    ensures multiset(SortRows(s)) == multiset(s)
  {
    if s != [] {
      SortRowsRanked(s[..|s| - 1]);
      InsertRanked(SortRows(s[..|s| - 1]), s[|s| - 1]);
    }
  }

  /** The rows of one rank, in order. */
  function OfRank<L>(s: seq<Row<L>>, totalMatches: nat, winrate: int): seq<Row<L>> {
    if s == [] then []
    else OfRank(s[..|s| - 1], totalMatches, winrate)
         + (if HasRank(s[|s| - 1], totalMatches, winrate) then [s[|s| - 1]] else [])
  }

  lemma {:induction false} OfRankAppend<L>(s: seq<Row<L>>, x: Row<L>, totalMatches: nat, winrate: int)
    ensures OfRank(s + [x], totalMatches, winrate)
              == OfRank(s, totalMatches, winrate) + (if HasRank(x, totalMatches, winrate) then [x] else [])
  {
    assert (s + [x])[..|s|] == s;
  }

  lemma {:induction false} InsertOfRank<L>(s: seq<Row<L>>, x: Row<L>, totalMatches: nat, winrate: int)
    ensures OfRank(Insert(s, x), totalMatches, winrate)
              == OfRank(s, totalMatches, winrate) + (if HasRank(x, totalMatches, winrate) then [x] else [])
    decreases |s|
  {
    if s == [] {
      assert OfRank([x], totalMatches, winrate) == OfRank([], totalMatches, winrate) + (if HasRank(x, totalMatches, winrate) then [x] else []);
    } else if Outranks(s[|s| - 1], x) {
      OfRankAppend(s, x, totalMatches, winrate);
    } else {
      var p, y := s[..|s| - 1], s[|s| - 1];
      InsertOfRank(p, x, totalMatches, winrate);
      OfRankAppend(Insert(p, x), y, totalMatches, winrate);
      assert s == p + [y];
      OfRankAppend(p, y, totalMatches, winrate);
    }
  }

  /** Stability: for every rank, the rows of that rank appear in the sorted table in the
      order they had before sorting. */
  lemma {:induction false} SortRowsStable<L>(s: seq<Row<L>>, totalMatches: nat, winrate: int)
    ensures OfRank(SortRows(s), totalMatches, winrate) == OfRank(s, totalMatches, winrate)
  {
    if s != [] {
      var p, x := s[..|s| - 1], s[|s| - 1];
      SortRowsStable(p, totalMatches, winrate);
      InsertOfRank(SortRows(p), x, totalMatches, winrate);
    }
  }

  /** `.slice(0, n)`. */
  function Take<T>(s: seq<T>, n: nat): (r: seq<T>)
    ensures |r| == if |s| < n then |s| else n
    ensures r == s[..|r|]
  {
    if |s| <= n then s else s[..n]
  }

  lemma {:induction false} TakeRanked<L>(s: seq<Row<L>>, n: nat)
    requires Ranked(s)
    ensures Ranked(Take(s, n))
  {
  }

  /** The sum of the rows' `totalMatches`. */
  function SumRowTotals<L>(s: seq<Row<L>>): nat {
    if s == [] then 0 else SumRowTotals(s[..|s| - 1]) + s[|s| - 1].totalMatches
  }

  lemma {:induction false} SumRowTotalsAppend<L>(s: seq<Row<L>>, x: Row<L>)
    ensures SumRowTotals(s + [x]) == SumRowTotals(s) + x.totalMatches
  {
    assert (s + [x])[..|s|] == s;
  }

  lemma {:induction false} InsertSum<L>(s: seq<Row<L>>, x: Row<L>)
    ensures SumRowTotals(Insert(s, x)) == SumRowTotals(s) + x.totalMatches
    decreases |s|
  {
    if s == [] {
      SumRowTotalsAppend([], x);
    } else if Outranks(s[|s| - 1], x) {
      SumRowTotalsAppend(s, x);
    } else {
      var p, y := s[..|s| - 1], s[|s| - 1];
      InsertSum(p, x);
      SumRowTotalsAppend(Insert(p, x), y);
    }
  }

  /** Sorting does not change the number of matches the rows account for. */
  lemma {:induction false} SortRowsSum<L>(s: seq<Row<L>>)
    ensures SumRowTotals(SortRows(s)) == SumRowTotals(s)
  {
    if s != [] {
      SortRowsSum(s[..|s| - 1]);
      InsertSum(SortRows(s[..|s| - 1]), s[|s| - 1]);
    }
  }

  /** Keeping the first rows never accounts for more matches than the whole table. */
  lemma {:induction false} PrefixSum<L>(s: seq<Row<L>>, k: nat)
    requires k <= |s|
    ensures SumRowTotals(s[..k]) <= SumRowTotals(s)
    decreases |s|
  {
    if k < |s| {
      var p := s[..|s| - 1];
      assert p[..k] == s[..k];
      PrefixSum(p, k);
    } else {
      assert s[..k] == s;
    }
  }
}
