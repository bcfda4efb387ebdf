/**
  `Counter.most_common(n)`: the counter's items sorted by count, highest
  first, with a stable sort (items with equal counts keep the order in which
  the counter holds them), cut after `n` items.

  The ranking is stated against a `rank` function on sources that grows
  along the input; for a counter the input is in first-seen order and
  `rank` is the index at which a source is first seen, so equal counts come
  out in first-seen order.
*/
module Ranking {

  /** One item of a counter: a source and how many entries it has. */
  datatype SourceCount = SourceCount(source: string, count: nat)

  /** `a` ranks above `b`: a higher count, or the same count and an earlier rank. */
  predicate Precedes(a: SourceCount, b: SourceCount, rank: string -> int) {
    a.count > b.count || (a.count == b.count && rank(a.source) < rank(b.source))
  }

  /** Every item ranks above every item after it. */
  predicate Ranked(s: seq<SourceCount>, rank: string -> int) {
    forall i, j :: 0 <= i < j < |s| ==> Precedes(s[i], s[j], rank)
  }

  /** The input order: strictly growing rank. */
  predicate InRankOrder(items: seq<SourceCount>, rank: string -> int) {
    forall i, j :: 0 <= i < j < |items| ==> rank(items[i].source) < rank(items[j].source)
  }

  /**
    Inserts `x` into a list sorted by count, before the first item whose
    count is not higher than its own: `x` came before every item of `s` in
    the input, so on equal counts it goes first.
  */
  function Insert(x: SourceCount, s: seq<SourceCount>): (r: seq<SourceCount>)
    ensures multiset(r) == multiset(s) + multiset{x}
  {
    if s == [] || s[0].count <= x.count then [x] + s
    else
      assert s == [s[0]] + s[1..];
      [s[0]] + Insert(x, s[1..])
  }

  /** A stable sort by count, highest first. */
  function SortByCount(items: seq<SourceCount>): (r: seq<SourceCount>)
    ensures multiset(r) == multiset(items)
  {
    if items == [] then []
    else
      assert items == [items[0]] + items[1..];
      Insert(items[0], SortByCount(items[1..]))
  }

  /** `most_common(n)`: the first `n` items of the stable sort, or all of them when there are fewer. */
  function MostCommon(items: seq<SourceCount>, n: nat): (top: seq<SourceCount>)
    ensures |top| == if n < |items| then n else |items|
    ensures multiset(top) <= multiset(items)
  {
    var sorted := SortByCount(items);
    assert |sorted| == |multiset(sorted)| == |items|;
    if n < |sorted| then
      assert sorted == sorted[..n] + sorted[n..];
      sorted[..n]
    else sorted
  }

  lemma {:induction false} InsertRanked(x: SourceCount, s: seq<SourceCount>, rank: string -> int)
    requires Ranked(s, rank)
    requires forall y :: y in s ==> rank(x.source) < rank(y.source)
    ensures Ranked(Insert(x, s), rank)
  {
    if s == [] || s[0].count <= x.count {
      var r := [x] + s;
      forall i, j | 0 <= i < j < |r| ensures Precedes(r[i], r[j], rank) {
        if i == 0 {
          assert r[j] == s[j - 1];
          if j > 1 {
            assert Precedes(s[0], s[j - 1], rank);
          }
        } else {
          assert r[i] == s[i - 1] && r[j] == s[j - 1];
        }
      }
    } else {
      InsertRanked(x, s[1..], rank);
      var tail := Insert(x, s[1..]);
      var r := [s[0]] + tail;
      forall i, j | 0 <= i < j < |r| ensures Precedes(r[i], r[j], rank) {
        if i == 0 {
          var z := tail[j - 1];
          assert z in multiset(tail);
          if z != x {
            assert z in s[1..];
            var k :| 0 <= k < |s[1..]| && s[1..][k] == z;
            assert s[k + 1] == z;
          }
        } else {
          assert r[i] == tail[i - 1] && r[j] == tail[j - 1];
        }
      }
    }
  }

  /** The sort ranks its output: counts never increase, and equal counts keep their input order. */
  lemma {:induction false} SortRanked(items: seq<SourceCount>, rank: string -> int)
    requires InRankOrder(items, rank)
    ensures Ranked(SortByCount(items), rank)
  {
    if items != [] {
      var rest := items[1..];
      assert InRankOrder(rest, rank) by {
        forall i, j | 0 <= i < j < |rest| ensures rank(rest[i].source) < rank(rest[j].source) {
          assert rest[i] == items[i + 1] && rest[j] == items[j + 1];
        }
      }
      SortRanked(rest, rank);
      forall y | y in SortByCount(rest) ensures rank(items[0].source) < rank(y.source) {
        assert y in multiset(SortByCount(rest));
        var k :| 0 <= k < |rest| && rest[k] == y;
        assert items[k + 1] == y;
      }
      InsertRanked(items[0], SortByCount(rest), rank);
    }
  }

  /**
    What `most_common(n)` returns: `min(n, |items|)` of the items, ranked,
    and no item left out ranks above an item kept.
  */
  lemma MostCommonSpec(items: seq<SourceCount>, n: nat, rank: string -> int)
    requires InRankOrder(items, rank)
    ensures |MostCommon(items, n)| == if n < |items| then n else |items|
    ensures Ranked(MostCommon(items, n), rank)
    ensures forall y :: y in MostCommon(items, n) ==> y in items
    ensures forall x, y :: x in items && x !in MostCommon(items, n) && y in MostCommon(items, n) ==> Precedes(y, x, rank)
  {
    var sorted := SortByCount(items);
    var top := MostCommon(items, n);
    SortRanked(items, rank);
    assert |sorted| == |multiset(sorted)| == |items|;
    forall y | y in top ensures y in items {
      assert y in multiset(sorted);
    }
    forall x, y | x in items && x !in top && y in top ensures Precedes(y, x, rank) {
      assert x in multiset(sorted);
      var j :| 0 <= j < |sorted| && sorted[j] == x;
      var i :| 0 <= i < |top| && top[i] == y;
      assert sorted[i] == y;
    }
  }
}
