/**
  `Counter(df["Source"])` and `most_common(5)` in smartlog.py. A `Counter`
  is a dictionary filled by one pass over its input, adding one to the
  element's count (starting at zero); its keys stay in the order in which
  they were first inserted, which is the order in which `most_common` sees
  its items.
*/
module SourceCounter {
  import opened Ranking

  /** The distinct elements of `xs` in the order they are first seen: the key order of `Counter(xs)`. */
  function FirstSeen(xs: seq<string>): (keys: seq<string>)
    ensures |keys| <= |xs|
  {
    if xs == [] then []
    else
      var init := xs[..|xs| - 1];
      if xs[|xs| - 1] in init then FirstSeen(init) else FirstSeen(init) + [xs[|xs| - 1]]
  }

  /** The position of the first occurrence of `x` in `xs`. */
  function FirstIndex(xs: seq<string>, x: string): (i: nat)
    requires x in xs
    ensures i < |xs| && xs[i] == x
    ensures forall j :: 0 <= j < i ==> xs[j] != x
  {
    if xs[0] == x then 0 else 1 + FirstIndex(xs[1..], x)
  }

  /** Appending to `xs` moves no first occurrence, and a new element is first seen at the end. */
  lemma FirstIndexAppend(xs: seq<string>, y: string)
    ensures forall x :: x in xs ==> FirstIndex(xs + [y], x) == FirstIndex(xs, x)
    ensures y !in xs ==> FirstIndex(xs + [y], y) == |xs|
  {
    forall x | x in xs ensures FirstIndex(xs + [y], x) == FirstIndex(xs, x) {
      var i := FirstIndex(xs, x);
      assert (xs + [y])[i] == x;
    }
  }

  /** `FirstSeen(xs)` lists every element of `xs` exactly once and nothing else. */
  lemma {:induction false} FirstSeenOnce(xs: seq<string>)
    ensures forall x :: multiset(FirstSeen(xs))[x] == if x in xs then 1 else 0
  {
    if xs != [] {
      var init := xs[..|xs| - 1];
      var y := xs[|xs| - 1];
      assert xs == init + [y];
      FirstSeenOnce(init);
    }
  }

  /** `FirstSeen(xs)` lists the elements in the order of their first occurrences in `xs`. */
  lemma {:induction false} FirstSeenOrdered(xs: seq<string>)
    ensures forall i :: 0 <= i < |FirstSeen(xs)| ==> FirstSeen(xs)[i] in xs
    ensures forall i, j :: 0 <= i < j < |FirstSeen(xs)| ==>
              FirstIndex(xs, FirstSeen(xs)[i]) < FirstIndex(xs, FirstSeen(xs)[j])
  {
    if xs != [] {
      var init := xs[..|xs| - 1];
      var y := xs[|xs| - 1];
      assert xs == init + [y];
      FirstSeenOrdered(init);
      FirstIndexAppend(init, y);
      var keys := FirstSeen(init);
      assert forall i :: 0 <= i < |keys| ==> keys[i] in init;
      if y !in init {
        assert FirstSeen(xs) == keys + [y];
        forall i, j | 0 <= i < j < |keys| + 1
          ensures FirstIndex(xs, FirstSeen(xs)[i]) < FirstIndex(xs, FirstSeen(xs)[j])
        {
          if j < |keys| {
            assert FirstSeen(xs)[i] == keys[i] && FirstSeen(xs)[j] == keys[j];
          } else {
            assert FirstSeen(xs)[i] == keys[i];
          }
        }
      }
    }
  }

  /** The distinct elements of `xs` are pairwise different. */
  lemma FirstSeenDistinct(xs: seq<string>)
    ensures forall i, j :: 0 <= i < j < |FirstSeen(xs)| ==> FirstSeen(xs)[i] != FirstSeen(xs)[j]
    ensures forall x :: x in FirstSeen(xs) <==> x in xs
  {
    FirstSeenOnce(xs);
    FirstSeenOrdered(xs);
    forall x ensures x in FirstSeen(xs) <==> x in xs {
      assert x in FirstSeen(xs) <==> x in multiset(FirstSeen(xs));
    }
  }

  /** The items of `Counter(xs)`, in key order. */
  function SourceItems(xs: seq<string>): (items: seq<SourceCount>)
    ensures |items| == |FirstSeen(xs)|
  {
    var keys := FirstSeen(xs);
    seq(|keys|, i requires 0 <= i < |keys| => SourceCount(keys[i], multiset(xs)[keys[i]]))
  }

  /** The source ranking `most_common` uses for equal counts: the index of the first entry from that source. */
  function FirstSeenRank(xs: seq<string>): string -> int {
    (s: string) => if s in xs then FirstIndex(xs, s) else -1
  }

  /** `Counter(sources).most_common(5)`. */
  function TopSources(sources: seq<string>): (top: seq<SourceCount>)
    ensures |top| == if 5 < |FirstSeen(sources)| then 5 else |FirstSeen(sources)|
    ensures multiset(top) <= multiset(SourceItems(sources))
  {
    MostCommon(SourceItems(sources), 5)
  }

  /**
    What `top_sources` holds: at most five items and never more than there
    are distinct sources; each is a source of the log with its exact number
    of entries; no source twice; counts never increase and equal counts
    appear in the order their sources were first seen; and every source left
    out has a lower count than the last one kept, or the same count and a
    later first entry.
  */
  lemma TopSourcesSpec(sources: seq<string>)
    ensures |TopSources(sources)| <= 5 && |TopSources(sources)| <= |FirstSeen(sources)|
    ensures |TopSources(sources)| == 5 || |TopSources(sources)| == |FirstSeen(sources)|
    ensures forall i :: 0 <= i < |TopSources(sources)| ==>
              TopSources(sources)[i].source in sources &&
              TopSources(sources)[i].count == multiset(sources)[TopSources(sources)[i].source]
    ensures forall i, j :: 0 <= i < j < |TopSources(sources)| ==>
              TopSources(sources)[i].source != TopSources(sources)[j].source
    ensures forall i, j :: 0 <= i < j < |TopSources(sources)| ==>
              Precedes(TopSources(sources)[i], TopSources(sources)[j], FirstSeenRank(sources))
    ensures forall s, i ::
              && s in sources
              && (forall k :: 0 <= k < |TopSources(sources)| ==> TopSources(sources)[k].source != s)
              && 0 <= i < |TopSources(sources)|
              ==>
              Precedes(TopSources(sources)[i], SourceCount(s, multiset(sources)[s]), FirstSeenRank(sources))
  {
    var items := SourceItems(sources);
    var rank := FirstSeenRank(sources);
    var top := TopSources(sources);
    TopRanked(sources);
    ItemsAreCounts(sources);
    forall i | 0 <= i < |top| ensures top[i].source in sources && top[i].count == multiset(sources)[top[i].source] {
      assert top[i] in items;
    }
    forall i, j | 0 <= i < j < |top| ensures top[i].source != top[j].source {
      assert Precedes(top[i], top[j], rank);
    }
    forall s, i | s in sources && (forall k :: 0 <= k < |top| ==> top[k].source != s) && 0 <= i < |top|
      ensures Precedes(top[i], SourceCount(s, multiset(sources)[s]), rank)
    {
      var x := SourceCount(s, multiset(sources)[s]);
      assert x in items;
      assert x !in top;
      assert top[i] in top;
    }
  }

  /** `most_common(5)` over the counter's items: ranked, taken from the items, and ranking above every item it leaves out. */
  lemma TopRanked(sources: seq<string>)
    ensures Ranked(TopSources(sources), FirstSeenRank(sources))
    ensures forall y :: y in TopSources(sources) ==> y in SourceItems(sources)
    ensures forall x, y :: x in SourceItems(sources) && x !in TopSources(sources) && y in TopSources(sources) ==>
              Precedes(y, x, FirstSeenRank(sources))
  {
    ItemsInRankOrder(sources);
    MostCommonSpec(SourceItems(sources), 5, FirstSeenRank(sources));
  }

  /** The counter's items are listed in the order their sources were first seen. */
  lemma ItemsInRankOrder(sources: seq<string>)
    ensures InRankOrder(SourceItems(sources), FirstSeenRank(sources))
  {
    var items := SourceItems(sources);
    var keys := FirstSeen(sources);
    var rank := FirstSeenRank(sources);
    FirstSeenOrdered(sources);
    forall i, j | 0 <= i < j < |items| ensures rank(items[i].source) < rank(items[j].source) {
      assert items[i].source == keys[i] && items[j].source == keys[j];
    }
  }

  /** The counter's items are exactly the sources of the log, each with its number of entries. */
  lemma ItemsAreCounts(sources: seq<string>)
    ensures forall x :: x in SourceItems(sources) ==> x.source in sources && x.count == multiset(sources)[x.source]
    ensures forall s :: s in sources ==> SourceCount(s, multiset(sources)[s]) in SourceItems(sources)
  {
    var items := SourceItems(sources);
    var keys := FirstSeen(sources);
    FirstSeenDistinct(sources);
    forall x | x in items ensures x.source in sources && x.count == multiset(sources)[x.source] {
      var k :| 0 <= k < |items| && items[k] == x;
      assert x.source == keys[k];
    }
    forall s | s in sources ensures SourceCount(s, multiset(sources)[s]) in items {
      assert s in keys;
      var k :| 0 <= k < |keys| && keys[k] == s;
      assert items[k] == SourceCount(s, multiset(sources)[s]);
    }
  }

  /** The sum of the counts of `keys` in `xs`. */
  function SumCounts(keys: seq<string>, xs: seq<string>): nat {
    if keys == [] then 0 else multiset(xs)[keys[0]] + SumCounts(keys[1..], xs)
  }

  lemma {:induction false} SumCountsExtend(keys: seq<string>, xs: seq<string>, y: string)
    ensures SumCounts(keys, xs + [y]) == SumCounts(keys, xs) + multiset(keys)[y]
  {
    if keys != [] {
      SumCountsExtend(keys[1..], xs, y);
      assert keys == [keys[0]] + keys[1..];
    }
  }

  lemma {:induction false} SumCountsAppendKey(keys: seq<string>, k: string, xs: seq<string>)
    ensures SumCounts(keys + [k], xs) == SumCounts(keys, xs) + multiset(xs)[k]
  {
    if keys != [] {
      assert (keys + [k])[1..] == keys[1..] + [k];
      SumCountsAppendKey(keys[1..], k, xs);
    }
  }

  /** Each entry is counted once under its own source: the counts of all sources add up to the number of entries. */
  lemma {:induction false} CountsSumToTotal(xs: seq<string>)
    ensures SumCounts(FirstSeen(xs), xs) == |xs|
  {
    if xs != [] {
      var init := xs[..|xs| - 1];
      var y := xs[|xs| - 1];
      assert xs == init + [y];
      CountsSumToTotal(init);
      FirstSeenOnce(init);
      var keys := FirstSeen(init);
      SumCountsExtend(keys, init, y);
      if y !in init {
        SumCountsAppendKey(keys, y, xs);
      }
    }
  }

  /** A counter: its counts and its keys in insertion order. */
  datatype Tally = Tally(counts: map<string, nat>, order: seq<string>) {

    /** The key order lists each counted key once. */
    ghost predicate Valid() {
      && (forall k :: k in counts <==> k in order)
      && (forall i, j :: 0 <= i < j < |order| ==> order[i] != order[j])
    }

    /** `items()`, in key order. */
    function Items(): seq<SourceCount>
      requires Valid()
    {
      seq(|order|, i requires 0 <= i < |order| => SourceCount(order[i], counts[order[i]]))
    }
  }

  /**
    `Counter(sources)`: one pass that adds one to the count of each entry's
    source, inserting a source with count one the first time it is seen.
  */
  method CountSources(sources: seq<string>) returns (t: Tally)
    ensures t.Valid()
    ensures t.order == FirstSeen(sources)
    ensures forall k :: k in t.counts <==> k in sources
    ensures forall k :: k in t.counts ==> t.counts[k] == multiset(sources)[k]
    ensures t.Items() == SourceItems(sources)
  {
    var counts: map<string, nat> := map[];
    var order: seq<string> := [];
    for i := 0 to |sources|
      invariant order == FirstSeen(sources[..i])
      invariant forall k :: k in counts <==> k in sources[..i]
      invariant forall k :: k in counts ==> counts[k] == multiset(sources[..i])[k]
    {
      var s := sources[i];
      assert sources[..i + 1] == sources[..i] + [s];
      if s in counts {
        counts := counts[s := counts[s] + 1];
      } else {
        counts := counts[s := 1];
        order := order + [s];
      }
    }
    assert sources[..|sources|] == sources;
    FirstSeenDistinct(sources);
    t := Tally(counts, order);
  }

  /** With sources `[A, B, A, B]` both have two entries, and A, seen first, ranks above B. */
  lemma TieKeepsFirstSeenOrder(xs: seq<string>)
    requires xs == ["A", "B", "A", "B"]
    ensures TopSources(xs) == [SourceCount("A", 2), SourceCount("B", 2)]
  {
    TieItems(xs);
    var items := SourceItems(xs);
    assert items[1..] == [SourceCount("B", 2)];
    assert SortByCount(items[1..]) == [SourceCount("B", 2)];
    assert SortByCount(items) == items;
  }

  /** The counter of `[A, B, A, B]` holds A, then B, with two entries each. */
  lemma TieItems(xs: seq<string>)
    requires xs == ["A", "B", "A", "B"]
    ensures SourceItems(xs) == [SourceCount("A", 2), SourceCount("B", 2)]
  {
    TieKeys(xs);
    assert multiset(xs)["A"] == 2 && multiset(xs)["B"] == 2;
  }

  /** The keys of the counter of `[A, B, A, B]` are A, then B. */
  lemma TieKeys(xs: seq<string>)
    requires xs == ["A", "B", "A", "B"]
    ensures FirstSeen(xs) == ["A", "B"]
  {
    var a, ab, aba := ["A"], ["A", "B"], ["A", "B", "A"];
    assert a[..0] == [] && ab[..1] == a && aba[..2] == ab && xs[..3] == aba;
    assert FirstSeen(a) == ["A"];
    assert FirstSeen(ab) == ["A", "B"];
    assert FirstSeen(aba) == ["A", "B"];
  }
}
