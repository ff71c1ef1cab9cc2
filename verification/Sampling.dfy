/** The seed-keyed sample of Dag ids (`dagcorpus.py`: `_sampled_dag_ids`). The digest of the
    seed and an id is an arbitrary rank, which may give two ids the same place. */
module Sampling {
  import opened Prelude
  import opened Ordering

  type Rank = string -> string

  function ByRank(rank: Rank): (string, string) -> bool {
    (a, b) => TextLeq(rank(a), rank(b))
  }

  /** `sorted(set(ids))`, then the first `size` by rank, sorted again; `0` keeps all. */
  ghost function SampledDagIds(ids: seq<string>, size: int, rank: Rank): Result<seq<string>, string> {
    if size < 0 then Err("sample_size must be non-negative")
    else
      var unique := SortedList(Elements(ids));
      if size == 0 || size >= |unique| then Ok(unique)
      else
        RankingIsOrder(rank);
        SortSorts(unique, ByRank(rank));
        Ok(Sort(Sort(unique, ByRank(rank))[..size], TextLeq))
  }

  // ----- what a sample is: the ids with fewer than `size` others ahead of them

  /** Rank first, then the id itself: a total order whatever the rank. */
  predicate AtOrAhead(rank: Rank, a: string, b: string) {
    TextLeq(rank(a), rank(b)) && (rank(a) == rank(b) ==> TextLeq(a, b))
  }

  function Ranking(rank: Rank): (string, string) -> bool {
    (a, b) => AtOrAhead(rank, a, b)
  }

  function Ahead(ids: set<string>, rank: Rank, x: string): set<string> {
    set y | y in ids && y != x && AtOrAhead(rank, y, x)
  }

  function Lowest(ids: set<string>, rank: Rank, size: nat): set<string> {
    set x | x in ids && |Ahead(ids, rank, x)| < size
  }

  // ----- the stable sort breaks ties by id

  lemma RankingIsOrder(rank: Rank)
    ensures TotalPreorder(Ranking(rank)) && Antisymmetric(Ranking(rank))
    ensures TotalPreorder(ByRank(rank))
  {
    TextLeqIsOrder();
  }

  lemma {:induction false} InsertBreaksTies(x: string, sorted: seq<string>, rank: Rank)
    requires forall y :: y in sorted ==> TextLeq(x, y)
    ensures Insert(x, sorted, ByRank(rank)) == Insert(x, sorted, Ranking(rank))
  {
    if sorted != [] {
      assert sorted[0] in sorted;
      TextLeqIsOrder();
      if !ByRank(rank)(x, sorted[0]) {
        InsertBreaksTies(x, sorted[1..], rank);
      }
    }
  }

  lemma {:induction false} SortBreaksTies(xs: seq<string>, rank: Rank)
    requires Sorted(xs, TextLeq)
    ensures Sort(xs, ByRank(rank)) == Sort(xs, Ranking(rank))
  {
    if xs != [] {
      SortBreaksTies(xs[1..], rank);
      RankingIsOrder(rank);
      SortMembers(xs[1..], Ranking(rank));
      InsertBreaksTies(xs[0], Sort(xs[1..], Ranking(rank)), rank);
    }
  }

  lemma {:induction false} AheadInOrder(order: seq<string>, rank: Rank, i: nat)
    requires Sorted(order, Ranking(rank)) && NoDuplicates(order) && i < |order|
    ensures |Ahead(Elements(order), rank, order[i])| == i
  {
    RankingIsOrder(rank);
    forall y ensures y in Ahead(Elements(order), rank, order[i]) <==> y in order[..i] {
      if y in order {
        var j :| 0 <= j < |order| && order[j] == y;
        if j < i {
          assert Ranking(rank)(order[j], order[i]);
          assert order[..i][j] == y;
        } else if j > i {
          assert Ranking(rank)(order[i], order[j]);
          assert order[i] != order[j];
        }
      }
      if y in order[..i] {
        var j :| 0 <= j < i && order[..i][j] == y;
        assert order[j] == y;
      }
    }
    assert Ahead(Elements(order), rank, order[i]) == Elements(order[..i]);
    assert NoDuplicates(order[..i]);
    DistinctSize(order[..i]);
  }

  lemma PrefixIsLowest(order: seq<string>, rank: Rank, size: nat)
    requires Sorted(order, Ranking(rank)) && NoDuplicates(order) && size <= |order|
    ensures Elements(order[..size]) == Lowest(Elements(order), rank, size)
  {
    forall x ensures x in Lowest(Elements(order), rank, size) <==> x in order[..size] {
      if x in order {
        var i :| 0 <= i < |order| && order[i] == x;
        AheadInOrder(order, rank, i);
        if i < size {
          assert order[..size][i] == x;
        }
      }
      if x in order[..size] {
        var i :| 0 <= i < size && order[..size][i] == x;
        assert order[i] == x;
        AheadInOrder(order, rank, i);
      }
    }
  }

  // ----- the sample is a function of the set of ids

  lemma NobodyAheadOfItself(ids: set<string>, rank: Rank, x: string)
    requires x in ids
    ensures |Ahead(ids, rank, x)| < |ids|
  {
    assert Ahead(ids, rank, x) <= ids - {x};
    SubsetSize(Ahead(ids, rank, x), ids - {x});
  }

  lemma {:induction false} SubsetSize<T>(a: set<T>, b: set<T>)
    requires a <= b
    ensures |a| <= |b|
    ensures |a| == |b| ==> a == b
  {
    assert b == a + (b - a);
    assert |b| == |a| + |b - a|;
  }

  lemma SortedUniqueIds(ids: set<string>, rank: Rank)
    ensures Sorted(Sort(SortedList(ids), ByRank(rank)), Ranking(rank))
    ensures NoDuplicates(Sort(SortedList(ids), ByRank(rank)))
    ensures Elements(Sort(SortedList(ids), ByRank(rank))) == ids
    ensures |Sort(SortedList(ids), ByRank(rank))| == |ids|
  {
    SortedListSorts(ids);
    RankingIsOrder(rank);
    SortBreaksTies(SortedList(ids), rank);
    SortSorts(SortedList(ids), Ranking(rank));
    SortKeepsDistinct(SortedList(ids), Ranking(rank));
    SortMembers(SortedList(ids), Ranking(rank));
    forall x ensures x in Elements(Sort(SortedList(ids), ByRank(rank))) <==> x in ids {
      assert x in ids <==> x in Elements(SortedList(ids));
    }
  }

  lemma SortedAgain(xs: seq<string>)
    requires NoDuplicates(xs)
    ensures Sort(xs, TextLeq) == SortedList(Elements(xs))
  {
    TextLeqIsOrder();
    SortSorts(xs, TextLeq);
    SortKeepsDistinct(xs, TextLeq);
    SortMembers(xs, TextLeq);
    assert Elements(Sort(xs, TextLeq)) == Elements(xs);
    SortedListUnique(Sort(xs, TextLeq));
  }

  /** A positive size gives the lowest-ranked ids, in order; size 0 gives every id. */
  lemma SampleIsLowest(ids: seq<string>, size: nat, rank: Rank)
    ensures SampledDagIds(ids, size, rank) ==
            Ok(SortedList(if size == 0 then Elements(ids) else Lowest(Elements(ids), rank, size)))
  {
    var s := Elements(ids);
    var unique := SortedList(s);
    SortedListSorts(s);
    if size >= |unique| {
      forall x | x in s ensures |Ahead(s, rank, x)| < |s| {
        NobodyAheadOfItself(s, rank, x);
      }
      assert Lowest(s, rank, size) == s || size == 0;
    } else if size > 0 {
      var order := Sort(unique, ByRank(rank));
      SortedUniqueIds(s, rank);
      PrefixIsLowest(order, rank, size);
      assert NoDuplicates(order[..size]);
      SortedAgain(order[..size]);
    }
  }

  lemma LowestSize(ids: set<string>, rank: Rank, size: nat)
    ensures |Lowest(ids, rank, size)| == if size <= |ids| then size else |ids|
  {
    var order := Sort(SortedList(ids), ByRank(rank));
    SortedUniqueIds(ids, rank);
    if size <= |ids| {
      PrefixIsLowest(order, rank, size);
      assert NoDuplicates(order[..size]);
      DistinctSize(order[..size]);
    } else {
      forall x | x in ids ensures |Ahead(ids, rank, x)| < size {
        NobodyAheadOfItself(ids, rank, x);
      }
      assert Lowest(ids, rank, size) == ids;
    }
  }

  /** One more Dag id takes at most one place, and pushes out at most one id. */
  lemma OneMoreId(ids: set<string>, rank: Rank, size: nat, x: string)
    requires x !in ids
    ensures Lowest(ids + {x}, rank, size) - Lowest(ids, rank, size) <= {x}
    ensures |Lowest(ids, rank, size) - Lowest(ids + {x}, rank, size)| <= 1
  {
    var before, after := Lowest(ids, rank, size), Lowest(ids + {x}, rank, size);
    forall y | y in after && y != x ensures y in before {
      SubsetSize(Ahead(ids, rank, y), Ahead(ids + {x}, rank, y));
    }
    LowestSize(ids, rank, size);
    LowestSize(ids + {x}, rank, size);
    assert after - {x} <= before;
    assert |before| == |before - (after - {x})| + |after - {x}|;
    assert before - after == before - (after - {x});
    if x !in after {
      assert after - {x} == after;
    }
  }

  function Sampled(result: Result<seq<string>, string>): set<string> {
    if result.Ok? then Elements(result.value) else {}
  }

  /** Duplicates and order of the given ids do not matter; the sample has the size asked for,
      or all there are. */
  lemma SampleOfSet(ids: seq<string>, again: seq<string>, size: nat, rank: Rank)
    requires Elements(ids) == Elements(again) && size > 0
    ensures SampledDagIds(ids, size, rank) == SampledDagIds(again, size, rank)
    ensures SampledDagIds(ids, size, rank).Ok?
    ensures Sampled(SampledDagIds(ids, size, rank)) == Lowest(Elements(ids), rank, size)
    ensures |SampledDagIds(ids, size, rank).value| == if size <= |Elements(ids)| then size else |Elements(ids)|
  {
    SampleIsLowest(ids, size, rank);
    SampleIsLowest(again, size, rank);
    SortedListSorts(Lowest(Elements(ids), rank, size));
    LowestSize(Elements(ids), rank, size);
  }

  /** A larger sample contains the smaller one. */
  lemma SamplesNest(ids: seq<string>, size: nat, more: nat, rank: Rank)
    requires 0 < size <= more
    ensures Sampled(SampledDagIds(ids, size, rank)) <= Sampled(SampledDagIds(ids, more, rank))
  {
    SampleOfSet(ids, ids, size, rank);
    SampleOfSet(ids, ids, more, rank);
  }

  /** A new Dag id displaces at most one sampled id. */
  lemma SampleIsStable(ids: seq<string>, size: nat, rank: Rank, x: string)
    requires size > 0 && x !in ids
    ensures |Sampled(SampledDagIds(ids, size, rank)) - Sampled(SampledDagIds(ids + [x], size, rank))| <= 1
    ensures Sampled(SampledDagIds(ids + [x], size, rank)) - Sampled(SampledDagIds(ids, size, rank)) <= {x}
  {
    SampleOfSet(ids, ids, size, rank);
    SampleOfSet(ids + [x], ids + [x], size, rank);
    assert Elements(ids + [x]) == Elements(ids) + {x};
    OneMoreId(Elements(ids), rank, size, x);
  }
}
