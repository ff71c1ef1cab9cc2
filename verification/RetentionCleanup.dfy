/** One run's cleanup of its own storage base, with no other run in between
    (`_airflow_home.py`: `mark_root_retained`, `_retained_siblings`, `prune_retained_roots`,
    the count in `_retained_lines`, in the order of `bootstrap`'s cleanup closure).
    Module RetainedRoots has the same steps interleaved between runs. */
module RetentionCleanup {
  import opened Prelude
  import opened Ordering
  import opened RetainedRoots

  type Dated = (int, RootId)

  predicate NewerFirst(a: Dated, b: Dated) {
    a.0 >= b.0
  }

  lemma NewerFirstIsOrder()
    ensures TotalPreorder(NewerFirst)
  {
  }

  /** The user's markers on disk. */
  function MarksOf(dirs: map<RootId, Dir>, uid: nat): map<RootId, int> {
    map r | r in dirs && dirs[r].uid == uid && dirs[r].marker.Some? :: dirs[r].marker.value
  }

  /** `dated` pairs each root of `marks` with its time, once. */
  ghost predicate Lists(dated: seq<Dated>, marks: map<RootId, int>) {
    && (forall p :: p in dated ==> p.1 in marks && marks[p.1] == p.0)
    && (forall r :: r in marks ==> (marks[r], r) in dated)
    && NoDuplicates(dated)
  }

  function Roots(dated: seq<Dated>): (roots: seq<RootId>)
    ensures |roots| == |dated| && forall i :: 0 <= i < |dated| ==> roots[i] == dated[i].1
  {
    seq(|dated|, i requires 0 <= i < |dated| => dated[i].1)
  }

  lemma SortedPairs(dated: seq<Dated>, marks: map<RootId, int>)
    requires Lists(dated, marks)
    ensures Lists(Sort(dated, NewerFirst), marks) && Sorted(Sort(dated, NewerFirst), NewerFirst)
  {
    NewerFirstIsOrder();
    SortSorts(dated, NewerFirst);
    SortMembers(dated, NewerFirst);
    SortKeepsDistinct(dated, NewerFirst);
  }

  lemma ListedRoots(sorted: seq<Dated>, marks: map<RootId, int>)
    requires Lists(sorted, marks) && Sorted(sorted, NewerFirst)
    ensures NewestFirst(Roots(sorted), marks)
  {
  }

  lemma ListingSize(order: seq<RootId>, marks: map<RootId, int>)
    requires NewestFirst(order, marks)
    ensures Elements(order) == marks.Keys && |order| == |marks|
  {
    DistinctSize(order);
    assert Elements(order) == marks.Keys;
  }

  class StorageBase {
    var dirs: map<RootId, Dir>

    constructor (present: map<RootId, Dir>)
      ensures dirs == present
    {
      dirs := present;
    }

    method MarkRootRetained(root: RootId, time: int)
      requires root in dirs
      modifies this
      ensures dirs == old(dirs)[root := Dir(old(dirs)[root].uid, Some(time))]
    {
      dirs := dirs[root := dirs[root].(marker := Some(time))];
    }

    method RetainedSiblings(uid: nat) returns (order: seq<RootId>)
      ensures NewestFirst(order, MarksOf(dirs, uid)) && |order| == |MarksOf(dirs, uid)|
    {
      var dated: seq<Dated> := [];
      var globbed := dirs.Keys;
      ghost var marks := MarksOf(dirs, uid);
      while globbed != {}
        invariant globbed <= dirs.Keys
        invariant Lists(dated, marks - globbed)
        decreases globbed
      {
        var entry :| entry in globbed;
        assert globbed == (globbed - {entry}) + {entry};
        globbed := globbed - {entry};
        if dirs[entry].marker.Some? && dirs[entry].uid == uid {
          ListsOneMore(dated, marks - (globbed + {entry}), entry, dirs[entry].marker.value);
          dated := dated + [(dirs[entry].marker.value, entry)];
          assert marks - globbed == (marks - (globbed + {entry}))[entry := dirs[entry].marker.value];
        } else {
          assert marks - globbed == marks - (globbed + {entry});
        }
      }
      assert marks - globbed == marks;
      order := Roots(Sort(dated, NewerFirst));
      SortedPairs(dated, marks);
      ListedRoots(Sort(dated, NewerFirst), marks);
      ListingSize(order, marks);
    }

    /** Removes exactly the user's marked roots beyond the `keep` newest. */
    method PruneRetainedRoots(uid: nat, keep: nat) returns (ghost order: seq<RootId>)
      modifies this
      ensures NewestFirst(order, MarksOf(old(dirs), uid)) && |order| == |MarksOf(old(dirs), uid)|
      ensures dirs == old(dirs) - Elements(order[Min(keep, |order|)..])
    {
      var siblings := RetainedSiblings(uid);
      order := siblings;
      RemoveAll(siblings[Min(keep, |siblings|)..]);
    }

    method RemoveAll(roots: seq<RootId>)
      modifies this
      ensures dirs == old(dirs) - Elements(roots)
    {
      for i := 0 to |roots|
        invariant dirs == old(dirs) - Elements(roots[..i])
      {
        dirs := dirs - {roots[i]};
        assert roots[..i + 1] == roots[..i] + [roots[i]];
        assert Elements(roots[..i + 1]) == Elements(roots[..i]) + {roots[i]};
      }
      assert roots[..|roots|] == roots;
    }

    /** The tail of `cleanup`: announce how many other roots will remain, mark, prune. When
        this run's marker is the newest, its root stays and the announcement is exact. */
    method RetainRoot(root: RootId, time: int, keep: nat) returns (announced: int)
      requires root in dirs && dirs[root].marker.None? && keep >= 1
      modifies this
      ensures announced == Min(|MarksOf(old(dirs), old(dirs)[root].uid)|, keep - 1)
      ensures IsNewest(MarksOf(old(dirs), old(dirs)[root].uid), root, time) ==>
                root in dirs && |MarksOf(dirs, old(dirs)[root].uid).Keys - {root}| == announced
      ensures forall r :: r in old(dirs) && r != root &&
                          (old(dirs)[r].uid != old(dirs)[root].uid || old(dirs)[r].marker.None?) ==>
                            r in dirs && dirs[r] == old(dirs)[r]
      ensures dirs.Keys <= old(dirs).Keys
    {
      var uid := dirs[root].uid;
      ghost var before := dirs;
      var existing := RetainedSiblings(uid);
      announced := Min(|existing|, keep - 1);
      MarkRootRetained(root, time);
      ghost var marked := dirs;
      ghost var order := PruneRetainedRoots(uid, keep);
      PrunedOutcome(before, marked, dirs, root, time, keep, order);
    }
  }

  /** Every other marker of the user is older than the run's own. */
  predicate IsNewest(marks: map<RootId, int>, root: RootId, time: int) {
    forall r :: r in marks && r != root ==> marks[r] < time
  }

  lemma PrunedOutcome(before: map<RootId, Dir>, marked: map<RootId, Dir>, after: map<RootId, Dir>,
                      root: RootId, time: int, keep: nat, order: seq<RootId>)
    requires root in before && before[root].marker.None? && keep >= 1
    requires marked == before[root := Dir(before[root].uid, Some(time))]
    requires NewestFirst(order, MarksOf(marked, before[root].uid))
    requires after == marked - Elements(order[Min(keep, |order|)..])
    ensures IsNewest(MarksOf(before, before[root].uid), root, time) ==>
              root in after && |MarksOf(after, before[root].uid).Keys - {root}| ==
                               Min(|MarksOf(before, before[root].uid)|, keep - 1)
    ensures forall r :: r in before && r != root && (before[r].uid != before[root].uid || before[r].marker.None?) ==>
                          r in after && after[r] == before[r]
  {
    var uid := before[root].uid;
    var marks := MarksOf(before, uid);
    assert MarksOf(marked, uid) == marks[root := time];
    OnlyMarkedGo(order, MarksOf(marked, uid), keep);
    if IsNewest(marks, root, time) {
      NewestKept(marked, after, uid, marks, root, time, keep, order);
    }
  }

  lemma OnlyMarkedGo(order: seq<RootId>, marks: map<RootId, int>, keep: nat)
    requires NewestFirst(order, marks)
    ensures Elements(order[Min(keep, |order|)..]) <= marks.Keys
  {
  }

  lemma NewestKept(marked: map<RootId, Dir>, after: map<RootId, Dir>, uid: nat, marks: map<RootId, int>,
                   root: RootId, time: int, keep: nat, order: seq<RootId>)
    requires MarksOf(marked, uid) == marks[root := time] && root !in marks && keep >= 1
    requires NewestFirst(order, MarksOf(marked, uid)) && IsNewest(marks, root, time)
    requires after == marked - Elements(order[Min(keep, |order|)..])
    ensures root in after && |MarksOf(after, uid).Keys - {root}| == Min(|marks|, keep - 1)
  {
    NewestStandsFirst(marks, root, time, order);
    ListingSize(order, MarksOf(marked, uid));
    KeptMarks(marked, after, uid, order, keep);
    assert order[..Min(keep, |order|)][0] == root;
    assert root in MarksOf(after, uid).Keys;
    assert |MarksOf(after, uid).Keys - {root}| == |MarksOf(after, uid).Keys| - 1;
    assert |marks[root := time]| == |marks| + 1 by {
      assert marks[root := time].Keys == marks.Keys + {root};
    }
  }

  lemma ListsOneMore(dated: seq<Dated>, marks: map<RootId, int>, r: RootId, time: int)
    requires Lists(dated, marks) && r !in marks
    ensures Lists(dated + [(time, r)], marks[r := time])
  {
  }

  lemma NewestStandsFirst(marks: map<RootId, int>, root: RootId, time: int, order: seq<RootId>)
    requires root !in marks && IsNewest(marks, root, time)
    requires NewestFirst(order, marks[root := time])
    ensures order != [] && order[0] == root
  {
    assert root in order;
    assert order[0] in order;
  }

  /** What stays marked after a prune is the listing's first `keep` places. */
  lemma KeptMarks(before: map<RootId, Dir>, after: map<RootId, Dir>, uid: nat, order: seq<RootId>, keep: nat)
    requires NewestFirst(order, MarksOf(before, uid))
    requires after == before - Elements(order[Min(keep, |order|)..])
    ensures MarksOf(after, uid).Keys == Elements(order[..Min(keep, |order|)])
    ensures |MarksOf(after, uid).Keys| == Min(keep, |order|)
  {
    var k := Min(keep, |order|);
    SplitDistinct(order, k);
    ListingSize(order, MarksOf(before, uid));
    assert MarksOf(after, uid).Keys == MarksOf(before, uid).Keys - Elements(order[k..]);
    assert NoDuplicates(order[..k]);
    DistinctSize(order[..k]);
  }

  lemma SplitDistinct(xs: seq<RootId>, k: nat)
    requires NoDuplicates(xs) && k <= |xs|
    ensures Elements(xs) - Elements(xs[k..]) == Elements(xs[..k])
  {
  }
}
