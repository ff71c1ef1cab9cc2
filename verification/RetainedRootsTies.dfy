/** Equal marker times at the retention cut. A directory lists equal times in any order, so one
    run may remove the root that another keeps: for any marks without a clear cut, some
    complete run without a fault leaves fewer roots than it should. */
module RetainedRootsTies {
  import opened Prelude
  import opened Ordering
  import opened RetainedRoots

  ghost predicate Reachable(w: World, keep: nat -> nat) {
    exists trace :: IsRun(trace, keep, false) && trace[|trace| - 1] == w
  }

  lemma Onward(w: World, w': World, step: Step, keep: nat -> nat)
    requires Reachable(w, keep) && !IsFault(step) && Takes(w, w', step, keep)
    ensures Reachable(w', keep)
  {
    var trace :| IsRun(trace, keep, false) && trace[|trace| - 1] == w;
    var longer := trace + [w'];
    forall i | 0 <= i < |longer| - 1 ensures Next(longer[i], longer[i + 1], keep, false) {
      if i < |trace| - 1 {
        assert Next(trace[i], trace[i + 1], keep, false);
      }
    }
    assert IsRun(longer, keep, false) && longer[|longer| - 1] == w';
  }

  /** One user's runs in `phases`, all their roots marked, those in `present` still on disk. */
  function Stage(marks: map<RootId, int>, uid: nat, phases: map<RootId, Phase>, present: set<RootId>): World {
    var dirs := map r | r in marks && r in present :: Dir(uid, Some(marks[r]));
    World(dirs, map r | r in phases :: Run(uid, phases[r]), marks)
  }

  function Everywhere(roots: set<RootId>, phase: Phase): map<RootId, Phase> {
    map r | r in roots :: phase
  }

  // ----- everyone marks

  lemma MarkedNext(marks: map<RootId, int>, uid: nat, keep: nat -> nat, r: RootId)
    requires r in marks
    requires Reachable(Stage(marks - {r}, uid, Everywhere(marks.Keys - {r}, Marked), marks.Keys - {r}), keep)
    ensures Reachable(Stage(marks, uid, Everywhere(marks.Keys, Marked), marks.Keys), keep)
  {
    var before := Stage(marks - {r}, uid, Everywhere(marks.Keys - {r}, Marked), marks.Keys - {r});
    var started := before.(dirs := before.dirs[r := Dir(uid, None)], runs := before.runs[r := Run(uid, Running)]);
    Onward(before, started, StartStep(r, uid), keep);
    var after := Stage(marks, uid, Everywhere(marks.Keys, Marked), marks.Keys);
    assert after.dirs == started.dirs[r := Dir(uid, Some(marks[r]))];
    assert after.runs == started.runs[r := Run(uid, Marked)];
    assert after.ever == started.ever[r := marks[r]];
    Onward(started, after, MarkStep(r, marks[r]), keep);
  }

  lemma {:induction false} AllMarked(marks: map<RootId, int>, uid: nat, keep: nat -> nat)
    ensures Reachable(Stage(marks, uid, Everywhere(marks.Keys, Marked), marks.Keys), keep)
    decreases |marks|
  {
    if marks == map[] {
      assert IsRun([EMPTY_BASE], keep, false);
      assert [EMPTY_BASE][|[EMPTY_BASE]| - 1] == Stage(marks, uid, Everywhere(marks.Keys, Marked), marks.Keys);
    } else {
      var r :| r in marks;
      assert (marks - {r}).Keys == marks.Keys - {r};
      assert |(marks - {r}).Keys| == |marks.Keys| - 1;
      AllMarked(marks - {r}, uid, keep);
      MarkedNext(marks, uid, keep, r);
    }
  }

  // ----- everyone lists and ranks

  lemma PhaseStep(marks: map<RootId, int>, uid: nat, phases: map<RootId, Phase>, present: set<RootId>, r: RootId,
                  phase: Phase)
    requires r in phases
    ensures Enter(Stage(marks, uid, phases, present), r, phase) == Stage(marks, uid, phases[r := phase], present)
  {
  }

  /** The run `r` reads the markers left in `todo`. */
  lemma {:induction false} Stats(marks: map<RootId, int>, uid: nat, phases: map<RootId, Phase>, r: RootId,
                                 todo: set<RootId>, keep: nat -> nat)
    requires r in phases && todo <= marks.Keys
    requires Reachable(Stage(marks, uid, phases[r := Scanning(marks.Keys, todo, marks - todo)], marks.Keys), keep)
    ensures Reachable(Stage(marks, uid, phases[r := Scanning(marks.Keys, {}, marks)], marks.Keys), keep)
    decreases todo
  {
    if todo == {} {
      assert marks - todo == marks;
    } else {
      var entry :| entry in todo;
      StatsOne(marks, uid, phases, r, todo, entry, keep);
      Stats(marks, uid, phases, r, todo - {entry}, keep);
    }
  }

  lemma StatsOne(marks: map<RootId, int>, uid: nat, phases: map<RootId, Phase>, r: RootId, todo: set<RootId>,
                 entry: RootId, keep: nat -> nat)
    requires r in phases && todo <= marks.Keys && entry in todo
    requires Reachable(Stage(marks, uid, phases[r := Scanning(marks.Keys, todo, marks - todo)], marks.Keys), keep)
    ensures Reachable(Stage(marks, uid, phases[r := Scanning(marks.Keys, todo - {entry}, marks - (todo - {entry}))],
                            marks.Keys), keep)
  {
    var scanning := Scanning(marks.Keys, todo, marks - todo);
    var next := Scanning(marks.Keys, todo - {entry}, marks - (todo - {entry}));
    assert marks - (todo - {entry}) == (marks - todo)[entry := marks[entry]];
    PhaseStep(marks, uid, phases[r := scanning], marks.Keys, r, next);
    assert phases[r := scanning][r := next] == phases[r := next];
    Onward(Stage(marks, uid, phases[r := scanning], marks.Keys), Stage(marks, uid, phases[r := next], marks.Keys),
           StatStep(r, entry), keep);
  }

  function Ranked(marks: map<RootId, int>, order: seq<RootId>, k: nat): Phase {
    Pruning(marks.Keys, marks, order, Min(k, |order|))
  }

  /** The run `r` lists everything and ranks it in the given order. */
  lemma Ranks(marks: map<RootId, int>, uid: nat, phases: map<RootId, Phase>, r: RootId, order: seq<RootId>,
              keep: nat -> nat)
    requires r in phases && phases[r].Marked? && NewestFirst(order, marks)
    requires Reachable(Stage(marks, uid, phases, marks.Keys), keep)
    ensures Reachable(Stage(marks, uid, phases[r := Ranked(marks, order, keep(uid))], marks.Keys), keep)
  {
    var globbed, scanned := Scanning(marks.Keys, marks.Keys, map[]), Scanning(marks.Keys, {}, marks);
    var ranked := Ranked(marks, order, keep(uid));
    assert Stage(marks, uid, phases, marks.Keys).dirs.Keys == marks.Keys;
    PhaseStep(marks, uid, phases, marks.Keys, r, globbed);
    Onward(Stage(marks, uid, phases, marks.Keys), Stage(marks, uid, phases[r := globbed], marks.Keys), GlobStep(r),
           keep);
    assert marks - marks.Keys == map[];
    Stats(marks, uid, phases, r, marks.Keys, keep);
    PhaseStep(marks, uid, phases[r := scanned], marks.Keys, r, ranked);
    assert phases[r := scanned][r := ranked] == phases[r := ranked];
    Onward(Stage(marks, uid, phases[r := scanned], marks.Keys), Stage(marks, uid, phases[r := ranked], marks.Keys),
           RankStep(r, order), keep);
  }

  type Orders = map<RootId, seq<RootId>>

  /** Each run's own listing of the marks. */
  ghost predicate AreOrders(marks: map<RootId, int>, orders: Orders) {
    orders.Keys == marks.Keys && forall r :: r in orders ==> NewestFirst(orders[r], marks)
  }

  function RankedBy(marks: map<RootId, int>, orders: Orders, k: nat, done: set<RootId>): map<RootId, Phase>
    requires orders.Keys == marks.Keys
  {
    map r | r in marks :: if r in done then Ranked(marks, orders[r], k) else Marked
  }

  lemma RankedMore(marks: map<RootId, int>, orders: Orders, k: nat, done: set<RootId>, r: RootId)
    requires orders.Keys == marks.Keys && r in done && r in marks
    ensures RankedBy(marks, orders, k, done - {r})[r := Ranked(marks, orders[r], k)] == RankedBy(marks, orders, k, done)
    ensures RankedBy(marks, orders, k, done - {r})[r].Marked?
  {
  }

  lemma {:induction false} AllRanked(marks: map<RootId, int>, uid: nat, orders: Orders, done: set<RootId>,
                                     keep: nat -> nat)
    requires AreOrders(marks, orders) && done <= marks.Keys
    ensures Reachable(Stage(marks, uid, RankedBy(marks, orders, keep(uid), done), marks.Keys), keep)
    decreases done
  {
    if done == {} {
      AllMarked(marks, uid, keep);
      assert RankedBy(marks, orders, keep(uid), done) == Everywhere(marks.Keys, Marked);
    } else {
      var r :| r in done;
      AllRanked(marks, uid, orders, done - {r}, keep);
      RankedMore(marks, orders, keep(uid), done, r);
      Ranks(marks, uid, RankedBy(marks, orders, keep(uid), done - {r}), r, orders[r], keep);
    }
  }

  // ----- everyone prunes

  /** The run `r` removes the rest of its listing and finishes. */
  lemma {:induction false} Removes(marks: map<RootId, int>, uid: nat, phases: map<RootId, Phase>, present: set<RootId>,
                                   r: RootId, order: seq<RootId>, next: nat, keep: nat -> nat)
    requires r in phases && next <= |order|
    requires Reachable(Stage(marks, uid, phases[r := Pruning(marks.Keys, marks, order, next)], present), keep)
    ensures Reachable(Stage(marks, uid, phases[r := Finished(marks.Keys, marks, order)],
                            present - Elements(order[next..])), keep)
    decreases |order| - next
  {
    var pruning := Pruning(marks.Keys, marks, order, next);
    if next == |order| {
      var finished := Finished(marks.Keys, marks, order);
      PhaseStep(marks, uid, phases[r := pruning], present, r, finished);
      assert phases[r := pruning][r := finished] == phases[r := finished];
      assert present - Elements(order[next..]) == present;
      Onward(Stage(marks, uid, phases[r := pruning], present), Stage(marks, uid, phases[r := finished], present),
             FinishStep(r), keep);
    } else {
      var more := Pruning(marks.Keys, marks, order, next + 1);
      var gone := order[next];
      PhaseStep(marks, uid, phases[r := pruning], present, r, more);
      assert phases[r := pruning][r := more] == phases[r := more];
      var before, after := Stage(marks, uid, phases[r := pruning], present),
                           Stage(marks, uid, phases[r := more], present - {gone});
      assert after.dirs == before.dirs - {gone};
      Onward(before, after, RemoveStep(r, Whole), keep);
      Removes(marks, uid, phases, present - {gone}, r, order, next + 1, keep);
      assert order[next..] == [gone] + order[next + 1..];
      assert present - Elements(order[next..]) == present - {gone} - Elements(order[next + 1..]);
    }
  }

  function Cut(order: seq<RootId>, k: nat): set<RootId> {
    Elements(order[Min(k, |order|)..])
  }

  /** What is left once the runs in `done` have pruned. */
  ghost function Left(marks: map<RootId, int>, orders: Orders, k: nat, done: set<RootId>): set<RootId>
    requires done <= orders.Keys
  {
    set x | x in marks.Keys && forall r :: r in done ==> x !in Cut(orders[r], k)
  }

  function PrunedBy(marks: map<RootId, int>, orders: Orders, k: nat, done: set<RootId>): map<RootId, Phase>
    requires orders.Keys == marks.Keys
  {
    map r | r in marks :: if r in done then Finished(marks.Keys, marks, orders[r]) else Ranked(marks, orders[r], k)
  }

  lemma PrunedNone(marks: map<RootId, int>, orders: Orders, k: nat)
    requires orders.Keys == marks.Keys
    ensures RankedBy(marks, orders, k, marks.Keys) == PrunedBy(marks, orders, k, {}) &&
            Left(marks, orders, k, {}) == marks.Keys
  {
  }

  lemma PrunedMore(marks: map<RootId, int>, orders: Orders, k: nat, done: set<RootId>, r: RootId)
    requires orders.Keys == marks.Keys && r in done && r in marks
    ensures var phases := PrunedBy(marks, orders, k, done - {r});
            && phases[r := Ranked(marks, orders[r], k)] == phases
            && phases[r := Finished(marks.Keys, marks, orders[r])] == PrunedBy(marks, orders, k, done)
  {
  }

  lemma {:induction false} AllPruned(marks: map<RootId, int>, uid: nat, orders: Orders, done: set<RootId>,
                                     keep: nat -> nat)
    requires AreOrders(marks, orders) && done <= marks.Keys
    ensures Reachable(Stage(marks, uid, PrunedBy(marks, orders, keep(uid), done),
                            Left(marks, orders, keep(uid), done)), keep)
    decreases done
  {
    var k := keep(uid);
    if done == {} {
      AllRanked(marks, uid, orders, marks.Keys, keep);
      PrunedNone(marks, orders, k);
    } else {
      var r :| r in done;
      var phases, left := PrunedBy(marks, orders, k, done - {r}), Left(marks, orders, k, done - {r});
      AllPruned(marks, uid, orders, done - {r}, keep);
      PrunedMore(marks, orders, k, done, r);
      Removes(marks, uid, phases, left, r, orders[r], Min(k, |orders[r]|), keep);
      LeftLess(marks, orders, k, done, r);
    }
  }

  lemma LeftLess(marks: map<RootId, int>, orders: Orders, k: nat, done: set<RootId>, r: RootId)
    requires done <= orders.Keys && r in done
    ensures Left(marks, orders, k, done) == Left(marks, orders, k, done - {r}) - Cut(orders[r], k)
  {
  }

  // ----- two listings of a tie

  function Time(marks: map<RootId, int>, r: RootId): int {
    if r in marks then marks[r] else 0
  }

  /** Newest first, `x` after (before) the others of its time. */
  predicate LastOfItsTime(marks: map<RootId, int>, x: RootId, a: RootId, b: RootId) {
    Time(marks, a) > Time(marks, b) || (Time(marks, a) == Time(marks, b) && (b == x || a != x))
  }

  predicate FirstOfItsTime(marks: map<RootId, int>, x: RootId, a: RootId, b: RootId) {
    Time(marks, a) > Time(marks, b) || (Time(marks, a) == Time(marks, b) && (a == x || b != x))
  }

  lemma {:induction false} ListOf(s: set<RootId>) returns (list: seq<RootId>)
    ensures NoDuplicates(list) && Elements(list) == s
  {
    if s == {} {
      list := [];
    } else {
      var r :| r in s;
      var rest := ListOf(s - {r});
      assert r !in Elements(rest);
      list := [r] + rest;
      assert Elements(list) == {r} + Elements(rest);
    }
  }

  lemma Arranged(marks: map<RootId, int>, leq: (RootId, RootId) -> bool) returns (order: seq<RootId>)
    requires TotalPreorder(leq) && forall a, b :: leq(a, b) ==> Time(marks, a) >= Time(marks, b)
    ensures NewestFirst(order, marks) && Sorted(order, leq)
  {
    var list := ListOf(marks.Keys);
    order := Sort(list, leq);
    SortSorts(list, leq);
    SortKeepsDistinct(list, leq);
    SortMembers(list, leq);
    forall r ensures r in order <==> r in marks {
      assert r in list <==> r in Elements(list);
    }
    forall i, j | 0 <= i < j < |order| ensures marks[order[i]] >= marks[order[j]] {
      assert leq(order[i], order[j]) && order[i] in order && order[j] in order;
    }
  }

  lemma PrefixSize(order: seq<RootId>, i: nat)
    requires NoDuplicates(order) && i <= |order|
    ensures |Elements(order[..i])| == i
  {
    assert NoDuplicates(order[..i]);
    DistinctSize(order[..i]);
  }

  /** A listing with every root marked no older than `x` in front of it. */
  lemma Late(marks: map<RootId, int>, x: RootId) returns (order: seq<RootId>, i: nat)
    requires x in marks
    ensures NewestFirst(order, marks) && i < |order| && order[i] == x && i >= |NoOlder(marks, x)|
  {
    var leq := (a: RootId, b: RootId) => LastOfItsTime(marks, x, a, b);
    order := Arranged(marks, leq);
    assert x in order;
    i :| 0 <= i < |order| && order[i] == x;
    forall j | i < j < |order| ensures order[j] !in NoOlder(marks, x) {
      assert leq(order[i], order[j]) && order[j] != order[i];
    }
    forall y | y in NoOlder(marks, x) ensures y in order[..i] {
      assert y in order;
      var j :| 0 <= j < |order| && order[j] == y;
      assert order[..i][j] == y;
    }
    PrefixSize(order, i);
    SubsetSize(NoOlder(marks, x), Elements(order[..i]));
  }

  /** A listing with only strictly newer roots in front of `x`. */
  lemma Early(marks: map<RootId, int>, x: RootId) returns (order: seq<RootId>, i: nat)
    requires x in marks
    ensures NewestFirst(order, marks) && i < |order| && order[i] == x && i <= |StrictlyNewer(marks, x)|
  {
    var leq := (a: RootId, b: RootId) => FirstOfItsTime(marks, x, a, b);
    order := Arranged(marks, leq);
    assert x in order;
    i :| 0 <= i < |order| && order[i] == x;
    forall y | y in order[..i] ensures y in StrictlyNewer(marks, x) {
      var j :| 0 <= j < i && order[..i][j] == y;
      assert leq(order[j], order[i]) && order[j] in order;
    }
    PrefixSize(order, i);
    SubsetSize(Elements(order[..i]), StrictlyNewer(marks, x));
  }

  // ----- what a tie can do

  /** A fault-free run of one user, complete, that marked `marks`. */
  ghost predicate IsComplete(trace: seq<World>, keep: nat -> nat, uid: nat, marks: map<RootId, int>) {
    && IsRun(trace, keep, false)
    && AllFinished(trace[|trace| - 1], uid)
    && MarkedBy(trace[|trace| - 1], uid) == marks
  }

  /** `x` keeps its place in one run's listing and loses it in another's. */
  lemma FewerLeft(marks: map<RootId, int>, orders: Orders, k: nat, x: RootId, p: RootId, q: RootId)
    requires AreOrders(marks, orders) && p in orders && q in orders
    requires x in Cut(orders[p], k) && x in orders[q][..Min(k, |orders[q]|)]
    ensures |Left(marks, orders, k, marks.Keys)| < Min(k, |marks|)
  {
    var order := orders[q];
    KeptBy(marks, orders[p], order, k, x, Left(marks, orders, k, marks.Keys));
  }

  lemma KeptBy(marks: map<RootId, int>, other: seq<RootId>, order: seq<RootId>, k: nat, x: RootId, left: set<RootId>)
    requires NewestFirst(order, marks) && x in Cut(other, k) && x in order[..Min(k, |order|)]
    requires left <= marks.Keys && left !! Cut(other, k) && left !! Cut(order, k)
    ensures |left| < Min(k, |marks|)
  {
    var m := Min(k, |order|);
    PrefixSize(order, m);
    PrefixSize(order, |order|);
    assert order[..|order|] == order && Elements(order) == marks.Keys;
    UncutStandFirst(order, k, left);
    SubsetSize(left, Elements(order[..m]) - {x});
  }

  lemma UncutStandFirst(order: seq<RootId>, k: nat, left: set<RootId>)
    requires left <= Elements(order) && left !! Cut(order, k)
    ensures left <= Elements(order[..Min(k, |order|)])
  {
  }

  lemma StageResult(marks: map<RootId, int>, uid: nat, phases: map<RootId, Phase>, present: set<RootId>)
    requires phases.Keys == marks.Keys && present <= marks.Keys && forall r :: r in phases ==> phases[r].Finished?
    ensures var w := Stage(marks, uid, phases, present);
            MarkedBy(w, uid) == marks && Survivors(w, uid) == present && AllFinished(w, uid)
  {
  }

  /** Any listings of the marks, one for each run, can come about. */
  lemma SomeRunPrunes(marks: map<RootId, int>, uid: nat, orders: Orders, keep: nat -> nat) returns (trace: seq<World>)
    requires AreOrders(marks, orders)
    ensures IsComplete(trace, keep, uid, marks)
    ensures Survivors(trace[|trace| - 1], uid) == Left(marks, orders, keep(uid), marks.Keys)
  {
    var k := keep(uid);
    AllPruned(marks, uid, orders, marks.Keys, keep);
    var w := Stage(marks, uid, PrunedBy(marks, orders, k, marks.Keys), Left(marks, orders, k, marks.Keys));
    trace :| IsRun(trace, keep, false) && trace[|trace| - 1] == w;
    StageResult(marks, uid, PrunedBy(marks, orders, k, marks.Keys), Left(marks, orders, k, marks.Keys));
  }

  /** For any marks without a clear cut there is such a run that keeps too few. */
  lemma TiesLoseRoots(marks: map<RootId, int>, uid: nat, keep: nat -> nat) returns (trace: seq<World>)
    requires !ClearCut(marks, keep(uid))
    ensures IsComplete(trace, keep, uid, marks)
    ensures |Survivors(trace[|trace| - 1], uid)| < Min(keep(uid), |marks|)
  {
    var k := keep(uid);
    var x :| x in marks && |StrictlyNewer(marks, x)| < k <= |NoOlder(marks, x)|;
    var orders, p, q := Conflicting(marks, k, x);
    FewerLeft(marks, orders, k, x, p, q);
    trace := SomeRunPrunes(marks, uid, orders, keep);
  }

  lemma CutOff(order: seq<RootId>, k: nat, x: RootId, i: nat)
    requires i < |order| && order[i] == x
    ensures if i < k then x in order[..Min(k, |order|)] else x in Cut(order, k)
  {
  }

  lemma Conflicting(marks: map<RootId, int>, k: nat, x: RootId) returns (orders: Orders, p: RootId, q: RootId)
    requires x in marks && |StrictlyNewer(marks, x)| < k <= |NoOlder(marks, x)|
    ensures AreOrders(marks, orders) && p in orders && q in orders
    ensures x in Cut(orders[p], k) && x in orders[q][..Min(k, |orders[q]|)]
  {
    var late, i := Late(marks, x);
    var early, j := Early(marks, x);
    CutOff(late, k, x, i);
    CutOff(early, k, x, j);
    p := x;
    q :| q in NoOlder(marks, x);
    orders := map r | r in marks :: if r == x then late else early;
  }

  /** The exact condition: the cut is clear if and only if every complete run without a fault
      keeps as many roots as asked for, or all there are. */
  lemma ClearCutExactly(marks: map<RootId, int>, uid: nat, keep: nat -> nat)
    requires keep(uid) >= 1
    ensures ClearCut(marks, keep(uid)) <==>
            forall trace :: IsComplete(trace, keep, uid, marks) ==>
                              |Survivors(trace[|trace| - 1], uid)| == Min(keep(uid), |marks|)
  {
    if ClearCut(marks, keep(uid)) {
      forall trace | IsComplete(trace, keep, uid, marks)
        ensures |Survivors(trace[|trace| - 1], uid)| == Min(keep(uid), |marks|)
      {
        SurvivorsAreTheNewest(trace, keep, uid);
      }
    } else {
      var trace := TiesLoseRoots(marks, uid, keep);
    }
  }

  function KeepOne(uid: nat): nat {
    1
  }

  /** Two retained sessions with equal times and one root to keep can lose both. */
  lemma TiesCanLoseEverything() returns (trace: seq<World>)
    ensures IsRun(trace, KeepOne, false) && AllFinished(trace[|trace| - 1], 0)
    ensures MarkedBy(trace[|trace| - 1], 0) == map[0 := 5, 1 := 5]
    ensures !ClearCut(MarkedBy(trace[|trace| - 1], 0), KeepOne(0))
    ensures Survivors(trace[|trace| - 1], 0) == {}
  {
    var marks: map<RootId, int> := map[0 := 5, 1 := 5];
    assert StrictlyNewer(marks, 0) == {} && NoOlder(marks, 0) == {1};
    trace := TiesLoseRoots(marks, 0, KeepOne);
  }
}
