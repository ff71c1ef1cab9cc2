/** Retention of run directories under one storage base (`_airflow_home.py`, and the order
    of `bootstrap`'s cleanup closure): concurrent pytest runs each create a root, then
    discard it, or mark it retained and prune what they then list.

    A run is named by its root. Listing is not atomic: the directory is globbed once and
    each entry's marker read later. `ever`, and a listing's `base`, are history: the
    marker times ever written, and the roots marked when the listing began. */
module RetainedRoots {
  import opened Prelude
  import opened Ordering

  type RootId = nat

  datatype Dir = Dir(uid: nat, marker: Option<int>)

  datatype Phase =
    | Running
    | Discarded
    | Marked
    | Scanning(base: set<RootId>, todo: set<RootId>, seen: map<RootId, int>)
    | Pruning(base: set<RootId>, seen: map<RootId, int>, order: seq<RootId>, next: nat)
    | Finished(base: set<RootId>, seen: map<RootId, int>, order: seq<RootId>)
    | Crashed

  datatype Run = Run(uid: nat, phase: Phase)

  datatype World = World(dirs: map<RootId, Dir>, runs: map<RootId, Run>, ever: map<RootId, int>)

  const EMPTY_BASE := World(map[], map[], map[])

  /** `_retained_siblings`: the listed roots, most recent marker first. Roots with equal
      times stand in the order the directory happened to be listed in. */
  ghost predicate NewestFirst(order: seq<RootId>, seen: map<RootId, int>) {
    && NoDuplicates(order)
    && (forall r :: r in order <==> r in seen)
    && (forall i, j :: 0 <= i < j < |order| ==> seen[order[i]] >= seen[order[j]])
  }

  // ----- steps

  predicate Start(w: World, w': World, r: RootId, uid: nat) {
    && r !in w.dirs && r !in w.runs
    && w' == w.(dirs := w.dirs[r := Dir(uid, None)], runs := w.runs[r := Run(uid, Running)])
  }

  predicate At(w: World, r: RootId) {
    r in w.runs
  }

  function Enter(w: World, r: RootId, phase: Phase): World
    requires At(w, r)
  {
    w.(runs := w.runs[r := w.runs[r].(phase := phase)])
  }

  predicate Discard(w: World, w': World, r: RootId) {
    && At(w, r) && w.runs[r].phase.Running?
    && w' == Enter(w, r, Discarded).(dirs := w.dirs - {r})
  }

  predicate Mark(w: World, w': World, r: RootId, time: int) {
    && At(w, r) && w.runs[r].phase.Running?
    && w' == Enter(w, r, Marked).(
             dirs := w.dirs[r := Dir(w.runs[r].uid, Some(time))],
             ever := w.ever[r := time])
  }

  predicate Glob(w: World, w': World, r: RootId) {
    && At(w, r) && w.runs[r].phase.Marked?
    && w' == Enter(w, r, Scanning(w.ever.Keys, w.dirs.Keys, map[]))
  }

  /** Reading one entry's marker; the entry may be unmarked, gone, or another user's. */
  predicate Stat(w: World, w': World, r: RootId, entry: RootId) {
    && At(w, r) && w.runs[r].phase.Scanning?
    && var Run(uid, Scanning(base, todo, seen)) := w.runs[r];
    && entry in todo
    && var counts := entry in w.dirs && w.dirs[entry].marker.Some? && w.dirs[entry].uid == uid;
    w' == Enter(w, r, Scanning(base, todo - {entry},
                               if counts then seen[entry := w.dirs[entry].marker.value] else seen))
  }

  ghost predicate Rank(w: World, w': World, r: RootId, order: seq<RootId>, keep: nat) {
    && At(w, r) && w.runs[r].phase.Scanning? && w.runs[r].phase.todo == {}
    && NewestFirst(order, w.runs[r].phase.seen)
    && w' == Enter(w, r, Pruning(w.runs[r].phase.base, w.runs[r].phase.seen, order, Min(keep, |order|)))
  }

  /** How an `rmtree` goes. One that fails may have deleted the marker already. */
  datatype Removal = Whole | Halfway | Nothing

  function Removed(dirs: map<RootId, Dir>, stale: RootId, removal: Removal): map<RootId, Dir> {
    match removal
    case Whole => dirs - {stale}
    case Halfway => if stale in dirs then dirs[stale := dirs[stale].(marker := None)] else dirs
    case Nothing => dirs
  }

  /** One removal; a failure is only logged. */
  predicate Remove(w: World, w': World, r: RootId, removal: Removal) {
    && At(w, r) && w.runs[r].phase.Pruning? && w.runs[r].phase.next < |w.runs[r].phase.order|
    && var phase := w.runs[r].phase;
    w' == Enter(w, r, phase.(next := phase.next + 1)).(dirs := Removed(w.dirs, phase.order[phase.next], removal))
  }

  predicate Finish(w: World, w': World, r: RootId) {
    && At(w, r) && w.runs[r].phase.Pruning? && w.runs[r].phase.next >= |w.runs[r].phase.order|
    && w' == Enter(w, r, Finished(w.runs[r].phase.base, w.runs[r].phase.seen, w.runs[r].phase.order))
  }

  predicate Crash(w: World, w': World, r: RootId) {
    At(w, r) && !w.runs[r].phase.Discarded? && w' == Enter(w, r, Crashed)
  }

  datatype Step =
    | StartStep(r: RootId, uid: nat)
    | DiscardStep(r: RootId)
    | MarkStep(r: RootId, time: int)
    | GlobStep(r: RootId)
    | StatStep(r: RootId, entry: RootId)
    | RankStep(r: RootId, order: seq<RootId>)
    | RemoveStep(r: RootId, removal: Removal)
    | FinishStep(r: RootId)
    | CrashStep(r: RootId)

  ghost predicate Takes(w: World, w': World, step: Step, keep: nat -> nat) {
    match step
    case StartStep(r, uid) => Start(w, w', r, uid)
    case DiscardStep(r) => Discard(w, w', r)
    case MarkStep(r, time) => Mark(w, w', r, time)
    case GlobStep(r) => Glob(w, w', r)
    case StatStep(r, entry) => Stat(w, w', r, entry)
    case RankStep(r, order) => At(w, r) && Rank(w, w', r, order, keep(w.runs[r].uid))
    case RemoveStep(r, removal) => Remove(w, w', r, removal)
    case FinishStep(r) => Finish(w, w', r)
    case CrashStep(r) => Crash(w, w', r)
  }

  predicate IsFault(step: Step) {
    step.CrashStep? || (step.RemoveStep? && !step.removal.Whole?)
  }

  /** One step of one run; `keep` gives each user's retention count, and `faults` allows
      removals to fail and runs to crash. */
  ghost predicate Next(w: World, w': World, keep: nat -> nat, faults: bool) {
    exists step :: (IsFault(step) ==> faults) && Takes(w, w', step, keep)
  }

  ghost predicate IsRun(trace: seq<World>, keep: nat -> nat, faults: bool) {
    && trace != [] && trace[0] == EMPTY_BASE
    && forall i :: 0 <= i < |trace| - 1 ==> Next(trace[i], trace[i + 1], keep, faults)
  }

  // ----- what is promised

  /** The marker times a user ever wrote. */
  function MarkedBy(w: World, uid: nat): map<RootId, int> {
    map r | r in w.ever && r in w.runs && w.runs[r].uid == uid :: w.ever[r]
  }

  /** The user's marked roots still on disk. */
  function Survivors(w: World, uid: nat): set<RootId> {
    set r | r in w.dirs && w.dirs[r].uid == uid && w.dirs[r].marker.Some?
  }

  function NoOlder(marks: map<RootId, int>, r: RootId): set<RootId>
    requires r in marks
  {
    set x | x in marks && x != r && marks[x] >= marks[r]
  }

  /** The roots with fewer than `keep` others marked no older. */
  function Newest(marks: map<RootId, int>, keep: nat): set<RootId> {
    set r | r in marks && |NoOlder(marks, r)| < keep
  }

  function StrictlyNewer(marks: map<RootId, int>, r: RootId): set<RootId>
    requires r in marks
  {
    set x | x in marks && marks[x] > marks[r]
  }

  /** No two equal times stand on both sides of the cut after the `keep` newest; distinct
      times always satisfy it. */
  predicate ClearCut(marks: map<RootId, int>, keep: nat) {
    forall r :: r in marks ==> |StrictlyNewer(marks, r)| >= keep || |NoOlder(marks, r)| < keep
  }

  // ----- safety, whatever fails

  ghost predicate PhaseOk(w: World, r: RootId, keep: nat -> nat)
    requires At(w, r)
  {
    match w.runs[r].phase
    case Running => r in w.dirs && r !in w.ever
    case Discarded => r !in w.dirs && r !in w.ever
    case Marked => r in w.ever
    case Scanning(_, _, seen) => r in w.ever && SeenOk(w, w.runs[r].uid, seen)
    case Pruning(_, seen, order, next) =>
      r in w.ever && SeenOk(w, w.runs[r].uid, seen) && NewestFirst(order, seen) &&
      next >= Min(keep(w.runs[r].uid), |order|)
    case Finished(_, seen, order) => r in w.ever && SeenOk(w, w.runs[r].uid, seen) && NewestFirst(order, seen)
    case Crashed => true
  }

  ghost predicate SeenOk(w: World, uid: nat, seen: map<RootId, int>) {
    forall x :: x in seen ==> x in w.ever && seen[x] == w.ever[x] && At(w, x) && w.runs[x].uid == uid
  }

  predicate Retained(w: World, r: RootId) {
    r in w.dirs && w.dirs[r].marker.Some?
  }

  /** A marked root is on disk with its marker, or at least `keep` of its user's roots are marked no older. */
  ghost predicate KeptOrOutranked(w: World, r: RootId, keep: nat -> nat)
    requires At(w, r) && r in w.ever
  {
    Retained(w, r) || |NoOlder(MarkedBy(w, w.runs[r].uid), r)| >= keep(w.runs[r].uid)
  }

  ghost predicate DirOk(w: World, r: RootId)
    requires r in w.dirs
  {
    && At(w, r) && w.dirs[r].uid == w.runs[r].uid
    && (w.dirs[r].marker.Some? ==> r in w.ever && w.dirs[r].marker.value == w.ever[r])
  }

  ghost predicate Safe(w: World, keep: nat -> nat) {
    && (forall r :: r in w.ever ==> At(w, r))
    && (forall r :: r in w.dirs ==> DirOk(w, r))
    && (forall r :: At(w, r) ==> PhaseOk(w, r, keep))
    && (forall r :: r in w.ever && At(w, r) ==> KeptOrOutranked(w, r, keep))
  }

  lemma {:induction false} SubsetSize<T>(small: set<T>, large: set<T>)
    requires small <= large
    ensures |small| <= |large|
  {
    assert |large - small| + |small| == |large| by { assert large == (large - small) + small; }
  }

  /** In a newest-first listing, the roots before position `i` are no older than the `i`th. */
  lemma ListingOutranks(w: World, uid: nat, seen: map<RootId, int>, order: seq<RootId>, i: nat)
    requires SeenOk(w, uid, seen) && NewestFirst(order, seen) && i < |order|
    ensures order[i] in MarkedBy(w, uid)
    ensures |NoOlder(MarkedBy(w, uid), order[i])| >= i
  {
    var marks := MarkedBy(w, uid);
    assert order[i] in order;
    assert order[i] in marks;
    var before := order[..i];
    assert NoDuplicates(before);
    DistinctSize(before);
    forall x | x in before ensures x in NoOlder(marks, order[i]) {
      var j :| 0 <= j < i && before[j] == x;
      assert x == order[j] && x in order;
      assert seen[order[j]] >= seen[order[i]];
    }
    SubsetSize(Elements(before), NoOlder(marks, order[i]));
  }

  /** More marks only add to the roots that are no older. */
  lemma OutrankedStays(w: World, w': World, r: RootId, keep: nat -> nat)
    requires At(w, r) && r in w.ever && KeptOrOutranked(w, r, keep)
    requires forall x :: At(w, x) ==> At(w', x) && w'.runs[x].uid == w.runs[x].uid
    requires forall x :: x in w.ever ==> x in w'.ever && w'.ever[x] == w.ever[x]
    requires Retained(w, r) ==> Retained(w', r)
    ensures KeptOrOutranked(w', r, keep)
  {
    var uid := w.runs[r].uid;
    SubsetSize(NoOlder(MarkedBy(w, uid), r), NoOlder(MarkedBy(w', uid), r));
  }

  /** Steps that leave directories and marks alone keep safety if the new phase is in order. */
  lemma SafeAfterEnter(w: World, r: RootId, phase: Phase, keep: nat -> nat)
    requires Safe(w, keep) && At(w, r)
    requires PhaseOk(Enter(w, r, phase), r, keep)
    ensures Safe(Enter(w, r, phase), keep)
  {
    var w' := Enter(w, r, phase);
    forall x | At(w', x) ensures PhaseOk(w', x, keep) {
      if x != r { assert PhaseOk(w, x, keep); }
    }
    forall x | x in w'.dirs ensures DirOk(w', x) { assert DirOk(w, x); }
    forall x | x in w'.ever && At(w', x) ensures KeptOrOutranked(w', x, keep) {
      OutrankedStays(w, w', x, keep);
    }
  }

  lemma SafeAfterStart(w: World, w': World, r: RootId, uid: nat, keep: nat -> nat)
    requires Safe(w, keep) && Start(w, w', r, uid)
    ensures Safe(w', keep)
  {
    forall x | At(w', x) ensures PhaseOk(w', x, keep) {
      if x != r { assert PhaseOk(w, x, keep); } else { assert r !in w.ever; }
    }
    forall x | x in w'.dirs ensures DirOk(w', x) {
      if x != r { assert DirOk(w, x); } else { assert r !in w.ever; }
    }
    forall x | x in w'.ever && At(w', x) ensures KeptOrOutranked(w', x, keep) {
      OutrankedStays(w, w', x, keep);
    }
  }

  lemma SafeAfterMark(w: World, w': World, r: RootId, time: int, keep: nat -> nat)
    requires Safe(w, keep) && Mark(w, w', r, time)
    ensures Safe(w', keep)
  {
    assert PhaseOk(w, r, keep);
    forall x | At(w', x) ensures PhaseOk(w', x, keep) { assert PhaseOk(w, x, keep); }
    forall x | x in w'.dirs ensures DirOk(w', x) { if x != r { assert DirOk(w, x); } }
    forall x | x in w'.ever && At(w', x) ensures KeptOrOutranked(w', x, keep) {
      if x != r { OutrankedStays(w, w', x, keep); }
    }
  }

  lemma SafeAfterDiscard(w: World, w': World, r: RootId, keep: nat -> nat)
    requires Safe(w, keep) && Discard(w, w', r)
    ensures Safe(w', keep)
  {
    assert PhaseOk(w, r, keep);
    forall x | At(w', x) ensures PhaseOk(w', x, keep) { assert PhaseOk(w, x, keep); }
    forall x | x in w'.dirs ensures DirOk(w', x) { assert DirOk(w, x); }
    forall x | x in w'.ever && At(w', x) ensures KeptOrOutranked(w', x, keep) {
      OutrankedStays(w, w', x, keep);
    }
  }

  /** Taking away a root that `keep` others outrank is safe, whole or in part. */
  lemma SafeWithout(w: World, gone: RootId, removal: Removal, keep: nat -> nat)
    requires Safe(w, keep) && gone in w.ever
    requires |NoOlder(MarkedBy(w, w.runs[gone].uid), gone)| >= keep(w.runs[gone].uid)
    ensures Safe(w.(dirs := Removed(w.dirs, gone, removal)), keep)
  {
    var w' := w.(dirs := Removed(w.dirs, gone, removal));
    forall x | At(w', x) ensures PhaseOk(w', x, keep) {
      assert PhaseOk(w, x, keep);
    }
    forall x | x in w'.dirs ensures DirOk(w', x) { assert DirOk(w, x); }
    forall x | x in w'.ever && At(w', x) ensures KeptOrOutranked(w', x, keep) {
      assert KeptOrOutranked(w, x, keep);
      assert MarkedBy(w', w.runs[x].uid) == MarkedBy(w, w.runs[x].uid);
    }
  }

  /** What a pruning run is about to remove is outranked. */
  lemma PrunedIsOutranked(w: World, r: RootId, keep: nat -> nat)
    requires At(w, r) && w.runs[r].phase.Pruning? && PhaseOk(w, r, keep)
    requires w.runs[r].phase.next < |w.runs[r].phase.order|
    ensures var gone := w.runs[r].phase.order[w.runs[r].phase.next];
            && gone in w.ever && At(w, gone) && w.runs[gone].uid == w.runs[r].uid
            && |NoOlder(MarkedBy(w, w.runs[gone].uid), gone)| >= keep(w.runs[gone].uid)
  {
    var phase := w.runs[r].phase;
    ListingOutranks(w, w.runs[r].uid, phase.seen, phase.order, phase.next);
    assert phase.order[phase.next] in MarkedBy(w, w.runs[r].uid);
  }

  lemma SafeAfterRemove(w: World, w': World, r: RootId, removal: Removal, keep: nat -> nat)
    requires Safe(w, keep) && Remove(w, w', r, removal)
    ensures Safe(w', keep)
  {
    assert PhaseOk(w, r, keep);
    var gone := w.runs[r].phase.order[w.runs[r].phase.next];
    PrunedIsOutranked(w, r, keep);
    SafeWithout(w, gone, removal, keep);
    var pruned := w.(dirs := Removed(w.dirs, gone, removal));
    assert PhaseOk(pruned, r, keep);
    SafeAfterEnter(pruned, r, w'.runs[r].phase, keep);
    assert w' == Enter(pruned, r, w'.runs[r].phase);
  }

  lemma SafeAfterStat(w: World, w': World, r: RootId, entry: RootId, keep: nat -> nat)
    requires Safe(w, keep) && Stat(w, w', r, entry)
    ensures Safe(w', keep)
  {
    assert PhaseOk(w, r, keep);
    if entry in w.dirs { assert DirOk(w, entry); }
    SafeAfterEnter(w, r, w'.runs[r].phase, keep);
  }

  lemma SafeAfterRank(w: World, w': World, r: RootId, order: seq<RootId>, keep: nat -> nat)
    requires Safe(w, keep) && At(w, r) && Rank(w, w', r, order, keep(w.runs[r].uid))
    ensures Safe(w', keep)
  {
    assert PhaseOk(w, r, keep);
    SafeAfterEnter(w, r, w'.runs[r].phase, keep);
  }

  lemma SafeAfterMove(w: World, w': World, r: RootId, keep: nat -> nat)
    requires Safe(w, keep) && (Glob(w, w', r) || Finish(w, w', r) || Crash(w, w', r))
    ensures Safe(w', keep)
  {
    assert PhaseOk(w, r, keep);
    SafeAfterEnter(w, r, w'.runs[r].phase, keep);
  }

  lemma SafeAfter(w: World, w': World, step: Step, keep: nat -> nat)
    requires Safe(w, keep) && Takes(w, w', step, keep)
    ensures Safe(w', keep)
  {
    match step
    case StartStep(r, uid) => SafeAfterStart(w, w', r, uid, keep);
    case DiscardStep(r) => SafeAfterDiscard(w, w', r, keep);
    case MarkStep(r, time) => SafeAfterMark(w, w', r, time, keep);
    case StatStep(r, entry) => SafeAfterStat(w, w', r, entry, keep);
    case RankStep(r, order) => SafeAfterRank(w, w', r, order, keep);
    case RemoveStep(r, removal) => SafeAfterRemove(w, w', r, removal, keep);
    case GlobStep(r) => SafeAfterMove(w, w', r, keep);
    case FinishStep(r) => SafeAfterMove(w, w', r, keep);
    case CrashStep(r) => SafeAfterMove(w, w', r, keep);
  }

  lemma {:induction false} RunIsSafe(trace: seq<World>, keep: nat -> nat, faults: bool)
    requires IsRun(trace, keep, faults)
    ensures Safe(trace[|trace| - 1], keep)
  {
    if |trace| > 1 {
      var last := |trace| - 1;
      var before := trace[..last];
      forall i | 0 <= i < |before| - 1 ensures Next(before[i], before[i + 1], keep, faults) {
        assert Next(trace[i], trace[i + 1], keep, faults);
      }
      RunIsSafe(before, keep, faults);
      assert Next(trace[last - 1], trace[last - 1 + 1], keep, faults);
      var step :| Takes(trace[last - 1], trace[last], step, keep);
      SafeAfter(trace[last - 1], trace[last], step, keep);
    }
  }

  /** However runs interleave, fail and crash: the root of a run in flight is on disk, and a
      marked root leaves it only once `keep` roots of its user were marked no older. */
  lemma NothingNeededIsPruned(trace: seq<World>, keep: nat -> nat, faults: bool, r: RootId)
    requires IsRun(trace, keep, faults)
    ensures var w := trace[|trace| - 1];
            && (At(w, r) && w.runs[r].phase.Running? ==> r in w.dirs && w.dirs[r] == Dir(w.runs[r].uid, None))
            && (At(w, r) && r in w.ever && !Retained(w, r) ==>
                  |NoOlder(MarkedBy(w, w.runs[r].uid), r)| >= keep(w.runs[r].uid))
  {
    RunIsSafe(trace, keep, faults);
    var w := trace[|trace| - 1];
    if At(w, r) {
      assert PhaseOk(w, r, keep);
      if r in w.dirs { assert DirOk(w, r); }
      if r in w.ever { assert KeptOrOutranked(w, r, keep); }
    }
  }

  // ----- completeness, when nothing fails

  predicate HasListed(phase: Phase) {
    phase.Scanning? || phase.Pruning? || phase.Finished?
  }

  /** Positions of `order` already removed: from the retention count up to `next`. */
  ghost predicate RemovedUpTo(w: World, order: seq<RootId>, keep: nat, next: nat) {
    forall j :: Min(keep, |order|) <= j < next && j < |order| ==> order[j] !in w.dirs
  }

  /** Every root marked before the listing began, of the same user and still retained, is in
      the listing or yet to be read. */
  ghost predicate CoversBase(w: World, uid: nat, base: set<RootId>, todo: set<RootId>, seen: map<RootId, int>) {
    forall x :: x in base && Retained(w, x) && At(w, x) && w.runs[x].uid == uid ==> x in todo || x in seen
  }

  ghost predicate ListingOk(w: World, r: RootId, keep: nat -> nat)
    requires At(w, r)
  {
    var uid := w.runs[r].uid;
    match w.runs[r].phase
    case Scanning(base, todo, seen) => base <= w.ever.Keys && r in base && CoversBase(w, uid, base, todo, seen)
    case Pruning(base, seen, order, next) =>
      base <= w.ever.Keys && r in base && CoversBase(w, uid, base, {}, seen) && RemovedUpTo(w, order, keep(uid), next)
    case Finished(base, seen, order) =>
      base <= w.ever.Keys && r in base && CoversBase(w, uid, base, {}, seen) &&
      RemovedUpTo(w, order, keep(uid), |order|)
    case Crashed => false
    case _ => true
  }

  /** Listings began one after another, so what was marked before them is a chain. */
  ghost predicate Chained(w: World) {
    forall p, q :: At(w, p) && At(w, q) && HasListed(w.runs[p].phase) && HasListed(w.runs[q].phase) ==>
                     w.runs[p].phase.base <= w.runs[q].phase.base || w.runs[q].phase.base <= w.runs[p].phase.base
  }

  ghost predicate Thorough(w: World, keep: nat -> nat) {
    (forall r :: At(w, r) ==> ListingOk(w, r, keep)) && Chained(w)
  }

  /** A listing stays in order when no root it covers or removed comes back to disk. */
  lemma ListingStays(w: World, w': World, r: RootId, keep: nat -> nat)
    requires Safe(w, keep) && At(w, r) && ListingOk(w, r, keep)
    requires At(w', r) && w'.runs[r] == w.runs[r] && w.ever.Keys <= w'.ever.Keys
    requires forall x :: x in w.ever && x in w'.dirs ==> x in w.dirs && (Retained(w', x) ==> Retained(w, x))
    requires forall x :: x in w.ever ==> At(w', x) && w'.runs[x].uid == w.runs[x].uid
    ensures ListingOk(w', r, keep)
  {
  }

  /** What a step leaves alone: marked roots stay with their users and never come back to
      disk, and the other runs do not move. */
  lemma StepFrame(w: World, w': World, step: Step, keep: nat -> nat)
    requires Safe(w, keep) && Takes(w, w', step, keep)
    ensures forall x :: At(w', x) && x != step.r ==> At(w, x) && w'.runs[x] == w.runs[x]
    ensures forall x :: At(w, x) ==> At(w', x) && w'.runs[x].uid == w.runs[x].uid
    ensures w.ever.Keys <= w'.ever.Keys
    ensures forall x :: x in w.ever && x in w'.dirs ==> x in w.dirs && (Retained(w', x) ==> Retained(w, x))
  {
  }

  lemma OwnListingGlob(w: World, w': World, r: RootId, keep: nat -> nat)
    requires At(w, r) && PhaseOk(w, r, keep) && ListingOk(w, r, keep)
    requires Glob(w, w', r)
    ensures At(w', r) && ListingOk(w', r, keep)
  {
  }

  lemma OwnListingStat(w: World, w': World, r: RootId, entry: RootId, keep: nat -> nat)
    requires At(w, r) && PhaseOk(w, r, keep) && ListingOk(w, r, keep)
    requires Stat(w, w', r, entry)
    requires entry in w.dirs ==> DirOk(w, entry)
    ensures At(w', r) && ListingOk(w', r, keep)
  {
  }

  lemma OwnListingRank(w: World, w': World, r: RootId, order: seq<RootId>, keep: nat -> nat)
    requires At(w, r) && PhaseOk(w, r, keep) && ListingOk(w, r, keep)
    requires Rank(w, w', r, order, keep(w.runs[r].uid))
    ensures At(w', r) && ListingOk(w', r, keep)
  {
  }

  lemma OwnListingRemove(w: World, w': World, r: RootId, keep: nat -> nat)
    requires At(w, r) && PhaseOk(w, r, keep) && ListingOk(w, r, keep)
    requires Remove(w, w', r, Whole)
    ensures At(w', r) && ListingOk(w', r, keep)
  {
  }

  lemma OwnListingFinish(w: World, w': World, r: RootId, keep: nat -> nat)
    requires At(w, r) && PhaseOk(w, r, keep) && ListingOk(w, r, keep)
    requires Finish(w, w', r)
    ensures At(w', r) && ListingOk(w', r, keep)
  {
  }

  lemma OwnListing(w: World, w': World, step: Step, keep: nat -> nat)
    requires Safe(w, keep) && Thorough(w, keep) && Takes(w, w', step, keep) && !IsFault(step)
    ensures At(w', step.r) && ListingOk(w', step.r, keep)
  {
    if !step.StartStep? {
      assert PhaseOk(w, step.r, keep) && ListingOk(w, step.r, keep);
    }
    match step
    case StartStep(_, _) =>
    case GlobStep(r) => OwnListingGlob(w, w', r, keep);
    case StatStep(r, entry) =>
      assert entry in w.dirs ==> DirOk(w, entry);
      OwnListingStat(w, w', r, entry, keep);
    case RankStep(r, order) => OwnListingRank(w, w', r, order, keep);
    case RemoveStep(r, _) => OwnListingRemove(w, w', r, keep);
    case FinishStep(r) => OwnListingFinish(w, w', r, keep);
    case _ =>
  }

  /** A run's listing is the one it had, or it is just beginning. */
  lemma BaseAfter(w: World, w': World, step: Step, keep: nat -> nat, p: RootId)
    requires Takes(w, w', step, keep) && !IsFault(step)
    requires At(w', p) && HasListed(w'.runs[p].phase)
    requires p != step.r ==> At(w, p) && w'.runs[p] == w.runs[p]
    ensures if p == step.r && step.GlobStep? then w'.runs[p].phase.base == w.ever.Keys
            else At(w, p) && HasListed(w.runs[p].phase) && w'.runs[p].phase.base == w.runs[p].phase.base
  {
  }

  lemma ChainedAfter(w: World, w': World, step: Step, keep: nat -> nat)
    requires Safe(w, keep) && Thorough(w, keep) && Takes(w, w', step, keep) && !IsFault(step)
    ensures Chained(w')
  {
    StepFrame(w, w', step, keep);
    forall p, q | At(w', p) && At(w', q) && HasListed(w'.runs[p].phase) && HasListed(w'.runs[q].phase)
      ensures w'.runs[p].phase.base <= w'.runs[q].phase.base || w'.runs[q].phase.base <= w'.runs[p].phase.base
    {
      BaseAfter(w, w', step, keep, p);
      BaseAfter(w, w', step, keep, q);
      assert At(w, p) ==> ListingOk(w, p, keep);
      assert At(w, q) ==> ListingOk(w, q, keep);
    }
  }

  lemma ThoroughAfter(w: World, w': World, step: Step, keep: nat -> nat)
    requires Safe(w, keep) && Thorough(w, keep) && Takes(w, w', step, keep) && !IsFault(step)
    ensures Thorough(w', keep)
  {
    StepFrame(w, w', step, keep);
    forall x | At(w', x) ensures ListingOk(w', x, keep) {
      if x == step.r {
        OwnListing(w, w', step, keep);
      } else {
        assert ListingOk(w, x, keep);
        ListingStays(w, w', x, keep);
      }
    }
    ChainedAfter(w, w', step, keep);
  }

  lemma {:induction false} RunIsThorough(trace: seq<World>, keep: nat -> nat)
    requires IsRun(trace, keep, false)
    ensures Thorough(trace[|trace| - 1], keep)
  {
    if |trace| > 1 {
      var last := |trace| - 1;
      var before := trace[..last];
      forall i | 0 <= i < |before| - 1 ensures Next(before[i], before[i + 1], keep, false) {
        assert Next(trace[i], trace[i + 1], keep, false);
      }
      RunIsSafe(before, keep, false);
      RunIsThorough(before, keep);
      assert Next(trace[last - 1], trace[last - 1 + 1], keep, false);
      var step :| !IsFault(step) && Takes(trace[last - 1], trace[last], step, keep);
      ThoroughAfter(trace[last - 1], trace[last], step, keep);
    }
  }

  /** Among finished runs, one began its listing after every other had marked. */
  lemma {:induction false} LastListing(w: World, keep: nat -> nat, finished: set<RootId>) returns (q: RootId)
    requires Thorough(w, keep) && finished != {}
    requires forall r :: r in finished ==> At(w, r) && w.runs[r].phase.Finished?
    ensures q in finished && finished <= w.runs[q].phase.base
  {
    var r :| r in finished;
    assert ListingOk(w, r, keep);
    if finished == {r} {
      q := r;
    } else {
      var p := LastListing(w, keep, finished - {r});
      assert ListingOk(w, p, keep);
      q := if w.runs[r].phase.base <= w.runs[p].phase.base then p else r;
    }
  }

  lemma {:induction false} Oldest(marks: map<RootId, int>) returns (r: RootId)
    requires marks != map[]
    ensures r in marks && forall x :: x in marks ==> marks[x] >= marks[r]
    decreases |marks|
  {
    r :| r in marks;
    var rest := marks - {r};
    if rest != map[] {
      assert rest.Keys < marks.Keys;
      assert |rest.Keys| < |marks.Keys| by { SubsetSize(rest.Keys + {r}, marks.Keys); }
      var p := Oldest(rest);
      if marks[p] < marks[r] { r := p; }
    } else {
      assert marks.Keys - {r} == rest.Keys;
    }
  }

  /** Never more than `keep` roots have fewer than `keep` others marked no older. */
  lemma NewestAtMost(marks: map<RootId, int>, keep: nat)
    ensures |Newest(marks, keep)| <= keep
  {
    var newest := Newest(marks, keep);
    if newest != {} {
      var among := map r | r in newest :: marks[r];
      assert among.Keys == newest;
      var r := Oldest(among);
      SubsetSize(newest - {r}, NoOlder(marks, r));
      assert |newest - {r}| == |newest| - 1;
    }
  }

  /** With a clear cut the `keep` newest number `keep`, or are all of them. */
  lemma NewestSize(marks: map<RootId, int>, keep: nat)
    requires ClearCut(marks, keep)
    ensures |Newest(marks, keep)| == Min(keep, |marks|)
  {
    NewestAtLeast(marks, keep);
    NewestAtMost(marks, keep);
    SubsetSize(Newest(marks, keep), marks.Keys);
  }

  lemma {:induction false} NewestAtLeast(marks: map<RootId, int>, keep: nat)
    requires ClearCut(marks, keep)
    ensures |Newest(marks, keep)| >= Min(keep, |marks|)
    decreases |marks|
  {
    if |marks| > keep {
      var r := Oldest(marks);
      var rest := marks - {r};
      assert rest.Keys == marks.Keys - {r};
      forall x | x in rest
        ensures StrictlyNewer(rest, x) == StrictlyNewer(marks, x) && |NoOlder(rest, x)| <= |NoOlder(marks, x)|
      {
        SubsetSize(NoOlder(rest, x), NoOlder(marks, x));
      }
      NewestAtLeast(rest, keep);
      forall x | x in Newest(rest, keep) ensures x in Newest(marks, keep) {
        SubsetSize(StrictlyNewer(rest, x), NoOlder(rest, x));
      }
      SubsetSize(Newest(rest, keep), Newest(marks, keep));
    } else {
      forall x | x in marks ensures |NoOlder(marks, x)| < |marks| {
        SubsetSize(NoOlder(marks, x), marks.Keys - {x});
      }
      assert Newest(marks, keep) == marks.Keys;
    }
  }

  lemma EqualTimesRankAlike(marks: map<RootId, int>, x: RootId, r: RootId)
    requires x in marks && r in marks && marks[x] == marks[r]
    ensures |NoOlder(marks, r)| == |NoOlder(marks, x)|
  {
    if x != r {
      assert NoOlder(marks, r) == NoOlder(marks, x) - {r} + {x};
    }
  }

  lemma NewestIsNewer(marks: map<RootId, int>, keep: nat, x: RootId, r: RootId)
    requires x in Newest(marks, keep) && r in marks && r !in Newest(marks, keep)
    ensures marks[x] > marks[r]
  {
    if marks[x] == marks[r] {
      EqualTimesRankAlike(marks, x, r);
    } else if marks[x] < marks[r] {
      SubsetSize(NoOlder(marks, r), NoOlder(marks, x));
    }
  }

  /** In a listing that covers every mark, one of the newest stands before any other root. */
  lemma NewestStandsBefore(w: World, uid: nat, keep: nat -> nat, q: RootId, x: RootId, i: nat)
    requires Safe(w, keep) && Thorough(w, keep)
    requires At(w, q) && w.runs[q].phase.Finished? && w.runs[q].uid == uid &&
             MarkedBy(w, uid).Keys <= w.runs[q].phase.base
    requires i < |w.runs[q].phase.order| && w.runs[q].phase.order[i] in MarkedBy(w, uid)
    requires w.runs[q].phase.order[i] !in Newest(MarkedBy(w, uid), keep(uid)) &&
             x in Newest(MarkedBy(w, uid), keep(uid))
    ensures x in w.runs[q].phase.order[..i]
  {
    var order, seen := w.runs[q].phase.order, w.runs[q].phase.seen;
    assert PhaseOk(w, q, keep) && ListingOk(w, q, keep);
    NewestIsNewer(MarkedBy(w, uid), keep(uid), x, order[i]);
    NewestSurvives(w, uid, keep, x);
    assert x in seen;
    var j :| 0 <= j < |order| && order[j] == x;
    assert order[i] in order && seen[order[j]] > seen[order[i]];
    assert order[..i][j] == x;
  }

  /** A survivor of the last listing is among the newest: otherwise the newest, all on disk,
      would fill the places before it and it would have been removed. */
  lemma SurvivorIsNewest(w: World, uid: nat, keep: nat -> nat, q: RootId, r: RootId)
    requires Safe(w, keep) && Thorough(w, keep) && ClearCut(MarkedBy(w, uid), keep(uid))
    requires At(w, q) && w.runs[q].phase.Finished? && w.runs[q].uid == uid &&
             MarkedBy(w, uid).Keys <= w.runs[q].phase.base
    requires r in Survivors(w, uid) && r in MarkedBy(w, uid)
    ensures r in Newest(MarkedBy(w, uid), keep(uid))
  {
    var marks, k := MarkedBy(w, uid), keep(uid);
    var order := w.runs[q].phase.order;
    assert PhaseOk(w, q, keep) && ListingOk(w, q, keep);
    assert r in w.runs[q].phase.seen;
    var i :| 0 <= i < |order| && order[i] == r;
    if r !in Newest(marks, k) {
      assert i < k;
      var before := order[..i];
      forall x | x in Newest(marks, k) ensures x in before {
        NewestStandsBefore(w, uid, keep, q, x, i);
      }
      DistinctSize(before);
      SubsetSize(Newest(marks, k), Elements(before));
      NewestSize(marks, k);
      SubsetSize(NoOlder(marks, r), marks.Keys);
    }
  }

  lemma NewestSurvives(w: World, uid: nat, keep: nat -> nat, x: RootId)
    requires Safe(w, keep) && x in Newest(MarkedBy(w, uid), keep(uid))
    ensures x in Survivors(w, uid)
  {
  }

  ghost predicate AllFinished(w: World, uid: nat) {
    forall r :: r in w.ever && At(w, r) && w.runs[r].uid == uid ==> w.runs[r].phase.Finished?
  }

  /** Once every run of a user that marked its root has finished pruning, exactly the `keep`
      newest roots that user ever marked survive: all of them, when there are no more. */
  lemma SurvivorsAreTheNewest(trace: seq<World>, keep: nat -> nat, uid: nat)
    requires IsRun(trace, keep, false) && keep(uid) >= 1
    requires ClearCut(MarkedBy(trace[|trace| - 1], uid), keep(uid))
    requires AllFinished(trace[|trace| - 1], uid)
    ensures var w := trace[|trace| - 1];
            && Survivors(w, uid) == Newest(MarkedBy(w, uid), keep(uid))
            && |Survivors(w, uid)| == Min(keep(uid), |MarkedBy(w, uid)|)
  {
    var w := trace[|trace| - 1];
    var marks := MarkedBy(w, uid);
    RunIsSafe(trace, keep, false);
    RunIsThorough(trace, keep);
    forall x | x in Newest(marks, keep(uid)) ensures x in Survivors(w, uid) {
      NewestSurvives(w, uid, keep, x);
    }
    forall r | r in Survivors(w, uid) ensures r in marks { assert DirOk(w, r); }
    if marks != map[] {
      var q := LastListing(w, keep, marks.Keys);
      forall r | r in Survivors(w, uid) ensures r in Newest(marks, keep(uid)) {
        SurvivorIsNewest(w, uid, keep, q, r);
      }
    }
    NewestSize(marks, keep(uid));
  }

  /** The survivors all stand in the last listing's first `keep` places. */
  lemma SurvivorsStandFirst(w: World, uid: nat, keep: nat -> nat, q: RootId)
    requires Safe(w, keep) && Thorough(w, keep)
    requires At(w, q) && w.runs[q].phase.Finished? && w.runs[q].uid == uid &&
             MarkedBy(w, uid).Keys <= w.runs[q].phase.base
    ensures |Survivors(w, uid)| <= keep(uid)
  {
    var k, order := keep(uid), w.runs[q].phase.order;
    assert PhaseOk(w, q, keep) && ListingOk(w, q, keep);
    var kept := order[..Min(k, |order|)];
    forall x | x in Survivors(w, uid) ensures x in kept {
      assert DirOk(w, x);
      assert x in w.runs[q].phase.seen;
      var j :| 0 <= j < |order| && order[j] == x;
      assert kept[j] == x;
    }
    DistinctSize(kept);
    SubsetSize(Survivors(w, uid), Elements(kept));
  }

  /** Ties or not, the roots that fewer than `keep` others are marked no older than survive, and
      no more than `keep` roots do. */
  lemma SurvivorsBounded(trace: seq<World>, keep: nat -> nat, uid: nat)
    requires IsRun(trace, keep, false) && AllFinished(trace[|trace| - 1], uid)
    ensures var w := trace[|trace| - 1];
            && Newest(MarkedBy(w, uid), keep(uid)) <= Survivors(w, uid) <= MarkedBy(w, uid).Keys
            && |Survivors(w, uid)| <= Min(keep(uid), |MarkedBy(w, uid)|)
  {
    var w := trace[|trace| - 1];
    var marks := MarkedBy(w, uid);
    RunIsSafe(trace, keep, false);
    RunIsThorough(trace, keep);
    forall x | x in Newest(marks, keep(uid)) ensures x in Survivors(w, uid) {
      NewestSurvives(w, uid, keep, x);
    }
    forall r | r in Survivors(w, uid) ensures r in marks { assert DirOk(w, r); }
    SubsetSize(Survivors(w, uid), marks.Keys);
    if marks != map[] {
      var q := LastListing(w, keep, marks.Keys);
      SurvivorsStandFirst(w, uid, keep, q);
    }
  }
}
