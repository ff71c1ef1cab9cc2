/** Electing the process that initialises the metadata database (`_compat/database.py`:
    `initialize_database`, `ensure_database`), as interleaved steps of threads of several
    processes over one run root. A process may die between any two steps, which releases
    its flock. `calls` and `aborted` are history: the `initdb` calls begun, and the critical
    sections that ended by an exception or a death. */
module DatabaseElection {
  import opened Prelude

  type Pid = nat
  type Tid = nat

  datatype Phase =
    | Outside
    | Waiting            // for the flock
    | Checking           // for the sentinel
    | Initialising       // in `initdb`
    | Touching           // the sentinel
    | Releasing(ok: bool)
    | Leaving            // to set the process flag
    | Returned
    | Raised
    | Dead

  datatype Thread = Thread(process: Pid, phase: Phase)
  datatype Process = Process(initialized: bool, ensured: bool, completed: nat)

  datatype World = World(
    threads: map<Tid, Thread>,
    processes: map<Pid, Process>,
    lock: Option<Tid>,
    sentinel: bool,
    ready: bool,
    calls: nat,
    aborted: nat)

  const FRESH := World(map[], map[], None, false, false, 0, 0)

  datatype Step =
    | Arrive(t: Tid, p: Pid)
    | Begin(t: Tid)
    | OpenFails(t: Tid)
    | Acquire(t: Tid)
    | Check(t: Tid)
    | Refuse(t: Tid)
    | InitFails(t: Tid)
    | InitDone(t: Tid)
    | TouchFails(t: Tid)
    | TouchDone(t: Tid)
    | Release(t: Tid)
    | SetEnsured(t: Tid)
    | Die(p: Pid)

  predicate InSection(phase: Phase) {
    phase.Checking? || phase.Initialising? || phase.Touching? || phase.Releasing?
  }

  predicate Inside(w: World, t: Tid) {
    t in w.threads && InSection(w.threads[t].phase)
  }

  predicate Is(w: World, t: Tid, phase: Phase) {
    t in w.threads && w.threads[t].phase == phase && w.threads[t].process in w.processes
  }

  function Go(w: World, t: Tid, phase: Phase): World
    requires t in w.threads
  {
    w.(threads := w.threads[t := w.threads[t].(phase := phase)])
  }

  function Flags(w: World, t: Tid): Process
    requires t in w.threads && w.threads[t].process in w.processes
  {
    w.processes[w.threads[t].process]
  }

  function SetFlags(w: World, t: Tid, flags: Process): World
    requires t in w.threads
  {
    w.(processes := w.processes[w.threads[t].process := flags])
  }

  predicate CanBegin(w: World, t: Tid) {
    Is(w, t, Outside) || Is(w, t, Returned) || Is(w, t, Raised)
  }

  predicate Enabled(w: World, step: Step) {
    match step
    case Arrive(t, p) => t !in w.threads
    case Begin(t) => CanBegin(w, t)
    case OpenFails(t) => Is(w, t, Waiting)
    case Acquire(t) => Is(w, t, Waiting) && w.lock.None?
    case Check(t) => Is(w, t, Checking)
    case Refuse(t) => Is(w, t, Checking) && !w.sentinel
    case InitFails(t) => Is(w, t, Initialising)
    case InitDone(t) => Is(w, t, Initialising)
    case TouchFails(t) => Is(w, t, Touching)
    case TouchDone(t) => Is(w, t, Touching)
    case Release(t) => Is(w, t, Releasing(true)) || Is(w, t, Releasing(false))
    case SetEnsured(t) => Is(w, t, Leaving)
    case Die(p) => p in w.processes
  }

  function AfterDeath(w: World, p: Pid): World {
    var held := w.lock.Some? && w.lock.value in w.threads && w.threads[w.lock.value].process == p;
    var threads := map t | t in w.threads ::
                     if w.threads[t].process == p then w.threads[t].(phase := Dead) else w.threads[t];
    w.(threads := threads, lock := if held then None else w.lock, aborted := w.aborted + (if held then 1 else 0))
  }

  function After(w: World, step: Step): World
    requires Enabled(w, step)
  {
    match step
    case Arrive(t, p) =>
      w.(threads := w.threads[t := Thread(p, Outside)],
      processes := if p in w.processes then w.processes else w.processes[p := Process(false, false, 0)])
    case Begin(t) => Go(w, t, if Flags(w, t).ensured then Returned else Waiting)
    case OpenFails(t) => Go(w, t, Raised)
    case Acquire(t) => Go(w, t, Checking).(lock := Some(t))
    case Check(t) =>
      if w.sentinel then Go(w, t, Releasing(true))
      else if Flags(w, t).initialized then Go(w, t, Touching)
      else Go(w, t, Initialising).(calls := w.calls + 1)
    case Refuse(t) => Go(w, t, Releasing(false))
    case InitFails(t) => Go(w, t, Releasing(false))
    case InitDone(t) =>
      var flags := Flags(w, t);
      Go(SetFlags(w, t, flags.(initialized := true, completed := flags.completed + 1)), t, Touching).(ready := true)
    case TouchFails(t) => Go(w, t, Releasing(false))
    case TouchDone(t) => Go(w, t, Releasing(true)).(sentinel := true)
    case Release(t) =>
      if w.threads[t].phase.ok then Go(w, t, Leaving).(lock := None)
      else Go(w, t, Raised).(lock := None, aborted := w.aborted + 1)
    case SetEnsured(t) => Go(SetFlags(w, t, Flags(w, t).(ensured := true)), t, Returned)
    case Die(p) => AfterDeath(w, p)
  }

  ghost predicate Next(w: World, w': World) {
    exists step :: Enabled(w, step) && w' == After(w, step)
  }

  ghost predicate IsRun(trace: seq<World>) {
    && trace != [] && trace[0] == FRESH
    && forall i :: 0 <= i < |trace| - 1 ==> Next(trace[i], trace[i + 1])
  }

  // ----- what every step keeps

  /** The flock is held exactly by the one thread inside the critical section. */
  ghost predicate Exclusive(w: World) {
    && (forall t :: t in w.threads && InSection(w.threads[t].phase) ==> w.lock == Some(t))
    && (w.lock.Some? ==> w.lock.value in w.threads && InSection(w.threads[w.lock.value].phase))
    && (forall t :: t in w.threads ==> w.threads[t].process in w.processes)
  }

  /** The sentinel, the flags and every thread about to return say truly that the database
      is initialised. */
  ghost predicate Truthful(w: World) {
    && (w.sentinel ==> w.ready)
    && (forall p :: p in w.processes && w.processes[p].initialized ==> w.ready)
    && (forall p :: p in w.processes && w.processes[p].ensured ==> w.sentinel)
    && (forall t :: t in w.threads ==> w.threads[t].phase.Touching? ==> w.ready)
    && (forall t :: t in w.threads ==> Vouches(w.threads[t].phase) ==> w.sentinel)
  }

  predicate Vouches(phase: Phase) {
    phase == Releasing(true) || phase.Leaving? || phase.Returned?
  }

  /** No process completes `initdb` twice. */
  ghost predicate OncePerProcess(w: World) {
    && (forall p :: p in w.processes ==> w.processes[p].completed == (if w.processes[p].initialized then 1 else 0))
    && (forall t :: t in w.threads && w.threads[t].phase.Initialising? && w.threads[t].process in w.processes ==>
                      !w.processes[w.threads[t].process].initialized)
  }

  /** Whether the current critical section may have called `initdb`. */
  predicate MayHaveCalled(w: World) {
    w.lock.Some? && w.lock.value in w.threads &&
    var phase := w.threads[w.lock.value].phase;
    phase.Initialising? || phase.Touching? || phase == Releasing(false)
  }

  ghost predicate Counted(w: World) {
    w.calls <= w.aborted + (if w.sentinel || MayHaveCalled(w) then 1 else 0)
  }

  ghost predicate Inv(w: World) {
    Exclusive(w) && Truthful(w) && OncePerProcess(w) && Counted(w)
  }

  lemma KeepsExclusive(w: World, step: Step)
    requires Inv(w) && Enabled(w, step)
    ensures Exclusive(After(w, step))
  {
    if step.Die? {
      DeathKeepsExclusive(w, step.p);
    }
  }

  lemma DeathKeepsExclusive(w: World, p: Pid)
    requires Exclusive(w)
    ensures Exclusive(AfterDeath(w, p))
  {
  }

  lemma KeepsTruthful(w: World, step: Step)
    requires Inv(w) && Enabled(w, step)
    ensures Truthful(After(w, step))
  {
  }

  lemma KeepsOncePerProcess(w: World, step: Step)
    requires Inv(w) && Enabled(w, step)
    ensures OncePerProcess(After(w, step))
  {
  }

  lemma KeepsCount(w: World, step: Step)
    requires Inv(w) && Enabled(w, step)
    ensures Counted(After(w, step))
  {
  }

  lemma {:induction false} RunsKeepInv(trace: seq<World>, i: nat)
    requires IsRun(trace) && i < |trace|
    ensures Inv(trace[i])
  {
    if i > 0 {
      RunsKeepInv(trace, i - 1);
      assert Next(trace[i - 1], trace[i - 1 + 1]);
      var step :| Enabled(trace[i - 1], step) && trace[i] == After(trace[i - 1], step);
      KeepsExclusive(trace[i - 1], step);
      KeepsTruthful(trace[i - 1], step);
      KeepsOncePerProcess(trace[i - 1], step);
      KeepsCount(trace[i - 1], step);
    }
  }

  // ----- the election, over every run

  /** One thread in the critical section; whoever has returned has an initialised database;
      `initdb` is called at most once more than critical sections failed. */
  lemma OneInitialiser(trace: seq<World>, i: nat)
    requires IsRun(trace) && i < |trace|
    ensures forall t, u :: Inside(trace[i], t) && Inside(trace[i], u) ==> t == u
    ensures trace[i].sentinel ==> trace[i].ready
    ensures forall p :: p in trace[i].processes && trace[i].processes[p].ensured ==> trace[i].sentinel
    ensures forall t :: t in trace[i].threads && trace[i].threads[t].phase.Returned? ==> trace[i].ready
    ensures forall p :: p in trace[i].processes ==> trace[i].processes[p].completed <= 1
    ensures trace[i].calls <= 1 + trace[i].aborted
  {
    RunsKeepInv(trace, i);
  }

  /** Once the sentinel exists, no later step calls `initdb` or removes it. */
  lemma {:induction false} SettledStays(trace: seq<World>, i: nat, j: nat)
    requires IsRun(trace) && i <= j < |trace| && trace[i].sentinel
    ensures trace[j].sentinel
    ensures trace[j].calls == trace[i].calls
  {
    if i < j {
      SettledStays(trace, i, j - 1);
      assert Next(trace[j - 1], trace[j - 1 + 1]);
    }
  }

  predicate ActsFor(step: Step, t: Tid) {
    match step
    case Die(_) => false
    case Arrive(u, _) => false
    case _ => step.t == t
  }

  /** `w'` is reached from `w` by steps of the thread `t` alone. */
  ghost predicate ReachesAlone(w: World, t: Tid, steps: seq<Step>, w': World)
    decreases |steps|
  {
    if steps == [] then w' == w
    else
      && ActsFor(steps[0], t) && Enabled(w, steps[0])
      && ReachesAlone(After(w, steps[0]), t, steps[1..], w')
  }

  lemma StepsAlone(w: World, t: Tid, step: Step, steps: seq<Step>, w': World)
    requires ActsFor(step, t) && Enabled(w, step) && ReachesAlone(After(w, step), t, steps, w')
    ensures ReachesAlone(w, t, [step] + steps, w')
  {
    assert ([step] + steps)[1..] == steps;
  }

  lemma CanRelease(w: World, t: Tid) returns (steps: seq<Step>, w': World)
    requires Is(w, t, Releasing(true)) || Is(w, t, Releasing(false))
    ensures ReachesAlone(w, t, steps, w') && w'.lock.None? && |steps| <= 1
  {
    w' := After(w, Release(t));
    var none: seq<Step> := [];
    StepsAlone(w, t, Release(t), none, w');
    steps := [Release(t)] + none;
  }

  lemma CanTouch(w: World, t: Tid) returns (steps: seq<Step>, w': World)
    requires Is(w, t, Touching)
    ensures ReachesAlone(w, t, steps, w') && w'.lock.None? && |steps| <= 2
  {
    var rest;
    rest, w' := CanRelease(After(w, TouchDone(t)), t);
    StepsAlone(w, t, TouchDone(t), rest, w');
    steps := [TouchDone(t)] + rest;
  }

  lemma CanInitialise(w: World, t: Tid) returns (steps: seq<Step>, w': World)
    requires Is(w, t, Initialising)
    ensures ReachesAlone(w, t, steps, w') && w'.lock.None? && |steps| <= 3
  {
    var rest;
    rest, w' := CanTouch(After(w, InitDone(t)), t);
    StepsAlone(w, t, InitDone(t), rest, w');
    steps := [InitDone(t)] + rest;
  }

  lemma CanCheck(w: World, t: Tid) returns (steps: seq<Step>, w': World)
    requires Is(w, t, Checking)
    ensures ReachesAlone(w, t, steps, w') && w'.lock.None? && |steps| <= 4
  {
    var next, rest := After(w, Check(t)), [];
    if w.sentinel {
      rest, w' := CanRelease(next, t);
    } else if Flags(w, t).initialized {
      rest, w' := CanTouch(next, t);
    } else {
      rest, w' := CanInitialise(next, t);
    }
    StepsAlone(w, t, Check(t), rest, w');
    steps := [Check(t)] + rest;
  }

  /** The flock is never orphaned: while it is held, its holder alone can go on, in at most four
      steps of its own, until it is free. */
  lemma HolderCanRelease(trace: seq<World>, i: nat) returns (steps: seq<Step>, w': World)
    requires IsRun(trace) && i < |trace| && trace[i].lock.Some?
    ensures Inside(trace[i], trace[i].lock.value)
    ensures ReachesAlone(trace[i], trace[i].lock.value, steps, w') && w'.lock.None? && |steps| <= 4
  {
    RunsKeepInv(trace, i);
    var w, t := trace[i], trace[i].lock.value;
    match w.threads[t].phase
    case Checking => steps, w' := CanCheck(w, t);
    case Initialising => steps, w' := CanInitialise(w, t);
    case Touching => steps, w' := CanTouch(w, t);
    case _ => steps, w' := CanRelease(w, t);
  }

  // ----- and everyone can return

  /** What goes wrong: a death, an error of the program, or a refusal of Airflow's version. */
  predicate IsFault(step: Step) {
    step.Die? || step.OpenFails? || step.Refuse? || step.InitFails? || step.TouchFails?
  }

  predicate NoFault(steps: seq<Step>) {
    forall i :: 0 <= i < |steps| ==> !IsFault(steps[i])
  }

  /** The thread returns by these steps of its own, none of them a fault: the database is then ready
      for all, nothing was given up, and `initdb` was called at most once, and not at all if the
      sentinel was there. */
  ghost predicate ReturnsBy(w: World, t: Tid, steps: seq<Step>, w': World) {
    && ReachesAlone(w, t, steps, w') && NoFault(steps)
    && Is(w', t, Returned) && w'.sentinel && w'.aborted == w.aborted
    && w.calls <= w'.calls <= w.calls + 1 && (w.sentinel ==> w'.calls == w.calls)
  }

  lemma ReturnsAfter(w: World, t: Tid, step: Step, steps: seq<Step>, w': World)
    requires ActsFor(step, t) && Enabled(w, step) && !IsFault(step)
    requires ReturnsBy(After(w, step), t, steps, w')
    requires After(w, step).aborted == w.aborted
    requires After(w, step).calls == w.calls || (!w.sentinel && After(w, step).calls == w.calls + 1 == w'.calls)
    requires w.sentinel ==> After(w, step).sentinel
    ensures ReturnsBy(w, t, [step] + steps, w')
  {
    StepsAlone(w, t, step, steps, w');
  }

  lemma ReturnsFromLeaving(w: World, t: Tid) returns (steps: seq<Step>, w': World)
    requires Is(w, t, Leaving) && w.sentinel
    ensures ReturnsBy(w, t, steps, w') && |steps| <= 1 && w'.calls == w.calls
  {
    w' := After(w, SetEnsured(t));
    var none: seq<Step> := [];
    ReturnsAfter(w, t, SetEnsured(t), none, w');
    steps := [SetEnsured(t)] + none;
  }

  lemma ReturnsFromRelease(w: World, t: Tid) returns (steps: seq<Step>, w': World)
    requires Is(w, t, Releasing(true)) && w.sentinel
    ensures ReturnsBy(w, t, steps, w') && |steps| <= 2 && w'.calls == w.calls
  {
    var rest;
    rest, w' := ReturnsFromLeaving(After(w, Release(t)), t);
    ReturnsAfter(w, t, Release(t), rest, w');
    steps := [Release(t)] + rest;
  }

  lemma ReturnsFromTouch(w: World, t: Tid) returns (steps: seq<Step>, w': World)
    requires Is(w, t, Touching)
    ensures ReturnsBy(w, t, steps, w') && |steps| <= 3 && w'.calls == w.calls
  {
    var rest;
    rest, w' := ReturnsFromRelease(After(w, TouchDone(t)), t);
    ReturnsAfter(w, t, TouchDone(t), rest, w');
    steps := [TouchDone(t)] + rest;
  }

  lemma ReturnsFromInit(w: World, t: Tid) returns (steps: seq<Step>, w': World)
    requires Is(w, t, Initialising)
    ensures ReturnsBy(w, t, steps, w') && |steps| <= 4 && w'.calls == w.calls
  {
    var rest;
    rest, w' := ReturnsFromTouch(After(w, InitDone(t)), t);
    ReturnsAfter(w, t, InitDone(t), rest, w');
    steps := [InitDone(t)] + rest;
  }

  lemma ReturnsFromCheck(w: World, t: Tid) returns (steps: seq<Step>, w': World)
    requires Is(w, t, Checking)
    ensures ReturnsBy(w, t, steps, w') && |steps| <= 5
  {
    var next, rest := After(w, Check(t)), [];
    if w.sentinel {
      rest, w' := ReturnsFromRelease(next, t);
    } else if Flags(w, t).initialized {
      rest, w' := ReturnsFromTouch(next, t);
    } else {
      rest, w' := ReturnsFromInit(next, t);
    }
    ReturnsAfter(w, t, Check(t), rest, w');
    steps := [Check(t)] + rest;
  }

  lemma ReturnsFromWait(w: World, t: Tid) returns (steps: seq<Step>, w': World)
    requires Is(w, t, Waiting) && w.lock.None?
    ensures ReturnsBy(w, t, steps, w') && |steps| <= 6
  {
    var rest;
    rest, w' := ReturnsFromCheck(After(w, Acquire(t)), t);
    ReturnsAfter(w, t, Acquire(t), rest, w');
    steps := [Acquire(t)] + rest;
  }

  lemma ReturnsFromStart(w: World, t: Tid) returns (steps: seq<Step>, w': World)
    requires CanBegin(w, t) && (w.lock.None? || Flags(w, t).ensured) && (Flags(w, t).ensured ==> w.sentinel)
    ensures ReturnsBy(w, t, steps, w') && |steps| <= 7
  {
    var next, rest := After(w, Begin(t)), [];
    if Flags(w, t).ensured {
      w' := next;
    } else {
      rest, w' := ReturnsFromWait(next, t);
    }
    ReturnsAfter(w, t, Begin(t), rest, w');
    steps := [Begin(t)] + rest;
  }

  /** A thread that is alive and has not just failed. */
  predicate MayGoOn(w: World, t: Tid) {
    t in w.threads && !w.threads[t].phase.Dead? && w.threads[t].phase != Releasing(false)
  }

  /** In every run, whoever holds the flock, finds it free, or is of a process that has been through,
      returns by its own steps when none of them fails, whatever the other threads have done. */
  lemma EveryoneCanReturn(trace: seq<World>, i: nat, t: Tid) returns (steps: seq<Step>, w': World)
    requires IsRun(trace) && i < |trace| && MayGoOn(trace[i], t)
    requires trace[i].lock.None? || trace[i].lock == Some(t) || (CanBegin(trace[i], t) && Flags(trace[i], t).ensured)
    ensures ReturnsBy(trace[i], t, steps, w') && |steps| <= 7
  {
    RunsKeepInv(trace, i);
    var w := trace[i];
    match w.threads[t].phase
    case Checking => steps, w' := ReturnsFromCheck(w, t);
    case Initialising => steps, w' := ReturnsFromInit(w, t);
    case Touching => steps, w' := ReturnsFromTouch(w, t);
    case Releasing(_) => steps, w' := ReturnsFromRelease(w, t);
    case Leaving => steps, w' := ReturnsFromLeaving(w, t);
    case Waiting => steps, w' := ReturnsFromWait(w, t);
    case Returned => steps, w' := ReturnsFromReturned(w, t);
    case _ => steps, w' := ReturnsFromStart(w, t);
  }

  lemma ReturnsFromReturned(w: World, t: Tid) returns (steps: seq<Step>, w': World)
    requires Is(w, t, Returned) && w.sentinel
    ensures ReturnsBy(w, t, steps, w') && |steps| <= 7
  {
    steps, w' := [], w;
  }

  // ----- only faults make anyone raise

  /** A run with the steps it takes. */
  ghost predicate IsCourse(trace: seq<World>, steps: seq<Step>) {
    && |trace| == |steps| + 1 && trace[0] == FRESH
    && forall i :: 0 <= i < |steps| ==> Enabled(trace[i], steps[i]) && trace[i + 1] == After(trace[i], steps[i])
  }

  function Faults(steps: seq<Step>): nat {
    if steps == [] then 0 else Faults(steps[..|steps| - 1]) + (if IsFault(steps[|steps| - 1]) then 1 else 0)
  }

  predicate HasFailed(phase: Phase) {
    phase == Releasing(false) || phase.Raised? || phase.Dead?
  }

  predicate HolderFailed(w: World) {
    w.lock.Some? && w.lock.value in w.threads && w.threads[w.lock.value].phase == Releasing(false)
  }

  ghost predicate FailsByFault(w: World, faults: nat) {
    && w.aborted + (if HolderFailed(w) then 1 else 0) <= faults
    && ((exists t :: t in w.threads && HasFailed(w.threads[t].phase)) ==> faults > 0)
  }

  lemma FaultsAccount(w: World, step: Step, faults: nat)
    requires Inv(w) && Enabled(w, step) && FailsByFault(w, faults)
    ensures FailsByFault(After(w, step), faults + (if IsFault(step) then 1 else 0))
  {
    var w', more := After(w, step), faults + (if IsFault(step) then 1 else 0);
    if more == 0 {
      forall t | t in w'.threads ensures !HasFailed(w'.threads[t].phase) {
        assert t in w.threads ==> !HasFailed(w.threads[t].phase);
      }
    }
  }

  lemma CourseIsRun(trace: seq<World>, steps: seq<Step>)
    requires IsCourse(trace, steps)
    ensures IsRun(trace)
  {
    forall i | 0 <= i < |trace| - 1 ensures Next(trace[i], trace[i + 1]) {
      assert Enabled(trace[i], steps[i]);
    }
  }

  lemma FaultsOfStep(trace: seq<World>, steps: seq<Step>, i: nat)
    requires IsCourse(trace, steps) && i < |steps| && FailsByFault(trace[i], Faults(steps[..i]))
    ensures FailsByFault(trace[i + 1], Faults(steps[..i + 1]))
  {
    CourseIsRun(trace, steps);
    RunsKeepInv(trace, i);
    assert steps[..i + 1][..i] == steps[..i];
    FaultsAccount(trace[i], steps[i], Faults(steps[..i]));
  }

  lemma CallsOfFaults(w: World, faults: nat)
    requires Inv(w) && FailsByFault(w, faults)
    ensures w.calls <= 1 + faults
  {
  }

  /** Critical sections are given up, and threads raise or die, by faults alone: no more sections than
      faults, and none and no one without. */
  lemma {:induction false} OnlyFaultsFail(trace: seq<World>, steps: seq<Step>, i: nat)
    requires IsCourse(trace, steps) && i < |trace|
    ensures FailsByFault(trace[i], Faults(steps[..i]))
    ensures trace[i].calls <= 1 + Faults(steps[..i])
  {
    if i > 0 {
      OnlyFaultsFail(trace, steps, i - 1);
      FaultsOfStep(trace, steps, i - 1);
    }
    CourseIsRun(trace, steps);
    RunsKeepInv(trace, i);
    CallsOfFaults(trace[i], Faults(steps[..i]));
  }
}
