/** Who returns with a corpus (`dagcorpus.py`: `_shared_dag_corpus`, `_write_dag_corpus`): a process
    whose own steps do not fail returns, with what was published if anything was, and only faults
    make anyone raise. */
module CorpusReturns {
  import opened Prelude
  import opened Json
  import opened CorpusCodec
  import opened CorpusElection

  /** What goes wrong: a death, an error of the parse, or one of the file system. */
  predicate IsFault(step: Step) {
    || step.Die? || step.OpenFails? || step.ReadFails? || step.BuildFails? || step.WriteFails? || step.UnlinkFails?
  }

  predicate NoFault(steps: seq<Step>) {
    forall i :: 0 <= i < |steps| ==> !IsFault(steps[i])
  }

  /** `w'` is reached from `w` by steps of the process `p` alone. */
  ghost predicate ReachesAlone(codec: Codec, w: World, p: Pid, steps: seq<Step>, w': World)
    decreases |steps|
  {
    if steps == [] then w' == w
    else
      && steps[0].p == p && !steps[0].Arrive? && Enabled(w, steps[0])
      && ReachesAlone(codec, After(codec, w, steps[0]), p, steps[1..], w')
  }

  /** The process returns with `corpus` by these steps of its own, none of them a fault: the corpus is
      then what is published, nothing was given up, and nothing parsed if something was published. */
  ghost predicate ReturnsBy(codec: Codec, w: World, p: Pid, steps: seq<Step>, w': World, corpus: DagCorpus) {
    && ReachesAlone(codec, w, p, steps, w') && NoFault(steps)
    && PhaseOf(w', p) == Returned(corpus) && w'.aborted == w.aborted
    && w.builds <= w'.builds <= w.builds + 1 && (w.artifact.Some? ==> w'.builds == w.builds)
  }

  lemma ReturnsAfter(codec: Codec, w: World, p: Pid, step: Step, steps: seq<Step>, w': World, corpus: DagCorpus)
    requires step.p == p && !step.Arrive? && Enabled(w, step) && !IsFault(step)
    requires ReturnsBy(codec, After(codec, w, step), p, steps, w', corpus)
    requires After(codec, w, step).aborted == w.aborted && (w.artifact.Some? ==> After(codec, w, step).artifact.Some?)
    requires w.builds <= After(codec, w, step).builds
    requires w'.builds <= w.builds + 1 && (w.artifact.Some? ==> w'.builds == w.builds)
    ensures ReturnsBy(codec, w, p, [step] + steps, w', corpus)
  {
  }

  lemma ReturnsFromRelease(codec: Codec, w: World, p: Pid, corpus: DagCorpus) returns (steps: seq<Step>, w': World)
    requires PhaseOf(w, p) == Releasing(Some(corpus))
    ensures ReturnsBy(codec, w, p, steps, w', corpus) && |steps| <= 1 && w'.builds == w.builds
  {
    w' := After(codec, w, Release(p));
    var none: seq<Step> := [];
    ReturnsAfter(codec, w, p, Release(p), none, w', corpus);
    steps := [Release(p)] + none;
  }

  lemma ReturnsFromUnlink(codec: Codec, w: World, p: Pid, corpus: DagCorpus) returns (steps: seq<Step>, w': World)
    requires PhaseOf(w, p) == Unlinking(corpus)
    ensures ReturnsBy(codec, w, p, steps, w', corpus) && |steps| <= 2 && w'.builds == w.builds
  {
    var rest;
    rest, w' := ReturnsFromRelease(codec, After(codec, w, Unlinked(p)), p, corpus);
    ReturnsAfter(codec, w, p, Unlinked(p), rest, w', corpus);
    steps := [Unlinked(p)] + rest;
  }

  lemma ReturnsFromRename(codec: Codec, w: World, p: Pid, corpus: DagCorpus) returns (steps: seq<Step>, w': World)
    requires PhaseOf(w, p) == Renaming(corpus) && p in w.temporary
    ensures ReturnsBy(codec, w, p, steps, w', corpus) && |steps| <= 3 && w'.builds == w.builds
  {
    var rest;
    rest, w' := ReturnsFromUnlink(codec, After(codec, w, Rename(p)), p, corpus);
    ReturnsAfter(codec, w, p, Rename(p), rest, w', corpus);
    steps := [Rename(p)] + rest;
  }

  lemma ReturnsFromWrite(codec: Codec, w: World, p: Pid, corpus: DagCorpus) returns (steps: seq<Step>, w': World)
    requires PhaseOf(w, p) == Writing(corpus)
    ensures ReturnsBy(codec, w, p, steps, w', corpus) && |steps| <= 4 && w'.builds == w.builds
  {
    var rest;
    rest, w' := ReturnsFromRename(codec, After(codec, w, FinishTemporary(p)), p, corpus);
    ReturnsAfter(codec, w, p, FinishTemporary(p), rest, w', corpus);
    steps := [FinishTemporary(p)] + rest;
  }

  lemma ReturnsFromOpen(codec: Codec, w: World, p: Pid, corpus: DagCorpus) returns (steps: seq<Step>, w': World)
    requires PhaseOf(w, p) == Opening(corpus)
    ensures ReturnsBy(codec, w, p, steps, w', corpus) && |steps| <= 5 && w'.builds == w.builds
  {
    var rest;
    rest, w' := ReturnsFromWrite(codec, After(codec, w, OpenTemporary(p)), p, corpus);
    ReturnsAfter(codec, w, p, OpenTemporary(p), rest, w', corpus);
    steps := [OpenTemporary(p)] + rest;
  }

  lemma ReturnsFromBuild(codec: Codec, w: World, p: Pid, corpus: DagCorpus) returns (steps: seq<Step>, w': World)
    requires PhaseOf(w, p).Building? && WellKeyed(corpus)
    ensures ReturnsBy(codec, w, p, steps, w', corpus) && |steps| <= 6 && w'.builds == w.builds
  {
    var rest;
    rest, w' := ReturnsFromOpen(codec, After(codec, w, BuildDone(p, corpus)), p, corpus);
    ReturnsAfter(codec, w, p, BuildDone(p, corpus), rest, w', corpus);
    steps := [BuildDone(p, corpus)] + rest;
  }

  /** What the process is to return with: what is published, else its own parse. */
  function Due(w: World, own: DagCorpus): DagCorpus {
    if w.published.Some? then w.published.value else own
  }

  ghost predicate Readable(codec: Codec, w: World) {
    (w.artifact.Some? <==> w.published.Some?) && (w.artifact.Some? ==> Read(codec, w.artifact.value) == w.published)
  }

  lemma ReturnsFromCheck(codec: Codec, w: World, p: Pid, own: DagCorpus) returns (steps: seq<Step>, w': World)
    requires PhaseOf(w, p).Checking? && WellKeyed(own) && Readable(codec, w)
    ensures ReturnsBy(codec, w, p, steps, w', Due(w, own)) && |steps| <= 7
  {
    var next, rest := After(codec, w, Check(p)), [];
    if w.artifact.Some? {
      rest, w' := ReturnsFromRelease(codec, next, p, w.published.value);
    } else {
      rest, w' := ReturnsFromBuild(codec, next, p, own);
    }
    ReturnsAfter(codec, w, p, Check(p), rest, w', Due(w, own));
    steps := [Check(p)] + rest;
  }

  lemma ReturnsFromWait(codec: Codec, w: World, p: Pid, own: DagCorpus) returns (steps: seq<Step>, w': World)
    requires PhaseOf(w, p).Waiting? && w.lock.None? && WellKeyed(own) && Readable(codec, w)
    ensures ReturnsBy(codec, w, p, steps, w', Due(w, own)) && |steps| <= 8
  {
    var rest;
    rest, w' := ReturnsFromCheck(codec, After(codec, w, Acquire(p)), p, own);
    ReturnsAfter(codec, w, p, Acquire(p), rest, w', Due(w, own));
    steps := [Acquire(p)] + rest;
  }

  lemma ReturnsFromStart(codec: Codec, w: World, p: Pid, own: DagCorpus) returns (steps: seq<Step>, w': World)
    requires PhaseOf(w, p).Outside? || PhaseOf(w, p).Raised?
    requires w.lock.None? && WellKeyed(own) && Readable(codec, w)
    ensures ReturnsBy(codec, w, p, steps, w', Due(w, own)) && |steps| <= 9
  {
    var rest;
    rest, w' := ReturnsFromWait(codec, After(codec, w, Begin(p)), p, own);
    ReturnsAfter(codec, w, p, Begin(p), rest, w', Due(w, own));
    steps := [Begin(p)] + rest;
  }

  lemma RunIsReadable(codec: Codec, trace: seq<World>, i: nat)
    requires IsRun(codec, trace) && RoundTrips(codec) && i < |trace|
    ensures Readable(codec, trace[i]) && Inv(codec, trace[i])
  {
    RunsKeepInv(codec, trace, i);
    if trace[i].artifact.Some? {
      ReadsPublished(codec, trace[i]);
    }
  }

  predicate AtWork(phase: Phase) {
    phase.Opening? || phase.Writing? || phase.Renaming? || phase.Unlinking?
  }

  /** In every run, a process that finds the flock free, or has just taken it or begun to parse, returns
      by its own steps when none of them fails: with what is published, and with its own parse when
      nothing is. */
  lemma EveryoneCanReturn(codec: Codec, trace: seq<World>, i: nat, p: Pid, own: DagCorpus)
    returns (steps: seq<Step>, w': World)
    requires IsRun(codec, trace) && RoundTrips(codec) && i < |trace| && p in trace[i].processes && WellKeyed(own)
    requires var phase := PhaseOf(trace[i], p);
             || phase.Checking? || phase.Building?
             || ((phase.Outside? || phase.Raised? || phase.Waiting?) && trace[i].lock.None?)
    ensures ReturnsBy(codec, trace[i], p, steps, w', Due(trace[i], own)) && |steps| <= 9
  {
    var w := trace[i];
    RunIsReadable(codec, trace, i);
    match PhaseOf(w, p)
    case Checking => steps, w' := ReturnsFromCheck(codec, w, p, own);
    case Building => steps, w' := ReturnsFromBuild(codec, w, p, own);
    case Waiting => steps, w' := ReturnsFromWait(codec, w, p, own);
    case _ => steps, w' := ReturnsFromStart(codec, w, p, own);
  }

  /** And one that has parsed returns with its parse. */
  lemma ProducerCanReturn(codec: Codec, trace: seq<World>, i: nat, p: Pid) returns (steps: seq<Step>, w': World)
    requires IsRun(codec, trace) && RoundTrips(codec) && i < |trace| && AtWork(PhaseOf(trace[i], p))
    ensures ReturnsBy(codec, trace[i], p, steps, w', PhaseOf(trace[i], p).corpus) && |steps| <= 5
  {
    var w := trace[i];
    RunIsReadable(codec, trace, i);
    match PhaseOf(w, p)
    case Opening(corpus) => steps, w' := ReturnsFromOpen(codec, w, p, corpus);
    case Writing(corpus) => steps, w' := ReturnsFromWrite(codec, w, p, corpus);
    case Renaming(corpus) => steps, w' := ReturnsFromRename(codec, w, p, corpus);
    case Unlinking(corpus) => steps, w' := ReturnsFromUnlink(codec, w, p, corpus);
  }

  // ----- only faults make anyone raise

  /** A run with the steps it takes. */
  ghost predicate IsCourse(codec: Codec, trace: seq<World>, steps: seq<Step>) {
    && |trace| == |steps| + 1 && trace[0] == FRESH
    && forall i :: 0 <= i < |steps| ==> Enabled(trace[i], steps[i]) && trace[i + 1] == After(codec, trace[i], steps[i])
  }

  function Faults(steps: seq<Step>): nat {
    if steps == [] then 0 else Faults(steps[..|steps| - 1]) + (if IsFault(steps[|steps| - 1]) then 1 else 0)
  }

  predicate HasFailed(phase: Phase) {
    phase == Releasing(None) || phase.Raised? || phase.Dead?
  }

  predicate HolderFailed(w: World) {
    w.lock.Some? && PhaseOf(w, w.lock.value) == Releasing(None)
  }

  ghost predicate FailsByFault(w: World, faults: nat) {
    && w.aborted + (if HolderFailed(w) then 1 else 0) <= faults
    && (faults == 0 ==> forall p :: p in w.processes ==> !HasFailed(w.processes[p]))
  }

  lemma FaultsAccount(codec: Codec, w: World, step: Step, faults: nat)
    requires Exclusive(w) && Readable(codec, w) && Enabled(w, step) && FailsByFault(w, faults)
    ensures FailsByFault(After(codec, w, step), faults + (if IsFault(step) then 1 else 0))
  {
  }

  lemma CourseIsRun(codec: Codec, trace: seq<World>, steps: seq<Step>)
    requires IsCourse(codec, trace, steps)
    ensures IsRun(codec, trace)
  {
  }

  /** Critical sections are given up, and processes raise or die, by faults alone; parses begun number at
      most one more than the faults. */
  lemma {:induction false} OnlyFaultsFail(codec: Codec, trace: seq<World>, steps: seq<Step>, i: nat)
    requires IsCourse(codec, trace, steps) && RoundTrips(codec) && i < |trace|
    ensures FailsByFault(trace[i], Faults(steps[..i])) && trace[i].builds <= 1 + Faults(steps[..i])
  {
    CourseIsRun(codec, trace, steps);
    RunsKeepInv(codec, trace, i);
    if i > 0 {
      OnlyFaultsFail(codec, trace, steps, i - 1);
      RunIsReadable(codec, trace, i - 1);
      assert steps[..i][..i - 1] == steps[..i - 1];
      assert Enabled(trace[i - 1], steps[i - 1]) && trace[i - 1 + 1] == After(codec, trace[i - 1], steps[i - 1]);
      FaultsAccount(codec, trace[i - 1], steps[i - 1], Faults(steps[..i - 1]));
    }
  }
}
