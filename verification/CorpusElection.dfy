/** Electing the process that parses the Dag folder and publishes the shared corpus
    (`dagcorpus.py`: `_write_dag_corpus`, `_shared_dag_corpus`, `get_dag_corpus`), as
    interleaved steps of processes over one run root. A file is seen by others as it is on
    disk, so a write shows half-written contents first. `published`, `builds` and `aborted`
    are history: the corpus renamed into place, the parses begun, and the critical sections
    that ended by an exception or a death. */
module CorpusElection {
  import opened Prelude
  import opened Json
  import opened CorpusCodec

  type Pid = nat

  /** How a corpus is turned to file contents and back; `CORPUS_CODEC` is the one used. */
  datatype Codec = Codec(encode: DagCorpus -> Json, decode: Json -> Decoded<DagCorpus>)

  ghost const CORPUS_CODEC := Codec(corpus => Encode(corpus), payload => Decode(payload))

  ghost predicate RoundTrips(codec: Codec) {
    forall corpus :: WellKeyed(corpus) ==> codec.decode(codec.encode(corpus)) == Ok(corpus)
  }

  datatype Contents = HalfWritten | Whole(payload: Json)

  datatype Phase =
    | Outside
    | Waiting                         // for the flock
    | Checking                        // for the artifact
    | Building                        // parsing the Dag folder
    | Opening(corpus: DagCorpus)      // the temporary file
    | Writing(corpus: DagCorpus)
    | Renaming(corpus: DagCorpus)
    | Unlinking(corpus: DagCorpus)    // the temporary name, already gone
    | Releasing(result: Option<DagCorpus>)
    | Returned(corpus: DagCorpus)     // and cached on the session
    | Raised
    | Dead

  datatype World = World(
    processes: map<Pid, Phase>,
    lock: Option<Pid>,
    artifact: Option<Contents>,
    temporary: map<Pid, Contents>,
    published: Option<DagCorpus>,
    builds: nat,
    aborted: nat)

  const FRESH := World(map[], None, None, map[], None, 0, 0)

  datatype Step =
    | Arrive(p: Pid)
    | Begin(p: Pid)
    | OpenFails(p: Pid)
    | Acquire(p: Pid)
    | Check(p: Pid)
    | ReadFails(p: Pid)
    | BuildFails(p: Pid)
    | BuildDone(p: Pid, corpus: DagCorpus)
    | OpenTemporary(p: Pid)
    | FinishTemporary(p: Pid)
    | WriteFails(p: Pid)
    | Rename(p: Pid)
    | Unlinked(p: Pid)
    | UnlinkFails(p: Pid)
    | Release(p: Pid)
    | Die(p: Pid)

  predicate InSection(phase: Phase) {
    phase.Checking? || phase.Building? || Unpublished(phase) || phase.Unlinking? || phase.Releasing?
  }

  /** Holding a corpus that nobody else can see yet. */
  predicate Unpublished(phase: Phase) {
    phase.Opening? || phase.Writing? || phase.Renaming?
  }

  function PhaseOf(w: World, p: Pid): Phase {
    if p in w.processes then w.processes[p] else Dead
  }

  ghost predicate Enabled(w: World, step: Step) {
    var phase := PhaseOf(w, step.p);
    match step
    case Arrive(p) => p !in w.processes
    case Begin(p) => phase.Outside? || phase.Raised?
    case OpenFails(p) => phase.Waiting?
    case Acquire(p) => phase.Waiting? && w.lock.None?
    case Check(p) => phase.Checking?
    case ReadFails(p) => phase.Checking? && w.artifact.Some?
    case BuildFails(p) => phase.Building?
    case BuildDone(p, corpus) => phase.Building? && WellKeyed(corpus)
    case OpenTemporary(p) => phase.Opening?
    case FinishTemporary(p) => phase.Writing?
    case WriteFails(p) => Unpublished(phase)
    case Rename(p) => phase.Renaming? && p in w.temporary
    case Unlinked(p) => phase.Unlinking?
    case UnlinkFails(p) => phase.Unlinking?
    case Release(p) => phase.Releasing?
    case Die(p) => p in w.processes
  }

  function Go(w: World, p: Pid, phase: Phase): World {
    w.(processes := w.processes[p := phase])
  }

  /** `_dag_corpus_from_payload` of the artifact's text; half-written text is not JSON. */
  function Read(codec: Codec, artifact: Contents): Option<DagCorpus> {
    if artifact.Whole? && codec.decode(artifact.payload).Ok? then Some(codec.decode(artifact.payload).value) else None
  }

  function After(codec: Codec, w: World, step: Step): World
    requires Enabled(w, step)
  {
    match step
    case Arrive(p) => Go(w, p, Outside)
    case Begin(p) => Go(w, p, Waiting)
    case OpenFails(p) => Go(w, p, Raised)
    case Acquire(p) => Go(w, p, Checking).(lock := Some(p))
    case Check(p) =>
      if w.artifact.Some? then Go(w, p, Releasing(Read(codec, w.artifact.value)))
      else Go(w, p, Building).(builds := w.builds + 1)
    case ReadFails(p) => Go(w, p, Releasing(None))
    case BuildFails(p) => Go(w, p, Releasing(None))
    case BuildDone(p, corpus) => Go(w, p, Opening(corpus))
    case OpenTemporary(p) => Go(w, p, Writing(w.processes[p].corpus)).(temporary := w.temporary[p := HalfWritten])
    case FinishTemporary(p) =>
      var corpus := w.processes[p].corpus;
      Go(w, p, Renaming(corpus)).(temporary := w.temporary[p := Whole(codec.encode(corpus))])
    case WriteFails(p) => Go(w, p, Releasing(None)).(temporary := w.temporary - {p})
    case Rename(p) =>
      var corpus := w.processes[p].corpus;
      Go(w, p, Unlinking(corpus)).(artifact := Some(w.temporary[p]), temporary := w.temporary - {p},
      published := Some(corpus))
    case Unlinked(p) => Go(w, p, Releasing(Some(w.processes[p].corpus)))
    case UnlinkFails(p) => Go(w, p, Releasing(None))
    case Release(p) =>
      var result := w.processes[p].result;
      if result.Some? then Go(w, p, Returned(result.value)).(lock := None)
      else Go(w, p, Raised).(lock := None, aborted := w.aborted + 1)
    case Die(p) =>
      Go(w, p, Dead).(lock := if w.lock == Some(p) then None else w.lock,
      aborted := w.aborted + (if w.lock == Some(p) then 1 else 0))
  }

  ghost predicate Next(codec: Codec, w: World, w': World) {
    exists step :: Enabled(w, step) && w' == After(codec, w, step)
  }

  ghost predicate IsRun(codec: Codec, trace: seq<World>) {
    && trace != [] && trace[0] == FRESH
    && forall i :: 0 <= i < |trace| - 1 ==> Next(codec, trace[i], trace[i + 1])
  }

  // ----- what every step keeps

  ghost predicate Exclusive(w: World) {
    forall p :: w.lock == Some(p) <==> p in w.processes && InSection(w.processes[p])
  }

  /** The artifact is the whole encoding of the corpus published, or absent. */
  ghost predicate Intact(codec: Codec, w: World) {
    match w.published
    case None => w.artifact.None?
    case Some(corpus) => w.artifact == Some(Whole(codec.encode(corpus))) && WellKeyed(corpus)
  }

  /** What a process in `phase` holds in hand, having seen it published. */
  function Holds(phase: Phase): Option<DagCorpus> {
    match phase
    case Unlinking(corpus) => Some(corpus)
    case Releasing(Some(corpus)) => Some(corpus)
    case Returned(corpus) => Some(corpus)
    case _ => None
  }

  ghost predicate HeldIsPublished(w: World) {
    forall p :: p in w.processes && Holds(w.processes[p]).Some? ==> w.published == Holds(w.processes[p])
  }

  /** While some process is at work, nothing is published. */
  ghost predicate WorkIsFirst(w: World) {
    forall p :: p in w.processes && (Unpublished(w.processes[p]) || w.processes[p].Building?) ==> w.published.None?
  }

  ghost predicate WorkIsSound(codec: Codec, w: World) {
    && (forall p :: p in w.processes && Unpublished(w.processes[p]) ==> WellKeyed(w.processes[p].corpus))
    && (forall p :: p in w.processes && w.processes[p].Renaming? ==>
                      p in w.temporary && w.temporary[p] == Whole(codec.encode(w.processes[p].corpus)))
  }

  ghost predicate InAgreement(codec: Codec, w: World) {
    HeldIsPublished(w) && WorkIsFirst(w) && WorkIsSound(codec, w)
  }

  predicate MayHaveBuilt(w: World) {
    w.lock.Some? &&
    var phase := PhaseOf(w, w.lock.value);
    phase.Building? || Unpublished(phase) || phase == Releasing(None)
  }

  ghost predicate Counted(w: World) {
    w.builds <= w.aborted + (if w.artifact.Some? || MayHaveBuilt(w) then 1 else 0)
  }

  ghost predicate Inv(codec: Codec, w: World) {
    Exclusive(w) && Intact(codec, w) && InAgreement(codec, w) && Counted(w)
  }

  lemma KeepsExclusive(codec: Codec, w: World, step: Step)
    requires Exclusive(w) && Enabled(w, step)
    ensures Exclusive(After(codec, w, step))
  {
  }

  lemma KeepsIntact(codec: Codec, w: World, step: Step)
    requires Intact(codec, w) && InAgreement(codec, w) && Enabled(w, step)
    ensures Intact(codec, After(codec, w, step))
  {
  }

  /** A reader decodes the very corpus that was published. */
  lemma ReadsPublished(codec: Codec, w: World)
    requires RoundTrips(codec)
    requires Intact(codec, w) && w.artifact.Some?
    ensures w.published.Some? && Read(codec, w.artifact.value) == w.published
  {
  }

  lemma KeepsHeldIsPublished(codec: Codec, w: World, step: Step)
    requires Exclusive(w) && HeldIsPublished(w) && WorkIsFirst(w) && Enabled(w, step)
    requires w.artifact.Some? ==> Read(codec, w.artifact.value) == w.published
    ensures HeldIsPublished(After(codec, w, step))
  {
  }

  lemma KeepsWorkIsFirst(codec: Codec, w: World, step: Step)
    requires Exclusive(w) && WorkIsFirst(w) && Enabled(w, step)
    requires w.artifact.None? ==> w.published.None?
    ensures WorkIsFirst(After(codec, w, step))
  {
  }

  lemma KeepsWorkIsSound(codec: Codec, w: World, step: Step)
    requires WorkIsSound(codec, w) && Enabled(w, step)
    ensures WorkIsSound(codec, After(codec, w, step))
  {
  }

  lemma KeepsInAgreement(codec: Codec, w: World, step: Step)
    requires RoundTrips(codec)
    requires Exclusive(w) && Intact(codec, w) && InAgreement(codec, w) && Enabled(w, step)
    ensures InAgreement(codec, After(codec, w, step))
  {
    if w.artifact.Some? {
      ReadsPublished(codec, w);
    }
    KeepsHeldIsPublished(codec, w, step);
    KeepsWorkIsFirst(codec, w, step);
    KeepsWorkIsSound(codec, w, step);
  }

  lemma KeepsCount(codec: Codec, w: World, step: Step)
    requires RoundTrips(codec)
    requires Inv(codec, w) && Enabled(w, step)
    ensures Counted(After(codec, w, step))
  {
  }

  lemma {:induction false} RunsKeepInv(codec: Codec, trace: seq<World>, i: nat)
    requires IsRun(codec, trace) && RoundTrips(codec) && i < |trace|
    ensures Inv(codec, trace[i])
  {
    if i > 0 {
      RunsKeepInv(codec, trace, i - 1);
      assert Next(codec, trace[i - 1], trace[i - 1 + 1]);
      var step :| Enabled(trace[i - 1], step) && trace[i] == After(codec, trace[i - 1], step);
      KeepsExclusive(codec, trace[i - 1], step);
      KeepsIntact(codec, trace[i - 1], step);
      KeepsInAgreement(codec, trace[i - 1], step);
      KeepsCount(codec, trace[i - 1], step);
    }
  }

  // ----- the election, over every run

  lemma StepKeepsPublished(codec: Codec, w: World, step: Step)
    requires WorkIsFirst(w) && Enabled(w, step) && w.artifact.Some? && w.published.Some?
    ensures var w' := After(codec, w, step); w'.published == w.published && w'.artifact == w.artifact &&
                                             w'.builds == w.builds
  {
  }

  /** A published corpus is never replaced. */
  lemma {:induction false} PublishedOnce(codec: Codec, trace: seq<World>, i: nat, j: nat)
    requires IsRun(codec, trace) && RoundTrips(codec) && i <= j < |trace| && trace[i].artifact.Some?
    ensures trace[j].published == trace[i].published && trace[j].artifact == trace[i].artifact
    ensures trace[j].builds == trace[i].builds
  {
    if i < j {
      PublishedOnce(codec, trace, i, j - 1);
      RunsKeepInv(codec, trace, j - 1);
      assert Next(codec, trace[j - 1], trace[j - 1 + 1]);
      var step :| Enabled(trace[j - 1], step) && trace[j] == After(codec, trace[j - 1], step);
      StepKeepsPublished(codec, trace[j - 1], step);
    }
  }

  /** All processes that ever return do so with one and the same corpus. */
  lemma AllReturnTheSame(codec: Codec, trace: seq<World>, i: nat, p: Pid, j: nat, q: Pid)
    requires IsRun(codec, trace) && RoundTrips(codec) && i <= j < |trace|
    requires PhaseOf(trace[i], p).Returned? && PhaseOf(trace[j], q).Returned?
    ensures PhaseOf(trace[i], p).corpus == PhaseOf(trace[j], q).corpus
  {
    RunsKeepInv(codec, trace, i);
    RunsKeepInv(codec, trace, j);
    assert Holds(trace[i].processes[p]).Some? && Holds(trace[j].processes[q]).Some?;
    PublishedOnce(codec, trace, i, j);
  }

  /** The artifact is never seen half-written, it decodes to what was published, and parses
      begun number at most one more than the critical sections that failed. */
  lemma OneProducer(codec: Codec, trace: seq<World>, i: nat)
    requires IsRun(codec, trace) && RoundTrips(codec) && i < |trace|
    ensures trace[i].artifact.Some? ==>
              trace[i].artifact.value.Whole? && Read(codec, trace[i].artifact.value) == trace[i].published
    ensures trace[i].builds <= 1 + trace[i].aborted
    ensures forall p: Pid, q: Pid :: InSection(PhaseOf(trace[i], p)) && InSection(PhaseOf(trace[i], q)) ==> p == q
  {
    RunsKeepInv(codec, trace, i);
    if trace[i].artifact.Some? {
      ReadsPublished(codec, trace[i]);
    }
    forall p: Pid, q: Pid | InSection(PhaseOf(trace[i], p)) && InSection(PhaseOf(trace[i], q)) ensures p == q {
      assert trace[i].lock == Some(p) && trace[i].lock == Some(q);
    }
  }

  /** The codec in use is such a codec. */
  lemma CorpusCodecRoundTrips()
    ensures RoundTrips(CORPUS_CODEC)
  {
    forall corpus | WellKeyed(corpus) ensures CORPUS_CODEC.decode(CORPUS_CODEC.encode(corpus)) == Ok(corpus) {
      RoundTrip(corpus);
    }
  }

  /** Corpus agreement: whoever returns, whenever, from its own parse or from the artifact,
      returns the same corpus. */
  lemma CorpusAgreement(trace: seq<World>, i: nat, p: Pid, j: nat, q: Pid)
    requires IsRun(CORPUS_CODEC, trace) && i <= j < |trace|
    requires PhaseOf(trace[i], p).Returned? && PhaseOf(trace[j], q).Returned?
    ensures PhaseOf(trace[i], p).corpus == PhaseOf(trace[j], q).corpus
    ensures trace[j].builds <= 1 + trace[j].aborted
  {
    CorpusCodecRoundTrips();
    AllReturnTheSame(CORPUS_CODEC, trace, i, p, j, q);
    OneProducer(CORPUS_CODEC, trace, j);
  }
}
