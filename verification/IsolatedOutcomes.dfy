/** Which outcome a marked test gets (`isolated.py`: `_run_batch`, `_synthesized_failure`,
    `_replay_item`): what its child told of it, or a failure when that is nothing. */
module IsolatedOutcomes {
  import opened Prelude
  import opened OutcomeRecord
  import opened IsolatedBatches

  // ----- what a child tells

  /** What the child says of a test: nothing, unless it ended as pytest does and its report of
      the test can be read and is not empty. */
  function Told(child: Child, id: string): seq<Report> {
    match child
    case NotBuilt(_) => []
    case TimedOut => []
    case Exited(status, envelope) =>
      if (status == 0 || status == 1) && envelope.Some? && id in envelope.value then envelope.value[id] else []
  }

  /** A batch whose child has run, and what its child told. */
  ghost predicate Tells(batch: Batch, child: Child) {
    && batch.started
    && forall id :: Replayed(batch, id) == if Told(child, id) == [] then SynthesizedFailure(id) else Told(child, id)
  }

  predicate Unstarted(batch: Batch) {
    batch == NewBatch(batch.nodeids)
  }

  lemma RunTells(batch: Batch, child: Child)
    requires Unstarted(batch)
    ensures Tells(RunBatch(batch, child), child)
  {
  }

  predicate InBatch(s: Session, turn: Turn, key: GroupKey) {
    Knows(s, turn.item.nodeid) && s.batchOf[turn.item.nodeid] == key
  }

  /** The first turn of a batch; all turns, if it has none. */
  function FirstTurn(s: Session, turns: seq<Turn>, key: GroupKey): (i: nat)
    ensures i <= |turns| && (i < |turns| ==> InBatch(s, turns[i], key))
    ensures forall j :: 0 <= j < i ==> !InBatch(s, turns[j], key)
  {
    if turns == [] then 0
    else
      var i := FirstTurn(s, turns[..|turns| - 1], key);
      if i < |turns| - 1 || InBatch(s, turns[|turns| - 1], key) then i else |turns|
  }

  lemma {:induction false} FilesStay(s: Session, turns: seq<Turn>)
    requires AllKnown(s, turns)
    ensures RunAll(s, turns).batchOf == s.batchOf && RunAll(s, turns).batches.Keys == s.batches.Keys
  {
    if turns != [] {
      var k := |turns| - 1;
      FilesStay(s, turns[..k]);
      assert Knows(s, turns[k].item.nodeid);
    }
  }

  /** A batch tells what the child of its first turn told. */
  lemma {:induction false} BatchTells(s: Session, turns: seq<Turn>, key: GroupKey)
    requires AllKnown(s, turns) && key in s.batches && Unstarted(s.batches[key])
    ensures key in RunAll(s, turns).batches
    ensures var i, batch := FirstTurn(s, turns, key), RunAll(s, turns).batches[key];
            if i == |turns| then batch == s.batches[key] else Tells(batch, turns[i].child)
  {
    if turns != [] {
      var k := |turns| - 1;
      BatchTells(s, turns[..k], key);
      FilesStay(s, turns[..k]);
      assert Knows(s, turns[k].item.nodeid);
      if InBatch(s, turns[k], key) && FirstTurn(s, turns, key) == k {
        RunTells(s.batches[key], turns[k].child);
      }
    }
  }

  function Stashed(reports: seq<Report>, gated: bool): seq<Report> {
    if reports == [] then []
    else Stashed(reports[..|reports| - 1], gated) + [Stash(reports[|reports| - 1], gated)]
  }

  ghost predicate About(id: string, reports: seq<Report>) {
    forall i :: 0 <= i < |reports| ==> reports[i].nodeid == id
  }

  /** Replaying an item's reports into a record that has nothing open for it is running them alone. */
  lemma {:induction false} RecordIsOwn(s: State, reports: seq<Report>, gated: bool, id: string)
    requires About(id, reports) && StripGroupSuffix(id) !in s.accumulators
    ensures var own, after := OwnRun(Stashed(reports, gated)), Look(Record(s, reports, gated), StripGroupSuffix(id));
            && after.pending == own.pending
            && after.outcome == if own.outcome.Some? then own.outcome else Look(s, StripGroupSuffix(id)).outcome
  {
    if reports != [] {
      var front, last := reports[..|reports| - 1], reports[|reports| - 1];
      RecordIsOwn(s, front, gated, id);
      OwnRunSnoc(Stashed(front, gated), Stash(last, gated));
      StepAlone(Record(s, front, gated), Stash(last, gated), StripGroupSuffix(id));
    }
  }

  lemma {:induction false} StashedOpen(reports: seq<Report>, gated: bool)
    ensures Open(Stashed(reports, gated)) == Stashed(Open(reports), gated)
    ensures |Stashed(reports, gated)| == |reports|
  {
    if reports != [] {
      var front, last := reports[..|reports| - 1], reports[|reports| - 1];
      StashedOpen(front, gated);
      assert Stashed(reports, gated)[..|reports| - 1] == Stashed(front, gated);
      StashedSnoc(Open(front), last, gated);
    }
  }

  lemma StashedSnoc(front: seq<Report>, last: Report, gated: bool)
    ensures Stashed(front + [last], gated) == Stashed(front, gated) + [Stash(last, gated)]
  {
  }

  /** The flag stashed on the reports has no part in the outcome. */
  lemma {:induction false} StashedSame(reports: seq<Report>, gated: bool)
    ensures |Stashed(reports, gated)| == |reports| && TotalDuration(Stashed(reports, gated)) == TotalDuration(reports)
    ensures forall i :: 0 <= i < |reports| ==> Stashed(reports, gated)[i] == Stash(reports[i], gated)
  {
    if reports != [] {
      StashedSame(reports[..|reports| - 1], gated);
      assert Stashed(reports, gated)[..|reports| - 1] == Stashed(reports[..|reports| - 1], gated);
    }
  }

  /** The last report of a phase is the same but for the stashed flag. */
  lemma SameLast(reports: seq<Report>, gated: bool, when: When)
    ensures LastReport(Stashed(reports, gated), when).None? <==> LastReport(reports, when).None?
    ensures LastReport(reports, when).Some? ==>
              LastReport(Stashed(reports, gated), when).value == Stash(LastReport(reports, when).value, gated)
  {
  }

  lemma SameCrash(reports: seq<Report>, gated: bool)
    ensures Crashes(Stashed(reports, gated)) <==> Crashes(reports)
  {
    StashedSame(reports, gated);
  }

  lemma StashedSigns(reports: seq<Report>, gated: bool)
    ensures SignsOf(Stashed(reports, gated)) == SignsOf(reports)
  {
    SameLast(reports, gated, Setup);
    SameLast(reports, gated, Call);
    SameLast(reports, gated, Teardown);
    SameCrash(reports, gated);
  }

  /** The child stashed nothing itself. */
  ghost predicate NoneStashed(reports: seq<Report>) {
    forall i, j :: 0 <= i < |reports| && 0 <= j < |reports[i].properties| ==> !reports[i].properties[j].Gated?
  }

  lemma StashedGates(reports: seq<Report>, gated: bool)
    requires NoneStashed(reports) && reports != []
    ensures FlagsGateIn(Stashed(reports, gated)) <==> gated
  {
    StashedSame(reports, gated);
    forall i | 0 <= i < |reports| ensures FlagsGate(Stashed(reports, gated)[i]) <==> gated {
      FlagStashed(reports[i], gated);
    }
    assert FlagsGate(Stashed(reports, gated)[0]) <==> gated;
  }

  lemma FlagStashed(report: Report, gated: bool)
    requires forall j :: 0 <= j < |report.properties| ==> !report.properties[j].Gated?
    ensures FlagsGate(Stash(report, gated)) <==> gated
  {
    var properties := Stash(report, gated).properties;
    assert properties[|report.properties|] == Gated(gated);
    assert forall j :: 0 <= j < |report.properties| ==> properties[j] == report.properties[j];
  }

  /** An item's entry says what its reports deserve; it is gated as the item is. */
  ghost predicate Gets(entry: Entry, reports: seq<Report>, gated: bool) {
    && GivesOnly(SignsOf(reports), entry.outcome) && entry.phase == PhaseFor(SignsOf(reports))
    && entry.duration == TotalDuration(reports)
    && (NoneStashed(reports) && reports != [] ==> (entry.gated <==> gated))
  }

  lemma RecordsGets(entry: Entry, reports: seq<Report>, gated: bool)
    requires Records(entry, Stashed(reports, gated))
    ensures Gets(entry, reports, gated)
  {
    StashedSigns(reports, gated);
    StashedSame(reports, gated);
    if NoneStashed(reports) && reports != [] {
      StashedGates(reports, gated);
    }
  }

  lemma {:induction false} StashedEnded(reports: seq<Report>, gated: bool)
    ensures LastEnded(Stashed(reports, gated)) ==
            if LastEnded(reports).None? then None else Some(Stashed(LastEnded(reports).value, gated))
  {
    if reports != [] {
      var front, last := reports[..|reports| - 1], reports[|reports| - 1];
      StashedEnded(front, gated);
      StashedOpen(front, gated);
      StashedSame(front, gated);
      assert Stashed(reports, gated)[..|reports| - 1] == Stashed(front, gated);
      StashedSnoc(Open(front), last, gated);
    }
  }

  /** Replaying one item leaves the entry its reports deserve. */
  lemma ReplayRecords(s: State, reports: seq<Report>, gated: bool, id: string)
    requires FullProtocol(id, reports) && StripGroupSuffix(id) !in s.accumulators
    ensures LastEnded(reports).Some? && StripGroupSuffix(id) in Record(s, reports, gated).outcomes
    ensures Gets(Record(s, reports, gated).outcomes[StripGroupSuffix(id)], LastEnded(reports).value, gated)
  {
    var ended := LastEnded(reports).value;
    RecordIsOwn(s, reports, gated, id);
    OwnRunFolds(Stashed(reports, gated));
    StashedEnded(reports, gated);
    OutcomeExactly(Stashed(ended, gated));
    RecordsGets(Finalize(Folded(Stashed(ended, gated))), ended, gated);
  }

  lemma SynthesizedFails(id: string)
    ensures var reports := SynthesizedFailure(id);
            && LastEnded(reports) == Some(reports) && NoneStashed(reports) && TotalDuration(reports) == 0
            && GivesOnly(SignsOf(reports), Failed)
  {
    var reports := SynthesizedFailure(id);
    assert reports[..1] == [reports[0]] && [reports[0]][..0] == [];
    assert LastIndex(reports, Call) == 0 && LastIndex(reports, Teardown) == 1 && LastIndex(reports, Setup) == -1;
    assert TotalDuration(reports[..1]) == 0;
    FinishedIsWhole(reports);
  }

  /** A replay of another test leaves this one's entry alone. */
  lemma {:induction false} RecordLeavesOthers(s: State, reports: seq<Report>, gated: bool, id: string, other: string)
    requires About(id, reports) && StripGroupSuffix(id) != other
    ensures Look(Record(s, reports, gated), other) == Look(s, other)
  {
    if reports != [] {
      RecordLeavesOthers(s, reports[..|reports| - 1], gated, id, other);
      StepAlone(Record(s, reports[..|reports| - 1], gated), Stash(reports[|reports| - 1], gated), other);
    }
  }

  lemma TurnLeavesOthers(s: Session, turn: Turn, other: string)
    requires Knows(s, turn.item.nodeid) && BatchesFull(s) && BehavesNormally(turn.child)
    requires StripGroupSuffix(turn.item.nodeid) != other
    ensures Look(Protocol(s, turn.item, turn.child, turn.teardownFails).record, other) == Look(s.record, other)
  {
    var item := turn.item;
    var key := s.batchOf[item.nodeid];
    var batch := if s.batches[key].started then s.batches[key] else RunBatch(s.batches[key], turn.child);
    assert ReportsFully(batch.reports);
    ReplayedIsFull(batch, item.nodeid);
    RecordLeavesOthers(s.record, Replayed(batch, item.nodeid), item.gated, item.nodeid, other);
    StepAlone(Record(s.record, Replayed(batch, item.nodeid), item.gated),
              Stash(Report(item.nodeid, Teardown, Fails, false, 0, []), item.gated), other);
  }

  ghost predicate Sound(s: Session, turns: seq<Turn>) {
    && AllKnown(s, turns) && BatchesFull(s) && s.record.accumulators == map[]
    && forall i :: 0 <= i < |turns| ==> BehavesNormally(turns[i].child)
  }

  lemma SoundSoFar(s: Session, turns: seq<Turn>, k: nat)
    requires Sound(s, turns) && k <= |turns|
    ensures Sound(s, turns[..k])
    ensures BatchesFull(RunAll(s, turns[..k])) && RunAll(s, turns[..k]).record.accumulators == map[]
  {
    NoneUnfinished(s, turns[..k]);
  }

  /** The item of turn `k` has no later turn. */
  ghost predicate HasNoLater(turns: seq<Turn>, k: nat)
    requires k < |turns|
  {
    forall i :: k < i < |turns| ==> !IsAbout(turns[i], StripGroupSuffix(turns[k].item.nodeid))
  }

  datatype CourseData = CourseData(start: Session, turns: seq<Turn>)

  /** A sound session with the turns it takes. */
  type Course = c: CourseData | Sound(c.start, c.turns) ghost witness CourseData(Session(map[], map[], EMPTY), [])

  /** What the record holds of a test after `n` turns. */
  ghost function After(c: Course, n: nat, id: string): NodeState
    requires n <= |c.turns|
  {
    SoundSoFar(c.start, c.turns, n);
    Look(RunAll(c.start, c.turns[..n]).record, id)
  }

  predicate IsAbout(turn: Turn, id: string) {
    StripGroupSuffix(turn.item.nodeid) == id
  }

  lemma OneTurnLeaves(c: Course, n: nat, other: string)
    requires n < |c.turns| && !IsAbout(c.turns[n], other)
    ensures After(c, n + 1, other) == After(c, n, other)
  {
    SoundSoFar(c.start, c.turns, n);
    SoundSoFar(c.start, c.turns, n + 1);
    assert c.turns[..n + 1][..n] == c.turns[..n];
    assert Knows(c.start, c.turns[n].item.nodeid);
    TurnLeavesOthers(RunAll(c.start, c.turns[..n]), c.turns[n], other);
  }

  lemma LaterTurnsLeave(c: Course, k: nat, n: nat, id: string)
    requires k <= n <= |c.turns| && forall i :: k <= i < n ==> !IsAbout(c.turns[i], id)
    ensures After(c, n, id) == After(c, k, id)
  {
    var looks := seq(|c.turns| + 1, i requires 0 <= i <= |c.turns| => After(c, i, id));
    forall i | k <= i < n ensures looks[i + 1] == looks[i] {
      OneTurnLeaves(c, i, id);
    }
    Steady(looks, k, n);
  }

  lemma {:induction false} Steady<T>(xs: seq<T>, k: nat, n: nat)
    requires k <= n < |xs| && forall i :: k <= i < n ==> xs[i + 1] == xs[i]
    ensures xs[n] == xs[k]
    decreases n
  {
    if k < n {
      Steady(xs, k, n - 1);
      assert xs[n - 1 + 1] == xs[n - 1];
    }
  }

  ghost predicate AllUnstarted(s: Session) {
    forall key :: key in s.batches ==> Unstarted(s.batches[key])
  }

  /** The child that runs for the batch of turn `k`: that of the batch's first turn. */
  function ChildOf(s: Session, turns: seq<Turn>, k: nat): Child
    requires k < |turns| && Knows(s, turns[k].item.nodeid)
  {
    turns[FirstTurn(s, turns, s.batchOf[turns[k].item.nodeid])].child
  }

  function BatchFor(s: Session, turn: Turn): Batch
    requires Knows(s, turn.item.nodeid)
  {
    var batch := s.batches[s.batchOf[turn.item.nodeid]];
    if batch.started then batch else RunBatch(batch, turn.child)
  }

  lemma TurnReplays(s: Session, turn: Turn)
    requires Knows(s, turn.item.nodeid) && !turn.teardownFails
    ensures Protocol(s, turn.item, turn.child, false).record ==
            Record(s.record, Replayed(BatchFor(s, turn), turn.item.nodeid), turn.item.gated)
  {
  }

  /** The batch an item is replayed from at its turn. */
  lemma BatchAtTurn(s: Session, turns: seq<Turn>)
    requires turns != [] && Sound(s, turns) && AllUnstarted(s)
    requires Knows(s, turns[|turns| - 1].item.nodeid)
    ensures var k, before := |turns| - 1, RunAll(s, turns[..|turns| - 1]);
            && Knows(before, turns[k].item.nodeid)
            && Tells(BatchFor(before, turns[k]), ChildOf(s, turns, k))
  {
    var k := |turns| - 1;
    var before, key := RunAll(s, turns[..k]), s.batchOf[turns[k].item.nodeid];
    FilesStay(s, turns[..k]);
    BatchTells(s, turns[..k], key);
    if !before.batches[key].started {
      RunTells(before.batches[key], turns[k].child);
    }
  }

  lemma BatchIsFull(s: Session, turn: Turn)
    requires Knows(s, turn.item.nodeid) && BatchesFull(s) && BehavesNormally(turn.child)
    ensures ReportsFully(BatchFor(s, turn).reports)
  {
  }

  /** The entry an item gets at its turn. */
  lemma TurnGets(s: Session, turns: seq<Turn>)
    requires turns != [] && Sound(s, turns) && AllUnstarted(s) && !turns[|turns| - 1].teardownFails
    requires Knows(s, turns[|turns| - 1].item.nodeid)
    ensures var k := |turns| - 1;
            ItemGets(RunAll(s, turns).record, turns[k].item, Told(ChildOf(s, turns, k), turns[k].item.nodeid))
  {
    var k := |turns| - 1;
    var item, before := turns[k].item, RunAll(s, turns[..k]);
    BatchAtTurn(s, turns);
    SoundSoFar(s, turns, k);
    BatchIsFull(before, turns[k]);
    TurnReplays(before, turns[k]);
    ReplayGets(before.record, BatchFor(before, turns[k]), item, Told(ChildOf(s, turns, k), item.nodeid));
  }

  lemma ReplayGets(record: State, batch: Batch, item: Item, told: seq<Report>)
    requires ReportsFully(batch.reports) && record.accumulators == map[]
    requires Replayed(batch, item.nodeid) == if told == [] then SynthesizedFailure(item.nodeid) else told
    ensures ItemGets(Record(record, Replayed(batch, item.nodeid), item.gated), item, told)
  {
    ReplayedIsFull(batch, item.nodeid);
    ReplayRecords(record, Replayed(batch, item.nodeid), item.gated, item.nodeid);
    SynthesizedFails(item.nodeid);
  }

  /** What an item's entry says, given what its child told of it. */
  ghost predicate ItemGets(record: State, item: Item, told: seq<Report>) {
    var id := StripGroupSuffix(item.nodeid);
    && id in record.outcomes
    && (told == [] ==> record.outcomes[id] == Entry(Failed, None, item.gated, 0))
    && (told != [] ==> LastEnded(told).Some? && Gets(record.outcomes[id], LastEnded(told).value, item.gated))
  }

  /** Over any run: an item that has its last turn without a failing teardown before it has failed
      when its batch's child told nothing of it, and otherwise has what the child's own reports of
      it deserve. */
  lemma ItemOutcome(s: Session, turns: seq<Turn>, k: nat)
    requires Sound(s, turns) && AllUnstarted(s)
    requires k < |turns| && !turns[k].teardownFails && HasNoLater(turns, k)
    ensures Knows(s, turns[k].item.nodeid)
    ensures ItemGets(RunAll(s, turns).record, turns[k].item, Told(ChildOf(s, turns, k), turns[k].item.nodeid))
  {
    var item, upTo := turns[k].item, turns[..k + 1];
    assert Knows(s, item.nodeid) && InBatch(s, turns[k], s.batchOf[item.nodeid]);
    FirstTurnOfPrefix(s, turns, k, s.batchOf[item.nodeid]);
    SoundSoFar(s, turns, k + 1);
    TurnGets(s, upTo);
    LaterTurnsLeave(CourseData(s, turns), k + 1, |turns|, StripGroupSuffix(item.nodeid));
    assert turns[..|turns|] == turns;
    SameLook(RunAll(s, turns).record, RunAll(s, upTo).record, StripGroupSuffix(item.nodeid));
  }

  lemma FirstTurnOfPrefix(s: Session, turns: seq<Turn>, k: nat, key: GroupKey)
    requires k < |turns| && InBatch(s, turns[k], key)
    ensures FirstTurn(s, turns, key) <= k && FirstTurn(s, turns[..k + 1], key) == FirstTurn(s, turns, key)
  {
  }

  lemma SameLook(a: State, b: State, id: string)
    requires Look(a, id) == Look(b, id)
    ensures id in a.outcomes <==> id in b.outcomes
    ensures id in a.outcomes ==> a.outcomes[id] == b.outcomes[id]
  {
  }

  /** So it is recorded failed exactly when the child told nothing, or tells of a failure. */
  lemma FailedExactly(s: Session, turns: seq<Turn>, k: nat)
    requires Sound(s, turns) && AllUnstarted(s)
    requires k < |turns| && !turns[k].teardownFails && HasNoLater(turns, k)
    ensures Knows(s, turns[k].item.nodeid)
    ensures var id, outcomes := turns[k].item.nodeid, RunAll(s, turns).record.outcomes;
            var told := Told(ChildOf(s, turns, k), id);
            && StripGroupSuffix(id) in outcomes && (told != [] ==> LastEnded(told).Some?)
            && (outcomes[StripGroupSuffix(id)].outcome == Failed <==>
                told == [] || Gives(SignsOf(LastEnded(told).value), Failed))
  {
    ItemOutcome(s, turns, k);
  }

  /** A predecessor's teardown that fails at an item's turn makes the item an error. */
  lemma TeardownFailureWins(s: Session, turn: Turn)
    requires Knows(s, turn.item.nodeid) && BatchesFull(s) && BehavesNormally(turn.child) && turn.teardownFails
    requires s.record.accumulators == map[]
    ensures var outcomes := Protocol(s, turn.item, turn.child, true).record.outcomes;
            && StripGroupSuffix(turn.item.nodeid) in outcomes
            && outcomes[StripGroupSuffix(turn.item.nodeid)] == Entry(Error, Some("teardown"), turn.item.gated, 0)
  {
  }
}
