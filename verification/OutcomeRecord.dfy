/** Accumulating one outcome per test from phase reports in any order (`record.py`:
    `_strip_xdist_group_suffix`, `_accumulate`, `_finalize`, `handle_logreport`). */
module OutcomeRecord {
  import opened Prelude

  // ----- node ids and xdist group suffixes

  /** `s.rfind(c)`. */
  function RFind(s: string, c: char): (i: int)
    ensures -1 <= i < |s|
    ensures i >= 0 ==> s[i] == c
    ensures forall k :: i < k < |s| ==> s[k] != c
  {
    if s == "" then -1
    else if s[|s| - 1] == c then |s| - 1
    else RFind(s[..|s| - 1], c)
  }

  function StripGroupSuffix(nodeid: string): string {
    if RFind(nodeid, '@') > RFind(nodeid, ']') then nodeid[..RFind(nodeid, '@')] else nodeid
  }

  lemma RFindUnique(s: string, c: char, i: nat)
    requires i < |s| && s[i] == c && forall k :: i < k < |s| ==> s[k] != c
    ensures RFind(s, c) == i
  {
  }

  lemma RFindAppended(b: string, t: string, c: char)
    ensures RFind(b + t, c) == if RFind(t, c) >= 0 then |b| + RFind(t, c) else RFind(b, c)
  {
    var s := b + t;
    if RFind(t, c) >= 0 {
      RFindUnique(s, c, |b| + RFind(t, c));
    } else if RFind(b, c) >= 0 {
      RFindUnique(s, c, RFind(b, c));
    }
  }

  lemma RFindAbsent(s: string, c: char)
    ensures RFind(s, c) == -1 <==> c !in s
  {
  }

  /** A group name is undone exactly when it holds neither `@` nor `]`, whatever the node id. */
  lemma StripUndoesGroup(b: string, g: string)
    ensures StripGroupSuffix(b + ("@" + g)) == b <==> '@' !in g && ']' !in g
  {
    var t := "@" + g;
    RFindAppended(b, t, '@');
    RFindAppended(b, t, ']');
    RFindAppended("@", g, '@');
    RFindAppended("@", g, ']');
    RFindAbsent(g, '@');
    RFindAbsent(g, ']');
    if '@' in g || ']' in g {
      var s := StripGroupSuffix(b + t);
      assert |s| > |b|;
    } else {
      assert (b + t)[..|b|] == b;
    }
  }

  /** A node id without a suffix is left alone exactly when no `@` follows its last `]`. */
  lemma StripLeavesAlone(b: string)
    ensures StripGroupSuffix(b) == b <==> RFind(b, '@') <= RFind(b, ']')
  {
  }

  // ----- reports and accumulators

  /** A report's user property: the stashed family-gate flag, or any other name. */
  datatype Property = Gated(flag: bool) | Unrelated(name: string)

  /** xdist reports a crashed worker's test with a phase of its own. */
  datatype When = Setup | Call | Teardown | Other(phase: string)

  /** pytest's outcome of one phase. */
  datatype PhaseResult = Passes | Fails | Skips

  datatype Report = Report(
    nodeid: string, when: When, outcome: PhaseResult, wasxfail: bool, duration: int, properties: seq<Property>)

  datatype Node = Node(
    gated: bool, duration: int, setupFailed: bool, callOutcome: Option<PhaseResult>, callWasxfail: bool,
    teardownFailed: bool, crashed: bool)

  const NEW_NODE := Node(false, 0, false, None, false, false, false)

  datatype Outcome = Passed | Failed | Error | Skipped | Xfailed | Xpassed

  datatype Entry = Entry(outcome: Outcome, phase: Option<string>, gated: bool, duration: int)

  predicate HasFailed(report: Report) {
    report.outcome.Fails?
  }

  /** Setup and call reports are followed by others; any other report ends the test. */
  predicate IsTerminal(report: Report) {
    !report.when.Setup? && !report.when.Call?
  }

  /** The first flag stashed on the report, or false. */
  predicate ReadGated(properties: seq<Property>) {
    properties != [] && (if properties[0].Gated? then properties[0].flag else ReadGated(properties[1..]))
  }

  function Accumulate(node: Node, report: Report): Node {
    var more := node.(gated := node.gated || ReadGated(report.properties), duration := node.duration + report.duration);
    if report.when.Setup? then more.(setupFailed := HasFailed(report))
    else if report.when.Call? then more.(callOutcome := Some(report.outcome), callWasxfail := report.wasxfail)
    else if report.when.Teardown? then more.(teardownFailed := HasFailed(report))
    else more.(crashed := true)
  }

  function Finalize(node: Node): Entry {
    if node.crashed then Entry(Failed, None, node.gated, node.duration)
    else if node.teardownFailed then Entry(Error, Some("teardown"), node.gated, node.duration)
    else if node.setupFailed then Entry(Error, Some("setup"), node.gated, node.duration)
    else if node.callOutcome.None? then Entry(Skipped, None, node.gated, node.duration)
    else
      var outcome :=
        if node.callOutcome.value.Passes? then (if node.callWasxfail then Xpassed else Passed)
        else if node.callOutcome.value.Fails? then Failed
        else if node.callWasxfail then Xfailed else Skipped;
      Entry(outcome, None, node.gated, node.duration)
  }

  // ----- the recorder

  datatype State = State(accumulators: map<string, Node>, outcomes: map<string, Entry>)

  const EMPTY := State(map[], map[])

  function Handled(s: State, report: Report): State {
    var id := StripGroupSuffix(report.nodeid);
    var node := Accumulate(if id in s.accumulators then s.accumulators[id] else NEW_NODE, report);
    if IsTerminal(report) then State(s.accumulators - {id}, s.outcomes[id := Finalize(node)])
    else State(s.accumulators[id := node], s.outcomes)
  }

  function HandledAll(reports: seq<Report>): State {
    if reports == [] then EMPTY else Handled(HandledAll(reports[..|reports| - 1]), reports[|reports| - 1])
  }

  class Recorder {
    var accumulators: map<string, Node>
    var outcomes: map<string, Entry>

    constructor ()
      ensures Now() == EMPTY
    {
      accumulators, outcomes := map[], map[];
    }

    function Now(): State
      reads this
    {
      State(accumulators, outcomes)
    }

    method IsGated(report: Report) returns (gated: bool)
      ensures gated == ReadGated(report.properties)
    {
      for i := 0 to |report.properties|
        invariant ReadGated(report.properties[i..]) == ReadGated(report.properties)
      {
        assert report.properties[i..][1..] == report.properties[i + 1..];
        if report.properties[i].Gated? {
          return report.properties[i].flag;
        }
      }
      return false;
    }

    method Accumulating(report: Report)
      modifies this`accumulators
      ensures var id := StripGroupSuffix(report.nodeid);
              accumulators == old(accumulators)[id := Accumulate(if id in old(accumulators) then old(accumulators)[id]
                                                                 else NEW_NODE, report)]
    {
      var id := StripGroupSuffix(report.nodeid);
      if id !in accumulators {
        accumulators := accumulators[id := NEW_NODE];
      }
      var node := accumulators[id];
      var gated := IsGated(report);
      node := node.(gated := node.gated || gated);
      node := node.(duration := node.duration + report.duration);
      if report.when.Setup? {
        node := node.(setupFailed := HasFailed(report));
      } else if report.when.Call? {
        node := node.(callOutcome := Some(report.outcome));
        node := node.(callWasxfail := report.wasxfail);
      } else if report.when.Teardown? {
        node := node.(teardownFailed := HasFailed(report));
      } else {
        node := node.(crashed := true);
      }
      accumulators := accumulators[id := node];
    }

    method HandleLogreport(report: Report)
      modifies this
      ensures Now() == Handled(old(Now()), report)
    {
      Accumulating(report);
      if !IsTerminal(report) {
        return;
      }
      var id := StripGroupSuffix(report.nodeid);
      outcomes := outcomes[id := Finalize(accumulators[id])];
      accumulators := accumulators - {id};
    }
  }

  // ----- one node's own stream

  datatype NodeState = NodeState(pending: Option<Node>, outcome: Option<Entry>)

  function OwnStep(s: NodeState, report: Report): NodeState {
    var node := Accumulate(if s.pending.Some? then s.pending.value else NEW_NODE, report);
    if IsTerminal(report) then NodeState(None, Some(Finalize(node))) else NodeState(Some(node), s.outcome)
  }

  function OwnRun(stream: seq<Report>): NodeState {
    if stream == [] then NodeState(None, None) else OwnStep(OwnRun(stream[..|stream| - 1]), stream[|stream| - 1])
  }

  /** The reports about one node id, in the order they arrived. */
  function OwnStream(reports: seq<Report>, id: string): seq<Report> {
    if reports == [] then []
    else
      var last := reports[|reports| - 1];
      OwnStream(reports[..|reports| - 1], id) + (if StripGroupSuffix(last.nodeid) == id then [last] else [])
  }

  function Look(s: State, id: string): NodeState {
    NodeState(if id in s.accumulators then Some(s.accumulators[id]) else None,
              if id in s.outcomes then Some(s.outcomes[id]) else None)
  }

  lemma StepAlone(s: State, report: Report, id: string)
    ensures Look(Handled(s, report), id) ==
            if StripGroupSuffix(report.nodeid) == id then OwnStep(Look(s, id), report) else Look(s, id)
  {
  }

  lemma OwnRunSnoc(stream: seq<Report>, report: Report)
    ensures OwnRun(stream + [report]) == OwnStep(OwnRun(stream), report)
  {
  }

  /** However the workers' reports are interleaved, each node ends as its own stream says. */
  lemma {:induction false} EachNodeAlone(reports: seq<Report>, id: string)
    ensures Look(HandledAll(reports), id) == OwnRun(OwnStream(reports, id))
  {
    if reports != [] {
      var front, last := reports[..|reports| - 1], reports[|reports| - 1];
      EachNodeAlone(front, id);
      StepAlone(HandledAll(front), last, id);
      if StripGroupSuffix(last.nodeid) == id {
        OwnRunSnoc(OwnStream(front, id), last);
      } else {
        assert OwnStream(reports, id) == OwnStream(front, id);
      }
    }
  }

  /** Two interleavings of the same streams give the same record. */
  lemma InterleavingIndependence(reports: seq<Report>, others: seq<Report>)
    requires forall id :: OwnStream(reports, id) == OwnStream(others, id)
    ensures HandledAll(reports) == HandledAll(others)
  {
    var s, t := HandledAll(reports), HandledAll(others);
    forall id ensures Look(s, id) == Look(t, id) {
      EachNodeAlone(reports, id);
      EachNodeAlone(others, id);
    }
    forall id ensures (id in s.accumulators <==> id in t.accumulators) && (id in s.outcomes <==> id in t.outcomes) {
      assert Look(s, id) == Look(t, id);
    }
    forall id | id in s.accumulators ensures s.accumulators[id] == t.accumulators[id] {
      assert Look(s, id) == Look(t, id);
    }
    forall id | id in s.outcomes ensures s.outcomes[id] == t.outcomes[id] {
      assert Look(s, id) == Look(t, id);
    }
    assert s.accumulators == t.accumulators && s.outcomes == t.outcomes;
  }

  // ----- what one finished stream amounts to

  function Folded(stream: seq<Report>): Node {
    if stream == [] then NEW_NODE else Accumulate(Folded(stream[..|stream| - 1]), stream[|stream| - 1])
  }

  function TotalDuration(stream: seq<Report>): int {
    if stream == [] then 0 else TotalDuration(stream[..|stream| - 1]) + stream[|stream| - 1].duration
  }

  /** A teardown report ends its test, and so does a report of a phase that pytest does not have. */
  predicate Ends(report: Report) {
    report.when.Teardown? || report.when.Other?
  }

  /** The reports since a test last ended: those of the run under way. */
  function Open(stream: seq<Report>): seq<Report> {
    if stream == [] || Ends(stream[|stream| - 1]) then []
    else Open(stream[..|stream| - 1]) + [stream[|stream| - 1]]
  }

  /** The reports of the run that ended last, if one did. */
  function LastEnded(stream: seq<Report>): Option<seq<Report>> {
    if stream == [] then None
    else if Ends(stream[|stream| - 1]) then Some(Open(stream[..|stream| - 1]) + [stream[|stream| - 1]])
    else LastEnded(stream[..|stream| - 1])
  }

  lemma FoldedSnoc(front: seq<Report>, last: Report)
    ensures Folded(front + [last]) == Accumulate(Folded(front), last)
  {
  }

  lemma {:induction false} OwnRunFolds(stream: seq<Report>)
    ensures OwnRun(stream).pending == if Open(stream) == [] then None else Some(Folded(Open(stream)))
    ensures OwnRun(stream).outcome ==
            if LastEnded(stream).None? then None else Some(Finalize(Folded(LastEnded(stream).value)))
  {
    if stream != [] {
      var front, last := stream[..|stream| - 1], stream[|stream| - 1];
      OwnRunFolds(front);
      FoldedSnoc(Open(front), last);
    }
  }

  ghost predicate NoneTerminal(stream: seq<Report>) {
    forall r :: r in stream ==> !Ends(r)
  }

  /** One report that ends the test, at the end. */
  ghost predicate Finished(stream: seq<Report>) {
    stream != [] && Ends(stream[|stream| - 1]) && NoneTerminal(stream[..|stream| - 1])
  }

  lemma {:induction false} OpenStream(stream: seq<Report>)
    requires NoneTerminal(stream)
    ensures Open(stream) == stream
  {
    if stream != [] {
      var front := stream[..|stream| - 1];
      assert stream[|stream| - 1] in stream;
      assert forall r :: r in front ==> r in stream;
      OpenStream(front);
    }
  }

  lemma FinishedIsWhole(stream: seq<Report>)
    requires Finished(stream)
    ensures Open(stream) == [] && LastEnded(stream) == Some(stream)
  {
    OpenStream(stream[..|stream| - 1]);
    assert stream == stream[..|stream| - 1] + [stream[|stream| - 1]];
  }

  /** Where the last report of a phase stands, -1 for nowhere. */
  function LastIndex(stream: seq<Report>, when: When): (i: int)
    ensures -1 <= i < |stream|
    ensures i >= 0 ==> stream[i].when == when
    ensures forall k :: i < k < |stream| ==> stream[k].when != when
  {
    if stream == [] then -1
    else if stream[|stream| - 1].when == when then |stream| - 1
    else LastIndex(stream[..|stream| - 1], when)
  }

  function LastReport(stream: seq<Report>, when: When): Option<Report> {
    var i := LastIndex(stream, when);
    if i < 0 then None else Some(stream[i])
  }

  predicate FailsIn(stream: seq<Report>, when: When) {
    var last := LastReport(stream, when);
    last.Some? && last.value.outcome.Fails?
  }

  ghost predicate Crashes(stream: seq<Report>) {
    exists i :: 0 <= i < |stream| && stream[i].when.Other?
  }

  /** The first stashed flag of the report is set. */
  ghost predicate FlagsGate(report: Report) {
    exists i :: 0 <= i < |report.properties| && report.properties[i] == Gated(true)
                && forall j :: 0 <= j < i ==> !report.properties[j].Gated?
  }

  lemma {:induction false} GateIsFlagged(report: Report, properties: seq<Property>, k: nat)
    requires k <= |report.properties| && properties == report.properties[k..]
    requires forall j :: 0 <= j < k ==> !report.properties[j].Gated?
    ensures ReadGated(properties) <==> FlagsGate(report)
    decreases |properties|
  {
    if properties != [] {
      assert properties[0] == report.properties[k];
      if !properties[0].Gated? {
        assert properties[1..] == report.properties[k + 1..];
        GateIsFlagged(report, properties[1..], k + 1);
      }
    }
  }

  ghost predicate FlagsGateIn(stream: seq<Report>) {
    exists i :: 0 <= i < |stream| && FlagsGate(stream[i])
  }

  /** What the fields of a fold say about its stream. */
  ghost predicate Tells(node: Node, stream: seq<Report>) {
    && node.duration == TotalDuration(stream)
    && (node.gated <==> FlagsGateIn(stream))
    && (node.crashed <==> Crashes(stream))
    && (node.setupFailed <==> FailsIn(stream, Setup))
    && (node.teardownFailed <==> FailsIn(stream, Teardown))
    && TellsCall(node, stream)
  }

  predicate TellsCall(node: Node, stream: seq<Report>) {
    match LastReport(stream, Call)
    case None => node.callOutcome.None? && !node.callWasxfail
    case Some(r) => node.callOutcome == Some(r.outcome) && node.callWasxfail == r.wasxfail
  }

  /** Some report of the stream is the last one, or stands before it. */
  lemma AnyOneMore(front: seq<Report>, last: Report)
    ensures Crashes(front + [last]) <==> Crashes(front) || last.when.Other?
    ensures FlagsGateIn(front + [last]) <==> FlagsGateIn(front) || ReadGated(last.properties)
  {
    var stream := front + [last];
    GateIsFlagged(last, last.properties, 0);
    assert stream[|front|] == last;
    assert forall i :: 0 <= i < |front| ==> stream[i] == front[i];
  }

  lemma LastOneMore(front: seq<Report>, last: Report, when: When)
    ensures LastReport(front + [last], when) == if last.when == when then Some(last) else LastReport(front, when)
  {
  }

  lemma {:induction false} FoldTells(stream: seq<Report>)
    ensures Tells(Folded(stream), stream)
  {
    if stream != [] {
      var front, last := stream[..|stream| - 1], stream[|stream| - 1];
      assert stream == front + [last];
      FoldTells(front);
      AnyOneMore(front, last);
      LastOneMore(front, last, Setup);
      LastOneMore(front, last, Call);
      LastOneMore(front, last, Teardown);
    }
  }

  // ----- each outcome, from the reports alone

  /** What counts of a stream: whether it crashed, whether setup and teardown failed at last, and what
      the last call gave. */
  datatype Signs = Signs(crashed: bool, setup: bool, teardown: bool, call: Option<(PhaseResult, bool)>)

  ghost function SignsOf(stream: seq<Report>): Signs {
    var call := LastReport(stream, Call);
    Signs(Crashes(stream), FailsIn(stream, Setup), FailsIn(stream, Teardown),
          if call.None? then None else Some((call.value.outcome, call.value.wasxfail)))
  }

  predicate RanCleanly(signs: Signs) {
    !signs.crashed && !signs.setup && !signs.teardown
  }

  predicate Gives(signs: Signs, outcome: Outcome) {
    match outcome
    case Passed => RanCleanly(signs) && signs.call == Some((Passes, false))
    case Xpassed => RanCleanly(signs) && signs.call == Some((Passes, true))
    case Failed => signs.crashed || (RanCleanly(signs) && signs.call.Some? && signs.call.value.0 == Fails)
    case Error => !signs.crashed && (signs.setup || signs.teardown)
    case Xfailed => RanCleanly(signs) && signs.call == Some((Skips, true))
    case Skipped => RanCleanly(signs) && (signs.call.None? || signs.call == Some((Skips, false)))
  }

  /** The signs give this outcome and no other. */
  predicate GivesOnly(signs: Signs, outcome: Outcome) {
    forall other :: Gives(signs, other) <==> other == outcome
  }

  /** Only an error names a phase: the teardown when that failed, else the setup. */
  function PhaseFor(signs: Signs): Option<string> {
    if !Gives(signs, Error) then None else Some(if signs.teardown then "teardown" else "setup")
  }

  ghost predicate Records(entry: Entry, stream: seq<Report>) {
    && GivesOnly(SignsOf(stream), entry.outcome) && entry.phase == PhaseFor(SignsOf(stream))
    && (entry.gated <==> FlagsGateIn(stream))
    && entry.duration == TotalDuration(stream)
  }

  lemma FinalizeGives(node: Node, signs: Signs)
    requires node.crashed == signs.crashed && node.setupFailed == signs.setup && node.teardownFailed == signs.teardown
    requires node.callOutcome == if signs.call.None? then None else Some(signs.call.value.0)
    requires signs.call.Some? ==> node.callWasxfail == signs.call.value.1
    ensures GivesOnly(signs, Finalize(node).outcome) && Finalize(node).phase == PhaseFor(signs)
    ensures Finalize(node).gated == node.gated && Finalize(node).duration == node.duration
  {
  }

  /** Each outcome is given exactly to the streams that deserve it. */
  lemma OutcomeExactly(stream: seq<Report>)
    ensures Records(Finalize(Folded(stream)), stream)
  {
    FoldTells(stream);
    FinalizeGives(Folded(stream), SignsOf(stream));
  }

  /** Whatever the workers send: a node has an entry exactly when a run of it has ended, and the
      entry is what the reports of the run that ended last deserve; it is left accumulating
      exactly when reports have come since. */
  lemma RecordedExactly(reports: seq<Report>, id: string)
    ensures var s, stream := HandledAll(reports), OwnStream(reports, id);
            && (id in s.outcomes <==> LastEnded(stream).Some?)
            && (id in s.outcomes ==> Records(s.outcomes[id], LastEnded(stream).value))
            && (id in s.accumulators <==> Open(stream) != [])
  {
    var stream := OwnStream(reports, id);
    EachNodeAlone(reports, id);
    OwnRunFolds(stream);
    if LastEnded(stream).Some? {
      OutcomeExactly(LastEnded(stream).value);
    }
    assert Look(HandledAll(reports), id) == OwnRun(stream);
  }

  /** A finished node leaves no accumulator, and its entry is what its own reports deserve. */
  lemma FinishedNode(reports: seq<Report>, id: string)
    requires Finished(OwnStream(reports, id))
    ensures id !in HandledAll(reports).accumulators && id in HandledAll(reports).outcomes
    ensures Records(HandledAll(reports).outcomes[id], OwnStream(reports, id))
  {
    var stream := OwnStream(reports, id);
    RecordedExactly(reports, id);
    FinishedIsWhole(stream);
  }

  /** When every node's stream is finished, nothing is left accumulating. */
  lemma NothingLeft(reports: seq<Report>)
    requires forall id :: OwnStream(reports, id) == [] || Finished(OwnStream(reports, id))
    ensures HandledAll(reports).accumulators == map[]
  {
    forall id ensures id !in HandledAll(reports).accumulators {
      EachNodeAlone(reports, id);
      if OwnStream(reports, id) != [] {
        FinishedNode(reports, id);
      } else {
        assert Look(HandledAll(reports), id).pending.None?;
      }
    }
  }

  // ----- group suffixes do not matter

  predicate Grouped(plain: Report, sent: Report) {
    || sent == plain
    || (&& RFind(plain.nodeid, '@') <= RFind(plain.nodeid, ']')
        && |sent.nodeid| > |plain.nodeid|
        && var g := sent.nodeid[|plain.nodeid| + 1..];
        '@' !in g && ']' !in g && sent == plain.(nodeid := plain.nodeid + ("@" + g)))
  }

  lemma GroupedSame(plain: Report, sent: Report)
    requires Grouped(plain, sent)
    ensures StripGroupSuffix(sent.nodeid) == StripGroupSuffix(plain.nodeid)
    ensures sent == plain.(nodeid := sent.nodeid)
  {
    if sent != plain {
      StripLeavesAlone(plain.nodeid);
      StripUndoesGroup(plain.nodeid, sent.nodeid[|plain.nodeid| + 1..]);
    }
  }

  lemma OnlyTheStrippedIdCounts(s: State, a: Report, b: Report)
    requires StripGroupSuffix(a.nodeid) == StripGroupSuffix(b.nodeid) && b == a.(nodeid := b.nodeid)
    ensures Handled(s, b) == Handled(s, a)
  {
  }

  /** Sending any of the reports with a group suffix changes nothing in the record. */
  lemma {:induction false} GroupsDoNotMatter(plain: seq<Report>, sent: seq<Report>)
    requires |plain| == |sent| && forall i :: 0 <= i < |plain| ==> Grouped(plain[i], sent[i])
    ensures HandledAll(sent) == HandledAll(plain)
  {
    if plain != [] {
      var k := |plain| - 1;
      GroupsDoNotMatter(plain[..k], sent[..k]);
      GroupedSame(plain[k], sent[k]);
      OnlyTheStrippedIdCounts(HandledAll(plain[..k]), plain[k], sent[k]);
    }
  }
}
