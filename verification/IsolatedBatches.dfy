/** Running marked tests in batched child processes and replaying their reports
    (`isolated.py`: `_compute_batches`, `_run_batch`, `_replay_item`, `runtest_protocol`) into
    the outcome record. What a child does is given. */
module IsolatedBatches {
  import opened Prelude
  import opened Ordering
  import opened OutcomeRecord

  datatype Payload = Payload(
    entryPoints: seq<(string, seq<string>)>, environment: seq<(string, string)>, name: Option<string>, timeout: int)

  datatype Marker = Unmarked | Marked(payload: Payload) | Malformed

  /** `gated` is whether the family gate would skip the item. */
  datatype Item = Item(nodeid: string, path: string, marker: Marker, gated: bool)

  type GroupKey = (string, Payload)

  /** `launches` is history: how many children were started for the batch. */
  datatype Batch = Batch(
    nodeids: seq<string>, started: bool, failure: Option<string>, exitStatus: Option<int>,
    reports: map<string, seq<Report>>, launches: nat)

  /** `envelope` is `None` when the child's report file cannot be decoded. */
  datatype Child =
    | NotBuilt(message: string)
    | TimedOut
    | Exited(status: int, envelope: Option<map<string, seq<Report>>>)

  // ----- grouping

  function KeyOf(item: Item): GroupKey
    requires item.marker.Marked?
  {
    (item.path, item.marker.payload)
  }

  predicate In(item: Item, key: GroupKey) {
    item.marker.Marked? && KeyOf(item) == key
  }

  /** The node ids marked with `key`, in session order. */
  function GroupOf(items: seq<Item>, key: GroupKey): seq<string> {
    if items == [] then []
    else
      var last := items[|items| - 1];
      GroupOf(items[..|items| - 1], key) + (if In(last, key) then [last.nodeid] else [])
  }

  function NewBatch(nodeids: seq<string>): Batch {
    Batch(nodeids, false, None, None, map[], 0)
  }

  /** The groups, in the order of their first items. */
  function GroupOrder(items: seq<Item>): seq<GroupKey> {
    if items == [] then []
    else
      var last, order := items[|items| - 1], GroupOrder(items[..|items| - 1]);
      if last.marker.Marked? && KeyOf(last) !in order then order + [KeyOf(last)] else order
  }

  /** The last group of `order` with the node id in it. */
  function Holder(items: seq<Item>, order: seq<GroupKey>, id: string): Option<GroupKey> {
    if order == [] then None
    else
      var last := order[|order| - 1];
      if id in GroupOf(items, last) then Some(last) else Holder(items, order[..|order| - 1], id)
  }

  ghost predicate Groups(items: seq<Item>, order: seq<GroupKey>, grouped: map<GroupKey, seq<string>>) {
    && order == GroupOrder(items) && grouped.Keys == Elements(order)
    && (forall key :: key in grouped ==> grouped[key] == GroupOf(items, key))
    && (forall key :: key !in grouped ==> GroupOf(items, key) == [])
  }

  /** Every node id is filed under the last group that holds it. */
  ghost predicate Filed(items: seq<Item>, order: seq<GroupKey>, batchOf: map<string, GroupKey>) {
    forall id :: Holder(items, order, id) == if id in batchOf then Some(batchOf[id]) else None
  }

  /** Each group's items in session order. */
  ghost predicate Partitions(items: seq<Item>, batches: map<GroupKey, Batch>) {
    && (forall key :: key in batches ==> GroupOf(items, key) != [] && batches[key] == NewBatch(GroupOf(items, key)))
    && (forall key :: key !in batches ==> GroupOf(items, key) == [])
  }

  predicate Assigned(item: Item, batchOf: map<string, GroupKey>)
    requires item.marker.Marked?
  {
    item.nodeid in batchOf && batchOf[item.nodeid] == KeyOf(item)
  }

  ghost predicate DistinctIds(items: seq<Item>) {
    forall i, j :: 0 <= i < j < |items| ==> items[i].nodeid != items[j].nodeid
  }

  lemma GroupOfSnoc(items: seq<Item>, i: nat, key: GroupKey)
    requires i < |items|
    ensures GroupOf(items[..i + 1], key) == GroupOf(items[..i], key) +
                                            (if In(items[i], key) then [items[i].nodeid] else [])
  {
    assert items[..i + 1][..i] == items[..i];
  }

  lemma {:induction false} GroupMembers(items: seq<Item>, key: GroupKey, id: string)
    ensures id in GroupOf(items, key) <==> exists i :: 0 <= i < |items| && In(items[i], key) && items[i].nodeid == id
  {
    if items != [] {
      var k := |items| - 1;
      GroupMembers(items[..k], key, id);
      if id in GroupOf(items[..k], key) {
        var i :| 0 <= i < k && In(items[..k][i], key) && items[..k][i].nodeid == id;
        assert items[i] == items[..k][i];
      }
      if i :| 0 <= i < |items| && In(items[i], key) && items[i].nodeid == id {
        assert i < k ==> items[..k][i] == items[i];
      }
    }
  }

  // ----- running and replaying

  function RunBatch(batch: Batch, child: Child): Batch {
    var started := batch.(started := true);
    match child
    case NotBuilt(message) => started.(failure := Some(message))
    case TimedOut => started.(failure := Some("timeout"), launches := batch.launches + 1)
    case Exited(status, envelope) =>
      var done := started.(exitStatus := Some(status), launches := batch.launches + 1);
      if status != 0 && status != 1 then done.(failure := Some("exit status"))
      else if envelope.None? then done.(failure := Some("undecodable report"))
      else done.(reports := envelope.value)
  }

  function SynthesizedFailure(id: string): seq<Report> {
    [Report(id, Call, Fails, false, 0, []), Report(id, Teardown, Passes, false, 0, [])]
  }

  function Replayed(batch: Batch, id: string): seq<Report> {
    if batch.failure.Some? || id !in batch.reports || batch.reports[id] == [] then SynthesizedFailure(id)
    else batch.reports[id]
  }

  function Stash(report: Report, gated: bool): Report {
    report.(properties := report.properties + [Gated(gated)])
  }

  function Record(s: State, reports: seq<Report>, gated: bool): State {
    if reports == [] then s
    else Handled(Record(s, reports[..|reports| - 1], gated), Stash(reports[|reports| - 1], gated))
  }

  /** A predecessor's teardown failing adds one more report for the item. */
  function AfterTeardown(s: State, item: Item, teardownFails: bool): State {
    if teardownFails then Handled(s, Stash(Report(item.nodeid, Teardown, Fails, false, 0, []), item.gated)) else s
  }

  datatype Session = Session(batchOf: map<string, GroupKey>, batches: map<GroupKey, Batch>, record: State)

  predicate Knows(s: Session, id: string) {
    id in s.batchOf && s.batchOf[id] in s.batches
  }

  /** The protocol of one marked item; `child` is what its batch's child does, if launched. */
  function Protocol(s: Session, item: Item, child: Child, teardownFails: bool): Session
    requires Knows(s, item.nodeid)
  {
    var key := s.batchOf[item.nodeid];
    var batch := if s.batches[key].started then s.batches[key] else RunBatch(s.batches[key], child);
    var replayed := Record(s.record, Replayed(batch, item.nodeid), item.gated);
    Session(s.batchOf, s.batches[key := batch], AfterTeardown(replayed, item, teardownFails))
  }

  datatype Turn = Turn(item: Item, child: Child, teardownFails: bool)

  ghost predicate AllKnown(s: Session, turns: seq<Turn>) {
    forall i :: 0 <= i < |turns| ==> Knows(s, turns[i].item.nodeid)
  }

  ghost function RunAll(s: Session, turns: seq<Turn>): (t: Session)
    requires AllKnown(s, turns)
    ensures forall id :: Knows(s, id) ==> Knows(t, id)
  {
    if turns == [] then s
    else
      var k := |turns| - 1;
      var t := RunAll(s, turns[..k]);
      Protocol(t, turns[k].item, turns[k].child, turns[k].teardownFails)
  }

  // ----- one child a batch

  ghost predicate OneLaunch(s: Session) {
    forall key :: key in s.batches ==> s.batches[key].launches <= if s.batches[key].started then 1 else 0
  }

  lemma ProtocolLaunchesOnce(s: Session, turn: Turn)
    requires Knows(s, turn.item.nodeid) && OneLaunch(s)
    ensures OneLaunch(Protocol(s, turn.item, turn.child, turn.teardownFails))
  {
  }

  /** In whatever order the items come and whatever the children do, no batch launches two. */
  lemma {:induction false} AtMostOneChild(s: Session, turns: seq<Turn>)
    requires AllKnown(s, turns) && OneLaunch(s)
    ensures OneLaunch(RunAll(s, turns))
  {
    if turns != [] {
      var k := |turns| - 1;
      AtMostOneChild(s, turns[..k]);
      assert Knows(s, turns[k].item.nodeid);
      ProtocolLaunchesOnce(RunAll(s, turns[..k]), turns[k]);
    }
  }

  // ----- no item is left unfinished

  /** One whole protocol of the test `id`: its reports, the last one terminal. */
  ghost predicate FullProtocol(id: string, reports: seq<Report>) {
    && reports != [] && Ends(reports[|reports| - 1])
    && forall i :: 0 <= i < |reports| ==> reports[i].nodeid == id
  }

  ghost predicate ReportsFully(reports: map<string, seq<Report>>) {
    forall id :: id in reports && reports[id] != [] ==> FullProtocol(id, reports[id])
  }

  ghost predicate BehavesNormally(child: Child) {
    child.Exited? && child.envelope.Some? ==> ReportsFully(child.envelope.value)
  }

  ghost predicate BatchesFull(s: Session) {
    forall key :: key in s.batches ==> ReportsFully(s.batches[key].reports)
  }

  lemma {:induction false} RecordOwn(s: State, reports: seq<Report>, gated: bool, id: string)
    requires forall i :: 0 <= i < |reports| ==> reports[i].nodeid == id
    ensures forall other :: other != StripGroupSuffix(id) ==>
                              (other in Record(s, reports, gated).accumulators <==> other in s.accumulators)
    ensures reports != [] && Ends(reports[|reports| - 1]) ==>
              StripGroupSuffix(id) !in Record(s, reports, gated).accumulators &&
              StripGroupSuffix(id) in Record(s, reports, gated).outcomes
    ensures reports != [] && !Ends(reports[|reports| - 1]) ==>
              StripGroupSuffix(id) in Record(s, reports, gated).accumulators
  {
    if reports != [] {
      RecordOwn(s, reports[..|reports| - 1], gated, id);
    }
  }

  lemma ReplayedIsFull(batch: Batch, id: string)
    requires ReportsFully(batch.reports)
    ensures FullProtocol(id, Replayed(batch, id))
  {
  }

  lemma ProtocolFinishes(s: Session, turn: Turn)
    requires Knows(s, turn.item.nodeid) && BatchesFull(s) && BehavesNormally(turn.child)
    requires s.record.accumulators == map[]
    ensures var t := Protocol(s, turn.item, turn.child, turn.teardownFails);
            BatchesFull(t) && t.record.accumulators == map[] && StripGroupSuffix(turn.item.nodeid) in t.record.outcomes
  {
    var key := s.batchOf[turn.item.nodeid];
    var batch := if s.batches[key].started then s.batches[key] else RunBatch(s.batches[key], turn.child);
    assert ReportsFully(batch.reports);
    ReplayFinishes(s.record, batch, turn.item, turn.teardownFails);
  }

  lemma ReplayFinishes(s: State, batch: Batch, item: Item, teardownFails: bool)
    requires ReportsFully(batch.reports) && s.accumulators == map[]
    ensures var t := AfterTeardown(Record(s, Replayed(batch, item.nodeid), item.gated), item, teardownFails);
            t.accumulators == map[] && StripGroupSuffix(item.nodeid) in t.outcomes
  {
    var replayed := Replayed(batch, item.nodeid);
    ReplayedIsFull(batch, item.nodeid);
    RecordOwn(s, replayed, item.gated, item.nodeid);
    TeardownLeavesNone(Record(s, replayed, item.gated), item, teardownFails);
  }

  lemma TeardownLeavesNone(s: State, item: Item, teardownFails: bool)
    requires StripGroupSuffix(item.nodeid) !in s.accumulators && StripGroupSuffix(item.nodeid) in s.outcomes
    ensures AfterTeardown(s, item, teardownFails).accumulators == s.accumulators
    ensures StripGroupSuffix(item.nodeid) in AfterTeardown(s, item, teardownFails).outcomes
  {
  }

  /** A replay leaves its item unfinished exactly when the child's last report of it is not
      terminal. */
  lemma UnfinishedExactly(s: State, batch: Batch, item: Item)
    requires forall i :: 0 <= i < |Replayed(batch, item.nodeid)| ==>
                           Replayed(batch, item.nodeid)[i].nodeid == item.nodeid
    ensures StripGroupSuffix(item.nodeid) in Record(s, Replayed(batch, item.nodeid), item.gated).accumulators <==>
            var id := item.nodeid;
            batch.failure.None? && id in batch.reports && batch.reports[id] != [] &&
            !Ends(batch.reports[id][|batch.reports[id]| - 1])
  {
  }

  lemma {:induction false} RecordKeepsOutcomes(s: State, reports: seq<Report>, gated: bool)
    ensures s.outcomes.Keys <= Record(s, reports, gated).outcomes.Keys
  {
    if reports != [] {
      RecordKeepsOutcomes(s, reports[..|reports| - 1], gated);
    }
  }

  lemma ProtocolKeepsOutcomes(s: Session, turn: Turn)
    requires Knows(s, turn.item.nodeid)
    ensures s.record.outcomes.Keys <= Protocol(s, turn.item, turn.child, turn.teardownFails).record.outcomes.Keys
  {
    var key := s.batchOf[turn.item.nodeid];
    var batch := if s.batches[key].started then s.batches[key] else RunBatch(s.batches[key], turn.child);
    RecordKeepsOutcomes(s.record, Replayed(batch, turn.item.nodeid), turn.item.gated);
  }

  ghost predicate HaveOutcomes(turns: seq<Turn>, outcomes: set<string>) {
    forall i :: 0 <= i < |turns| ==> StripGroupSuffix(turns[i].item.nodeid) in outcomes
  }

  lemma OutcomesMore(turns: seq<Turn>, k: nat, before: set<string>, after: set<string>)
    requires k < |turns| && HaveOutcomes(turns[..k], before) && before <= after
    requires StripGroupSuffix(turns[k].item.nodeid) in after
    ensures HaveOutcomes(turns[..k + 1], after)
  {
  }

  /** Whether its child reported it, missed it, failed or never started, every item that had
      its turn has an outcome, and none is left accumulating. */
  lemma {:induction false} NoneUnfinished(s: Session, turns: seq<Turn>)
    requires AllKnown(s, turns) && BatchesFull(s) && s.record.accumulators == map[]
    requires forall i :: 0 <= i < |turns| ==> BehavesNormally(turns[i].child)
    ensures BatchesFull(RunAll(s, turns)) && RunAll(s, turns).record.accumulators == map[]
    ensures HaveOutcomes(turns, RunAll(s, turns).record.outcomes.Keys)
  {
    if turns != [] {
      var k := |turns| - 1;
      var t := RunAll(s, turns[..k]);
      NoneUnfinished(s, turns[..k]);
      assert Knows(s, turns[k].item.nodeid);
      ProtocolFinishes(t, turns[k]);
      ProtocolKeepsOutcomes(t, turns[k]);
      assert RunAll(s, turns) == Protocol(t, turns[k].item, turns[k].child, turns[k].teardownFails);
      OutcomesMore(turns, k, t.record.outcomes.Keys, RunAll(s, turns).record.outcomes.Keys);
      assert turns[..k + 1] == turns;
    }
  }

  // ----- the session's state

  class IsolatedSession {
    var batchOf: map<string, GroupKey>
    var batches: map<GroupKey, Batch>
    var record: State

    constructor ()
      ensures Now() == Session(map[], map[], EMPTY)
    {
      batchOf, batches, record := map[], map[], EMPTY;
    }

    function Now(): Session
      reads this
    {
      Session(batchOf, batches, record)
    }

    /** A malformed marker aborts before any batch exists. */
    method ComputeBatches(items: seq<Item>) returns (ok: bool)
      modifies this`batchOf, this`batches
      ensures ok <==> forall i :: 0 <= i < |items| ==> !items[i].marker.Malformed?
      ensures ok ==> Partitions(items, batches) && Filed(items, GroupOrder(items), batchOf)
      ensures ok ==> forall i :: 0 <= i < |items| && items[i].marker.Marked? ==> Knows(Now(), items[i].nodeid)
      ensures !ok ==> Now() == old(Now())
    {
      var order: seq<GroupKey>, grouped: map<GroupKey, seq<string>> := [], map[];
      for i := 0 to |items|
        invariant Groups(items[..i], order, grouped)
        invariant forall k :: 0 <= k < i ==> !items[k].marker.Malformed?
        invariant Now() == old(Now())
      {
        if items[i].marker.Malformed? {
          return false;
        }
        GroupsMore(items, i, order, grouped);
        if items[i].marker.Marked? {
          var key := KeyOf(items[i]);
          order := if key in order then order else order + [key];
          grouped := grouped[key := (if key in grouped then grouped[key] else []) + [items[i].nodeid]];
        }
      }
      assert items[..|items|] == items;
      FillBatches(items, order, grouped);
      AllFiled(items, batchOf, batches);
      return true;
    }

    method FillBatches(items: seq<Item>, order: seq<GroupKey>, grouped: map<GroupKey, seq<string>>)
      requires Groups(items, order, grouped)
      modifies this`batchOf, this`batches
      ensures batches.Keys == grouped.Keys && Partitions(items, batches) && Filed(items, order, batchOf)
    {
      batchOf, batches := map[], map[];
      for i := 0 to |order|
        invariant Made(grouped, order[..i], batches)
        invariant Filed(items, order[..i], batchOf)
      {
        ghost var before := batchOf;
        assert order[i] in Elements(order);
        FileGroup(order[i], grouped[order[i]]);
        FiledMore(items, order, i, before, batchOf);
        MadeMore(grouped, order, i, batches);
        batches := batches[order[i] := NewBatch(grouped[order[i]])];
      }
      assert order[..|order|] == order;
      MadePartitions(items, order, grouped, batches);
    }

    method FileGroup(key: GroupKey, ids: seq<string>)
      modifies this`batchOf
      ensures PartlyFiled(old(batchOf), key, ids, batchOf)
    {
      for i := 0 to |ids|
        invariant PartlyFiled(old(batchOf), key, ids[..i], batchOf)
      {
        assert ids[..i + 1] == ids[..i] + [ids[i]];
        batchOf := batchOf[ids[i] := key];
      }
      assert ids[..|ids|] == ids;
    }

    method RuntestProtocol(item: Item, child: Child, teardownFails: bool)
      requires Knows(Now(), item.nodeid)
      modifies this`batches, this`record
      ensures Now() == Protocol(old(Now()), item, child, teardownFails)
    {
      var key := batchOf[item.nodeid];
      if !batches[key].started {
        batches := batches[key := RunBatch(batches[key], child)];
      } else {
        assert batches == batches[key := batches[key]];
      }
      ReplayItem(item, batches[key], teardownFails);
    }

    method ReplayItem(item: Item, batch: Batch, teardownFails: bool)
      modifies this`record
      ensures record ==
              AfterTeardown(Record(old(record), Replayed(batch, item.nodeid), item.gated), item, teardownFails)
    {
      var replayed := Replayed(batch, item.nodeid);
      for i := 0 to |replayed|
        invariant record == Record(old(record), replayed[..i], item.gated)
      {
        assert replayed[..i + 1][..i] == replayed[..i];
        record := Handled(record, Stash(replayed[i], item.gated));
      }
      assert replayed[..|replayed|] == replayed;
      if teardownFails {
        record := Handled(record, Stash(Report(item.nodeid, Teardown, Fails, false, 0, []), item.gated));
      }
    }
  }

  lemma GroupsMore(items: seq<Item>, i: nat, order: seq<GroupKey>, grouped: map<GroupKey, seq<string>>)
    requires i < |items| && Groups(items[..i], order, grouped)
    ensures items[i].marker.Marked? ==>
              var key := KeyOf(items[i]);
              Groups(items[..i + 1], if key in order then order else order + [key],
                     grouped[key := (if key in grouped then grouped[key] else []) + [items[i].nodeid]])
    ensures !items[i].marker.Marked? ==> Groups(items[..i + 1], order, grouped)
  {
    assert items[..i + 1][..i] == items[..i];
    forall key
      ensures GroupOf(items[..i + 1], key) == GroupOf(items[..i], key) +
                                              (if In(items[i], key) then [items[i].nodeid] else [])
    {
      GroupOfSnoc(items, i, key);
    }
    if items[i].marker.Marked? {
      var key := KeyOf(items[i]);
      assert Elements(if key in order then order else order + [key]) == Elements(order) + {key};
    }
  }

  ghost predicate PartlyFiled(before: map<string, GroupKey>, key: GroupKey, ids: seq<string>,
                              batchOf: map<string, GroupKey>) {
    && (forall id :: id in batchOf <==> id in before || id in ids)
    && (forall id :: id in batchOf ==> batchOf[id] == if id in ids then key else before[id])
  }

  ghost predicate Made(grouped: map<GroupKey, seq<string>>, order: seq<GroupKey>, batches: map<GroupKey, Batch>) {
    && batches.Keys == Elements(order)
    && forall key :: key in batches ==> key in grouped && batches[key] == NewBatch(grouped[key])
  }

  lemma MadeMore(grouped: map<GroupKey, seq<string>>, order: seq<GroupKey>, i: nat, batches: map<GroupKey, Batch>)
    requires i < |order| && order[i] in grouped && Made(grouped, order[..i], batches)
    ensures Made(grouped, order[..i + 1], batches[order[i] := NewBatch(grouped[order[i]])])
  {
  }

  lemma MadePartitions(items: seq<Item>, order: seq<GroupKey>, grouped: map<GroupKey, seq<string>>,
                       batches: map<GroupKey, Batch>)
    requires Groups(items, order, grouped) && Made(grouped, order, batches)
    ensures batches.Keys == grouped.Keys && Partitions(items, batches)
  {
    AllGroupsUsed(items);
  }

  lemma FiledMore(items: seq<Item>, order: seq<GroupKey>, i: nat, before: map<string, GroupKey>,
                  batchOf: map<string, GroupKey>)
    requires i < |order| && Filed(items, order[..i], before)
    requires PartlyFiled(before, order[i], GroupOf(items, order[i]), batchOf)
    ensures Filed(items, order[..i + 1], batchOf)
  {
    assert order[..i + 1][..i] == order[..i];
    forall id ensures Holder(items, order[..i + 1], id) == if id in batchOf then Some(batchOf[id]) else None {
      assert Holder(items, order[..i], id) == if id in before then Some(before[id]) else None;
    }
  }

  lemma {:induction false} AllGroupsUsed(items: seq<Item>)
    ensures forall key :: key in GroupOrder(items) <==> GroupOf(items, key) != []
  {
    if items != [] {
      AllGroupsUsed(items[..|items| - 1]);
    }
  }

  /** A group is the holder exactly when it holds the node id and no later group does. */
  lemma {:induction false} HolderIsLast(items: seq<Item>, order: seq<GroupKey>, id: string, k: nat)
    requires k < |order| && NoDuplicates(order)
    ensures Holder(items, order, id) == Some(order[k]) <==>
            id in GroupOf(items, order[k]) && forall j :: k < j < |order| ==> id !in GroupOf(items, order[j])
  {
    var n := |order| - 1;
    if id !in GroupOf(items, order[n]) {
      if k < n {
        HolderIsLast(items, order[..n], id, k);
        assert order[..n][k] == order[k];
        assert forall j :: k < j < n ==> order[..n][j] == order[j];
      } else {
        HolderIsOne(items, order[..n], id);
      }
    }
  }

  lemma {:induction false} HolderIsOne(items: seq<Item>, order: seq<GroupKey>, id: string)
    ensures Holder(items, order, id).Some? ==> Holder(items, order, id).value in order
    ensures Holder(items, order, id).None? <==> forall key :: key in order ==> id !in GroupOf(items, key)
  {
    if order != [] {
      var n := |order| - 1;
      HolderIsOne(items, order[..n], id);
      assert order == order[..n] + [order[n]];
    }
  }

  lemma {:induction false} OrderIsDistinct(items: seq<Item>)
    ensures NoDuplicates(GroupOrder(items))
  {
    if items != [] {
      OrderIsDistinct(items[..|items| - 1]);
    }
  }

  lemma AllFiled(items: seq<Item>, batchOf: map<string, GroupKey>, batches: map<GroupKey, Batch>)
    requires Partitions(items, batches) && Filed(items, GroupOrder(items), batchOf)
    ensures forall i :: 0 <= i < |items| && items[i].marker.Marked? ==>
                          items[i].nodeid in batchOf && batchOf[items[i].nodeid] in batches
  {
    AllGroupsUsed(items);
    forall i | 0 <= i < |items| && items[i].marker.Marked?
      ensures items[i].nodeid in batchOf && batchOf[items[i].nodeid] in batches
    {
      var id := items[i].nodeid;
      GroupMembers(items, KeyOf(items[i]), id);
      assert In(items[i], KeyOf(items[i]));
      HolderIsOne(items, GroupOrder(items), id);
      assert Holder(items, GroupOrder(items), id).Some?;
    }
  }

  /** A marked item runs in its own group's batch exactly when no group that began after its
      own holds an item with the same node id. */
  lemma OwnBatchExactly(items: seq<Item>, batchOf: map<string, GroupKey>, i: nat, k: nat)
    requires Filed(items, GroupOrder(items), batchOf)
    requires i < |items| && items[i].marker.Marked?
    requires k < |GroupOrder(items)| && GroupOrder(items)[k] == KeyOf(items[i])
    ensures Assigned(items[i], batchOf) <==>
            forall j :: k < j < |GroupOrder(items)| ==> items[i].nodeid !in GroupOf(items, GroupOrder(items)[j])
  {
    var id := items[i].nodeid;
    OrderIsDistinct(items);
    HolderIsLast(items, GroupOrder(items), id, k);
    GroupMembers(items, KeyOf(items[i]), id);
    assert In(items[i], KeyOf(items[i]));
    assert Holder(items, GroupOrder(items), id) == if id in batchOf then Some(batchOf[id]) else None;
  }

  /** So does every one, when the session lists no node id twice. */
  lemma DistinctRunInTheirOwn(items: seq<Item>, batchOf: map<string, GroupKey>, i: nat)
    requires Filed(items, GroupOrder(items), batchOf) && DistinctIds(items)
    requires i < |items| && items[i].marker.Marked?
    ensures Assigned(items[i], batchOf)
  {
    var key, id := KeyOf(items[i]), items[i].nodeid;
    GroupMembers(items, key, id);
    assert In(items[i], key);
    AllGroupsUsed(items);
    OrderIsDistinct(items);
    var k :| 0 <= k < |GroupOrder(items)| && GroupOrder(items)[k] == key;
    forall j | k < j < |GroupOrder(items)| ensures id !in GroupOf(items, GroupOrder(items)[j]) {
      GroupMembers(items, GroupOrder(items)[j], id);
    }
    OwnBatchExactly(items, batchOf, i, k);
  }
}
