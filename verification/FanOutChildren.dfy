/** The child processes of a fan-out (`parallel_dagbag.py`: `_kill_all`, `fan_out_dag_bag`).
    What each child will do is given; the class records what is done to it, in order. */
module FanOutChildren {
  import opened Prelude

  /** What reading a finished child's output file gives. */
  datatype Output = Payload | Unreadable | NotJson | NotUtf8

  /** `exit` is the time the child ends by itself, `reading` the time its output takes to read. */
  datatype Child = Child(spawns: bool, exit: Option<nat>, status: int, output: Output, reading: nat)

  datatype Outcome =
    | Merged
    | FanoutError
    | Escaped(child: nat)  // a UnicodeDecodeError, which no handler catches

  datatype Event = Spawned(child: nat) | Signalled(child: nat) | Reaped(child: nat)

  const NORMAL_EXIT_STATUS := 0
  const KILLED := -9

  /** Nothing is done to a child that was not spawned, nor after it was reaped. */
  ghost predicate Disciplined(log: seq<Event>) {
    && (forall j :: 0 <= j < |log| && !log[j].Spawned? ==> Spawned(log[j].child) in log[..j])
    && (forall i, j :: 0 <= i < j < |log| && log[i].Reaped? ==> log[j].child != log[i].child)
  }

  lemma OneMoreEvent(log: seq<Event>, e: Event)
    requires Disciplined(log)
    requires e.Spawned? || Spawned(e.child) in log
    requires Reaped(e.child) !in log
    ensures Disciplined(log + [e])
  {
    var more := log + [e];
    forall j | 0 <= j < |more| && !more[j].Spawned? ensures Spawned(more[j].child) in more[..j] {
      if j < |log| {
        assert Spawned(log[j].child) in log[..j];
        assert more[..j] == log[..j];
      } else {
        assert more[..j] == log;
      }
    }
    forall i, j | 0 <= i < j < |more| && more[i].Reaped? ensures more[j].child != more[i].child {
      if j == |log| {
        assert more[i] in log;
      }
    }
  }

  class Fleet {
    const children: seq<Child>
    var clock: nat
    var started: nat
    var returncode: map<nat, int>
    ghost var log: seq<Event>
    ghost var waited: nat

    constructor (children: seq<Child>, now: nat)
      ensures this.children == children && clock == now && log == [] && waited == 0
      ensures Valid() && started == 0
    {
      this.children := children;
      clock, started, returncode, log, waited := now, 0, map[], [], 0;
    }

    /** Children below `started` were spawned, and `returncode` is set for the reaped ones. */
    ghost predicate Valid()
      reads this
    {
      && started <= |children|
      && (forall i: nat :: Spawned(i) in log <==> i < started)
      && (forall i: nat :: Reaped(i) in log <==> i in returncode)
      && (forall i: nat :: i in returncode ==> i < started)
      && Disciplined(log)
    }

    ghost predicate AllReaped()
      reads this
    {
      forall i :: 0 <= i < started ==> i in returncode
    }

    method Spawn()
      requires Valid() && started < |children|
      modifies this`started, this`log
      ensures Valid() && started == old(started) + 1
      ensures log == old(log) + [Spawned(old(started))]
    {
      assert Reaped(started) !in log;
      OneMoreEvent(log, Spawned(started));
      log := log + [Spawned(started)];
      started := started + 1;
    }

    method Signal(i: nat)
      requires Valid() && i < started && i !in returncode
      modifies this`log
      ensures Valid() && log == old(log) + [Signalled(i)]
    {
      assert Spawned(i) in log;
      OneMoreEvent(log, Signalled(i));
      log := log + [Signalled(i)];
    }

    method Reap(i: nat, status: int)
      requires Valid() && i < started && i !in returncode
      modifies this`log, this`returncode
      ensures Valid() && log == old(log) + [Reaped(i)] && returncode == old(returncode)[i := status]
    {
      assert Spawned(i) in log;
      OneMoreEvent(log, Reaped(i));
      log := log + [Reaped(i)];
      returncode := returncode[i := status];
    }

    /** `process.wait(timeout)`: whether the child ended in time. */
    method Wait(i: nat, timeout: nat) returns (ended: bool)
      requires Valid() && i < started && i !in returncode
      modifies this
      ensures Valid() && started == old(started)
      ensures ended == (children[i].exit.Some? && children[i].exit.value <= old(clock) + timeout)
      ensures ended ==> log == old(log) + [Reaped(i)] && returncode == old(returncode)[i := children[i].status]
      ensures !ended ==> log == old(log) && returncode == old(returncode)
      ensures old(clock) <= clock <= old(clock) + timeout && waited == old(waited) + (clock - old(clock))
      ensures ended ==> clock == Max(old(clock), children[i].exit.value)
    {
      ended := children[i].exit.Some? && children[i].exit.value <= clock + timeout;
      var until := if ended then Max(clock, children[i].exit.value) else clock + timeout;
      waited := waited + (until - clock);
      clock := until;
      if ended {
        Reap(i, children[i].status);
      }
    }

    method KillAll()
      requires Valid()
      modifies this`log, this`returncode
      ensures Valid() && AllReaped()
      ensures forall i :: i in old(returncode) ==> i in returncode && returncode[i] == old(returncode)[i]
    {
      var running := set i | 0 <= i < started && i !in returncode;
      var left := running;
      while left != {}
        invariant Valid() && returncode == old(returncode) && left <= running
        decreases left
      {
        var i :| i in left;
        Signal(i);
        left := left - {i};
      }
      left := running;
      while left != {}
        invariant Valid() && left <= running && left !! returncode.Keys
        invariant forall i :: 0 <= i < started ==> i in returncode || i in left
        invariant forall i :: i in old(returncode) ==> i in returncode && returncode[i] == old(returncode)[i]
        decreases left
      {
        var i :| i in left;
        Reap(i, KILLED);
        left := left - {i};
      }
    }

    method SpawnAll() returns (ok: bool)
      requires Valid() && started == 0 && log == [] && returncode == map[]
      modifies this`started, this`log, this`returncode
      ensures Valid()
      ensures ok == (forall i :: 0 <= i < |children| ==> children[i].spawns)
      ensures if ok then started == |children| && returncode == map[] else AllReaped()
      ensures ok ==> forall i: nat :: Signalled(i) !in log
    {
      for i := 0 to |children|
        invariant Valid() && started == i && returncode == map[]
        invariant forall j: nat :: Signalled(j) !in log
        invariant forall j :: 0 <= j < i ==> children[j].spawns
      {
        if !children[i].spawns {
          KillAll();
          return false;
        }
        Spawn();
      }
      return true;
    }

    /** No child was signalled, and exactly those below `n` were reaped, each having ended
        normally with a readable payload. */
    ghost predicate Collected(n: nat)
      reads this
    {
      && Valid() && started == |children|
      && (forall j: nat :: Signalled(j) !in log)
      && (forall j: nat :: j in returncode <==> j < n)
      && (forall j: nat :: j < n ==> returncode[j] == NORMAL_EXIT_STATUS)
    }

    method WaitFor(i: nat, deadline: nat) returns (ended: bool)
      requires i < |children| && Collected(i)
      modifies this
      ensures Valid() && started == |children|
      ensures waited - old(waited) <= Max(0, deadline - old(clock))
      ensures waited - old(waited) <= clock - old(clock)
      ensures ended == Ends(children[i], old(clock), deadline)
      ensures ended ==> Collected(i + 1) && clock == Max(old(clock), children[i].exit.value)
      ensures !ended ==> AllReaped()
    {
      ended := Wait(i, Max(0, deadline - clock));
      if !ended {
        KillAll();
        return false;
      }
      if returncode[i] != NORMAL_EXIT_STATUS {
        KillAll();
        return false;
      }
      assert forall j: nat :: Signalled(j) !in log;
      assert forall j: nat :: j in returncode <==> j < i + 1;
      return true;
    }

    /** Waits for child `i` and reads its output: `None` when that gave a payload. */
    method Collect(i: nat, deadline: nat) returns (failure: Option<Outcome>)
      requires i < |children| && Collected(i)
      modifies this
      ensures Valid() && started == |children|
      ensures waited - old(waited) <= Max(0, deadline - old(clock))
      ensures waited - old(waited) <= clock - old(clock)
      ensures failure == if Ends(children[i], old(clock), deadline) then Reading(children[i], i) else Some(FanoutError)
      ensures failure == Some(FanoutError) ==> AllReaped()
      ensures failure != Some(FanoutError) ==> Collected(i + 1) && clock == Next(children[i], old(clock))
    {
      var ended := WaitFor(i, deadline);
      if !ended {
        return Some(FanoutError);
      }
      clock := clock + children[i].reading;
      match children[i].output
      case Payload => return None;
      case Unreadable | NotJson => KillAll(); return Some(FanoutError);
      case NotUtf8 => return Some(Escaped(i));
    }

    /** None is touched after it was reaped, and the timed waits never add up to more than the
        one timeout. Every child is reaped, unless bytes that are not UTF-8 escape from one
        that is not the last. */
    method FanOut(timeout: nat) returns (outcome: Outcome)
      requires Valid() && started == 0 && log == [] && returncode == map[] && waited == 0
      modifies this
      ensures Valid() && waited <= timeout
      ensures outcome == Fate(children, old(clock), old(clock) + timeout)
      ensures outcome.Merged? ==> Collected(|children|)
      ensures outcome.Escaped? ==> outcome.child < |children| && Collected(outcome.child + 1)
      ensures AllReaped() <==> !(outcome.Escaped? && outcome.child + 1 < |children|)
    {
      var deadline := clock + timeout;
      ghost var start := clock;
      var ok := SpawnAll();
      if !ok {
        return FanoutError;
      }
      for i := 0 to |children|
        invariant Collected(i) && FateFrom(children, i, clock, deadline) == FateFrom(children, 0, start, deadline)
        invariant start + waited <= clock && waited <= timeout
      {
        var failure := Collect(i, deadline);
        if failure.Some? {
          assert failure.value.Escaped? && i + 1 < |children| ==> i + 1 !in returncode;
          return failure.value;
        }
      }
      return Merged;
    }
  }

  // ----- what the children's own behaviour decides

  /** The child ends by itself, normally, before a wait begun at `clock` gives up. */
  predicate Ends(child: Child, clock: nat, deadline: nat) {
    child.exit.Some? && child.exit.value <= Max(clock, deadline) && child.status == NORMAL_EXIT_STATUS
  }

  /** When its output has been read. */
  function Next(child: Child, clock: nat): nat {
    Max(clock, if child.exit.Some? then child.exit.value else 0) + child.reading
  }

  /** When the wait for each child begins, the earlier ones having ended. */
  ghost predicate Clocks(children: seq<Child>, clocks: seq<nat>, start: nat) {
    && |clocks| == |children| + 1 && clocks[0] == start
    && forall i :: 0 <= i < |children| ==> clocks[i + 1] == Next(children[i], clocks[i])
  }

  lemma {:induction false} ClocksExist(children: seq<Child>, start: nat) returns (clocks: seq<nat>)
    ensures Clocks(children, clocks, start)
  {
    if children == [] {
      clocks := [start];
    } else {
      var k := |children| - 1;
      var earlier := ClocksExist(children[..k], start);
      clocks := earlier + [Next(children[k], earlier[k])];
    }
  }

  predicate AllSpawn(children: seq<Child>) {
    forall i :: 0 <= i < |children| ==> children[i].spawns
  }

  /** The first `n` children end in time with a payload. */
  predicate Collects(children: seq<Child>, n: nat, clocks: seq<nat>, deadline: nat)
    requires n <= |children| <= |clocks|
  {
    forall i :: 0 <= i < n ==> Ends(children[i], clocks[i], deadline) && children[i].output.Payload?
  }

  /** Child `k` ends in time, like all before it, but with bytes that are not UTF-8. */
  predicate EscapesAt(children: seq<Child>, k: nat, clocks: seq<nat>, deadline: nat)
    requires |children| <= |clocks|
  {
    && k < |children|
    && Collects(children, k, clocks, deadline)
    && Ends(children[k], clocks[k], deadline) && children[k].output.NotUtf8?
  }

  function Reading(child: Child, i: nat): Option<Outcome> {
    match child.output
    case Payload => None
    case Unreadable | NotJson => Some(FanoutError)
    case NotUtf8 => Some(Escaped(i))
  }

  /** The outcome from child `i` on. */
  function FateFrom(children: seq<Child>, i: nat, clock: nat, deadline: nat): Outcome
    requires i <= |children|
    decreases |children| - i
  {
    if i == |children| then Merged
    else if !Ends(children[i], clock, deadline) then FanoutError
    else if Reading(children[i], i).Some? then Reading(children[i], i).value
    else FateFrom(children, i + 1, Next(children[i], clock), deadline)
  }

  function Fate(children: seq<Child>, start: nat, deadline: nat): Outcome {
    if AllSpawn(children) then FateFrom(children, 0, start, deadline) else FanoutError
  }

  lemma {:induction false} FateMerges(children: seq<Child>, i: nat, clocks: seq<nat>, start: nat, deadline: nat)
    requires Clocks(children, clocks, start) && i <= |children| && Collects(children, i, clocks, deadline)
    ensures FateFrom(children, i, clocks[i], deadline).Merged? <==> Collects(children, |children|, clocks, deadline)
    decreases |children| - i
  {
    if i < |children| && Ends(children[i], clocks[i], deadline) && children[i].output.Payload? {
      FateMerges(children, i + 1, clocks, start, deadline);
    }
  }

  lemma {:induction false} FateEscapes(children: seq<Child>, i: nat, clocks: seq<nat>, start: nat, deadline: nat)
    requires Clocks(children, clocks, start) && i <= |children| && Collects(children, i, clocks, deadline)
    ensures var fate := FateFrom(children, i, clocks[i], deadline);
            fate.Escaped? ==> EscapesAt(children, fate.child, clocks, deadline)
    decreases |children| - i
  {
    if i < |children| && Ends(children[i], clocks[i], deadline) && children[i].output.Payload? {
      FateEscapes(children, i + 1, clocks, start, deadline);
    }
  }

  lemma {:induction false} FateReaches(children: seq<Child>, i: nat, k: nat, clocks: seq<nat>, start: nat,
                                       deadline: nat)
    requires Clocks(children, clocks, start) && i <= k && EscapesAt(children, k, clocks, deadline)
    ensures FateFrom(children, i, clocks[i], deadline) == Escaped(k)
    decreases k - i
  {
    if i < k {
      FateReaches(children, i + 1, k, clocks, start, deadline);
    }
  }

  /** The run merges exactly when all children spawn and end in time with a payload. */
  lemma MergesExactly(children: seq<Child>, clocks: seq<nat>, start: nat, deadline: nat)
    requires Clocks(children, clocks, start)
    ensures Fate(children, start, deadline).Merged? <==>
            AllSpawn(children) && Collects(children, |children|, clocks, deadline)
  {
    FateMerges(children, 0, clocks, start, deadline);
  }

  /** An exception escapes from child `k` exactly when all spawn and `k` is the first without a
      payload, having ended in time with bytes that are not UTF-8. */
  lemma EscapesExactly(children: seq<Child>, k: nat, clocks: seq<nat>, start: nat, deadline: nat)
    requires Clocks(children, clocks, start)
    ensures Fate(children, start, deadline) == Escaped(k) <==>
            AllSpawn(children) && EscapesAt(children, k, clocks, deadline)
  {
    FateEscapes(children, 0, clocks, start, deadline);
    if EscapesAt(children, k, clocks, deadline) {
      FateReaches(children, 0, k, clocks, start, deadline);
    }
  }

  /** Children that end well by the deadline are collected, however long reading takes; so one
      after them that ends by the deadline with bytes that are not UTF-8 does escape. */
  lemma PunctualAreCollected(children: seq<Child>, k: nat, clocks: seq<nat>, start: nat, deadline: nat)
    requires Clocks(children, clocks, start) && k < |children| && AllSpawn(children)
    requires forall i :: 0 <= i < k ==> EndsBy(children[i], deadline) && children[i].output.Payload?
    requires EndsBy(children[k], deadline)
    ensures children[k].output.NotUtf8? ==> Fate(children, start, deadline) == Escaped(k)
    ensures children[k].output.Payload? && k + 1 == |children| ==> Fate(children, start, deadline).Merged?
  {
    EscapesExactly(children, k, clocks, start, deadline);
    MergesExactly(children, clocks, start, deadline);
  }

  predicate EndsBy(child: Child, deadline: nat) {
    child.exit.Some? && child.exit.value <= deadline && child.status == NORMAL_EXIT_STATUS
  }
}
