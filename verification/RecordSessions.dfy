/** Nested in-process pytest sessions share one stack of configs (`record.py`: `configure`,
    `unconfigure`, `handle_logreport`). A report carries no config, so the top of the stack
    decides whose it is. */
module RecordSessions {
  import opened OutcomeRecord

  type Config = nat

  datatype Session = Session(active: bool, record: State)
  datatype World = World(stack: seq<Config>, sessions: map<Config, Session>)

  datatype Op =
    | Configure(config: Config, active: bool)
    | Unconfigure(config: Config)
    | Logreport(report: Report)

  /** `list.remove`: the first occurrence. */
  function Removed(stack: seq<Config>, c: Config): seq<Config> {
    if stack == [] then [] else if stack[0] == c then stack[1..] else [stack[0]] + Removed(stack[1..], c)
  }

  function Popped(stack: seq<Config>, c: Config): seq<Config> {
    if stack != [] && stack[|stack| - 1] == c then stack[..|stack| - 1] else Removed(stack, c)
  }

  function Reported(w: World, report: Report): World {
    if w.stack == [] then w
    else
      var top := w.stack[|w.stack| - 1];
      if top in w.sessions && w.sessions[top].active
      then w.(sessions := w.sessions[top := Session(true, Handled(w.sessions[top].record, report))])
      else w
  }

  function Done(w: World, op: Op): World {
    match op
    case Configure(c, active) => World(w.stack + [c], w.sessions[c := Session(active, EMPTY)])
    case Unconfigure(c) => w.(stack := Popped(w.stack, c))
    case Logreport(report) => Reported(w, report)
  }

  function DoneAll(w: World, ops: seq<Op>): World {
    if ops == [] then w else Done(DoneAll(w, ops[..|ops| - 1]), ops[|ops| - 1])
  }

  class Sessions {
    var stack: seq<Config>
    var sessions: map<Config, Session>

    constructor ()
      ensures Now() == World([], map[])
    {
      stack, sessions := [], map[];
    }

    function Now(): World
      reads this
    {
      World(stack, sessions)
    }

    method ConfigureSession(c: Config, active: bool)
      modifies this
      ensures Now() == Done(old(Now()), Configure(c, active))
    {
      sessions := sessions[c := Session(active, EMPTY)];
      stack := stack + [c];
    }

    method UnconfigureSession(c: Config)
      modifies this`stack
      ensures Now() == Done(old(Now()), Unconfigure(c))
    {
      if stack != [] && stack[|stack| - 1] == c {
        stack := stack[..|stack| - 1];
      } else if c in stack {
        stack := Removed(stack, c);
      } else {
        RemovedAbsent(stack, c);
      }
    }

    /** On an xdist worker nothing is accumulated; the controller sees every report. */
    method HandleLogreport(report: Report, onWorker: bool)
      modifies this`sessions
      ensures Now() == if onWorker then old(Now()) else Done(old(Now()), Logreport(report))
    {
      if onWorker || stack == [] {
        return;
      }
      var top := stack[|stack| - 1];
      if top !in sessions || !sessions[top].active {
        return;
      }
      sessions := sessions[top := Session(true, Handled(sessions[top].record, report))];
    }
  }

  lemma {:induction false} RemovedAbsent(stack: seq<Config>, c: Config)
    requires c !in stack
    ensures Removed(stack, c) == stack
  {
    if stack != [] {
      RemovedAbsent(stack[1..], c);
    }
  }

  lemma {:induction false} RemovedBelow(below: seq<Config>, above: seq<Config>, c: Config)
    requires c !in below
    ensures Removed(below + above, c) == below + Removed(above, c)
  {
    if below == [] {
      assert below + above == above;
    } else {
      assert (below + above)[1..] == below[1..] + above;
      RemovedBelow(below[1..], above, c);
    }
  }

  lemma PoppedBelow(below: seq<Config>, above: seq<Config>, c: Config)
    requires c !in below
    ensures Popped(below + above, c) == below + Popped(above, c)
  {
    if above != [] && above[|above| - 1] == c {
      assert (below + above)[..|below + above| - 1] == below + above[..|above| - 1];
    } else {
      RemovedBelow(below, above, c);
      if above == [] {
        assert below + above == below;
      }
    }
  }

  /** The operations of sessions other than those in `outer`. */
  predicate Foreign(op: Op, outer: seq<Config>) {
    match op
    case Configure(c, _) => c !in outer
    case Unconfigure(c) => c !in outer
    case Logreport(_) => true
  }

  /** While some inner session is configured the whole time, in whatever nesting or order the
      inner ones come and go, the outer sessions keep their place and their records. */
  lemma {:induction false} OuterSessionsUntouched(w: World, ops: seq<Op>) returns (above: seq<Config>)
    requires forall op :: op in ops ==> Foreign(op, w.stack)
    requires forall i :: 0 < i < |ops| ==> |DoneAll(w, ops[..i]).stack| > |w.stack|
    requires ops != [] ==> ops[0].Configure?
    ensures DoneAll(w, ops).stack == w.stack + above
    ensures forall d :: d in above ==> d !in w.stack
    ensures forall d :: d in w.stack && d in w.sessions ==>
                          d in DoneAll(w, ops).sessions && DoneAll(w, ops).sessions[d] == w.sessions[d]
  {
    above := [];
    if ops == [] {
      assert w.stack + [] == w.stack;
    } else {
      var k := |ops| - 1;
      var front := ops[..k];
      assert forall i :: 0 < i < k ==> front[..i] == ops[..i];
      var before := OuterSessionsUntouched(w, front);
      assert ops[k] in ops;
      above := InnerStep(w, DoneAll(w, front), before, ops[k]);
    }
  }

  lemma InnerStep(w: World, v: World, before: seq<Config>, op: Op) returns (above: seq<Config>)
    requires v.stack == w.stack + before && (forall d :: d in before ==> d !in w.stack)
    requires Foreign(op, w.stack) && (op.Logreport? ==> before != [])
    requires forall d :: d in w.stack && d in w.sessions ==> d in v.sessions && v.sessions[d] == w.sessions[d]
    ensures Done(v, op).stack == w.stack + above
    ensures forall d :: d in above ==> d !in w.stack
    ensures forall d :: d in w.stack && d in w.sessions ==>
                          d in Done(v, op).sessions && Done(v, op).sessions[d] == w.sessions[d]
  {
    match op
    case Configure(c, active) =>
      above := before + [c];
      assert w.stack + above == v.stack + [c];
    case Unconfigure(c) =>
      above := Popped(before, c);
      PoppedBelow(w.stack, before, c);
      PoppedIsPart(before, c);
    case Logreport(report) =>
      above := before;
      var top := v.stack[|v.stack| - 1];
      assert top in before;
  }

  lemma {:induction false} PoppedIsPart(stack: seq<Config>, c: Config)
    ensures forall d :: d in Popped(stack, c) ==> d in stack
  {
    RemovedIsPart(stack, c);
  }

  lemma {:induction false} RemovedIsPart(stack: seq<Config>, c: Config)
    ensures forall d :: d in Removed(stack, c) ==> d in stack
  {
    if stack != [] {
      RemovedIsPart(stack[1..], c);
    }
  }
}
