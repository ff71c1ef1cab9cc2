/** Which calls the import-time visitor misses (`antipatterns.py`: `visit_If` and
    `_is_parse_time_false_guard`): exactly those in the tests of the false guards that some
    loading execution comes to. How a statement can end and which guards are reached are read
    off the syntax. */
module ImportReach {
  import opened ImportTime
  import opened ImportSkips

  // ----- how a statement can end

  ghost predicate StmtEnds(s: Stmt, sig: Signal)
    decreases s, 3
  {
    match s
    case Do(_) => sig.Normal? || sig.Raised?
    case Raise(_) => sig.Raised?
    case Import(_) => sig.Normal? || sig.Raised?
    case ImportFrom(_, _, _) => sig.Normal? || sig.Raised?
    case FunctionDef(_, _, _) => sig.Normal? || sig.Raised?
    case Break => sig.Broke?
    case Continue => sig.Continued?
    case If(test, body, orelse) =>
      sig.Raised? || BodyEnds(orelse, sig) || (!IsFalseGuard(test) && BodyEnds(body, sig))
    case Loop(_, _, body, orelse) => sig.Raised? || BodyEnds(orelse, sig) || (sig.Normal? && BodyEnds(body, Broke))
    case Try(_, _, _, _) => TryEnds(s, sig)
    case With(_, body) => sig.Raised? || exists inner :: BodyEnds(body, inner) && Leaves(inner, sig)
    case ClassDef(_, _, body) => sig.Raised? || BodyEnds(body, sig)
  }

  ghost predicate TryEnds(s: Stmt, sig: Signal)
    requires s.Try?
    decreases s, 2
  {
    exists inner, middle, last ::
      && BodyEnds(s.body, inner) && MiddleEnds(s, inner, middle) && BodyEnds(s.finalbody, last)
      && sig == (if last.Normal? then middle else last)
  }

  ghost predicate MiddleEnds(s: Stmt, inner: Signal, sig: Signal)
    requires s.Try?
    decreases s, 1
  {
    if inner.Raised? then HandlersEnd(s.handlers, sig)
    else if inner.Normal? then BodyEnds(s.orelse, sig)
    else sig == inner
  }

  ghost predicate HandlersEnd(hs: seq<Handler>, sig: Signal)
    decreases hs, 0
  {
    if hs == [] then sig.Raised? else HandlerEnds(hs[0], sig) || HandlersEnd(hs[1..], sig)
  }

  ghost predicate HandlerEnds(h: Handler, sig: Signal)
    decreases h, 1
  {
    BodyEnds(h.body, sig)
  }

  ghost predicate BodyEnds(body: seq<Stmt>, sig: Signal)
    decreases body, 0
  {
    if body == [] then sig.Normal?
    else (!sig.Normal? && StmtEnds(body[0], sig)) || (StmtEnds(body[0], Normal) && BodyEnds(body[1..], sig))
  }

  // ----- it can end so if some execution does

  lemma {:induction false} HandlersCanRaise(hs: seq<Handler>)
    ensures HandlersEnd(hs, Raised)
  {
    if hs != [] {
      HandlersCanRaise(hs[1..]);
    }
  }

  lemma {:induction false} RunEnds(s: Stmt, t: seq<nat>, sig: Signal)
    requires Runs(s, t, sig)
    ensures StmtEnds(s, sig)
    decreases s, 3
  {
    match s
    case If(test, body, orelse) =>
      if !sig.Raised? {
        var u, v :| t == u + v && Evaluates(test, u, true) &&
                    ((!IsFalseGuard(test) && RunsBody(body, v, sig)) || RunsBody(orelse, v, sig));
        if RunsBody(orelse, v, sig) { BodyRunEnds(orelse, v, sig); } else { BodyRunEnds(body, v, sig); }
      }
    case Loop(before, _, _, _) =>
      if !sig.Raised? {
        var u, v, rounds :| t == u + v && Simple(before, u, Normal) && RunsLoop(s, rounds, v, sig);
        LoopRunEnds(s, rounds, v, sig);
      }
    case Try(_, _, _, _) => TryRunEnds(s, t, sig);
    case With(items, body) =>
      if !sig.Raised? {
        var u, v, inner :| t == u + v && EvaluatesEach(items, u, true) && RunsBody(body, v, inner) &&
                           Leaves(inner, sig);
        BodyRunEnds(body, v, inner);
      }
    case ClassDef(decorators, bases, body) =>
      if !sig.Raised? {
        var u, v, w :| t == u + v + w && Simple(decorators, u, Normal) && SimpleArguments(bases, v, Normal) &&
                       RunsBody(body, w, sig);
        BodyRunEnds(body, w, sig);
      }
    case _ =>
  }

  lemma {:induction false} LoopRunEnds(s: Stmt, rounds: nat, t: seq<nat>, sig: Signal)
    requires s.Loop? && RunsLoop(s, rounds, t, sig)
    ensures StmtEnds(s, sig)
    decreases s, 2, rounds
  {
    if sig.Raised? {
    } else if rounds == 0 {
      if RunsBody(s.orelse, t, sig) {
        BodyRunEnds(s.orelse, t, sig);
      } else {
        var u, v :| t == u + v && EvaluatesEach(s.head, u, true) && RunsBody(s.orelse, v, sig);
        BodyRunEnds(s.orelse, v, sig);
      }
    } else {
      var r :| RunsRound(s, rounds, t, sig, r);
      if r.inner.Broke? {
        BodyRunEnds(s.body, r.body, r.inner);
      } else {
        LoopRunEnds(s, rounds - 1, r.rest, sig);
      }
    }
  }

  lemma {:induction false} TryRunEnds(s: Stmt, t: seq<nat>, sig: Signal)
    requires s.Try? && RunsTry(s, t, sig)
    ensures TryEnds(s, sig)
    decreases s, 2
  {
    var r :| RunsTryAs(s, t, sig, r);
    BodyRunEnds(s.body, r.body, r.inner);
    BodyRunEnds(s.finalbody, r.finish, r.last);
    assert RunsMiddle(s, r.middle, r.inner, r.result);
    if r.inner.Raised? {
      HandlersRunEnds(s.handlers, r.middle, r.result);
    } else if r.inner.Normal? {
      BodyRunEnds(s.orelse, r.middle, r.result);
    }
    assert MiddleEnds(s, r.inner, r.result);
  }

  lemma {:induction false} HandlersRunEnds(hs: seq<Handler>, t: seq<nat>, sig: Signal)
    requires RunsHandlers(hs, t, sig)
    ensures HandlersEnd(hs, sig)
    decreases hs, 0
  {
    if sig.Raised? {
      HandlersCanRaise(hs);
    } else if hs != [] {
      var u, v :| t == u + v && EvaluatesEach(hs[0].types, u, true) &&
                  (RunsHandler(hs[0], v, sig) || RunsHandlers(hs[1..], v, sig));
      if RunsHandler(hs[0], v, sig) { HandlerRunEnds(hs[0], v, sig); } else { HandlersRunEnds(hs[1..], v, sig); }
    }
  }

  lemma {:induction false} HandlerRunEnds(h: Handler, t: seq<nat>, sig: Signal)
    requires RunsHandler(h, t, sig)
    ensures HandlerEnds(h, sig)
    decreases h, 1
  {
    BodyRunEnds(h.body, t, sig);
  }

  lemma {:induction false} BodyRunEnds(body: seq<Stmt>, t: seq<nat>, sig: Signal)
    requires RunsBody(body, t, sig)
    ensures BodyEnds(body, sig)
    decreases body, 0
  {
    if body != [] {
      if !sig.Normal? && Runs(body[0], t, sig) {
        RunEnds(body[0], t, sig);
      } else {
        var u, v :| t == u + v && Runs(body[0], u, Normal) && RunsBody(body[1..], v, sig);
        RunEnds(body[0], u, Normal);
        BodyRunEnds(body[1..], v, sig);
      }
    }
  }

  // ----- and some execution does if it can

  lemma SimpleRuns(parts: seq<Expr>, sig: Signal) returns (t: seq<nat>)
    requires sig.Normal? || sig.Raised?
    ensures Simple(parts, t, sig)
  {
    t := EachCompletes(parts);
  }

  lemma {:induction false} EndRuns(s: Stmt, sig: Signal) returns (t: seq<nat>)
    requires StmtEnds(s, sig)
    ensures Runs(s, t, sig)
    decreases s, 3
  {
    t := [];
    match s
    case Do(parts) => t := SimpleRuns(parts, sig);
    case Raise(parts) => t := SimpleRuns(parts, Raised);
    case FunctionDef(decorators, defaults, _) =>
      var u := SimpleRuns(decorators, Normal);
      var v := SimpleRuns(defaults, sig);
      t := u + v;
    case If(_, _, _) => t := IfEndRuns(s, sig);
    case Loop(_, _, _, _) => t := LoopEndRuns(s, sig);
    case Try(_, _, _, _) => t := TryEndRuns(s, sig);
    case With(_, _) => t := WithEndRuns(s, sig);
    case ClassDef(decorators, bases, body) =>
      if sig.Raised? {
        t := SimpleRuns(decorators, Raised);
      } else {
        var u := SimpleRuns(decorators, Normal);
        var v := ArgumentsComplete(bases);
        var w := BodyEndRuns(body, sig);
        t := u + v + w;
      }
    case _ =>
  }

  lemma {:induction false} IfEndRuns(s: Stmt, sig: Signal) returns (t: seq<nat>)
    requires s.If? && StmtEnds(s, sig)
    ensures Runs(s, t, sig)
    decreases s, 2
  {
    var u := ExprCompletes(s.test);
    if sig.Raised? {
      t := u;
    } else {
      var v;
      if BodyEnds(s.orelse, sig) { v := BodyEndRuns(s.orelse, sig); } else { v := BodyEndRuns(s.body, sig); }
      t := u + v;
    }
  }

  lemma {:induction false} LoopEndRuns(s: Stmt, sig: Signal) returns (t: seq<nat>)
    requires s.Loop? && StmtEnds(s, sig)
    ensures Runs(s, t, sig)
    decreases s, 2
  {
    if sig.Raised? {
      t := SimpleRuns(s.before, Raised);
    } else {
      var u := SimpleRuns(s.before, Normal);
      if BodyEnds(s.orelse, sig) {
        var v := BodyEndRuns(s.orelse, sig);
        assert RunsLoop(s, 0, v, sig);
        t := u + v;
      } else {
        var head := EachCompletes(s.head);
        var body := BodyEndRuns(s.body, Broke);
        assert head + body == head + body + [];
        assert RunsRound(s, 1, head + body, sig, Round(head, body, Broke, []));
        assert RunsLoop(s, 1, head + body, sig);
        t := u + (head + body);
      }
    }
  }

  lemma {:induction false} TryEndRuns(s: Stmt, sig: Signal) returns (t: seq<nat>)
    requires s.Try? && TryEnds(s, sig)
    ensures Runs(s, t, sig)
    decreases s, 2
  {
    var inner, middle, last :| BodyEnds(s.body, inner) && MiddleEnds(s, inner, middle) && BodyEnds(s.finalbody, last)
                               && sig == (if last.Normal? then middle else last);
    var u := BodyEndRuns(s.body, inner);
    var v := MiddleEndRuns(s, inner, middle);
    var w := BodyEndRuns(s.finalbody, last);
    t := u + v + w;
    assert RunsTryAs(s, t, sig, TryRun(u, inner, v, middle, w, last));
  }

  lemma {:induction false} MiddleEndRuns(s: Stmt, inner: Signal, sig: Signal) returns (t: seq<nat>)
    requires s.Try? && MiddleEnds(s, inner, sig)
    ensures RunsMiddle(s, t, inner, sig)
    decreases s, 1
  {
    t := [];
    if inner.Raised? {
      t := HandlersEndRuns(s.handlers, sig);
    } else if inner.Normal? {
      t := BodyEndRuns(s.orelse, sig);
    }
  }

  lemma {:induction false} WithEndRuns(s: Stmt, sig: Signal) returns (t: seq<nat>)
    requires s.With? && StmtEnds(s, sig)
    ensures Runs(s, t, sig)
    decreases s, 2
  {
    var u := EachCompletes(s.items);
    var inner;
    if exists inner :: BodyEnds(s.body, inner) && Leaves(inner, sig) {
      inner :| BodyEnds(s.body, inner) && Leaves(inner, sig);
    } else {
      inner := SomeEnd(s.body);
    }
    var v := BodyEndRuns(s.body, inner);
    t := u + v;
  }

  lemma {:induction false} HandlersEndRuns(hs: seq<Handler>, sig: Signal) returns (t: seq<nat>)
    requires HandlersEnd(hs, sig)
    ensures RunsHandlers(hs, t, sig)
    decreases hs, 0
  {
    t := [];
    if hs != [] {
      var u := EachCompletes(hs[0].types);
      var v;
      if HandlerEnds(hs[0], sig) { v := HandlerEndRuns(hs[0], sig); } else { v := HandlersEndRuns(hs[1..], sig); }
      t := u + v;
    }
  }

  lemma {:induction false} HandlerEndRuns(h: Handler, sig: Signal) returns (t: seq<nat>)
    requires HandlerEnds(h, sig)
    ensures RunsHandler(h, t, sig)
    decreases h, 1
  {
    t := BodyEndRuns(h.body, sig);
  }

  lemma {:induction false} BodyEndRuns(body: seq<Stmt>, sig: Signal) returns (t: seq<nat>)
    requires BodyEnds(body, sig)
    ensures RunsBody(body, t, sig)
    decreases body, 0
  {
    t := [];
    if body != [] {
      if !sig.Normal? && StmtEnds(body[0], sig) {
        t := EndRuns(body[0], sig);
      } else {
        var u := EndRuns(body[0], Normal);
        var v := BodyEndRuns(body[1..], sig);
        t := u + v;
      }
    }
  }

  /** How a statement ends is decided by the syntax. */
  lemma EndsExactly(body: seq<Stmt>, sig: Signal)
    ensures BodyEnds(body, sig) <==> exists t :: RunsBody(body, t, sig)
  {
    if BodyEnds(body, sig) {
      var t := BodyEndRuns(body, sig);
      assert RunsBody(body, t, sig);
    }
    forall t | RunsBody(body, t, sig) ensures BodyEnds(body, sig) {
      BodyRunEnds(body, t, sig);
    }
  }

  /** Every block can end somehow. */
  lemma {:induction false} SomeEnd(body: seq<Stmt>) returns (sig: Signal)
    ensures BodyEnds(body, sig)
    decreases body, 0
  {
    if body == [] {
      sig := Normal;
    } else {
      var first := SomeStmtEnd(body[0]);
      if first.Normal? {
        sig := SomeEnd(body[1..]);
      } else {
        sig := first;
      }
    }
  }

  lemma {:induction false} SomeStmtEnd(s: Stmt) returns (sig: Signal)
    ensures StmtEnds(s, sig)
    decreases s, 1
  {
    match s
    case Break => sig := Broke;
    case Continue => sig := Continued;
    case Try(body, handlers, orelse, finalbody) =>
      var inner := SomeEnd(body);
      var middle := inner;
      if inner.Raised? {
        HandlersCanRaise(handlers);
        middle := Raised;
      } else if inner.Normal? {
        middle := SomeEnd(orelse);
      }
      var last := SomeEnd(finalbody);
      sig := if last.Normal? then middle else last;
      assert MiddleEnds(s, inner, middle);
    case _ => sig := Raised;
  }

  // ----- which guards are reached

  /** `c` stands in the test of a false guard that some execution of the statement comes to. */
  ghost predicate StmtReaches(s: Stmt, c: nat)
    decreases s, 3
  {
    match s
    case If(test, body, orelse) =>
      || BodyReaches(orelse, c)
      || (if IsFalseGuard(test) then c in ExprCalls(test) else BodyReaches(body, c))
    case Loop(_, _, body, orelse) => BodyReaches(body, c) || BodyReaches(orelse, c)
    case Try(body, handlers, orelse, finalbody) =>
      || BodyReaches(body, c) || BodyReaches(finalbody, c)
      || (BodyEnds(body, Raised) && HandlersReach(handlers, c))
      || (BodyEnds(body, Normal) && BodyReaches(orelse, c))
    case With(_, body) => BodyReaches(body, c)
    case ClassDef(_, _, body) => BodyReaches(body, c)
    case _ => false
  }

  ghost predicate HandlersReach(hs: seq<Handler>, c: nat)
    decreases hs, 0
  {
    hs != [] && (HandlerReaches(hs[0], c) || HandlersReach(hs[1..], c))
  }

  ghost predicate HandlerReaches(h: Handler, c: nat)
    decreases h, 1
  {
    BodyReaches(h.body, c)
  }

  ghost predicate BodyReaches(body: seq<Stmt>, c: nat)
    decreases body, 0
  {
    body != [] && (StmtReaches(body[0], c) || (StmtEnds(body[0], Normal) && BodyReaches(body[1..], c)))
  }

  // ----- every call that runs is recorded or stands in such a test

  ghost predicate StmtExplains(s: Stmt, t: seq<nat>) {
    forall c :: c in t ==> c in StmtCalls(s) || StmtReaches(s, c)
  }

  ghost predicate BodyExplains(body: seq<Stmt>, t: seq<nat>) {
    forall c :: c in t ==> c in BodyCalls(body) || BodyReaches(body, c)
  }

  lemma SimpleCovered(parts: seq<Expr>, t: seq<nat>, sig: Signal)
    requires Simple(parts, t, sig)
    ensures Covers(ExprsCalls(parts), t)
  {
    if EvaluatesEach(parts, t, true) { EachCovered(parts, t, true); } else { EachCovered(parts, t, false); }
  }

  lemma SimpleArgumentsCovered(args: Arguments, t: seq<nat>, sig: Signal)
    requires SimpleArguments(args, t, sig)
    ensures Covers(ArgumentsCalls(args), t)
  {
    if EvaluatesArguments(args, t, true) { ArgumentsCovered(args, t, true); } else { ArgumentsCovered(args, t, false); }
  }

  lemma {:induction false} StmtCovered(s: Stmt, t: seq<nat>, sig: Signal)
    requires Runs(s, t, sig)
    ensures StmtExplains(s, t)
    decreases s, 3
  {
    match s
    case Do(parts) => SimpleCovered(parts, t, sig);
    case Raise(parts) => SimpleCovered(parts, t, sig);
    case If(_, _, _) => IfCovered(s, t, sig);
    case Loop(before, _, _, _) =>
      if sig.Raised? && Simple(before, t, sig) {
        SimpleCovered(before, t, sig);
      } else {
        var u, v, rounds :| t == u + v && Simple(before, u, Normal) && RunsLoop(s, rounds, v, sig);
        SimpleCovered(before, u, Normal);
        LoopCovered(s, rounds, v, sig);
      }
    case Try(_, _, _, _) => TryCovered(s, t, sig);
    case With(items, body) =>
      if sig.Raised? && EvaluatesEach(items, t, false) {
        EachCovered(items, t, false);
      } else {
        var u, v, inner :| t == u + v && EvaluatesEach(items, u, true) && RunsBody(body, v, inner) &&
                           Leaves(inner, sig);
        EachCovered(items, u, true);
        BodyCovered(body, v, inner);
      }
    case FunctionDef(decorators, defaults, _) =>
      if sig.Raised? && Simple(decorators, t, sig) {
        SimpleCovered(decorators, t, sig);
      } else {
        var u, v :| t == u + v && Simple(decorators, u, Normal) && Simple(defaults, v, sig);
        SimpleCovered(decorators, u, Normal);
        SimpleCovered(defaults, v, sig);
      }
    case ClassDef(_, _, _) => ClassCovered(s, t, sig);
    case _ =>
  }

  lemma {:induction false} IfCovered(s: Stmt, t: seq<nat>, sig: Signal)
    requires s.If? && Runs(s, t, sig)
    ensures StmtExplains(s, t)
    decreases s, 2
  {
    if sig.Raised? && Evaluates(s.test, t, false) {
      ExprCovered(s.test, t, false);
    } else if sig.Raised? && Evaluates(s.test, t, true) {
      ExprCovered(s.test, t, true);
    } else {
      var u, v :| t == u + v && Evaluates(s.test, u, true) &&
                  ((!IsFalseGuard(s.test) && RunsBody(s.body, v, sig)) || RunsBody(s.orelse, v, sig));
      ExprCovered(s.test, u, true);
      if RunsBody(s.orelse, v, sig) { BodyCovered(s.orelse, v, sig); } else { BodyCovered(s.body, v, sig); }
    }
  }

  lemma {:induction false} LoopCovered(s: Stmt, rounds: nat, t: seq<nat>, sig: Signal)
    requires s.Loop? && RunsLoop(s, rounds, t, sig)
    ensures StmtExplains(s, t)
    decreases s, 2, rounds
  {
    if rounds == 0 {
      LoopEndCovered(s, t, sig);
    } else {
      var r :| RunsRound(s, rounds, t, sig, r);
      EachCovered(s.head, r.head, true);
      BodyCovered(s.body, r.body, r.inner);
      if !r.inner.Raised? && !r.inner.Broke? {
        LoopCovered(s, rounds - 1, r.rest, sig);
      }
      assert StmtExplains(s, r.head) && StmtExplains(s, r.body) && StmtExplains(s, r.rest);
    }
  }

  lemma {:induction false} LoopEndCovered(s: Stmt, t: seq<nat>, sig: Signal)
    requires s.Loop? && RunsLoop(s, 0, t, sig)
    ensures StmtExplains(s, t)
    decreases s, 1
  {
    if sig.Raised? && EvaluatesEach(s.head, t, false) {
      EachCovered(s.head, t, false);
    } else if RunsBody(s.orelse, t, sig) {
      BodyCovered(s.orelse, t, sig);
    } else {
      var u, v :| t == u + v && EvaluatesEach(s.head, u, true) && RunsBody(s.orelse, v, sig);
      EachCovered(s.head, u, true);
      BodyCovered(s.orelse, v, sig);
    }
  }

  lemma {:induction false} TryCovered(s: Stmt, t: seq<nat>, sig: Signal)
    requires s.Try? && RunsTry(s, t, sig)
    ensures StmtExplains(s, t)
    decreases s, 2
  {
    var r :| RunsTryAs(s, t, sig, r);
    BodyCovered(s.body, r.body, r.inner);
    BodyCovered(s.finalbody, r.finish, r.last);
    BodyRunEnds(s.body, r.body, r.inner);
    MiddleCovered(s, r.middle, r.inner, r.result);
    TryParts(s, r.body, r.middle, r.finish);
  }

  lemma TryParts(s: Stmt, body: seq<nat>, middle: seq<nat>, finish: seq<nat>)
    requires s.Try? && BodyExplains(s.body, body) && BodyExplains(s.finalbody, finish) && StmtExplains(s, middle)
    ensures StmtExplains(s, body + middle + finish)
  {
  }

  lemma {:induction false} MiddleCovered(s: Stmt, t: seq<nat>, inner: Signal, sig: Signal)
    requires s.Try? && RunsMiddle(s, t, inner, sig) && BodyEnds(s.body, inner)
    ensures StmtExplains(s, t)
    decreases s, 1
  {
    if inner.Raised? {
      HandlersCovered(s.handlers, t, sig);
    } else if inner.Normal? {
      BodyCovered(s.orelse, t, sig);
    }
  }

  lemma {:induction false} ClassCovered(s: Stmt, t: seq<nat>, sig: Signal)
    requires s.ClassDef? && Runs(s, t, sig)
    ensures StmtExplains(s, t)
    decreases s, 2
  {
    if sig.Raised? && Simple(s.decorators, t, sig) {
      SimpleCovered(s.decorators, t, sig);
    } else if sig.Raised? && exists u, v ::
                t == u + v && Simple(s.decorators, u, Normal) && SimpleArguments(s.bases, v, sig) {
      var u, v :| t == u + v && Simple(s.decorators, u, Normal) && SimpleArguments(s.bases, v, sig);
      SimpleCovered(s.decorators, u, Normal);
      SimpleArgumentsCovered(s.bases, v, sig);
    } else {
      var u, v, w :| t == u + v + w && Simple(s.decorators, u, Normal) && SimpleArguments(s.bases, v, Normal) &&
                     RunsBody(s.body, w, sig);
      SimpleCovered(s.decorators, u, Normal);
      SimpleArgumentsCovered(s.bases, v, Normal);
      BodyCovered(s.body, w, sig);
    }
  }

  lemma {:induction false} HandlersCovered(hs: seq<Handler>, t: seq<nat>, sig: Signal)
    requires RunsHandlers(hs, t, sig)
    ensures forall c :: c in t ==> c in HandlersCalls(hs) || HandlersReach(hs, c)
    decreases hs, 0
  {
    if hs != [] {
      if sig.Raised? && EvaluatesEach(hs[0].types, t, false) {
        EachCovered(hs[0].types, t, false);
      } else {
        var u, v :| t == u + v && EvaluatesEach(hs[0].types, u, true) &&
                    (RunsHandler(hs[0], v, sig) || RunsHandlers(hs[1..], v, sig));
        EachCovered(hs[0].types, u, true);
        if RunsHandler(hs[0], v, sig) { HandlerCovered(hs[0], v, sig); } else { HandlersCovered(hs[1..], v, sig); }
      }
    }
  }

  lemma {:induction false} HandlerCovered(h: Handler, t: seq<nat>, sig: Signal)
    requires RunsHandler(h, t, sig)
    ensures forall c :: c in t ==> c in HandlerCalls(h) || HandlerReaches(h, c)
    decreases h, 1
  {
    BodyCovered(h.body, t, sig);
  }

  /** Whatever branches, rounds and exceptions a loading execution takes, each call the module's
      own top-level code runs is recorded, or stands in the test of a guard that is reached. */
  lemma {:induction false} BodyCovered(body: seq<Stmt>, t: seq<nat>, sig: Signal)
    requires RunsBody(body, t, sig)
    ensures BodyExplains(body, t)
    decreases body, 0
  {
    if body != [] {
      if !sig.Normal? && Runs(body[0], t, sig) {
        StmtCovered(body[0], t, sig);
      } else {
        var u, v :| t == u + v && Runs(body[0], u, Normal) && RunsBody(body[1..], v, sig);
        StmtCovered(body[0], u, Normal);
        RunEnds(body[0], u, Normal);
        BodyCovered(body[1..], v, sig);
      }
    }
  }

  // ----- and every call in such a test does run

  lemma SomeRun(body: seq<Stmt>) returns (t: seq<nat>, sig: Signal)
    ensures RunsBody(body, t, sig)
  {
    sig := SomeEnd(body);
    t := BodyEndRuns(body, sig);
  }

  lemma {:induction false} ReachRuns(s: Stmt, c: nat) returns (t: seq<nat>, sig: Signal)
    requires StmtReaches(s, c)
    ensures Runs(s, t, sig) && c in t
    decreases s, 3
  {
    match s
    case If(_, _, _) => t, sig := IfReachRuns(s, c);
    case Loop(_, _, _, _) => t, sig := LoopReachRuns(s, c);
    case Try(_, _, _, _) => t, sig := TryReachRuns(s, c);
    case With(items, body) =>
      var u := EachCompletes(items);
      var v;
      v, sig := BodyReachRuns(body, c);
      assert Leaves(sig, sig);
      t := u + v;
    case ClassDef(decorators, bases, body) =>
      var u := SimpleRuns(decorators, Normal);
      var v := ArgumentsComplete(bases);
      var w;
      w, sig := BodyReachRuns(body, c);
      t := u + v + w;
  }

  lemma {:induction false} IfReachRuns(s: Stmt, c: nat) returns (t: seq<nat>, sig: Signal)
    requires s.If? && StmtReaches(s, c)
    ensures Runs(s, t, sig) && c in t
    decreases s, 2
  {
    if IsFalseGuard(s.test) && c in ExprCalls(s.test) {
      t := ExprReached(s.test, c);
      sig := Raised;
    } else {
      var u := ExprCompletes(s.test);
      var v;
      if BodyReaches(s.orelse, c) { v, sig := BodyReachRuns(s.orelse, c); } else { v, sig := BodyReachRuns(s.body, c); }
      t := u + v;
    }
  }

  lemma {:induction false} LoopReachRuns(s: Stmt, c: nat) returns (t: seq<nat>, sig: Signal)
    requires s.Loop? && StmtReaches(s, c)
    ensures Runs(s, t, sig) && c in t
    decreases s, 2
  {
    var u := SimpleRuns(s.before, Normal);
    var v;
    if BodyReaches(s.orelse, c) {
      v, sig := BodyReachRuns(s.orelse, c);
      assert RunsLoop(s, 0, v, sig);
    } else {
      v, sig := RoundReachRuns(s, c);
    }
    t := u + v;
  }

  lemma {:induction false} RoundReachRuns(s: Stmt, c: nat) returns (t: seq<nat>, sig: Signal)
    requires s.Loop? && BodyReaches(s.body, c)
    ensures RunsLoop(s, 1, t, sig) && c in t
    decreases s, 1
  {
    var head := EachCompletes(s.head);
    var body, inner := BodyReachRuns(s.body, c);
    var rest := [];
    if inner.Raised? {
      sig := Raised;
    } else if inner.Broke? {
      sig := Normal;
    } else {
      rest, sig := SomeRun(s.orelse);
      assert RunsLoop(s, 0, rest, sig);
    }
    t := head + body + rest;
    assert RunsRound(s, 1, t, sig, Round(head, body, inner, rest));
  }

  lemma {:induction false} TryReachRuns(s: Stmt, c: nat) returns (t: seq<nat>, sig: Signal)
    requires s.Try? && StmtReaches(s, c)
    ensures Runs(s, t, sig) && c in t
    decreases s, 2
  {
    var body, inner, middle, result := TryFrontRuns(s, c);
    var finish, last;
    if BodyReaches(s.finalbody, c) {
      finish, last := BodyReachRuns(s.finalbody, c);
    } else {
      finish, last := SomeRun(s.finalbody);
    }
    t := body + middle + finish;
    sig := if last.Normal? then result else last;
    assert RunsTryAs(s, t, sig, TryRun(body, inner, middle, result, finish, last));
  }

  /** The body and the handlers or `else`, by way of `c` if it is there. */
  lemma {:induction false} TryFrontRuns(s: Stmt, c: nat)
    returns (body: seq<nat>, inner: Signal, middle: seq<nat>, result: Signal)
    requires s.Try? && StmtReaches(s, c)
    ensures RunsBody(s.body, body, inner) && RunsMiddle(s, middle, inner, result)
    ensures c in body || c in middle || BodyReaches(s.finalbody, c)
    decreases s, 1
  {
    if BodyEnds(s.body, Raised) && HandlersReach(s.handlers, c) {
      inner := Raised;
      body := BodyEndRuns(s.body, Raised);
      middle, result := HandlersReachRuns(s.handlers, c);
    } else if BodyEnds(s.body, Normal) && BodyReaches(s.orelse, c) {
      inner := Normal;
      body := BodyEndRuns(s.body, Normal);
      middle, result := BodyReachRuns(s.orelse, c);
    } else {
      if BodyReaches(s.body, c) {
        body, inner := BodyReachRuns(s.body, c);
      } else {
        body, inner := SomeRun(s.body);
      }
      middle, result := SomeMiddle(s, inner);
    }
  }

  lemma SomeMiddle(s: Stmt, inner: Signal) returns (middle: seq<nat>, result: Signal)
    requires s.Try?
    ensures RunsMiddle(s, middle, inner, result)
  {
    middle, result := [], inner;
    if inner.Raised? {
      HandlersCanRaise(s.handlers);
      middle := HandlersEndRuns(s.handlers, Raised);
    } else if inner.Normal? {
      middle, result := SomeRun(s.orelse);
    }
  }

  lemma {:induction false} HandlersReachRuns(hs: seq<Handler>, c: nat) returns (t: seq<nat>, sig: Signal)
    requires HandlersReach(hs, c)
    ensures RunsHandlers(hs, t, sig) && c in t
    decreases hs, 0
  {
    var u := EachCompletes(hs[0].types);
    var v;
    if HandlerReaches(hs[0], c) { v, sig := HandlerReachRuns(hs[0], c); }
    else { v, sig := HandlersReachRuns(hs[1..], c); }
    t := u + v;
  }

  lemma {:induction false} HandlerReachRuns(h: Handler, c: nat) returns (t: seq<nat>, sig: Signal)
    requires HandlerReaches(h, c)
    ensures RunsHandler(h, t, sig) && c in t
    decreases h, 1
  {
    t, sig := BodyReachRuns(h.body, c);
  }

  lemma {:induction false} BodyReachRuns(body: seq<Stmt>, c: nat) returns (t: seq<nat>, sig: Signal)
    requires BodyReaches(body, c)
    ensures RunsBody(body, t, sig) && c in t
    decreases body, 0
  {
    if StmtReaches(body[0], c) {
      t, sig := ReachRuns(body[0], c);
      if sig.Normal? {
        var rest;
        rest, sig := SomeRun(body[1..]);
        t := t + rest;
      }
    } else {
      var u := EndRuns(body[0], Normal);
      var v;
      v, sig := BodyReachRuns(body[1..], c);
      t := u + v;
    }
  }

  // ----- the exact condition

  ghost predicate EveryLoadCovered(body: seq<Stmt>) {
    forall t, sig :: RunsBody(body, t, sig) ==> Covers(BodyCalls(body), t)
  }

  ghost predicate GuardCallsRecorded(body: seq<Stmt>) {
    forall c :: BodyReaches(body, c) ==> c in BodyCalls(body)
  }

  /** Every loading execution of a module is covered if and only if every call in a guard's test
      that is reached happens to be recorded elsewhere. */
  lemma LoadingIsCoveredExactly(body: seq<Stmt>)
    ensures EveryLoadCovered(body) <==> GuardCallsRecorded(body)
  {
    if GuardCallsRecorded(body) {
      forall t, sig | RunsBody(body, t, sig) ensures Covers(BodyCalls(body), t) {
        BodyCovered(body, t, sig);
      }
    }
    if EveryLoadCovered(body) {
      forall c | BodyReaches(body, c) ensures c in BodyCalls(body) {
        var t, sig := BodyReachRuns(body, c);
        assert Covers(BodyCalls(body), t);
      }
    }
  }

  lemma {:induction false} ReachesIsGuard(s: Stmt, c: nat)
    requires StmtReaches(s, c)
    ensures c in StmtGuards(s)
    decreases s, 3
  {
    match s
    case If(test, body, orelse) =>
      if BodyReaches(orelse, c) { BodyReachesIsGuard(orelse, c); }
      else if !IsFalseGuard(test) { BodyReachesIsGuard(body, c); }
    case Loop(_, _, body, orelse) =>
      if BodyReaches(body, c) { BodyReachesIsGuard(body, c); } else { BodyReachesIsGuard(orelse, c); }
    case Try(body, handlers, orelse, finalbody) =>
      if BodyReaches(body, c) { BodyReachesIsGuard(body, c); }
      else if BodyReaches(finalbody, c) { BodyReachesIsGuard(finalbody, c); }
      else if BodyReaches(orelse, c) { BodyReachesIsGuard(orelse, c); }
      else { HandlersReachIsGuard(handlers, c); }
    case With(_, body) => BodyReachesIsGuard(body, c);
    case ClassDef(_, _, body) => BodyReachesIsGuard(body, c);
  }

  lemma {:induction false} HandlersReachIsGuard(hs: seq<Handler>, c: nat)
    requires HandlersReach(hs, c)
    ensures c in HandlersGuards(hs)
    decreases hs, 0
  {
    if HandlerReaches(hs[0], c) { HandlerReachesIsGuard(hs[0], c); } else { HandlersReachIsGuard(hs[1..], c); }
  }

  lemma {:induction false} HandlerReachesIsGuard(h: Handler, c: nat)
    requires HandlerReaches(h, c)
    ensures c in HandlerGuards(h)
    decreases h, 1
  {
    BodyReachesIsGuard(h.body, c);
  }

  lemma {:induction false} BodyReachesIsGuard(body: seq<Stmt>, c: nat)
    requires BodyReaches(body, c)
    ensures c in BodyGuards(body)
    decreases body, 0
  {
    if StmtReaches(body[0], c) { ReachesIsGuard(body[0], c); } else { BodyReachesIsGuard(body[1..], c); }
  }

  /** So nothing escapes a module whose false guards call nothing. */
  lemma LoadingIsCovered(body: seq<Stmt>, t: seq<nat>, sig: Signal)
    requires RunsBody(body, t, sig) && BodyGuards(body) == []
    ensures Covers(BodyCalls(body), t)
  {
    BodyCovered(body, t, sig);
    forall c | BodyReaches(body, c) ensures false {
      BodyReachesIsGuard(body, c);
    }
  }

  /** Node by node: a call that stands once in the module escapes, run but unrecorded, exactly
      when it stands in the test of a guard that is reached. */
  lemma GuardCallEscapes(body: seq<Stmt>, c: nat)
    requires BodyCount(body, All, c) == 1
    ensures (exists t, sig :: RunsBody(body, t, sig) && c in t && c !in BodyCalls(body)) <==> BodyReaches(body, c)
  {
    RecordedUnlessDeferred(body, c);
    if BodyReaches(body, c) {
      BodyReachesIsGuard(body, c);
      var t, sig := BodyReachRuns(body, c);
      assert RunsBody(body, t, sig) && c in t;
    }
    forall t, sig | RunsBody(body, t, sig) && c in t && c !in BodyCalls(body) ensures BodyReaches(body, c) {
      BodyCovered(body, t, sig);
    }
  }

  /** For one guarded statement: `if f().TYPE_CHECKING` runs `f()` unrecorded. */
  lemma GuardedIfExactly(s: Stmt)
    requires s.If? && IsFalseGuard(s.test) && BodyGuards(s.orelse) == []
    requires forall c :: c in ExprCalls(s.test) ==> c !in BodyCalls(s.orelse)
    ensures (forall t, sig :: Runs(s, t, sig) ==> Covers(StmtCalls(s), t)) <==> ExprCalls(s.test) == []
  {
    if ExprCalls(s.test) == [] {
      forall t, sig | Runs(s, t, sig) ensures Covers(StmtCalls(s), t) {
        StmtCovered(s, t, sig);
        forall c | c in t ensures c in StmtCalls(s) {
          if BodyReaches(s.orelse, c) { BodyReachesIsGuard(s.orelse, c); }
        }
      }
    } else {
      var c := ExprCalls(s.test)[0];
      var t := ExprReached(s.test, c);
      assert Runs(s, t, Raised) && c in t && c !in StmtCalls(s);
    }
  }

  /** Only a guard on an attribute can call anything. */
  lemma OnlyAttributeGuardsCall(test: Expr)
    requires IsFalseGuard(test) && !test.Attribute?
    ensures ExprCalls(test) == []
  {
    if test.Compare? {
      assert test.comparators[1..] == [];
      assert ExprCalls(test.left) == [] && ExprCalls(test.comparators[0]) == [];
      assert ExprsCalls(test.comparators) == ExprCalls(test.comparators[0]) + ExprsCalls(test.comparators[1..]);
    }
  }
}
