/** Finding the calls that run while a Dag module loads (`antipatterns.py`:
    `_ImportTimeVisitor`, `_is_parse_time_false_guard`). A call node is known by a number;
    annotations are outside the model. */
module ImportTime {
  datatype Expr =
    | Name(id: string)
    | Constant(value: string)
    | Attribute(base: Expr, attr: string)
    | Call(node: nat, func: Expr, args: Arguments)
    | Compare(equality: bool, left: Expr, comparators: seq<Expr>)  // `equality`: one `==` and nothing else
    | BoolOp(first: Expr, others: seq<Expr>)
    | IfExp(test: Expr, body: Expr, orelse: Expr)
    | Lambda(defaults: seq<Expr>, body: Expr)
    | Comprehension(parts: seq<Expr>)
    | Dict(entries: seq<Pair>)
    | Operands(parts: seq<Expr>)                                   // any other: operands left to right

  /** A dict display's entry; a `**expansion` has a constant for its key. */
  datatype Pair = Pair(key: Expr, value: Expr)

  /** What stands between the parentheses of a call or a class. A starred argument may follow a
      keyword, and is evaluated before it all the same; `written` tells for each place in the text
      whether a named argument stands there. */
  datatype Arguments = Arguments(positional: seq<Expr>, named: seq<Expr>, written: seq<bool>)

  datatype Alias = Alias(name: string, asname: string)

  datatype Stmt =
    | Do(parts: seq<Expr>)                                         // evaluate and go on, or raise
    | Raise(parts: seq<Expr>)
    | Import(names: seq<Alias>)
    | ImportFrom(level: nat, mod: string, names: seq<Alias>)
    | Break
    | Continue
    | If(test: Expr, body: seq<Stmt>, orelse: seq<Stmt>)
      // `for`: `before` is the iterable and `head` the target; `while`: `head` is the test
    | Loop(before: seq<Expr>, head: seq<Expr>, body: seq<Stmt>, orelse: seq<Stmt>)
    | Try(body: seq<Stmt>, handlers: seq<Handler>, orelse: seq<Stmt>, finalbody: seq<Stmt>)
    | With(items: seq<Expr>, body: seq<Stmt>)
    | FunctionDef(decorators: seq<Expr>, defaults: seq<Expr>, body: seq<Stmt>)
    | ClassDef(decorators: seq<Expr>, bases: Arguments, body: seq<Stmt>)

  datatype Handler = Handler(types: seq<Expr>, body: seq<Stmt>)

  // ----- the false guards

  predicate IsName(e: Expr, id: string) {
    e.Name? && e.id == id
  }

  predicate IsConstant(e: Expr, value: string) {
    e.Constant? && e.value == value
  }

  predicate IsFalseGuard(test: Expr) {
    || IsName(test, "TYPE_CHECKING")
    || (test.Attribute? && test.attr == "TYPE_CHECKING")
    || (test.Compare? && test.equality && |test.comparators| == 1
        && (IsName(test.left, "__name__") || IsName(test.comparators[0], "__name__"))
        && (IsConstant(test.left, "__main__") || IsConstant(test.comparators[0], "__main__")))
  }

  // ----- what the visitor records, in its order

  function ExprCalls(e: Expr): seq<nat>
    decreases e, 1
  {
    match e
    case Name(_) | Constant(_) => []
    case Attribute(base, _) => ExprCalls(base)
    case Call(node, func, args) => [node] + ExprCalls(func) + ArgumentsCalls(args)
    case Compare(_, left, comparators) => ExprCalls(left) + ExprsCalls(comparators)
    case BoolOp(first, others) => ExprCalls(first) + ExprsCalls(others)
    case IfExp(test, body, orelse) => ExprCalls(test) + ExprCalls(body) + ExprCalls(orelse)
    case Lambda(defaults, _) => ExprsCalls(defaults)
    case Comprehension(parts) => ExprsCalls(parts)
    case Dict(entries) => KeysCalls(entries) + ValuesCalls(entries)
    case Operands(parts) => ExprsCalls(parts)
  }

  /** Positional arguments are walked before named ones. */
  function ArgumentsCalls(args: Arguments): seq<nat>
    decreases args, 2
  {
    ExprsCalls(args.positional) + ExprsCalls(args.named)
  }

  function ExprsCalls(es: seq<Expr>): seq<nat>
    decreases es, 0
  {
    if es == [] then [] else ExprCalls(es[0]) + ExprsCalls(es[1..])
  }

  /** A dict display's keys are walked before its values. */
  function KeysCalls(entries: seq<Pair>): seq<nat>
    decreases entries, 0
  {
    if entries == [] then [] else KeyCalls(entries[0]) + KeysCalls(entries[1..])
  }

  function KeyCalls(pair: Pair): seq<nat>
    decreases pair, 2
  {
    ExprCalls(pair.key)
  }

  function ValueCalls(pair: Pair): seq<nat>
    decreases pair, 2
  {
    ExprCalls(pair.value)
  }

  function ValuesCalls(entries: seq<Pair>): seq<nat>
    decreases entries, 0
  {
    if entries == [] then [] else ValueCalls(entries[0]) + ValuesCalls(entries[1..])
  }

  function StmtCalls(s: Stmt): seq<nat>
    decreases s, 1
  {
    match s
    case Do(parts) => ExprsCalls(parts)
    case Raise(parts) => ExprsCalls(parts)
    case Import(_) | ImportFrom(_, _, _) | Break | Continue => []
    case If(test, body, orelse) =>
      if IsFalseGuard(test) then BodyCalls(orelse) else ExprCalls(test) + BodyCalls(body) + BodyCalls(orelse)
    case Loop(before, head, body, orelse) => ExprsCalls(head) + ExprsCalls(before) + BodyCalls(body) + BodyCalls(orelse)
    case Try(body, handlers, orelse, finalbody) =>
      BodyCalls(body) + HandlersCalls(handlers) + BodyCalls(orelse) + BodyCalls(finalbody)
    case With(items, body) => ExprsCalls(items) + BodyCalls(body)
    case FunctionDef(decorators, defaults, _) => ExprsCalls(decorators) + ExprsCalls(defaults)
    case ClassDef(decorators, bases, body) => ArgumentsCalls(bases) + BodyCalls(body) + ExprsCalls(decorators)
  }

  function HandlerCalls(h: Handler): seq<nat>
    decreases h, 1
  {
    ExprsCalls(h.types) + BodyCalls(h.body)
  }

  function HandlersCalls(hs: seq<Handler>): seq<nat>
    decreases hs, 0
  {
    if hs == [] then [] else HandlerCalls(hs[0]) + HandlersCalls(hs[1..])
  }

  function BodyCalls(body: seq<Stmt>): seq<nat>
    decreases body, 0
  {
    if body == [] then [] else StmtCalls(body[0]) + BodyCalls(body[1..])
  }

  // ----- what a loading execution may run: traces of call nodes

  /** Evaluating `e` may run the calls `t`, to the end if `ok`, else up to an exception. */
  ghost predicate Evaluates(e: Expr, t: seq<nat>, ok: bool)
    decreases e, 2
  {
    match e
    case Name(_) => t == []
    case Constant(_) => t == [] && ok
    case Attribute(base, _) => Evaluates(base, t, true) || (!ok && Evaluates(base, t, false))
    case Call(_, _, _) => EvaluatesCall(e, t, ok)
    case Compare(_, _, _) => EvaluatesCompare(e, t, ok)
    case BoolOp(_, _) => EvaluatesBoolOp(e, t, ok)
    case IfExp(test, body, orelse) =>
      || (!ok && Evaluates(test, t, false))
      || exists u, v :: t == u + v && Evaluates(test, u, true) && (Evaluates(body, v, ok) || Evaluates(orelse, v, ok))
    case Lambda(defaults, _) => EvaluatesEach(defaults, t, ok)
    case Comprehension(parts) => exists rounds :: EvaluatesRounds(parts, rounds, t, ok)
    case Dict(entries) => EvaluatesEntries(entries, t, ok)
    case Operands(parts) => EvaluatesEach(parts, t, ok)
  }

  /** Callee, then arguments, then the call itself, which may raise. */
  ghost predicate EvaluatesCall(e: Expr, t: seq<nat>, ok: bool)
    requires e.Call?
    decreases e, 1
  {
    || (!ok && Evaluates(e.func, t, false))
    || (!ok && exists u, v :: t == u + v && Evaluates(e.func, u, true) && EvaluatesArguments(e.args, v, false))
    || (exists u, v :: t == u + v + [e.node] && Evaluates(e.func, u, true) && EvaluatesArguments(e.args, v, true))
  }

  ghost predicate EvaluatesArguments(args: Arguments, t: seq<nat>, ok: bool)
    decreases args, 2
  {
    || (!ok && EvaluatesEach(args.positional, t, false))
    || exists u, v :: t == u + v && EvaluatesEach(args.positional, u, true) && EvaluatesEach(args.named, v, ok)
  }

  /** The first operand, then as many of the others as are not cut short. */
  ghost predicate EvaluatesCompare(e: Expr, t: seq<nat>, ok: bool)
    requires e.Compare?
    decreases e, 1
  {
    || (!ok && Evaluates(e.left, t, false))
    || exists u, v :: t == u + v && Evaluates(e.left, u, true) && EvaluatesPrefix(e.comparators, v, ok)
  }

  ghost predicate EvaluatesBoolOp(e: Expr, t: seq<nat>, ok: bool)
    requires e.BoolOp?
    decreases e, 1
  {
    || (!ok && Evaluates(e.first, t, false))
    || exists u, v :: t == u + v && Evaluates(e.first, u, true) && EvaluatesPrefix(e.others, v, ok)
  }

  ghost predicate EvaluatesEach(es: seq<Expr>, t: seq<nat>, ok: bool)
    decreases es, 0
  {
    if es == [] then t == [] && ok
    else
      || (!ok && Evaluates(es[0], t, false))
      || exists u, v :: t == u + v && Evaluates(es[0], u, true) && EvaluatesEach(es[1..], v, ok)
  }

  /** Entry by entry, key before value. */
  ghost predicate EvaluatesEntries(entries: seq<Pair>, t: seq<nat>, ok: bool)
    decreases entries, 0
  {
    if entries == [] then t == [] && ok
    else
      || (!ok && EvaluatesPair(entries[0], t, false))
      || exists u, v :: t == u + v && EvaluatesPair(entries[0], u, true) && EvaluatesEntries(entries[1..], v, ok)
  }

  ghost predicate EvaluatesPair(pair: Pair, t: seq<nat>, ok: bool)
    decreases pair, 3
  {
    || (!ok && Evaluates(pair.key, t, false))
    || exists u, v :: t == u + v && Evaluates(pair.key, u, true) && Evaluates(pair.value, v, ok)
  }

  ghost predicate EvaluatesPrefix(es: seq<Expr>, t: seq<nat>, ok: bool)
    decreases es, 0
  {
    || (t == [] && ok)
    || (es != [] && (
          || (!ok && Evaluates(es[0], t, false))
          || exists u, v :: t == u + v && Evaluates(es[0], u, true) && EvaluatesPrefix(es[1..], v, ok)))
  }

  /** The parts of a comprehension, any of them, any number of times. */
  ghost predicate EvaluatesRounds(parts: seq<Expr>, rounds: nat, t: seq<nat>, ok: bool)
    decreases parts, 0, rounds
  {
    if rounds == 0 then t == [] && ok
    else
      exists i :: 0 <= i < |parts| && (
                    || (!ok && Evaluates(parts[i], t, false))
                    || exists u, v :: t == u + v && Evaluates(parts[i], u, true)
                                      && EvaluatesRounds(parts, rounds - 1, v, ok))
  }

  // ----- the recorded calls cover every evaluation

  ghost predicate Covers(calls: seq<nat>, t: seq<nat>) {
    forall c :: c in t ==> c in calls
  }

  lemma {:induction false} ExprCovered(e: Expr, t: seq<nat>, ok: bool)
    requires Evaluates(e, t, ok)
    ensures Covers(ExprCalls(e), t)
    decreases e, 2
  {
    match e
    case Name(_) =>
    case Constant(_) =>
    case Attribute(base, _) =>
      if Evaluates(base, t, true) { ExprCovered(base, t, true); } else { ExprCovered(base, t, false); }
    case Call(_, _, _) => CallCovered(e, t, ok);
    case Compare(_, left, comparators) =>
      if !ok && Evaluates(left, t, false) {
        ExprCovered(left, t, false);
      } else {
        var u, v :| t == u + v && Evaluates(left, u, true) && EvaluatesPrefix(comparators, v, ok);
        ExprCovered(left, u, true);
        PrefixCovered(comparators, v, ok);
      }
    case BoolOp(first, others) =>
      if !ok && Evaluates(first, t, false) {
        ExprCovered(first, t, false);
      } else {
        var u, v :| t == u + v && Evaluates(first, u, true) && EvaluatesPrefix(others, v, ok);
        ExprCovered(first, u, true);
        PrefixCovered(others, v, ok);
      }
    case IfExp(_, _, _) => IfExpCovered(e, t, ok);
    case Lambda(defaults, _) => EachCovered(defaults, t, ok);
    case Comprehension(parts) =>
      var rounds :| EvaluatesRounds(parts, rounds, t, ok);
      RoundsCovered(parts, rounds, t, ok);
    case Dict(entries) => EntriesCovered(entries, t, ok);
    case Operands(parts) => EachCovered(parts, t, ok);
  }

  lemma {:induction false} EntriesCovered(entries: seq<Pair>, t: seq<nat>, ok: bool)
    requires EvaluatesEntries(entries, t, ok)
    ensures Covers(KeysCalls(entries) + ValuesCalls(entries), t)
    decreases entries, 0
  {
    if entries != [] {
      if !ok && EvaluatesPair(entries[0], t, false) {
        PairCovered(entries[0], t, false);
      } else {
        var u, v :| t == u + v && EvaluatesPair(entries[0], u, true) && EvaluatesEntries(entries[1..], v, ok);
        PairCovered(entries[0], u, true);
        EntriesCovered(entries[1..], v, ok);
      }
    }
  }

  lemma {:induction false} PairCovered(pair: Pair, t: seq<nat>, ok: bool)
    requires EvaluatesPair(pair, t, ok)
    ensures Covers(KeyCalls(pair) + ValueCalls(pair), t)
    decreases pair, 3
  {
    if !ok && Evaluates(pair.key, t, false) {
      ExprCovered(pair.key, t, false);
    } else {
      var u, v :| t == u + v && Evaluates(pair.key, u, true) && Evaluates(pair.value, v, ok);
      ExprCovered(pair.key, u, true);
      ExprCovered(pair.value, v, ok);
    }
  }

  lemma {:induction false} CallCovered(e: Expr, t: seq<nat>, ok: bool)
    requires e.Call? && EvaluatesCall(e, t, ok)
    ensures Covers(ExprCalls(e), t)
    decreases e, 1
  {
    if !ok && Evaluates(e.func, t, false) {
      ExprCovered(e.func, t, false);
    } else if !ok && exists u, v :: t == u + v && Evaluates(e.func, u, true) && EvaluatesArguments(e.args, v, false) {
      var u, v :| t == u + v && Evaluates(e.func, u, true) && EvaluatesArguments(e.args, v, false);
      ExprCovered(e.func, u, true);
      ArgumentsCovered(e.args, v, false);
    } else {
      var u, v :| t == u + v + [e.node] && Evaluates(e.func, u, true) && EvaluatesArguments(e.args, v, true);
      ExprCovered(e.func, u, true);
      ArgumentsCovered(e.args, v, true);
    }
  }

  lemma {:induction false} ArgumentsCovered(args: Arguments, t: seq<nat>, ok: bool)
    requires EvaluatesArguments(args, t, ok)
    ensures Covers(ArgumentsCalls(args), t)
    decreases args, 2
  {
    if !ok && EvaluatesEach(args.positional, t, false) {
      EachCovered(args.positional, t, false);
    } else {
      var u, v :| t == u + v && EvaluatesEach(args.positional, u, true) && EvaluatesEach(args.named, v, ok);
      EachCovered(args.positional, u, true);
      EachCovered(args.named, v, ok);
    }
  }

  lemma {:induction false} IfExpCovered(e: Expr, t: seq<nat>, ok: bool)
    requires e.IfExp? && Evaluates(e, t, ok)
    ensures Covers(ExprCalls(e), t)
    decreases e, 1
  {
    if !ok && Evaluates(e.test, t, false) {
      ExprCovered(e.test, t, false);
    } else {
      var u, v :| t == u + v && Evaluates(e.test, u, true) && (Evaluates(e.body, v, ok) || Evaluates(e.orelse, v, ok));
      ExprCovered(e.test, u, true);
      if Evaluates(e.body, v, ok) { ExprCovered(e.body, v, ok); } else { ExprCovered(e.orelse, v, ok); }
    }
  }

  lemma {:induction false} EachCovered(es: seq<Expr>, t: seq<nat>, ok: bool)
    requires EvaluatesEach(es, t, ok)
    ensures Covers(ExprsCalls(es), t)
    decreases es, 0
  {
    if es != [] {
      if !ok && Evaluates(es[0], t, false) {
        ExprCovered(es[0], t, false);
      } else {
        var u, v :| t == u + v && Evaluates(es[0], u, true) && EvaluatesEach(es[1..], v, ok);
        ExprCovered(es[0], u, true);
        EachCovered(es[1..], v, ok);
      }
    }
  }

  lemma {:induction false} PrefixCovered(es: seq<Expr>, t: seq<nat>, ok: bool)
    requires EvaluatesPrefix(es, t, ok)
    ensures Covers(ExprsCalls(es), t)
    decreases es, 0
  {
    if t != [] || !ok {
      if !ok && Evaluates(es[0], t, false) {
        ExprCovered(es[0], t, false);
      } else {
        var u, v :| t == u + v && Evaluates(es[0], u, true) && EvaluatesPrefix(es[1..], v, ok);
        ExprCovered(es[0], u, true);
        PrefixCovered(es[1..], v, ok);
      }
    }
  }

  lemma {:induction false} PartCovered(parts: seq<Expr>, i: nat, t: seq<nat>)
    requires i < |parts| && Covers(ExprCalls(parts[i]), t)
    ensures Covers(ExprsCalls(parts), t)
  {
    if i > 0 {
      PartCovered(parts[1..], i - 1, t);
    }
  }

  lemma {:induction false} RoundsCovered(parts: seq<Expr>, rounds: nat, t: seq<nat>, ok: bool)
    requires EvaluatesRounds(parts, rounds, t, ok)
    ensures Covers(ExprsCalls(parts), t)
    decreases parts, 0, rounds
  {
    if rounds > 0 {
      var i :| 0 <= i < |parts| && (
                 || (!ok && Evaluates(parts[i], t, false))
                 || exists u, v :: t == u + v && Evaluates(parts[i], u, true)
                                   && EvaluatesRounds(parts, rounds - 1, v, ok));
      if !ok && Evaluates(parts[i], t, false) {
        ExprCovered(parts[i], t, false);
        PartCovered(parts, i, t);
      } else {
        var u, v :| t == u + v && Evaluates(parts[i], u, true) && EvaluatesRounds(parts, rounds - 1, v, ok);
        ExprCovered(parts[i], u, true);
        PartCovered(parts, i, u);
        RoundsCovered(parts, rounds - 1, v, ok);
      }
    }
  }

  // ----- every recorded call of an expression runs in some evaluation

  lemma {:induction false} ExprCompletes(e: Expr) returns (t: seq<nat>)
    ensures Evaluates(e, t, true)
    decreases e, 1
  {
    t := [];
    match e
    case Name(_) | Constant(_) =>
    case Attribute(base, _) => t := ExprCompletes(base);
    case Call(node, func, args) =>
      var u := ExprCompletes(func);
      var v := ArgumentsComplete(args);
      t := u + v + [node];
    case Compare(_, left, comparators) =>
      t := ExprCompletes(left);
      assert t == t + [] && EvaluatesPrefix(comparators, [], true);
    case BoolOp(first, others) =>
      t := ExprCompletes(first);
      assert t == t + [] && EvaluatesPrefix(others, [], true);
    case IfExp(test, body, _) =>
      var u := ExprCompletes(test);
      var v := ExprCompletes(body);
      t := u + v;
    case Lambda(defaults, _) => t := EachCompletes(defaults);
    case Comprehension(parts) => assert EvaluatesRounds(parts, 0, t, true);
    case Dict(entries) => t := EntriesComplete(entries);
    case Operands(parts) => t := EachCompletes(parts);
  }

  lemma {:induction false} EntriesComplete(entries: seq<Pair>) returns (t: seq<nat>)
    ensures EvaluatesEntries(entries, t, true)
    decreases entries, 0
  {
    t := [];
    if entries != [] {
      var u := PairCompletes(entries[0]);
      var v := EntriesComplete(entries[1..]);
      t := u + v;
    }
  }

  lemma {:induction false} PairCompletes(pair: Pair) returns (t: seq<nat>)
    ensures EvaluatesPair(pair, t, true)
    decreases pair, 2
  {
    var u := ExprCompletes(pair.key);
    var v := ExprCompletes(pair.value);
    t := u + v;
  }

  lemma {:induction false} ArgumentsComplete(args: Arguments) returns (t: seq<nat>)
    ensures EvaluatesArguments(args, t, true)
    decreases args, 2
  {
    var u := EachCompletes(args.positional);
    var v := EachCompletes(args.named);
    t := u + v;
  }

  lemma {:induction false} EachCompletes(es: seq<Expr>) returns (t: seq<nat>)
    ensures EvaluatesEach(es, t, true)
    decreases es, 0
  {
    t := [];
    if es != [] {
      var u := ExprCompletes(es[0]);
      var v := EachCompletes(es[1..]);
      t := u + v;
    }
  }

  lemma {:induction false} ExprReached(e: Expr, c: nat) returns (t: seq<nat>)
    requires c in ExprCalls(e)
    ensures Evaluates(e, t, true) && c in t
    decreases e, 1
  {
    match e
    case Attribute(base, _) => t := ExprReached(base, c);
    case Call(_, _, _) => t := CallReached(e, c);
    case Compare(_, left, comparators) =>
      var u, v;
      if c in ExprCalls(left) {
        u := ExprReached(left, c);
        v := [];
      } else {
        u := ExprCompletes(left);
        v := PrefixReached(comparators, c);
      }
      t := u + v;
    case BoolOp(first, others) =>
      var u, v;
      if c in ExprCalls(first) {
        u := ExprReached(first, c);
        v := [];
      } else {
        u := ExprCompletes(first);
        v := PrefixReached(others, c);
      }
      t := u + v;
    case IfExp(test, body, orelse) =>
      var u, v;
      if c in ExprCalls(test) {
        u := ExprReached(test, c);
        v := ExprCompletes(body);
      } else {
        u := ExprCompletes(test);
        if c in ExprCalls(body) { v := ExprReached(body, c); } else { v := ExprReached(orelse, c); }
      }
      t := u + v;
    case Lambda(defaults, _) => t := EachReached(defaults, c);
    case Comprehension(parts) =>
      var i := PartOf(parts, c);
      t := ExprReached(parts[i], c);
      assert EvaluatesRounds(parts, 0, [], true) && t == t + [];
      assert EvaluatesRounds(parts, 1, t, true);
    case Dict(entries) => t := EntriesReached(entries, c);
    case Operands(parts) => t := EachReached(parts, c);
  }

  lemma {:induction false} EntriesReached(entries: seq<Pair>, c: nat) returns (t: seq<nat>)
    requires c in KeysCalls(entries) || c in ValuesCalls(entries)
    ensures EvaluatesEntries(entries, t, true) && c in t
    decreases entries, 0
  {
    var u, v;
    if c in KeyCalls(entries[0]) || c in ValueCalls(entries[0]) {
      u := PairReached(entries[0], c);
      v := EntriesComplete(entries[1..]);
    } else {
      u := PairCompletes(entries[0]);
      v := EntriesReached(entries[1..], c);
    }
    t := u + v;
  }

  lemma {:induction false} PairReached(pair: Pair, c: nat) returns (t: seq<nat>)
    requires c in KeyCalls(pair) || c in ValueCalls(pair)
    ensures EvaluatesPair(pair, t, true) && c in t
    decreases pair, 2
  {
    var u, v;
    if c in ExprCalls(pair.key) {
      u := ExprReached(pair.key, c);
      v := ExprCompletes(pair.value);
    } else {
      u := ExprCompletes(pair.key);
      v := ExprReached(pair.value, c);
    }
    t := u + v;
  }

  lemma {:induction false} CallReached(e: Expr, c: nat) returns (t: seq<nat>)
    requires e.Call? && c in ExprCalls(e)
    ensures Evaluates(e, t, true) && c in t
    decreases e, 0
  {
    var u, v;
    if c in ExprCalls(e.func) { u := ExprReached(e.func, c); } else { u := ExprCompletes(e.func); }
    if c in ArgumentsCalls(e.args) { v := ArgumentsReached(e.args, c); } else { v := ArgumentsComplete(e.args); }
    t := u + v + [e.node];
  }

  lemma {:induction false} ArgumentsReached(args: Arguments, c: nat) returns (t: seq<nat>)
    requires c in ArgumentsCalls(args)
    ensures EvaluatesArguments(args, t, true) && c in t
    decreases args, 2
  {
    var u, v;
    if c in ExprsCalls(args.positional) {
      u := EachReached(args.positional, c);
      v := EachCompletes(args.named);
    } else {
      u := EachCompletes(args.positional);
      v := EachReached(args.named, c);
    }
    t := u + v;
  }

  lemma {:induction false} EachReached(es: seq<Expr>, c: nat) returns (t: seq<nat>)
    requires c in ExprsCalls(es)
    ensures EvaluatesEach(es, t, true) && c in t
    decreases es, 0
  {
    var u, v;
    if c in ExprCalls(es[0]) {
      u := ExprReached(es[0], c);
      v := EachCompletes(es[1..]);
    } else {
      u := ExprCompletes(es[0]);
      v := EachReached(es[1..], c);
    }
    t := u + v;
  }

  lemma {:induction false} PrefixReached(es: seq<Expr>, c: nat) returns (t: seq<nat>)
    requires c in ExprsCalls(es)
    ensures EvaluatesPrefix(es, t, true) && c in t
    decreases es, 0
  {
    var u, v;
    if c in ExprCalls(es[0]) {
      u := ExprReached(es[0], c);
      v := [];
    } else {
      u := ExprCompletes(es[0]);
      v := PrefixReached(es[1..], c);
    }
    t := u + v;
  }

  lemma {:induction false} PartOf(parts: seq<Expr>, c: nat) returns (i: nat)
    requires c in ExprsCalls(parts)
    ensures i < |parts| && c in ExprCalls(parts[i])
  {
    if c in ExprCalls(parts[0]) {
      i := 0;
    } else {
      i := PartOf(parts[1..], c);
      i := i + 1;
    }
  }

  /** For an expression, what is recorded is what can run, no more and no less. */
  lemma RecordedExactly(e: Expr, c: nat)
    ensures c in ExprCalls(e) <==> exists t, ok :: Evaluates(e, t, ok) && c in t
  {
    if c in ExprCalls(e) {
      var t := ExprReached(e, c);
      assert Evaluates(e, t, true) && c in t;
    }
    forall t, ok | Evaluates(e, t, ok) && c in t ensures c in ExprCalls(e) {
      ExprCovered(e, t, ok);
    }
  }

  // ----- statements

  datatype Signal = Normal | Raised | Broke | Continued

  /** Running `s` while the module loads may run the calls `t` and end by `sig`. A false guard
      takes its `else` branch; bodies of functions do not run. */
  ghost predicate Runs(s: Stmt, t: seq<nat>, sig: Signal)
    decreases s, 3
  {
    match s
    case Do(parts) => Simple(parts, t, sig)
    case Raise(parts) => sig.Raised? && Simple(parts, t, sig)
    case Import(_) => t == [] && (sig.Normal? || sig.Raised?)
    case ImportFrom(_, _, _) => t == [] && (sig.Normal? || sig.Raised?)
    case Break => t == [] && sig.Broke?
    case Continue => t == [] && sig.Continued?
    case If(test, body, orelse) =>
      || (sig.Raised? && (Evaluates(test, t, false) || Evaluates(test, t, true)))
      || exists u, v :: t == u + v && Evaluates(test, u, true) &&
                        ((!IsFalseGuard(test) && RunsBody(body, v, sig)) || RunsBody(orelse, v, sig))
    case Loop(before, _, _, _) =>
      || (sig.Raised? && Simple(before, t, sig))
      || exists u, v, rounds :: t == u + v && Simple(before, u, Normal) && RunsLoop(s, rounds, v, sig)
    case Try(_, _, _, _) => RunsTry(s, t, sig)
    case With(items, body) =>
      || (sig.Raised? && EvaluatesEach(items, t, false))
      || exists u, v, inner :: t == u + v && EvaluatesEach(items, u, true) && RunsBody(body, v, inner) &&
                               Leaves(inner, sig)
    case FunctionDef(decorators, defaults, _) =>
      || (sig.Raised? && Simple(decorators, t, sig))
      || exists u, v :: t == u + v && Simple(decorators, u, Normal) && Simple(defaults, v, sig)
    case ClassDef(decorators, bases, body) =>
      || (sig.Raised? && Simple(decorators, t, sig))
      || (sig.Raised? && exists u, v :: t == u + v && Simple(decorators, u, Normal) && SimpleArguments(bases, v, sig))
      || exists u, v, w :: t == u + v + w && Simple(decorators, u, Normal) && SimpleArguments(bases, v, Normal) &&
                           RunsBody(body, w, sig)
  }

  /** Evaluate all of `parts` and go on, or stop at an exception, possibly one of its own. */
  ghost predicate Simple(parts: seq<Expr>, t: seq<nat>, sig: Signal) {
    || (sig.Raised? && EvaluatesEach(parts, t, false))
    || ((sig.Normal? || sig.Raised?) && EvaluatesEach(parts, t, true))
  }

  ghost predicate SimpleArguments(args: Arguments, t: seq<nat>, sig: Signal) {
    || (sig.Raised? && EvaluatesArguments(args, t, false))
    || ((sig.Normal? || sig.Raised?) && EvaluatesArguments(args, t, true))
  }

  /** Leaving a `with` block: its exit may raise, or swallow an exception. */
  predicate Leaves(inner: Signal, sig: Signal) {
    sig == inner || sig.Raised? || (inner.Raised? && sig.Normal?)
  }

  /** Rounds of a loop, each after its head, until it ends, breaks or raises. */
  ghost predicate RunsLoop(s: Stmt, rounds: nat, t: seq<nat>, sig: Signal)
    requires s.Loop?
    decreases s, 2, rounds, 0
  {
    if rounds == 0 then
      || (sig.Raised? && EvaluatesEach(s.head, t, false))
      || RunsBody(s.orelse, t, sig)
      || exists u, v :: t == u + v && EvaluatesEach(s.head, u, true) && RunsBody(s.orelse, v, sig)
    else exists r :: RunsRound(s, rounds, t, sig, r)
  }

  datatype Round = Round(head: seq<nat>, body: seq<nat>, inner: Signal, rest: seq<nat>)

  ghost predicate RunsRound(s: Stmt, rounds: nat, t: seq<nat>, sig: Signal, r: Round)
    requires s.Loop? && rounds > 0
    decreases s, 2, rounds - 1, 1
  {
    && t == r.head + r.body + r.rest
    && EvaluatesEach(s.head, r.head, true)
    && RunsBody(s.body, r.body, r.inner)
    && (if r.inner.Raised? || r.inner.Broke? then r.rest == [] && sig == (if r.inner.Broke? then Normal else Raised)
        else RunsLoop(s, rounds - 1, r.rest, sig))
  }

  datatype TryRun = TryRun(body: seq<nat>, inner: Signal, middle: seq<nat>, result: Signal, finish: seq<nat>,
                           last: Signal)

  /** Body, then handlers or `else`, then the final block. */
  ghost predicate RunsTry(s: Stmt, t: seq<nat>, sig: Signal)
    requires s.Try?
    decreases s, 2, 1
  {
    exists r :: RunsTryAs(s, t, sig, r)
  }

  ghost predicate RunsTryAs(s: Stmt, t: seq<nat>, sig: Signal, r: TryRun)
    requires s.Try?
    decreases s, 2, 0
  {
    && t == r.body + r.middle + r.finish
    && RunsBody(s.body, r.body, r.inner)
    && RunsMiddle(s, r.middle, r.inner, r.result)
    && RunsBody(s.finalbody, r.finish, r.last)
    && sig == (if r.last.Normal? then r.result else r.last)
  }

  ghost predicate RunsMiddle(s: Stmt, t: seq<nat>, inner: Signal, sig: Signal)
    requires s.Try?
    decreases s, 1
  {
    if inner.Raised? then RunsHandlers(s.handlers, t, sig)
    else if inner.Normal? then RunsBody(s.orelse, t, sig)
    else t == [] && sig == inner
  }

  /** Handlers are tried in order; one may match, or none. */
  ghost predicate RunsHandlers(hs: seq<Handler>, t: seq<nat>, sig: Signal)
    decreases hs, 0
  {
    if hs == [] then t == [] && sig.Raised?
    else
      || (sig.Raised? && EvaluatesEach(hs[0].types, t, false))
      || exists u, v :: t == u + v && EvaluatesEach(hs[0].types, u, true) &&
                        (RunsHandler(hs[0], v, sig) || RunsHandlers(hs[1..], v, sig))
  }

  ghost predicate RunsHandler(h: Handler, t: seq<nat>, sig: Signal)
    decreases h, 1
  {
    RunsBody(h.body, t, sig)
  }

  ghost predicate RunsBody(body: seq<Stmt>, t: seq<nat>, sig: Signal)
    decreases body, 0
  {
    if body == [] then t == [] && sig.Normal?
    else
      || (!sig.Normal? && Runs(body[0], t, sig))
      || exists u, v :: t == u + v && Runs(body[0], u, Normal) && RunsBody(body[1..], v, sig)
  }

  // ----- the guard tests' calls

  /** The calls in the tests of false guards, which the visitor does not look at. */
  function StmtGuards(s: Stmt): seq<nat>
    decreases s, 1
  {
    match s
    case Do(_) | Raise(_) | Import(_) | ImportFrom(_, _, _) | Break | Continue | FunctionDef(_, _, _) => []
    case If(test, body, orelse) =>
      if IsFalseGuard(test) then ExprCalls(test) + BodyGuards(orelse) else BodyGuards(body) + BodyGuards(orelse)
    case Loop(_, _, body, orelse) => BodyGuards(body) + BodyGuards(orelse)
    case Try(body, handlers, orelse, finalbody) =>
      BodyGuards(body) + HandlersGuards(handlers) + BodyGuards(orelse) + BodyGuards(finalbody)
    case With(_, body) => BodyGuards(body)
    case ClassDef(_, _, body) => BodyGuards(body)
  }

  function HandlersGuards(hs: seq<Handler>): seq<nat>
    decreases hs, 0
  {
    if hs == [] then [] else HandlerGuards(hs[0]) + HandlersGuards(hs[1..])
  }

  function HandlerGuards(h: Handler): seq<nat>
    decreases h, 1
  {
    BodyGuards(h.body)
  }

  function BodyGuards(body: seq<Stmt>): seq<nat>
    decreases body, 0
  {
    if body == [] then [] else StmtGuards(body[0]) + BodyGuards(body[1..])
  }
}
