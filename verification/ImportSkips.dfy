/** What the import-time visitor leaves out: every call node of a module is recorded, stands
    in a false guard's test, or stands in a function, lambda or false-guarded body
    (`antipatterns.py`: `visit_If`, `_visit_definition_time_parts`). */
module ImportSkips {
  import opened ImportTime

  /** All occurrences of a call node, or those inside bodies that do not run while loading. */
  datatype Part = All | Deferred

  function ExprCount(e: Expr, part: Part, n: nat): nat
    decreases e, 1
  {
    match e
    case Name(_) | Constant(_) => 0
    case Attribute(base, _) => ExprCount(base, part, n)
    case Call(node, func, args) =>
      (if part.All? && node == n then 1 else 0) + ExprCount(func, part, n) + ArgumentsCount(args, part, n)
    case Compare(_, left, comparators) => ExprCount(left, part, n) + ExprsCount(comparators, part, n)
    case BoolOp(first, others) => ExprCount(first, part, n) + ExprsCount(others, part, n)
    case IfExp(test, body, orelse) => ExprCount(test, part, n) + ExprCount(body, part, n) + ExprCount(orelse, part, n)
    case Lambda(defaults, body) => ExprsCount(defaults, part, n) + ExprCount(body, All, n)
    case Comprehension(parts) => ExprsCount(parts, part, n)
    case Dict(entries) => EntriesCount(entries, part, n)
    case Operands(parts) => ExprsCount(parts, part, n)
  }

  function ArgumentsCount(args: Arguments, part: Part, n: nat): nat
    decreases args, 2
  {
    ExprsCount(args.positional, part, n) + ExprsCount(args.named, part, n)
  }

  function ExprsCount(es: seq<Expr>, part: Part, n: nat): nat
    decreases es, 0
  {
    if es == [] then 0 else ExprCount(es[0], part, n) + ExprsCount(es[1..], part, n)
  }

  function EntriesCount(entries: seq<Pair>, part: Part, n: nat): nat
    decreases entries, 0
  {
    if entries == [] then 0
    else PairCount(entries[0], part, n) + EntriesCount(entries[1..], part, n)
  }

  function PairCount(pair: Pair, part: Part, n: nat): nat
    decreases pair, 2
  {
    ExprCount(pair.key, part, n) + ExprCount(pair.value, part, n)
  }

  function StmtCount(s: Stmt, part: Part, n: nat): nat
    decreases s, 1
  {
    match s
    case Do(parts) => ExprsCount(parts, part, n)
    case Raise(parts) => ExprsCount(parts, part, n)
    case Import(_) | ImportFrom(_, _, _) | Break | Continue => 0
    case If(test, body, orelse) =>
      ExprCount(test, part, n) + BodyCount(body, if IsFalseGuard(test) then All else part, n) +
      BodyCount(orelse, part, n)
    case Loop(before, head, body, orelse) =>
      ExprsCount(head, part, n) + ExprsCount(before, part, n) + BodyCount(body, part, n) + BodyCount(orelse, part, n)
    case Try(body, handlers, orelse, finalbody) =>
      BodyCount(body, part, n) + HandlersCount(handlers, part, n) + BodyCount(orelse, part, n) +
      BodyCount(finalbody, part, n)
    case With(items, body) => ExprsCount(items, part, n) + BodyCount(body, part, n)
    case FunctionDef(decorators, defaults, body) =>
      ExprsCount(decorators, part, n) + ExprsCount(defaults, part, n) + BodyCount(body, All, n)
    case ClassDef(decorators, bases, body) =>
      ArgumentsCount(bases, part, n) + BodyCount(body, part, n) + ExprsCount(decorators, part, n)
  }

  function HandlerCount(h: Handler, part: Part, n: nat): nat
    decreases h, 1
  {
    ExprsCount(h.types, part, n) + BodyCount(h.body, part, n)
  }

  function HandlersCount(hs: seq<Handler>, part: Part, n: nat): nat
    decreases hs, 0
  {
    if hs == [] then 0 else HandlerCount(hs[0], part, n) + HandlersCount(hs[1..], part, n)
  }

  function BodyCount(body: seq<Stmt>, part: Part, n: nat): nat
    decreases body, 0
  {
    if body == [] then 0 else StmtCount(body[0], part, n) + BodyCount(body[1..], part, n)
  }

  // ----- occurrences in what is recorded

  function Times(xs: seq<nat>, n: nat): nat {
    if xs == [] then 0 else (if xs[0] == n then 1 else 0) + Times(xs[1..], n)
  }

  lemma {:induction false} TimesJoined(a: seq<nat>, b: seq<nat>, n: nat)
    ensures Times(a + b, n) == Times(a, n) + Times(b, n)
  {
    if a == [] {
      assert a + b == b;
    } else {
      assert (a + b)[1..] == a[1..] + b;
      TimesJoined(a[1..], b, n);
    }
  }

  lemma TimesJoined3(a: seq<nat>, b: seq<nat>, c: seq<nat>, n: nat)
    ensures Times(a + b + c, n) == Times(a, n) + Times(b, n) + Times(c, n)
  {
    TimesJoined(a + b, c, n);
    TimesJoined(a, b, n);
  }

  lemma TimesJoined4(a: seq<nat>, b: seq<nat>, c: seq<nat>, d: seq<nat>, n: nat)
    ensures Times(a + b + c + d, n) == Times(a, n) + Times(b, n) + Times(c, n) + Times(d, n)
  {
    TimesJoined(a + b + c, d, n);
    TimesJoined3(a, b, c, n);
  }

  lemma {:induction false} TimesMember(xs: seq<nat>, n: nat)
    ensures n in xs <==> Times(xs, n) > 0
  {
    if xs != [] {
      TimesMember(xs[1..], n);
      assert xs == [xs[0]] + xs[1..];
    }
  }

  // ----- the account

  lemma {:induction false} ExprAccounted(e: Expr, n: nat)
    ensures ExprCount(e, All, n) == Times(ExprCalls(e), n) + ExprCount(e, Deferred, n)
    decreases e, 1
  {
    match e
    case Name(_) | Constant(_) =>
    case Attribute(base, _) => ExprAccounted(base, n);
    case Call(node, func, args) =>
      ExprAccounted(func, n);
      ArgumentsAccounted(args, n);
      TimesJoined3([node], ExprCalls(func), ArgumentsCalls(args), n);
    case Compare(_, left, comparators) =>
      ExprAccounted(left, n);
      ExprsAccounted(comparators, n);
      TimesJoined(ExprCalls(left), ExprsCalls(comparators), n);
    case BoolOp(first, others) =>
      ExprAccounted(first, n);
      ExprsAccounted(others, n);
      TimesJoined(ExprCalls(first), ExprsCalls(others), n);
    case IfExp(test, body, orelse) =>
      ExprAccounted(test, n);
      ExprAccounted(body, n);
      ExprAccounted(orelse, n);
      TimesJoined3(ExprCalls(test), ExprCalls(body), ExprCalls(orelse), n);
    case Lambda(defaults, _) => ExprsAccounted(defaults, n);
    case Comprehension(parts) => ExprsAccounted(parts, n);
    case Dict(entries) =>
      EntriesAccounted(entries, n);
      TimesJoined(KeysCalls(entries), ValuesCalls(entries), n);
    case Operands(parts) => ExprsAccounted(parts, n);
  }

  lemma {:induction false} ArgumentsAccounted(args: Arguments, n: nat)
    ensures ArgumentsCount(args, All, n) == Times(ArgumentsCalls(args), n) + ArgumentsCount(args, Deferred, n)
    decreases args, 2
  {
    ExprsAccounted(args.positional, n);
    ExprsAccounted(args.named, n);
    TimesJoined(ExprsCalls(args.positional), ExprsCalls(args.named), n);
  }

  lemma {:induction false} ExprsAccounted(es: seq<Expr>, n: nat)
    ensures ExprsCount(es, All, n) == Times(ExprsCalls(es), n) + ExprsCount(es, Deferred, n)
    decreases es, 0
  {
    if es != [] {
      ExprAccounted(es[0], n);
      ExprsAccounted(es[1..], n);
      TimesJoined(ExprCalls(es[0]), ExprsCalls(es[1..]), n);
    }
  }

  lemma {:induction false} EntriesAccounted(entries: seq<Pair>, n: nat)
    ensures EntriesCount(entries, All, n)
         == Times(KeysCalls(entries), n) + Times(ValuesCalls(entries), n) + EntriesCount(entries, Deferred, n)
    decreases entries, 0
  {
    if entries != [] {
      PairAccounted(entries[0], n);
      EntriesAccounted(entries[1..], n);
      TimesJoined(KeyCalls(entries[0]), KeysCalls(entries[1..]), n);
      TimesJoined(ValueCalls(entries[0]), ValuesCalls(entries[1..]), n);
    }
  }

  lemma {:induction false} PairAccounted(pair: Pair, n: nat)
    ensures PairCount(pair, All, n) == Times(KeyCalls(pair), n) + Times(ValueCalls(pair), n) +
                                       PairCount(pair, Deferred, n)
    decreases pair, 2
  {
    ExprAccounted(pair.key, n);
    ExprAccounted(pair.value, n);
  }

  ghost predicate StmtBalances(s: Stmt, n: nat) {
    StmtCount(s, All, n) == Times(StmtCalls(s), n) + Times(StmtGuards(s), n) + StmtCount(s, Deferred, n)
  }

  lemma {:induction false} StmtAccounted(s: Stmt, n: nat)
    ensures StmtBalances(s, n)
    decreases s, 1
  {
    match s
    case Do(parts) => ExprsAccounted(parts, n);
    case Raise(parts) => ExprsAccounted(parts, n);
    case Import(_) | ImportFrom(_, _, _) | Break | Continue =>
    case If(test, body, orelse) =>
      ExprAccounted(test, n);
      BodyAccounted(body, n);
      BodyAccounted(orelse, n);
      if IsFalseGuard(test) {
        TimesJoined(ExprCalls(test), BodyGuards(orelse), n);
      } else {
        TimesJoined3(ExprCalls(test), BodyCalls(body), BodyCalls(orelse), n);
        TimesJoined(BodyGuards(body), BodyGuards(orelse), n);
      }
    case Loop(_, _, _, _) => LoopAccounted(s, n);
    case Try(_, _, _, _) => TryAccounted(s, n);
    case With(items, body) =>
      ExprsAccounted(items, n);
      BodyAccounted(body, n);
      TimesJoined(ExprsCalls(items), BodyCalls(body), n);
    case FunctionDef(decorators, defaults, _) =>
      ExprsAccounted(decorators, n);
      ExprsAccounted(defaults, n);
      TimesJoined(ExprsCalls(decorators), ExprsCalls(defaults), n);
    case ClassDef(decorators, bases, body) =>
      ArgumentsAccounted(bases, n);
      BodyAccounted(body, n);
      ExprsAccounted(decorators, n);
      TimesJoined3(ArgumentsCalls(bases), BodyCalls(body), ExprsCalls(decorators), n);
  }

  lemma {:induction false} LoopAccounted(s: Stmt, n: nat)
    requires s.Loop?
    ensures StmtBalances(s, n)
    decreases s, 0
  {
    ExprsAccounted(s.head, n);
    ExprsAccounted(s.before, n);
    BodyAccounted(s.body, n);
    BodyAccounted(s.orelse, n);
    TimesJoined4(ExprsCalls(s.head), ExprsCalls(s.before), BodyCalls(s.body), BodyCalls(s.orelse), n);
    TimesJoined(BodyGuards(s.body), BodyGuards(s.orelse), n);
  }

  lemma {:induction false} TryAccounted(s: Stmt, n: nat)
    requires s.Try?
    ensures StmtBalances(s, n)
    decreases s, 0
  {
    BodyAccounted(s.body, n);
    HandlersAccounted(s.handlers, n);
    BodyAccounted(s.orelse, n);
    BodyAccounted(s.finalbody, n);
    TimesJoined4(BodyCalls(s.body), HandlersCalls(s.handlers), BodyCalls(s.orelse), BodyCalls(s.finalbody), n);
    TimesJoined4(BodyGuards(s.body), HandlersGuards(s.handlers), BodyGuards(s.orelse), BodyGuards(s.finalbody), n);
  }

  lemma {:induction false} HandlersAccounted(hs: seq<Handler>, n: nat)
    ensures HandlersCount(hs, All, n) == Times(HandlersCalls(hs), n) + Times(HandlersGuards(hs), n) +
                                         HandlersCount(hs, Deferred, n)
    decreases hs, 0
  {
    if hs != [] {
      HandlerAccounted(hs[0], n);
      HandlersAccounted(hs[1..], n);
      TimesJoined(HandlerCalls(hs[0]), HandlersCalls(hs[1..]), n);
      TimesJoined(HandlerGuards(hs[0]), HandlersGuards(hs[1..]), n);
    }
  }

  lemma {:induction false} HandlerAccounted(h: Handler, n: nat)
    ensures HandlerCount(h, All, n) == Times(HandlerCalls(h), n) + Times(HandlerGuards(h), n) +
                                       HandlerCount(h, Deferred, n)
    decreases h, 1
  {
    ExprsAccounted(h.types, n);
    BodyAccounted(h.body, n);
    TimesJoined(ExprsCalls(h.types), BodyCalls(h.body), n);
  }

  /** Every occurrence of a call node in a module is accounted for once. */
  lemma {:induction false} BodyAccounted(body: seq<Stmt>, n: nat)
    ensures BodyCount(body, All, n) == Times(BodyCalls(body), n) + Times(BodyGuards(body), n) +
                                       BodyCount(body, Deferred, n)
    decreases body, 0
  {
    if body != [] {
      StmtAccounted(body[0], n);
      BodyAccounted(body[1..], n);
      TimesJoined(StmtCalls(body[0]), BodyCalls(body[1..]), n);
      TimesJoined(StmtGuards(body[0]), BodyGuards(body[1..]), n);
    }
  }

  /** So a node that occurs once, in a deferred body, is not recorded; and one that is neither
      there nor in a false guard's test is. */
  lemma RecordedUnlessDeferred(body: seq<Stmt>, n: nat)
    requires BodyCount(body, All, n) == 1
    ensures n in BodyCalls(body) <==> BodyCount(body, Deferred, n) == 0 && n !in BodyGuards(body)
  {
    BodyAccounted(body, n);
    TimesMember(BodyCalls(body), n);
    TimesMember(BodyGuards(body), n);
  }
}
