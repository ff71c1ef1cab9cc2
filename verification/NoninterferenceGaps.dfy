/** Why module Noninterference leaves out what it leaves out: Dag files that do something the
    analyzer does not look into, draw no finding, and reach the Dag constructor with a different
    argument from one load to the next. */
module NoninterferenceGaps {
  import opened Prelude
  import opened DagSyntax
  import opened VaryingAnalyzer
  import opened DagArgsVisitor
  import opened DagExecution
  import opened LeakingFiles

  // ----- expressions

  /** `uuid4().hex`: an attribute outside callee position is taken as stable. */
  lemma AttributeLeaks()
    ensures Leaks(File([] + [DagOf(Attribute(FRESH, "hex"))]))
  {
    var arg := Attribute(FRESH, "hex");
    Begins();
    FreshAttribute(0);
    FreshAttribute(1);
    StartIsReady();
    LeaksAt([], arg, STATE, ENV, ENV, [], Member(Observed(0), "hex"), Member(Observed(1), "hex"), ENV, ENV);
  }

  lemma FreshAttribute(reading: int)
    ensures Yields(Attribute(FRESH, "hex"), ENV, Member(Observed(reading), "hex"))
  {
    Fresh(ENV, reading);
    assert Resolve(Attribute(FRESH, "hex"), ENV).None?;
  }

  /** `[uuid4()][0]`: a subscript is not looked into. */
  lemma SubscriptLeaks()
    ensures Leaks(File([] + [DagOf(Opaque([Display(ListDisplay, [FRESH]), Constant(0)]))]))
  {
    var arg := Opaque([Display(ListDisplay, [FRESH]), Constant(0)]);
    Begins();
    SubscriptEvaluates(0);
    SubscriptEvaluates(1);
    StartIsReady();
    var v1, v2 := SubscriptValue(0), SubscriptValue(1);
    assert v1.operands[0].items[0] != v2.operands[0].items[0];
    LeaksAt([], arg, STATE, ENV, ENV, [], v1, v2, ENV, ENV);
  }

  function SubscriptValue(reading: int): Value {
    Operated([Collected(ListDisplay, [Observed(reading)]), Literal(0)])
  }

  lemma SubscriptEvaluates(reading: int)
    ensures Yields(Opaque([Display(ListDisplay, [FRESH]), Constant(0)]), ENV, SubscriptValue(reading))
  {
    var list := Display(ListDisplay, [FRESH]);
    Fresh(ENV, reading);
    YieldsOne(FRESH, ENV, Observed(reading));
    assert Yields(list, ENV, Collected(ListDisplay, [Observed(reading)]));
    YieldsTwo(list, Constant(0), ENV, Collected(ListDisplay, [Observed(reading)]), Literal(0));
  }

  // ----- assignments and loops

  /** `now = uuid4`, `now()`: a call through an assigned variable is not seen. */
  lemma AliasLeaks()
    ensures Leaks(File([Assign([Name("now")], Name("uuid4"), 1)] + [DagOf(CallOf(Name("now"), []))]))
  {
    var stmt, arg := Assign([Name("now")], Name("uuid4"), 1), CallOf(Name("now"), []);
    assert Yields(Name("uuid4"), ENV, Imported(["uuid", "uuid4"]));
    AssignsOne("now", Name("uuid4"), STATE, ENV, Imported(["uuid", "uuid4"]), ENV);
    Opens(stmt, STATE, ALIASED);
    ClockCertified("uuid", "uuid4");
    YieldsNone(ALIASED);
    ClockCalls(Name("now"), [], ALIASED, [], 0);
    ClockCalls(Name("now"), [], ALIASED, [], 1);
    LeaksAt([stmt], arg, STATE, ALIASED, ALIASED, [], Observed(0), Observed(1), ALIASED, ALIASED);
  }

  const ALIASED: Env := ENV["now" := Imported(["uuid", "uuid4"])]

  /** `stamp, = [uuid4()]`: unpacking into names is not tracked. */
  lemma UnpackingLeaks()
    ensures Leaks(File([Assign([Display(TupleDisplay, [Name("stamp")])], Display(ListDisplay, [FRESH]), 1)] +
                       [DagOf(Name("stamp"))]))
  {
    var stmt := Assign([Display(TupleDisplay, [Name("stamp")])], Display(ListDisplay, [FRESH]), 1);
    UnpackingRuns(0);
    UnpackingRuns(1);
    UnpackingVisits();
    StampLeaks(stmt);
  }

  /** A statement that sets `stamp` to any reading, unnoticed. */
  lemma StampLeaks(stmt: Stmt)
    requires VisitStmt(stmt, STATE) == STATE
    requires RunsStmt(stmt, ALL, STATE, ENV, ENV["stamp" := Observed(0)], [])
    requires RunsStmt(stmt, ALL, STATE, ENV, ENV["stamp" := Observed(1)], [])
    ensures Leaks(File([stmt] + [DagOf(Name("stamp"))]))
  {
    var env1, env2 := ENV["stamp" := Observed(0)], ENV["stamp" := Observed(1)];
    Opens(stmt, STATE, env1);
    Opens(stmt, STATE, env2);
    LeaksAt([stmt], Name("stamp"), STATE, env1, env2, [], Observed(0), Observed(1), env1, env2);
  }

  lemma UnpackingVisits()
    ensures VisitStmt(Assign([Display(TupleDisplay, [Name("stamp")])], Display(ListDisplay, [FRESH]), 1), STATE) ==
            STATE
  {
  }

  lemma UnpackingRuns(reading: int)
    ensures RunsStmt(Assign([Display(TupleDisplay, [Name("stamp")])], Display(ListDisplay, [FRESH]), 1),
                     ALL, STATE, ENV, ENV["stamp" := Observed(reading)], [])
  {
    var target, v := Display(TupleDisplay, [Name("stamp")]), Collected(ListDisplay, [Observed(reading)]);
    var list := Display(ListDisplay, [FRESH]);
    Fresh(ENV, reading);
    YieldsOne(FRESH, ENV, Observed(reading));
    assert Uses(list, ALL, STATE, ENV, v, ENV, []);
    assert [Name("stamp")][..0] == [] && [target][1..] == [];
    assert Unpack([Name("stamp")], v, ENV) == ENV["stamp" := Observed(reading)];
    assert BindTargets([target], v, ENV) == ENV["stamp" := Observed(reading)];
    assert Assigned([target], list, ALL, ENV, ENV["stamp" := Observed(reading)], v);
  }

  /** `for stamp in [uuid4()]: ...`: the taint of a loop target is dropped with the loop, while the
      variable outlives it. */
  lemma LoopTargetLeaks()
    ensures Leaks(File([For(Name("stamp"), Display(ListDisplay, [FRESH]), [], [], 1)] + [DagOf(Name("stamp"))]))
  {
    LoopRuns(0);
    LoopRuns(1);
    LoopVisits();
    StampLeaks(For(Name("stamp"), Display(ListDisplay, [FRESH]), [], [], 1));
  }

  lemma LoopVisits()
    ensures VisitStmt(For(Name("stamp"), Display(ListDisplay, [FRESH]), [], [], 1), STATE) == STATE
  {
  }

  lemma LoopRuns(reading: int)
    ensures RunsStmt(For(Name("stamp"), Display(ListDisplay, [FRESH]), [], [], 1), ALL, STATE, ENV,
                     ENV["stamp" := Observed(reading)], [])
  {
    var loop := For(Name("stamp"), Display(ListDisplay, [FRESH]), [], [], 1);
    var items, env := [Observed(reading)], ENV["stamp" := Observed(reading)];
    Fresh(ENV, reading);
    YieldsOne(FRESH, ENV, Observed(reading));
    assert Yields(loop.iter, ENV, Collected(ListDisplay, items));
    assert Iterates(loop, ALL, ENV, items, ENV);
    assert items[1..] == [];
    OneRound(loop, STATE, ENV, env, items[0]);
    assert items == [items[0]];
  }

  lemma OneRound(loop: Stmt, st: WalkState, env: Env, env': Env, item: Value)
    requires loop.For? && loop.body == [] && Bind(loop.target, item, env) == env'
    ensures RunsLoop(loop, [item], ALL, st, env, env', [])
  {
    var none: seq<Passed> := [];
    assert [item][1..] == [] && [item][0] == item;
    assert Together(ALL, TargetNames(loop.target) + Held(loop.iter), env');
    assert RunsBody(loop.body, ALL, st, Bind(loop.target, item, env), env', none);
    assert RunsLoop(loop, [item][1..], ALL, st, env', env', none);
    assert none + none == none;
  }

  // ----- with another import

  const DIE_STATE := Noted(STATE, "random", "randint", "randint")
  const DIE_ENV: Env := ENV["randint" := Imported(["random", "randint"])]
  const DIE := CallOf(Name("randint"), [Constant(1), Constant(9)])

  lemma DieRolls(reading: int)
    ensures Yields(DIE, DIE_ENV, Observed(reading))
  {
    ClockCertified("random", "randint");
    YieldsTwo(Constant(1), Constant(9), DIE_ENV, Literal(1), Literal(9));
    ClockCalls(Name("randint"), [Constant(1), Constant(9)], DIE_ENV, [Literal(1), Literal(9)], reading);
  }

  const SPACED := JoinedStr([Formatted(Constant(1), Some(DIE))])

  /** `f"{1:{randint(1, 9)}}"`: a format spec is not looked into. */
  lemma FormatSpecLeaks()
    ensures Leaks(File([From("random", "randint")] + [DagOf(SPACED)]))
  {
    BeginsWith("random", "randint");
    SpacedEvaluates(0);
    SpacedEvaluates(1);
    SpacedIsStable();
    var v1, v2 := Joined([Shaped(Literal(1), Observed(0))]), Joined([Shaped(Literal(1), Observed(1))]);
    assert v1.pieces[0] != v2.pieces[0];
    LeaksAt([From("random", "randint")], SPACED, DIE_STATE, DIE_ENV, DIE_ENV, [], v1, v2, DIE_ENV, DIE_ENV);
  }

  lemma SpacedEvaluates(reading: int)
    ensures Yields(SPACED, DIE_ENV, Joined([Shaped(Literal(1), Observed(reading))]))
  {
    DieRolls(reading);
    YieldsSpaced(Constant(1), DIE, DIE_ENV, Literal(1), Observed(reading));
  }

  lemma SpacedIsStable()
    ensures GetVaryingSource(SPACED, DIE_STATE.b) == None
  {
    var part := Formatted(Constant(1), Some(DIE));
    assert [part][1..] == [];
    assert GetVaryingFString([part], DIE_STATE.b) == GetVaryingFString([part][1..], DIE_STATE.b);
  }

  const PICK_STATE := Noted(STATE, "random", "choice", "choice")
  const PICK_ENV: Env := ENV["choice" := Imported(["random", "choice"])]

  lemma Picks(arg: Expr, env: Env, v: Value, reading: int)
    requires "choice" in env && env["choice"] == Imported(["random", "choice"]) && Yields(arg, env, v)
    ensures Yields(CallOf(Name("choice"), [arg]), env, Observed(reading))
    ensures exists step :: Calls(CallOf(Name("choice"), [arg]), ALL, env, step, Observed(reading), env)
  {
    ClockCertified("random", "choice");
    YieldsOne(arg, env, v);
    ClockCalls(Name("choice"), [arg], env, [v], reading);
  }

  const ONE := Display(ListDisplay, [Constant(1)])
  const PAIR := Display(ListDisplay, [Constant(1), Constant(1)])
  const ONE_OR_TWO := CallOf(Name("choice"), [Display(ListDisplay, [ONE, PAIR])])
  const MANY := ListComp(Constant(1), [ONE_OR_TWO])

  /** `[1 for _ in choice([[1], [1, 1]])]`: what a comprehension iterates over is not looked into. */
  lemma ComprehensionLeaks()
    ensures Leaks(File([From("random", "choice")] + [DagOf(MANY)]))
  {
    BeginsWith("random", "choice");
    ManyEvaluates(0, [Literal(1)]);
    ManyEvaluates(1, [Literal(1), Literal(1)]);
    var v1, v2 := Generated([Observed(0)], [Literal(1)]), Generated([Observed(1)], [Literal(1), Literal(1)]);
    assert |v1.elements| != |v2.elements|;
    LeaksAt([From("random", "choice")], MANY, PICK_STATE, PICK_ENV, PICK_ENV, [], v1, v2, PICK_ENV, PICK_ENV);
  }

  lemma OnesEvaluate()
    ensures Yields(Display(ListDisplay, [ONE, PAIR]), PICK_ENV, ONES)
  {
    var one, two := [Literal(1)], [Literal(1), Literal(1)];
    YieldsOne(Constant(1), PICK_ENV, Literal(1));
    YieldsDisplay(ListDisplay, [Constant(1)], PICK_ENV, one);
    YieldsTwo(Constant(1), Constant(1), PICK_ENV, Literal(1), Literal(1));
    YieldsDisplay(ListDisplay, [Constant(1), Constant(1)], PICK_ENV, two);
    YieldsTwo(ONE, PAIR, PICK_ENV, Collected(ListDisplay, one), Collected(ListDisplay, two));
    YieldsDisplay(ListDisplay, [ONE, PAIR], PICK_ENV, ONES.items);
  }

  const ONES := Collected(ListDisplay, [Collected(ListDisplay, [Literal(1)]),
                                        Collected(ListDisplay, [Literal(1), Literal(1)])])

  lemma ManyEvaluates(reading: int, elements: seq<Value>)
    requires forall e :: e in elements ==> e == Literal(1)
    ensures Yields(MANY, PICK_ENV, Generated([Observed(reading)], elements))
  {
    OnesEvaluate();
    Picks(Display(ListDisplay, [ONE, PAIR]), PICK_ENV, ONES, reading);
    YieldsOne(ONE_OR_TWO, PICK_ENV, Observed(reading));
    forall e | e in elements
      ensures exists inner: Env, after :: Evaluates(Constant(1), ALL, PICK_ENV + inner, e, after)
    {
      assert Evaluates(Constant(1), ALL, PICK_ENV + map[], e, PICK_ENV + map[]);
    }
  }

  // ----- callees

  const EITHER_STATE := Noted(PICK_STATE, "os", "getcwd", "getcwd")
  const EITHER_ENV: Env := PICK_ENV["getcwd" := Imported(["os", "getcwd"])]
  const EITHER_IMPORTS := [From("random", "choice"), From("os", "getcwd")]

  lemma BeginsWithEither()
    ensures Leads(File(EITHER_IMPORTS), EITHER_STATE, EITHER_ENV, [])
  {
    BeginsWith("random", "choice");
    Imports1(File([From("random", "choice")]), PICK_STATE, PICK_ENV, "os", "getcwd", None);
    Longer([From("random", "choice")], From("os", "getcwd"));
    assert [From("random", "choice")] + [From("os", "getcwd")] == EITHER_IMPORTS;
  }

  const EITHER := CallOf(Name("choice"), [Display(ListDisplay, [Name("uuid4"), Name("getcwd")])])

  const CALLABLES := Collected(ListDisplay, [Imported(["uuid", "uuid4"]), Imported(["os", "getcwd"])])

  lemma YieldsCallables(env: Env)
    requires "uuid4" in env && env["uuid4"] == Imported(["uuid", "uuid4"])
    requires "getcwd" in env && env["getcwd"] == Imported(["os", "getcwd"])
    ensures Yields(Display(ListDisplay, [Name("uuid4"), Name("getcwd")]), env, CALLABLES)
  {
    YieldsName("uuid4", env);
    YieldsName("getcwd", env);
    YieldsTwo(Name("uuid4"), Name("getcwd"), env, env["uuid4"], env["getcwd"]);
    YieldsDisplay(ListDisplay, [Name("uuid4"), Name("getcwd")], env, [env["uuid4"], env["getcwd"]]);
  }

  lemma EitherPicks(reading: int)
    ensures Yields(EITHER, EITHER_ENV, Observed(reading))
    ensures exists step :: Calls(EITHER, ALL, EITHER_ENV, step, Observed(reading), EITHER_ENV)
  {
    var list := Display(ListDisplay, [Name("uuid4"), Name("getcwd")]);
    YieldsCallables(EITHER_ENV);
    Picks(list, EITHER_ENV, CALLABLES, reading);
  }

  /** `choice([uuid4, getcwd])()`: a callee that is itself a call is not looked into. */
  lemma CalleeFormLeaks()
    ensures Leaks(File(EITHER_IMPORTS + [DagOf(CallOf(EITHER, []))]))
  {
    BeginsWithEither();
    var env1 := EitherCalled(0);
    var env2 := EitherCalled(1);
    var v1, v2 := Applied(Observed(0), Arguments([], [])), Applied(Observed(1), Arguments([], []));
    EitherIsStable();
    EitherIsReady();
    LeaksAt(EITHER_IMPORTS, CallOf(EITHER, []), EITHER_STATE, EITHER_ENV, EITHER_ENV, [], v1, v2, env1, env2);
  }

  lemma EitherIsReady()
    ensures Ready(EITHER_STATE) && HasDag(EITHER_ENV)
  {
  }

  lemma EitherIsStable()
    ensures GetVaryingSource(CallOf(EITHER, []), EITHER_STATE.b) == None
  {
  }

  lemma EitherCalled(reading: int) returns (after: Env)
    ensures Evaluates(CallOf(EITHER, []), ALL, EITHER_ENV, Applied(Observed(reading), Arguments([], [])), after)
  {
    EitherPicks(reading);
    YieldsNone(EITHER_ENV);
    assert Resolve(EITHER, EITHER_ENV).None?;
    OtherCalls(EITHER, [], EITHER_ENV, Observed(reading), [], Applied(Observed(reading), Arguments([], [])));
    after := Changed(Given(CallOf(EITHER, [])), Applied(Observed(reading), Arguments([], [])), EITHER_ENV);
  }

  /** `pick = choice([uuid4, getcwd])`, `pick()`: a tainted variable is not looked at when it is
      called. */
  lemma TaintedCalleeLeaks()
    ensures Leaks(File(EITHER_IMPORTS + [Assign([Name("pick")], EITHER, 1)] + [DagOf(CallOf(Name("pick"), []))]))
  {
    var stmt := Assign([Name("pick")], EITHER, 1);
    BeginsWithEither();
    PickVisits();
    PickHasDag(0);
    PickHasDag(1);
    var after1 := PickCalled(0);
    var after2 := PickCalled(1);
    Follows(EITHER_IMPORTS, EITHER_STATE, EITHER_ENV, stmt, PickedState(), EITHER_ENV["pick" := Observed(0)]);
    Follows(EITHER_IMPORTS, EITHER_STATE, EITHER_ENV, stmt, PickedState(), EITHER_ENV["pick" := Observed(1)]);
    var v1, v2 := Applied(Observed(0), Arguments([], [])), Applied(Observed(1), Arguments([], []));
    LeaksAt(EITHER_IMPORTS + [stmt], CallOf(Name("pick"), []), PickedState(),
            EITHER_ENV["pick" := Observed(0)], EITHER_ENV["pick" := Observed(1)], [], v1, v2, after1, after2);
  }

  lemma PickHasDag(reading: int)
    ensures HasDag(EITHER_ENV["pick" := Observed(reading)])
  {
  }

  function PickedState(): WalkState {
    Taint({"pick"}, (1, Snippet(EITHER)), EITHER_STATE)
  }

  lemma PickVisits()
    ensures VisitStmt(Assign([Name("pick")], EITHER, 1), EITHER_STATE) == PickedState()
    ensures GetVaryingSource(CallOf(Name("pick"), []), PickedState().b) == None
    ensures Ready(PickedState())
  {
    assert Name("pick") in [Name("pick")] && PlainNames([Name("pick")]) == {"pick"};
    PicksAreFlagged();
  }

  lemma PicksAreFlagged()
    ensures GetVaryingSource(EITHER, EITHER_STATE.b) == Some(Snippet(EITHER)) && Snippet(EITHER) != ""
    ensures !IsConstructor(EITHER, EITHER_STATE)
  {
  }

  lemma PickCalled(reading: int) returns (after: Env)
    ensures RunsStmt(Assign([Name("pick")], EITHER, 1), ALL, EITHER_STATE, EITHER_ENV,
                     EITHER_ENV["pick" := Observed(reading)], [])
    ensures Evaluates(CallOf(Name("pick"), []), ALL, EITHER_ENV["pick" := Observed(reading)],
                      Applied(Observed(reading), Arguments([], [])), after)
  {
    var env, v := EITHER_ENV["pick" := Observed(reading)], Applied(Observed(reading), Arguments([], []));
    EitherPicks(reading);
    PicksAreFlagged();
    AssignsOne("pick", EITHER, EITHER_STATE, EITHER_ENV, Observed(reading), EITHER_ENV);
    YieldsNone(env);
    OtherCalls(Name("pick"), [], env, Observed(reading), [], v);
    after := Changed(Given(CallOf(Name("pick"), [])), v, env);
  }

  // ----- imports

  /** A call of a chain that is certified, though the walk does not see it. */
  lemma UnseenClockLeaks(rest: seq<Stmt>, func: Expr, st: WalkState, env: Env)
    requires Leads(File(rest), st, env, []) && Ready(st) && HasDag(env)
    requires IsClock(Resolve(func, env))
    requires GetVaryingSource(CallOf(func, []), st.b) == None
    ensures Leaks(File(rest + [DagOf(CallOf(func, []))]))
  {
    YieldsNone(env);
    ClockCalls(func, [], env, [], 0);
    ClockCalls(func, [], env, [], 1);
    LeaksAt(rest, CallOf(func, []), st, env, env, [], Observed(0), Observed(1), env, env);
  }

  const DOTTED := Attribute(Attribute(Attribute(Name("email"), "utils"), "time"), "time")
  const EMAIL := Import([ModuleAlias(["email", "utils"], None)])
  const EMAIL_STATE := STATE.(b := STATE.b.(imports := STATE.b.imports[["email", "utils"] := ["email", "utils"]]))
  const EMAIL_ENV: Env := ENV["email" := Imported(["email"])]

  /** `import email.utils`, `email.utils.time.time()`: that module imports `time`, and a callee more
      than two attributes deep is not looked at. */
  lemma DeepChainLeaks()
    ensures Leaks(File([EMAIL] + [DagOf(CallOf(DOTTED, []))]))
  {
    EmailRuns();
    Opens(EMAIL, EMAIL_STATE, EMAIL_ENV);
    DottedIsClock();
    assert GetVaryingArgument(CallOf(DOTTED, []), EMAIL_STATE.b) == None;
    UnseenClockLeaks([EMAIL], DOTTED, EMAIL_STATE, EMAIL_ENV);
  }

  lemma EmailRuns()
    ensures RunsStmt(EMAIL, ALL, STATE, ENV, EMAIL_ENV, []) && VisitStmt(EMAIL, STATE) == EMAIL_STATE
  {
    var alias := ModuleAlias(["email", "utils"], None);
    assert [alias][1..] == [];
    assert BindModules([alias], map[]) == map["email" := ["email"]];
    assert ENV + Imports(map["email" := ["email"]]) == EMAIL_ENV;
    assert RecordModules([alias], STATE.b.imports) == STATE.b.imports[["email", "utils"] := ["email", "utils"]];
  }

  lemma DottedIsClock()
    ensures IsClock(Resolve(DOTTED, EMAIL_ENV))
  {
    assert Resolve(Attribute(Name("email"), "utils"), EMAIL_ENV) == Some(["email"] + ["utils"]);
    assert Resolve(Attribute(Attribute(Name("email"), "utils"), "time"), EMAIL_ENV) ==
           Some(["email"] + ["utils"] + ["time"]);
    assert Resolve(DOTTED, EMAIL_ENV) == Some(["email"] + ["utils"] + ["time"] + ["time"]);
    assert ["email"] + ["utils"] + ["time"] + ["time"] == ["email", "utils", "time", "time"];
  }

  const DRAW := Attribute(Name("npr"), "random")
  const NUMPY := Import([ModuleAlias(["numpy", "random"], Some("npr"))])
  const NUMPY_STATE := STATE.(b := STATE.b.(imports := STATE.b.imports[["npr"] := ["numpy", "random"]]))
  const NUMPY_ENV: Env := ENV["npr" := Imported(["numpy", "random"])]

  /** `import numpy.random as npr`, `npr.random()`: under an alias the owner is looked up by its whole
      path, though `from numpy.random import random` is certified by any part of it. */
  lemma DottedAliasLeaks()
    ensures Leaks(File([NUMPY] + [DagOf(CallOf(DRAW, []))]))
  {
    NumpyRuns();
    Opens(NUMPY, NUMPY_STATE, NUMPY_ENV);
    DrawIsClock();
    UnseenClockLeaks([NUMPY], DRAW, NUMPY_STATE, NUMPY_ENV);
  }

  lemma NumpyRuns()
    ensures RunsStmt(NUMPY, ALL, STATE, ENV, NUMPY_ENV, []) && VisitStmt(NUMPY, STATE) == NUMPY_STATE
  {
    var alias := ModuleAlias(["numpy", "random"], Some("npr"));
    assert [alias][1..] == [];
    assert BindModules([alias], map[]) == map["npr" := ["numpy", "random"]];
    assert ENV + Imports(map["npr" := ["numpy", "random"]]) == NUMPY_ENV;
    assert RecordModules([alias], STATE.b.imports) == STATE.b.imports[["npr"] := ["numpy", "random"]];
  }

  lemma DrawIsClock()
    ensures IsClock(Resolve(DRAW, NUMPY_ENV))
    ensures GetVaryingSource(CallOf(DRAW, []), NUMPY_STATE.b) == None
  {
  }

  const CLOCK := Attribute(Name("time"), "time")
  const IMPORT_TIME := Import([ModuleAlias(["time"], None)])
  const GETPID := FromAs("os", "getpid", "time")
  const STALE_STATE: WalkState := PID_STATE.(b := PID_STATE.b.(imports := STATE.b.imports[["time"] := ["time"]]))
  const STALE_ENV: Env := ENV["time" := Imported(["time"])]

  /** `from os import getpid as time`, `import time`, `time.time()`: the walk goes on reading `time` as
      `getpid`. */
  lemma StaleImportLeaks()
    ensures Leaks(File([GETPID, IMPORT_TIME] + [DagOf(CallOf(CLOCK, []))]))
  {
    StaleBegins();
    StaleClock();
    UnseenClockLeaks([GETPID, IMPORT_TIME], CLOCK, STALE_STATE, STALE_ENV);
  }

  const PID_STATE: WalkState := Noted(STATE, "os", "getpid", "time")
  const PID_ENV: Env := ENV["time" := Imported(["os", "getpid"])]

  lemma PidBegins()
    ensures Leads(File([GETPID]), PID_STATE, PID_ENV, [])
  {
    Begins();
    Imports1(File([]), STATE, ENV, "os", "getpid", Some("time"));
    Longer([], GETPID);
    assert [] + [GETPID] == [GETPID];
  }

  lemma StaleBegins()
    ensures Leads(File([GETPID, IMPORT_TIME]), STALE_STATE, STALE_ENV, [])
  {
    PidBegins();
    StaleRuns();
    Follows([GETPID], PID_STATE, PID_ENV, IMPORT_TIME, STALE_STATE, STALE_ENV);
    assert [GETPID] + [IMPORT_TIME] == [GETPID, IMPORT_TIME];
  }

  lemma StaleRuns()
    ensures RunsStmt(IMPORT_TIME, ALL, PID_STATE, PID_ENV, STALE_ENV, [])
    ensures VisitStmt(IMPORT_TIME, PID_STATE) == STALE_STATE
  {
    var alias := ModuleAlias(["time"], None);
    assert [alias][1..] == [];
    assert BindModules([alias], map[]) == map["time" := ["time"]];
    assert ENV["time" := Imported(["os", "getpid"])] + Imports(map["time" := ["time"]]) == STALE_ENV;
    assert RecordModules([alias], STATE.b.imports) == STATE.b.imports[["time"] := ["time"]];
  }

  lemma StaleClock()
    ensures IsClock(Resolve(CLOCK, STALE_ENV))
    ensures GetVaryingSource(CallOf(CLOCK, []), STALE_STATE.b) == None
  {
  }

  const STAR := From("random", "*")
  const STAR_STATE := Noted(STATE, "random", "*", "*")
  const STAR_ENV: Env := ENV["random" := Imported(["random", "random"])]

  /** `from random import *`, `random()`: the walk learns only of a name `*`. */
  lemma StarImportLeaks()
    ensures Leaks(File([STAR] + [DagOf(CallOf(Name("random"), []))]))
  {
    StarRuns();
    Opens(STAR, STAR_STATE, STAR_ENV);
    StarIsUnseen();
    UnseenClockLeaks([STAR], Name("random"), STAR_STATE, STAR_ENV);
  }

  lemma StarIsUnseen()
    ensures IsClock(Resolve(Name("random"), STAR_ENV)) && Ready(STAR_STATE) && HasDag(STAR_ENV)
    ensures GetVaryingSource(CallOf(Name("random"), []), STAR_STATE.b) == None
  {
  }

  lemma StarRuns()
    ensures RunsStmt(STAR, ALL, STATE, ENV, STAR_ENV, []) && VisitStmt(STAR, STATE) == STAR_STATE
  {
    var member := MemberAlias("*", None);
    assert [member][1..] == [];
    assert RecordMembers(["random"], [member], STATE.b.fromImports) == STATE.b.fromImports["*" := (["random"], "*")];
    assert ["random"] + ["random"] == ["random", "random"];
    assert BindMembers(Some(["random"]), [member], {"random"}, map[]) == map["random" := ["random", "random"]];
    assert ENV + Imports(map["random" := ["random", "random"]]) == STAR_ENV;
  }

  // ----- with blocks

  const NULL_STATE := Noted(STATE, "contextlib", "nullcontext", "nullcontext")
  const NULL_ENV: Env := ENV["nullcontext" := Imported(["contextlib", "nullcontext"])]
  const HELD := CallOf(Name("nullcontext"), [FRESH])

  function HeldValue(reading: int): Value {
    Applied(Imported(["contextlib", "nullcontext"]), Arguments([Observed(reading)], []))
  }

  /** `with nullcontext(uuid4()) as stamp: pass`: what a `with` statement binds is not tracked. */
  lemma WithBindingLeaks()
    ensures Leaks(File([From("contextlib", "nullcontext"), With([WithItem(HELD, Some(Name("stamp")))], [])] +
                       [DagOf(Name("stamp"))]))
  {
    var from_, stmt := From("contextlib", "nullcontext"), With([WithItem(HELD, Some(Name("stamp")))], []);
    var env1, env2 := NULL_ENV["stamp" := HeldValue(0)], NULL_ENV["stamp" := HeldValue(1)];
    BeginsWith("contextlib", "nullcontext");
    HeldRuns(0);
    HeldRuns(1);
    HeldVisits();
    Follows([from_], NULL_STATE, NULL_ENV, stmt, NULL_STATE, env1);
    Follows([from_], NULL_STATE, NULL_ENV, stmt, NULL_STATE, env2);
    assert [from_] + [stmt] == [from_, stmt];
    assert HeldValue(0).arguments.positional[0] != HeldValue(1).arguments.positional[0];
    LeaksAt([from_, stmt], Name("stamp"), NULL_STATE, env1, env2, [], HeldValue(0), HeldValue(1), env1, env2);
  }

  lemma HeldVisits()
    ensures VisitStmt(With([WithItem(HELD, Some(Name("stamp")))], []), NULL_STATE) == NULL_STATE
  {
    var item := WithItem(HELD, Some(Name("stamp")));
    HeldIsNoConstructor();
    assert [item][1..] == [] && [HELD][1..] == [];
    assert OutermostCalls(HELD) == [HELD] && OutermostCalls(Name("stamp")) == [];
    assert VisitCalls([HELD], NULL_STATE) == VisitCalls([HELD][1..], VisitCall([HELD][0], NULL_STATE));
    assert VisitItem(item, NULL_STATE) == NULL_STATE;
    assert VisitItems([item], NULL_STATE) == (NULL_STATE, false);
  }

  lemma HeldIsNoConstructor()
    ensures !IsConstructor(HELD, NULL_STATE)
  {
  }

  lemma NullcontextIsPlain()
    ensures !Certified(["contextlib", "nullcontext"])
  {
  }

  lemma HeldEvaluates(reading: int)
    ensures Calls(HELD, ALL, NULL_ENV,
                  CallStep(Imported(["contextlib", "nullcontext"]), NULL_ENV, HeldValue(reading).arguments, NULL_ENV),
                  HeldValue(reading), NULL_ENV)
  {
    Fresh(NULL_ENV, reading);
    YieldsOne(FRESH, NULL_ENV, Observed(reading));
    NullcontextIsPlain();
    HeldGives();
    ImportCallsQuietly("nullcontext", ["contextlib", "nullcontext"], [FRESH], NULL_ENV, [Observed(reading)]);
  }

  lemma HeldGives()
    ensures HeldAll([FRESH]) == {"uuid4"}
  {
  }

  lemma OneItem(item: WithItem, st: WalkState, env: Env, env': Env, passed: seq<Passed>)
    requires RunsItem(item, ALL, st, env, env', passed)
    ensures RunsItems([item], ALL, st, env, env', passed)
  {
    assert [item][1..] == [] && passed + [] == passed;
    FirstItem([item], st, env, env', env', passed, []);
  }

  lemma FirstItem(items: seq<WithItem>, st: WalkState, env: Env, mid: Env, env': Env, first: seq<Passed>,
                  rest: seq<Passed>)
    requires items != [] && RunsItem(items[0], ALL, st, env, mid, first)
    requires RunsItems(items[1..], ALL, VisitItem(items[0], st), mid, env', rest)
    ensures RunsItems(items, ALL, st, env, env', first + rest)
  {
  }

  /** A `with` statement of one item, with nothing in its body. */
  lemma EmptyWithRuns(item: WithItem, st: WalkState, env: Env, env': Env)
    requires RunsItem(item, ALL, st, env, env', [])
    ensures RunsStmt(With([item], []), ALL, st, env, env', [])
  {
    var none: seq<Passed> := [];
    OneItem(item, st, env, env', none);
    assert none + none == none;
    assert RunsBody([], ALL, Inside([item], st), env', env', none);
    assert RunsWith([item], [], ALL, st, env, env', none);
  }

  lemma HeldRuns(reading: int)
    ensures RunsStmt(With([WithItem(HELD, Some(Name("stamp")))], []), ALL, NULL_STATE, NULL_ENV,
                     NULL_ENV["stamp" := HeldValue(reading)], [])
  {
    var item, env := WithItem(HELD, Some(Name("stamp"))), NULL_ENV["stamp" := HeldValue(reading)];
    HeldEvaluates(reading);
    HeldIsNoConstructor();
    assert Uses(HELD, ALL, NULL_STATE, NULL_ENV, HeldValue(reading), NULL_ENV, []);
    assert Entered(item, ALL, NULL_ENV, env, HeldValue(reading));
    EmptyWithRuns(item, NULL_STATE, NULL_ENV, env);
  }

  const TASK_STATE := Noted(STATE, "uuid", "uuid4", "new_task")
  const TASK_ENV: Env := ENV["new_task" := Imported(["uuid", "uuid4"])]
  const CREATE := CallOf(Name("DAG"), [DAG_ID])
  const TASK := CallOf(Name("new_task"), [])
  const STAMP := Assign([Name("stamp")], TASK, 2)
  const BLOCK := With([WithItem(CREATE, Some(Name("dag")))], [STAMP])
  const DAG_VALUE := Applied(Imported(["airflow", "DAG"]), Arguments([Literal(0)], []))
  const DAG_STATE := TASK_STATE.(dagInstances := TASK_STATE.dagInstances + {"dag"})
  const DAG_ENV: Env := TASK_ENV["dag" := DAG_VALUE]
  const BLOCK_PASSED := [Passed(CREATE, Arguments([Literal(0)], []))] + [Passed(TASK, Arguments([], []))]

  /** `from uuid import uuid4 as new_task`, `with DAG("id") as dag: stamp = new_task()`: in the block
      the name reads as a task's, and an assigned constructor call is not tracked. */
  lemma TaskConstructorLeaks()
    ensures Leaks(File([FromAs("uuid", "uuid4", "new_task"), BLOCK] + [DagOf(Name("stamp"))]))
  {
    var from_ := FromAs("uuid", "uuid4", "new_task");
    var env1, env2 := DAG_ENV["stamp" := Observed(0)], DAG_ENV["stamp" := Observed(1)];
    BlockLeads(0);
    BlockLeads(1);
    LeaksAt([from_, BLOCK], Name("stamp"), DAG_STATE, env1, env2, BLOCK_PASSED, Observed(0), Observed(1), env1, env2);
  }

  lemma BlockLeads(reading: int)
    ensures Leads(File([FromAs("uuid", "uuid4", "new_task"), BLOCK]), DAG_STATE, DAG_ENV["stamp" := Observed(reading)],
                  BLOCK_PASSED)
  {
    var from_, env := FromAs("uuid", "uuid4", "new_task"), DAG_ENV["stamp" := Observed(reading)];
    TaskBegins();
    BlockRuns(reading);
    BlockVisits();
    Onward(File([from_]), TASK_STATE, TASK_ENV, [], BLOCK, DAG_STATE, env, BLOCK_PASSED);
    Longer([from_], BLOCK);
    assert [from_] + [BLOCK] == [from_, BLOCK] && [] + BLOCK_PASSED == BLOCK_PASSED;
  }

  lemma TaskBegins()
    ensures Leads(File([FromAs("uuid", "uuid4", "new_task")]), TASK_STATE, TASK_ENV, [])
  {
    var from_ := FromAs("uuid", "uuid4", "new_task");
    Begins();
    Imports1(File([]), STATE, ENV, "uuid", "uuid4", Some("new_task"));
    Longer([], from_);
    assert [] + [from_] == [from_];
  }

  lemma CreateIsDag()
    ensures IsDagConstructor(CREATE, TASK_STATE.b) && GetVaryingArgument(CREATE, TASK_STATE.b) == None
    ensures VisitExpr(CREATE, TASK_STATE) == TASK_STATE
  {
    assert [DAG_ID][1..] == [];
    assert GetVaryingCollection([DAG_ID], TASK_STATE.b) == GetVaryingCollection([DAG_ID][1..], TASK_STATE.b);
    assert [CREATE][1..] == [] && OutermostCalls(CREATE) == [CREATE];
    assert VisitCalls([CREATE], TASK_STATE) == VisitCalls([CREATE][1..], VisitCall([CREATE][0], TASK_STATE));
  }

  lemma EntersDag()
    ensures VisitItems([WithItem(CREATE, Some(Name("dag")))], TASK_STATE) == (DAG_STATE, true)
  {
    var item := WithItem(CREATE, Some(Name("dag")));
    CreateIsDag();
    assert [item][1..] == [];
    assert Name("dag") in [Name("dag")] && PlainNames([Name("dag")]) == {"dag"};
    assert OutermostCalls(Name("dag")) == [] && VisitExpr(Name("dag"), TASK_STATE) == TASK_STATE;
    assert VisitItem(item, TASK_STATE) == DAG_STATE;
  }

  const IN_DAG := DAG_STATE.(inDagContext := true)

  lemma TaskIsTask()
    ensures IsTaskConstructor(TASK, IN_DAG.dagInstances, true) && !IsDagConstructor(TASK, IN_DAG.b)
    ensures GetVaryingArgument(TASK, IN_DAG.b) == None && VisitStmt(STAMP, IN_DAG) == IN_DAG
  {
  }

  lemma One(stmt: Stmt, st: WalkState)
    ensures VisitBody([stmt], st) == VisitStmt(stmt, st)
  {
  }

  lemma DagBlockVisits(items: seq<WithItem>, body: seq<Stmt>, st: WalkState, entered: WalkState)
    requires VisitItems(items, st) == (entered, true)
    ensures VisitStmt(With(items, body), st) == VisitBody(body, entered.(inDagContext := true)).(inDagContext := false)
  {
  }

  lemma BlockVisits()
    ensures VisitStmt(BLOCK, TASK_STATE) == DAG_STATE
  {
    EntersDag();
    TaskIsTask();
    One(STAMP, IN_DAG);
    DagBlockVisits([WithItem(CREATE, Some(Name("dag")))], [STAMP], TASK_STATE, DAG_STATE);
  }

  lemma StampRuns(reading: int)
    ensures RunsBody([STAMP], ALL, IN_DAG, DAG_ENV, DAG_ENV["stamp" := Observed(reading)],
                     [Passed(TASK, Arguments([], []))])
  {
    var env, passed := DAG_ENV["stamp" := Observed(reading)], [Passed(TASK, Arguments([], []))];
    ClockCertified("uuid", "uuid4");
    YieldsNone(DAG_ENV);
    ClockCalls(Name("new_task"), [], DAG_ENV, [], reading);
    TaskIsTask();
    assert Uses(TASK, ALL, IN_DAG, DAG_ENV, Observed(reading), DAG_ENV, passed);
    StampBinds(Observed(reading));
    RunsOne(STAMP, IN_DAG, DAG_ENV, env, passed);
  }

  lemma StampBinds(v: Value)
    ensures Assigned([Name("stamp")], TASK, ALL, DAG_ENV, DAG_ENV["stamp" := v], v)
  {
  }

  lemma CreateCalls()
    ensures exists step :: Calls(CREATE, ALL, TASK_ENV, step, DAG_VALUE, TASK_ENV)
                           && step.arguments == Arguments([Literal(0)], [])
  {
    YieldsOne(DAG_ID, TASK_ENV, Literal(0));
    assert [DAG_ID][1..] == [];
    assert HeldAll([DAG_ID]) == {};
    ImportCallsQuietly("DAG", ["airflow", "DAG"], [DAG_ID], TASK_ENV, [Literal(0)]);
  }

  lemma DagEnters()
    ensures RunsItem(WithItem(CREATE, Some(Name("dag"))), ALL, TASK_STATE, TASK_ENV, DAG_ENV,
                     [Passed(CREATE, Arguments([Literal(0)], []))])
  {
    var item, created := WithItem(CREATE, Some(Name("dag"))), [Passed(CREATE, Arguments([Literal(0)], []))];
    CreateIsDag();
    CreateCalls();
    assert Uses(CREATE, ALL, TASK_STATE, TASK_ENV, DAG_VALUE, TASK_ENV, created);
    assert Entered(item, ALL, TASK_ENV, DAG_ENV, DAG_VALUE);
  }

  lemma BlockRuns(reading: int)
    ensures RunsStmt(BLOCK, ALL, TASK_STATE, TASK_ENV, DAG_ENV["stamp" := Observed(reading)], BLOCK_PASSED)
  {
    var item, created := WithItem(CREATE, Some(Name("dag"))), [Passed(CREATE, Arguments([Literal(0)], []))];
    DagEnters();
    EntersDag();
    OneItem(item, TASK_STATE, TASK_ENV, DAG_ENV, created);
    StampRuns(reading);
    assert Inside([item], TASK_STATE) == IN_DAG;
    assert RunsWith([item], [STAMP], ALL, TASK_STATE, TASK_ENV, DAG_ENV["stamp" := Observed(reading)], BLOCK_PASSED);
  }
}
