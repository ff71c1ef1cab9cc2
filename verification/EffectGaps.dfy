/** More of what module Noninterference leaves out: Dag files that draw no finding and vary
    because a call changes something in place, or because a certified callable is come to
    otherwise than through a chain of names from its import. */
module EffectGaps {
  import opened Prelude
  import opened DagSyntax
  import opened VaryingAnalyzer
  import opened DagArgsVisitor
  import opened DagExecution
  import opened LeakingFiles

  const EMPTY := Collected(ListDisplay, [])
  const NEW_LIST := Display(ListDisplay, [])

  lemma YieldsEmpty(env: Env)
    ensures Yields(NEW_LIST, env, EMPTY)
  {
  }

  /** A method call on a variable. */
  lemma MethodCalls(name: string, attr: string, args: seq<Expr>, env: Env, vs: seq<Value>, v: Value)
    requires IsVariable(name, env) && YieldsAll(args, env, vs)
    requires Returns(Attribute(Name(name), attr), None,
                     CallStep(Member(env[name], attr), env, Arguments(vs, []), env), v)
    ensures var call := CallOf(Attribute(Name(name), attr), args);
            && name in Given(call)
            && Calls(call, ALL, env, CallStep(Member(env[name], attr), env, Arguments(vs, []), env), v,
                     Changed(Given(call), v, env))
  {
    var func := Attribute(Name(name), attr);
    assert Resolve(Name(name), env).None? && Resolve(func, env).None?;
    YieldsName(name, env);
    assert Yields(func, env, Member(env[name], attr));
    OtherCalls(func, args, env, Member(env[name], attr), vs, v);
    GivenOf(func, args);
  }

  /** `name = callable(args)`, for an imported callable that is given no variable. */
  lemma AssignsImportCall(name: string, callable: string, path: Dotted, args: seq<Expr>, st: WalkState, env: Env,
                          vs: seq<Value>)
    requires callable in env && env[callable] == Imported(path) && !Certified(path) && YieldsAll(args, env, vs)
    requires !IsConstructor(CallOf(Name(callable), args), st)
    requires forall n :: n in HeldAll(args) ==> !IsVariable(n, env)
    ensures RunsStmt(Assign([Name(name)], CallOf(Name(callable), args), 1), ALL, st, env,
                     env[name := Applied(Imported(path), Arguments(vs, []))], [])
  {
    var call, v := CallOf(Name(callable), args), Applied(Imported(path), Arguments(vs, []));
    ImportCallsQuietly(callable, path, args, env, vs);
    AssignsOne(name, call, st, env, v, env);
  }

  lemma Second(first: Stmt, st: WalkState, env: Env, stmt: Stmt, st': WalkState, env': Env)
    requires Leads(File([first]), st, env, [])
    requires VisitStmt(stmt, st) == st' && RunsStmt(stmt, ALL, st, env, env', [])
    ensures Leads(File([first, stmt]), st', env', [])
  {
    Follows([first], st, env, stmt, st', env');
    assert [first] + [stmt] == [first, stmt];
  }

  lemma Third(first: Stmt, second: Stmt, st: WalkState, env: Env, stmt: Stmt, st': WalkState, env': Env)
    requires Leads(File([first, second]), st, env, [])
    requires VisitStmt(stmt, st) == st' && RunsStmt(stmt, ALL, st, env, env', [])
    ensures Leads(File([first, second, stmt]), st', env', [])
  {
    Follows([first, second], st, env, stmt, st', env');
    assert [first, second] + [stmt] == [first, second, stmt];
  }

  // ----- changes in place

  /** `name.append(uuid4())`. */
  function Append(name: string): Expr {
    CallOf(Attribute(Name(name), "append"), [FRESH])
  }

  function Appended(list: Value, reading: int): Value {
    Applied(Member(list, "append"), Arguments([Observed(reading)], []))
  }

  ghost function AfterAppend(name: string, env: Env, reading: int): Env
    requires name in env
  {
    Changed(Given(Append(name)), Appended(env[name], reading), env)
  }

  lemma AppendVisits(name: string, st: WalkState)
    requires name !in st.b.fromImports && !st.inDagContext && name !in st.deferred
    ensures VisitStmt(Bare(Append(name)), st) == st
    ensures !IsConstructor(Append(name), st)
  {
    var call := Append(name);
    assert OutermostCalls(call) == [call] && [call][1..] == [];
    assert VisitCalls([call], st) == VisitCalls([call][1..], VisitCall([call][0], st));
    assert forall arg :: arg in call.args ==> arg == FRESH;
  }

  lemma AppendRuns(name: string, st: WalkState, env: Env, reading: int)
    requires IsVariable(name, env) && "uuid4" in env && env["uuid4"] == Imported(["uuid", "uuid4"])
    requires !IsConstructor(Append(name), st)
    ensures RunsStmt(Bare(Append(name)), ALL, st, env, AfterAppend(name, env, reading), [])
  {
    var v := Appended(env[name], reading);
    Fresh(env, reading);
    YieldsOne(FRESH, env, Observed(reading));
    MethodCalls(name, "append", [FRESH], env, [Observed(reading)], v);
    assert Uses(Append(name), ALL, st, env, v, AfterAppend(name, env, reading), []);
  }

  lemma AppendChanges(name: string, env: Env, reading: int, x: string)
    requires IsVariable(name, env) && IsVariable(x, env)
    ensures x in AfterAppend(name, env, reading)
    ensures AfterAppend(name, env, reading)[x] == Updated(env[x], Appended(env[name], reading))
  {
    GivenOf(Attribute(Name(name), "append"), [FRESH]);
    AllChange(Given(Append(name)), name, Appended(env[name], reading), env, x);
  }

  /** What is changed, in one load and in the other, by appending to `name`. */
  lemma AppendLeaks(rest: seq<Stmt>, name: string, x: string, st: WalkState, env: Env)
    requires Leads(File(rest), st, env, []) && Ready(st) && HasDag(env)
    requires name !in st.b.fromImports && !st.inDagContext && name !in st.deferred
    requires IsVariable(name, env) && IsVariable(x, env) && x !in st.b.varyingVars
    requires "uuid4" in env && env["uuid4"] == Imported(["uuid", "uuid4"])
    ensures Leaks(File(rest + [Bare(Append(name))] + [DagOf(Name(x))]))
  {
    var env1, env2 := AfterAppend(name, env, 0), AfterAppend(name, env, 1);
    AppendVisits(name, st);
    AppendRuns(name, st, env, 0);
    AppendRuns(name, st, env, 1);
    Follows(rest, st, env, Bare(Append(name)), st, env1);
    Follows(rest, st, env, Bare(Append(name)), st, env2);
    AppendChanges(name, env, 0, x);
    AppendChanges(name, env, 1, x);
    ImportsStay(Given(Append(name)), Appended(env[name], 0), env, "DAG");
    ImportsStay(Given(Append(name)), Appended(env[name], 1), env, "DAG");
    YieldsName(x, env1);
    YieldsName(x, env2);
    assert Appended(env[name], 0).arguments.positional[0] != Appended(env[name], 1).arguments.positional[0];
    LeaksAt(rest + [Bare(Append(name))], Name(x), st, env1, env2, [], env1[x], env2[x], env1, env2);
  }

  /** `seen = []`, `seen.append(uuid4())`, `seen`: a change in place is not tracked. */
  lemma MutationLeaks()
    ensures Leaks(File([Assign([Name("seen")], NEW_LIST, 1)] + [Bare(Append("seen"))] + [DagOf(Name("seen"))]))
  {
    var stmt, env := Assign([Name("seen")], NEW_LIST, 1), ENV["seen" := EMPTY];
    YieldsEmpty(ENV);
    AssignsOne("seen", NEW_LIST, STATE, ENV, EMPTY, ENV);
    Opens(stmt, STATE, env);
    AppendLeaks([stmt], "seen", "seen", STATE, env);
  }

  const TAGS := Assign([Name("tags")], NEW_LIST, 1)
  const BOTH := Display(ListDisplay, [Name("tags"), FRESH])
  const MIX := Assign([Name("pair")], BOTH, 1)
  const POP := CallOf(Attribute(Name("pair"), "pop"), [Constant(0)])
  const TAKE := Assign([Name("first")], POP, 1)

  const TAGS_ENV: Env := ENV["tags" := EMPTY]
  const MIXED := Collected(ListDisplay, [EMPTY, Observed(0)])
  const MIX_ENV: Env := TAGS_ENV["pair" := MIXED]

  function MixState(): WalkState {
    Taint({"pair"}, (1, Snippet(FRESH)), STATE)
  }

  function TakeState(): WalkState {
    Taint({"first"}, (1, Snippet(FRESH)), MixState())
  }

  /** `tags = []`, `pair = [tags, uuid4()]`, `first = pair.pop(0)`, `first.append(uuid4())`, `tags`:
      what a tainted variable shares with an untainted one is not tracked. */
  lemma SharingLeaks()
    ensures Leaks(File([TAGS, MIX, TAKE] + [Bare(Append("first"))] + [DagOf(Name("tags"))]))
  {
    TakeLeads();
    TakenIsReady();
    AppendLeaks([TAGS, MIX, TAKE], "first", "tags", TakeState(), AfterTake(MIX_ENV));
  }

  lemma TakeLeads()
    ensures Leads(File([TAGS, MIX, TAKE]), TakeState(), AfterTake(MIX_ENV), [])
    ensures IsVariable("first", AfterTake(MIX_ENV)) && IsVariable("tags", AfterTake(MIX_ENV))
    ensures HasDag(AfterTake(MIX_ENV))
    ensures "uuid4" in AfterTake(MIX_ENV) && AfterTake(MIX_ENV)["uuid4"] == Imported(["uuid", "uuid4"])
  {
    TakenIsReady();
    PopIsFlagged();
    TakeRuns(MixState(), MIX_ENV);
    TakeHolds(MIX_ENV);
    MixLeads();
    MixVisits();
    Third(TAGS, MIX, MixState(), MIX_ENV, TAKE, TakeState(), AfterTake(MIX_ENV));
  }

  lemma TakenIsReady()
    ensures Ready(TakeState()) && !TakeState().inDagContext
    ensures "first" !in TakeState().b.fromImports && "first" !in TakeState().deferred
    ensures "tags" !in TakeState().b.varyingVars
    ensures IsVariable("pair", MIX_ENV) && IsVariable("tags", MIX_ENV) && HasDag(MIX_ENV)
    ensures "uuid4" in MIX_ENV && MIX_ENV["uuid4"] == Imported(["uuid", "uuid4"])
  {
  }

  lemma FreshIsFlagged()
    ensures GetVaryingSource(FRESH, STATE.b) == Some(Snippet(FRESH)) && Snippet(FRESH) != ""
  {
  }

  lemma BothIsFlagged()
    ensures GetVaryingSource(BOTH, STATE.b) == Some(Snippet(FRESH))
  {
    FreshIsFlagged();
    var elts := [Name("tags"), FRESH];
    assert elts[1..] == [FRESH] && [FRESH][1..] == [];
    assert GetVaryingSource(Name("tags"), STATE.b) == None;
    assert GetVaryingCollection(elts, STATE.b) == GetVaryingCollection(elts[1..], STATE.b);
  }

  lemma MixVisits()
    ensures VisitStmt(MIX, STATE) == MixState() && VisitStmt(TAKE, MixState()) == TakeState()
  {
    FreshIsFlagged();
    BothIsFlagged();
    PlainTarget("pair");
    PlainTarget("first");
    PopIsFlagged();
  }

  lemma PopIsFlagged()
    ensures GetVaryingSource(POP, MixState().b) == Some(Snippet(FRESH)) && !IsConstructor(POP, MixState())
  {
  }

  lemma MixLeads()
    ensures Leads(File([TAGS, MIX]), MixState(), MIX_ENV, [])
  {
    YieldsEmpty(ENV);
    AssignsOne("tags", NEW_LIST, STATE, ENV, EMPTY, ENV);
    Opens(TAGS, STATE, TAGS_ENV);
    YieldsName("tags", TAGS_ENV);
    Fresh(TAGS_ENV, 0);
    YieldsTwo(Name("tags"), FRESH, TAGS_ENV, EMPTY, Observed(0));
    YieldsDisplay(ListDisplay, [Name("tags"), FRESH], TAGS_ENV, MIXED.items);
    AssignsOne("pair", BOTH, STATE, TAGS_ENV, MIXED, TAGS_ENV);
    MixVisits();
    Second(TAGS, STATE, TAGS_ENV, MIX, MixState(), MIX_ENV);
  }

  function Popped(pair: Value): Value {
    Applied(Member(pair, "pop"), Arguments([Literal(0)], []))
  }

  ghost function AfterTake(env: Env): Env
    requires "pair" in env
  {
    Changed(Given(POP), Popped(env["pair"]), env)["first" := Popped(env["pair"])]
  }

  lemma TakeRuns(st: WalkState, env: Env)
    requires IsVariable("pair", env) && !IsConstructor(POP, st)
    ensures RunsStmt(TAKE, ALL, st, env, AfterTake(env), [])
  {
    var v := Popped(env["pair"]);
    YieldsOne(Constant(0), env, Literal(0));
    MethodCalls("pair", "pop", [Constant(0)], env, [Literal(0)], v);
    AssignsOne("first", POP, st, env, v, Changed(Given(POP), v, env));
  }

  lemma TakeHolds(env: Env)
    requires IsVariable("pair", env) && IsVariable("tags", env)
    requires HasDag(env) && "uuid4" in env && env["uuid4"] == Imported(["uuid", "uuid4"])
    ensures IsVariable("first", AfterTake(env)) && IsVariable("tags", AfterTake(env)) && HasDag(AfterTake(env))
    ensures "uuid4" in AfterTake(env) && AfterTake(env)["uuid4"] == Imported(["uuid", "uuid4"])
  {
  }

  // ----- task operators

  const OPERATOR: Dotted := ["airflow", "operators", "empty", "EmptyOperator"]
  const FROM_OPERATORS := ImportFrom(Some(["airflow", "operators", "empty"]), [MemberAlias("EmptyOperator", None)])
  const OPERATOR_ENV: Env := ENV["EmptyOperator" := Imported(OPERATOR)]

  function OperatorState(): WalkState {
    STATE.(b := STATE.b.(fromImports :=
    STATE.b.fromImports["EmptyOperator" := (["airflow", "operators", "empty"], "EmptyOperator")]))
  }

  /** `EmptyOperator(task_id=id)`. */
  function TaskOf(id: Expr): Expr {
    Call(Name("EmptyOperator"), [], [Keyword(Some("task_id"), id)], Site(1, None, ""))
  }

  function TaskValue(id: Value): Value {
    Applied(Imported(OPERATOR), Arguments([], [(Some("task_id"), id)]))
  }

  lemma OperatorBegins()
    ensures Leads(File([FROM_OPERATORS]), OperatorState(), OPERATOR_ENV, [])
  {
    var path: Dotted, member := ["airflow", "operators", "empty"], MemberAlias("EmptyOperator", None);
    assert [member][1..] == [];
    assert RecordMembers(path, [member], STATE.b.fromImports) ==
           STATE.b.fromImports["EmptyOperator" := (path, "EmptyOperator")];
    assert path + ["EmptyOperator"] == OPERATOR;
    assert BindMembers(Some(path), [member], {}, map[]) == map["EmptyOperator" := OPERATOR];
    assert ENV + Imports(map["EmptyOperator" := OPERATOR]) == OPERATOR_ENV;
    Opens(FROM_OPERATORS, OperatorState(), OPERATOR_ENV);
  }

  lemma OperatorIsPlain()
    ensures !Certified(OPERATOR)
  {
  }

  lemma TaskCalls(id: Expr, env: Env, v: Value)
    requires "EmptyOperator" in env && env["EmptyOperator"] == Imported(OPERATOR)
    requires Yields(id, env, v) && forall n :: n in Held(id) ==> !IsVariable(n, env)
    ensures exists step :: Calls(TaskOf(id), ALL, env, step, TaskValue(v), env)
  {
    OperatorIsPlain();
    var keyword := Keyword(Some("task_id"), id);
    assert keyword.value == id && TaskValue(v) == Applied(Imported(OPERATOR), Arguments([], [(keyword.arg, v)]));
    var step := KeywordCalls("EmptyOperator", OPERATOR, keyword, env, v);
    assert Calls(TaskOf(id), ALL, env, step, TaskValue(v), env);
  }

  /** `callable(keyword=value)`, given no variable. */
  lemma KeywordCalls(callable: string, path: Dotted, keyword: Keyword, env: Env, v: Value) returns (step: CallStep)
    requires callable in env && env[callable] == Imported(path) && !Certified(path)
    requires Yields(keyword.value, env, v) && forall n :: n in Held(keyword.value) ==> !IsVariable(n, env)
    ensures var result := Applied(Imported(path), Arguments([], [(keyword.arg, v)]));
            Calls(Call(Name(callable), [], [keyword], Site(1, None, "")), ALL, env, step, result, env)
  {
    var call, arguments := Call(Name(callable), [], [keyword], Site(1, None, "")), Arguments([], [(keyword.arg, v)]);
    var result := Applied(Imported(path), arguments);
    KeywordEvaluates(call, keyword, env, v);
    assert [keyword][1..] == [];
    assert HeldKeywords([keyword]) == HeldKeyword(keyword) + HeldKeywords([]);
    assert Held(call.func) == {callable} && HeldAll(call.args) == {};
    assert Given(call) == {callable} + Held(keyword.value);
    NothingGiven(Given(call), result, env);
    step := CallStep(Imported(path), env, arguments, env);
  }

  lemma KeywordEvaluates(call: Expr, keyword: Keyword, env: Env, v: Value)
    requires call.Call? && call.args == [] && call.keywords == [keyword] && Yields(keyword.value, env, v)
    ensures EvaluatesArguments(call, ALL, env, Arguments([], [(keyword.arg, v)]), env)
  {
    var named := (keyword.arg, v);
    assert [keyword][1..] == [] && [named][1..] == [];
    YieldsNone(env);
    assert EvaluatesKeyword(keyword, ALL, env, named, env);
    assert EvaluatesNamed([], ALL, env, [], env);
    assert EvaluatesNamed([keyword], ALL, env, [named], env);
  }

  const RANDOM_ID := JoinedStr([Formatted(FRESH, None)])
  const LEFT := Assign([Name("left")], TaskOf(Constant(0)), 1)
  const RIGHT := Assign([Name("right")], TaskOf(RANDOM_ID), 1)
  const ARROW := BinOp(Name("left"), ">>", Name("right"))
  const LEFT_ENV: Env := OPERATOR_ENV["left" := TaskValue(Literal(0))]

  function RightState(): WalkState {
    Taint({"right"}, (1, Snippet(TaskOf(RANDOM_ID))), OperatorState())
  }

  function RightEnv(reading: int): Env {
    LEFT_ENV["right" := TaskValue(Joined([Observed(reading)]))]
  }

  /** `left = EmptyOperator(task_id="left")`, `right = EmptyOperator(task_id=f"{uuid4()}")`,
      `left >> right`, `left`: what a task operator does to its operands is not tracked. */
  lemma OperatorLeaks()
    ensures Leaks(File([FROM_OPERATORS, LEFT, RIGHT] + [Bare(ARROW)] + [DagOf(Name("left"))]))
  {
    var env1 := ArrowLeads(0);
    var env2 := ArrowLeads(1);
    assert [FROM_OPERATORS, LEFT, RIGHT] + [Bare(ARROW)] == [FROM_OPERATORS, LEFT, RIGHT, Bare(ARROW)];
    YieldsName("left", env1);
    YieldsName("left", env2);
    ArrowValuesDiffer();
    RightIsReady();
    LeaksAt([FROM_OPERATORS, LEFT, RIGHT, Bare(ARROW)], Name("left"), RightState(), env1, env2, [],
            env1["left"], env2["left"], env1, env2);
  }

  lemma RightIsReady()
    ensures Ready(RightState()) && GetVaryingSource(Name("left"), RightState().b) == None
  {
  }

  function ArrowValue(reading: int): Value {
    Combined(TaskValue(Literal(0)), ">>", TaskValue(Joined([Observed(reading)])))
  }

  lemma ArrowValuesDiffer()
    ensures ArrowValue(0) != ArrowValue(1)
  {
  }

  ghost function AfterArrow(env: Env, v: Value): Env {
    Changed({"left"} + {"right"}, v, env)
  }

  lemma ArrowRuns(st: WalkState, env: Env)
    requires IsVariable("left", env) && IsVariable("right", env) && HasDag(env)
    ensures var v := Combined(env["left"], ">>", env["right"]);
            && RunsStmt(Bare(ARROW), ALL, st, env, AfterArrow(env, v), [])
            && HasDag(AfterArrow(env, v))
            && "left" in AfterArrow(env, v) && AfterArrow(env, v)["left"] == Updated(env["left"], v)
    ensures VisitStmt(Bare(ARROW), st) == st
  {
    var v := Combined(env["left"], ">>", env["right"]);
    YieldsName("left", env);
    YieldsName("right", env);
    assert Evaluates(ARROW, ALL, env, v, AfterArrow(env, v));
    assert OutermostCalls(ARROW) == [];
    assert Uses(ARROW, ALL, st, env, v, AfterArrow(env, v), []);
    AllChange({"left"} + {"right"}, "left", v, env, "left");
    ImportsStay({"left"} + {"right"}, v, env, "DAG");
  }

  lemma RightHolds(reading: int)
    ensures var env := RightEnv(reading);
            && IsVariable("left", env) && IsVariable("right", env) && HasDag(env)
            && Combined(env["left"], ">>", env["right"]) == ArrowValue(reading)
  {
  }

  lemma ArrowLeads(reading: int) returns (env: Env)
    ensures Leads(File([FROM_OPERATORS, LEFT, RIGHT, Bare(ARROW)]), RightState(), env, [])
    ensures HasDag(env) && "left" in env && env["left"] == Updated(TaskValue(Literal(0)), ArrowValue(reading))
  {
    env := AfterArrow(RightEnv(reading), ArrowValue(reading));
    RightHolds(reading);
    RightLeads(reading);
    ArrowRuns(RightState(), RightEnv(reading));
    Follows([FROM_OPERATORS, LEFT, RIGHT], RightState(), RightEnv(reading), Bare(ARROW), RightState(), env);
    assert [FROM_OPERATORS, LEFT, RIGHT] + [Bare(ARROW)] == [FROM_OPERATORS, LEFT, RIGHT, Bare(ARROW)];
  }

  lemma LeftLeads()
    ensures Leads(File([FROM_OPERATORS, LEFT]), OperatorState(), LEFT_ENV, [])
  {
    OperatorBegins();
    LeftVisits();
    LeftRuns();
    Second(FROM_OPERATORS, OperatorState(), OPERATOR_ENV, LEFT, OperatorState(), LEFT_ENV);
  }

  lemma RightLeads(reading: int)
    ensures Leads(File([FROM_OPERATORS, LEFT, RIGHT]), RightState(), RightEnv(reading), [])
  {
    LeftLeads();
    RightVisits();
    RightRuns(reading);
    Third(FROM_OPERATORS, LEFT, OperatorState(), LEFT_ENV, RIGHT, RightState(), RightEnv(reading));
  }

  lemma TaskIsNoConstructor(id: Expr)
    requires !id.Name?
    ensures !IsConstructor(TaskOf(id), OperatorState())
  {
  }

  lemma TaskSource(id: Expr)
    ensures GetVaryingSource(TaskOf(id), OperatorState().b) ==
            if Truthy(GetVaryingSource(id, OperatorState().b)) then Some(Snippet(TaskOf(id))) else None
  {
    var keywords, b := TaskOf(id).keywords, OperatorState().b;
    assert keywords[1..] == [];
    OperatorIsUnseen();
    assert GetVaryingKeyword(keywords, b) ==
           if Truthy(GetVaryingSource(id, b)) then GetVaryingSource(id, b) else GetVaryingKeyword([], b);
    assert GetVaryingArgument(TaskOf(id), b) == GetVaryingKeyword(keywords, b);
  }

  lemma OperatorIsUnseen()
    ensures !IsRuntimeVaryingNameCall("EmptyOperator", OperatorState().b)
  {
  }

  lemma LeftVisits()
    ensures VisitStmt(LEFT, OperatorState()) == OperatorState()
  {
    TaskIsNoConstructor(Constant(0));
    TaskSource(Constant(0));
  }

  lemma RightVisits()
    ensures VisitStmt(RIGHT, OperatorState()) == RightState()
  {
    var part := Formatted(FRESH, None);
    assert OperatorState().b.fromImports["uuid4"] == (["uuid"], "uuid4");
    assert "uuid" in ["uuid"] && ("uuid", "uuid4") in RUNTIME_VARYING_CALLS;
    assert PartSource(part, OperatorState().b) == Some(Snippet(FRESH));
    assert GetVaryingFString([part], OperatorState().b) == Some(Snippet(FRESH));
    TaskIsNoConstructor(RANDOM_ID);
    TaskSource(RANDOM_ID);
    PlainTarget("right");
  }

  lemma LeftRuns()
    ensures RunsStmt(LEFT, ALL, OperatorState(), OPERATOR_ENV, LEFT_ENV, [])
  {
    TaskIsNoConstructor(Constant(0));
    assert Yields(Constant(0), OPERATOR_ENV, Literal(0));
    TaskCalls(Constant(0), OPERATOR_ENV, Literal(0));
    AssignsOne("left", TaskOf(Constant(0)), OperatorState(), OPERATOR_ENV, TaskValue(Literal(0)), OPERATOR_ENV);
  }

  lemma RightRuns(reading: int)
    ensures RunsStmt(RIGHT, ALL, OperatorState(), LEFT_ENV, RightEnv(reading), [])
  {
    TaskIsNoConstructor(RANDOM_ID);
    Fresh(LEFT_ENV, reading);
    YieldsText(FRESH, LEFT_ENV, Observed(reading));
    TaskCalls(RANDOM_ID, LEFT_ENV, Joined([Observed(reading)]));
    AssignsOne("right", TaskOf(RANDOM_ID), OperatorState(), LEFT_ENV, TaskValue(Joined([Observed(reading)])), LEFT_ENV);
  }

  lemma YieldsText(value: Expr, env: Env, v: Value)
    requires Yields(value, env, v)
    ensures Yields(JoinedStr([Formatted(value, None)]), env, Joined([v]))
  {
    var part := Formatted(value, None);
    assert [part][1..] == [] && [v][1..] == [];
    assert EvaluatesPart(part, ALL, env, v, env);
    assert EvaluatesParts([], ALL, env, [], env);
    assert EvaluatesParts([part], ALL, env, [v], env);
  }

  // ----- certified callables come to otherwise

  /** A call that may come to a certified callable, though the walk does not see it. */
  lemma HiddenClockLeaks(rest: seq<Stmt>, func: Expr, args: seq<Expr>, st: WalkState, env: Env, callee: Value,
                         vs: seq<Value>)
    requires Leads(File(rest), st, env, []) && Ready(st) && HasDag(env)
    requires !IsClock(Resolve(func, env)) && Reached(func, env, callee) && YieldsAll(args, env, vs)
    requires MayReadClock(func, Resolve(func, env), callee, Arguments(vs, []))
    requires GetVaryingSource(CallOf(func, args), st.b) == None
    ensures Leaks(File(rest + [DagOf(CallOf(func, args))]))
  {
    var call := CallOf(func, args);
    OtherCalls(func, args, env, callee, vs, Observed(0));
    OtherCalls(func, args, env, callee, vs, Observed(1));
    LeaksAt(rest, call, st, env, env, [], Observed(0), Observed(1),
            Changed(Given(call), Observed(0), env), Changed(Given(call), Observed(1), env));
  }

  lemma Uuid4Reaches()
    ensures ClockPath(["uuid", "uuid4"]) && Reaches(["uuid", "uuid4", "__call__"])
  {
    var path: Dotted := ["uuid", "uuid4"];
    assert (path[0], path[1]) in RUNTIME_VARYING_CALLS;
    var longer: Dotted := ["uuid", "uuid4", "__call__"];
    assert (longer[0], longer[1]) in RUNTIME_VARYING_CALLS;
  }

  const DUNDER := Attribute(Name("uuid4"), "__call__")

  /** `uuid4.__call__()`: a chain that goes on from a certified callable is not looked into. */
  lemma ThroughClockLeaks()
    ensures Leaks(File([] + [DagOf(CallOf(DUNDER, []))]))
  {
    var path: Dotted := ["uuid", "uuid4", "__call__"];
    Begins();
    Uuid4Reaches();
    YieldsNone(ENV);
    DunderResolves();
    DunderIsUnseen();
    HiddenClockLeaks([], DUNDER, [], STATE, ENV, Imported(path), []);
  }

  lemma DunderResolves()
    ensures Resolve(DUNDER, ENV) == Some(["uuid", "uuid4", "__call__"])
  {
    assert ["uuid", "uuid4"] + ["__call__"] == ["uuid", "uuid4", "__call__"];
  }

  lemma DunderIsUnseen()
    ensures GetVaryingSource(CallOf(DUNDER, []), STATE.b) == None && !Certified(["uuid", "uuid4", "__call__"])
    ensures Ready(STATE) && HasDag(ENV)
  {
  }

  const DATE_STATE := Noted(STATE, "datetime", "datetime", "datetime")
  const DATE_ENV: Env := ENV["datetime" := Imported(["datetime", "datetime"])]
  const DAY := [Constant(2024), Constant(1), Constant(1)]
  const THAT_DAY := CallOf(Name("datetime"), DAY)
  const START := Applied(Imported(["datetime", "datetime"]), Arguments([Literal(2024), Literal(1), Literal(1)], []))
  const SETS_START := Assign([Name("start")], THAT_DAY, 1)
  const NOW := Attribute(Name("start"), "now")
  const START_ENV: Env := DATE_ENV["start" := START]

  /** `from datetime import datetime`, `start = datetime(2024, 1, 1)`, `start.now()`: a certified
      method called on an instance is not seen. */
  lemma InstanceLeaks()
    ensures Leaks(File([From("datetime", "datetime"), SETS_START] + [DagOf(CallOf(NOW, []))]))
  {
    StartLeads();
    NowIsUnseen();
    NowReadsClock(START_ENV);
    YieldsNone(START_ENV);
    HiddenClockLeaks([From("datetime", "datetime"), SETS_START], NOW, [], DATE_STATE, START_ENV,
                     Member(START, "now"), []);
  }

  lemma StartLeads()
    ensures Leads(File([From("datetime", "datetime"), SETS_START]), DATE_STATE, START_ENV, [])
  {
    BeginsWith("datetime", "datetime");
    DayVisits();
    StartRuns();
    Second(From("datetime", "datetime"), DATE_STATE, DATE_ENV, SETS_START, DATE_STATE, START_ENV);
  }

  lemma NowReadsClock(env: Env)
    requires IsVariable("start", env)
    ensures Resolve(NOW, env).None? && Reached(NOW, env, Member(env["start"], "now")) && ClockMethod("now")
  {
  }

  lemma NowIsUnseen()
    ensures GetVaryingSource(CallOf(NOW, []), DATE_STATE.b) == None
    ensures Resolve(NOW, START_ENV).None? && Ready(DATE_STATE) && HasDag(START_ENV)
  {
  }

  lemma DayVisits()
    ensures VisitStmt(SETS_START, DATE_STATE) == DATE_STATE && !IsConstructor(THAT_DAY, DATE_STATE)
  {
    assert DAY[1..] == [Constant(1), Constant(1)] && DAY[1..][1..] == [Constant(1)] && DAY[1..][1..][1..] == [];
    assert GetVaryingCollection([Constant(1)], DATE_STATE.b) == None;
    assert GetVaryingCollection([Constant(1), Constant(1)], DATE_STATE.b) == None;
    assert GetVaryingCollection(DAY, DATE_STATE.b) == None;
    assert GetVaryingArgument(THAT_DAY, DATE_STATE.b) == None;
    DatetimeIsPlain();
  }

  lemma DatetimeIsPlain()
    ensures !IsRuntimeVaryingNameCall("datetime", DATE_STATE.b) && !Certified(["datetime", "datetime"])
  {
  }

  lemma StartRuns()
    ensures RunsStmt(SETS_START, ALL, DATE_STATE, DATE_ENV, START_ENV, [])
  {
    DatetimeIsPlain();
    DayVisits();
    DayYields(DATE_ENV);
    DayGives();
    AssignsImportCall("start", "datetime", ["datetime", "datetime"], DAY, DATE_STATE, DATE_ENV,
                      [Literal(2024), Literal(1), Literal(1)]);
  }

  lemma DayYields(env: Env)
    ensures YieldsAll(DAY, env, [Literal(2024), Literal(1), Literal(1)])
  {
    var vs := [Literal(2024), Literal(1), Literal(1)];
    YieldsTwo(Constant(1), Constant(1), env, Literal(1), Literal(1));
    assert DAY[1..] == [Constant(1), Constant(1)] && vs[1..] == [Literal(1), Literal(1)];
    assert Yields(DAY[0], env, vs[0]);
  }

  lemma DayGives()
    ensures HeldAll(DAY) == {}
  {
  }

  const PART_STATE := Noted(STATE, "functools", "partial", "partial")
  const PART_ENV: Env := ENV["partial" := Imported(["functools", "partial"])]
  const WRAP := CallOf(Name("partial"), [Name("uuid4")])
  const WRAPPED := Applied(Imported(["functools", "partial"]), Arguments([Imported(["uuid", "uuid4"])], []))
  const WRAPS := Assign([Name("fresh")], WRAP, 1)
  const WRAP_ENV: Env := PART_ENV["fresh" := WRAPPED]

  /** `from functools import partial`, `fresh = partial(uuid4)`, `fresh()`: a certified callable
      handed over as a value is not tracked. */
  lemma CallableValueLeaks()
    ensures Leaks(File([From("functools", "partial"), WRAPS] + [DagOf(CallOf(Name("fresh"), []))]))
  {
    BeginsWith("functools", "partial");
    WrapVisits();
    WrapRuns();
    Second(From("functools", "partial"), PART_STATE, PART_ENV, WRAPS, PART_STATE, WRAP_ENV);
    YieldsName("fresh", WRAP_ENV);
    YieldsNone(WRAP_ENV);
    WrappedCarries();
    FreshIsUnseen();
    HiddenClockLeaks([From("functools", "partial"), WRAPS], Name("fresh"), [], PART_STATE, WRAP_ENV, WRAPPED, []);
  }

  lemma WrappedCarries()
    ensures Carries(WRAPPED)
  {
    Uuid4Reaches();
    assert Carries(WRAPPED.arguments.positional[0]);
  }

  lemma FreshIsUnseen()
    ensures GetVaryingSource(CallOf(Name("fresh"), []), PART_STATE.b) == None
    ensures Resolve(Name("fresh"), WRAP_ENV).None? && Ready(PART_STATE) && HasDag(WRAP_ENV)
  {
  }

  lemma WrapVisits()
    ensures VisitStmt(WRAPS, PART_STATE) == PART_STATE && !IsConstructor(WRAP, PART_STATE)
  {
    assert [Name("uuid4")][1..] == [];
    assert GetVaryingSource(Name("uuid4"), PART_STATE.b) == None;
    assert GetVaryingCollection([Name("uuid4")], PART_STATE.b) == GetVaryingCollection([], PART_STATE.b);
    assert GetVaryingArgument(WRAP, PART_STATE.b) == None;
    PartialIsPlain();
  }

  lemma PartialIsPlain()
    ensures !IsRuntimeVaryingNameCall("partial", PART_STATE.b) && !Certified(["functools", "partial"])
  {
  }

  lemma WrapRuns()
    ensures RunsStmt(WRAPS, ALL, PART_STATE, PART_ENV, WRAP_ENV, [])
  {
    YieldsName("uuid4", PART_ENV);
    YieldsOne(Name("uuid4"), PART_ENV, Imported(["uuid", "uuid4"]));
    PartialIsPlain();
    assert [Name("uuid4")][1..] == [];
    assert HeldAll([Name("uuid4")]) == {"uuid4"};
    WrapVisits();
    AssignsImportCall("fresh", "partial", ["functools", "partial"], [Name("uuid4")], PART_STATE, PART_ENV,
                      [Imported(["uuid", "uuid4"])]);
  }

  const IMPORT_RANDOM := Import([ModuleAlias(["random"], None)])
  const CALLER_STATE := Noted(STATE, "operator", "methodcaller", "methodcaller")
  const CALLER_ENV: Env := ENV["methodcaller" := Imported(["operator", "methodcaller"])]
  const RANDOM_ENV: Env := CALLER_ENV["random" := Imported(["random"])]
  const CALLER := CallOf(Name("methodcaller"), [Constant(0)])
  const DRAWER := Applied(Imported(["operator", "methodcaller"]), Arguments([Literal(0)], []))
  const SETS_DRAW := Assign([Name("draw")], CALLER, 1)
  const DRAW_ENV: Env := RANDOM_ENV["draw" := DRAWER]
  const DRAWN := CallOf(Name("draw"), [Name("random")])

  function RandomState(): WalkState {
    CALLER_STATE.(b := CALLER_STATE.b.(imports := STATE.b.imports[["random"] := ["random"]]))
  }

  /** `from operator import methodcaller`, `import random`, `draw = methodcaller("random")`,
      `draw(random)`: an owner handed over as a value is not tracked. */
  lemma OwnerValueLeaks()
    ensures Leaks(File([From("operator", "methodcaller"), IMPORT_RANDOM, SETS_DRAW] + [DagOf(DRAWN)]))
  {
    DrawLeads();
    YieldsName("draw", DRAW_ENV);
    YieldsName("random", DRAW_ENV);
    YieldsOne(Name("random"), DRAW_ENV, Imported(["random"]));
    RandomCarries();
    DrawnIsUnseen();
    HiddenClockLeaks([From("operator", "methodcaller"), IMPORT_RANDOM, SETS_DRAW], Name("draw"), [Name("random")],
                     RandomState(), DRAW_ENV, DRAWER, [Imported(["random"])]);
  }

  lemma RandomCarries()
    ensures ArgumentsCarry(Arguments([Imported(["random"])], []))
  {
    var path: Dotted := ["random"];
    assert ("random", "random") in RUNTIME_VARYING_CALLS && MayOwn(Last(path));
    assert Carries(Arguments([Imported(path)], []).positional[0]);
  }

  lemma DrawnIsUnseen()
    ensures GetVaryingSource(DRAWN, RandomState().b) == None
    ensures Resolve(Name("draw"), DRAW_ENV).None? && Ready(RandomState()) && HasDag(DRAW_ENV)
  {
  }

  lemma DrawLeads()
    ensures Leads(File([From("operator", "methodcaller"), IMPORT_RANDOM, SETS_DRAW]), RandomState(), DRAW_ENV, [])
  {
    var first := From("operator", "methodcaller");
    BeginsWith("operator", "methodcaller");
    RandomRuns();
    Second(first, CALLER_STATE, CALLER_ENV, IMPORT_RANDOM, RandomState(), RANDOM_ENV);
    DrawVisits();
    DrawRuns();
    Third(first, IMPORT_RANDOM, RandomState(), RANDOM_ENV, SETS_DRAW, RandomState(), DRAW_ENV);
  }

  lemma RandomRuns()
    ensures RunsStmt(IMPORT_RANDOM, ALL, CALLER_STATE, CALLER_ENV, RANDOM_ENV, [])
    ensures VisitStmt(IMPORT_RANDOM, CALLER_STATE) == RandomState()
  {
  }

  lemma MethodcallerIsPlain()
    ensures !IsRuntimeVaryingNameCall("methodcaller", RandomState().b) && !Certified(["operator", "methodcaller"])
  {
  }

  lemma DrawVisits()
    ensures VisitStmt(SETS_DRAW, RandomState()) == RandomState() && !IsConstructor(CALLER, RandomState())
  {
    assert [Constant(0)][1..] == [];
    assert GetVaryingCollection([Constant(0)], RandomState().b) == GetVaryingCollection([], RandomState().b);
    assert GetVaryingArgument(CALLER, RandomState().b) == None;
    MethodcallerIsPlain();
  }

  lemma DrawRuns()
    ensures RunsStmt(SETS_DRAW, ALL, RandomState(), RANDOM_ENV, DRAW_ENV, [])
  {
    YieldsOne(Constant(0), RANDOM_ENV, Literal(0));
    MethodcallerIsPlain();
    assert [Constant(0)][1..] == [];
    assert HeldAll([Constant(0)]) == {};
    DrawVisits();
    AssignsImportCall("draw", "methodcaller", ["operator", "methodcaller"], [Constant(0)], RandomState(), RANDOM_ENV,
                      [Literal(0)]);
  }
}
