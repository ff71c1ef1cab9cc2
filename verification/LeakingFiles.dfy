/** Dag files that load with other arguments each time and draw no finding: how such a file is
    put together. Every file starts with `from airflow import DAG` and `from uuid import uuid4`,
    and ends with a bare `DAG("id", user_defined_macros=arg)`. */
module LeakingFiles {
  import opened Prelude
  import opened DagSyntax
  import opened Ordering
  import opened VaryingAnalyzer
  import opened DagArgsVisitor
  import opened DagExecution

  /** All variables in one group: nothing is taken to be apart. */
  const ALL: Sharing := (name: string) => 0

  ghost predicate Leaks(module_: seq<Stmt>) {
    && FindRuntimeVaryingDagArgs(module_) == []
    && exists env1, env2, p1, p2 :: RunsApart(module_, env1, env2, p1, p2)
  }

  ghost predicate RunsApart(module_: seq<Stmt>, env1: Env, env2: Env, p1: seq<Passed>, p2: seq<Passed>) {
    && RunsBody(module_, ALL, INITIAL_STATE, map[], env1, p1)
    && RunsBody(module_, ALL, INITIAL_STATE, map[], env2, p2)
    && p1 != p2
  }

  function From(path: string, name: string): Stmt {
    ImportFrom(Some([path]), [MemberAlias(name, None)])
  }

  function FromAs(path: string, name: string, asName: string): Stmt {
    ImportFrom(Some([path]), [MemberAlias(name, Some(asName))])
  }

  function CallOf(func: Expr, args: seq<Expr>): Expr {
    Call(func, args, [], Site(1, None, ""))
  }

  const DAG_ID := Constant(0)

  /** `DAG("id", user_defined_macros=arg)`. */
  function DagCall(arg: Expr): Expr {
    Call(Name("DAG"), [DAG_ID], [Keyword(Some("user_defined_macros"), arg)], Site(1, None, ""))
  }

  function DagOf(arg: Expr): Stmt {
    Bare(DagCall(arg))
  }

  const FRESH := CallOf(Name("uuid4"), [])

  function File(rest: seq<Stmt>): seq<Stmt> {
    [From("airflow", "DAG"), From("uuid", "uuid4")] + rest
  }

  // ----- files, statement by statement

  /** The statements lead the walk to `st`, and some load to `env`, passing `passed`. */
  ghost predicate Leads(stmts: seq<Stmt>, st: WalkState, env: Env, passed: seq<Passed>) {
    VisitBody(stmts, INITIAL_STATE) == st && RunsBody(stmts, ALL, INITIAL_STATE, map[], env, passed)
  }

  lemma {:induction false} VisitSnoc(stmts: seq<Stmt>, last: Stmt, st: WalkState)
    ensures VisitBody(stmts + [last], st) == VisitStmt(last, VisitBody(stmts, st))
  {
    if stmts == [] {
      assert [last][1..] == [] && stmts + [last] == [last];
      assert VisitBody([last], st) == VisitBody([last][1..], VisitStmt([last][0], st));
    } else {
      assert (stmts + [last])[1..] == stmts[1..] + [last];
      VisitSnoc(stmts[1..], last, VisitStmt(stmts[0], st));
    }
  }

  lemma {:induction false} RunsSnoc(stmts: seq<Stmt>, last: Stmt, st: WalkState, env: Env, mid: Env, env': Env,
                                    passed: seq<Passed>, more: seq<Passed>)
    requires RunsBody(stmts, ALL, st, env, mid, passed)
    requires RunsStmt(last, ALL, VisitBody(stmts, st), mid, env', more)
    ensures RunsBody(stmts + [last], ALL, st, env, env', passed + more)
  {
    if stmts == [] {
      RunsOne(last, st, env, env', more);
      assert [] + [last] == [last];
      assert [] + more == more;
    } else {
      var next := VisitStmt(stmts[0], st);
      var between, first, rest := FirstRuns(stmts, st, env, mid, passed);
      assert VisitBody(stmts, st) == VisitBody(stmts[1..], next);
      RunsSnoc(stmts[1..], last, next, between, mid, env', rest, more);
      RunsBefore(stmts, last, st, env, between, env', first, rest + more);
      Associated(first, rest, more);
    }
  }

  lemma Associated<T>(a: seq<T>, b: seq<T>, c: seq<T>)
    ensures a + b + c == a + (b + c)
  {
  }

  lemma FirstRuns(stmts: seq<Stmt>, st: WalkState, env: Env, env': Env, passed: seq<Passed>)
    returns (mid: Env, first: seq<Passed>, rest: seq<Passed>)
    requires stmts != [] && RunsBody(stmts, ALL, st, env, env', passed)
    ensures passed == first + rest && RunsStmt(stmts[0], ALL, st, env, mid, first)
    ensures RunsBody(stmts[1..], ALL, VisitStmt(stmts[0], st), mid, env', rest)
  {
    mid, first, rest :| passed == first + rest && RunsStmt(stmts[0], ALL, st, env, mid, first)
                        && RunsBody(stmts[1..], ALL, VisitStmt(stmts[0], st), mid, env', rest);
  }

  lemma RunsOne(stmt: Stmt, st: WalkState, env: Env, env': Env, passed: seq<Passed>)
    requires RunsStmt(stmt, ALL, st, env, env', passed)
    ensures RunsBody([stmt], ALL, st, env, env', passed)
  {
    assert [stmt][1..] == [];
    RunsFirst([stmt], st, env, env', env', passed, []);
    assert passed + [] == passed;
  }

  lemma RunsBefore(stmts: seq<Stmt>, last: Stmt, st: WalkState, env: Env, mid: Env, env': Env,
                   first: seq<Passed>, rest: seq<Passed>)
    requires stmts != [] && RunsStmt(stmts[0], ALL, st, env, mid, first)
    requires RunsBody(stmts[1..] + [last], ALL, VisitStmt(stmts[0], st), mid, env', rest)
    ensures RunsBody(stmts + [last], ALL, st, env, env', first + rest)
  {
    assert (stmts + [last])[1..] == stmts[1..] + [last];
    RunsFirst(stmts + [last], st, env, mid, env', first, rest);
  }

  lemma RunsFirst(body: seq<Stmt>, st: WalkState, env: Env, mid: Env, env': Env, first: seq<Passed>, rest: seq<Passed>)
    requires body != [] && RunsStmt(body[0], ALL, st, env, mid, first)
    requires RunsBody(body[1..], ALL, VisitStmt(body[0], st), mid, env', rest)
    ensures RunsBody(body, ALL, st, env, env', first + rest)
  {
  }

  lemma Onward(stmts: seq<Stmt>, st: WalkState, env: Env, passed: seq<Passed>,
               stmt: Stmt, st': WalkState, env': Env, more: seq<Passed>)
    requires Leads(stmts, st, env, passed)
    requires VisitStmt(stmt, st) == st' && RunsStmt(stmt, ALL, st, env, env', more)
    ensures Leads(stmts + [stmt], st', env', passed + more)
  {
    VisitSnoc(stmts, stmt, INITIAL_STATE);
    RunsSnoc(stmts, stmt, INITIAL_STATE, map[], env, env', passed, more);
  }

  /** A statement that passes nothing to a constructor. */
  lemma Quietly(stmts: seq<Stmt>, st: WalkState, env: Env, passed: seq<Passed>, stmt: Stmt, st': WalkState, env': Env)
    requires Leads(stmts, st, env, passed)
    requires VisitStmt(stmt, st) == st' && RunsStmt(stmt, ALL, st, env, env', [])
    ensures Leads(stmts + [stmt], st', env', passed)
  {
    Onward(stmts, st, env, passed, stmt, st', env', []);
    assert passed + [] == passed;
  }

  // ----- imports

  function Noted(st: WalkState, path: string, name: string, bound: string): WalkState {
    st.(b := st.b.(fromImports := st.b.fromImports[bound := ([path], name)]))
  }

  lemma MemberVisits(st: WalkState, path: string, member: MemberAlias)
    ensures VisitStmt(ImportFrom(Some([path]), [member]), st) == Noted(st, path, member.name, MemberName(member))
  {
    assert [member][1..] == [];
    assert RecordMembers([path], [member], st.b.fromImports) ==
           st.b.fromImports[MemberName(member) := ([path], member.name)];
  }

  lemma MemberRuns(st: WalkState, env: Env, path: string, member: MemberAlias)
    requires member.name != "*"
    ensures RunsStmt(ImportFrom(Some([path]), [member]), ALL, st, env,
                     env[MemberName(member) := Imported([path, member.name])], [])
  {
    var paths := map[MemberName(member) := [path, member.name]];
    assert [member][1..] == [];
    assert [path] + [member.name] == [path, member.name];
    assert BindMembers(Some([path]), [member], {}, map[]) == paths;
    assert env + Imports(paths) == env[MemberName(member) := Imported([path, member.name])];
  }

  lemma Imports1(stmts: seq<Stmt>, st: WalkState, env: Env, path: string, name: string, asName: Option<string>)
    requires Leads(stmts, st, env, []) && name != "*"
    ensures var bound := if asName.Some? then asName.value else name;
            Leads(stmts + [ImportFrom(Some([path]), [MemberAlias(name, asName)])],
                  Noted(st, path, name, bound), env[bound := Imported([path, name])], [])
  {
    var member := MemberAlias(name, asName);
    MemberVisits(st, path, member);
    MemberRuns(st, env, path, member);
    Quietly(stmts, st, env, [], ImportFrom(Some([path]), [member]), Noted(st, path, name, MemberName(member)),
            env[MemberName(member) := Imported([path, name])]);
  }

  /** The walk's state, and a load's environment, after the two imports. */
  const STATE := Noted(Noted(INITIAL_STATE, "airflow", "DAG", "DAG"), "uuid", "uuid4", "uuid4")
  const ENV: Env := map["DAG" := Imported(["airflow", "DAG"])]["uuid4" := Imported(["uuid", "uuid4"])]

  lemma Begins()
    ensures Leads(File([]), STATE, ENV, [])
  {
    var none: seq<Stmt> := [];
    var empty: Env := map[];
    assert Leads(none, INITIAL_STATE, empty, []);
    Imports1(none, INITIAL_STATE, empty, "airflow", "DAG", None);
    var first := none + [From("airflow", "DAG")];
    Imports1(first, Noted(INITIAL_STATE, "airflow", "DAG", "DAG"), empty["DAG" := Imported(["airflow", "DAG"])],
             "uuid", "uuid4", None);
    assert first + [From("uuid", "uuid4")] == File([]);
  }

  lemma Longer(rest: seq<Stmt>, stmt: Stmt)
    ensures File(rest) + [stmt] == File(rest + [stmt])
  {
  }

  /** One statement after the two imports, and one more after others. */
  lemma Opens(stmt: Stmt, st': WalkState, env': Env)
    requires VisitStmt(stmt, STATE) == st' && RunsStmt(stmt, ALL, STATE, ENV, env', [])
    ensures Leads(File([stmt]), st', env', [])
  {
    Begins();
    Follows([], STATE, ENV, stmt, st', env');
    assert [] + [stmt] == [stmt];
  }

  lemma Follows(rest: seq<Stmt>, st: WalkState, env: Env, stmt: Stmt, st': WalkState, env': Env)
    requires Leads(File(rest), st, env, [])
    requires VisitStmt(stmt, st) == st' && RunsStmt(stmt, ALL, st, env, env', [])
    ensures Leads(File(rest + [stmt]), st', env', [])
  {
    Quietly(File(rest), st, env, [], stmt, st', env');
    Longer(rest, stmt);
  }

  // ----- expressions

  /** The node evaluates to `v` and changes nothing. */
  ghost predicate Yields(node: Expr, env: Env, v: Value) {
    Evaluates(node, ALL, env, v, env)
  }

  ghost predicate YieldsAll(nodes: seq<Expr>, env: Env, vs: seq<Value>) {
    EvaluatesAll(nodes, ALL, env, vs, env)
  }

  lemma YieldsNone(env: Env)
    ensures YieldsAll([], env, [])
  {
  }

  lemma YieldsOne(node: Expr, env: Env, v: Value)
    requires Yields(node, env, v)
    ensures YieldsAll([node], env, [v])
  {
    assert [node][1..] == [] && [v][1..] == [];
    YieldsNone(env);
  }

  lemma YieldsTwo(node1: Expr, node2: Expr, env: Env, v1: Value, v2: Value)
    requires Yields(node1, env, v1) && Yields(node2, env, v2)
    ensures YieldsAll([node1, node2], env, [v1, v2])
  {
    assert [node1, node2][1..] == [node2] && [v1, v2][1..] == [v2];
    YieldsOne(node2, env, v2);
  }

  lemma YieldsDisplay(kind: DisplayKind, elts: seq<Expr>, env: Env, vs: seq<Value>)
    requires YieldsAll(elts, env, vs)
    ensures Yields(Display(kind, elts), env, Collected(kind, vs))
  {
  }

  lemma YieldsName(name: string, env: Env)
    requires name in env
    ensures Yields(Name(name), env, env[name])
  {
  }

  lemma YieldsSpaced(value: Expr, spec: Expr, env: Env, v: Value, w: Value)
    requires Yields(value, env, v) && Yields(spec, env, w)
    ensures Yields(JoinedStr([Formatted(value, Some(spec))]), env, Joined([Shaped(v, w)]))
  {
    var part, piece := Formatted(value, Some(spec)), Shaped(v, w);
    assert [part][1..] == [] && [piece][1..] == [];
    assert EvaluatesPart(part, ALL, env, piece, env);
    assert EvaluatesParts([], ALL, env, [], env);
    assert EvaluatesParts([part], ALL, env, [piece], env);
  }

  /** What the variables hold after a call, or operation, with value `v`. */
  ghost function Changed(names: set<string>, v: Value, env: Env): Env {
    Change(ALL, names, v, env)
  }

  /** Nothing changes where no variable is given. */
  lemma NothingGiven(names: set<string>, v: Value, env: Env)
    requires forall n :: n in names ==> !IsVariable(n, env)
    ensures Changed(names, v, env) == env
  {
  }

  /** Otherwise every variable does. */
  lemma AllChange(names: set<string>, n: string, v: Value, env: Env, x: string)
    requires n in names && IsVariable(n, env) && IsVariable(x, env)
    ensures x in Changed(names, v, env) && Changed(names, v, env)[x] == Updated(env[x], v)
  {
    assert InGroupOf(x, names, ALL, env);
  }

  lemma ImportsStay(names: set<string>, v: Value, env: Env, x: string)
    requires x in env && env[x].Imported?
    ensures x in Changed(names, v, env) && Changed(names, v, env)[x] == env[x]
  {
  }

  /** A call with positional arguments alone, which change nothing. */
  lemma ArgumentsYield(func: Expr, args: seq<Expr>, env: Env, vs: seq<Value>)
    requires YieldsAll(args, env, vs)
    ensures EvaluatesArguments(CallOf(func, args), ALL, env, Arguments(vs, []), env)
  {
    assert EvaluatesNamed([], ALL, env, [], env);
  }

  lemma ClockCalls(func: Expr, args: seq<Expr>, env: Env, vs: seq<Value>, reading: int)
    requires IsClock(Resolve(func, env)) && YieldsAll(args, env, vs)
    ensures var step := CallStep(Imported(Resolve(func, env).value), env, Arguments(vs, []), env);
            Calls(CallOf(func, args), ALL, env, step, Observed(reading), env)
    ensures Yields(CallOf(func, args), env, Observed(reading))
  {
    ArgumentsYield(func, args, env, vs);
    var step := CallStep(Imported(Resolve(func, env).value), env, Arguments(vs, []), env);
    assert Calls(CallOf(func, args), ALL, env, step, Observed(reading), env);
  }

  /** How any other call goes, when evaluating its callee and arguments changes nothing. */
  ghost predicate Reached(func: Expr, env: Env, callee: Value) {
    var target := Resolve(func, env);
    if target.Some? then callee == Imported(target.value) else Yields(func, env, callee)
  }

  lemma OtherCalls(func: Expr, args: seq<Expr>, env: Env, callee: Value, vs: seq<Value>, v: Value)
    requires !IsClock(Resolve(func, env)) && Reached(func, env, callee) && YieldsAll(args, env, vs)
    requires Returns(func, Resolve(func, env), CallStep(callee, env, Arguments(vs, []), env), v)
    ensures var call, step := CallOf(func, args), CallStep(callee, env, Arguments(vs, []), env);
            Calls(call, ALL, env, step, v, Changed(Given(call), v, env))
    ensures Evaluates(CallOf(func, args), ALL, env, v, Changed(Given(CallOf(func, args)), v, env))
  {
    ArgumentsYield(func, args, env, vs);
    var call, step := CallOf(func, args), CallStep(callee, env, Arguments(vs, []), env);
    assert Calls(call, ALL, env, step, v, Changed(Given(call), v, env));
  }

  /** A call of an imported callable that is not certified. */
  lemma ImportCalls(name: string, path: Dotted, args: seq<Expr>, env: Env, vs: seq<Value>)
    requires name in env && env[name] == Imported(path) && !Certified(path) && YieldsAll(args, env, vs)
    ensures var call, v := CallOf(Name(name), args), Applied(Imported(path), Arguments(vs, []));
            && Evaluates(call, ALL, env, v, Changed(Given(call), v, env))
            && Calls(call, ALL, env, CallStep(Imported(path), env, Arguments(vs, []), env), v,
                     Changed(Given(call), v, env))
  {
    OtherCalls(Name(name), args, env, Imported(path), vs, Applied(Imported(path), Arguments(vs, [])));
  }

  lemma GivenOf(func: Expr, args: seq<Expr>)
    ensures Given(CallOf(func, args)) == Held(func) + HeldAll(args)
  {
  }

  /** One that is given no variable. */
  lemma ImportCallsQuietly(name: string, path: Dotted, args: seq<Expr>, env: Env, vs: seq<Value>)
    requires name in env && env[name] == Imported(path) && !Certified(path) && YieldsAll(args, env, vs)
    requires forall n :: n in HeldAll(args) ==> !IsVariable(n, env)
    ensures Calls(CallOf(Name(name), args), ALL, env, CallStep(Imported(path), env, Arguments(vs, []), env),
                  Applied(Imported(path), Arguments(vs, [])), env)
  {
    ImportCalls(name, path, args, env, vs);
    GivenOf(Name(name), args);
    NothingGiven(Given(CallOf(Name(name), args)), Applied(Imported(path), Arguments(vs, [])), env);
  }

  // ----- statements

  lemma AssignsOne(name: string, value: Expr, st: WalkState, env: Env, v: Value, mid: Env)
    requires if value.Call? then exists step :: Calls(value, ALL, env, step, v, mid) && !IsConstructor(value, st)
             else Evaluates(value, ALL, env, v, mid)
    ensures RunsStmt(Assign([Name(name)], value, 1), ALL, st, env, mid[name := v], [])
  {
    assert Uses(value, ALL, st, env, v, mid, []);
    assert [Name(name)][1..] == [];
    assert BindTargets([Name(name)], v, mid) == mid[name := v];
    assert Assigned([Name(name)], value, ALL, mid, mid[name := v], v);
  }

  lemma PlainTarget(name: string)
    ensures PlainNames([Name(name)]) == {name}
  {
    assert Name(name) in [Name(name)];
  }

  // ----- the last statement

  /** Whether a bare `DAG(...)` is a constructor call the walk looks at and says nothing about. */
  predicate Ready(st: WalkState) {
    && "DAG" in st.b.fromImports && st.b.fromImports["DAG"] == (["airflow"], "DAG")
    && st.findings == [] && "DAG" !in st.deferred
  }

  predicate HasDag(env: Env) {
    "DAG" in env && env["DAG"] == Imported(["airflow", "DAG"])
  }

  lemma StartIsReady()
    ensures Ready(STATE) && HasDag(ENV)
  {
  }

  lemma DagIsConstructor(arg: Expr, st: WalkState)
    requires Ready(st)
    ensures IsDagConstructor(DagCall(arg), st.b)
  {
  }

  lemma DagUnreported(arg: Expr, st: WalkState)
    requires Ready(st) && GetVaryingSource(arg, st.b) == None
    ensures VisitStmt(DagOf(arg), st) == st
  {
    var call := DagCall(arg);
    DagIsConstructor(arg, st);
    assert [call][1..] == [];
    assert OutermostCalls(call) == [call];
    assert VisitCalls([call], st) == VisitCalls([call][1..], VisitCall([call][0], st));
    DagArguments(arg, st.b);
    assert VisitCall(call, st) == st;
  }

  lemma DagArguments(arg: Expr, b: Bindings)
    requires GetVaryingSource(arg, b) == None
    ensures GetVaryingArgument(DagCall(arg), b) == None
  {
    var keywords := DagCall(arg).keywords;
    assert [DAG_ID][1..] == [] && keywords[1..] == [];
    assert GetVaryingCollection([DAG_ID], b) == GetVaryingCollection([DAG_ID][1..], b);
    assert GetVaryingKeyword(keywords, b) == GetVaryingKeyword(keywords[1..], b);
  }

  function DagArgumentsOf(v: Value): Arguments {
    Arguments([Literal(0)], [(Some("user_defined_macros"), v)])
  }

  function DagPassed(arg: Expr, v: Value): seq<Passed> {
    [Passed(DagCall(arg), DagArgumentsOf(v))]
  }

  ghost function AfterDag(arg: Expr, v: Value, env: Env): Env {
    Changed(Given(DagCall(arg)), Applied(Imported(["airflow", "DAG"]), DagArgumentsOf(v)), env)
  }

  lemma DagEvaluates(arg: Expr, env: Env, v: Value, after: Env)
    requires Evaluates(arg, ALL, env, v, after)
    ensures EvaluatesArguments(DagCall(arg), ALL, env, DagArgumentsOf(v), after)
  {
    var keyword, named := Keyword(Some("user_defined_macros"), arg), (Some("user_defined_macros"), v);
    YieldsOne(DAG_ID, env, Literal(0));
    assert [keyword][1..] == [] && [named][1..] == [];
    assert EvaluatesKeyword(keyword, ALL, env, named, after);
    assert EvaluatesNamed([], ALL, after, [], after);
    assert EvaluatesNamed([keyword], ALL, env, [named], after);
  }

  lemma DagRuns(arg: Expr, st: WalkState, env: Env, v: Value, after: Env)
    requires Ready(st) && HasDag(env) && Evaluates(arg, ALL, env, v, after)
    ensures RunsStmt(DagOf(arg), ALL, st, env, AfterDag(arg, v, after), DagPassed(arg, v))
  {
    var call, made := DagCall(arg), Applied(Imported(["airflow", "DAG"]), DagArgumentsOf(v));
    var step := CallStep(Imported(["airflow", "DAG"]), env, DagArgumentsOf(v), after);
    DagIsConstructor(arg, st);
    DagEvaluates(arg, env, v, after);
    assert Resolve(call.func, env) == Some(["airflow", "DAG"]);
    assert Calls(call, ALL, env, step, made, AfterDag(arg, v, after));
    assert Uses(call, ALL, st, env, made, AfterDag(arg, v, after), DagPassed(arg, v));
  }

  /** Two loads that reach the Dag constructor alike but for what they hold, and evaluate `arg`
      apart. */
  lemma LeaksAt(rest: seq<Stmt>, arg: Expr, st: WalkState, env1: Env, env2: Env, passed: seq<Passed>,
                v1: Value, v2: Value, after1: Env, after2: Env)
    requires Leads(File(rest), st, env1, passed) && Leads(File(rest), st, env2, passed)
    requires Ready(st) && HasDag(env1) && HasDag(env2) && GetVaryingSource(arg, st.b) == None
    requires Evaluates(arg, ALL, env1, v1, after1) && Evaluates(arg, ALL, env2, v2, after2) && v1 != v2
    ensures Leaks(File(rest + [DagOf(arg)]))
  {
    var file := File(rest + [DagOf(arg)]);
    var p1, p2 := DagPassed(arg, v1), DagPassed(arg, v2);
    Longer(rest, DagOf(arg));
    DagUnreported(arg, st);
    DagRuns(arg, st, env1, v1, after1);
    DagRuns(arg, st, env2, v2, after2);
    Onward(File(rest), st, env1, passed, DagOf(arg), st, AfterDag(arg, v1, after1), p1);
    Onward(File(rest), st, env2, passed, DagOf(arg), st, AfterDag(arg, v2, after2), p2);
    NoFinding(file, st);
    assert (passed + p1)[|passed|].arguments.named[0].1 != (passed + p2)[|passed|].arguments.named[0].1;
    assert RunsApart(file, AfterDag(arg, v1, after1), AfterDag(arg, v2, after2), passed + p1, passed + p2);
  }

  lemma NoFinding(file: seq<Stmt>, st: WalkState)
    requires VisitBody(file, INITIAL_STATE) == st && st.findings == []
    ensures FindRuntimeVaryingDagArgs(file) == []
  {
    ReportIsSorted(file);
    assert |multiset(FindRuntimeVaryingDagArgs(file))| == 0;
  }

  // ----- certified calls

  lemma ClockCertified(path: string, name: string)
    requires (path, name) in RUNTIME_VARYING_CALLS
    ensures Certified([path, name])
  {
  }

  lemma Fresh(env: Env, reading: int)
    requires "uuid4" in env && env["uuid4"] == Imported(["uuid", "uuid4"])
    ensures Calls(FRESH, ALL, env, CallStep(Imported(["uuid", "uuid4"]), env, Arguments([], []), env),
                  Observed(reading), env)
    ensures Yields(FRESH, env, Observed(reading))
  {
    ClockCertified("uuid", "uuid4");
    YieldsNone(env);
    ClockCalls(Name("uuid4"), [], env, [], reading);
  }

  lemma BeginsWith(path: string, name: string)
    requires name != "*"
    ensures Leads(File([From(path, name)]), Noted(STATE, path, name, name), ENV[name := Imported([path, name])], [])
  {
    Begins();
    Imports1(File([]), STATE, ENV, path, name, None);
    Longer([], From(path, name));
    assert [] + [From(path, name)] == [From(path, name)];
  }
}
