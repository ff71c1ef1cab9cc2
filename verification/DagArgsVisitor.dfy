/** `DagTaskDetector`, `_RuntimeVaryingDagArgsVisitor` and `find_runtime_varying_dag_args`
    (versioninflation.py).

    `WalkState` is everything the walk remembers; the functions `Visit...` say what one
    node does to it. The classes hold the same state in fields and are proved to follow
    those functions; the functions are what the noninterference proof reasons about. */
module DagArgsVisitor {
  import opened Prelude
  import opened DagSyntax
  import opened VaryingAnalyzer
  import opened Ordering

  datatype VaryingContext = DagConstructor | TaskConstructor | TaskInDagBlock | TaskDecorator

  datatype Finding = Finding(line: nat, endLine: nat, snippet: string, context: VaryingContext)

  datatype WalkState = WalkState(
    b: Bindings,
    dagInstances: set<string>,
    inDagContext: bool,
    functionContext: Option<string>,
    findings: seq<Finding>,
    deferred: map<string, Finding>)

  const EMPTY_BINDINGS := Bindings(map[], map[], map[])
  const INITIAL_STATE := WalkState(EMPTY_BINDINGS, {}, false, None, [], map[])

  // ----- DagTaskDetector

  predicate IsAirflowModule(path: Dotted) {
    path[0] == "airflow"
  }

  predicate IsDagConstructor(call: Expr, b: Bindings)
    requires call.Call?
  {
    match call.func
    case Attribute(Name(id), attr) =>
      id in b.fromImports && IsAirflowModule(b.fromImports[id].0) && attr in {"DAG", "dag"}
    case Name(id) =>
      id in b.fromImports && IsAirflowModule(b.fromImports[id].0) && b.fromImports[id].1 in {"DAG", "dag"}
    case _ => false
  }

  function Lower(text: string): string {
    seq(|text|, i requires 0 <= i < |text| =>
      if 'A' <= text[i] <= 'Z' then text[i] + ('a' - 'A') else text[i])
  }

  predicate EndsWith(text: string, suffix: string) {
    |suffix| <= |text| && text[|text| - |suffix|..] == suffix
  }

  predicate IsTaskFunctionName(name: string) {
    var lowered := Lower(name);
    EndsWith(lowered, "operator") || EndsWith(lowered, "task") || EndsWith(lowered, "sensor")
  }

  predicate IsTaskNamed(node: Expr) {
    match node
    case Name(id) => IsTaskFunctionName(id)
    case Attribute(value, attr) => IsTaskFunctionName(attr) || IsTaskNamed(value)
    case _ => false
  }

  predicate NamesDag(node: Expr, dagInstances: set<string>) {
    node.Name? && node.id in dagInstances
  }

  predicate IsTaskConstructor(call: Expr, dagInstances: set<string>, inDagContext: bool)
    requires call.Call?
  {
    || (inDagContext && IsTaskNamed(call.func))
    || (exists arg :: arg in call.args && NamesDag(arg, dagInstances))
    || (exists keyword :: keyword in call.keywords && NamesDag(keyword.value, dagInstances))
  }

  predicate IsTaskDecorator(node: Expr) {
    match node
    case Name(_) => IsTaskNamed(node)
    case Attribute(_, _) => IsTaskNamed(node)
    case Call(func, _, _, _) => IsTaskDecorator(func)
    case _ => false
  }

  predicate IsConstructor(call: Expr, st: WalkState)
    requires call.Call?
  {
    IsDagConstructor(call, st.b) || IsTaskConstructor(call, st.dagInstances, st.inDagContext)
  }

  // ----- what each node does to the state

  function RecordModules(modules: seq<ModuleAlias>, imports: map<Dotted, Dotted>): map<Dotted, Dotted> {
    if modules == [] then imports
    else
      var bound := match modules[0].asName case Some(name) => [name] case None => modules[0].name;
      RecordModules(modules[1..], imports[bound := modules[0].name])
  }

  function RecordMembers(path: Dotted, members: seq<MemberAlias>, fromImports: map<string, (Dotted, string)>)
    : map<string, (Dotted, string)>
  {
    if members == [] then fromImports
    else RecordMembers(path, members[1..], fromImports[MemberName(members[0]) := (path, members[0].name)])
  }

  /** The plain names among assignment targets; other targets bind nothing the walk tracks. */
  function PlainNames(targets: seq<Expr>): set<string> {
    set target | target in targets && target.Name? :: target.id
  }

  function MakeFinding(call: Expr, varying: string, context: VaryingContext, inDagContext: bool): Finding
    requires call.Call?
  {
    Finding(
      call.site.line,
      match call.site.endLine { case Some(line) => line case None => call.site.line },
      varying,
      if context == TaskConstructor && inDagContext then TaskInDagBlock else context)
  }

  function CheckAndRecord(call: Expr, context: VaryingContext, st: WalkState): WalkState
    requires call.Call?
  {
    match GetVaryingArgument(call, st.b)
    case None => st
    case Some(varying) =>
      var finding := MakeFinding(call, varying, context, st.inDagContext);
      if Truthy(st.functionContext)
      then st.(deferred := st.deferred[st.functionContext.value := finding])
      else st.(findings := st.findings + [finding])
  }

  /** Taints every plain-name target when the value reaches a varying source. */
  function TrackVaryingAssignment(targets: seq<Expr>, value: Expr, line: nat, st: WalkState): WalkState {
    var source := GetVaryingSource(value, st.b);
    if Truthy(source) then Taint(PlainNames(targets), (line, source.value), st) else st
  }

  function Taint(names: set<string>, taint: (nat, string), st: WalkState): WalkState {
    st.(b := st.b.(varyingVars := st.b.varyingVars + (map name | name in names :: taint)))
  }

  function Untaint(name: string, st: WalkState): WalkState {
    st.(b := st.b.(varyingVars := st.b.varyingVars - {name}))
  }

  function VisitAssign(targets: seq<Expr>, value: Expr, line: nat, st: WalkState): WalkState {
    if value.Call? && IsDagConstructor(value, st.b) then
      CheckAndRecord(value, DagConstructor, st.(dagInstances := st.dagInstances + PlainNames(targets)))
    else if value.Call? && IsTaskConstructor(value, st.dagInstances, st.inDagContext) then
      CheckAndRecord(value, TaskConstructor, st)
    else
      TrackVaryingAssignment(targets, value, line, st)
  }

  /** Surfaces a finding parked by a factory function when the function is called by name. */
  function SurfaceDeferred(call: Expr, st: WalkState): WalkState
    requires call.Call?
  {
    if call.func.Name? && call.func.id in st.deferred && st.deferred[call.func.id] !in st.findings
    then st.(findings := st.findings + [st.deferred[call.func.id]])
    else st
  }

  function VisitCall(call: Expr, st: WalkState): WalkState
    requires call.Call?
  {
    var surfaced := SurfaceDeferred(call, st);
    if IsDagConstructor(call, st.b) then CheckAndRecord(call, DagConstructor, surfaced)
    else if IsTaskConstructor(call, st.dagInstances, st.inDagContext)
    then CheckAndRecord(call, TaskConstructor, surfaced)
    else surfaced
  }

  /** The calls `generic_visit` reaches from an expression, in its order: it descends to the
      outermost calls and, `visit_Call` not visiting children, no further. */
  function OutermostCalls(node: Expr): (calls: seq<Expr>)
    ensures forall call :: call in calls ==> call.Call?
    decreases node, 1
  {
    match node
    case Call(_, _, _, _) => [node]
    case Attribute(value, _) => OutermostCalls(value)
    case JoinedStr(parts) => CallsInParts(parts)
    case BinOp(left, _, right) => OutermostCalls(left) + OutermostCalls(right)
    case Display(_, elts) => CallsInAll(elts)
    case ListComp(elt, clauses) => OutermostCalls(elt) + CallsInAll(clauses)
    case Dict(entries) => CallsInKeys(entries) + CallsInValues(entries)
    case Opaque(children) => CallsInAll(children)
    case _ => []
  }

  function CallsInAll(nodes: seq<Expr>): (calls: seq<Expr>)
    ensures forall call :: call in calls ==> call.Call?
    decreases nodes, 0
  {
    if nodes == [] then [] else OutermostCalls(nodes[0]) + CallsInAll(nodes[1..])
  }

  function CallsInParts(parts: seq<Part>): (calls: seq<Expr>)
    ensures forall call :: call in calls ==> call.Call?
    decreases parts, 0
  {
    if parts == [] then [] else CallsInPart(parts[0]) + CallsInParts(parts[1..])
  }

  function CallsInPart(part: Part): (calls: seq<Expr>)
    ensures forall call :: call in calls ==> call.Call?
    decreases part, 0
  {
    match part
    case Text(_) => []
    case Formatted(value, None) => OutermostCalls(value)
    case Formatted(value, Some(spec)) => OutermostCalls(value) + OutermostCalls(spec)
  }

  function CallsInKeys(entries: seq<Entry>): (calls: seq<Expr>)
    ensures forall call :: call in calls ==> call.Call?
    decreases entries, 0
  {
    if entries == [] then [] else CallsInKey(entries[0]) + CallsInKeys(entries[1..])
  }

  function CallsInKey(entry: Entry): (calls: seq<Expr>)
    ensures forall call :: call in calls ==> call.Call?
    decreases entry, 0
  {
    if entry.key.Some? then OutermostCalls(entry.key.value) else []
  }

  function CallsInValues(entries: seq<Entry>): (calls: seq<Expr>)
    ensures forall call :: call in calls ==> call.Call?
    decreases entries, 0
  {
    if entries == [] then [] else CallsInValue(entries[0]) + CallsInValues(entries[1..])
  }

  function CallsInValue(entry: Entry): (calls: seq<Expr>)
    ensures forall call :: call in calls ==> call.Call?
    decreases entry, 0
  {
    OutermostCalls(entry.value)
  }

  function VisitCalls(calls: seq<Expr>, st: WalkState): WalkState
    requires forall call :: call in calls ==> call.Call?
  {
    if calls == [] then st else VisitCalls(calls[1..], VisitCall(calls[0], st))
  }

  function VisitExpr(node: Expr, st: WalkState): WalkState {
    VisitCalls(OutermostCalls(node), st)
  }

  function VisitExprs(nodes: seq<Expr>, st: WalkState): WalkState {
    VisitCalls(CallsInAll(nodes), st)
  }

  predicate OpensDag(item: WithItem, st: WalkState) {
    item.context.Call? && IsDagConstructor(item.context, st.b)
  }

  /** The state after the items, and whether one of them opened a Dag. */
  function VisitItems(items: seq<WithItem>, st: WalkState): (WalkState, bool) {
    if items == [] then (st, false)
    else
      var (rest, dagOpened) := VisitItems(items[1..], VisitItem(items[0], st));
      (rest, dagOpened || OpensDag(items[0], st))
  }

  function VisitItem(item: WithItem, st: WalkState): WalkState {
    var visited := VisitExpr(item.context, st);
    var both := if item.binding.Some? then VisitExpr(item.binding.value, visited) else visited;
    if OpensDag(item, both) && item.binding.Some?
    then both.(dagInstances := both.dagInstances + PlainNames([item.binding.value]))
    else both
  }

  /** Decorators in order, up to the first task decorator; the flag says one was met. */
  function VisitDecorators(decorators: seq<Expr>, st: WalkState): (WalkState, bool) {
    if decorators == [] then (st, false)
    else if IsTaskDecorator(decorators[0]) then
      (if decorators[0].Call? then CheckAndRecord(decorators[0], TaskDecorator, st) else st, true)
    else VisitDecorators(decorators[1..], VisitExpr(decorators[0], st))
  }

  function VisitStmt(stmt: Stmt, st: WalkState): WalkState
    decreases stmt, 1
  {
    match stmt
    case Import(modules) => st.(b := st.b.(imports := RecordModules(modules, st.b.imports)))
    case ImportFrom(Some(path), members) =>
      st.(b := st.b.(fromImports := RecordMembers(path, members, st.b.fromImports)))
    case ImportFrom(None, _) => st
    case Assign(targets, value, line) => VisitAssign(targets, value, line, st)
    case Bare(expr) => VisitExpr(expr, st)
    case For(target, iter, body, _, line) =>
      var source := GetVaryingSource(iter, st.b);
      if Truthy(source) && target.Name? then
        Untaint(target.id, VisitBody(body, Taint({target.id}, (line, source.value), st)))
      else VisitBody(body, st)
    case With(items, body) =>
      var (entered, dagOpened) := VisitItems(items, st);
      if dagOpened
      then VisitBody(body, entered.(inDagContext := true)).(inDagContext := false)
      else VisitBody(body, entered)
    case FunctionDef(name, decorators, body) =>
      var (decorated, isTask) := VisitDecorators(decorators, st);
      if isTask then decorated
      else VisitBody(body, decorated.(functionContext := Some(name))).(functionContext := None)
    case Branch(exprs, body, orElse) =>
      VisitBody(orElse, VisitBody(body, VisitExprs(exprs, st)))
  }

  function VisitBody(body: seq<Stmt>, st: WalkState): WalkState
    decreases body, 0
  {
    if body == [] then st else VisitBody(body[1..], VisitStmt(body[0], st))
  }

  // ----- the classes

  /** `DagTaskDetector`: the from-import map it shares with the visitor is passed in. */
  class Detector {
    var dagInstances: set<string>
    var inDagContext: bool
    var functionContext: Option<string>

    constructor ()
      ensures dagInstances == {} && !inDagContext && functionContext == None
    {
      dagInstances, inDagContext, functionContext := {}, false, None;
    }

    method RegisterDagInstance(name: string)
      modifies this`dagInstances
      ensures dagInstances == old(dagInstances) + {name}
    {
      dagInstances := dagInstances + {name};
    }
  }

  lemma TaintedMore(before: map<string, (nat, string)>, names: set<string>, more: string, taint: (nat, string))
    ensures (before + (map name | name in names :: taint))[more := taint] ==
            before + (map name | name in names + {more} :: taint)
  {
  }

  lemma PlainNamesMore(targets: seq<Expr>, i: nat)
    requires i < |targets|
    ensures PlainNames(targets[..i + 1]) ==
            PlainNames(targets[..i]) + (if targets[i].Name? then {targets[i].id} else {})
  {
    assert targets[..i + 1] == targets[..i] + [targets[i]];
  }

  class Visitor {
    var findings: seq<Finding>
    var imports: map<Dotted, Dotted>
    var fromImports: map<string, (Dotted, string)>
    var varyingVars: map<string, (nat, string)>
    var deferred: map<string, Finding>
    const detector: Detector

    function State(): WalkState
      reads this, detector
    {
      WalkState(Bindings(varyingVars, imports, fromImports), detector.dagInstances,
                detector.inDagContext, detector.functionContext, findings, deferred)
    }

    constructor ()
      ensures State() == INITIAL_STATE && fresh(detector)
    {
      findings, imports, fromImports, varyingVars, deferred := [], map[], map[], map[], map[];
      detector := new Detector();
    }

    method VisitImport(modules: seq<ModuleAlias>)
      modifies this`imports
      ensures imports == RecordModules(modules, old(imports))
    {
      for i := 0 to |modules|
        invariant RecordModules(modules[i..], imports) == RecordModules(modules, old(imports))
      {
        var alias := modules[i];
        var bound := match alias.asName case Some(name) => [name] case None => alias.name;
        imports := imports[bound := alias.name];
        assert modules[i..][1..] == modules[i + 1..];
      }
    }

    method VisitImportFrom(path: Option<Dotted>, members: seq<MemberAlias>)
      modifies this`fromImports
      ensures fromImports ==
              if path.Some? then RecordMembers(path.value, members, old(fromImports)) else old(fromImports)
    {
      if path.Some? {
        for i := 0 to |members|
          invariant RecordMembers(path.value, members[i..], fromImports) ==
                    RecordMembers(path.value, members, old(fromImports))
        {
          fromImports := fromImports[MemberName(members[i]) := (path.value, members[i].name)];
          assert members[i..][1..] == members[i + 1..];
        }
      }
    }

    method RegisterDagInstances(targets: seq<Expr>)
      modifies detector`dagInstances
      ensures detector.dagInstances == old(detector.dagInstances) + PlainNames(targets)
    {
      for i := 0 to |targets|
        invariant detector.dagInstances == old(detector.dagInstances) + PlainNames(targets[..i])
      {
        if targets[i].Name? {
          detector.RegisterDagInstance(targets[i].id);
        }
        assert targets[..i + 1] == targets[..i] + [targets[i]];
      }
      assert targets[..|targets|] == targets;
    }

    method TaintTargets(targets: seq<Expr>, taint: (nat, string))
      modifies this`varyingVars
      ensures varyingVars == old(varyingVars) + (map name | name in PlainNames(targets) :: taint)
    {
      for i := 0 to |targets|
        invariant varyingVars == old(varyingVars) + (map name | name in PlainNames(targets[..i]) :: taint)
      {
        PlainNamesMore(targets, i);
        if targets[i].Name? {
          TaintedMore(old(varyingVars), PlainNames(targets[..i]), targets[i].id, taint);
          varyingVars := varyingVars[targets[i].id := taint];
        }
      }
      assert targets[..|targets|] == targets;
    }

    method RecordFinding(call: Expr, context: VaryingContext)
      requires call.Call?
      modifies this`findings, this`deferred
      ensures State() == CheckAndRecord(call, context, old(State()))
    {
      var varying := GetVaryingArgument(call, State().b);
      if varying == None {
        return;
      }
      var finding := MakeFinding(call, varying.value, context, detector.inDagContext);
      if Truthy(detector.functionContext) {
        deferred := deferred[detector.functionContext.value := finding];
      } else {
        findings := findings + [finding];
      }
    }

    method Assigned(targets: seq<Expr>, value: Expr, line: nat)
      modifies this, detector
      ensures State() == VisitAssign(targets, value, line, old(State()))
    {
      if value.Call? && IsDagConstructor(value, State().b) {
        RegisterDagInstances(targets);
        RecordFinding(value, DagConstructor);
      } else if value.Call? && IsTaskConstructor(value, detector.dagInstances, detector.inDagContext) {
        RecordFinding(value, TaskConstructor);
      } else {
        var source := GetVaryingSource(value, State().b);
        if Truthy(source) {
          TaintTargets(targets, (line, source.value));
        }
      }
    }

    method Called(call: Expr)
      requires call.Call?
      modifies this, detector
      ensures State() == VisitCall(call, old(State()))
    {
      if call.func.Name? && call.func.id in deferred && deferred[call.func.id] !in findings {
        findings := findings + [deferred[call.func.id]];
      }
      if IsDagConstructor(call, State().b) {
        RecordFinding(call, DagConstructor);
      } else if IsTaskConstructor(call, detector.dagInstances, detector.inDagContext) {
        RecordFinding(call, TaskConstructor);
      }
    }

    method Walk(node: Expr)
      modifies this, detector
      ensures State() == VisitExpr(node, old(State()))
    {
      WalkCalls(OutermostCalls(node));
    }

    method WalkCalls(calls: seq<Expr>)
      requires forall call :: call in calls ==> call.Call?
      modifies this, detector
      ensures State() == VisitCalls(calls, old(State()))
    {
      for i := 0 to |calls|
        invariant VisitCalls(calls[i..], State()) == VisitCalls(calls, old(State()))
      {
        Called(calls[i]);
        assert calls[i..][1..] == calls[i + 1..];
      }
    }

    method EnterItem(item: WithItem) returns (dagOpened: bool)
      modifies this, detector
      ensures State() == VisitItem(item, old(State()))
      ensures dagOpened == OpensDag(item, old(State()))
    {
      VisitExprKeepsBindings(item.context, State());
      Walk(item.context);
      if item.binding.Some? {
        VisitExprKeepsBindings(item.binding.value, State());
        Walk(item.binding.value);
      }
      dagOpened := OpensDag(item, State());
      if dagOpened && item.binding.Some? {
        RegisterDagInstances([item.binding.value]);
      }
    }

    method EnterItems(items: seq<WithItem>) returns (dagOpened: bool)
      modifies this, detector
      ensures (State(), dagOpened) == VisitItems(items, old(State()))
    {
      dagOpened := false;
      for i := 0 to |items|
        invariant VisitItems(items, old(State())).0 == VisitItems(items[i..], State()).0
        invariant VisitItems(items, old(State())).1 == (dagOpened || VisitItems(items[i..], State()).1)
      {
        var opens := EnterItem(items[i]);
        dagOpened := dagOpened || opens;
        assert items[i..][1..] == items[i + 1..];
      }
    }

    method CheckDecorators(decorators: seq<Expr>) returns (isTask: bool)
      modifies this, detector
      ensures (State(), isTask) == VisitDecorators(decorators, old(State()))
    {
      for i := 0 to |decorators|
        invariant VisitDecorators(decorators[i..], State()) == VisitDecorators(decorators, old(State()))
      {
        assert decorators[i..][1..] == decorators[i + 1..];
        if IsTaskDecorator(decorators[i]) {
          if decorators[i].Call? {
            RecordFinding(decorators[i], TaskDecorator);
          }
          return true;
        }
        Walk(decorators[i]);
      }
      return false;
    }

    method Visit(stmt: Stmt)
      modifies this, detector
      ensures State() == VisitStmt(stmt, old(State()))
      decreases stmt, 1
    {
      match stmt
      case Import(modules) =>
        VisitImport(modules);
      case ImportFrom(path, members) =>
        VisitImportFrom(path, members);
      case Assign(targets, value, line) =>
        Assigned(targets, value, line);
      case Bare(expr) =>
        Walk(expr);
      case For(target, iter, body, _, line) =>
        var source := GetVaryingSource(iter, State().b);
        if Truthy(source) && target.Name? {
          varyingVars := varyingVars[target.id := (line, source.value)];
          assert State() == Taint({target.id}, (line, source.value), old(State()));
          VisitAll(body);
          varyingVars := varyingVars - {target.id};
        } else {
          VisitAll(body);
        }
      case With(items, body) =>
        var dagOpened := EnterItems(items);
        if dagOpened {
          detector.inDagContext := true;
        }
        VisitAll(body);
        if dagOpened {
          detector.inDagContext := false;
        }
      case FunctionDef(name, decorators, body) =>
        var isTask := CheckDecorators(decorators);
        if isTask {
          return;
        }
        detector.functionContext := Some(name);
        VisitAll(body);
        detector.functionContext := None;
      case Branch(exprs, body, orElse) =>
        WalkCalls(CallsInAll(exprs));
        VisitAll(body);
        VisitAll(orElse);
    }

    method VisitAll(body: seq<Stmt>)
      modifies this, detector
      ensures State() == VisitBody(body, old(State()))
      decreases body, 0
    {
      for i := 0 to |body|
        invariant VisitBody(body[i..], State()) == VisitBody(body, old(State()))
      {
        Visit(body[i]);
        assert body[i..][1..] == body[i + 1..];
      }
    }
  }

  lemma {:induction false} VisitCallsKeepsBindings(calls: seq<Expr>, st: WalkState)
    requires forall call :: call in calls ==> call.Call?
    ensures VisitCalls(calls, st).b == st.b
    ensures VisitCalls(calls, st).dagInstances == st.dagInstances
    ensures VisitCalls(calls, st).inDagContext == st.inDagContext
    ensures VisitCalls(calls, st).functionContext == st.functionContext
    ensures st.findings <= VisitCalls(calls, st).findings
  {
    if calls != [] {
      VisitCallsKeepsBindings(calls[1..], VisitCall(calls[0], st));
    }
  }

  /** Visiting an expression can add findings; it changes nothing known about names, Dags or context. */
  lemma VisitExprKeepsBindings(node: Expr, st: WalkState)
    ensures VisitExpr(node, st).b == st.b
    ensures VisitExpr(node, st).dagInstances == st.dagInstances
    ensures VisitExpr(node, st).inDagContext == st.inDagContext
    ensures VisitExpr(node, st).functionContext == st.functionContext
    ensures st.findings <= VisitExpr(node, st).findings
  {
    VisitCallsKeepsBindings(OutermostCalls(node), st);
  }

  // ----- find_runtime_varying_dag_args

  predicate FindingLeq(first: Finding, second: Finding) {
    first.line < second.line || (first.line == second.line && first.endLine <= second.endLine)
  }

  function FindRuntimeVaryingDagArgs(module_: seq<Stmt>): seq<Finding> {
    Sort(VisitBody(module_, INITIAL_STATE).findings, FindingLeq)
  }

  method ScanModule(module_: seq<Stmt>) returns (findings: seq<Finding>)
    ensures findings == FindRuntimeVaryingDagArgs(module_)
  {
    var visitor := new Visitor();
    visitor.VisitAll(module_);
    findings := Sort(visitor.findings, FindingLeq);
  }

  /** The report holds exactly the walk's findings, earliest call first. */
  lemma ReportIsSorted(module_: seq<Stmt>)
    ensures multiset(FindRuntimeVaryingDagArgs(module_)) == multiset(VisitBody(module_, INITIAL_STATE).findings)
    ensures Sorted(FindRuntimeVaryingDagArgs(module_), FindingLeq)
  {
    SortSorts(VisitBody(module_, INITIAL_STATE).findings, FindingLeq);
  }
}
