/** What loading a Dag file does, for the statements the taint analysis is about.

    Values are terms: a value records the operation and the operand values it came from,
    so equal terms are equal values under every deterministic reading of the calls. What
    varies is a call of a certified runtime-varying callable, which may yield any `Observed`
    reading, and a call that may come to one: through an attribute of a certified callable,
    through a method with the name of one, or because it is given one. An expression
    therefore evaluates to many values, and `Evaluates` is a relation.

    A call may also change what it is given, in place. Which variables hold parts of one
    object is told by a `Sharing`, which groups the variables: what an assignment makes one
    value of, and what is given to one call, is in one group. A call that is not certified
    may change every variable of the groups it is given variables of, to a value that is a
    function of what the variable held and of the call.

    What is taken for granted is thus: a call's outcome and its changes are a function of what
    it is given, unless it may come to a certified callable; it changes nothing that it cannot
    reach from there, and nothing that belongs to another module; operators other than `>>`
    and `<<` change nothing. */
module DagExecution {
  import opened Prelude
  import opened DagSyntax
  import opened VaryingAnalyzer
  import opened DagArgsVisitor

  datatype Value =
    | Imported(path: Dotted)
    | Literal(literal: int)
    | Observed(reading: int)
    | Member(receiver: Value, attr: string)
    | Applied(callee: Value, arguments: Arguments)
    | Joined(pieces: seq<Value>)
    | Fragment(text: string)
    | Combined(left: Value, op: string, right: Value)
    | Collected(kind: DisplayKind, items: seq<Value>)
    | Mapping(entries: seq<(Option<Value>, Value)>)
    | Shaped(content: Value, spec: Value)                    // a value under a format spec
    | Generated(sources: seq<Value>, elements: seq<Value>)   // a comprehension's iterables and elements
    | Operated(operands: seq<Value>)                         // any other operation
    | Component(whole: Value, index: nat)                    // what unpacking takes from a value
    | Updated(former: Value, cause: Value)                   // what a call or `>>` makes of a variable's value

  datatype Arguments = Arguments(positional: seq<Value>, named: seq<(Option<string>, Value)>)

  type Env = map<string, Value>

  /** One call the detector classified as a constructor, with what it was passed. */
  datatype Passed = Passed(call: Expr, arguments: Arguments)

  /** The group of each variable. */
  type Sharing = string -> nat

  // ----- certified callables, and ways to them

  /** A callable is certified by its owner and its own name, the last two components. */
  predicate Certified(path: Dotted) {
    |path| >= 2 && (path[|path| - 2], path[|path| - 1]) in RUNTIME_VARYING_CALLS
  }

  /** The imported object a name or attribute chain denotes, if it denotes one. */
  function Resolve(node: Expr, env: Env): Option<Dotted> {
    match node
    case Name(id) => if id in env && env[id].Imported? then Some(env[id].path) else None
    case Attribute(value, attr) =>
      (match Resolve(value, env) case Some(path) => Some(path + [attr]) case None => None)
    case _ => None
  }

  predicate MayOwn(owner: string) {
    exists pair :: pair in RUNTIME_VARYING_CALLS && pair.0 == owner
  }

  predicate ClockMethod(attr: string) {
    exists pair :: pair in RUNTIME_VARYING_CALLS && pair.1 == attr
  }

  /** A path leads through an owner and on through a callable certified for it. */
  predicate Reaches(path: Dotted) {
    exists i, j :: 0 <= i < j < |path| && (path[i], path[j]) in RUNTIME_VARYING_CALLS
  }

  /** What the path denotes hands a certified callable to whoever holds it. */
  predicate ClockPath(path: Dotted) {
    Reaches(path) || MayOwn(Last(path))
  }

  /** Some part of the value is a certified callable, or an owner of one. An instance of an
      owner is not taken for one: only its methods are. */
  ghost predicate Carries(v: Value) {
    match v
    case Imported(path) => ClockPath(path)
    case Literal(_) | Observed(_) | Fragment(_) | Joined(_) | Shaped(_, _) => false
    case Member(receiver, _) => Carries(receiver)
    case Applied(callee, arguments) => (!callee.Imported? && Carries(callee)) || ArgumentsCarry(arguments)
    case Combined(left, _, right) => Carries(left) || Carries(right)
    case Collected(_, items) => exists i :: 0 <= i < |items| && Carries(items[i])
    case Mapping(entries) => exists i :: 0 <= i < |entries| && EntryCarries(entries[i])
    case Generated(sources, elements) =>
      || (exists i :: 0 <= i < |sources| && Carries(sources[i]))
      || (exists i :: 0 <= i < |elements| && Carries(elements[i]))
    case Operated(operands) => exists i :: 0 <= i < |operands| && Carries(operands[i])
    case Component(whole, _) => Carries(whole)
    case Updated(former, cause) => Carries(former) || Carries(cause)
  }

  ghost predicate ArgumentsCarry(arguments: Arguments) {
    || (exists i :: 0 <= i < |arguments.positional| && Carries(arguments.positional[i]))
    || (exists i :: 0 <= i < |arguments.named| && Carries(arguments.named[i].1))
  }

  ghost predicate EntryCarries(entry: (Option<Value>, Value)) {
    (entry.0.Some? && Carries(entry.0.value)) || Carries(entry.1)
  }

  /** A call of anything but a certified callable comes to one all the same. */
  ghost predicate MayReadClock(func: Expr, target: Option<Dotted>, callee: Value, arguments: Arguments) {
    || (target.Some? && Reaches(target.value))
    || (target.None? && func.Attribute? && ClockMethod(func.attr))
    || (target.None? && Carries(callee))
    || ArgumentsCarry(arguments)
  }

  predicate IsClock(target: Option<Dotted>) {
    target.Some? && Certified(target.value)
  }

  // ----- changes in place

  /** The variables whose objects an expression's value may hold; a string holds none. */
  function Held(node: Expr): set<string>
    decreases node, 1
  {
    match node
    case Constant(_) | JoinedStr(_) => {}
    case Name(id) => {id}
    case Attribute(value, _) => Held(value)
    case Call(func, _, _, _) => Given(node)
    case BinOp(left, _, right) => Held(left) + Held(right)
    case Display(_, elts) => HeldAll(elts)
    case ListComp(elt, clauses) => Held(elt) + HeldAll(clauses)
    case Dict(entries) => HeldEntries(entries)
    case Opaque(children) => HeldAll(children)
  }

  /** The variables a call is given, as its callee or in its arguments. */
  function Given(call: Expr): set<string>
    requires call.Call?
    decreases call, 0
  {
    Held(call.func) + HeldAll(call.args) + HeldKeywords(call.keywords)
  }

  function HeldAll(nodes: seq<Expr>): set<string>
    decreases nodes, 0
  {
    if nodes == [] then {} else Held(nodes[0]) + HeldAll(nodes[1..])
  }

  function HeldKeywords(keywords: seq<Keyword>): set<string>
    decreases keywords, 0
  {
    if keywords == [] then {} else HeldKeyword(keywords[0]) + HeldKeywords(keywords[1..])
  }

  function HeldKeyword(keyword: Keyword): set<string>
    decreases keyword, 0
  {
    Held(keyword.value)
  }

  function HeldEntries(entries: seq<Entry>): set<string>
    decreases entries, 0
  {
    if entries == [] then {} else HeldEntry(entries[0]) + HeldEntries(entries[1..])
  }

  function HeldEntry(entry: Entry): set<string>
    decreases entry, 0
  {
    (if entry.key.Some? then Held(entry.key.value) else {}) + Held(entry.value)
  }

  predicate IsVariable(name: string, env: Env) {
    name in env && !env[name].Imported?
  }

  /** The variables among `names` are in one group. */
  ghost predicate Together(share: Sharing, names: set<string>, env: Env) {
    forall x, y :: x in names && y in names && IsVariable(x, env) && IsVariable(y, env) ==> share(x) == share(y)
  }

  ghost predicate InGroupOf(x: string, names: set<string>, share: Sharing, env: Env) {
    exists n :: n in names && IsVariable(n, env) && share(n) == share(x)
  }

  /** Every variable in a group with one of `names` is changed by the call or operation `cause`. */
  ghost function Change(share: Sharing, names: set<string>, cause: Value, env: Env): Env {
    map x | x in env ::
      if IsVariable(x, env) && InGroupOf(x, names, share, env) then Updated(env[x], cause) else env[x]
  }

  /** Airflow's task operators, which set dependencies in their operands. */
  predicate Chains(op: string) {
    op == ">>" || op == "<<"
  }

  // ----- expressions

  ghost predicate Evaluates(node: Expr, share: Sharing, env: Env, v: Value, env': Env)
    decreases node, 2
  {
    match node
    case Constant(literal) => v == Literal(literal) && env' == env
    case Name(id) => id in env && v == env[id] && env' == env
    case Attribute(value, attr) =>
      var target := Resolve(node, env);
      if target.Some? then v == Imported(target.value) && env' == env
      else v.Member? && v.attr == attr && Evaluates(value, share, env, v.receiver, env')
    case Call(_, _, _, _) => exists step :: Calls(node, share, env, step, v, env')
    case JoinedStr(parts) => v.Joined? && EvaluatesParts(parts, share, env, v.pieces, env')
    case BinOp(left, op, right) =>
      && v.Combined? && v.op == op
      && exists mid, after ::
           && Evaluates(left, share, env, v.left, mid)
           && Evaluates(right, share, mid, v.right, after)
           && env' == AfterOperator(node, share, v, after)
    case Display(kind, elts) => v.Collected? && v.kind == kind && EvaluatesAll(elts, share, env, v.items, env')
    case Dict(entries) => v.Mapping? && EvaluatesEntries(entries, share, env, v.entries, env')
    case ListComp(elt, clauses) =>
      && v.Generated?
      && EvaluatesAll(clauses, share, env, v.sources, env')
      && forall e :: e in v.elements ==> exists inner: Env, after :: Evaluates(elt, share, env' + inner, e, after)
    case Opaque(children) => v.Operated? && EvaluatesAll(children, share, env, v.operands, env')
  }

  ghost function AfterOperator(node: Expr, share: Sharing, v: Value, env: Env): Env
    requires node.BinOp?
  {
    if Chains(node.op) then Change(share, Held(node.left) + Held(node.right), v, env) else env
  }

  /** How a call goes: its callee, then its arguments, then the call itself. */
  datatype CallStep = CallStep(callee: Value, mid: Env, arguments: Arguments, after: Env)

  ghost predicate Calls(call: Expr, share: Sharing, env: Env, step: CallStep, v: Value, env': Env)
    requires call.Call?
    decreases call, 1
  {
    var target := Resolve(call.func, env);
    && (if target.Some? then step.callee == Imported(target.value) && step.mid == env
        else Evaluates(call.func, share, env, step.callee, step.mid))
    && EvaluatesArguments(call, share, step.mid, step.arguments, step.after)
    && Together(share, Given(call), step.after)
    && Returns(call.func, target, step, v)
    && env' == if IsClock(target) then step.after else Change(share, Given(call), v, step.after)
  }

  ghost predicate Returns(func: Expr, target: Option<Dotted>, step: CallStep, v: Value) {
    if IsClock(target) then v.Observed?
    else
      || v == Applied(step.callee, step.arguments)
      || (v.Observed? && MayReadClock(func, target, step.callee, step.arguments))
  }

  ghost predicate EvaluatesArguments(call: Expr, share: Sharing, env: Env, arguments: Arguments, env': Env)
    requires call.Call?
    decreases call, 0
  {
    exists mid ::
      && EvaluatesAll(call.args, share, env, arguments.positional, mid)
      && EvaluatesNamed(call.keywords, share, mid, arguments.named, env')
  }

  ghost predicate EvaluatesAll(nodes: seq<Expr>, share: Sharing, env: Env, vs: seq<Value>, env': Env)
    decreases nodes, 0
  {
    if nodes == [] then vs == [] && env' == env
    else
      && vs != []
      && exists mid ::
           && Evaluates(nodes[0], share, env, vs[0], mid)
           && EvaluatesAll(nodes[1..], share, mid, vs[1..], env')
  }

  ghost predicate EvaluatesNamed(keywords: seq<Keyword>, share: Sharing, env: Env, vs: seq<(Option<string>, Value)>,
                                 env': Env)
    decreases keywords, 0
  {
    if keywords == [] then vs == [] && env' == env
    else
      && vs != []
      && exists mid ::
           && EvaluatesKeyword(keywords[0], share, env, vs[0], mid)
           && EvaluatesNamed(keywords[1..], share, mid, vs[1..], env')
  }

  ghost predicate EvaluatesKeyword(keyword: Keyword, share: Sharing, env: Env, v: (Option<string>, Value), env': Env)
    decreases keyword, 0
  {
    v.0 == keyword.arg && Evaluates(keyword.value, share, env, v.1, env')
  }

  ghost predicate EvaluatesParts(parts: seq<Part>, share: Sharing, env: Env, vs: seq<Value>, env': Env)
    decreases parts, 0
  {
    if parts == [] then vs == [] && env' == env
    else
      && vs != []
      && exists mid ::
           && EvaluatesPart(parts[0], share, env, vs[0], mid)
           && EvaluatesParts(parts[1..], share, mid, vs[1..], env')
  }

  ghost predicate EvaluatesPart(part: Part, share: Sharing, env: Env, v: Value, env': Env)
    decreases part, 0
  {
    match part
    case Text(text) => v == Fragment(text) && env' == env
    case Formatted(value, None) => Evaluates(value, share, env, v, env')
    case Formatted(value, Some(spec)) =>
      && v.Shaped?
      && exists mid :: Evaluates(value, share, env, v.content, mid) && Evaluates(spec, share, mid, v.spec, env')
  }

  ghost predicate EvaluatesEntries(entries: seq<Entry>, share: Sharing, env: Env, vs: seq<(Option<Value>, Value)>,
                                   env': Env)
    decreases entries, 0
  {
    if entries == [] then vs == [] && env' == env
    else
      && vs != []
      && exists mid ::
           && EvaluatesEntry(entries[0], share, env, vs[0], mid)
           && EvaluatesEntries(entries[1..], share, mid, vs[1..], env')
  }

  ghost predicate EvaluatesEntry(entry: Entry, share: Sharing, env: Env, v: (Option<Value>, Value), env': Env)
    decreases entry, 0
  {
    && entry.key.Some? == v.0.Some?
    && exists mid ::
         && (if entry.key.Some? then Evaluates(entry.key.value, share, env, v.0.value, mid) else mid == env)
         && Evaluates(entry.value, share, mid, v.1, env')
  }

  // ----- statements

  /** `import a.b.c` binds `a`; `import a.b.c as d` binds `d` to the whole path. */
  function ModuleBinding(alias: ModuleAlias): (string, Dotted) {
    match alias.asName
    case Some(name) => (name, alias.name)
    case None => (alias.name[0], [alias.name[0]])
  }

  function BindModules(modules: seq<ModuleAlias>, paths: map<string, Dotted>): map<string, Dotted> {
    if modules == [] then paths
    else
      var (name, path) := ModuleBinding(modules[0]);
      BindModules(modules[1..], paths[name := path])
  }

  /** A relative import without a module part takes its names from the package, `.`. A star
      binds the names the module makes public. */
  function BindMembers(path: Option<Dotted>, members: seq<MemberAlias>, public: set<string>, paths: map<string, Dotted>)
    : map<string, Dotted>
  {
    if members == [] then paths
    else
      var package := if path.Some? then path.value else ["."];
      var bound :=
        if members[0].name == "*" then paths + (map name | name in public :: package + [name])
        else paths[MemberName(members[0]) := package + [members[0].name]];
      BindMembers(path, members[1..], public, bound)
  }

  /** The names a module starts with, each denoting the builtin of that name. */
  function Builtins(names: set<string>): map<string, Dotted> {
    map name | name in names :: ["builtins", name]
  }

  function Imports(paths: map<string, Dotted>): Env {
    map name | name in paths :: Imported(paths[name])
  }

  function BindAll(names: set<string>, v: Value, env: Env): Env {
    env + (map name | name in names :: v)
  }

  /** Assigning `v` to a target; an attribute or subscript binds no variable. */
  function Bind(target: Expr, v: Value, env: Env): Env
    decreases target, 0
  {
    match target
    case Name(id) => env[id := v]
    case Display(_, elts) => Unpack(elts, v, env)
    case _ => env
  }

  /** Unpacking `v` into the first of its components. */
  function Unpack(elts: seq<Expr>, v: Value, env: Env): Env
    decreases elts
  {
    if elts == [] then env
    else
      var k := |elts| - 1;
      Bind(elts[k], if v.Collected? && k < |v.items| then v.items[k] else Component(v, k), Unpack(elts[..k], v, env))
  }

  function BindTargets(targets: seq<Expr>, v: Value, env: Env): Env {
    if targets == [] then env else BindTargets(targets[1..], v, Bind(targets[0], v, env))
  }

  /** The variables a target binds. */
  function TargetNames(target: Expr): set<string>
    decreases target, 0
  {
    match target
    case Name(id) => {id}
    case Display(_, elts) => AllTargetNames(elts)
    case _ => {}
  }

  function AllTargetNames(targets: seq<Expr>): set<string>
    decreases targets
  {
    if targets == [] then {} else TargetNames(targets[0]) + AllTargetNames(targets[1..])
  }

  /** An expression whose value a statement uses, and the constructor record it leaves when it
      is a call the walk visits; `st` only decides how the call is classified. */
  ghost predicate Uses(node: Expr, share: Sharing, st: WalkState, env: Env, v: Value, env': Env, passed: seq<Passed>) {
    if node.Call? then
      exists step :: Calls(node, share, env, step, v, env') && passed == Record(node, st, step.arguments)
    else Evaluates(node, share, env, v, env') && passed == []
  }

  function Record(call: Expr, st: WalkState, arguments: Arguments): seq<Passed>
    requires call.Call?
  {
    if IsConstructor(call, st) then [Passed(call, arguments)] else []
  }

  ghost predicate RunsItem(item: WithItem, share: Sharing, st: WalkState, env: Env, env': Env, passed: seq<Passed>) {
    exists v, mid :: Uses(item.context, share, st, env, v, mid, passed) && Entered(item, share, mid, env', v)
  }

  ghost predicate Entered(item: WithItem, share: Sharing, env: Env, env': Env, v: Value) {
    if item.binding.Some? then
      && env' == Bind(item.binding.value, v, env)
      && Together(share, TargetNames(item.binding.value) + Held(item.context), env')
    else env' == env
  }

  ghost predicate RunsItems(items: seq<WithItem>, share: Sharing, st: WalkState, env: Env, env': Env,
                            passed: seq<Passed>)
    decreases items
  {
    if items == [] then env' == env && passed == []
    else
      exists mid, first, rest ::
        && passed == first + rest
        && RunsItem(items[0], share, st, env, mid, first)
        && RunsItems(items[1..], share, VisitItem(items[0], st), mid, env', rest)
  }

  ghost predicate Assigned(targets: seq<Expr>, value: Expr, share: Sharing, env: Env, env': Env, v: Value) {
    && env' == BindTargets(targets, v, env)
    && Together(share, AllTargetNames(targets) + Held(value), env')
  }

  /** A `for` over a display runs once an element; over anything else, over any values. */
  ghost predicate Iterates(loop: Stmt, share: Sharing, env: Env, items: seq<Value>, env': Env)
    requires loop.For?
  {
    exists v :: Evaluates(loop.iter, share, env, v, env') && (v.Collected? ==> items == v.items)
  }

  /** Function definitions, conditionals, and expression statements that hide calls inside
      other expressions are not given an execution. */
  ghost predicate RunsStmt(stmt: Stmt, share: Sharing, st: WalkState, env: Env, env': Env, passed: seq<Passed>)
    decreases stmt, 1, 0
  {
    match stmt
    case Import(modules) => passed == [] && env' == env + Imports(BindModules(modules, map[]))
    case ImportFrom(path, members) =>
      passed == [] && exists public :: env' == env + Imports(BindMembers(path, members, public, map[]))
    case Assign(targets, value, _) =>
      exists v, mid :: Uses(value, share, st, env, v, mid, passed) && Assigned(targets, value, share, mid, env', v)
    case Bare(expr) =>
      && (expr.Call? || OutermostCalls(expr) == [])
      && exists v :: Uses(expr, share, st, env, v, env', passed)
    case For(target, iter, body, _, _) =>
      exists items, mid :: Iterates(stmt, share, env, items, mid) && RunsLoop(stmt, items, share, st, mid, env', passed)
    case With(items, body) => RunsWith(items, body, share, st, env, env', passed)
    case FunctionDef(_, _, _) => false
    case Branch(_, _, _) => false
  }

  /** The state inside a `with` statement's body. */
  function Inside(items: seq<WithItem>, st: WalkState): WalkState {
    var (entered, dagOpened) := VisitItems(items, st);
    if dagOpened then entered.(inDagContext := true) else entered
  }

  ghost predicate RunsWith(items: seq<WithItem>, body: seq<Stmt>, share: Sharing, st: WalkState, env: Env, env': Env,
                           passed: seq<Passed>)
    decreases body, 1, 0
  {
    exists mid, first, rest ::
      && passed == first + rest
      && RunsItems(items, share, st, env, mid, first)
      && RunsBody(body, share, Inside(items, st), mid, env', rest)
  }

  ghost predicate RunsLoop(loop: Stmt, items: seq<Value>, share: Sharing, st: WalkState, env: Env, env': Env,
                           passed: seq<Passed>)
    requires loop.For?
    decreases loop, 0, |items|
  {
    if items == [] then env' == env && passed == []
    else
      exists mid, first, rest ::
        && passed == first + rest
        && Together(share, TargetNames(loop.target) + Held(loop.iter), Bind(loop.target, items[0], env))
        && RunsBody(loop.body, share, st, Bind(loop.target, items[0], env), mid, first)
        && RunsLoop(loop, items[1..], share, st, mid, env', rest)
  }

  ghost predicate RunsBody(body: seq<Stmt>, share: Sharing, st: WalkState, env: Env, env': Env, passed: seq<Passed>)
    decreases body, 0, 0
  {
    if body == [] then env' == env && passed == []
    else
      exists mid, first, rest ::
        && passed == first + rest
        && RunsStmt(body[0], share, st, env, mid, first)
        && RunsBody(body[1..], share, VisitStmt(body[0], st), mid, env', rest)
  }
}
