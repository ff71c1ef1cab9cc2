/** When the walk of a Dag file ends without a finding, two loads of the file that differ
    only in what the certified runtime-varying calls return pass equal arguments to every
    call the detector classifies as a Dag or task constructor. */
module Noninterference {
  import opened Prelude
  import opened DagSyntax
  import opened VaryingAnalyzer
  import opened DagArgsVisitor
  import opened DagExecution

  /** The variables whose current binding is an import, with its path; the other variables;
      and the groups of those that may hold parts of one object. */
  datatype Scope = Scope(bound: map<string, Dotted>, vars: set<string>, share: Sharing)

  /** Taints carry source text, so the analyzer's truth tests read as "is not None". */
  predicate TaintsHaveText(b: Bindings) {
    forall name :: name in b.varyingVars ==> b.varyingVars[name].1 != ""
  }

  /** The analyzer's idea of each import-bound name agrees with what the name denotes, as far
      as certified callables go. */
  predicate Faithful(b: Bindings, bound: map<string, Dotted>) {
    forall name :: name in bound ==>
                     && (MayOwn(Last(bound[name])) ==> Owner(name, b) == [Last(bound[name])])
                     && (Certified(bound[name]) ==> IsRuntimeVaryingNameCall(name, b))
  }

  /** What a variable may hold: neither an import nor anything that hands out a certified
      callable. */
  ghost predicate Settled(v: Value) {
    !v.Imported? && !Carries(v)
  }

  ghost predicate AgreeOn(b: Bindings, scope: Scope, env1: Env, env2: Env, name: string) {
    if name in scope.bound then
      name in env1 && name in env2 && env1[name] == Imported(scope.bound[name]) == env2[name]
    else if name in env1 then
      && name in env2 && name in scope.vars
      && Settled(env1[name]) && Settled(env2[name])
      && (name !in b.varyingVars ==> env1[name] == env2[name])
    else name !in env2
  }

  /** Two environments agree on imports, and on every variable that is not tainted. */
  ghost predicate Similar(b: Bindings, scope: Scope, env1: Env, env2: Env) {
    forall name :: AgreeOn(b, scope, env1, env2, name)
  }

  ghost predicate Alike(b: Bindings, scope: Scope, env1: Env, env2: Env) {
    TaintsHaveText(b) && Faithful(b, scope.bound) && Similar(b, scope, env1, env2)
  }

  function Depth(node: Expr): nat {
    if node.Attribute? then 1 + Depth(node.value) else 0
  }

  function Target(node: Expr, scope: Scope): Option<Dotted> {
    Resolve(node, Imports(scope.bound))
  }

  // ----- the fragment

  /** Callees: a chain rooted in an import, at most two attributes deep unless it names
      nothing certified, and not going on from something certified; an untainted variable; or a
      method of an expression of the fragment that has no certified callable's name. */
  predicate CalleeCovered(func: Expr, b: Bindings, scope: Scope)
    decreases func, 2
  {
    var target := Target(func, scope);
    match func
    case Name(id) => if target.Some? then ChainCovered(func, target.value) else id !in b.varyingVars
    case Attribute(receiver, attr) =>
      if target.Some? then ChainCovered(func, target.value) else Covered(receiver, b, scope) && !ClockMethod(attr)
    case _ => false
  }

  predicate ChainCovered(func: Expr, target: Dotted) {
    if Certified(target) then Depth(func) <= 2 else !Reaches(target)
  }

  /** Every variable that shares with one of `names` is tainted. */
  predicate Isolated(names: set<string>, b: Bindings, scope: Scope) {
    forall x, y :: x in names && x !in scope.bound && y in scope.vars && scope.share(y) == scope.share(x) ==>
                     y in b.varyingVars
  }

  /** A call or task operator changes what it is given in place. So one that reaches a varying
      source is given only imports, and variables that share with tainted variables alone. */
  predicate Contained(node: Expr, names: set<string>, b: Bindings, scope: Scope) {
    GetVaryingSource(node, b) == None || Isolated(names, b, scope)
  }

  /** A certified callable or an owner of one is used as a callee only. */
  predicate ValueCovered(node: Expr, scope: Scope) {
    Target(node, scope).Some? ==> !ClockPath(Target(node, scope).value)
  }

  predicate Covered(node: Expr, b: Bindings, scope: Scope)
    decreases node, 1
  {
    match node
    case Constant(_) => true
    case Name(_) => ValueCovered(node, scope)
    case Attribute(_, _) => Target(node, scope).Some? && ValueCovered(node, scope)
    case Call(func, _, _, _) =>
      && CalleeCovered(func, b, scope) && ArgumentsCovered(node, b, scope)
      && (IsClock(Target(func, scope)) || Contained(node, Given(node), b, scope))
    case JoinedStr(parts) => forall part :: part in parts ==> PartCovered(part, b, scope)
    case BinOp(left, op, right) =>
      && Covered(left, b, scope) && Covered(right, b, scope)
      && (Chains(op) ==> Contained(node, Held(left) + Held(right), b, scope))
    case Display(_, elts) => forall elt :: elt in elts ==> Covered(elt, b, scope)
    case Dict(entries) => forall entry :: entry in entries ==> EntryCovered(entry, b, scope)
    case ListComp(_, _) => false
    case Opaque(_) => false
  }

  predicate ArgumentsCovered(call: Expr, b: Bindings, scope: Scope)
    requires call.Call?
    decreases call, 0
  {
    && (forall arg :: arg in call.args ==> Covered(arg, b, scope))
    && (forall keyword :: keyword in call.keywords ==> KeywordCovered(keyword, b, scope))
  }

  predicate KeywordCovered(keyword: Keyword, b: Bindings, scope: Scope)
    decreases keyword, 0
  {
    Covered(keyword.value, b, scope)
  }

  predicate PartCovered(part: Part, b: Bindings, scope: Scope)
    decreases part, 0
  {
    part.Formatted? ==> part.spec.None? && Covered(part.value, b, scope)
  }

  predicate EntryCovered(entry: Entry, b: Bindings, scope: Scope)
    decreases entry, 0
  {
    (entry.key.Some? ==> Covered(entry.key.value, b, scope)) && Covered(entry.value, b, scope)
  }

  predicate AllPlainNames(targets: seq<Expr>) {
    forall target :: target in targets ==> target.Name?
  }

  /** An assigned or entered constructor is not tracked as a taint, so it must be stable
      itself: not a certified call, nor a method of a tainted receiver. */
  predicate ConstructorCovered(call: Expr, st: WalkState, scope: Scope)
    requires call.Call?
  {
    Covered(call, st.b, scope) && GetVaryingSource(call, st.b) == None
  }

  predicate ItemCovered(item: WithItem, st: WalkState, scope: Scope) {
    && item.context.Call?
    && IsDagConstructor(item.context, st.b)
    && ConstructorCovered(item.context, st, scope)
    && (item.binding.Some? ==> item.binding.value.Name?)
  }

  predicate NoStar(members: seq<MemberAlias>) {
    forall member :: member in members ==> member.name != "*"
  }

  /** Imports the analyzer reads as Python does, assignments to plain names of anything but
      a bare import, bare calls, other expressions without calls, and `with` blocks that open
      Dags. */
  predicate StmtCovered(stmt: Stmt, st: WalkState, scope: Scope) {
    match stmt
    case Import(_) => Faithful(VisitStmt(stmt, st).b, ScopeAfter(stmt, scope).bound)
    case ImportFrom(_, members) => NoStar(members) && Faithful(VisitStmt(stmt, st).b, ScopeAfter(stmt, scope).bound)
    case Assign(targets, value, _) =>
      && AllPlainNames(targets)
      && Covered(value, st.b, scope)
      && Target(value, scope).None?
      && (value.Call? && IsConstructor(value, st) ==> ConstructorCovered(value, st, scope))
    case Bare(expr) => Covered(expr, st.b, scope)
    case With(items, body) =>
      && ItemsCovered(items, st, scope)
      && BodyCovered(body, Inside(items, st), ScopeAfterItems(items, scope))
    case _ => false
  }

  predicate ItemsCovered(items: seq<WithItem>, st: WalkState, scope: Scope) {
    items == [] ||
    (ItemCovered(items[0], st, scope)
     && ItemsCovered(items[1..], VisitItem(items[0], st), ScopeAfterItem(items[0], scope)))
  }

  predicate BodyCovered(body: seq<Stmt>, st: WalkState, scope: Scope) {
    body == [] ||
    (StmtCovered(body[0], st, scope)
     && BodyCovered(body[1..], VisitStmt(body[0], st), ScopeAfter(body[0], scope)))
  }

  function Importing(paths: map<string, Dotted>, scope: Scope): Scope {
    scope.(bound := scope.bound + paths, vars := scope.vars - paths.Keys)
  }

  function Binding(names: set<string>, scope: Scope): Scope {
    scope.(bound := scope.bound - names, vars := scope.vars + names)
  }

  function BindingNames(item: WithItem): set<string> {
    if item.binding.Some? then PlainNames([item.binding.value]) else {}
  }

  function ScopeAfterItem(item: WithItem, scope: Scope): Scope {
    Binding(BindingNames(item), scope)
  }

  function ScopeAfterItems(items: seq<WithItem>, scope: Scope): Scope {
    if items == [] then scope else ScopeAfterItems(items[1..], ScopeAfterItem(items[0], scope))
  }

  function ScopeAfter(stmt: Stmt, scope: Scope): Scope {
    match stmt
    case Import(modules) => Importing(BindModules(modules, map[]), scope)
    case ImportFrom(path, members) => Importing(BindMembers(path, members, {}, map[]), scope)
    case Assign(targets, _, _) => Binding(PlainNames(targets), scope)
    case With(items, body) => ScopeAfterBody(body, ScopeAfterItems(items, scope))
    case _ => scope
  }

  function ScopeAfterBody(body: seq<Stmt>, scope: Scope): Scope {
    if body == [] then scope else ScopeAfterBody(body[1..], ScopeAfter(body[0], scope))
  }

  // ----- expressions

  /** The analyzer never answers with an empty text. */
  lemma {:induction false} SourcesHaveText(node: Expr, b: Bindings)
    requires TaintsHaveText(b)
    ensures GetVaryingSource(node, b) != Some("")
    decreases node, 1
  {
    match node
    case Call(func, _, _, _) =>
      if func.Attribute? { SourcesHaveText(func.value, b); }
    case JoinedStr(parts) => FStringSourcesHaveText(parts, b);
    case BinOp(left, _, right) => SourcesHaveText(left, b); SourcesHaveText(right, b);
    case Display(_, elts) => CollectionSourcesHaveText(elts, b);
    case ListComp(elt, _) => SourcesHaveText(elt, b);
    case Dict(entries) => DictSourcesHaveText(entries, b);
    case _ =>
  }

  lemma {:induction false} FStringSourcesHaveText(parts: seq<Part>, b: Bindings)
    requires TaintsHaveText(b)
    ensures GetVaryingFString(parts, b) != Some("")
    decreases parts, 0
  {
    if parts != [] { FStringSourcesHaveText(parts[1..], b); }
  }

  lemma {:induction false} CollectionSourcesHaveText(elts: seq<Expr>, b: Bindings)
    requires TaintsHaveText(b)
    ensures GetVaryingCollection(elts, b) != Some("")
    decreases elts, 0
  {
    if elts != [] { CollectionSourcesHaveText(elts[1..], b); }
  }

  lemma {:induction false} DictSourcesHaveText(entries: seq<Entry>, b: Bindings)
    requires TaintsHaveText(b)
    ensures GetVaryingDict(entries, b) != Some("")
    decreases entries, 0
  {
    if entries != [] { DictSourcesHaveText(entries[1..], b); }
  }

  lemma {:induction false} ResolveAgrees(node: Expr, b: Bindings, scope: Scope, env1: Env, env2: Env)
    requires Similar(b, scope, env1, env2)
    ensures Resolve(node, env1) == Target(node, scope) == Resolve(node, env2)
  {
    match node
    case Name(id) => assert AgreeOn(b, scope, env1, env2, id);
    case Attribute(value, _) => ResolveAgrees(value, b, scope, env1, env2);
    case _ =>
  }

  /** A certified callable reached through a covered callee is one the analyzer flags. */
  lemma CertifiedIsFlagged(func: Expr, b: Bindings, scope: Scope)
    requires Faithful(b, scope.bound) && CalleeCovered(func, b, scope)
    requires IsClock(Target(func, scope))
    ensures IsRuntimeVaryingCall(func, b)
  {
    var env := Imports(scope.bound);
    if func.Attribute? {
      assert Resolve(func.value, env).Some?;
    }
    match func
    case Name(id) =>
      assert id in scope.bound;
    case Attribute(Name(id), attr) =>
      assert id in scope.bound;
    case Attribute(Attribute(inner, owner), attr) =>
      assert Resolve(inner, env).Some?;
      assert Depth(func) == 2 + Depth(inner);
    case _ =>
  }

  /** A change keeps the agreement when it is the same in both, or reaches tainted variables only. */
  lemma ChangeKeepsSimilar(b: Bindings, scope: Scope, names: set<string>, env1: Env, env2: Env, v1: Value, v2: Value)
    requires Similar(b, scope, env1, env2)
    requires !Carries(v1) && !Carries(v2)
    requires v1 == v2 || Isolated(names, b, scope)
    ensures Similar(b, scope, Change(scope.share, names, v1, env1), Change(scope.share, names, v2, env2))
  {
    var share := scope.share;
    forall name ensures AgreeOn(b, scope, Change(share, names, v1, env1), Change(share, names, v2, env2), name) {
      ChangeAgrees(b, scope, names, env1, env2, v1, v2, name);
    }
  }

  lemma ChangeAgrees(b: Bindings, scope: Scope, names: set<string>, env1: Env, env2: Env, v1: Value, v2: Value,
                     name: string)
    requires Similar(b, scope, env1, env2)
    requires !Carries(v1) && !Carries(v2) && (v1 == v2 || Isolated(names, b, scope))
    ensures AgreeOn(b, scope, Change(scope.share, names, v1, env1), Change(scope.share, names, v2, env2), name)
  {
    assert AgreeOn(b, scope, env1, env2, name);
    SameGroup(b, scope, names, env1, env2, name);
    if v1 != v2 && name in scope.vars && name !in b.varyingVars {
      Spared(b, scope, names, env1, env2, name);
    }
    ChangeAt(scope.share, names, v1, env1, name);
    ChangeAt(scope.share, names, v2, env2, name);
  }

  lemma ChangeAt(share: Sharing, names: set<string>, cause: Value, env: Env, x: string)
    requires !Carries(cause)
    ensures x in Change(share, names, cause, env) <==> x in env
    ensures x in env && env[x].Imported? ==> Change(share, names, cause, env)[x] == env[x]
    ensures x in env && Settled(env[x]) ==>
              && Settled(Change(share, names, cause, env)[x])
              && Change(share, names, cause, env)[x] ==
                 if InGroupOf(x, names, share, env) then Updated(env[x], cause) else env[x]
  {
  }

  lemma SameGroup(b: Bindings, scope: Scope, names: set<string>, env1: Env, env2: Env, x: string)
    requires Similar(b, scope, env1, env2)
    ensures IsVariable(x, env1) <==> IsVariable(x, env2)
    ensures InGroupOf(x, names, scope.share, env1) <==> InGroupOf(x, names, scope.share, env2)
  {
    forall y ensures IsVariable(y, env1) <==> IsVariable(y, env2) {
      assert AgreeOn(b, scope, env1, env2, y);
    }
  }

  lemma Spared(b: Bindings, scope: Scope, names: set<string>, env1: Env, env2: Env, name: string)
    requires Similar(b, scope, env1, env2) && Isolated(names, b, scope)
    requires name in scope.vars && name !in b.varyingVars
    ensures !InGroupOf(name, names, scope.share, env1)
  {
    forall n | n in names && IsVariable(n, env1) ensures scope.share(n) != scope.share(name) {
      assert AgreeOn(b, scope, env1, env2, n);
    }
  }

  /** Evaluating an expression keeps two loads alike, hands out no certified callable, and
      gives one value when the analyzer finds no varying source in it. */
  ghost predicate Agree(b: Bindings, scope: Scope, env1': Env, env2': Env, v1: Value, v2: Value, stable: bool) {
    && Alike(b, scope, env1', env2')
    && !Carries(v1) && !Carries(v2)
    && (stable ==> v1 == v2)
  }

  lemma {:induction false} StableValue(node: Expr, b: Bindings, scope: Scope, env1: Env, env2: Env,
                                       v1: Value, v2: Value, env1': Env, env2': Env)
    requires Alike(b, scope, env1, env2) && Covered(node, b, scope)
    requires Evaluates(node, scope.share, env1, v1, env1') && Evaluates(node, scope.share, env2, v2, env2')
    ensures Agree(b, scope, env1', env2', v1, v2, GetVaryingSource(node, b) == None)
    decreases node, 2
  {
    match node
    case Constant(_) | Name(_) | Attribute(_, _) => StableLeaf(node, b, scope, env1, env2, v1, v2, env1', env2');
    case Call(_, _, _, _) =>
      var step1 :| Calls(node, scope.share, env1, step1, v1, env1');
      var step2 :| Calls(node, scope.share, env2, step2, v2, env2');
      StableCall(node, b, scope, env1, env2, step1, step2, v1, v2, env1', env2');
    case JoinedStr(_) | Display(_, _) | Dict(_) => StableDisplay(node, b, scope, env1, env2, v1, v2, env1', env2');
    case BinOp(_, _, _) => StableOperation(node, b, scope, env1, env2, v1, v2, env1', env2');
  }

  lemma StableLeaf(node: Expr, b: Bindings, scope: Scope, env1: Env, env2: Env,
                   v1: Value, v2: Value, env1': Env, env2': Env)
    requires Alike(b, scope, env1, env2) && Covered(node, b, scope)
    requires node.Constant? || node.Name? || node.Attribute?
    requires Evaluates(node, scope.share, env1, v1, env1') && Evaluates(node, scope.share, env2, v2, env2')
    ensures Agree(b, scope, env1', env2', v1, v2, GetVaryingSource(node, b) == None)
  {
    if node.Name? {
      assert AgreeOn(b, scope, env1, env2, node.id);
    }
    ResolveAgrees(node, b, scope, env1, env2);
  }

  lemma {:induction false} StableDisplay(node: Expr, b: Bindings, scope: Scope, env1: Env, env2: Env,
                                         v1: Value, v2: Value, env1': Env, env2': Env)
    requires Alike(b, scope, env1, env2) && Covered(node, b, scope)
    requires node.JoinedStr? || node.Display? || node.Dict?
    requires Evaluates(node, scope.share, env1, v1, env1') && Evaluates(node, scope.share, env2, v2, env2')
    ensures Agree(b, scope, env1', env2', v1, v2, GetVaryingSource(node, b) == None)
    decreases node, 1
  {
    match node
    case JoinedStr(parts) => StableParts(parts, b, scope, env1, env2, v1.pieces, v2.pieces, env1', env2');
    case Display(_, elts) => StableAll(elts, b, scope, env1, env2, v1.items, v2.items, env1', env2');
    case Dict(entries) => StableEntries(entries, b, scope, env1, env2, v1.entries, v2.entries, env1', env2');
  }

  lemma {:induction false} StableOperation(node: Expr, b: Bindings, scope: Scope, env1: Env, env2: Env,
                                           v1: Value, v2: Value, env1': Env, env2': Env)
    requires Alike(b, scope, env1, env2) && node.BinOp? && Covered(node, b, scope)
    requires Evaluates(node, scope.share, env1, v1, env1') && Evaluates(node, scope.share, env2, v2, env2')
    ensures Agree(b, scope, env1', env2', v1, v2, GetVaryingSource(node, b) == None)
    decreases node, 1
  {
    var mid1, after1 := OperandsOf(node, scope, env1, v1, env1');
    var mid2, after2 := OperandsOf(node, scope, env2, v2, env2');
    StableOperands(node, b, scope, env1, env2, v1, v2, mid1, mid2, after1, after2);
    if Chains(node.op) {
      ChangeKeepsSimilar(b, scope, Held(node.left) + Held(node.right), after1, after2, v1, v2);
    }
  }

  ghost predicate OperandsEvaluate(node: Expr, scope: Scope, env: Env, v: Value, mid: Env, after: Env) {
    && node.BinOp? && v.Combined? && v.op == node.op
    && Evaluates(node.left, scope.share, env, v.left, mid) && Evaluates(node.right, scope.share, mid, v.right, after)
  }

  lemma OperandsOf(node: Expr, scope: Scope, env: Env, v: Value, env': Env) returns (mid: Env, after: Env)
    requires node.BinOp? && Evaluates(node, scope.share, env, v, env')
    ensures OperandsEvaluate(node, scope, env, v, mid, after) && env' == AfterOperator(node, scope.share, v, after)
  {
    mid, after :| Evaluates(node.left, scope.share, env, v.left, mid)
                  && Evaluates(node.right, scope.share, mid, v.right, after)
                  && env' == AfterOperator(node, scope.share, v, after);
  }

  lemma {:induction false} StableOperands(node: Expr, b: Bindings, scope: Scope, env1: Env, env2: Env,
                                          v1: Value, v2: Value, mid1: Env, mid2: Env, after1: Env, after2: Env)
    requires Alike(b, scope, env1, env2) && node.BinOp? && Covered(node, b, scope)
    requires OperandsEvaluate(node, scope, env1, v1, mid1, after1)
    requires OperandsEvaluate(node, scope, env2, v2, mid2, after2)
    ensures Agree(b, scope, after1, after2, v1, v2, GetVaryingSource(node, b) == None)
    decreases node, 0
  {
    SourcesHaveText(node.left, b);
    StableValue(node.left, b, scope, env1, env2, v1.left, v2.left, mid1, mid2);
    StableValue(node.right, b, scope, mid1, mid2, v1.right, v2.right, after1, after2);
  }

  /** A call also gets equal arguments, when none of them has a varying source. */
  lemma {:induction false} StableCall(call: Expr, b: Bindings, scope: Scope, env1: Env, env2: Env,
                                      step1: CallStep, step2: CallStep, v1: Value, v2: Value, env1': Env, env2': Env)
    requires Alike(b, scope, env1, env2) && call.Call? && Covered(call, b, scope)
    requires Calls(call, scope.share, env1, step1, v1, env1') && Calls(call, scope.share, env2, step2, v2, env2')
    ensures Agree(b, scope, env1', env2', v1, v2, GetVaryingSource(call, b) == None)
    ensures GetVaryingArgument(call, b) == None ==> step1.arguments == step2.arguments
    decreases call, 1
  {
    ResolveAgrees(call.func, b, scope, env1, env2);
    StableCallee(call, b, scope, env1, env2, step1, step2);
    StableArguments(call, b, scope, step1.mid, step2.mid, step1.arguments, step2.arguments, step1.after, step2.after);
    if IsClock(Target(call.func, scope)) {
      CertifiedIsFlagged(call.func, b, scope);
    } else {
      NoClock(call, b, scope, step1, v1);
      NoClock(call, b, scope, step2, v2);
      ChangeKeepsSimilar(b, scope, Given(call), step1.after, step2.after, v1, v2);
    }
  }

  /** A covered call that is not certified comes to no certified callable. */
  lemma NoClock(call: Expr, b: Bindings, scope: Scope, step: CallStep, v: Value)
    requires call.Call? && CalleeCovered(call.func, b, scope) && !IsClock(Target(call.func, scope))
    requires Target(call.func, scope).None? ==> !Carries(step.callee)
    requires Target(call.func, scope).Some? ==> step.callee.Imported?
    requires !ArgumentsCarry(step.arguments) && Returns(call.func, Target(call.func, scope), step, v)
    ensures v == Applied(step.callee, step.arguments) && !Carries(v)
  {
  }

  lemma {:induction false} StableCallee(call: Expr, b: Bindings, scope: Scope, env1: Env, env2: Env,
                                        step1: CallStep, step2: CallStep)
    requires Alike(b, scope, env1, env2) && call.Call? && CalleeCovered(call.func, b, scope)
    requires CalleeEvaluates(call, scope, env1, step1) && CalleeEvaluates(call, scope, env2, step2)
    ensures Alike(b, scope, step1.mid, step2.mid)
    ensures Target(call.func, scope).None? ==> !Carries(step1.callee) && !Carries(step2.callee)
    ensures GetVaryingSource(call, b) == None ==> step1.callee == step2.callee
    decreases call, 0
  {
    ResolveAgrees(call.func, b, scope, env1, env2);
    if call.func.Name? {
      assert AgreeOn(b, scope, env1, env2, call.func.id);
    }
    if Target(call.func, scope).None? && call.func.Attribute? {
      StableValue(call.func.value, b, scope, env1, env2, step1.callee.receiver, step2.callee.receiver,
                  step1.mid, step2.mid);
    }
  }

  ghost predicate CalleeEvaluates(call: Expr, scope: Scope, env: Env, step: CallStep)
    requires call.Call?
  {
    var target := Resolve(call.func, env);
    if target.Some? then step.callee == Imported(target.value) && step.mid == env
    else Evaluates(call.func, scope.share, env, step.callee, step.mid)
  }

  lemma {:induction false} StableArguments(call: Expr, b: Bindings, scope: Scope, env1: Env, env2: Env,
                                           a1: Arguments, a2: Arguments, env1': Env, env2': Env)
    requires Alike(b, scope, env1, env2) && call.Call? && ArgumentsCovered(call, b, scope)
    requires EvaluatesArguments(call, scope.share, env1, a1, env1')
    requires EvaluatesArguments(call, scope.share, env2, a2, env2')
    ensures Alike(b, scope, env1', env2') && !ArgumentsCarry(a1) && !ArgumentsCarry(a2)
    ensures GetVaryingArgument(call, b) == None ==> a1 == a2
    decreases call, 0
  {
    var mid1 :| EvaluatesAll(call.args, scope.share, env1, a1.positional, mid1)
                && EvaluatesNamed(call.keywords, scope.share, mid1, a1.named, env1');
    var mid2 :| EvaluatesAll(call.args, scope.share, env2, a2.positional, mid2)
                && EvaluatesNamed(call.keywords, scope.share, mid2, a2.named, env2');
    CollectionSourcesHaveText(call.args, b);
    StableAll(call.args, b, scope, env1, env2, a1.positional, a2.positional, mid1, mid2);
    StableNamed(call.keywords, b, scope, mid1, mid2, a1.named, a2.named, env1', env2');
  }

  lemma SameWhenPartsAre<T>(vs1: seq<T>, vs2: seq<T>)
    requires vs1 != [] && vs2 != []
    ensures vs1 == vs2 <==> vs1[0] == vs2[0] && vs1[1..] == vs2[1..]
  {
  }

  ghost predicate NoneCarries(vs: seq<Value>) {
    forall i :: 0 <= i < |vs| ==> !Carries(vs[i])
  }

  lemma {:induction false} StableAll(nodes: seq<Expr>, b: Bindings, scope: Scope, env1: Env, env2: Env,
                                     vs1: seq<Value>, vs2: seq<Value>, env1': Env, env2': Env)
    requires Alike(b, scope, env1, env2) && forall node :: node in nodes ==> Covered(node, b, scope)
    requires EvaluatesAll(nodes, scope.share, env1, vs1, env1') && EvaluatesAll(nodes, scope.share, env2, vs2, env2')
    ensures Alike(b, scope, env1', env2') && NoneCarries(vs1) && NoneCarries(vs2)
    ensures GetVaryingCollection(nodes, b) == None ==> vs1 == vs2
    decreases nodes, 0
  {
    if nodes != [] {
      var mid1 :| Evaluates(nodes[0], scope.share, env1, vs1[0], mid1)
                  && EvaluatesAll(nodes[1..], scope.share, mid1, vs1[1..], env1');
      var mid2 :| Evaluates(nodes[0], scope.share, env2, vs2[0], mid2)
                  && EvaluatesAll(nodes[1..], scope.share, mid2, vs2[1..], env2');
      SourcesHaveText(nodes[0], b);
      StableValue(nodes[0], b, scope, env1, env2, vs1[0], vs2[0], mid1, mid2);
      StableAll(nodes[1..], b, scope, mid1, mid2, vs1[1..], vs2[1..], env1', env2');
      SameWhenPartsAre(vs1, vs2);
    }
  }

  ghost predicate NoNamedCarries(vs: seq<(Option<string>, Value)>) {
    forall i :: 0 <= i < |vs| ==> !Carries(vs[i].1)
  }

  lemma {:induction false} StableNamed(keywords: seq<Keyword>, b: Bindings, scope: Scope, env1: Env, env2: Env,
                                       vs1: seq<(Option<string>, Value)>, vs2: seq<(Option<string>, Value)>,
                                       env1': Env, env2': Env)
    requires Alike(b, scope, env1, env2) && forall keyword :: keyword in keywords ==> KeywordCovered(keyword, b, scope)
    requires EvaluatesNamed(keywords, scope.share, env1, vs1, env1')
    requires EvaluatesNamed(keywords, scope.share, env2, vs2, env2')
    ensures Alike(b, scope, env1', env2') && NoNamedCarries(vs1) && NoNamedCarries(vs2)
    ensures GetVaryingKeyword(keywords, b) == None ==> vs1 == vs2
    decreases keywords, 0
  {
    if keywords != [] {
      var mid1 :| EvaluatesKeyword(keywords[0], scope.share, env1, vs1[0], mid1)
                  && EvaluatesNamed(keywords[1..], scope.share, mid1, vs1[1..], env1');
      var mid2 :| EvaluatesKeyword(keywords[0], scope.share, env2, vs2[0], mid2)
                  && EvaluatesNamed(keywords[1..], scope.share, mid2, vs2[1..], env2');
      StableKeyword(keywords[0], b, scope, env1, env2, vs1[0], vs2[0], mid1, mid2);
      StableNamed(keywords[1..], b, scope, mid1, mid2, vs1[1..], vs2[1..], env1', env2');
      SameWhenPartsAre(vs1, vs2);
    }
  }

  lemma {:induction false} StableKeyword(keyword: Keyword, b: Bindings, scope: Scope, env1: Env, env2: Env,
                                         v1: (Option<string>, Value), v2: (Option<string>, Value),
                                         env1': Env, env2': Env)
    requires Alike(b, scope, env1, env2) && KeywordCovered(keyword, b, scope)
    requires EvaluatesKeyword(keyword, scope.share, env1, v1, env1')
    requires EvaluatesKeyword(keyword, scope.share, env2, v2, env2')
    ensures Agree(b, scope, env1', env2', v1.1, v2.1, !Truthy(KeywordSource(keyword, b)))
    ensures v1.0 == v2.0
    decreases keyword, 0
  {
    SourcesHaveText(keyword.value, b);
    StableValue(keyword.value, b, scope, env1, env2, v1.1, v2.1, env1', env2');
  }

  lemma {:induction false} StableParts(parts: seq<Part>, b: Bindings, scope: Scope, env1: Env, env2: Env,
                                       vs1: seq<Value>, vs2: seq<Value>, env1': Env, env2': Env)
    requires Alike(b, scope, env1, env2) && forall part :: part in parts ==> PartCovered(part, b, scope)
    requires EvaluatesParts(parts, scope.share, env1, vs1, env1')
    requires EvaluatesParts(parts, scope.share, env2, vs2, env2')
    ensures Alike(b, scope, env1', env2')
    ensures GetVaryingFString(parts, b) == None ==> vs1 == vs2
    decreases parts, 0
  {
    if parts != [] {
      var mid1 :| EvaluatesPart(parts[0], scope.share, env1, vs1[0], mid1)
                  && EvaluatesParts(parts[1..], scope.share, mid1, vs1[1..], env1');
      var mid2 :| EvaluatesPart(parts[0], scope.share, env2, vs2[0], mid2)
                  && EvaluatesParts(parts[1..], scope.share, mid2, vs2[1..], env2');
      StablePart(parts[0], b, scope, env1, env2, vs1[0], vs2[0], mid1, mid2);
      StableParts(parts[1..], b, scope, mid1, mid2, vs1[1..], vs2[1..], env1', env2');
      SameWhenPartsAre(vs1, vs2);
    }
  }

  lemma {:induction false} StablePart(part: Part, b: Bindings, scope: Scope, env1: Env, env2: Env,
                                      v1: Value, v2: Value, env1': Env, env2': Env)
    requires Alike(b, scope, env1, env2) && PartCovered(part, b, scope)
    requires EvaluatesPart(part, scope.share, env1, v1, env1') && EvaluatesPart(part, scope.share, env2, v2, env2')
    ensures Alike(b, scope, env1', env2')
    ensures !Truthy(PartSource(part, b)) ==> v1 == v2
    decreases part, 0
  {
    if part.Formatted? {
      SourcesHaveText(part.value, b);
      StableValue(part.value, b, scope, env1, env2, v1, v2, env1', env2');
    }
  }

  ghost predicate NoEntryCarries(vs: seq<(Option<Value>, Value)>) {
    forall i :: 0 <= i < |vs| ==> !EntryCarries(vs[i])
  }

  lemma {:induction false} StableEntries(entries: seq<Entry>, b: Bindings, scope: Scope, env1: Env, env2: Env,
                                         vs1: seq<(Option<Value>, Value)>, vs2: seq<(Option<Value>, Value)>,
                                         env1': Env, env2': Env)
    requires Alike(b, scope, env1, env2) && forall entry :: entry in entries ==> EntryCovered(entry, b, scope)
    requires EvaluatesEntries(entries, scope.share, env1, vs1, env1')
    requires EvaluatesEntries(entries, scope.share, env2, vs2, env2')
    ensures Alike(b, scope, env1', env2') && NoEntryCarries(vs1) && NoEntryCarries(vs2)
    ensures GetVaryingDict(entries, b) == None ==> vs1 == vs2
    decreases entries, 0
  {
    if entries != [] {
      var mid1 :| EvaluatesEntry(entries[0], scope.share, env1, vs1[0], mid1)
                  && EvaluatesEntries(entries[1..], scope.share, mid1, vs1[1..], env1');
      var mid2 :| EvaluatesEntry(entries[0], scope.share, env2, vs2[0], mid2)
                  && EvaluatesEntries(entries[1..], scope.share, mid2, vs2[1..], env2');
      StableEntry(entries[0], b, scope, env1, env2, vs1[0], vs2[0], mid1, mid2);
      StableEntries(entries[1..], b, scope, mid1, mid2, vs1[1..], vs2[1..], env1', env2');
      SameWhenPartsAre(vs1, vs2);
    }
  }

  lemma {:induction false} StableEntry(entry: Entry, b: Bindings, scope: Scope, env1: Env, env2: Env,
                                       v1: (Option<Value>, Value), v2: (Option<Value>, Value), env1': Env, env2': Env)
    requires Alike(b, scope, env1, env2) && EntryCovered(entry, b, scope)
    requires EvaluatesEntry(entry, scope.share, env1, v1, env1')
    requires EvaluatesEntry(entry, scope.share, env2, v2, env2')
    ensures Alike(b, scope, env1', env2') && !EntryCarries(v1) && !EntryCarries(v2)
    ensures !Truthy(EntrySource(entry, b)) ==> v1 == v2
    decreases entry, 0
  {
    var mid1 :| (if entry.key.Some? then Evaluates(entry.key.value, scope.share, env1, v1.0.value, mid1)
                 else mid1 == env1)
                && Evaluates(entry.value, scope.share, mid1, v1.1, env1');
    var mid2 :| (if entry.key.Some? then Evaluates(entry.key.value, scope.share, env2, v2.0.value, mid2)
                 else mid2 == env2)
                && Evaluates(entry.value, scope.share, mid2, v2.1, env2');
    if entry.key.Some? {
      SourcesHaveText(entry.key.value, b);
      StableValue(entry.key.value, b, scope, env1, env2, v1.0.value, v2.0.value, mid1, mid2);
    }
    SourcesHaveText(entry.value, b);
    StableValue(entry.value, b, scope, mid1, mid2, v1.1, v2.1, env1', env2');
  }

  // ----- statements

  /** A walk only ever adds findings. */
  lemma {:induction false} FindingsGrow(stmt: Stmt, st: WalkState)
    ensures st.findings <= VisitStmt(stmt, st).findings
    decreases stmt, 1
  {
    match stmt
    case Import(_) =>
    case ImportFrom(_, _) =>
    case Assign(_, _, _) =>
    case Bare(expr) => VisitExprKeepsBindings(expr, st);
    case For(target, iter, body, _, line) =>
      var source := GetVaryingSource(iter, st.b);
      BodyFindingsGrow(body, st);
      if Truthy(source) && target.Name? {
        BodyFindingsGrow(body, Taint({target.id}, (line, source.value), st));
      }
    case With(items, body) =>
      ItemsFindingsGrow(items, st);
      BodyFindingsGrow(body, Inside(items, st));
    case FunctionDef(name, decorators, body) =>
      DecoratorFindingsGrow(decorators, st);
      BodyFindingsGrow(body, VisitDecorators(decorators, st).0.(functionContext := Some(name)));
    case Branch(exprs, body, orElse) =>
      VisitCallsKeepsBindings(CallsInAll(exprs), st);
      var tested := VisitExprs(exprs, st);
      BodyFindingsGrow(body, tested);
      BodyFindingsGrow(orElse, VisitBody(body, tested));
  }

  lemma {:induction false} BodyFindingsGrow(body: seq<Stmt>, st: WalkState)
    ensures st.findings <= VisitBody(body, st).findings
    decreases body, 0
  {
    if body != [] {
      FindingsGrow(body[0], st);
      BodyFindingsGrow(body[1..], VisitStmt(body[0], st));
    }
  }

  lemma ItemFindingsGrow(item: WithItem, st: WalkState)
    ensures st.findings <= VisitItem(item, st).findings
  {
    VisitExprKeepsBindings(item.context, st);
    if item.binding.Some? {
      VisitExprKeepsBindings(item.binding.value, VisitExpr(item.context, st));
    }
  }

  lemma {:induction false} ItemsFindingsGrow(items: seq<WithItem>, st: WalkState)
    ensures st.findings <= VisitItems(items, st).0.findings
  {
    if items != [] {
      ItemFindingsGrow(items[0], st);
      ItemsFindingsGrow(items[1..], VisitItem(items[0], st));
    }
  }

  lemma {:induction false} DecoratorFindingsGrow(decorators: seq<Expr>, st: WalkState)
    ensures st.findings <= VisitDecorators(decorators, st).0.findings
  {
    if decorators != [] && !IsTaskDecorator(decorators[0]) {
      VisitExprKeepsBindings(decorators[0], st);
      DecoratorFindingsGrow(decorators[1..], VisitExpr(decorators[0], st));
    }
  }

  /** What holds between the walk and the two executions at every module-level statement. */
  ghost predicate InStep(st: WalkState, scope: Scope, env1: Env, env2: Env) {
    Alike(st.b, scope, env1, env2) && st.functionContext == None
  }

  /** A visited constructor without a finding is passed equal arguments; and whatever the value
      used, it is equal in both loads when it has no varying source. */
  lemma PassedEqually(node: Expr, st: WalkState, scope: Scope, env1: Env, env2: Env, v1: Value, v2: Value,
                      env1': Env, env2': Env, p1: seq<Passed>, p2: seq<Passed>)
    requires InStep(st, scope, env1, env2) && Covered(node, st.b, scope)
    requires Uses(node, scope.share, st, env1, v1, env1', p1) && Uses(node, scope.share, st, env2, v2, env2', p2)
    requires node.Call? && IsConstructor(node, st) ==> GetVaryingArgument(node, st.b) == None
    ensures p1 == p2
    ensures Agree(st.b, scope, env1', env2', v1, v2, GetVaryingSource(node, st.b) == None)
  {
    if node.Call? {
      var step1 :| Calls(node, scope.share, env1, step1, v1, env1') && p1 == Record(node, st, step1.arguments);
      var step2 :| Calls(node, scope.share, env2, step2, v2, env2') && p2 == Record(node, st, step2.arguments);
      StableCall(node, st.b, scope, env1, env2, step1, step2, v1, v2, env1', env2');
    } else {
      StableValue(node, st.b, scope, env1, env2, v1, v2, env1', env2');
    }
  }

  /** What is used is an import only when it is named by a chain. */
  lemma NotImported(node: Expr, share: Sharing, st: WalkState, env: Env, v: Value, env': Env, passed: seq<Passed>)
    requires Uses(node, share, st, env, v, env', passed) && Resolve(node, env).None?
    ensures !v.Imported?
  {
  }

  /** Rebinding names to values that are equal, or to tainted names, keeps the agreement. */
  lemma RebindKeepsSimilar(b: Bindings, b': Bindings, scope: Scope, names: set<string>,
                           env1: Env, env2: Env, v1: Value, v2: Value)
    requires Similar(b, scope, env1, env2)
    requires b.varyingVars.Keys <= b'.varyingVars.Keys
    requires Settled(v1) && Settled(v2)
    requires v1 == v2 || names <= b'.varyingVars.Keys
    ensures Similar(b', Binding(names, scope), BindAll(names, v1, env1), BindAll(names, v2, env2))
  {
    forall name ensures AgreeOn(b', Binding(names, scope), BindAll(names, v1, env1), BindAll(names, v2, env2), name) {
      assert AgreeOn(b, scope, env1, env2, name);
    }
  }

  lemma FewerBoundStaysFaithful(b: Bindings, b': Bindings, bound: map<string, Dotted>, names: set<string>)
    requires Faithful(b, bound) && b'.imports == b.imports && b'.fromImports == b.fromImports
    ensures Faithful(b', bound - names)
  {
  }

  lemma QuietAssign(targets: seq<Expr>, value: Expr, line: nat, st: WalkState)
    requires value.Call? && IsConstructor(value, st) && st.functionContext == None
    requires VisitAssign(targets, value, line, st).findings == st.findings
    ensures GetVaryingArgument(value, st.b) == None && VisitAssign(targets, value, line, st).b == st.b
    ensures VisitAssign(targets, value, line, st).functionContext == None
  {
  }

  lemma TrackedAssign(targets: seq<Expr>, value: Expr, line: nat, st: WalkState)
    requires TaintsHaveText(st.b)
    ensures var st' := TrackVaryingAssignment(targets, value, line, st);
            && TaintsHaveText(st'.b) && st.b.varyingVars.Keys <= st'.b.varyingVars.Keys
            && (GetVaryingSource(value, st.b) != None ==> PlainNames(targets) <= st'.b.varyingVars.Keys)
  {
    SourcesHaveText(value, st.b);
  }

  /** The walk taints every target of a value with a varying source, unless it is a constructor's. */
  lemma AssignWalk(stmt: Stmt, st: WalkState, scope: Scope)
    requires TaintsHaveText(st.b) && st.functionContext == None
    requires stmt.Assign? && StmtCovered(stmt, st, scope)
    requires VisitStmt(stmt, st).findings == st.findings
    ensures stmt.value.Call? && IsConstructor(stmt.value, st) ==> GetVaryingArgument(stmt.value, st.b) == None
    ensures GetVaryingSource(stmt.value, st.b) != None ==>
              PlainNames(stmt.targets) <= VisitStmt(stmt, st).b.varyingVars.Keys
    ensures st.b.varyingVars.Keys <= VisitStmt(stmt, st).b.varyingVars.Keys
    ensures TaintsHaveText(VisitStmt(stmt, st).b) && VisitStmt(stmt, st).functionContext == None
  {
    var Assign(targets, value, line) := stmt;
    if value.Call? && IsConstructor(value, st) {
      QuietAssign(targets, value, line, st);
    } else {
      TrackedAssign(targets, value, line, st);
    }
  }

  lemma AssignInStep(stmt: Stmt, st: WalkState, scope: Scope, env1: Env, env2: Env, env1': Env, env2': Env,
                     p1: seq<Passed>, p2: seq<Passed>)
    requires InStep(st, scope, env1, env2)
    requires stmt.Assign? && StmtCovered(stmt, st, scope)
    requires RunsStmt(stmt, scope.share, st, env1, env1', p1) && RunsStmt(stmt, scope.share, st, env2, env2', p2)
    requires VisitStmt(stmt, st).findings == st.findings
    ensures p1 == p2
    ensures InStep(VisitStmt(stmt, st), ScopeAfter(stmt, scope), env1', env2')
  {
    var Assign(targets, value, line) := stmt;
    var v1, mid1 :| Uses(value, scope.share, st, env1, v1, mid1, p1)
                    && Assigned(targets, value, scope.share, mid1, env1', v1);
    var v2, mid2 :| Uses(value, scope.share, st, env2, v2, mid2, p2)
                    && Assigned(targets, value, scope.share, mid2, env2', v2);
    AssignWalk(stmt, st, scope);
    PassedEqually(value, st, scope, env1, env2, v1, v2, mid1, mid2, p1, p2);
    ResolveAgrees(value, st.b, scope, env1, env2);
    NotImported(value, scope.share, st, env1, v1, mid1, p1);
    NotImported(value, scope.share, st, env2, v2, mid2, p2);
    AssignKeepsImports(stmt, st);
    PlainTargets(targets, v1, mid1);
    PlainTargets(targets, v2, mid2);
    Rebound(st, VisitStmt(stmt, st), scope, PlainNames(targets), mid1, mid2, v1, v2);
  }

  lemma {:induction false} PlainTargets(targets: seq<Expr>, v: Value, env: Env)
    requires AllPlainNames(targets)
    ensures BindTargets(targets, v, env) == BindAll(PlainNames(targets), v, env)
  {
    if targets != [] {
      assert targets[0] in targets;
      PlainTargets(targets[1..], v, Bind(targets[0], v, env));
      FirstPlainName(targets);
      BindOneMore(targets[0].id, PlainNames(targets[1..]), v, env);
    } else {
      assert PlainNames(targets) == {};
    }
  }

  lemma FirstPlainName(targets: seq<Expr>)
    requires targets != [] && targets[0].Name?
    ensures PlainNames(targets) == {targets[0].id} + PlainNames(targets[1..])
  {
  }

  lemma BindOneMore(id: string, names: set<string>, v: Value, env: Env)
    ensures BindAll(names, v, env[id := v]) == BindAll({id} + names, v, env)
  {
  }

  lemma AssignKeepsImports(stmt: Stmt, st: WalkState)
    requires stmt.Assign?
    ensures VisitStmt(stmt, st).b.imports == st.b.imports && VisitStmt(stmt, st).b.fromImports == st.b.fromImports
  {
  }

  lemma Rebound(st: WalkState, st': WalkState, scope: Scope, names: set<string>,
                env1: Env, env2: Env, v1: Value, v2: Value)
    requires InStep(st, scope, env1, env2) && TaintsHaveText(st'.b) && st'.functionContext == None
    requires st'.b.imports == st.b.imports && st'.b.fromImports == st.b.fromImports
    requires st.b.varyingVars.Keys <= st'.b.varyingVars.Keys
    requires Settled(v1) && Settled(v2)
    requires v1 == v2 || names <= st'.b.varyingVars.Keys
    ensures InStep(st', Binding(names, scope), BindAll(names, v1, env1), BindAll(names, v2, env2))
  {
    RebindKeepsSimilar(st.b, st'.b, scope, names, env1, env2, v1, v2);
    FewerBoundStaysFaithful(st.b, st'.b, scope.bound, names);
  }

  lemma ItemInStep(item: WithItem, st: WalkState, scope: Scope, env1: Env, env2: Env, env1': Env, env2': Env,
                   p1: seq<Passed>, p2: seq<Passed>)
    requires InStep(st, scope, env1, env2) && ItemCovered(item, st, scope)
    requires RunsItem(item, scope.share, st, env1, env1', p1) && RunsItem(item, scope.share, st, env2, env2', p2)
    ensures p1 == p2
    ensures InStep(VisitItem(item, st), ScopeAfterItem(item, scope), env1', env2')
  {
    var v1, mid1 :| Uses(item.context, scope.share, st, env1, v1, mid1, p1)
                    && Entered(item, scope.share, mid1, env1', v1);
    var v2, mid2 :| Uses(item.context, scope.share, st, env2, v2, mid2, p2)
                    && Entered(item, scope.share, mid2, env2', v2);
    PassedEqually(item.context, st, scope, env1, env2, v1, v2, mid1, mid2, p1, p2);
    ResolveAgrees(item.context, st.b, scope, env1, env2);
    NotImported(item.context, scope.share, st, env1, v1, mid1, p1);
    ItemVisit(item, st, scope);
    EnteredBinds(item, scope.share, mid1, env1', v1);
    EnteredBinds(item, scope.share, mid2, env2', v2);
    Rebound(st, VisitItem(item, st), scope, BindingNames(item), mid1, mid2, v1, v2);
  }

  lemma EnteredBinds(item: WithItem, share: Sharing, env: Env, env': Env, v: Value)
    requires Entered(item, share, env, env', v) && (item.binding.Some? ==> item.binding.value.Name?)
    ensures env' == BindAll(BindingNames(item), v, env)
  {
  }

  lemma ItemVisit(item: WithItem, st: WalkState, scope: Scope)
    requires ItemCovered(item, st, scope)
    ensures VisitItem(item, st).b == st.b && VisitItem(item, st).functionContext == st.functionContext
  {
    VisitExprKeepsBindings(item.context, st);
    if item.binding.Some? {
      VisitExprKeepsBindings(item.binding.value, VisitExpr(item.context, st));
    }
  }

  lemma {:induction false} ItemsInStep(items: seq<WithItem>, st: WalkState, scope: Scope,
                                       env1: Env, env2: Env, env1': Env, env2': Env, p1: seq<Passed>, p2: seq<Passed>)
    requires InStep(st, scope, env1, env2)
    requires ItemsCovered(items, st, scope)
    requires RunsItems(items, scope.share, st, env1, env1', p1) && RunsItems(items, scope.share, st, env2, env2', p2)
    requires VisitItems(items, st).0.findings == st.findings
    ensures p1 == p2
    ensures InStep(VisitItems(items, st).0, ScopeAfterItems(items, scope), env1', env2')
    decreases items
  {
    if items != [] {
      var item, next := items[0], VisitItem(items[0], st);
      var mid1, first1, rest1 :| p1 == first1 + rest1 && RunsItem(item, scope.share, st, env1, mid1, first1)
                                 && RunsItems(items[1..], scope.share, next, mid1, env1', rest1);
      var mid2, first2, rest2 :| p2 == first2 + rest2 && RunsItem(item, scope.share, st, env2, mid2, first2)
                                 && RunsItems(items[1..], scope.share, next, mid2, env2', rest2);
      ItemFindingsGrow(item, st);
      ItemsFindingsGrow(items[1..], next);
      ItemInStep(item, st, scope, env1, env2, mid1, mid2, first1, first2);
      ItemsInStep(items[1..], next, ScopeAfterItem(item, scope), mid1, mid2, env1', env2', rest1, rest2);
    }
  }

  lemma BareInStep(expr: Expr, st: WalkState, scope: Scope, env1: Env, env2: Env, env1': Env, env2': Env,
                   p1: seq<Passed>, p2: seq<Passed>)
    requires InStep(st, scope, env1, env2) && Covered(expr, st.b, scope)
    requires RunsStmt(Bare(expr), scope.share, st, env1, env1', p1)
    requires RunsStmt(Bare(expr), scope.share, st, env2, env2', p2)
    requires VisitExpr(expr, st).findings == st.findings
    ensures p1 == p2 && InStep(VisitExpr(expr, st), scope, env1', env2')
  {
    var v1 :| Uses(expr, scope.share, st, env1, v1, env1', p1);
    var v2 :| Uses(expr, scope.share, st, env2, v2, env2', p2);
    if expr.Call? { BareVisit(expr, st); }
    PassedEqually(expr, st, scope, env1, env2, v1, v2, env1', env2', p1, p2);
  }

  lemma BareVisit(call: Expr, st: WalkState)
    requires call.Call? && st.functionContext == None
    requires VisitExpr(call, st).findings == st.findings
    ensures VisitExpr(call, st) == st
    ensures IsConstructor(call, st) ==> GetVaryingArgument(call, st.b) == None
  {
    assert OutermostCalls(call) == [call];
    assert VisitCalls([call], st) == VisitCalls([call][1..], VisitCall([call][0], st));
  }

  lemma ImportKeepsSimilar(b: Bindings, b': Bindings, scope: Scope, paths: map<string, Dotted>, env1: Env, env2: Env)
    requires Similar(b, scope, env1, env2) && b'.varyingVars == b.varyingVars
    ensures Similar(b', Importing(paths, scope), env1 + Imports(paths), env2 + Imports(paths))
  {
    forall name ensures AgreeOn(b', Importing(paths, scope), env1 + Imports(paths), env2 + Imports(paths), name) {
      assert AgreeOn(b, scope, env1, env2, name);
    }
  }

  lemma {:induction false} PublicDoesNotMatter(path: Option<Dotted>, members: seq<MemberAlias>, public: set<string>,
                                               paths: map<string, Dotted>)
    requires NoStar(members)
    ensures BindMembers(path, members, public, paths) == BindMembers(path, members, {}, paths)
  {
    if members != [] {
      assert members[0] in members;
      var package := if path.Some? then path.value else ["."];
      PublicDoesNotMatter(path, members[1..], public, paths[MemberName(members[0]) := package + [members[0].name]]);
    }
  }

  lemma ImportInStep(stmt: Stmt, st: WalkState, scope: Scope, paths: map<string, Dotted>, env1: Env, env2: Env)
    requires InStep(st, scope, env1, env2)
    requires (stmt.Import? && paths == BindModules(stmt.modules, map[]))
             || (stmt.ImportFrom? && paths == BindMembers(stmt.module_, stmt.members, {}, map[]))
    requires StmtCovered(stmt, st, scope)
    ensures InStep(VisitStmt(stmt, st), ScopeAfter(stmt, scope), env1 + Imports(paths), env2 + Imports(paths))
  {
    ImportKeepsSimilar(st.b, VisitStmt(stmt, st).b, scope, paths, env1, env2);
  }

  lemma ContextDoesNotMatter(st: WalkState, inDag: bool, scope: Scope, env1: Env, env2: Env)
    requires InStep(st, scope, env1, env2)
    ensures InStep(st.(inDagContext := inDag), scope, env1, env2)
  {
  }

  /** Only names change groups' members; the groups stay. */
  lemma {:induction false} ItemsShare(items: seq<WithItem>, scope: Scope)
    ensures ScopeAfterItems(items, scope).share == scope.share
  {
    if items != [] {
      ItemsShare(items[1..], ScopeAfterItem(items[0], scope));
    }
  }

  lemma {:induction false} StmtShares(stmt: Stmt, scope: Scope)
    ensures ScopeAfter(stmt, scope).share == scope.share
    decreases stmt, 1
  {
    if stmt.With? {
      ItemsShare(stmt.items, scope);
      BodyShares(stmt.body, ScopeAfterItems(stmt.items, scope));
    }
  }

  lemma {:induction false} BodyShares(body: seq<Stmt>, scope: Scope)
    ensures ScopeAfterBody(body, scope).share == scope.share
    decreases body, 0
  {
    if body != [] {
      StmtShares(body[0], scope);
      BodyShares(body[1..], ScopeAfter(body[0], scope));
    }
  }

  lemma BlockInStep(items: seq<WithItem>, body: seq<Stmt>, st: WalkState, scope: Scope,
                    env1: Env, env2: Env, mid1: Env, mid2: Env, env1': Env, env2': Env,
                    first1: seq<Passed>, first2: seq<Passed>, rest1: seq<Passed>, rest2: seq<Passed>)
    requires InStep(st, scope, env1, env2)
    requires ItemsCovered(items, st, scope) && BodyCovered(body, Inside(items, st), ScopeAfterItems(items, scope))
    requires RunsItems(items, scope.share, st, env1, mid1, first1)
    requires RunsBody(body, scope.share, Inside(items, st), mid1, env1', rest1)
    requires RunsItems(items, scope.share, st, env2, mid2, first2)
    requires RunsBody(body, scope.share, Inside(items, st), mid2, env2', rest2)
    requires VisitBody(body, Inside(items, st)).findings == st.findings
    ensures first1 == first2 && rest1 == rest2
    ensures InStep(VisitBody(body, Inside(items, st)), ScopeAfterBody(body, ScopeAfterItems(items, scope)), env1',
                   env2')
    decreases body, 1
  {
    ItemsFindingsGrow(items, st);
    ItemsShare(items, scope);
    BodyFindingsGrow(body, Inside(items, st));
    ItemsInStep(items, st, scope, env1, env2, mid1, mid2, first1, first2);
    ContextDoesNotMatter(VisitItems(items, st).0, true, ScopeAfterItems(items, scope), mid1, mid2);
    BodyInStep(body, Inside(items, st), ScopeAfterItems(items, scope), mid1, mid2, env1', env2', rest1, rest2);
  }

  lemma WithParts(items: seq<WithItem>, body: seq<Stmt>, share: Sharing, st: WalkState, env: Env, env': Env,
                  p: seq<Passed>) returns (mid: Env, first: seq<Passed>, rest: seq<Passed>)
    requires RunsWith(items, body, share, st, env, env', p)
    ensures p == first + rest && RunsItems(items, share, st, env, mid, first)
    ensures RunsBody(body, share, Inside(items, st), mid, env', rest)
  {
    mid, first, rest :| p == first + rest && RunsItems(items, share, st, env, mid, first)
                        && RunsBody(body, share, Inside(items, st), mid, env', rest);
  }

  lemma WithInStep(items: seq<WithItem>, body: seq<Stmt>, st: WalkState, scope: Scope,
                   env1: Env, env2: Env, env1': Env, env2': Env, p1: seq<Passed>, p2: seq<Passed>)
    requires InStep(st, scope, env1, env2)
    requires ItemsCovered(items, st, scope) && BodyCovered(body, Inside(items, st), ScopeAfterItems(items, scope))
    requires RunsWith(items, body, scope.share, st, env1, env1', p1)
    requires RunsWith(items, body, scope.share, st, env2, env2', p2)
    requires VisitBody(body, Inside(items, st)).findings == st.findings
    ensures p1 == p2
    ensures InStep(VisitBody(body, Inside(items, st)), ScopeAfterBody(body, ScopeAfterItems(items, scope)), env1',
                   env2')
    decreases body, 2
  {
    var mid1, first1, rest1 := WithParts(items, body, scope.share, st, env1, env1', p1);
    var mid2, first2, rest2 := WithParts(items, body, scope.share, st, env2, env2', p2);
    BlockInStep(items, body, st, scope, env1, env2, mid1, mid2, env1', env2', first1, first2, rest1, rest2);
  }

  lemma {:induction false} StmtInStep(stmt: Stmt, st: WalkState, scope: Scope,
                                      env1: Env, env2: Env, env1': Env, env2': Env, p1: seq<Passed>, p2: seq<Passed>)
    requires InStep(st, scope, env1, env2)
    requires StmtCovered(stmt, st, scope)
    requires RunsStmt(stmt, scope.share, st, env1, env1', p1) && RunsStmt(stmt, scope.share, st, env2, env2', p2)
    requires VisitStmt(stmt, st).findings == st.findings
    ensures p1 == p2
    ensures InStep(VisitStmt(stmt, st), ScopeAfter(stmt, scope), env1', env2')
    decreases stmt, 1
  {
    match stmt
    case Import(modules) =>
      ImportInStep(stmt, st, scope, BindModules(modules, map[]), env1, env2);
    case ImportFrom(path, members) =>
      var public1 :| env1' == env1 + Imports(BindMembers(path, members, public1, map[]));
      var public2 :| env2' == env2 + Imports(BindMembers(path, members, public2, map[]));
      PublicDoesNotMatter(path, members, public1, map[]);
      PublicDoesNotMatter(path, members, public2, map[]);
      ImportInStep(stmt, st, scope, BindMembers(path, members, {}, map[]), env1, env2);
    case Assign(_, _, _) =>
      AssignInStep(stmt, st, scope, env1, env2, env1', env2', p1, p2);
    case Bare(expr) =>
      BareInStep(expr, st, scope, env1, env2, env1', env2', p1, p2);
    case With(items, body) =>
      WithInStep(items, body, st, scope, env1, env2, env1', env2', p1, p2);
      ContextDoesNotMatter(VisitBody(body, Inside(items, st)), false, ScopeAfter(stmt, scope), env1', env2');
  }

  lemma {:induction false} BodyInStep(body: seq<Stmt>, st: WalkState, scope: Scope,
                                      env1: Env, env2: Env, env1': Env, env2': Env, p1: seq<Passed>, p2: seq<Passed>)
    requires InStep(st, scope, env1, env2)
    requires BodyCovered(body, st, scope)
    requires RunsBody(body, scope.share, st, env1, env1', p1) && RunsBody(body, scope.share, st, env2, env2', p2)
    requires VisitBody(body, st).findings == st.findings
    ensures p1 == p2
    ensures InStep(VisitBody(body, st), ScopeAfterBody(body, scope), env1', env2')
    decreases body, 0
  {
    if body != [] {
      var stmt, next := body[0], VisitStmt(body[0], st);
      var mid1, first1, rest1 :| p1 == first1 + rest1 && RunsStmt(stmt, scope.share, st, env1, mid1, first1)
                                 && RunsBody(body[1..], scope.share, next, mid1, env1', rest1);
      var mid2, first2, rest2 :| p2 == first2 + rest2 && RunsStmt(stmt, scope.share, st, env2, mid2, first2)
                                 && RunsBody(body[1..], scope.share, next, mid2, env2', rest2);
      FindingsGrow(stmt, st);
      BodyFindingsGrow(body[1..], next);
      StmtInStep(stmt, st, scope, env1, env2, mid1, mid2, first1, first2);
      StmtShares(stmt, scope);
      BodyInStep(body[1..], next, ScopeAfter(stmt, scope), mid1, mid2, env1', env2', rest1, rest2);
    }
  }

  // ----- the theorem

  /** At the start of a module its names are the builtins'. */
  function StartScope(builtins: set<string>, share: Sharing): Scope {
    Scope(Builtins(builtins), {}, share)
  }

  lemma LoadStartsInStep(builtins: set<string>, share: Sharing)
    ensures InStep(INITIAL_STATE, StartScope(builtins, share), Imports(Builtins(builtins)), Imports(Builtins(builtins)))
  {
  }

  lemma SimilarLoads(b: Bindings, scope: Scope, env1: Env, env2: Env)
    requires Similar(b, scope, env1, env2)
    ensures env1.Keys == env2.Keys
    ensures forall name :: name in env1 && name !in b.varyingVars ==> env1[name] == env2[name]
  {
    forall name ensures name in env1 <==> name in env2 {
      assert AgreeOn(b, scope, env1, env2, name);
    }
    forall name | name in env1 && name !in b.varyingVars ensures env1[name] == env2[name] {
      assert AgreeOn(b, scope, env1, env2, name);
    }
  }

  /** No finding: both loads pass the same arguments to the same constructors, and every
      variable the walk left untainted holds the same value in both. */
  lemma CleanFileLoadsAlike(module_: seq<Stmt>, builtins: set<string>, share: Sharing, env1: Env, env2: Env,
                            p1: seq<Passed>, p2: seq<Passed>)
    requires BodyCovered(module_, INITIAL_STATE, StartScope(builtins, share))
    requires FindRuntimeVaryingDagArgs(module_) == []
    requires RunsBody(module_, share, INITIAL_STATE, Imports(Builtins(builtins)), env1, p1)
    requires RunsBody(module_, share, INITIAL_STATE, Imports(Builtins(builtins)), env2, p2)
    ensures p1 == p2
    ensures env1.Keys == env2.Keys
    ensures forall name :: name in env1 && name !in VisitBody(module_, INITIAL_STATE).b.varyingVars ==>
                             env1[name] == env2[name]
  {
    ReportIsSorted(module_);
    LoadStartsInStep(builtins, share);
    assert |multiset(VisitBody(module_, INITIAL_STATE).findings)| == 0;
    BodyInStep(module_, INITIAL_STATE, StartScope(builtins, share), Imports(Builtins(builtins)),
               Imports(Builtins(builtins)), env1, env2, p1, p2);
    SimilarLoads(VisitBody(module_, INITIAL_STATE).b, ScopeAfterBody(module_, StartScope(builtins, share)), env1, env2);
  }

  // ----- how much of the imports is covered

  /** Every absolute import of names is covered, whatever was imported before. */
  lemma FromImportIsCovered(path: Dotted, member: MemberAlias, st: WalkState, scope: Scope)
    requires Faithful(st.b, scope.bound) && member.name != "*"
    ensures StmtCovered(ImportFrom(Some(path), [member]), st, scope)
  {
    var stmt, name := ImportFrom(Some(path), [member]), MemberName(member);
    assert [member][1..] == [];
    assert BindMembers(Some(path), [member], {}, map[]) == map[name := path + [member.name]];
    var b := VisitStmt(stmt, st).b;
    assert RecordMembers(path, [member], st.b.fromImports) == st.b.fromImports[name := (path, member.name)];
    assert Last(path + [member.name]) == member.name;
    CertifiedMember(path, member.name);
  }

  lemma CertifiedMember(path: Dotted, name: string)
    ensures Certified(path + [name]) ==> path != [] && Last(path) in path && (Last(path), name) in RUNTIME_VARYING_CALLS
  {
  }

  /** The key `visit_Import` files a module under. */
  function ImportKey(alias: ModuleAlias): Dotted {
    match alias.asName case Some(given) => [given] case None => alias.name
  }

  /** So is every import of a module under a name no `from` import holds, unless a dotted path
      gets a name of its own and ends like an owner of certified callables, or the name of its
      package was an alias before. */
  predicate ReadsPlainly(alias: ModuleAlias, b: Bindings) {
    && ModuleBinding(alias).0 !in b.fromImports
    && (alias.asName.None? && [alias.name[0]] in b.imports ==> b.imports[[alias.name[0]]] == [alias.name[0]])
    && (alias.asName.Some? && |alias.name| > 1 ==> !MayOwn(Last(alias.name)) && !Certified(alias.name))
  }

  lemma OwnerAfterImport(alias: ModuleAlias, b: Bindings, b': Bindings, name: string)
    requires b' == b.(imports := b.imports[ImportKey(alias) := alias.name]) && ReadsPlainly(alias, b)
    ensures if name == ModuleBinding(alias).0 then Owner(name, b') == ModuleBinding(alias).1
            else Owner(name, b') == Owner(name, b)
  {
  }

  lemma ModuleImportIsCovered(alias: ModuleAlias, st: WalkState, scope: Scope)
    requires Faithful(st.b, scope.bound) && ReadsPlainly(alias, st.b)
    ensures StmtCovered(Import([alias]), st, scope)
  {
    var (name, path) := ModuleBinding(alias);
    assert [alias][1..] == [];
    assert BindModules([alias], map[]) == map[name := path];
    assert RecordModules([alias], st.b.imports) == st.b.imports[ImportKey(alias) := alias.name];
    var b := VisitStmt(Import([alias]), st).b;
    forall other | other in scope.bound[name := path]
      ensures MayOwn(Last(scope.bound[name := path][other])) ==>
                Owner(other, b) == [Last(scope.bound[name := path][other])]
    {
      OwnerAfterImport(alias, st.b, b, other);
      if other == name && |path| == 1 { assert path == [Last(path)]; }
    }
  }
}
