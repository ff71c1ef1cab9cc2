/** The import-time visitor as it runs, and the I/O scan over what it collects
    (`antipatterns.py`: `_ImportTimeVisitor`, `_dotted_call_name`, `_module_matches`,
    `find_io_calls`). */
module ImportScan {
  import opened Prelude
  import opened ImportTime

  type Bindings = map<string, string>

  // ----- dotted names

  function FirstDot(s: string): (i: nat)
    ensures i <= |s| && (i < |s| ==> s[i] == '.') && forall k :: 0 <= k < i ==> s[k] != '.'
  {
    if s == "" || s[0] == '.' then 0 else 1 + FirstDot(s[1..])
  }

  /** `s.split(".")`. */
  function Split(s: string): (parts: seq<string>)
    ensures parts != []
    decreases |s|
  {
    var i := FirstDot(s);
    if i == |s| then [s] else [s[..i]] + Split(s[i + 1..])
  }

  /** `".".join(parts)`. */
  function Join(parts: seq<string>): string {
    if parts == [] then ""
    else if |parts| == 1 then parts[0]
    else parts[0] + "." + Join(parts[1..])
  }

  predicate NoDot(s: string) {
    FirstDot(s) == |s|
  }

  lemma FirstDotAppended(a: string, b: string)
    requires NoDot(a)
    ensures FirstDot(a + "." + b) == |a|
    ensures (a + "." + b)[..|a|] == a && (a + "." + b)[|a| + 1..] == b
  {
    var s := a + "." + b;
    assert s[|a|] == '.';
    forall k | 0 <= k < |a| ensures s[k] != '.' {
      assert s[k] == a[k];
    }
  }

  lemma {:induction false} JoinSplit(s: string)
    ensures Join(Split(s)) == s
    decreases |s|
  {
    var i := FirstDot(s);
    if i < |s| {
      JoinSplit(s[i + 1..]);
      assert s == s[..i] + "." + s[i + 1..];
      assert ([s[..i]] + Split(s[i + 1..]))[1..] == Split(s[i + 1..]);
    }
  }

  lemma SplitHead(head: string, tail: string)
    requires NoDot(head)
    ensures Split(head + "." + tail) == [head] + Split(tail)
  {
    FirstDotAppended(head, tail);
  }

  lemma Parted(a: string)
    requires !NoDot(a)
    ensures NoDot(a[..FirstDot(a)]) && a == a[..FirstDot(a)] + "." + a[FirstDot(a) + 1..]
  {
  }

  lemma {:induction false} SplitAppended(a: string, b: string)
    ensures Split(a + "." + b) == Split(a) + Split(b)
    decreases |a|
  {
    if NoDot(a) {
      SplitHead(a, b);
    } else {
      var head, rest := a[..FirstDot(a)], a[FirstDot(a) + 1..];
      Parted(a);
      SplitAppended(rest, b);
      SplitLonger(head, rest, b);
    }
  }

  lemma SplitLonger(head: string, rest: string, b: string)
    requires NoDot(head) && Split(rest + "." + b) == Split(rest) + Split(b)
    ensures Split(head + "." + rest + "." + b) == Split(head + "." + rest) + Split(b)
  {
    SplitHead(head, rest + "." + b);
    SplitHead(head, rest);
    Regroup(head, ".", rest, ".", b);
    Associated(head, Split(rest), Split(b));
  }

  lemma Regroup<T>(a: seq<T>, b: seq<T>, c: seq<T>, d: seq<T>, e: seq<T>)
    ensures a + b + c + d + e == a + b + (c + d + e)
  {
  }

  lemma Associated<T>(head: T, p: seq<T>, q: seq<T>)
    ensures [head] + (p + q) == [head] + p + q
  {
  }

  lemma {:induction false} JoinAppended(a: seq<string>, b: seq<string>)
    requires a != [] && b != []
    ensures Join(a + b) == Join(a) + "." + Join(b)
  {
    if |a| == 1 {
      assert (a + b)[1..] == b;
    } else {
      assert (a + b)[1..] == a[1..] + b;
      JoinAppended(a[1..], b);
    }
  }

  /** `resolved == module or resolved.startswith(module + ".")`. */
  predicate OwnedBy(resolved: string, mod: string) {
    resolved == mod || (mod + "." <= resolved)
  }

  /** A module owns a name exactly when its components begin the name's components. */
  lemma OwnedByComponents(resolved: string, mod: string)
    ensures OwnedBy(resolved, mod) <==> Split(mod) <= Split(resolved)
  {
    if mod + "." <= resolved {
      assert resolved == mod + "." + resolved[|mod| + 1..];
      SplitAppended(mod, resolved[|mod| + 1..]);
    }
    if Split(mod) <= Split(resolved) {
      PrefixOwns(resolved, mod, Split(mod), Split(resolved)[|Split(mod)|..]);
    }
  }

  lemma PrefixOwns(resolved: string, mod: string, front: seq<string>, rest: seq<string>)
    requires front == Split(mod) && front + rest == Split(resolved)
    ensures OwnedBy(resolved, mod)
  {
    JoinSplit(mod);
    JoinSplit(resolved);
    if rest == [] {
      assert front + rest == front;
    } else {
      JoinAppended(front, rest);
      assert resolved == mod + "." + Join(rest);
    }
  }

  ghost predicate Matches(resolved: string, modules: seq<string>) {
    exists i :: 0 <= i < |modules| && OwnedBy(resolved, modules[i])
  }

  method ModuleMatches(resolved: string, modules: seq<string>) returns (found: bool)
    ensures found <==> Matches(resolved, modules)
  {
    for i := 0 to |modules|
      invariant forall k :: 0 <= k < i ==> !OwnedBy(resolved, modules[k])
    {
      if OwnedBy(resolved, modules[i]) {
        return true;
      }
    }
    return false;
  }

  /** The components of an attribute chain on a plain name, outermost last. */
  function Chain(e: Expr): Option<seq<string>> {
    match e
    case Name(id) => Some([id])
    case Attribute(base, attr) =>
      var front := Chain(base);
      if front.None? then None else Some(front.value + [attr])
    case _ => None
  }

  function Reversed<T>(xs: seq<T>): (r: seq<T>) {
    if xs == [] then [] else Reversed(xs[1..]) + [xs[0]]
  }

  lemma {:induction false} ReversedSnoc<T>(xs: seq<T>, x: T)
    ensures Reversed(xs + [x]) == [x] + Reversed(xs)
  {
    if xs == [] {
      assert xs + [x] == [x];
    } else {
      assert (xs + [x])[1..] == xs[1..] + [x];
      ReversedSnoc(xs[1..], x);
    }
  }

  /** Walking the chain inwards collects it backwards. */
  method DottedCallName(func: Expr) returns (dotted: Option<string>)
    ensures dotted == if Chain(func).None? then None else Some(Join(Chain(func).value))
  {
    var parts: seq<string> := [];
    var node := func;
    assert Chain(func).Some? ==> Chain(func).value + [] == Chain(func).value;
    while node.Attribute?
      invariant Chain(func) == if Chain(node).None? then None else Some(Chain(node).value + Reversed(parts))
      decreases node
    {
      ReversedSnoc(parts, node.attr);
      ghost var front := Chain(node.base);
      assert front.Some? ==>
          front.value + [node.attr] + Reversed(parts) == front.value + ([node.attr] + Reversed(parts));
      parts := parts + [node.attr];
      node := node.base;
    }
    if !node.Name? {
      return None;
    }
    ReversedSnoc(parts, node.id);
    parts := parts + [node.id];
    return Some(Join(Reversed(parts)));
  }

  // ----- bindings

  function BindImport(names: seq<Alias>, b: Bindings): Bindings {
    if names == [] then b
    else
      var a := names[0];
      var top := a.name[..FirstDot(a.name)];
      BindImport(names[1..], if a.asname != "" then b[a.asname := a.name] else b[top := top])
  }

  function BindFrom(mod: string, names: seq<Alias>, b: Bindings): Bindings {
    if names == [] then b
    else
      var a := names[0];
      BindFrom(mod, names[1..],
               if a.name == "*" then b else b[(if a.asname != "" then a.asname else a.name) := mod + "." + a.name])
  }

  function StmtBinds(s: Stmt, b: Bindings): Bindings
    decreases s, 1
  {
    match s
    case Do(_) | Raise(_) | Break | Continue | FunctionDef(_, _, _) => b
    case Import(names) => BindImport(names, b)
    case ImportFrom(level, mod, names) => if level != 0 || mod == "" then b else BindFrom(mod, names, b)
    case If(test, body, orelse) =>
      if IsFalseGuard(test) then BodyBinds(orelse, b) else BodyBinds(orelse, BodyBinds(body, b))
    case Loop(_, _, body, orelse) => BodyBinds(orelse, BodyBinds(body, b))
    case Try(body, handlers, orelse, finalbody) =>
      BodyBinds(finalbody, BodyBinds(orelse, HandlersBinds(handlers, BodyBinds(body, b))))
    case With(_, body) => BodyBinds(body, b)
    case ClassDef(_, _, body) => BodyBinds(body, b)
  }

  function HandlersBinds(hs: seq<Handler>, b: Bindings): Bindings
    decreases hs, 0
  {
    if hs == [] then b else HandlersBinds(hs[1..], HandlerBinds(hs[0], b))
  }

  function HandlerBinds(h: Handler, b: Bindings): Bindings
    decreases h, 1
  {
    BodyBinds(h.body, b)
  }

  function BodyBinds(body: seq<Stmt>, b: Bindings): Bindings
    decreases body, 0
  {
    if body == [] then b else BodyBinds(body[1..], StmtBinds(body[0], b))
  }

  lemma Regrouped(start: seq<nat>, a: seq<nat>, b: seq<nat>, c: seq<nat>, d: seq<nat>)
    ensures start + a + b + (c + d) == start + (a + b + c + d)
  {
  }

  // ----- the visitor

  class Visitor {
    var calls: seq<nat>
    var bindings: Bindings

    constructor ()
      ensures calls == [] && bindings == map[]
    {
      calls, bindings := [], map[];
    }

    method VisitExpr(e: Expr)
      modifies this`calls
      ensures calls == old(calls) + ExprCalls(e)
      decreases e, 1
    {
      match e
      case Name(_) =>
      case Constant(_) =>
      case Attribute(base, _) => VisitExpr(base);
      case Call(_, _, _) => VisitCall(e);
      case Compare(_, left, comparators) =>
        VisitExpr(left);
        VisitExprs(comparators);
      case BoolOp(first, others) =>
        VisitExpr(first);
        VisitExprs(others);
      case IfExp(_, _, _) => VisitIfExp(e);
      case Lambda(defaults, _) => VisitExprs(defaults);
      case Comprehension(parts) => VisitExprs(parts);
      case Dict(_) => VisitDict(e);
      case Operands(parts) => VisitExprs(parts);
    }

    method VisitCall(e: Expr)
      requires e.Call?
      modifies this`calls
      ensures calls == old(calls) + ExprCalls(e)
      decreases e, 0
    {
      calls := calls + [e.node];
      VisitExpr(e.func);
      VisitArguments(e.args);
    }

    /** Positional arguments, then named ones, as the fields of the node stand. */
    method VisitArguments(args: Arguments)
      modifies this`calls
      ensures calls == old(calls) + ArgumentsCalls(args)
      decreases args, 2
    {
      VisitExprs(args.positional);
      VisitExprs(args.named);
    }

    method VisitIfExp(e: Expr)
      requires e.IfExp?
      modifies this`calls
      ensures calls == old(calls) + ExprCalls(e)
      decreases e, 0
    {
      VisitExpr(e.test);
      VisitExpr(e.body);
      VisitExpr(e.orelse);
    }

    /** All keys, then all values, as the fields of the node stand. */
    method VisitDict(e: Expr)
      requires e.Dict?
      modifies this`calls
      ensures calls == old(calls) + ExprCalls(e)
      decreases e, 0
    {
      VisitKeys(e.entries);
      VisitValues(e.entries);
    }

    method VisitKeys(entries: seq<Pair>)
      modifies this`calls
      ensures calls == old(calls) + KeysCalls(entries)
      decreases entries, 0
    {
      for i := 0 to |entries|
        invariant calls + KeysCalls(entries[i..]) == old(calls) + KeysCalls(entries)
      {
        assert entries[i..][1..] == entries[i + 1..];
        VisitKey(entries[i]);
      }
    }

    method VisitKey(pair: Pair)
      modifies this`calls
      ensures calls == old(calls) + KeyCalls(pair)
      decreases pair, 2
    {
      VisitExpr(pair.key);
    }

    method VisitValues(entries: seq<Pair>)
      modifies this`calls
      ensures calls == old(calls) + ValuesCalls(entries)
      decreases entries, 0
    {
      for i := 0 to |entries|
        invariant calls + ValuesCalls(entries[i..]) == old(calls) + ValuesCalls(entries)
      {
        assert entries[i..][1..] == entries[i + 1..];
        VisitValue(entries[i]);
      }
    }

    method VisitValue(pair: Pair)
      modifies this`calls
      ensures calls == old(calls) + ValueCalls(pair)
      decreases pair, 2
    {
      VisitExpr(pair.value);
    }

    method VisitExprs(es: seq<Expr>)
      modifies this`calls
      ensures calls == old(calls) + ExprsCalls(es)
      decreases es, 0
    {
      for i := 0 to |es|
        invariant calls + ExprsCalls(es[i..]) == old(calls) + ExprsCalls(es)
      {
        assert es[i..][1..] == es[i + 1..];
        VisitExpr(es[i]);
      }
    }

    method VisitImport(names: seq<Alias>)
      modifies this`bindings
      ensures bindings == BindImport(names, old(bindings))
    {
      for i := 0 to |names|
        invariant BindImport(names[i..], bindings) == BindImport(names, old(bindings))
      {
        assert names[i..][1..] == names[i + 1..];
        var a := names[i];
        if a.asname != "" {
          bindings := bindings[a.asname := a.name];
        } else {
          var top := a.name[..FirstDot(a.name)];
          bindings := bindings[top := top];
        }
      }
    }

    method VisitImportFrom(level: nat, mod: string, names: seq<Alias>)
      modifies this`bindings
      ensures bindings == if level != 0 || mod == "" then old(bindings) else BindFrom(mod, names, old(bindings))
    {
      if level != 0 || mod == "" {
        return;
      }
      for i := 0 to |names|
        invariant BindFrom(mod, names[i..], bindings) == BindFrom(mod, names, old(bindings))
      {
        assert names[i..][1..] == names[i + 1..];
        var a := names[i];
        if a.name != "*" {
          bindings := bindings[(if a.asname != "" then a.asname else a.name) := mod + "." + a.name];
        }
      }
    }

    method VisitStmt(s: Stmt)
      modifies this
      ensures calls == old(calls) + StmtCalls(s) && bindings == StmtBinds(s, old(bindings))
      decreases s, 1
    {
      match s
      case Do(parts) => VisitExprs(parts);
      case Raise(parts) => VisitExprs(parts);
      case Import(names) => VisitImport(names);
      case ImportFrom(level, mod, names) => VisitImportFrom(level, mod, names);
      case Break =>
      case Continue =>
      case If(_, _, _) => VisitIf(s);
      case Loop(_, _, _, _) => VisitLoop(s);
      case Try(_, _, _, _) => VisitTry(s);
      case With(items, body) =>
        VisitExprs(items);
        VisitBody(body);
      case FunctionDef(_, _, _) => VisitDefinitionTimeParts(s);
      case ClassDef(_, _, _) => VisitClassDef(s);
    }

    method VisitIf(s: Stmt)
      requires s.If?
      modifies this
      ensures calls == old(calls) + StmtCalls(s) && bindings == StmtBinds(s, old(bindings))
      decreases s, 0
    {
      if !IsFalseGuard(s.test) {
        VisitExpr(s.test);
        VisitBody(s.body);
      }
      VisitBody(s.orelse);
    }

    method VisitLoop(s: Stmt)
      requires s.Loop?
      modifies this
      ensures calls == old(calls) + StmtCalls(s) && bindings == StmtBinds(s, old(bindings))
      decreases s, 0, 1
    {
      ghost var start := calls;
      VisitExprs(s.head);
      VisitExprs(s.before);
      VisitLoopBodies(s);
      Regrouped(start, ExprsCalls(s.head), ExprsCalls(s.before), BodyCalls(s.body), BodyCalls(s.orelse));
    }

    method VisitLoopBodies(s: Stmt)
      requires s.Loop?
      modifies this
      ensures calls == old(calls) + (BodyCalls(s.body) + BodyCalls(s.orelse))
      ensures bindings == BodyBinds(s.orelse, BodyBinds(s.body, old(bindings)))
      decreases s, 0, 0
    {
      VisitBody(s.body);
      VisitBody(s.orelse);
    }

    method VisitTry(s: Stmt)
      requires s.Try?
      modifies this
      ensures calls == old(calls) + StmtCalls(s) && bindings == StmtBinds(s, old(bindings))
      decreases s, 0, 1
    {
      ghost var start := calls;
      VisitBody(s.body);
      VisitHandlers(s.handlers);
      VisitTryEnd(s);
      Regrouped(start, BodyCalls(s.body), HandlersCalls(s.handlers), BodyCalls(s.orelse), BodyCalls(s.finalbody));
    }

    method VisitTryEnd(s: Stmt)
      requires s.Try?
      modifies this
      ensures calls == old(calls) + (BodyCalls(s.orelse) + BodyCalls(s.finalbody))
      ensures bindings == BodyBinds(s.finalbody, BodyBinds(s.orelse, old(bindings)))
      decreases s, 0, 0
    {
      VisitBody(s.orelse);
      VisitBody(s.finalbody);
    }

    method VisitDefinitionTimeParts(s: Stmt)
      requires s.FunctionDef?
      modifies this
      ensures calls == old(calls) + StmtCalls(s) && bindings == StmtBinds(s, old(bindings))
      decreases s, 0
    {
      VisitExprs(s.decorators);
      VisitExprs(s.defaults);
    }

    method VisitClassDef(s: Stmt)
      requires s.ClassDef?
      modifies this
      ensures calls == old(calls) + StmtCalls(s) && bindings == StmtBinds(s, old(bindings))
      decreases s, 0
    {
      VisitArguments(s.bases);
      VisitBody(s.body);
      VisitExprs(s.decorators);
    }

    method VisitHandlers(hs: seq<Handler>)
      modifies this
      ensures calls == old(calls) + HandlersCalls(hs) && bindings == HandlersBinds(hs, old(bindings))
      decreases hs, 0
    {
      for i := 0 to |hs|
        invariant calls + HandlersCalls(hs[i..]) == old(calls) + HandlersCalls(hs)
        invariant HandlersBinds(hs[i..], bindings) == HandlersBinds(hs, old(bindings))
      {
        assert hs[i..][1..] == hs[i + 1..];
        VisitHandler(hs[i]);
      }
    }

    method VisitHandler(h: Handler)
      modifies this
      ensures calls == old(calls) + HandlerCalls(h) && bindings == HandlerBinds(h, old(bindings))
      decreases h, 1
    {
      VisitExprs(h.types);
      VisitBody(h.body);
    }

    method VisitBody(body: seq<Stmt>)
      modifies this
      ensures calls == old(calls) + BodyCalls(body) && bindings == BodyBinds(body, old(bindings))
      decreases body, 0
    {
      for i := 0 to |body|
        invariant calls + BodyCalls(body[i..]) == old(calls) + BodyCalls(body)
        invariant BodyBinds(body[i..], bindings) == BodyBinds(body, old(bindings))
      {
        assert body[i..][1..] == body[i + 1..];
        VisitStmt(body[i]);
      }
    }
  }

  // ----- the I/O scan

  /** The call's callee, resolved through the module's own imports. */
  function Resolved(func: Expr, bindings: Bindings): Option<string> {
    if Chain(func).None? then None
    else
      var dotted := Join(Chain(func).value);
      var root := dotted[..FirstDot(dotted)];
      if root !in bindings then None
      else
        var rest := if FirstDot(dotted) == |dotted| then "" else dotted[FirstDot(dotted) + 1..];
        Some(if rest != "" then bindings[root] + "." + rest else bindings[root])
  }

  ghost predicate IsIo(func: Expr, bindings: Bindings, modules: seq<string>) {
    var resolved := Resolved(func, bindings);
    resolved.Some? && Matches(resolved.value, modules)
  }

  /** The calls whose flag is set, in the order given. */
  function Flagged(calls: seq<nat>, flags: seq<bool>): seq<nat>
    requires |calls| == |flags|
  {
    if calls == [] then []
    else
      var k := |calls| - 1;
      Flagged(calls[..k], flags[..k]) + (if flags[k] then [calls[k]] else [])
  }

  method ResolveCall(func: Expr, bindings: Bindings) returns (resolved: Option<string>)
    ensures resolved == Resolved(func, bindings)
  {
    var dotted := DottedCallName(func);
    if dotted.None? {
      return None;
    }
    var dot := FirstDot(dotted.value);
    var root, rest := dotted.value[..dot], if dot == |dotted.value| then "" else dotted.value[dot + 1..];
    if root !in bindings {
      return None;
    }
    return Some(if rest != "" then bindings[root] + "." + rest else bindings[root]);
  }

  /** `io` decides what `IsIo` does, for every callee. */
  ghost predicate Decides(io: Expr -> bool, bindings: Bindings, modules: seq<string>) {
    forall e {:trigger IsIo(e, bindings, modules)} :: io(e) == IsIo(e, bindings, modules)
  }

  method IsIoCall(func: Expr, bindings: Bindings, modules: seq<string>, ghost io: Expr -> bool) returns (found: bool)
    requires Decides(io, bindings, modules)
    ensures found == io(func)
  {
    var resolved := ResolveCall(func, bindings);
    assert io(func) == IsIo(func, bindings, modules);
    if resolved.None? {
      return false;
    }
    found := ModuleMatches(resolved.value, modules);
  }

  /** `findings` are the calls that `io` tells, in order. */
  ghost predicate Picks(calls: seq<nat>, callee: nat -> Expr, io: Expr -> bool, findings: seq<nat>) {
    exists flags :: |flags| == |calls| && findings == Flagged(calls, flags) && FlagsTell(calls, callee, io, flags)
  }

  ghost predicate FlagsTell(calls: seq<nat>, callee: nat -> Expr, io: Expr -> bool, flags: seq<bool>)
    requires |flags| <= |calls|
  {
    forall i :: 0 <= i < |flags| ==> flags[i] == io(callee(calls[i]))
  }

  ghost function IoUnder(bindings: Bindings, modules: seq<string>): Expr -> bool {
    e => IsIo(e, bindings, modules)
  }

  /** The findings are the recorded calls that are I/O calls under the module's final import
      bindings, in the order of the walk. */
  method FindIoCalls(module_: seq<Stmt>, callee: nat -> Expr, modules: seq<string>) returns (findings: seq<nat>)
    ensures Picks(BodyCalls(module_), callee, IoUnder(BodyBinds(module_, map[]), modules), findings)
  {
    var visitor := new Visitor();
    visitor.VisitBody(module_);
    assert visitor.calls == BodyCalls(module_);
    findings := ScanCalls(visitor.calls, callee, visitor.bindings, modules, IoUnder(visitor.bindings, modules));
  }

  method ScanCalls(calls: seq<nat>, callee: nat -> Expr, bindings: Bindings, modules: seq<string>,
                   ghost io: Expr -> bool)
    returns (findings: seq<nat>)
    requires Decides(io, bindings, modules)
    ensures Picks(calls, callee, io, findings)
  {
    findings := [];
    ghost var flags: seq<bool> := [];
    for i := 0 to |calls|
      invariant |flags| == i && findings == Flagged(calls[..i], flags)
      invariant FlagsTell(calls, callee, io, flags)
    {
      var found := IsIoCall(callee(calls[i]), bindings, modules, io);
      FlaggedMore(calls, i, flags, found);
      flags := flags + [found];
      if found {
        findings := findings + [calls[i]];
      }
    }
    assert calls[..|calls|] == calls;
  }

  lemma FlaggedMore(calls: seq<nat>, i: nat, flags: seq<bool>, found: bool)
    requires i < |calls| && |flags| == i
    ensures Flagged(calls[..i + 1], flags + [found]) == Flagged(calls[..i], flags) + (if found then [calls[i]] else [])
  {
    assert calls[..i + 1][..i] == calls[..i] && (flags + [found])[..i] == flags;
  }

  predicate IsIdentifier(s: string) {
    s != "" && NoDot(s)
  }

  /** The names of an attribute chain have no dot in them: they are identifiers. */
  predicate NamesIdentifiers(func: Expr) {
    Chain(func).Some? ==> forall p :: p in Chain(func).value ==> IsIdentifier(p)
  }

  /** Some configured module's components begin those of the import followed by the chain. */
  ghost predicate UnderModule(parts: seq<string>, bindings: Bindings, modules: seq<string>)
    requires parts != []
  {
    parts[0] in bindings && exists i :: 0 <= i < |modules| &&
                                        Split(modules[i]) <= Split(bindings[parts[0]]) + parts[1..]
  }

  /** A callee is an I/O call exactly when it is an attribute chain on an imported name that
      stands under a configured module. */
  lemma IoCallsExactly(func: Expr, bindings: Bindings, modules: seq<string>)
    requires NamesIdentifiers(func)
    ensures Chain(func).Some? ==> Chain(func).value != []
    ensures IsIo(func, bindings, modules) <==> Chain(func).Some? && UnderModule(Chain(func).value, bindings, modules)
  {
    ChainNotEmpty(func);
    if Chain(func).Some? {
      IoChains(func, Chain(func).value, bindings, modules);
    }
  }

  lemma IoChains(func: Expr, parts: seq<string>, bindings: Bindings, modules: seq<string>)
    requires Chain(func) == Some(parts) && parts != [] && forall p :: p in parts ==> IsIdentifier(p)
    ensures IsIo(func, bindings, modules) <==> UnderModule(parts, bindings, modules)
  {
    ResolvedParts(func, parts, bindings);
    var resolved := Resolved(func, bindings);
    if parts[0] in bindings {
      forall i | 0 <= i < |modules|
        ensures OwnedBy(resolved.value, modules[i]) <==> Split(modules[i]) <= Split(bindings[parts[0]]) + parts[1..]
      {
        OwnedByComponents(resolved.value, modules[i]);
      }
    }
  }

  lemma {:induction false} SplitJoin(parts: seq<string>)
    requires parts != [] && forall p :: p in parts ==> IsIdentifier(p)
    ensures Split(Join(parts)) == parts && Join(parts) != ""
  {
    assert parts[0] in parts;
    if |parts| > 1 {
      SplitJoin(parts[1..]);
      SplitAppended(parts[0], Join(parts[1..]));
      assert parts == [parts[0]] + parts[1..];
    }
  }

  lemma {:induction false} ChainNotEmpty(e: Expr)
    ensures Chain(e).Some? ==> Chain(e).value != []
  {
  }

  lemma ResolvedParts(func: Expr, parts: seq<string>, bindings: Bindings)
    requires Chain(func) == Some(parts) && forall p :: p in parts ==> IsIdentifier(p)
    ensures parts != [] && (Resolved(func, bindings).Some? <==> parts[0] in bindings)
    ensures parts[0] in bindings ==> Split(Resolved(func, bindings).value) == Split(bindings[parts[0]]) + parts[1..]
  {
    ChainNotEmpty(func);
    assert parts[0] in parts;
    var dotted := Join(parts);
    if |parts| == 1 {
      assert dotted == parts[0] && dotted[..FirstDot(dotted)] == dotted;
      assert parts[1..] == [];
    } else {
      SplitJoin(parts[1..]);
      FirstDotAppended(parts[0], Join(parts[1..]));
      assert dotted == parts[0] + "." + Join(parts[1..]);
      assert dotted[..FirstDot(dotted)] == parts[0] && dotted[FirstDot(dotted) + 1..] == Join(parts[1..]);
      if parts[0] in bindings {
        SplitAppended(bindings[parts[0]], Join(parts[1..]));
      }
    }
  }
}
