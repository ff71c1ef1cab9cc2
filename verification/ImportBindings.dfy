/** What the import-time scan takes each name for: the last import of it that the walk reaches
    (`antipatterns.py`: `visit_Import`, `visit_ImportFrom`, `visit_If`). */
module ImportBindings {
  import opened Prelude
  import opened ImportTime
  import opened ImportScan

  /** A name, and the dotted path that it stands for. */
  datatype Bound = Bound(name: string, path: string)

  /** `import a.b` binds `a`, and `import a.b as c` binds `c` to all of `a.b`. */
  function ModuleBound(alias: Alias): Bound {
    if alias.asname != "" then Bound(alias.asname, alias.name)
    else Bound(Split(alias.name)[0], Split(alias.name)[0])
  }

  function ModuleBounds(names: seq<Alias>): seq<Bound> {
    seq(|names|, i requires 0 <= i < |names| => ModuleBound(names[i]))
  }

  /** A star binds nothing that the scan knows. */
  function MemberBound(mod: string, alias: Alias): seq<Bound> {
    if alias.name == "*" then []
    else [Bound(if alias.asname == "" then alias.name else alias.asname, mod + "." + alias.name)]
  }

  function MemberBounds(mod: string, names: seq<Alias>): seq<Bound> {
    if names == [] then [] else MemberBound(mod, names[0]) + MemberBounds(mod, names[1..])
  }

  /** The imports reached from a statement, in order: those of functions run later, those under a false
      guard never; relative ones are not followed. */
  function StmtBounds(s: Stmt): seq<Bound>
    decreases s, 1
  {
    match s
    case Import(names) => ModuleBounds(names)
    case ImportFrom(level, mod, names) => if level == 0 && mod != "" then MemberBounds(mod, names) else []
    case If(test, body, orelse) => (if IsFalseGuard(test) then [] else BodyBounds(body)) + BodyBounds(orelse)
    case Loop(_, _, body, orelse) => BodyBounds(body) + BodyBounds(orelse)
    case Try(body, handlers, orelse, finalbody) =>
      BodyBounds(body) + HandlersBounds(handlers) + BodyBounds(orelse) + BodyBounds(finalbody)
    case With(_, body) => BodyBounds(body)
    case ClassDef(_, _, body) => BodyBounds(body)
    case _ => []
  }

  function HandlersBounds(hs: seq<Handler>): seq<Bound>
    decreases hs, 0
  {
    if hs == [] then [] else HandlerBounds(hs[0]) + HandlersBounds(hs[1..])
  }

  function HandlerBounds(h: Handler): seq<Bound>
    decreases h, 1
  {
    BodyBounds(h.body)
  }

  function BodyBounds(body: seq<Stmt>): seq<Bound>
    decreases body, 0
  {
    if body == [] then [] else StmtBounds(body[0]) + BodyBounds(body[1..])
  }

  /** The path of the last of these imports that binds the name, or what it stood for before. */
  function LastPath(bounds: seq<Bound>, name: string, before: Option<string>): Option<string> {
    if bounds == [] then before
    else
      var last := bounds[|bounds| - 1];
      if last.name == name then Some(last.path) else LastPath(bounds[..|bounds| - 1], name, before)
  }

  lemma {:induction false} LastJoined(first: seq<Bound>, second: seq<Bound>, name: string, before: Option<string>)
    ensures LastPath(first + second, name, before) == LastPath(second, name, LastPath(first, name, before))
  {
    if second == [] {
      assert first + second == first;
    } else {
      assert (first + second)[..|first + second| - 1] == first + second[..|second| - 1];
      LastJoined(first, second[..|second| - 1], name, before);
    }
  }

  lemma FirstPart(name: string)
    ensures Split(name)[0] == name[..FirstDot(name)]
  {
  }

  lemma {:induction false} ImportBinds(names: seq<Alias>, b: Bindings, name: string)
    ensures LookUp(BindImport(names, b), name) == LastPath(ModuleBounds(names), name, LookUp(b, name))
  {
    if names != [] {
      var bound := ModuleBound(names[0]);
      FirstPart(names[0].name);
      ImportBinds(names[1..], b[bound.name := bound.path], name);
      assert ModuleBounds(names) == [bound] + ModuleBounds(names[1..]);
      LastJoined([bound], ModuleBounds(names[1..]), name, LookUp(b, name));
      assert [bound][..0] == [];
    }
  }

  lemma MemberBinds(mod: string, a: Alias, b: Bindings, name: string)
    ensures LookUp(if a.name == "*" then b else b[(if a.asname != "" then a.asname else a.name) := mod + "." + a.name],
                   name) ==
            LastPath(MemberBound(mod, a), name, LookUp(b, name))
  {
  }

  lemma {:induction false} MembersBind(mod: string, names: seq<Alias>, b: Bindings, name: string)
    ensures LookUp(BindFrom(mod, names, b), name) == LastPath(MemberBounds(mod, names), name, LookUp(b, name))
  {
    if names != [] {
      var a := names[0];
      var bound := if a.name == "*" then b else b[(if a.asname != "" then a.asname else a.name) := mod + "." + a.name];
      MemberBinds(mod, a, b, name);
      MembersBind(mod, names[1..], bound, name);
      LastJoined(MemberBound(mod, a), MemberBounds(mod, names[1..]), name, LookUp(b, name));
    }
  }

  lemma {:induction false} StmtBindsLast(s: Stmt, b: Bindings, name: string)
    ensures LookUp(StmtBinds(s, b), name) == LastPath(StmtBounds(s), name, LookUp(b, name))
    decreases s, 1
  {
    var before := LookUp(b, name);
    match s
    case Import(names) => ImportBinds(names, b, name);
    case ImportFrom(_, mod, names) => MembersBind(mod, names, b, name);
    case If(test, body, orelse) =>
      if IsFalseGuard(test) {
        BodyBindsLast(orelse, b, name);
        assert StmtBounds(s) == BodyBounds(orelse);
      } else {
        BodyBindsLast(body, b, name);
        BodyBindsLast(orelse, BodyBinds(body, b), name);
        LastJoined(BodyBounds(body), BodyBounds(orelse), name, before);
      }
    case Loop(_, _, body, orelse) =>
      BodyBindsLast(body, b, name);
      BodyBindsLast(orelse, BodyBinds(body, b), name);
      LastJoined(BodyBounds(body), BodyBounds(orelse), name, before);
    case Try(_, _, _, _) => TryBindsLast(s, b, name);
    case With(_, body) => BodyBindsLast(body, b, name);
    case ClassDef(_, _, body) => BodyBindsLast(body, b, name);
    case _ =>
  }

  lemma {:induction false} TryBindsLast(s: Stmt, b: Bindings, name: string)
    requires s.Try?
    ensures LookUp(StmtBinds(s, b), name) == LastPath(StmtBounds(s), name, LookUp(b, name))
    decreases s, 0
  {
    var before := LookUp(b, name);
    var tried := BodyBinds(s.body, b);
    var handled := HandlersBinds(s.handlers, tried);
    var first, second := BodyBounds(s.body), HandlersBounds(s.handlers);
    BodyBindsLast(s.body, b, name);
    HandlersBindLast(s.handlers, tried, name);
    BodyBindsLast(s.orelse, handled, name);
    BodyBindsLast(s.finalbody, BodyBinds(s.orelse, handled), name);
    LastJoined(first, second, name, before);
    LastJoined(first + second, BodyBounds(s.orelse), name, before);
    LastJoined(first + second + BodyBounds(s.orelse), BodyBounds(s.finalbody), name, before);
  }

  lemma {:induction false} HandlersBindLast(hs: seq<Handler>, b: Bindings, name: string)
    ensures LookUp(HandlersBinds(hs, b), name) == LastPath(HandlersBounds(hs), name, LookUp(b, name))
    decreases hs, 0
  {
    if hs != [] {
      HandlerBindsLast(hs[0], b, name);
      HandlersBindLast(hs[1..], HandlerBinds(hs[0], b), name);
      LastJoined(HandlerBounds(hs[0]), HandlersBounds(hs[1..]), name, LookUp(b, name));
    }
  }

  lemma {:induction false} HandlerBindsLast(h: Handler, b: Bindings, name: string)
    ensures LookUp(HandlerBinds(h, b), name) == LastPath(HandlerBounds(h), name, LookUp(b, name))
    decreases h, 1
  {
    BodyBindsLast(h.body, b, name);
  }

  /** A name stands for what the last import of it reached says. */
  lemma {:induction false} BodyBindsLast(body: seq<Stmt>, b: Bindings, name: string)
    ensures LookUp(BodyBinds(body, b), name) == LastPath(BodyBounds(body), name, LookUp(b, name))
    decreases body, 0
  {
    if body != [] {
      StmtBindsLast(body[0], b, name);
      BodyBindsLast(body[1..], StmtBinds(body[0], b), name);
      LastJoined(StmtBounds(body[0]), BodyBounds(body[1..]), name, LookUp(b, name));
    }
  }

  /** After a file `func` is an I/O call exactly when it is an attribute chain whose root name the
      file imports, and the import's path followed by the rest of the chain lies under a configured module. */
  lemma IoCallsOfImports(body: seq<Stmt>, func: Expr, modules: seq<string>)
    requires NamesIdentifiers(func)
    ensures IsIo(func, BodyBinds(body, map[]), modules) <==>
            Chain(func).Some? && Chain(func).value != []
            && var parts := Chain(func).value;
            var path := LastPath(BodyBounds(body), parts[0], None);
            path.Some? && exists i :: 0 <= i < |modules| && Split(modules[i]) <= Split(path.value) + parts[1..]
  {
    IoCallsExactly(func, BodyBinds(body, map[]), modules);
    if Chain(func).Some? {
      BodyBindsLast(body, map[], Chain(func).value[0]);
    }
  }

  // ----- the guards

  /** Which names and attributes are true, and the text of each name. */
  datatype World = World(truth: string -> bool, text: string -> string)

  /** While a Dag file loads it is not the main module, and nothing checks types. */
  predicate IsLoading(world: World) {
    !world.truth("TYPE_CHECKING") && world.text("__name__") != "__main__"
  }

  /** A name or attribute, or one name compared for equality with one constant. */
  predicate IsPlainTest(test: Expr) {
    || test.Name? || test.Attribute?
    || (test.Compare? && test.equality && |test.comparators| == 1
        && ((test.left.Name? && test.comparators[0].Constant?) || (test.left.Constant? && test.comparators[0].Name?)))
  }

  function TextIn(side: Expr, world: World): string {
    if side.Name? then world.text(side.id) else if side.Constant? then side.value else ""
  }

  predicate Holds(test: Expr, world: World)
    requires IsPlainTest(test)
  {
    match test
    case Name(id) => world.truth(id)
    case Attribute(_, attr) => world.truth(attr)
    case Compare(_, left, comparators) => TextIn(left, world) == TextIn(comparators[0], world)
  }

  /** A plain test is a false guard exactly when it is false in every world where a Dag file loads. */
  lemma GuardsExactly(test: Expr)
    requires IsPlainTest(test)
    ensures IsFalseGuard(test) <==> forall world :: IsLoading(world) ==> !Holds(test, world)
  {
    if !IsFalseGuard(test) {
      var name, constant :=
        if test.Name? then test.id else if test.Attribute? then test.attr
        else if test.left.Name? then test.left.id else test.comparators[0].id,
        if !test.Compare? then "" else if test.left.Constant? then test.left.value else test.comparators[0].value;
      var world := World(x => x == name && x != "TYPE_CHECKING", x => if x == name then constant else "");
      assert IsLoading(world) && Holds(test, world);
    }
  }
}
