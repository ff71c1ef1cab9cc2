/** What the imports of a Dag file make of the names it calls, and what a factory function reports
    (versioninflation.py). */
module DagNames {
  import opened Prelude
  import opened DagSyntax
  import opened VaryingAnalyzer
  import opened DagArgsVisitor
  import opened DagReport
  import opened DagReplay
  import opened DagFindings
  import opened Ordering

  // ----- imports

  function ModuleName(alias: ModuleAlias): Dotted {
    match alias.asName case Some(name) => [name] case None => alias.name
  }

  function LastModule(modules: seq<ModuleAlias>, name: Dotted): (i: int)
    ensures -1 <= i < |modules|
    ensures i >= 0 ==> ModuleName(modules[i]) == name
    ensures forall k :: i < k < |modules| ==> ModuleName(modules[k]) != name
  {
    if modules == [] then -1
    else
      var rest := LastModule(modules[1..], name);
      if rest >= 0 then rest + 1 else if ModuleName(modules[0]) == name then 0 else -1
  }

  function LastMember(members: seq<MemberAlias>, name: string): (i: int)
    ensures -1 <= i < |members|
    ensures i >= 0 ==> MemberName(members[i]) == name
    ensures forall k :: i < k < |members| ==> MemberName(members[k]) != name
  {
    if members == [] then -1
    else
      var rest := LastMember(members[1..], name);
      if rest >= 0 then rest + 1 else if MemberName(members[0]) == name then 0 else -1
  }

  /** Of several aliases with one name the last counts; a name that no alias binds keeps its meaning. */
  lemma {:induction false} LastModuleCounts(modules: seq<ModuleAlias>, imports: map<Dotted, Dotted>, name: Dotted)
    ensures var i := LastModule(modules, name);
            LookUp(RecordModules(modules, imports), name) ==
            if i < 0 then LookUp(imports, name) else Some(modules[i].name)
  {
    if modules != [] {
      LastModuleCounts(modules[1..], imports[ModuleName(modules[0]) := modules[0].name], name);
    }
  }

  lemma {:induction false} LastMemberCounts(
    path: Dotted, members: seq<MemberAlias>, fromImports: map<string, (Dotted, string)>, name: string)
    ensures var i := LastMember(members, name);
            LookUp(RecordMembers(path, members, fromImports), name) ==
            if i < 0 then LookUp(fromImports, name) else Some((path, members[i].name))
  {
    if members != [] {
      LastMemberCounts(path, members[1..], fromImports[MemberName(members[0]) := (path, members[0].name)], name);
    }
  }

  predicate NamesADag(name: string) {
    name == "DAG" || name == "dag"
  }

  /** After `from path import member as name`: what calls of `name` and of `name.attr` are. */
  lemma MemberImported(path: Dotted, member: string, name: string, attr: string, call: CallNode, place: Place)
    ensures var b := After(ImportFrom(Some(path), [MemberAlias(member, Some(name))]), place).b;
            && (call.func == Name(name) ==>
                  && (IsDagConstructor(call, b) <==> path[0] == "airflow" && NamesADag(member))
                  && (IsRuntimeVaryingCall(call.func, b) <==>
                      exists part :: part in path && (part, member) in RUNTIME_VARYING_CALLS))
            && (call.func == Attribute(Name(name), attr) ==>
                  && (IsDagConstructor(call, b) <==> path[0] == "airflow" && NamesADag(attr))
                  && (IsRuntimeVaryingCall(call.func, b) <==> (member, attr) in RUNTIME_VARYING_CALLS))
  {
    LastMemberCounts(path, [MemberAlias(member, Some(name))], place.b.fromImports, name);
  }

  /** After `import path as name`, for a name that no from-import binds: what calls of `name.attr` are. */
  lemma ModuleImported(path: Dotted, name: string, attr: string, call: CallNode, place: Place)
    requires name !in place.b.fromImports && call.func == Attribute(Name(name), attr)
    ensures var b := After(Import([ModuleAlias(path, Some(name))]), place).b;
            && !IsDagConstructor(call, b)
            && (IsRuntimeVaryingCall(call.func, b) <==> |path| == 1 && (path[0], attr) in RUNTIME_VARYING_CALLS)
  {
    LastModuleCounts([ModuleAlias(path, Some(name))], place.b.imports, [name]);
  }

  // ----- task names

  function Segments(node: Expr): seq<string> {
    match node
    case Name(id) => [id]
    case Attribute(value, attr) => Segments(value) + [attr]
    case _ => []
  }

  /** The letters are the same but for their case; `lower` is a lower-case one. */
  predicate SameLetter(letter: char, lower: char) {
    letter == lower || ('A' <= letter <= 'Z' && letter as int + 32 == lower as int)
  }

  predicate EndsInLetters(name: string, suffix: string) {
    && |suffix| <= |name|
    && forall k :: 0 <= k < |suffix| ==> SameLetter(name[|name| - |suffix| + k], suffix[k])
  }

  predicate HasTaskEnding(name: string) {
    EndsInLetters(name, "operator") || EndsInLetters(name, "task") || EndsInLetters(name, "sensor")
  }

  lemma EndingIgnoresCase(name: string, suffix: string)
    requires forall c :: c in suffix ==> 'a' <= c <= 'z'
    ensures EndsWith(Lower(name), suffix) <==> EndsInLetters(name, suffix)
  {
    var lowered := Lower(name);
    if |suffix| <= |name| {
      var start := |name| - |suffix|;
      assert forall k :: 0 <= k < |suffix| ==> suffix[k] in suffix;
      assert forall k :: 0 <= k < |suffix| ==> lowered[start..][k] == lowered[start + k];
      if EndsInLetters(name, suffix) {
        assert forall k :: 0 <= k < |suffix| ==> lowered[start + k] == suffix[k];
        assert lowered[start..] == suffix;
      }
    }
  }

  /** A name or attribute chain is a task's exactly when a segment of it ends so, in any case. */
  lemma {:induction false} TaskNamedExactly(node: Expr)
    ensures IsTaskNamed(node) <==> exists name :: name in Segments(node) && HasTaskEnding(name)
  {
    match node
    case Name(id) => TaskEndingExactly(id);
    case Attribute(value, attr) =>
      TaskEndingExactly(attr);
      TaskNamedExactly(value);
    case _ =>
  }

  lemma TaskEndingExactly(name: string)
    ensures IsTaskFunctionName(name) <==> HasTaskEnding(name)
  {
  }

  // ----- factories

  lemma {:induction false} VisitsJoined(first: seq<Stmt>, second: seq<Stmt>, place: Place)
    ensures AfterAll(first + second, place) == AfterAll(second, AfterAll(first, place))
    ensures Visits(first + second, place) == Visits(first, place) + Visits(second, AfterAll(first, place))
  {
    if first == [] {
      assert first + second == second;
    } else {
      assert (first + second)[1..] == first[1..] + second;
      VisitsJoined(first[1..], second, After(first[0], place));
    }
  }

  /** No finding is made, and no function called that has one kept. */
  predicate Quiet(visits: seq<Visit>, kept: set<string>) {
    forall i :: 0 <= i < |visits| ==>
                  !IsFound(visits[i])
                  && !(visits[i].role.Stated? && visits[i].call.func.Name? && visits[i].call.func.id in kept)
  }

  lemma {:induction false} QuietReplay(visits: seq<Visit>, notes: Notes)
    requires Quiet(visits, notes.deferred.Keys)
    ensures Replay(visits, notes) == notes
  {
    if visits != [] {
      QuietReplay(visits[1..], notes);
    }
  }

  /** One finding, made in the function. */
  lemma OneParked(visits: seq<Visit>, i: nat, name: string, finding: Finding)
    requires i < |visits| && name != "" && visits[i].place.factory == Some(name) && Describes(finding, visits[i])
    requires Quiet(visits[..i], {}) && Quiet(visits[i + 1..], {name})
    ensures Replay(visits, NOTHING) == Notes([], map[name := finding])
  {
    assert visits == visits[..i] + ([visits[i]] + visits[i + 1..]);
    QuietReplay(visits[..i], NOTHING);
    ReplayJoined(visits[..i], [visits[i]] + visits[i + 1..], NOTHING);
    assert ([visits[i]] + visits[i + 1..])[1..] == visits[i + 1..];
    var kept := Notes([], map[name := finding]);
    assert Noted(visits[i], Surfaced(visits[i], NOTHING)) == kept;
    QuietReplay(visits[i + 1..], kept);
  }

  lemma DefinitionVisits(name: string, body: seq<Stmt>, place: Place)
    ensures Visits([FunctionDef(name, [], body)], place) == Visits(body, place.(factory := Some(name)))
    ensures AfterAll([FunctionDef(name, [], body)], place).factory == None
  {
  }

  /** A file that defines one undecorated function with one finding in it reports nothing; followed
      by a bare call of the function, it reports that finding. */
  lemma FactoryReported(header: seq<Stmt>, name: string, body: seq<Stmt>, use: CallNode, i: nat, finding: Finding)
    requires Quiet(Visits(header, START), {}) && name != ""
    requires var visits := Visits(body, AfterAll(header, START).(factory := Some(name)));
             && i < |visits| && visits[i].place.factory == Some(name) && Describes(finding, visits[i])
             && Quiet(visits[..i], {}) && Quiet(visits[i + 1..], {name})
    requires use.func == Name(name) && use.args == [] && use.keywords == []
    ensures var factory := header + [FunctionDef(name, [], body)];
            && FindRuntimeVaryingDagArgs(factory) == []
            && FindRuntimeVaryingDagArgs(factory + [Bare(use)]) == [finding]
  {
    var definition := [FunctionDef(name, [], body)];
    var factory := header + definition;
    var place := AfterAll(header, START);
    VisitsJoined(header, definition, START);
    DefinitionVisits(name, body, place);
    var visits := Visits(definition, place);
    QuietReplay(Visits(header, START), NOTHING);
    OneParked(visits, i, name, finding);
    ReplayJoined(Visits(header, START), visits, NOTHING);
    BodyReplays(factory, START, NOTHING);
    BareCall(factory, name, use, finding);
  }

  lemma SortOne<T>(x: T, leq: (T, T) -> bool)
    ensures Sort([x], leq) == [x]
  {
  }

  lemma BareCall(factory: seq<Stmt>, name: string, use: CallNode, finding: Finding)
    requires Replay(Visits(factory, START), NOTHING) == Notes([], map[name := finding])
    requires use.func == Name(name) && use.args == [] && use.keywords == []
    requires AfterAll(factory, START).factory == None
    ensures FindRuntimeVaryingDagArgs(factory + [Bare(use)]) == [finding]
  {
    var place := AfterAll(factory, START);
    var visit := Visit(use, Stated, place);
    VisitsJoined(factory, [Bare(use)], START);
    assert [Bare(use)][1..] == [];
    assert Visits([Bare(use)], place) == [visit];
    assert GetVaryingArgument(use, place.b) == None;
    assert !IsFound(visit);
    ReplayJoined(Visits(factory, START), [visit], NOTHING);
    var kept := Notes([], map[name := finding]);
    assert Replay([visit], kept) == Noted(visit, Surfaced(visit, kept));
    BodyReplays(factory + [Bare(use)], START, NOTHING);
    SortOne(finding, FindingLeq);
    assert VisitBody(factory + [Bare(use)], INITIAL_STATE).findings == [finding];
  }
}
