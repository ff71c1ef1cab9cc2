/** The walk of a Dag file does what the calls it reaches say, one after the other. */
module DagReplay {
  import opened Prelude
  import opened DagSyntax
  import opened VaryingAnalyzer
  import opened DagArgsVisitor
  import opened DagReport

  /** What the walk has found, and what it keeps for the functions it has read. */
  datatype Notes = Notes(findings: seq<Finding>, deferred: map<string, Finding>)

  function Join(place: Place, notes: Notes): WalkState {
    WalkState(place.b, place.dags, place.inDag, place.factory, notes.findings, notes.deferred)
  }

  function FindingOf(visit: Visit): (finding: Option<Finding>)
    ensures finding.Some? <==> IsFound(visit)
    ensures forall f :: Describes(f, visit) <==> finding == Some(f)
  {
    if !IsFound(visit) then None
    else
      var line := visit.call.site.line;
      var endLine := if visit.call.site.endLine.Some? then visit.call.site.endLine.value else line;
      Some(Finding(line, endLine, GetVaryingArgument(visit.call, visit.place.b).value, Context(visit).value))
  }

  function Surfaced(visit: Visit, notes: Notes): Notes {
    if visit.role.Stated? && visit.call.func.Name? && visit.call.func.id in notes.deferred
       && notes.deferred[visit.call.func.id] !in notes.findings
    then notes.(findings := notes.findings + [notes.deferred[visit.call.func.id]])
    else notes
  }

  function Noted(visit: Visit, notes: Notes): Notes {
    var finding := FindingOf(visit);
    if finding.None? then notes
    else if Truthy(visit.place.factory)
    then notes.(deferred := notes.deferred[visit.place.factory.value := finding.value])
    else notes.(findings := notes.findings + [finding.value])
  }

  function Replay(visits: seq<Visit>, notes: Notes): Notes {
    if visits == [] then notes
    else
      Replay(visits[1..], Noted(visits[0], Surfaced(visits[0], notes)))
  }

  lemma {:induction false} ReplayJoined(first: seq<Visit>, second: seq<Visit>, notes: Notes)
    ensures Replay(first + second, notes) == Replay(second, Replay(first, notes))
  {
    if first == [] {
      assert first + second == second;
    } else {
      assert (first + second)[1..] == first[1..] + second;
      ReplayJoined(first[1..], second, Noted(first[0], Surfaced(first[0], notes)));
    }
  }

  lemma CallsAlike(call: CallNode, place: Place, notes: Notes)
    ensures var visit := Visit(call, Stated, place);
            VisitCall(call, Join(place, notes)) == Join(place, Noted(visit, Surfaced(visit, notes)))
  {
  }

  lemma ChecksAlike(call: CallNode, role: Role, place: Place, notes: Notes, context: VaryingContext)
    requires !context.TaskInDagBlock?
    requires Context(Visit(call, role, place)) ==
             Some(if context.TaskConstructor? && place.inDag then TaskInDagBlock else context)
    ensures CheckAndRecord(call, context, Join(place, notes)) == Join(place, Noted(Visit(call, role, place), notes))
  {
  }

  lemma {:induction false} VisitCallsReplays(calls: seq<CallNode>, place: Place, notes: Notes)
    ensures VisitCalls(calls, Join(place, notes)) == Join(place, Replay(StatedAt(calls, place), notes))
  {
    if calls != [] {
      var visit := Visit(calls[0], Stated, place);
      CallsAlike(calls[0], place, notes);
      assert StatedAt(calls, place)[1..] == StatedAt(calls[1..], place);
      VisitCallsReplays(calls[1..], place, Noted(visit, Surfaced(visit, notes)));
    }
  }

  // ----- the calls of an expression

  lemma {:induction false} FlatOuter(nodes: seq<Expr>, parts: seq<seq<CallNode>>)
    requires |parts| == |nodes| && forall i :: 0 <= i < |nodes| ==> parts[i] == Outer(nodes[i])
    ensures Flat(parts) == OuterAll(nodes)
  {
    if nodes != [] {
      FlatOuter(nodes[1..], parts[1..]);
    }
  }

  lemma OuterOfChildren(node: Expr)
    requires !node.Call?
    ensures Outer(node) == OuterAll(Children(node))
  {
    var children := Children(node);
    var parts := seq(|children|, i requires 0 <= i < |children| => assert children[i] in children; Outer(children[i]));
    FlatOuter(children, parts);
  }

  lemma {:induction false} OuterAllJoined(first: seq<Expr>, second: seq<Expr>)
    ensures OuterAll(first + second) == OuterAll(first) + OuterAll(second)
  {
    if first == [] {
      assert first + second == second;
    } else {
      assert (first + second)[1..] == first[1..] + second;
      OuterAllJoined(first[1..], second);
    }
  }

  lemma OuterOfOne(node: Expr)
    ensures OuterAll([node]) == Outer(node)
  {
  }

  /** The walk reaches the outer calls of an expression. */
  lemma {:induction false} OutermostAreOuter(node: Expr)
    ensures OutermostCalls(node) == Outer(node)
    decreases node, 1
  {
    if !node.Call? {
      OuterOfChildren(node);
    }
    match node
    case Attribute(value, _) =>
      OuterOfOne(value);
      OutermostAreOuter(value);
    case JoinedStr(parts) => PartsAreOuter(parts);
    case BinOp(left, _, right) =>
      OutermostAreOuter(left);
      OutermostAreOuter(right);
      OuterAllJoined([left], [right]);
      OuterOfOne(left);
      OuterOfOne(right);
    case Display(_, elts) => AllAreOuter(elts);
    case ListComp(elt, clauses) =>
      OutermostAreOuter(elt);
      AllAreOuter(clauses);
      OuterAllJoined([elt], clauses);
      OuterOfOne(elt);
    case Dict(entries) =>
      KeysAreOuter(entries);
      ValuesAreOuter(entries);
      OuterAllJoined(Keys(entries), Values(entries));
    case Opaque(children) => AllAreOuter(children);
    case _ =>
  }

  lemma {:induction false} AllAreOuter(nodes: seq<Expr>)
    ensures CallsInAll(nodes) == OuterAll(nodes)
    decreases nodes, 0
  {
    if nodes != [] {
      OutermostAreOuter(nodes[0]);
      AllAreOuter(nodes[1..]);
    }
  }

  lemma {:induction false} PartsAreOuter(parts: seq<Part>)
    ensures CallsInParts(parts) == OuterAll(Pieces(parts))
    decreases parts, 0
  {
    if parts != [] {
      PartIsOuter(parts[0]);
      PartsAreOuter(parts[1..]);
      OuterAllJoined(PiecesOf(parts[0]), Pieces(parts[1..]));
    }
  }

  lemma {:induction false} PartIsOuter(part: Part)
    ensures CallsInPart(part) == OuterAll(PiecesOf(part))
    decreases part, 0
  {
    match part
    case Text(_) =>
    case Formatted(value, None) =>
      OutermostAreOuter(value);
      OuterOfOne(value);
    case Formatted(value, Some(spec)) =>
      OutermostAreOuter(value);
      OutermostAreOuter(spec);
      OuterAllJoined([value], [spec]);
      OuterOfOne(value);
      OuterOfOne(spec);
  }

  lemma {:induction false} KeysAreOuter(entries: seq<Entry>)
    ensures CallsInKeys(entries) == OuterAll(Keys(entries))
    decreases entries, 0
  {
    if entries != [] {
      KeyIsOuter(entries[0]);
      KeysAreOuter(entries[1..]);
      OuterAllJoined(KeyOf(entries[0]), Keys(entries[1..]));
    }
  }

  function KeyOf(entry: Entry): seq<Expr> {
    if entry.key.Some? then [entry.key.value] else []
  }

  lemma {:induction false} KeyIsOuter(entry: Entry)
    ensures CallsInKey(entry) == OuterAll(KeyOf(entry))
    decreases entry, 0
  {
    if entry.key.Some? {
      OutermostAreOuter(entry.key.value);
      OuterOfOne(entry.key.value);
    }
  }

  lemma {:induction false} ValuesAreOuter(entries: seq<Entry>)
    ensures CallsInValues(entries) == OuterAll(Values(entries))
    decreases entries, 0
  {
    if entries != [] {
      ValueIsOuter(entries[0]);
      ValuesAreOuter(entries[1..]);
    }
  }

  lemma {:induction false} ValueIsOuter(entry: Entry)
    ensures CallsInValue(entry) == Outer(entry.value)
    decreases entry, 0
  {
    OutermostAreOuter(entry.value);
  }

  // ----- the statements

  lemma {:induction false} VisitCallsJoined(first: seq<CallNode>, second: seq<CallNode>, st: WalkState)
    ensures VisitCalls(first + second, st) == VisitCalls(second, VisitCalls(first, st))
  {
    if first == [] {
      assert first + second == second;
    } else {
      assert (first + second)[1..] == first[1..] + second;
      VisitCallsJoined(first[1..], second, VisitCall(first[0], st));
    }
  }

  lemma VisitExprReplays(node: Expr, place: Place, notes: Notes)
    ensures VisitExpr(node, Join(place, notes)) == Join(place, Replay(StatedAt(Outer(node), place), notes))
  {
    OutermostAreOuter(node);
    VisitCallsReplays(Outer(node), place, notes);
  }

  lemma VisitItemReplays(item: WithItem, place: Place, notes: Notes)
    ensures VisitItem(item, Join(place, notes)) ==
            Join(Named([item], place), Replay(StatedAt(ItemCalls(item), place), notes))
  {
    var st := Join(place, notes);
    OutermostAreOuter(item.context);
    if item.binding.Some? {
      OutermostAreOuter(item.binding.value);
      VisitCallsJoined(Outer(item.context), Outer(item.binding.value), st);
      assert PlainNames([item.binding.value]) == if item.binding.value.Name? then {item.binding.value.id} else {};
    }
    assert item.binding.None? ==> ItemCalls(item) == Outer(item.context);
    VisitCallsReplays(ItemCalls(item), place, notes);
    NamedByOne(item, place);
    assert place.dags + {} == place.dags;
  }

  lemma NamedByOne(item: WithItem, place: Place)
    ensures DagsOf([item], place) == if Opens(item, place) && item.binding.Some? && item.binding.value.Name?
                                     then {item.binding.value.id} else {}
  {
  }

  lemma NamedMore(items: seq<WithItem>, place: Place)
    requires items != []
    ensures Named(items[1..], Named([items[0]], place)) == Named(items, place)
    ensures OpensSome(items, place) == (Opens(items[0], place) || OpensSome(items[1..], Named([items[0]], place)))
  {
    var rest := items[1..];
    NamedByOne(items[0], place);
    assert forall item :: item in items <==> item == items[0] || item in rest;
    assert DagsOf(items, place) == DagsOf([items[0]], place) + DagsOf(rest, Named([items[0]], place));
  }

  lemma {:induction false} VisitItemsReplays(items: seq<WithItem>, place: Place, notes: Notes)
    ensures VisitItems(items, Join(place, notes)) ==
            (Join(Named(items, place), Replay(ItemVisits(items, place), notes)), OpensSome(items, place))
  {
    if items == [] {
      assert DagsOf(items, place) == {};
      assert place.dags + {} == place.dags;
    } else {
      var visits := StatedAt(ItemCalls(items[0]), place);
      VisitItemReplays(items[0], place, notes);
      VisitItemsReplays(items[1..], Named([items[0]], place), Replay(visits, notes));
      NamedMore(items, place);
      ReplayJoined(visits, ItemVisits(items[1..], Named([items[0]], place)), notes);
    }
  }

  function DecoratorVisits(decorators: seq<Expr>, place: Place): seq<Visit> {
    var i := FirstTask(decorators);
    StatedAt(OuterAll(decorators[..i]), place)
    + if i < |decorators| && decorators[i].Call? then [Visit(decorators[i], Decorating, place)] else []
  }

  lemma DecoratorsFrom(decorators: seq<Expr>, place: Place)
    requires decorators != [] && !IsTaskDecorator(decorators[0])
    ensures DecoratorVisits(decorators, place) ==
            StatedAt(Outer(decorators[0]), place) + DecoratorVisits(decorators[1..], place)
  {
    var i := FirstTask(decorators[1..]);
    assert decorators[..i + 1] == [decorators[0]] + decorators[1..][..i];
  }

  lemma {:induction false} VisitDecoratorsReplays(decorators: seq<Expr>, place: Place, notes: Notes)
    ensures VisitDecorators(decorators, Join(place, notes)) ==
            (Join(place, Replay(DecoratorVisits(decorators, place), notes)), FirstTask(decorators) < |decorators|)
  {
    if decorators != [] {
      if IsTaskDecorator(decorators[0]) {
        assert decorators[..0] == [];
        if decorators[0].Call? {
          ChecksAlike(decorators[0], Decorating, place, notes, TaskDecorator);
        }
      } else {
        var visits := StatedAt(Outer(decorators[0]), place);
        VisitExprReplays(decorators[0], place, notes);
        VisitDecoratorsReplays(decorators[1..], place, Replay(visits, notes));
        DecoratorsFrom(decorators, place);
        ReplayJoined(visits, DecoratorVisits(decorators[1..], place), notes);
      }
    }
  }

  lemma VisitAssignReplays(stmt: Stmt, place: Place, notes: Notes)
    requires stmt.Assign?
    ensures VisitStmt(stmt, Join(place, notes)) == Join(After(stmt, place), Replay(StmtVisits(stmt, place), notes))
  {
    if stmt.value.Call? {
      var visit := Visit(stmt.value, AssignedTo, place);
      assert Replay([visit], notes) == Noted(visit, notes);
      if IsDagConstructor(stmt.value, place.b) {
        DagAssignment(stmt, place, notes);
      } else if IsTaskConstructor(stmt.value, place.dags, place.inDag) {
        ChecksAlike(stmt.value, AssignedTo, place, notes, TaskConstructor);
      }
    }
  }

  lemma DagAssignment(stmt: Stmt, place: Place, notes: Notes)
    requires stmt.Assign? && stmt.value.Call? && IsDagConstructor(stmt.value, place.b)
    ensures VisitStmt(stmt, Join(place, notes)) ==
            Join(After(stmt, place), Noted(Visit(stmt.value, AssignedTo, place), notes))
  {
  }

  lemma {:induction false} StmtReplays(stmt: Stmt, place: Place, notes: Notes)
    ensures VisitStmt(stmt, Join(place, notes)) == Join(After(stmt, place), Replay(StmtVisits(stmt, place), notes))
    decreases stmt, 1
  {
    match stmt
    case Import(_) =>
    case ImportFrom(_, _) =>
    case Assign(_, _, _) => VisitAssignReplays(stmt, place, notes);
    case Bare(expr) => VisitExprReplays(expr, place, notes);
    case For(target, iter, body, _, _) => BodyReplays(body, InLoop(stmt, place), notes);
    case With(items, body) =>
      VisitItemsReplays(items, place, notes);
      BodyReplays(body, InBlock(items, place), Replay(ItemVisits(items, place), notes));
      ReplayJoined(ItemVisits(items, place), Visits(body, InBlock(items, place)), notes);
    case FunctionDef(_, _, _) => FunctionReplays(stmt, place, notes);
    case Branch(_, _, _) => BranchReplays(stmt, place, notes);
  }

  lemma {:induction false} FunctionReplays(stmt: Stmt, place: Place, notes: Notes)
    requires stmt.FunctionDef?
    ensures VisitStmt(stmt, Join(place, notes)) == Join(After(stmt, place), Replay(StmtVisits(stmt, place), notes))
    decreases stmt, 0
  {
    var visits := DecoratorVisits(stmt.decorators, place);
    VisitDecoratorsReplays(stmt.decorators, place, notes);
    if FirstTask(stmt.decorators) == |stmt.decorators| {
      var inside := place.(factory := Some(stmt.name));
      assert StmtVisits(stmt, place) == visits + Visits(stmt.body, inside);
      BodyReplays(stmt.body, inside, Replay(visits, notes));
      ReplayJoined(visits, Visits(stmt.body, inside), notes);
    } else {
      assert StmtVisits(stmt, place) == visits;
    }
  }

  lemma {:induction false} BranchReplays(stmt: Stmt, place: Place, notes: Notes)
    requires stmt.Branch?
    ensures VisitStmt(stmt, Join(place, notes)) == Join(After(stmt, place), Replay(StmtVisits(stmt, place), notes))
    decreases stmt, 0
  {
    var Branch(exprs, body, orElse) := stmt;
    var first := StatedAt(OuterAll(exprs), place);
    var second := Visits(body, place);
    AllAreOuter(exprs);
    VisitCallsReplays(OuterAll(exprs), place, notes);
    BodyReplays(body, place, Replay(first, notes));
    BodyReplays(orElse, AfterAll(body, place), Replay(second, Replay(first, notes)));
    ReplayJoined(first, second, notes);
    ReplayJoined(first + second, Visits(orElse, AfterAll(body, place)), notes);
  }

  lemma {:induction false} BodyReplays(body: seq<Stmt>, place: Place, notes: Notes)
    ensures VisitBody(body, Join(place, notes)) == Join(AfterAll(body, place), Replay(Visits(body, place), notes))
    decreases body, 0
  {
    if body != [] {
      var visits := StmtVisits(body[0], place);
      StmtReplays(body[0], place, notes);
      BodyReplays(body[1..], After(body[0], place), Replay(visits, notes));
      ReplayJoined(visits, Visits(body[1..], After(body[0], place)), notes);
    }
  }
}
