/** What the Dag-file scan reports (`_RuntimeVaryingDagArgsVisitor`), said without the walk: the calls
    a file reaches, in order, each at the place where the scanner reads it, and which of them
    make a finding. */
module DagReport {
  import opened Prelude
  import opened DagSyntax
  import opened VaryingAnalyzer
  import opened DagArgsVisitor
  import opened Ordering

  type CallNode = node: Expr | node.Call? witness Call(Constant(0), [], [], Site(0, None, ""))

  /** What is known where a call stands: names, Dag instances, the Dag block and the function around it. */
  datatype Place = Place(b: Bindings, dags: set<string>, inDag: bool, factory: Option<string>)

  const START := Place(EMPTY_BINDINGS, {}, false, None)

  /** A call is read where it is stated, as the value of an assignment, or as a task decorator. */
  datatype Role = Stated | AssignedTo | Decorating

  datatype Visit = Visit(call: CallNode, role: Role, place: Place)

  // ----- the calls reached from an expression

  ghost predicate UnderPart(node: Expr, parts: seq<Part>) {
    exists part :: part in parts && node < part
  }

  ghost predicate UnderEntry(node: Expr, entries: seq<Entry>) {
    exists entry :: entry in entries && node < entry
  }

  lemma UnderRest(parts: seq<Part>, entries: seq<Entry>)
    ensures parts != [] ==> forall node :: UnderPart(node, parts[1..]) ==> UnderPart(node, parts)
    ensures entries != [] ==> forall node :: UnderEntry(node, entries[1..]) ==> UnderEntry(node, entries)
  {
    assert parts != [] ==> forall part :: part in parts[1..] ==> part in parts;
    assert entries != [] ==> forall entry :: entry in entries[1..] ==> entry in entries;
  }

  function PiecesOf(part: Part): (nodes: seq<Expr>)
    ensures forall node :: node in nodes ==> node < part
  {
    match part
    case Text(_) => []
    case Formatted(value, None) => [value]
    case Formatted(value, Some(spec)) => [value, spec]
  }

  function Pieces(parts: seq<Part>): (nodes: seq<Expr>)
    ensures forall node :: node in nodes ==> UnderPart(node, parts)
  {
    UnderRest(parts, []);
    if parts == [] then []
    else
      assert parts[0] in parts;
      PiecesOf(parts[0]) + Pieces(parts[1..])
  }

  function Keys(entries: seq<Entry>): (nodes: seq<Expr>)
    ensures forall node :: node in nodes ==> UnderEntry(node, entries)
  {
    UnderRest([], entries);
    if entries == [] then []
    else
      assert entries[0] in entries;
      (if entries[0].key.Some? then [entries[0].key.value] else []) + Keys(entries[1..])
  }

  function Values(entries: seq<Entry>): (nodes: seq<Expr>)
    ensures forall node :: node in nodes ==> UnderEntry(node, entries)
  {
    UnderRest([], entries);
    if entries == [] then []
    else
      assert entries[0] in entries;
      [entries[0].value] + Values(entries[1..])
  }

  /** The expressions right under one that is not a call, in `ast` order. */
  function Children(node: Expr): (nodes: seq<Expr>)
    ensures forall child :: child in nodes ==> child < node
  {
    match node
    case Attribute(value, _) => [value]
    case JoinedStr(parts) => Pieces(parts)
    case BinOp(left, _, right) => [left, right]
    case Display(_, elts) => elts
    case ListComp(elt, clauses) => [elt] + clauses
    case Dict(entries) => Keys(entries) + Values(entries)
    case Opaque(children) => children
    case _ => []
  }

  /** The calls of an expression that stand in no other call, in order. */
  function Outer(node: Expr): seq<CallNode>
    decreases node, 0
  {
    if node.Call? then [node]
    else
      var children := Children(node);
      Flat(seq(|children|, i requires 0 <= i < |children| => assert children[i] in children; Outer(children[i])))
  }

  function Flat<T>(parts: seq<seq<T>>): seq<T> {
    if parts == [] then [] else parts[0] + Flat(parts[1..])
  }

  function OuterAll(nodes: seq<Expr>): seq<CallNode> {
    if nodes == [] then [] else Outer(nodes[0]) + OuterAll(nodes[1..])
  }

  // ----- the calls reached from statements

  function StatedAt(calls: seq<CallNode>, place: Place): seq<Visit> {
    seq(|calls|, i requires 0 <= i < |calls| => Visit(calls[i], Stated, place))
  }

  /** The index of the first task decorator, or the number of decorators. */
  function FirstTask(decorators: seq<Expr>): (i: nat)
    ensures i <= |decorators|
    ensures i < |decorators| ==> IsTaskDecorator(decorators[i])
    ensures forall k :: 0 <= k < i ==> !IsTaskDecorator(decorators[k])
  {
    if decorators == [] || IsTaskDecorator(decorators[0]) then 0 else 1 + FirstTask(decorators[1..])
  }

  predicate Opens(item: WithItem, place: Place) {
    item.context.Call? && IsDagConstructor(item.context, place.b)
  }

  predicate OpensSome(items: seq<WithItem>, place: Place) {
    exists item :: item in items && Opens(item, place)
  }

  /** The names that the items bind to Dags. */
  function DagsOf(items: seq<WithItem>, place: Place): set<string> {
    set item | item in items && Opens(item, place) && item.binding.Some? && item.binding.value.Name? ::
      item.binding.value.id
  }

  function Named(items: seq<WithItem>, place: Place): Place {
    place.(dags := place.dags + DagsOf(items, place))
  }

  function ItemCalls(item: WithItem): seq<CallNode> {
    Outer(item.context) + (if item.binding.Some? then Outer(item.binding.value) else [])
  }

  /** Each item is read knowing the Dags that the items before it bound. */
  function ItemVisits(items: seq<WithItem>, place: Place): seq<Visit> {
    if items == [] then []
    else StatedAt(ItemCalls(items[0]), place) + ItemVisits(items[1..], Named([items[0]], place))
  }

  function Knowing(names: set<string>, taint: (nat, string), place: Place): Place {
    place.(b := place.b.(varyingVars := place.b.varyingVars + map name | name in names :: taint))
  }

  predicate Varies(node: Expr, place: Place) {
    Truthy(GetVaryingSource(node, place.b))
  }

  function InLoop(stmt: Stmt, place: Place): Place
    requires stmt.For?
  {
    if stmt.target.Name? && Varies(stmt.iter, place)
    then Knowing({stmt.target.id}, (stmt.line, GetVaryingSource(stmt.iter, place.b).value), place)
    else place
  }

  function InBlock(items: seq<WithItem>, place: Place): Place {
    Named(items, place).(inDag := place.inDag || OpensSome(items, place))
  }

  /** Where the next statement stands. */
  function After(stmt: Stmt, place: Place): Place
    decreases stmt, 1
  {
    match stmt
    case Import(modules) => place.(b := place.b.(imports := RecordModules(modules, place.b.imports)))
    case ImportFrom(path, members) =>
      if path.None? then place
      else place.(b := place.b.(fromImports := RecordMembers(path.value, members, place.b.fromImports)))
    case Assign(targets, value, line) =>
      if value.Call? && IsDagConstructor(value, place.b) then place.(dags := place.dags + PlainNames(targets))
      else if value.Call? && IsTaskConstructor(value, place.dags, place.inDag) then place
      else if Varies(value, place)
      then Knowing(PlainNames(targets), (line, GetVaryingSource(value, place.b).value), place)
      else place
    case Bare(_) => place
    case For(target, iter, body, _, _) =>
      var end := AfterAll(body, InLoop(stmt, place));
      if target.Name? && Varies(iter, place)
      then end.(b := end.b.(varyingVars := end.b.varyingVars - {target.id}))
      else end
    case With(items, body) =>
      var end := AfterAll(body, InBlock(items, place));
      if OpensSome(items, place) then end.(inDag := false) else end
    case FunctionDef(name, decorators, body) =>
      if FirstTask(decorators) < |decorators| then place
      else AfterAll(body, place.(factory := Some(name))).(factory := None)
    case Branch(_, body, orElse) => AfterAll(orElse, AfterAll(body, place))
  }

  function AfterAll(body: seq<Stmt>, place: Place): Place
    decreases body, 0
  {
    if body == [] then place else AfterAll(body[1..], After(body[0], place))
  }

  /** The calls reached from one statement: its own and those of the blocks under it. The body of a
      function is read unless a decorator makes it a task. */
  function StmtVisits(stmt: Stmt, place: Place): seq<Visit>
    decreases stmt, 1
  {
    match stmt
    case Import(_) => []
    case ImportFrom(_, _) => []
    case Assign(_, value, _) => if value.Call? then [Visit(value, AssignedTo, place)] else []
    case Bare(expr) => StatedAt(Outer(expr), place)
    case For(_, _, body, _, _) => Visits(body, InLoop(stmt, place))
    case With(items, body) => ItemVisits(items, place) + Visits(body, InBlock(items, place))
    case FunctionDef(name, decorators, body) =>
      var i := FirstTask(decorators);
      StatedAt(OuterAll(decorators[..i]), place)
      + if i == |decorators| then Visits(body, place.(factory := Some(name)))
      else if decorators[i].Call? then [Visit(decorators[i], Decorating, place)]
      else []
    case Branch(exprs, body, orElse) =>
      StatedAt(OuterAll(exprs), place) + Visits(body, place) + Visits(orElse, AfterAll(body, place))
  }

  function Visits(body: seq<Stmt>, place: Place): seq<Visit>
    decreases body, 0
  {
    if body == [] then [] else StmtVisits(body[0], place) + Visits(body[1..], After(body[0], place))
  }

  // ----- the finding that a visit makes

  /** What a visited call constructs, if anything. */
  function Context(visit: Visit): Option<VaryingContext> {
    var Visit(call, role, place) := visit;
    if role.Decorating? then Some(TaskDecorator)
    else if IsDagConstructor(call, place.b) then Some(DagConstructor)
    else if !IsTaskConstructor(call, place.dags, place.inDag) then None
    else Some(if place.inDag then TaskInDagBlock else TaskConstructor)
  }

  /** The finding is about this call: its lines, its first varying argument and what it constructs. */
  predicate Describes(finding: Finding, visit: Visit) {
    && Some(finding.context) == Context(visit)
    && Some(finding.snippet) == GetVaryingArgument(visit.call, visit.place.b)
    && finding.line == visit.call.site.line
    && finding.endLine == (if visit.call.site.endLine.Some? then visit.call.site.endLine.value else finding.line)
  }

  predicate IsFound(visit: Visit) {
    Context(visit).Some? && GetVaryingArgument(visit.call, visit.place.b).Some?
  }

  /** The finding comes of the `i`th visit, made outside of functions. */
  predicate Direct(visits: seq<Visit>, i: int, finding: Finding) {
    0 <= i < |visits| && !Truthy(visits[i].place.factory) && Describes(finding, visits[i])
  }

  predicate MadeIn(visit: Visit, name: string) {
    name != "" && visit.place.factory == Some(name) && IsFound(visit)
  }

  /** Of the visits before the `j`th, the `i`th is the last one found in the function. */
  predicate IsParked(visits: seq<Visit>, i: int, j: int, name: string) {
    && 0 <= i < j <= |visits|
    && MadeIn(visits[i], name)
    && forall k :: i < k < j ==> !MadeIn(visits[k], name)
  }

  /** The `j`th visit calls by its name the function that the finding was last made in. */
  ghost predicate Surfaces(visits: seq<Visit>, j: int, finding: Finding) {
    && 0 <= j < |visits|
    && visits[j].role.Stated? && visits[j].call.func.Name?
    && exists i :: IsParked(visits, i, j, visits[j].call.func.id) && Describes(finding, visits[i])
  }

  /** The finding surfaces while no visit outside of functions has made it. */
  ghost predicate SurfacesFirst(visits: seq<Visit>, j: int, finding: Finding) {
    Surfaces(visits, j, finding) && forall k :: 0 <= k < j ==> !Direct(visits, k, finding)
  }

  function Directs(visits: seq<Visit>, finding: Finding): nat {
    if visits == [] then 0
    else
      var last := |visits| - 1;
      Directs(visits[..last], finding) + if Direct(visits, last, finding) then 1 else 0
  }
}
