/** `RuntimeVaryingValueAnalyzer` (versioninflation.py): which expressions reach a value
    that differs on every evaluation. The analyzer answers with the varying expression's
    source text, `None` standing for "stable", and its loops test that text for truth. */
module VaryingAnalyzer {
  import opened Prelude
  import opened DagSyntax

  const RUNTIME_VARYING_CALLS: set<(string, string)> := {
    ("datetime", "now"), ("datetime", "today"), ("datetime", "utcnow"), ("date", "today"),
    ("time", "time"), ("time", "localtime"),
    ("random", "random"), ("random", "randint"), ("random", "choice"), ("random", "uniform"),
    ("uuid", "uuid4"), ("uuid", "uuid1"),
    ("pendulum", "now"), ("pendulum", "today"), ("pendulum", "yesterday"), ("pendulum", "tomorrow")
  }

  /** The three maps shared between visitor and analyzer. `imports` is keyed by the text of
      the bound name, so an unaliased `import a.b` sits under the two-component key. */
  datatype Bindings = Bindings(
    varyingVars: map<string, (nat, string)>,
    imports: map<Dotted, Dotted>,
    fromImports: map<string, (Dotted, string)>)

  /** Python's truth of a `str | None`. */
  predicate Truthy(text: Option<string>) {
    text.Some? && text.value != ""
  }

  function Unparse(call: Expr): string
    requires call.Call?
  {
    (if call.func.Name? then call.func.id else "...") + "(...)"
  }

  function Snippet(call: Expr): string
    requires call.Call?
  {
    if call.site.segment != "" then call.site.segment else Unparse(call)
  }

  /** What the analyzer takes the name in `name.method(...)` to stand for. */
  function Owner(name: string, b: Bindings): Dotted {
    if name in b.fromImports then [b.fromImports[name].1]
    else if [name] in b.imports then b.imports[[name]]
    else [name]
  }

  predicate IsRuntimeVaryingAttributeCall(attribute: Expr, b: Bindings)
    requires attribute.Attribute?
  {
    match attribute.value
    case Name(id) =>
      var owner := Owner(id, b);
      |owner| == 1 && (owner[0], attribute.attr) in RUNTIME_VARYING_CALLS
    case Attribute(inner, owner) =>
      inner.Name? && (owner, attribute.attr) in RUNTIME_VARYING_CALLS
    case _ => false
  }

  predicate IsRuntimeVaryingNameCall(id: string, b: Bindings) {
    && id in b.fromImports
    && var (path, original) := b.fromImports[id];
    exists part :: part in path && (part, original) in RUNTIME_VARYING_CALLS
  }

  predicate IsRuntimeVaryingCall(func: Expr, b: Bindings) {
    match func
    case Attribute(_, _) => IsRuntimeVaryingAttributeCall(func, b)
    case Name(id) => IsRuntimeVaryingNameCall(id, b)
    case _ => false
  }

  function GetVaryingSource(node: Expr, b: Bindings): Option<string>
    decreases node, 1
  {
    match node
    case Call(func, _, _, _) =>
      if IsRuntimeVaryingCall(func, b) then Some(Snippet(node))
      else if GetVaryingArgument(node, b).Some? then Some(Snippet(node))
      else if func.Attribute? then GetVaryingSource(func.value, b)
      else None
    case Name(id) => if id in b.varyingVars then Some(b.varyingVars[id].1) else None
    case JoinedStr(parts) => GetVaryingFString(parts, b)
    case BinOp(left, _, right) => Or(GetVaryingSource(left, b), GetVaryingSource(right, b))
    case Display(_, elts) => GetVaryingCollection(elts, b)
    case ListComp(elt, _) => GetVaryingSource(elt, b)
    case Dict(entries) => GetVaryingDict(entries, b)
    case _ => None
  }

  /** Python's `or` on two `str | None`. */
  function Or(first: Option<string>, second: Option<string>): Option<string> {
    if Truthy(first) then first else second
  }

  /** The first positional, else keyword, argument whose source tests true. */
  function GetVaryingArgument(call: Expr, b: Bindings): Option<string>
    requires call.Call?
    decreases call, 0
  {
    Or(GetVaryingCollection(call.args, b), GetVaryingKeyword(call.keywords, b))
  }

  function GetVaryingCollection(elts: seq<Expr>, b: Bindings): Option<string>
    decreases elts, 0
  {
    if elts == [] then None
    else
      var varying := GetVaryingSource(elts[0], b);
      if Truthy(varying) then varying else GetVaryingCollection(elts[1..], b)
  }

  function GetVaryingKeyword(keywords: seq<Keyword>, b: Bindings): Option<string>
    decreases keywords, 0
  {
    if keywords == [] then None
    else
      var varying := KeywordSource(keywords[0], b);
      if Truthy(varying) then varying else GetVaryingKeyword(keywords[1..], b)
  }

  function KeywordSource(keyword: Keyword, b: Bindings): Option<string>
    decreases keyword, 0
  {
    GetVaryingSource(keyword.value, b)
  }

  function GetVaryingFString(parts: seq<Part>, b: Bindings): Option<string>
    decreases parts, 0
  {
    if parts == [] then None
    else
      var varying := PartSource(parts[0], b);
      if Truthy(varying) then varying else GetVaryingFString(parts[1..], b)
  }

  /** A format spec is not inspected. */
  function PartSource(part: Part, b: Bindings): Option<string>
    decreases part, 0
  {
    if part.Formatted? then GetVaryingSource(part.value, b) else None
  }

  function GetVaryingDict(entries: seq<Entry>, b: Bindings): Option<string>
    decreases entries, 0
  {
    if entries == [] then None
    else
      var varying := EntrySource(entries[0], b);
      if Truthy(varying) then varying else GetVaryingDict(entries[1..], b)
  }

  function EntrySource(entry: Entry, b: Bindings): Option<string>
    decreases entry, 0
  {
    Or(if entry.key.Some? then GetVaryingSource(entry.key.value, b) else None,
       GetVaryingSource(entry.value, b))
  }
}
