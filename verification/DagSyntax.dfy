/** The fragment of Python's `ast` that the Dag-file taint analysis looks at.

    Names that Python writes with dots (`import a.b`, `from a.b import c`) are kept as
    their components. An expression or statement form the analysis does not distinguish
    is `Opaque`, respectively `Branch`. */
module DagSyntax {
  import opened Prelude

  /** A dotted module name, as its components. */
  type Dotted = path: seq<string> | path != [] witness ["datetime"]

  datatype DisplayKind = ListDisplay | TupleDisplay | SetDisplay

  datatype Expr =
    | Constant(literal: int)
    | Name(id: string)
    | Attribute(value: Expr, attr: string)
    | Call(func: Expr, args: seq<Expr>, keywords: seq<Keyword>, site: Site)
    | JoinedStr(parts: seq<Part>)
    | BinOp(left: Expr, op: string, right: Expr)
    | Display(kind: DisplayKind, elts: seq<Expr>)
    | ListComp(elt: Expr, clauses: seq<Expr>)
    | Dict(entries: seq<Entry>)
    | Opaque(children: seq<Expr>)

  /** `arg` is `None` for a `**expansion`. */
  datatype Keyword = Keyword(arg: Option<string>, value: Expr)

  /** A piece of an f-string: literal text, or a value with an optional format spec. */
  datatype Part = Text(text: string) | Formatted(value: Expr, spec: Option<Expr>)

  /** A dict display's entry; a `**expansion` has no key. */
  datatype Entry = Entry(key: Option<Expr>, value: Expr)

  /** Where a call stands: its lines, and its source segment ("" when it cannot be looked up). */
  datatype Site = Site(line: nat, endLine: Option<nat>, segment: string)

  /** `import name as asName`, and equally one name of a `from ... import`. */
  datatype ModuleAlias = ModuleAlias(name: Dotted, asName: Option<string>)
  datatype MemberAlias = MemberAlias(name: string, asName: Option<string>)

  datatype WithItem = WithItem(context: Expr, binding: Option<Expr>)

  datatype Stmt =
    | Import(modules: seq<ModuleAlias>)
    | ImportFrom(module_: Option<Dotted>, members: seq<MemberAlias>)
    | Assign(targets: seq<Expr>, value: Expr, line: nat)
    | Bare(expr: Expr)
    | For(target: Expr, iter: Expr, body: seq<Stmt>, orElse: seq<Stmt>, line: nat)
    | With(items: seq<WithItem>, body: seq<Stmt>)
    | FunctionDef(name: string, decorators: seq<Expr>, body: seq<Stmt>)
    | Branch(exprs: seq<Expr>, body: seq<Stmt>, orElse: seq<Stmt>)

  function Last(path: Dotted): string {
    path[|path| - 1]
  }

  /** The name `import a.b as c` or `from m import a as c` binds in the module. */
  function MemberName(alias: MemberAlias): string {
    match alias.asName case Some(name) => name case None => alias.name
  }
}
