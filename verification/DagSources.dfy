/** Exactly which expressions the analyzer finds varying, and with which text
    (`RuntimeVaryingValueAnalyzer`). */
module DagSources {
  import opened Prelude
  import opened DagSyntax
  import opened VaryingAnalyzer
  import opened DagReport

  // ----- what is inspected under an expression

  /** The formatted values of an f-string; format specs are not inspected. */
  function Formats(parts: seq<Part>): (nodes: seq<Expr>)
    ensures forall node :: node in nodes ==> UnderPart(node, parts)
  {
    UnderRest(parts, []);
    if parts == [] then []
    else
      assert parts[0] in parts;
      (if parts[0].Formatted? then [parts[0].value] else []) + Formats(parts[1..])
  }

  /** Each entry's key, if it has one, then its value. */
  function KeysAndValues(entries: seq<Entry>): (nodes: seq<Expr>)
    ensures forall node :: node in nodes ==> UnderEntry(node, entries)
  {
    UnderRest([], entries);
    if entries == [] then []
    else
      assert entries[0] in entries;
      (if entries[0].key.Some? then [entries[0].key.value] else []) + [entries[0].value] + KeysAndValues(entries[1..])
  }

  function Arguments(call: CallNode): (nodes: seq<Expr>)
    ensures forall node :: node in nodes ==> node < call
  {
    call.args + seq(|call.keywords|, i requires 0 <= i < |call.keywords| => call.keywords[i].value)
  }

  function Inspected(node: Expr): (nodes: seq<Expr>)
    ensures forall child :: child in nodes ==> child < node
  {
    match node
    case Call(func, _, _, _) => Arguments(node) + if func.Attribute? then [func.value] else []
    case JoinedStr(parts) => Formats(parts)
    case BinOp(left, _, right) => [left, right]
    case Display(_, elts) => elts
    case ListComp(elt, _) => [elt]
    case Dict(entries) => KeysAndValues(entries)
    case _ => []
  }

  /** A call of a certified callable, or a variable tainted by one. */
  predicate Certified(node: Expr, b: Bindings) {
    || (node.Call? && IsRuntimeVaryingCall(node.func, b))
    || (node.Name? && node.id in b.varyingVars && b.varyingVars[node.id].1 != "")
  }

  /** A certified call or tainted variable is reached from the expression. */
  predicate Reaches(node: Expr, b: Bindings)
    decreases node
  {
    Certified(node, b) || exists child :: child in Inspected(node) && Reaches(child, b)
  }

  /** The text of the first of these expressions that has one. */
  function First(nodes: seq<Expr>, b: Bindings): Option<string> {
    if nodes == [] then None
    else if Truthy(GetVaryingSource(nodes[0], b)) then GetVaryingSource(nodes[0], b)
    else First(nodes[1..], b)
  }

  lemma {:induction false} FirstIsFirst(nodes: seq<Expr>, b: Bindings) returns (i: nat)
    ensures i <= |nodes| && forall k :: 0 <= k < i ==> !Truthy(GetVaryingSource(nodes[k], b))
    ensures i < |nodes| ==> Truthy(First(nodes, b)) && First(nodes, b) == GetVaryingSource(nodes[i], b)
    ensures i == |nodes| ==> First(nodes, b) == None
  {
    i := 0;
    if nodes != [] && !Truthy(GetVaryingSource(nodes[0], b)) {
      var rest := FirstIsFirst(nodes[1..], b);
      i := rest + 1;
    }
  }

  lemma {:induction false} FirstJoined(first: seq<Expr>, second: seq<Expr>, b: Bindings)
    ensures First(first + second, b) == Or(First(first, b), First(second, b))
  {
    if first == [] {
      assert first + second == second;
    } else {
      assert (first + second)[1..] == first[1..] + second;
      FirstJoined(first[1..], second, b);
    }
  }

  lemma {:induction false} CollectionFirst(elts: seq<Expr>, b: Bindings)
    ensures GetVaryingCollection(elts, b) == First(elts, b)
  {
    if elts != [] {
      CollectionFirst(elts[1..], b);
    }
  }

  lemma {:induction false} FStringFirst(parts: seq<Part>, b: Bindings)
    ensures GetVaryingFString(parts, b) == First(Formats(parts), b)
  {
    if parts != [] {
      FStringFirst(parts[1..], b);
      if parts[0].Formatted? {
        assert Formats(parts)[1..] == Formats(parts[1..]);
      } else {
        assert Formats(parts) == Formats(parts[1..]);
      }
    }
  }

  lemma {:induction false} DictFirst(entries: seq<Entry>, b: Bindings)
    ensures GetVaryingDict(entries, b) == First(KeysAndValues(entries), b)
  {
    if entries != [] {
      DictFirst(entries[1..], b);
      var nodes := KeysAndValues(entries);
      if entries[0].key.Some? {
        assert nodes[1..][1..] == KeysAndValues(entries[1..]);
      } else {
        assert nodes[1..] == KeysAndValues(entries[1..]);
      }
    }
  }

  function KeywordValues(keywords: seq<Keyword>): seq<Expr> {
    seq(|keywords|, i requires 0 <= i < |keywords| => keywords[i].value)
  }

  lemma {:induction false} KeywordFirst(keywords: seq<Keyword>, b: Bindings)
    ensures GetVaryingKeyword(keywords, b) == First(KeywordValues(keywords), b)
  {
    if keywords != [] {
      KeywordFirst(keywords[1..], b);
      assert KeywordValues(keywords)[1..] == KeywordValues(keywords[1..]);
    }
  }

  /** The first argument that varies, positional ones before named ones. */
  lemma ArgumentFirst(call: CallNode, b: Bindings)
    ensures GetVaryingArgument(call, b) == First(Arguments(call), b)
  {
    CollectionFirst(call.args, b);
    KeywordFirst(call.keywords, b);
    assert Arguments(call) == call.args + KeywordValues(call.keywords);
    FirstJoined(call.args, KeywordValues(call.keywords), b);
  }

  predicate ShownWhole(node: Expr, b: Bindings) {
    node.Call? && (IsRuntimeVaryingCall(node.func, b) || First(Arguments(node), b).Some?)
  }

  /** A call that is certified, or is passed something varying, is shown whole; any other expression
      by what is shown of the first that varies among those inspected under it. */
  lemma SourceShown(node: Expr, b: Bindings)
    ensures ShownWhole(node, b) ==> GetVaryingSource(node, b) == Some(Snippet(node))
    ensures node.Name? && node.id in b.varyingVars ==> GetVaryingSource(node, b) == Some(b.varyingVars[node.id].1)
    ensures var source, first := GetVaryingSource(node, b), First(Inspected(node), b);
            !Certified(node, b) && !ShownWhole(node, b) ==>
              Truthy(source) == Truthy(first) && (Truthy(source) ==> source == first)
  {
    match node
    case Call(func, _, _, _) =>
      ArgumentFirst(node, b);
      if func.Attribute? {
        FirstJoined(Arguments(node), [func.value], b);
      } else {
        assert Inspected(node) == Arguments(node);
      }
    case JoinedStr(parts) => FStringFirst(parts, b);
    case BinOp(left, _, right) => FirstJoined([left], [right], b);
    case Display(_, elts) => CollectionFirst(elts, b);
    case ListComp(elt, _) =>
    case Dict(entries) => DictFirst(entries, b);
    case _ =>
  }

  /** An expression has a varying source exactly when it reaches a certified call or a tainted name. */
  lemma {:induction false} VariesExactly(node: Expr, b: Bindings)
    ensures Truthy(GetVaryingSource(node, b)) <==> Reaches(node, b)
    decreases node
  {
    var nodes := Inspected(node);
    SourceShown(node, b);
    forall child | child in nodes ensures Truthy(GetVaryingSource(child, b)) <==> Reaches(child, b) {
      VariesExactly(child, b);
    }
    var i := FirstIsFirst(nodes, b);
    if node.Call? {
      var j := FirstIsFirst(Arguments(node), b);
    }
  }
}
