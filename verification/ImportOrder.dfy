/** The order of the findings (`antipatterns.py`: `_ImportTimeVisitor`, whose walk takes the fields
    of a node in turn). A call is written where its callee begins. A conditional expression's
    test is walked before its body, a class's decorators after its body, a dict display's keys
    before its values, and the positional arguments of a call or a class before the named ones;
    everything else is walked as written. */
module ImportOrder {
  import opened Ordering
  import opened ImportTime

  // ----- the recorded calls as written

  function ExprText(e: Expr): seq<nat>
    decreases e, 1
  {
    match e
    case Name(_) | Constant(_) => []
    case Attribute(base, _) => ExprText(base)
    case Call(node, func, args) => [node] + ExprText(func) + ArgumentsText(args)
    case Compare(_, left, comparators) => ExprText(left) + ExprsText(comparators)
    case BoolOp(first, others) => ExprText(first) + ExprsText(others)
    case IfExp(test, body, orelse) => ExprText(body) + ExprText(test) + ExprText(orelse)
    case Lambda(defaults, _) => ExprsText(defaults)
    case Comprehension(parts) => ExprsText(parts)
    case Dict(entries) => EntriesText(entries)
    case Operands(parts) => ExprsText(parts)
  }

  function ExprsText(es: seq<Expr>): seq<nat>
    decreases es, 0
  {
    if es == [] then [] else ExprText(es[0]) + ExprsText(es[1..])
  }

  function EntriesText(entries: seq<Pair>): seq<nat>
    decreases entries, 0
  {
    if entries == [] then [] else PairText(entries[0]) + EntriesText(entries[1..])
  }

  function PairText(pair: Pair): seq<nat>
    decreases pair, 2
  {
    ExprText(pair.key) + ExprText(pair.value)
  }

  function ArgumentsText(args: Arguments): seq<nat>
    decreases args, 2
  {
    WovenText(args, 0, 0, 0)
  }

  /** How many places and arguments are still to come. */
  function Left(args: Arguments, i: nat, j: nat, k: nat): int {
    |args.positional| - i + |args.named| - j + |args.written| - k
  }

  predicate Within(args: Arguments, i: nat, j: nat, k: nat) {
    i <= |args.positional| && j <= |args.named| && k <= |args.written|
  }

  /** Whether the next argument in the text is a named one. */
  predicate NamedNext(args: Arguments, i: nat, j: nat, k: nat)
    requires Within(args, i, j, k)
  {
    j < |args.named| && (i == |args.positional| || (k < |args.written| && args.written[k]))
  }

  function NextPlace(args: Arguments, k: nat): nat {
    if k < |args.written| then k + 1 else k
  }

  /** The arguments from the `i`th positional and the `j`th named one on, from place `k` of the text. */
  function WovenText(args: Arguments, i: nat, j: nat, k: nat): seq<nat>
    requires Within(args, i, j, k)
    decreases args, 1, Left(args, i, j, k)
  {
    if NamedNext(args, i, j, k) then ExprText(args.named[j]) + WovenText(args, i, j + 1, NextPlace(args, k))
    else if i < |args.positional| then ExprText(args.positional[i]) + WovenText(args, i + 1, j, NextPlace(args, k))
    else []
  }

  function StmtText(s: Stmt): seq<nat>
    decreases s, 1
  {
    match s
    case Do(parts) => ExprsText(parts)
    case Raise(parts) => ExprsText(parts)
    case Import(_) | ImportFrom(_, _, _) | Break | Continue => []
    case If(test, body, orelse) =>
      if IsFalseGuard(test) then BodyText(orelse) else ExprText(test) + BodyText(body) + BodyText(orelse)
    case Loop(before, head, body, orelse) => ExprsText(head) + ExprsText(before) + BodyText(body) + BodyText(orelse)
    case Try(body, handlers, orelse, finalbody) =>
      BodyText(body) + HandlersText(handlers) + BodyText(orelse) + BodyText(finalbody)
    case With(items, body) => ExprsText(items) + BodyText(body)
    case FunctionDef(decorators, defaults, _) => ExprsText(decorators) + ExprsText(defaults)
    case ClassDef(decorators, bases, body) => ExprsText(decorators) + ArgumentsText(bases) + BodyText(body)
  }

  function HandlerText(h: Handler): seq<nat>
    decreases h, 1
  {
    ExprsText(h.types) + BodyText(h.body)
  }

  function HandlersText(hs: seq<Handler>): seq<nat>
    decreases hs, 0
  {
    if hs == [] then [] else HandlerText(hs[0]) + HandlersText(hs[1..])
  }

  function BodyText(body: seq<Stmt>): seq<nat>
    decreases body, 0
  {
    if body == [] then [] else StmtText(body[0]) + BodyText(body[1..])
  }

  // ----- the walk records the same calls

  ghost predicate Rearranged(xs: seq<nat>, ys: seq<nat>) {
    multiset(xs) == multiset(ys)
  }

  lemma {:induction false} ExprRearranged(e: Expr)
    ensures Rearranged(ExprCalls(e), ExprText(e))
    decreases e, 1
  {
    match e
    case Name(_) | Constant(_) =>
    case Attribute(base, _) => ExprRearranged(base);
    case Call(node, func, args) => ExprRearranged(func); ArgumentsRearranged(args);
    case Compare(_, left, comparators) => ExprRearranged(left); ExprsRearranged(comparators);
    case BoolOp(first, others) => ExprRearranged(first); ExprsRearranged(others);
    case IfExp(test, body, orelse) => ExprRearranged(test); ExprRearranged(body); ExprRearranged(orelse);
    case Lambda(defaults, _) => ExprsRearranged(defaults);
    case Comprehension(parts) => ExprsRearranged(parts);
    case Dict(entries) => EntriesRearranged(entries);
    case Operands(parts) => ExprsRearranged(parts);
  }

  lemma {:induction false} ExprsRearranged(es: seq<Expr>)
    ensures Rearranged(ExprsCalls(es), ExprsText(es))
    decreases es, 0
  {
    if es != [] {
      ExprRearranged(es[0]);
      ExprsRearranged(es[1..]);
    }
  }

  lemma {:induction false} EntriesRearranged(entries: seq<Pair>)
    ensures Rearranged(KeysCalls(entries) + ValuesCalls(entries), EntriesText(entries))
    decreases entries, 0
  {
    if entries != [] {
      PairRearranged(entries[0]);
      EntriesRearranged(entries[1..]);
    }
  }

  lemma {:induction false} PairRearranged(pair: Pair)
    ensures Rearranged(KeyCalls(pair), ExprText(pair.key)) && Rearranged(ValueCalls(pair), ExprText(pair.value))
    decreases pair, 2
  {
    ExprRearranged(pair.key);
    ExprRearranged(pair.value);
  }

  lemma {:induction false} ArgumentsRearranged(args: Arguments)
    ensures Rearranged(ArgumentsCalls(args), ArgumentsText(args))
    decreases args, 2
  {
    WovenRearranged(args, 0, 0, 0);
    assert args.positional[0..] == args.positional && args.named[0..] == args.named;
  }

  /** The calls of the arguments from the `i`th on, as they are walked. */
  function From(es: seq<Expr>, i: nat): seq<nat>
    requires i <= |es|
  {
    ExprsCalls(es[i..])
  }

  lemma FromNext(es: seq<Expr>, i: nat)
    requires i < |es|
    ensures From(es, i) == ExprCalls(es[i]) + From(es, i + 1)
  {
    assert es[i..][1..] == es[i + 1..];
  }

  lemma FromEnd(es: seq<Expr>)
    ensures From(es, |es|) == []
  {
  }

  lemma {:induction false} WovenRearranged(args: Arguments, i: nat, j: nat, k: nat)
    requires Within(args, i, j, k)
    ensures Rearranged(From(args.positional, i) + From(args.named, j), WovenText(args, i, j, k))
    decreases args, 1, Left(args, i, j, k)
  {
    if NamedNext(args, i, j, k) {
      ExprRearranged(args.named[j]);
      FromNext(args.named, j);
      WovenRearranged(args, i, j + 1, NextPlace(args, k));
    } else if i < |args.positional| {
      ExprRearranged(args.positional[i]);
      FromNext(args.positional, i);
      WovenRearranged(args, i + 1, j, NextPlace(args, k));
    } else {
      FromEnd(args.positional);
      FromEnd(args.named);
    }
  }

  lemma {:induction false} StmtRearranged(s: Stmt)
    ensures Rearranged(StmtCalls(s), StmtText(s))
    decreases s, 1
  {
    match s
    case Do(parts) => ExprsRearranged(parts);
    case Raise(parts) => ExprsRearranged(parts);
    case Import(_) | ImportFrom(_, _, _) | Break | Continue =>
    case If(test, body, orelse) =>
      ExprRearranged(test);
      BodyRearranged(body);
      BodyRearranged(orelse);
    case Loop(before, head, body, orelse) =>
      ExprsRearranged(head);
      ExprsRearranged(before);
      BodyRearranged(body);
      BodyRearranged(orelse);
    case Try(body, handlers, orelse, finalbody) =>
      BodyRearranged(body);
      HandlersRearranged(handlers);
      BodyRearranged(orelse);
      BodyRearranged(finalbody);
    case With(items, body) => ExprsRearranged(items); BodyRearranged(body);
    case FunctionDef(decorators, defaults, _) => ExprsRearranged(decorators); ExprsRearranged(defaults);
    case ClassDef(decorators, bases, body) =>
      ExprsRearranged(decorators);
      ArgumentsRearranged(bases);
      BodyRearranged(body);
  }

  lemma {:induction false} HandlerRearranged(h: Handler)
    ensures Rearranged(HandlerCalls(h), HandlerText(h))
    decreases h, 1
  {
    ExprsRearranged(h.types);
    BodyRearranged(h.body);
  }

  lemma {:induction false} HandlersRearranged(hs: seq<Handler>)
    ensures Rearranged(HandlersCalls(hs), HandlersText(hs))
    decreases hs, 0
  {
    if hs != [] {
      HandlerRearranged(hs[0]);
      HandlersRearranged(hs[1..]);
    }
  }

  /** The walk's order is a rearrangement of the order as written. */
  lemma {:induction false} BodyRearranged(body: seq<Stmt>)
    ensures Rearranged(BodyCalls(body), BodyText(body))
    decreases body, 0
  {
    if body != [] {
      StmtRearranged(body[0]);
      BodyRearranged(body[1..]);
    }
  }

  // ----- the forms that keep the order

  predicate ExprInOrder(e: Expr)
    decreases e, 1
  {
    match e
    case Name(_) | Constant(_) => true
    case Attribute(base, _) => ExprInOrder(base)
    case Call(_, func, args) => ExprInOrder(func) && ArgumentsInOrder(args)
    case Compare(_, left, comparators) => ExprInOrder(left) && ExprsInOrder(comparators)
    case BoolOp(first, others) => ExprInOrder(first) && ExprsInOrder(others)
    case IfExp(test, body, orelse) =>
      && ExprInOrder(test) && ExprInOrder(body) && ExprInOrder(orelse)
      && (ExprCalls(test) == [] || ExprCalls(body) == [])
    case Lambda(defaults, _) => ExprsInOrder(defaults)
    case Comprehension(parts) => ExprsInOrder(parts)
    case Dict(entries) => EntriesInOrder(entries)
    case Operands(parts) => ExprsInOrder(parts)
  }

  predicate ExprsInOrder(es: seq<Expr>)
    decreases es, 0
  {
    es == [] || (ExprInOrder(es[0]) && ExprsInOrder(es[1..]))
  }

  /** No key after a value that calls something calls anything itself. */
  predicate EntriesInOrder(entries: seq<Pair>)
    decreases entries, 0
  {
    entries == [] ||
    (PairInOrder(entries[0]) && EntriesInOrder(entries[1..]) &&
     (ValueCalls(entries[0]) == [] || KeysCalls(entries[1..]) == []))
  }

  predicate PairInOrder(pair: Pair)
    decreases pair, 2
  {
    ExprInOrder(pair.key) && ExprInOrder(pair.value)
  }

  predicate ArgumentsInOrder(args: Arguments)
    decreases args, 2
  {
    WovenInOrder(args, 0, 0, 0)
  }

  /** No starred argument after a named one that calls something calls anything itself. */
  predicate WovenInOrder(args: Arguments, i: nat, j: nat, k: nat)
    requires Within(args, i, j, k)
    decreases args, 1, Left(args, i, j, k)
  {
    if NamedNext(args, i, j, k) then
      && ExprInOrder(args.named[j]) && WovenInOrder(args, i, j + 1, NextPlace(args, k))
      && (ExprCalls(args.named[j]) == [] || From(args.positional, i) == [])
    else if i < |args.positional| then
      ExprInOrder(args.positional[i]) && WovenInOrder(args, i + 1, j, NextPlace(args, k))
    else true
  }

  predicate StmtInOrder(s: Stmt)
    decreases s, 1
  {
    match s
    case Do(parts) => ExprsInOrder(parts)
    case Raise(parts) => ExprsInOrder(parts)
    case Import(_) | ImportFrom(_, _, _) | Break | Continue => true
    case If(test, body, orelse) =>
      BodyInOrder(orelse) && (IsFalseGuard(test) || (ExprInOrder(test) && BodyInOrder(body)))
    case Loop(before, head, body, orelse) =>
      ExprsInOrder(head) && ExprsInOrder(before) && BodyInOrder(body) && BodyInOrder(orelse)
    case Try(body, handlers, orelse, finalbody) =>
      BodyInOrder(body) && HandlersInOrder(handlers) && BodyInOrder(orelse) && BodyInOrder(finalbody)
    case With(items, body) => ExprsInOrder(items) && BodyInOrder(body)
    case FunctionDef(decorators, defaults, _) => ExprsInOrder(decorators) && ExprsInOrder(defaults)
    case ClassDef(decorators, bases, body) =>
      && ExprsInOrder(decorators) && ArgumentsInOrder(bases) && BodyInOrder(body)
      && (ExprsCalls(decorators) == [] || (ArgumentsCalls(bases) == [] && BodyCalls(body) == []))
  }

  predicate HandlerInOrder(h: Handler)
    decreases h, 1
  {
    ExprsInOrder(h.types) && BodyInOrder(h.body)
  }

  predicate HandlersInOrder(hs: seq<Handler>)
    decreases hs, 0
  {
    hs == [] || (HandlerInOrder(hs[0]) && HandlersInOrder(hs[1..]))
  }

  predicate BodyInOrder(body: seq<Stmt>)
    decreases body, 0
  {
    body == [] || (StmtInOrder(body[0]) && BodyInOrder(body[1..]))
  }

  lemma {:induction false} ExprAsWritten(e: Expr)
    requires ExprInOrder(e)
    ensures ExprCalls(e) == ExprText(e)
    decreases e, 1
  {
    match e
    case Name(_) | Constant(_) =>
    case Attribute(base, _) => ExprAsWritten(base);
    case Call(_, func, args) => ExprAsWritten(func); ArgumentsAsWritten(args);
    case Compare(_, left, comparators) => ExprAsWritten(left); ExprsAsWritten(comparators);
    case BoolOp(first, others) => ExprAsWritten(first); ExprsAsWritten(others);
    case IfExp(test, body, orelse) => ExprAsWritten(test); ExprAsWritten(body); ExprAsWritten(orelse);
    case Lambda(defaults, _) => ExprsAsWritten(defaults);
    case Comprehension(parts) => ExprsAsWritten(parts);
    case Dict(entries) => EntriesAsWritten(entries);
    case Operands(parts) => ExprsAsWritten(parts);
  }

  lemma {:induction false} ExprsAsWritten(es: seq<Expr>)
    requires ExprsInOrder(es)
    ensures ExprsCalls(es) == ExprsText(es)
    decreases es, 0
  {
    if es != [] {
      ExprAsWritten(es[0]);
      ExprsAsWritten(es[1..]);
    }
  }

  lemma {:induction false} EntriesAsWritten(entries: seq<Pair>)
    requires EntriesInOrder(entries)
    ensures KeysCalls(entries) + ValuesCalls(entries) == EntriesText(entries)
    decreases entries, 0
  {
    if entries != [] {
      PairAsWritten(entries[0]);
      EntriesAsWritten(entries[1..]);
      Interleaved(KeyCalls(entries[0]), ValueCalls(entries[0]), KeysCalls(entries[1..]), ValuesCalls(entries[1..]));
    }
  }

  lemma {:induction false} ArgumentsAsWritten(args: Arguments)
    requires ArgumentsInOrder(args)
    ensures ArgumentsCalls(args) == ArgumentsText(args)
    decreases args, 2
  {
    WovenAsWritten(args, 0, 0, 0);
    assert args.positional[0..] == args.positional && args.named[0..] == args.named;
  }

  lemma {:induction false} WovenAsWritten(args: Arguments, i: nat, j: nat, k: nat)
    requires Within(args, i, j, k) && WovenInOrder(args, i, j, k)
    ensures From(args.positional, i) + From(args.named, j) == WovenText(args, i, j, k)
    decreases args, 1, Left(args, i, j, k)
  {
    if NamedNext(args, i, j, k) {
      ExprAsWritten(args.named[j]);
      FromNext(args.named, j);
      WovenAsWritten(args, i, j + 1, NextPlace(args, k));
      Interleaved([], ExprCalls(args.named[j]), From(args.positional, i), From(args.named, j + 1));
    } else if i < |args.positional| {
      ExprAsWritten(args.positional[i]);
      FromNext(args.positional, i);
      WovenAsWritten(args, i + 1, j, NextPlace(args, k));
    } else {
      FromEnd(args.positional);
      FromEnd(args.named);
    }
  }

  lemma Interleaved(key: seq<nat>, value: seq<nat>, keys: seq<nat>, values: seq<nat>)
    requires value == [] || keys == []
    ensures key + keys + (value + values) == key + value + (keys + values)
  {
  }

  lemma {:induction false} PairAsWritten(pair: Pair)
    requires PairInOrder(pair)
    ensures KeyCalls(pair) + ValueCalls(pair) == PairText(pair)
    decreases pair, 2
  {
    ExprAsWritten(pair.key);
    ExprAsWritten(pair.value);
  }

  lemma {:induction false} StmtAsWritten(s: Stmt)
    requires StmtInOrder(s)
    ensures StmtCalls(s) == StmtText(s)
    decreases s, 1
  {
    match s
    case Do(parts) => ExprsAsWritten(parts);
    case Raise(parts) => ExprsAsWritten(parts);
    case Import(_) | ImportFrom(_, _, _) | Break | Continue =>
    case If(test, body, orelse) =>
      BodyAsWritten(orelse);
      if !IsFalseGuard(test) {
        ExprAsWritten(test);
        BodyAsWritten(body);
      }
    case Loop(before, head, body, orelse) =>
      ExprsAsWritten(head);
      ExprsAsWritten(before);
      BodyAsWritten(body);
      BodyAsWritten(orelse);
    case Try(body, handlers, orelse, finalbody) =>
      BodyAsWritten(body);
      HandlersAsWritten(handlers);
      BodyAsWritten(orelse);
      BodyAsWritten(finalbody);
    case With(items, body) => ExprsAsWritten(items); BodyAsWritten(body);
    case FunctionDef(decorators, defaults, _) => ExprsAsWritten(decorators); ExprsAsWritten(defaults);
    case ClassDef(decorators, bases, body) =>
      ExprsAsWritten(decorators);
      ArgumentsAsWritten(bases);
      BodyAsWritten(body);
      Moved(ExprsCalls(decorators), ArgumentsCalls(bases), BodyCalls(body));
  }

  lemma Moved(last: seq<nat>, a: seq<nat>, b: seq<nat>)
    requires last == [] || (a == [] && b == [])
    ensures a + b + last == last + a + b
  {
  }

  lemma {:induction false} HandlerAsWritten(h: Handler)
    requires HandlerInOrder(h)
    ensures HandlerCalls(h) == HandlerText(h)
    decreases h, 1
  {
    ExprsAsWritten(h.types);
    BodyAsWritten(h.body);
  }

  lemma {:induction false} HandlersAsWritten(hs: seq<Handler>)
    requires HandlersInOrder(hs)
    ensures HandlersCalls(hs) == HandlersText(hs)
    decreases hs, 0
  {
    if hs != [] {
      HandlerAsWritten(hs[0]);
      HandlersAsWritten(hs[1..]);
    }
  }

  /** Without those forms the calls are recorded as written. */
  lemma {:induction false} BodyAsWritten(body: seq<Stmt>)
    requires BodyInOrder(body)
    ensures BodyCalls(body) == BodyText(body)
    decreases body, 0
  {
    if body != [] {
      StmtAsWritten(body[0]);
      BodyAsWritten(body[1..]);
    }
  }

  // ----- and only those forms lose it

  lemma Distinct2(a: seq<nat>, b: seq<nat>)
    requires NoDuplicates(a + b)
    ensures NoDuplicates(a) && NoDuplicates(b) && forall x :: x in a ==> x !in b
  {
    forall i, j | 0 <= i < j < |a| ensures a[i] != a[j] {
      assert (a + b)[i] == a[i] && (a + b)[j] == a[j];
    }
    forall i, j | 0 <= i < j < |b| ensures b[i] != b[j] {
      assert (a + b)[|a| + i] == b[i] && (a + b)[|a| + j] == b[j];
    }
    forall i, j | 0 <= i < |a| && 0 <= j < |b| ensures a[i] != b[j] {
      assert (a + b)[i] == a[i] && (a + b)[|a| + j] == b[j];
    }
  }

  lemma SameLength(a: seq<nat>, b: seq<nat>)
    requires Rearranged(a, b)
    ensures |a| == |b| && forall x :: x in a <==> x in b
  {
    assert |multiset(a)| == |a| && |multiset(b)| == |b|;
    forall x ensures x in a <==> x in b {
      assert x in multiset(a) <==> x in multiset(b);
    }
  }

  /** Equal joins of rearranged parts have equal parts. */
  lemma Apart(a: seq<nat>, b: seq<nat>, a': seq<nat>, b': seq<nat>)
    requires a + b == a' + b' && Rearranged(a, a')
    ensures a == a' && b == b'
  {
    SameLength(a, a');
    assert a == (a + b)[..|a|] && a' == (a' + b')[..|a|];
    assert b == (a + b)[|a|..] && b' == (a' + b')[|a|..];
  }

  /** What is written first is walked first, when there is anything to be walked before it. */
  lemma Passed(front: seq<nat>, moved: seq<nat>, back: seq<nat>, moved': seq<nat>, rest': seq<nat>)
    requires front + moved + back == moved' + rest' && Rearranged(moved, moved')
    requires NoDuplicates(front + moved + back)
    ensures front == [] || moved == []
    ensures moved == moved' && front + back == rest'
  {
    SameLength(moved, moved');
    Distinct2(front + moved, back);
    Distinct2(front, moved);
    assert |moved'| > 0 ==> (moved' + rest')[0] in moved';
    if front == [] {
      assert front + moved + back == moved + back;
      Apart(moved, back, moved', rest');
      assert front + back == back;
    } else {
      assert (front + moved + back)[0] == front[0] && front[0] in front;
      assert front[0] !in moved';
      assert moved' == [];
      assert front + moved + back == front + back && moved' + rest' == rest';
    }
  }

  ghost predicate AsWritten(calls: seq<nat>, text: seq<nat>) {
    NoDuplicates(calls) && calls == text
  }

  /** Two parts in their order. */
  lemma Both(a: seq<nat>, b: seq<nat>, a': seq<nat>, b': seq<nat>)
    requires AsWritten(a + b, a' + b') && Rearranged(a, a')
    ensures AsWritten(a, a') && AsWritten(b, b')
  {
    Distinct2(a, b);
    Apart(a, b, a', b');
  }

  lemma {:induction false} ExprOnlyInOrder(e: Expr)
    requires AsWritten(ExprCalls(e), ExprText(e))
    ensures ExprInOrder(e)
    decreases e, 1
  {
    match e
    case Name(_) | Constant(_) =>
    case Attribute(base, _) => ExprOnlyInOrder(base);
    case Call(_, _, _) => CallOnlyInOrder(e);
    case Compare(_, left, comparators) =>
      ExprRearranged(left);
      Both(ExprCalls(left), ExprsCalls(comparators), ExprText(left), ExprsText(comparators));
      ExprOnlyInOrder(left);
      ExprsOnlyInOrder(comparators);
    case BoolOp(first, others) =>
      ExprRearranged(first);
      Both(ExprCalls(first), ExprsCalls(others), ExprText(first), ExprsText(others));
      ExprOnlyInOrder(first);
      ExprsOnlyInOrder(others);
    case IfExp(_, _, _) => IfExpOnlyInOrder(e);
    case Lambda(defaults, _) => ExprsOnlyInOrder(defaults);
    case Comprehension(parts) => ExprsOnlyInOrder(parts);
    case Dict(entries) => EntriesOnlyInOrder(entries);
    case Operands(parts) => ExprsOnlyInOrder(parts);
  }

  lemma {:induction false} CallOnlyInOrder(e: Expr)
    requires e.Call? && AsWritten(ExprCalls(e), ExprText(e))
    ensures ExprInOrder(e)
    decreases e, 0
  {
    ExprRearranged(e.func);
    Both([e.node] + ExprCalls(e.func), ArgumentsCalls(e.args), [e.node] + ExprText(e.func), ArgumentsText(e.args));
    Both([e.node], ExprCalls(e.func), [e.node], ExprText(e.func));
    ExprOnlyInOrder(e.func);
    ArgumentsOnlyInOrder(e.args);
  }

  lemma {:induction false} IfExpOnlyInOrder(e: Expr)
    requires e.IfExp? && AsWritten(ExprCalls(e), ExprText(e))
    ensures ExprInOrder(e)
    decreases e, 0
  {
    var test, body, orelse := ExprCalls(e.test), ExprCalls(e.body), ExprCalls(e.orelse);
    ExprRearranged(e.test);
    ExprRearranged(e.body);
    assert ExprText(e) == ExprText(e.body) + (ExprText(e.test) + ExprText(e.orelse));
    Distinct2(test + body, orelse);
    Distinct2(test, body);
    Passed(test, body, orelse, ExprText(e.body), ExprText(e.test) + ExprText(e.orelse));
    Apart(test, orelse, ExprText(e.test), ExprText(e.orelse));
    ExprOnlyInOrder(e.test);
    ExprOnlyInOrder(e.body);
    ExprOnlyInOrder(e.orelse);
  }

  lemma {:induction false} ExprsOnlyInOrder(es: seq<Expr>)
    requires AsWritten(ExprsCalls(es), ExprsText(es))
    ensures ExprsInOrder(es)
    decreases es, 0
  {
    if es != [] {
      ExprRearranged(es[0]);
      Both(ExprCalls(es[0]), ExprsCalls(es[1..]), ExprText(es[0]), ExprsText(es[1..]));
      ExprOnlyInOrder(es[0]);
      ExprsOnlyInOrder(es[1..]);
    }
  }

  lemma {:induction false} EntriesOnlyInOrder(entries: seq<Pair>)
    requires AsWritten(KeysCalls(entries) + ValuesCalls(entries), EntriesText(entries))
    ensures EntriesInOrder(entries)
    decreases entries, 0
  {
    if entries != [] {
      var pair, rest := entries[0], entries[1..];
      var key, keys, value, values := KeyCalls(pair), KeysCalls(rest), ValueCalls(pair), ValuesCalls(rest);
      PairRearranged(pair);
      assert KeysCalls(entries) + ValuesCalls(entries) == key + keys + (value + values);
      assert EntriesText(entries) == ExprText(pair.key) + ExprText(pair.value) + EntriesText(rest);
      EntryParts(key, keys, value, values, ExprText(pair.key), ExprText(pair.value), EntriesText(rest));
      PairOnlyInOrder(pair);
      EntriesOnlyInOrder(rest);
    }
  }

  lemma EntryParts(key: seq<nat>, keys: seq<nat>, value: seq<nat>, values: seq<nat>,
                   key': seq<nat>, value': seq<nat>, rest': seq<nat>)
    requires AsWritten(key + keys + (value + values), key' + value' + rest')
    requires Rearranged(key, key') && Rearranged(value, value')
    ensures AsWritten(key, key') && AsWritten(value, value') && AsWritten(keys + values, rest')
    ensures value == [] || keys == []
  {
    assert key + keys + (value + values) == key + (keys + value + values);
    assert key' + value' + rest' == key' + (value' + rest');
    Both(key, keys + value + values, key', value' + rest');
    Passed(keys, value, values, value', rest');
    Distinct2(keys + value, values);
    Distinct2(keys, value);
    Outer(keys, value, values);
  }

  lemma NothingFirst(keys: seq<nat>, value: seq<nat>, values: seq<nat>, value': seq<nat>, rest': seq<nat>)
    ensures [] + keys + (value + values) == keys + (value + values)
    ensures [] + value' + rest' == value' + rest'
  {
  }

  lemma Outer(a: seq<nat>, b: seq<nat>, c: seq<nat>)
    requires NoDuplicates(a + b + c) && (a == [] || b == [])
    ensures NoDuplicates(a + c)
  {
    if a == [] {
      assert a + b + c == b + c && a + c == c;
      Distinct2(b, c);
    } else {
      assert a + b + c == a + c;
    }
  }

  lemma {:induction false} PairOnlyInOrder(pair: Pair)
    requires AsWritten(KeyCalls(pair), ExprText(pair.key)) && AsWritten(ValueCalls(pair), ExprText(pair.value))
    ensures PairInOrder(pair)
    decreases pair, 2
  {
    ExprOnlyInOrder(pair.key);
    ExprOnlyInOrder(pair.value);
  }

  lemma {:induction false} ArgumentsOnlyInOrder(args: Arguments)
    requires AsWritten(ArgumentsCalls(args), ArgumentsText(args))
    ensures ArgumentsInOrder(args)
    decreases args, 2
  {
    assert args.positional[0..] == args.positional && args.named[0..] == args.named;
    WovenOnlyInOrder(args, 0, 0, 0);
  }

  lemma {:induction false} WovenOnlyInOrder(args: Arguments, i: nat, j: nat, k: nat)
    requires Within(args, i, j, k)
    requires AsWritten(From(args.positional, i) + From(args.named, j), WovenText(args, i, j, k))
    ensures WovenInOrder(args, i, j, k)
    decreases args, 1, Left(args, i, j, k)
  {
    if NamedNext(args, i, j, k) {
      var next := NextPlace(args, k);
      ExprRearranged(args.named[j]);
      FromNext(args.named, j);
      NothingFirst(From(args.positional, i), ExprCalls(args.named[j]), From(args.named, j + 1),
                   ExprText(args.named[j]), WovenText(args, i, j + 1, next));
      EntryParts([], From(args.positional, i), ExprCalls(args.named[j]), From(args.named, j + 1),
                 [], ExprText(args.named[j]), WovenText(args, i, j + 1, next));
      ExprOnlyInOrder(args.named[j]);
      WovenOnlyInOrder(args, i, j + 1, next);
    } else if i < |args.positional| {
      var first, rest := ExprCalls(args.positional[i]), From(args.positional, i + 1);
      ExprRearranged(args.positional[i]);
      FromNext(args.positional, i);
      assert first + rest + From(args.named, j) == first + (rest + From(args.named, j));
      Both(first, rest + From(args.named, j), ExprText(args.positional[i]),
           WovenText(args, i + 1, j, NextPlace(args, k)));
      ExprOnlyInOrder(args.positional[i]);
      WovenOnlyInOrder(args, i + 1, j, NextPlace(args, k));
    }
  }

  lemma {:induction false} StmtOnlyInOrder(s: Stmt)
    requires AsWritten(StmtCalls(s), StmtText(s))
    ensures StmtInOrder(s)
    decreases s, 1
  {
    match s
    case Do(parts) => ExprsOnlyInOrder(parts);
    case Raise(parts) => ExprsOnlyInOrder(parts);
    case Import(_) | ImportFrom(_, _, _) | Break | Continue =>
    case If(_, _, _) => IfOnlyInOrder(s);
    case Loop(_, _, _, _) => LoopOnlyInOrder(s);
    case Try(_, _, _, _) => TryOnlyInOrder(s);
    case With(items, body) =>
      ExprsRearranged(items);
      Both(ExprsCalls(items), BodyCalls(body), ExprsText(items), BodyText(body));
      ExprsOnlyInOrder(items);
      BodyOnlyInOrder(body);
    case FunctionDef(decorators, defaults, _) =>
      ExprsRearranged(decorators);
      Both(ExprsCalls(decorators), ExprsCalls(defaults), ExprsText(decorators), ExprsText(defaults));
      ExprsOnlyInOrder(decorators);
      ExprsOnlyInOrder(defaults);
    case ClassDef(_, _, _) => ClassOnlyInOrder(s);
  }

  lemma {:induction false} IfOnlyInOrder(s: Stmt)
    requires s.If? && AsWritten(StmtCalls(s), StmtText(s))
    ensures StmtInOrder(s)
    decreases s, 0
  {
    if !IsFalseGuard(s.test) {
      ExprRearranged(s.test);
      BodyRearranged(s.body);
      Both(ExprCalls(s.test) + BodyCalls(s.body), BodyCalls(s.orelse),
           ExprText(s.test) + BodyText(s.body), BodyText(s.orelse));
      Both(ExprCalls(s.test), BodyCalls(s.body), ExprText(s.test), BodyText(s.body));
      ExprOnlyInOrder(s.test);
      BodyOnlyInOrder(s.body);
    }
    BodyOnlyInOrder(s.orelse);
  }

  lemma Four(a: seq<nat>, b: seq<nat>, c: seq<nat>, d: seq<nat>,
             a': seq<nat>, b': seq<nat>, c': seq<nat>, d': seq<nat>)
    requires AsWritten(a + b + c + d, a' + b' + c' + d')
    requires Rearranged(a, a') && Rearranged(b, b') && Rearranged(c, c')
    ensures AsWritten(a, a') && AsWritten(b, b') && AsWritten(c, c') && AsWritten(d, d')
  {
    Both(a + b + c, d, a' + b' + c', d');
    Both(a + b, c, a' + b', c');
    Both(a, b, a', b');
  }

  lemma {:induction false} LoopOnlyInOrder(s: Stmt)
    requires s.Loop? && AsWritten(StmtCalls(s), StmtText(s))
    ensures StmtInOrder(s)
    decreases s, 0
  {
    ExprsRearranged(s.head);
    ExprsRearranged(s.before);
    BodyRearranged(s.body);
    Four(ExprsCalls(s.head), ExprsCalls(s.before), BodyCalls(s.body), BodyCalls(s.orelse),
         ExprsText(s.head), ExprsText(s.before), BodyText(s.body), BodyText(s.orelse));
    ExprsOnlyInOrder(s.head);
    ExprsOnlyInOrder(s.before);
    BodyOnlyInOrder(s.body);
    BodyOnlyInOrder(s.orelse);
  }

  lemma {:induction false} TryOnlyInOrder(s: Stmt)
    requires s.Try? && AsWritten(StmtCalls(s), StmtText(s))
    ensures StmtInOrder(s)
    decreases s, 0
  {
    BodyRearranged(s.body);
    HandlersRearranged(s.handlers);
    BodyRearranged(s.orelse);
    Four(BodyCalls(s.body), HandlersCalls(s.handlers), BodyCalls(s.orelse), BodyCalls(s.finalbody),
         BodyText(s.body), HandlersText(s.handlers), BodyText(s.orelse), BodyText(s.finalbody));
    BodyOnlyInOrder(s.body);
    HandlersOnlyInOrder(s.handlers);
    BodyOnlyInOrder(s.orelse);
    BodyOnlyInOrder(s.finalbody);
  }

  lemma {:induction false} ClassOnlyInOrder(s: Stmt)
    requires s.ClassDef? && AsWritten(StmtCalls(s), StmtText(s))
    ensures StmtInOrder(s)
    decreases s, 0
  {
    var bases, body, decorators := ArgumentsCalls(s.bases), BodyCalls(s.body), ExprsCalls(s.decorators);
    ExprsRearranged(s.decorators);
    ArgumentsRearranged(s.bases);
    assert bases + body + decorators == bases + body + decorators + [];
    assert StmtText(s) == ExprsText(s.decorators) + (ArgumentsText(s.bases) + BodyText(s.body));
    Passed(bases + body, decorators, [], ExprsText(s.decorators), ArgumentsText(s.bases) + BodyText(s.body));
    assert bases + body + [] == bases + body;
    Distinct2(bases + body, decorators);
    Both(bases, body, ArgumentsText(s.bases), BodyText(s.body));
    ExprsOnlyInOrder(s.decorators);
    ArgumentsOnlyInOrder(s.bases);
    BodyOnlyInOrder(s.body);
  }

  lemma {:induction false} HandlerOnlyInOrder(h: Handler)
    requires AsWritten(HandlerCalls(h), HandlerText(h))
    ensures HandlerInOrder(h)
    decreases h, 1
  {
    ExprsRearranged(h.types);
    Both(ExprsCalls(h.types), BodyCalls(h.body), ExprsText(h.types), BodyText(h.body));
    ExprsOnlyInOrder(h.types);
    BodyOnlyInOrder(h.body);
  }

  lemma {:induction false} HandlersOnlyInOrder(hs: seq<Handler>)
    requires AsWritten(HandlersCalls(hs), HandlersText(hs))
    ensures HandlersInOrder(hs)
    decreases hs, 0
  {
    if hs != [] {
      HandlerRearranged(hs[0]);
      Both(HandlerCalls(hs[0]), HandlersCalls(hs[1..]), HandlerText(hs[0]), HandlersText(hs[1..]));
      HandlerOnlyInOrder(hs[0]);
      HandlersOnlyInOrder(hs[1..]);
    }
  }

  lemma {:induction false} BodyOnlyInOrder(body: seq<Stmt>)
    requires AsWritten(BodyCalls(body), BodyText(body))
    ensures BodyInOrder(body)
    decreases body, 0
  {
    if body != [] {
      StmtRearranged(body[0]);
      Both(StmtCalls(body[0]), BodyCalls(body[1..]), StmtText(body[0]), BodyText(body[1..]));
      StmtOnlyInOrder(body[0]);
      BodyOnlyInOrder(body[1..]);
    }
  }

  /** A module whose call nodes are distinct is recorded as written if and only if it has none of
      those forms with calls on both sides. */
  lemma RecordedAsWrittenExactly(body: seq<Stmt>)
    requires NoDuplicates(BodyCalls(body))
    ensures BodyCalls(body) == BodyText(body) <==> BodyInOrder(body)
  {
    if BodyInOrder(body) {
      BodyAsWritten(body);
    }
    if BodyCalls(body) == BodyText(body) {
      BodyOnlyInOrder(body);
    }
  }

  // ----- inputs that lose the order

  const NONE := Arguments([], [], [])

  function PlainCall(node: nat, name: string): Expr {
    Call(node, Name(name), NONE)
  }

  /** `x = get() if head() else 0` and `@get() class C(head()): ...` are recorded otherwise than written. */
  lemma OrderIsLost(get: nat, head: nat)
    ensures var getCall, headCall := PlainCall(get, "get"), PlainCall(head, "head");
            && ExprCalls(IfExp(headCall, getCall, Constant("0"))) == [head, get]
            && ExprText(IfExp(headCall, getCall, Constant("0"))) == [get, head]
            && StmtCalls(ClassDef([getCall], Arguments([headCall], [], [false]), [])) == [head, get]
            && StmtText(ClassDef([getCall], Arguments([headCall], [], [false]), [])) == [get, head]
  {
    PlainCalls(get, "get");
    PlainCalls(head, "head");
    OneArgument(PlainCall(head, "head"));
  }

  lemma PlainCalls(node: nat, name: string)
    ensures ExprCalls(PlainCall(node, name)) == [node] == ExprText(PlainCall(node, name))
    ensures ExprsCalls([PlainCall(node, name)]) == [node] == ExprsText([PlainCall(node, name)])
  {
    var call := PlainCall(node, name);
    assert [call][1..] == [];
    assert WovenText(NONE, 0, 0, 0) == [] && ArgumentsCalls(NONE) == [];
    assert ExprCalls(call) == [node] == ExprText(call);
  }

  lemma OneArgument(arg: Expr)
    ensures ArgumentsCalls(Arguments([arg], [], [false])) == ExprCalls(arg)
    ensures ArgumentsText(Arguments([arg], [], [false])) == ExprText(arg)
  {
    var args := Arguments([arg], [], [false]);
    assert [arg][1..] == [];
    assert WovenText(args, 1, 0, 1) == [];
    assert WovenText(args, 0, 0, 0) == ExprText(arg) + WovenText(args, 1, 0, 1);
  }

  /** `f(key=get(), *head())`: the starred argument is recorded first, and so it is in a class. */
  lemma StarredOrderIsLost(node: nat, get: nat, head: nat)
    ensures var args := Arguments([PlainCall(head, "head")], [PlainCall(get, "get")], [true, false]);
            && ExprCalls(Call(node, Name("f"), args)) == [node, head, get]
            && ExprText(Call(node, Name("f"), args)) == [node, get, head]
            && StmtCalls(ClassDef([], args, [])) == [head, get]
            && StmtText(ClassDef([], args, [])) == [get, head]
  {
    var args := Arguments([PlainCall(head, "head")], [PlainCall(get, "get")], [true, false]);
    PlainCalls(get, "get");
    PlainCalls(head, "head");
    StarredText(args);
  }

  lemma StarredText(args: Arguments)
    requires |args.positional| == |args.named| == 1 && args.written == [true, false]
    ensures ArgumentsText(args) == ExprText(args.named[0]) + ExprText(args.positional[0])
  {
    assert WovenText(args, 1, 1, 2) == [];
    assert WovenText(args, 0, 1, 1) == ExprText(args.positional[0]) + WovenText(args, 1, 1, 2);
    assert WovenText(args, 0, 0, 0) == ExprText(args.named[0]) + WovenText(args, 0, 1, 1);
  }

  /** `{a: get(), head(): b}` is recorded keys first. */
  lemma DisplayOrderIsLost(get: nat, head: nat, a: string, b: string)
    ensures var display := Dict([Pair(Name(a), PlainCall(get, "get")), Pair(PlainCall(head, "head"), Name(b))]);
            ExprCalls(display) == [head, get] && ExprText(display) == [get, head]
  {
    PlainCalls(get, "get");
    PlainCalls(head, "head");
    var first, second := Pair(Name(a), PlainCall(get, "get")), Pair(PlainCall(head, "head"), Name(b));
    LastEntry(second);
    var entries := [first, second];
    assert entries[0] == first && entries[1..] == [second];
    assert KeyCalls(first) == [] && ValueCalls(first) == [get] == PairText(first);
    assert KeyCalls(second) == [head] == PairText(second) && ValueCalls(second) == [];
    assert KeysCalls(entries) == KeyCalls(first) + KeysCalls([second]);
    assert ValuesCalls(entries) == ValueCalls(first) + ValuesCalls([second]);
    assert EntriesText(entries) == PairText(first) + EntriesText([second]);
  }

  lemma LastEntry(pair: Pair)
    ensures KeysCalls([pair]) == KeyCalls(pair) && ValuesCalls([pair]) == ValueCalls(pair)
    ensures EntriesText([pair]) == PairText(pair)
  {
    assert [pair][1..] == [];
  }
}
