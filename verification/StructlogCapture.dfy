/** Capturing structlog events through user reconfiguration (`logging.py`: `_with_captures`,
    `_install_structlog_capture_interceptor` with its closures,
    `_uninstall_structlog_capture_interceptor`). Captures come and go in any order. */
module StructlogCapture {
  import opened Prelude
  import opened Ordering

  type CaptureId = nat

  datatype Processor = User(id: nat) | Capture(capture: CaptureId)
  datatype Callable = Original | Interceptor

  /** structlog's configuration, the two patched callables, and the closures' variables;
      `captures` is empty when nothing is installed. */
  datatype State = State(
    chain: seq<Processor>, cache: bool, configured: bool,
    configure: Callable, configureOnce: Callable,
    captures: seq<CaptureId>, savedCache: bool)

  datatype Op =
    | Install(capture: CaptureId)
    | Uninstall(capture: CaptureId)
    | Configure(processors: Option<seq<Processor>>, cache: Option<bool>)
    | ConfigureOnce(processors: Option<seq<Processor>>, cache: Option<bool>)

  // ----- chains

  function Without(chain: seq<Processor>, captures: seq<CaptureId>): seq<Processor> {
    if chain == [] then []
    else if chain[0].Capture? && chain[0].capture in captures then Without(chain[1..], captures)
    else [chain[0]] + Without(chain[1..], captures)
  }

  function AsProcessors(captures: seq<CaptureId>): (r: seq<Processor>)
    ensures |r| == |captures| && forall i :: 0 <= i < |r| ==> r[i] == Capture(captures[i])
  {
    seq(|captures|, i requires 0 <= i < |captures| => Capture(captures[i]))
  }

  /** `captures` as a block just before the last of `chain`. */
  function Inserted(chain: seq<Processor>, captures: seq<CaptureId>): seq<Processor> {
    if chain == [] then AsProcessors(captures)
    else chain[..|chain| - 1] + AsProcessors(captures) + [chain[|chain| - 1]]
  }

  function WithCaptures(chain: seq<Processor>, captures: seq<CaptureId>): seq<Processor> {
    Inserted(Without(chain, captures), captures)
  }

  /** The user's own processors. */
  function Erased(chain: seq<Processor>): seq<Processor> {
    if chain == [] then []
    else if chain[0].Capture? then Erased(chain[1..])
    else [chain[0]] + Erased(chain[1..])
  }

  ghost predicate CaptureFree(chain: seq<Processor>) {
    forall p :: p in chain ==> p.User?
  }

  function Removed(captures: seq<CaptureId>, c: CaptureId): seq<CaptureId> {
    if captures == [] then []
    else if captures[0] == c then Removed(captures[1..], c)
    else [captures[0]] + Removed(captures[1..], c)
  }

  // ----- the operations

  function Or<T>(given: Option<T>, current: T): T {
    if given.Some? then given.value else current
  }

  /** structlog's own `configure`. */
  function RealConfigure(s: State, processors: Option<seq<Processor>>, cache: Option<bool>): State {
    s.(chain := Or(processors, s.chain), cache := Or(cache, s.cache), configured := true)
  }

  /** structlog's own `configure_once`: only a warning once configured. */
  function RealConfigureOnce(s: State, processors: Option<seq<Processor>>, cache: Option<bool>): State {
    if s.configured then s else RealConfigure(s, processors, cache)
  }

  function Recaptured(s: State): State {
    RealConfigure(s, Some(WithCaptures(s.chain, s.captures)), None)
  }

  function Installed(s: State, c: CaptureId): State {
    if s.captures == [] then
      RealConfigure(s.(savedCache := s.cache, captures := [c], configure := Interceptor, configureOnce := Interceptor),
                    Some(WithCaptures(s.chain, [c])), Some(false))
    else if c in s.captures then s
    else Recaptured(s.(captures := s.captures + [c]))
  }

  function Uninstalled(s: State, c: CaptureId): State {
    if c !in s.captures then s
    else
      var left := Removed(s.captures, c);
      var current := Without(s.chain, [c]);
      if left != [] then Recaptured(s.(captures := left, chain := current))
      else RealConfigure(s.(captures := [], configure := Original, configureOnce := Original), Some(current),
                         Some(s.savedCache))
  }

  function Done(s: State, op: Op): State {
    match op
    case Install(c) => Installed(s, c)
    case Uninstall(c) => Uninstalled(s, c)
    case Configure(processors, cache) =>
      var t := RealConfigure(s, processors, cache);
      if s.configure.Interceptor? then Recaptured(t) else t
    case ConfigureOnce(processors, cache) =>
      var t := RealConfigureOnce(s, processors, cache);
      if s.configureOnce.Interceptor? then Recaptured(t) else t
  }

  function DoneAll(s: State, ops: seq<Op>): State {
    if ops == [] then s else Done(DoneAll(s, ops[..|ops| - 1]), ops[|ops| - 1])
  }

  // ----- facts about chains

  ghost predicate CapturesIn(chain: seq<Processor>, captures: seq<CaptureId>) {
    forall p :: p in chain && p.Capture? ==> p.capture in captures
  }

  lemma {:induction false} ErasedAppended(a: seq<Processor>, b: seq<Processor>)
    ensures Erased(a + b) == Erased(a) + Erased(b)
  {
    if a == [] {
      assert a + b == b;
    } else {
      assert (a + b)[1..] == a[1..] + b;
      ErasedAppended(a[1..], b);
    }
  }

  lemma {:induction false} ErasedCaptures(chain: seq<Processor>)
    requires forall p :: p in chain ==> p.Capture?
    ensures Erased(chain) == []
  {
    if chain != [] {
      assert chain[0] in chain;
      ErasedCaptures(chain[1..]);
    }
  }

  lemma {:induction false} ErasedIsUsers(chain: seq<Processor>)
    ensures forall p :: p in Erased(chain) ==> p.User?
    ensures Erased(Erased(chain)) == Erased(chain)
  {
    if chain != [] {
      ErasedIsUsers(chain[1..]);
      if chain[0].User? {
        assert ([chain[0]] + Erased(chain[1..]))[1..] == Erased(chain[1..]);
      }
    }
  }

  lemma {:induction false} WithoutIsErased(chain: seq<Processor>, captures: seq<CaptureId>)
    requires CapturesIn(chain, captures)
    ensures Without(chain, captures) == Erased(chain)
  {
    if chain != [] {
      assert chain[0] in chain;
      WithoutIsErased(chain[1..], captures);
    }
  }

  lemma ErasedInserted(chain: seq<Processor>, captures: seq<CaptureId>)
    ensures Erased(Inserted(Erased(chain), captures)) == Erased(chain)
    ensures CapturesIn(Inserted(Erased(chain), captures), captures)
  {
    var base, block := Erased(chain), AsProcessors(captures);
    ErasedIsUsers(chain);
    ErasedCaptures(block);
    forall p | p in block ensures p.Capture? && p.capture in captures {
      var i :| 0 <= i < |block| && block[i] == p;
      assert captures[i] in captures;
    }
    if base != [] {
      var front, last := base[..|base| - 1], [base[|base| - 1]];
      assert base == front + last;
      ErasedAppended(front + block, last);
      ErasedAppended(front, block);
      ErasedAppended(front, last);
      forall p | p in front + block + last ensures p in base || p in block {
      }
    }
  }

  /** Recapturing a chain whose captures are all active puts exactly those in place. */
  lemma Recapturing(chain: seq<Processor>, captures: seq<CaptureId>)
    requires CapturesIn(chain, captures)
    ensures WithCaptures(chain, captures) == Inserted(Erased(chain), captures)
    ensures Erased(WithCaptures(chain, captures)) == Erased(chain)
  {
    WithoutIsErased(chain, captures);
    ErasedInserted(chain, captures);
  }

  lemma {:induction false} WithoutOne(chain: seq<Processor>, c: CaptureId, captures: seq<CaptureId>)
    requires CapturesIn(chain, captures)
    ensures Erased(Without(chain, [c])) == Erased(chain)
    ensures CapturesIn(Without(chain, [c]), Removed(captures, c))
  {
    if chain != [] {
      assert chain[0] in chain;
      assert CapturesIn(chain[1..], captures);
      WithoutOne(chain[1..], c, captures);
      RemovedMembers(captures, c);
      if !(chain[0].Capture? && chain[0].capture in [c]) {
        assert Without(chain, [c]) == [chain[0]] + Without(chain[1..], [c]);
        assert Without(chain, [c])[1..] == Without(chain[1..], [c]);
      }
    }
  }

  lemma {:induction false} RemovedMembers(captures: seq<CaptureId>, c: CaptureId)
    ensures forall d :: d in Removed(captures, c) <==> d in captures && d != c
    ensures NoDuplicates(captures) ==> NoDuplicates(Removed(captures, c))
  {
    if captures != [] {
      RemovedMembers(captures[1..], c);
      assert captures == [captures[0]] + captures[1..];
      if NoDuplicates(captures) {
        assert NoDuplicates(captures[1..]);
        assert captures[0] !in captures[1..];
      }
    }
  }

  // ----- what every operation keeps

  /** Each active capture once, as a block before the last of the user's own chain; both
      callables intercepted exactly while some capture is active. */
  ghost predicate Valid(s: State) {
    && NoDuplicates(s.captures)
    && s.chain == Inserted(Erased(s.chain), s.captures)
    && s.configure == s.configureOnce == (if s.captures == [] then Original else Interceptor)
    && (s.captures != [] ==> s.configured)
  }

  /** The user gives a chain without captures, or one read back and edited, whose captures
      are all active. */
  ghost predicate Fair(s: State, op: Op) {
    (op.Configure? || op.ConfigureOnce?) && op.processors.Some? ==> CapturesIn(op.processors.value, s.captures)
  }

  /** The chain the user has chosen, and whether `configure_once` is used up. */
  datatype Choice = Choice(chain: seq<Processor>, configured: bool)

  function ChoiceOf(s: State): Choice {
    Choice(Erased(s.chain), s.configured)
  }

  function Chosen(u: Choice, op: Op): Choice {
    match op
    case Install(_) => u.(configured := true)
    case Uninstall(_) => u
    case Configure(processors, _) => Choice(if processors.Some? then Erased(processors.value) else u.chain, true)
    case ConfigureOnce(processors, _) =>
      if u.configured then u else Choice(if processors.Some? then Erased(processors.value) else u.chain, true)
  }

  ghost predicate Kept(s: State, t: State, op: Op) {
    Valid(t) && ChoiceOf(t) == Chosen(ChoiceOf(s), op)
  }

  lemma ValidCaptures(s: State)
    requires Valid(s)
    ensures CapturesIn(s.chain, s.captures)
  {
    ErasedInserted(s.chain, s.captures);
  }

  lemma InstallKeeps(s: State, c: CaptureId)
    requires Valid(s)
    ensures Kept(s, Installed(s, c), Install(c))
  {
    ValidCaptures(s);
    Recapturing(s.chain, s.captures + [c]);
    assert s.captures == [] ==> s.captures + [c] == [c];
  }

  lemma NothingInserted(chain: seq<Processor>)
    ensures Inserted(chain, []) == chain
  {
  }

  lemma UninstallKeeps(s: State, c: CaptureId)
    requires Valid(s)
    ensures Kept(s, Uninstalled(s, c), Uninstall(c))
  {
    if c in s.captures {
      var left, current := Removed(s.captures, c), Without(s.chain, [c]);
      ValidCaptures(s);
      WithoutOne(s.chain, c, s.captures);
      RemovedMembers(s.captures, c);
      Recapturing(current, left);
      if left == [] {
        WithoutIsErased(current, []);
        WithoutNothing(current);
        NothingInserted(current);
      }
    }
  }

  lemma {:induction false} WithoutNothing(chain: seq<Processor>)
    ensures Without(chain, []) == chain
  {
    if chain != [] {
      WithoutNothing(chain[1..]);
    }
  }

  lemma ConfigureKeeps(s: State, t: State, op: Op)
    requires Valid(s) && Fair(s, op) && (op.Configure? || op.ConfigureOnce?)
    requires t == if op.Configure? then RealConfigure(s, op.processors, op.cache)
                  else RealConfigureOnce(s, op.processors, op.cache)
    ensures Kept(s, if s.captures == [] then t else Recaptured(t), op)
  {
    ValidCaptures(s);
    if s.captures == [] {
      OnlyUsers(t.chain);
    } else {
      Recapturing(t.chain, s.captures);
    }
  }

  lemma OnlyUsers(chain: seq<Processor>)
    requires CapturesIn(chain, [])
    ensures Erased(chain) == chain == Inserted(Erased(chain), [])
  {
    WithoutIsErased(chain, []);
    WithoutNothing(chain);
    NothingInserted(chain);
  }

  lemma DoneKeeps(s: State, op: Op)
    requires Valid(s) && Fair(s, op)
    ensures Kept(s, Done(s, op), op)
  {
    match op
    case Install(c) => InstallKeeps(s, c);
    case Uninstall(c) => UninstallKeeps(s, c);
    case Configure(_, _) => ConfigureKeeps(s, RealConfigure(s, op.processors, op.cache), op);
    case ConfigureOnce(_, _) => ConfigureKeeps(s, RealConfigureOnce(s, op.processors, op.cache), op);
  }

  // ----- whole runs

  ghost predicate FairRun(s: State, ops: seq<Op>) {
    forall i :: 0 <= i < |ops| ==> Fair(DoneAll(s, ops[..i]), ops[i])
  }

  function ChosenAll(u: Choice, ops: seq<Op>): Choice {
    if ops == [] then u else Chosen(ChosenAll(u, ops[..|ops| - 1]), ops[|ops| - 1])
  }

  /** Whether the latest install or uninstall of `c`, if any, is an install. */
  predicate LastInstalled(ops: seq<Op>, c: CaptureId) {
    ops != [] &&
    match ops[|ops| - 1]
    case Install(d) => c == d || LastInstalled(ops[..|ops| - 1], c)
    case Uninstall(d) => c != d && LastInstalled(ops[..|ops| - 1], c)
    case _ => LastInstalled(ops[..|ops| - 1], c)
  }

  lemma FairFront(s: State, ops: seq<Op>)
    requires ops != [] && FairRun(s, ops)
    ensures FairRun(s, ops[..|ops| - 1]) && Fair(DoneAll(s, ops[..|ops| - 1]), ops[|ops| - 1])
  {
    var front := ops[..|ops| - 1];
    forall i | 0 <= i < |front| ensures Fair(DoneAll(s, front[..i]), front[i]) {
      assert front[..i] == ops[..i];
    }
  }

  /** Over any run from an uncaptured start: the active captures are those installed last,
      each stands in the chain once, in one block before the last processor of the user's own
      latest chain, and the callables are the originals again once none is active. */
  lemma {:induction false} CapturesStayInPlace(s: State, ops: seq<Op>)
    requires Valid(s) && s.captures == [] && FairRun(s, ops)
    ensures var t := DoneAll(s, ops);
            && Valid(t)
            && ChoiceOf(t) == ChosenAll(ChoiceOf(s), ops)
            && t.chain == Inserted(ChosenAll(ChoiceOf(s), ops).chain, t.captures)
            && forall c :: c in t.captures <==> LastInstalled(ops, c)
  {
    if ops != [] {
      var front, last := ops[..|ops| - 1], ops[|ops| - 1];
      FairFront(s, ops);
      CapturesStayInPlace(s, front);
      DoneKeeps(DoneAll(s, front), last);
      ActiveAfter(DoneAll(s, front), last);
    }
  }

  lemma ActiveAfter(s: State, op: Op)
    ensures forall c :: c in Done(s, op).captures <==>
                        match op
                        case Install(d) => c == d || c in s.captures
                        case Uninstall(d) => c != d && c in s.captures
                        case _ => c in s.captures
  {
    if op.Uninstall? {
      RemovedMembers(s.captures, op.capture);
    }
  }

  lemma HasMember(captures: seq<CaptureId>)
    ensures captures == [] || exists c :: c in captures
  {
    if captures != [] {
      assert captures[0] in captures;
    }
  }

  lemma RestoredWhenIdle(t: State, chain: seq<Processor>)
    requires Valid(t) && t.chain == Inserted(chain, t.captures) && forall c :: c !in t.captures
    ensures t.chain == chain && t.configure == t.configureOnce == Original
  {
    HasMember(t.captures);
    NothingInserted(chain);
  }

  /** After the last uninstall the chain is the user's own and the callables are restored. */
  lemma LastUninstallRestores(s: State, ops: seq<Op>)
    requires Valid(s) && s.captures == [] && FairRun(s, ops)
    requires forall c :: !LastInstalled(ops, c)
    ensures DoneAll(s, ops).chain == ChosenAll(ChoiceOf(s), ops).chain
    ensures DoneAll(s, ops).configure == DoneAll(s, ops).configureOnce == Original
  {
    CapturesStayInPlace(s, ops);
    RestoredWhenIdle(DoneAll(s, ops), ChosenAll(ChoiceOf(s), ops).chain);
  }

  // ----- where capturing shows

  ghost predicate CapturingThroughout(s: State, ops: seq<Op>) {
    forall i :: 0 < i < |ops| ==> DoneAll(s, ops[..i]).captures != []
  }

  lemma SavedByStep(s: State, op: Op)
    requires s.captures != []
    ensures Done(s, op).savedCache == s.savedCache
    ensures Done(s, op).captures == [] ==> Done(s, op).cache == s.savedCache
  {
  }

  lemma {:induction false} SavedWhileCapturing(s: State, ops: seq<Op>)
    requires s.captures == [] && ops != [] && ops[0].Install? && CapturingThroughout(s, ops)
    ensures DoneAll(s, ops).savedCache == s.cache
    ensures DoneAll(s, ops).captures == [] ==> DoneAll(s, ops).cache == s.cache
  {
    var front, last := ops[..|ops| - 1], ops[|ops| - 1];
    if |ops| == 1 {
      assert DoneAll(s, front) == s;
    } else {
      forall i | 0 < i < |front| ensures DoneAll(s, front[..i]).captures != [] {
        assert front[..i] == ops[..i];
      }
      SavedWhileCapturing(s, front);
      assert front == ops[..|ops| - 1] && DoneAll(s, ops[..|ops| - 1]).captures != [];
      SavedByStep(DoneAll(s, front), last);
    }
  }

  /** Whatever `cache_logger_on_first_use` the user set meanwhile, the last uninstall puts back
      the value from before the first install. */
  lemma CacheFlagGoesBack(s: State, ops: seq<Op>)
    requires s.captures == [] && ops != [] && ops[0].Install? && CapturingThroughout(s, ops)
    requires DoneAll(s, ops).captures == []
    ensures DoneAll(s, ops).cache == s.cache
  {
    SavedWhileCapturing(s, ops);
  }

  /** The flag the user gave last, `configure_once` having no say once a capture is installed; else off. */
  function CacheGiven(ops: seq<Op>): bool {
    if ops == [] then false
    else
      match ops[|ops| - 1]
      case Configure(_, Some(cache)) => cache
      case _ => CacheGiven(ops[..|ops| - 1])
  }

  lemma CacheByStep(s: State, op: Op)
    requires s.captures != [] && s.configured && s.configure.Interceptor? && s.configureOnce.Interceptor?
    ensures var t := Done(s, op);
            && t.configured
            && (t.captures != [] ==>
                  && t.configure.Interceptor? && t.configureOnce.Interceptor?
                  && t.cache == if op.Configure? && op.cache.Some? then op.cache.value else s.cache)
  {
  }

  /** While capturing, loggers are not cached on first use, unless the user asks for it meanwhile. */
  lemma {:induction false} CacheWhileCapturing(s: State, ops: seq<Op>)
    requires s.captures == [] && ops != [] && ops[0].Install? && CapturingThroughout(s, ops)
    requires DoneAll(s, ops).captures != []
    ensures var t := DoneAll(s, ops);
            t.cache == CacheGiven(ops) && t.configured && t.configure.Interceptor? && t.configureOnce.Interceptor?
  {
    var front, last := ops[..|ops| - 1], ops[|ops| - 1];
    if |ops| == 1 {
      assert DoneAll(s, front) == s;
      assert CacheGiven(front) == false;
    } else {
      forall i | 0 < i < |front| ensures DoneAll(s, front[..i]).captures != [] {
        assert front[..i] == ops[..i];
      }
      assert front == ops[..|ops| - 1] && DoneAll(s, ops[..|ops| - 1]).captures != [];
      CacheWhileCapturing(s, front);
      CacheByStep(DoneAll(s, front), last);
    }
  }

  /** The same operations without any capture. */
  function Bare(u: Choice, op: Op): Choice {
    if op.Install? then u else Chosen(u, op)
  }

  function BareAll(u: Choice, ops: seq<Op>): Choice {
    if ops == [] then u else Bare(BareAll(u, ops[..|ops| - 1]), ops[|ops| - 1])
  }

  /** Once structlog is configured, captures make no difference to the user's chain. */
  lemma {:induction false} CapturesAreInvisible(u: Choice, ops: seq<Op>)
    requires u.configured
    ensures ChosenAll(u, ops) == BareAll(u, ops) && ChosenAll(u, ops).configured
  {
    if ops != [] {
      CapturesAreInvisible(u, ops[..|ops| - 1]);
    }
  }

  /** Before that they do: installing one uses up `configure_once`, so the user's first call
      of it is lost, unless it would have changed nothing. */
  lemma InstallUsesUpConfigureOnce(u: Choice, c: CaptureId, processors: seq<Processor>, cache: Option<bool>)
    ensures ChosenAll(u, [Install(c), ConfigureOnce(Some(processors), cache)]).chain ==
            BareAll(u, [Install(c), ConfigureOnce(Some(processors), cache)]).chain
       <==> u.configured || Erased(processors) == u.chain
  {
    var ops := [Install(c), ConfigureOnce(Some(processors), cache)];
    assert ops[..1] == [Install(c)] && ops[..1][..0] == [];
    assert ChosenAll(u, ops[..1]) == u.(configured := true) && BareAll(u, ops[..1]) == u;
  }

  // ----- the module's state

  class Structlog {
    var chain: seq<Processor>
    var cache: bool
    var configured: bool
    var configure: Callable
    var configureOnce: Callable
    var captures: seq<CaptureId>
    var savedCache: bool

    constructor (chain: seq<Processor>, cache: bool, configured: bool)
      requires CaptureFree(chain)
      ensures Now().chain == chain && Now().captures == [] && Valid(Now())
      ensures Now().cache == cache && Now().configured == configured
    {
      this.chain, this.cache, this.configured := chain, cache, configured;
      configure, configureOnce, captures, savedCache := Original, Original, [], cache;
      WithoutIsErased(chain, []);
      WithoutNothing(chain);
      NothingInserted(chain);
    }

    function Now(): State
      reads this
    {
      State(chain, cache, configured, configure, configureOnce, captures, savedCache)
    }

    /** `_with_captures` of the current chain. */
    method WithActive(active: seq<CaptureId>) returns (r: seq<Processor>)
      ensures r == WithCaptures(chain, active)
    {
      var kept: seq<Processor> := [];
      for i := 0 to |chain|
        invariant kept + Without(chain[i..], active) == Without(chain, active)
      {
        assert chain[i..][1..] == chain[i + 1..];
        if !(chain[i].Capture? && chain[i].capture in active) {
          kept := kept + [chain[i]];
        }
      }
      assert kept == Without(chain, active);
      if kept == [] {
        return AsProcessors(active);
      }
      return kept[..|kept| - 1] + AsProcessors(active) + [kept[|kept| - 1]];
    }

    method Real(processors: Option<seq<Processor>>, newCache: Option<bool>)
      modifies this`chain, this`cache, this`configured
      ensures Now() == RealConfigure(old(Now()), processors, newCache)
    {
      if processors.Some? { chain := processors.value; }
      if newCache.Some? { cache := newCache.value; }
      configured := true;
    }

    method InstallCapture(c: CaptureId)
      modifies this
      ensures Now() == Installed(old(Now()), c)
    {
      if captures != [] {
        if c in captures {
          return;
        }
        captures := captures + [c];
        var more := WithActive(captures);
        Real(Some(more), None);
        return;
      }
      savedCache := cache;
      captures := [c];
      configure, configureOnce := Interceptor, Interceptor;
      var first := WithActive(captures);
      Real(Some(first), Some(false));
    }

    method UninstallCapture(c: CaptureId)
      modifies this
      ensures Now() == Uninstalled(old(Now()), c)
    {
      if captures == [] || c !in captures {
        return;
      }
      captures := Removed(captures, c);
      var current := Without(chain, [c]);
      if captures != [] {
        chain := current;
        var fewer := WithActive(captures);
        Real(Some(fewer), None);
        return;
      }
      configure, configureOnce := Original, Original;
      Real(Some(current), Some(savedCache));
    }

    method UserConfigure(processors: Option<seq<Processor>>, newCache: Option<bool>)
      modifies this
      ensures Now() == Done(old(Now()), Configure(processors, newCache))
    {
      Real(processors, newCache);
      if configure.Interceptor? {
        var again := WithActive(captures);
        Real(Some(again), None);
      }
    }

    method UserConfigureOnce(processors: Option<seq<Processor>>, newCache: Option<bool>)
      modifies this
      ensures Now() == Done(old(Now()), ConfigureOnce(processors, newCache))
    {
      if !configured {
        Real(processors, newCache);
      }
      if configureOnce.Interceptor? {
        var again := WithActive(captures);
        Real(Some(again), None);
      }
    }
  }
}
