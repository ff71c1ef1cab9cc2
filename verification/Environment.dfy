/** Ownership of the process environment (`bootstrap.py`: `_environment`,
    `_install_environment`, the cleanup closure's restore, `_repair_worker_environment`, the
    drift check of `load_initial_state`; `config.py`: `_assign`, `airflow_config`;
    `ini_config.py`: `apply_ini_overrides`; `isolated.py`: `_validated_environment`, the
    child's environment). */
module Environment {
  import opened Prelude
  import opened EnvNames
  import opened IniOverrides

  type Env = map<Var, string>

  datatype Family = V2 | V3

  /** `text` is the state's own serialized form; `""` means an optional field is unset. */
  datatype State = State(
    root: string, configPath: string, dagsFolder: string, pluginsFolder: string, logsFolder: string,
    passwordFile: string, sqlAlchemyConn: string, fernetKey: string, jwtSecret: string,
    family: Family, postgres: bool,
    executor: string, xcomBackend: string, secretsBackend: string, secretsBackendKwargs: string,
    text: string)

  // ----- what the plugin sets

  function Common(s: State): Env {
    map[Home := s.root, ConfigPath := s.configPath, DagsFolder := s.dagsFolder, PluginsFolder := s.pluginsFolder,
        UnitTestMode := "True", LoadExamples := "False", CatchupByDefault := "False",
        SqlAlchemyConn := s.sqlAlchemyConn, BaseLogFolder := s.logsFolder, FernetKey := s.fernetKey]
  }

  const SIMPLE_AUTH_MANAGER := "airflow.api_fastapi.auth.managers.simple.simple_auth_manager.SimpleAuthManager"

  function FamilyPart(s: State): Env {
    match s.family
    case V2 => map[WebserverSecret := s.jwtSecret]
    case V3 =>
      map[AuthManager := SIMPLE_AUTH_MANAGER, AuthUsers := "admin:admin", AuthPasswords := s.passwordFile,
          JwtSecret := s.jwtSecret]
  }

  function When(condition: bool, v: Var, value: string): Env {
    if condition then map[v := value] else map[]
  }

  function Backends(s: State): Env {
    When(s.xcomBackend != "", XcomBackend, s.xcomBackend)
    + When(s.secretsBackend != "", SecretsBackend, s.secretsBackend)
    + When(s.secretsBackend != "" && s.secretsBackendKwargs != "", SecretsBackendKwargs, s.secretsBackendKwargs)
  }

  function Optional(s: State): Env {
    When(s.postgres, SqlAlchemyPool, "False") + Backends(s)
  }

  function Fixed(s: State): Env {
    Common(s) + FamilyPart(s) + Optional(s)
  }

  /** What a state asks for: the settings that do not depend on the current environment, the
      configured executor, whether to pin one, and the state's own text. */
  datatype PlanData = PlanData(fixed: Env, executor: string, pins: bool, text: string)

  type Plan = p: PlanData | OnlyOwned(p.fixed) witness PlanData(map[], "", false, "")

  function PlanOf(s: State): Plan {
    FixedIsOwned(s);
    PlanData(Fixed(s), s.executor, s.family.V2?, s.text)
  }

  /** A configured executor wins; else 2.x pins one, unless `env` already chooses. */
  function ExecutorPart(p: Plan, env: Env): Env {
    if p.executor != "" then map[Executor := p.executor]
    else if p.pins && Executor !in env then map[Executor := "SequentialExecutor"]
    else map[]
  }

  /** `_environment`. */
  function Environment(p: Plan, env: Env): Env {
    p.fixed + ExecutorPart(p, env)
  }

  /** Everything the plugin may write: what it owns, and the executor. */
  predicate Managed(v: Var) {
    Owned(v) || v.Executor?
  }

  function Overlaid(variables: Env, env: Env, text: string): Env {
    (map v | v in env.Keys + variables.Keys && (v in variables || !Owned(v)) ::
       if v in variables then variables[v] else env[v])
    [BootstrapState := text]
  }

  function Installed(p: Plan, env: Env): Env {
    Overlaid(Environment(p, env), env, p.text)
  }

  /** `_assign`: `None` deletes. */
  function Assigned(env: Env, values: Assignments): Env {
    map v | v in env.Keys + values.Keys && (v in values ==> values[v].Some?) ::
      if v in values then values[v].value else env[v]
  }

  function Snapshot(env: Env, names: set<Var>): Assignments {
    map v | v in names :: if v in env then Some(env[v]) else None
  }

  function Mismatched(p: Plan, env: Env): set<Var> {
    var expected := Environment(p, env);
    set v | v in expected && !(v in env && env[v] == expected[v])
  }

  function Repaired(p: Plan, env: Env): Env {
    env + Environment(p, env)
  }

  ghost predicate OnlyOwned(env: Env) {
    forall v :: v in env ==> Owned(v) && !v.BootstrapState?
  }

  lemma OwnedMerge(a: Env, b: Env)
    requires OnlyOwned(a) && OnlyOwned(b)
    ensures OnlyOwned(a + b)
  {
  }

  lemma PartsAreOwned(s: State)
    ensures OnlyOwned(Common(s)) && OnlyOwned(FamilyPart(s))
    ensures forall condition: bool, v: Var, value: string :: Owned(v) && !v.BootstrapState? ==>
                                                               OnlyOwned(When(condition, v, value))
  {
  }

  lemma OptionalIsOwned(s: State)
    ensures OnlyOwned(Optional(s))
  {
  }

  lemma FixedIsOwned(s: State)
    ensures forall v :: v in Fixed(s) ==> Owned(v) && !v.BootstrapState?
  {
    PartsAreOwned(s);
    OptionalIsOwned(s);
    OwnedMerge(Common(s), FamilyPart(s));
    OwnedMerge(Common(s) + FamilyPart(s), Optional(s));
  }

  /** Two environments get the same settings exactly when a configured executor or the family
      settles the executor, or both or neither choose one; nothing else in them is looked at.
      Once installed, the settings are asked for again, but for an executor that was pinned. */
  lemma OnlyTheExecutorMatters(p: Plan, env: Env, other: Env)
    ensures Environment(p, env) == Environment(p, other) <==>
            p.executor != "" || !p.pins || (Executor in env <==> Executor in other)
    ensures Environment(p, Installed(p, env)) == Environment(p, env) - (if p.executor == "" then {Executor} else {})
  {
    assert Executor !in p.fixed;
    assert Executor in Environment(p, env) <==> p.executor != "" || (p.pins && Executor !in env);
    assert Executor in Environment(p, other) <==> p.executor != "" || (p.pins && Executor !in other);
    if p.executor == "" {
      assert Environment(p, env) - {Executor} == p.fixed;
    }
  }

  // ----- no drift

  /** What an inheriting process can see of another environment's managed variables. */
  ghost predicate Inherits(parent: Env, child: Env) {
    forall v :: Managed(v) ==> (v in child <==> v in parent) && (v in child ==> child[v] == parent[v])
  }

  lemma MismatchOnlyWhere(p: Plan, env: Env, v: Var)
    ensures v in Mismatched(p, env) <==> v in Environment(p, env) && !(v in env && env[v] == Environment(p, env)[v])
  {
  }

  lemma InstalledHolds(p: Plan, env: Env, v: Var)
    requires !v.BootstrapState?
    ensures v in p.fixed ==> v in Installed(p, env) && Installed(p, env)[v] == p.fixed[v]
    ensures Executor in Installed(p, env) <==> p.executor != "" || p.pins || Executor in env
    ensures p.executor != "" ==> Installed(p, env)[Executor] == p.executor
  {
  }

  /** A worker of a freshly installed environment with overrides applied sees drift exactly
      when the overrides change the executor the state was configured with. */
  lemma WorkerDriftExactly(p: Plan, ambient: Env, overrides: Assignments, child: Env)
    requires LeavesOwnedAlone(overrides)
    requires Inherits(Assigned(Installed(p, ambient), overrides), child)
    ensures Mismatched(p, child) == {} <==>
            !(p.executor != "" && Executor in overrides && overrides[Executor] != Some(p.executor))
  {
    forall v | v in p.fixed ensures v !in Mismatched(p, child) {
      FixedNeverDrifts(p, ambient, overrides, child, v);
    }
    ExecutorDrift(p, ambient, overrides, child);
    assert forall v :: v in Mismatched(p, child) ==> v in p.fixed || v == Executor;
    assert Mismatched(p, child) == {} <==> Executor !in Mismatched(p, child);
  }

  lemma FixedNeverDrifts(p: Plan, ambient: Env, overrides: Assignments, child: Env, v: Var)
    requires LeavesOwnedAlone(overrides) && v in p.fixed
    requires Inherits(Assigned(Installed(p, ambient), overrides), child)
    ensures v !in Mismatched(p, child)
  {
    InstalledHolds(p, ambient, v);
    AssignedElsewhere(Installed(p, ambient), overrides, v);
    assert Managed(v);
    MismatchOnlyWhere(p, child, v);
  }

  lemma AssignedElsewhere(env: Env, values: Assignments, v: Var)
    requires v !in values
    ensures (v in Assigned(env, values) <==> v in env) && (v in env ==> Assigned(env, values)[v] == env[v])
  {
  }

  lemma ExecutorDrift(p: Plan, ambient: Env, overrides: Assignments, child: Env)
    requires LeavesOwnedAlone(overrides)
    requires Inherits(Assigned(Installed(p, ambient), overrides), child)
    ensures Executor in Mismatched(p, child) <==>
            p.executor != "" && Executor in overrides && overrides[Executor] != Some(p.executor)
  {
  }

  /** Repairing leaves nothing to repair, whatever had drifted. */
  lemma RepairSettles(p: Plan, env: Env)
    ensures Mismatched(p, Repaired(p, env)) == {}
    ensures forall v :: v !in Environment(p, env) ==> (v in Repaired(p, env) <==> v in env)
  {
  }

  // ----- isolated children

  function Given(payload: map<Var, string>): Assignments {
    map v | v in payload :: Some(payload[v])
  }

  predicate HasPrefix(v: Var) {
    |TextOf(v)| >= 9 && TextOf(v)[..9] == ENV_VAR_PREFIX
  }

  /** `_validated_environment`, with what the parent's bootstrap set reserved. */
  ghost predicate AcceptedPayload(payload: map<Var, string>, reserved: set<Var>) {
    forall v :: v in payload ==> HasPrefix(v) && v !in reserved
  }

  method ValidatedEnvironment(payload: map<Var, string>, reserved: set<Var>)
    returns (result: Result<map<Var, string>, string>)
    ensures result.Ok? <==> AcceptedPayload(payload, reserved)
    ensures result.Ok? ==> result.value == payload
  {
    var left := payload.Keys;
    while left != {}
      invariant left <= payload.Keys
      invariant forall v :: v in payload.Keys - left ==> HasPrefix(v) && v !in reserved
      decreases left
    {
      var v :| v in left;
      if !HasPrefix(v) || v in reserved {
        return Err("not a configuration variable, or owned by bootstrap");
      }
      left := left - {v};
    }
    return Ok(payload);
  }

  lemma HandoffHasNoPrefix()
    ensures !HasPrefix(BootstrapState)
  {
    var text := TextOf(BootstrapState);
    assert text[0] == 'P' && ENV_VAR_PREFIX[0] == 'A';
    assert |text| >= 9 ==> text[..9][0] == text[0];
  }

  /** A child launched with any accepted marker payload sees no drift when its parent sees
      none, and inherits the parent's state. The payload was accepted under an earlier
      environment, `collected`; `launch` is what the launcher itself changes: worker identity,
      report path, import path. */
  lemma IsolatedChildDoesNotDrift(p: Plan, collected: Env, parent: Env, launch: Assignments, payload: map<Var, string>)
    requires Mismatched(p, parent) == {}
    requires forall v :: v in launch ==> v.Other?
    requires AcceptedPayload(payload, Environment(p, collected).Keys)
    ensures var child := Assigned(Assigned(parent, launch), Given(payload));
            && Mismatched(p, child) == {}
            && (BootstrapState in parent ==> BootstrapState in child && child[BootstrapState] == parent[BootstrapState])
  {
    var child := Assigned(Assigned(parent, launch), Given(payload));
    HandoffHasNoPrefix();
    forall v | v in Environment(p, parent) ensures v in child && child[v] == Environment(p, parent)[v] {
      MismatchOnlyWhere(p, parent, v);
      assert v in parent && Managed(v);
    }
    assert Executor in parent ==> Executor in child;
    forall v | v in Environment(p, child) ensures v in child && child[v] == Environment(p, child)[v] {
      assert v in Environment(p, parent) && Environment(p, parent)[v] == Environment(p, child)[v];
    }
  }

  // ----- exact restore

  /** What a session's code does to the environment: plain writes, exceptions, `airflow_config`
      contexts, and blocks that catch an exception. */
  datatype Action =
    | Write(v: Var, value: Option<string>)
    | Raise
    | Context(overrides: Assignments, body: seq<Action>)
    | Catching(body: seq<Action>)

  datatype Effect = Effect(env: Env, raised: bool)

  function Run(env: Env, action: Action): Effect
    decreases action, 1
  {
    match action
    case Write(v, value) => Effect(Assigned(env, map[v := value]), false)
    case Raise => Effect(env, true)
    case Context(overrides, body) =>
      var inner := RunAll(Assigned(env, overrides), body);
      Effect(Assigned(inner.env, Snapshot(env, overrides.Keys)), inner.raised)
    case Catching(body) => Effect(RunAll(env, body).env, false)
  }

  function RunAll(env: Env, body: seq<Action>): Effect
    decreases body, 0
  {
    if body == [] then Effect(env, false)
    else
      var first := Run(env, body[0]);
      if first.raised then first else RunAll(first.env, body[1..])
  }

  /** The variables plainly written where no context saves them. */
  function Uncovered(action: Action): set<Var>
    decreases action, 1
  {
    match action
    case Write(v, _) => {v}
    case Raise => {}
    case Context(overrides, body) => UncoveredAll(body) - overrides.Keys
    case Catching(body) => UncoveredAll(body)
  }

  function UncoveredAll(body: seq<Action>): set<Var>
    decreases body, 0
  {
    if body == [] then {} else Uncovered(body[0]) + UncoveredAll(body[1..])
  }

  /** Absent in both, or present with one value. */
  ghost predicate Same(a: Env, b: Env, v: Var) {
    (v in a <==> v in b) && (v in a ==> a[v] == b[v])
  }

  /** Nested contexts, left normally or by an exception, restore all they override. */
  lemma {:induction false} ContextsRestore(env: Env, action: Action, v: Var)
    requires v !in Uncovered(action)
    ensures Same(env, Run(env, action).env, v)
    decreases action, 1
  {
    match action
    case Write(_, _) =>
    case Raise =>
    case Context(overrides, body) =>
      if v !in overrides {
        ContextsRestoreAll(Assigned(env, overrides), body, v);
      }
    case Catching(body) => ContextsRestoreAll(env, body, v);
  }

  lemma {:induction false} ContextsRestoreAll(env: Env, body: seq<Action>, v: Var)
    requires v !in UncoveredAll(body)
    ensures Same(env, RunAll(env, body).env, v)
    decreases body, 0
  {
    if body != [] {
      ContextsRestore(env, body[0], v);
      var first := Run(env, body[0]);
      if !first.raised {
        ContextsRestoreAll(first.env, body[1..], v);
      }
    }
  }

  /** The names the owner's cleanup snapshots. */
  const SNAPSHOT: set<Var> := set v | v in KNOWN

  lemma SnapshotIsManaged(v: Var)
    ensures v in SNAPSHOT <==> Managed(v)
  {
    assert Managed(v) ==> v in KNOWN by {
      match v
      case Other(_) =>
      case _ => KnownCovers(v);
    }
  }

  lemma KnownCovers(v: Var)
    requires !v.Other?
    ensures v in KNOWN
  {
  }

  lemma InstallTouchesOnlyManaged(p: Plan, env: Env, v: Var)
    requires !Managed(v)
    ensures Same(env, Installed(p, env), v)
  {
  }

  /** A whole owner session: install, hold the ini overrides open around `body`, clean up. */
  function Session(p: Plan, env: Env, overrides: Assignments, body: seq<Action>): Env {
    Assigned(Run(Installed(p, env), Context(overrides, body)).env, Snapshot(env, SNAPSHOT))
  }

  lemma SessionRestoresOne(p: Plan, env: Env, overrides: Assignments, body: seq<Action>, v: Var)
    requires Managed(v) || v in overrides || v !in UncoveredAll(body)
    ensures Same(env, Session(p, env, overrides, body), v)
  {
    var end := Run(Installed(p, env), Context(overrides, body)).env;
    SnapshotIsManaged(v);
    AssigningSnapshot(env, end, SNAPSHOT, v);
    if !Managed(v) {
      InstallTouchesOnlyManaged(p, env, v);
      assert v !in Uncovered(Context(overrides, body));
      ContextsRestore(Installed(p, env), Context(overrides, body), v);
    }
  }

  lemma SameEverywhere(a: Env, b: Env)
    requires forall v :: Same(a, b, v)
    ensures a == b
  {
    forall v ensures v in a <==> v in b {
      assert Same(a, b, v);
    }
    assert a.Keys == b.Keys;
    forall v | v in a ensures a[v] == b[v] {
      assert Same(a, b, v);
    }
  }

  lemma AssigningSnapshot(env: Env, other: Env, names: set<Var>, v: Var)
    ensures Same(if v in names then env else other, Assigned(other, Snapshot(env, names)), v)
  {
  }

  /** The session gives back every variable it manages, every overridden one, and any other
      its tests did not write outside a context; in particular the whole environment, when
      they wrote only such variables. */
  lemma SessionRestores(p: Plan, env: Env, overrides: Assignments, body: seq<Action>)
    ensures forall v :: Managed(v) || v in overrides || v !in UncoveredAll(body) ==>
                          Same(env, Session(p, env, overrides, body), v)
    ensures (forall v :: v in UncoveredAll(body) ==> Managed(v) || v in overrides) ==>
              Session(p, env, overrides, body) == env
  {
    var after := Session(p, env, overrides, body);
    forall v | Managed(v) || v in overrides || v !in UncoveredAll(body) ensures Same(env, after, v) {
      SessionRestoresOne(p, env, overrides, body, v);
    }
    if forall v :: v in UncoveredAll(body) ==> Managed(v) || v in overrides {
      SameEverywhere(env, after);
    }
  }

  function Pinned(p: Plan, env: Env): Env {
    When(p.pins && Executor !in env, Executor, "SequentialExecutor")
  }

  lemma PinThenOptional(p: Plan, base: Env, optional: Env, env: Env)
    requires p.fixed == base + optional
    ensures base + Pinned(p, env) + optional + When(p.executor != "", Executor, p.executor) == Environment(p, env)
  {
  }

  predicate IsScrubbed(v: Var, variables: Env) {
    Owned(v) && v !in variables && !v.BootstrapState?
  }

  function Scrubbed(names: seq<Var>, variables: Env): set<Var> {
    set v | v in names && IsScrubbed(v, variables)
  }

  lemma ScrubbedOneMore(names: seq<Var>, i: nat, variables: Env)
    requires i < |names|
    ensures Scrubbed(names[..i + 1], variables) ==
            Scrubbed(names[..i], variables) + (if IsScrubbed(names[i], variables) then {names[i]} else {})
  {
  }

  lemma InstalledAfterScrub(p: Plan, env: Env)
    ensures (env + Environment(p, env) - Scrubbed(KNOWN, Environment(p, env)))[BootstrapState := p.text] ==
            Installed(p, env)
  {
  }

  lemma FilledParts(s: State, given: Env)
    ensures given + When(s.postgres, SqlAlchemyPool, "False") + When(s.executor != "", Executor, s.executor)
            + Backends(s)
         == given + Optional(s) + When(s.executor != "", Executor, s.executor)
  {
  }

  // ----- the process

  class Process {
    var environ: Env

    constructor (ambient: Env)
      ensures environ == ambient
    {
      environ := ambient;
    }

    method BuildEnvironment(s: State) returns (variables: Env)
      ensures variables == Environment(PlanOf(s), environ)
    {
      variables := FillFamily(s, Common(s));
      variables := FillOptional(s, variables);
      PinThenOptional(PlanOf(s), Common(s) + FamilyPart(s), Optional(s), environ);
    }

    method FillFamily(s: State, given: Env) returns (variables: Env)
      ensures variables == given + FamilyPart(s) +
                           When(s.family.V2? && Executor !in environ, Executor, "SequentialExecutor")
    {
      variables := given;
      if s.family.V2? {
        variables := variables[WebserverSecret := s.jwtSecret];
        if Executor !in environ {
          variables := variables[Executor := "SequentialExecutor"];
        }
      } else {
        variables := variables[AuthManager := SIMPLE_AUTH_MANAGER];
        variables := variables[AuthUsers := "admin:admin"];
        variables := variables[AuthPasswords := s.passwordFile];
        variables := variables[JwtSecret := s.jwtSecret];
      }
    }

    method FillOptional(s: State, given: Env) returns (variables: Env)
      ensures variables == given + Optional(s) + When(s.executor != "", Executor, s.executor)
    {
      variables := given;
      if s.postgres {
        variables := variables[SqlAlchemyPool := "False"];
      }
      assert variables == given + When(s.postgres, SqlAlchemyPool, "False");
      if s.executor != "" {
        variables := variables[Executor := s.executor];
      }
      assert variables == given + When(s.postgres, SqlAlchemyPool, "False") +
                          When(s.executor != "", Executor, s.executor);
      variables := FillBackends(s, variables);
      FilledParts(s, given);
    }

    method FillBackends(s: State, given: Env) returns (variables: Env)
      ensures variables == given + Backends(s)
    {
      variables := given;
      if s.xcomBackend != "" {
        variables := variables[XcomBackend := s.xcomBackend];
      }
      if s.secretsBackend != "" {
        variables := variables[SecretsBackend := s.secretsBackend];
        if s.secretsBackendKwargs != "" {
          variables := variables[SecretsBackendKwargs := s.secretsBackendKwargs];
        }
      }
    }

    method InstallEnvironment(s: State)
      modifies this
      ensures environ == Installed(PlanOf(s), old(environ))
    {
      var variables := BuildEnvironment(s);
      environ := environ + variables;
      Scrub(KNOWN, variables);
      InstalledAfterScrub(PlanOf(s), old(environ));
      environ := environ[BootstrapState := s.text];
    }

    method Scrub(names: seq<Var>, variables: Env)
      modifies this
      ensures environ == old(environ) - Scrubbed(names, variables)
    {
      for i := 0 to |names|
        invariant environ == old(environ) - Scrubbed(names[..i], variables)
      {
        ScrubbedOneMore(names, i, variables);
        if IsScrubbed(names[i], variables) {
          environ := environ - {names[i]};
        }
      }
      assert names[..|names|] == names;
    }

    method Assign(values: Assignments)
      modifies this
      ensures environ == Assigned(old(environ), values)
    {
      var left := values.Keys;
      while left != {}
        invariant left <= values.Keys
        invariant environ == Assigned(old(environ), values - left)
        decreases left
      {
        var v :| v in left;
        environ := if values[v].Some? then environ[v := values[v].value] else environ - {v};
        left := left - {v};
      }
      assert values - left == values;
    }

    /** Entering `airflow_config` with resolved assignments; `original` is for leaving it. */
    method EnterContext(overrides: Assignments) returns (original: Assignments)
      modifies this
      ensures original == Snapshot(old(environ), overrides.Keys)
      ensures environ == Assigned(old(environ), overrides)
    {
      original := Snapshot(environ, overrides.Keys);
      Assign(overrides);
    }

    method DriftedNames(s: State) returns (mismatched: set<Var>)
      ensures mismatched == Mismatched(PlanOf(s), environ)
    {
      var expected := BuildEnvironment(s);
      mismatched := set v | v in expected && !(v in environ && environ[v] == expected[v]);
    }

    /** A worker's check under the `error` and `repair` policies. */
    method CheckInherited(s: State, repair: bool) returns (result: Result<set<Var>, string>)
      modifies this
      ensures result.Ok? <==> Mismatched(PlanOf(s), old(environ)) == {} || repair
      ensures result.Ok? ==> result.value == Mismatched(PlanOf(s), old(environ)) && Mismatched(PlanOf(s), environ) == {}
      ensures environ == old(environ) || (repair && environ == Repaired(PlanOf(s), old(environ)))
    {
      var mismatched := DriftedNames(s);
      if mismatched != {} {
        if !repair {
          return Err("inherited environment disagrees with state");
        }
        var expected := BuildEnvironment(s);
        environ := environ + expected;
        RepairSettles(PlanOf(s), old(environ));
      }
      return Ok(mismatched);
    }
  }
}
