/** Environment variable names: those this plugin knows, the names configuration options
    take (`config.py`: `env_var_name`, `_config_assignments`), and the ini declaration of
    overrides (`ini_config.py`: `owned_env_names`, `parse_ini_overrides`). */
module EnvNames {
  import opened Prelude

  /** A variable: one bootstrap owns, the executor, or any other by its name. */
  datatype Var =
    | Home | ConfigPath | DagsFolder | PluginsFolder | UnitTestMode | LoadExamples | CatchupByDefault
    | AuthManager | AuthUsers | AuthPasswords | SqlAlchemyConn | SqlAlchemyPool | XcomBackend
    | SecretsBackend | SecretsBackendKwargs | BaseLogFolder | JwtSecret | WebserverSecret | FernetKey
    | BootstrapState
    | Executor
    | Other(name: string)

  const PATHS: seq<Var> := [Home, ConfigPath, DagsFolder, PluginsFolder, BaseLogFolder]
  const FLAGS: seq<Var> := [UnitTestMode, LoadExamples, CatchupByDefault, Executor]
  const AUTH: seq<Var> := [AuthManager, AuthUsers, AuthPasswords, JwtSecret, WebserverSecret, FernetKey]
  const BACKENDS: seq<Var> := [SqlAlchemyConn, SqlAlchemyPool, XcomBackend, SecretsBackend, SecretsBackendKwargs,
                               BootstrapState]

  const KNOWN: seq<Var> := PATHS + FLAGS + AUTH + BACKENDS

  /** The variable with a given name. */
  function VarOf(name: string): Var {
    Find(name, KNOWN)
  }

  function Find(name: string, known: seq<Var>): Var {
    if known == [] then Other(name) else if TextOf(known[0]) == name then known[0] else Find(name, known[1..])
  }

  function TextOf(v: Var): string {
    match v
    case Home => "AIRFLOW_HOME"
    case ConfigPath => "AIRFLOW_CONFIG"
    case DagsFolder => "AIRFLOW__CORE__DAGS_FOLDER"
    case PluginsFolder => "AIRFLOW__CORE__PLUGINS_FOLDER"
    case UnitTestMode => "AIRFLOW__CORE__UNIT_TEST_MODE"
    case LoadExamples => "AIRFLOW__CORE__LOAD_EXAMPLES"
    case CatchupByDefault => "AIRFLOW__SCHEDULER__CATCHUP_BY_DEFAULT"
    case AuthManager => "AIRFLOW__CORE__AUTH_MANAGER"
    case AuthUsers => "AIRFLOW__CORE__SIMPLE_AUTH_MANAGER_USERS"
    case AuthPasswords => "AIRFLOW__CORE__SIMPLE_AUTH_MANAGER_PASSWORDS_FILE"
    case SqlAlchemyConn => "AIRFLOW__DATABASE__SQL_ALCHEMY_CONN"
    case SqlAlchemyPool => "AIRFLOW__DATABASE__SQL_ALCHEMY_POOL_ENABLED"
    case XcomBackend => "AIRFLOW__CORE__XCOM_BACKEND"
    case SecretsBackend => "AIRFLOW__SECRETS__BACKEND"
    case SecretsBackendKwargs => "AIRFLOW__SECRETS__BACKEND_KWARGS"
    case BaseLogFolder => "AIRFLOW__LOGGING__BASE_LOG_FOLDER"
    case JwtSecret => "AIRFLOW__API_AUTH__JWT_SECRET"
    case WebserverSecret => "AIRFLOW__WEBSERVER__SECRET_KEY"
    case FernetKey => "AIRFLOW__CORE__FERNET_KEY"
    case BootstrapState => "PYTEST_AIRFLOW_IN_A_BOX_BOOTSTRAP_STATE"
    case Executor => "AIRFLOW__CORE__EXECUTOR"
    case Other(name) => name
  }

  lemma {:induction false} TextOfFound(name: string, known: seq<Var>)
    ensures TextOf(Find(name, known)) == name
  {
    if known != [] && TextOf(known[0]) != name {
      TextOfFound(name, known[1..]);
    }
  }

  lemma TextOfVarOf(name: string)
    ensures TextOf(VarOf(name)) == name
  {
    TextOfFound(name, KNOWN);
  }

  /** `_environment_names`: everything the plugin sets or scrubs, the executor apart. */
  predicate Owned(v: Var) {
    !v.Executor? && !v.Other?
  }

  // ----- option names

  const ENV_VAR_PREFIX := "AIRFLOW__"

  predicate IsWordChar(c: char) {
    'a' <= c <= 'z' || 'A' <= c <= 'Z' || '0' <= c <= '9' || c == '_'
  }

  predicate HasDelimiter(s: string) {
    exists i :: 0 <= i < |s| - 1 && s[i] == '_' && s[i + 1] == '_'
  }

  ghost predicate IsSection(s: string) {
    s != "" && (forall c :: c in s ==> IsWordChar(c) || c == '.') && !HasDelimiter(s)
  }

  ghost predicate IsKey(s: string) {
    s != "" && (forall c :: c in s ==> IsWordChar(c)) && !HasDelimiter(s)
  }

  function Upper(s: string): (r: string)
    ensures |r| == |s|
  {
    seq(|s|, i requires 0 <= i < |s| => if 'a' <= s[i] <= 'z' then s[i] - 'a' + 'A' else s[i])
  }

  function DotsToUnderscores(s: string): (r: string)
    ensures |r| == |s|
  {
    seq(|s|, i requires 0 <= i < |s| => if s[i] == '.' then '_' else s[i])
  }

  type Pair = (string, string)

  ghost predicate Nameable(pair: Pair) {
    IsSection(pair.0) && IsKey(pair.1)
  }

  /** `env_var_name`, for the pairs it accepts. */
  function Mangled(pair: Pair): string {
    ENV_VAR_PREFIX + Upper(DotsToUnderscores(pair.0)) + "__" + Upper(pair.1)
  }

  lemma MangledHasPrefix(pair: Pair)
    ensures |Mangled(pair)| >= 9 && Mangled(pair)[..9] == ENV_VAR_PREFIX
  {
  }

  function LetterFor(c: char): char {
    if c == '.' then '_' else if 'a' <= c <= 'z' then c - 'a' + 'A' else c
  }

  /** The section stands right after the prefix, the key at the end, letter by letter; two
      underscores are between them. */
  lemma MangledReadsBack(pair: Pair)
    ensures var name, key := Mangled(pair), 11 + |pair.0|;
            && |name| == key + |pair.1| && name[key - 2] == name[key - 1] == '_'
            && (forall i :: 0 <= i < |pair.0| ==> name[9 + i] == LetterFor(pair.0[i]))
            && (IsKey(pair.1) ==> forall i :: 0 <= i < |pair.1| ==> name[key + i] == LetterFor(pair.1[i]))
  {
    assert |ENV_VAR_PREFIX| == 9;
    assert IsKey(pair.1) ==> forall i :: 0 <= i < |pair.1| ==> pair.1[i] in pair.1;
  }

  /** No option is named like the home, the configuration path or the handoff variable. */
  lemma OptionsAreConfiguration(pair: Pair)
    ensures var v := VarOf(Mangled(pair)); !v.Home? && !v.ConfigPath? && !v.BootstrapState?
  {
    MangledHasPrefix(pair);
    var name := Mangled(pair);
    TextOfVarOf(name);
    assert name[0] == ENV_VAR_PREFIX[0] && name[8] == ENV_VAR_PREFIX[8];
  }

  // ----- programmatic overrides

  type Overrides = map<Pair, Option<string>>
  type Assignments = map<Var, Option<string>>

  ghost predicate Separate(overrides: Overrides) {
    forall p, q :: p in overrides && q in overrides && p != q ==> Mangled(p) != Mangled(q)
  }

  ghost predicate AllNameable(overrides: Overrides) {
    forall p :: p in overrides ==> Nameable(p)
  }

  function VarFor(pair: Pair): Var {
    VarOf(Mangled(pair))
  }

  ghost predicate Names(overrides: Overrides, v: Var) {
    exists p :: p in overrides && VarFor(p) == v
  }

  lemma VarsAreNames(p: Pair, q: Pair)
    ensures VarFor(p) == VarFor(q) <==> Mangled(p) == Mangled(q)
  {
    TextOfVarOf(Mangled(p));
    TextOfVarOf(Mangled(q));
  }

  /** `assignments` holds exactly the values of `overrides`, under their variables. */
  ghost predicate Resolves(overrides: Overrides, assignments: Assignments) {
    && (forall p :: p in overrides ==> VarFor(p) in assignments && assignments[VarFor(p)] == overrides[p])
    && (forall v :: v in assignments ==> Names(overrides, v))
  }

  method IsNameable(pair: Pair) returns (ok: bool)
    ensures ok == Nameable(pair)
  {
    if pair.0 == "" || pair.1 == "" {
      return false;
    }
    var section := IsClean(pair.0, true);
    var key := IsClean(pair.1, false);
    return section && key;
  }

  method IsClean(s: string, dots: bool) returns (ok: bool)
    ensures ok == ((forall c :: c in s ==> IsWordChar(c) || (dots && c == '.')) && !HasDelimiter(s))
  {
    for i := 0 to |s|
      invariant forall k :: 0 <= k < i ==> IsWordChar(s[k]) || (dots && s[k] == '.')
      invariant forall k :: 0 <= k < i - 1 ==> !(s[k] == '_' && s[k + 1] == '_')
    {
      if !(IsWordChar(s[i]) || (dots && s[i] == '.')) {
        return false;
      }
      if i > 0 && s[i - 1] == '_' && s[i] == '_' {
        assert s[i - 1 + 1] == '_';
        return false;
      }
    }
    return true;
  }

  /** Accepted exactly when every pair is nameable and no two name one variable. */
  method ConfigAssignments(overrides: Overrides) returns (result: Result<Assignments, string>)
    ensures result.Ok? <==> AllNameable(overrides) && Separate(overrides)
    ensures result.Ok? ==> Resolves(overrides, result.value)
  {
    var assignments: Assignments := map[];
    var left := overrides.Keys;
    while left != {}
      invariant left <= overrides.Keys
      invariant AllNameable(overrides - left) && Separate(overrides - left)
      invariant Resolves(overrides - left, assignments)
      decreases left
    {
      var pair :| pair in left;
      var done := overrides - left;
      assert overrides - (left - {pair}) == done[pair := overrides[pair]];
      var ok := IsNameable(pair);
      if !ok {
        return Err("malformed section or key");
      }
      var v := VarFor(pair);
      if v in assignments {
        ghost var other :| other in done && VarFor(other) == v;
        VarsAreNames(other, pair);
        assert !Separate(overrides);
        return Err("two pairs name one variable");
      }
      ResolvesMore(done, assignments, pair, overrides[pair]);
      assignments := assignments[v := overrides[pair]];
      left := left - {pair};
    }
    assert overrides - left == overrides;
    return Ok(assignments);
  }

  lemma ResolvesMore(done: Overrides, assignments: Assignments, pair: Pair, value: Option<string>)
    requires Resolves(done, assignments) && Separate(done) && pair !in done
    requires VarFor(pair) !in assignments
    ensures Resolves(done[pair := value], assignments[VarFor(pair) := value])
    ensures Separate(done[pair := value])
  {
  }
}
