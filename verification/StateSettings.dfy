/** What an installed environment says (`bootstrap.py`: `_environment`, `_install_environment`),
    variable by variable and by its full name: every field of the state can be read back. */
module StateSettings {
  import opened Prelude
  import opened EnvNames
  import opened Environment

  /** The variable of this name holds this value, or is absent. */
  predicate Says(env: Env, v: Var, name: string, value: Option<string>) {
    TextOf(v) == name && LookUp(env, v) == value
  }

  function If(condition: bool, value: string): Option<string> {
    if condition then Some(value) else None
  }

  /** An optional field of the state is unset when it is empty. */
  function Optionally(value: string): Option<string> {
    If(value != "", value)
  }

  ghost predicate SaysPaths(env: Env, s: State) {
    && Says(env, Home, "AIRFLOW_HOME", Some(s.root))
    && Says(env, ConfigPath, "AIRFLOW_CONFIG", Some(s.configPath))
    && Says(env, DagsFolder, "AIRFLOW__CORE__DAGS_FOLDER", Some(s.dagsFolder))
    && Says(env, PluginsFolder, "AIRFLOW__CORE__PLUGINS_FOLDER", Some(s.pluginsFolder))
    && Says(env, BaseLogFolder, "AIRFLOW__LOGGING__BASE_LOG_FOLDER", Some(s.logsFolder))
  }

  ghost predicate SaysFlags(env: Env) {
    && Says(env, UnitTestMode, "AIRFLOW__CORE__UNIT_TEST_MODE", Some("True"))
    && Says(env, LoadExamples, "AIRFLOW__CORE__LOAD_EXAMPLES", Some("False"))
    && Says(env, CatchupByDefault, "AIRFLOW__SCHEDULER__CATCHUP_BY_DEFAULT", Some("False"))
  }

  ghost predicate SaysDatabase(env: Env, s: State) {
    && Says(env, SqlAlchemyConn, "AIRFLOW__DATABASE__SQL_ALCHEMY_CONN", Some(s.sqlAlchemyConn))
    && Says(env, SqlAlchemyPool, "AIRFLOW__DATABASE__SQL_ALCHEMY_POOL_ENABLED", If(s.postgres, "False"))
    && Says(env, FernetKey, "AIRFLOW__CORE__FERNET_KEY", Some(s.fernetKey))
  }

  /** Airflow 3 is told of its authentication, Airflow 2 of its webserver's key. */
  ghost predicate SaysAuthentication(env: Env, s: State) {
    var v3 := s.family.V3?;
    && Says(env, AuthManager, "AIRFLOW__CORE__AUTH_MANAGER", If(v3, SIMPLE_AUTH_MANAGER))
    && Says(env, AuthUsers, "AIRFLOW__CORE__SIMPLE_AUTH_MANAGER_USERS", If(v3, "admin:admin"))
    && Says(env, AuthPasswords, "AIRFLOW__CORE__SIMPLE_AUTH_MANAGER_PASSWORDS_FILE", If(v3, s.passwordFile))
    && Says(env, JwtSecret, "AIRFLOW__API_AUTH__JWT_SECRET", If(v3, s.jwtSecret))
    && Says(env, WebserverSecret, "AIRFLOW__WEBSERVER__SECRET_KEY", If(!v3, s.jwtSecret))
  }

  /** Keyword arguments mean something only for a backend. */
  ghost predicate SaysBackends(env: Env, s: State) {
    && Says(env, XcomBackend, "AIRFLOW__CORE__XCOM_BACKEND", Optionally(s.xcomBackend))
    && Says(env, SecretsBackend, "AIRFLOW__SECRETS__BACKEND", Optionally(s.secretsBackend))
    && Says(env, SecretsBackendKwargs, "AIRFLOW__SECRETS__BACKEND_KWARGS",
            if s.secretsBackend == "" then None else Optionally(s.secretsBackendKwargs))
  }

  /** The configured executor; else what the environment chose; else, on Airflow 2, the sequential one. */
  ghost predicate SaysExecutor(env: Env, s: State, before: Env) {
    Says(env, Executor, "AIRFLOW__CORE__EXECUTOR",
         if s.executor != "" then Some(s.executor)
         else if Executor in before then Some(before[Executor])
         else If(s.family.V2?, "SequentialExecutor"))
  }

  /** The install keeps the settings as they are. */
  lemma InstalledFixed(p: Plan, env: Env, v: Var)
    requires Owned(v) && !v.BootstrapState?
    ensures LookUp(Installed(p, env), v) == LookUp(p.fixed, v)
  {
  }

  predicate InCommon(v: Var) {
    || v.Home? || v.ConfigPath? || v.DagsFolder? || v.PluginsFolder? || v.UnitTestMode? || v.LoadExamples?
    || v.CatchupByDefault? || v.SqlAlchemyConn? || v.BaseLogFolder? || v.FernetKey?
  }

  predicate InFamily(v: Var) {
    v.AuthManager? || v.AuthUsers? || v.AuthPasswords? || v.JwtSecret? || v.WebserverSecret?
  }

  predicate InBackends(v: Var) {
    v.XcomBackend? || v.SecretsBackend? || v.SecretsBackendKwargs?
  }

  lemma CommonLacks(s: State, v: Var)
    ensures !InCommon(v) ==> LookUp(Common(s), v).None?
  {
  }

  lemma FamilyLacks(s: State, v: Var)
    ensures !InFamily(v) ==> LookUp(FamilyPart(s), v).None?
  {
  }

  lemma OptionalLacks(s: State, v: Var)
    ensures !InBackends(v) && !v.SqlAlchemyPool? ==> LookUp(Optional(s), v).None?
  {
  }

  /** Where a setting comes from. */
  function Source(s: State, v: Var): Option<string> {
    if InCommon(v) then LookUp(Common(s), v) else if InFamily(v) then LookUp(FamilyPart(s), v)
    else LookUp(Optional(s), v)
  }

  lemma Picked(a: Env, b: Env, c: Env, v: Var)
    requires !InCommon(v) ==> LookUp(a, v).None?
    requires !InFamily(v) ==> LookUp(b, v).None?
    requires !InBackends(v) && !v.SqlAlchemyPool? ==> LookUp(c, v).None?
    ensures LookUp(a + b + c, v) == LookUp(if InCommon(v) then a else if InFamily(v) then b else c, v)
  {
  }

  lemma FixedSource(s: State, v: Var)
    ensures LookUp(Fixed(s), v) == Source(s, v)
  {
    CommonLacks(s, v);
    FamilyLacks(s, v);
    OptionalLacks(s, v);
    Picked(Common(s), FamilyPart(s), Optional(s), v);
  }

  ghost predicate Follows(env: Env, s: State) {
    forall v :: Owned(v) && !v.BootstrapState? ==> LookUp(env, v) == Source(s, v)
  }

  lemma PlanFollows(p: Plan, env: Env, s: State)
    requires Follows(p.fixed, s)
    ensures Follows(Installed(p, env), s)
  {
  }

  lemma InstalledFollows(s: State, env: Env)
    ensures Follows(Installed(PlanOf(s), env), s)
  {
    FixedFollows(s);
    PlanFollows(PlanOf(s), env, s);
  }

  lemma FixedFollows(s: State)
    ensures Follows(PlanOf(s).fixed, s)
  {
    forall v ensures LookUp(Fixed(s), v) == Source(s, v) {
      FixedSource(s, v);
    }
  }

  lemma PathTexts()
    ensures TextOf(Home) == "AIRFLOW_HOME" && TextOf(ConfigPath) == "AIRFLOW_CONFIG"
    ensures TextOf(DagsFolder) == "AIRFLOW__CORE__DAGS_FOLDER"
    ensures TextOf(PluginsFolder) == "AIRFLOW__CORE__PLUGINS_FOLDER"
    ensures TextOf(BaseLogFolder) == "AIRFLOW__LOGGING__BASE_LOG_FOLDER"
  {
  }

  lemma PathValues(s: State)
    ensures Source(s, Home) == Some(s.root) && Source(s, ConfigPath) == Some(s.configPath)
    ensures Source(s, DagsFolder) == Some(s.dagsFolder) && Source(s, PluginsFolder) == Some(s.pluginsFolder)
    ensures Source(s, BaseLogFolder) == Some(s.logsFolder)
  {
  }

  lemma FollowsPaths(env: Env, s: State)
    requires Follows(env, s)
    ensures SaysPaths(env, s)
  {
    PathTexts();
    PathValues(s);
  }

  lemma FollowsFlags(env: Env, s: State)
    requires Follows(env, s)
    ensures SaysFlags(env)
  {
  }

  lemma DatabaseTexts()
    ensures TextOf(SqlAlchemyConn) == "AIRFLOW__DATABASE__SQL_ALCHEMY_CONN"
    ensures TextOf(SqlAlchemyPool) == "AIRFLOW__DATABASE__SQL_ALCHEMY_POOL_ENABLED"
    ensures TextOf(FernetKey) == "AIRFLOW__CORE__FERNET_KEY"
  {
  }

  lemma FollowsDatabase(env: Env, s: State)
    requires Follows(env, s)
    ensures SaysDatabase(env, s)
  {
    DatabaseTexts();
    DatabaseValues(s);
  }

  lemma DatabaseValues(s: State)
    ensures Source(s, SqlAlchemyConn) == Some(s.sqlAlchemyConn)
    ensures Source(s, SqlAlchemyPool) == If(s.postgres, "False")
    ensures Source(s, FernetKey) == Some(s.fernetKey)
  {
  }

  lemma AuthenticationTexts()
    ensures TextOf(AuthManager) == "AIRFLOW__CORE__AUTH_MANAGER"
    ensures TextOf(AuthUsers) == "AIRFLOW__CORE__SIMPLE_AUTH_MANAGER_USERS"
    ensures TextOf(AuthPasswords) == "AIRFLOW__CORE__SIMPLE_AUTH_MANAGER_PASSWORDS_FILE"
    ensures TextOf(JwtSecret) == "AIRFLOW__API_AUTH__JWT_SECRET"
    ensures TextOf(WebserverSecret) == "AIRFLOW__WEBSERVER__SECRET_KEY"
  {
  }

  lemma AuthenticationValues(s: State)
    ensures var v3 := s.family.V3?;
            && Source(s, AuthManager) == If(v3, SIMPLE_AUTH_MANAGER)
            && Source(s, AuthUsers) == If(v3, "admin:admin")
            && Source(s, AuthPasswords) == If(v3, s.passwordFile)
            && Source(s, JwtSecret) == If(v3, s.jwtSecret)
            && Source(s, WebserverSecret) == If(!v3, s.jwtSecret)
  {
  }

  lemma FollowsAuthentication(env: Env, s: State)
    requires Follows(env, s)
    ensures SaysAuthentication(env, s)
  {
    AuthenticationTexts();
    AuthenticationValues(s);
  }

  lemma BackendTexts()
    ensures TextOf(XcomBackend) == "AIRFLOW__CORE__XCOM_BACKEND"
    ensures TextOf(SecretsBackend) == "AIRFLOW__SECRETS__BACKEND"
    ensures TextOf(SecretsBackendKwargs) == "AIRFLOW__SECRETS__BACKEND_KWARGS"
  {
  }

  lemma BackendValues(s: State)
    ensures Source(s, XcomBackend) == Optionally(s.xcomBackend)
    ensures Source(s, SecretsBackend) == Optionally(s.secretsBackend)
  {
  }

  lemma BackendArguments(s: State)
    ensures Source(s, SecretsBackendKwargs) ==
            if s.secretsBackend == "" then None else Optionally(s.secretsBackendKwargs)
  {
  }

  lemma FollowsBackends(env: Env, s: State)
    requires Follows(env, s)
    ensures SaysBackends(env, s)
  {
    BackendTexts();
    BackendValues(s);
    BackendArguments(s);
  }

  lemma InstalledExecutor(s: State, env: Env)
    ensures SaysExecutor(Installed(PlanOf(s), env), s, env)
  {
    ExecutorValue(PlanOf(s), env);
  }

  lemma ExecutorValue(p: Plan, env: Env)
    ensures LookUp(Installed(p, env), Executor) == if p.executor != "" then Some(p.executor)
                                                   else if Executor in env then Some(env[Executor])
                                                   else If(p.pins, "SequentialExecutor")
  {
  }

  /** The handoff variable holds the state's own text. */
  ghost predicate SaysText(env: Env, s: State) {
    Says(env, BootstrapState, "PYTEST_AIRFLOW_IN_A_BOX_BOOTSTRAP_STATE", Some(s.text))
  }

  lemma TextValue(p: Plan, env: Env)
    ensures LookUp(Installed(p, env), BootstrapState) == Some(p.text)
  {
  }

  lemma InstalledText(s: State, env: Env)
    ensures SaysText(Installed(PlanOf(s), env), s)
  {
  }

  ghost predicate SaysSettings(env: Env, s: State) {
    SaysPaths(env, s) && SaysFlags(env) && SaysDatabase(env, s) && SaysAuthentication(env, s) && SaysBackends(env, s)
  }

  lemma AllSay(env: Env, s: State)
    requires Follows(env, s)
    ensures SaysSettings(env, s)
  {
    FollowsPaths(env, s);
    FollowsFlags(env, s);
    FollowsDatabase(env, s);
    FollowsAuthentication(env, s);
    FollowsBackends(env, s);
  }

  /** What the plugin does not manage stays as it was. */
  ghost predicate KeepsOthers(after: Env, before: Env) {
    forall v :: !Managed(v) ==> LookUp(after, v) == LookUp(before, v)
  }

  lemma OthersStay(p: Plan, env: Env)
    ensures KeepsOthers(Installed(p, env), env)
  {
  }

  ghost predicate SaysState(after: Env, s: State, before: Env) {
    SaysSettings(after, s) && SaysExecutor(after, s, before) && SaysText(after, s)
    && KeepsOthers(after, before)
  }

  /** Whatever the environment was: after the install it says the whole state, nothing of the other
      family, and the rest as before. */
  lemma StateReadsBack(s: State, env: Env)
    ensures SaysState(Installed(PlanOf(s), env), s, env)
  {
    InstalledFollows(s, env);
    AllSay(Installed(PlanOf(s), env), s);
    InstalledExecutor(s, env);
    InstalledText(s, env);
    OthersStay(PlanOf(s), env);
  }
}
