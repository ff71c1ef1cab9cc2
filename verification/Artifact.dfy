/** The migration artifact and its validation on load (`artifact.py`:
    `_require_outcome_entry`, `load_artifact`, what `write_artifact` writes). */
module Artifact {
  import opened Prelude
  import opened Json
  import OutcomeRecord

  type Outcome = OutcomeRecord.Outcome
  type Entry = OutcomeRecord.Entry

  const ARTIFACT_SCHEMA_VERSION := 1

  datatype Artifact = Artifact(
    pluginVersion: string, airflowVersion: string, airflowFamily: string, pythonVersion: string,
    pytestVersion: string, createdAt: string, complete: bool, outcomes: map<string, Entry>)

  function OutcomeText(outcome: Outcome): string {
    match outcome
    case Passed => "passed"
    case Failed => "failed"
    case Error => "error"
    case Skipped => "skipped"
    case Xfailed => "xfailed"
    case Xpassed => "xpassed"
  }

  /** `Outcome(text)`, which raises on any other text. */
  function ParseOutcome(text: string): (r: Decoded<Outcome>)
    ensures r.Ok? ==> OutcomeText(r.value) == text
  {
    if text == "passed" then Ok(OutcomeRecord.Passed)
    else if text == "failed" then Ok(OutcomeRecord.Failed)
    else if text == "error" then Ok(OutcomeRecord.Error)
    else if text == "skipped" then Ok(OutcomeRecord.Skipped)
    else if text == "xfailed" then Ok(OutcomeRecord.Xfailed)
    else if text == "xpassed" then Ok(OutcomeRecord.Xpassed)
    else Err(Malformed("outcome"))
  }

  // ----- one entry

  function EncodeEntry(entry: Entry): Json {
    Obj(map[
          "outcome" := Str(OutcomeText(entry.outcome)),
          "phase" := if entry.phase.None? then Null else Str(entry.phase.value),
          "gated" := Bool(entry.gated),
          "duration" := Num(entry.duration)])
  }

  /** The phase is set exactly for an error, and then names setup or teardown. */
  predicate Consistent(entry: Entry) {
    && (entry.outcome.Error? <==> entry.phase.Some?)
    && (entry.phase.Some? ==> entry.phase.value == "setup" || entry.phase.value == "teardown")
  }

  function RequirePhase(json: Json): Decoded<Option<string>> {
    if json.Null? then Ok(None)
    else if json == Str("setup") || json == Str("teardown") then Ok(Some(json.s))
    else Err(Malformed("phase"))
  }

  function RequireOutcomeEntry(json: Json): Decoded<Entry> {
    var fields :- AsFields(json);
    var text :- AsString(Get(json, "outcome"));
    var outcome :- ParseOutcome(text);
    var phaseField :- Field(json, "phase");
    var phase :- RequirePhase(phaseField);
    if outcome.Error? != phase.Some? then Err(Malformed("phase"))
    else
      var gated :- AsBool(Get(json, "gated"));
      var duration :- AsInt(Get(json, "duration"));
      Ok(OutcomeRecord.Entry(outcome, phase, gated, duration))
  }

  /** An entry loads back as written exactly when it is consistent. */
  lemma EntryRoundTrip(entry: Entry)
    ensures RequireOutcomeEntry(EncodeEntry(entry)) == Ok(entry) <==> Consistent(entry)
  {
  }

  /** Nothing inconsistent is ever accepted. */
  lemma AcceptedIsConsistent(json: Json)
    ensures RequireOutcomeEntry(json).Ok? ==> Consistent(RequireOutcomeEntry(json).value)
  {
  }

  // ----- the whole artifact

  function EncodeOutcomes(outcomes: map<string, Entry>): map<string, Json> {
    map id | id in outcomes :: EncodeEntry(outcomes[id])
  }

  function Encode(artifact: Artifact): Json {
    Obj(map[
          "schema_version" := Num(ARTIFACT_SCHEMA_VERSION),
          "plugin_version" := Str(artifact.pluginVersion),
          "airflow_version" := Str(artifact.airflowVersion),
          "airflow_family" := Str(artifact.airflowFamily),
          "python_version" := Str(artifact.pythonVersion),
          "pytest_version" := Str(artifact.pytestVersion),
          "created_at" := Str(artifact.createdAt),
          "complete" := Bool(artifact.complete),
          "outcomes" := Obj(EncodeOutcomes(artifact.outcomes))])
  }

  function RequireString(json: Json, key: string): Decoded<string> {
    var s :- AsString(Get(json, key));
    if s == "" then Err(Malformed(key)) else Ok(s)
  }

  function RequireKeyedEntry(id: string, json: Json): Decoded<Entry> {
    if id == "" then Err(Malformed("nodeid")) else RequireOutcomeEntry(json)
  }

  ghost function Load(json: Json): Decoded<Artifact> {
    var fields :- AsFields(json);
    var version :- AsInt(Get(json, "schema_version"));
    if version != ARTIFACT_SCHEMA_VERSION then Err(UnsupportedVersion(Num(version)))
    else
      var outcomeFields :- AsFields(Get(json, "outcomes"));
      var outcomes :- DecodeFields(outcomeFields, RequireKeyedEntry);
      var plugin :- RequireString(json, "plugin_version");
      var airflow :- RequireString(json, "airflow_version");
      var family :- RequireString(json, "airflow_family");
      var python :- RequireString(json, "python_version");
      var pytest :- RequireString(json, "pytest_version");
      var created :- RequireString(json, "created_at");
      var complete :- AsBool(Get(json, "complete"));
      Ok(Artifact(plugin, airflow, family, python, pytest, created, complete, outcomes))
  }

  predicate Named(artifact: Artifact) {
    artifact.pluginVersion != "" && artifact.airflowVersion != "" && artifact.airflowFamily != "" &&
    artifact.pythonVersion != "" && artifact.pytestVersion != "" && artifact.createdAt != ""
  }

  ghost predicate EntriesLoad(outcomes: map<string, Entry>) {
    forall id :: id in outcomes ==> id != "" && Consistent(outcomes[id])
  }

  ghost predicate Loadable(artifact: Artifact) {
    Named(artifact) && EntriesLoad(artifact.outcomes)
  }

  lemma EncodedFields(artifact: Artifact)
    ensures var json := Encode(artifact);
            && Get(json, "schema_version") == Num(ARTIFACT_SCHEMA_VERSION)
            && Get(json, "outcomes") == Obj(EncodeOutcomes(artifact.outcomes))
            && Get(json, "complete") == Bool(artifact.complete)
  {
  }

  lemma EncodedStrings(artifact: Artifact)
    ensures var json := Encode(artifact);
            && Get(json, "plugin_version") == Str(artifact.pluginVersion)
            && Get(json, "airflow_version") == Str(artifact.airflowVersion)
            && Get(json, "airflow_family") == Str(artifact.airflowFamily)
            && Get(json, "python_version") == Str(artifact.pythonVersion)
            && Get(json, "pytest_version") == Str(artifact.pytestVersion)
            && Get(json, "created_at") == Str(artifact.createdAt)
  {
  }

  lemma OutcomesRoundTrip(outcomes: map<string, Entry>)
    ensures DecodeFields(EncodeOutcomes(outcomes), RequireKeyedEntry) == Ok(outcomes) <==> EntriesLoad(outcomes)
  {
    var fields := EncodeOutcomes(outcomes);
    forall id | id in outcomes
      ensures RequireKeyedEntry(id, fields[id]) == Ok(outcomes[id]) <==> id != "" && Consistent(outcomes[id])
    {
      EntryRoundTrip(outcomes[id]);
    }
    if EntriesLoad(outcomes) {
      FieldsDecoded(fields, RequireKeyedEntry, outcomes);
    } else if DecodeFields(fields, RequireKeyedEntry) == Ok(outcomes) {
      KeyedEntriesOf(fields, outcomes);
      assert false;
    }
  }

  lemma KeyedEntriesOf(fields: map<string, Json>, outcomes: map<string, Entry>)
    requires DecodeFields(fields, RequireKeyedEntry) == Ok(outcomes)
    ensures outcomes.Keys == fields.Keys
    ensures forall id :: id in fields ==> RequireKeyedEntry(id, fields[id]) == Ok(outcomes[id])
  {
  }

  lemma LoadFromFields(json: Json, artifact: Artifact, outcomes: map<string, Json>)
    requires json.Obj?
    requires Get(json, "schema_version") == Num(ARTIFACT_SCHEMA_VERSION)
    requires Get(json, "outcomes") == Obj(outcomes)
    requires Get(json, "complete") == Bool(artifact.complete)
    requires Get(json, "plugin_version") == Str(artifact.pluginVersion)
    requires Get(json, "airflow_version") == Str(artifact.airflowVersion)
    requires Get(json, "airflow_family") == Str(artifact.airflowFamily)
    requires Get(json, "python_version") == Str(artifact.pythonVersion)
    requires Get(json, "pytest_version") == Str(artifact.pytestVersion)
    requires Get(json, "created_at") == Str(artifact.createdAt)
    ensures Load(json) == Ok(artifact) <==>
            Named(artifact) && DecodeFields(outcomes, RequireKeyedEntry) == Ok(artifact.outcomes)
  {
  }

  /** An artifact loads back as written exactly when it is loadable. */
  lemma ArtifactRoundTrip(artifact: Artifact)
    ensures Load(Encode(artifact)) == Ok(artifact) <==> Loadable(artifact)
  {
    EncodedFields(artifact);
    EncodedStrings(artifact);
    LoadFromFields(Encode(artifact), artifact, EncodeOutcomes(artifact.outcomes));
    OutcomesRoundTrip(artifact.outcomes);
  }

  // ----- recorded artifacts

  /** Every outcome in a record is consistent, and its key is a stripped node id. */
  lemma {:induction false} RecordedOutcomes(reports: seq<OutcomeRecord.Report>, id: string)
    ensures id in OutcomeRecord.HandledAll(reports).outcomes ==>
              Consistent(OutcomeRecord.HandledAll(reports).outcomes[id])
    ensures id in OutcomeRecord.HandledAll(reports).outcomes <==>
            exists r :: r in reports && OutcomeRecord.Ends(r) && OutcomeRecord.StripGroupSuffix(r.nodeid) == id
  {
    if reports != [] {
      var front, last := reports[..|reports| - 1], reports[|reports| - 1];
      RecordedOutcomes(front, id);
      assert reports == front + [last];
      RecordedStep(OutcomeRecord.HandledAll(front), last, id);
    }
  }

  lemma RecordedStep(s: OutcomeRecord.State, r: OutcomeRecord.Report, id: string)
    requires id in s.outcomes ==> Consistent(s.outcomes[id])
    ensures var t := OutcomeRecord.Handled(s, r);
            && (id in t.outcomes ==> Consistent(t.outcomes[id]))
            && (id in t.outcomes <==>
                id in s.outcomes || (OutcomeRecord.Ends(r) && OutcomeRecord.StripGroupSuffix(r.nodeid) == id))
  {
  }

  /** A test that finished under a node id that is nothing but a group suffix. */
  predicate Nameless(r: OutcomeRecord.Report) {
    OutcomeRecord.Ends(r) && OutcomeRecord.StripGroupSuffix(r.nodeid) == ""
  }

  /** What is recorded loads back unchanged, unless a finished test's node id strips to
      nothing, as `@group` does. */
  lemma RecordedArtifactLoads(reports: seq<OutcomeRecord.Report>, artifact: Artifact)
    requires Named(artifact) && artifact.outcomes == OutcomeRecord.HandledAll(reports).outcomes
    ensures Load(Encode(artifact)) == Ok(artifact) <==> forall r :: r in reports ==> !Nameless(r)
  {
    ArtifactRoundTrip(artifact);
    forall id | id in artifact.outcomes ensures Consistent(artifact.outcomes[id]) {
      RecordedOutcomes(reports, id);
    }
    RecordedOutcomes(reports, "");
  }

  /** The non-empty node ids that strip to nothing: an `@` and then a plain group name. */
  lemma NamelessIds(nodeid: string)
    requires nodeid != ""
    ensures OutcomeRecord.StripGroupSuffix(nodeid) == "" <==>
            nodeid[0] == '@' && '@' !in nodeid[1..] && ']' !in nodeid[1..]
  {
  }
}
