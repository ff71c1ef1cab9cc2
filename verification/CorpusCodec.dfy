/** The shared Dag corpus and its artifact (`dagcorpus.py`: `_dag_corpus_payload`,
    `_dag_corpus_from_payload`). Durations are whole numbers of a small unit. */
module CorpusCodec {
  import opened Prelude
  import opened Lookups
  import opened Ordering
  import opened Json

  datatype CorpusTask = CorpusTask(
    taskId: string, owner: string, pool: string, isMapped: bool, overRuntimeData: bool, cap: Option<int>)

  datatype CorpusDag = CorpusDag(
    dagId: string, tags: set<string>, tasks: seq<CorpusTask>, canBeScheduled: bool, catchup: bool,
    fileloc: string, serialized: Option<map<string, Json>>, serializationError: Option<string>, seconds: int)

  datatype FileStat = FileStat(file: string, duration: int, dags: int, tasks: int)
  /** `lookups` is `None` when the parse was not observed, empty when nothing was looked up. */
  datatype DagCorpus = DagCorpus(
    dags: map<string, CorpusDag>, importErrors: map<string, string>, stats: seq<FileStat>,
    lookups: Option<seq<Lookup>>, producerPid: int, producerWorker: string)

  const DAG_CORPUS_VERSION := 2

  // ----- encoding

  function EncodeText(s: string): Json { Str(s) }

  function EncodeTask(task: CorpusTask): Json {
    Obj(map[
          "task_id" := Str(task.taskId),
          "owner" := Str(task.owner),
          "pool" := Str(task.pool),
          "is_mapped" := Bool(task.isMapped),
          "mapped_over_runtime_data" := Bool(task.overRuntimeData),
          "max_active_tis_per_dag" := if task.cap.None? then Null else Num(task.cap.value)])
  }

  function EncodeStat(stat: FileStat): Json {
    Obj(map["file" := Str(stat.file), "duration" := Num(stat.duration), "dag_num" := Num(stat.dags),
            "task_num" := Num(stat.tasks)])
  }

  function EncodeLookup(lookup: Lookup): Json {
    Obj(map["kind" := Str(lookup.kind), "key" := Str(lookup.key), "file" := EncodeMessage(lookup.file),
            "line" := if lookup.line.None? then Null else Num(lookup.line.value)])
  }

  function EncodeLookups(lookups: Option<seq<Lookup>>): Json {
    if lookups.None? then Null else Arr(EncodeAll(lookups.value, EncodeLookup))
  }

  function EncodeObject(fields: Option<map<string, Json>>): Json {
    if fields.None? then Null else Obj(fields.value)
  }

  function EncodeMessage(message: Option<string>): Json {
    if message.None? then Null else Str(message.value)
  }

  ghost function EncodeDag(dag: CorpusDag): Json {
    Obj(map[
          "tags" := Arr(EncodeAll(SortedList(dag.tags), EncodeText)),
          "tasks" := Arr(EncodeAll(dag.tasks, EncodeTask)),
          "can_be_scheduled" := Bool(dag.canBeScheduled),
          "catchup" := Bool(dag.catchup),
          "fileloc" := Str(dag.fileloc),
          "serialized" := EncodeObject(dag.serialized),
          "serialization_error" := EncodeMessage(dag.serializationError),
          "serialization_seconds" := Num(dag.seconds)])
  }

  ghost function EncodeDags(dags: map<string, CorpusDag>): map<string, Json> {
    map id | id in dags :: EncodeDag(dags[id])
  }

  function EncodeErrors(errors: map<string, string>): map<string, Json> {
    map f | f in errors :: Str(errors[f])
  }

  ghost function Encode(corpus: DagCorpus): Json {
    Obj(map[
          "version" := Num(DAG_CORPUS_VERSION),
          "producer_pid" := Num(corpus.producerPid),
          "producer_worker" := Str(corpus.producerWorker),
          "import_errors" := Obj(EncodeErrors(corpus.importErrors)),
          "dagbag_stats" := Arr(EncodeAll(corpus.stats, EncodeStat)),
          "runtime_lookups" := EncodeLookups(corpus.lookups),
          "dags" := Obj(EncodeDags(corpus.dags))])
  }

  // ----- decoding

  /** `CorpusTask(**task)`: the six names and no other. */
  function DecodeTask(json: Json): Decoded<CorpusTask> {
    var fields :- AsFields(json);
    if fields.Keys != {"task_id", "owner", "pool", "is_mapped", "mapped_over_runtime_data", "max_active_tis_per_dag"}
    then Err(Malformed("CorpusTask"))
    else
      var taskId :- StringField(json, "task_id");
      var owner :- StringField(json, "owner");
      var pool :- StringField(json, "pool");
      var isMapped :- BoolField(json, "is_mapped");
      var over :- BoolField(json, "mapped_over_runtime_data");
      var cap :- OptionalInt(Get(json, "max_active_tis_per_dag"));
      Ok(CorpusTask(taskId, owner, pool, isMapped, over, cap))
  }

  function OptionalInt(json: Json): Decoded<Option<int>> {
    if json.Null? then Ok(None) else var n :- AsInt(json); Ok(Some(n))
  }

  function OptionalString(json: Json): Decoded<Option<string>> {
    if json.Null? then Ok(None) else var s :- AsString(json); Ok(Some(s))
  }

  function OptionalObject(json: Json): Decoded<Option<map<string, Json>>> {
    if json.Null? then Ok(None) else var fields :- AsFields(json); Ok(Some(fields))
  }

  function DecodeStat(json: Json): Decoded<FileStat> {
    var file :- StringField(json, "file");
    var duration :- IntField(json, "duration");
    var dags :- IntField(json, "dag_num");
    var tasks :- IntField(json, "task_num");
    Ok(FileStat(file, duration, dags, tasks))
  }

  /** `SecretsLookup(**lookup)`: the four names and no other. */
  function DecodeLookup(json: Json): Decoded<Lookup> {
    var fields :- AsFields(json);
    if fields.Keys != {"kind", "key", "file", "line"} then Err(Malformed("SecretsLookup"))
    else
      var kind :- StringField(json, "kind");
      var key :- StringField(json, "key");
      var fileField :- Field(json, "file");
      var file :- OptionalString(fileField);
      var lineField :- Field(json, "line");
      var line :- OptionalInt(lineField);
      Ok(Lookup(kind, key, file, line))
  }

  function DecodeDag(id: string, json: Json): Decoded<CorpusDag> {
    var tagItems :- Field(json, "tags");
    var tagList :- AsItems(tagItems);
    var tags :- DecodeAll(tagList, AsString);
    var taskItems :- Field(json, "tasks");
    var taskList :- AsItems(taskItems);
    var tasks :- DecodeAll(taskList, DecodeTask);
    var canBeScheduled :- BoolField(json, "can_be_scheduled");
    var catchup :- BoolField(json, "catchup");
    var fileloc :- StringField(json, "fileloc");
    var serializedField :- Field(json, "serialized");
    var serialized :- OptionalObject(serializedField);
    var errorField :- Field(json, "serialization_error");
    var error :- OptionalString(errorField);
    var seconds :- IntField(json, "serialization_seconds");
    Ok(CorpusDag(id, Elements(tags), tasks, canBeScheduled, catchup, fileloc, serialized, error, seconds))
  }

  function DecodeLookups(json: Json): Decoded<Option<seq<Lookup>>> {
    if json.Null? then Ok(None)
    else
      var items :- AsItems(json);
      var lookups :- DecodeAll(items, DecodeLookup);
      Ok(Some(lookups))
  }

  function DecodeError(file: string, json: Json): Decoded<string> {
    AsString(json)
  }

  ghost function Decode(payload: Json): Decoded<DagCorpus> {
    if Get(payload, "version") != Num(DAG_CORPUS_VERSION) then Err(UnsupportedVersion(Get(payload, "version")))
    else
      var lookupsField :- Field(payload, "runtime_lookups");
      var lookups :- DecodeLookups(lookupsField);
      var dagsField :- Field(payload, "dags");
      var dagFields :- AsFields(dagsField);
      var dags :- DecodeFields(dagFields, DecodeDag);
      var errorsField :- Field(payload, "import_errors");
      var errorFields :- AsFields(errorsField);
      var errors :- DecodeFields(errorFields, DecodeError);
      var statsField :- Field(payload, "dagbag_stats");
      var statItems :- AsItems(statsField);
      var stats :- DecodeAll(statItems, DecodeStat);
      var pid :- IntField(payload, "producer_pid");
      var worker :- StringField(payload, "producer_worker");
      Ok(DagCorpus(dags, errors, stats, lookups, pid, worker))
  }

  // ----- the round trip

  /** Every Dag is filed under its own id, as `_build_dag_corpus` files them. */
  predicate WellKeyed(corpus: DagCorpus) {
    forall id :: id in corpus.dags ==> corpus.dags[id].dagId == id
  }

  function Rekeyed(corpus: DagCorpus): DagCorpus {
    corpus.(dags := map id | id in corpus.dags :: corpus.dags[id].(dagId := id))
  }

  lemma TaskRoundTrip(task: CorpusTask)
    ensures DecodeTask(EncodeTask(task)) == Ok(task)
  {
  }

  lemma StatRoundTrip(stat: FileStat)
    ensures DecodeStat(EncodeStat(stat)) == Ok(stat)
  {
  }

  lemma LookupRoundTrip(lookup: Lookup)
    ensures DecodeLookup(EncodeLookup(lookup)) == Ok(lookup)
  {
  }

  lemma EncodedDagFields(dag: CorpusDag)
    ensures var json := EncodeDag(dag);
            && Field(json, "tags") == Ok(Arr(EncodeAll(SortedList(dag.tags), EncodeText)))
            && Field(json, "tasks") == Ok(Arr(EncodeAll(dag.tasks, EncodeTask)))
            && Field(json, "can_be_scheduled") == Ok(Bool(dag.canBeScheduled))
            && Field(json, "catchup") == Ok(Bool(dag.catchup))
            && Field(json, "fileloc") == Ok(Str(dag.fileloc))
            && Field(json, "serialized") == Ok(EncodeObject(dag.serialized))
            && Field(json, "serialization_error") == Ok(EncodeMessage(dag.serializationError))
            && Field(json, "serialization_seconds") == Ok(Num(dag.seconds))
  {
  }

  lemma DagFromFields(json: Json, id: string, dag: CorpusDag, tags: seq<Json>, tagList: seq<string>, tasks: seq<Json>)
    requires Field(json, "tags") == Ok(Arr(tags)) && DecodeAll(tags, AsString) == Ok(tagList) &&
             Elements(tagList) == dag.tags
    requires Field(json, "tasks") == Ok(Arr(tasks)) && DecodeAll(tasks, DecodeTask) == Ok(dag.tasks)
    requires Field(json, "can_be_scheduled") == Ok(Bool(dag.canBeScheduled))
    requires Field(json, "catchup") == Ok(Bool(dag.catchup))
    requires Field(json, "fileloc") == Ok(Str(dag.fileloc))
    requires Field(json, "serialized") == Ok(EncodeObject(dag.serialized))
    requires Field(json, "serialization_error") == Ok(EncodeMessage(dag.serializationError))
    requires Field(json, "serialization_seconds") == Ok(Num(dag.seconds))
    ensures DecodeDag(id, json) == Ok(dag.(dagId := id))
  {
  }

  lemma DagRoundTrip(id: string, dag: CorpusDag)
    ensures DecodeDag(id, EncodeDag(dag)) == Ok(dag.(dagId := id))
  {
    TagsRoundTrip(dag.tags);
    SortedListSorts(dag.tags);
    TasksRoundTrip(dag.tasks);
    EncodedDagFields(dag);
    DagFromFields(EncodeDag(dag), id, dag, EncodeAll(SortedList(dag.tags), EncodeText), SortedList(dag.tags),
                  EncodeAll(dag.tasks, EncodeTask));
  }

  lemma TagsRoundTrip(tags: set<string>)
    ensures DecodeAll(EncodeAll(SortedList(tags), EncodeText), AsString) == Ok(SortedList(tags))
  {
  }

  lemma TasksRoundTrip(tasks: seq<CorpusTask>)
    ensures DecodeAll(EncodeAll(tasks, EncodeTask), DecodeTask) == Ok(tasks)
  {
    forall task ensures DecodeTask(EncodeTask(task)) == Ok(task) {
      TaskRoundTrip(task);
    }
    ListRoundTrip(tasks, EncodeTask, DecodeTask);
  }

  lemma DagsRoundTrip(corpus: DagCorpus)
    ensures DecodeFields(EncodeDags(corpus.dags), DecodeDag) == Ok(Rekeyed(corpus).dags)
  {
    var fields := EncodeDags(corpus.dags);
    forall id | id in fields ensures DecodeDag(id, fields[id]) == Ok(corpus.dags[id].(dagId := id)) {
      DagRoundTrip(id, corpus.dags[id]);
    }
    FieldsDecoded(fields, DecodeDag, Rekeyed(corpus).dags);
  }

  lemma ErrorsRoundTrip(errors: map<string, string>)
    ensures DecodeFields(EncodeErrors(errors), DecodeError) == Ok(errors)
  {
    FieldsDecoded(EncodeErrors(errors), DecodeError, errors);
  }

  lemma LookupsRoundTrip(lookups: Option<seq<Lookup>>)
    ensures DecodeLookups(EncodeLookups(lookups)) == Ok(lookups)
  {
    if lookups.Some? {
      forall lookup ensures DecodeLookup(EncodeLookup(lookup)) == Ok(lookup) {
        LookupRoundTrip(lookup);
      }
      ListRoundTrip(lookups.value, EncodeLookup, DecodeLookup);
    }
  }

  lemma StatsRoundTrip(stats: seq<FileStat>)
    ensures DecodeAll(EncodeAll(stats, EncodeStat), DecodeStat) == Ok(stats)
  {
    forall stat ensures DecodeStat(EncodeStat(stat)) == Ok(stat) {
      StatRoundTrip(stat);
    }
    ListRoundTrip(stats, EncodeStat, DecodeStat);
  }

  lemma EncodedFields(corpus: DagCorpus)
    ensures var json := Encode(corpus);
            && Get(json, "version") == Num(DAG_CORPUS_VERSION)
            && Field(json, "producer_pid") == Ok(Num(corpus.producerPid))
            && Field(json, "producer_worker") == Ok(Str(corpus.producerWorker))
            && Field(json, "import_errors") == Ok(Obj(EncodeErrors(corpus.importErrors)))
            && Field(json, "dagbag_stats") == Ok(Arr(EncodeAll(corpus.stats, EncodeStat)))
            && Field(json, "runtime_lookups") == Ok(EncodeLookups(corpus.lookups))
            && Field(json, "dags") == Ok(Obj(EncodeDags(corpus.dags)))
  {
  }

  lemma CorpusFromFields(json: Json, corpus: DagCorpus, dags: map<string, Json>, errors: map<string, Json>,
                         stats: seq<Json>, lookups: Json)
    requires Get(json, "version") == Num(DAG_CORPUS_VERSION)
    requires Field(json, "producer_pid") == Ok(Num(corpus.producerPid))
    requires Field(json, "producer_worker") == Ok(Str(corpus.producerWorker))
    requires Field(json, "import_errors") == Ok(Obj(errors)) &&
             DecodeFields(errors, DecodeError) == Ok(corpus.importErrors)
    requires Field(json, "dagbag_stats") == Ok(Arr(stats)) && DecodeAll(stats, DecodeStat) == Ok(corpus.stats)
    requires Field(json, "runtime_lookups") == Ok(lookups) && DecodeLookups(lookups) == Ok(corpus.lookups)
    requires Field(json, "dags") == Ok(Obj(dags)) && DecodeFields(dags, DecodeDag) == Ok(corpus.dags)
    ensures Decode(json) == Ok(corpus)
  {
  }

  /** Publishing and reading back keeps everything but a key that is not its Dag's id. */
  lemma RoundTrip(corpus: DagCorpus)
    ensures Decode(Encode(corpus)) == Ok(Rekeyed(corpus))
    ensures Decode(Encode(corpus)) == Ok(corpus) <==> WellKeyed(corpus)
  {
    EncodedFields(corpus);
    DagsRoundTrip(corpus);
    ErrorsRoundTrip(corpus.importErrors);
    LookupsRoundTrip(corpus.lookups);
    StatsRoundTrip(corpus.stats);
    CorpusFromFields(Encode(corpus), Rekeyed(corpus), EncodeDags(corpus.dags), EncodeErrors(corpus.importErrors),
                     EncodeAll(corpus.stats, EncodeStat), EncodeLookups(corpus.lookups));
    RekeyedSame(corpus);
  }

  lemma RekeyedSame(corpus: DagCorpus)
    ensures Rekeyed(corpus) == corpus <==> WellKeyed(corpus)
  {
  }

  lemma DecodedIsWellKeyed(payload: Json)
    ensures Decode(payload).Ok? ==> WellKeyed(Decode(payload).value)
  {
    if Decode(payload).Ok? {
      var dags := Field(payload, "dags").value.fields;
      forall id | id in dags ensures DecodeDag(id, dags[id]).value.dagId == id {
        assert Decodes(dags, DecodeDag);
      }
    }
  }
}
