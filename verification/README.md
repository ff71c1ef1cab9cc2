# A verified model of pytest-airflow-in-a-box

This Dafny project models the parts of the plugin that are protocols, state machines and
program analyses, and proves what their docstrings promise. `dafny verify dfyconfig.toml`
checks everything. Each module opens with a comment naming the source functions it models.

Code that updates state step by step is a class or a looping method here, proved against a
specification function; what the source promises is then proved about that function, for all
inputs or over all runs. Protocols between processes are step relations, and their theorems
hold in every interleaving, with a crash or an exception allowed at every point.

## What is modelled

- **Taint analysis of Dag files** (`versioninflation.py`): modules `DagSyntax`,
  `VaryingAnalyzer`, `DagArgsVisitor` (the walk, as functions and as the mutating `Visitor`),
  `DagReport`, `DagReplay` and `DagFindings` (exactly what is reported, said without the walk),
  `DagSources` (exactly what varies) and `DagNames` (what imports make of a name);
  `DagExecution` (what loading a file evaluates), `Noninterference` (the theorem) and
  `NoninterferenceGaps` and `EffectGaps` (files that vary unreported: why the fragment's guards
  are there; `LeakingFiles` puts them together).
- **Retention of run roots** (`_airflow_home.py`): `RetainedRoots` interleaves concurrent
  runs; `RetentionCleanup` is one run's cleanup as methods; `RetainedRootsTies` builds, for
  any marks with a tie at the cut, a run that keeps too few.
- **Fan-out parsing** (`parallel_dagbag.py`): `FileShards`, `FanOut` (merge against a
  declarative first-wins parse), `FanOutChildren` (process lifecycle).
- **Elected producers** (`_compat/database.py`, `dagcorpus.py`): `DatabaseElection`,
  `CorpusElection` and `CorpusReturns`, with `CorpusCodec` and `Json` for the artifact; `Sampling`.
- **Outcomes** (`record.py`, `artifact.py`, `baseline.py`): `OutcomeRecord`,
  `RecordSessions`, `Artifact`, `MigrationDiff`.
- **Structlog capture** (`logging.py`): `StructlogCapture`.
- **Environment ownership** (`bootstrap.py`, `config.py`, `ini_config.py`, `isolated.py`):
  `EnvNames`, `IniOverrides`, `Environment`, `StateSettings`.
- **Import-time scan** (`antipatterns.py`): `ImportTime` (the walk, and what
  loading evaluates), `ImportReach` (which guards loading comes to), `ImportSkips`,
  `ImportOrder`, `ImportScan` and `ImportBindings` (what each name stands for).
- **Isolated batches** (`isolated.py`): `IsolatedBatches` and `IsolatedOutcomes`.

`Ordering` holds Python's stable `sorted` and facts about it, `Prelude` and `Lookups` the
shared small datatypes.

## What loading a Dag file is taken to be

The noninterference theorem is about executions (`DagExecution`) in which a call of a certified
clock, uuid or random callable may return anything, and so may a call that can come to one: through
an attribute of it, through a method of its name, or because it is given one or its owner. Any
other call is a function of what it is given, imports included; `>>` and `<<` and every call that
is not certified may change what they are given, and whatever shares an object with it, in place.
They change nothing they cannot reach from there, no call returns or remembers a variable's object
it was not given, and what is imported is the same in both loads and, `os.environ` for one, taken
as untouched.

## Where the code does less than its documentation reads

Each of these is proved, with the exact condition where there is one.

- Pruning keeps as many roots as asked for, in every complete run without a fault, if and only
  if no two equal marker times stand at the cut (`RetainedRootsTies.ClearCutExactly`); with a
  tie, some run keeps fewer (`RetainedRootsTies.TiesLoseRoots`), and two runs can each remove
  the other's root and leave none (`RetainedRootsTies.TiesCanLoseEverything`). Ties or not, the
  roots outranked by fewer than `keep` others stay, and roots in flight are never at risk.
- Twenty-two kinds of Dag file pass the taint analysis and still vary, each a lemma of
  `NoninterferenceGaps` or `EffectGaps`: an attribute or a subscript of a varying value, a
  format spec, what a comprehension iterates over, a callee that is a call, a tainted variable
  or an assigned callable, a chain more than two attributes deep or going on from a certified
  callable, a dotted module under an alias, a star import, an import over an older one of the
  same name, a variable bound by unpacking, by `with`, or by a loop that has ended, a varying
  call that counts as a task constructor, a list that a varying value is appended to, an object
  shared with a tainted variable, a task that `>>` is used on, a certified method of an
  instance, and a certified callable or its owner handed over as a value.
- A fan-out child that ends in time with output that is not UTF-8, as the first without a
  payload, raises an exception that no handler catches (`FanOutChildren.EscapesExactly`); the
  children are all reaped if and only if none escapes, or only from the last
  (`FanOutChildren.Fleet.FanOut`).
- A worker sees drift when an ini override changes `core.executor` and the run also
  configured an executor, and in no other case (`Environment.WorkerDriftExactly`).
- Installing a capture marks structlog as configured, so the user's first `configure_once`
  afterwards is lost (`StructlogCapture.InstallUsesUpConfigureOnce`), and the last uninstall
  restores `cache_logger_on_first_use` from before the first install, whatever the user set
  since (`StructlogCapture.CacheFlagGoesBack`).
- A node id made of `@` and a plain group name strips to the empty string, and an artifact
  holding it does not load (`Artifact.RecordedArtifactLoads`, `Artifact.NamelessIds`).
- `if f().TYPE_CHECKING:` runs `f()` at import time, unrecorded. A module is covered in every
  load if and only if each call in a false guard's test that execution can reach is recorded elsewhere
  (`ImportReach.LoadingIsCoveredExactly`, `ImportReach.GuardCallEscapes`).
- The findings of the import-time scan come in the order of the walk, which is a rearrangement
  of the source order (`ImportOrder.BodyRearranged`). It is the source order if and only if no
  conditional expression, decorated class, dict display, or starred argument after a named one has
  calls on both sides (`ImportOrder.RecordedAsWrittenExactly`, with inputs in
  `ImportOrder.OrderIsLost`, `ImportOrder.DisplayOrderIsLost`, `ImportOrder.StarredOrderIsLost`).
- A marked item runs in its own group's batch if and only if no group begun later holds the same
  node id (`IsolatedBatches.OwnBatchExactly`).

## Model

| member | source | states |
|---|---|---|
| `Noninterference.CleanFileLoadsAlike` | src/pytest_airflow_in_a_box/versioninflation.py:652-666 | For every file of the covered fragment (star imports are outside it) that the scan reports nothing about, and every grouping of its variables that keeps together what may share an object: two loads that differ only in what the certified clock, uuid and random calls return pass equal arguments to every call classified as a constructor, in the same order, bind the same names, and agree on every variable the walk left untainted, changes in place included; other calls are functions of what they are given, and the state of other modules (`os.environ`) is taken as untouched |
| `Noninterference.BodyInStep` | src/pytest_airflow_in_a_box/versioninflation.py:492-563 | Induction over any covered block that adds no finding: tainted names carry text, import maps tell the truth, no variable holds a certified callable or its owner, and everything outside `varying_vars` is equal in both executions, whatever was changed in place, before and after each statement and through `with` blocks |
| `Noninterference.StableValue` | src/pytest_airflow_in_a_box/versioninflation.py:138-176 | Evaluating a covered expression in two environments that agree outside the tainted names leaves them in agreement, whatever its calls change in place, hands out no certified callable, and gives one and the same value when the analyzer finds no varying source |
| `Noninterference.ChangeKeepsSimilar` | src/pytest_airflow_in_a_box/versioninflation.py:138-176 | A change in place keeps two loads in agreement when it is the same in both, or when all that shares with what was given is tainted |
| `Noninterference.NoClock` | src/pytest_airflow_in_a_box/versioninflation.py:244-299 | A covered call whose callee is not certified comes to no certified callable by way of its callee, its receiver or its arguments |
| `Noninterference.SourcesHaveText` | src/pytest_airflow_in_a_box/versioninflation.py:138-242 | The analyzer never answers with an empty string, so its truthiness tests mean "is not None" |
| `Noninterference.CertifiedIsFlagged` | src/pytest_airflow_in_a_box/versioninflation.py:244-299 | Every covered callee that denotes one of the certified callables is flagged, wherever the analyzer's reading of the imports agrees with Python's on the owners of certified callables |
| `Noninterference.FromImportIsCovered` | src/pytest_airflow_in_a_box/versioninflation.py:481-490 | They go on agreeing after every absolute import of a name, under any alias and whatever was imported before, the star apart |
| `Noninterference.ModuleImportIsCovered` | src/pytest_airflow_in_a_box/versioninflation.py:471-479 | And after every import of a module, dotted or not, aliased or not, under a name no `from` import holds, unless a dotted path under an alias ends like an owner of certified callables or the package's name was an alias before |
| `Noninterference.PassedEqually` | src/pytest_airflow_in_a_box/versioninflation.py:627-649 | A constructor call that leaves no finding gets equal arguments in both executions |
| `NoninterferenceGaps.AttributeLeaks` | src/pytest_airflow_in_a_box/versioninflation.py:138-176 | An attribute outside callee position is read as stable: a concrete file loads with different arguments, unreported |
| `NoninterferenceGaps.SubscriptLeaks` | src/pytest_airflow_in_a_box/versioninflation.py:138-176 | A subscript is not looked into: a concrete file loads with different arguments, unreported |
| `NoninterferenceGaps.AliasLeaks` | src/pytest_airflow_in_a_box/versioninflation.py:283-299 | A varying callable called through an assigned variable is not seen: a concrete file loads with different arguments, unreported |
| `NoninterferenceGaps.UnpackingLeaks` | src/pytest_airflow_in_a_box/versioninflation.py:492-506 | A variable bound by unpacking is not tracked: a concrete file loads with different arguments, unreported |
| `NoninterferenceGaps.LoopTargetLeaks` | src/pytest_airflow_in_a_box/versioninflation.py:526-540 | The taint of a loop target ends with its loop, though the variable lives on: a concrete file loads with different arguments, unreported |
| `NoninterferenceGaps.FormatSpecLeaks` | src/pytest_airflow_in_a_box/versioninflation.py:138-176 | A format spec is not looked into: a concrete file loads with different arguments, unreported |
| `NoninterferenceGaps.ComprehensionLeaks` | src/pytest_airflow_in_a_box/versioninflation.py:138-176 | What a comprehension iterates over is not looked into: a concrete file loads with different arguments, unreported |
| `NoninterferenceGaps.CalleeFormLeaks` | src/pytest_airflow_in_a_box/versioninflation.py:244-262 | A callee that is itself a call is not looked into: a concrete file loads with different arguments, unreported |
| `NoninterferenceGaps.TaintedCalleeLeaks` | src/pytest_airflow_in_a_box/versioninflation.py:138-176 | A tainted variable is not looked at when it is called: a concrete file loads with different arguments, unreported |
| `NoninterferenceGaps.DeepChainLeaks` | src/pytest_airflow_in_a_box/versioninflation.py:264-281 | A callee more than two attributes deep is not looked at: a concrete file loads with different arguments, unreported |
| `NoninterferenceGaps.DottedAliasLeaks` | src/pytest_airflow_in_a_box/versioninflation.py:260-281 | A dotted module under an alias is looked up by its whole path: a concrete file loads with different arguments, unreported |
| `NoninterferenceGaps.StaleImportLeaks` | src/pytest_airflow_in_a_box/versioninflation.py:471-490 | An import over an older `from` import of the same name leaves the older reading in force: a concrete file loads with different arguments, unreported |
| `NoninterferenceGaps.StarImportLeaks` | src/pytest_airflow_in_a_box/versioninflation.py:481-490 | A star import is recorded as one name, `*`: a concrete file loads with different arguments, unreported |
| `NoninterferenceGaps.WithBindingLeaks` | src/pytest_airflow_in_a_box/versioninflation.py:542-563 | What a `with` statement binds is not tracked: a concrete file loads with different arguments, unreported |
| `NoninterferenceGaps.TaskConstructorLeaks` | src/pytest_airflow_in_a_box/versioninflation.py:492-506 | Assigning a call that counts as a task constructor tracks no taint, even when the call is itself varying: a concrete file loads with different arguments, unreported |
| `EffectGaps.MutationLeaks` | src/pytest_airflow_in_a_box/versioninflation.py:508-524 | A change in place of a list is not tracked: a concrete file loads with different arguments, unreported |
| `EffectGaps.SharingLeaks` | src/pytest_airflow_in_a_box/versioninflation.py:492-506 | What a tainted variable shares with an untainted one is not tracked: a concrete file loads with different arguments, unreported |
| `EffectGaps.OperatorLeaks` | src/pytest_airflow_in_a_box/versioninflation.py:138-176 | What `>>` does to its operands is not tracked: a concrete file loads with different arguments, unreported |
| `EffectGaps.ThroughClockLeaks` | src/pytest_airflow_in_a_box/versioninflation.py:260-281 | A chain that goes on from a certified callable is not looked into: a concrete file loads with different arguments, unreported |
| `EffectGaps.InstanceLeaks` | src/pytest_airflow_in_a_box/versioninflation.py:260-281 | A certified method called on an instance is not seen: a concrete file loads with different arguments, unreported |
| `EffectGaps.CallableValueLeaks` | src/pytest_airflow_in_a_box/versioninflation.py:283-299 | A certified callable handed over as a value is not tracked: a concrete file loads with different arguments, unreported |
| `EffectGaps.OwnerValueLeaks` | src/pytest_airflow_in_a_box/versioninflation.py:260-281 | The owner of certified callables handed over as a value is not tracked: a concrete file loads with different arguments, unreported |
| `DagArgsVisitor.Visitor.Visit` | src/pytest_airflow_in_a_box/versioninflation.py:471-613 | Visiting a statement takes the visitor's maps, Dag names, context and findings exactly where the specification walk takes them |
| `DagArgsVisitor.Visitor.VisitAll` | src/pytest_airflow_in_a_box/versioninflation.py:444-613 | The same for a block, statement by statement |
| `DagArgsVisitor.ScanModule` | src/pytest_airflow_in_a_box/versioninflation.py:652-666 | The scan of a module is the sorted report of the walk's findings |
| `DagArgsVisitor.VisitExprKeepsBindings` | src/pytest_airflow_in_a_box/versioninflation.py:508-524 | Visiting any expression can add findings but changes nothing known about names, Dags, functions or context |
| `DagArgsVisitor.ReportIsSorted` | src/pytest_airflow_in_a_box/versioninflation.py:652-666 | The report holds exactly the walk's findings, with their multiplicities, in order of line and then end line |
| `DagFindings.ReportExactly` | src/pytest_airflow_in_a_box/versioninflation.py:569-666 | For every file: a finding is in the report if and only if it describes (lines, first varying argument, what is constructed) a constructor call or task decorator that the file reaches outside of functions, or the last one reached in a function before a call of the function by its name |
| `DagFindings.ReportCounts` | src/pytest_airflow_in_a_box/versioninflation.py:508-524 | And how often: once for each visit outside of functions that makes it, and once more when a call by name surfaced it before any of those did |
| `DagReplay.BodyReplays` | src/pytest_airflow_in_a_box/versioninflation.py:444-649 | Walking a block, from any place and with anything found before, does what the calls it reaches say one after the other, and ends where the block ends |
| `DagReplay.OutermostAreOuter` | src/pytest_airflow_in_a_box/versioninflation.py:508-524 | The calls reached from an expression are those that stand in no other call, in the order of the tree |
| `DagNames.FactoryReported` | src/pytest_airflow_in_a_box/versioninflation.py:565-613 | A file that defines an undecorated function with one finding in its body reports nothing, and followed by a bare call of the function it reports exactly that finding |
| `DagNames.MemberImported` | src/pytest_airflow_in_a_box/versioninflation.py:325-351 | After `from path import member as name`: a call of `name`, or of an attribute of it, is a Dag constructor exactly under Airflow for `DAG` and `dag`, and varies exactly when the pair is certified |
| `DagNames.ModuleImported` | src/pytest_airflow_in_a_box/versioninflation.py:264-281 | After `import path as name`: a call of an attribute of it varies exactly when the module is not dotted and the pair is certified |
| `DagNames.LastMemberCounts` | src/pytest_airflow_in_a_box/versioninflation.py:481-490 | Of several names bound in one import the last counts, and other names keep their meaning |
| `DagNames.LastModuleCounts` | src/pytest_airflow_in_a_box/versioninflation.py:471-479 | The same for `import` |
| `DagNames.TaskNamedExactly` | src/pytest_airflow_in_a_box/versioninflation.py:393-441 | A callee reads as a task exactly when a segment of it ends in `operator`, `task` or `sensor`, in any case |
| `DagSources.VariesExactly` | src/pytest_airflow_in_a_box/versioninflation.py:138-242 | An expression has a varying source if and only if a certified call or a tainted variable is reached from it |
| `DagSources.SourceShown` | src/pytest_airflow_in_a_box/versioninflation.py:138-242 | A certified call, or one passed something varying, is shown whole; any other expression by the first thing in it that varies |
| `DagSources.ArgumentFirst` | src/pytest_airflow_in_a_box/versioninflation.py:178-197 | The argument shown is the first that varies, positional ones before named ones |
| `RetainedRoots.NothingNeededIsPruned` | src/pytest_airflow_in_a_box/_airflow_home.py:384-449 | However concurrent runs interleave, crash, or fail to remove, before anything or half way: the root of a run in flight is on disk, and a root once marked that is gone or has lost its marker is outranked by at least `keep` roots of its user marked no older |
| `RetainedRoots.SurvivorsAreTheNewest` | src/pytest_airflow_in_a_box/_airflow_home.py:384-449 | With a clear cut and no faults, once every run of a user that marked its root has finished pruning, the surviving marked roots are exactly the `keep` newest ever marked, all of them if fewer |
| `RetainedRoots.NewestSize` | src/pytest_airflow_in_a_box/_airflow_home.py:430-449 | With a clear cut the newest number exactly `keep`, or are all of the marks if those are fewer |
| `RetainedRoots.SurvivorsBounded` | src/pytest_airflow_in_a_box/_airflow_home.py:384-449 | With or without ties, in a run without faults that all finished: the roots outranked by fewer than `keep` others survive, and no more than `keep` do |
| `RetainedRoots.LastListing` | src/pytest_airflow_in_a_box/_airflow_home.py:399-427 | Among finished runs one began its listing after every other had marked, so its listing covers all their marks |
| `RetainedRootsTies.ClearCutExactly` | src/pytest_airflow_in_a_box/_airflow_home.py:399-449 | For any marker times: the cut is clear if and only if every complete, fault-free run leaves as many roots as asked for, or all there are |
| `RetainedRootsTies.TiesLoseRoots` | src/pytest_airflow_in_a_box/_airflow_home.py:399-449 | For any marker times without a clear cut, a complete, fault-free run that leaves fewer |
| `RetainedRootsTies.TiesCanLoseEverything` | src/pytest_airflow_in_a_box/_airflow_home.py:399-449 | Such a run in which two sessions with equal marker times and `keep` 1 remove each other's root and nothing survives |
| `RetentionCleanup.StorageBase.RetainedSiblings` | src/pytest_airflow_in_a_box/_airflow_home.py:399-427 | Lists exactly the user's marked roots, each once, newest marker first |
| `RetentionCleanup.StorageBase.PruneRetainedRoots` | src/pytest_airflow_in_a_box/_airflow_home.py:430-449 | Removes exactly the user's marked roots beyond the first `keep` of the listing, and no other directory |
| `RetentionCleanup.StorageBase.RetainRoot` | src/pytest_airflow_in_a_box/bootstrap.py:826-840 | Announce, then mark, then prune: when the run's marker is the newest its own root stays, and the count of other retained roots announced beforehand is the number that remains |
| `FileShards.ShardFilePaths` | src/pytest_airflow_in_a_box/parallel_dagbag.py:142-167 | Fails exactly for fewer than one worker; otherwise the shards together are a permutation of the input, and shard `i` holds exactly the sorted positions congruent to `i`, in order |
| `FileShards.ShardsAreBalanced` | src/pytest_airflow_in_a_box/parallel_dagbag.py:159-167 | Any two shards differ in size by at most one |
| `FileShards.EveryWorkerHasAFile` | src/pytest_airflow_in_a_box/parallel_dagbag.py:303-316 | With the resolved worker count, never more than files, no shard of a non-empty list is empty |
| `FileShards.MostWorkers` | src/pytest_airflow_in_a_box/parallel_dagbag.py:303-316 | The resolved worker count is the greatest allowed by the number of files and by the setting, or by the processors when nothing is set; one without files |
| `FanOut.MergeShardPayloads` | src/pytest_airflow_in_a_box/parallel_dagbag.py:461-535 | The result is the payloads merged from the left, first definition kept, losers recorded as collisions, lookups without repeats, with the statistics sorted slowest first |
| `FanOut.Absorb` | src/pytest_airflow_in_a_box/parallel_dagbag.py:485-522 | One shard merged in: dropped definitions are exactly those already present, each such file gets a collision entry naming a true collision, all other entries are kept |
| `FanOut.MergeBags` | src/pytest_airflow_in_a_box/parallel_dagbag.py:461-535 | Bagging two disjoint sets of files apart and merging gives a first-wins parse of their union: every id once with a definition from its own file, entries for exactly the failing and the losing files, truthful entries, the union of the lookups |
| `FanOut.FanOutDagBag` | src/pytest_airflow_in_a_box/parallel_dagbag.py:576-688 | For every list of distinct files, worker setting and parser: the fanned-out result is a first-wins parse of all the files, keeps the definitions that come first in the order of the dealt shards, lookups are duplicate-free, and the statistics are the files' own, slowest first |
| `FanOut.FanOutAgreesWithSerial` | src/pytest_airflow_in_a_box/parallel_dagbag.py:461-535 | Any two first-wins parses of the same files, sharded or serial, have the same ids and the same lookups, agree on whether anything is wrong, and when nothing is, on every Dag |
| `FanOut.CollisionsAreNamed` | src/pytest_airflow_in_a_box/parallel_dagbag.py:499-522 | An id defined by m files keeps one of their definitions, and each of the other m - 1 files is a key of the import errors |
| `FanOut.WinnerMayDiffer` | src/pytest_airflow_in_a_box/parallel_dagbag.py:507-520 | Which file wins is not agreed on: three files dealt to two workers keep a later file's definition where one process keeps an earlier one's |
| `FanOut.PartialDagBag` | src/pytest_airflow_in_a_box/_compat/dagbag.py:195-274 | Parsing files one after another is the first-wins fold, with one statistic per file in order |
| `FanOutChildren.Fleet.KillAll` | src/pytest_airflow_in_a_box/parallel_dagbag.py:556-573 | Afterwards every spawned child is reaped, and none was signalled or reaped after it had been reaped |
| `FanOutChildren.Fleet.FanOut` | src/pytest_airflow_in_a_box/parallel_dagbag.py:630-688 | The outcome is the one the children decide; no child is touched after it was reaped; timed waits add up to no more than the one timeout; every child is reaped if and only if no undecodable output escapes from a child other than the last |
| `FanOutChildren.MergesExactly` | src/pytest_airflow_in_a_box/parallel_dagbag.py:630-688 | The children's results merge if and only if all spawn and each ends in time, normally and with a payload |
| `FanOutChildren.EscapesExactly` | src/pytest_airflow_in_a_box/parallel_dagbag.py:630-688 | An exception escapes from child k if and only if all spawn, those before it give payloads in time, and k ends in time and normally with bytes that are not UTF-8 |
| `FanOutChildren.PunctualAreCollected` | src/pytest_airflow_in_a_box/parallel_dagbag.py:630-688 | Children that end normally by the deadline with a payload are collected, however long reading takes; so undecodable bytes from one after them that ends by the deadline do escape |
| `DatabaseElection.OneInitialiser` | src/pytest_airflow_in_a_box/_compat/database.py:38-106 | In every interleaving of threads of several processes, with deaths and failures anywhere: at most one thread is in the critical section, the sentinel and each process's ensured flag tell the truth, whoever returned has an initialised database, no process completes `initdb` twice, and `initdb` calls number at most one plus the critical sections that failed |
| `DatabaseElection.SettledStays` | src/pytest_airflow_in_a_box/_compat/database.py:91-106 | Once the sentinel exists it stays, and `initdb` is never called again |
| `DatabaseElection.HolderCanRelease` | src/pytest_airflow_in_a_box/_compat/database.py:91-99 | The flock is never orphaned: while it is held, its holder is inside the critical section, and by itself, in at most four steps of its own, reaches a world where it is free |
| `DatabaseElection.EveryoneCanReturn` | src/pytest_airflow_in_a_box/_compat/database.py:69-106 | In every run, a thread that holds the flock, finds it free, or is of a process that has been through, returns by its own steps when none of them fails; with the sentinel there nothing is initialised again |
| `DatabaseElection.OnlyFaultsFail` | src/pytest_airflow_in_a_box/_compat/database.py:38-106 | No thread raises or dies, and no critical section is given up, but by a fault; sections given up number at most the faults, and `initdb` calls one more |
| `CorpusElection.CorpusAgreement` | src/pytest_airflow_in_a_box/dagcorpus.py:654-724 | In every interleaving of processes, with deaths and failures anywhere, all that return, at any times, from their own parse or from the artifact, return equal corpora; parses begun number at most one plus the critical sections that failed |
| `CorpusElection.OneProducer` | src/pytest_airflow_in_a_box/dagcorpus.py:672-704 | The artifact is never visible half-written, decodes to the corpus published, and one process at a time is in the critical section |
| `CorpusElection.PublishedOnce` | src/pytest_airflow_in_a_box/dagcorpus.py:654-704 | A published corpus is never replaced and no parse begins after it |
| `CorpusElection.ReadsPublished` | src/pytest_airflow_in_a_box/dagcorpus.py:692-694 | Whoever finds the artifact decodes the very corpus that was published |
| `CorpusReturns.EveryoneCanReturn` | src/pytest_airflow_in_a_box/dagcorpus.py:654-724 | In every run, a process that finds the flock free, or has taken it or begun to parse, returns by its own steps when none fails: the published corpus, or its own when nothing is published |
| `CorpusReturns.ProducerCanReturn` | src/pytest_airflow_in_a_box/dagcorpus.py:672-704 | And one that has parsed returns its parse |
| `CorpusReturns.OnlyFaultsFail` | src/pytest_airflow_in_a_box/dagcorpus.py:654-704 | No process raises or dies, and no critical section is given up, but by a fault; parses begun number at most one more than the faults |
| `CorpusCodec.RoundTrip` | src/pytest_airflow_in_a_box/dagcorpus.py:541-651 | Decoding an encoded corpus gives it back with every Dag named after its key, so gives it back unchanged exactly when the keys are the Dags' own ids; absent and empty lookups stay apart |
| `CorpusCodec.DagRoundTrip` | src/pytest_airflow_in_a_box/dagcorpus.py:572-638 | One Dag's payload decodes to the Dag, tags as a set again, absent fields absent |
| `CorpusCodec.DecodedIsWellKeyed` | src/pytest_airflow_in_a_box/dagcorpus.py:613-638 | Whatever decodes at all is keyed by its Dags' own ids |
| `Sampling.SampleIsLowest` | src/pytest_airflow_in_a_box/dagcorpus.py:313-340 | The sample is exactly the ids with fewer than `size` others ahead by rank, ties broken by id, in order; size 0 gives every id; for any rank function |
| `Sampling.SampleOfSet` | src/pytest_airflow_in_a_box/dagcorpus.py:313-340 | The sample depends only on the set of ids and has the size asked for, or all there are |
| `Sampling.SamplesNest` | src/pytest_airflow_in_a_box/dagcorpus.py:313-340 | A larger sample contains the smaller |
| `Sampling.SampleIsStable` | src/pytest_airflow_in_a_box/dagcorpus.py:313-340 | One new Dag id adds at most itself and displaces at most one sampled id |
| `OutcomeRecord.EachNodeAlone` | src/pytest_airflow_in_a_box/record.py:241-338 | After any sequence of reports, each node id's accumulator and outcome are what its own reports alone, in order, would have left |
| `OutcomeRecord.InterleavingIndependence` | src/pytest_airflow_in_a_box/record.py:313-338 | Two interleavings of the same per-node streams give the same record |
| `OutcomeRecord.FinishedNode` | src/pytest_airflow_in_a_box/record.py:267-338 | A stream with one terminal report, at its end, leaves no accumulator, and the entry that its own reports deserve |
| `OutcomeRecord.RecordedExactly` | src/pytest_airflow_in_a_box/record.py:267-338 | For any reports: a node has an entry exactly when a run of it ended, and the entry is what the reports of the run that ended last deserve; it accumulates exactly when reports came since |
| `OutcomeRecord.OutcomeExactly` | src/pytest_airflow_in_a_box/record.py:267-310 | For every stream and each of the six outcomes: it is given exactly when the reports call for it (failed when one crashed; else error when the last teardown or setup failed; else as the last call report, if any, passed, failed or was skipped, with or without `wasxfail`), with the phase an error names, the gate flag and the duration |
| `OutcomeRecord.NothingLeft` | src/pytest_airflow_in_a_box/record.py:331-338 | When every node's stream is finished, no accumulator is left |
| `OutcomeRecord.FoldTells` | src/pytest_airflow_in_a_box/record.py:82-105 | What a fold's fields mean, in both directions: the summed duration, gated and crashed exactly when some report says so, a phase failed exactly when the last report of it failed, and the outcome of the last call report |
| `OutcomeRecord.StripUndoesGroup` | src/pytest_airflow_in_a_box/record.py:211-238 | A group suffix is undone exactly when the group name holds neither `@` nor `]`, for every node id |
| `OutcomeRecord.StripLeavesAlone` | src/pytest_airflow_in_a_box/record.py:235-238 | A node id is left alone exactly when its last `@` is not after its last `]` |
| `OutcomeRecord.GroupsDoNotMatter` | src/pytest_airflow_in_a_box/record.py:211-338 | Sending any of the reports under a suffixed node id changes nothing in the record |
| `OutcomeRecord.Recorder.HandleLogreport` | src/pytest_airflow_in_a_box/record.py:313-338 | The accumulator and outcome maps after a report are those of the specification step, and nothing else changes |
| `RecordSessions.OuterSessionsUntouched` | src/pytest_airflow_in_a_box/record.py:148-175 | While some nested session is configured throughout, in whatever order the inner ones come and go, outer sessions keep their place on the stack and their records |
| `RecordSessions.Sessions.ConfigureSession` | src/pytest_airflow_in_a_box/record.py:148-158 | Configuring pushes the config and gives it an empty record, whatever record it had |
| `RecordSessions.Sessions.UnconfigureSession` | src/pytest_airflow_in_a_box/record.py:161-178 | Unconfiguring pops the config from the top, else takes out its first occurrence, else changes nothing |
| `RecordSessions.Sessions.HandleLogreport` | src/pytest_airflow_in_a_box/record.py:324-338 | A report goes to the top session when that is recording, and nowhere on a worker |
| `Artifact.EntryRoundTrip` | src/pytest_airflow_in_a_box/artifact.py:165-230 | An entry validates back as written exactly when its phase is set if and only if it is an error, and names setup or teardown |
| `Artifact.AcceptedIsConsistent` | src/pytest_airflow_in_a_box/artifact.py:165-230 | No inconsistent entry is ever accepted, whatever the JSON |
| `Artifact.ArtifactRoundTrip` | src/pytest_airflow_in_a_box/artifact.py:233-290 | An artifact loads back as written exactly when its strings and node ids are non-empty and its entries consistent |
| `Artifact.RecordedOutcomes` | src/pytest_airflow_in_a_box/record.py:267-338 | Every recorded outcome is consistent, and the recorded ids are exactly the stripped ids of the terminal reports |
| `Artifact.RecordedArtifactLoads` | src/pytest_airflow_in_a_box/artifact.py:233-290 | A recorded artifact loads back unchanged exactly when no finished test's node id strips to nothing |
| `Artifact.NamelessIds` | src/pytest_airflow_in_a_box/record.py:211-238 | The non-empty node ids that strip to nothing: an `@` followed by neither `@` nor `]` |
| `MigrationDiff.ComputeCategories` | src/pytest_airflow_in_a_box/baseline.py:111-158 | The seven buckets are the sorted members of the seven categories |
| `MigrationDiff.ExactlyOneBucket` | src/pytest_airflow_in_a_box/baseline.py:42-58 | Every node id of either recording stands in exactly the bucket of its category and in no other, gated ones only in `gated` |
| `MigrationDiff.CategoriesMean` | src/pytest_airflow_in_a_box/baseline.py:37-58 | Each category says exactly what happened: a regression succeeded and now breaks, a fix the reverse, broken on both means one breaks and none succeeds, still passing that none breaks; skips are neither |
| `MigrationDiff.SwappingMirrors` | src/pytest_airflow_in_a_box/baseline.py:111-158 | Comparing the other way round swaps missing with new and regressions with fixes, and leaves the other three |
| `MigrationDiff.SelectionKeepsItsBucket` | src/pytest_airflow_in_a_box/baseline.py:383-411 | Running only what passed keeps the regression bucket and empties the fixed one; only what failed, the reverse; only what is new keeps the new bucket |
| `MigrationDiff.KnownRegressionsAreRegressions` | src/pytest_airflow_in_a_box/baseline.py:476-482 | The node ids to mark xfail are the regressions against the prior run, and besides these only gated ones |
| `StructlogCapture.CapturesStayInPlace` | src/pytest_airflow_in_a_box/logging.py:252-361 | Over any run of installs, uninstalls in any order and user reconfiguration: the active captures are those installed last, each once, in one block before the last processor of the user's own latest chain, and both callables are intercepted exactly while one is active |
| `StructlogCapture.LastUninstallRestores` | src/pytest_airflow_in_a_box/logging.py:318-361 | When no capture is left, the chain is the user's own latest and both callables are the originals |
| `StructlogCapture.CapturesAreInvisible` | src/pytest_airflow_in_a_box/logging.py:296-310 | Once structlog is configured, the user's chain evolves as if there were no captures |
| `StructlogCapture.InstallUsesUpConfigureOnce` | src/pytest_airflow_in_a_box/logging.py:273-348 | Before that, a `configure_once` after an install has its usual effect exactly when structlog was configured already or the call would change nothing |
| `StructlogCapture.CacheFlagGoesBack` | src/pytest_airflow_in_a_box/logging.py:318-341 | The last uninstall puts the logger cache flag back to its value before the first install, whatever the user set since |
| `StructlogCapture.CacheWhileCapturing` | src/pytest_airflow_in_a_box/logging.py:296-348 | While a capture is active the cache flag is off, unless the user's `configure` set it since the first install |
| `StructlogCapture.DoneKeeps` | src/pytest_airflow_in_a_box/logging.py:273-361 | Every single operation keeps the block in place and changes the user's chain only as the user asked |
| `StructlogCapture.Structlog.UninstallCapture` | src/pytest_airflow_in_a_box/logging.py:318-361 | The whole configuration after an uninstall, known capture or not, last or not |
| `StructlogCapture.Structlog.InstallCapture` | src/pytest_airflow_in_a_box/logging.py:273-348 | The whole configuration after a first, further or repeated install |
| `StructlogCapture.Structlog.UserConfigure` | src/pytest_airflow_in_a_box/logging.py:296-302 | The whole configuration after the user's `configure`, captured or not |
| `StructlogCapture.Structlog.UserConfigureOnce` | src/pytest_airflow_in_a_box/logging.py:303-308 | The whole configuration after the user's `configure_once`, which changes the user's chain only if nothing was configured before |
| `Environment.WorkerDriftExactly` | src/pytest_airflow_in_a_box/bootstrap.py:1052-1071 | For every ambient environment, state and accepted overrides: an inheriting worker sees drift exactly when a configured executor is overridden to something else |
| `Environment.RepairSettles` | src/pytest_airflow_in_a_box/bootstrap.py:960-986 | After a repair a second check finds nothing, whatever had drifted, and variables the run does not set are left alone |
| `Environment.IsolatedChildDoesNotDrift` | src/pytest_airflow_in_a_box/isolated.py:613-624 | An isolated child under any accepted marker payload sees no drift when its parent sees none, and inherits the parent's state |
| `Environment.ValidatedEnvironment` | src/pytest_airflow_in_a_box/isolated.py:224-269 | A marker's environment is accepted exactly when every name is a configuration variable that bootstrap did not set |
| `Environment.SessionRestores` | src/pytest_airflow_in_a_box/bootstrap.py:788-840 | Install, ini overrides, any nesting of contexts left normally or by exceptions, cleanup: every managed or overridden variable, and every other one not written outside a context, is as it was before, absent ones absent; the whole environment is, when only such variables were written |
| `Environment.ContextsRestore` | src/pytest_airflow_in_a_box/config.py:269-279 | Any tree of `airflow_config` contexts restores every variable that was not written plainly outside a context covering it, on normal and exceptional exit |
| `Environment.Process.BuildEnvironment` | src/pytest_airflow_in_a_box/bootstrap.py:432-496 | The variables set in a process are those the specification gives for the state and the current environment; `StateSettings` proves what they say |
| `StateSettings.StateReadsBack` | src/pytest_airflow_in_a_box/bootstrap.py:432-516 | For every state and environment: after the install each variable, by its full name, holds its field of the state or its literal value, or is absent where the field is unset or belongs to the other family; the rest is as before |
| `Environment.OnlyTheExecutorMatters` | src/pytest_airflow_in_a_box/bootstrap.py:432-496 | Two environments are given the same variables if and only if a configured executor or the family settles the executor, or both or neither choose one; once installed the same variables are asked for again, but for a pinned executor |
| `Environment.Process.InstallEnvironment` | src/pytest_airflow_in_a_box/bootstrap.py:499-516 | Sets the state's variables, scrubs every other owned one, writes the handoff variable, and leaves the rest |
| `Environment.Process.CheckInherited` | src/pytest_airflow_in_a_box/bootstrap.py:1052-1071 | Under `error` the check passes exactly without drift; under `repair` it always passes and afterwards nothing drifts |
| `Environment.Process.Assign` | src/pytest_airflow_in_a_box/config.py:188-203 | Assigns or deletes each named variable and touches no other |
| `Environment.Process.EnterContext` | src/pytest_airflow_in_a_box/config.py:269-276 | Entering a context remembers each named variable's value or absence before it assigns |
| `EnvNames.ConfigAssignments` | src/pytest_airflow_in_a_box/config.py:103-143 | Accepted exactly when every pair is a well-formed name and no two name one variable; then the assignments are exactly the overrides under their variables |
| `EnvNames.OptionsAreConfiguration` | src/pytest_airflow_in_a_box/config.py:66-100 | No option's variable is the home, the configuration path or the handoff variable |
| `EnvNames.MangledReadsBack` | src/pytest_airflow_in_a_box/config.py:66-100 | An option's variable has the section right after the prefix and the key at the end, letter by letter, two underscores between |
| `IniOverrides.ParseIniOverrides` | src/pytest_airflow_in_a_box/ini_config.py:127-194 | Accepted exactly when every line is well formed, sets nothing bootstrap owns and no two lines set one variable; then the overrides are exactly the lines' pairs and values |
| `IniOverrides.IniOverridesApply` | src/pytest_airflow_in_a_box/ini_config.py:229-254 | What the ini file declares is accepted again when applied, and sets only variables bootstrap does not own |
| `IniOverrides.LineReads` | src/pytest_airflow_in_a_box/ini_config.py:127-194 | A line is read at its first `=` and the last dot before it, and its parts are stripped |
| `IniOverrides.UnreadExactly` | src/pytest_airflow_in_a_box/ini_config.py:127-194 | A line is malformed exactly when it has no `=`, or no dot before the first one |
| `IniOverrides.StripCuts` | src/pytest_airflow_in_a_box/ini_config.py:127-194 | Stripping takes white space off both ends and nothing else |
| `ImportReach.BodyCovered` | src/pytest_airflow_in_a_box/antipatterns.py:118-230 | Whatever branches, rounds, handlers and exceptions a loading execution takes, every call the module's own top-level code runs is recorded or stands in the test of a false guard that execution can reach |
| `ImportReach.LoadingIsCoveredExactly` | src/pytest_airflow_in_a_box/antipatterns.py:118-230 | Every loading execution of a module is covered if and only if each call in the test of a false guard that execution can reach, at any nesting, is recorded elsewhere |
| `ImportReach.GuardCallEscapes` | src/pytest_airflow_in_a_box/antipatterns.py:172-187 | A call node standing once in the module runs unrecorded in some execution if and only if it stands in the test of a false guard that execution can reach, at any nesting |
| `ImportReach.EndsExactly` | src/pytest_airflow_in_a_box/antipatterns.py:118-230 | How a block can end, which decides what is reached, is read off its syntax exactly as its executions end |
| `ImportReach.LoadingIsCovered` | src/pytest_airflow_in_a_box/antipatterns.py:118-230 | No call escapes a module whose false guards call nothing |
| `ImportReach.GuardedIfExactly` | src/pytest_airflow_in_a_box/antipatterns.py:172-187 | For a guarded `if`, every execution is covered exactly when the guard's test calls nothing |
| `ImportReach.OnlyAttributeGuardsCall` | src/pytest_airflow_in_a_box/antipatterns.py:233-255 | Only a guard on an attribute can hold a call |
| `ImportTime.RecordedExactly` | src/pytest_airflow_in_a_box/antipatterns.py:131-139 | For an expression the recorded calls are exactly those some evaluation runs, short circuits and exceptions included |
| `ImportSkips.BodyAccounted` | src/pytest_airflow_in_a_box/antipatterns.py:172-230 | Every occurrence of a call node is accounted for once: recorded, in a false guard's test, or in a deferred body |
| `ImportSkips.RecordedUnlessDeferred` | src/pytest_airflow_in_a_box/antipatterns.py:189-230 | A call node is recorded exactly when it is in no function, lambda or false-guarded body and in no false guard's test |
| `ImportScan.Visitor.VisitBody` | src/pytest_airflow_in_a_box/antipatterns.py:118-230 | The mutating visitor collects the recorded calls in order and the import bindings left by the last import of each name |
| `ImportScan.DottedCallName` | src/pytest_airflow_in_a_box/antipatterns.py:335-354 | The loop returns the whole attribute chain joined from the root, or nothing when the root is not a plain name |
| `ImportScan.OwnedByComponents` | src/pytest_airflow_in_a_box/antipatterns.py:357-368 | A module owns a name exactly when its dotted components begin the name's, for all strings |
| `ImportScan.ModuleMatches` | src/pytest_airflow_in_a_box/antipatterns.py:357-368 | True exactly when some configured module owns the name |
| `ImportScan.FindIoCalls` | src/pytest_airflow_in_a_box/antipatterns.py:371-404 | The findings are exactly the recorded calls that resolve to a configured module, in the order of the walk |
| `ImportOrder.BodyRearranged` | src/pytest_airflow_in_a_box/antipatterns.py:142-230 | The walk's order is a rearrangement of the order in the text: the same calls, as often |
| `ImportOrder.RecordedAsWrittenExactly` | src/pytest_airflow_in_a_box/antipatterns.py:142-230 | For a module whose call nodes are distinct: the calls are recorded in the order of the text if and only if no conditional expression calls something in test and body, no decorated class in its decorators and its arguments or body, no dict display in a value and a later key, and no call or class in a named argument and a later starred one |
| `ImportOrder.BodyAsWritten` | src/pytest_airflow_in_a_box/antipatterns.py:142-230 | Without those forms, distinct nodes or not, the order is that of the text |
| `ImportOrder.OrderIsLost` | src/pytest_airflow_in_a_box/antipatterns.py:142-230 | In a conditional expression and in a decorated class the walk takes the later call first |
| `ImportOrder.DisplayOrderIsLost` | src/pytest_airflow_in_a_box/antipatterns.py:142-230 | In a dict display too |
| `ImportOrder.StarredOrderIsLost` | src/pytest_airflow_in_a_box/antipatterns.py:142-230 | And with a starred argument after a named one, in a call and in a class |
| `ImportScan.IoCallsExactly` | src/pytest_airflow_in_a_box/antipatterns.py:371-404 | For any callee: the call is flagged if and only if the callee is an attribute chain on an imported name and a configured module's components begin the import's followed by the chain |
| `ImportBindings.BodyBindsLast` | src/pytest_airflow_in_a_box/antipatterns.py:142-187 | A name stands for what the last import of it that loading reaches says, through branches, loops, handlers, classes and false guards |
| `ImportBindings.IoCallsOfImports` | src/pytest_airflow_in_a_box/antipatterns.py:142-404 | So a call is flagged if and only if its root name's last import, followed by the rest of the chain, lies under a configured module |
| `ImportBindings.GuardsExactly` | src/pytest_airflow_in_a_box/antipatterns.py:233-255 | A name, attribute, or comparison of a name with a constant is a false guard if and only if it is false in every world where a file loads |
| `IsolatedBatches.IsolatedSession.ComputeBatches` | src/pytest_airflow_in_a_box/isolated.py:424-456 | Fails exactly on a malformed marker; otherwise the batches partition the marked items by path and payload, each in session order, and every node id is filed under the last group, by first appearance, that holds it |
| `IsolatedBatches.OwnBatchExactly` | src/pytest_airflow_in_a_box/isolated.py:447-456 | A marked item is filed under its own group if and only if no group begun later holds its node id |
| `IsolatedBatches.DistinctRunInTheirOwn` | src/pytest_airflow_in_a_box/isolated.py:447-456 | So every one is when the session lists no node id twice |
| `IsolatedBatches.AtMostOneChild` | src/pytest_airflow_in_a_box/isolated.py:778-807 | In whatever order items come and whatever children do, each batch launches at most one child |
| `IsolatedBatches.NoneUnfinished` | src/pytest_airflow_in_a_box/isolated.py:694-744 | When children that exit normally report whole protocols, every item that had its turn has an outcome and none is left accumulating, whether its child reported it, missed it, failed or never started |
| `IsolatedBatches.UnfinishedExactly` | src/pytest_airflow_in_a_box/isolated.py:694-730 | A replay leaves its item unfinished exactly when the child's last report of it is not terminal |
| `IsolatedOutcomes.ItemOutcome` | src/pytest_airflow_in_a_box/isolated.py:574-744 | Over any run: an item that has its last turn without a failing teardown before it has failed when its batch's child told nothing of it, and otherwise has the entry that the child's own reports of it deserve |
| `IsolatedOutcomes.FailedExactly` | src/pytest_airflow_in_a_box/isolated.py:574-744 | So it is failed if and only if the child told nothing of it, having failed or missed it, or its reports amount to a failure |
| `IsolatedOutcomes.TeardownFailureWins` | src/pytest_airflow_in_a_box/isolated.py:694-744 | When a predecessor's teardown fails at an item's turn, the item is recorded an error of teardown, whatever its child reported |
| `IsolatedBatches.IsolatedSession.RuntestProtocol` | src/pytest_airflow_in_a_box/isolated.py:778-807 | The batches and the record after one item's turn |

## Left out

- Airflow itself, `DagBag`, the Dag serializer and SQLAlchemy: parsing one file is an arbitrary function from the file to its Dags, error, lookups and statistic.
- JSON and Python text: decoded values and syntax trees stand for them; durations are whole numbers, so float rounding in `total_seconds` is not modelled.
- The real file system, flock and processes: abstract maps and steps; flock is mutual exclusion that ends with its holder.
- Reading a key of the wrong type from a corpus payload is an error here, where Python would keep the odd value.
- `str.strip` removes ASCII white space only.
- Starred and annotated assignments, walrus targets and other statement forms are not in the taint analysis's syntax.
- Noninterference.CleanFileLoadsAlike: function definitions, conditionals, and expression statements with calls inside other expressions are walked but are not given an execution, since the docstring's promise is about imports and simple assignments.
- Noninterference.CleanFileLoadsAlike: what calls do beyond their arguments (other modules' state, `exec`, `globals()`) is not modelled, as the section on loading says.
- Noninterference.CleanFileLoadsAlike: assignments to attributes and subscripts, and unpacking what a Dag block binds, are outside the fragment without a file that leaks, because the execution does not follow what they store.
- FanOutChildren.Fleet.KillAll: a killed child is reaped at once; how long the untimed wait after a kill takes is not modelled.
- ImportScan.IoCallsExactly: names are identifiers, which have no dot in them, as Python's grammar has it.
- FanOut.FanOutDagBag: requires distinct files, as the directory walk lists them; a statistic's Dag count under collisions is Airflow's own and is not modelled, and imports that one file's parse caches for another are not.
- StructlogCapture.CapturesStayInPlace: the user's chains hold no capture that is not active, and calls go through the module's current callables, not through references kept from before.
- Annotations, and the `match` statement, are not in the import-time scan's syntax; `Do` stands for the statements that evaluate and go on.
- ImportScan.FindIoCalls: the callee of a recorded node is given by a map, since the syntax tree names call nodes by number.
- Environment.Process.BuildEnvironment: the state's JSON text is one opaque value; the payload's own fields and file checks are not modelled.
- IsolatedBatches.IsolatedSession.ComputeBatches: batches are values under their key, not shared objects.
- The retention policy stash (`mark_session_started`, `record_session_outcome`, `retain_airflow_home`), stdlib handler preservation (`ensure_handlers`, `_intercept_dict_config`) and entry-point validation: short case reading.
- `_compat/capabilities.py`, `certification.py`, `smoke.py`, `plugin.py`, `doctor.py`, `reporting.py` and the fixtures: tables, option plumbing and rendering.
