# RDFUnit test generation orchestrator, modelled in Dafny

This project models `TestGeneratorExecutor`, the RDFUnit class that builds a
test suite for a dataset from the schemata it references. It covers:

- the constructor's checks on the three mode flags (`useAutoTests`, `loadFromCache`,
  `useManualTests`);
- the schema loop of `generateTestSuite`. Cancellation is checked before each schema.
  Schemata whose model is missing or empty are skipped. Each usable schema then adds
  its auto, manual, SHACL and embedded tests, in that order. After the loop, the
  dataset's own manual tests are added;
- automatic generation behind a read-through cache. A hit returns the cached tests.
  A miss runs the generators and writes their output to the schema's cache location;
- the manual lookup. "No manual tests" (`IllegalArgumentException`) counts as zero
  tests. Any other failure escapes the run;
- the progress-monitor protocol and the duplicate-free monitor list.

The model is functional. A run is the pure function `Executor.GenerateTestSuite`.
It maps the executor (flags, monitors, cancellation flag), the test folder, the
dataset, the generators, the collaborators, the cache contents and the point at
which a concurrent `cancel()` is first observed to a `Run`. A `Run` holds the suite
(or the error that escaped), every notification sent, and the cache afterwards.
The collaborators (the auto-test instantiator, the manual lookup, the SHACL
translator, the embedded-test reader and the cache-location computation) are
function-valued fields of `Collaborators.Strategies`. Every property therefore
holds for every choice of them.
`ExecutorLoop.GenerateTestSuiteLoop` writes the same run the way the Java does: one
loop with `break` and `continue` that accumulates into local variables. It is proved
to compute exactly `GenerateTestSuite`.

Cancellation is a `Cancellation` value, either `NotCancelled` or `ObservedAt(k)`.
Checkpoint `k < n` is the check before the k-th of the n schemata (line 98).
Checkpoint `n` is the check guarding the dataset-level lookup (line 130). A flag set
before the call is observed at checkpoint 0. The monitor events are modelled as the
stream each registered monitor receives. `Monitors.Deliver` fans each event out to
the monitors in registration order, as the Java loops do.

`generateAutoTestsForSchemaSource` writes generated tests to the cache even when
`loadFromCache` is false. With loading off it replaces only the read path by `""`
(lines 149-151); the write at line 161 still uses the location from
`CacheUtils.getSourceAutoTestFile`. The model does the same.

## Model

| member | source | states |
|---|---|---|
| Executor.NewExecutor | rdfunit-core/src/main/java/org/aksw/rdfunit/tests/generators/TestGeneratorExecutor.java:55-65 | construction succeeds iff `(auto ∨ manual) ∧ (auto ∨ ¬cache)`; the first failing check names the error; a new executor has no monitors and is not cancelled |
| Executor.DefaultExecutor | rdfunit-core/src/main/java/org/aksw/rdfunit/tests/generators/TestGeneratorExecutor.java:43-45 | the no-argument constructor is accepted and enables all three modes |
| Executor.Cancel | rdfunit-core/src/main/java/org/aksw/rdfunit/tests/generators/TestGeneratorExecutor.java:73-75 | sets the flag, changes nothing else, and a second cancel has no effect |
| Executor.Effective | rdfunit-core/src/main/java/org/aksw/rdfunit/tests/generators/TestGeneratorExecutor.java:97-100 | a flag set before the call is observed at the first check; otherwise the concurrent cancellation point applies |
| Executor.AddTestExecutorMonitor | rdfunit-core/src/main/java/org/aksw/rdfunit/tests/generators/TestGeneratorExecutor.java:206-211 | the monitor list afterwards is `Monitors.Add` of the old one: an already registered monitor changes nothing, a new one is appended; the monitor is registered afterwards; the list stays duplicate-free; flags and cancellation are unchanged |
| Executor.RemoveTestExecutorMonitor | rdfunit-core/src/main/java/org/aksw/rdfunit/tests/generators/TestGeneratorExecutor.java:218-220 | the monitor list afterwards is `Monitors.Remove` of the old one (first occurrence cut out, the rest in order); removing an unregistered monitor changes nothing; on a duplicate-free list the monitor is gone afterwards; flags and cancellation are unchanged |
| Monitors.Add | rdfunit-core/src/main/java/org/aksw/rdfunit/tests/generators/TestGeneratorExecutor.java:206-211 | members afterwards are the old ones plus the new one; old order is kept as a prefix; length grows only for a new monitor; no duplicates are introduced |
| Monitors.Remove | rdfunit-core/src/main/java/org/aksw/rdfunit/tests/generators/TestGeneratorExecutor.java:218-220 | an absent monitor leaves the list unchanged; otherwise exactly its first occurrence is cut out and the rest keep their order |
| Monitors.RemoveKeepsNoDuplicates | rdfunit-core/src/main/java/org/aksw/rdfunit/tests/generators/TestGeneratorExecutor.java:218-220 | on a duplicate-free list, removal keeps it duplicate-free and removes exactly that monitor |
| Monitors.AddIsIdempotent | rdfunit-core/src/main/java/org/aksw/rdfunit/tests/generators/TestGeneratorExecutor.java:206-211 | registering the same monitor twice is the same as registering it once |
| Monitors.RemoveUndoesAdd | rdfunit-core/src/main/java/org/aksw/rdfunit/tests/generators/TestGeneratorExecutor.java:206-220 | removing a monitor that was just added restores the original list |
| Monitors.EachMonitorReceivesTheStream | rdfunit-core/src/main/java/org/aksw/rdfunit/tests/generators/TestGeneratorExecutor.java:92-94 | with a duplicate-free list, each registered monitor receives exactly the event stream once, in order; an unregistered one receives nothing |
| Adapters.AutoTestsForSchema | rdfunit-core/src/main/java/org/aksw/rdfunit/tests/generators/TestGeneratorExecutor.java:140-171 | a hit (loading on, entry present) returns the entry and leaves the cache alone; a miss returns the generators' output and writes it to the key (also with loading off); no other entry changes; emits start then executed with the returned count |
| Adapters.ManualTestsForSource | rdfunit-core/src/main/java/org/aksw/rdfunit/tests/generators/TestGeneratorExecutor.java:173-198 | succeeds iff the lookup did not fail; found tests are returned; "not configured" yields zero tests and still emits executed with count 0; another failure escapes after the start event only |
| Adapters.ReloadAfterGenerationHits | rdfunit-core/src/main/java/org/aksw/rdfunit/tests/generators/TestGeneratorExecutor.java:147-163 | after either path, a second read with loading on hits and returns the same tests and cache |
| Executor.SchemaStep | rdfunit-core/src/main/java/org/aksw/rdfunit/tests/generators/TestGeneratorExecutor.java:101-126 | an unusable schema contributes nothing, sends nothing, touches no cache; a usable one yields auto, manual, SHACL, embedded tests in that order, sends the auto notifications then the manual ones, leaves the cache as the auto part does, and fails exactly when its manual lookup does, with that lookup's error |
| Executor.RunSchemas | rdfunit-core/src/main/java/org/aksw/rdfunit/tests/generators/TestGeneratorExecutor.java:96-127 | once a cancellation is observed (or no schema is left) nothing more is called, sent or written; without automatic generation the cache is never written; order, content and cancellation are stated by `SuiteProperties.RunSchemasMatchesReference`, `CancellationProperties.LoopVisitsPrefix` and `Trace.RunSchemasAccounting` |
| Executor.DatasetStep | rdfunit-core/src/main/java/org/aksw/rdfunit/tests/generators/TestGeneratorExecutor.java:129-132 | the dataset-level lookup never touches the cache; it is skipped, sending nothing, exactly when cancellation was observed by the final check or manual tests are off; otherwise it is made, and its outcome and start/executed notifications are those of the manual lookup of the dataset; an error it raises names the dataset |
| Executor.Finish | rdfunit-core/src/main/java/org/aksw/rdfunit/tests/generators/TestGeneratorExecutor.java:91-135 | wraps the loop and the dataset lookup (the body): generationStarted with the full schema count comes first (lines 91-94), then the body's notifications unchanged; a completed body adds generationFinished last (line 135) and becomes the suite; an error adds nothing after the body's notifications; the cache is the body's |
| Executor.GenerateTestSuite | rdfunit-core/src/main/java/org/aksw/rdfunit/tests/generators/TestGeneratorExecutor.java:86-138 | every run starts with generationStarted with the full schema count; a completed run ends with generationFinished; without automatic generation the cache is unchanged; the whole-run properties are stated by `Trace.GenerationTraceShape`, `SuiteProperties.SuiteIsConcatenationOfParts` and the cancellation lemmas |
| Trace.LoopErrorsComeFromSchemaLookups | rdfunit-core/src/main/java/org/aksw/rdfunit/tests/generators/TestGeneratorExecutor.java:96-127 | an error escaping the loop comes from the manual lookup of a usable schema of the list, and only when manual tests are on |
| Trace.RunErrorsComeFromLookups | rdfunit-core/src/main/java/org/aksw/rdfunit/tests/generators/TestGeneratorExecutor.java:86-138 | an error escaping a run comes from a manual lookup, of a usable referenced schema or of the dataset; auto, SHACL and embedded tests never end a run |
| Trace.EachRegisteredMonitorHearsTheRun | rdfunit-core/src/main/java/org/aksw/rdfunit/tests/generators/TestGeneratorExecutor.java:91-94 | with a duplicate-free monitor list, each registered monitor receives exactly the run's events once each, in order, and an unregistered one receives nothing |
| Trace.SchemaStepAccounting | rdfunit-core/src/main/java/org/aksw/rdfunit/tests/generators/TestGeneratorExecutor.java:101-126 | a schema's notifications are matched start/executed pairs (one unmatched manual start on failure); announced counts plus SHACL and embedded tests give its size |
| Trace.RunSchemasAccounting | rdfunit-core/src/main/java/org/aksw/rdfunit/tests/generators/TestGeneratorExecutor.java:96-127 | the loop's notifications are pairs about schemata only; a completed loop's size is the announced counts plus SHACL and embedded tests of the visited schemata |
| Trace.GenerationTraceShape | rdfunit-core/src/main/java/org/aksw/rdfunit/tests/generators/TestGeneratorExecutor.java:86-138 | the first event is generationStarted with the full schema count; between come only matched pairs; a completed run (cancelled or not) ends with generationFinished and its size is announced counts plus SHACL and embedded tests; an aborted run ends at the failing manual start |
| CancellationProperties.CancellationTruncates | rdfunit-core/src/main/java/org/aksw/rdfunit/tests/generators/TestGeneratorExecutor.java:97-100 | a cancellation first seen before schema k makes the loop equal to the uncancelled loop over the first k schemata |
| CancellationProperties.LoopVisitsPrefix | rdfunit-core/src/main/java/org/aksw/rdfunit/tests/generators/TestGeneratorExecutor.java:96-127 | under any cancellation, the loop equals the uncancelled loop over the schemata before the checkpoint |
| CancellationProperties.RunSchemasSplits | rdfunit-core/src/main/java/org/aksw/rdfunit/tests/generators/TestGeneratorExecutor.java:96-127 | the loop over a concatenation is the loop over the first part followed by the loop over the second, starting from the first part's cache |
| CancellationProperties.FailedPrefixDecides | rdfunit-core/src/main/java/org/aksw/rdfunit/tests/generators/TestGeneratorExecutor.java:96-127 | once a prefix has raised an error, later schemata change nothing |
| CancellationProperties.CancelledBeforeCallYieldsEmptySuite | rdfunit-core/src/main/java/org/aksw/rdfunit/tests/generators/TestGeneratorExecutor.java:96-137 | cancel before the call: empty suite, cache unchanged, only generationStarted and generationFinished sent (no source events, no dataset lookup) |
| CancellationProperties.CancelledRunKeepsVisited | rdfunit-core/src/main/java/org/aksw/rdfunit/tests/generators/TestGeneratorExecutor.java:96-137 | a cancellation seen at checkpoint k ≤ n keeps exactly the tests of the first k schemata, skips the dataset lookup and still ends with generationFinished |
| CancellationProperties.CancelledSuiteIsPrefix | rdfunit-core/src/main/java/org/aksw/rdfunit/tests/generators/TestGeneratorExecutor.java:96-137 | whenever the uncancelled run completes, a cancelled run completes too and its suite is a prefix of the uncancelled suite |
| SuiteProperties.SchemaStepMatchesReference | rdfunit-core/src/main/java/org/aksw/rdfunit/tests/generators/TestGeneratorExecutor.java:101-126 | with distinct cache locations for distinct schemata and a cache settled from the starting cache, a schema contributes its reference parts (its auto part read from the starting cache when loading finds an entry, stale or not, generated otherwise) and the cache stays settled |
| SuiteProperties.RunSchemasMatchesReference | rdfunit-core/src/main/java/org/aksw/rdfunit/tests/generators/TestGeneratorExecutor.java:96-127 | from any starting cache, with distinct cache locations for distinct schemata and no failing lookup, the uncancelled loop yields the reference concatenation over usable schemata, in order, with no deduplication; a repeated schema reads back what its first visit wrote |
| SuiteProperties.SuiteIsConcatenationOfParts | rdfunit-core/src/main/java/org/aksw/rdfunit/tests/generators/TestGeneratorExecutor.java:96-137 | from any starting cache, the suite is, schema by schema in order, auto + manual + SHACL + embedded tests, then the dataset's manual tests; the auto part is the starting cache's entry when loading finds one, the generators' output otherwise |
| SuiteProperties.UnusableSchemataAreInert | rdfunit-core/src/main/java/org/aksw/rdfunit/tests/generators/TestGeneratorExecutor.java:102-105 | the loop over all schemata equals the loop over the usable ones alone: skipped schemata leave no tests, events or cache writes, and later ones are still processed |
| SuiteProperties.UsableOnly | rdfunit-core/src/main/java/org/aksw/rdfunit/tests/generators/TestGeneratorExecutor.java:102-105 | keeps exactly the schemata whose model is present and non-empty, and is never longer than its input |
| SuiteProperties.UsableOnlyCounts | rdfunit-core/src/main/java/org/aksw/rdfunit/tests/generators/TestGeneratorExecutor.java:102-105 | each usable schema is kept exactly as often as it occurs; every unusable one is dropped |
| SuiteProperties.UsableOnlyDistributes | rdfunit-core/src/main/java/org/aksw/rdfunit/tests/generators/TestGeneratorExecutor.java:102-105 | filtering keeps the order: filtering a concatenation is the concatenation of the filtered parts |
| CacheProperties.RunSchemasOnlyAddsEntries | rdfunit-core/src/main/java/org/aksw/rdfunit/tests/generators/TestGeneratorExecutor.java:147-163 | with loading on, a run never overwrites an entry; it only adds entries on misses |
| CacheProperties.SchemaStepOnSettledCache | rdfunit-core/src/main/java/org/aksw/rdfunit/tests/generators/TestGeneratorExecutor.java:147-163 | a schema whose entry is already settled is processed identically, as a hit that writes nothing |
| CacheProperties.RunSchemasOnSettledCache | rdfunit-core/src/main/java/org/aksw/rdfunit/tests/generators/TestGeneratorExecutor.java:147-163 | the loop over a cache that extends its own result repeats itself exactly |
| CacheProperties.RerunOverItsCacheIsStable | rdfunit-core/src/main/java/org/aksw/rdfunit/tests/generators/TestGeneratorExecutor.java:147-163 | with loading on, a second run over the cache the first left behind gives the same suite or error, the same events and the same cache (cache miss, then hit) |
| CacheProperties.SchemaStepIgnoresCache | rdfunit-core/src/main/java/org/aksw/rdfunit/tests/generators/TestGeneratorExecutor.java:149-151 | with loading off, a schema's tests and events do not depend on the cache |
| CacheProperties.RunSchemasIgnoresCache | rdfunit-core/src/main/java/org/aksw/rdfunit/tests/generators/TestGeneratorExecutor.java:149-151 | with loading off, the loop's outcome and events do not depend on the cache |
| CacheProperties.WithoutLoadingCacheIsIgnored | rdfunit-core/src/main/java/org/aksw/rdfunit/tests/generators/TestGeneratorExecutor.java:149-151 | with loading off, the run's suite and events are the same whatever the cache holds |
| ExecutorLoop.SchemaLoop | rdfunit-core/src/main/java/org/aksw/rdfunit/tests/generators/TestGeneratorExecutor.java:96-127 | the accumulating loop with break on cancellation, continue on unusable schemata and early exit on a lookup error computes exactly the functional schema loop |
| ExecutorLoop.GenerateTestSuiteLoop | rdfunit-core/src/main/java/org/aksw/rdfunit/tests/generators/TestGeneratorExecutor.java:86-138 | the imperative run (loop, guarded dataset lookup, generationFinished) computes exactly `GenerateTestSuite` |

## Left out

- Thread visibility of the `volatile` cancellation flag: a concurrent `cancel()` is an input saying which checkpoint first observes it.
- RDF reading and writing and the serialisation of cached tests. The cache is a map from location to test list; an absent location is a read failure.
- Adapters.AutoTestsForSchema: assumes a cache write always succeeds. Whether `TestUtils.writeTestsToFile` swallows a write failure is decided in code that is not part of this model.
- Executor.GenerateTestSuite, CacheProperties.RerunOverItsCacheIsStable: a `Run` does not return the executor. A concurrent `cancel()` observed during a run sets the instance's flag (line 74), and nothing resets it (line 35), so every later run on the same instance stops at the first check. Reusing an executor after a concurrently cancelled run must be modelled by passing `Executor.Cancel(e)`; a second run with the original `e`, as in `RerunOverItsCacheIsStable` with a cancellation point, describes a fresh instance with the same flags and monitors.
- Adapters.ReloadAfterGenerationHits, CacheProperties.RerunOverItsCacheIsStable: assume that reading back a written entry yields exactly the written test list, in the same order and with the same duplicates. In the source the write goes through an RDF file (line 161, `TestUtils.writeTestsToFile`) and the read through an RDF graph (lines 152-153, `RdfStreamReader.read` and `instantiateTestsFromModel`), which may reorder or merge test cases.
- SuiteProperties.RunSchemasMatchesReference, SuiteProperties.SuiteIsConcatenationOfParts: the closed form requires distinct schemata to have distinct cache locations when loading is on. Two schemata sharing a location read each other's entries; that case is covered only by the step-by-step definition `Executor.RunSchemas`.
- Adapters.AutoTestsForSchema: with loading off, the read of the path `""` is assumed to fail, as the source's comment intends.
- `CacheUtils.getSourceAutoTestFile` is not part of this model. It is the uninterpreted `cacheLocation` collaborator.
- `TestGeneratorTCInstantiator`, `ShaclTestGenerator`, `BatchTestCaseReader` and `ManualRdfunitTestGenerator` are foreign code. They are abstract functions. The first three always return a list, so their own exceptions are not modelled. Only the manual lookup can fail.
- `TestSource.getReferencesSchemata` is modelled as the list stored in the dataset. Its resolution and the iteration order of the Java `Collection` are taken as given.
- Logging calls have no effect on results and are omitted. The SHACL "non-empty" check only guards a log line, so SHACL output is always appended.
- What monitors do with notifications is outside this class. A run with no registered monitors delivers nothing (`Monitors.EachMonitorReceivesTheStream`).
- The case where the dataset and a schema share identity gets no special treatment: the two manual lookups are simply made at their two call sites.
