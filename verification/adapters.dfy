/**
  The two per-source generators the orchestrator wraps with monitor
  notifications: automatic generation behind a read-through cache, and the
  manual-test lookup whose "not configured" outcome counts as zero tests.
 */
module Adapters {
  import opened Wrappers
  import opened Sources
  import opened Monitors
  import opened Collaborators

  /** Automatic generation for one schema: its tests, its notifications and the cache afterwards. */
  datatype AutoRun = AutoRun(tests: seq<TestCase>, events: seq<Event>, cache: Cache)

  /** The only error that escapes a run: a manual lookup failure other than "not configured". */
  datatype GenerationError = ManualLookupError(source: Source, reason: string)

  /** Manual lookup for one source: its tests or the error it raised, and its notifications. */
  datatype ManualRun = ManualRun(outcome: Result<seq<TestCase>, GenerationError>, events: seq<Event>)

  /** The cache location of the automatic tests of a schema under a test folder. */
  function CacheKeyOf(st: Strategies, testFolder: string, s: SchemaSource): CacheKey
  {
    st.cacheLocation(testFolder, s)
  }

  /**
    Automatic tests for a schema. With loading enabled, a readable cache entry
    is returned as is and nothing is generated; otherwise (loading disabled
    counts as an unreadable location) the generators run and their output is
    written to the schema's cache location.
   */
  function AutoTestsForSchema(loadFromCache: bool, testFolder: string, s: SchemaSource,
                              generators: seq<TestGenerator>, st: Strategies, cache: Cache): (r: AutoRun)
    ensures r.events == [SourceGenerationStarted(Schema(s), AutoGenerated),
                         SourceGenerationExecuted(Schema(s), AutoGenerated, |r.tests|)]
    ensures loadFromCache && CacheKeyOf(st, testFolder, s) in cache ==>
              r.tests == cache[CacheKeyOf(st, testFolder, s)] && r.cache == cache
    ensures !(loadFromCache && CacheKeyOf(st, testFolder, s) in cache) ==>
              r.tests == st.autoGenerate(generators, s)
              && r.cache == cache[CacheKeyOf(st, testFolder, s) := r.tests]
    ensures CacheKeyOf(st, testFolder, s) in r.cache && r.cache[CacheKeyOf(st, testFolder, s)] == r.tests
    ensures forall k :: k in cache && k != CacheKeyOf(st, testFolder, s) ==> k in r.cache && r.cache[k] == cache[k]
  {
    var key := CacheKeyOf(st, testFolder, s);
    var readable := loadFromCache && key in cache;
    var tests := if readable then cache[key] else st.autoGenerate(generators, s);
    var cache' := if readable then cache else cache[key := tests];
    AutoRun(tests,
            [SourceGenerationStarted(Schema(s), AutoGenerated),
             SourceGenerationExecuted(Schema(s), AutoGenerated, |tests|)],
            cache')
  }

  /**
    Manual tests for a schema or for the dataset. "Not configured" yields no
    tests and still completes the start/executed pair; any other lookup failure
    escapes after the start notification.
   */
  function ManualTestsForSource(testFolder: string, src: Source, st: Strategies): (r: ManualRun)
    ensures r.outcome.Success? <==> !st.manualLookup(testFolder, src).LookupFailed?
    ensures st.manualLookup(testFolder, src).Found? ==> r.outcome == Success(st.manualLookup(testFolder, src).tests)
    ensures st.manualLookup(testFolder, src).NotConfigured? ==> r.outcome == Success([])
    ensures r.outcome.Success? ==>
              r.events == [SourceGenerationStarted(src, ManuallyGenerated),
                           SourceGenerationExecuted(src, ManuallyGenerated, |r.outcome.value|)]
    ensures r.outcome.Failure? ==>
              r.events == [SourceGenerationStarted(src, ManuallyGenerated)]
              && r.outcome.error == ManualLookupError(src, st.manualLookup(testFolder, src).reason)
  {
    var started := SourceGenerationStarted(src, ManuallyGenerated);
    match st.manualLookup(testFolder, src)
    case Found(tests) =>
      ManualRun(Success(tests), [started, SourceGenerationExecuted(src, ManuallyGenerated, |tests|)])
    case NotConfigured =>
      ManualRun(Success([]), [started, SourceGenerationExecuted(src, ManuallyGenerated, 0)])
    case LookupFailed(reason) =>
      ManualRun(Failure(ManualLookupError(src, reason)), [started])
  }

  /**
    Whatever the first call did, reading the same location again with loading
    enabled is a hit returning the same tests and leaving the cache alone: a
    miss writes exactly what a later run reads back.
   */
  lemma ReloadAfterGenerationHits(loadFromCache: bool, testFolder: string, s: SchemaSource,
                                  generators: seq<TestGenerator>, st: Strategies, cache: Cache)
    ensures var first := AutoTestsForSchema(loadFromCache, testFolder, s, generators, st, cache);
            var second := AutoTestsForSchema(true, testFolder, s, generators, st, first.cache);
            second == first
  {
  }
}
