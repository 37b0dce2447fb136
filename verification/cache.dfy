/**
  The read-through cache across whole runs: with loading enabled, entries are
  only ever added, and a second run over the cache the first one left behind
  reads every automatic test from it and repeats the first run exactly; with
  loading disabled, the cache contents never influence a run.
 */
module CacheProperties {
  import opened Sources
  import opened Collaborators
  import opened Adapters
  import opened Executor

  /** Every entry of the smaller cache is present, unchanged, in the larger one. */
  predicate Extends(larger: Cache, smaller: Cache)
  {
    forall k :: k in smaller ==> k in larger && larger[k] == smaller[k]
  }

  lemma {:induction false} RunSchemasOnlyAddsEntries(env: Env, schemas: seq<SchemaSource>, c: Cancellation, cache: Cache)
    requires env.config.loadFromCache
    ensures Extends(RunSchemas(env, schemas, c, cache).cache, cache)
    decreases |schemas|
  {
    if |schemas| > 0 && !c.ObservedBy(0) {
      var head := SchemaStep(env, schemas[0], cache);
      RunSchemasOnlyAddsEntries(env, schemas[1..], c.Next(), head.cache);
    }
  }

  /** A schema whose entry is already settled in the cache is processed identically, as a cache hit. */
  lemma SchemaStepOnSettledCache(env: Env, s: SchemaSource, cache: Cache, settled: Cache)
    requires env.config.loadFromCache
    requires Extends(settled, SchemaStep(env, s, cache).cache)
    ensures SchemaStep(env, s, settled) == SchemaStep(env, s, cache).(cache := settled)
  {
  }

  lemma {:induction false} RunSchemasOnSettledCache(env: Env, schemas: seq<SchemaSource>, c: Cancellation,
                                                    cache: Cache, settled: Cache)
    requires env.config.loadFromCache
    requires Extends(settled, RunSchemas(env, schemas, c, cache).cache)
    ensures RunSchemas(env, schemas, c, settled) == RunSchemas(env, schemas, c, cache).(cache := settled)
    decreases |schemas|
  {
    if |schemas| > 0 && !c.ObservedBy(0) {
      var head := SchemaStep(env, schemas[0], cache);
      var tail := RunSchemas(env, schemas[1..], c.Next(), head.cache);
      if head.outcome.Success? {
        RunSchemasOnlyAddsEntries(env, schemas[1..], c.Next(), head.cache);
        assert Extends(settled, head.cache);
      }
      SchemaStepOnSettledCache(env, schemas[0], cache, settled);
      if head.outcome.Success? {
        RunSchemasOnSettledCache(env, schemas[1..], c.Next(), head.cache, settled);
      }
    }
  }

  /**
    With loading enabled, running again over the cache a run left behind
    repeats that run exactly: same suite or error, same notifications, and
    no entry written, because every automatic generation is now a hit
    returning what the first run merged.
   */
  lemma RerunOverItsCacheIsStable(e: Executor, testFolder: string, dataset: TestSource,
                                  generators: seq<TestGenerator>, st: Strategies, cache: Cache, c: Cancellation)
    requires e.config.loadFromCache
    ensures var first := GenerateTestSuite(e, testFolder, dataset, generators, st, cache, c);
            GenerateTestSuite(e, testFolder, dataset, generators, st, first.cache, c) == first
  {
    var env := Env(e.config, testFolder, generators, st);
    var cancel := Effective(e, c);
    var schemas := dataset.referencedSchemata;
    var loop := RunSchemas(env, schemas, cancel, cache);
    var first := GenerateTestSuite(e, testFolder, dataset, generators, st, cache, c);
    assert first.cache == loop.cache;
    RunSchemasOnSettledCache(env, schemas, cancel, cache, loop.cache);
  }

  lemma SchemaStepIgnoresCache(env: Env, s: SchemaSource, cache1: Cache, cache2: Cache)
    requires !env.config.loadFromCache
    ensures SchemaStep(env, s, cache1).outcome == SchemaStep(env, s, cache2).outcome
    ensures SchemaStep(env, s, cache1).events == SchemaStep(env, s, cache2).events
  {
  }

  lemma {:induction false} RunSchemasIgnoresCache(env: Env, schemas: seq<SchemaSource>, c: Cancellation,
                                                  cache1: Cache, cache2: Cache)
    requires !env.config.loadFromCache
    ensures RunSchemas(env, schemas, c, cache1).outcome == RunSchemas(env, schemas, c, cache2).outcome
    ensures RunSchemas(env, schemas, c, cache1).events == RunSchemas(env, schemas, c, cache2).events
    decreases |schemas|
  {
    if |schemas| > 0 && !c.ObservedBy(0) {
      var head1 := SchemaStep(env, schemas[0], cache1);
      var head2 := SchemaStep(env, schemas[0], cache2);
      SchemaStepIgnoresCache(env, schemas[0], cache1, cache2);
      RunSchemasIgnoresCache(env, schemas[1..], c.Next(), head1.cache, head2.cache);
    }
  }

  /**
    With loading disabled, nothing is read from the cache: the suite and the
    notifications are the same whatever the cache holds (it is still written).
   */
  lemma WithoutLoadingCacheIsIgnored(e: Executor, testFolder: string, dataset: TestSource,
                                     generators: seq<TestGenerator>, st: Strategies,
                                     cache1: Cache, cache2: Cache, c: Cancellation)
    requires !e.config.loadFromCache
    ensures var r1 := GenerateTestSuite(e, testFolder, dataset, generators, st, cache1, c);
            var r2 := GenerateTestSuite(e, testFolder, dataset, generators, st, cache2, c);
            r1.outcome == r2.outcome && r1.events == r2.events
  {
    var env := Env(e.config, testFolder, generators, st);
    RunSchemasIgnoresCache(env, dataset.referencedSchemata, Effective(e, c), cache1, cache2);
  }
}
