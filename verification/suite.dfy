/**
  The order and content of the suite, against a reference definition that
  reads the starting cache once per schema instead of threading it through
  the loop: per usable schema its auto, manual, SHACL and embedded tests,
  schemata in order, then the dataset's own manual tests.
 */
module SuiteProperties {
  import opened Wrappers
  import opened Sources
  import opened Collaborators
  import opened Adapters
  import opened Executor

  /** The tests a manual lookup contributes when it does not fail. */
  function ManualTestsOf(lookup: ManualLookup): seq<TestCase>
  {
    if lookup.Found? then lookup.tests else []
  }

  function KeyOf(env: Env, s: SchemaSource): CacheKey
  {
    CacheKeyOf(env.strategies, env.testFolder, s)
  }

  /**
    The automatic tests of a schema in a run that starts from cache0: with
    loading on, the entry cache0 holds at the schema's location, even a stale
    one; otherwise what the generators produce.
   */
  function AutoOf(env: Env, s: SchemaSource, cache0: Cache): seq<TestCase>
  {
    if env.config.loadFromCache && KeyOf(env, s) in cache0 then cache0[KeyOf(env, s)]
    else env.strategies.autoGenerate(env.generators, s)
  }

  /** What a usable schema contributes to a run that starts from cache0. */
  function Contribution(env: Env, s: SchemaSource, cache0: Cache): seq<TestCase>
    requires Usable(s)
  {
    var st := env.strategies;
    (if env.config.useAutoTests then AutoOf(env, s, cache0) else [])
    + (if env.config.useManualTests then ManualTestsOf(st.manualLookup(env.testFolder, Schema(s))) else [])
    + st.shaclGenerate(s)
    + st.embeddedTests(s.model.value)
  }

  /** The concatenation of the contributions of the usable schemata, in order; nothing is deduplicated. */
  function ReferenceTests(env: Env, schemas: seq<SchemaSource>, cache0: Cache): seq<TestCase>
    decreases |schemas|
  {
    if |schemas| == 0 then []
    else (if Usable(schemas[0]) then Contribution(env, schemas[0], cache0) else [])
         + ReferenceTests(env, schemas[1..], cache0)
  }

  /** No manual lookup for a usable schema fails. */
  predicate LookupsSucceed(env: Env, schemas: seq<SchemaSource>)
  {
    env.config.useManualTests ==>
      forall s :: s in schemas && Usable(s) ==>
        !env.strategies.manualLookup(env.testFolder, Schema(s)).LookupFailed?
  }

  /** With loading on, distinct schemata have distinct cache locations. */
  predicate KeysInjective(env: Env, schemas: seq<SchemaSource>)
  {
    env.config.loadFromCache ==>
      forall s1, s2 :: s1 in schemas && s2 in schemas && KeyOf(env, s1) == KeyOf(env, s2) ==> s1 == s2
  }

  /**
    What the loop keeps of the cache it started from: every entry of cache0
    at a schema's location is still there, and every entry at a schema's
    location holds that schema's automatic tests as AutoOf defines them.
   */
  predicate SettledFrom(env: Env, cache: Cache, cache0: Cache, all: seq<SchemaSource>)
  {
    env.config.loadFromCache ==>
      && (forall s :: s in all && KeyOf(env, s) in cache0 ==> KeyOf(env, s) in cache)
      && (forall s :: s in all && KeyOf(env, s) in cache ==> cache[KeyOf(env, s)] == AutoOf(env, s, cache0))
  }

  lemma SchemaStepMatchesReference(env: Env, s: SchemaSource, cache: Cache, cache0: Cache, all: seq<SchemaSource>)
    requires s in all
    requires LookupsSucceed(env, all) && KeysInjective(env, all) && SettledFrom(env, cache, cache0, all)
    ensures var r := SchemaStep(env, s, cache);
            && r.outcome == Success(if Usable(s) then Contribution(env, s, cache0) else [])
            && SettledFrom(env, r.cache, cache0, all)
  {
  }

  lemma {:induction false} RunSchemasMatchesReference(env: Env, schemas: seq<SchemaSource>, cache: Cache,
                                                      cache0: Cache, all: seq<SchemaSource>)
    requires forall s :: s in schemas ==> s in all
    requires LookupsSucceed(env, all) && KeysInjective(env, all) && SettledFrom(env, cache, cache0, all)
    ensures var r := RunSchemas(env, schemas, NotCancelled, cache);
            && r.outcome == Success(ReferenceTests(env, schemas, cache0))
            && SettledFrom(env, r.cache, cache0, all)
    decreases |schemas|
  {
    if |schemas| > 0 {
      var head := SchemaStep(env, schemas[0], cache);
      SchemaStepMatchesReference(env, schemas[0], cache, cache0, all);
      RunSchemasMatchesReference(env, schemas[1..], head.cache, cache0, all);
    }
  }

  /**
    The suite of an uncancelled run that no lookup error ends is, in order:
    for each usable schema its auto, manual, SHACL and embedded tests, then
    the dataset's own manual tests. With loading on, a schema whose location
    the starting cache holds contributes that entry, stale or not; any other
    schema contributes freshly generated tests, also on its repeated visits.
   */
  lemma SuiteIsConcatenationOfParts(e: Executor, testFolder: string, dataset: TestSource,
                                    generators: seq<TestGenerator>, st: Strategies, cache: Cache)
    requires !e.canceled
    requires var env := Env(e.config, testFolder, generators, st);
             && LookupsSucceed(env, dataset.referencedSchemata)
             && KeysInjective(env, dataset.referencedSchemata)
    requires e.config.useManualTests ==> !st.manualLookup(testFolder, Dataset(dataset)).LookupFailed?
    ensures GenerateTestSuite(e, testFolder, dataset, generators, st, cache, NotCancelled).outcome
            == Success(TestSuite(
                 ReferenceTests(Env(e.config, testFolder, generators, st), dataset.referencedSchemata, cache)
                 + (if e.config.useManualTests then ManualTestsOf(st.manualLookup(testFolder, Dataset(dataset))) else [])))
  {
    var env := Env(e.config, testFolder, generators, st);
    var schemas := dataset.referencedSchemata;
    RunSchemasMatchesReference(env, schemas, cache, cache, schemas);
    var loop := RunSchemas(env, schemas, NotCancelled, cache);
    var tail := DatasetStep(env, dataset, NotCancelled, loop.cache);
    if !e.config.useManualTests {
      assert ReferenceTests(env, schemas, cache) + [] == ReferenceTests(env, schemas, cache);
    }
  }

  /** The usable schemata, in order, each as often as it occurs. */
  function UsableOnly(schemas: seq<SchemaSource>): (r: seq<SchemaSource>)
    ensures forall s :: s in r <==> s in schemas && Usable(s)
    ensures |r| <= |schemas|
    decreases |schemas|
  {
    if |schemas| == 0 then []
    else if Usable(schemas[0]) then [schemas[0]] + UsableOnly(schemas[1..])
    else UsableOnly(schemas[1..])
  }

  /** Each usable schema is kept exactly as often as it occurs; every other one is dropped. */
  lemma {:induction false} UsableOnlyCounts(schemas: seq<SchemaSource>, s: SchemaSource)
    ensures multiset(UsableOnly(schemas))[s] == if Usable(s) then multiset(schemas)[s] else 0
    decreases |schemas|
  {
    if |schemas| > 0 {
      UsableOnlyCounts(schemas[1..], s);
      assert schemas == [schemas[0]] + schemas[1..];
      assert multiset(schemas) == multiset([schemas[0]]) + multiset(schemas[1..]);
      if Usable(schemas[0]) {
        assert multiset(UsableOnly(schemas)) == multiset([schemas[0]]) + multiset(UsableOnly(schemas[1..]));
      }
    }
  }

  /** Filtering keeps the order: filtering a concatenation concatenates the filtered parts. */
  lemma {:induction false} UsableOnlyDistributes(a: seq<SchemaSource>, b: seq<SchemaSource>)
    ensures UsableOnly(a + b) == UsableOnly(a) + UsableOnly(b)
    decreases |a|
  {
    if |a| == 0 {
      assert a + b == b;
    } else {
      assert (a + b)[0] == a[0];
      assert (a + b)[1..] == a[1..] + b;
      UsableOnlyDistributes(a[1..], b);
    }
  }

  /** A skipped stretch leaves whatever follows it as it is. */
  lemma SkipIsNeutral(cache: Cache, rest: Step)
    ensures Then(Skip(cache), rest) == rest
  {
    if rest.outcome.Success? {
      assert [] + rest.outcome.value == rest.outcome.value;
    }
    assert [] + rest.events == rest.events;
  }

  /**
    An unusable schema is skipped without trace: an uncancelled loop over the
    schemata does exactly what the loop over the usable ones alone does.
   */
  lemma {:induction false} UnusableSchemataAreInert(env: Env, schemas: seq<SchemaSource>, cache: Cache)
    ensures RunSchemas(env, schemas, NotCancelled, cache) == RunSchemas(env, UsableOnly(schemas), NotCancelled, cache)
    decreases |schemas|
  {
    if |schemas| > 0 {
      var head := SchemaStep(env, schemas[0], cache);
      UnusableSchemataAreInert(env, schemas[1..], head.cache);
      if Usable(schemas[0]) {
        assert UsableOnly(schemas)[1..] == UsableOnly(schemas[1..]);
      } else {
        SkipIsNeutral(cache, RunSchemas(env, schemas[1..], NotCancelled, head.cache));
      }
    }
  }
}
