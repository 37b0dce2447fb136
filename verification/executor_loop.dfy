/**
  generateTestSuite written as the source writes it: one pass over the
  schemata that accumulates tests, notifications and cache writes, stops at
  the first observed cancellation, skips unusable schemata and lets a lookup
  error escape; proved to compute exactly the functional model.
 */
module ExecutorLoop {
  import opened Wrappers
  import opened Sources
  import opened Monitors
  import opened Collaborators
  import opened Adapters
  import opened Executor
  import opened CancellationProperties

  /** The schema loop, accumulating into local variables. */
  method SchemaLoop(env: Env, sources: seq<SchemaSource>, cancel: Cancellation, cache: Cache) returns (r: Step)
    ensures r == RunSchemas(env, sources, cancel, cache)
  {
    var visited := if cancel.ObservedAt? && cancel.checkpoint < |sources| then cancel.checkpoint else |sources|;
    LoopVisitsPrefix(env, sources, cancel, cache);

    var allTests: seq<TestCase> := [];
    var events: seq<Event> := [];
    var current := cache;
    var i := 0;
    while i < |sources|
      invariant i <= visited
      invariant RunSchemas(env, sources[..i], NotCancelled, cache) == Step(Success(allTests), events, current)
    {
      if cancel.ObservedBy(i) {
        break;
      }
      RunSchemasPrefixGrows(env, sources, i, cache);
      var step := SchemaStep(env, sources[i], current);
      if !Usable(sources[i]) {
        assert Then(Step(Success(allTests), events, current), step) == Step(Success(allTests), events, current) by {
          assert allTests + [] == allTests && events + [] == events;
        }
        i := i + 1;
        continue;
      }
      if step.outcome.Failure? {
        // the error escapes: the rest of the list cannot change the outcome
        assert sources[..visited][..i + 1] == sources[..i + 1];
        FailedPrefixDecides(env, sources[..visited], i + 1, cache);
        return Step(Failure(step.outcome.error), events + step.events, step.cache);
      }
      allTests := allTests + step.outcome.value;
      events := events + step.events;
      current := step.cache;
      i := i + 1;
    }
    assert i == visited;
    return Step(Success(allTests), events, current);
  }

  method GenerateTestSuiteLoop(e: Executor, testFolder: string, dataset: TestSource,
                               generators: seq<TestGenerator>, st: Strategies,
                               cache: Cache, c: Cancellation) returns (r: Run)
    ensures r == GenerateTestSuite(e, testFolder, dataset, generators, st, cache, c)
  {
    var env := Env(e.config, testFolder, generators, st);
    var cancel := Effective(e, c);
    var sources := dataset.referencedSchemata;
    var started := [GenerationStarted(dataset, |sources|)];
    var loop := SchemaLoop(env, sources, cancel, cache);
    if loop.outcome.Failure? {
      return Run(Failure(loop.outcome.error), started + loop.events, loop.cache);
    }
    var allTests := loop.outcome.value;
    var events := loop.events;
    if !cancel.ObservedBy(|sources|) && env.config.useManualTests {
      var manual := ManualTestsForSource(testFolder, Dataset(dataset), st);
      events := events + manual.events;
      match manual.outcome {
        case Failure(err) =>
          return Run(Failure(err), started + events, loop.cache);
        case Success(tests) =>
          allTests := allTests + tests;
      }
    } else {
      assert allTests + [] == allTests && events + [] == events;
    }
    return Run(Success(TestSuite(allTests)), started + events + [GenerationFinished], loop.cache);
  }
}
