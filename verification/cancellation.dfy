/**
  Cooperative cancellation: it is only observed at the start of a schema
  iteration and before the dataset-level lookup, it keeps what was merged,
  and a flag set before the run yields an empty suite.
 */
module CancellationProperties {
  import opened Wrappers
  import opened Sources
  import opened Monitors
  import opened Collaborators
  import opened Adapters
  import opened Executor

  /** Concatenating the loop over two lists is running them one after the other. */
  lemma {:induction false} RunSchemasSplits(env: Env, xs: seq<SchemaSource>, ys: seq<SchemaSource>, cache: Cache)
    ensures var first := RunSchemas(env, xs, NotCancelled, cache);
            RunSchemas(env, xs + ys, NotCancelled, cache)
            == Then(first, RunSchemas(env, ys, NotCancelled, first.cache))
    decreases |xs|
  {
    var first := RunSchemas(env, xs, NotCancelled, cache);
    if |xs| == 0 {
      assert xs + ys == ys;
      var second := RunSchemas(env, ys, NotCancelled, cache);
      assert Then(first, second) == second by {
        if second.outcome.Success? {
          assert [] + second.outcome.value == second.outcome.value;
        }
        assert [] + second.events == second.events;
      }
    } else {
      var head := SchemaStep(env, xs[0], cache);
      assert (xs + ys)[0] == xs[0];
      assert (xs + ys)[1..] == xs[1..] + ys;
      RunSchemasSplits(env, xs[1..], ys, head.cache);
      var rest := RunSchemas(env, xs[1..], NotCancelled, head.cache);
      ThenIsAssociative(head, rest, RunSchemas(env, ys, NotCancelled, rest.cache));
      if head.outcome.Failure? {
        assert first == head;
      }
    }
  }

  /** Extending the list by one schema appends that schema's step, started from the cache left behind. */
  lemma RunSchemasSnoc(env: Env, xs: seq<SchemaSource>, x: SchemaSource, cache: Cache)
    ensures var before := RunSchemas(env, xs, NotCancelled, cache);
            RunSchemas(env, xs + [x], NotCancelled, cache) == Then(before, SchemaStep(env, x, before.cache))
  {
    var before := RunSchemas(env, xs, NotCancelled, cache);
    RunSchemasSplits(env, xs, [x], cache);
    var step := SchemaStep(env, x, before.cache);
    assert [x][1..] == [];
    assert RunSchemas(env, [x], NotCancelled, before.cache) == Then(step, Skip(step.cache));
    if step.outcome.Success? {
      assert step.outcome.value + [] == step.outcome.value;
    }
    assert step.events + [] == step.events;
  }

  /** Processing one more schema of a list extends the loop over its prefix by that schema's step. */
  lemma RunSchemasPrefixGrows(env: Env, xs: seq<SchemaSource>, i: nat, cache: Cache)
    requires i < |xs|
    ensures var before := RunSchemas(env, xs[..i], NotCancelled, cache);
            RunSchemas(env, xs[..i + 1], NotCancelled, cache) == Then(before, SchemaStep(env, xs[i], before.cache))
  {
    assert xs[..i + 1] == xs[..i] + [xs[i]];
    RunSchemasSnoc(env, xs[..i], xs[i], cache);
  }

  /**
    A cancellation first observed before the k-th schema leaves the loop
    exactly as if the list had ended there: the first k schemata are
    processed in full and nothing after them is.
   */
  lemma {:induction false} CancellationTruncates(env: Env, schemas: seq<SchemaSource>, k: nat, cache: Cache)
    requires k <= |schemas|
    ensures RunSchemas(env, schemas, ObservedAt(k), cache) == RunSchemas(env, schemas[..k], NotCancelled, cache)
    decreases k
  {
    if k > 0 {
      var head := SchemaStep(env, schemas[0], cache);
      assert schemas[..k][0] == schemas[0];
      assert schemas[..k][1..] == schemas[1..][..k - 1];
      CancellationTruncates(env, schemas[1..], k - 1, head.cache);
    }
  }

  /** Under any cancellation the loop processes, in full, exactly the schemata before the checkpoint. */
  lemma {:induction false} LoopVisitsPrefix(env: Env, schemas: seq<SchemaSource>, c: Cancellation, cache: Cache)
    ensures var k := if c.ObservedAt? && c.checkpoint < |schemas| then c.checkpoint else |schemas|;
            RunSchemas(env, schemas, c, cache) == RunSchemas(env, schemas[..k], NotCancelled, cache)
    decreases |schemas|
  {
    if c.ObservedAt? && c.checkpoint < |schemas| {
      CancellationTruncates(env, schemas, c.checkpoint, cache);
    } else if |schemas| > 0 {
      var head := SchemaStep(env, schemas[0], cache);
      LoopVisitsPrefix(env, schemas[1..], c.Next(), head.cache);
      assert schemas[..|schemas|] == schemas;
      assert schemas[1..][..|schemas| - 1] == schemas[1..];
    } else {
      assert schemas[..0] == schemas;
    }
  }

  /**
    With the flag set before the call, the run visits no schema and skips the
    dataset-level lookup: the suite is empty, the cache untouched, and the
    monitors hear only generationStarted and generationFinished.
   */
  lemma CancelledBeforeCallYieldsEmptySuite(e: Executor, testFolder: string, dataset: TestSource,
                                            generators: seq<TestGenerator>, st: Strategies,
                                            cache: Cache, c: Cancellation)
    ensures GenerateTestSuite(Cancel(e), testFolder, dataset, generators, st, cache, c)
            == Run(Success(TestSuite([])),
                   [GenerationStarted(dataset, |dataset.referencedSchemata|), GenerationFinished],
                   cache)
  {
    var env := Env(e.config, testFolder, generators, st);
    var schemas := dataset.referencedSchemata;
    var cancel := Effective(Cancel(e), c);
    assert RunSchemas(env, schemas, cancel, cache) == Skip(cache);
    assert DatasetStep(env, dataset, cancel, cache) == Skip(cache);
    var none: seq<TestCase> := [];
    var quiet: seq<Event> := [];
    assert none + none == none && quiet + quiet == quiet;
    assert Then(Skip(cache), Skip(cache)) == Skip(cache);
  }

  /** Once a prefix of the list has raised an error, the rest of the list changes nothing. */
  lemma FailedPrefixDecides(env: Env, xs: seq<SchemaSource>, j: nat, cache: Cache)
    requires j <= |xs|
    requires RunSchemas(env, xs[..j], NotCancelled, cache).outcome.Failure?
    ensures RunSchemas(env, xs, NotCancelled, cache) == RunSchemas(env, xs[..j], NotCancelled, cache)
  {
    assert xs[..j] + xs[j..] == xs;
    RunSchemasSplits(env, xs[..j], xs[j..], cache);
  }

  /**
    A cancellation observed at checkpoint k (k at most the number of
    schemata) keeps the suite merged from the first k schemata, skips the
    dataset-level lookup and still ends with generationFinished.
   */
  lemma CancelledRunKeepsVisited(e: Executor, testFolder: string, dataset: TestSource,
                                 generators: seq<TestGenerator>, st: Strategies, cache: Cache, k: nat)
    requires !e.canceled
    requires k <= |dataset.referencedSchemata|
    ensures var env := Env(e.config, testFolder, generators, st);
            var schemas := dataset.referencedSchemata;
            var visited := RunSchemas(env, schemas[..k], NotCancelled, cache);
            var cut := GenerateTestSuite(e, testFolder, dataset, generators, st, cache, ObservedAt(k));
            && cut.cache == visited.cache
            && (cut.outcome.Success? <==> visited.outcome.Success?)
            && (cut.outcome.Success? ==>
                  && cut.outcome.value.testCases == visited.outcome.value
                  && cut.events == [GenerationStarted(dataset, |schemas|)] + visited.events + [GenerationFinished])
  {
    var env := Env(e.config, testFolder, generators, st);
    var schemas := dataset.referencedSchemata;
    var visited := RunSchemas(env, schemas[..k], NotCancelled, cache);
    CancellationTruncates(env, schemas, k, cache);
    assert DatasetStep(env, dataset, ObservedAt(k), visited.cache) == Skip(visited.cache);
    if visited.outcome.Success? {
      assert visited.outcome.value + [] == visited.outcome.value;
      assert visited.events + [] == visited.events;
    }
  }

  /** The prefix property for a checkpoint inside the schema loop or at the dataset-level check. */
  lemma CancelledWithinRunIsPrefix(e: Executor, testFolder: string, dataset: TestSource,
                                   generators: seq<TestGenerator>, st: Strategies, cache: Cache, k: nat)
    requires !e.canceled
    requires k <= |dataset.referencedSchemata|
    ensures var full := GenerateTestSuite(e, testFolder, dataset, generators, st, cache, NotCancelled);
            var cut := GenerateTestSuite(e, testFolder, dataset, generators, st, cache, ObservedAt(k));
            full.outcome.Success? ==>
              && cut.outcome.Success?
              && cut.outcome.value.testCases <= full.outcome.value.testCases
  {
    var env := Env(e.config, testFolder, generators, st);
    var schemas := dataset.referencedSchemata;
    CancelledRunKeepsVisited(e, testFolder, dataset, generators, st, cache, k);
    assert schemas[..k] + schemas[k..] == schemas;
    RunSchemasSplits(env, schemas[..k], schemas[k..], cache);
    var visited := RunSchemas(env, schemas[..k], NotCancelled, cache);
    var loop := RunSchemas(env, schemas, NotCancelled, cache);
    var body := Then(loop, DatasetStep(env, dataset, NotCancelled, loop.cache));
    if body.outcome.Success? {
      assert visited.outcome.value <= loop.outcome.value <= body.outcome.value;
    }
  }

  /**
    Cancellation never discards merged tests: whenever the uncancelled run
    completes, a run cancelled at any checkpoint completes too and its suite
    is a prefix of the uncancelled one.
   */
  lemma CancelledSuiteIsPrefix(e: Executor, testFolder: string, dataset: TestSource,
                               generators: seq<TestGenerator>, st: Strategies, cache: Cache, k: nat)
    requires !e.canceled
    ensures var full := GenerateTestSuite(e, testFolder, dataset, generators, st, cache, NotCancelled);
            var cut := GenerateTestSuite(e, testFolder, dataset, generators, st, cache, ObservedAt(k));
            full.outcome.Success? ==>
              && cut.outcome.Success?
              && cut.outcome.value.testCases <= full.outcome.value.testCases
  {
    var env := Env(e.config, testFolder, generators, st);
    var schemas := dataset.referencedSchemata;
    if k <= |schemas| {
      CancelledWithinRunIsPrefix(e, testFolder, dataset, generators, st, cache, k);
    } else {
      LoopVisitsPrefix(env, schemas, ObservedAt(k), cache);
      LoopVisitsPrefix(env, schemas, NotCancelled, cache);
    }
  }
}
