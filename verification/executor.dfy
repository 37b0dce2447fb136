/**
  The generation orchestrator: configuration checks, cancellation, the
  per-schema pipeline and the run over all schemata of a dataset.
 */
module Executor {
  import opened Wrappers
  import opened Sources
  import opened Monitors
  import opened Collaborators
  import opened Adapters

  /** The three mode flags fixed at construction. */
  datatype Config = Config(useAutoTests: bool, loadFromCache: bool, useManualTests: bool)

  /** The two argument checks of the constructor, in the order they are made. */
  datatype ConfigError = NothingToGenerate | CacheWithoutAutoTests

  /** An orchestrator: its flags, its registered monitors and its cancellation flag. */
  datatype Executor = Executor(config: Config, monitors: seq<Monitor>, canceled: bool)

  /** Construction succeeds exactly for the flag combinations that can generate something. */
  function NewExecutor(useAutoTests: bool, loadFromCache: bool, useManualTests: bool): (r: Result<Executor, ConfigError>)
    ensures r.Success? <==> (useAutoTests || useManualTests) && (useAutoTests || !loadFromCache)
    ensures r.Success? ==> r.value == Executor(Config(useAutoTests, loadFromCache, useManualTests), [], false)
    ensures r.Failure? && !useAutoTests && !useManualTests ==> r.error == NothingToGenerate
    ensures r.Failure? && (useAutoTests || useManualTests) ==> r.error == CacheWithoutAutoTests
  {
    if !(useAutoTests || useManualTests) then Failure(NothingToGenerate)
    else if !(useAutoTests || !loadFromCache) then Failure(CacheWithoutAutoTests)
    else Success(Executor(Config(useAutoTests, loadFromCache, useManualTests), [], false))
  }

  /** The no-argument constructor enables every mode. */
  function DefaultExecutor(): (e: Executor)
    ensures NewExecutor(true, true, true) == Success(e)
    ensures e.config.useAutoTests && e.config.loadFromCache && e.config.useManualTests
  {
    NewExecutor(true, true, true).value
  }

  /** Sets the cancellation flag; it is never reset. */
  function Cancel(e: Executor): (r: Executor)
    ensures r.canceled
    ensures r.config == e.config && r.monitors == e.monitors
    ensures e.canceled ==> r == e
  {
    e.(canceled := true)
  }

  /** Registers a monitor with the orchestrator. */
  function AddTestExecutorMonitor(e: Executor, m: Monitor): (r: Executor)
    ensures NoDuplicates(e.monitors) ==> NoDuplicates(r.monitors)
    ensures m in r.monitors
    ensures r.monitors == Add(e.monitors, m)
    ensures m in e.monitors ==> r == e
    ensures r.config == e.config && r.canceled == e.canceled
  {
    e.(monitors := Add(e.monitors, m))
  }

  /** Unregisters a monitor from the orchestrator. */
  function RemoveTestExecutorMonitor(e: Executor, m: Monitor): (r: Executor)
    ensures NoDuplicates(e.monitors) ==> NoDuplicates(r.monitors) && m !in r.monitors
    ensures m !in e.monitors ==> r == e
    ensures r.monitors == Remove(e.monitors, m)
    ensures r.config == e.config && r.canceled == e.canceled
  {
    RemoveKeepsNoDuplicates(e.monitors, m);
    e.(monitors := Remove(e.monitors, m))
  }

  /**
    When a cancellation is first observed. Checkpoint i < n is the check made
    before the i-th of n schemata; checkpoint n is the check guarding the
    dataset-level manual lookup after the loop. The flag only goes from unset
    to set, so every later checkpoint observes it too.
   */
  datatype Cancellation = NotCancelled | ObservedAt(checkpoint: nat) {
    predicate ObservedBy(i: nat)
    {
      ObservedAt? && checkpoint <= i
    }

    /** The same cancellation seen from the next checkpoint on. */
    function Next(): (r: Cancellation)
      ensures forall i: nat :: r.ObservedBy(i) <==> ObservedBy(i + 1)
    {
      if ObservedAt? && checkpoint > 0 then ObservedAt(checkpoint - 1)
      else if ObservedAt? then this
      else NotCancelled
    }
  }

  /** The fixed arguments of one run. */
  datatype Env = Env(config: Config, testFolder: string, generators: seq<TestGenerator>, strategies: Strategies)

  /** A stretch of the run: the tests merged (or the error raised), the notifications, the cache afterwards. */
  datatype Step = Step(outcome: Result<seq<TestCase>, GenerationError>, events: seq<Event>, cache: Cache)

  /** No tests, no notifications, the cache untouched. */
  function Skip(cache: Cache): Step
  {
    Step(Success([]), [], cache)
  }

  /**
    One stretch followed by another that started from its cache. An error in
    the first ends the run there; an error in the second discards the tests
    gathered so far but not the notifications already sent or the cache
    entries already written.
   */
  function Then(first: Step, second: Step): Step
  {
    if first.outcome.Failure? then first
    else
      Step(match second.outcome
           case Success(ts) => Success(first.outcome.value + ts)
           case Failure(err) => Failure(err),
           first.events + second.events,
           second.cache)
  }

  /** Then is associative, so a run can be cut anywhere. */
  lemma ThenIsAssociative(a: Step, b: Step, c: Step)
    ensures Then(a, Then(b, c)) == Then(Then(a, b), c)
  {
    if a.outcome.Success? && b.outcome.Success? && c.outcome.Success? {
      assert a.outcome.value + (b.outcome.value + c.outcome.value)
          == (a.outcome.value + b.outcome.value) + c.outcome.value;
    }
  }

  /** The auto part of a usable schema, or nothing when automatic generation is off. */
  function AutoPart(env: Env, s: SchemaSource, cache: Cache): AutoRun
  {
    if env.config.useAutoTests
    then AutoTestsForSchema(env.config.loadFromCache, env.testFolder, s, env.generators, env.strategies, cache)
    else AutoRun([], [], cache)
  }

  /** The manual part of a source, or nothing when manual tests are off. */
  function ManualPart(env: Env, src: Source): ManualRun
  {
    if env.config.useManualTests
    then ManualTestsForSource(env.testFolder, src, env.strategies)
    else ManualRun(Success([]), [])
  }

  /**
    One iteration of the schema loop. An unusable schema contributes nothing
    and calls no strategy. A usable one contributes its auto tests, its manual
    tests, its SHACL tests and its embedded tests, in that order.
   */
  function SchemaStep(env: Env, s: SchemaSource, cache: Cache): (r: Step)
    ensures !Usable(s) ==> r == Skip(cache)
    ensures Usable(s) ==> (r.outcome.Success? <==> ManualPart(env, Schema(s)).outcome.Success?)
    ensures Usable(s) && r.outcome.Success? ==>
              r.outcome.value == AutoPart(env, s, cache).tests + ManualPart(env, Schema(s)).outcome.value
                                 + env.strategies.shaclGenerate(s) + env.strategies.embeddedTests(s.model.value)
    ensures Usable(s) ==> r.cache == AutoPart(env, s, cache).cache
    ensures Usable(s) ==> r.events == AutoPart(env, s, cache).events + ManualPart(env, Schema(s)).events
    ensures Usable(s) && r.outcome.Failure? ==> r.outcome.error == ManualPart(env, Schema(s)).outcome.error
  {
    if !Usable(s) then Skip(cache)
    else
      var auto := AutoPart(env, s, cache);
      var manual := ManualPart(env, Schema(s));
      var events := auto.events + manual.events;
      match manual.outcome
      case Failure(err) => Step(Failure(err), events, auto.cache)
      case Success(manualTests) =>
        Step(Success(auto.tests + manualTests + env.strategies.shaclGenerate(s)
                     + env.strategies.embeddedTests(s.model.value)),
             events, auto.cache)
  }

  /**
    The schema loop from the current checkpoint on. Once a cancellation is
    observed nothing more is called; without automatic generation the cache
    is never written.
   */
  function RunSchemas(env: Env, schemas: seq<SchemaSource>, c: Cancellation, cache: Cache): (r: Step)
    ensures |schemas| == 0 || c.ObservedBy(0) ==> r == Skip(cache)
    ensures !env.config.useAutoTests ==> r.cache == cache
    decreases |schemas|
  {
    if |schemas| == 0 || c.ObservedBy(0) then Skip(cache)
    else
      var head := SchemaStep(env, schemas[0], cache);
      Then(head, RunSchemas(env, schemas[1..], c.Next(), head.cache))
  }

  /** A whole run: the suite or the error that escaped, every notification sent, the cache afterwards. */
  datatype Run = Run(outcome: Result<TestSuite, GenerationError>, events: seq<Event>, cache: Cache)

  /** The cancellation the run observes: a flag set before the call is seen at the first check. */
  function Effective(e: Executor, c: Cancellation): (r: Cancellation)
    ensures e.canceled ==> r.ObservedBy(0)
    ensures !e.canceled ==> r == c
  {
    if e.canceled then ObservedAt(0) else c
  }

  /** The dataset-level manual lookup, made only when no cancellation was observed and manual tests are on. */
  function DatasetStep(env: Env, dataset: TestSource, c: Cancellation, cache: Cache): (r: Step)
    ensures r.cache == cache
    ensures c.ObservedBy(|dataset.referencedSchemata|) || !env.config.useManualTests ==> r == Skip(cache)
    ensures r.outcome.Failure? ==> r.outcome.error.source == Dataset(dataset)
    ensures !c.ObservedBy(|dataset.referencedSchemata|) && env.config.useManualTests ==>
              var manual := ManualTestsForSource(env.testFolder, Dataset(dataset), env.strategies);
              r.outcome == manual.outcome && r.events == manual.events
  {
    if c.ObservedBy(|dataset.referencedSchemata|) then Skip(cache)
    else
      var manual := ManualPart(env, Dataset(dataset));
      Step(manual.outcome, manual.events, cache)
  }

  /**
    A whole generation run over the schemata the dataset references, in
    order, followed by the dataset-level manual lookup. Cancellation is
    observed only at the checkpoints; a run that cancellation ends early
    still sends generationFinished, a run that a lookup error ends does not.
   */
  function GenerateTestSuite(e: Executor, testFolder: string, dataset: TestSource,
                             generators: seq<TestGenerator>, st: Strategies,
                             cache: Cache, c: Cancellation): (r: Run)
    ensures |r.events| > 0 && r.events[0] == GenerationStarted(dataset, |dataset.referencedSchemata|)
    ensures r.outcome.Success? ==> r.events[|r.events| - 1] == GenerationFinished
    ensures !e.config.useAutoTests ==> r.cache == cache
  {
    var env := Env(e.config, testFolder, generators, st);
    var cancel := Effective(e, c);
    var schemas := dataset.referencedSchemata;
    var loop := RunSchemas(env, schemas, cancel, cache);
    Finish(dataset, Then(loop, DatasetStep(env, dataset, cancel, loop.cache)))
  }

  /**
    The run-level notifications around the body of a run: generationStarted
    first, and generationFinished last unless an error escaped.
   */
  function Finish(dataset: TestSource, body: Step): (r: Run)
    ensures |r.events| > |body.events| && r.events[0] == GenerationStarted(dataset, |dataset.referencedSchemata|)
    ensures r.events[1..|body.events| + 1] == body.events
    ensures r.cache == body.cache
    ensures r.outcome.Success? <==> body.outcome.Success?
    ensures r.outcome.Success? ==>
              r.outcome.value.testCases == body.outcome.value && r.events[|r.events| - 1] == GenerationFinished
    ensures r.outcome.Failure? ==> r.outcome.error == body.outcome.error && |r.events| == |body.events| + 1
  {
    var started := [GenerationStarted(dataset, |dataset.referencedSchemata|)];
    match body.outcome
    case Success(tests) => Run(Success(TestSuite(tests)), started + body.events + [GenerationFinished], body.cache)
    case Failure(err) => Run(Failure(err), started + body.events, body.cache)
  }

  /** Every notification of a run, as the registered monitors receive it. */
  function Notifications(e: Executor, r: Run): seq<Notification>
  {
    Deliver(e.monitors, r.events)
  }
}
