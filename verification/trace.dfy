/**
  The shape of the notification stream of a run: generationStarted first,
  then start/executed pairs with matching source and kind, then
  generationFinished; and the agreement between the counts the monitors are
  told and the size of the suite.
 */
module Trace {
  import opened Wrappers
  import opened Sources
  import opened Monitors
  import opened Collaborators
  import opened Adapters
  import opened Executor

  predicate SourceEvent(ev: Event)
  {
    ev.SourceGenerationStarted? || ev.SourceGenerationExecuted?
  }

  /** Each sourceGenerationStarted is immediately followed by the one matching sourceGenerationExecuted. */
  predicate Paired(evs: seq<Event>)
    decreases |evs|
  {
    if |evs| == 0 then true
    else
      && |evs| >= 2
      && evs[0].SourceGenerationStarted?
      && evs[1].SourceGenerationExecuted?
      && evs[1].source == evs[0].source
      && evs[1].kind == evs[0].kind
      && Paired(evs[2..])
  }

  /** The tests announced by the sourceGenerationExecuted notifications. */
  function ExecutedTotal(evs: seq<Event>): nat
    decreases |evs|
  {
    if |evs| == 0 then 0
    else (if evs[0].SourceGenerationExecuted? then evs[0].testCount else 0) + ExecutedTotal(evs[1..])
  }

  /** The SHACL and embedded tests of a schema, which no notification announces. */
  function Unannounced(env: Env, s: SchemaSource): nat
  {
    if Usable(s)
    then |env.strategies.shaclGenerate(s)| + |env.strategies.embeddedTests(s.model.value)|
    else 0
  }

  function UnannouncedTotal(env: Env, schemas: seq<SchemaSource>): nat
    decreases |schemas|
  {
    if |schemas| == 0 then 0 else Unannounced(env, schemas[0]) + UnannouncedTotal(env, schemas[1..])
  }

  /** How many schemata the loop visits under a cancellation. */
  function VisitedCount(schemas: seq<SchemaSource>, c: Cancellation): (k: nat)
    ensures k <= |schemas|
  {
    if c.ObservedAt? && c.checkpoint < |schemas| then c.checkpoint else |schemas|
  }

  /**
    A stretch is well formed when its notifications are start/executed pairs
    about schemata or the dataset; when it failed, one manual start for the
    failing source is left without its executed notification. A successful
    stretch announces all its tests but the SHACL and embedded ones.
   */
  predicate WellFormed(s: Step)
  {
    && (forall i :: 0 <= i < |s.events| ==> SourceEvent(s.events[i]))
    && (s.outcome.Success? ==> Paired(s.events))
    && (s.outcome.Failure? ==>
          && |s.events| >= 1
          && Paired(s.events[..|s.events| - 1])
          && s.events[|s.events| - 1] == SourceGenerationStarted(s.outcome.error.source, ManuallyGenerated))
  }

  lemma {:induction false} PairedConcat(a: seq<Event>, b: seq<Event>)
    requires Paired(a) && Paired(b)
    ensures Paired(a + b)
    decreases |a|
  {
    if |a| == 0 {
      assert a + b == b;
    } else {
      PairedConcat(a[2..], b);
      assert (a + b)[2..] == a[2..] + b;
    }
  }

  lemma {:induction false} ExecutedTotalConcat(a: seq<Event>, b: seq<Event>)
    ensures ExecutedTotal(a + b) == ExecutedTotal(a) + ExecutedTotal(b)
    decreases |a|
  {
    if |a| == 0 {
      assert a + b == b;
    } else {
      ExecutedTotalConcat(a[1..], b);
      assert (a + b)[1..] == a[1..] + b;
    }
  }

  lemma ExecutedTotalOfPair(src: Source, kind: GenerationType, n: nat)
    ensures ExecutedTotal([SourceGenerationStarted(src, kind), SourceGenerationExecuted(src, kind, n)]) == n
  {
    var evs := [SourceGenerationStarted(src, kind), SourceGenerationExecuted(src, kind, n)];
    var executed := [SourceGenerationExecuted(src, kind, n)];
    assert executed[1..] == [];
    assert ExecutedTotal(executed) == n;
    assert evs[1..] == executed;
  }

  /** Notifications about schemata only: nothing about the dataset and no run-level notification. */
  predicate AboutSchemata(evs: seq<Event>)
  {
    forall i :: 0 <= i < |evs| ==> SourceEvent(evs[i]) && evs[i].source.Schema?
  }

  lemma ThenKeepsWellFormed(a: Step, b: Step)
    requires WellFormed(a) && WellFormed(b)
    ensures WellFormed(Then(a, b))
  {
    if a.outcome.Success? {
      var evs := a.events + b.events;
      if b.outcome.Success? {
        PairedConcat(a.events, b.events);
      } else {
        assert evs[..|evs| - 1] == a.events + b.events[..|b.events| - 1];
        PairedConcat(a.events, b.events[..|b.events| - 1]);
      }
    }
  }

  lemma AutoPartAccounting(env: Env, s: SchemaSource, cache: Cache)
    ensures var auto := AutoPart(env, s, cache);
            Paired(auto.events) && ExecutedTotal(auto.events) == |auto.tests|
  {
    var auto := AutoPart(env, s, cache);
    if env.config.useAutoTests {
      ExecutedTotalOfPair(Schema(s), AutoGenerated, |auto.tests|);
      assert auto.events[2..] == [];
    }
  }

  lemma ManualPartAccounting(env: Env, src: Source)
    ensures var manual := ManualPart(env, src);
            && (forall i :: 0 <= i < |manual.events| ==> SourceEvent(manual.events[i]) && manual.events[i].source == src)
            && (manual.outcome.Success? ==>
                  Paired(manual.events) && ExecutedTotal(manual.events) == |manual.outcome.value|)
            && (manual.outcome.Failure? ==>
                  manual.events == [SourceGenerationStarted(manual.outcome.error.source, ManuallyGenerated)])
  {
    var manual := ManualPart(env, src);
    if env.config.useManualTests && manual.outcome.Success? {
      ExecutedTotalOfPair(src, ManuallyGenerated, |manual.outcome.value|);
      assert manual.events[2..] == [];
    }
  }

  lemma SchemaStepAccounting(env: Env, s: SchemaSource, cache: Cache)
    ensures WellFormed(SchemaStep(env, s, cache))
    ensures SchemaStep(env, s, cache).outcome.Success? ==>
              |SchemaStep(env, s, cache).outcome.value|
              == ExecutedTotal(SchemaStep(env, s, cache).events) + Unannounced(env, s)
  {
    var r := SchemaStep(env, s, cache);
    if Usable(s) {
      var auto := AutoPart(env, s, cache);
      var manual := ManualPart(env, Schema(s));
      assert r.events == auto.events + manual.events;
      AutoPartAccounting(env, s, cache);
      ManualPartAccounting(env, Schema(s));
      ExecutedTotalConcat(auto.events, manual.events);
      if manual.outcome.Success? {
        PairedConcat(auto.events, manual.events);
      } else {
        assert r.events[..|r.events| - 1] == auto.events;
      }
    }
  }

  /** What the schema loop promises about its notifications and its size. */
  predicate Accounted(env: Env, schemas: seq<SchemaSource>, c: Cancellation, r: Step)
  {
    && WellFormed(r)
    && AboutSchemata(r.events)
    && (r.outcome.Success? ==>
          |r.outcome.value| == ExecutedTotal(r.events) + UnannouncedTotal(env, schemas[..VisitedCount(schemas, c)]))
  }

  /** Every notification of a schema's iteration is a source notification about that very schema. */
  lemma SchemaStepAboutSchema(env: Env, s: SchemaSource, cache: Cache)
    ensures AboutSchemata(SchemaStep(env, s, cache).events)
    ensures var evs := SchemaStep(env, s, cache).events;
            forall i :: 0 <= i < |evs| ==> SourceEvent(evs[i]) && evs[i].source == Schema(s)
  {
  }

  lemma ThenAccounting(env: Env, schemas: seq<SchemaSource>, c: Cancellation, head: Step, tail: Step)
    requires |schemas| > 0 && !c.ObservedBy(0)
    requires WellFormed(head) && AboutSchemata(head.events)
    requires head.outcome.Success? ==>
               |head.outcome.value| == ExecutedTotal(head.events) + Unannounced(env, schemas[0])
    requires Accounted(env, schemas[1..], c.Next(), tail)
    ensures Accounted(env, schemas, c, Then(head, tail))
  {
    ThenKeepsWellFormed(head, tail);
    var r := Then(head, tail);
    if head.outcome.Success? {
      assert r.events == head.events + tail.events;
      ExecutedTotalConcat(head.events, tail.events);
      var visited := schemas[..VisitedCount(schemas, c)];
      assert VisitedCount(schemas, c) == 1 + VisitedCount(schemas[1..], c.Next());
      assert visited[1..] == schemas[1..][..VisitedCount(schemas[1..], c.Next())];
      assert visited[0] == schemas[0];
    }
  }

  /** The schema loop is well formed and announces all of its tests but the SHACL and embedded ones. */
  lemma {:induction false} RunSchemasAccounting(env: Env, schemas: seq<SchemaSource>, c: Cancellation, cache: Cache)
    ensures Accounted(env, schemas, c, RunSchemas(env, schemas, c, cache))
    decreases |schemas|
  {
    if |schemas| == 0 || c.ObservedBy(0) {
      assert schemas[..VisitedCount(schemas, c)] == [];
    } else {
      var head := SchemaStep(env, schemas[0], cache);
      var tail := RunSchemas(env, schemas[1..], c.Next(), head.cache);
      SchemaStepAccounting(env, schemas[0], cache);
      SchemaStepAboutSchema(env, schemas[0], cache);
      RunSchemasAccounting(env, schemas[1..], c.Next(), head.cache);
      ThenAccounting(env, schemas, c, head, tail);
    }
  }

  /** The run-level notifications wrapped around a well-formed body. */
  lemma FinishShape(dataset: TestSource, body: Step)
    requires WellFormed(body)
    ensures var r := Finish(dataset, body);
            && |r.events| >= 2
            && r.events[0] == GenerationStarted(dataset, |dataset.referencedSchemata|)
            && (forall i :: 0 < i < |r.events| - 1 ==> SourceEvent(r.events[i]))
            && (r.outcome.Success? ==>
                  && r.events[|r.events| - 1] == GenerationFinished
                  && Paired(r.events[1..|r.events| - 1])
                  && ExecutedTotal(r.events) == ExecutedTotal(body.events)
                  && r.outcome.value.testCases == body.outcome.value)
            && (r.outcome.Failure? ==>
                  && r.events[|r.events| - 1] == SourceGenerationStarted(r.outcome.error.source, ManuallyGenerated)
                  && Paired(r.events[1..|r.events| - 1]))
  {
    var r := Finish(dataset, body);
    var started := [GenerationStarted(dataset, |dataset.referencedSchemata|)];
    if body.outcome.Success? {
      assert r.events == started + body.events + [GenerationFinished];
      assert r.events[1..|r.events| - 1] == body.events;
      ExecutedTotalConcat(started, body.events);
      ExecutedTotalConcat(started + body.events, [GenerationFinished]);
    } else {
      assert r.events == started + body.events;
      assert r.events[1..|r.events| - 1] == body.events[..|body.events| - 1];
    }
  }

  /** The schema loop followed by the dataset-level lookup. */
  lemma BodyAccounting(env: Env, dataset: TestSource, cancel: Cancellation, cache: Cache)
    ensures var schemas := dataset.referencedSchemata;
            var loop := RunSchemas(env, schemas, cancel, cache);
            var body := Then(loop, DatasetStep(env, dataset, cancel, loop.cache));
            && WellFormed(body)
            && (body.outcome.Success? ==>
                  |body.outcome.value| == ExecutedTotal(body.events) + UnannouncedTotal(env, schemas[..VisitedCount(schemas, cancel)]))
  {
    var schemas := dataset.referencedSchemata;
    var loop := RunSchemas(env, schemas, cancel, cache);
    var tail := DatasetStep(env, dataset, cancel, loop.cache);
    RunSchemasAccounting(env, schemas, cancel, cache);
    ManualPartAccounting(env, Dataset(dataset));
    assert WellFormed(tail);
    ThenKeepsWellFormed(loop, tail);
    if loop.outcome.Success? && tail.outcome.Success? {
      ExecutedTotalConcat(loop.events, tail.events);
    }
  }

  /**
    The notifications of every run: generationStarted with the number of
    schemata (unusable ones included) comes first; in between come only
    start/executed pairs; a run that completes, cancelled or not, ends with
    generationFinished, and the counts it announced plus the SHACL and
    embedded tests of the visited schemata make up the whole suite; a run
    that a lookup error ends stops at that lookup's start notification.
   */
  lemma GenerationTraceShape(e: Executor, testFolder: string, dataset: TestSource,
                             generators: seq<TestGenerator>, st: Strategies, cache: Cache, c: Cancellation)
    ensures var r := GenerateTestSuite(e, testFolder, dataset, generators, st, cache, c);
            && |r.events| >= 2
            && r.events[0] == GenerationStarted(dataset, |dataset.referencedSchemata|)
            && (forall i :: 0 < i < |r.events| - 1 ==> SourceEvent(r.events[i]))
            && (r.outcome.Success? ==>
                  && r.events[|r.events| - 1] == GenerationFinished
                  && Paired(r.events[1..|r.events| - 1]))
            && (r.outcome.Failure? ==>
                  && r.events[|r.events| - 1] == SourceGenerationStarted(r.outcome.error.source, ManuallyGenerated)
                  && Paired(r.events[1..|r.events| - 1]))
    ensures var r := GenerateTestSuite(e, testFolder, dataset, generators, st, cache, c);
            var schemas := dataset.referencedSchemata;
            r.outcome.Success? ==>
              |r.outcome.value.testCases|
              == ExecutedTotal(r.events)
                 + UnannouncedTotal(Env(e.config, testFolder, generators, st),
                                    schemas[..VisitedCount(schemas, Effective(e, c))])
  {
    var env := Env(e.config, testFolder, generators, st);
    var cancel := Effective(e, c);
    var loop := RunSchemas(env, dataset.referencedSchemata, cancel, cache);
    var body := Then(loop, DatasetStep(env, dataset, cancel, loop.cache));
    BodyAccounting(env, dataset, cancel, cache);
    FinishShape(dataset, body);
  }

  /** An error that escapes the schema loop is the failed manual lookup of one of its usable schemata. */
  lemma {:induction false} LoopErrorsComeFromSchemaLookups(env: Env, schemas: seq<SchemaSource>, c: Cancellation, cache: Cache)
    ensures var r := RunSchemas(env, schemas, c, cache);
            r.outcome.Failure? ==>
              && env.config.useManualTests
              && r.outcome.error.source.Schema?
              && r.outcome.error.source.schema in schemas
              && Usable(r.outcome.error.source.schema)
    decreases |schemas|
  {
    if |schemas| > 0 && !c.ObservedBy(0) {
      var head := SchemaStep(env, schemas[0], cache);
      if head.outcome.Success? {
        LoopErrorsComeFromSchemaLookups(env, schemas[1..], c.Next(), head.cache);
      }
    }
  }

  /**
    An error that escapes a run is a failed manual lookup, of a usable
    referenced schema or of the dataset itself; automatic generation, SHACL
    generation and embedded tests never end a run.
   */
  lemma RunErrorsComeFromLookups(e: Executor, testFolder: string, dataset: TestSource,
                                 generators: seq<TestGenerator>, st: Strategies, cache: Cache, c: Cancellation)
    ensures var r := GenerateTestSuite(e, testFolder, dataset, generators, st, cache, c);
            r.outcome.Failure? ==>
              && e.config.useManualTests
              && (|| r.outcome.error.source == Dataset(dataset)
                  || (&& r.outcome.error.source.Schema?
                      && r.outcome.error.source.schema in dataset.referencedSchemata
                      && Usable(r.outcome.error.source.schema)))
  {
    var env := Env(e.config, testFolder, generators, st);
    LoopErrorsComeFromSchemaLookups(env, dataset.referencedSchemata, Effective(e, c), cache);
  }

  /** Every registered monitor receives the notifications of a run exactly once each, in order; no other monitor receives any. */
  lemma EachRegisteredMonitorHearsTheRun(e: Executor, r: Run, m: Monitor)
    requires NoDuplicates(e.monitors)
    ensures Received(Notifications(e, r), m) == if m in e.monitors then r.events else []
  {
    EachMonitorReceivesTheStream(e.monitors, r.events, m);
  }
}
