/**
  The collaborators the orchestrator calls but does not define: the automatic
  test instantiator, the manual-test lookup, the SHACL translator, the reader of
  test cases embedded in a schema, the cache-location computation and the cache
  storage. Each is a function value, so every property proved about the
  orchestrator holds for every choice of strategy.
 */
module Collaborators {
  import opened Sources

  /** A pattern-based automatic generator handed to the orchestrator. */
  datatype TestGenerator = TestGenerator(uri: string)

  /**
    What the manual-test lookup yields for a source: the tests, the expected
    "no manual tests configured" outcome, or any other failure.
   */
  datatype ManualLookup = Found(tests: seq<TestCase>) | NotConfigured | LookupFailed(reason: string)

  /** The location of a cached collection of automatic tests. */
  type CacheKey = string

  /** Cache storage: a location that is absent cannot be read. */
  type Cache = map<CacheKey, seq<TestCase>>

  datatype Strategies = Strategies(
    /** The instantiator running all automatic generators against one schema. */
    autoGenerate: (seq<TestGenerator>, SchemaSource) -> seq<TestCase>,
    /** The manual-test lookup for a test folder and a source. */
    manualLookup: (string, Source) -> ManualLookup,
    /** Translation of the shape constraints of a schema into tests. */
    shaclGenerate: SchemaSource -> seq<TestCase>,
    /** Test definitions carried verbatim in a schema's model. */
    embeddedTests: Model -> seq<TestCase>,
    /** The cache location derived from the test folder and the schema. */
    cacheLocation: (string, SchemaSource) -> CacheKey
  )
}
