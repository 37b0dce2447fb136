/**
  The inputs and the output of test generation: the dataset under test, the
  schemata it declares conformance to, the test cases and the test suite.
 */
module Sources {
  import opened Wrappers

  /** An executable test case. The generator never looks inside one; it is identified by its URI. */
  datatype TestCase = TestCase(uri: string)

  /** One statement (triple) of an RDF graph. */
  datatype Statement = Statement(subject: string, property: string, value: string)

  /** A loaded RDF graph. */
  datatype Model = Model(statements: seq<Statement>) {
    predicate IsEmpty() { |statements| == 0 }
  }

  /** A schema document; its model is None when it could not be loaded. */
  datatype SchemaSource = SchemaSource(uri: string, model: Option<Model>)

  /** The dataset under test with the schemata it references, in the order they are resolved. */
  datatype TestSource = TestSource(uri: string, referencedSchemata: seq<SchemaSource>)

  /** Anything manual tests can be looked up for: a schema or the dataset itself. */
  datatype Source = Schema(schema: SchemaSource) | Dataset(dataset: TestSource)

  /** A schema is processed only when its model is present and holds at least one statement. */
  predicate Usable(s: SchemaSource)
  {
    s.model.Some? && !s.model.value.IsEmpty()
  }

  /** The result of one generation run: the test cases in the order they were merged. */
  datatype TestSuite = TestSuite(testCases: seq<TestCase>)
}
