/**
 * The values that travel between the command line, the executor and the
 * repository: serialization formats, data locations, queued load records,
 * result rows and the exceptions of a load.
 */
module Rdf {
  import opened Wrappers

  /**
   * RDF4J's serialization formats. The ten named ones are those of the
   * command line's format table; `Other` stands for any further format the
   * library knows, which the executor accepts but the command line never picks.
   */
  datatype RdfFormat =
    | JsonLd | N3 | NQuads | NTriples | RdfA | RdfJson | RdfXml | TriG | TriX | Turtle
    | Other(name: string)

  /** A URL, by its external form. */
  datatype Url = Url(externalForm: string)

  /**
   * One pending load: where the data is, the base URI for relative IRIs
   * (`None` for Java's `null`) and the declared format (`None` for `null`,
   * meaning the library detects it).
   */
  datatype RDFData = RDFData(url: Url, baseUri: Option<string>, format: Option<RdfFormat>)

  /** One variable binding of a result row; the bound value by its string form. */
  datatype Binding = Binding(name: string, value: string)

  /** One result row of a tuple query. */
  datatype BindingSet = BindingSet(bindings: seq<Binding>)

  /**
   * The exceptions a connection's `add` may throw: the three `main` catches
   * (`RDFParseException`, `RepositoryException`, `IOException`) and any
   * other runtime exception, such as a format with no parser available.
   */
  datatype LoadError = RdfParseError | RepositoryError | InputOutputError | OtherRuntimeError

  /** Whether `main` catches and prints the exception. */
  predicate CaughtByMain(e: LoadError)
  {
    !e.OtherRuntimeError?
  }

  /** What one `add` call on the connection does with one source. */
  datatype AddOutcome = Added | Failed(error: LoadError)
}
