# rdf4j-cli: the load queue and the command line, modelled in Dafny

The repository is a small command-line client over the RDF4J library. It runs
one SPARQL tuple query over a set of RDF data files. Storage, RDFS inference,
parsing and query evaluation all happen inside RDF4J. This model covers the
two pieces of logic the repository owns itself:

- `SPARQLExecutor` (`executor.dfy`, module `Executor`). It picks a sail
  stack: a memory or native store, wrapped in the forward-chaining RDFS
  inferencer when inference is on. It keeps a FIFO queue (`rdfDataList`) of
  RDF sources that `addRdfData` has declared. `tupleQuery` drains that queue
  into the repository, evaluates the query and copies the result rows into a
  new list. The repository is abstracted to the sequence of sources it holds
  (`committed`). A ghost log (`calls`) records every `add` and
  `prepareTupleQuery` made on a connection.
- `CLI` (`cli.dfy`, module `Cli`). It checks that there are at least two
  arguments and splits them into a query path and data paths. It detects one
  format per data path from its file name, using the ten-entry `RDF_FORMATS`
  table. It queues the data paths in command-line order on a default executor,
  reads the query and runs it.

Library and file-system behaviour is passed in as functions. In the executor
these are `add` and `evaluate`; in the command line they are bundled in `Host`:
- `add` is a connection's `add` on one source. It either adds the source or
  throws. The exception is one of the three that `main` catches
  (`RDFParseException`, `RepositoryException`, `IOException`) or any other
  runtime exception, which leaves `main` uncaught.
- `evaluate` prepares and evaluates a query over the held sources under the
  sail stack. It gives a finite row sequence, or `None` when the query is
  malformed.
- `fileName` is `Path.getFileName`.
- `matchFileName` is `RDFFormat.matchFileName`, called on the ten listed
  formats.
- `toUrl` is the path-to-URL conversion.
- `readTextFile` is the query file read.

`wrappers.dfy` holds `Option`/`Result`. `rdf.dfy` holds the shared values:
formats, URLs, the `RDFData` record, result rows and load errors.

Behaviour of the code worth knowing:
- When `add` fails on a queued source, that source has already been popped
  and is lost. The sources after it stay queued, and the query is not
  evaluated: the exception leaves `tupleQuery`.
- There is no use-after-close guard.
- An unknown file extension does not produce an error naming the extension.
  See "Left out".

## Model

| member | source | states |
|---|---|---|
| `Executor.ConfigureSail` | src/main/java/gr/uoa/di/panosgemos/pms509/hw1/SPARQLExecutor.java:49-63 | the base store is the memory store iff `memoryStore`, otherwise the native store; it is wrapped in the RDFS inferencer iff `inferencing`, and the inferencer wraps that base store directly |
| `Executor.ConfigurationDeterminesFlags` | src/main/java/gr/uoa/di/panosgemos/pms509/hw1/SPARQLExecutor.java:49-63 | two flag pairs build the same sail stack exactly when they are equal, so each configuration is distinct |
| `Executor.SPARQLExecutor.constructor` | src/main/java/gr/uoa/di/panosgemos/pms509/hw1/SPARQLExecutor.java:40-66 | the `(memoryStore, inferencing)` constructor builds the sail stack chosen by both flags, with an empty queue, an empty store and no connection calls |
| `Executor.SPARQLExecutor.WithInferencing` | src/main/java/gr/uoa/di/panosgemos/pms509/hw1/SPARQLExecutor.java:74-76 | the one-flag constructor is the memory store with the given inference flag |
| `Executor.SPARQLExecutor.Default` | src/main/java/gr/uoa/di/panosgemos/pms509/hw1/SPARQLExecutor.java:84-86 | the no-argument constructor is the memory store with inference |
| `Executor.SPARQLExecutor.AddRdfData` | src/main/java/gr/uoa/di/panosgemos/pms509/hw1/SPARQLExecutor.java:102-104 | appends exactly the record `(url, baseUri, format)` at the end of the queue; earlier entries, the store and the call log are unchanged |
| `Executor.SPARQLExecutor.AddRdfDataFromPath` | src/main/java/gr/uoa/di/panosgemos/pms509/hw1/SPARQLExecutor.java:120-123 | the path overload appends exactly the record the URL overload appends for the path's converted URL, and changes nothing else |
| `Executor.Drain` | src/main/java/gr/uoa/di/panosgemos/pms509/hw1/SPARQLExecutor.java:147-150 | the drain loop as a function: the sources handed to `add`, followed by those still queued, are exactly the old queue |
| `Executor.DrainAllAdded` | src/main/java/gr/uoa/di/panosgemos/pms509/hw1/SPARQLExecutor.java:147-150 | if `add` accepts every queued source, each goes to `add` once in FIFO order; the queue ends empty and the store becomes the old store followed by the old queue |
| `Executor.DrainStopsAtFirstFailure` | src/main/java/gr/uoa/di/panosgemos/pms509/hw1/SPARQLExecutor.java:144-150 | if `add` accepts the sources before some source and fails on it: the sources before it are committed; the failing one has been popped but is not committed; the sources after it stay queued in order; only the sources up to and including it reach `add` |
| `Executor.DrainSucceedsIffAllAdded` | src/main/java/gr/uoa/di/panosgemos/pms509/hw1/SPARQLExecutor.java:147-150 | a drain ends without an exception exactly when `add` accepts every queued source (both directions) |
| `Executor.DrainConservesSources` | src/main/java/gr/uoa/di/panosgemos/pms509/hw1/SPARQLExecutor.java:147-150 | no source is duplicated or invented: the old store and queue equal the new store, then the lost source if any, then the remaining queue |
| `Executor.SecondDrainIsIdle` | src/main/java/gr/uoa/di/panosgemos/pms509/hw1/SPARQLExecutor.java:147 | after a drain without failure, a second drain with no `addRdfData` in between makes no `add` call and changes nothing |
| `Executor.SPARQLExecutor.DrainQueue` | src/main/java/gr/uoa/di/panosgemos/pms509/hw1/SPARQLExecutor.java:147-150 | the loop's new store, queue and exception are those of `Drain`, and the call log gains one `add` per attempted source, in order |
| `Executor.SPARQLExecutor.TupleQuery` | src/main/java/gr/uoa/di/panosgemos/pms509/hw1/SPARQLExecutor.java:144-166 | drains first, then `prepareTupleQuery` only when no `add` failed; a load exception leaves the method without any evaluation; a normal return means an empty queue, a store equal to the old store followed by the old queue, and exactly the evaluator's rows over that store |
| `Executor.TupleQueryResult.Next` | src/main/java/gr/uoa/di/panosgemos/pms509/hw1/SPARQLExecutor.java:159-161 | the result cursor's `next` returns the row at the cursor and advances it by one |
| `Executor.CollectBindings` | src/main/java/gr/uoa/di/panosgemos/pms509/hw1/SPARQLExecutor.java:156-163 | the collected list is exactly the cursor's remaining rows, in evaluator order, none dropped or duplicated, and the cursor ends exhausted |
| `Cli.SplitArguments` | src/main/java/gr/uoa/di/panosgemos/pms509/hw1/CLI.java:46-53 | fails with the argument-count error exactly when there are fewer than two arguments; otherwise the query path followed by the data paths is exactly the argument list, with at least one data path |
| `Cli.ExtractFileNames` | src/main/java/gr/uoa/di/panosgemos/pms509/hw1/CLI.java:87-94 | same length as the input, and the i-th name is the last component of the i-th path; the first path without a file name ends it with that path's exception |
| `Cli.ParseRdfFormats` | src/main/java/gr/uoa/di/panosgemos/pms509/hw1/CLI.java:120-133 | succeeds exactly when every path's format is detected; then it has the input's length and the i-th format is the one matched for the i-th path's file name; otherwise it fails with the exception of the first undetected path |
| `Cli.DetectedFormatIsListed` | src/main/java/gr/uoa/di/panosgemos/pms509/hw1/CLI.java:29-41 | when the library's matcher picks from the list it is given, every detected format is one of the ten listed formats; `RunCommandLine` uses it for the formats of the committed sources |
| `Cli.CommittedInCommandLineOrder` | src/main/java/gr/uoa/di/panosgemos/pms509/hw1/CLI.java:54-64 | when every data file loads, the repository holds the data files in command-line order, each with its own detected format |
| `Cli.RunQuery` | src/main/java/gr/uoa/di/panosgemos/pms509/hw1/CLI.java:56-76 | the `try` block on a fresh default executor. In every branch, the records queued are one per data path, in command-line order: that path's URL, a null base URI and the format at the same index. A query file that cannot be read is reported, and nothing is loaded. Otherwise the store, queue, call log and outcome are those of draining the queued records and evaluating the query. A load exception `main` catches is reported by category; any other load exception, and a malformed query, escape |
| `Cli.RunCommandLine` | src/main/java/gr/uoa/di/panosgemos/pms509/hw1/CLI.java:43-78 | fewer than two arguments, or an undetected format, throws before any executor exists, and nothing is queued. Otherwise a default executor queues every data path in order with its own format; a query that cannot be read is reported and nothing is loaded; otherwise the run is the drain and evaluation of `TupleQuery`. Printed rows mean every data file is committed in order with its own format, and that format is one of the ten listed ones when the library's matcher picks from the list it is given |

## Left out

- RDF4J internals. This covers the memory and native stores, the RDFS
  inferencer, RDF parsing inside `add`, and SPARQL preparation and
  evaluation. They appear only through the `add` and `evaluate` parameters,
  and the repository only as the sequence of sources it holds.
- `Files.createTempDir`, `repository.initialize` and `repository.shutDown`.
  These are file-system and library plumbing. `close` is only
  `repository.shutDown()`, with no use-after-close guard, so it is not
  modelled.
- `getConnection`, and closing the connection and the query result. They are
  library calls; their exceptions (`RepositoryException` while opening) are
  not modelled.
- `QueryEvaluationException` thrown by `hasNext`/`next`. Evaluation is a
  finite row sequence that comes out whole.
- `AddRdfDataFromPath`: does not model the `MalformedURLException` or
  `InvalidPathException` of `Paths.get(path).toUri().toURL()`. Conversion is a
  total `toUrl`. On the command line, the same path has already passed
  `Paths.get` in `parseRDFFormats`, and a `file:` URI always forms a URL.
- `Utils.readTextFile` is file I/O. It is the `readTextFile` parameter; its
  `IOException` is the `None` result.
- The printing in `main` (rows to standard output, the three error
  categories to standard error). `RunCommandLine` returns the rows, or the caught
  exception's category, instead.
- `extractFileEndings`, and the message of the unknown-extension exception.
  Both use Java's regex `String.split(".")`. In that regex every character
  other than a line terminator is a delimiter, so the array is too short and
  indexing `[1]` throws `ArrayIndexOutOfBoundsException` instead of the
  intended `IllegalArgumentException` naming the extension. The model reports
  this path as `UnknownFileExtension` with the file name. Java regex
  splitting is not modelled.
- A `null` URL passed to `addRdfData` is not modelled: `Url` is always a value.
- `RDFFormat.matchFileName` is uninterpreted. Its extension tables live in
  RDF4J.
