/**
 * The command line: `query-file data-file...`. It checks the argument count,
 * detects each data file's format from its file name, queues the data files
 * on a default executor in command-line order and runs the query once.
 */
module Cli {
  import opened Wrappers
  import opened Rdf
  import opened Executor

  /** The formats the command line recognises, in table order. */
  const RDF_FORMATS: seq<RdfFormat> :=
    [JsonLd, N3, NQuads, NTriples, RdfA, RdfJson, RdfXml, TriG, TriX, Turtle]

  /** The exceptions that leave `main` uncaught. */
  datatype CliError =
    | WrongNumberOfArguments          // fewer than two arguments
    | NoFileName(path: string)        // the path has no last component
    | UnknownFileExtension(fileName: string)  // no listed format matches the file name
    | InvalidQuery(query: string)     // the query text does not parse
    | LoadAborted(source: RDFData)    // `add` threw an exception `main` does not catch

  /** The query path and the data paths of a command line. */
  datatype Invocation = Invocation(queryPath: string, dataFilePaths: seq<string>)

  /**
   * The library and file-system behaviour the command line relies on.
   * `fileName` is the last component of a path (`None` where Java's
   * `getFileName` gives `null`); `matchFileName` is the library's format
   * match of a file name against a list of formats; `toUrl` is a path's
   * `file:` URL; `readTextFile` reads the query (`None` on an I/O error);
   * `add` and `evaluate` are the repository's connection operations.
   */
  datatype Host = Host(
    fileName: string -> Option<string>,
    matchFileName: (string, seq<RdfFormat>) -> Option<RdfFormat>,
    toUrl: string -> Url,
    readTextFile: string -> Option<string>,
    add: RDFData -> AddOutcome,
    evaluate: (Sail, seq<RDFData>, string) -> Option<seq<BindingSet>>)

  /** How a run of `main` ends. */
  datatype MainOutcome =
    | Uncaught(error: CliError)        // an exception escapes `main`
    | Reported(category: LoadError)    // an exception is caught and its category printed
    | Printed(rows: seq<BindingSet>)   // the rows are printed, one per line

  /**
   * The argument check and split: at least two arguments, of which the first
   * is the query path and the rest, in order, the data paths.
   */
  function SplitArguments(args: seq<string>): (r: Result<Invocation, CliError>)
    ensures r.Success? <==> |args| >= 2
    ensures r.Failure? ==> r.error == WrongNumberOfArguments
    ensures r.Success? ==>
      [r.value.queryPath] + r.value.dataFilePaths == args && |r.value.dataFilePaths| >= 1
  {
    if |args| < 2 then Failure(WrongNumberOfArguments)
    else Success(Invocation(args[0], args[1..]))
  }

  /** The file name of a path, or the exception taking it throws. */
  function FileNameOf(path: string, fileName: string -> Option<string>): (r: Result<string, CliError>)
  {
    match fileName(path)
    case None => Failure(NoFileName(path))
    case Some(n) => Success(n)
  }

  /** The last path component of every path, in order. */
  method ExtractFileNames(filePaths: seq<string>, fileName: string -> Option<string>)
    returns (r: Result<seq<string>, CliError>)
    ensures r.Success? <==> forall i :: 0 <= i < |filePaths| ==> fileName(filePaths[i]).Some?
    ensures r.Success? ==>
      |r.value| == |filePaths| &&
      forall i :: 0 <= i < |filePaths| ==> r.value[i] == fileName(filePaths[i]).value
    ensures r.Failure? ==>
      exists k :: 0 <= k < |filePaths| && fileName(filePaths[k]).None? &&
        r.error == NoFileName(filePaths[k]) &&
        forall i :: 0 <= i < k ==> fileName(filePaths[i]).Some?
  {
    var fileNames: seq<string> := [];
    for i := 0 to |filePaths|
      invariant |fileNames| == i
      invariant forall j :: 0 <= j < i ==> fileName(filePaths[j]).Some? && fileNames[j] == fileName(filePaths[j]).value
    {
      var name := FileNameOf(filePaths[i], fileName);
      if name.Failure? {
        return Failure(name.error);
      }
      fileNames := fileNames + [name.value];
    }
    return Success(fileNames);
  }

  /** The format detected for one path, or the exception detecting it throws. */
  function FormatOf(path: string, fileName: string -> Option<string>,
                    matchFileName: (string, seq<RdfFormat>) -> Option<RdfFormat>): (r: Result<RdfFormat, CliError>)
  {
    match fileName(path)
    case None => Failure(NoFileName(path))
    case Some(n) =>
      match matchFileName(n, RDF_FORMATS)
      case None => Failure(UnknownFileExtension(n))
      case Some(f) => Success(f)
  }

  /** Every path's format is detected. */
  predicate AllDetected(filePaths: seq<string>, fileName: string -> Option<string>,
                        matchFileName: (string, seq<RdfFormat>) -> Option<RdfFormat>)
  {
    forall i :: 0 <= i < |filePaths| ==> FormatOf(filePaths[i], fileName, matchFileName).Success?
  }

  /**
   * The format of every path, in order; the first path whose file name is
   * missing or matches no listed format ends it with that path's exception.
   */
  method ParseRdfFormats(filePaths: seq<string>, fileName: string -> Option<string>,
                         matchFileName: (string, seq<RdfFormat>) -> Option<RdfFormat>)
    returns (r: Result<seq<RdfFormat>, CliError>)
    ensures r.Success? <==> AllDetected(filePaths, fileName, matchFileName)
    ensures r.Success? ==>
      |r.value| == |filePaths| &&
      forall i :: 0 <= i < |filePaths| ==> r.value[i] == FormatOf(filePaths[i], fileName, matchFileName).value
    ensures r.Failure? ==>
      exists k :: 0 <= k < |filePaths| && FormatOf(filePaths[k], fileName, matchFileName).Failure? &&
        r.error == FormatOf(filePaths[k], fileName, matchFileName).error &&
        forall i :: 0 <= i < k ==> FormatOf(filePaths[i], fileName, matchFileName).Success?
  {
    var rdfFormats: seq<RdfFormat> := [];
    for i := 0 to |filePaths|
      invariant |rdfFormats| == i
      invariant forall j :: 0 <= j < i ==>
        FormatOf(filePaths[j], fileName, matchFileName).Success? &&
        rdfFormats[j] == FormatOf(filePaths[j], fileName, matchFileName).value
    {
      var name := FileNameOf(filePaths[i], fileName);
      if name.Failure? {
        return Failure(name.error);
      }
      var format := matchFileName(name.value, RDF_FORMATS);
      if format.None? {
        return Failure(UnknownFileExtension(name.value));
      }
      rdfFormats := rdfFormats + [format.value];
    }
    return Success(rdfFormats);
  }

  /** `matchFileName` only ever answers with a member of the list it is given. */
  ghost predicate SelectsFromList(matchFileName: (string, seq<RdfFormat>) -> Option<RdfFormat>)
  {
    forall n, fs :: matchFileName(n, fs).Some? ==> matchFileName(n, fs).value in fs
  }

  /** A detected format is one of the ten listed formats. */
  lemma DetectedFormatIsListed(path: string, fileName: string -> Option<string>,
                               matchFileName: (string, seq<RdfFormat>) -> Option<RdfFormat>)
    requires SelectsFromList(matchFileName)
    requires FormatOf(path, fileName, matchFileName).Success?
    ensures FormatOf(path, fileName, matchFileName).value in RDF_FORMATS
    ensures !FormatOf(path, fileName, matchFileName).value.Other?
  {
  }

  /** The record `main` queues for a data path: its URL, no base URI, its detected format. */
  function PathRecord(path: string, host: Host): (r: RDFData)
    requires FormatOf(path, host.fileName, host.matchFileName).Success?
  {
    RDFData(host.toUrl(path), None, Some(FormatOf(path, host.fileName, host.matchFileName).value))
  }

  /** The records `main` queues for the data paths, in command-line order. */
  function PathRecords(dataFilePaths: seq<string>, host: Host): (rs: seq<RDFData>)
    requires AllDetected(dataFilePaths, host.fileName, host.matchFileName)
    ensures |rs| == |dataFilePaths|
    ensures forall i :: 0 <= i < |dataFilePaths| ==> rs[i] == PathRecord(dataFilePaths[i], host)
  {
    seq(|dataFilePaths|, i requires 0 <= i < |dataFilePaths| => PathRecord(dataFilePaths[i], host))
  }

  /**
   * When every data file loads, the repository ends up holding the data
   * files in command-line order, each with its own detected format.
   */
  lemma CommittedInCommandLineOrder(dataFilePaths: seq<string>, host: Host)
    requires AllDetected(dataFilePaths, host.fileName, host.matchFileName)
    requires Drain([], PathRecords(dataFilePaths, host), host.add).failure.None?
    ensures var committed := Drain([], PathRecords(dataFilePaths, host), host.add).committed;
      |committed| == |dataFilePaths| &&
      forall i :: 0 <= i < |dataFilePaths| ==>
        committed[i] == RDFData(host.toUrl(dataFilePaths[i]), None,
                                Some(FormatOf(dataFilePaths[i], host.fileName, host.matchFileName).value))
  {
    var records := PathRecords(dataFilePaths, host);
    DrainSucceedsIffAllAdded([], records, host.add);
    DrainAllAdded([], records, host.add);
    assert [] + records == records;
  }

  /**
   * `main`: check and split the arguments, detect the formats, then on a
   * fresh default executor queue the data paths, read the query and run it.
   * `exec` is the executor `main` creates, if it gets that far.
   */
  method RunCommandLine(args: seq<string>, host: Host)
    returns (outcome: MainOutcome, ghost exec: SPARQLExecutor?, ghost queued: seq<RDFData>)
    ensures |args| < 2 ==> outcome == Uncaught(WrongNumberOfArguments) && exec == null && queued == []
    ensures |args| >= 2 && !AllDetected(args[1..], host.fileName, host.matchFileName) ==>
      exec == null && queued == [] &&
      exists k :: 1 <= k < |args| && FormatOf(args[k], host.fileName, host.matchFileName).Failure? &&
        outcome == Uncaught(FormatOf(args[k], host.fileName, host.matchFileName).error) &&
        forall i :: 1 <= i < k ==> FormatOf(args[i], host.fileName, host.matchFileName).Success?
    ensures |args| >= 2 && AllDetected(args[1..], host.fileName, host.matchFileName) ==>
      exec != null && fresh(exec) && exec.sail == ConfigureSail(true, true) &&
      |queued| == |args| - 1 &&
      (forall i :: 1 <= i < |args| ==>
        queued[i - 1] == RDFData(host.toUrl(args[i]), None,
                                 Some(FormatOf(args[i], host.fileName, host.matchFileName).value))) &&
      match host.readTextFile(args[0])
      case None =>
        outcome == Reported(InputOutputError) &&
        exec.committed == [] && exec.rdfDataList == queued && exec.calls == []
      case Some(query) =>
        var d := Drain([], queued, host.add);
        exec.committed == d.committed && exec.rdfDataList == d.pending &&
        exec.calls == AddCalls(d.attempted) + (if d.failure.None? then [Prepare(query)] else []) &&
        outcome == match d.failure
                   case Some(f) => if CaughtByMain(f.cause) then Reported(f.cause) else Uncaught(LoadAborted(f.source))
                   case None =>
                     match host.evaluate(exec.sail, d.committed, query)
                     case None => Uncaught(InvalidQuery(query))
                     case Some(rows) => Printed(rows)
    ensures outcome.Printed? ==>
      exec != null && |exec.committed| == |args| - 1 &&
      (forall i :: 1 <= i < |args| ==>
        FormatOf(args[i], host.fileName, host.matchFileName).Success? &&
        exec.committed[i - 1] == RDFData(host.toUrl(args[i]), None,
                                         Some(FormatOf(args[i], host.fileName, host.matchFileName).value))) &&
      host.readTextFile(args[0]).Some? &&
      host.evaluate(exec.sail, exec.committed, host.readTextFile(args[0]).value) == Some(outcome.rows)
    ensures SelectsFromList(host.matchFileName) && outcome.Printed? ==>
      exec != null &&
      forall j :: 0 <= j < |exec.committed| ==>
        exec.committed[j].format.Some? && exec.committed[j].format.value in RDF_FORMATS
  {
    exec, queued := null, [];
    var split := SplitArguments(args);
    if split.Failure? {
      return Uncaught(split.error), null, [];
    }
    var dataFilePaths := split.value.dataFilePaths;
    var queryPath := split.value.queryPath;
    assert dataFilePaths == args[1..];
    var dataRdfFormats := ParseRdfFormats(dataFilePaths, host.fileName, host.matchFileName);
    if dataRdfFormats.Failure? {
      ghost var k :| 0 <= k < |dataFilePaths| &&
        FormatOf(dataFilePaths[k], host.fileName, host.matchFileName).Failure? &&
        dataRdfFormats.error == FormatOf(dataFilePaths[k], host.fileName, host.matchFileName).error &&
        forall i :: 0 <= i < k ==> FormatOf(dataFilePaths[i], host.fileName, host.matchFileName).Success?;
      assert args[k + 1] == dataFilePaths[k];
      assert forall i :: 1 <= i < k + 1 ==> args[i] == dataFilePaths[i - 1];
      return Uncaught(dataRdfFormats.error), null, [];
    }
    ghost var e;
    outcome, e, queued := RunQuery(queryPath, dataFilePaths, dataRdfFormats.value, host);
    exec := e;
    if SelectsFromList(host.matchFileName) && outcome.Printed? {
      forall i | 1 <= i < |args|
        ensures FormatOf(args[i], host.fileName, host.matchFileName).value in RDF_FORMATS
      {
        DetectedFormatIsListed(args[i], host.fileName, host.matchFileName);
      }
    }
  }

  /**
   * The body of `main`'s `try` block: on a fresh default executor, queue
   * each data path with its format, read the query and run it.
   */
  method RunQuery(queryPath: string, dataFilePaths: seq<string>, formats: seq<RdfFormat>, host: Host)
    returns (outcome: MainOutcome, ghost exec: SPARQLExecutor, ghost queued: seq<RDFData>)
    requires AllDetected(dataFilePaths, host.fileName, host.matchFileName)
    requires |formats| == |dataFilePaths|
    requires forall i :: 0 <= i < |dataFilePaths| ==>
      formats[i] == FormatOf(dataFilePaths[i], host.fileName, host.matchFileName).value
    ensures fresh(exec) && exec.sail == ConfigureSail(true, true)
    ensures |queued| == |dataFilePaths|
    ensures forall i :: 0 <= i < |dataFilePaths| ==>
      queued[i] == RDFData(host.toUrl(dataFilePaths[i]), None, Some(formats[i]))
    ensures match host.readTextFile(queryPath)
      case None =>
        outcome == Reported(InputOutputError) &&
        exec.committed == [] && exec.rdfDataList == queued && exec.calls == []
      case Some(query) =>
        var d := Drain([], queued, host.add);
        exec.committed == d.committed && exec.rdfDataList == d.pending &&
        exec.calls == AddCalls(d.attempted) + (if d.failure.None? then [Prepare(query)] else []) &&
        outcome == match d.failure
                   case Some(f) => if CaughtByMain(f.cause) then Reported(f.cause) else Uncaught(LoadAborted(f.source))
                   case None =>
                     match host.evaluate(exec.sail, d.committed, query)
                     case None => Uncaught(InvalidQuery(query))
                     case Some(rows) => Printed(rows)
    ensures outcome.Printed? ==>
      |exec.committed| == |dataFilePaths| &&
      (forall i :: 0 <= i < |dataFilePaths| ==>
        exec.committed[i] == RDFData(host.toUrl(dataFilePaths[i]), None, Some(formats[i]))) &&
      host.readTextFile(queryPath).Some? &&
      host.evaluate(exec.sail, exec.committed, host.readTextFile(queryPath).value) == Some(outcome.rows)
  {
    var e := new SPARQLExecutor.Default();
    exec := e;
    for i := 0 to |dataFilePaths|
      invariant e.sail == ConfigureSail(true, true) && e.committed == [] && e.calls == []
      invariant |e.rdfDataList| == i
      invariant forall j :: 0 <= j < i ==> e.rdfDataList[j] == PathRecord(dataFilePaths[j], host)
    {
      e.AddRdfDataFromPath(dataFilePaths[i], None, Some(formats[i]), host.toUrl);
    }
    queued := e.rdfDataList;
    assert queued == PathRecords(dataFilePaths, host);
    var query := host.readTextFile(queryPath);
    if query.None? {
      return Reported(InputOutputError), exec, queued;
    }
    var results := e.TupleQuery(query.value, host.add, host.evaluate);
    match results
    case Failure(LoadFailed(source, cause)) =>
      outcome := if CaughtByMain(cause) then Reported(cause) else Uncaught(LoadAborted(source));
    case Failure(MalformedQuery) =>
      outcome := Uncaught(InvalidQuery(query.value));
    case Success(rows) =>
      CommittedInCommandLineOrder(dataFilePaths, host);
      outcome := Printed(rows);
  }
}
