/**
 * SPARQLExecutor: a repository over a memory or native store, optionally
 * behind the forward-chaining RDFS inferencer, plus a queue of RDF sources
 * that are handed to the repository only when the next tuple query runs.
 */
module Executor {
  import opened Wrappers
  import opened Rdf

  /** The sail stack the repository is built on. */
  datatype Sail = MemoryStore | NativeStore | ForwardChainingRDFSInferencer(baseSail: Sail)

  /** The store at the bottom of a sail stack. */
  function BaseStore(s: Sail): (r: Sail)
  {
    match s
    case ForwardChainingRDFSInferencer(b) => BaseStore(b)
    case _ => s
  }

  /** The sail stack chosen by the two constructor flags. */
  function ConfigureSail(memoryStore: bool, inferencing: bool): (s: Sail)
    ensures s.ForwardChainingRDFSInferencer? <==> inferencing
    ensures BaseStore(s) == if memoryStore then MemoryStore else NativeStore
    ensures inferencing ==> s.baseSail == BaseStore(s)
  {
    var store := if memoryStore then MemoryStore else NativeStore;
    if inferencing then ForwardChainingRDFSInferencer(store) else store
  }

  /** The two flags can be read back from the sail stack they build. */
  lemma ConfigurationDeterminesFlags(m1: bool, i1: bool, m2: bool, i2: bool)
    ensures ConfigureSail(m1, i1) == ConfigureSail(m2, i2) <==> m1 == m2 && i1 == i2
  {
  }

  /** The calls the executor makes on a repository connection. */
  datatype Call = Add(data: RDFData) | Prepare(query: string)

  /** The `add` calls for the given sources, in order. */
  function AddCalls(sources: seq<RDFData>): (cs: seq<Call>)
    ensures |cs| == |sources|
    ensures forall i :: 0 <= i < |sources| ==> cs[i] == Add(sources[i])
  {
    seq(|sources|, i requires 0 <= i < |sources| => Add(sources[i]))
  }

  /** Logging one more `add` call. */
  lemma AddCallsSnoc(sources: seq<RDFData>, data: RDFData)
    ensures AddCalls(sources + [data]) == AddCalls(sources) + [Add(data)]
  {
  }

  /** A source that `add` rejected, with the exception it threw. */
  datatype LoadFailure = LoadFailure(source: RDFData, cause: LoadError)

  /**
   * The state after draining a queue: what the repository holds, what is
   * still queued, which sources were handed to `add` (in order), and the
   * failure that stopped the drain, if any.
   */
  datatype DrainResult = DrainResult(
    committed: seq<RDFData>,
    pending: seq<RDFData>,
    attempted: seq<RDFData>,
    failure: Option<LoadFailure>)

  /**
   * The drain loop of `tupleQuery`: pop the head of the queue and add it;
   * the first exception ends the drain, with the failed source already popped.
   */
  function Drain(committed: seq<RDFData>, pending: seq<RDFData>, add: RDFData -> AddOutcome): (d: DrainResult)
    ensures d.attempted + d.pending == pending
    decreases |pending|
  {
    if pending == [] then DrainResult(committed, [], [], None)
    else
      match add(pending[0])
      case Added =>
        var rest := Drain(committed + [pending[0]], pending[1..], add);
        rest.(attempted := [pending[0]] + rest.attempted)
      case Failed(e) =>
        DrainResult(committed, pending[1..], [pending[0]], Some(LoadFailure(pending[0], e)))
  }

  /** Every source `add` accepts: the queue empties into the repository in FIFO order. */
  lemma {:induction false} DrainAllAdded(committed: seq<RDFData>, pending: seq<RDFData>, add: RDFData -> AddOutcome)
    requires forall i :: 0 <= i < |pending| ==> add(pending[i]).Added?
    ensures Drain(committed, pending, add) == DrainResult(committed + pending, [], pending, None)
    decreases |pending|
  {
    if pending != [] {
      DrainAllAdded(committed + [pending[0]], pending[1..], add);
      assert committed + [pending[0]] + pending[1..] == committed + pending;
    }
  }

  /**
   * `add` accepts the sources `added` and then fails on `bad`: those before
   * it are committed, `bad` is popped and lost, and `rest` stays queued.
   */
  lemma {:induction false} DrainStopsAtFirstFailure(committed: seq<RDFData>, added: seq<RDFData>, bad: RDFData,
                                                    rest: seq<RDFData>, add: RDFData -> AddOutcome)
    requires forall i :: 0 <= i < |added| ==> add(added[i]).Added?
    requires add(bad).Failed?
    ensures Drain(committed, added + [bad] + rest, add) ==
      DrainResult(committed + added, rest, added + [bad], Some(LoadFailure(bad, add(bad).error)))
    decreases |added|
  {
    var pending := added + [bad] + rest;
    if added == [] {
      assert pending[0] == bad && pending[1..] == rest;
    } else {
      assert pending[0] == added[0] && pending[1..] == added[1..] + [bad] + rest;
      DrainStopsAtFirstFailure(committed + [added[0]], added[1..], bad, rest, add);
      assert committed + [added[0]] + added[1..] == committed + added;
      assert [added[0]] + (added[1..] + [bad]) == added + [bad];
    }
  }

  /** A drain ends without failure exactly when `add` accepts every queued source. */
  lemma DrainSucceedsIffAllAdded(committed: seq<RDFData>, pending: seq<RDFData>, add: RDFData -> AddOutcome)
    ensures Drain(committed, pending, add).failure.None? <==>
            forall i :: 0 <= i < |pending| ==> add(pending[i]).Added?
  {
    if forall i :: 0 <= i < |pending| ==> add(pending[i]).Added? {
      DrainAllAdded(committed, pending, add);
    } else {
      var k := FirstFailure(pending, add);
      assert pending == pending[..k] + [pending[k]] + pending[k + 1..];
      DrainStopsAtFirstFailure(committed, pending[..k], pending[k], pending[k + 1..], add);
    }
  }

  /** The index of the first source `add` rejects. */
  function FirstFailure(pending: seq<RDFData>, add: RDFData -> AddOutcome): (k: nat)
    requires exists i :: 0 <= i < |pending| && add(pending[i]).Failed?
    ensures k < |pending| && add(pending[k]).Failed?
    ensures forall i :: 0 <= i < k ==> add(pending[i]).Added?
  {
    if add(pending[0]).Failed? then 0
    else
      assert exists i :: 0 <= i < |pending[1..]| && add(pending[1..][i]).Failed? by {
        var i :| 0 <= i < |pending| && add(pending[i]).Failed?;
        assert pending[1..][i - 1] == pending[i];
      }
      1 + FirstFailure(pending[1..], add)
  }

  /**
   * No source is duplicated or invented: the old store and queue are the new
   * store, then the lost source if there is one, then what is still queued.
   */
  lemma {:induction false} DrainConservesSources(committed: seq<RDFData>, pending: seq<RDFData>, add: RDFData -> AddOutcome)
    ensures var d := Drain(committed, pending, add);
      committed + pending ==
        d.committed + (if d.failure.Some? then [d.failure.value.source] else []) + d.pending
    decreases |pending|
  {
    if pending != [] && add(pending[0]).Added? {
      DrainConservesSources(committed + [pending[0]], pending[1..], add);
      assert committed + [pending[0]] + pending[1..] == committed + pending;
    } else if pending != [] {
      assert [pending[0]] + pending[1..] == pending;
    }
  }

  /** After a drain that did not fail, a second drain hands nothing to `add`. */
  lemma SecondDrainIsIdle(committed: seq<RDFData>, pending: seq<RDFData>, add1: RDFData -> AddOutcome, add2: RDFData -> AddOutcome)
    requires Drain(committed, pending, add1).failure.None?
    ensures var d := Drain(committed, pending, add1);
      Drain(d.committed, d.pending, add2) == DrainResult(committed + pending, [], [], None)
  {
    DrainSucceedsIffAllAdded(committed, pending, add1);
    DrainAllAdded(committed, pending, add1);
  }

  /** The ways a tuple query can end with an exception. */
  datatype QueryError =
    | LoadFailed(source: RDFData, cause: LoadError)  // thrown by `add` while draining
    | MalformedQuery                                // thrown by `prepareTupleQuery`

  /** The result cursor of an evaluated query: a finite row sequence and a position. */
  class TupleQueryResult {
    const rows: seq<BindingSet>
    var position: nat

    ghost predicate Valid()
      reads this
    {
      position <= |rows|
    }

    constructor (rows: seq<BindingSet>)
      ensures Valid() && this.rows == rows && position == 0
    {
      this.rows := rows;
      position := 0;
    }

    predicate HasNext()
      reads this
    {
      position < |rows|
    }

    method Next() returns (b: BindingSet)
      requires Valid() && HasNext()
      modifies this`position
      ensures Valid()
      ensures b == rows[old(position)] && position == old(position) + 1
    {
      b := rows[position];
      position := position + 1;
    }
  }

  class SPARQLExecutor {
    /** The sail stack of the repository. */
    const sail: Sail
    /** The sources the repository holds, in the order they were added. */
    var committed: seq<RDFData>
    /** The queue of sources not yet handed to the repository. */
    var rdfDataList: seq<RDFData>
    /** Every call made on a repository connection so far. */
    ghost var calls: seq<Call>

    /** A memory or native store, wrapped in the inferencer iff `inferencing`. */
    constructor (memoryStore: bool, inferencing: bool)
      ensures sail == ConfigureSail(memoryStore, inferencing)
      ensures committed == [] && rdfDataList == [] && calls == []
    {
      sail := ConfigureSail(memoryStore, inferencing);
      committed, rdfDataList := [], [];
      calls := [];
    }

    /** A memory store, with the given inference flag. */
    constructor WithInferencing(inferencing: bool)
      ensures sail == ConfigureSail(true, inferencing)
      ensures committed == [] && rdfDataList == [] && calls == []
    {
      sail := ConfigureSail(true, inferencing);
      committed, rdfDataList := [], [];
      calls := [];
    }

    /** A memory store with inference. */
    constructor Default()
      ensures sail == ConfigureSail(true, true)
      ensures committed == [] && rdfDataList == [] && calls == []
    {
      sail := ConfigureSail(true, true);
      committed, rdfDataList := [], [];
      calls := [];
    }

    /** Queues one source; the repository is not touched. */
    method AddRdfData(url: Url, baseUri: Option<string>, format: Option<RdfFormat>)
      modifies this`rdfDataList
      ensures rdfDataList == old(rdfDataList) + [RDFData(url, baseUri, format)]
      ensures committed == old(committed) && calls == old(calls)
    {
      rdfDataList := rdfDataList + [RDFData(url, baseUri, format)];
    }

    /** Queues the source at a file path, under the URL the path converts to. */
    method AddRdfDataFromPath(path: string, baseUri: Option<string>, format: Option<RdfFormat>, toUrl: string -> Url)
      modifies this`rdfDataList
      ensures rdfDataList == old(rdfDataList) + [RDFData(toUrl(path), baseUri, format)]
      ensures committed == old(committed) && calls == old(calls)
    {
      AddRdfData(toUrl(path), baseUri, format);
    }

    /**
     * The drain loop: pops each queued source and adds it to the repository,
     * stopping at the first exception.
     */
    method DrainQueue(add: RDFData -> AddOutcome) returns (failure: Option<LoadFailure>)
      modifies this`committed, this`rdfDataList, this`calls
      ensures var d := Drain(old(committed), old(rdfDataList), add);
        && committed == d.committed && rdfDataList == d.pending && failure == d.failure
        && calls == old(calls) + AddCalls(d.attempted)
    {
      ghost var done: seq<RDFData> := [];
      while rdfDataList != []
        invariant done + rdfDataList == old(rdfDataList)
        invariant committed == old(committed) + done
        invariant forall j :: 0 <= j < |done| ==> add(done[j]).Added?
        invariant calls == old(calls) + AddCalls(done)
        decreases |rdfDataList|
      {
        var data := rdfDataList[0];
        assert done + [data] + rdfDataList[1..] == old(rdfDataList);
        rdfDataList := rdfDataList[1..];
        AddCallsSnoc(done, data);
        calls := calls + [Add(data)];
        var outcome := add(data);
        if outcome.Failed? {
          DrainStopsAtFirstFailure(old(committed), done, data, rdfDataList, add);
          return Some(LoadFailure(data, outcome.error));
        }
        done := done + [data];
        committed := committed + [data];
      }
      assert done == old(rdfDataList);
      DrainAllAdded(old(committed), old(rdfDataList), add);
      return None;
    }

    /**
     * Drains the queue into the repository, then evaluates the query over
     * what the repository holds and copies the result rows into a new list.
     */
    method TupleQuery(query: string, add: RDFData -> AddOutcome,
                      evaluate: (Sail, seq<RDFData>, string) -> Option<seq<BindingSet>>)
      returns (r: Result<seq<BindingSet>, QueryError>)
      modifies this
      ensures var d := Drain(old(committed), old(rdfDataList), add);
        && committed == d.committed
        && rdfDataList == d.pending
        && calls == old(calls) + AddCalls(d.attempted) + (if d.failure.None? then [Prepare(query)] else [])
        && r == match d.failure
                case Some(f) => Failure(LoadFailed(f.source, f.cause))
                case None =>
                  match evaluate(sail, committed, query)
                  case None => Failure(MalformedQuery)
                  case Some(rows) => Success(rows)
      ensures r.Success? ==>
        rdfDataList == [] && committed == old(committed) + old(rdfDataList) &&
        r.value == evaluate(sail, committed, query).value
    {
      var failure := DrainQueue(add);
      if failure.Some? {
        return Failure(LoadFailed(failure.value.source, failure.value.cause));
      }
      DrainSucceedsIffAllAdded(old(committed), old(rdfDataList), add);
      DrainAllAdded(old(committed), old(rdfDataList), add);
      calls := calls + [Prepare(query)];
      var prepared := evaluate(sail, committed, query);
      if prepared.None? {
        return Failure(MalformedQuery);
      }
      var result := new TupleQueryResult(prepared.value);
      var bindingSets := CollectBindings(result);
      return Success(bindingSets);
    }
  }

  /** The result-collection loop: copies every remaining row, in order. */
  method CollectBindings(result: TupleQueryResult) returns (bindingSets: seq<BindingSet>)
    requires result.Valid()
    modifies result
    ensures result.Valid() && !result.HasNext()
    ensures bindingSets == result.rows[old(result.position)..]
  {
    bindingSets := [];
    while result.HasNext()
      invariant result.Valid() && old(result.position) <= result.position
      invariant bindingSets == result.rows[old(result.position)..result.position]
      decreases |result.rows| - result.position
    {
      var b := result.Next();
      bindingSets := bindingSets + [b];
    }
  }
}
