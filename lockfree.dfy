/**
 * The actor mapper, `LockFree` (idmapper/idmapper_lockfree.go): a worker
 * owns the snapshot and serves two kinds of messages. Each channel exchange
 * is one atomic step: a send to the worker is a call of its handler.
 */
module IdMapperLockFree {
  import opened Errors
  import opened Source
  import opened Cache

  /** The reply to a lookup request (Go's `result`). */
  datatype Result = Result(value: string, found: bool)

  /** A lookup request (Go's `request`); its reply channel is the handler's return value. */
  datatype Request = Request(key: string)

  /** The state of the `server` goroutine: its local `values` map. */
  class Worker {
    var values: ValuesMap

    /** The worker starts with an empty map. */
    constructor ()
      ensures values == map[]
    {
      values := map[];
    }

    /** The `requests` case: answers from the local map and leaves it as it is. */
    method ServeRequest(req: Request) returns (res: Result)
      ensures res.found <==> req.key in values
      ensures res.found ==> res.value == values[req.key]
      ensures !res.found ==> res.value == ""
    {
      var found := req.key in values;
      res := Result(if found then values[req.key] else "", found);
    }

    /** The `reload` case: the delivered map replaces the local one wholesale. */
    method ServeReload(reloadedValues: ValuesMap)
      modifies this
      ensures values == reloadedValues
    {
      values := reloadedValues;
    }
  }

  class LockFree {
    const source: SourceReader
    /** The worker the `requests` and `reload` channels lead to. */
    const worker: Worker

    /** The struct literal plus `go server(done)`: a fresh worker with an empty map. */
    constructor (source: SourceReader)
      ensures this.source == source && fresh(worker) && worker.values == map[]
    {
      this.source := source;
      worker := new Worker();
    }

    /** Starts the worker and reloads once; the read's error is returned. */
    static method NewLockFree(source: SourceReader) returns (mapper: LockFree, err: Option<Error>)
      modifies source
      ensures fresh(mapper) && fresh(mapper.worker) && mapper.source == source
      ensures source.calls == old(source.calls) + 1
      ensures err == source.script(old(source.calls)).err
      ensures err.Some? ==> mapper.worker.values == map[]
      ensures err.None? ==> mapper.worker.values == source.script(old(source.calls)).values
    {
      mapper := new LockFree(source);
      err := mapper.Reload();
    }

    /** Sends a request for `id` and returns the worker's answer. */
    method Get(id: string) returns (value: string, found: bool)
      ensures found <==> id in worker.values
      ensures found ==> value == worker.values[id]
      ensures !found ==> value == ""
    {
      var res := worker.ServeRequest(Request(id));
      value, found := res.value, res.found;
    }

    /**
     * Reads the source once. On failure returns the error and sends nothing,
     * so the worker's map is unchanged; on success delivers exactly the
     * fetched map to the worker.
     */
    method Reload() returns (err: Option<Error>)
      modifies worker, source
      ensures source.calls == old(source.calls) + 1
      ensures err == source.script(old(source.calls)).err
      ensures err.Some? ==> worker.values == old(worker.values)
      ensures err.None? ==> worker.values == source.script(old(source.calls)).values
    {
      var newValues;
      newValues, err := source.Read();
      if err.Some? {
        return;
      }
      worker.ServeReload(newValues);
    }
  }

  /**
   * Construction plus one reload from a source that always returns the same
   * map: two reads, and the same answer to a lookup before and after.
   */
  method ReloadUnchangedSource(values: ValuesMap, key: string) returns (before: Reply, after: Reply, readCount: nat)
    ensures before == after == Lookup(values, key)
    ensures readCount == 2
  {
    var source := new SourceReader(_ => ReadResult(values, None));
    var mapper, _ := LockFree.NewLockFree(source);
    var value, found := mapper.Get(key);
    before := Got(value, found);
    var _ := mapper.Reload();
    value, found := mapper.Get(key);
    after := Got(value, found);
    readCount := source.calls;
  }
}
