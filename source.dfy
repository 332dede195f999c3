// The data source a mapper reloads from (idmapper/source.go, source.go).
module Source {
  import opened Errors

  /** `ValuesMap`: value ID -> value name. A nil Go map reads like the empty map. */
  type ValuesMap = map<string, string>

  /** What one call of `SourceReader.Read` hands back: a map and an error. */
  datatype ReadResult = ReadResult(values: ValuesMap, err: Option<Error>)

  /**
   * A `SourceReader` seen from the mapper: an oracle whose n-th `Read`
   * (counting from 0) returns `script(n)`. `calls` counts the reads, like
   * the `CallCount` of the testing sources.
   */
  class SourceReader {
    const script: nat -> ReadResult
    var calls: nat

    constructor (script: nat -> ReadResult)
      ensures this.script == script && calls == 0
    {
      this.script := script;
      calls := 0;
    }

    method Read() returns (values: ValuesMap, err: Option<Error>)
      modifies this
      ensures calls == old(calls) + 1
      ensures ReadResult(values, err) == script(old(calls))
    {
      var r := script(calls);
      values, err := r.values, r.err;
      calls := calls + 1;
    }
  }
}
