/**
 * The lock-based mapper, `IDMapper` (idmapper/idmapper.go; the root-package
 * idmapper.go holds the same code). The mutex is left out: every call is one
 * atomic step.
 */
module IdMapper {
  import opened Errors
  import opened Source
  import opened Cache

  class IDMapper {
    /** Set once at construction. */
    const source: SourceReader
    /** The current snapshot. */
    var values: ValuesMap

    /** The struct literal: the given source and an empty map. */
    constructor (source: SourceReader)
      ensures this.source == source && values == map[]
    {
      this.source := source;
      values := map[];
    }

    /**
     * Builds a mapper and reloads it once. The mapper is returned even when
     * that reload fails; it then still holds the empty map.
     */
    static method NewIDMapper(source: SourceReader) returns (mapper: IDMapper, err: Option<Error>)
      modifies source
      ensures fresh(mapper) && mapper.source == source
      ensures source.calls == old(source.calls) + 1
      ensures err == source.script(old(source.calls)).err
      ensures err.Some? ==> mapper.values == map[]
      ensures err.None? ==> mapper.values == source.script(old(source.calls)).values
    {
      mapper := new IDMapper(source);
      err := mapper.Reload();
    }

    /** Exact-key lookup in the current snapshot; ("", false) when the key is absent. */
    method Get(id: string) returns (value: string, found: bool)
      ensures found <==> id in values
      ensures found ==> value == values[id]
      ensures !found ==> value == ""
    {
      found := id in values;
      value := if found then values[id] else "";
    }

    /**
     * Reads the source once. A failed read returns its error and keeps the
     * old snapshot (a map returned beside the error is dropped); a
     * successful one replaces the snapshot by the fetched map.
     */
    method Reload() returns (err: Option<Error>)
      modifies this, source
      ensures source.calls == old(source.calls) + 1
      ensures err == source.script(old(source.calls)).err
      ensures err.Some? ==> values == old(values)
      ensures err.None? ==> values == source.script(old(source.calls)).values
    {
      var newValues;
      newValues, err := source.Read();
      if err.Some? {
        return;
      }
      values := newValues;
    }
  }

  /**
   * Construction from a source whose first read gives `first`, then a
   * lookup: the read's error is returned, and the lookup sees the fetched
   * map on success and the empty map on failure.
   */
  method NewThenGet(first: ReadResult, key: string) returns (err: Option<Error>, value: string, found: bool)
    ensures err == first.err
    ensures first.err.None? ==> Got(value, found) == Lookup(first.values, key)
    ensures first.err.Some? ==> !found && value == ""
  {
    var source := new SourceReader(_ => first);
    var mapper;
    mapper, err := IDMapper.NewIDMapper(source);
    value, found := mapper.Get(key);
  }

  /**
   * Keys match exactly, without trimming: with the map of the tests, "" and
   * " c " are found with their names, while "x", "y", "a " and " b" are not.
   */
  method ExactKeys() returns (hits: seq<Reply>, misses: seq<bool>)
    ensures hits == [Got("space", true), Got("A", true), Got("B", true), Got(" C ", true)]
    ensures misses == [false, false, false, false]
  {
    var values := map["" := "space", "a" := "A", "b" := "B", " c " := " C "];
    var source := new SourceReader(_ => ReadResult(values, None));
    var mapper, _ := IDMapper.NewIDMapper(source);
    hits := [];
    var keys := ["", "a", "b", " c "];
    for i := 0 to |keys|
      invariant mapper.values == values
      invariant |hits| == i
      invariant forall j :: 0 <= j < i ==> hits[j] == Got(values[keys[j]], true)
    {
      var value, found := mapper.Get(keys[i]);
      hits := hits + [Got(value, found)];
    }
    misses := [];
    keys := ["x", "y", "a ", " b"];
    for i := 0 to |keys|
      invariant mapper.values == values
      invariant |misses| == i
      invariant forall j :: 0 <= j < i ==> !misses[j]
    {
      var _, found := mapper.Get(keys[i]);
      misses := misses + [found];
    }
  }

  /**
   * Construction plus one reload from a source that always returns the same
   * map: the source is read exactly twice and every lookup is the same
   * before and after the reload.
   */
  method ReloadUnchangedSource(values: ValuesMap, key: string) returns (before: Reply, after: Reply, readCount: nat)
    ensures before == after == Lookup(values, key)
    ensures readCount == 2
  {
    var source := new SourceReader(_ => ReadResult(values, None));
    var mapper, _ := IDMapper.NewIDMapper(source);
    var value, found := mapper.Get(key);
    before := Got(value, found);
    var _ := mapper.Reload();
    value, found := mapper.Get(key);
    after := Got(value, found);
    readCount := source.calls;
  }

  /**
   * A successful reload drops keys missing from the fetched map: built from
   * {"a": "A", "b": "B"} and reloaded from {"a": "A2"}, the mapper answers
   * "a" with "A2" and no longer finds "b".
   */
  method ReplaceSnapshot() returns (replies: seq<Reply>)
    ensures replies == [Got("A", true), Got("", false), Reloaded(None), Got("A2", true), Got("", false)]
  {
    var first := map["a" := "A", "b" := "B"];
    var second := map["a" := "A2"];
    var source := new SourceReader(n => ReadResult(if n == 0 then first else second, None));
    var mapper, _ := IDMapper.NewIDMapper(source);
    var a, foundA := mapper.Get("a");
    var z, foundZ := mapper.Get("z");
    var err := mapper.Reload();
    var a2, foundA2 := mapper.Get("a");
    var b, foundB := mapper.Get("b");
    replies := [Got(a, foundA), Got(z, foundZ), Reloaded(err), Got(a2, foundA2), Got(b, foundB)];
  }
}
