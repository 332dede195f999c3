/**
 * `LockFree` is documented as a version of `IDMapper`. Driven by the same
 * calls over sources that give the same sequence of read results, the two
 * return the same replies, and those are the replies of `Cache.Run`.
 */
module Equivalence {
  import opened Errors
  import opened Source
  import opened Cache
  import opened IdMapper
  import opened IdMapperLockFree

  method Lockstep(script: nat -> ReadResult, ops: seq<Op>)
    returns (lockedErr: Option<Error>, lockFreeErr: Option<Error>, locked: seq<Reply>, lockFree: seq<Reply>)
    ensures lockedErr == lockFreeErr == script(0).err
    ensures locked == lockFree
    ensures locked == Run(Constructed(script), script, ops).1
  {
    var lockedSource := new SourceReader(script);
    var lockFreeSource := new SourceReader(script);
    var m;
    m, lockedErr := IDMapper.NewIDMapper(lockedSource);
    var lf;
    lf, lockFreeErr := LockFree.NewLockFree(lockFreeSource);
    locked, lockFree := [], [];
    for i := 0 to |ops|
      invariant m.source == lockedSource && lf.source == lockFreeSource
      invariant m.values == lf.worker.values && lockedSource.calls == lockFreeSource.calls
      invariant Run(Constructed(script), script, ops[..i]) == (CacheState(m.values, lockedSource.calls), locked)
      invariant locked == lockFree
    {
      assert ops[..i + 1][..i] == ops[..i];
      ghost var before := CacheState(m.values, lockedSource.calls);
      var reply, reply';
      match ops[i] {
        case GetOp(key) =>
          var value, found := m.Get(key);
          var value', found' := lf.Get(key);
          reply, reply' := Got(value, found), Got(value', found');
        case ReloadOp =>
          var err := m.Reload();
          var err' := lf.Reload();
          reply, reply' := Reloaded(err), Reloaded(err');
      }
      assert Step(before, script, ops[i]) == (CacheState(m.values, lockedSource.calls), reply);
      locked, lockFree := locked + [reply], lockFree + [reply'];
    }
    assert ops[..|ops|] == ops;
  }
}
