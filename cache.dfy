/**
 * The contract both mapper variants implement, as values: a snapshot of
 * ID -> name, served by exact-key lookup and replaced wholesale by a
 * successful reload. Each public call is one atomic step.
 */
module Cache {
  import opened Errors
  import opened Source

  /** The mapper's public calls. */
  datatype Op = GetOp(key: string) | ReloadOp

  /** What a call returns: `Get`'s (name, found) pair, or `Reload`'s error. */
  datatype Reply = Got(value: string, found: bool) | Reloaded(err: Option<Error>)

  /** The observable state: the current snapshot and how many reads the source has served. */
  datatype CacheState = CacheState(values: ValuesMap, readCount: nat)

  /** Go's `values[id]` with the comma-ok form: the zero string when the key is absent. */
  function Lookup(values: ValuesMap, key: string): (r: Reply)
  {
    if key in values then Got(values[key], true) else Got("", false)
  }

  /** The snapshot kept after a read: the fetched map if the read succeeded, else the old one. */
  function Install(values: ValuesMap, r: ReadResult): (kept: ValuesMap)
  {
    if r.err.None? then r.values else values
  }

  /** One call against the state; a reload consumes the source's next result. */
  function Step(s: CacheState, script: nat -> ReadResult, op: Op): (r: (CacheState, Reply))
  {
    match op
    case GetOp(key) => (s, Lookup(s.values, key))
    case ReloadOp =>
      var r := script(s.readCount);
      (CacheState(Install(s.values, r), s.readCount + 1), Reloaded(r.err))
  }

  /** The empty map both constructors start from, before their first reload. */
  const Initial := CacheState(map[], 0)

  /** The state a constructor leaves: the initial empty map after one reload. */
  function Constructed(script: nat -> ReadResult): (s: CacheState)
  {
    Step(Initial, script, ReloadOp).0
  }

  /** A sequence of calls, in order: the final state and one reply per call. */
  function Run(s: CacheState, script: nat -> ReadResult, ops: seq<Op>): (r: (CacheState, seq<Reply>))
    decreases |ops|
  {
    if ops == [] then (s, [])
    else
      var before := Run(s, script, ops[..|ops| - 1]);
      var after := Step(before.0, script, ops[|ops| - 1]);
      (after.0, before.1 + [after.1])
  }

  /** How many of the calls are reloads. */
  function Reloads(ops: seq<Op>): (n: nat)
    decreases |ops|
  {
    if ops == [] then 0
    else Reloads(ops[..|ops| - 1]) + (if ops[|ops| - 1].ReloadOp? then 1 else 0)
  }

  /**
   * The most recent successful snapshot among reads `first` .. `last - 1`,
   * or `init` when every one of them failed (or there were none).
   */
  function LatestGood(init: ValuesMap, script: nat -> ReadResult, first: nat, last: nat): (snapshot: ValuesMap)
    requires first <= last
    decreases last
  {
    if last == first then init
    else if script(last - 1).err.None? then script(last - 1).values
    else LatestGood(init, script, first, last - 1)
  }

  /** Every reload reads the source exactly once and every call gets exactly one reply. */
  lemma {:induction false} RunReads(s: CacheState, script: nat -> ReadResult, ops: seq<Op>)
    ensures Run(s, script, ops).0.readCount == s.readCount + Reloads(ops)
    ensures |Run(s, script, ops).1| == |ops|
    decreases |ops|
  {
    if ops != [] {
      RunReads(s, script, ops[..|ops| - 1]);
    }
  }

  /**
   * Stale but available: after any calls, the snapshot is the one fetched by
   * the most recent successful read, and failed reads leave it untouched.
   */
  lemma {:induction false} RunServesLatestGood(s: CacheState, script: nat -> ReadResult, ops: seq<Op>)
    ensures Run(s, script, ops).0.readCount == s.readCount + Reloads(ops)
    ensures Run(s, script, ops).0.values == LatestGood(s.values, script, s.readCount, s.readCount + Reloads(ops))
    decreases |ops|
  {
    if ops != [] {
      RunServesLatestGood(s, script, ops[..|ops| - 1]);
    }
  }

  /** The i-th reply is the i-th call's step from the state the earlier calls left. */
  lemma {:induction false} RunReplyAt(s: CacheState, script: nat -> ReadResult, ops: seq<Op>, i: nat)
    requires i < |ops|
    ensures |Run(s, script, ops).1| == |ops|
    ensures Run(s, script, ops).1[i] == Step(Run(s, script, ops[..i]).0, script, ops[i]).1
    decreases |ops|
  {
    var pre := ops[..|ops| - 1];
    RunReads(s, script, ops);
    RunReads(s, script, pre);
    if i < |pre| {
      RunReplyAt(s, script, pre, i);
      assert pre[..i] == ops[..i];
    } else {
      assert pre == ops[..i];
    }
  }

  /**
   * Every `Get` in a sequence of calls answers from the most recent
   * successful snapshot before it: found with that snapshot's name when the
   * key is in it, ("", false) when it is not.
   */
  lemma GetServesLatestGood(s: CacheState, script: nat -> ReadResult, ops: seq<Op>, i: nat)
    requires i < |ops| && ops[i].GetOp?
    ensures |Run(s, script, ops).1| == |ops|
    ensures var snapshot := LatestGood(s.values, script, s.readCount, s.readCount + Reloads(ops[..i]));
      Run(s, script, ops).1[i] == Got(if ops[i].key in snapshot then snapshot[ops[i].key] else "", ops[i].key in snapshot)
  {
    RunReplyAt(s, script, ops, i);
    RunServesLatestGood(s, script, ops[..i]);
  }
}
