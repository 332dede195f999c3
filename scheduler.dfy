/**
 * The periodic scheduler (scheduler/scheduler.go). Goroutines, tickers and
 * channels are abstracted: each call is one atomic step, the runners are
 * ghost bookkeeping (which item's runner was launched, which one was sent its
 * `done` signal), and a runner's ticker is a logical clock.
 */
module Scheduler {
  import opened Errors

  /** Go's `time.Duration`, in nanoseconds. */
  type Duration = int

  const Millisecond: Duration := 1_000_000
  const Second: Duration := 1000 * Millisecond

  /** The error `Add` returns while the scheduler runs. */
  const AlreadyRunningMessage := "unable to add item to scheduler: scheduler is already running"

  /**
   * A job. `Run` is opaque to the scheduler, so a job is known only by an
   * identity: a value implementing `Job`, or a plain function wrapped by the
   * `JobFunc` adapter.
   */
  datatype Job = Job(id: nat) | JobFunc(fn: nat)

  /** A registered job and the interval between two of its runs. */
  datatype Item = Item(job: Job, duration: Duration)

  /** The indices 0, 1, ..., n - 1: the order in which runners are launched and signalled. */
  function Indices(n: nat): (r: seq<nat>)
    ensures |r| == n
    ensures forall k :: 0 <= k < n ==> r[k] == k
  {
    if n == 0 then [] else Indices(n - 1) + [n - 1]
  }

  /** Each index below n occurs once in `Indices(n)`, and no other number occurs. */
  lemma {:induction false} IndicesCount(n: nat, k: nat)
    ensures multiset(Indices(n))[k] == if k < n then 1 else 0
  {
    if n > 0 {
      IndicesCount(n - 1, k);
    }
  }

  /**
   * The scheduler's state as a value. `isRunning` is the int32 flag;
   * `launches` lists, in order, the item indices `runItem` started a runner
   * for, and `signals` the item indices `Stop` sent a `done` to.
   */
  datatype State = State(items: seq<Item>, isRunning: int, launches: seq<nat>, signals: seq<nat>)

  /** The runners of item k still alive: started and not yet told to stop. */
  function LiveRunners(s: State, k: nat): (n: int)
  {
    multiset(s.launches)[k] as int - multiset(s.signals)[k] as int
  }

  /**
   * The invariant the public calls keep: the flag is 0 or 1; runners only
   * ever exist for registered items; every item has exactly one live runner
   * while running and none while stopped (no double scheduling, no leaked
   * ticker); in all, |items| runners live while running and none otherwise.
   */
  ghost predicate Inv(s: State)
  {
    && (s.isRunning == 0 || s.isRunning == 1)
    && (forall k :: k in s.launches ==> k < |s.items|)
    && (forall k :: k in s.signals ==> k < |s.items|)
    && (forall k: nat :: k < |s.items| ==> LiveRunners(s, k) == s.isRunning)
    && |s.launches| - |s.signals| == (if s.isRunning == 1 then |s.items| else 0)
  }

  /** `time.NewTicker` panics on a non-positive interval, so `Start` needs positive ones. */
  predicate PositiveDurations(items: seq<Item>)
  {
    forall k :: 0 <= k < |items| ==> items[k].duration > 0
  }

  /** `Add`: refused while running, otherwise appends one item. */
  function AddStep(s: State, job: Job, duration: Duration): (r: (State, Option<Error>))
  {
    if s.isRunning == 1 then (s, Some(Error(AlreadyRunningMessage)))
    else (s.(items := s.items + [Item(job, duration)]), None)
  }

  /** `Start`: a no-op while running, otherwise sets the flag and launches a runner per item, in order. */
  function StartStep(s: State): (t: State)
  {
    if s.isRunning == 1 then s
    else s.(isRunning := 1, launches := s.launches + Indices(|s.items|))
  }

  /** `Stop`: a no-op unless running, otherwise signals every item's runner, in order, and clears the flag. */
  function StopStep(s: State): (t: State)
  {
    if s.isRunning != 1 then s
    else s.(isRunning := 0, signals := s.signals + Indices(|s.items|))
  }

  /** The zero `Scheduler{}`: no items, stopped, no runner ever launched. */
  const Zero := State([], 0, [], [])

  lemma ZeroInv()
    ensures Inv(Zero)
  {
    assert LiveRunners(Zero, 0) == 0;
  }

  lemma {:induction false} AddPreservesInv(s: State, job: Job, duration: Duration)
    requires Inv(s)
    ensures Inv(AddStep(s, job, duration).0)
  {
    var t := AddStep(s, job, duration).0;
    var n := |s.items|;
    assert n !in s.launches && n !in s.signals;
    forall k: nat | k < |t.items|
      ensures LiveRunners(t, k) == t.isRunning
    {
      if k < n {
        assert LiveRunners(s, k) == s.isRunning;
      }
    }
  }

  lemma {:induction false} StartPreservesInv(s: State)
    requires Inv(s)
    ensures Inv(StartStep(s))
  {
    var t := StartStep(s);
    forall k: nat | k < |t.items|
      ensures LiveRunners(t, k) == t.isRunning
    {
      assert LiveRunners(s, k) == s.isRunning;
      IndicesCount(|s.items|, k);
    }
  }

  lemma {:induction false} StopPreservesInv(s: State)
    requires Inv(s)
    ensures Inv(StopStep(s))
  {
    var t := StopStep(s);
    forall k: nat | k < |t.items|
      ensures LiveRunners(t, k) == t.isRunning
    {
      assert LiveRunners(s, k) == s.isRunning;
      IndicesCount(|s.items|, k);
    }
  }

  /**
   * Starting three times and then stopping three times is one start and one
   * stop: every item got exactly one runner and exactly one `done` signal, the
   * items are kept, and `Add` succeeds again afterwards.
   */
  lemma {:induction false} StartStopThrice(s: State, job: Job, duration: Duration)
    requires Inv(s) && s.isRunning == 0
    ensures var once := StopStep(StartStep(s));
      && StopStep(StopStep(StopStep(StartStep(StartStep(StartStep(s)))))) == once
      && once.items == s.items && once.isRunning == 0
      && (forall k: nat :: k < |s.items| ==>
            && multiset(once.launches)[k] == multiset(s.launches)[k] + 1
            && multiset(once.signals)[k] == multiset(s.signals)[k] + 1)
      && AddStep(once, job, duration) == (once.(items := s.items + [Item(job, duration)]), None)
  {
    forall k: nat | k < |s.items| {
      IndicesCount(|s.items|, k);
    }
  }

  class Scheduler {
    var items: seq<Item>
    /** 1 while running, 0 while stopped. */
    var isRunning: int
    ghost var launches: seq<nat>
    ghost var signals: seq<nat>

    ghost function Abstract(): State
      reads this
    {
      State(items, isRunning, launches, signals)
    }

    ghost predicate Valid()
      reads this
    {
      Inv(Abstract())
    }

    constructor ()
      ensures Valid() && Abstract() == Zero
    {
      items, isRunning := [], 0;
      launches, signals := [], [];
      ZeroInv();
    }

    /** True exactly when the flag is 1. */
    method IsRunning() returns (running: bool)
      ensures running <==> isRunning == 1
    {
      running := isRunning == 1;
    }

    /** Stores 1 for true and 0 for false. */
    method SetIsRunning(running: bool)
      modifies this`isRunning
      ensures isRunning == if running then 1 else 0
    {
      isRunning := if running then 1 else 0;
    }

    /**
     * Refused while running: returns the "already running" error and keeps
     * the items. Otherwise appends the job with its interval after the
     * earlier items and returns nil.
     */
    method Add(job: Job, duration: Duration) returns (err: Option<Error>)
      requires Valid()
      modifies this`items
      ensures Valid()
      ensures old(isRunning) == 1 ==> err == Some(Error(AlreadyRunningMessage)) && items == old(items)
      ensures old(isRunning) != 1 ==> err == None && items == old(items) + [Item(job, duration)]
      ensures (Abstract(), err) == AddStep(old(Abstract()), job, duration)
    {
      var running := IsRunning();
      if running {
        return Some(Error(AlreadyRunningMessage));
      }
      items := items + [Item(job, duration)];
      err := None;
      AddPreservesInv(old(Abstract()), job, duration);
    }

    /** `Add` of the function wrapped as a `JobFunc`. */
    method AddFunc(fn: nat, duration: Duration) returns (err: Option<Error>)
      requires Valid()
      modifies this`items
      ensures Valid()
      ensures (Abstract(), err) == AddStep(old(Abstract()), JobFunc(fn), duration)
    {
      err := Add(JobFunc(fn), duration);
    }

    /**
     * A no-op while running. Otherwise sets the flag and launches exactly one
     * runner per item, in index order.
     */
    method Start()
      requires Valid()
      requires isRunning != 1 ==> PositiveDurations(items)
      modifies this
      ensures Valid()
      ensures Abstract() == StartStep(old(Abstract()))
    {
      var running := IsRunning();
      if running {
        return;
      }
      SetIsRunning(true);
      for i := 0 to |items|
        invariant items == old(items) && isRunning == 1 && signals == old(signals)
        invariant launches == old(launches) + Indices(i)
      {
        RunItem(i);
      }
      StartPreservesInv(old(Abstract()));
    }

    /**
     * A no-op unless running. Otherwise sends every item's runner its `done`
     * signal, in index order, then clears the flag. The items are kept.
     */
    method Stop()
      requires Valid()
      modifies this
      ensures Valid()
      ensures Abstract() == StopStep(old(Abstract()))
    {
      var running := IsRunning();
      if !running {
        return;
      }
      for i := 0 to |items|
        invariant items == old(items) && isRunning == 1 && launches == old(launches)
        invariant signals == old(signals) + Indices(i)
      {
        signals := signals + [i];
      }
      SetIsRunning(false);
      StopPreservesInv(old(Abstract()));
    }

    /** Launches the runner of one item; its ticker needs a positive interval. */
    method RunItem(index: nat)
      requires index < |items| && items[index].duration > 0
      modifies this`launches
      ensures launches == old(launches) + [index]
    {
      launches := launches + [index];
    }
  }

  /**
   * The ticks of an interval-d ticker started at time 0 that have fired by
   * time t: one at each of d, 2d, 3d, ... up to t.
   */
  function Ticks(d: Duration, t: nat): (n: nat)
    requires d > 0
    decreases t
  {
    if t < d then 0 else 1 + Ticks(d, t - d)
  }

  /** A runner stopped at time t has run its job floor(t / d) times. */
  lemma {:induction false} TicksIsQuotient(d: Duration, t: nat)
    requires d > 0
    ensures Ticks(d, t) == t / d
    decreases t
  {
    if t >= d {
      TicksIsQuotient(d, t - d);
      var q, r := (t - d) / d, (t - d) % d;
      assert t - d == q * d + r && 0 <= r < d;
      assert t == (q + 1) * d + r;
      DivUnique(t, d, q + 1, r);
    }
  }

  /** Division is determined by quotient and remainder. */
  lemma DivUnique(t: int, d: int, q: int, r: int)
    requires d > 0 && 0 <= r < d && t == q * d + r
    ensures t / d == q
  {
    var q', r' := t / d, t % d;
    assert (q' - q) * d == r - r';
    MulSign(q' - q, d);
  }

  /** A nonzero multiple of d is at least d away from 0. */
  lemma {:induction false} MulSign(e: int, d: int)
    requires d > 0
    ensures e >= 1 ==> e * d >= d
    ensures e <= -1 ==> e * d <= -d
    decreases if e < 0 then -e else e
  {
    if e > 1 {
      MulSign(e - 1, d);
      assert e * d == (e - 1) * d + d;
    } else if e < -1 {
      MulSign(e + 1, d);
      assert e * d == (e + 1) * d - d;
    }
  }

  /**
   * The runner's `for`/`select` loop on a logical clock: a tick that fires no
   * later than the `done` signal (sent at `stoppedAt`) runs the job once, and
   * `done` ends the loop. Returns how often the job ran.
   */
  method RunnerLoop(duration: Duration, stoppedAt: nat) returns (runs: nat)
    requires duration > 0
    ensures runs == Ticks(duration, stoppedAt)
    ensures runs == stoppedAt / duration
  {
    var now := 0;
    runs := 0;
    while now + duration <= stoppedAt
      invariant now <= stoppedAt
      invariant runs + Ticks(duration, stoppedAt - now) == Ticks(duration, stoppedAt)
      decreases stoppedAt - now
    {
      now := now + duration;
      runs := runs + 1;
    }
    TicksIsQuotient(duration, stoppedAt);
  }

  /**
   * The timings of the scheduler tests: 1s stopped at 2.5s runs twice;
   * 100ms stopped at 350ms runs three times; stopped at 1950ms, intervals
   * of 100ms, 200ms, 500ms, 1s, 2s and 5s run 19, 9, 3, 1, 0 and 0 times.
   */
  lemma TestTimings()
    ensures Ticks(Second, 2500 * Millisecond) == 2
    ensures Ticks(100 * Millisecond, 350 * Millisecond) == 3
    ensures var stop := 1950 * Millisecond;
      [Ticks(100 * Millisecond, stop), Ticks(200 * Millisecond, stop), Ticks(500 * Millisecond, stop),
       Ticks(Second, stop), Ticks(2 * Second, stop), Ticks(5 * Second, stop)] == [19, 9, 3, 1, 0, 0]
  {
    TicksIsQuotient(Second, 2500 * Millisecond);
    TicksIsQuotient(100 * Millisecond, 350 * Millisecond);
    var stop := 1950 * Millisecond;
    TicksIsQuotient(100 * Millisecond, stop);
    TicksIsQuotient(200 * Millisecond, stop);
    TicksIsQuotient(500 * Millisecond, stop);
    TicksIsQuotient(Second, stop);
    TicksIsQuotient(2 * Second, stop);
    TicksIsQuotient(5 * Second, stop);
  }

  /**
   * The "already running" test on the state machine: one job added, three
   * starts, a second `AddFunc` refused with the error and no effect, three
   * stops. The one job got exactly one runner and one `done`; the refused
   * job never got a runner.
   */
  lemma AlreadyRunningScenario()
    ensures var added := AddStep(Zero, JobFunc(1), 100 * Millisecond).0;
      var started := StartStep(StartStep(StartStep(added)));
      var refused := AddStep(started, JobFunc(2), 100 * Millisecond);
      var stopped := StopStep(StopStep(StopStep(refused.0)));
      && refused == (started, Some(Error(AlreadyRunningMessage)))
      && stopped.items == [Item(JobFunc(1), 100 * Millisecond)]
      && stopped.launches == [0] && stopped.signals == [0] && stopped.isRunning == 0
  {
  }

  /**
   * The "already running" test driven through the class: the `AddFunc`
   * between the starts and the stops is refused with the error, the
   * scheduler ends stopped with its one item, and a later `Add` succeeds.
   */
  method AlreadyRunning() returns (refused: Option<Error>, running: bool, itemCount: nat, later: Option<Error>)
    ensures refused == Some(Error(AlreadyRunningMessage))
    ensures !running && itemCount == 1 && later == None
  {
    var scheduler := new Scheduler();
    var _ := scheduler.AddFunc(1, 100 * Millisecond);
    scheduler.Start();
    scheduler.Start();
    scheduler.Start();
    refused := scheduler.AddFunc(2, 100 * Millisecond);
    scheduler.Stop();
    scheduler.Stop();
    scheduler.Stop();
    running := scheduler.IsRunning();
    itemCount := |scheduler.items|;
    later := scheduler.AddFunc(2, 100 * Millisecond);
  }
}

