# idmapper: snapshot mappers and periodic scheduler, modelled in Dafny

This project models the core of `idmapper`, a small Go service that maps value IDs
(currency, country and language codes) to names:

- **`IDMapper`**, the lock-based snapshot mapper. It holds a `ValuesMap` (ID -> name)
  and a `SourceReader`. `NewIDMapper` builds it and reloads it once. `Get` is an
  exact-key lookup that answers `("", false)` for a missing key. `Reload` reads the
  source once; a failed read returns the error and keeps the old map, and a
  successful one replaces the map wholesale. The root-package `idmapper.go` has the
  same code line for line (only doc comments differ), so the one class
  `IdMapper.IDMapper` models both files.
- **`LockFree`**, the actor variant. A worker goroutine owns a local map that
  starts empty. It answers lookup requests and replaces its map on reload messages.
  `Get` and `Reload` talk to it over channels.
- **`Scheduler`**, which runs jobs periodically. Its state is a list of
  (job, interval) items and an `isRunning` int32 flag. `Add` is refused while
  running. `Start` and `Stop` are no-ops when already in the target state;
  otherwise they launch one runner per item, or send each runner its `done` signal.

Every public call is one atomic step. The mutex, goroutines and channels are
abstracted away.

Files and modules:

- `errors.dfy` (`Errors`): Go's nil-or-error results.
- `source.dfy` (`Source`): `ValuesMap`, and `SourceReader` as an oracle. Its n-th
  `Read` returns `script(n)`, and it counts its reads in `calls`, like the tests'
  `CallCount`.
- `cache.dfy` (`Cache`): the contract both mappers implement, as values. It has
  `Lookup`, `Install`, one `Step` per call, `Run` over a sequence of calls, and
  `LatestGood`, the most recent successful snapshot. Lemmas over `Run` live here.
- `idmapper.dfy` (`IdMapper`): the class `IDMapper` and client scenarios from the tests.
- `lockfree.dfy` (`IdMapperLockFree`): the `Worker` (the `server` goroutine's state
  and its two handlers) and the `LockFree` class.
- `equivalence.dfy` (`Equivalence`): `LockFree` behaves observably like `IDMapper`.
- `scheduler.dfy` (`Scheduler`): the state machine as values and as a class, ghost
  runner bookkeeping, and a runner's ticker as a logical clock.

Design choices:

- A runner's ticker is a logical clock. A runner with interval d that gets its
  `done` at time T has run its job once per tick at d, 2d, ... up to T. That is
  floor(T / d) times. A tick at exactly T counts as fired; no test hits that boundary.
- Live runners are ghost histories. `launches` lists the item indices a runner was
  started for, and `signals` the indices sent a `done`. The invariant `Scheduler.Inv`
  requires that each registered item has exactly one live runner while running and
  none while stopped.

## Model

| member | source | states |
|---|---|---|
| `Source.SourceReader.Read` | idmapper/source.go:3-13 | each read returns the source's next scripted (map, error) result and counts one call |
| `IdMapper.IDMapper.constructor` | idmapper/idmapper.go:17-20 | a new mapper holds the given source and an empty map |
| `IdMapper.IDMapper.NewIDMapper` | idmapper/idmapper.go:16-23 | construction reads the source exactly once and returns that read's error. On success the map is the fetched map; on failure the returned mapper still holds the empty map |
| `IdMapper.IDMapper.Get` | idmapper/idmapper.go:26-31 | found exactly when the key is in the current map, with that key's name; otherwise ("", false); the map is not changed |
| `IdMapper.IDMapper.Reload` | idmapper/idmapper.go:34-45 | reads exactly once and returns that read's error. On error the map is unchanged and any map returned with the error is dropped; on success the map becomes exactly the fetched map |
| `IdMapper.NewThenGet` | idmapper_test.go:30-64 | construction returns the first read's error. A lookup then answers from the fetched map on success, and finds nothing on failure |
| `IdMapper.ExactKeys` | idmapper/idmapper_test.go:57-92 | keys match exactly: "", "a", "b", " c " are found with their names; "x", "y", "a ", " b" are not found |
| `IdMapper.ReloadUnchangedSource` | idmapper/idmapper_test.go:94-125 | construction plus one reload from an unchanged source reads it twice, and a lookup answers the same before and after |
| `IdMapper.ReplaceSnapshot` | idmapper.go:34-45 | a successful reload replaces the map wholesale: a key missing from the new map is no longer found, and a kept key answers its new name |
| `Cache.RunReads` | idmapper/idmapper.go:33-45 | over any sequence of calls, the source is read exactly once per reload, and every call gets exactly one reply |
| `Cache.RunServesLatestGood` | idmapper/idmapper.go:34-44 | after any sequence of calls, the map is the one from the most recent successful read, or the starting map if every read failed |
| `Cache.RunReplyAt` | idmapper/idmapper.go:26-45 | the i-th reply of a call sequence is that call's step from the state the earlier calls left |
| `Cache.GetServesLatestGood` | idmapper/idmapper.go:26-44 | every lookup in a call sequence answers from the most recent successful snapshot before it (stale but available) |
| `IdMapperLockFree.Worker.constructor` | idmapper/idmapper_lockfree.go:41 | the worker's map is empty before any reload message |
| `IdMapperLockFree.Worker.ServeRequest` | idmapper/idmapper_lockfree.go:45-50 | a request for a key is answered with the key's name and found = true if present, ("", false) otherwise; the map is unchanged |
| `IdMapperLockFree.Worker.ServeReload` | idmapper/idmapper_lockfree.go:51-52 | a reload message replaces the worker's map wholesale with the delivered map |
| `IdMapperLockFree.LockFree.constructor` | idmapper/idmapper_lockfree.go:22-28 | a new `LockFree` has the given source and a fresh worker with an empty map |
| `IdMapperLockFree.LockFree.NewLockFree` | idmapper/idmapper_lockfree.go:21-30 | construction reads exactly once and returns that read's error. On success the worker holds the fetched map, otherwise the empty map |
| `IdMapperLockFree.LockFree.Get` | idmapper/idmapper_lockfree.go:33-38 | returns the worker's answer: found exactly when the key is in the worker's map, with its name; otherwise ("", false) |
| `IdMapperLockFree.LockFree.Reload` | idmapper/idmapper_lockfree.go:60-68 | reads exactly once. On error it returns the error and the worker's map is unchanged; on success it delivers exactly the fetched map and returns nil |
| `IdMapperLockFree.ReloadUnchangedSource` | idmapper/idmapper_lockfree_test.go:75-109 | construction plus one reload from an unchanged source reads it twice, and a lookup answers the same before and after |
| `Equivalence.Lockstep` | idmapper/idmapper_lockfree.go:13-14 | both mappers are driven by the same calls over sources with the same read results. They return the same construction error and the same replies, and those replies are `Cache.Run`'s |
| `Scheduler.Scheduler.constructor` | scheduler/scheduler.go:29-34 | the zero scheduler has no items, is stopped, and has never launched a runner |
| `Scheduler.Scheduler.IsRunning` | scheduler/scheduler.go:37-39 | true exactly when the flag is 1 |
| `Scheduler.Scheduler.SetIsRunning` | scheduler/scheduler.go:41-47 | stores 1 for true and 0 for false |
| `Scheduler.Scheduler.Add` | scheduler/scheduler.go:50-62 | while running it returns the "already running" error and keeps the items. Otherwise it appends exactly one item (job, interval) after the earlier ones and returns nil. The invariant is kept |
| `Scheduler.Scheduler.AddFunc` | scheduler/scheduler.go:65-67 | has exactly the effect of `Add` with the function wrapped as a `JobFunc` |
| `Scheduler.Scheduler.Start` | scheduler/scheduler.go:70-80 | a no-op while running. Otherwise it sets running and launches exactly one runner per item, in index order |
| `Scheduler.Scheduler.Stop` | scheduler/scheduler.go:83-93 | a no-op while stopped. Otherwise it sends each item's runner one `done`, in index order, and clears the flag; items are kept |
| `Scheduler.Scheduler.RunItem` | scheduler/scheduler.go:95-98 | launches one runner for the given item |
| `Scheduler.ZeroInv` | scheduler/scheduler.go:29-34 | the zero scheduler satisfies the runner invariant |
| `Scheduler.AddPreservesInv` | scheduler/scheduler.go:50-62 | `Add` keeps the invariant: a new item has no runner until the next start |
| `Scheduler.StartPreservesInv` | scheduler/scheduler.go:70-80 | after `Start`, every item has exactly one live runner and the flag is 1 |
| `Scheduler.StopPreservesInv` | scheduler/scheduler.go:83-93 | after `Stop`, no item has a live runner and the flag is 0 |
| `Scheduler.StartStopThrice` | scheduler/scheduler_test.go:71-88 | three starts then three stops equal one start and one stop. Each item gets exactly one runner and one `done`, items are kept, and `Add` succeeds afterwards |
| `Scheduler.AlreadyRunningScenario` | scheduler/scheduler_test.go:57-90 | in the test's call sequence, the second job is refused with the error and never gets a runner; the first gets exactly one runner and one `done` |
| `Scheduler.AlreadyRunning` | scheduler/scheduler_test.go:67-89 | the same sequence through the class: the refused add returns the error, and the scheduler ends stopped with one item. A later add succeeds |
| `Scheduler.RunnerLoop` | scheduler/scheduler.go:98-109 | a runner with interval d stopped at time T runs its job Ticks(d, T) = floor(T / d) times |
| `Scheduler.TicksIsQuotient` | scheduler/scheduler.go:95-110 | the number of ticks of an interval-d ticker up to time T is floor(T / d) |
| `Scheduler.TestTimings` | scheduler/scheduler_test.go:24-121 | the tests' timings give the tests' expected run counts: 2; 3; and 19, 9, 3, 1, 0, 0 |

## Left out

- The `sync.Mutex` of `IDMapper` and all goroutine and channel plumbing. Every public
  call is one atomic step, so linearisability under real concurrency is not modelled.
- Go map aliasing. `Reload` stores the reference the source returned, so a source
  that later mutates that map would be seen through the mapper. Dafny maps are values,
  so the model stores a copy.
- The `done` channel of `NewLockFree` and the worker's shutdown. After shutdown a `Get`,
  and a `Reload` whose read succeeds, block forever on their channel send; a `Reload`
  whose read fails still returns its error. The model's worker is always live.
- `SourceReaderFunc` (idmapper/source.go:9-13) is the same oracle, seen through an adapter.
- Races between concurrent `Start` or `Stop` calls. The check of the flag and the
  store to it are separate steps in the source, so a sequential model claims nothing
  about them.
- Real time and `time.Ticker` semantics (drift, dropped ticks, a job that runs longer
  than its interval). Only the logical clock of `Scheduler.RunnerLoop` is modelled.
- Blocking in `Stop`: each `done` send waits until the runner receives it. The model
  treats the whole `Stop` as one step.
- The jobs' `Run` bodies. A job is opaque and known only by an identity.
- The unused `done` field of `Scheduler` (scheduler/scheduler.go:33).
- Scheduler.Scheduler.Start: requires positive intervals when it would launch
  runners. `time.NewTicker` panics on a non-positive interval, and `Add` does not
  reject such an interval, so in the source that `Start` would crash.
- Scheduler.Scheduler.RunItem: requires a positive interval for its item, for the
  same reason: `runItem` is where the source calls `time.NewTicker`.
- `app/` (HTTP server, router, handlers, configuration, logging, Redis, PostgreSQL
  and HTTP sources, reload wiring), `main.go`, the example files and the benchmarks.
  They are not part of this model.
