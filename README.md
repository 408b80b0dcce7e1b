# atpbar session coordinator in Dafny

atpbar shows progress bars for loops that run in many threads and
processes. Producers send progress events through a `ProgressReporter` into a
`multiprocessing.Queue`. One background `ProgressReportPickup` thread drains
that queue into a presentation. `atpbar/funcs.py` holds the state machine
that starts this session lazily, hands out the reporter, and tears the session
down. It has five pieces of state: the module globals `_reporter`, `_queue`,
`_pickup` and `_presentation`, and the flag `detach.to_detach_pickup`.

This project models that state machine:

- `session.dfy`, module `Session`: the state as a value (`State`). It has one
  function per lock-guarded section of `funcs.py`. Constructed objects
  (queue, reporter, presentation, pickup) are opaque ids taken from a counter,
  so every constructed object is new. The side effects `_pickup.start()`,
  `_queue.put(None)` and `_pickup.join()` are recorded, in order, in an
  effect log.
- `session_trace.dfy`, module `SessionTrace`: threads interleave only between
  locked sections. So any run of the program is a sequence of atomic steps
  (`Op`), and `Run` replays such a sequence. `Inv` holds in every reachable
  state. It says the log is a series of complete sessions (start, one close
  sentinel, join), possibly followed by the start of the one pickup still
  active. It also says every session drains the same queue, and that no
  pickup is started twice. The module also holds lemmas about sequences of
  calls (flush twice, flush then find, a whole `fetch_reporter` scope,
  detaching, racing entries).
- `funcs.dfy`, module `Funcs`: class `Coordinator`, with one field per
  global. Each method updates the fields in place as the Python function
  does. Each method is proved to produce exactly the state given by the
  matching `Session` function and to keep `Inv`.

Three behaviours of `funcs.py` are easy to miss:

- Teardown never clears `_queue` (`atpbar/funcs.py:141-152`). The queue
  created for the first session is reused by every later session
  (`OneQueueForAllSessions`).
- If `create_presentation()` raises, nothing is rolled back
  (`atpbar/funcs.py:129-130`). `_reporter`, and a queue created on the way,
  stay set, no pickup is started, and the exception propagates
  (`FailedStartLeavesReporter`). In `funcs.py` the lock is then never
  released, so every later `find_reporter`, `fetch_reporter` and `flush`
  blocks. The model has no lock; its later calls reuse the stale reporter.
- The detach flag is not consumed when a `fetch_reporter` scope exits.
  Only `_end_pickup` lowers it, and only when a pickup is active
  (`atpbar/funcs.py:103-104`, `atpbar/funcs.py:151`). A `flush` with no
  active pickup leaves it raised.

## Model

| member | source | states |
|---|---|---|
| Session.Init | atpbar/funcs.py:14-18 | at import time there is no reporter, queue, pickup or presentation; the effect log is empty; the detach flag is down |
| Session.StartPickup | atpbar/funcs.py:117-138 | with a reporter already set (created or registered), returns false and changes nothing; otherwise creates a queue only if none exists, and returns true iff the presentation was built; then reporter, presentation and pickup are all set, bound to the same queue, and exactly one start is logged; on a presentation failure the reporter stays set, no pickup is started, and there is no rollback |
| Session.EndPickup | atpbar/funcs.py:141-152 | always clears the reporter and never the queue; with an active pickup, logs exactly one close sentinel on its queue and then its join, and clears pickup, presentation and the detach flag; with no pickup, nothing else changes |
| Session.Register | atpbar/funcs.py:45-65 | installs the given handle as the reporter; nothing else changes |
| Session.FindReporter | atpbar/funcs.py:21-42 | runs the lazy start; on success returns the reporter now installed, which is the existing one when a reporter was already set; fails exactly when the lazy start failed |
| Session.FetchEnter | atpbar/funcs.py:88-99 | runs the lazy start as find_reporter does; the scope owns the session iff that call created it and it runs on the main thread |
| Session.FetchExit | atpbar/funcs.py:100-107 | tears down iff the scope owns the session and the detach flag is down; otherwise the state is kept exactly, including a raised flag |
| Session.SetDetach | atpbar/funcs.py:103-104 | a collaborator raises the flag that fetch_reporter reads at exit; nothing else changes |
| SessionTrace.Step | atpbar/funcs.py:21-107 | every locked section keeps well-formedness; the effect log only grows; the id counter does not decrease; an existing queue is kept |
| SessionTrace.Run | atpbar/funcs.py:21-107 | over any interleaving of locked sections, the log only grows and a queue, once created, is never replaced or cleared |
| SessionTrace.Enter | atpbar/funcs.py:92-96 | one find_reporter or fetch_reporter entry: the state and reporter of find_reporter; it owns the session iff it is a fetch_reporter entry on the main thread that found no reporter |
| SessionTrace.Entries | atpbar/funcs.py:38-42 | find_reporter and fetch_reporter entries serialised by the lock yield one result each |
| SessionTrace.InitInv | atpbar/funcs.py:14-18 | the import-time state satisfies the invariant |
| SessionTrace.StartPickupInv | atpbar/funcs.py:123-138 | the lazy start keeps the invariant: a new pickup is started only when none is active, on the current queue, with an id never used before |
| SessionTrace.EndPickupInv | atpbar/funcs.py:146-152 | teardown keeps the invariant: the active session is closed by exactly one sentinel on its queue followed by its join |
| SessionTrace.StepInv | atpbar/funcs.py:21-107 | each of the six operations keeps the invariant |
| SessionTrace.RunInv | atpbar/funcs.py:21-107 | any sequence of operations keeps the invariant |
| SessionTrace.ReachableInv | atpbar/funcs.py:14-107 | every state reachable from import time satisfies the invariant |
| SessionTrace.CompletedCount | atpbar/funcs.py:136-148 | a log of complete sessions holds as many starts as sentinels as joins |
| SessionTrace.SentinelPerPickup | atpbar/funcs.py:136-148 | in every reachable state, sentinels sent equal joins, and equal pickups started minus the one still active |
| SessionTrace.RegisteredReporterBlocksStart | atpbar/funcs.py:65 | after register_reporter with no pickup, the lazy start returns false, find_reporter returns the handle, and no pickup is started |
| SessionTrace.FailedStartLeavesReporter | atpbar/funcs.py:129-130 | after a failed presentation the reporter stays set with no pickup and the log unchanged; in the model without its lock, find_reporter then reuses it and only a teardown lets a new session start (in the source those later calls block on the held lock) |
| SessionTrace.FlushIdempotent | atpbar/funcs.py:68-82 | a second flush changes nothing and sends no further sentinel |
| SessionTrace.FlushWithoutSession | atpbar/funcs.py:80-82 | flush with no session ever created leaves the import-time state as it is |
| SessionTrace.FlushThenStartCreates | atpbar/funcs.py:123-152 | after flush, the next lazy start returns true with a pickup whose id exceeds every pickup started before, on the kept queue |
| SessionTrace.FetchScope | atpbar/funcs.py:92-107 | for any steps run inside the scope, exit tears down iff the entry created the session, it was on the main thread, and the detach flag is down at exit; otherwise the state at exit is kept |
| SessionTrace.DetachOutlivesScope | atpbar/funcs.py:96-107 | an owning scope that detaches leaves its pickup running with the flag still raised; the next teardown lowers the flag |
| SessionTrace.EntriesReuse | atpbar/funcs.py:123-124 | with a reporter set, any mix of find_reporter and fetch_reporter entries changes nothing, all return that reporter, and none owns the session |
| SessionTrace.RacingEntriesShareOneSession | atpbar/funcs.py:92-96 | one or more racing find_reporter and fetch_reporter entries from no session start exactly one pickup, all get the same reporter, and only the first can own the session, exactly when it is a fetch_reporter entry on the main thread |
| SessionTrace.OneQueueForAllSessions | atpbar/funcs.py:126-127 | in every reachable state all sessions ever started drain the same queue |
| Funcs.Coordinator.constructor | atpbar/funcs.py:14-18 | the globals start in the import-time state |
| Funcs.Coordinator.StartPickupIfNecessary | atpbar/funcs.py:117-138 | updates the globals in place to exactly the state and result of StartPickup, keeping the invariant |
| Funcs.Coordinator.EndPickup | atpbar/funcs.py:141-152 | updates the globals in place to exactly EndPickup of the old state (put, then join), keeping the invariant |
| Funcs.Coordinator.FindReporter | atpbar/funcs.py:21-42 | new state and returned reporter are those of FindReporter |
| Funcs.Coordinator.RegisterReporter | atpbar/funcs.py:45-65 | new state is Register of the old state |
| Funcs.Coordinator.Flush | atpbar/funcs.py:68-82 | new state is EndPickup of the old state |
| Funcs.Coordinator.FetchEnter | atpbar/funcs.py:88-99 | new state, yielded reporter and ownership are those of FetchEnter |
| Funcs.Coordinator.FetchExit | atpbar/funcs.py:100-107 | new state is FetchExit of the old state |
| Funcs.Coordinator.Detach | atpbar/funcs.py:103 | new state is SetDetach of the old state |

## Left out

- `threading.Lock`: each locked region is one atomic method or step. Real thread interleavings inside a region are not modelled.
- The lock after an exception: when `create_presentation()` raises, `find_reporter` and `fetch_reporter` never release the lock (`atpbar/funcs.py:38-40`, `atpbar/funcs.py:92-94`), so every later call would block. The model has no lock, so later calls go ahead.
- The reads of `_reporter` after the lock is released (`atpbar/funcs.py:42`, `atpbar/funcs.py:99`) are taken together with the locked region. A teardown by another thread can no longer happen in between.
- `multiprocessing.Queue`, cross-process pickling of the reporter, and `ProgressReporter.report`: the queue is an opaque id. Only the close sentinels put by the coordinator are recorded; producers' events are not.
- The internals of `ProgressReporter`, `ProgressReportPickup` (its drain loop), and `create_presentation` and rendering are not part of this model. Their constructors are opaque and always succeed, except that `create_presentation()` may fail, as a boolean input. So the ordering and delivery of events to the presentation is not modelled.
- `_pickup.join()` is recorded as completing. The model does not cover the pickup never seeing the sentinel, which would block forever.
- `_pickup.daemon = True` (`atpbar/funcs.py:132`) and `atexit.register(flush)` (`atpbar/funcs.py:84`) hook into the host runtime's process exit; `Coordinator.Flush` is what the hook runs.
- `in_main_thread` (`atpbar/funcs.py:109-114`), including its Python 2 fallback, is a boolean input.
- Exception unwinding inside the `fetch_reporter` body: the exit half is a separate method, called however the body ends.
- `register_reporter(None)`: Python accepts it, but the model takes a real handle. The handle is documented as the reporter obtained by `find_reporter`. That can be None in the source when another thread's `flush` runs between `_lock.release()` and `return _reporter` (`atpbar/funcs.py:40-42`); the model reads `_reporter` inside the locked region.
- The `detach` module is not part of this model. Its flag is assumed to start False, and `SetDetach` stands for whatever raises it.
- SessionTrace.Step: a fetch exit step takes its ownership flag as an arbitrary input rather than from a matching entry. This over-approximates the runs, and the invariants hold regardless.
- SessionTrace.RacingEntriesShareOneSession: covers only racing entries whose presentations are built without failure; in the source a failure would leave the lock held and the remaining entries blocked.
