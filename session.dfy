/**
 The session state of atpbar's coordination layer as a value, and one
 transition function per lock-guarded section of `atpbar/funcs.py`.

 The five module globals `_reporter`, `_queue`, `_pickup`, `_presentation`
 and the flag `detach.to_detach_pickup` are the fields of `State`. Objects
 the code constructs (`multiprocessing.Queue()`, `ProgressReporter`,
 `create_presentation()`, `ProgressReportPickup`) are opaque: each is an id
 drawn from the counter `nextId`, so a constructed object is always new.
 The side effects `_pickup.start()`, `_queue.put(None)` and `_pickup.join()`
 are recorded, in order, in `log`.
 */
module Session {

  datatype Option<T> = None | Some(value: T)

  /** The only failure in the core: `create_presentation()` raising. */
  datatype Error = PresentationError

  datatype Result<T> = Ok(value: T) | Err(error: Error)

  type QueueId = nat
  type PresentationId = nat

  /** A `ProgressReporter`: a handle bound to the queue it writes into. */
  datatype Reporter = Reporter(id: nat, queue: QueueId)

  /** A `ProgressReportPickup`: drains `queue` into `presentation`. */
  datatype Pickup = Pickup(id: nat, queue: QueueId, presentation: PresentationId)

  /** The externally visible side effects of the core. */
  datatype Effect =
    | Start(pickup: Pickup)        // _pickup.start()
    | PutClose(queue: QueueId)     // _queue.put(None), the close sentinel
    | Join(pickupId: nat)          // _pickup.join()

  datatype State = State(
    reporter: Option<Reporter>,
    queue: Option<QueueId>,
    pickup: Option<Pickup>,
    presentation: Option<PresentationId>,
    detached: bool,                // detach.to_detach_pickup
    nextId: nat,                   // ids not yet handed to any constructed object
    log: seq<Effect>)

  /** Module import time: every global is None and the detach flag is down. */
  function Init(): (s: State)
    ensures Wf(s) && s.log == []
    ensures s.reporter.None? && s.queue.None? && s.pickup.None? && s.presentation.None? && !s.detached
  {
    State(None, None, None, None, false, 0, [])
  }

  /**
   Well-formedness kept by every operation: an active pickup always comes
   with a reporter, the queue it drains and the presentation it feeds, and
   its id was handed out already.
   */
  predicate Wf(s: State)
  {
    && (s.pickup.Some? ==>
          && s.reporter.Some?
          && s.queue == Some(s.pickup.value.queue)
          && s.presentation == Some(s.pickup.value.presentation)
          && s.pickup.value.id < s.nextId)
    && (s.pickup.None? ==> s.presentation.None?)
  }

  /**
   `_start_pickup_if_necessary`. Returns Ok(true) when it created a session,
   Ok(false) when a reporter was already set, and Err when
   `create_presentation()` raised; in that last case the reporter (and a
   queue created on the way) stay set: there is no rollback.
   */
  function StartPickup(s: State, presentationFails: bool): (r: (State, Result<bool>))
    requires Wf(s)
    ensures Wf(r.0)
    // a reporter already set, registered or created: nothing changes
    ensures s.reporter.Some? ==> r == (s, Ok(false))
    // created iff no reporter was set and the presentation was built
    ensures r.1 == Ok(true) <==> s.reporter.None? && !presentationFails
    ensures r.1.Err? <==> s.reporter.None? && presentationFails
    // a full session, whose pickup has been started exactly once
    ensures r.1 == Ok(true) ==>
      && r.0.reporter.Some? && r.0.presentation.Some? && r.0.pickup.Some?
      && r.0.log == s.log + [Start(r.0.pickup.value)]
      && r.0.reporter.value.queue == r.0.pickup.value.queue
      && r.0.pickup.value.id == s.nextId
    // the queue is created only when absent, an existing one is reused
    ensures s.queue.Some? ==> r.0.queue == s.queue
    ensures s.reporter.None? ==> r.0.queue.Some?
    // no rollback after a failed presentation: reporter set, no pickup started
    ensures r.1.Err? ==>
      && r.0.reporter.Some? && r.0.reporter.value.queue == r.0.queue.value
      && r.0.pickup == s.pickup == None && r.0.presentation == s.presentation
      && r.0.log == s.log
    ensures r.0.detached == s.detached && r.0.nextId >= s.nextId
  {
    if s.reporter.Some? then
      (s, Ok(false))
    else
      var q := if s.queue.Some? then s.queue.value else s.nextId;
      var g := s.nextId;
      var withReporter := s.(reporter := Some(Reporter(g, q)), queue := Some(q), nextId := g + 1);
      if presentationFails then
        (withReporter, Err(PresentationError))
      else
        var p := Pickup(g, q, g);
        (withReporter.(presentation := Some(g), pickup := Some(p), log := s.log + [Start(p)]), Ok(true))
  }

  /**
   `_end_pickup`. With an active pickup: one close sentinel on the queue,
   then the join, then pickup, presentation and the detach flag are
   cleared. The reporter is cleared in every case; the queue never is.
   */
  function EndPickup(s: State): (r: State)
    requires Wf(s)
    ensures Wf(r)
    ensures r.reporter.None? && r.pickup.None? && r.presentation.None?
    ensures r.queue == s.queue && r.nextId == s.nextId
    ensures s.pickup.Some? ==>
      && r.log == s.log + [PutClose(s.pickup.value.queue), Join(s.pickup.value.id)]
      && !r.detached
    ensures s.pickup.None? ==> r.log == s.log && r.detached == s.detached
  {
    if s.pickup.Some? then
      s.(log := s.log + [PutClose(s.queue.value), Join(s.pickup.value.id)],
         pickup := None, presentation := None, detached := false, reporter := None)
    else
      s.(reporter := None)
  }

  /** `register_reporter`: installs a handle obtained in the main process. */
  function Register(s: State, handle: Reporter): (r: State)
    requires Wf(s)
    ensures Wf(r)
    ensures r.reporter == Some(handle)
    ensures r.queue == s.queue && r.pickup == s.pickup && r.presentation == s.presentation
    ensures r.detached == s.detached && r.log == s.log && r.nextId == s.nextId
  {
    s.(reporter := Some(handle))
  }

  /** `find_reporter`: the lazy start under the lock, then `_reporter`. */
  function FindReporter(s: State, presentationFails: bool): (r: (State, Result<Reporter>))
    requires Wf(s)
    ensures Wf(r.0)
    ensures r.0 == StartPickup(s, presentationFails).0
    ensures r.1.Ok? ==> r.0.reporter == Some(r.1.value)
    ensures r.1.Err? <==> StartPickup(s, presentationFails).1.Err?
    // an existing reporter is returned as it is
    ensures s.reporter.Some? ==> r == (s, Ok(s.reporter.value))
  {
    var (t, started) := StartPickup(s, presentationFails);
    if started.Err? then (t, Err(started.error)) else (t, Ok(t.reporter.value))
  }

  /**
   The entry half of `fetch_reporter`: the lazy start under the lock, and
   the ownership decision `started and in_main_thread()`.
   */
  function FetchEnter(s: State, presentationFails: bool, inMainThread: bool)
    : (r: (State, Result<Reporter>, bool))
    requires Wf(s)
    ensures Wf(r.0)
    ensures (r.0, r.1) == FindReporter(s, presentationFails)
    // the scope owns the session iff it created it, on the main thread
    ensures r.2 <==> s.reporter.None? && !presentationFails && inMainThread
  {
    var (t, started) := StartPickup(s, presentationFails);
    var own := started == Ok(true) && inMainThread;
    if started.Err? then (t, Err(started.error), false) else (t, Ok(t.reporter.value), own)
  }

  /**
   The exit half of `fetch_reporter`: a set detach flag revokes ownership;
   an owning scope tears the session down. The flag itself is left as it
   is here; only `_end_pickup` lowers it.
   */
  function FetchExit(s: State, own: bool): (r: State)
    requires Wf(s)
    ensures Wf(r)
    ensures own && !s.detached ==> r == EndPickup(s)
    ensures !own || s.detached ==> r == s
  {
    if s.detached then s
    else if own then EndPickup(s)
    else s
  }

  /** The collaborator that asks the session to outlive the current scope. */
  function SetDetach(s: State): (r: State)
    requires Wf(s)
    ensures Wf(r)
    ensures r.detached && r == s.(detached := true)
  {
    s.(detached := true)
  }
}
