/**
 The module state of `atpbar/funcs.py` as an object: one field per module
 global, updated in place by one method per function of the module.
 Each method is one lock-guarded section (the lock itself is not
 modelled) and is specified by the matching function of `Session`, whose
 properties `SessionTrace` proves.
 */
module Funcs {
  import opened Session
  import opened SessionTrace

  class Coordinator {
    var reporter: Option<Reporter>       // _reporter
    var queue: Option<QueueId>           // _queue
    var pickup: Option<Pickup>           // _pickup
    var presentation: Option<PresentationId>  // _presentation
    var detached: bool                   // detach.to_detach_pickup
    var nextId: nat                      // the next id a constructed object gets
    ghost var log: seq<Effect>           // start, put and join calls, in order

    ghost function Abs(): State
      reads this
    {
      State(reporter, queue, pickup, presentation, detached, nextId, log)
    }

    ghost predicate Valid()
      reads this
    {
      Inv(Abs())
    }

    /** The globals as they stand when the module is imported. */
    constructor ()
      ensures Valid() && Abs() == Init()
    {
      reporter, queue, pickup, presentation := None, None, None, None;
      detached, nextId := false, 0;
      log := [];
      new;
      InitInv();
    }

    /** `_start_pickup_if_necessary`. */
    method StartPickupIfNecessary(presentationFails: bool) returns (started: Result<bool>)
      requires Valid()
      modifies this
      ensures Valid()
      ensures (Abs(), started) == StartPickup(old(Abs()), presentationFails)
    {
      ghost var s := Abs();
      if reporter.Some? {
        started := Ok(false);
      } else {
        if queue.None? {
          queue := Some(nextId);                     // multiprocessing.Queue()
        }
        var g := nextId;
        nextId := nextId + 1;
        reporter := Some(Reporter(g, queue.value));  // ProgressReporter(queue=_queue)
        if presentationFails {
          started := Err(PresentationError);         // create_presentation() raised
        } else {
          presentation := Some(g);
          var p := Pickup(g, queue.value, g);
          pickup := Some(p);
          log := log + [Start(p)];                   // _pickup.start()
          started := Ok(true);
        }
      }
      assert (Abs(), started) == StartPickup(s, presentationFails);
      StartPickupInv(s, presentationFails);
    }

    /** `_end_pickup`. */
    method EndPickup()
      requires Valid()
      modifies this
      ensures Valid()
      ensures Abs() == Session.EndPickup(old(Abs()))
    {
      ghost var s := Abs();
      if pickup.Some? {
        log := log + [PutClose(queue.value)];       // _queue.put(None)
        log := log + [Join(pickup.value.id)];       // _pickup.join()
        assert log == s.log + [PutClose(s.queue.value), Join(s.pickup.value.id)];
        pickup := None;
        presentation := None;
        detached := false;
      }
      reporter := None;
      assert Abs() == Session.EndPickup(s);
      EndPickupInv(s);
    }

    /** `find_reporter`. */
    method FindReporter(presentationFails: bool) returns (r: Result<Reporter>)
      requires Valid()
      modifies this
      ensures Valid()
      ensures (Abs(), r) == Session.FindReporter(old(Abs()), presentationFails)
    {
      var started := StartPickupIfNecessary(presentationFails);
      if started.Err? {
        return Err(started.error);
      }
      r := Ok(reporter.value);
    }

    /** `register_reporter`. */
    method RegisterReporter(handle: Reporter)
      requires Valid()
      modifies this
      ensures Valid()
      ensures Abs() == Register(old(Abs()), handle)
    {
      reporter := Some(handle);
    }

    /** `flush`, also what the exit hook runs. */
    method Flush()
      requires Valid()
      modifies this
      ensures Valid()
      ensures Abs() == Session.EndPickup(old(Abs()))
    {
      EndPickup();
    }

    /** The entry half of `fetch_reporter`: the reporter yielded and whether the scope owns it. */
    method FetchEnter(presentationFails: bool, inMainThread: bool) returns (r: Result<Reporter>, own: bool)
      requires Valid()
      modifies this
      ensures Valid()
      ensures (Abs(), r, own) == Session.FetchEnter(old(Abs()), presentationFails, inMainThread)
    {
      var started := StartPickupIfNecessary(presentationFails);
      if started.Err? {
        return Err(started.error), false;
      }
      own := started == Ok(true) && inMainThread;
      r := Ok(reporter.value);
    }

    /** The exit half of `fetch_reporter`, run however the scope ends. */
    method FetchExit(own: bool)
      requires Valid()
      modifies this
      ensures Valid()
      ensures Abs() == Session.FetchExit(old(Abs()), own)
    {
      var owns := own;
      if detached {
        owns := false;
      }
      if owns {
        EndPickup();
      }
    }

    /** A collaborator raising `detach.to_detach_pickup`. */
    method Detach()
      requires Valid()
      modifies this
      ensures Valid()
      ensures Abs() == SetDetach(old(Abs()))
    {
      detached := true;
    }
  }
}
