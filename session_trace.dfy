/**
 Properties of the session lifecycle across several calls.

 Each lock-guarded section of `atpbar/funcs.py` is one atomic `Op`; any
 interleaving of threads is then a sequence of `Op`s, and `Run` replays it.
 `Inv` is the invariant of every reachable state: the effect log is a
 sequence of complete sessions (start, one close sentinel, join), possibly
 followed by the start of the one pickup still active; every pickup ever
 started drains the same queue; no pickup is started twice.
 */
module SessionTrace {
  import opened Session

  /** One atomic step of some thread. */
  datatype Op =
    | FindOp(presentationFails: bool)
    | RegisterOp(handle: Reporter)
    | FlushOp
    | FetchEnterOp(presentationFails: bool, inMainThread: bool)
    | FetchExitOp(own: bool)
    | DetachOp

  function Step(s: State, op: Op): (r: State)
    requires Wf(s)
    ensures Wf(r)
    ensures s.log <= r.log
    ensures r.nextId >= s.nextId
    ensures s.queue.Some? ==> r.queue == s.queue
  {
    match op
    case FindOp(f) => FindReporter(s, f).0
    case RegisterOp(h) => Register(s, h)
    case FlushOp => EndPickup(s)
    case FetchEnterOp(f, m) => FetchEnter(s, f, m).0
    case FetchExitOp(own) => FetchExit(s, own)
    case DetachOp => SetDetach(s)
  }

  /** Replays `ops` from `s`. The log only grows and a queue, once created, is kept. */
  function Run(s: State, ops: seq<Op>): (r: State)
    requires Wf(s)
    ensures Wf(r)
    ensures s.log <= r.log
    ensures r.nextId >= s.nextId
    ensures s.queue.Some? ==> r.queue == s.queue
    decreases |ops|
  {
    if ops == [] then s else Run(Step(s, ops[0]), ops[1..])
  }

  // ---------------------------------------------------------------------
  // The effect log

  /** `log` is a sequence of complete sessions: Start(p), PutClose(p.queue), Join(p.id). */
  ghost predicate Completed(log: seq<Effect>)
    decreases |log|
  {
    if log == [] then true
    else
      && |log| >= 3
      && log[|log| - 3].Start?
      && log[|log| - 2] == PutClose(log[|log| - 3].pickup.queue)
      && log[|log| - 1] == Join(log[|log| - 3].pickup.id)
      && Completed(log[..|log| - 3])
  }

  /** Completed sessions, then the start of the active pickup if there is one. */
  ghost predicate Logged(s: State)
  {
    if s.pickup.Some? then
      |s.log| >= 1 && s.log[|s.log| - 1] == Start(s.pickup.value) && Completed(s.log[..|s.log| - 1])
    else
      Completed(s.log)
  }

  /** Every session started in `log` drains queue `q`. */
  ghost predicate SharedQueue(log: seq<Effect>, q: Option<QueueId>)
  {
    forall i | 0 <= i < |log| && log[i].Start? :: q == Some(log[i].pickup.queue)
  }

  /** Pickups in `log` were started in increasing id order, every id below `bound`. */
  ghost predicate FreshStarts(log: seq<Effect>, bound: nat)
  {
    && (forall i | 0 <= i < |log| && log[i].Start? :: log[i].pickup.id < bound)
    && (forall i, j | 0 <= i < j < |log| && log[i].Start? && log[j].Start? ::
          log[i].pickup.id < log[j].pickup.id)
  }

  ghost predicate Inv(s: State)
  {
    && Wf(s)
    && Logged(s)
    && SharedQueue(s.log, s.queue)
    && FreshStarts(s.log, s.nextId)
  }

  lemma InitInv()
    ensures Inv(Init())
  {
  }

  lemma AppendStart(log: seq<Effect>, p: Pickup, q: Option<QueueId>, bound: nat)
    requires SharedQueue(log, q) && FreshStarts(log, bound)
    requires q == Some(p.queue) && p.id == bound
    ensures SharedQueue(log + [Start(p)], q) && FreshStarts(log + [Start(p)], bound + 1)
  {
    var log' := log + [Start(p)];
    assert forall i | 0 <= i < |log| :: log'[i] == log[i];
  }

  lemma AppendClose(log: seq<Effect>, p: Pickup, q: Option<QueueId>, bound: nat)
    requires SharedQueue(log, q) && FreshStarts(log, bound)
    ensures SharedQueue(log + [PutClose(p.queue), Join(p.id)], q)
    ensures FreshStarts(log + [PutClose(p.queue), Join(p.id)], bound)
  {
    var log' := log + [PutClose(p.queue), Join(p.id)];
    assert forall i | 0 <= i < |log| :: log'[i] == log[i];
    assert !log'[|log|].Start? && !log'[|log| + 1].Start?;
  }

  lemma StartPickupLogged(s: State, presentationFails: bool)
    requires Wf(s) && Logged(s) && s.reporter.None? && !presentationFails
    ensures Logged(StartPickup(s, presentationFails).0)
  {
    var r := StartPickup(s, presentationFails).0;
    assert r.log[..|r.log| - 1] == s.log;
  }

  lemma StartPickupLogShape(s: State, presentationFails: bool)
    requires Wf(s) && SharedQueue(s.log, s.queue) && FreshStarts(s.log, s.nextId)
    requires s.reporter.None? && !presentationFails
    ensures var r := StartPickup(s, presentationFails).0;
      SharedQueue(r.log, r.queue) && FreshStarts(r.log, r.nextId)
  {
    var r := StartPickup(s, presentationFails).0;
    if s.queue.None? {
      forall i | 0 <= i < |s.log| ensures !s.log[i].Start? {
        if s.log[i].Start? { assert false; }
      }
    }
    AppendStart(s.log, r.pickup.value, r.queue, s.nextId);
  }

  /** With no reporter a session starts (or fails to), keeping the invariant. */
  lemma StartPickupInv(s: State, presentationFails: bool)
    requires Inv(s)
    ensures Inv(StartPickup(s, presentationFails).0)
  {
    if s.reporter.None? && !presentationFails {
      StartPickupLogged(s, presentationFails);
      StartPickupLogShape(s, presentationFails);
    }
  }

  /** Closing the active session appends its sentinel and join: a completed log again. */
  lemma CompletedClose(prefix: seq<Effect>, p: Pickup)
    requires Completed(prefix)
    ensures Completed(prefix + [Start(p), PutClose(p.queue), Join(p.id)])
  {
    var log := prefix + [Start(p), PutClose(p.queue), Join(p.id)];
    assert log[..|log| - 3] == prefix;
  }

  lemma EndPickupLogged(s: State)
    requires Wf(s) && Logged(s) && s.pickup.Some?
    ensures Logged(EndPickup(s))
  {
    var r := EndPickup(s);
    var p := s.pickup.value;
    var prefix := s.log[..|s.log| - 1];
    assert s.log == prefix + [Start(p)];
    assert r.log == prefix + [Start(p), PutClose(p.queue), Join(p.id)];
    CompletedClose(prefix, p);
  }

  lemma EndPickupInv(s: State)
    requires Inv(s)
    ensures Inv(EndPickup(s))
  {
    if s.pickup.Some? {
      EndPickupLogged(s);
      AppendClose(s.log, s.pickup.value, s.queue, s.nextId);
    }
  }

  lemma StepInv(s: State, op: Op)
    requires Inv(s)
    ensures Inv(Step(s, op))
  {
    match op
    case FindOp(f) => StartPickupInv(s, f);
    case RegisterOp(h) =>
    case FlushOp => EndPickupInv(s);
    case FetchEnterOp(f, m) => StartPickupInv(s, f);
    case FetchExitOp(own) => if own && !s.detached { EndPickupInv(s); }
    case DetachOp =>
  }

  lemma {:induction false} RunInv(s: State, ops: seq<Op>)
    requires Inv(s)
    ensures Inv(Run(s, ops))
    decreases |ops|
  {
    if ops != [] {
      StepInv(s, ops[0]);
      RunInv(Step(s, ops[0]), ops[1..]);
    }
  }

  /** Every state reachable from import time satisfies the invariant. */
  lemma ReachableInv(ops: seq<Op>)
    ensures Inv(Run(Init(), ops))
  {
    InitInv();
    RunInv(Init(), ops);
  }

  // ---------------------------------------------------------------------
  // Exactly one close sentinel per pickup

  datatype Kind = Starts | Sentinels | Joins

  predicate OfKind(e: Effect, k: Kind)
  {
    match k
    case Starts => e.Start?
    case Sentinels => e.PutClose?
    case Joins => e.Join?
  }

  function Count(log: seq<Effect>, k: Kind): nat
    decreases |log|
  {
    if log == [] then 0 else (if OfKind(log[0], k) then 1 else 0) + Count(log[1..], k)
  }

  lemma {:induction false} CountAppend(a: seq<Effect>, b: seq<Effect>, k: Kind)
    ensures Count(a + b, k) == Count(a, k) + Count(b, k)
    decreases |a|
  {
    if a == [] {
      assert a + b == b;
    } else {
      assert (a + b)[1..] == a[1..] + b;
      CountAppend(a[1..], b, k);
    }
  }

  /** One complete session holds one effect of each kind. */
  lemma SessionCount(p: Pickup, k: Kind)
    ensures Count([Start(p), PutClose(p.queue), Join(p.id)], k) == 1
  {
    var session := [Start(p), PutClose(p.queue), Join(p.id)];
    assert session[1..][1..][1..] == [];
    assert Count([Join(p.id)], k) == (if k == Joins then 1 else 0);
    assert session[1..][1..] == [Join(p.id)];
    assert Count(session[1..], k) == (if k == Starts then 0 else 1);
    assert session[1..] == [PutClose(p.queue), Join(p.id)];
  }

  lemma {:induction false} CompletedCount(log: seq<Effect>, k: Kind)
    requires Completed(log)
    ensures 3 * Count(log, k) == |log|
    decreases |log|
  {
    if log != [] {
      var prefix := log[..|log| - 3];
      var p := log[|log| - 3].pickup;
      assert log == prefix + [Start(p), PutClose(p.queue), Join(p.id)];
      CompletedCount(prefix, k);
      CountAppend(prefix, [Start(p), PutClose(p.queue), Join(p.id)], k);
      SessionCount(p, k);
    }
  }

  /**
   In every reachable state each pickup started has received exactly one
   close sentinel and been joined once, except the one still active, which
   has received none.
   */
  lemma SentinelPerPickup(s: State)
    requires Inv(s)
    ensures Count(s.log, Sentinels) == Count(s.log, Joins)
    ensures Count(s.log, Starts) == Count(s.log, Sentinels) + (if s.pickup.Some? then 1 else 0)
  {
    if s.pickup.Some? {
      var prefix := s.log[..|s.log| - 1];
      assert s.log == prefix + [Start(s.pickup.value)];
      assert [Start(s.pickup.value)][1..] == [];
      CompletedCount(prefix, Starts);
      CompletedCount(prefix, Sentinels);
      CompletedCount(prefix, Joins);
      CountAppend(prefix, [Start(s.pickup.value)], Starts);
      CountAppend(prefix, [Start(s.pickup.value)], Sentinels);
      CountAppend(prefix, [Start(s.pickup.value)], Joins);
    } else {
      CompletedCount(s.log, Starts);
      CompletedCount(s.log, Sentinels);
      CompletedCount(s.log, Joins);
    }
  }

  // ---------------------------------------------------------------------
  // Call sequences

  /** A registered handle counts as a session: the lazy start leaves everything alone. */
  lemma RegisteredReporterBlocksStart(s: State, handle: Reporter, presentationFails: bool)
    requires Wf(s) && s.pickup.None?
    ensures var t := Register(s, handle);
      && StartPickup(t, presentationFails) == (t, Ok(false))
      && FindReporter(t, presentationFails) == (t, Ok(handle))
      && t.pickup.None? && t.log == s.log
  {
  }

  /**
   No rollback: after `create_presentation()` raised, the reporter stays
   set and no pickup is started, with the log unchanged. The later calls
   stated here are those of this lock-free model; in `funcs.py` the lock
   is then never released, so every later locked call blocks instead.
   */
  lemma FailedStartLeavesReporter(s: State)
    requires Wf(s) && s.reporter.None?
    ensures var t := StartPickup(s, true).0;
      && t.reporter.Some? && t.pickup.None? && t.log == s.log
      && FindReporter(t, false) == (t, Ok(t.reporter.value))
      && StartPickup(EndPickup(t), false).1 == Ok(true)
  {
  }

  /** `flush` twice: the second call sends no sentinel and changes nothing. */
  lemma FlushIdempotent(s: State)
    requires Wf(s)
    ensures EndPickup(EndPickup(s)) == EndPickup(s)
    ensures Count(EndPickup(EndPickup(s)).log, Sentinels) == Count(EndPickup(s).log, Sentinels)
  {
  }

  /** `flush` with no session ever created only clears the (absent) reporter. */
  lemma FlushWithoutSession()
    ensures EndPickup(Init()) == Init()
  {
  }

  /**
   After `flush` the next lazy start creates a new session: a pickup not
   started before, fed by the queue that was kept.
   */
  lemma {:induction false} FlushThenStartCreates(s: State)
    requires Inv(s)
    ensures var (t, started) := StartPickup(EndPickup(s), false);
      && started == Ok(true)
      && t.pickup.Some?
      && (s.queue.Some? ==> t.queue == s.queue)
      && forall i | 0 <= i < |s.log| && s.log[i].Start? :: s.log[i].pickup.id < t.pickup.value.id
  {
    var e := EndPickup(s);
    var t := StartPickup(e, false).0;
    assert t.pickup.value.id == s.nextId;
    forall i | 0 <= i < |s.log| && s.log[i].Start? ensures s.log[i].pickup.id < s.nextId {
      assert FreshStarts(s.log, s.nextId);
    }
  }

  /**
   A whole `fetch_reporter` scope: entry, any steps of any thread while the
   body runs, exit. Teardown happens iff the entry created the session, it
   ran on the main thread, and the detach flag is down at exit; otherwise
   the state at exit is kept.
   */
  lemma FetchScope(s: State, presentationFails: bool, inMainThread: bool, body: seq<Op>)
    requires Wf(s)
    ensures var (s1, reporter, own) := FetchEnter(s, presentationFails, inMainThread);
      var s2 := Run(s1, body);
      && (s.reporter.None? && !presentationFails && inMainThread && !s2.detached ==>
            FetchExit(s2, own) == EndPickup(s2))
      && (!(s.reporter.None? && !presentationFails && inMainThread && !s2.detached) ==>
            FetchExit(s2, own) == s2)
  {
  }

  /**
   Detaching inside an owning scope: the session survives the exit, the
   flag stays up, and the next teardown lowers it.
   */
  lemma DetachOutlivesScope(s: State)
    requires Wf(s) && s.reporter.None?
    ensures var (s1, reporter, own) := FetchEnter(s, false, true);
      var s2 := SetDetach(s1);
      var s3 := FetchExit(s2, own);
      && own
      && s3 == s2 && s3.pickup == s1.pickup && s3.pickup.Some? && s3.detached
      && !EndPickup(s3).detached && EndPickup(s3).pickup.None?
  {
  }

  /** How a thread enters the lazy start: `find_reporter`, or the entry of `fetch_reporter`. */
  datatype Entry = FindEntry | FetchEntry(inMainThread: bool)

  /** One entry with a presentation that builds: the new state, the reporter, and ownership. */
  function Enter(s: State, e: Entry): (r: (State, Result<Reporter>, bool))
    requires Wf(s)
    ensures Wf(r.0)
    ensures (r.0, r.1) == FindReporter(s, false)
    ensures r.2 <==> s.reporter.None? && e == FetchEntry(true)
  {
    match e
    case FindEntry => var (t, x) := FindReporter(s, false); (t, x, false)
    case FetchEntry(m) => FetchEnter(s, false, m)
  }

  /** Threads entering one after another under the lock, each yielding its reporter and ownership. */
  function Entries(s: State, entries: seq<Entry>): (r: (State, seq<(Result<Reporter>, bool)>))
    requires Wf(s)
    ensures Wf(r.0) && |r.1| == |entries|
    decreases |entries|
  {
    if entries == [] then (s, [])
    else
      var (t, x, own) := Enter(s, entries[0]);
      var (u, xs) := Entries(t, entries[1..]);
      (u, [(x, own)] + xs)
  }

  lemma {:induction false} EntriesReuse(s: State, entries: seq<Entry>)
    requires Wf(s) && s.reporter.Some?
    ensures Entries(s, entries).0 == s
    ensures forall i | 0 <= i < |entries| :: Entries(s, entries).1[i] == (Ok(s.reporter.value), false)
    decreases |entries|
  {
    if entries != [] {
      EntriesReuse(s, entries[1..]);
      assert Entries(s, entries).1 == [(Ok(s.reporter.value), false)] + Entries(s, entries[1..]).1;
    }
  }

  /**
   However many threads race into `find_reporter` or `fetch_reporter` with
   no session, exactly one pickup is started, every thread gets the same
   reporter, and at most one scope owns the session: the first, if it is a
   `fetch_reporter` on the main thread.
   */
  lemma {:induction false} RacingEntriesShareOneSession(s: State, entries: seq<Entry>)
    requires Wf(s) && s.reporter.None? && |entries| >= 1
    ensures var (u, results) := Entries(s, entries);
      && u.pickup.Some? && u.log == s.log + [Start(u.pickup.value)]
      && (forall i | 0 <= i < |entries| :: results[i].0 == Ok(u.reporter.value))
      && (forall i | 0 <= i < |entries| :: results[i].1 <==> i == 0 && entries[0] == FetchEntry(true))
  {
    var (t, x, own) := Enter(s, entries[0]);
    EntriesReuse(t, entries[1..]);
    assert Entries(s, entries).1 == [(x, own)] + Entries(t, entries[1..]).1;
  }

  /** From import time on, every session ever started drains one and the same queue. */
  lemma OneQueueForAllSessions(ops: seq<Op>)
    ensures var s := Run(Init(), ops);
      forall i, j | 0 <= i < |s.log| && 0 <= j < |s.log| && s.log[i].Start? && s.log[j].Start? ::
        s.log[i].pickup.queue == s.log[j].pickup.queue
  {
    ReachableInv(ops);
  }
}
