/** The update coalescing of the drones-map state module: position updates from the stream are
    collected by id and handed to the reducer as one batch, at most once per redraw interval.
    Time is an explicit clock reading (milliseconds) carried by every event; the timer is the
    time it is due. */
module UpdateCoalescer {
  import opened Results
  import opened Drones
  import opened DronesReducer

  /** The minimum time between two redraws, in milliseconds. */
  const MIN_REDRAW_DIFF: nat := 3000

  /** The module-level state: whether a socket is open, the pending batch, the outstanding
      flush timer (its due time) and the time of the last flush (or of loading). */
  datatype Session = Session(connected: bool, pending: map<Id, Drone>, timer: Option<nat>, lastUpdated: Option<nat>)

  /** The state before the first load and after a disconnect. */
  const Initial: Session := Session(false, map[], None, None)

  /** The delay handed to the timer: the minimum interval less the time since the last
      update. The one-argument `Math.max` returns its argument, so this can be negative; a
      missing `lastUpdated` counts as 0 in the subtraction. */
  function RequestedDelay(now: nat, lastUpdated: Option<nat>): int {
    MIN_REDRAW_DIFF - (now - (if lastUpdated.Some? then lastUpdated.value else 0))
  }

  /** The timer treats a negative delay as 0. */
  function TimerDelay(requested: int): nat {
    if requested < 0 then 0 else requested
  }

  /** The delay of a newly scheduled flush. */
  function ScheduledDelay(now: nat, lastUpdated: Option<nat>): (d: nat)
    ensures lastUpdated.Some? && lastUpdated.value <= now ==> d <= MIN_REDRAW_DIFF
    ensures lastUpdated.Some? ==> now + d == Max(now, lastUpdated.value + MIN_REDRAW_DIFF)
    ensures lastUpdated.None? ==> now + d == Max(now, MIN_REDRAW_DIFF)
  {
    TimerDelay(RequestedDelay(now, lastUpdated))
  }

  function Max(a: int, b: int): int {
    if a < b then b else a
  }

  /** The position-update handler: record the drone as the pending update for its id and,
      unless a timer is already outstanding, schedule the flush. */
  function HandleUpdate(s: Session, d: Drone, now: nat): (r: Session)
    ensures r.pending.Keys == s.pending.Keys + {d.id}
    ensures r.pending[d.id] == d
    ensures forall k :: k in s.pending && k != d.id ==> r.pending[k] == s.pending[k]
    ensures r.timer.Some?
    ensures s.timer.Some? ==> r.timer == s.timer
    ensures s.timer.None? ==> now <= r.timer.value
    ensures s.timer.None? && s.lastUpdated.Some? ==>
      r.timer == Some(Max(now, s.lastUpdated.value + MIN_REDRAW_DIFF))
    ensures s.timer.None? && s.lastUpdated.None? ==> r.timer == Some(Max(now, MIN_REDRAW_DIFF))
    ensures s.timer.None? && s.lastUpdated.Some? && s.lastUpdated.value <= now ==>
      r.timer.value <= now + MIN_REDRAW_DIFF
    ensures r.connected == s.connected && r.lastUpdated == s.lastUpdated
  {
    var pending := s.pending[d.id := d];
    if s.timer.Some? then s.(pending := pending)
    else s.(pending := pending, timer := Some(now + ScheduledDelay(now, s.lastUpdated)))
  }

  /** What the timer callback does when the clock reads `now`: if the timer is due, hand
      over the whole pending batch, empty it, clear the timer and record the flush time. */
  function Fire(s: Session, now: nat): (r: (Session, Option<map<Id, Drone>>))
    ensures r.1.Some? <==> s.timer.Some? && s.timer.value <= now
    ensures r.1.Some? ==>
      && r.1.value == s.pending
      && r.0.pending == map[]
      && r.0.timer.None?
      && r.0.lastUpdated == Some(now)
      && r.0.connected == s.connected
    ensures r.1.None? ==> r.0 == s
  {
    if s.timer.Some? && s.timer.value <= now then
      (s.(pending := map[], timer := None, lastUpdated := Some(now)), Some(s.pending))
    else (s, None)
  }

  /** The message of the TypeError thrown by closing a socket that is not there. The socket
      is `undefined` before the first load and `null` after a disconnect, and the wording is
      the JavaScript engine's, not the program's; only the throw itself matters here. */
  const NoSocketError := "TypeError: socket is not open"

  /** Disconnecting closes the socket, cancels the timer and forgets the pending batch and the
      flush time. With no open socket (before the first load, or after an earlier disconnect)
      closing it throws before anything is reset. */
  function Disconnect(s: Session): (r: Result<Session>)
    ensures r.Err? <==> !s.connected
    ensures r.Err? ==> r.message == NoSocketError
    ensures r.Ok? ==> !r.value.connected && r.value.pending == map[] && r.value.timer.None? && r.value.lastUpdated.None?
  {
    if s.connected then Ok(Initial) else Err(NoSocketError)
  }

  /** The synchronous tail of loading: the load time becomes `lastUpdated` and the socket
      opens. The pending batch and the timer are left as they are. */
  function Connect(s: Session, now: nat): (r: Session)
    ensures r.connected && r.lastUpdated == Some(now)
    ensures r.pending == s.pending && r.timer == s.timer
  {
    s.(connected := true, lastUpdated := Some(now))
  }

  /** The info list dispatched after loading: one request per drone, in list order. */
  function InfoRequests(ds: seq<Drone>): (r: seq<InfoRequest>)
    ensures |r| == |ds|
    ensures forall i :: 0 <= i < |ds| ==> r[i].droneId == ds[i].id
  {
    seq(|ds|, i requires 0 <= i < |ds| => InfoRequest(ds[i].id))
  }

  datatype Event =
    /** The drone list arrived and the session connects. */
    | Loaded(at: nat, drones: seq<Drone>)
    /** A position-update message from the stream. */
    | PositionUpdate(at: nat, drone: Drone)
    /** The clock reads `at`; a timer due by then fires. */
    | Tick(at: nat)
    | Disconnected(at: nat)

  /** An action handed to the store, stamped with the time it was dispatched. */
  datatype Dispatch = Dispatch(at: nat, action: Action)

  datatype Step = Step(session: Session, out: seq<Dispatch>)

  /** One event and what it dispatches. A closed socket delivers no messages, so an update
      while disconnected changes nothing; a disconnect that throws changes nothing either. */
  function Deliver(s: Session, e: Event): (r: Step)
    ensures forall i :: 0 <= i < |r.out| ==> r.out[i].at == e.at
    ensures e.Loaded? ==>
      && |r.out| == 2
      && r.out[0].action == DronesLoaded(e.drones)
      && r.out[1].action.DroneInfoLoaded? && |r.out[1].action.info| == |e.drones|
      && (forall i :: 0 <= i < |e.drones| ==> r.out[1].action.info[i].droneId == e.drones[i].id)
      && r.session.connected && r.session.lastUpdated == Some(e.at)
      && r.session.pending == s.pending && r.session.timer == s.timer
    ensures e.PositionUpdate? ==> r.out == []
    ensures e.PositionUpdate? && !s.connected ==> r.session == s
    ensures e.PositionUpdate? && s.connected ==>
      r.session.pending == s.pending[e.drone.id := e.drone] && r.session.timer.Some?
    ensures e.Tick? ==> (r.out != [] <==> Fires(s, e))
    ensures e.Tick? && Fires(s, e) ==> r.out == [Dispatch(e.at, DronesUpdated(s.pending))] && r.session.pending == map[]
    ensures !Fires(s, e) && !e.Loaded? ==> r.out == []
    ensures e.Disconnected? && s.connected ==> r.session == Initial
    ensures e.Disconnected? && !s.connected ==> r.session == s
  {
    match e
    case Loaded(at, ds) =>
      Step(Connect(s, at), [Dispatch(at, DronesLoaded(ds)), Dispatch(at, DroneInfoLoaded(InfoRequests(ds)))])
    case PositionUpdate(at, d) =>
      if s.connected then Step(HandleUpdate(s, d, at), []) else Step(s, [])
    case Tick(at) =>
      var (s', batch) := Fire(s, at);
      Step(s', if batch.Some? then [Dispatch(at, DronesUpdated(batch.value))] else [])
    case Disconnected(_) =>
      match Disconnect(s)
      case Ok(s') => Step(s', [])
      case Err(_) => Step(s, [])
  }

  /** A sequence of events, in order, and everything they dispatch. */
  function Run(s: Session, es: seq<Event>): Step
    decreases |es|
  {
    if es == [] then Step(s, [])
    else
      var first := Deliver(s, es[0]);
      var rest := Run(first.session, es[1..]);
      Step(rest.session, first.out + rest.out)
  }

  /** Events whose clock readings never go backwards and start no earlier than `clock`. */
  ghost predicate Monotone(es: seq<Event>, clock: nat)
    decreases |es|
  {
    es != [] ==> clock <= es[0].at && Monotone(es[1..], es[0].at)
  }

  // ---------------------------------------------------------------------------
  // Invariants of the session
  // ---------------------------------------------------------------------------

  /** A timer is outstanding exactly when updates are pending, the pending batch is keyed
      by drone id, and a disconnected session holds nothing. */
  ghost predicate Consistent(s: Session) {
    && (s.timer.Some? <==> s.pending != map[])
    && WellKeyed(s.pending)
    && (!s.connected ==> s.timer.None?)
  }

  lemma DeliverConsistent(s: Session, e: Event)
    requires Consistent(s)
    ensures Consistent(Deliver(s, e).session)
    ensures forall i :: 0 <= i < |Deliver(s, e).out| && Deliver(s, e).out[i].action.DronesUpdated? ==>
      Deliver(s, e).out[i].action.updates != map[] && WellKeyed(Deliver(s, e).out[i].action.updates)
  {
  }

  /** Every batch a consistent session flushes is non-empty and keyed by drone id. */
  lemma {:induction false} RunConsistent(s: Session, es: seq<Event>)
    requires Consistent(s)
    ensures Consistent(Run(s, es).session)
    ensures forall i :: 0 <= i < |Run(s, es).out| && Run(s, es).out[i].action.DronesUpdated? ==>
      Run(s, es).out[i].action.updates != map[] && WellKeyed(Run(s, es).out[i].action.updates)
    decreases |es|
  {
    if es != [] {
      DeliverConsistent(s, es[0]);
      RunConsistent(Deliver(s, es[0]).session, es[1..]);
    }
  }

  // ---------------------------------------------------------------------------
  // At most one flush per redraw interval
  // ---------------------------------------------------------------------------

  /** Flushes in an output are at least the minimum interval apart. */
  ghost predicate Spaced(out: seq<Dispatch>) {
    forall i, j :: 0 <= i < j < |out| && out[i].action.DronesUpdated? && out[j].action.DronesUpdated? ==>
      out[i].at + MIN_REDRAW_DIFF <= out[j].at
  }

  /** No flush in an output comes sooner than the minimum interval after `lastFlush`. */
  ghost predicate NotBefore(out: seq<Dispatch>, lastFlush: Option<nat>) {
    lastFlush.Some? ==>
      forall i :: 0 <= i < |out| && out[i].action.DronesUpdated? ==> lastFlush.value + MIN_REDRAW_DIFF <= out[i].at
  }

  /** What the session keeps true after a flush at `lastFlush`, with the clock at `clock`: a
      connected session's `lastUpdated` is no earlier than that flush, and an outstanding
      timer is due no sooner than the minimum interval after it. */
  ghost predicate Throttled(s: Session, lastFlush: Option<nat>, clock: nat) {
    lastFlush.Some? ==>
      && lastFlush.value <= clock
      && (s.connected ==> s.lastUpdated.Some? && lastFlush.value <= s.lastUpdated.value)
      && (s.timer.Some? ==> lastFlush.value + MIN_REDRAW_DIFF <= s.timer.value)
  }

  /** Whether this event fires the timer. */
  predicate Fires(s: Session, e: Event) {
    e.Tick? && s.timer.Some? && s.timer.value <= e.at
  }

  lemma DeliverThrottled(s: Session, e: Event, lastFlush: Option<nat>, clock: nat)
    requires Throttled(s, lastFlush, clock) && clock <= e.at
    ensures Throttled(Deliver(s, e).session, if Fires(s, e) then Some(e.at) else lastFlush, e.at)
    ensures NotBefore(Deliver(s, e).out, lastFlush)
    ensures Fires(s, e) ==> |Deliver(s, e).out| == 1 && Deliver(s, e).out[0].at == e.at
    ensures !Fires(s, e) ==> forall i :: 0 <= i < |Deliver(s, e).out| ==> !Deliver(s, e).out[i].action.DronesUpdated?
  {
  }

  /** Two spaced outputs in a row stay spaced when every flush of the first is no later than
      `last` and the second keeps the minimum interval after `last`. */
  lemma SpacedConcat(a: seq<Dispatch>, b: seq<Dispatch>, last: Option<nat>)
    requires Spaced(a) && Spaced(b) && NotBefore(b, last)
    requires forall i :: 0 <= i < |a| && a[i].action.DronesUpdated? ==> last.Some? && a[i].at <= last.value
    ensures Spaced(a + b)
  {
    var out := a + b;
    forall i, j | 0 <= i < j < |out| && out[i].action.DronesUpdated? && out[j].action.DronesUpdated?
      ensures out[i].at + MIN_REDRAW_DIFF <= out[j].at
    {
      if j < |a| {
        assert out[i] == a[i] && out[j] == a[j];
      } else if i < |a| {
        assert out[i] == a[i] && out[j] == b[j - |a|];
      } else {
        assert out[i] == b[i - |a|] && out[j] == b[j - |a|];
      }
    }
  }

  /** Keeping the minimum interval after a flush is kept by concatenation. */
  lemma NotBeforeConcat(a: seq<Dispatch>, b: seq<Dispatch>, lastFlush: Option<nat>)
    requires NotBefore(a, lastFlush) && NotBefore(b, lastFlush)
    ensures NotBefore(a + b, lastFlush)
  {
    if lastFlush.Some? {
      var out := a + b;
      forall i | 0 <= i < |out| && out[i].action.DronesUpdated?
        ensures lastFlush.value + MIN_REDRAW_DIFF <= out[i].at
      {
        if i < |a| {
          assert out[i] == a[i];
        } else {
          assert out[i] == b[i - |a|];
        }
      }
    }
  }

  /** From a throttled session, a run whose clock never goes backwards flushes at most once
      per redraw interval. */
  lemma {:induction false} RunThrottled(s: Session, es: seq<Event>, lastFlush: Option<nat>, clock: nat)
    requires Throttled(s, lastFlush, clock) && Monotone(es, clock)
    ensures Spaced(Run(s, es).out)
    ensures NotBefore(Run(s, es).out, lastFlush)
    decreases |es|
  {
    if es != [] {
      var e := es[0];
      var first := Deliver(s, e);
      var lastFlush' := if Fires(s, e) then Some(e.at) else lastFlush;
      DeliverThrottled(s, e, lastFlush, clock);
      RunThrottled(first.session, es[1..], lastFlush', e.at);
      var rest := Run(first.session, es[1..]);
      assert Spaced(first.out);
      SpacedConcat(first.out, rest.out, lastFlush');
      assert NotBefore(rest.out, lastFlush);
      NotBeforeConcat(first.out, rest.out, lastFlush);
    }
  }

  /** Started fresh and driven by a clock that never goes backwards, the store is never asked
      to redraw twice within the minimum interval. */
  lemma FlushesSpaced(es: seq<Event>)
    requires Monotone(es, 0)
    ensures Spaced(Run(Initial, es).out)
  {
    RunThrottled(Initial, es, None, 0);
  }

  // ---------------------------------------------------------------------------
  // Every update is flushed within one interval
  // ---------------------------------------------------------------------------

  /** `lastUpdated` is never ahead of the clock, and an outstanding timer is due within one
      interval of it. */
  ghost predicate Prompt(s: Session, clock: nat) {
    && (s.lastUpdated.Some? ==> s.lastUpdated.value <= clock)
    && (s.timer.Some? ==> s.timer.value <= clock + MIN_REDRAW_DIFF)
  }

  /** The clock reading after a run: that of its last event. */
  function ClockAfter(es: seq<Event>, clock: nat): nat {
    if es == [] then clock else es[|es| - 1].at
  }

  lemma {:induction false} RunPrompt(s: Session, es: seq<Event>, clock: nat)
    requires Prompt(s, clock) && Monotone(es, clock)
    ensures clock <= ClockAfter(es, clock)
    ensures Prompt(Run(s, es).session, ClockAfter(es, clock))
    decreases |es|
  {
    if es != [] {
      var e := es[0];
      var s1 := Deliver(s, e).session;
      assert Prompt(s1, e.at);
      RunPrompt(s1, es[1..], e.at);
      if |es| > 1 {
        assert ClockAfter(es[1..], e.at) == ClockAfter(es, clock);
      }
    }
  }

  /** An update delivered to a prompt, connected session is in the batch that a tick one
      interval later dispatches, whether it scheduled the timer or joined an outstanding one. */
  lemma UpdateFlushedWithinInterval(s: Session, clock: nat, d: Drone, now: nat)
    requires Prompt(s, clock) && clock <= now && s.connected
    ensures var out := Run(s, [PositionUpdate(now, d), Tick(now + MIN_REDRAW_DIFF)]).out;
      && |out| == 1
      && out[0].action.DronesUpdated?
      && d.id in out[0].action.updates
      && out[0].action.updates[d.id] == d
  {
    var es := [PositionUpdate(now, d), Tick(now + MIN_REDRAW_DIFF)];
    var s1 := HandleUpdate(s, d, now);
    assert s1.timer.value <= now + MIN_REDRAW_DIFF;
    assert Deliver(s, es[0]) == Step(s1, []);
    var fire := Deliver(s1, Tick(now + MIN_REDRAW_DIFF));
    assert es[1..] == [Tick(now + MIN_REDRAW_DIFF)];
    assert Run(s1, es[1..]).out == fire.out + Run(fire.session, []).out;
    assert Run(s, es).out == fire.out;
  }

  // ---------------------------------------------------------------------------
  // Disconnect
  // ---------------------------------------------------------------------------

  /** A closed session with no timer dispatches nothing until it is loaded again. */
  lemma {:induction false} QuietUntilLoaded(s: Session, es: seq<Event>)
    requires !s.connected && s.timer.None?
    requires forall i :: 0 <= i < |es| ==> !es[i].Loaded?
    ensures Run(s, es).out == []
    decreases |es|
  {
    if es != [] {
      assert !es[0].Loaded?;
      QuietUntilLoaded(Deliver(s, es[0]).session, es[1..]);
    }
  }

  /** After a disconnect, whether it closes the socket or throws for want of one, nothing is
      dispatched, however many late events arrive, until the drones are loaded again. Every
      reachable session is consistent (`RunConsistent`). */
  lemma NoDispatchAfterDisconnect(s: Session, t: nat, es: seq<Event>)
    requires Consistent(s)
    requires forall i :: 0 <= i < |es| ==> !es[i].Loaded?
    ensures Run(s, [Disconnected(t)] + es).out == []
  {
    var all := [Disconnected(t)] + es;
    assert all[1..] == es;
    QuietUntilLoaded(Deliver(s, Disconnected(t)).session, es);
  }

  // ---------------------------------------------------------------------------
  // Last write wins
  // ---------------------------------------------------------------------------

  /** The pending batch after a burst of updates: each update stored under its drone's id. */
  function Merged(pending: map<Id, Drone>, ds: seq<Drone>): map<Id, Drone> {
    Keyed(pending, ds, ds)
  }

  /** The drones carried by the position updates among `es`, in order. */
  function UpdatedDrones(es: seq<Event>): seq<Drone>
    decreases |es|
  {
    if es == [] then []
    else if es[0].PositionUpdate? then [es[0].drone] + UpdatedDrones(es[1..])
    else UpdatedDrones(es[1..])
  }

  /** A burst of position updates to a connected session dispatches nothing; the pending
      batch then holds, for every id, the last update received, and the entries of all other
      ids as they were. (A tick before the due time changes nothing, see `Fire`.) */
  lemma {:induction false} LastWriteWins(s: Session, es: seq<Event>)
    requires s.connected
    requires forall i :: 0 <= i < |es| ==> es[i].PositionUpdate?
    ensures Run(s, es).out == []
    ensures Run(s, es).session.pending == Merged(s.pending, UpdatedDrones(es))
    ensures var pending, ds := Run(s, es).session.pending, UpdatedDrones(es);
      && pending.Keys == s.pending.Keys + Ids(ds)
      && (forall k :: k in Ids(ds) ==> pending[k] == ds[LastIndex(ds, k)])
      && (forall k :: k in s.pending && k !in Ids(ds) ==> pending[k] == s.pending[k])
    decreases |es|
  {
    if es != [] {
      var e := es[0];
      var first := Deliver(s, e);
      assert forall i :: 0 <= i < |es[1..]| ==> es[1..][i] == es[i + 1];
      LastWriteWins(first.session, es[1..]);
      var ds := [e.drone] + UpdatedDrones(es[1..]);
      assert ds[1..] == UpdatedDrones(es[1..]);
    }
  }

  /** Two updates to one drone inside a window reach the store as one batch holding the
      later one: a tick before the due time dispatches nothing. */
  lemma ExampleOneBatchPerWindow()
    ensures
      var d := Drone("5", "Drone 5", "in-motion", [10.0, 20.0]);
      var a := d.(currentLocation := [11.0, 21.0]);
      var b := d.(currentLocation := [12.0, 22.0]);
      Run(Initial, [Loaded(0, [d]), PositionUpdate(2900, a), PositionUpdate(2950, b), Tick(2999), Tick(3000)]).out
      == [Dispatch(0, DronesLoaded([d])), Dispatch(0, DroneInfoLoaded([InfoRequest("5")])),
          Dispatch(3000, DronesUpdated(map["5" := b]))]
  {
    var d := Drone("5", "Drone 5", "in-motion", [10.0, 20.0]);
    var a := d.(currentLocation := [11.0, 21.0]);
    var b := d.(currentLocation := [12.0, 22.0]);
    var flush := [Dispatch(3000, DronesUpdated(map["5" := b]))];
    var s1 := Connect(Initial, 0);
    var s2 := HandleUpdate(s1, a, 2900);
    assert s2.timer == Some(3000);
    var s3 := HandleUpdate(s2, b, 2950);
    assert s3.pending == map["5" := b];
    var s4 := Fire(s3, 3000).0;
    assert Run(s3, [Tick(3000)]).out == flush + Run(s4, []).out;
    assert [Tick(2999), Tick(3000)][1..] == [Tick(3000)];
    assert Run(s3, [Tick(2999), Tick(3000)]).out == flush;
    assert [PositionUpdate(2950, b), Tick(2999), Tick(3000)][1..] == [Tick(2999), Tick(3000)];
    assert Run(s2, [PositionUpdate(2950, b), Tick(2999), Tick(3000)]).out == flush;
    var es := [Loaded(0, [d]), PositionUpdate(2900, a), PositionUpdate(2950, b), Tick(2999), Tick(3000)];
    assert es[1..] == [PositionUpdate(2900, a), PositionUpdate(2950, b), Tick(2999), Tick(3000)];
    assert es[1..][1..] == [PositionUpdate(2950, b), Tick(2999), Tick(3000)];
    assert Run(s1, es[1..]).out == flush;
    assert InfoRequests([d]) == [InfoRequest("5")];
  }

  /** A batch carries what was pending when its timer fired, and a later update waits for
      the next window: loaded at 100, an update at 3000 is flushed alone at 3100, and one at
      3500 is flushed alone at 6100, not at 6099. */
  lemma ExampleEachWindowItsOwnBatch()
    ensures
      var d := Drone("5", "Drone 5", "in-motion", [10.0, 20.0]);
      var a := d.(currentLocation := [11.0, 21.0]);
      var b := d.(currentLocation := [12.0, 22.0]);
      Run(Initial, [Loaded(100, [d]), PositionUpdate(3000, a), Tick(3100), PositionUpdate(3500, b), Tick(6099), Tick(6100)]).out
      == [Dispatch(100, DronesLoaded([d])), Dispatch(100, DroneInfoLoaded([InfoRequest("5")])),
          Dispatch(3100, DronesUpdated(map["5" := a])), Dispatch(6100, DronesUpdated(map["5" := b]))]
  {
    var d := Drone("5", "Drone 5", "in-motion", [10.0, 20.0]);
    var a := d.(currentLocation := [11.0, 21.0]);
    var b := d.(currentLocation := [12.0, 22.0]);
    var second := [Dispatch(6100, DronesUpdated(map["5" := b]))];
    var s1 := Connect(Initial, 100);
    var s2 := HandleUpdate(s1, a, 3000);
    assert s2.timer == Some(3100);
    var s3 := Fire(s2, 3100).0;
    assert s3.lastUpdated == Some(3100) && s3.pending == map[];
    var s4 := HandleUpdate(s3, b, 3500);
    assert s4.timer == Some(6100);
    var s5 := Fire(s4, 6100).0;
    assert Run(s4, [Tick(6100)]).out == second + Run(s5, []).out;
    assert [Tick(6099), Tick(6100)][1..] == [Tick(6100)];
    assert Run(s4, [Tick(6099), Tick(6100)]).out == second;
    assert [PositionUpdate(3500, b), Tick(6099), Tick(6100)][1..] == [Tick(6099), Tick(6100)];
    assert Run(s3, [PositionUpdate(3500, b), Tick(6099), Tick(6100)]).out == second;
    var es := [Loaded(100, [d]), PositionUpdate(3000, a), Tick(3100), PositionUpdate(3500, b), Tick(6099), Tick(6100)];
    assert es[1..][1..][1..] == [PositionUpdate(3500, b), Tick(6099), Tick(6100)];
    assert Run(s2, es[1..][1..]).out == [Dispatch(3100, DronesUpdated(map["5" := a]))] + second;
    assert Run(s1, es[1..]).out == [Dispatch(3100, DronesUpdated(map["5" := a]))] + second;
    assert InfoRequests([d]) == [InfoRequest("5")];
  }
}
