/** How the pieces fit together: batches flushed by the session, applied by the reducer and
    drawn by the map view. */
module Pipeline {
  import opened Results
  import opened Drones
  import opened DronesReducer
  import opened UpdateCoalescer
  import opened DronesMapView

  // ---------------------------------------------------------------------------
  // Coalescing does not change what the store ends up holding
  // ---------------------------------------------------------------------------

  /** The uncoalesced alternative: every update applied to the list on its own, on arrival. */
  function ApplyEach(ds: seq<Drone>, us: seq<Drone>): seq<Drone>
    decreases |us|
  {
    if us == [] then ds else ApplyEach(ApplyUpdates(ds, map[us[0].id := us[0]]), us[1..])
  }

  lemma {:induction false} ApplyEachAfterBatch(ds: seq<Drone>, pending: map<Id, Drone>, us: seq<Drone>)
    requires WellKeyed(pending)
    ensures ApplyEach(ApplyUpdates(ds, pending), us) == ApplyUpdates(ds, Merged(pending, us))
    decreases |us|
  {
    if us != [] {
      var single := map[us[0].id := us[0]];
      ApplyUpdatesCompose(ds, pending, single);
      assert pending + single == pending[us[0].id := us[0]];
      ApplyEachAfterBatch(ds, pending[us[0].id := us[0]], us[1..]);
      assert Merged(pending, us) == Merged(pending[us[0].id := us[0]], us[1..]);
    }
  }

  /** Applying one coalesced batch leaves the drone list exactly as applying every update
      on its own, in arrival order, would have. */
  lemma BatchingIsInvisible(ds: seq<Drone>, us: seq<Drone>)
    ensures ApplyUpdates(ds, Merged(map[], us)) == ApplyEach(ds, us)
  {
    UnknownUpdatesIgnored(ds, map[]);
    ApplyEachAfterBatch(ds, map[], us);
  }

  // ---------------------------------------------------------------------------
  // A flushed batch moves the markers
  // ---------------------------------------------------------------------------

  /** After a well-keyed batch is applied and the new list handed to the view, the marker of
      every drone in the batch that the list and the table both know shows the update's
      position and name, and keeps its icon. */
  lemma FlushMovesMarkers(table: map<Id, Marker>, ds: seq<Drone>, updates: map<Id, Drone>, k: Id)
    requires WellKeyed(updates)
    requires k in table && k in updates && k in Ids(ds)
    ensures var m := ReceiveProps(table, ApplyUpdates(ds, updates))[k];
      m.position == GetLatLng(updates[k]) && m.text == updates[k].name && m.icon == table[k].icon
  {
  }

  // ---------------------------------------------------------------------------
  // The store is loaded before any batch reaches it
  // ---------------------------------------------------------------------------

  /** The dispatched actions applied to the store in order; the first throw stops the run. */
  function ReduceAll(st: State, out: seq<Dispatch>): Result<State>
    decreases |out|
  {
    if out == [] then Ok(st)
    else
      match Reduce(st, out[0].action)
      case Err(e) => Err(e)
      case Ok(st') => ReduceAll(st', out[1..])
  }

  lemma {:induction false} ReduceAllAppend(st: State, a: seq<Dispatch>, b: seq<Dispatch>)
    ensures ReduceAll(st, a + b) ==
      (if ReduceAll(st, a).Ok? then ReduceAll(ReduceAll(st, a).value, b) else ReduceAll(st, a))
    decreases |a|
  {
    if a != [] {
      assert (a + b)[1..] == a[1..] + b;
      if Reduce(st, a[0].action).Ok? {
        ReduceAllAppend(Reduce(st, a[0].action).value, a[1..], b);
      }
    } else {
      assert a + b == b;
    }
  }

  /** While the socket is open or a flush is outstanding, the store has a drone list. */
  ghost predicate Ready(s: Session, st: State) {
    s.connected || s.timer.Some? ==> st.drones.Some?
  }

  lemma DeliverReady(s: Session, st: State, e: Event)
    requires Ready(s, st)
    ensures ReduceAll(st, Deliver(s, e).out).Ok?
    ensures Ready(Deliver(s, e).session, ReduceAll(st, Deliver(s, e).out).value)
  {
    var out := Deliver(s, e).out;
    if e.Loaded? {
      var st1 := Reduce(st, out[0].action).value;
      var st2 := Reduce(st1, out[1].action).value;
      assert st2.drones == Some(e.drones);
      assert out[1..][1..] == [];
      assert ReduceAll(st, out) == ReduceAll(st1, out[1..]) == ReduceAll(st2, []);
    } else if out != [] {
      assert out[1..] == [];
    }
  }

  /** Driven from a ready state, the session never hands the reducer a batch before the
      drones are loaded, so reducing what it dispatches never throws. */
  lemma {:induction false} RunReady(s: Session, st: State, es: seq<Event>)
    requires Ready(s, st)
    ensures ReduceAll(st, Run(s, es).out).Ok?
    decreases |es|
  {
    if es != [] {
      var first := Deliver(s, es[0]);
      DeliverReady(s, st, es[0]);
      var st1 := ReduceAll(st, first.out).value;
      RunReady(first.session, st1, es[1..]);
      ReduceAllAppend(st, first.out, Run(first.session, es[1..]).out);
    }
  }

  /** From the initial session and store, no sequence of events makes the reducer throw. */
  lemma StoreNeverThrows(es: seq<Event>)
    ensures ReduceAll(InitialState, Run(Initial, es).out).Ok?
  {
    RunReady(Initial, InitialState, es);
  }
}
