/** The reducer of the drones-map state module: how the three dispatched actions change
    the store's state. */
module DronesReducer {
  import opened Results
  import opened Drones

  /** Zoom level and centre of the map; fixed for the session. */
  datatype MapSettings = MapSettings(zoom: nat, center: LatLng)

  /** One entry of the drone-info list: the pending info request for a drone id. */
  datatype InfoRequest = InfoRequest(droneId: Id)

  /** The store slice; `None` is the `null` the slice starts with. */
  datatype State = State(drones: Option<seq<Drone>>, mapSettings: MapSettings, droneInfo: Option<seq<InfoRequest>>)

  /** The initial state: no drones, no info, the whole globe in view. */
  const InitialState: State := State(None, MapSettings(3, LatLng(Some(0.0), Some(0.0))), None)

  datatype Action =
    | DronesLoaded(drones: seq<Drone>)
    | DroneInfoLoaded(info: seq<InfoRequest>)
    | DronesUpdated(updates: map<Id, Drone>)
    /** Any action of another type; the reducer returns the state it was given. */
    | Unhandled(actionType: string)

  /** The message of the TypeError thrown when updates arrive before any drones were loaded.
      The wording is one JavaScript engine's (newer engines phrase it differently) and the
      program states none; only the throw itself matters here. */
  const NullDronesError := "Cannot read property 'map' of null"

  /** The per-drone callback of the update case: the pending update, if any, else the drone. */
  function Updated(d: Drone, updates: map<Id, Drone>): Drone {
    if d.id in updates then updates[d.id] else d
  }

  /** The drone list after a batch of updates: each drone is looked up by id in the batch. */
  function ApplyUpdates(ds: seq<Drone>, updates: map<Id, Drone>): (r: seq<Drone>)
    ensures |r| == |ds|
    ensures forall i :: 0 <= i < |ds| && ds[i].id in updates ==> r[i] == updates[ds[i].id]
    ensures forall i :: 0 <= i < |ds| && ds[i].id !in updates ==> r[i] == ds[i]
  {
    if ds == [] then [] else [Updated(ds[0], updates)] + ApplyUpdates(ds[1..], updates)
  }

  function Reduce(s: State, a: Action): (r: Result<State>)
    ensures r.Err? <==> a.DronesUpdated? && s.drones.None?
    ensures r.Ok? ==> r.value.mapSettings == s.mapSettings
    ensures r.Ok? && !a.DroneInfoLoaded? ==> r.value.droneInfo == s.droneInfo
    ensures r.Ok? && (a.DronesUpdated? || a.Unhandled?) ==> (r.value.drones.Some? <==> s.drones.Some?)
    ensures a.DronesLoaded? ==> r.Ok? && r.value.drones == Some(a.drones)
    ensures a.DroneInfoLoaded? ==> r.Ok? && r.value.droneInfo == Some(a.info) && r.value.drones == s.drones
    ensures a.Unhandled? ==> r == Ok(s)
    ensures r.Ok? && a.DronesUpdated? ==>
      var before, after := s.drones.value, r.value.drones.value;
      && |after| == |before|
      && (forall i :: 0 <= i < |before| && before[i].id in a.updates ==> after[i] == a.updates[before[i].id])
      && (forall i :: 0 <= i < |before| && before[i].id !in a.updates ==> after[i] == before[i])
    ensures r.Err? ==> r.message == NullDronesError
  {
    match a
    case DronesLoaded(ds) => Ok(s.(drones := Some(ds)))
    case DroneInfoLoaded(info) => Ok(s.(droneInfo := Some(info)))
    case DronesUpdated(updates) =>
      if s.drones.None? then Err(NullDronesError)
      else Ok(s.(drones := Some(ApplyUpdates(s.drones.value, updates))))
    case Unhandled(_) => Ok(s)
  }

  /** A well-keyed batch never changes which drone sits where: ids keep their positions. */
  lemma ApplyUpdatesKeepsIds(ds: seq<Drone>, updates: map<Id, Drone>)
    requires WellKeyed(updates)
    ensures forall i :: 0 <= i < |ds| ==> ApplyUpdates(ds, updates)[i].id == ds[i].id
    ensures Ids(ApplyUpdates(ds, updates)) == Ids(ds)
  {
  }

  /** Updates for ids the list does not hold are dropped: the list never grows new drones. */
  lemma UnknownUpdatesIgnored(ds: seq<Drone>, updates: map<Id, Drone>)
    requires updates.Keys !! Ids(ds)
    ensures ApplyUpdates(ds, updates) == ds
  {
  }

  /** Applying a well-keyed batch twice is the same as applying it once. */
  lemma ApplyUpdatesIdempotent(ds: seq<Drone>, updates: map<Id, Drone>)
    requires WellKeyed(updates)
    ensures ApplyUpdates(ApplyUpdates(ds, updates), updates) == ApplyUpdates(ds, updates)
  {
  }

  /** Two batches applied one after the other have the effect of their merge, the later
      batch winning on shared ids. */
  lemma ApplyUpdatesCompose(ds: seq<Drone>, first: map<Id, Drone>, second: map<Id, Drone>)
    requires WellKeyed(first)
    ensures ApplyUpdates(ApplyUpdates(ds, first), second) == ApplyUpdates(ds, first + second)
  {
  }
}
