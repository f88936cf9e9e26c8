/** The drone records shared by the state module and the map view. */
module Drones {
  import opened Results

  /** Drone ids as the code uses them: property names of plain objects. */
  type Id = string

  /** A map position. A coordinate that the location array does not hold is `None` (undefined). */
  datatype LatLng = LatLng(lat: Option<real>, lng: Option<real>)

  /** A drone as delivered by the API and by the position stream; `currentLocation` is
      read as [longitude, latitude]. */
  datatype Drone = Drone(id: Id, name: string, status: string, currentLocation: seq<real>)

  /** The ids occurring in a drone list. */
  function Ids(ds: seq<Drone>): set<Id> {
    set d | d in ds :: d.id
  }

  lemma IdsCons(ds: seq<Drone>)
    requires ds != []
    ensures Ids(ds) == {ds[0].id} + Ids(ds[1..])
  {
  }

  /** The position of the last drone with id `k` in `ds`, or -1 when there is none:
      where a list is folded into an id-keyed table, this is the entry that wins. */
  function LastIndex(ds: seq<Drone>, k: Id): (i: int)
    ensures -1 <= i < |ds|
    ensures i == -1 <==> k !in Ids(ds)
    ensures i >= 0 ==> ds[i].id == k && forall j :: i < j < |ds| ==> ds[j].id != k
  {
    if ds == [] then -1
    else
      IdsCons(ds);
      var j := LastIndex(ds[1..], k);
      if j >= 0 then j + 1
      else if ds[0].id == k then 0
      else -1
  }

  /** A table in which every drone is stored under its own id, as the code builds it
      with `table[drone.id] = drone`. */
  ghost predicate WellKeyed(table: map<Id, Drone>) {
    forall k :: k in table ==> table[k].id == k
  }

  /** Folding a list into an id-keyed table: for each drone in order, `table[ds[i].id]`
      becomes `vals[i]`, so the last drone with an id decides its entry. */
  function Keyed<V>(acc: map<Id, V>, ds: seq<Drone>, vals: seq<V>): (r: map<Id, V>)
    requires |vals| == |ds|
    ensures r.Keys == acc.Keys + Ids(ds)
    ensures forall k :: k in Ids(ds) ==> r[k] == vals[LastIndex(ds, k)]
    ensures forall k :: k in acc && k !in Ids(ds) ==> r[k] == acc[k]
    decreases |ds|
  {
    if ds == [] then acc
    else
      IdsCons(ds);
      Keyed(acc[ds[0].id := vals[0]], ds[1..], vals[1..])
  }
}
