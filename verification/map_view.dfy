/** The marker bookkeeping of the drones map view: the icon chosen for a status, the position
    read from a drone, the id-to-marker table built on mount and the repositioning on new
    props. A map marker is the record of the three properties the view sets on it. */
module DronesMapView {
  import opened Results
  import opened Drones

  const IN_MOTION := "in-motion"
  const IDLE_READY := "idle-ready"
  const IDLE_BUSY := "idle-busy"

  const BLUE_DOT := "http://maps.google.com/mapfiles/ms/icons/blue-dot.png"
  const GREEN_DOT := "http://maps.google.com/mapfiles/ms/icons/green-dot.png"
  const ORANGE_DOT := "http://maps.google.com/mapfiles/ms/icons/orange-dot.png"

  /** The statuses the view has an icon for. */
  predicate ValidStatus(status: string) {
    status == IN_MOTION || status == IDLE_READY || status == IDLE_BUSY
  }

  function InvalidStatusMessage(status: string): string {
    "invalid drone status " + status
  }

  /** The icon for a drone status; any other status throws. */
  function GetIcon(status: string): (r: Result<string>)
    ensures r.Ok? <==> ValidStatus(status)
    ensures r.Err? ==> r.message == InvalidStatusMessage(status)
    ensures status == IN_MOTION ==> r == Ok(BLUE_DOT)
    ensures status == IDLE_READY ==> r == Ok(GREEN_DOT)
    ensures status == IDLE_BUSY ==> r == Ok(ORANGE_DOT)
  {
    if status == IN_MOTION then Ok(BLUE_DOT)
    else if status == IDLE_READY then Ok(GREEN_DOT)
    else if status == IDLE_BUSY then Ok(ORANGE_DOT)
    else Err(InvalidStatusMessage(status))
  }

  /** The three icons differ, so the icon tells the status apart. */
  lemma IconsDistinct()
    ensures BLUE_DOT != GREEN_DOT && GREEN_DOT != ORANGE_DOT && BLUE_DOT != ORANGE_DOT
  {
  }

  /** Two statuses with the same icon are the same status. */
  lemma GetIconInjective(a: string, b: string)
    requires GetIcon(a).Ok? && GetIcon(a) == GetIcon(b)
    ensures a == b
  {
  }

  /** Element `i` of a JavaScript array: `undefined` past its end. */
  function At(xs: seq<real>, i: nat): Option<real> {
    if i < |xs| then Some(xs[i]) else None
  }

  /** The map position of a drone: its location array holds the longitude first and the
      latitude second. */
  function GetLatLng(d: Drone): (p: LatLng)
    ensures p.lng.Some? <==> |d.currentLocation| >= 1
    ensures p.lat.Some? <==> |d.currentLocation| >= 2
    ensures p.lng.Some? ==> p.lng.value == d.currentLocation[0]
    ensures p.lat.Some? ==> p.lat.value == d.currentLocation[1]
  {
    LatLng(lat := At(d.currentLocation, 1), lng := At(d.currentLocation, 0))
  }

  /** A full position written back as a location array. */
  function Location(p: LatLng): seq<real>
    requires p.lat.Some? && p.lng.Some?
  {
    [p.lng.value, p.lat.value]
  }

  /** A two-element location survives the trip to a position and back: nothing is swapped. */
  lemma LatLngRoundTrip(d: Drone)
    requires |d.currentLocation| == 2
    ensures GetLatLng(d).lat.Some? && GetLatLng(d).lng.Some?
    ensures Location(GetLatLng(d)) == d.currentLocation
  {
  }

  /** A marker: its position, its label (`text`) and its icon. */
  datatype Marker = Marker(position: LatLng, text: string, icon: string)

  /** The marker mount creates for a drone. */
  function NewMarker(d: Drone): Marker
    requires ValidStatus(d.status)
  {
    Marker(GetLatLng(d), d.name, GetIcon(d.status).value)
  }

  /** `i` is the first drone in `ds` whose status has no icon. */
  ghost predicate FirstInvalid(ds: seq<Drone>, i: int) {
    && 0 <= i < |ds|
    && !ValidStatus(ds[i].status)
    && forall j :: 0 <= j < i ==> ValidStatus(ds[j].status)
  }

  /** One step of mounting: a valid first drone leaves the outcome to the rest of the list. */
  lemma MountOutcomeStep(ds: seq<Drone>, r: Result<map<Id, Marker>>)
    requires ds != [] && ValidStatus(ds[0].status)
    requires r.Ok? <==> forall i :: 0 <= i < |ds[1..]| ==> ValidStatus(ds[1..][i].status)
    requires r.Err? ==> exists i :: FirstInvalid(ds[1..], i) && r.message == InvalidStatusMessage(ds[1..][i].status)
    ensures r.Ok? <==> forall i :: 0 <= i < |ds| ==> ValidStatus(ds[i].status)
    ensures r.Err? ==> exists i :: FirstInvalid(ds, i) && r.message == InvalidStatusMessage(ds[i].status)
  {
  }

  /** The markers mount creates, one per drone, in list order. */
  function NewMarkers(ds: seq<Drone>): (ms: seq<Marker>)
    requires forall i :: 0 <= i < |ds| ==> ValidStatus(ds[i].status)
    ensures |ms| == |ds|
    ensures forall i :: 0 <= i < |ds| ==>
      ms[i].position == GetLatLng(ds[i]) && ms[i].text == ds[i].name && GetIcon(ds[i].status) == Ok(ms[i].icon)
  {
    seq(|ds|, i requires 0 <= i < |ds| => NewMarker(ds[i]))
  }

  /** One step of mounting, for the table as well: a valid first drone's marker is stored
      first and the rest of the list is mounted on top of it. */
  lemma MountFromStep(acc: map<Id, Marker>, ds: seq<Drone>, r: Result<map<Id, Marker>>)
    requires ds != [] && ValidStatus(ds[0].status)
    requires r.Ok? <==> forall i :: 0 <= i < |ds[1..]| ==> ValidStatus(ds[1..][i].status)
    requires r.Err? ==> exists i :: FirstInvalid(ds[1..], i) && r.message == InvalidStatusMessage(ds[1..][i].status)
    requires r.Ok? ==> r.value == Keyed(acc[ds[0].id := NewMarker(ds[0])], ds[1..], NewMarkers(ds[1..]))
    ensures r.Ok? <==> forall i :: 0 <= i < |ds| ==> ValidStatus(ds[i].status)
    ensures r.Err? ==> exists i :: FirstInvalid(ds, i) && r.message == InvalidStatusMessage(ds[i].status)
    ensures r.Ok? ==> r.value == Keyed(acc, ds, NewMarkers(ds))
  {
    MountOutcomeStep(ds, r);
    if r.Ok? {
      assert NewMarkers(ds)[1..] == NewMarkers(ds[1..]);
    }
  }

  /** Mounting: drones are visited in order, each new marker stored under its drone's id in
      the table `acc`; the first drone with an unknown status throws and nothing is kept. */
  function MountFrom(acc: map<Id, Marker>, ds: seq<Drone>): (r: Result<map<Id, Marker>>)
    ensures r.Ok? <==> forall i :: 0 <= i < |ds| ==> ValidStatus(ds[i].status)
    ensures r.Err? ==> exists i :: FirstInvalid(ds, i) && r.message == InvalidStatusMessage(ds[i].status)
    ensures r.Ok? ==> r.value == Keyed(acc, ds, NewMarkers(ds))
    decreases |ds|
  {
    if ds == [] then Ok(acc)
    else if !ValidStatus(ds[0].status) then
      assert FirstInvalid(ds, 0);
      Err(GetIcon(ds[0].status).message)
    else
      var r := MountFrom(acc[ds[0].id := NewMarker(ds[0])], ds[1..]);
      MountFromStep(acc, ds, r);
      r
  }

  /** The id-to-marker table of a freshly mounted view: one entry per drone id, holding the
      marker of the last drone with that id. */
  function Mount(ds: seq<Drone>): (r: Result<map<Id, Marker>>)
    ensures r.Ok? <==> forall i :: 0 <= i < |ds| ==> ValidStatus(ds[i].status)
    ensures r.Ok? ==> r.value.Keys == Ids(ds)
  {
    MountFrom(map[], ds)
  }

  /** The marker mounted for an id is the new marker of the last drone with that id: its
      position, its name as label, the icon of its status. */
  lemma MountedMarker(ds: seq<Drone>, k: Id)
    requires forall i :: 0 <= i < |ds| ==> ValidStatus(ds[i].status)
    requires k in Ids(ds)
    ensures Mount(ds).Ok? && k in Mount(ds).value
    ensures var d := ds[LastIndex(ds, k)];
      Mount(ds).value[k] == Marker(GetLatLng(d), d.name, GetIcon(d.status).value)
  {
  }

  /** The repositioning of one drone's marker: position and label follow the drone; an id
      without a marker is skipped. */
  function Reposition(table: map<Id, Marker>, d: Drone): map<Id, Marker> {
    if d.id in table then table[d.id := table[d.id].(position := GetLatLng(d), text := d.name)]
    else table
  }

  /** New props: every drone that has a marker moves it; all else stays as it is. */
  function ReceiveProps(table: map<Id, Marker>, ds: seq<Drone>): (r: map<Id, Marker>)
    ensures r.Keys == table.Keys
    ensures forall k :: k in table ==> r[k].icon == table[k].icon
    ensures forall k :: k in table && k !in Ids(ds) ==> r[k] == table[k]
    ensures forall k :: k in table && k in Ids(ds) ==>
      var d := ds[LastIndex(ds, k)];
      r[k] == table[k].(position := GetLatLng(d), text := d.name)
    decreases |ds|
  {
    if ds == [] then table
    else
      IdsCons(ds);
      ReceiveProps(Reposition(table, ds[0]), ds[1..])
  }

  /** The drones whose ids are among `keys`, in order. */
  function WithKnownIds(keys: set<Id>, ds: seq<Drone>): (r: seq<Drone>)
    decreases |ds|
  {
    if ds == [] then []
    else if ds[0].id in keys then [ds[0]] + WithKnownIds(keys, ds[1..])
    else WithKnownIds(keys, ds[1..])
  }

  /** Drones with no marker have no effect at all: dropping them from the props changes nothing. */
  lemma {:induction false} UnknownIdsIgnored(table: map<Id, Marker>, ds: seq<Drone>)
    ensures ReceiveProps(table, ds) == ReceiveProps(table, WithKnownIds(table.Keys, ds))
    decreases |ds|
  {
    if ds != [] {
      var t := Reposition(table, ds[0]);
      assert t.Keys == table.Keys;
      UnknownIdsIgnored(t, ds[1..]);
      if ds[0].id in table {
        var known := [ds[0]] + WithKnownIds(table.Keys, ds[1..]);
        assert known[1..] == WithKnownIds(table.Keys, ds[1..]);
      }
    }
  }

  /** New props repeated change nothing more. */
  lemma ReceivePropsIdempotent(table: map<Id, Marker>, ds: seq<Drone>)
    ensures ReceiveProps(ReceiveProps(table, ds), ds) == ReceiveProps(table, ds)
  {
  }

  /** The props a view was mounted with leave its markers where they are. */
  lemma MountedMarkersCurrent(ds: seq<Drone>)
    requires Mount(ds).Ok?
    ensures ReceiveProps(Mount(ds).value, ds) == Mount(ds).value
  {
  }

  /** A run of prop changes: the key set of the table never changes. */
  function ReceiveAll(table: map<Id, Marker>, props: seq<seq<Drone>>): (r: map<Id, Marker>)
    ensures r.Keys == table.Keys
    decreases |props|
  {
    if props == [] then table else ReceiveAll(ReceiveProps(table, props[0]), props[1..])
  }

  /** The view never draws a drone it did not mount with, whatever the later props hold. */
  lemma NoMarkersAfterMount(ds: seq<Drone>, props: seq<seq<Drone>>)
    requires Mount(ds).Ok?
    ensures ReceiveAll(Mount(ds).value, props).Keys == Ids(ds)
  {
  }

  /** The view never asks to be re-rendered: the map library owns what is drawn. */
  function ShouldComponentUpdate(): (r: bool)
    ensures !r
  {
    false
  }
}
