# Drone map: update coalescing and marker bookkeeping

This Dafny project models the two pieces of logic inside the drone-tracking map of a
React front-end.

- **The drones-map state module** (`src/routes/DronesMap/modules/DronesMap.js`).
  - Its reducer handles three actions. `DRONES_LOADED` stores the list. `DRONE_INFO_LOADED`
    stores the info list. `DRONES_UPDATED` replaces each drone of the list by its entry in an
    id-keyed batch, if it has one.
  - Its update coalescing works on positions streamed over a socket. They are collected in a
    pending map keyed by drone id. The first update after a flush schedules a timer. When the
    timer fires, the whole pending map goes to the reducer as one `DRONES_UPDATED` batch. The
    map is then emptied and the flush time recorded. Disconnecting cancels the timer and forgets
    everything pending.
- **The map view** (`src/routes/DronesMap/components/DronesMapView.jsx`).
  - It maps a drone status to a marker icon URL; an unknown status throws.
  - It reads a drone's `[longitude, latitude]` pair as a map position.
  - On mount it builds an id-to-marker table (as meant; see "Left out").
  - On new props it moves and relabels the markers it already has.
  - It never asks to be re-rendered.

Modules and files:

- `results.dfy` (`Results`): `Option` and `Result`. `Result` carries the message of a throw.
- `drones.dfy` (`Drones`): the drone record and the id-keyed fold `Keyed` with its
  last-write-wins characterisation.
- `reducer.dfy` (`DronesReducer`): state, actions and the reducer.
- `coalescer.dfy` (`UpdateCoalescer`): the session state machine. Its events are loading, a
  position update, a clock tick and a disconnect. It also holds the trace lemmas.
- `map_view.dfy` (`DronesMapView`): icons, positions, the marker table.
- `pipeline.dfy` (`Pipeline`): properties that span the three pieces.

Modelling choices:

- **Time.** Time is a natural number of milliseconds carried by every event. The timer is
  the time it is due, kept as `Option<nat>`. `Tick(at)` says the clock reads `at`; a timer due
  by then fires at `at`.
- **Global state.** The module's globals (`socket`, `pendingUpdates`, `updateTimeoutId`,
  `lastUpdated`) are one `Session` record passed through pure transition functions.
- **Closed socket.** A closed socket delivers no messages, so an update that arrives while
  the session is disconnected changes nothing.
- **Timer delay.** The handler calls `Math.max(MIN_REDRAW_DIFF - (now - lastUpdated))`. The
  closing parenthesis is misplaced, so `Math.max` gets a single argument and returns it; the
  `0` becomes an extra argument of `setTimeout`. The requested delay can therefore be
  negative, and the timer treats that as 0. `ScheduledDelay` proves the due time is
  `max(now, lastUpdated + 3000)`, which is what the evidently intended `Math.max(…, 0)` gives.
  A `null` `lastUpdated` counts as 0 in the subtraction.
- **Markers.** A map marker is the record `{position, text, icon}`; `text` is the marker's
  `label`, a word Dafny reserves. `id2Marker` is a `map<Id, Marker>`. Ids are strings, as
  object property names are.

- **Batches.** A batch holds whatever is pending when its timer fires. Two updates to one
  drone inside one window reach the store as one batch holding the later one
  (`ExampleOneBatchPerWindow`). An update that arrives after a flush waits for the next
  window, even when it supersedes the flushed one (`ExampleEachWindowItsOwnBatch`).
- **Throws.** Where the code throws, the model returns an error value with a message. The
  messages of engine-raised `TypeError`s are one engine's wording; only the throw matters.

## Model

| member | source | states |
|---|---|---|
| `DronesReducer.Reduce` | src/routes/DronesMap/modules/DronesMap.js:73-91 | The reducer throws exactly when an update batch reaches a store with no drone list. The map settings never change, and only `DRONE_INFO_LOADED` changes the info. `DRONES_LOADED` stores the list. Other action types return the state unchanged. After an update the list has the same length and order, each drone replaced by its batch entry when there is one. |
| `DronesReducer.ApplyUpdates` | src/routes/DronesMap/modules/DronesMap.js:78-81 | Same length as the input. Position `i` holds `updates[ds[i].id]` when that key exists and `ds[i]` otherwise. |
| `DronesReducer.ApplyUpdatesKeepsIds` | src/routes/DronesMap/modules/DronesMap.js:78-81 | A batch keyed by drone id keeps every id at its position, so the set of ids is unchanged. |
| `DronesReducer.UnknownUpdatesIgnored` | src/routes/DronesMap/modules/DronesMap.js:78-81 | Updates for ids the list does not hold are dropped: the list is returned as it was. |
| `DronesReducer.ApplyUpdatesIdempotent` | src/routes/DronesMap/modules/DronesMap.js:76-82 | Applying the same well-keyed batch twice equals applying it once. |
| `DronesReducer.ApplyUpdatesCompose` | src/routes/DronesMap/modules/DronesMap.js:76-82 | Two batches applied one after the other equal one batch that merges them, the later batch winning on shared ids. |
| `Drones.LastIndex` | src/routes/DronesMap/components/DronesMapView.jsx:54 | Returns -1 exactly when the id does not occur. Otherwise it is the position of a drone with that id and no later drone has it, i.e. the drone whose write survives in an id-keyed table. |
| `Drones.Keyed` | src/routes/DronesMap/components/DronesMapView.jsx:54 | Folding a list into an id-keyed table gives the old keys plus the list's ids. Each listed id holds the value of its last drone, and every other old entry is unchanged. |
| `UpdateCoalescer.ScheduledDelay` | src/routes/DronesMap/modules/DronesMap.js:51 | The flush is due at `max(now, lastUpdated + 3000)`, or at `max(now, 3000)` when `lastUpdated` is null. The delay is at most 3000 whenever `lastUpdated <= now`. |
| `UpdateCoalescer.HandleUpdate` | src/routes/DronesMap/modules/DronesMap.js:41-52 | The update overwrites any pending entry for its id, and other ids' entries are untouched. An outstanding timer is kept as it is, never a second one. Otherwise a timer is scheduled, due at `max(now, lastUpdated + 3000)` (`max(now, 3000)` for a null `lastUpdated`): no earlier than now, and at most 3000 ms ahead whenever `lastUpdated` is not after now. |
| `UpdateCoalescer.Fire` | src/routes/DronesMap/modules/DronesMap.js:46-50 | The callback dispatches exactly when a timer is due. It hands over the whole pending map, empties it, clears the timer and sets `lastUpdated` to the fire time. Otherwise nothing changes. |
| `UpdateCoalescer.Disconnect` | src/routes/DronesMap/modules/DronesMap.js:56-63 | It throws exactly when no socket is open, before anything is reset. Otherwise the session is closed, with no timer, no pending updates and a null `lastUpdated`. |
| `UpdateCoalescer.Deliver` | src/routes/DronesMap/modules/DronesMap.js:32-63 | Every dispatch is stamped with the event's time. A load dispatches exactly `DRONES_LOADED` with the list, then `DRONE_INFO_LOADED` with one request per drone; it opens the socket and records the load time. An update dispatches nothing; it is stored under its id with a timer outstanding, or ignored when no socket is open. A tick dispatches exactly when the timer is due, and then exactly the pending batch. A disconnect dispatches nothing and resets the session, or leaves it as it was when it throws. |
| `UpdateCoalescer.Connect` | src/routes/DronesMap/modules/DronesMap.js:37-41 | Loading records the load time as `lastUpdated` and opens the socket. It leaves pending updates and the timer alone. |
| `UpdateCoalescer.InfoRequests` | src/routes/DronesMap/modules/DronesMap.js:34-36 | The info list has one request per loaded drone, in list order, for that drone's id. |
| `UpdateCoalescer.DeliverConsistent` | src/routes/DronesMap/modules/DronesMap.js:41-62 | Each event keeps the invariant. A timer is outstanding exactly when updates are pending. Pending entries sit under their drone's id. A closed session has no timer. A flushed batch is never empty. |
| `UpdateCoalescer.RunConsistent` | src/routes/DronesMap/modules/DronesMap.js:41-62 | The invariant holds along any run, and every batch a run dispatches is non-empty and keyed by drone id. |
| `UpdateCoalescer.DeliverThrottled` | src/routes/DronesMap/modules/DronesMap.js:41-51 | One event keeps the throttling invariant relative to the last flush. Only a firing tick dispatches a batch, and at most one. |
| `UpdateCoalescer.RunThrottled` | src/routes/DronesMap/modules/DronesMap.js:41-51 | Whenever the clock never goes backwards, two flushes are at least 3000 ms apart, and none comes sooner than 3000 ms after the previous flush. |
| `UpdateCoalescer.FlushesSpaced` | src/routes/DronesMap/modules/DronesMap.js:41-51 | From the initial state, with a clock that never goes backwards, no two redraw batches are less than 3000 ms apart. |
| `UpdateCoalescer.RunPrompt` | src/routes/DronesMap/modules/DronesMap.js:46-51 | Along a run, `lastUpdated` never gets ahead of the clock, and an outstanding timer is always due within 3000 ms of it. |
| `UpdateCoalescer.UpdateFlushedWithinInterval` | src/routes/DronesMap/modules/DronesMap.js:41-51 | An update delivered to a connected session is in the batch dispatched by a tick 3000 ms later, whether it scheduled the timer or joined one. |
| `UpdateCoalescer.QuietUntilLoaded` | src/routes/DronesMap/modules/DronesMap.js:56-63 | A closed session without a timer dispatches nothing until the drones are loaded again. |
| `UpdateCoalescer.NoDispatchAfterDisconnect` | src/routes/DronesMap/modules/DronesMap.js:56-63 | From any consistent session, after a disconnect, whether it closes the socket or throws, no event dispatches anything until the next load, late position updates included. |
| `UpdateCoalescer.LastWriteWins` | src/routes/DronesMap/modules/DronesMap.js:42-45 | A burst of updates to a connected session dispatches nothing. Afterwards the pending map holds the last update received for each id, and the old entries of all other ids. |
| `UpdateCoalescer.ExampleOneBatchPerWindow` | src/routes/DronesMap/modules/DronesMap.js:41-51 | Concretely: load at 0, updates at 2900 and 2950, then a tick at 2999 dispatches nothing. A tick at 3000 dispatches one batch holding only the second update. |
| `UpdateCoalescer.ExampleEachWindowItsOwnBatch` | src/routes/DronesMap/modules/DronesMap.js:41-51 | Concretely: load at 100, an update at 3000 is flushed alone at 3100. An update at 3500 is not flushed at 6099; it is flushed alone at 6100. |
| `DronesMapView.GetIcon` | src/routes/DronesMap/components/DronesMapView.jsx:9-20 | `in-motion`, `idle-ready` and `idle-busy` give the blue, green and orange dot URLs. Every other status throws `invalid drone status <status>`. |
| `DronesMapView.IconsDistinct` | src/routes/DronesMap/components/DronesMapView.jsx:11-16 | The three icon URLs are pairwise distinct. |
| `DronesMapView.GetIconInjective` | src/routes/DronesMap/components/DronesMapView.jsx:9-16 | Two statuses with the same icon are the same status. |
| `DronesMapView.GetLatLng` | src/routes/DronesMap/components/DronesMapView.jsx:22 | `lng` is `currentLocation[0]` and `lat` is `currentLocation[1]`. Each is undefined when the array is too short. |
| `DronesMapView.LatLngRoundTrip` | src/routes/DronesMap/components/DronesMapView.jsx:22 | A two-element location gives a full position. Written back as `[lng, lat]`, it is the location itself, so nothing is swapped. |
| `DronesMapView.NewMarkers` | src/routes/DronesMap/components/DronesMapView.jsx:32-40 | Mount creates one marker per drone. Marker `i` has position `getLatLng(drones[i])`, label `drones[i].name` and icon `getIcon(drones[i].status)`. |
| `DronesMapView.MountFrom` | src/routes/DronesMap/components/DronesMapView.jsx:32-56 | The mounting loop, taken as if line 41 completed, succeeds exactly when every status has an icon. Otherwise it throws the message of the first drone whose status has none. On success the table is the id-keyed fold of the new markers. |
| `DronesMapView.Mount` | src/routes/DronesMap/components/DronesMapView.jsx:26-57 | Taking lines 29 and 41 as if they completed, mounting succeeds exactly when every status has an icon. The table then has exactly one entry per drone id. |
| `DronesMapView.MountedMarker` | src/routes/DronesMap/components/DronesMapView.jsx:32-54 | The marker under an id belongs to the last drone with that id: position `getLatLng(drone)`, label `drone.name`, icon `getIcon(drone.status)`. |
| `DronesMapView.ReceiveProps` | src/routes/DronesMap/components/DronesMapView.jsx:61-70 | New props never add or remove keys and never change an icon. Markers whose id is not in the props are unchanged. Every other marker gets the position and name of the last drone with its id. |
| `DronesMapView.UnknownIdsIgnored` | src/routes/DronesMap/components/DronesMapView.jsx:63-68 | Drones with no marker have no effect: removing them from the props gives the same table. |
| `DronesMapView.ReceivePropsIdempotent` | src/routes/DronesMap/components/DronesMapView.jsx:61-70 | Receiving the same props twice equals receiving them once. |
| `DronesMapView.MountedMarkersCurrent` | src/routes/DronesMap/components/DronesMapView.jsx:61-70 | Receiving the props the view was mounted with leaves the table as mounted. |
| `DronesMapView.ReceiveAll` | src/routes/DronesMap/components/DronesMapView.jsx:61-70 | Any number of prop changes keep the table's key set. |
| `DronesMapView.NoMarkersAfterMount` | src/routes/DronesMap/components/DronesMapView.jsx:61-70 | After mount, whatever props follow, the table holds exactly the ids of the mounted drones, so drones that appear later never get a marker. |
| `DronesMapView.ShouldComponentUpdate` | src/routes/DronesMap/components/DronesMapView.jsx:73-76 | The view never asks React to re-render. |
| `Pipeline.BatchingIsInvisible` | src/routes/DronesMap/modules/DronesMap.js:41-81 | Applying one coalesced batch leaves the drone list exactly as applying each update alone, in arrival order, would have. |
| `Pipeline.ApplyEachAfterBatch` | src/routes/DronesMap/modules/DronesMap.js:76-81 | A batch followed by single updates in order equals one batch with the updates merged in. |
| `Pipeline.FlushMovesMarkers` | src/routes/DronesMap/components/DronesMapView.jsx:61-70 | Once a batch is applied and handed to the view, a drone in the batch that the list and the table both know has the update's position and name on its marker. The icon stays. |
| `Pipeline.RunReady` | src/routes/DronesMap/modules/DronesMap.js:37-47 | Starting ready, the reducer never throws on what the session dispatches: drones are loaded before any batch can be flushed. |
| `Pipeline.StoreNeverThrows` | src/routes/DronesMap/modules/DronesMap.js:37-47 | From the initial session and store, no sequence of events makes the reducer throw. |

## Left out

- Google Maps objects are not modelled: the map, `Marker` objects, info windows and their
  mouse listeners, and `map.getProjection()`. Neither are `MarkerClusterer`, `repaint` and
  `console.log`. All are calls into foreign libraries.
- `componentDidMount` reads `map` (line 29) and assigns `infoWindow` (line 41). Neither name
  is declared in the file; line 7 declares `InfoWindow`, a different name. Class bodies are
  always strict code. So line 29 throws unless some other script defines a global `map` with a
  `getProjection` method. Even then, line 41 throws `ReferenceError` on the first drone, after
  its `getIcon`.
- DronesMapView.Mount: describes the mounting loop as if lines 29 and 41 completed. As written,
  `componentDidMount` throws for every non-empty drone list, so `this.id2Marker` and
  `this.markerCluster` are never assigned. `componentWillReceiveProps` then throws at line 64,
  or at line 70 for an empty list. The model keeps the table the loop evidently means to build.
- DronesMapView.MountFrom: the same caveat. Its `Ok` result is the table lines 32-56 would build
  if line 41 completed; in the code the first iteration throws at line 41.
- The socket library is left out. So are the HTTP calls `searchDrones` (with its
  `DRONE_LIMIT` of 10000) and `getDroneInfo`. The drone list arrives as the `Loaded` event.
  Each info promise is the abstract `InfoRequest` for its id.
- Wall-clock time and `setTimeout` are replaced by the clock readings carried by the events.
  The timer fires on the first `Tick` at or after its due time.
- Some JavaScript object behaviour is not modelled. Ids become property names, so a number
  id and its string form collide. Inherited properties such as `constructor` would make
  `updates[drone.id]` truthy. The model uses string ids in a `map`, which has neither effect.
- Calling `init` twice without a disconnect opens a second socket with a second handler.
  The model has one stream of updates. It merges the two sockets' updates until a
  disconnect, and from then on drops the surviving socket's updates.
- UpdateCoalescer.FlushesSpaced: holds for one socket only. After a double `init` and a
  `disconnect`, the first socket still calls the handler. Line 62 has set `lastUpdated` to
  null, so line 51 asks for a delay of `3000 - now`, which is negative once `now` is past
  3000, and the timer fires at once. This is the null branch of `ScheduledDelay`; the model's
  `Deliver` never reaches it. A flush at T, a disconnect at T+1 and an update from the first
  socket at T+2 give a second batch about 2 ms after the first.
- UpdateCoalescer.RunThrottled: holds for one socket only, for the same reason: after a
  disconnect, an update from a socket left open by a double `init` is flushed at once.
- UpdateCoalescer.NoDispatchAfterDisconnect: holds for one socket only. After a double `init`,
  `disconnect` closes only the later socket (lines 40 and 57-58). The first socket keeps
  delivering, and its handler keeps scheduling timers and dispatching batches.
- UpdateCoalescer.QuietUntilLoaded: holds for one socket only, for the same reason: a socket
  left open by a double `init` still dispatches after the session is closed.
- UpdateCoalescer.Fire: always completes. In the code, `dispatch` runs first (line 47), and a
  store subscriber may throw out of it. Lines 48-50 are then skipped, and `updateTimeoutId`
  stays set. Every later update returns at line 43, so no flush is scheduled again until the next
  `disconnect` clears the handle (line 60). Store
  subscribers are code outside this model. Also, line 50 reads the clock after `dispatch`
  returns, so the code's flush time can be later than the model's `Some(now)`. A later
  `lastUpdated` only delays the next flush, so the spacing lemmas still hold for the code.
- UpdateCoalescer.Deliver: a load always connects and emits both actions. In the code,
  `lastUpdated` is set first (line 37), then come the two dispatches (lines 38-39), and only
  then does the socket open (line 40). A store subscriber that throws out of either dispatch
  skips line 40. `lastUpdated` then stays set, no socket opens, and a later `disconnect` throws.
  The map view's `componentDidMount` throws as written (see above), and it is such a
  subscriber if it mounts on `DRONES_LOADED`. The container that decides this is not part of
  this model.
- The React lifecycle, rendering, `componentWillUnmount` (which calls `disconnect`) and the
  styling are not modelled.
- Drone payloads are assumed to carry all four fields, and update messages to be drone
  objects. In the code, `getLatLng` throws `TypeError` when `currentLocation` is null or
  missing (DronesMapView.jsx line 22, reached from lines 37 and 66). The handler throws at
  line 42 of DronesMap.js when the socket sends `null`.
- Coordinates are Dafny `real`s, not floating-point numbers; they are only copied, never
  computed with.
