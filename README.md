# Tabris maps plugin: map widget operator and map-type property

A Dafny model of the Android side of the Tabris.js Google Maps plugin, in two parts:

- **The `mapType` property** (`MapTypeProperty`). A fixed table links the names
  `none`, `hybrid`, `normal`, `satellite` and `terrain` to the SDK's map-type
  constants. `set` rejects a null name. For a known name it writes that name's constant
  into the GoogleMap, and for an unknown name it does nothing. `get` reports the first
  name whose constant equals the map's current type, or null. The model proves that
  `get` after `set` with a table name reports that name, and that `set` with the
  name `get` reports changes nothing.
- **The map operator** (`MapOperator`). It handles three events:
  - `ready` can be subscribed but never unsubscribed.
  - `tap` and `longpress` set or clear the GoogleMap's click and long-click listener slots.
  - Any other event is ignored.

  It dispatches the widget's methods. `moveToRegion` sends the view an animate or a
  move camera command. `addMarker` binds a registry marker to this map. `removeMarker`
  unbinds it. Any other method is a no-op. `destroy` hands every registry marker bound
  to this map to the marker operator.

State is modelled as follows:
- The GoogleMap (`GoogleMaps.GoogleMap`) and the map holder view (`MapHolder.MapHolderView`) are classes whose fields the operations update in place.
- The object registry (`MapOperator.ObjectRegistry`) maps each remote id to the object held under it.
- Each marker is a record with three fields: whether it holds an SDK marker, the id of the map it is bound to, and whether it has been destroyed.

Each state-changing method is proved against a pure step function on values (`ListenStep`, `AddMarkerStep`, `RemoveMarkerStep`, `DestroyMarkersOf`, `CameraCommandFor`, `SetMapType`). The lemmas are about those functions.

Exceptions are modelled as `Fail`/`Failure` results that leave the state unchanged. This covers:
- the explicit `require` in `set`;
- the `IllegalStateException` thrown when the ready listener is removed;
- the "before 'ready'" validation;
- the null dereferences and index errors the code runs into on missing input.

Assumptions taken from outside the code:
- The SDK's map-type constants are `MAP_TYPE_NONE` = 0, `NORMAL` = 1, `SATELLITE` = 2, `TERRAIN` = 3 and `HYBRID` = 4. The proofs use only that they are pairwise distinct.
- The event names are `ready`, `tap` and `longpress`. They are defined in classes that are not part of this model.
- `getBooleanSafe` reads a missing key as false.

## Model

| member | source | states |
|---|---|---|
| `MapTypeProperty.KeyIndex` | src/android/com/eclipsesource/tabris/maps/MapTypeProperty.kt:19 | finds the first table entry whose key is the name, or reports that no entry has it |
| `MapTypeProperty.ValueIndex` | src/android/com/eclipsesource/tabris/maps/MapTypeProperty.kt:26 | finds the first table entry whose value is the given constant, or reports that no entry has it |
| `MapTypeProperty.Lookup` | src/android/com/eclipsesource/tabris/maps/MapTypeProperty.kt:19 | `mapTypes[name]` is non-null exactly when the name is a key of the table, and then it is that key's value |
| `MapTypeProperty.FirstKeyFor` | src/android/com/eclipsesource/tabris/maps/MapTypeProperty.kt:26 | `filterValues{..}.keys.elementAtOrNull(0)` is non-null exactly when the constant is a value of the table, and then it is a key stored with that constant |
| `MapTypeProperty.LookupThenFirstKey` | src/android/com/eclipsesource/tabris/maps/MapTypeProperty.kt:19-26 | in any table with distinct values, searching for a key's value returns that key |
| `MapTypeProperty.FirstKeyThenLookup` | src/android/com/eclipsesource/tabris/maps/MapTypeProperty.kt:19-26 | in any table with distinct keys, the key found for a value stores that value |
| `MapTypeProperty.MapTypesWellFormed` | src/android/com/eclipsesource/tabris/maps/MapTypeProperty.kt:9-15 | the table's keys are the five names and its values are the five SDK constants, with no key and no value repeated |
| `MapTypeProperty.ConstantOf` | src/android/com/eclipsesource/tabris/maps/MapTypeProperty.kt:9-19 | a name has a constant exactly when it is one of the five table names, and that constant is the one the table pairs with the name |
| `MapTypeProperty.NameOf` | src/android/com/eclipsesource/tabris/maps/MapTypeProperty.kt:24-27 | `get` never reports a name outside the five table names, reports one exactly when the map type is one of the five constants, and the name it reports is paired with that map type in the table |
| `MapTypeProperty.SetMapType` | src/android/com/eclipsesource/tabris/maps/MapTypeProperty.kt:19-21 | `set` with a non-null table name sets the map type to the constant the table pairs with that name; with a name not in the table it leaves the map type unchanged |
| `MapTypeProperty.SetThenGet` | src/android/com/eclipsesource/tabris/maps/MapTypeProperty.kt:9-27 | round trip: after `set` with a table name, `get` reports that name, whatever the previous map type |
| `MapTypeProperty.GetThenSet` | src/android/com/eclipsesource/tabris/maps/MapTypeProperty.kt:17-27 | idempotence: when `get` reports a name, `set` with that name leaves the map type unchanged |
| `MapTypeProperty.Set` | src/android/com/eclipsesource/tabris/maps/MapTypeProperty.kt:17-22 | a null name fails with the "has to be a string value" error and leaves the map type unchanged. A known name writes its constant into the GoogleMap, and fails without a GoogleMap. An unknown name succeeds and changes nothing |
| `MapTypeProperty.Get` | src/android/com/eclipsesource/tabris/maps/MapTypeProperty.kt:24-27 | without a GoogleMap `get` fails. Otherwise it reports the name of the map's current type, or null |
| `MapOperator.ListenStep` | src/android/com/eclipsesource/tabris/maps/MapOperator.java:70-96 | ready with `listen` installs the ready listener. Ready without `listen` throws IllegalStateException and changes nothing. Tap and longpress set or clear their own slot and leave the other slot unchanged. Without a GoogleMap they fail with the "before 'ready'" error. Other events change nothing. No call removes the ready listener |
| `MapOperator.ReadyListenerStays` | src/android/com/eclipsesource/tabris/maps/MapOperator.java:74-80 | after any sequence of `listen` calls, an installed ready listener is still installed |
| `MapOperator.ListenKeepsMapPresence` | src/android/com/eclipsesource/tabris/maps/MapOperator.java:210-231 | no sequence of `listen` calls gives a view gesture slots before its GoogleMap exists, or takes them away after |
| `MapOperator.UnknownEventsIgnored` | src/android/com/eclipsesource/tabris/maps/MapOperator.java:73-95 | a sequence of `listen` calls for events other than ready, tap and longpress leaves the listener state as it was |
| `MapOperator.GoogleMapSafely` | src/android/com/eclipsesource/tabris/maps/MapOperator.java:228-232 | returns the view's GoogleMap when there is one, and otherwise fails with "Can not get map before 'ready' event has fired." |
| `MapOperator.GetAnimateFromOptions` | src/android/com/eclipsesource/tabris/maps/MapOperator.java:125-131 | animate is false when there are no options or no animate entry, and true exactly when the options say true |
| `MapOperator.GetPaddingFromOptions` | src/android/com/eclipsesource/tabris/maps/MapOperator.java:142-156 | padding is 0 when there are no options or no padding entry. Otherwise it is the scaled padding |
| `MapOperator.CreateBoundsFromRegion` | src/android/com/eclipsesource/tabris/maps/MapOperator.java:133-140 | succeeds exactly when the region and both corners are present with at least two coordinates each. The bounds are then (southWest[0], southWest[1]) to (northEast[0], northEast[1]). A missing region, or a missing or short corner, fails with the matching error |
| `MapOperator.CameraCommandFor` | src/android/com/eclipsesource/tabris/maps/MapOperator.java:114-123 | a camera update to the region's bounds with the option padding. It animates exactly when animate is true, and without options it moves with padding 0. Bad region input fails the same way `createBoundsFromRegion` does |
| `MapOperator.AddMarkerStep` | src/android/com/eclipsesource/tabris/maps/MapOperator.java:158-169 | with no marker id, nothing changes. Otherwise the marker gets a handle and this map's id and keeps its destroyed flag. An id that names no marker, or a view without a GoogleMap, fails and changes nothing. No other registry entry changes |
| `MapOperator.RemoveMarkerStep` | src/android/com/eclipsesource/tabris/maps/MapOperator.java:171-179 | with no marker id, nothing changes. Otherwise the marker's handle and map id are cleared. An id that names no marker, or a marker without a handle, fails and changes nothing. No other registry entry changes |
| `MapOperator.DestroyMarkersOf` | src/android/com/eclipsesource/tabris/maps/MapOperator.java:195-208 | exactly the markers whose map id is present and equal to this map's id are destroyed, with their other fields kept. Every other registry entry is untouched |
| `MapOperator.DestroyKeepsBindings` | src/android/com/eclipsesource/tabris/maps/MapOperator.java:195-208 | destroying a map leaves the set of markers bound to it unchanged, so a second destroy of the same map hands exactly the same markers to the marker operator again |
| `MapOperator.AddThenDestroy` | src/android/com/eclipsesource/tabris/maps/MapOperator.java:158-208 | a marker added to a map is destroyed when that map is destroyed, and untouched when another map is destroyed |
| `MapOperator.RemoveThenDestroy` | src/android/com/eclipsesource/tabris/maps/MapOperator.java:171-208 | a marker removed from its map is untouched when any map is destroyed |
| `MapOperator.MapOperator.Listen` | src/android/com/eclipsesource/tabris/maps/MapOperator.java:70-96 | the view's new listener state and the outcome are those of `ListenStep` on its old state |
| `MapOperator.MapOperator.Call` | src/android/com/eclipsesource/tabris/maps/MapOperator.java:98-112 | dispatches moveToRegion, addMarker and removeMarker to their step functions, each changing only its own part of the state. Any other method completes normally and changes nothing. A normal completion returns null |
| `MapOperator.MapOperator.MoveCameraToRegion` | src/android/com/eclipsesource/tabris/maps/MapOperator.java:114-123 | appends the command of `CameraCommandFor` to the view's camera commands, or fails and leaves them unchanged |
| `MapOperator.MapOperator.AddMarker` | src/android/com/eclipsesource/tabris/maps/MapOperator.java:158-169 | the new registry and the outcome are those of `AddMarkerStep` |
| `MapOperator.MapOperator.RemoveMarker` | src/android/com/eclipsesource/tabris/maps/MapOperator.java:171-179 | the new registry and the outcome are those of `RemoveMarkerStep` |
| `MapOperator.MapOperator.Destroy` | src/android/com/eclipsesource/tabris/maps/MapOperator.java:181-208 | the loop over the registry leaves it as `DestroyMarkersOf` the old registry, whatever order the entries are visited in |

## Left out

- The location indicator (`disableLocationIndicator`) is left out. It is an Android permission check followed by an SDK call.
- The framework calls `super.listen` and `super.destroy` are left out, along with the constructor, `createView`, `getPropertyHandler` and `getType`. They are framework plumbing.
- The marker operator's `destroy` is reduced to setting the marker's `destroyed` flag. `MapMarker.updateMarker` and the marker's position are not modelled. Their classes are not part of this model.
- The SDK's own behaviour is opaque:
  - `CameraUpdateFactory.newLatLngBounds` is a plain value.
  - `animateCamera` and `moveCamera` are recorded as commands on the view.
  - The `LatLng` normalisation of coordinates and the `LatLngBounds` check that south is not above north are not modelled.
  - Coordinates are opaque reals.
- `MapOperator.GetPaddingFromOptions`: the scaling `Math.round(density * padding)` is floating point and depends on the display metrics. It is a parameter `scale`, so only the paths that yield 0 are stated exactly.
- `MapOperator.MapOperator.Call`: the map's own registry id is passed in as `mapId`. The registry's reverse lookup `getRemoteObjectForObject` is not modelled. `Destroy` takes `mapId` in the same way.
- The registry's `getObject` is not part of this model. An id under which the registry holds no MapMarker is modelled as a failure that changes nothing.
- The tap and long-press listener objects are reduced to a set-or-empty slot. Delivery of UI events from the SDK, and threading, are not modelled.
- The GoogleMap's own marker list is not modelled. Adding or removing a marker shows only in the marker's `hasHandle` field.
- Properties are reduced to the keys the operator reads. A list entry that is not a number is not modelled.
