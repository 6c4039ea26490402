/**
 * The operator of the "com.eclipsesource.maps.Map" widget: it installs and
 * clears the view's event listeners, dispatches the widget's methods
 * (moveToRegion, addMarker, removeMarker) and, on destroy, tears down the
 * markers added to the map.
 *
 * The object registry is a map from remote id to the object held under that
 * id; a MapMarker is kept there as a record of the fields the operator
 * reads and writes.
 */
module MapOperator {
  import opened Wrappers
  import opened GoogleMaps
  import opened MapHolder

  const EVENT_READY := "ready"
  const EVENT_TAP := "tap"
  const EVENT_LONGPRESS := "longpress"

  const METHOD_MOVE_TO_REGION := "moveToRegion"
  const METHOD_ADD_MARKER := "addMarker"
  const METHOD_REMOVE_MARKER := "removeMarker"

  const PROP_SOUTH_WEST := "southWest"
  const PROP_NORTH_EAST := "northEast"

  const READY_NOT_REMOVABLE := "'ready' event listeners cannot be removed."
  const MAP_NOT_READY := "Can not get map before 'ready' event has fired."

  /** The exceptions the operator's code can raise. */
  datatype Error =
    | IllegalState(message: string)  // removing the 'ready' listener
    | MapNotReady(message: string)   // the GoogleMap is not there yet (getGoogleMapSafely)
    | NoSuchMarker(id: string)       // the registry holds no MapMarker under the id
    | NoGoogleMap                    // addMarker on a view without a GoogleMap: a null dereference
    | NoMarkerHandle(id: string)     // removeMarker on a marker without an SDK marker: a null dereference
    | NoRegion                       // moveToRegion without a region: a null dereference
    | NoCorner(key: string)          // a corner of the region is missing: a null dereference
    | ShortCorner(key: string)       // a corner has fewer than two coordinates: an index out of bounds

  /** The "options" property bag of moveToRegion. */
  datatype Options = Options(animate: Option<bool>, padding: Option<real>)

  /** The "region" property bag of moveToRegion: each corner a list of doubles. */
  datatype Region = Region(southWest: Option<seq<real>>, northEast: Option<seq<real>>)

  /** The properties a method call carries, reduced to the keys the operator reads. */
  datatype Properties = Properties(marker: Option<string>, options: Option<Options>, region: Option<Region>)

  /**
   * A MapMarker: whether it holds an SDK marker, the id of the map it was
   * added to, and whether the marker operator has destroyed it.
   */
  datatype MapMarker = MapMarker(hasHandle: bool, mapId: Option<string>, destroyed: bool)

  /** An object held by the registry: a MapMarker or anything else. */
  datatype RegistryObject = Marker(marker: MapMarker) | OtherObject

  type Entries = map<string, RegistryObject>

  class ObjectRegistry {
    var entries: Entries
  }

  predicate IsMarker(entries: Entries, id: string) {
    id in entries && entries[id].Marker?
  }

  /** The object is a MapMarker whose map id is present and equal to `mapId`. */
  predicate BoundTo(entry: RegistryObject, mapId: string) {
    entry.Marker? && entry.marker.mapId == Some(mapId)
  }

  // ---------------------------------------------------------------------------
  // Events

  /** `listen` on the view's listener state: the outcome and the new state. */
  function ListenStep(s: ViewState, event: string, listen: bool): (r: (Outcome<Error>, ViewState))
    ensures s.readyListener ==> r.1.readyListener
    ensures r.1.slots.Some? == s.slots.Some?
    ensures event == EVENT_READY && listen ==> r == (Pass, s.(readyListener := true))
    ensures event == EVENT_READY && !listen ==> r == (Fail(IllegalState(READY_NOT_REMOVABLE)), s)
    ensures event in {EVENT_TAP, EVENT_LONGPRESS} && s.slots.None? ==> r == (Fail(MapNotReady(MAP_NOT_READY)), s)
    ensures event in {EVENT_TAP, EVENT_LONGPRESS} && s.slots.Some? ==>
      r.0 == Pass && r.1.readyListener == s.readyListener
    ensures event == EVENT_TAP && s.slots.Some? ==>
      r.1.slots.value.onMapClick == listen && r.1.slots.value.onMapLongClick == s.slots.value.onMapLongClick
    ensures event == EVENT_LONGPRESS && s.slots.Some? ==>
      r.1.slots.value.onMapLongClick == listen && r.1.slots.value.onMapClick == s.slots.value.onMapClick
    ensures event !in {EVENT_READY, EVENT_TAP, EVENT_LONGPRESS} ==> r == (Pass, s)
  {
    if event == EVENT_READY then
      if listen then (Pass, s.(readyListener := true))
      else (Fail(IllegalState(READY_NOT_REMOVABLE)), s)
    else if event == EVENT_TAP || event == EVENT_LONGPRESS then
      match s.slots
      case None => (Fail(MapNotReady(MAP_NOT_READY)), s)
      case Some(slots) =>
        var slots' := if event == EVENT_TAP then slots.(onMapClick := listen)
                      else slots.(onMapLongClick := listen);
        (Pass, s.(slots := Some(slots')))
    else (Pass, s)
  }

  /** The listener state after a series of `listen` calls; a call that throws leaves it as it was. */
  function ListenAll(s: ViewState, calls: seq<(string, bool)>): ViewState
    decreases |calls|
  {
    if calls == [] then s
    else ListenAll(ListenStep(s, calls[0].0, calls[0].1).1, calls[1..])
  }

  /** Once subscribed, the 'ready' listener stays installed whatever is listened to afterwards. */
  lemma {:induction false} ReadyListenerStays(s: ViewState, calls: seq<(string, bool)>)
    requires s.readyListener
    ensures ListenAll(s, calls).readyListener
    decreases |calls|
  {
    if calls != [] {
      ReadyListenerStays(ListenStep(s, calls[0].0, calls[0].1).1, calls[1..]);
    }
  }

  /** Before the map is delivered no tap or long-press listener can be installed; after, none is lost. */
  lemma {:induction false} ListenKeepsMapPresence(s: ViewState, calls: seq<(string, bool)>)
    ensures ListenAll(s, calls).slots.Some? == s.slots.Some?
    decreases |calls|
  {
    if calls != [] {
      ListenKeepsMapPresence(ListenStep(s, calls[0].0, calls[0].1).1, calls[1..]);
    }
  }

  /** Calls for events the operator does not handle change nothing. */
  lemma {:induction false} UnknownEventsIgnored(s: ViewState, calls: seq<(string, bool)>)
    requires forall k :: 0 <= k < |calls| ==> calls[k].0 !in {EVENT_READY, EVENT_TAP, EVENT_LONGPRESS}
    ensures ListenAll(s, calls) == s
    decreases |calls|
  {
    if calls != [] {
      UnknownEventsIgnored(s, calls[1..]);
    }
  }

  /** getGoogleMapSafely: the view's GoogleMap, or the "before 'ready'" failure. */
  function GoogleMapSafely(view: MapHolderView): (r: Result<GoogleMap, Error>)
    reads view
    ensures r.Success? <==> view.googleMap != null
    ensures r.Success? ==> r.value == view.googleMap
    ensures r.Failure? ==> r.error == MapNotReady(MAP_NOT_READY)
  {
    if view.googleMap == null then Failure(MapNotReady(MAP_NOT_READY))
    else Success(view.googleMap)
  }

  // ---------------------------------------------------------------------------
  // moveToRegion

  /** getAnimateFromOptions. */
  function GetAnimateFromOptions(props: Properties): (animate: bool)
    ensures props.options.None? ==> !animate
    ensures props.options.Some? && props.options.value.animate.None? ==> !animate
    ensures animate <==> props.options.Some? && props.options.value.animate == Some(true)
  {
    match props.options
    case None => false
    case Some(options) => options.animate == Some(true)
  }

  /**
   * getPaddingFromOptions, with getScaledFloat for the "padding" key.
   * `scale` stands for rounding the padding times the display density.
   */
  function GetPaddingFromOptions(props: Properties, scale: real -> int): (padding: int)
    ensures props.options.None? ==> padding == 0
    ensures props.options.Some? && props.options.value.padding.None? ==> padding == 0
    ensures props.options.Some? && props.options.value.padding.Some? ==>
      padding == scale(props.options.value.padding.value)
  {
    if props.options.None? then 0
    else match props.options.value.padding
      case None => 0
      case Some(p) => scale(p)
  }

  predicate IsCorner(corner: Option<seq<real>>) {
    corner.Some? && |corner.value| >= 2
  }

  /** createBoundsFromRegion: the corners' first two coordinates as latitude and longitude. */
  function CreateBoundsFromRegion(props: Properties): (r: Result<LatLngBounds, Error>)
    ensures r.Success? <==>
      props.region.Some? && IsCorner(props.region.value.southWest) && IsCorner(props.region.value.northEast)
    ensures r.Success? ==>
      var sw, ne := props.region.value.southWest.value, props.region.value.northEast.value;
      r.value.southwest == LatLng(sw[0], sw[1]) && r.value.northeast == LatLng(ne[0], ne[1])
    ensures props.region.None? ==> r == Failure(NoRegion)
    ensures props.region.Some? && !IsCorner(props.region.value.southWest) ==>
      r.Failure? && r.error in {NoCorner(PROP_SOUTH_WEST), ShortCorner(PROP_SOUTH_WEST)}
    ensures props.region.Some? && IsCorner(props.region.value.southWest) && !IsCorner(props.region.value.northEast) ==>
      r.Failure? && r.error in {NoCorner(PROP_NORTH_EAST), ShortCorner(PROP_NORTH_EAST)}
  {
    match props.region
    case None => Failure(NoRegion)
    case Some(region) =>
      if region.southWest.None? then Failure(NoCorner(PROP_SOUTH_WEST))
      else if |region.southWest.value| < 2 then Failure(ShortCorner(PROP_SOUTH_WEST))
      else if region.northEast.None? then Failure(NoCorner(PROP_NORTH_EAST))
      else if |region.northEast.value| < 2 then Failure(ShortCorner(PROP_NORTH_EAST))
      else
        var sw, ne := region.southWest.value, region.northEast.value;
        Success(LatLngBounds(LatLng(sw[0], sw[1]), LatLng(ne[0], ne[1])))
  }

  /** The camera command moveCameraToRegion gives the view. */
  function CameraCommandFor(props: Properties, scale: real -> int): (r: Result<CameraCommand, Error>)
    ensures r.Success? <==> CreateBoundsFromRegion(props).Success?
    ensures r.Failure? ==> r.error == CreateBoundsFromRegion(props).error
    ensures r.Success? ==>
      r.value.update == NewLatLngBounds(CreateBoundsFromRegion(props).value, GetPaddingFromOptions(props, scale))
    ensures r.Success? ==> (r.value.AnimateCamera? <==> GetAnimateFromOptions(props))
    ensures r.Success? && props.options.None? ==> r.value == MoveCamera(NewLatLngBounds(CreateBoundsFromRegion(props).value, 0))
  {
    match CreateBoundsFromRegion(props)
    case Failure(e) => Failure(e)
    case Success(bounds) =>
      var update := NewLatLngBounds(bounds, GetPaddingFromOptions(props, scale));
      if GetAnimateFromOptions(props) then Success(AnimateCamera(update)) else Success(MoveCamera(update))
  }

  // ---------------------------------------------------------------------------
  // Markers

  /** addMarker on the registry: the outcome and the new entries. */
  function AddMarkerStep(entries: Entries, hasMap: bool, mapId: string, props: Properties): (r: (Outcome<Error>, Entries))
    ensures r.1.Keys == entries.Keys
    ensures forall id :: id in entries && props.marker != Some(id) ==> r.1[id] == entries[id]
    ensures props.marker.None? ==> r == (Pass, entries)
    ensures props.marker.Some? && !IsMarker(entries, props.marker.value) ==>
      r == (Fail(NoSuchMarker(props.marker.value)), entries)
    ensures props.marker.Some? && IsMarker(entries, props.marker.value) && !hasMap ==>
      r == (Fail(NoGoogleMap), entries)
    ensures props.marker.Some? && IsMarker(entries, props.marker.value) && hasMap ==>
      var id := props.marker.value;
      && r.0 == Pass
      && r.1[id].Marker?
      && r.1[id].marker.hasHandle
      && r.1[id].marker.mapId == Some(mapId)
      && r.1[id].marker.destroyed == entries[id].marker.destroyed
  {
    match props.marker
    case None => (Pass, entries)
    case Some(id) =>
      if !IsMarker(entries, id) then (Fail(NoSuchMarker(id)), entries)
      else if !hasMap then (Fail(NoGoogleMap), entries)
      else (Pass, entries[id := Marker(entries[id].marker.(hasHandle := true, mapId := Some(mapId)))])
  }

  /** removeMarker on the registry: the outcome and the new entries. */
  function RemoveMarkerStep(entries: Entries, props: Properties): (r: (Outcome<Error>, Entries))
    ensures r.1.Keys == entries.Keys
    ensures forall id :: id in entries && props.marker != Some(id) ==> r.1[id] == entries[id]
    ensures props.marker.None? ==> r == (Pass, entries)
    ensures props.marker.Some? && !IsMarker(entries, props.marker.value) ==>
      r == (Fail(NoSuchMarker(props.marker.value)), entries)
    ensures props.marker.Some? && IsMarker(entries, props.marker.value) ==>
      var id := props.marker.value;
      if !entries[id].marker.hasHandle then r == (Fail(NoMarkerHandle(id)), entries)
      else
        && r.0 == Pass
        && r.1[id].Marker?
        && !r.1[id].marker.hasHandle
        && r.1[id].marker.mapId.None?
        && r.1[id].marker.destroyed == entries[id].marker.destroyed
  {
    match props.marker
    case None => (Pass, entries)
    case Some(id) =>
      if !IsMarker(entries, id) then (Fail(NoSuchMarker(id)), entries)
      else if !entries[id].marker.hasHandle then (Fail(NoMarkerHandle(id)), entries)
      else (Pass, entries[id := Marker(entries[id].marker.(hasHandle := false, mapId := None))])
  }

  /** destroyMarker on the registry: every marker bound to `mapId` destroyed, nothing else touched. */
  function DestroyMarkersOf(entries: Entries, mapId: string): (r: Entries)
    ensures r.Keys == entries.Keys
    ensures forall id :: id in entries && !BoundTo(entries[id], mapId) ==> r[id] == entries[id]
    ensures forall id :: id in entries && BoundTo(entries[id], mapId) ==>
      && r[id].Marker?
      && r[id].marker.destroyed
      && r[id].marker.hasHandle == entries[id].marker.hasHandle
      && r[id].marker.mapId == entries[id].marker.mapId
  {
    map id | id in entries ::
      if BoundTo(entries[id], mapId) then Marker(entries[id].marker.(destroyed := true)) else entries[id]
  }

  /** The ids of the registry's markers bound to `mapId`. */
  function BoundIds(entries: Entries, mapId: string): set<string> {
    set id | id in entries && BoundTo(entries[id], mapId)
  }

  /**
   * Destroying a map leaves its markers bound to it, so a later destroy of
   * the same map hands exactly the same markers to the marker operator again.
   */
  lemma DestroyKeepsBindings(entries: Entries, mapId: string)
    ensures BoundIds(DestroyMarkersOf(entries, mapId), mapId) == BoundIds(entries, mapId)
  {
  }

  /** A marker added to a map is destroyed with that map and with no other. */
  lemma AddThenDestroy(entries: Entries, mapId: string, props: Properties, otherId: string)
    requires props.marker.Some? && AddMarkerStep(entries, true, mapId, props).0 == Pass
    requires otherId != mapId
    ensures var added := AddMarkerStep(entries, true, mapId, props).1;
      var id := props.marker.value;
      && DestroyMarkersOf(added, mapId)[id].marker.destroyed
      && DestroyMarkersOf(added, otherId)[id] == added[id]
  {
  }

  /** A marker removed from its map is left alone when any map is destroyed. */
  lemma RemoveThenDestroy(entries: Entries, props: Properties, mapId: string)
    requires props.marker.Some? && RemoveMarkerStep(entries, props).0 == Pass
    ensures var removed := RemoveMarkerStep(entries, props).1;
      var id := props.marker.value;
      DestroyMarkersOf(removed, mapId)[id] == removed[id]
  {
  }

  // ---------------------------------------------------------------------------
  // The operator

  class MapOperator {
    /** the object registry of the operator's context */
    const registry: ObjectRegistry

    constructor (registry: ObjectRegistry)
      ensures this.registry == registry
    {
      this.registry := registry;
    }

    /** listen(id, mapHolderView, event, listen). */
    method Listen(view: MapHolderView, event: string, listen: bool) returns (r: Outcome<Error>)
      modifies view`readyListener
      modifies (if view.googleMap == null then {} else {view.googleMap})`onMapClick
      modifies (if view.googleMap == null then {} else {view.googleMap})`onMapLongClick
      ensures (r, view.State()) == ListenStep(old(view.State()), event, listen)
    {
      if event == EVENT_READY {
        if listen {
          view.readyListener := true;
          r := Pass;
        } else {
          r := Fail(IllegalState(READY_NOT_REMOVABLE));
        }
      } else if event == EVENT_TAP || event == EVENT_LONGPRESS {
        // attach installs a new listener, remove installs null; both go through getGoogleMapSafely
        var safe := GoogleMapSafely(view);
        if safe.Failure? {
          return Fail(safe.error);
        }
        var googleMap := safe.value;
        if event == EVENT_TAP {
          googleMap.onMapClick := listen;
        } else {
          googleMap.onMapLongClick := listen;
        }
        r := Pass;
      } else {
        r := Pass;
      }
    }

    /**
     * call(mapHolderView, method, properties). `mapId` is the id the registry
     * holds for the view; `scale` converts a padding to pixels. A normal
     * completion (Pass) returns null.
     */
    method Call(view: MapHolderView, mapId: string, methodName: string, props: Properties, scale: real -> int)
      returns (r: Outcome<Error>)
      modifies view`camera, registry`entries
      ensures methodName == METHOD_MOVE_TO_REGION ==>
        && registry.entries == old(registry.entries)
        && match CameraCommandFor(props, scale)
           case Success(command) => r == Pass && view.camera == old(view.camera) + [command]
           case Failure(e) => r == Fail(e) && view.camera == old(view.camera)
      ensures methodName == METHOD_ADD_MARKER ==>
        && view.camera == old(view.camera)
        && (r, registry.entries) == AddMarkerStep(old(registry.entries), view.googleMap != null, mapId, props)
      ensures methodName == METHOD_REMOVE_MARKER ==>
        && view.camera == old(view.camera)
        && (r, registry.entries) == RemoveMarkerStep(old(registry.entries), props)
      ensures methodName !in {METHOD_MOVE_TO_REGION, METHOD_ADD_MARKER, METHOD_REMOVE_MARKER} ==>
        r == Pass && view.camera == old(view.camera) && registry.entries == old(registry.entries)
    {
      if methodName == METHOD_MOVE_TO_REGION {
        r := MoveCameraToRegion(view, props, scale);
      } else if methodName == METHOD_ADD_MARKER {
        r := AddMarker(view, mapId, props);
      } else if methodName == METHOD_REMOVE_MARKER {
        r := RemoveMarker(props);
      } else {
        r := Pass;
      }
    }

    /** moveCameraToRegion: animate or move the camera to the region's bounds. */
    method MoveCameraToRegion(view: MapHolderView, props: Properties, scale: real -> int) returns (r: Outcome<Error>)
      modifies view`camera
      ensures match CameraCommandFor(props, scale)
        case Success(command) => r == Pass && view.camera == old(view.camera) + [command]
        case Failure(e) => r == Fail(e) && view.camera == old(view.camera)
    {
      var bounds := CreateBoundsFromRegion(props);
      if bounds.Failure? {
        return Fail(bounds.error);
      }
      var update := NewLatLngBounds(bounds.value, GetPaddingFromOptions(props, scale));
      if GetAnimateFromOptions(props) {
        view.camera := view.camera + [AnimateCamera(update)];
      } else {
        view.camera := view.camera + [MoveCamera(update)];
      }
      r := Pass;
    }

    /** addMarker: give the marker an SDK marker on this map and bind it to the map's id. */
    method AddMarker(view: MapHolderView, mapId: string, props: Properties) returns (r: Outcome<Error>)
      modifies registry`entries
      ensures (r, registry.entries) == AddMarkerStep(old(registry.entries), view.googleMap != null, mapId, props)
    {
      if props.marker.None? {
        return Pass;
      }
      var id := props.marker.value;
      if !IsMarker(registry.entries, id) {
        return Fail(NoSuchMarker(id));
      }
      var mapMarker := registry.entries[id].marker;
      if view.googleMap == null {
        return Fail(NoGoogleMap);
      }
      registry.entries := registry.entries[id := Marker(mapMarker.(hasHandle := true, mapId := Some(mapId)))];
      r := Pass;
    }

    /** removeMarker: remove the marker's SDK marker and unbind it from its map. */
    method RemoveMarker(props: Properties) returns (r: Outcome<Error>)
      modifies registry`entries
      ensures (r, registry.entries) == RemoveMarkerStep(old(registry.entries), props)
    {
      if props.marker.None? {
        return Pass;
      }
      var id := props.marker.value;
      if !IsMarker(registry.entries, id) {
        return Fail(NoSuchMarker(id));
      }
      var mapMarker := registry.entries[id].marker;
      if !mapMarker.hasHandle {
        return Fail(NoMarkerHandle(id));
      }
      registry.entries := registry.entries[id := Marker(mapMarker.(hasHandle := false, mapId := None))];
      r := Pass;
    }

    /** destroy / destroyMarker: hand every registry marker bound to this map to the marker operator. */
    method Destroy(mapId: string)
      modifies registry`entries
      ensures registry.entries == DestroyMarkersOf(old(registry.entries), mapId)
    {
      var pending := registry.entries.Keys;
      while pending != {}
        invariant pending <= registry.entries.Keys == old(registry.entries).Keys
        invariant forall id :: id in registry.entries ==>
          registry.entries[id] ==
            if id in pending then old(registry.entries)[id] else DestroyMarkersOf(old(registry.entries), mapId)[id]
        decreases pending
      {
        var id :| id in pending;
        var entry := registry.entries[id];
        if entry.Marker? {
          var markerMapId := entry.marker.mapId;
          if markerMapId.Some? && markerMapId.value == mapId {
            registry.entries := registry.entries[id := Marker(entry.marker.(destroyed := true))];
          }
        }
        pending := pending - {id};
      }
    }
  }
}
