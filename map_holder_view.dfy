/**
 * The native view that hosts a GoogleMap. Its own code is not part of this
 * model; it is reduced to the state the operator reads and changes.
 */
module MapHolder {
  import opened Wrappers
  import opened GoogleMaps

  /** The two ways the view can move its camera. */
  datatype CameraCommand = AnimateCamera(update: CameraUpdate) | MoveCamera(update: CameraUpdate)

  /** The gesture listener slots of a GoogleMap. */
  datatype ListenerSlots = ListenerSlots(onMapClick: bool, onMapLongClick: bool)

  /**
   * The listener state of a view as a value: whether the 'ready' listener
   * is installed, and the slots of its GoogleMap, or None before the SDK
   * has delivered the map.
   */
  datatype ViewState = ViewState(readyListener: bool, slots: Option<ListenerSlots>)

  class MapHolderView {
    /** null until the SDK has delivered the map */
    var googleMap: GoogleMap?
    /** setOnMapReadyListener has been called */
    var readyListener: bool
    /** the camera commands the view has been given, oldest first */
    var camera: seq<CameraCommand>

    /** The view's listener state as a value. */
    function State(): ViewState
      reads this, googleMap
    {
      ViewState(readyListener,
        if googleMap == null then None
        else Some(ListenerSlots(googleMap.onMapClick, googleMap.onMapLongClick)))
    }
  }
}
