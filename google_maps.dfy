/**
 * The parts of the Google Maps SDK that the plugin touches, as abstract state.
 * Camera updates are plain values; the SDK's camera math, rendering and
 * coordinate normalisation are not part of this model.
 */
module GoogleMaps {

  // GoogleMap.MAP_TYPE_*, with the values the SDK publishes for them.
  const MAP_TYPE_NONE: int := 0
  const MAP_TYPE_NORMAL: int := 1
  const MAP_TYPE_SATELLITE: int := 2
  const MAP_TYPE_TERRAIN: int := 3
  const MAP_TYPE_HYBRID: int := 4

  /** A GoogleMap: its map type and its two gesture listener slots (set or empty). */
  class GoogleMap {
    var mapType: int
    var onMapClick: bool
    var onMapLongClick: bool
  }

  /** Latitude and longitude are opaque doubles. */
  datatype LatLng = LatLng(latitude: real, longitude: real)

  datatype LatLngBounds = LatLngBounds(southwest: LatLng, northeast: LatLng)

  /** CameraUpdateFactory.newLatLngBounds(bounds, padding). */
  datatype CameraUpdate = NewLatLngBounds(bounds: LatLngBounds, padding: int)
}
