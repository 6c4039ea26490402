/**
 * The "mapType" property of a map widget: a fixed table between five names
 * and the SDK's map-type constants, written into the GoogleMap on `set` and
 * read back on `get`.
 */
module MapTypeProperty {
  import opened Wrappers
  import opened GoogleMaps
  import opened MapHolder

  /** A Kotlin map literal as its entries, in the order the literal lists them. */
  type Table = seq<(string, int)>

  /** The table `mapTypes`. */
  const MapTypes: Table := [
    ("none", MAP_TYPE_NONE),
    ("hybrid", MAP_TYPE_HYBRID),
    ("normal", MAP_TYPE_NORMAL),
    ("satellite", MAP_TYPE_SATELLITE),
    ("terrain", MAP_TYPE_TERRAIN)
  ]

  const NOT_A_STRING := "The 'mapType' property has to be a string value."

  datatype Error =
    | IllegalArgument(message: string)  // `require` on a null name
    | NoGoogleMap                       // the view has no GoogleMap yet: a null dereference

  function KeysOf(table: Table): set<string> {
    set i | 0 <= i < |table| :: table[i].0
  }

  function ValuesOf(table: Table): set<int> {
    set i | 0 <= i < |table| :: table[i].1
  }

  predicate DistinctKeys(table: Table) {
    forall i, j :: 0 <= i < j < |table| ==> table[i].0 != table[j].0
  }

  predicate DistinctValues(table: Table) {
    forall i, j :: 0 <= i < j < |table| ==> table[i].1 != table[j].1
  }

  /** The position of the first entry whose key is `name`. */
  function KeyIndex(table: Table, name: string): (r: Option<nat>)
    ensures r.Some? ==> r.value < |table| && table[r.value].0 == name
    ensures r.Some? ==> forall j :: 0 <= j < r.value ==> table[j].0 != name
    ensures r.None? ==> forall j :: 0 <= j < |table| ==> table[j].0 != name
  {
    if table == [] then None
    else if table[0].0 == name then Some(0)
    else match KeyIndex(table[1..], name)
      case None => None
      case Some(i) => Some(i + 1)
  }

  /** The position of the first entry whose value is `value`. */
  function ValueIndex(table: Table, value: int): (r: Option<nat>)
    ensures r.Some? ==> r.value < |table| && table[r.value].1 == value
    ensures r.Some? ==> forall j :: 0 <= j < r.value ==> table[j].1 != value
    ensures r.None? ==> forall j :: 0 <= j < |table| ==> table[j].1 != value
  {
    if table == [] then None
    else if table[0].1 == value then Some(0)
    else match ValueIndex(table[1..], value)
      case None => None
      case Some(i) => Some(i + 1)
  }

  /** `table[name]`: the value stored under `name`, or null. */
  function Lookup(table: Table, name: string): (r: Option<int>)
    ensures r.Some? <==> name in KeysOf(table)
    ensures r.Some? ==> (name, r.value) in table
  {
    match KeyIndex(table, name)
    case None => None
    case Some(i) => Some(table[i].1)
  }

  /** `table.filterValues { it == value }.keys.elementAtOrNull(0)`: the first key stored with `value`, or null. */
  function FirstKeyFor(table: Table, value: int): (r: Option<string>)
    ensures r.Some? <==> value in ValuesOf(table)
    ensures r.Some? ==> (r.value, value) in table
  {
    match ValueIndex(table, value)
    case None => None
    case Some(i) => Some(table[i].0)
  }

  /** In a table with distinct values, the key a value is stored under is the first key found for that value. */
  lemma LookupThenFirstKey(table: Table, name: string)
    requires DistinctValues(table)
    requires Lookup(table, name).Some?
    ensures FirstKeyFor(table, Lookup(table, name).value) == Some(name)
  {
  }

  /** In a table with distinct keys, the first key found for a value stores exactly that value. */
  lemma FirstKeyThenLookup(table: Table, value: int)
    requires DistinctKeys(table)
    requires FirstKeyFor(table, value).Some?
    ensures Lookup(table, FirstKeyFor(table, value).value) == Some(value)
  {
  }

  lemma MapTypesWellFormed()
    ensures DistinctKeys(MapTypes) && DistinctValues(MapTypes)
    ensures KeysOf(MapTypes) == {"none", "hybrid", "normal", "satellite", "terrain"}
    ensures ValuesOf(MapTypes) == {MAP_TYPE_NONE, MAP_TYPE_HYBRID, MAP_TYPE_NORMAL, MAP_TYPE_SATELLITE, MAP_TYPE_TERRAIN}
  {
    assert MapTypes[0] == ("none", MAP_TYPE_NONE);
    assert MapTypes[1] == ("hybrid", MAP_TYPE_HYBRID);
    assert MapTypes[2] == ("normal", MAP_TYPE_NORMAL);
    assert MapTypes[3] == ("satellite", MAP_TYPE_SATELLITE);
    assert MapTypes[4] == ("terrain", MAP_TYPE_TERRAIN);
  }

  /** `mapTypes[name]`. */
  function ConstantOf(name: string): (r: Option<int>)
    ensures r.Some? <==> name in {"none", "hybrid", "normal", "satellite", "terrain"}
    ensures r.Some? ==> (name, r.value) in MapTypes
  {
    MapTypesWellFormed();
    Lookup(MapTypes, name)
  }

  /** The name `get` reports for a map type, or null. */
  function NameOf(mapType: int): (r: Option<string>)
    ensures r.Some? ==> r.value in {"none", "hybrid", "normal", "satellite", "terrain"}
    ensures r.Some? <==> mapType in {MAP_TYPE_NONE, MAP_TYPE_HYBRID, MAP_TYPE_NORMAL, MAP_TYPE_SATELLITE, MAP_TYPE_TERRAIN}
    ensures r.Some? ==> (r.value, mapType) in MapTypes
  {
    MapTypesWellFormed();
    FirstKeyFor(MapTypes, mapType)
  }

  /** The map type after `set` with the non-null name `name`. */
  function SetMapType(current: int, name: string): (r: int)
    ensures ConstantOf(name).Some? ==> (name, r) in MapTypes
    ensures ConstantOf(name).None? ==> r == current
  {
    match ConstantOf(name)
    case Some(c) => c
    case None => current
  }

  /** Round trip: after `set` with a name of the table, `get` reports that name. */
  lemma SetThenGet(current: int, name: string)
    requires ConstantOf(name).Some?
    ensures NameOf(SetMapType(current, name)) == Some(name)
  {
  }

  /** Idempotence: `set` with the name `get` reports leaves the map type as it is. */
  lemma GetThenSet(current: int)
    requires NameOf(current).Some?
    ensures SetMapType(current, NameOf(current).value) == current
  {
  }

  /** `set(mapHolderView, mapType)`. */
  method Set(view: MapHolderView, mapType: Option<string>) returns (r: Outcome<Error>)
    modifies (if view.googleMap == null then {} else {view.googleMap})`mapType
    ensures mapType.None? ==> r == Fail(IllegalArgument(NOT_A_STRING))
    ensures mapType.Some? && ConstantOf(mapType.value).Some? && view.googleMap == null ==> r == Fail(NoGoogleMap)
    ensures mapType.Some? && ConstantOf(mapType.value).None? ==> r == Pass
    ensures view.googleMap != null ==>
      view.googleMap.mapType ==
        if mapType.None? then old(view.googleMap.mapType) else SetMapType(old(view.googleMap.mapType), mapType.value)
    ensures mapType.Some? && view.googleMap != null ==> r == Pass
  {
    if mapType.None? {
      return Fail(IllegalArgument(NOT_A_STRING));
    }
    match ConstantOf(mapType.value) {
      case Some(c) =>
        if view.googleMap == null {
          return Fail(NoGoogleMap);
        }
        view.googleMap.mapType := c;
      case None =>
    }
    r := Pass;
  }

  /** `get(mapHolderView)`. */
  function Get(view: MapHolderView): (r: Result<Option<string>, Error>)
    reads view, view.googleMap
    ensures r.Failure? <==> view.googleMap == null
    ensures r.Success? ==> r.value == NameOf(view.googleMap.mapType)
  {
    if view.googleMap == null then Failure(NoGoogleMap)
    else Success(NameOf(view.googleMap.mapType))
  }
}
