/**
 * The metadata rewrite of `updateInfo`, applied to every partition at
 * shutdown: the source's metadata record is given the partition's bounds
 * (from the extreme tile columns and rows at `minzoom`, converted to degrees
 * by the tile-grid library), a center derived from them and the zoom range,
 * the partition's name as its identity, and vector layers stripped of their
 * field lists. The database query and the degree conversion are foreign
 * calls; their results arrive as `Query` values. Coordinates are `real`.
 */
module Metadata {

  /** West, south, east, north, in degrees. */
  datatype BBox = BBox(west: real, south: real, east: real, north: real)

  /** Longitude, latitude and zoom. */
  datatype Center = Center(lng: real, lat: real, zoom: int)

  /** A vector layer entry; `fields` maps attribute names to their types. */
  datatype Layer = Layer(id: string, fields: map<string, string>)

  /** The result of the extent query, with the tile boxes of its lower-left
      and upper-right extreme tiles already converted to degrees. */
  datatype Query =
    | QueryError
    | NoRow
    | Row(llTile: BBox, urTile: BBox)

  /** What `updateInfo` hands to its callback: an error, the metadata record
      itself (when the query returned no row) or the rewritten archive. */
  datatype Outcome = Failed | ReturnedInfo | ReturnedArchive

  const MinLng: real := -180.0
  const MinLat: real := -90.0
  const MaxLng: real := 180.0
  const MaxLat: real := 90.0

  /** The bounds written to the metadata: each side is pulled back to the
      world range only on the side it could overshoot. */
  function ClampBounds(ll: BBox, ur: BBox): (b: BBox)
    ensures b.west >= MinLng && b.south >= MinLat && b.east <= MaxLng && b.north <= MaxLat
    ensures b.west >= ll.west && b.south >= ll.south && b.east <= ur.east && b.north <= ur.north
    ensures (b.west == ll.west || b.west == MinLng) && (b.south == ll.south || b.south == MinLat)
    ensures (b.east == ur.east || b.east == MaxLng) && (b.north == ur.north || b.north == MaxLat)
  {
    BBox(if ll.west > MinLng then ll.west else MinLng,
         if ll.south > MinLat then ll.south else MinLat,
         if ur.east < MaxLng then ur.east else MaxLng,
         if ur.north < MaxLat then ur.north else MaxLat)
  }

  /** `(b - a) / 2 + a`, exactly. */
  function Midpoint(a: real, b: real): (m: real)
    ensures m - a == b - m
    ensures a <= b ==> a <= m <= b
  {
    (b - a) / 2.0 + a
  }

  /** The center zoom: `maxzoom` for a range of at most one level, otherwise
      half the range, rounded down, above `minzoom`. */
  function CenterZoom(minzoom: int, maxzoom: int): (z: int)
    ensures maxzoom - minzoom <= 1 ==> z == maxzoom
    ensures maxzoom - minzoom > 1 ==>
              2 * (z - minzoom) <= maxzoom - minzoom < 2 * (z - minzoom) + 2
    ensures minzoom <= maxzoom ==> minzoom <= z <= maxzoom
  {
    var range := maxzoom - minzoom;
    if range <= 1 then maxzoom else range / 2 + minzoom
  }

  /** The center of the clamped bounds at the center zoom. */
  function CenterOf(b: BBox, minzoom: int, maxzoom: int): (c: Center)
    ensures c.lng - b.west == b.east - c.lng && c.lat - b.south == b.north - c.lat
    ensures c.zoom == CenterZoom(minzoom, maxzoom)
  {
    Center(Midpoint(b.west, b.east), Midpoint(b.south, b.north), CenterZoom(minzoom, maxzoom))
  }

  /** A layer after its field list is emptied. */
  function Cleared(l: Layer): (r: Layer)
    ensures r.id == l.id && r.fields == map[]
  {
    l.(fields := map[])
  }

  // ---------------------------------------------------------------------
  // Properties of the arithmetic

  /** Tile boxes inside the world range pass through unchanged, and clamping
      clamped bounds again changes nothing. */
  lemma ClampKeepsInRange(ll: BBox, ur: BBox)
    requires MinLng <= ll.west && MinLat <= ll.south && ur.east <= MaxLng && ur.north <= MaxLat
    ensures ClampBounds(ll, ur) == BBox(ll.west, ll.south, ur.east, ur.north)
    ensures var b := ClampBounds(ll, ur); ClampBounds(b, b) == b
  {
  }

  /** The clamp is one-sided: a west edge beyond the east limit and a north
      edge below the south limit are written as they are. */
  lemma ClampLeavesFarSides()
    ensures var b := ClampBounds(BBox(200.0, -100.0, 0.0, 0.0), BBox(0.0, 0.0, 190.0, -95.0));
      b == BBox(200.0, -90.0, 180.0, -95.0) && b.west > MaxLng && b.north < MinLat
  {
  }

  /** For a range of at least two levels the center zoom lies strictly
      inside it. */
  lemma CenterZoomStrictlyInside(minzoom: int, maxzoom: int)
    requires maxzoom - minzoom >= 2
    ensures minzoom < CenterZoom(minzoom, maxzoom) < maxzoom
  {
  }

  /** With an inverted zoom range the center zoom is `maxzoom`, below
      `minzoom`. */
  lemma CenterZoomInverted(minzoom: int, maxzoom: int)
    requires maxzoom < minzoom
    ensures CenterZoom(minzoom, maxzoom) == maxzoom < minzoom
  {
  }

  /** The center of bounds that are not inverted lies inside them, halfway
      between opposite edges. */
  lemma CenterInsideBounds(b: BBox, minzoom: int, maxzoom: int)
    requires b.west <= b.east && b.south <= b.north
    ensures var c := CenterOf(b, minzoom, maxzoom);
      && b.west <= c.lng <= b.east && b.south <= c.lat <= b.north
      && c.lng - b.west == b.east - c.lng && c.lat - b.south == b.north - c.lat
  {
  }

  /** Worked zooms: 0..14 centers at 7, 5..6 at 6, 3..3 at 3, 0..3 at 1 and
      2..7 at 4. */
  lemma CenterZoomExamples()
    ensures CenterZoom(0, 14) == 7 && CenterZoom(5, 6) == 6 && CenterZoom(3, 3) == 3
    ensures CenterZoom(0, 3) == 1 && CenterZoom(2, 7) == 4
  {
  }

  // ---------------------------------------------------------------------
  // The metadata record, rewritten in place

  class TileInfo {
    var minzoom: int
    var maxzoom: int
    var bounds: BBox
    var center: Center
    var name: string
    var description: string
    var basename: string
    var vectorLayers: array<Layer>

    constructor (minzoom: int, maxzoom: int, layers: seq<Layer>)
      ensures this.minzoom == minzoom && this.maxzoom == maxzoom
      ensures vectorLayers[..] == layers && fresh(vectorLayers)
    {
      this.minzoom, this.maxzoom := minzoom, maxzoom;
      bounds := BBox(MinLng, MinLat, MaxLng, MaxLat);
      center := Center(0.0, 0.0, minzoom);
      name, description, basename := "", "", "";
      vectorLayers := new Layer[|layers|](i requires 0 <= i < |layers| => layers[i]);
    }
  }

  /** The `for` loop over `vector_layers`: every layer keeps its id and
      position and loses its field list. */
  method ClearLayerFields(layers: array<Layer>)
    modifies layers
    ensures forall i :: 0 <= i < layers.Length ==> layers[i] == Cleared(old(layers[i]))
  {
    for i := 0 to layers.Length
      invariant forall j :: 0 <= j < i ==> layers[j] == Cleared(old(layers[j]))
      invariant forall j :: i <= j < layers.Length ==> layers[j] == old(layers[j])
    {
      layers[i] := Cleared(layers[i]);
    }
  }

  /** `updateInfo` once the extent query has answered: on an error or no
      row the record is left alone; otherwise bounds, center, identity and
      layers are rewritten and the archive is handed on. */
  method UpdateInfo(info: TileInfo, partition: string, query: Query) returns (o: Outcome)
    modifies info, info.vectorLayers
    ensures info.vectorLayers == old(info.vectorLayers)
    ensures info.minzoom == old(info.minzoom) && info.maxzoom == old(info.maxzoom)
    ensures query.QueryError? ==> o == Failed
    ensures query.NoRow? ==> o == ReturnedInfo
    ensures !query.Row? ==> unchanged(info) && unchanged(info.vectorLayers)
    ensures query.Row? ==>
              && o == ReturnedArchive
              && info.bounds == ClampBounds(query.llTile, query.urTile)
              && info.center == CenterOf(info.bounds, info.minzoom, info.maxzoom)
              && info.name == partition && info.description == partition
              && info.basename == partition
              && forall i :: 0 <= i < info.vectorLayers.Length ==>
                   info.vectorLayers[i] == Cleared(old(info.vectorLayers[i]))
  {
    match query {
      case QueryError =>
        return Failed;
      case NoRow =>
        return ReturnedInfo;
      case Row(llTile, urTile) =>
        info.bounds := ClampBounds(llTile, urTile);
        info.center := CenterOf(info.bounds, info.minzoom, info.maxzoom);
        info.name, info.description, info.basename := partition, partition, partition;
        ClearLayerFields(info.vectorLayers);
        return ReturnedArchive;
    }
  }
}
