/** What the Leaflet map holds: positions, route geometries and layers. */
module Layers {

  import opened Wrappers

  /** A WGS84 position. Each component is kept as the decimal text that
      JavaScript renders for the number in a template string, so the
      numbers themselves stay abstract. */
  datatype Coord = Coord(lat: string, lon: string)

  /** A route's geometry: the ordered positions of the path. */
  type Geometry = seq<Coord>

  datatype LayerKind =
    | UserMarker(at: Coord, popup: string)
    | PlaceMarker(at: Coord, popup: string)
    | RouteLine(path: Geometry)

  /** A layer created for the map. `stamp` stands for the layer's
      identity, so two layers with the same look are still two layers.
      Leaflet's own ids come from one counter shared with other objects;
      numbering the page's layers consecutively is a choice of this model. */
  datatype Layer = Layer(stamp: nat, kind: LayerKind)

  /** The layers that an optional layer variable refers to. */
  function Present(o: Option<Layer>): set<Layer>
  {
    if o.Some? then {o.value} else {}
  }
}
