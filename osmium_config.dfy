/**
 * The part of the `osmium extract` configuration file format that the
 * extraction scripts write: a JSON object with an output `directory` and a
 * list of `extracts`, each naming an output file and, optionally, the area
 * to cut out. osmium reads the area from a `polygon` member (the coordinate
 * rings of one polygon) or a `multipolygon` member (a list of polygons).
 *
 * The functions here read a configuration the way osmium interprets it; the
 * scripts' own builders are specified against them.
 */
module OsmiumConfig {
  import opened Python

  /** The two geometry kinds the aggregated filter area can have. */
  datatype GeometryKind = Polygon | MultiPolygon

  /** A non-empty filter area: its kind and its GeoJSON coordinates. */
  datatype Area = Area(kind: GeometryKind, coordinates: Json)

  /** The `directory` member of a configuration, if it has one. */
  function Directory(cfg: Json): Option<Json>
  {
    if cfg.Obj? then Lookup(cfg.members, "directory") else None
  }

  /** The members of the extract entry, when `extracts` lists exactly one object. */
  function SingleExtract(cfg: Json): Option<seq<Member>>
  {
    if !cfg.Obj? then None
    else match Lookup(cfg.members, "extracts")
      case Some(Arr(items)) => if |items| == 1 && items[0].Obj? then Some(items[0].members) else None
      case _ => None
  }

  /** The area an extract entry names, as osmium reads it; `None` when no area is configured. */
  function ReadExtractArea(entry: seq<Member>): (r: Option<Area>)
    ensures r.Some? <==> Lookup(entry, "polygon").Some? || Lookup(entry, "multipolygon").Some?
  {
    match Lookup(entry, "polygon")
    case Some(c) => Some(Area(Polygon, c))
    case None =>
      match Lookup(entry, "multipolygon")
      case Some(c) => Some(Area(MultiPolygon, c))
      case None => None
  }
}
