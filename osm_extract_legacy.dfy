/**
 * `osm-extract.py`, the older command-line form of the extraction script.
 * It does what `osm_extract.py` does, with two differences: the options
 * come from the command line (with their own defaults), and the
 * configuration writes any filter area under the key `multipolygon`,
 * whatever the kind of the area.
 */
module OsmExtractLegacy {
  import opened Python
  import opened OsmiumConfig
  import opened ConverterCommand
  import opened OsmExtract

  /** The filter area as osmium reads it from this script's configuration: always a multipolygon. */
  function AsMultiPolygon(area: Option<Area>): Option<Area>
  {
    match area
    case None => None
    case Some(a) => Some(Area(MultiPolygon, a.coordinates))
  }

  /** The extract entry of this script: any area goes under `multipolygon`. */
  function LegacyEntry(outputFilename: Option<string>, area: Option<Area>): seq<Member>
  {
    match area
    case None => BaseEntry(outputFilename)
    case Some(a) => BaseEntry(outputFilename) + [Member("multipolygon", a.coordinates)]
  }

  /** The members of an entry, and the area osmium reads from it. */
  lemma LegacyEntryReads(outputFilename: Option<string>, area: Option<Area>)
    ensures var entry := LegacyEntry(outputFilename, area);
      && Lookup(entry, "output") == Some(OptionalString(outputFilename))
      && Lookup(entry, "output_format") == Some(Str("pbf"))
      && Lookup(entry, "description") == Some(Str("auto-extracted subset"))
      && Keys(entry) == BaseKeys + (if area.Some? then ["multipolygon"] else [])
      && ReadExtractArea(entry) == AsMultiPolygon(area)
  {
    var entry := LegacyEntry(outputFilename, area);
    var tail := entry[3..];
    assert tail == if area.Some? then [Member("multipolygon", area.value.coordinates)] else [];
    assert Lookup(entry, "output_format") == Lookup(entry[1..], "output_format");
    assert Lookup(entry, "description") == Lookup(entry[1..], "description") == Lookup(entry[2..], "description");
    forall key | key !in BaseKeys
      ensures Lookup(entry, key) == Lookup(tail, key)
    {
      assert Lookup(entry, key) == Lookup(entry[1..], key) == Lookup(entry[2..], key) == Lookup(tail, key);
    }
    assert "polygon" !in BaseKeys && "multipolygon" !in BaseKeys;
  }

  /**
   * `get_osmium_tool_config` of this script: fails exactly when a filter
   * file is given and loading it fails.
   */
  function LegacyToolConfig(outputFilename: Option<string>, directory: Option<string>,
                            spatialFilterFile: Option<string>,
                            loadArea: string -> Result<Option<Area>>): (r: Result<Json>)
    ensures r.Err? <==> Truthy(spatialFilterFile) && loadArea(spatialFilterFile.value).Err?
  {
    if Truthy(spatialFilterFile) then
      match loadArea(spatialFilterFile.value)
      case Err(e) => Err(e)
      case Ok(area) => Ok(Config(directory, LegacyEntry(outputFilename, area)))
    else
      Ok(Config(directory, LegacyEntry(outputFilename, None)))
  }

  /**
   * A configuration names the directory and has one extract entry: the
   * output file, format `pbf`, the fixed description and, when a filter
   * file gives an area, a `multipolygon` member.
   */
  lemma LegacyConfigContents(outputFilename: Option<string>, directory: Option<string>,
                             spatialFilterFile: Option<string>, loadArea: string -> Result<Option<Area>>)
    ensures var r := LegacyToolConfig(outputFilename, directory, spatialFilterFile, loadArea);
      && (r.Ok? ==> Directory(r.value) == Some(OptionalString(directory)))
      && (r.Ok? ==> SingleExtract(r.value).Some?)
    ensures var r := LegacyToolConfig(outputFilename, directory, spatialFilterFile, loadArea);
      r.Ok? ==> var entry := SingleExtract(r.value).value;
        && Lookup(entry, "output") == Some(OptionalString(outputFilename))
        && Lookup(entry, "output_format") == Some(Str("pbf"))
        && Lookup(entry, "description") == Some(Str("auto-extracted subset"))
    ensures var r := LegacyToolConfig(outputFilename, directory, spatialFilterFile, loadArea);
      r.Ok? ==>
        Keys(SingleExtract(r.value).value) == BaseKeys
          + (if RequestedArea(spatialFilterFile, loadArea).Some? then ["multipolygon"] else [])
    ensures var r := LegacyToolConfig(outputFilename, directory, spatialFilterFile, loadArea);
      r.Ok? ==>
        ReadExtractArea(SingleExtract(r.value).value) == AsMultiPolygon(RequestedArea(spatialFilterFile, loadArea))
  {
    var area := RequestedArea(spatialFilterFile, loadArea);
    ConfigReads(directory, LegacyEntry(outputFilename, area));
    LegacyEntryReads(outputFilename, area);
  }

  /**
   * A filter whose merged area is a single polygon is read back by osmium
   * as a multipolygon with the polygon's coordinates, so the area osmium
   * cuts out is not the one that was loaded. The newer script's
   * `OsmiumToolConfig` reads back the loaded area itself.
   */
  lemma LegacyPolygonMisread(outputFilename: Option<string>, directory: Option<string>,
                             spatialFilterFile: Option<string>,
                             loadArea: string -> Result<Option<Area>>, coordinates: Json)
    requires Truthy(spatialFilterFile)
    requires loadArea(spatialFilterFile.value) == Ok(Some(Area(Polygon, coordinates)))
    ensures var r := LegacyToolConfig(outputFilename, directory, spatialFilterFile, loadArea);
      && r.Ok? && SingleExtract(r.value).Some?
      && ReadExtractArea(SingleExtract(r.value).value) == Some(Area(MultiPolygon, coordinates))
    ensures var r := OsmiumToolConfig(outputFilename, directory, spatialFilterFile, loadArea);
      && r.Ok? && SingleExtract(r.value).Some?
      && ReadExtractArea(SingleExtract(r.value).value) == Some(Area(Polygon, coordinates))
  {
    LegacyConfigContents(outputFilename, directory, spatialFilterFile, loadArea);
    ConfigContents(outputFilename, directory, spatialFilterFile, loadArea);
  }

  /** The command-line options of the script. */
  datatype CliArgs = CliArgs(
    osmInputFile: string,
    ogrOutputFile: string,
    geofilter: Option<string>,
    formatName: Option<string>,
    layerName: Option<string>,
    length: bool,
    ways: bool,
    tags: Option<seq<string>>,
    strategy: string)

  /** The options when only the two positional arguments are given. */
  function DefaultCliArgs(osmInputFile: string, ogrOutputFile: string): CliArgs
  {
    CliArgs(osmInputFile, ogrOutputFile, None, Some("ESRI Shapefile"), Some("export"), false, false, None,
            "complete_ways")
  }

  /** The converter command line the script runs for `args`. */
  function ScriptCommand(args: CliArgs, formerWorkdir: string): seq<string>
  {
    ConversionCommand(ConverterInput(formerWorkdir, args.osmInputFile, args.geofilter),
                      JoinPath(formerWorkdir, args.ogrOutputFile),
                      args.ways, args.length, args.formatName, args.layerName, args.tags)
  }

  /**
   * The `__main__` block, run in `tdir` after leaving `formerWorkdir`. With
   * a geofilter it writes the configuration and runs osmium; it always ends
   * by running the converter. It fails exactly when the filter file cannot
   * be loaded.
   */
  method ExtractScript(args: CliArgs, formerWorkdir: string, tdir: string,
                       loadArea: string -> Result<Option<Area>>) returns (r: Result<seq<Effect>>)
    ensures var filterFile := if Truthy(args.geofilter) then Some(JoinPath(formerWorkdir, args.geofilter.value)) else None;
      r.Err? <==> LegacyToolConfig(Some(ExtractFileName), Some(tdir), filterFile, loadArea).Err?
    ensures r.Ok? ==> |r.value| == if Truthy(args.geofilter) then 3 else 1
    ensures r.Ok? && Truthy(args.geofilter) ==>
      r.value[0] == WriteJson(ConfigFileName,
        LegacyToolConfig(Some(ExtractFileName), Some(tdir), Some(JoinPath(formerWorkdir, args.geofilter.value)), loadArea).value)
      && r.value[1] == RunProcess(OsmiumCommand(formerWorkdir, args.osmInputFile, args.strategy))
    ensures r.Ok? ==> r.value[|r.value| - 1] == RunProcess(ScriptCommand(args, formerWorkdir))
  {
    var effects: seq<Effect> := [];
    var inputFile := JoinPath(formerWorkdir, args.osmInputFile);
    if Truthy(args.geofilter) {
      inputFile := ExtractFileName;
      var cfg := LegacyToolConfig(Some(inputFile), Some(tdir), Some(JoinPath(formerWorkdir, args.geofilter.value)),
                                  loadArea);
      if cfg.Err? {
        return Err(cfg.error);
      }
      effects := effects + [WriteJson(ConfigFileName, cfg.value)];
      effects := effects + [RunProcess(OsmiumCommand(formerWorkdir, args.osmInputFile, args.strategy))];
    }
    var convertionArgs := ConversionArgs(inputFile, JoinPath(formerWorkdir, args.ogrOutputFile),
                                         args.ways, args.length, args.formatName, args.layerName, args.tags);
    effects := effects + [RunProcess(convertionArgs)];
    return Ok(effects);
  }

  /**
   * Unless overridden on the command line, the format and layer names
   * reach the converter: `--format_name "ESRI Shapefile"` and
   * `--layer_name export` are always on the command line.
   */
  lemma DefaultNamesPassed(args: CliArgs, formerWorkdir: string)
    requires args.formatName == Some("ESRI Shapefile") && args.layerName == Some("export")
    ensures ReadCommand(ScriptCommand(args, formerWorkdir)).Some?
    ensures ReadCommand(ScriptCommand(args, formerWorkdir)).value.formatName == Some("ESRI Shapefile")
    ensures ReadCommand(ScriptCommand(args, formerWorkdir)).value.layerName == Some("export")
  {
    ReadConversionCommand(ConverterInput(formerWorkdir, args.osmInputFile, args.geofilter),
                          JoinPath(formerWorkdir, args.ogrOutputFile),
                          args.ways, args.length, args.formatName, args.layerName, args.tags);
  }

  /** With every option at its default, the converter gets exactly ten arguments. */
  lemma DefaultCommand(osmInputFile: string, ogrOutputFile: string, formerWorkdir: string)
    ensures ScriptCommand(DefaultCliArgs(osmInputFile, ogrOutputFile), formerWorkdir)
      == Prefix(JoinPath(formerWorkdir, osmInputFile), JoinPath(formerWorkdir, ogrOutputFile))
         + ["--format_name", "ESRI Shapefile", "--layer_name", "export"]
  {
    var args := DefaultCliArgs(osmInputFile, ogrOutputFile);
    assert ConverterInput(formerWorkdir, args.osmInputFile, args.geofilter) == JoinPath(formerWorkdir, osmInputFile);
    assert Switches(false, false, args.formatName, args.layerName, TagList(args.tags))
      == ["--format_name", "ESRI Shapefile", "--layer_name", "export"];
  }
}
