/**
 * `osm_extract.py`: optionally cuts a region out of an OSM file with
 * `osmium extract`, then converts the (cut) file with the converter.
 *
 * Reading the filter file and merging its polygons is done by a loader the
 * model takes as a parameter: it yields an error (an exception in the
 * script), no area (an empty union), or an area of known kind. The working
 * directory and the temporary directory are parameters too; what the script
 * does to the outside world is returned as a list of effects.
 */
module OsmExtract {
  import opened Python
  import opened OsmiumConfig
  import opened ConverterCommand

  /** The name of the configuration file written in the temporary directory. */
  const ConfigFileName: string := "cfg.json"

  /** The name of the cut-out file osmium writes, in the temporary directory. */
  const ExtractFileName: string := "o.pbf"

  /** The member key an area of this kind is written under. */
  function GeometryKey(kind: GeometryKind): string
  {
    if kind == Polygon then "polygon" else "multipolygon"
  }

  /** The members every extract entry starts with. */
  function BaseEntry(outputFilename: Option<string>): seq<Member>
  {
    [Member("output", OptionalString(outputFilename)),
     Member("output_format", Str("pbf")),
     Member("description", Str("auto-extracted subset"))]
  }

  /** The keys every extract entry starts with. */
  const BaseKeys: seq<string> := ["output", "output_format", "description"]

  /** The extract entry, with the area under the key of its kind. */
  function ExtractEntry(outputFilename: Option<string>, area: Option<Area>): seq<Member>
  {
    match area
    case None => BaseEntry(outputFilename)
    case Some(a) => BaseEntry(outputFilename) + [Member(GeometryKey(a.kind), a.coordinates)]
  }

  /** A configuration with one extract entry. */
  function Config(directory: Option<string>, entry: seq<Member>): Json
  {
    Obj([Member("directory", OptionalString(directory)), Member("extracts", Arr([Obj(entry)]))])
  }

  /** osmium finds the directory and the one entry of a configuration. */
  lemma ConfigReads(directory: Option<string>, entry: seq<Member>)
    ensures Directory(Config(directory, entry)) == Some(OptionalString(directory))
    ensures SingleExtract(Config(directory, entry)) == Some(entry)
  {
    var members := Config(directory, entry).members;
    assert Lookup(members, "extracts") == Lookup(members[1..], "extracts");
  }

  /** The members of an entry, and the area osmium reads from it. */
  lemma EntryReads(outputFilename: Option<string>, area: Option<Area>)
    ensures var entry := ExtractEntry(outputFilename, area);
      && Lookup(entry, "output") == Some(OptionalString(outputFilename))
      && Lookup(entry, "output_format") == Some(Str("pbf"))
      && Lookup(entry, "description") == Some(Str("auto-extracted subset"))
      && Keys(entry) == BaseKeys + (if area.Some? then [GeometryKey(area.value.kind)] else [])
      && ReadExtractArea(entry) == area
  {
    var entry := ExtractEntry(outputFilename, area);
    var tail := entry[3..];
    assert tail == if area.Some? then [Member(GeometryKey(area.value.kind), area.value.coordinates)] else [];
    assert Lookup(entry, "output_format") == Lookup(entry[1..], "output_format");
    assert Lookup(entry, "description") == Lookup(entry[1..], "description") == Lookup(entry[2..], "description");
    forall key | key !in BaseKeys
      ensures Lookup(entry, key) == Lookup(tail, key)
    {
      assert Lookup(entry, key) == Lookup(entry[1..], key) == Lookup(entry[2..], key) == Lookup(tail, key);
    }
    assert "polygon" !in BaseKeys && "multipolygon" !in BaseKeys;
  }

  /** The area the configuration should cut out: the loaded one, if a filter file is given. */
  function RequestedArea(spatialFilterFile: Option<string>, loadArea: string -> Result<Option<Area>>): Option<Area>
  {
    if Truthy(spatialFilterFile) && loadArea(spatialFilterFile.value).Ok? then loadArea(spatialFilterFile.value).value
    else None
  }

  /**
   * `get_osmium_tool_config`: fails exactly when a filter file is given and
   * loading it fails.
   */
  function OsmiumToolConfig(outputFilename: Option<string>, directory: Option<string>,
                            spatialFilterFile: Option<string>,
                            loadArea: string -> Result<Option<Area>>): (r: Result<Json>)
    ensures r.Err? <==> Truthy(spatialFilterFile) && loadArea(spatialFilterFile.value).Err?
  {
    if Truthy(spatialFilterFile) then
      match loadArea(spatialFilterFile.value)
      case Err(e) => Err(e)
      case Ok(area) => Ok(Config(directory, ExtractEntry(outputFilename, area)))
    else
      Ok(Config(directory, ExtractEntry(outputFilename, None)))
  }

  /**
   * A configuration names the directory and has one extract entry: the
   * output file, format `pbf`, the fixed description and, when a filter
   * file gives an area, one geometry member under the key of its kind,
   * from which osmium reads back that very area.
   */
  lemma ConfigContents(outputFilename: Option<string>, directory: Option<string>,
                       spatialFilterFile: Option<string>, loadArea: string -> Result<Option<Area>>)
    ensures var r := OsmiumToolConfig(outputFilename, directory, spatialFilterFile, loadArea);
      && (r.Ok? ==> Directory(r.value) == Some(OptionalString(directory)))
      && (r.Ok? ==> SingleExtract(r.value).Some?)
    ensures var r := OsmiumToolConfig(outputFilename, directory, spatialFilterFile, loadArea);
      r.Ok? ==> var entry := SingleExtract(r.value).value;
        && Lookup(entry, "output") == Some(OptionalString(outputFilename))
        && Lookup(entry, "output_format") == Some(Str("pbf"))
        && Lookup(entry, "description") == Some(Str("auto-extracted subset"))
    ensures var r := OsmiumToolConfig(outputFilename, directory, spatialFilterFile, loadArea);
      r.Ok? ==>
        Keys(SingleExtract(r.value).value) == BaseKeys + (match RequestedArea(spatialFilterFile, loadArea)
          case None => []
          case Some(a) => [if a.kind == Polygon then "polygon" else "multipolygon"])
    ensures var r := OsmiumToolConfig(outputFilename, directory, spatialFilterFile, loadArea);
      r.Ok? ==> ReadExtractArea(SingleExtract(r.value).value) == RequestedArea(spatialFilterFile, loadArea)
  {
    var area := RequestedArea(spatialFilterFile, loadArea);
    ConfigReads(directory, ExtractEntry(outputFilename, area));
    EntryReads(outputFilename, area);
  }

  /** Without a filter file the loader is never consulted and no area is configured. */
  lemma ConfigWithoutFilter(outputFilename: Option<string>, directory: Option<string>,
                            spatialFilterFile: Option<string>,
                            loadArea: string -> Result<Option<Area>>, otherLoader: string -> Result<Option<Area>>)
    requires !Truthy(spatialFilterFile)
    ensures OsmiumToolConfig(outputFilename, directory, spatialFilterFile, loadArea)
      == OsmiumToolConfig(outputFilename, directory, spatialFilterFile, otherLoader)
    ensures var r := OsmiumToolConfig(outputFilename, directory, spatialFilterFile, loadArea);
      && r.Ok? && SingleExtract(r.value).Some?
      && ReadExtractArea(SingleExtract(r.value).value) == None
  {
    ConfigContents(outputFilename, directory, spatialFilterFile, loadArea);
  }

  /**
   * The file the converter reads: the cut-out file, or the input itself
   * resolved against the directory the script was started in.
   */
  function ConverterInput(formerWorkdir: string, osmInputFile: string, geofilter: Option<string>): (r: string)
    ensures Truthy(geofilter) ==> r == ExtractFileName
    ensures !Truthy(geofilter) ==> r == JoinPath(formerWorkdir, osmInputFile)
    ensures !Truthy(geofilter) ==> |r| >= |osmInputFile| && r[|r| - |osmInputFile|..] == osmInputFile
    ensures !Truthy(geofilter) && |osmInputFile| > 0 && osmInputFile[0] == '/' ==> r == osmInputFile
    ensures !Truthy(geofilter) && !(|osmInputFile| > 0 && osmInputFile[0] == '/') ==>
      |r| >= |formerWorkdir| && r[..|formerWorkdir|] == formerWorkdir
  {
    if Truthy(geofilter) then ExtractFileName else JoinPath(formerWorkdir, osmInputFile)
  }

  /** The configuration the script writes (or fails to) when given `geofilter`. */
  function ScriptConfig(formerWorkdir: string, tdir: string, geofilter: Option<string>,
                        loadArea: string -> Result<Option<Area>>): Result<Json>
  {
    var filterFile := if Truthy(geofilter) then Some(JoinPath(formerWorkdir, geofilter.value)) else None;
    OsmiumToolConfig(Some(ExtractFileName), Some(tdir), filterFile, loadArea)
  }

  /** With a geofilter, the converter reads the very file osmium is configured to write. */
  lemma ConverterInputIsExtractOutput(formerWorkdir: string, osmInputFile: string, geofilter: Option<string>,
                                      tdir: string, loadArea: string -> Result<Option<Area>>)
    requires Truthy(geofilter) && ScriptConfig(formerWorkdir, tdir, geofilter, loadArea).Ok?
    ensures var cfg := ScriptConfig(formerWorkdir, tdir, geofilter, loadArea).value;
      && SingleExtract(cfg).Some?
      && Lookup(SingleExtract(cfg).value, "output") == Some(Str(ConverterInput(formerWorkdir, osmInputFile, geofilter)))
  {
    ConfigContents(Some(ExtractFileName), Some(tdir), Some(JoinPath(formerWorkdir, geofilter.value)), loadArea);
  }

  /** The `osmium extract` command line. */
  function OsmiumCommand(formerWorkdir: string, osmInputFile: string, strategy: string): seq<string>
  {
    ["osmium", "extract", "-c", ConfigFileName, JoinPath(formerWorkdir, osmInputFile), "-s", strategy]
  }

  /**
   * `osm_ogr_extract`, run in `tdir` after leaving `formerWorkdir`. With a
   * geofilter it writes the configuration and runs osmium on the input; it
   * always ends by running the converter on the file chosen by
   * `ConverterInput`. It fails exactly when the filter file cannot be loaded.
   */
  method OsmOgrExtract(osmInputFile: string, ogrOutputFile: string, geofilter: Option<string>,
                       formatName: Option<string>, layerName: Option<string>, length: bool, ways: bool,
                       tags: Option<seq<string>>, strategy: string,
                       formerWorkdir: string, tdir: string,
                       loadArea: string -> Result<Option<Area>>) returns (r: Result<seq<Effect>>)
    ensures r.Err? <==> ScriptConfig(formerWorkdir, tdir, geofilter, loadArea).Err?
    ensures r.Ok? ==> |r.value| == if Truthy(geofilter) then 3 else 1
    ensures r.Ok? && Truthy(geofilter) ==>
      && r.value[0] == WriteJson(ConfigFileName, ScriptConfig(formerWorkdir, tdir, geofilter, loadArea).value)
      && r.value[1] == RunProcess(OsmiumCommand(formerWorkdir, osmInputFile, strategy))
    ensures r.Ok? ==> r.value[|r.value| - 1] == RunProcess(ConversionCommand(
      ConverterInput(formerWorkdir, osmInputFile, geofilter), JoinPath(formerWorkdir, ogrOutputFile),
      ways, length, formatName, layerName, tags))
  {
    var effects: seq<Effect> := [];
    var inputFile := JoinPath(formerWorkdir, osmInputFile);
    if Truthy(geofilter) {
      inputFile := ExtractFileName;
      var cfg := OsmiumToolConfig(Some(inputFile), Some(tdir), Some(JoinPath(formerWorkdir, geofilter.value)), loadArea);
      assert cfg == ScriptConfig(formerWorkdir, tdir, geofilter, loadArea);
      if cfg.Err? {
        return Err(cfg.error);
      }
      effects := effects + [WriteJson(ConfigFileName, cfg.value)];
      effects := effects + [RunProcess(OsmiumCommand(formerWorkdir, osmInputFile, strategy))];
    }
    var convertionArgs := ConversionArgs(inputFile, JoinPath(formerWorkdir, ogrOutputFile),
                                         ways, length, formatName, layerName, tags);
    effects := effects + [RunProcess(convertionArgs)];
    return Ok(effects);
  }

  /**
   * With a geofilter, osmium writes its cut-out under the name the
   * converter then reads, in the directory the script runs in; the
   * converter receives the options it was given.
   */
  lemma ExtractFeedsConverter(osmInputFile: string, ogrOutputFile: string, geofilter: Option<string>,
                              formatName: Option<string>, layerName: Option<string>, length: bool, ways: bool,
                              tags: Option<seq<string>>, formerWorkdir: string, tdir: string,
                              loadArea: string -> Result<Option<Area>>)
    requires Truthy(geofilter)
    requires OsmiumToolConfig(Some(ExtractFileName), Some(tdir), Some(JoinPath(formerWorkdir, geofilter.value)), loadArea).Ok?
    ensures var cfg := OsmiumToolConfig(Some(ExtractFileName), Some(tdir), Some(JoinPath(formerWorkdir, geofilter.value)), loadArea).value;
      var cmd := ConversionCommand(ConverterInput(formerWorkdir, osmInputFile, geofilter),
                                   JoinPath(formerWorkdir, ogrOutputFile), ways, length, formatName, layerName, tags);
      && Directory(cfg) == Some(Str(tdir))
      && SingleExtract(cfg).Some?
      && Lookup(SingleExtract(cfg).value, "output") == Some(Str(cmd[2]))
      && ReadCommand(cmd)
        == Some(Invocation(ExtractFileName, JoinPath(formerWorkdir, ogrOutputFile), ways, length,
                           Given(formatName), Given(layerName), TagList(tags)))
  {
    ConfigContents(Some(ExtractFileName), Some(tdir), Some(JoinPath(formerWorkdir, geofilter.value)), loadArea);
    ReadConversionCommand(ConverterInput(formerWorkdir, osmInputFile, geofilter),
                          JoinPath(formerWorkdir, ogrOutputFile), ways, length, formatName, layerName, tags);
  }
}
