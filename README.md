# osm-ogr-tools in Dafny

osm-ogr-tools converts OpenStreetMap data to GIS vector formats. The C++
program `osm2ogr_with_tags` reads an OSM file and writes one feature per
node (or per way) to an OGR layer. Each feature gets the object id, the
way's length in metres if that was asked for, and one string column per
requested tag. Two Python scripts wrap the converter: `osm_extract.py` and
its older command-line form `osm-extract.py`. When a vector file is given
as a geographic filter, they first cut the region out with
`osmium extract`, then run the converter with options built from their own.

This project models the logic of these programs and proves its properties:

- `string_order.dfy` (`StringOrder`): the iteration order of a
  `std::set<std::string>`. A set is held as the strictly ascending
  sequence of its elements. Insertion is `InsertSorted`. Two ascending
  sequences with the same elements are equal.
- `ogr.dfy` (`Ogr`): the gdalcpp layer and feature as classes. A layer
  holds its field definitions and the features written to it. A feature
  holds its field values by name.
- `progress.dfy` (`Progress`): the progress throttle as a state machine.
  It gives closed forms for the counter and for the callback's firings.
- `osm2ogr.dfy` (`Osm2Ogr`): `GenericOGRHandler` and the node and way
  handlers as classes. Their methods are proved against the schema and
  record functions that specify them.
- `python.dfy` (`Python`): the Python semantics the scripts rely on.
  These are `None`, exceptions, truthiness, POSIX `os.path.join`, JSON
  with ordered objects, and the scripts' effects.
- `converter_command.dfy` (`ConverterCommand`): the converter command
  line. It is built imperatively by appending, as the scripts build it. It
  is specified by a function and read back by an independent parser.
- `osmium_config.dfy` (`OsmiumConfig`): how `osmium extract` reads the
  configuration the scripts write.
- `osm_extract.py` is modelled in `osm_extract.dfy` (`OsmExtract`) and
  `osm-extract.py` in `osm_extract_legacy.dfy` (`OsmExtractLegacy`): each
  script's configuration builder and its run. A run is a list of effects:
  the configuration file written, and then the processes started.

Modelling choices:

- The handlers' base class is a `TagHandler` object. Each concrete
  handler holds one as `base` instead of inheriting from it.
- `progress_cb` is a nullable `ProgressSink`. `null` stands for an empty
  `std::function`, and calling the sink counts one call.
- A missing tag's value is `NullStr`, the null C string handed to
  `set_field`.
- The way's haversine length is a parameter of `WayHandler.Way`.
- A filter file is loaded by a function parameter of type
  `string -> Result<Option<Area>>`. It either raises an error, finds no
  area (an empty union), or returns an area whose kind is Polygon or
  MultiPolygon. The working directory and the temporary directory are
  parameters as well.

## Model

| member | source | states |
|---|---|---|
| StringOrder.InsertSorted | src/osm2ogr_with_tags.cpp:75 | Inserting into the tag set keeps it strictly ascending and adds exactly the new key. A key already present leaves the set unchanged. |
| StringOrder.AscendingUnique | src/osm2ogr_with_tags.cpp:48 | A set of strings has one iteration order: two ascending sequences with the same elements are equal. |
| StringOrder.AscendingCardinality | src/osm2ogr_with_tags.cpp:48 | A set iterates each of its elements exactly once. |
| Osm2Ogr.ExportKeys | src/osm2ogr_with_tags.cpp:73-76 | The exported tag set is ascending and holds exactly the distinct requested keys. |
| Osm2Ogr.ExportKeysCanonical | src/osm2ogr_with_tags.cpp:73-76 | The exported tags depend only on which keys were requested, not on their order or repetitions. |
| Osm2Ogr.TagColumnCount | src/osm2ogr_with_tags.cpp:59-63 | There is one tag column per distinct requested key, so a key requested twice gives one column. |
| Osm2Ogr.NodeSchema | src/osm2ogr_with_tags.cpp:104-111 | The node layer has `id` (real, width 10) first. Then come the string columns of width 100, in ascending key order. There is no length column. Its field names are exactly `id` and the keys. |
| Osm2Ogr.WaySchema | src/osm2ogr_with_tags.cpp:132-143 | The way layer has `id` first. Then comes `osm_length`, present exactly when the length was asked for. Then come the tag columns in key order. Its field names are exactly these. |
| Osm2Ogr.NodeRecord | src/osm2ogr_with_tags.cpp:113-119 | A node's feature sets exactly `id` and every exported key. Each key takes the node's value, or null when the node lacks the tag. `id` is the node id unless a tag named `id` is exported. |
| Osm2Ogr.WayRecord | src/osm2ogr_with_tags.cpp:145-154 | As for nodes. In addition, `osm_length` is set to the length exactly when asked for, unless a tag of that name is exported. |
| Osm2Ogr.TagHandler.constructor | src/osm2ogr_with_tags.cpp:48-51 | A new handler has an empty tag set, no callback and a tick count of 0. |
| Osm2Ogr.TagHandler.SetExportTags | src/osm2ogr_with_tags.cpp:73-76 | The old set is discarded. The new set is `ExportKeys` of the requested keys. The progress state is unchanged. |
| Osm2Ogr.TagHandler.AddTagFieldsToLayer | src/osm2ogr_with_tags.cpp:59-63 | Appends one string column of width 100 per tag in set order, and nothing else. |
| Osm2Ogr.TagHandler.AddDefaultFieldsToLayer | src/osm2ogr_with_tags.cpp:65-67 | Appends the `id` column (real, width 10). |
| Osm2Ogr.TagHandler.SetDefaultFieldsOfFeature | src/osm2ogr_with_tags.cpp:69-71 | Sets `id` to the object id. |
| Osm2Ogr.TagHandler.SetTagsOfFeature | src/osm2ogr_with_tags.cpp:53-57 | Sets each exported key to the object's value, or to null when it is missing. No other field is touched, and a missing key is not an error. |
| Osm2Ogr.TagHandler.UpdateProgress | src/osm2ogr_with_tags.cpp:78-87 | The progress state takes one `Tick`. The callback is called once exactly when `Fires` holds. Nothing changes without a callback. |
| Osm2Ogr.TagHandler.SetProgressCallback | src/osm2ogr_with_tags.cpp:91-93 | Installs the callback and keeps the tags and the tick count. |
| Osm2Ogr.NodeHandler.constructor | src/osm2ogr_with_tags.cpp:104-111 | Creates layer `nodes` of points with schema `NodeSchema` of the exported keys. It has no features yet. |
| Osm2Ogr.NodeHandler.Node | src/osm2ogr_with_tags.cpp:113-119 | When osmium can build the point, appends `NodeRecord` to the layer and counts the node. Every feature keeps exactly the layer's field names. When it cannot, the point factory throws before the feature exists: nothing is written, the counter and the callback are untouched, and the result is `false`. |
| Osm2Ogr.WayHandler.constructor | src/osm2ogr_with_tags.cpp:132-143 | Creates layer `ways` of line strings with schema `WaySchema` of the exported keys and the length flag. |
| Osm2Ogr.WayHandler.Way | src/osm2ogr_with_tags.cpp:145-154 | When osmium can build the line string, appends `WayRecord` to the layer and counts the way, and the layer invariant is kept. When it cannot, nothing is added, the counter and the callback are untouched, and the result is `false`. |
| Progress.Tick | src/osm2ogr_with_tags.cpp:78-87 | Without a callback the state is unchanged and nothing fires. Past 200 the count restarts at 1. Otherwise it goes up by one and stays within 1..201. |
| Progress.TicksClosedForm | src/osm2ogr_with_tags.cpp:78-87 | After n calls with a callback, the count is (n-1) mod 201 + 1. |
| Progress.TicksBounded | src/osm2ogr_with_tags.cpp:51 | The count never leaves 0..201. |
| Progress.FiresOnCallExactly | src/osm2ogr_with_tags.cpp:81-84 | Call n fires exactly when n > 201 and n-1 is a multiple of 201. |
| Progress.FirstFiring | src/osm2ogr_with_tags.cpp:81-84 | The first firing is on the 202nd call, and none comes before it. |
| Progress.FiringPeriod | src/osm2ogr_with_tags.cpp:81-84 | After the first firing, one follows on every 201st call. |
| Progress.FiringsClosedForm | src/osm2ogr_with_tags.cpp:78-87 | After n calls the callback has been called (n-1)/201 times. |
| Python.JoinPath | src/osm_extract.py:140 | `os.path.join`: an absolute second path wins. Otherwise the second path is appended to the first, with a `/` between them only when the first is non-empty and does not already end in `/`. |
| ConverterCommand.TagArgs | src/osm_extract.py:179-182 | Gives two arguments per tag. |
| ConverterCommand.TagArgsAppend | src/osm_extract.py:180-182 | One more tag appends one more `--tag t` pair. |
| ConverterCommand.TagArgsAt | src/osm_extract.py:180-182 | The i-th tag stands at 2i+1, right after a `--tag`. |
| ConverterCommand.ConversionArgs | src/osm_extract.py:163-182 | The list built by appending equals `ConversionCommand`. It starts with the fixed prefix. Then come `--ways`, `--length`, `--format_name F` and `--layer_name L`, each only when given, then one `--tag` pair per tag in order. |
| ConverterCommand.ConversionCommandLength | src/osm_extract.py:163-182 | The length is 6 + [ways] + [length] + 2·[format given] + 2·[layer given] + 2·(number of tags). |
| ConverterCommand.ReadTagArgs | src/osm_extract.py:179-182 | Reading the `--tag` pairs back gives the tags in order, with repeats. |
| ConverterCommand.ReadFlag | src/osm_extract.py:169-172 | A switch is read back exactly when it was set. |
| ConverterCommand.ReadValuePair | src/osm_extract.py:173-178 | A named value is read back exactly when it is a non-empty string. |
| ConverterCommand.ReadConversionCommand | src/osm_extract.py:163-182 | Round trip: parsing the command line gives back input, output, switches, non-empty names and all tags. |
| OsmiumConfig.ReadExtractArea | src/osm_extract.py:85-89 | An entry has an area exactly when it has a `polygon` or a `multipolygon` member. |
| OsmExtract.ConfigReads | src/osm_extract.py:91-95 | The configuration has the given `directory` and exactly one extract entry. |
| OsmExtract.EntryReads | src/osm_extract.py:76-89 | The entry has `output`, `output_format` `pbf` and the fixed description. Its keys are exactly these, plus the geometry key of the area's kind. osmium reads back the area itself. |
| OsmExtract.OsmiumToolConfig | src/osm_extract.py:82-83 | Fails exactly when a filter file is given and loading it fails. |
| OsmExtract.ConfigContents | src/osm_extract.py:75-95 | The configuration names the directory and has one entry with the fixed members. The geometry member appears only for a given filter with a non-empty area, under `polygon` for a polygon and `multipolygon` otherwise. The entry's keys are exactly these, and osmium reads the loaded area back unchanged. |
| OsmExtract.ConfigWithoutFilter | src/osm_extract.py:82-83 | Without a filter file the loader is not consulted, and no area is configured. |
| OsmExtract.ConverterInput | src/osm_extract.py:140-144 | With a geofilter the converter reads `o.pbf`. Without one, a relative input file is resolved against the original directory: the path starts with that directory and ends with the file name. An absolute input file is used unchanged. |
| OsmExtract.ConverterInputIsExtractOutput | src/osm_extract.py:140-150 | With a geofilter, the file the converter reads is the `output` member of the configuration's single extract entry, that is, the file osmium writes. |
| OsmExtract.OsmOgrExtract | src/osm_extract.py:136-186 | Fails exactly when the configuration fails. With a geofilter, the run writes `cfg.json`, runs osmium and then runs the converter. Without one, it only runs the converter. The converter line is `ConversionCommand` of the chosen input. |
| OsmExtract.ExtractFeedsConverter | src/osm_extract.py:143-168 | osmium's output file is the converter's `-i` argument, in the temporary directory the configuration names. The converter receives the script's options. |
| OsmExtractLegacy.LegacyEntryReads | src/osm-extract.py:60-70 | The entry has the fixed members. Any area is under `multipolygon`, and osmium reads it back as a multipolygon. |
| OsmExtractLegacy.LegacyToolConfig | src/osm-extract.py:66-67 | Fails exactly when a filter file is given and loading it fails. |
| OsmExtractLegacy.LegacyConfigContents | src/osm-extract.py:59-76 | The configuration names the directory and has one entry with the fixed members, plus `multipolygon` only for a non-empty area. osmium reads the area back as a multipolygon. |
| OsmExtractLegacy.LegacyPolygonMisread | src/osm-extract.py:66-70 | When the loaded area is a polygon, osmium reads this script's configuration as a multipolygon, while it reads the newer script's configuration as that polygon. |
| OsmExtractLegacy.ExtractScript | src/osm-extract.py:112-162 | The same run as `OsmOgrExtract`, with the older configuration and the command-line options. |
| OsmExtractLegacy.DefaultNamesPassed | src/osm-extract.py:149-154 | With the default format and layer names, the converter line carries `--format_name "ESRI Shapefile"` and `--layer_name export`. |
| OsmExtractLegacy.DefaultCommand | src/osm-extract.py:139-154 | With all options at their defaults, the converter line is the prefix followed by those two pairs. |

## Left out

- GDAL itself is not modelled. This covers the dataset, spatial references, `CPLSetConfigOption` and the geometries themselves. The layers carry no geometries, only their geometry type.
- osmium's geometry creation is not modelled. This covers `OGRFactory::create_point`, `create_linestring` and the haversine distance. Whether a geometry can be built is the `hasGeometry` parameter.
- NodeHandler.Node, WayHandler.Way: when osmium throws because a geometry cannot be built, the exception ends the whole conversion in `main` with exit status 2. The model only returns `false` with the handler's state unchanged; it does not model the end of the run.
- Tag keys are `seq<char>` ordered by code point, which matches `std::string` comparison for UTF-8 keys. A `std::string` may hold any bytes, and keys that are not valid UTF-8 have no counterpart in the model.
- osmium's reading is not modelled. This covers the reader, the location index, `NodeLocationsForWays` and `osmium::apply`. The handlers' methods are called one object at a time.
- The haversine length is computed by osmium in floating point. `WayHandler.Way` takes it as a parameter.
- The id is written as `static_cast<double>(id)`. The model writes the integer id, so it does not capture the rounding of ids beyond 2^53.
- GDAL's treatment of a null string value, and of two columns with the same name, is not modelled. Such a pair arises when a tag named `id` or `osm_length` is exported. The model records the later value under that name.
- The progress bar and the reader offsets are terminal I/O. Only the counter in `updateProgress` is modelled, and the callback is counted, not run.
- The converter's `main` is not modelled. This covers option parsing, help and version output, exit codes, and choosing between the node and way handler. The model makes no claim that the converter accepts every option the scripts pass: its option table has no `--layer_name`.
- `get_extraction_area_from_file` and `get_multipolygon_from_file` read OGR files, merge polygons and transform coordinates. They are replaced by the loader parameter.
- Temporary directories, `chdir`, writing JSON to disk, `print` and `argparse` parsing are not modelled. A run is the list of its effects.
- Whether a started process succeeds is not modelled. With `check=True` a failing osmium run would stop the script before the converter runs.
- `osm2ogr_tagged.cpp` is not part of this model: it only parses and prints tags. `version.hpp` is not part of this model either.

## Findings

| source | as written | input that shows it | evidently intended | confidence | as-written member | corrected member |
|---|---|---|---|---|---|---|
| src/osm-extract.py:66-70 | The filter area is always written under `multipolygon`. | A filter file whose merged area is a single Polygon. osmium then reads polygon coordinates as a multipolygon. | The key matches the area's kind (`polygon` for a Polygon), as `osm_extract.py` does at lines 85-87. | medium, not executed | OsmExtractLegacy.LegacyPolygonMisread | OsmExtract.ConfigContents |

`OsmExtractLegacy.ExtractScript` keeps the as-written configuration because it models that script. The newer script's model uses the corrected builder.
