/**
 * The handlers of the `osm2ogr_with_tags` converter: they declare the
 * output layer's columns once, then turn every node (or way) delivered by
 * the reader into one feature whose fields are the object id, the way's
 * length when asked for, and the value of each exported tag.
 *
 * `GenericOGRHandler` is the `TagHandler` class; the two concrete handlers
 * hold one as `base` in place of deriving from it.
 */
module Osm2Ogr {
  import opened StringOrder
  import opened Ogr
  import opened Progress

  const IdFieldName: string := "id"
  const LengthFieldName: string := "osm_length"
  const TagFieldWidth: nat := 100

  /** The `id` column every layer starts with. */
  const IdColumn: FieldDefn := FieldDefn(IdFieldName, OFTReal, 10)
  /** The optional length column of the way layer. */
  const LengthColumn: FieldDefn := FieldDefn(LengthFieldName, OFTReal, 10)

  /** What the converter reads of a node or a way: its id and its tags. */
  datatype OsmObject = OsmObject(id: int, tags: map<string, string>)

  /** The tag set a handler exports after `setExportTags(requested)`. */
  function ExportKeys(requested: seq<string>): (keys: seq<string>)
    ensures StrictlyAscending(keys)
    ensures Elements(keys) == Elements(requested)
  {
    if requested == [] then []
    else
      var init := requested[..|requested| - 1];
      assert requested == init + [requested[|requested| - 1]];
      InsertSorted(ExportKeys(init), requested[|requested| - 1])
  }

  /**
   * The exported tags depend only on which keys were requested: not on
   * their order, nor on how often each was requested.
   */
  lemma ExportKeysCanonical(v: seq<string>, w: seq<string>)
    requires Elements(v) == Elements(w)
    ensures ExportKeys(v) == ExportKeys(w)
  {
    AscendingUnique(ExportKeys(v), ExportKeys(w));
  }

  /** One column per distinct requested key: a key requested twice gives one column. */
  lemma TagColumnCount(requested: seq<string>)
    ensures |TagColumns(ExportKeys(requested))| == |Elements(requested)|
  {
    AscendingCardinality(ExportKeys(requested));
  }

  /** The string column declared for each exported tag, in the set's order. */
  function TagColumns(keys: seq<string>): seq<FieldDefn>
  {
    seq(|keys|, i requires 0 <= i < |keys| => FieldDefn(keys[i], OFTString, TagFieldWidth))
  }

  /** The columns of the node layer. */
  function NodeSchema(keys: seq<string>): (r: seq<FieldDefn>)
    requires StrictlyAscending(keys)
    ensures |r| == 1 + |keys| && r[0] == IdColumn
    ensures LengthColumn !in r
    ensures forall i :: 1 <= i < |r| ==> r[i].fieldType == OFTString && r[i].width == TagFieldWidth
    ensures forall i, j :: 1 <= i < j < |r| ==> Below(r[i].name, r[j].name)
    ensures FieldNames(r) == {IdFieldName} + Elements(keys)
  {
    var r := [IdColumn] + TagColumns(keys);
    assert FieldNames(r) == {IdFieldName} + Elements(keys) by {
      forall x | x in Elements(keys) ensures x in FieldNames(r) {
        var i :| 0 <= i < |keys| && keys[i] == x;
        assert r[i + 1].name == x;
      }
      forall i | 1 <= i < |r| ensures r[i].name in Elements(keys) {
        assert r[i].name == keys[i - 1];
      }
      assert r[0].name == IdFieldName;
    }
    r
  }

  /** The columns of the way layer: `osm_length` follows `id` when asked for. */
  function WaySchema(keys: seq<string>, includeLength: bool): (r: seq<FieldDefn>)
    requires StrictlyAscending(keys)
    ensures |r| == (if includeLength then 2 else 1) + |keys| && r[0] == IdColumn
    ensures LengthColumn in r <==> includeLength
    ensures includeLength ==> r[1] == LengthColumn
    ensures var first := if includeLength then 2 else 1;
      forall i :: first <= i < |r| ==> r[i] == FieldDefn(keys[i - first], OFTString, TagFieldWidth)
    ensures FieldNames(r) == {IdFieldName} + (if includeLength then {LengthFieldName} else {}) + Elements(keys)
  {
    var structural := [IdColumn] + (if includeLength then [LengthColumn] else []);
    var r := structural + TagColumns(keys);
    assert FieldNames(r) == {IdFieldName} + (if includeLength then {LengthFieldName} else {}) + Elements(keys) by {
      forall x | x in Elements(keys) ensures x in FieldNames(r) {
        var i :| 0 <= i < |keys| && keys[i] == x;
        assert r[i + |structural|].name == x;
      }
      assert r[0].name == IdFieldName;
      if includeLength { assert r[1].name == LengthFieldName; }
    }
    r
  }

  /** The tag fields of one object: its value for each key, or the null string. */
  function TagValues(keys: seq<string>, tags: map<string, string>): Record
  {
    map k | k in keys :: if k in tags then Str(tags[k]) else NullStr
  }

  /**
   * Setting the field of one more key on a feature that already holds the
   * earlier keys' fields.
   */
  lemma TagValuesAppend(before: Record, keys: seq<string>, k: string, tags: map<string, string>)
    ensures (before + TagValues(keys, tags))[k := if k in tags then Str(tags[k]) else NullStr]
      == before + TagValues(keys + [k], tags)
  {
  }

  /**
   * The feature written for a node. The tag fields are set after `id`, so a
   * tag named "id" would overwrite it.
   */
  function NodeRecord(keys: seq<string>, obj: OsmObject): (r: Record)
    ensures r.Keys == {IdFieldName} + Elements(keys)
    ensures forall k :: k in keys ==> r[k] == (if k in obj.tags then Str(obj.tags[k]) else NullStr)
    ensures IdFieldName !in keys ==> r[IdFieldName] == Integer(obj.id)
  {
    map[IdFieldName := Integer(obj.id)] + TagValues(keys, obj.tags)
  }

  /** The feature written for a way whose haversine length is `length`. */
  function WayRecord(keys: seq<string>, includeLength: bool, obj: OsmObject, length: real): (r: Record)
    ensures r.Keys == {IdFieldName} + (if includeLength then {LengthFieldName} else {}) + Elements(keys)
    ensures forall k :: k in keys ==> r[k] == (if k in obj.tags then Str(obj.tags[k]) else NullStr)
    ensures IdFieldName !in keys ==> r[IdFieldName] == Integer(obj.id)
    ensures includeLength && LengthFieldName !in keys ==> r[LengthFieldName] == Real(length)
  {
    var structural := map[IdFieldName := Integer(obj.id)];
    var structural := if includeLength then structural[LengthFieldName := Real(length)] else structural;
    structural + TagValues(keys, obj.tags)
  }

  /** Where `progress_cb` sends its updates; only the number of calls is kept. */
  class ProgressSink {
    var calls: nat

    constructor ()
      ensures calls == 0
    {
      calls := 0;
    }

    method Invoke()
      modifies this
      ensures calls == old(calls) + 1
    {
      calls := calls + 1;
    }
  }

  /** `GenericOGRHandler`: the exported tag set and the progress counter. */
  class TagHandler {
    /** `tags`, the `std::set` of exported keys, in its iteration order. */
    var tags: seq<string>
    /** `progress_cb`; null when no callback is installed. */
    var progressCb: ProgressSink?
    var progressTicks: int

    ghost predicate Valid()
      reads this
    {
      StrictlyAscending(tags) && 0 <= progressTicks <= Period
    }

    ghost function Counter(): Progress.Counter
      reads this
    {
      Progress.Counter(progressCb != null, progressTicks)
    }

    constructor ()
      ensures Valid() && tags == [] && progressCb == null && progressTicks == 0
    {
      tags := [];
      progressCb := null;
      progressTicks := 0;
    }

    /** `setExportTags`: empties the set, then inserts each requested key. */
    method SetExportTags(requested: seq<string>)
      requires Valid()
      modifies this
      ensures Valid()
      ensures tags == ExportKeys(requested)
      ensures progressCb == old(progressCb) && progressTicks == old(progressTicks)
    {
      tags := [];
      for i := 0 to |requested|
        invariant StrictlyAscending(tags)
        invariant tags == ExportKeys(requested[..i])
        invariant progressCb == old(progressCb) && progressTicks == old(progressTicks)
      {
        assert requested[..i + 1][..i] == requested[..i];
        tags := InsertSorted(tags, requested[i]);
      }
      assert requested[..|requested|] == requested;
    }

    /** `addTagFieldsToLayer`: one string column per exported tag, in order. */
    method AddTagFieldsToLayer(layer: Layer)
      modifies layer
      ensures layer.fields == old(layer.fields) + TagColumns(tags)
      ensures layer.features == old(layer.features)
    {
      for i := 0 to |tags|
        invariant layer.fields == old(layer.fields) + TagColumns(tags[..i])
        invariant layer.features == old(layer.features)
      {
        layer.AddField(tags[i], OFTString, TagFieldWidth);
        assert TagColumns(tags[..i + 1]) == TagColumns(tags[..i]) + [FieldDefn(tags[i], OFTString, TagFieldWidth)];
      }
      assert tags[..|tags|] == tags;
    }

    /** `addDefaultFieldsToLayer`: the `id` column. */
    method AddDefaultFieldsToLayer(layer: Layer)
      modifies layer
      ensures layer.fields == old(layer.fields) + [IdColumn]
      ensures layer.features == old(layer.features)
    {
      layer.AddField(IdFieldName, OFTReal, 10);
    }

    /** `setDefaultFieldsOfFeature`: the object id goes into `id`. */
    method SetDefaultFieldsOfFeature(feature: Feature, obj: OsmObject)
      modifies feature
      ensures feature.values == old(feature.values)[IdFieldName := Integer(obj.id)]
    {
      feature.SetField(IdFieldName, Integer(obj.id));
    }

    /** `setTagsOfFeature`: each exported tag's value, or the null string. */
    method SetTagsOfFeature(feature: Feature, obj: OsmObject)
      modifies feature
      ensures feature.values == old(feature.values) + TagValues(tags, obj.tags)
    {
      for i := 0 to |tags|
        invariant feature.values == old(feature.values) + TagValues(tags[..i], obj.tags)
      {
        var value := if tags[i] in obj.tags then Str(obj.tags[tags[i]]) else NullStr;
        TagValuesAppend(old(feature.values), tags[..i], tags[i], obj.tags);
        assert tags[..i + 1] == tags[..i] + [tags[i]];
        feature.SetField(tags[i], value);
      }
      assert tags[..|tags|] == tags;
    }

    /** `updateProgress`: counts the object and calls the callback past 200. */
    method UpdateProgress()
      requires Valid()
      modifies this, progressCb
      ensures Valid()
      ensures tags == old(tags) && progressCb == old(progressCb)
      ensures Counter() == Tick(old(Counter()))
      ensures progressCb != null ==>
        progressCb.calls == old(progressCb.calls) + (if Fires(old(Counter())) then 1 else 0)
    {
      if progressCb != null {
        if progressTicks > Threshold {
          progressCb.Invoke();
          progressTicks := 0;
        }
        progressTicks := progressTicks + 1;
      }
    }

    /** `setProgressCallback`. */
    method SetProgressCallback(cb: ProgressSink?)
      modifies this
      ensures progressCb == cb
      ensures tags == old(tags) && progressTicks == old(progressTicks)
    {
      progressCb := cb;
    }
  }

  /** `NodeOGRHandler`: writes one point feature per node to layer "nodes". */
  class NodeHandler {
    const base: TagHandler
    const layer: Layer

    ghost predicate Valid()
      reads this, base, layer
    {
      && base.Valid()
      && layer.name == "nodes" && layer.geometryType == WkbPoint
      && layer.fields == NodeSchema(base.tags)
      && forall r :: r in layer.features ==> r.Keys == FieldNames(layer.fields)
    }

    constructor (requested: seq<string>)
      ensures Valid() && fresh(base) && fresh(layer)
      ensures base.tags == ExportKeys(requested)
      ensures base.progressCb == null && base.progressTicks == 0
      ensures layer.features == []
    {
      base := new TagHandler();
      layer := new Layer("nodes", WkbPoint);
      new;
      base.SetExportTags(requested);
      base.AddDefaultFieldsToLayer(layer);
      base.AddTagFieldsToLayer(layer);
    }

    /**
     * `node`: writes the node's feature, then counts it. `hasGeometry`
     * says whether osmium can build the node's point; when it cannot, the
     * point factory throws before the feature exists, so nothing is written
     * or counted and `written` is false (the exception that ends the run).
     */
    method Node(obj: OsmObject, hasGeometry: bool) returns (written: bool)
      requires Valid()
      modifies layer, base, base.progressCb
      ensures Valid()
      ensures written == hasGeometry
      ensures base.tags == old(base.tags) && base.progressCb == old(base.progressCb)
      ensures written ==> layer.features == old(layer.features) + [NodeRecord(base.tags, obj)]
      ensures written ==> base.Counter() == Tick(old(base.Counter()))
      ensures written && base.progressCb != null ==>
        base.progressCb.calls == old(base.progressCb.calls) + (if Fires(old(base.Counter())) then 1 else 0)
      ensures !written ==> layer.features == old(layer.features) && base.Counter() == old(base.Counter())
      ensures !written && base.progressCb != null ==> base.progressCb.calls == old(base.progressCb.calls)
    {
      if !hasGeometry {
        return false;
      }
      var feature := new Feature(layer);
      base.SetDefaultFieldsOfFeature(feature, obj);
      base.SetTagsOfFeature(feature, obj);
      assert feature.values == NodeRecord(base.tags, obj);
      feature.AddToLayer();
      base.UpdateProgress();
      return true;
    }
  }

  /** `WayOGRHandler`: writes one line feature per way to layer "ways". */
  class WayHandler {
    const base: TagHandler
    const layer: Layer
    const includeLength: bool

    ghost predicate Valid()
      reads this, base, layer
    {
      && base.Valid()
      && layer.name == "ways" && layer.geometryType == WkbLineString
      && layer.fields == WaySchema(base.tags, includeLength)
      && forall r :: r in layer.features ==> r.Keys == FieldNames(layer.fields)
    }

    constructor (requested: seq<string>, includeLength: bool)
      ensures Valid() && fresh(base) && fresh(layer)
      ensures this.includeLength == includeLength
      ensures base.tags == ExportKeys(requested)
      ensures base.progressCb == null && base.progressTicks == 0
      ensures layer.features == []
    {
      base := new TagHandler();
      layer := new Layer("ways", WkbLineString);
      this.includeLength := includeLength;
      new;
      base.SetExportTags(requested);
      base.AddDefaultFieldsToLayer(layer);
      if includeLength {
        layer.AddField(LengthFieldName, OFTReal, 10);
      }
      base.AddTagFieldsToLayer(layer);
    }

    /**
     * `way`: writes the way's feature, then counts it. `hasGeometry` says
     * whether osmium can build the way's line string (and measure it);
     * when it cannot, osmium throws before the feature is added, so nothing
     * is written or counted and `written` is false.
     */
    method Way(obj: OsmObject, length: real, hasGeometry: bool) returns (written: bool)
      requires Valid()
      modifies layer, base, base.progressCb
      ensures Valid()
      ensures written == hasGeometry
      ensures base.tags == old(base.tags) && base.progressCb == old(base.progressCb)
      ensures written ==> layer.features == old(layer.features) + [WayRecord(base.tags, includeLength, obj, length)]
      ensures written ==> base.Counter() == Tick(old(base.Counter()))
      ensures written && base.progressCb != null ==>
        base.progressCb.calls == old(base.progressCb.calls) + (if Fires(old(base.Counter())) then 1 else 0)
      ensures !written ==> layer.features == old(layer.features) && base.Counter() == old(base.Counter())
      ensures !written && base.progressCb != null ==> base.progressCb.calls == old(base.progressCb.calls)
    {
      if !hasGeometry {
        return false;
      }
      var feature := new Feature(layer);
      base.SetDefaultFieldsOfFeature(feature, obj);
      if includeLength {
        feature.SetField(LengthFieldName, Real(length));
      }
      base.SetTagsOfFeature(feature, obj);
      assert feature.values == WayRecord(base.tags, includeLength, obj, length);
      feature.AddToLayer();
      base.UpdateProgress();
      return true;
    }
  }
}
