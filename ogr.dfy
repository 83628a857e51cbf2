/**
 * The part of the gdalcpp wrapper around GDAL/OGR that the converter uses:
 * a layer with a list of field definitions and the features written to it,
 * and a feature whose fields are set one by one by name. Geometries, the
 * dataset and the spatial reference are not part of this model.
 */
module Ogr {

  /** The OGR field types the converter declares. */
  datatype FieldType = OFTString | OFTReal

  /** One column of a layer: `layer.add_field(name, type, width)`. */
  datatype FieldDefn = FieldDefn(name: string, fieldType: FieldType, width: nat)

  /**
   * A value handed to `feature.set_field`. `NullStr` is the null C string
   * passed for a tag the object does not carry; `Integer` is an object id,
   * `Real` a length in metres.
   */
  datatype FieldValue = Str(text: string) | NullStr | Integer(n: int) | Real(x: real)

  /** The fields set on one feature, by field name. */
  type Record = map<string, FieldValue>

  /** The geometry type a layer is created with. */
  datatype GeometryType = WkbPoint | WkbLineString

  /** The names of a list of field definitions. */
  function FieldNames(fields: seq<FieldDefn>): set<string>
  {
    set i | 0 <= i < |fields| :: fields[i].name
  }

  class Layer {
    const name: string
    const geometryType: GeometryType
    /** The declared fields, in declaration order. */
    var fields: seq<FieldDefn>
    /** The features added so far, in the order they were added. */
    var features: seq<Record>

    constructor (name: string, geometryType: GeometryType)
      ensures this.name == name && this.geometryType == geometryType
      ensures fields == [] && features == []
    {
      this.name := name;
      this.geometryType := geometryType;
      fields := [];
      features := [];
    }

    /** `add_field`: appends one field definition. */
    method AddField(name: string, fieldType: FieldType, width: nat)
      modifies this
      ensures fields == old(fields) + [FieldDefn(name, fieldType, width)]
      ensures features == old(features)
    {
      fields := fields + [FieldDefn(name, fieldType, width)];
    }
  }

  class Feature {
    const layer: Layer
    /** The fields set so far; a field set twice keeps the later value. */
    var values: Record

    /** A fresh feature of `layer` with no field set. */
    constructor (layer: Layer)
      ensures this.layer == layer && values == map[]
    {
      this.layer := layer;
      values := map[];
    }

    method SetField(name: string, value: FieldValue)
      modifies this
      ensures values == old(values)[name := value]
    {
      values := values[name := value];
    }

    /** `add_to_layer`: writes the feature as the layer's next feature. */
    method AddToLayer()
      modifies layer
      ensures layer.features == old(layer.features) + [values]
      ensures layer.fields == old(layer.fields)
    {
      layer.features := layer.features + [values];
    }
  }
}
