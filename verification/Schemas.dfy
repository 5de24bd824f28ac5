/** Field definitions, and the walk from a path to the definition it names. */
module Schemas {
  import opened Values

  datatype PrimType = StringType | IntType | FloatType | BoolType | DateType

  /** `ArrayField` holds primitives; `ObjectArrayField` is an array whose `arrayType`
      is `object`, with `declared` saying whether its `properties` are given. Only an object field can be walked through by a path. */
  datatype FieldDef =
    | PrimField(prim: PrimType, required: bool, nullable: bool, filterable: bool)
    | ArrayField(elem: PrimType, required: bool, nullable: bool, filterable: bool)
    | ObjectArrayField(elements: Schema, declared: bool, required: bool, nullable: bool, filterable: bool)
    | ObjectField(properties: Schema, required: bool, nullable: bool)

  type Schema = map<string, FieldDef>

  function UniversalFields(): Schema {
    map["id" := PrimField(StringType, true, false, true),
        "createdAt" := PrimField(DateType, true, false, true),
        "updatedAt" := PrimField(DateType, true, false, true)]
  }

  function FieldAt(schema: Schema, path: Path): Option<FieldDef>
    decreases path
  {
    if path == [] || path[0] !in schema then None
    else if |path| == 1 then Some(schema[path[0]])
    else if schema[path[0]].ObjectField? then FieldAt(schema[path[0]].properties, path[1..])
    else None
  }

  /** The loop of `getFieldFromPath` and of `traverseSchema`. */
  method GetFieldFromPath(path: Path, schema: Schema) returns (def: Option<FieldDef>)
    ensures def == FieldAt(schema, path)
  {
    var current := schema;
    for i := 0 to |path|
      invariant FieldAt(schema, path) == FieldAt(current, path[i..])
    {
      var part := path[i];
      if part !in current {
        return None;
      }
      var fieldDef := current[part];
      if i == |path| - 1 {
        return Some(fieldDef);
      }
      assert path[i..][1..] == path[i + 1..];
      if fieldDef.ObjectField? {
        current := fieldDef.properties;
      } else {
        return None;
      }
    }
    return None;
  }
}
