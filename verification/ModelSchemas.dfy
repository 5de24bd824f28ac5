/** An application model's schema, the fields a filter can name in it, and the cut-down records that
    filtered subscriptions are matched against. */
module ModelSchemas {
  import opened Values
  import opened Schemas
  import opened FilterQuery
  import opened SchemaValidator
  import opened EsMeaning

  datatype ModelDef = ModelDef(fields: Schema, subscribable: bool)

  // ---- The schema filters are compiled against ----

  /** `markAllFilterable`: primitives and arrays of primitives, at any depth of objects. */
  function Mark(def: FieldDef): FieldDef {
    match def
    case ObjectField(properties, _, _) => def.(properties := map k | k in properties :: Mark(properties[k]))
    case ObjectArrayField(_, _, _, _, _) => def
    case PrimField(prim, required, nullable, _) => PrimField(prim, required, nullable, true)
    case ArrayField(elem, required, nullable, _) => ArrayField(elem, required, nullable, true)
  }

  function MarkAll(schema: Schema): Schema {
    map k | k in schema :: Mark(schema[k])
  }

  /** The loop over the entries of an object, replacing each definition by its marked one. */
  method MarkAllFilterable(object_: FieldDef) returns (marked: FieldDef)
    requires object_.ObjectField?
    ensures marked == Mark(object_)
  {
    var fields := object_.properties;
    var todo := fields.Keys;
    while todo != {}
      invariant todo <= fields.Keys == object_.properties.Keys
      invariant forall k :: k in fields ==>
                  fields[k] == if k in todo then object_.properties[k] else Mark(object_.properties[k])
      decreases todo
    {
      var k :| k in todo;
      todo := todo - {k};
      var def := object_.properties[k];
      match def {
        case ObjectField(_, _, _) =>
          var inner := MarkAllFilterable(def);
          fields := fields[k := inner];
        case ObjectArrayField(_, _, _, _, _) =>
        case PrimField(prim, required, nullable, _) =>
          fields := fields[k := PrimField(prim, required, nullable, true)];
        case ArrayField(elem, required, nullable, _) =>
          fields := fields[k := ArrayField(elem, required, nullable, true)];
      }
    }
    assert fields == MarkAll(object_.properties);
    return object_.(properties := fields);
  }

  /** `getAppModelSchema` */
  function AppModelSchema(model: ModelDef, auth: bool): Schema {
    var fields := if auth then model.fields["userId" := PrimField(StringType, true, false, true)] else model.fields;
    if model.subscribable then fields else MarkAll(fields)
  }

  /** Marking changes which fields can be filtered on and nothing else: afterwards a path is filterable
      exactly when it names a primitive or an array of primitives. */
  lemma {:induction false} MarkedAt(schema: Schema, path: Path)
    ensures FieldAt(MarkAll(schema), path)
         == var def := FieldAt(schema, path); if def.Some? then Some(Mark(def.value)) else None
    ensures FieldAt(schema, path).Some? ==>
              (IsFilterable(FieldAt(MarkAll(schema), path).value) <==>
               var def := FieldAt(schema, path).value;
               def.PrimField? || def.ArrayField? || (def.ObjectArrayField? && def.filterable))
    decreases path
  {
    if |path| > 1 && path[0] in schema && schema[path[0]].ObjectField? {
      MarkedAt(schema[path[0]].properties, path[1..]);
    }
  }

  /** The fields of a model that a filter can name: the ones declared filterable where clients can subscribe to the model,
      every primitive and array of primitives where they cannot, and where there are users the owner's id, in the place of
      any field declared by that name. */
  lemma {:induction false} FilterableInModelIff(model: ModelDef, auth: bool, path: Path)
    ensures var def := FieldAt(AppModelSchema(model, auth), path);
            def.Some? && IsFilterable(def.value)
            <==> if auth && path != [] && path[0] == "userId" then |path| == 1
                 else
                   (FieldAt(model.fields, path).Some?
                     && var declared := FieldAt(model.fields, path).value;
                     if model.subscribable then !declared.ObjectField? && declared.filterable
                     else declared.PrimField? || declared.ArrayField? || (declared.ObjectArrayField? && declared.filterable))
  {
    var fields := if auth then model.fields["userId" := PrimField(StringType, true, false, true)] else model.fields;
    MarkedAt(fields, path);
    if auth && path != [] && path[0] == "userId" {
      assert FieldAt(fields, path).Some? <==> |path| == 1;
    } else {
      assert FieldAt(fields, path) == FieldAt(model.fields, path);
    }
  }

  /** Every model has an id and two times: where it does not declare these names itself, a filter can compare them, and a
      conforming record gives them. */
  lemma UniversalAreGiven(schema: Schema, host: Host, text: string, n: real, record: Record, names: set<string>)
    ensures var all := UniversalFields() + schema;
            && ("id" !in schema ==> ParseField(["id"], Str(text), all, host) == Ok(Field(["id"], Eq, Str(text))))
            && (forall time :: time in {"createdAt", "updatedAt"} && time !in schema ==>
                  ParseField([time], Num(n), all, host) == Ok(Field([time], Eq, Num(n))))
    ensures RecordConforms(record, UniversalFields() + schema, names) ==>
              && ("id" !in schema ==> "id" in record && record["id"].Str?)
              && forall time :: time in {"createdAt", "updatedAt"} && time !in schema ==> time in record && record[time].Num?
  {
    var all := UniversalFields() + schema;
    assert forall name :: name in {"id", "createdAt", "updatedAt"} && name !in schema ==> FieldAt(all, [name]) == Some(all[name]);
    if RecordConforms(record, all, names) {
      forall name | name in {"id", "createdAt", "updatedAt"} && name !in schema
        ensures name in record && PrimConforms(record[name], if name == "id" then StringType else DateType)
      {
        assert name in Obj(record).fields && Conforms(record[name], all[name], names);
      }
    }
  }

  // ---- The fields a filter can name ----

  /** Paths below a field, relative to it. */
  function PathsBelow(def: FieldDef): set<Path> {
    match def
    case ObjectField(properties, _, _) => set k, p | k in properties && p in PathsBelow(properties[k]) :: [k] + p
    case _ => if def.filterable then {[]} else {}
  }

  /** `getModelFilterableFields`, with the universal fields. */
  function FilterableFields(schema: Schema): set<Path> {
    set k, p | k in schema && p in PathsBelow(schema[k]) :: [k] + p
  }

  /** The recursive walk, adding paths to one set. */
  method CollectFilterableFields(object_: FieldDef, prefix: Path, found: set<Path>) returns (all: set<Path>)
    requires object_.ObjectField?
    ensures all == found + set p | p in PathsBelow(object_) :: prefix + p
    decreases object_
  {
    all := found;
    var todo := object_.properties.Keys;
    while todo != {}
      invariant todo <= object_.properties.Keys
      invariant all == found + set k, p | k in object_.properties && k !in todo && p in PathsBelow(object_.properties[k]) ::
                                 prefix + [k] + p
      decreases todo
    {
      var k :| k in todo;
      ghost var before, left := all, todo;
      todo := todo - {k};
      var def := object_.properties[k];
      if def.ObjectField? {
        all := CollectFilterableFields(def, prefix + [k], all);
      } else {
        OwnPath(def, prefix + [k]);
        if def.filterable {
          all := all + {prefix + [k]};
        }
      }
      assert all == before + set p | p in PathsBelow(def) :: prefix + [k] + p;
    }
    PathsOfObject(object_, prefix);
  }

  /** A field that is no object has its own path, if any. */
  lemma {:induction false} OwnPath(def: FieldDef, path: Path)
    requires !def.ObjectField?
    ensures (set p | p in PathsBelow(def) :: path + p) == if def.filterable then {path} else {}
  {
    assert path + [] == path;
  }

  lemma {:induction false} PathsOfObject(object_: FieldDef, prefix: Path)
    requires object_.ObjectField?
    ensures (set k, p | k in object_.properties && p in PathsBelow(object_.properties[k]) :: prefix + [k] + p)
         == set p | p in PathsBelow(object_) :: prefix + p
  {
    forall k, p | k in object_.properties && p in PathsBelow(object_.properties[k])
      ensures prefix + [k] + p == prefix + ([k] + p) && [k] + p in PathsBelow(object_)
    {
    }
  }

  lemma {:induction false} PathsBelowAre(def: FieldDef, path: Path)
    requires def.ObjectField?
    ensures path in PathsBelow(def) <==>
              FieldAt(def.properties, path).Some? && IsFilterable(FieldAt(def.properties, path).value)
    decreases path
  {
    if path != [] && path[0] in def.properties {
      var inner := def.properties[path[0]];
      assert path == [path[0]] + path[1..];
      assert path in PathsBelow(def) <==> path[1..] in PathsBelow(inner) by {
        forall k, p | k in def.properties && p in PathsBelow(def.properties[k]) && [k] + p == path
          ensures k == path[0] && p == path[1..]
        {
          assert ([k] + p)[0] == k && ([k] + p)[1..] == p;
        }
      }
      if inner.ObjectField? {
        PathsBelowAre(inner, path[1..]);
      }
    }
  }

  /** The walk collects exactly the paths the parser lets a filter name. */
  lemma {:induction false} CollectedIffFilterable(schema: Schema, path: Path)
    ensures path in FilterableFields(schema) <==> FieldAt(schema, path).Some? && IsFilterable(FieldAt(schema, path).value)
  {
    PathsBelowAre(ObjectField(schema, false, false), path);
  }

  // ---- Cut-down records ----

  function Tails(paths: set<Path>, key: string): set<Path> {
    set p | p in paths && p != [] && p[0] == key :: p[1..]
  }

  /** The part of a value under the paths asked for; nothing where none of it is. */
  function ProjectValue(v: Value, paths: set<Path>): Option<Value>
    decreases v
  {
    if [] in paths then Some(v)
    else if v.Obj? then
      var kept := map k | k in v.fields && ProjectValue(v.fields[k], Tails(paths, k)).Some? ::
                    ProjectValue(v.fields[k], Tails(paths, k)).value;
      if |kept| == 0 then None else Some(Obj(kept))
    else None
  }

  /** The fields of a document the database returns when asked for these paths only. */
  function Project(record: Record, paths: set<Path>): Record {
    map k | k in record && ProjectValue(record[k], Tails(paths, k)).Some? :: ProjectValue(record[k], Tails(paths, k)).value
  }

  lemma {:induction false} ProjectKeeps(record: Record, paths: set<Path>, path: Path)
    requires path in paths
    ensures Get(Project(record, paths), path) == Get(record, path)
    decreases path
  {
    if path != [] && path[0] in record {
      var v, tails := record[path[0]], Tails(paths, path[0]);
      assert path[1..] in tails;
      if |path| == 1 {
        assert path[1..] == [];
      } else if v.Obj? && [] !in tails {
        ProjectKeeps(v.fields, tails, path[1..]);
        var inner := Project(v.fields, tails);
        if inner == map[] {
          assert Get(map[], path[1..]) == None;
        } else {
          assert inner.Keys != {};
          assert ProjectValue(v, tails) == Some(Obj(inner));
        }
      }
    }
  }

  /** What travels to the Transport Manager for an update or a delete: the fields read back without
      the identity, the new version, and the stored identity on top. */
  function Delivered(record: Record, fields: set<Path>, version: real): Record {
    (Project(record, fields) - {"id", "userId"})["version" := Num(version)] + Identity(record)
  }

  function Identity(record: Record): Record {
    map k | k in record && k in {"id", "type", "appId", "userId"} :: record[k]
  }

  /** The identity and the new version travel whatever was asked for, and of the rest only what was. */
  lemma DeliveredIs(record: Record, fields: set<Path>, version: real, name: string)
    ensures var delivered := Delivered(record, fields, version);
            && (name in {"id", "type", "appId", "userId"} ==>
                  (name in delivered <==> name in record || (name !in {"id", "userId"} && name in Project(record, fields)))
                  && (name in record ==> delivered[name] == record[name]))
            && (name == "version" ==> name in delivered && delivered[name] == Num(version))
            && (name !in {"id", "type", "appId", "userId", "version"} ==>
                  (name in delivered <==> name in Project(record, fields))
                  && (name in delivered ==> delivered[name] == Project(record, fields)[name]))
  {
  }

  /** A compiled filter decides the delivered record as it decides the stored one. Reserved names are
      never declared by an application. */
  lemma DeliveredGivesSameVerdict(query: Query, model: ModelDef, auth: bool, host: Host, record: Record, version: real)
    requires model.fields.Keys !! RESERVED
    requires NewFilter(query, AppModelSchema(model, auth), host).Ok?
    ensures var nodes := NewFilter(query, AppModelSchema(model, auth), host).value;
            var fields := FilterableFields(UniversalFields() + AppModelSchema(model, auth));
            Test(nodes, Delivered(record, fields, version), host) <==> Test(nodes, record, host)
  {
    var schema := UniversalFields() + AppModelSchema(model, auth);
    var nodes := NewFilter(query, AppModelSchema(model, auth), host).value;
    var fields := FilterableFields(schema);
    var delivered := Delivered(record, fields, version);
    ParsedFits(query, schema, host);
    forall node | node in nodes
      ensures TestNode(node, delivered, host) <==> TestNode(node, record, host)
    {
      forall p | p in Paths(node)
        ensures Get(delivered, p) == Get(record, p)
      {
        FittingPathIsFilterable(node, schema, host, p);
        DeliveredKeeps(model, auth, record, version, p);
      }
      TestDependsOnPaths(node, delivered, record, host);
    }
  }

  lemma {:induction false} DeliveredKeeps(model: ModelDef, auth: bool, record: Record, version: real, p: Path)
    requires model.fields.Keys !! RESERVED
    requires var def := FieldAt(UniversalFields() + AppModelSchema(model, auth), p); def.Some? && IsFilterable(def.value)
    ensures var fields := FilterableFields(UniversalFields() + AppModelSchema(model, auth));
            Get(Delivered(record, fields, version), p) == Get(record, p)
  {
    var schema := UniversalFields() + AppModelSchema(model, auth);
    var fields := FilterableFields(schema);
    var delivered := Delivered(record, fields, version);
    CollectedIffFilterable(schema, p);
    ProjectKeeps(record, fields, p);
    assert p[0] in schema;
    assert p[0] != "type" && p[0] != "appId" && p[0] != "version";
    if p[0] == "id" || p[0] == "userId" {
      assert schema[p[0]].PrimField?;
      assert |p| == 1;
    } else {
      assert p[0] in delivered <==> p[0] in Project(record, fields);
    }
  }

  lemma {:induction false} FittingPathIsFilterable(node: FilterNode, schema: Schema, host: Host, path: Path)
    requires Fits(node, schema, host) && path in Paths(node)
    ensures FieldAt(schema, path).Some? && IsFilterable(FieldAt(schema, path).value)
  {
    if node.Logical? {
      var c :| c in node.conditions && path in Paths(c);
      FittingPathIsFilterable(c, schema, host, path);
    }
  }
}
