/** Patches: the rules of each operation, and validation, which normalises the values in place. */
module JsonPatch {
  import opened Values
  import opened Schemas
  import opened SchemaValidator

  datatype PatchOp = Replace | Append | Prepend | Incr | Decr | Remove

  datatype FieldType = Primitive(prim: PrimType) | ArrayType | ObjectType

  const MAX_SAFE_INTEGER := 9007199254740991.0

  function TypeOf(def: FieldDef): FieldType {
    match def
    case PrimField(prim, _, _, _) => Primitive(prim)
    case ArrayField(_, _, _, _) => ArrayType
    case ObjectArrayField(_, _, _, _, _) => ArrayType
    case ObjectField(_, _, _) => ObjectType
  }

  predicate IsNumeric(t: FieldType) {
    t == Primitive(IntType) || t == Primitive(FloatType) || t == Primitive(DateType)
  }

  predicate Allows(op: PatchOp, t: FieldType) {
    match op
    case Replace => true
    case Append => t == ArrayType || t == Primitive(StringType)
    case Prepend => t == ArrayType || t == Primitive(StringType)
    case Incr => IsNumeric(t)
    case Decr => IsNumeric(t)
    case Remove => t == ArrayType
  }

  /** One element of an array field. */
  function ValidateElement(v: Value, def: FieldDef, host: Host): Result<Value>
    requires TypeOf(def) == ArrayType
  {
    match def
    case ArrayField(elem, _, _, _) => ValidatePrim(v, elem, host)
    case ObjectArrayField(elements, declared, _, _, _) =>
      if declared then ValidateObject(v, elements, {}, host) else Err
  }

  predicate IsIndex(v: Value) {
    v.Num? && IsInteger(v.n) && 0.0 <= v.n <= MAX_SAFE_INTEGER
  }

  /** `{ i: index }` or `{ v: element }`, with no other key. */
  function ValidateRemoval(v: Value, def: FieldDef, host: Host): Result<Value>
    requires TypeOf(def) == ArrayType
  {
    if !v.Obj? then Err
    else if v.fields.Keys == {"i"} then
      if IsIndex(v.fields["i"]) then Ok(v) else Err
    else if v.fields.Keys == {"v"} && def.ArrayField? then
      var element :- ValidatePrim(v.fields["v"], def.elem, host);
      Ok(Obj(map["v" := element]))
    else Err
  }

  function ValidateOperand(op: PatchOp, v: Value, def: FieldDef, host: Host): Result<Value>
    requires Allows(op, TypeOf(def))
  {
    match op
    case Append => if def.PrimField? then (if v.Str? then Ok(v) else Err) else ValidateElement(v, def, host)
    case Prepend => if def.PrimField? then (if v.Str? then Ok(v) else Err) else ValidateElement(v, def, host)
    case Remove => ValidateRemoval(v, def, host)
    case _ => ValidateValue(v, def, host)
  }

  /** The schema a patch is checked against also has `updatedAt`. */
  function PatchSchema(schema: Schema): Schema {
    map["updatedAt" := PrimField(DateType, true, false, true)] + schema
  }

  /** A record that conforms to its model's schema conforms to this one if and only if it has an `updatedAt`
      in whole seconds: the name is reserved, so a create checks nothing of it. */
  lemma ConformsForPatchesIff(record: Record, schema: Schema, names: set<string>)
    requires RecordConforms(record, schema, names) && "updatedAt" !in schema
    ensures RecordConforms(record, PatchSchema(schema), names)
       <==> "updatedAt" in record && PrimConforms(record["updatedAt"], DateType)
  {
    var full := PatchSchema(schema);
    assert full["updatedAt"] == PrimField(DateType, true, false, true);
    assert MustHave("updatedAt", full["updatedAt"], names);
    assert forall k :: k in schema ==> full[k] == schema[k];
    if "updatedAt" in record {
      assert Conforms(record["updatedAt"], full["updatedAt"], names) == PrimConforms(record["updatedAt"], DateType);
    }
  }

  /** The definition a path may patch. */
  function Target(op: PatchOp, path: Path, schema: Schema): Option<FieldDef> {
    var def := FieldAt(PatchSchema(schema), path);
    if path == [] || path[0] == "version" || def.None? || !Allows(op, TypeOf(def.value)) then None
    else def
  }

  function ValidatePair(op: PatchOp, path: Path, v: Value, schema: Schema, host: Host): Result<Value> {
    var def := Target(op, path, schema);
    if def.None? then Err else ValidateOperand(op, v, def.value, host)
  }

  function ValidatePairs(op: PatchOp, paths: seq<Path>, values: seq<Value>, schema: Schema, host: Host): Result<seq<Value>>
    requires |paths| == |values|
  {
    if paths == [] then Ok([])
    else
      var first :- ValidatePair(op, paths[0], values[0], schema, host);
      var rest :- ValidatePairs(op, paths[1..], values[1..], schema, host);
      Ok([first] + rest)
  }

  function TypeAt(path: Path, schema: Schema): FieldType {
    var def := FieldAt(PatchSchema(schema), path);
    if def.Some? then TypeOf(def.value) else ObjectType
  }

  function TypesAt(paths: seq<Path>, schema: Schema): seq<FieldType> {
    seq(|paths|, i requires 0 <= i < |paths| => TypeAt(paths[i], schema))
  }

  /** A patch on one document. The constructor checks that paths and values correspond. */
  class Patch {
    const op: PatchOp
    const path: seq<Path>
    var value: seq<Value>
    var pathFieldTypes: seq<FieldType>
    var valid: bool

    ghost predicate Valid()
      reads this
    {
      |path| == |value|
    }

    constructor (op: PatchOp, path: seq<Path>, value: seq<Value>)
      requires |path| == |value|
      ensures Valid() && this.op == op && this.path == path && this.value == value
      ensures pathFieldTypes == [] && !valid
    {
      this.op, this.path, this.value, pathFieldTypes, valid := op, path, value, [], false;
    }

    /** Checks and normalises every value in place; stops at the first that is refused. */
    method Validate(schema: Schema, host: Host) returns (ok: bool)
      requires Valid()
      modifies this
      ensures Valid()
      ensures ok <==> ValidatePairs(op, path, old(value), schema, host).Ok?
      ensures ok ==> valid && Ok(value) == ValidatePairs(op, path, old(value), schema, host)
                     && pathFieldTypes == old(pathFieldTypes) + TypesAt(path, schema)
      ensures !ok ==> valid == old(valid)
    {
      ghost var given := value;
      assert path[0..] == path && given[0..] == given;
      PrefixedNone(ValidatePairs(op, path, given, schema, host));
      for i := 0 to |path|
        invariant Valid() && valid == old(valid) && value[i..] == given[i..]
        invariant ValidatePairs(op, path, given, schema, host)
               == Prefixed(value[..i], ValidatePairs(op, path[i..], given[i..], schema, host))
        invariant pathFieldTypes == old(pathFieldTypes) + TypesAt(path[..i], schema)
      {
        assert path[i..][1..] == path[i + 1..] && given[i..][1..] == given[i + 1..];
        assert value[i] == given[i] by {
          assert value[i..][0] == given[i..][0];
        }
        var def := Target(op, path[i], schema);
        if def.None? {
          return false;
        }
        var normalized := ValidateOperand(op, value[i], def.value, host);
        if normalized.Err? {
          return false;
        }
        ghost var rest := ValidatePairs(op, path[i + 1..], given[i + 1..], schema, host);
        ghost var before := value[..i];
        assert value[i + 1..] == value[i..][1..];
        value := value[i := normalized.value];
        assert value[..i + 1] == before + [normalized.value];
        PrefixedTwice(before, [normalized.value], rest);
        pathFieldTypes := pathFieldTypes + [TypeOf(def.value)];
        assert TypesAt(path[..i + 1], schema) == TypesAt(path[..i], schema) + [TypeOf(def.value)];
      }
      assert path[..|path|] == path && value[..|path|] == value;
      assert value + [] == value;
      valid := true;
      return true;
    }
  }

  function Prefixed(values: seq<Value>, rest: Result<seq<Value>>): Result<seq<Value>> {
    if rest.Ok? then Ok(values + rest.value) else Err
  }

  lemma PrefixedNone(rest: Result<seq<Value>>)
    ensures Prefixed([], rest) == rest
  {
    if rest.Ok? {
      assert [] + rest.value == rest.value;
    }
  }

  lemma PrefixedTwice(a: seq<Value>, b: seq<Value>, rest: Result<seq<Value>>)
    ensures Prefixed(a, Prefixed(b, rest)) == Prefixed(a + b, rest)
  {
    if rest.Ok? {
      assert a + (b + rest.value) == a + b + rest.value;
    }
  }

  // ---- Operands that are ready to be applied ----

  predicate ElementConforms(v: Value, def: FieldDef, names: set<string>)
    requires TypeOf(def) == ArrayType
  {
    if def.ArrayField? then PrimConforms(v, def.elem)
    else def.declared && ObjectConforms(v, def.elements, {}, names)
  }

  /** What applying the operation to a field of this definition needs. */
  predicate OperandFits(op: PatchOp, v: Value, def: FieldDef, names: set<string>) {
    && Allows(op, TypeOf(def))
    && match op
       case Append => if def.PrimField? then v.Str? else ElementConforms(v, def, names)
       case Prepend => if def.PrimField? then v.Str? else ElementConforms(v, def, names)
       case Remove =>
         v.Obj? &&
         ((v.fields.Keys == {"i"} && IsIndex(v.fields["i"]))
          || (v.fields.Keys == {"v"} && def.ArrayField? && PrimConforms(v.fields["v"], def.elem)))
       case _ => Conforms(v, def, names)
  }

  /** Validation returns operands that fit, and returns those that fit unchanged. */
  lemma OperandsFit(op: PatchOp, v: Value, def: FieldDef, host: Host)
    requires Allows(op, TypeOf(def))
    ensures ValidateOperand(op, v, def, host).Ok? ==> OperandFits(op, ValidateOperand(op, v, def, host).value, def, host.inherited)
    ensures OperandFits(op, v, def, host.inherited) ==> ValidateOperand(op, v, def, host) == Ok(v)
  {
    ValidValuesConform(v, def, host);
    if op == Remove {
      if v.Obj? && "v" in v.fields && def.ArrayField? {
        PrimOutputConforms(v.fields["v"], def.elem, host);
        if v.fields.Keys == {"v"} {
          assert v.fields == map["v" := v.fields["v"]];
        }
      }
    } else if def.ArrayField? {
      PrimOutputConforms(v, def.elem, host);
    } else if def.ObjectArrayField? {
      ValidObjectsConform(v, def.elements, {}, host);
    }
  }

  /** The Writer's second pass: what the API accepted and normalised is accepted with identical values. */
  lemma {:induction false} SecondPassAcceptsPatch(op: PatchOp, paths: seq<Path>, values: seq<Value>, schema: Schema, host: Host)
    requires |paths| == |values|
    requires ValidatePairs(op, paths, values, schema, host).Ok?
    ensures var first := ValidatePairs(op, paths, values, schema, host).value;
            && |first| == |paths|
            && ValidatePairs(op, paths, first, schema, host) == Ok(first)
            && forall i :: 0 <= i < |paths| ==>
                 Target(op, paths[i], schema).Some? && OperandFits(op, first[i], Target(op, paths[i], schema).value, host.inherited)
  {
    if paths != [] {
      var def := Target(op, paths[0], schema).value;
      var first := ValidatePairs(op, paths, values, schema, host).value;
      SecondPassAcceptsPatch(op, paths[1..], values[1..], schema, host);
      OperandsFit(op, values[0], def, host);
      OperandsFit(op, first[0], def, host);
      assert first[1..] == ValidatePairs(op, paths[1..], values[1..], schema, host).value;
    }
  }

  // ---- Which patches are taken ----

  ghost predicate IsPosition(v: Value) {
    v.Num? && exists k :: IsThe(v.n, k) && 0 <= k <= 9007199254740991
  }

  /** What each operation takes for a field, by the field's type. */
  ghost predicate OperationTakes(op: PatchOp, def: FieldDef, v: Value, host: Host) {
    match def
    case PrimField(prim, _, _, _) =>
      if op == Replace then ValidatePrim(v, prim, host).Ok?
      else if op == Append || op == Prepend then prim == StringType && v.Str?
      else if op == Incr || op == Decr then prim in {IntType, FloatType, DateType} && ValidatePrim(v, prim, host).Ok?
      else false
    case ArrayField(elem, _, _, _) =>
      if op == Replace then ValidateValue(v, def, host).Ok?
      else if op == Append || op == Prepend then ValidatePrim(v, elem, host).Ok?
      else if op == Remove then
        v.Obj? && ((v.fields.Keys == {"i"} && IsPosition(v.fields["i"]))
                   || (v.fields.Keys == {"v"} && ValidatePrim(v.fields["v"], elem, host).Ok?))
      else false
    case ObjectArrayField(elements, declared, _, _, _) =>
      if op == Replace then ValidateValue(v, def, host).Ok?
      else if op == Append || op == Prepend then declared && ValidateObject(v, elements, {}, host).Ok?
      else if op == Remove then v.Obj? && v.fields.Keys == {"i"} && IsPosition(v.fields["i"])
      else false
    case ObjectField(_, _, _) => op == Replace && ValidateValue(v, def, host).Ok?
  }

  lemma Positions(v: Value)
    ensures IsIndex(v) <==> IsPosition(v)
  {
    if v.Num? {
      WholeNumbers(v.n);
      assert IsInteger(v.n) ==> IsThe(v.n, v.n.Floor);
    }
  }

  lemma OperandTakenIff(op: PatchOp, def: FieldDef, v: Value, host: Host)
    ensures Allows(op, TypeOf(def)) && ValidateOperand(op, v, def, host).Ok? <==> OperationTakes(op, def, v, host)
  {
    if v.Obj? && "i" in v.fields {
      Positions(v.fields["i"]);
    }
    if v.Obj? && v.fields.Keys == {"i"} {
      assert "v" !in v.fields.Keys;
    }
  }

  /** The fields a patch can name are the declared ones, and `updatedAt`. */
  lemma {:induction false} PatchFieldAt(path: Path, schema: Schema)
    ensures FieldAt(PatchSchema(schema), path)
         == if path == ["updatedAt"] && "updatedAt" !in schema then Some(PrimField(DateType, true, false, true))
            else FieldAt(schema, path)
  {
    if path != [] && path[0] == "updatedAt" {
      assert |path| == 1 ==> path == ["updatedAt"];
    }
  }

  /** A path and value of a patch are taken exactly when the path names a declared field, or `updatedAt`, and is not
      below the version, and the operation takes the value for that field. */
  lemma {:induction false} PairTakenIff(op: PatchOp, path: Path, v: Value, schema: Schema, host: Host)
    ensures ValidatePair(op, path, v, schema, host).Ok?
       <==> var def := if path == ["updatedAt"] && "updatedAt" !in schema then Some(PrimField(DateType, true, false, true))
                       else FieldAt(schema, path);
            path != [] && path[0] != "version" && def.Some? && OperationTakes(op, def.value, v, host)
  {
    PatchFieldAt(path, schema);
    var def := FieldAt(PatchSchema(schema), path);
    if def.Some? {
      OperandTakenIff(op, def.value, v, host);
    }
  }
}
