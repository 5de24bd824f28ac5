/** Validation and normalisation of data against a schema. */
module SchemaValidator {
  import opened Values
  import opened Schemas

  const RESERVED: set<string> := {"id", "createdAt", "updatedAt", "appId", "userId", "type", "version"}

  function Seconds(n: real): Value {
    Num(n.Floor as real)
  }

  /** `validateDate`: numbers and numeric strings are seconds, other dates milliseconds. */
  function ValidateDate(v: Value, host: Host): Result<Value> {
    match v
    case Date(Some(ms)) => Ok(Seconds(ms / 1000.0))
    case Num(n) => Ok(Seconds(n))
    case Str(s) =>
      if host.number(s).Some? then Ok(Seconds(host.number(s).value))
      else if host.dateMillis(s).Some? then Ok(Seconds(host.dateMillis(s).value / 1000.0))
      else Err
    case _ => Err
  }

  function ValidatePrim(v: Value, prim: PrimType, host: Host): Result<Value> {
    match prim
    case StringType => if v.Str? then Ok(v) else Err
    case IntType => if v.Num? && IsInteger(v.n) then Ok(v) else Err
    case FloatType => if v.Num? then Ok(v) else Err
    case BoolType => if v.Bool? then Ok(v) else Err
    case DateType => ValidateDate(v, host)
  }

  /** `validateValue` */
  function ValidateValue(v: Value, def: FieldDef, host: Host): Result<Value>
    decreases v, 1
  {
    match def
    case PrimField(prim, _, _, _) => ValidatePrim(v, prim, host)
    case ArrayField(elem, _, _, _) =>
      if !v.Arr? || exists i :: 0 <= i < |v.items| && ValidatePrim(v.items[i], elem, host).Err? then Err
      else Ok(Arr(seq(|v.items|, i requires 0 <= i < |v.items| => ValidatePrim(v.items[i], elem, host).value)))
    case ObjectArrayField(elements, declared, _, _, _) =>
      if !v.Arr? || (!declared && v.items != []) then Err
      else if !declared then Ok(v)
      else if exists i :: 0 <= i < |v.items| && ValidateObject(v.items[i], elements, {}, host).Err? then Err
      else Ok(Arr(seq(|v.items|, i requires 0 <= i < |v.items| =>
                   ValidateObject(v.items[i], elements, {}, host).value)))
    case ObjectField(properties, _, _) => ValidateObject(v, properties, {}, host)
  }

  /** A declared field that is present: `null` passes only where the schema allows it. */
  function ValidatePresent(v: Value, def: FieldDef, host: Host): Result<Value>
    decreases v, 2
  {
    if !v.Null? then ValidateValue(v, def, host)
    else if def.nullable then Ok(Null)
    else Err
  }

  /** `validateObject`, and with the reserved names exempt the whole-record check. Names are looked up with
      `in`: an inherited one is never undeclared, and one that is declared is never absent, but a function
      where the input does not have it. A `Date` instance is an object without own keys. */
  function ValidateObject(v: Value, schema: Schema, exempt: set<string>, host: Host): Result<Value>
    decreases v, 0
  {
    match v
    case Obj(input) =>
      if (exists k :: k in input && k !in schema && k !in exempt && k !in host.inherited)
         || (exists k :: k in schema && k !in input && MustHave(k, schema[k], host.inherited))
         || (exists k :: k in input && k in schema && ValidatePresent(input[k], schema[k], host).Err?)
      then Err
      else Ok(Obj(map k | k in input ::
                    if k in schema then ValidatePresent(input[k], schema[k], host).value else input[k]))
    case Date(_) =>
      if exists k :: k in schema && MustHave(k, schema[k], host.inherited) then Err else Ok(Obj(map[]))
    case _ => Err
  }

  /** A declared field an object without it is refused for. */
  predicate MustHave(name: string, def: FieldDef, names: set<string>) {
    def.required || name in names
  }

  /** `validateAgainstSchema` */
  function ValidateRecord(data: Record, schema: Schema, host: Host): Result<Record> {
    if "version" in data then Err
    else
      var valid :- ValidateObject(Obj(data), schema, RESERVED, host);
      Ok(valid.fields)
  }

  // ---- The loop over the schema's fields ----

  /** The loop shared by `validateAgainstSchema` and `validateObject`: `result` starts as a copy of
      the input and each declared field is overwritten with its normalized value. */
  method NormalizeFields(input: Record, schema: Schema, exempt: set<string>, host: Host) returns (valid: Result<Record>)
    ensures valid.Ok? <==> ValidateObject(Obj(input), schema, exempt, host).Ok?
    ensures valid.Ok? ==> Obj(valid.value) == ValidateObject(Obj(input), schema, exempt, host).value
  {
    var undeclared := set k | k in input && k !in schema && k !in host.inherited && k !in exempt;
    if undeclared != {} {
      var k :| k in undeclared;
      return Err;
    }
    var result := input;
    var todo := schema.Keys;
    while todo != {}
      invariant todo <= schema.Keys
      invariant result.Keys == input.Keys
      invariant forall k :: k in schema && k !in todo && k !in input ==> !MustHave(k, schema[k], host.inherited)
      invariant forall k :: k in schema && k !in todo && k in input ==>
                              ValidatePresent(input[k], schema[k], host) == Ok(result[k])
      invariant forall k :: k in input && (k !in schema || k in todo) ==> result[k] == input[k]
      decreases todo
    {
      var k :| k in todo;
      todo := todo - {k};
      if k !in input {
        if k in host.inherited || schema[k].required {
          return Err;
        }
      } else if input[k].Null? {
        if !schema[k].nullable {
          return Err;
        }
        result := result[k := Null];
      } else {
        var normalized := ValidateValue(input[k], schema[k], host);
        if normalized.Err? {
          return Err;
        }
        result := result[k := normalized.value];
      }
    }
    ResultIsNormalized(input, result, schema, exempt, host);
    return Ok(result);
  }

  lemma {:induction false} ResultIsNormalized(input: Record, result: Record, schema: Schema, exempt: set<string>, host: Host)
    requires result.Keys == input.Keys
    requires forall k :: k in input ==> k in schema || k in exempt || k in host.inherited
    requires forall k :: k in schema && k !in input ==> !MustHave(k, schema[k], host.inherited)
    requires forall k :: k in schema && k in input ==> ValidatePresent(input[k], schema[k], host) == Ok(result[k])
    requires forall k :: k in input && k !in schema ==> result[k] == input[k]
    ensures ValidateObject(Obj(input), schema, exempt, host) == Ok(Obj(result))
  {
    assert ValidateObject(Obj(input), schema, exempt, host).Ok?;
    assert ValidateObject(Obj(input), schema, exempt, host).value.fields == result;
  }

  // ---- What a stored value looks like ----

  predicate PrimConforms(v: Value, prim: PrimType) {
    match prim
    case StringType => v.Str?
    case IntType => v.Num? && IsInteger(v.n)
    case FloatType => v.Num?
    case BoolType => v.Bool?
    case DateType => v.Num? && IsInteger(v.n)
  }

  /** The value is of the field's type all the way down: dates are whole seconds, objects are complete, and
      closed but for the inherited names. */
  predicate Conforms(v: Value, def: FieldDef, names: set<string>)
    decreases v, 1
  {
    match def
    case PrimField(prim, _, _, _) => PrimConforms(v, prim)
    case ArrayField(elem, _, _, _) => v.Arr? && forall e :: e in v.items ==> PrimConforms(e, elem)
    case ObjectArrayField(elements, declared, _, _, _) =>
      v.Arr? && forall e :: e in v.items ==> declared && ObjectConforms(e, elements, {}, names)
    case ObjectField(properties, _, _) => ObjectConforms(v, properties, {}, names)
  }

  predicate ObjectConforms(v: Value, schema: Schema, exempt: set<string>, names: set<string>)
    decreases v, 0
  {
    && v.Obj?
    && (forall k :: k in schema && MustHave(k, schema[k], names) ==> k in v.fields)
    && (forall k :: k in v.fields && k !in schema ==> k in exempt || k in names)
    && (forall k :: k in v.fields && k in schema ==>
          if v.fields[k].Null? then schema[k].nullable else Conforms(v.fields[k], schema[k], names))
  }

  predicate RecordConforms(record: Record, schema: Schema, names: set<string>) {
    ObjectConforms(Obj(record), schema, RESERVED, names)
  }

  /** A field reached in a conforming record is `null` or of its declared type. */
  lemma {:induction false} ConformingAt(record: Record, schema: Schema, exempt: set<string>, names: set<string>, path: Path)
    requires ObjectConforms(Obj(record), schema, exempt, names)
    requires Get(record, path).Some? && FieldAt(schema, path).Some?
    ensures Get(record, path).value.Null? || Conforms(Get(record, path).value, FieldAt(schema, path).value, names)
    decreases path
  {
    if |path| > 1 {
      ConformingAt(record[path[0]].fields, schema[path[0]].properties, {}, names, path[1..]);
    }
  }

  lemma PrimOutputConforms(v: Value, prim: PrimType, host: Host)
    ensures ValidatePrim(v, prim, host).Ok? ==> PrimConforms(ValidatePrim(v, prim, host).value, prim)
    ensures PrimConforms(v, prim) ==> ValidatePrim(v, prim, host) == Ok(v)
  {
  }

  /** What validation returns conforms, and what conforms is returned unchanged. */
  lemma {:induction false} ValidValuesConform(v: Value, def: FieldDef, host: Host)
    ensures ValidateValue(v, def, host).Ok? ==> Conforms(ValidateValue(v, def, host).value, def, host.inherited)
    ensures Conforms(v, def, host.inherited) ==> ValidateValue(v, def, host) == Ok(v)
    decreases v, 1
  {
    match def
    case PrimField(prim, _, _, _) =>
      PrimOutputConforms(v, prim, host);
    case ArrayField(elem, _, _, _) =>
      if v.Arr? {
        forall i | 0 <= i < |v.items|
          ensures ValidatePrim(v.items[i], elem, host).Ok? ==> PrimConforms(ValidatePrim(v.items[i], elem, host).value, elem)
          ensures PrimConforms(v.items[i], elem) ==> ValidatePrim(v.items[i], elem, host) == Ok(v.items[i])
        {
          PrimOutputConforms(v.items[i], elem, host);
        }
        if Conforms(v, def, host.inherited) {
          assert ValidateValue(v, def, host).Ok?;
          assert ValidateValue(v, def, host).value.items == v.items;
        }
      }
    case ObjectArrayField(elements, declared, _, _, _) =>
      if v.Arr? && !declared {
        if v.items != [] {
          assert v.items[0] in v.items;
        }
      } else if v.Arr? {
        forall i | 0 <= i < |v.items|
          ensures var r := ValidateObject(v.items[i], elements, {}, host);
                  && (r.Ok? ==> ObjectConforms(r.value, elements, {}, host.inherited))
                  && (ObjectConforms(v.items[i], elements, {}, host.inherited) ==> r == Ok(v.items[i]))
        {
          ValidObjectsConform(v.items[i], elements, {}, host);
        }
        if Conforms(v, def, host.inherited) {
          assert ValidateValue(v, def, host).Ok?;
          assert ValidateValue(v, def, host).value.items == v.items;
        }
      }
    case ObjectField(properties, _, _) =>
      ValidObjectsConform(v, properties, {}, host);
  }

  lemma {:induction false} ValidObjectsConform(v: Value, schema: Schema, exempt: set<string>, host: Host)
    ensures var r := ValidateObject(v, schema, exempt, host);
            && (r.Ok? ==> ObjectConforms(r.value, schema, exempt, host.inherited))
            && (ObjectConforms(v, schema, exempt, host.inherited) ==> r == Ok(v))
    decreases v, 0
  {
    if v.Obj? {
      forall k | k in v.fields && k in schema
        ensures var r := ValidateValue(v.fields[k], schema[k], host);
                && (r.Ok? ==> Conforms(r.value, schema[k], host.inherited) && !r.value.Null?)
                && (Conforms(v.fields[k], schema[k], host.inherited) ==> r == Ok(v.fields[k]))
      {
        ValidValuesConform(v.fields[k], schema[k], host);
      }
      if ObjectConforms(v, schema, exempt, host.inherited) {
        assert ValidateObject(v, schema, exempt, host).Ok?;
        assert ValidateObject(v, schema, exempt, host).value.fields == v.fields;
      }
    }
  }

  /** The second pass of a create: the record the first pass returned, with system-managed fields
      filled in, is accepted as it is. */
  lemma SecondPassChangesNothing(data: Record, stamps: Record, schema: Schema, host: Host)
    requires ValidateRecord(data, schema, host).Ok?
    requires stamps.Keys <= RESERVED - {"version"} - schema.Keys
    ensures var first := ValidateRecord(data, schema, host).value;
            && RecordConforms(first, schema, host.inherited)
            && ValidateRecord(first + stamps, schema, host) == Ok(first + stamps)
  {
    var first := ValidateRecord(data, schema, host).value;
    ValidObjectsConform(Obj(data), schema, RESERVED, host);
    ValidObjectsConform(Obj(first + stamps), schema, RESERVED, host);
    forall k | k in first + stamps && k in schema
      ensures (first + stamps)[k] == first[k]
    {
    }
    assert ObjectConforms(Obj(first + stamps), schema, RESERVED, host.inherited);
  }

  /** Exactly the conforming records are fixed points, so normalising twice is normalising once. */
  lemma ConformingIffUnchanged(record: Record, schema: Schema, host: Host)
    ensures ValidateRecord(record, schema, host) == Ok(record) <==> RecordConforms(record, schema, host.inherited) && "version" !in record
    ensures ValidateRecord(record, schema, host).Ok? ==>
              var once := ValidateRecord(record, schema, host).value;
              ValidateRecord(once, schema, host) == Ok(once)
  {
    ValidObjectsConform(Obj(record), schema, RESERVED, host);
    if ValidateRecord(record, schema, host).Ok? {
      ValidObjectsConform(Obj(ValidateRecord(record, schema, host).value), schema, RESERVED, host);
    }
  }

  // ---- Dates ----

  /** The whole second in which this many milliseconds lie. */
  ghost predicate IsSecondOf(v: Value, millis: real) {
    v.Num? && (exists k :: IsThe(v.n, k)) && 1000.0 * v.n <= millis < 1000.0 * (v.n + 1.0)
  }

  /** What a date field stores for an input: numbers, and texts that are numbers, are seconds; other texts and `Date`
      objects are moments in milliseconds. */
  ghost predicate IsDateFor(stored: Value, input: Value, host: Host) {
    match input
    case Num(n) => IsSecondOf(stored, 1000.0 * n)
    case Date(Some(millis)) => IsSecondOf(stored, millis)
    case Str(s) =>
      if host.number(s).Some? then IsSecondOf(stored, 1000.0 * host.number(s).value)
      else host.dateMillis(s).Some? && IsSecondOf(stored, host.dateMillis(s).value)
    case _ => false
  }

  predicate IsDateInput(input: Value, host: Host) {
    || input.Num?
    || (input.Date? && input.millis.Some?)
    || (input.Str? && (host.number(input.s).Some? || host.dateMillis(input.s).Some?))
  }

  /** A date is stored as the second it lies in, and what is no date is refused. */
  lemma DatesAreSeconds(input: Value, host: Host)
    ensures ValidatePrim(input, DateType, host).Ok? <==> IsDateInput(input, host)
    ensures ValidatePrim(input, DateType, host).Ok? ==> IsDateFor(ValidatePrim(input, DateType, host).value, input, host)
  {
    if ValidatePrim(input, DateType, host).Ok? {
      WholeNumbers(ValidatePrim(input, DateType, host).value.n);
    }
  }

  /** A moment lies in one second, so a `Date` and a text of one moment are stored alike. */
  lemma OneSecond(a: Value, b: Value, millis: real)
    requires IsSecondOf(a, millis) && IsSecondOf(b, millis)
    ensures a == b
  {
    var j :| IsThe(a.n, j);
    var k :| IsThe(b.n, k);
    assert a.n < b.n + 1.0 && b.n < a.n + 1.0 by {
      Thousandths(a.n, b.n, millis);
      Thousandths(b.n, a.n, millis);
    }
    CloseAreEqual(j, k);
  }

  lemma Thousandths(a: real, b: real, millis: real)
    requires 1000.0 * a <= millis < 1000.0 * (b + 1.0)
    ensures a < b + 1.0
  {
  }

  lemma CloseAreEqual(j: int, k: int)
    requires (j as real) < (k as real) + 1.0 && (k as real) < (j as real) + 1.0
    ensures j == k
  {
  }

  /** So every date field of a stored record is the second of what the body gave for it. */
  lemma DateFieldsAreSeconds(data: Record, schema: Schema, host: Host, name: string)
    requires ValidateRecord(data, schema, host).Ok? && name in data && !data[name].Null?
    requires name in schema && schema[name].PrimField? && schema[name].prim == DateType
    ensures name in ValidateRecord(data, schema, host).value
    ensures IsDateFor(ValidateRecord(data, schema, host).value[name], data[name], host)
  {
    assert ValidatePresent(data[name], schema[name], host).Ok?;
    assert ValidatePresent(data[name], schema[name], host) == ValidatePrim(data[name], DateType, host);
    DatesAreSeconds(data[name], host);
  }

  // ---- How closed the schema is ----

  /** An undeclared name is refused if and only if it is not one every object inherits. */
  lemma {:induction false} UndeclaredIsRefusedIff(input: Record, name: string, v: Value, schema: Schema, exempt: set<string>, host: Host)
    requires name !in input && name !in schema && name !in exempt
    requires ValidateObject(Obj(input), schema, exempt, host).Ok?
    ensures ValidateObject(Obj(input[name := v]), schema, exempt, host).Err? <==> name !in host.inherited
  {
    var more := input[name := v];
    assert name in more;
    forall k | k in input
      ensures k in more && more[k] == input[k]
    {
    }
  }

  /** Of a whole record seven names are exempt: those the system manages. One of them, the version, may not be given. */
  lemma SystemNamesAreExempt(data: Record, name: string, v: Value, schema: Schema, host: Host)
    requires name !in data && name !in schema && name !in host.inherited && ValidateRecord(data, schema, host).Ok?
    ensures ValidateRecord(data[name := v], schema, host).Ok?
       <==> name in {"id", "createdAt", "updatedAt", "appId", "userId", "type"}
  {
    if name !in RESERVED {
      UndeclaredIsRefusedIff(data, name, v, schema, RESERVED, host);
    } else {
      var more := data[name := v];
      forall k | k in data
        ensures k in more && more[k] == data[k]
      {
      }
    }
  }

  /** A declared name that every object inherits is never taken for absent, required or not. */
  lemma {:induction false} InheritedMustBeGiven(input: Record, name: string, schema: Schema, exempt: set<string>, host: Host)
    requires name in schema && name in host.inherited && name !in input
    ensures ValidateObject(Obj(input), schema, exempt, host).Err?
  {
  }

  /** `{ "toString": "x" }` is stored under a schema without fields. */
  lemma InheritedNameIsStored(host: Host)
    requires "toString" in host.inherited
    ensures ValidateRecord(map["toString" := Str("x")], map[], host) == Ok(map["toString" := Str("x")])
  {
    var body: Record := map["toString" := Str("x")];
    assert ObjectConforms(Obj(body), map[], RESERVED, host.inherited);
    ValidObjectsConform(Obj(body), map[], RESERVED, host);
  }

  // ---- Normalisation touches dates only ----

  predicate HasDates(def: FieldDef) {
    match def
    case PrimField(prim, _, _, _) => prim == DateType
    case ArrayField(elem, _, _, _) => elem == DateType
    case ObjectArrayField(elements, declared, _, _, _) => declared && exists k :: k in elements && HasDates(elements[k])
    case ObjectField(properties, _, _) => exists k :: k in properties && HasDates(properties[k])
  }

  predicate IsJson(v: Value) {
    match v
    case Arr(items) => forall e :: e in items ==> IsJson(e)
    case Obj(fields) => forall k :: k in fields ==> IsJson(fields[k])
    case Date(_) => false
    case _ => true
  }

  /** A JSON value under a definition without dates is returned as it is or refused. */
  lemma {:induction false} OnlyDatesAreNormalized(v: Value, def: FieldDef, host: Host)
    requires IsJson(v) && !HasDates(def) && ValidateValue(v, def, host).Ok?
    ensures ValidateValue(v, def, host) == Ok(v)
    decreases v, 1
  {
    match def
    case PrimField(_, _, _, _) =>
    case ArrayField(elem, _, _, _) =>
      assert ValidateValue(v, def, host).value.items == v.items;
    case ObjectArrayField(elements, declared, _, _, _) =>
      if declared {
        forall i | 0 <= i < |v.items|
          ensures ValidateObject(v.items[i], elements, {}, host) == Ok(v.items[i])
        {
          OnlyDatesInObject(v.items[i], elements, host);
        }
        assert ValidateValue(v, def, host).value.items == v.items;
      }
    case ObjectField(properties, _, _) =>
      OnlyDatesInObject(v, properties, host);
  }

  lemma {:induction false} OnlyDatesInObject(v: Value, schema: Schema, host: Host)
    requires IsJson(v) && (forall k :: k in schema ==> !HasDates(schema[k])) && ValidateObject(v, schema, {}, host).Ok?
    ensures ValidateObject(v, schema, {}, host) == Ok(v)
    decreases v, 0
  {
    forall k | k in v.fields && k in schema && !v.fields[k].Null?
      ensures ValidateValue(v.fields[k], schema[k], host) == Ok(v.fields[k])
    {
      OnlyDatesAreNormalized(v.fields[k], schema[k], host);
    }
    assert ValidateObject(v, schema, {}, host).value.fields == v.fields;
  }
}
