/** The scripts patches become, what they do to a document, and the merge of all patches of a
    document into one script. */
module PatchScripts {
  import opened Values
  import opened Schemas
  import opened SchemaValidator
  import opened JsonPatch

  /** One operation on one path, with its validated operand. */
  datatype PatchStep = PatchStep(op: PatchOp, path: Path, fieldType: FieldType, operand: Value)

  /** A script line: it reads its operand from the parameter with this number. */
  datatype Line = Line(op: PatchOp, path: Path, fieldType: FieldType, byIndex: bool, param: nat)

  // ---- Reading and writing a path of a document ----

  /** The field at a path, when everything above it is an object; a script fails otherwise. */
  function Read(record: Record, path: Path): Result<Option<Value>>
    decreases path
  {
    if path == [] then Err
    else if |path| == 1 then Ok(if path[0] in record then Some(record[path[0]]) else None)
    else if path[0] in record && record[path[0]].Obj? then Read(record[path[0]].fields, path[1..])
    else Err
  }

  function Write(record: Record, path: Path, v: Value): Result<Record>
    decreases path
  {
    if path == [] then Err
    else if |path| == 1 then Ok(record[path[0] := v])
    else if path[0] in record && record[path[0]].Obj? then
      var inner :- Write(record[path[0]].fields, path[1..], v);
      Ok(record[path[0] := Obj(inner)])
    else Err
  }

  predicate IsNull(v: Option<Value>) {
    v.None? || v.value.Null?
  }

  /** What a line leaves at its path: `None` where it writes nothing. */
  function NewValue(op: PatchOp, fieldType: FieldType, byIndex: bool, current: Option<Value>, operand: Value): Result<Option<Value>> {
    match op
    case Replace => Ok(Some(operand))
    case Append =>
      if fieldType == ArrayType then
        if IsNull(current) then Ok(Some(Arr([operand])))
        else if current.value.Arr? then Ok(Some(Arr(current.value.items + [operand])))
        else Err
      else AppendText(current, operand, false)
    case Prepend =>
      if fieldType == ArrayType then
        if IsNull(current) then Ok(Some(Arr([operand])))
        else if current.value.Arr? then Ok(Some(Arr([operand] + current.value.items)))
        else Err
      else AppendText(current, operand, true)
    case Incr => AddNumber(current, operand, false)
    case Decr => AddNumber(current, operand, true)
    case Remove =>
      if IsNull(current) then Ok(None)
      else if !current.value.Arr? || !operand.Obj? then Err
      else if byIndex then RemoveIndex(current.value.items, operand)
      else if "v" in operand.fields then Ok(Some(Arr(RemoveValue(current.value.items, operand.fields["v"]))))
      else Err
  }

  function AppendText(current: Option<Value>, operand: Value, front: bool): Result<Option<Value>> {
    if !operand.Str? then Err
    else if IsNull(current) then Ok(Some(operand))
    else if !current.value.Str? then Err
    else Ok(Some(Str(if front then operand.s + current.value.s else current.value.s + operand.s)))
  }

  function AddNumber(current: Option<Value>, operand: Value, negative: bool): Result<Option<Value>> {
    if !operand.Num? || (!IsNull(current) && !current.value.Num?) then Err
    else
      var start := if IsNull(current) then 0.0 else current.value.n;
      Ok(Some(Num(if negative then start - operand.n else start + operand.n)))
  }

  /** An index past the end removes nothing. */
  function RemoveIndex(items: seq<Value>, operand: Value): Result<Option<Value>>
    requires operand.Obj?
  {
    if "i" !in operand.fields || !IsIndex(operand.fields["i"]) then Err
    else
      var i := operand.fields["i"].n.Floor;
      if i < |items| then Ok(Some(Arr(items[..i] + items[i + 1..]))) else Ok(None)
  }

  function RemoveValue(items: seq<Value>, v: Value): (left: seq<Value>)
    ensures forall e :: e in left <==> e in items && e != v
  {
    if items == [] then []
    else
      assert items == [items[0]] + items[1..];
      Kept(items[0], v) + RemoveValue(items[1..], v)
  }

  /** By their codes in ASCII. */
  predicate IsLetter(c: char): (letter: bool)
    ensures letter <==> 97 <= c as int <= 122 || 65 <= c as int <= 90 || c as int == 95
  {
    'a' <= c <= 'z' || 'A' <= c <= 'Z' || c == '_'
  }

  predicate IsDigit(c: char): (digit: bool)
    ensures digit <==> 48 <= c as int <= 57
  {
    '0' <= c <= '9'
  }

  /** What may follow a dot in a script: an identifier or a number. No rule on schemas asks this of a field's name. */
  predicate IsScriptName(name: string) {
    && name != ""
    && if IsLetter(name[0]) then forall c :: c in name ==> IsLetter(c) || IsDigit(c)
       else (forall c :: c in name ==> IsDigit(c)) && (name[0] != '0' || name == "0")
  }

  /** A letter begins an identifier, which letters and digits go on; a digit begins a number, which digits go on unless
      it is zero. */
  lemma ScriptNameGrows(name: string, c: char)
    ensures IsScriptName([c]) <==> IsLetter(c) || IsDigit(c)
    ensures name != "" ==>
              (IsScriptName(name + [c])
               <==> IsScriptName(name) && name != "0" && (IsDigit(c) || (IsLetter(c) && IsLetter(name[0]))))
    ensures !IsScriptName("")
  {
    if name != "" {
      var longer := name + [c];
      assert longer[0] == name[0] && c in longer && name[0] in longer;
      assert forall d :: d in longer <==> d in name || d == c;
    }
  }

  predicate IsScriptPath(path: Path) {
    forall name :: name in path ==> IsScriptName(name)
  }

  /** One line, run on a document; one that names a field by no script name does not compile. */
  function Exec(op: PatchOp, path: Path, fieldType: FieldType, byIndex: bool, operand: Value, record: Record): Result<Record> {
    if !IsScriptPath(path) then Err
    else if op == Replace then Write(record, path, operand)
    else
      var current :- Read(record, path);
      var new_ :- NewValue(op, fieldType, byIndex, current, operand);
      if new_.None? then Ok(record) else Write(record, path, new_.value)
  }

  function ByIndex(step: PatchStep): bool {
    step.op == Remove && step.operand.Obj? && "i" in step.operand.fields
  }

  /** The reference: a document after one operation, and after operations in order. */
  function Apply(step: PatchStep, record: Record): Result<Record> {
    Exec(step.op, step.path, step.fieldType, ByIndex(step), step.operand, record)
  }

  function ApplyAll(steps: seq<PatchStep>, record: Record): Result<Record> {
    if steps == [] then Ok(record)
    else
      var next :- Apply(steps[0], record);
      ApplyAll(steps[1..], next)
  }

  // ---- What an operation does ----

  /** A written field reads back as written, and every field neither above nor below it stays. */
  lemma {:induction false} WriteThenGet(record: Record, path: Path, v: Value)
    requires Write(record, path, v).Ok?
    ensures Get(Write(record, path, v).value, path) == Some(v)
    ensures forall q: Path :: !(q <= path) && !(path <= q) ==> Get(Write(record, path, v).value, q) == Get(record, q)
    decreases path
  {
    if |path| > 1 {
      var inner := record[path[0]].fields;
      WriteThenGet(inner, path[1..], v);
      var written := Write(record, path, v).value;
      forall q: Path | !(q <= path) && !(path <= q)
        ensures Get(written, q) == Get(record, q)
      {
        if q != [] && q[0] == path[0] {
          assert q == [q[0]] + q[1..] && path == [path[0]] + path[1..];
          assert !(q[1..] <= path[1..]) && !(path[1..] <= q[1..]);
        }
      }
    } else {
      var written := Write(record, path, v).value;
      forall q: Path | !(q <= path) && !(path <= q)
        ensures Get(written, q) == Get(record, q)
      {
        assert path == [path[0]];
        assert q == [] || q == [q[0]] + q[1..];
      }
    }
  }

  lemma {:induction false} ReadIsGet(record: Record, path: Path)
    requires Read(record, path).Ok?
    ensures Read(record, path).value == Get(record, path)
    decreases path
  {
    if |path| > 1 {
      ReadIsGet(record[path[0]].fields, path[1..]);
    }
  }

  /** An operation that succeeds changes its own field, as the operation says, and no other. */
  lemma {:induction false} ApplyEffect(step: PatchStep, record: Record)
    requires Apply(step, record).Ok?
    ensures var after := Apply(step, record).value;
            var new_ := NewValue(step.op, step.fieldType, ByIndex(step), Get(record, step.path), step.operand);
            && new_.Ok?
            && Get(after, step.path) == (if new_.value.Some? then new_.value else Get(record, step.path))
            && forall q: Path :: !(q <= step.path) && !(step.path <= q) ==> Get(after, q) == Get(record, q)
  {
    if step.op != Replace {
      ReadIsGet(record, step.path);
    }
    var new_ := NewValue(step.op, step.fieldType, ByIndex(step), Get(record, step.path), step.operand);
    if new_.value.Some? {
      WriteThenGet(record, step.path, new_.value.value);
    }
  }

  // ---- The operations, one by one ----

  /** Absent and `null` are nothing stored. */
  predicate Holds(record: Record, path: Path, v: Value) {
    !v.Null? && Get(record, path) == Some(v)
  }

  predicate HoldsNothing(record: Record, path: Path) {
    Get(record, path) == None || Get(record, path) == Some(Null)
  }

  /** `replace` leaves the operand; `incr` adds it and `decr` takes it away, from zero where nothing is stored. */
  lemma ReplacedOrCounted(step: PatchStep, record: Record)
    requires Apply(step, record).Ok?
    ensures var after := Apply(step, record).value;
            && (step.op == Replace ==> Get(after, step.path) == Some(step.operand))
            && (step.op == Incr || step.op == Decr ==>
                  && step.operand.Num?
                  && (HoldsNothing(record, step.path) ==>
                        Get(after, step.path) == Some(Num(if step.op == Incr then step.operand.n else 0.0 - step.operand.n)))
                  && forall m :: Holds(record, step.path, Num(m)) ==>
                       Get(after, step.path) == Some(Num(if step.op == Incr then m + step.operand.n else m - step.operand.n)))
  {
    ApplyEffect(step, record);
  }

  /** `append` puts the element, or the text, last and `prepend` first, and all else keeps its order. */
  lemma AppendedOrPrepended(step: PatchStep, record: Record)
    requires Apply(step, record).Ok? && (step.op == Append || step.op == Prepend)
    ensures var after := Get(Apply(step, record).value, step.path);
            && (step.fieldType == ArrayType ==>
                  && (HoldsNothing(record, step.path) ==> after == Some(Arr([step.operand])))
                  && forall items :: Holds(record, step.path, Arr(items)) ==>
                       after == Some(Arr(if step.op == Append then items + [step.operand] else [step.operand] + items)))
            && (step.fieldType != ArrayType ==>
                  && step.operand.Str?
                  && (HoldsNothing(record, step.path) ==> after == Some(step.operand))
                  && forall text :: Holds(record, step.path, Str(text)) ==>
                       after == Some(Str(if step.op == Append then text + step.operand.s else step.operand.s + text)))
  {
    ApplyEffect(step, record);
  }

  /** `remove` by index takes out that position, and nothing past the end; by value it takes out what equals the
      value; where nothing is stored nothing changes. */
  lemma Removed(step: PatchStep, record: Record)
    requires Apply(step, record).Ok? && step.op == Remove
    ensures var after := Get(Apply(step, record).value, step.path);
            && (HoldsNothing(record, step.path) ==> Apply(step, record) == Ok(record))
            && forall items :: Holds(record, step.path, Arr(items)) ==>
                 && step.operand.Obj?
                 && if "i" in step.operand.fields then
                      && IsIndex(step.operand.fields["i"])
                      && var i := step.operand.fields["i"].n.Floor;
                      i as real == step.operand.fields["i"].n
                      && after == Some(Arr(if i < |items| then items[..i] + items[i + 1..] else items))
                    else
                      "v" in step.operand.fields && after == Some(Arr(RemoveValue(items, step.operand.fields["v"])))
  {
    ApplyEffect(step, record);
    ReadIsGet(record, step.path);
  }

  /** Taking a value out, said of any split of a list: the others keep their order and their number. */
  lemma {:induction false} RemoveValueOfSplit(a: seq<Value>, b: seq<Value>, v: Value)
    ensures RemoveValue(a + b, v) == RemoveValue(a, v) + RemoveValue(b, v)
    ensures |a| == 1 ==> RemoveValue(a, v) == if a[0] == v then [] else a
    decreases |a|
  {
    if a == [] {
      assert a + b == b;
    } else {
      RemoveValueOfSplit(a[1..], b, v);
      RemoveFirst(a, b, v);
      Associate(Kept(a[0], v), RemoveValue(a[1..], v), RemoveValue(b, v));
      if |a| == 1 {
        assert a == [a[0]];
        RemoveFromOne(a[0], v);
      }
    }
  }

  function Kept(item: Value, v: Value): seq<Value> {
    if item == v then [] else [item]
  }

  lemma Associate(a: seq<Value>, b: seq<Value>, c: seq<Value>)
    ensures a + (b + c) == a + b + c
  {
  }

  lemma RemoveFromOne(item: Value, v: Value)
    ensures RemoveValue([item], v) == if item == v then [] else [item]
  {
    assert [item][1..] == [];
  }

  lemma {:induction false} RemoveFirst(a: seq<Value>, b: seq<Value>, v: Value)
    requires a != []
    ensures RemoveValue(a + b, v) == Kept(a[0], v) + RemoveValue(a[1..] + b, v)
  {
    assert (a + b)[1..] == a[1..] + b;
  }

  // ---- Conformance ----

  lemma {:induction false} WriteConforms(record: Record, schema: Schema, exempt: set<string>, path: Path, v: Value, names: set<string>)
    requires ObjectConforms(Obj(record), schema, exempt, names)
    requires FieldAt(schema, path).Some? && Conforms(v, FieldAt(schema, path).value, names)
    requires Write(record, path, v).Ok?
    ensures ObjectConforms(Obj(Write(record, path, v).value), schema, exempt, names)
    decreases path
  {
    if |path| > 1 {
      WriteConforms(record[path[0]].fields, schema[path[0]].properties, {}, path[1..], v, names);
    }
  }

  predicate StepFits(step: PatchStep, schema: Schema, names: set<string>) {
    var def := Target(step.op, step.path, schema);
    def.Some? && step.fieldType == TypeOf(def.value) && OperandFits(step.op, step.operand, def.value, names)
  }

  lemma IntegersAdd(a: real, b: real)
    requires IsInteger(a) && IsInteger(b)
    ensures IsInteger(a + b)
  {
    var sum := a.Floor + b.Floor;
    assert a + b == sum as real;
  }

  lemma IntegersSubtract(a: real, b: real)
    requires IsInteger(a) && IsInteger(b)
    ensures IsInteger(a - b)
  {
    var difference := a.Floor - b.Floor;
    assert a - b == difference as real;
  }

  /** An array of elements each taken from a conforming one, or fitting, conforms. */
  lemma {:induction false} ElementsConform(items: seq<Value>, old_: Value, operand: Value, def: FieldDef, names: set<string>)
    requires TypeOf(def) == ArrayType
    requires old_.Arr? && (old_.items == [] || Conforms(old_, def, names))
    requires forall e :: e in items ==> e in old_.items || (e == operand && ElementConforms(operand, def, names))
    ensures Conforms(Arr(items), def, names)
  {
  }

  /** The new value of a fitting operation is of the field's type. */
  lemma {:induction false} NewValueConforms(step: PatchStep, schema: Schema, current: Option<Value>, names: set<string>)
    requires StepFits(step, schema, names)
    requires IsNull(current) || Conforms(current.value, Target(step.op, step.path, schema).value, names)
    ensures var new_ := NewValue(step.op, step.fieldType, ByIndex(step), current, step.operand);
            new_.Ok? && (new_.value.Some? ==> Conforms(new_.value.value, Target(step.op, step.path, schema).value, names))
  {
    var def := Target(step.op, step.path, schema).value;
    if step.op == Incr || step.op == Decr {
      if def.prim != FloatType {
        var start := if IsNull(current) then 0.0 else current.value.n;
        IntegersAdd(start, step.operand.n);
        IntegersSubtract(start, step.operand.n);
      }
    } else if TypeOf(def) == ArrayType && step.op != Replace {
      var old_ := if IsNull(current) then Arr([]) else current.value;
      var new_ := NewValue(step.op, step.fieldType, ByIndex(step), current, step.operand);
      if step.op == Append {
        assert [] + [step.operand] == [step.operand];
        ElementsConform(old_.items + [step.operand], old_, step.operand, def, names);
      } else if step.op == Prepend {
        assert [step.operand] + [] == [step.operand];
        ElementsConform([step.operand] + old_.items, old_, step.operand, def, names);
      } else {
        RemovalConforms(step, old_, def, names);
      }
    }
  }

  lemma {:induction false} RemovalConforms(step: PatchStep, old_: Value, def: FieldDef, names: set<string>)
    requires step.op == Remove && TypeOf(def) == ArrayType && OperandFits(Remove, step.operand, def, names)
    requires old_.Arr? && (old_.items == [] || Conforms(old_, def, names))
    ensures var new_ := NewValue(Remove, ArrayType, ByIndex(step), Some(old_), step.operand);
            new_.Ok? && (new_.value.Some? ==> Conforms(new_.value.value, def, names))
  {
    if ByIndex(step) {
      var i := step.operand.fields["i"].n.Floor;
      if i < |old_.items| {
        ElementsConform(old_.items[..i] + old_.items[i + 1..], old_, Null, def, names);
      }
    } else {
      ElementsConform(RemoveValue(old_.items, step.operand.fields["v"]), old_, Null, def, names);
    }
  }

  /** A validated operation keeps a document within its schema. */
  lemma {:induction false} ApplyConforms(step: PatchStep, schema: Schema, record: Record, names: set<string>)
    requires StepFits(step, schema, names) && RecordConforms(record, PatchSchema(schema), names)
    ensures Apply(step, record).Ok? ==> RecordConforms(Apply(step, record).value, PatchSchema(schema), names)
    ensures Apply(step, record).Ok? <==> Read(record, step.path).Ok? && IsScriptPath(step.path)
  {
    var full := PatchSchema(schema);
    ReadableIsWritable(record, step.path, step.operand);
    if Read(record, step.path).Ok? {
      ReadIsGet(record, step.path);
      var current := Get(record, step.path);
      if current.Some? {
        ConformingAt(record, full, RESERVED, names, step.path);
      }
      NewValueConforms(step, schema, current, names);
      var new_ := NewValue(step.op, step.fieldType, ByIndex(step), current, step.operand).value;
      if new_.Some? {
        ReadableIsWritable(record, step.path, new_.value);
        WriteConforms(record, full, RESERVED, step.path, new_.value, names);
      }
    }
  }

  lemma {:induction false} ReadableIsWritable(record: Record, path: Path, v: Value)
    ensures Read(record, path).Ok? <==> Write(record, path, v).Ok?
    decreases path
  {
    if |path| > 1 && path[0] in record && record[path[0]].Obj? {
      ReadableIsWritable(record[path[0]].fields, path[1..], v);
    }
  }

  /** So does a group of them, in order. */
  lemma {:induction false} ApplyAllConforms(steps: seq<PatchStep>, schema: Schema, record: Record, names: set<string>)
    requires forall s :: s in steps ==> StepFits(s, schema, names)
    requires RecordConforms(record, PatchSchema(schema), names)
    ensures ApplyAll(steps, record).Ok? ==> RecordConforms(ApplyAll(steps, record).value, PatchSchema(schema), names)
    decreases |steps|
  {
    if steps != [] {
      ApplyConforms(steps[0], schema, record, names);
      if Apply(steps[0], record).Ok? {
        ApplyAllConforms(steps[1..], schema, Apply(steps[0], record).value, names);
      }
    }
  }

  /** `{ op: "replace", path: [ "first-name" ] }` is valid where the schema declares the name, and its script compiles
      on no document. */
  lemma HyphenDoesNotCompile(schema: Schema, record: Record, v: string, names: set<string>)
    requires "first-name" in schema && schema["first-name"] == PrimField(StringType, false, false, false)
    ensures var step := PatchStep(Replace, ["first-name"], Primitive(StringType), Str(v));
            StepFits(step, schema, names) && Apply(step, record).Err?
  {
    var name := "first-name";
    assert name[5] == '-' && name[0] == 'f';
    assert '-' in name && !IsScriptName(name);
    assert [name][0] == name && !IsScriptPath([name]);
    assert PatchSchema(schema)["first-name"] == schema["first-name"];
  }
}
