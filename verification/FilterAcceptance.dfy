/** Which conditions the parser takes, said of field types and operator names. */
module FilterAcceptance {
  import opened Values
  import opened Schemas
  import opened FilterQuery

  ghost predicate TypeTakes(prim: PrimType, v: Value, host: Host) {
    match prim
    case StringType => v.Str?
    case IntType => v.Num? && exists k :: IsThe(v.n, k)
    case FloatType => v.Num?
    case BoolType => v.Bool?
    case DateType => v.Num? || (v.Str? && host.dateMillis(v.s).Some?)
  }

  /** A literal for a field, or for the elements of an array field; those of an array of dates are texts. */
  ghost predicate FieldTakes(def: FieldDef, v: Value, host: Host) {
    match def
    case PrimField(prim, _, _, _) => TypeTakes(prim, v, host)
    case ArrayField(elem, _, _, _) => TypeTakes(elem, v, host) && (elem == DateType ==> v.Str?)
    case _ => false
  }

  /** Range operators are for numbers and dates, `in` for lists, and the others, names that are no operator included,
      for literals. */
  ghost predicate OperatorTakes(def: FieldDef, name: string, operand: Value, host: Host) {
    if name in {"gt", "gte", "lt", "lte"} then
      def.PrimField? && def.prim in {IntType, FloatType, DateType} && FieldTakes(def, operand, host)
    else if name == "in" then operand.Arr? && forall v :: v in operand.items ==> FieldTakes(def, v, host)
    else FieldTakes(def, operand, host)
  }

  /** A condition is a literal, or an object with one operator; a list of one literal counts as the second. */
  ghost predicate ConditionTaken(def: FieldDef, condition: Value, host: Host) {
    match condition
    case Obj(fields) => |fields| == 1 && forall name :: name in fields ==> OperatorTakes(def, name, fields[name], host)
    case Arr(items) => |items| == 1 && FieldTakes(def, items[0], host)
    case Date(_) => false
    case _ => FieldTakes(def, condition, host)
  }

  lemma AcceptsIsTakes(def: FieldDef, v: Value, host: Host)
    requires IsFilterable(def)
    ensures AcceptsValue(def, v, host) <==> FieldTakes(def, v, host)
  {
    if v.Num? {
      WholeNumbers(v.n);
    }
  }

  /** The parser takes a condition exactly when its path names a field that is marked filterable and the field takes it. */
  lemma {:induction false} ParsesIff(path: Path, condition: Value, schema: Schema, host: Host)
    ensures ParseField(path, condition, schema, host).Ok?
       <==> var def := FieldAt(schema, path);
            && def.Some? && !def.value.ObjectField? && def.value.filterable
            && ConditionTaken(def.value, condition, host)
  {
    var def := FieldAt(schema, path);
    if def.Some? && IsFilterable(def.value) {
      forall v
        ensures AcceptsValue(def.value, v, host) <==> FieldTakes(def.value, v, host)
      {
        AcceptsIsTakes(def.value, v, host);
      }
      if condition.Obj? && |condition.fields| == 1 {
        OnlyKey(condition.fields.Keys);
      }
    }
  }
}
