/** What the compiled query matches, against what the in-memory test accepts. */
module EsMeaning {
  import opened Values
  import opened Schemas
  import opened FilterQuery
  import opened SchemaValidator
  import opened EsCompiler

  /** The values the index holds for a field: the elements of an array one by one, and
      nothing for `null` or an absent field. */
  function IndexedValues(record: Record, path: Path): seq<Value> {
    match Get(record, path)
    case None => []
    case Some(Null) => []
    case Some(Arr(items)) => items
    case Some(v) => [v]
  }

  predicate HasTerm(indexed: seq<Value>, value: Value) {
    !value.Null? && exists v :: v in indexed && StrictEq(v, value)
  }

  predicate InRange(op: FieldOp, v: Value, bound: Value) {
    v.Num? && bound.Num? &&
    match op
    case Gt => v.n > bound.n
    case Gte => v.n >= bound.n
    case Lt => v.n < bound.n
    case Lte => v.n <= bound.n
    case _ => false
  }

  /** What the database knows of a model: its fields, and what a date field, whose format is whole seconds,
      reads off a string. */
  datatype Mapping = Mapping(schema: Schema, epochSeconds: string -> Option<real>)

  predicate IsDate(path: Path, schema: Schema) {
    var def := FieldAt(schema, path);
    def.Some? &&
    match def.value
    case PrimField(prim, _, _, _) => prim == DateType
    case ArrayField(elem, _, _, _) => elem == DateType
    case _ => false
  }

  /** A literal as the field it is compared with reads it; `None` where the field cannot. */
  function Literal(path: Path, v: Value, mapping: Mapping): Option<Value> {
    if !v.Str? || !IsDate(path, mapping.schema) then Some(v)
    else
      match mapping.epochSeconds(v.s)
      case None => None
      case Some(seconds) => Some(Num(seconds))
  }

  predicate HasLiteral(indexed: seq<Value>, literal: Option<Value>) {
    literal.Some? && HasTerm(indexed, literal.value)
  }

  /** A `should` list without clauses is an empty `bool` query, and that matches everything. */
  predicate Matches(q: EsQuery, record: Record, mapping: Mapping) {
    match q
    case Term(path, value) => HasLiteral(IndexedValues(record, path), Literal(path, value, mapping))
    case Terms(path, values) =>
      values.Arr? && exists v :: v in values.items && HasLiteral(IndexedValues(record, path), Literal(path, v, mapping))
    case Range(path, op, bound) =>
      var literal := Literal(path, bound, mapping);
      literal.Some? && exists v :: v in IndexedValues(record, path) && InRange(op, v, literal.value)
    case MustNot(clause) => !Matches(clause, record, mapping)
    case Must(clauses) => forall c :: c in clauses ==> Matches(c, record, mapping)
    case Should(clauses) => clauses == [] || exists c :: c in clauses && Matches(c, record, mapping)
  }

  /** A search with a range operator the database does not know, or a date it cannot read, is refused as a
      whole. */
  predicate IsAccepted(q: EsQuery, mapping: Mapping) {
    match q
    case Term(path, value) => Literal(path, value, mapping).Some?
    case Terms(path, values) => values.Arr? ==> forall v :: v in values.items ==> Literal(path, v, mapping).Some?
    case Range(path, op, bound) => IsRange(op) && Literal(path, bound, mapping).Some?
    case MustNot(clause) => IsAccepted(clause, mapping)
    case Must(clauses) => forall c :: c in clauses ==> IsAccepted(c, mapping)
    case Should(clauses) => forall c :: c in clauses ==> IsAccepted(c, mapping)
  }

  predicate Finds(q: EsQuery, record: Record, mapping: Mapping) {
    IsAccepted(q, mapping) && Matches(q, record, mapping)
  }

  // ---- The filters a parser can produce ----

  predicate LeafFits(path: Path, op: FieldOp, value: Value, schema: Schema, host: Host) {
    var def := FieldAt(schema, path);
    && def.Some? && IsFilterable(def.value) && AcceptsOp(def.value, op)
    && (if op == In then value.Arr? && forall v :: v in value.items ==> AcceptsValue(def.value, v, host)
        else AcceptsValue(def.value, value, host))
  }

  /** Every leaf names a filterable field and holds values of its type. */
  predicate Fits(node: FilterNode, schema: Schema, host: Host) {
    match node
    case Field(path, op, value) => LeafFits(path, op, value, schema, host)
    case Logical(_, conditions) => forall c :: c in conditions ==> Fits(c, schema, host)
  }

  predicate AllFit(nodes: seq<FilterNode>, schema: Schema, host: Host) {
    forall n :: n in nodes ==> Fits(n, schema, host)
  }

  lemma {:induction false} ParsedFits(query: Query, schema: Schema, host: Host)
    requires Parse(query, schema, host).Ok?
    ensures AllFit(Parse(query, schema, host).value, schema, host)
    decreases query, 0
  {
    ParsedMembersFit(query.members, schema, host);
  }

  lemma {:induction false} ParsedMembersFit(members: seq<Member>, schema: Schema, host: Host)
    requires ParseMembers(members, schema, host).Ok?
    ensures AllFit(ParseMembers(members, schema, host).value, schema, host)
    decreases members, 0
  {
    if members != [] {
      if members[0].Logic? {
        ParsedListFits(members[0].conditions, schema, host);
      }
      assert Fits(ParseMember(members[0], schema, host).value, schema, host);
      ParsedMembersFit(members[1..], schema, host);
    }
  }

  lemma {:induction false} ParsedListFits(list: seq<Query>, schema: Schema, host: Host)
    requires ParseAll(list, schema, host).Ok?
    ensures AllFit(ParseAll(list, schema, host).value, schema, host)
    decreases list, 1
  {
    if list != [] {
      ParsedFits(list[0], schema, host);
      ParsedListFits(list[1..], schema, host);
    }
  }

  function Literals(op: FieldOp, value: Value): seq<Value> {
    if op == In then (if value.Arr? then value.items else []) else [value]
  }

  /** The operators are known, and the database can read every date. */
  predicate Searchable(node: FilterNode, mapping: Mapping) {
    match node
    case Field(path, op, value) =>
      !op.Unknown? && forall v :: v in Literals(op, value) ==> Literal(path, v, mapping).Some?
    case Logical(_, conditions) => forall c :: c in conditions ==> Searchable(c, mapping)
  }

  /** The operators are known, and dates are given as numbers. */
  predicate Plain(node: FilterNode, schema: Schema) {
    match node
    case Field(path, op, value) => !op.Unknown? && LeafIsPlain(path, op, value, schema)
    case Logical(_, conditions) => forall c :: c in conditions ==> Plain(c, schema)
  }

  predicate LeafIsPlain(path: Path, op: FieldOp, value: Value, schema: Schema) {
    IsDate(path, schema) ==> forall v :: v in Literals(op, value) ==> !v.Str?
  }

  lemma {:induction false} PlainIsSearchable(node: FilterNode, mapping: Mapping)
    requires Plain(node, mapping.schema)
    ensures Searchable(node, mapping)
  {
    if node.Logical? {
      forall c | c in node.conditions
        ensures Searchable(c, mapping)
      {
        PlainIsSearchable(c, mapping);
      }
    }
  }

  predicate NoEmptyOr(node: FilterNode) {
    match node
    case Field(_, _, _) => true
    case Logical(logic, conditions) =>
      (logic == Or ==> conditions != []) && forall c :: c in conditions ==> NoEmptyOr(c)
  }

  /** Every field a `ne` condition names is present. */
  predicate NeFieldsPresent(node: FilterNode, record: Record) {
    match node
    case Field(path, op, _) => op == Ne ==> Get(record, path).Some?
    case Logical(_, conditions) => forall c :: c in conditions ==> NeFieldsPresent(c, record)
  }

  lemma {:induction false} TranslateAllAt(nodes: seq<FilterNode>)
    ensures forall i :: 0 <= i < |nodes| ==> TranslateAll(nodes)[i] == Translate(nodes[i])
  {
    if nodes != [] {
      TranslateAllAt(nodes[1..]);
    }
  }

  /** The database takes the compiled query exactly when every operator in the filter is known and every date
      can be read. */
  lemma {:induction false} AcceptedIffSearchable(node: FilterNode, mapping: Mapping)
    ensures IsAccepted(Translate(node), mapping) <==> Searchable(node, mapping)
  {
    match node
    case Field(path, op, value) =>
      assert value in [value];
    case Logical(_, conditions) =>
      var clauses := TranslateAll(conditions);
      TranslateAllAt(conditions);
      forall i | 0 <= i < |clauses|
        ensures IsAccepted(clauses[i], mapping) <==> Searchable(conditions[i], mapping)
      {
        AcceptedIffSearchable(conditions[i], mapping);
      }
      AllAcceptedIffSearchable(conditions, clauses, mapping);
  }

  lemma AllAcceptedIffSearchable(conditions: seq<FilterNode>, clauses: seq<EsQuery>, mapping: Mapping)
    requires |clauses| == |conditions|
    requires forall i :: 0 <= i < |clauses| ==> (IsAccepted(clauses[i], mapping) <==> Searchable(conditions[i], mapping))
    ensures (forall q :: q in clauses ==> IsAccepted(q, mapping)) <==> forall c :: c in conditions ==> Searchable(c, mapping)
  {
    forall q | q in clauses && forall c :: c in conditions ==> Searchable(c, mapping)
      ensures IsAccepted(q, mapping)
    {
      var i :| 0 <= i < |clauses| && q == clauses[i];
      assert conditions[i] in conditions;
    }
    forall c | c in conditions && forall q :: q in clauses ==> IsAccepted(q, mapping)
      ensures Searchable(c, mapping)
    {
      var i :| 0 <= i < |conditions| && c == conditions[i];
      assert clauses[i] in clauses;
    }
  }

  /** The index holds the terms a value contains. */
  lemma {:induction false} ContainsIsHas(record: Record, path: Path, v: Value)
    requires Get(record, path).Some? && !v.Null?
    ensures Contains(Get(record, path).value, v) <==> HasTerm(IndexedValues(record, path), v)
  {
    var actual := Get(record, path).value;
    if !actual.Arr? && !actual.Null? {
      assert IndexedValues(record, path) == [actual];
      assert actual in [actual];
    }
  }

  /** One leaf, exactly: test and query part ways only where `ne` meets an absent field. */
  lemma {:induction false} LeafAgreement(path: Path, op: FieldOp, value: Value, mapping: Mapping, host: Host, record: Record,
                                         names: set<string>)
    requires LeafFits(path, op, value, mapping.schema, host) && !op.Unknown? && LeafIsPlain(path, op, value, mapping.schema)
    ensures TestField(path, op, value, record, host) ==> Matches(Leaf(path, op, value), record, mapping)
    ensures RecordConforms(record, mapping.schema, names) ==>
              ((TestField(path, op, value, record, host) <==> Matches(Leaf(path, op, value), record, mapping))
               <==> (op == Ne ==> Get(record, path).Some?))
  {
    var actual := Get(record, path);
    var indexed := IndexedValues(record, path);
    forall v | v in Literals(op, value)
      ensures Literal(path, v, mapping) == Some(v)
    {
    }
    assert op != In ==> value in Literals(op, value);
    if actual.Some? {
      if RecordConforms(record, mapping.schema, names) {
        ConformingAt(record, mapping.schema, RESERVED, names, path);
      }
      forall v: Value | !v.Null?
        ensures HasTerm(indexed, v) <==> Contains(actual.value, v)
      {
        ContainsIsHas(record, path, v);
      }
      if !actual.value.Arr? && !actual.value.Null? {
        assert indexed == [actual.value];
        assert actual.value in indexed;
      }
    }
  }
}
