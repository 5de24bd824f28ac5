/** The filter language: parsing a query against a schema, and testing a record in memory. */
module FilterQuery {
  import opened Values
  import opened Schemas

  datatype LogicOp = And | Or

  /** A query object, as the ordered list of its keys. A logical key whose value is not
      an array is `NotAList`. */
  datatype Query = Query(members: seq<Member>)
  datatype Member =
    | FieldIs(path: Path, condition: Value)
    | Logic(op: LogicOp, conditions: seq<Query>)
    | NotAList(op: LogicOp)

  /** `Unknown` is any other operator name: parsing does not refuse it. */
  datatype FieldOp = Eq | Ne | In | Gt | Gte | Lt | Lte | Unknown(name: string)

  datatype FilterNode =
    | Field(path: Path, op: FieldOp, value: Value)
    | Logical(logic: LogicOp, conditions: seq<FilterNode>)

  function OpOf(name: string): FieldOp {
    match name
    case "eq" => Eq
    case "ne" => Ne
    case "in" => In
    case "gt" => Gt
    case "gte" => Gte
    case "lt" => Lt
    case "lte" => Lte
    case _ => Unknown(name)
  }

  predicate IsRange(op: FieldOp) {
    op == Gt || op == Gte || op == Lt || op == Lte
  }

  // ---- Parsing ----

  predicate PrimAccepts(prim: PrimType, v: Value, host: Host) {
    match prim
    case StringType => v.Str?
    case IntType => v.Num? && IsInteger(v.n)
    case FloatType => v.Num?
    case BoolType => v.Bool?
    case DateType => v.Num? || (v.Str? && host.dateMillis(v.s).Some?)
  }

  /** `validateValueType`. An array of dates takes date strings only. */
  predicate AcceptsValue(def: FieldDef, v: Value, host: Host) {
    match def
    case PrimField(prim, _, _, _) => PrimAccepts(prim, v, host)
    case ArrayField(DateType, _, _, _) => v.Str? && host.dateMillis(v.s).Some?
    case ArrayField(elem, _, _, _) => PrimAccepts(elem, v, host)
    case ObjectArrayField(_, _, _, _, _) => false
    case ObjectField(_, _, _) => true
  }

  /** `validateOperator`: only the range operators are restricted. */
  predicate AcceptsOp(def: FieldDef, op: FieldOp) {
    IsRange(op) ==> def.PrimField? && (def.prim == IntType || def.prim == FloatType || def.prim == DateType)
  }

  /** The operator and operand a condition writes; `None` when it is an operator object with
      no operator or more than one. A `Date`, and an array, are objects to JavaScript. */
  function Operator(condition: Value): Option<(FieldOp, Value)> {
    match condition
    case Obj(fields) =>
      if |fields| == 1 then OnlyEntry(fields) else None
    case Arr(items) =>
      if |items| == 1 then Some((Unknown("0"), items[0])) else None
    case Date(_) => None
    case _ => Some((Eq, condition))
  }

  function OnlyEntry(fields: Record): Option<(FieldOp, Value)>
    requires |fields| == 1
  {
    OnlyKey(fields.Keys);
    var k :| k in fields;
    Some((OpOf(k), fields[k]))
  }

  lemma OnlyKey(keys: set<string>)
    requires |keys| == 1
    ensures exists k :: k in keys
    ensures forall j, k :: j in keys && k in keys ==> j == k
  {
    var k :| k in keys;
    assert |keys - {k}| == 0;
  }

  predicate IsFilterable(def: FieldDef) {
    !def.ObjectField? && def.filterable
  }

  /** `parseFieldCondition` */
  function ParseField(path: Path, condition: Value, schema: Schema, host: Host): Result<FilterNode> {
    var def := FieldAt(schema, path);
    var written := Operator(condition);
    if def.None? || !IsFilterable(def.value) || written.None? then Err
    else
      var (op, operand) := written.value;
      if !AcceptsOp(def.value, op) then Err
      else if op == In && (!operand.Arr? || exists v :: v in operand.items && !AcceptsValue(def.value, v, host)) then Err
      else if op != In && !AcceptsValue(def.value, operand, host) then Err
      else Ok(Field(path, op, operand))
  }

  /** `parseQuery`: every key of the query becomes one node, and the members of a logical list
      are flattened into one list of children. */
  function Parse(query: Query, schema: Schema, host: Host): Result<seq<FilterNode>>
    decreases query, 0
  {
    ParseMembers(query.members, schema, host)
  }

  /** The constructor: a filter may also name the universal fields. */
  function NewFilter(query: Query, schema: Schema, host: Host): Result<seq<FilterNode>> {
    Parse(query, UniversalFields() + schema, host)
  }

  function ParseMembers(members: seq<Member>, schema: Schema, host: Host): Result<seq<FilterNode>>
    decreases members, 0
  {
    if members == [] then Ok([])
    else
      var node :- ParseMember(members[0], schema, host);
      var rest :- ParseMembers(members[1..], schema, host);
      Ok([node] + rest)
  }

  function ParseMember(member: Member, schema: Schema, host: Host): Result<FilterNode>
    decreases member, 1
  {
    match member
    case FieldIs(path, condition) => ParseField(path, condition, schema, host)
    case NotAList(_) => Err
    case Logic(op, conditions) =>
      if conditions == [] then Err
      else
        var children :- ParseAll(conditions, schema, host);
        Ok(Logical(op, children))
  }

  function ParseAll(conditions: seq<Query>, schema: Schema, host: Host): Result<seq<FilterNode>>
    decreases conditions, 0
  {
    if conditions == [] then Ok([])
    else
      var first :- Parse(conditions[0], schema, host);
      var rest :- ParseAll(conditions[1..], schema, host);
      Ok(first + rest)
  }

  function Prepend(nodes: seq<FilterNode>, rest: Result<seq<FilterNode>>): Result<seq<FilterNode>> {
    if rest.Ok? then Ok(nodes + rest.value) else Err
  }

  lemma PrependTwice(a: seq<FilterNode>, b: seq<FilterNode>, rest: Result<seq<FilterNode>>)
    ensures Prepend(a, Prepend(b, rest)) == Prepend(a + b, rest)
    ensures Prepend([], rest) == rest
  {
    if rest.Ok? {
      assert a + (b + rest.value) == (a + b) + rest.value;
      assert [] + rest.value == rest.value;
    }
  }

  /** The loop of `parseQuery`, pushing one node per key. */
  method ParseQuery(query: Query, schema: Schema, host: Host) returns (parsed: Result<seq<FilterNode>>)
    ensures parsed == Parse(query, schema, host)
    decreases query, 1
  {
    var nodes: seq<FilterNode> := [];
    var members := query.members;
    PrependTwice([], [], ParseMembers(members, schema, host));
    assert members[0..] == members;
    for i := 0 to |members|
      invariant ParseMembers(members, schema, host) == Prepend(nodes, ParseMembers(members[i..], schema, host))
    {
      assert members[i..][1..] == members[i + 1..];
      ghost var rest := ParseMembers(members[i + 1..], schema, host);
      match members[i] {
        case FieldIs(path, condition) =>
          var node := ParseField(path, condition, schema, host);
          if node.Err? {
            return Err;
          }
          PrependTwice(nodes, [node.value], rest);
          nodes := nodes + [node.value];
        case NotAList(_) =>
          return Err;
        case Logic(op, conditions) =>
          if conditions == [] {
            return Err;
          }
          var children := FlatMapParse(conditions, schema, host);
          if children.Err? {
            return Err;
          }
          PrependTwice(nodes, [Logical(op, children.value)], rest);
          nodes := nodes + [Logical(op, children.value)];
      }
    }
    assert nodes + [] == nodes;
    return Ok(nodes);
  }

  method FlatMapParse(conditions: seq<Query>, schema: Schema, host: Host) returns (parsed: Result<seq<FilterNode>>)
    ensures parsed == ParseAll(conditions, schema, host)
    decreases conditions, 0
  {
    var nodes: seq<FilterNode> := [];
    PrependTwice([], [], ParseAll(conditions, schema, host));
    assert conditions[0..] == conditions;
    for i := 0 to |conditions|
      invariant ParseAll(conditions, schema, host) == Prepend(nodes, ParseAll(conditions[i..], schema, host))
    {
      assert conditions[i..][1..] == conditions[i + 1..];
      var first := ParseQuery(conditions[i], schema, host);
      if first.Err? {
        return Err;
      }
      PrependTwice(nodes, first.value, ParseAll(conditions[i + 1..], schema, host));
      nodes := nodes + first.value;
    }
    assert nodes + [] == nodes;
    return Ok(nodes);
  }

  // ---- Testing a record ----

  /** What a number is compared with: the parser takes numbers, and strings for dates; comparison with one that
      is no number is false. */
  function Number(v: Value, host: Host): Option<real> {
    match v
    case Num(n) => Some(n)
    case Str(s) => host.number(s)
    case _ => None
  }

  /** `testFieldCondition` on a field that is present. Array fields match by membership. */
  predicate TestValue(op: FieldOp, value: Value, actual: Value, host: Host) {
    match op
    case Eq => Contains(actual, value)
    case Ne => !Contains(actual, value)
    case Gt => actual.Num? && Number(value, host).Some? && actual.n > Number(value, host).value
    case Gte => actual.Num? && Number(value, host).Some? && actual.n >= Number(value, host).value
    case Lt => actual.Num? && Number(value, host).Some? && actual.n < Number(value, host).value
    case Lte => actual.Num? && Number(value, host).Some? && actual.n <= Number(value, host).value
    case In => value.Arr? && exists v :: v in value.items && Contains(actual, v)
    case Unknown(_) => false
  }

  predicate Contains(actual: Value, literal: Value) {
    if actual.Arr? then exists v :: v in actual.items && StrictEq(v, literal)
    else StrictEq(actual, literal)
  }

  predicate TestField(path: Path, op: FieldOp, value: Value, record: Record, host: Host) {
    var actual := Get(record, path);
    actual.Some? && TestValue(op, value, actual.value, host)
  }

  /** `testNode` */
  predicate TestNode(node: FilterNode, record: Record, host: Host) {
    match node
    case Field(path, op, value) => TestField(path, op, value, record, host)
    case Logical(And, conditions) => forall c :: c in conditions ==> TestNode(c, record, host)
    case Logical(Or, conditions) => exists c :: c in conditions && TestNode(c, record, host)
  }

  /** `test` */
  predicate Test(nodes: seq<FilterNode>, record: Record, host: Host) {
    forall node :: node in nodes ==> TestNode(node, record, host)
  }

  function Paths(node: FilterNode): set<Path> {
    match node
    case Field(path, _, _) => {path}
    case Logical(_, conditions) => set c, p | c in conditions && p in Paths(c) :: p
  }

  /** Only the fields a filter names decide it. */
  lemma {:induction false} TestDependsOnPaths(node: FilterNode, a: Record, b: Record, host: Host)
    requires AgreeOn(a, b, Paths(node))
    ensures TestNode(node, a, host) == TestNode(node, b, host)
  {
    match node
    case Field(path, _, _) =>
      assert path in Paths(node);
    case Logical(_, conditions) =>
      forall c | c in conditions
        ensures TestNode(c, a, host) == TestNode(c, b, host)
      {
        TestDependsOnPaths(c, a, b, host);
      }
  }

  /** A filter never stops matching because more fields become known: nothing is negated
      above a leaf, and an absent field fails every operator. */
  lemma {:induction false} TestIsMonotone(node: FilterNode, less: Record, more: Record, host: Host)
    requires forall p :: p in Paths(node) && Get(less, p).Some? ==> Get(more, p) == Get(less, p)
    ensures TestNode(node, less, host) ==> TestNode(node, more, host)
  {
    match node
    case Field(path, _, _) =>
      assert path in Paths(node);
    case Logical(_, conditions) =>
      forall c | c in conditions
        ensures TestNode(c, less, host) ==> TestNode(c, more, host)
      {
        forall p | p in Paths(c)
          ensures p in Paths(node)
        {
        }
        TestIsMonotone(c, less, more, host);
      }
  }
}
