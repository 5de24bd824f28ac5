/** What a query says as written, and when the parsed filter says exactly that. */
module QueryMeaning {
  import opened Values
  import opened Schemas
  import opened FilterQuery
  import opened EsCompiler
  import opened EsMeaning
  import opened Views

  // ---- What a condition says, by the operator's name ----

  /** A literal equals a value, or an element of an array. */
  predicate Equals(actual: Value, literal: Value) {
    && !literal.Arr? && !literal.Obj? && !literal.Date?
    && (actual == literal || (actual.Arr? && literal in actual.items))
  }

  /** A number, or a text read as one, as a date may be written. */
  function Bound(literal: Value, host: Host): Option<real> {
    match literal
    case Num(n) => Some(n)
    case Str(s) => host.number(s)
    case _ => None
  }

  predicate Compares(name: string, actual: Value, operand: Value, host: Host) {
    match name
    case "eq" => Equals(actual, operand)
    case "ne" => !Equals(actual, operand)
    case "in" => operand.Arr? && exists v :: v in operand.items && Equals(actual, v)
    case "gt" => actual.Num? && Bound(operand, host).Some? && actual.n > Bound(operand, host).value
    case "gte" => actual.Num? && Bound(operand, host).Some? && actual.n >= Bound(operand, host).value
    case "lt" => actual.Num? && Bound(operand, host).Some? && actual.n < Bound(operand, host).value
    case "lte" => actual.Num? && Bound(operand, host).Some? && actual.n <= Bound(operand, host).value
    case _ => false
  }

  /** A literal, as the field reads it, is among the terms stored. */
  predicate IsStored(terms: seq<Value>, literal: Option<Value>) {
    && literal.Some? && (literal.value.Bool? || literal.value.Num? || literal.value.Str?)
    && literal.value in terms
  }

  predicate StoredCompares(name: string, terms: seq<Value>, path: Path, operand: Value, mapping: Mapping) {
    var literal := Literal(path, operand, mapping);
    match name
    case "eq" => IsStored(terms, literal)
    case "ne" => !IsStored(terms, literal)
    case "in" => operand.Arr? && exists v :: v in operand.items && IsStored(terms, Literal(path, v, mapping))
    case "gt" => literal.Some? && literal.value.Num? && exists t :: t in terms && t.Num? && t.n > literal.value.n
    case "gte" => literal.Some? && literal.value.Num? && exists t :: t in terms && t.Num? && t.n >= literal.value.n
    case "lt" => literal.Some? && literal.value.Num? && exists t :: t in terms && t.Num? && t.n < literal.value.n
    case "lte" => literal.Some? && literal.value.Num? && exists t :: t in terms && t.Num? && t.n <= literal.value.n
    case _ => false
  }

  predicate NamedHolds(name: string, path: Path, operand: Value, view: View) {
    match view
    case InMemory(record, host) => Get(record, path).Some? && Compares(name, Get(record, path).value, operand, host)
    case InDatabase(record, mapping) => StoredCompares(name, IndexedValues(record, path), path, operand, mapping)
  }

  /** A bare literal is compared for equality; `{ name: operand }` as its name says; anything else says nothing that
      holds. */
  ghost predicate ConditionMeans(path: Path, condition: Value, view: View) {
    match condition
    case Obj(fields) => exists name :: fields.Keys == {name} && NamedHolds(name, path, fields[name], view)
    case Arr(_) => false
    case Date(_) => false
    case _ => NamedHolds("eq", path, condition, view)
  }

  /** The name of an operator of the language. */
  function NameOf(op: FieldOp): string {
    match op
    case Eq => "eq"
    case Ne => "ne"
    case In => "in"
    case Gt => "gt"
    case Gte => "gte"
    case Lt => "lt"
    case Lte => "lte"
    case Unknown(name) => name
  }

  /** An operand the parser takes for a range operator is a bound. */
  predicate IsOperand(op: FieldOp, operand: Value) {
    IsRange(op) ==> operand.Num? || operand.Str?
  }

  /** The evaluation of a leaf is what its operator's name says. */
  lemma LeafIsNamed(path: Path, op: FieldOp, operand: Value, view: View)
    requires IsOperand(op, operand) && !op.Unknown?
    ensures LeafHolds(path, op, operand, view) <==> NamedHolds(NameOf(op), path, operand, view)
  {
    match view
    case InMemory(record, host) =>
      if Get(record, path).Some? {
        ComparesIsTest(op, Get(record, path).value, operand, host);
      }
    case InDatabase(record, mapping) =>
      StoredComparesIsMatch(op, path, operand, record, mapping);
  }

  lemma ComparesIsTest(op: FieldOp, actual: Value, operand: Value, host: Host)
    requires IsOperand(op, operand) && !op.Unknown?
    ensures TestValue(op, operand, actual, host) <==> Compares(NameOf(op), actual, operand, host)
  {
    forall v
      ensures Contains(actual, v) <==> Equals(actual, v)
    {
    }
  }

  lemma {:induction false} StoredComparesIsMatch(op: FieldOp, path: Path, operand: Value, record: Record, mapping: Mapping)
    requires !op.Unknown?
    ensures Matches(Leaf(path, op, operand), record, mapping)
       <==> StoredCompares(NameOf(op), IndexedValues(record, path), path, operand, mapping)
  {
    var terms := IndexedValues(record, path);
    forall v
      ensures HasLiteral(terms, v) <==> IsStored(terms, v)
    {
    }
  }

  lemma UnknownHoldsNowhere(path: Path, name: string, operand: Value, view: View)
    ensures !LeafHolds(path, Unknown(name), operand, view)
  {
  }

  lemma OperatorObjectMeans(path: Path, name: string, operand: Value, view: View)
    ensures ConditionMeans(path, Obj(map[name := operand]), view) <==> NamedHolds(name, path, operand, view)
  {
    var fields := map[name := operand];
    assert fields.Keys == {name} && fields[name] == operand;
    forall other | fields.Keys == {other}
      ensures other == name
    {
      assert other in fields.Keys;
    }
  }

  /** The parser keeps what a condition says. */
  lemma {:induction false} ParsedLeafMeans(path: Path, condition: Value, schema: Schema, host: Host, view: View)
    requires ParseField(path, condition, schema, host).Ok?
    ensures Holds(ParseField(path, condition, schema, host).value, view) <==> ConditionMeans(path, condition, view)
  {
    var node := ParseField(path, condition, schema, host).value;
    if condition.Obj? {
      var name :| name in condition.fields;
      OnlyKey(condition.fields.Keys);
      assert condition.fields.Keys == {name};
      assert node == Field(path, OpOf(name), condition.fields[name]);
      if node.op.Unknown? {
        UnknownHoldsNowhere(path, name, node.value, view);
      } else {
        LeafIsNamed(path, node.op, node.value, view);
      }
    } else if condition.Arr? {
      UnknownHoldsNowhere(path, "0", node.value, view);
    } else {
      LeafIsNamed(path, Eq, condition, view);
    }
  }

  /** A query object holds when every one of its keys holds; a member of a logical list is
      one condition, whatever its number of keys. */
  ghost predicate Means(query: Query, view: View) {
    forall m :: m in query.members ==> MemberMeans(m, view)
  }

  ghost predicate MemberMeans(member: Member, view: View) {
    match member
    case FieldIs(path, condition) => ConditionMeans(path, condition, view)
    case Logic(And, conditions) => forall c :: c in conditions ==> Means(c, view)
    case Logic(Or, conditions) => exists c :: c in conditions && Means(c, view)
    case NotAList(_) => false
  }

  /** Every member of an `$or` list, at any depth, has at least one key. */
  predicate NonEmptyOrs(query: Query) {
    forall m :: m in query.members ==> NonEmptyOrsIn(m)
  }

  predicate NonEmptyOrsIn(member: Member) {
    member.Logic? ==>
      forall c :: c in member.conditions ==> NonEmptyOrs(c) && (member.op == Or ==> c.members != [])
  }

  /** Every member of an `$or` list, at any depth, has exactly one key. */
  predicate SingleKeyOrs(query: Query) {
    forall m :: m in query.members ==> SingleKeyOrsIn(m)
  }

  predicate SingleKeyOrsIn(member: Member) {
    member.Logic? ==>
      forall c :: c in member.conditions ==> SingleKeyOrs(c) && (member.op == Or ==> |c.members| == 1)
  }

  /** The parsed filter holds wherever the written query does, and nowhere else when each `$or` member has
      one key: in memory and in the database alike. */
  lemma {:induction false} ParsedMeans(query: Query, schema: Schema, host: Host, view: View)
    requires Parse(query, schema, host).Ok?
    ensures NonEmptyOrs(query) && Means(query, view) ==> AllHold(Parse(query, schema, host).value, view)
    ensures SingleKeyOrs(query) ==> (AllHold(Parse(query, schema, host).value, view) <==> Means(query, view))
    decreases query, 0
  {
    ParsedMembersMean(query.members, schema, host, view);
  }

  lemma {:induction false} ParsedMembersMean(members: seq<Member>, schema: Schema, host: Host, view: View)
    requires ParseMembers(members, schema, host).Ok?
    ensures |ParseMembers(members, schema, host).value| == |members|
    ensures (forall m :: m in members ==> NonEmptyOrsIn(m) && MemberMeans(m, view)) ==>
              AllHold(ParseMembers(members, schema, host).value, view)
    ensures (forall m :: m in members ==> SingleKeyOrsIn(m)) ==>
              (AllHold(ParseMembers(members, schema, host).value, view) <==> forall m :: m in members ==> MemberMeans(m, view))
    decreases members, 0
  {
    if members != [] {
      ParsedMemberMeans(members[0], schema, host, view);
      ParsedMembersMean(members[1..], schema, host, view);
      assert members == [members[0]] + members[1..];
    }
  }

  lemma {:induction false} ParsedMemberMeans(member: Member, schema: Schema, host: Host, view: View)
    requires ParseMember(member, schema, host).Ok?
    ensures NonEmptyOrsIn(member) && MemberMeans(member, view) ==> Holds(ParseMember(member, schema, host).value, view)
    ensures SingleKeyOrsIn(member) ==>
              (Holds(ParseMember(member, schema, host).value, view) <==> MemberMeans(member, view))
    decreases member, 1
  {
    match member
    case FieldIs(path, condition) =>
      ParsedLeafMeans(path, condition, schema, host, view);
    case Logic(_, conditions) =>
      ParsedAndMeans(conditions, schema, host, view);
      ParsedOrMeans(conditions, schema, host, view);
  }

  ghost predicate AnyHolds(nodes: seq<FilterNode>, view: View) {
    exists node :: node in nodes && Holds(node, view)
  }

  /** Flattening keeps a conjunction as it is. */
  lemma {:induction false} ParsedAndMeans(list: seq<Query>, schema: Schema, host: Host, view: View)
    requires ParseAll(list, schema, host).Ok?
    ensures (forall c :: c in list ==> NonEmptyOrs(c) && Means(c, view)) ==> AllHold(ParseAll(list, schema, host).value, view)
    ensures (forall c :: c in list ==> SingleKeyOrs(c)) ==>
              (AllHold(ParseAll(list, schema, host).value, view) <==> forall c :: c in list ==> Means(c, view))
    decreases list, 1
  {
    if list != [] {
      ParsedMeans(list[0], schema, host, view);
      ParsedAndMeans(list[1..], schema, host, view);
      assert forall c :: c in list <==> c == list[0] || c in list[1..];
      var first := Parse(list[0], schema, host).value;
      var rest := ParseAll(list[1..], schema, host).value;
      assert AllHold(first + rest, view) <==> AllHold(first, view) && AllHold(rest, view);
    }
  }

  /** It keeps a disjunction only when each member is a single node. */
  lemma {:induction false} ParsedOrMeans(list: seq<Query>, schema: Schema, host: Host, view: View)
    requires ParseAll(list, schema, host).Ok?
    ensures (forall c :: c in list ==> NonEmptyOrs(c)) && (exists c :: c in list && c.members != [] && Means(c, view)) ==>
              AnyHolds(ParseAll(list, schema, host).value, view)
    ensures (forall c :: c in list ==> SingleKeyOrs(c) && |c.members| == 1) ==>
              (AnyHolds(ParseAll(list, schema, host).value, view) <==> exists c :: c in list && Means(c, view))
    ensures (exists c :: c in list && c.members != []) ==> ParseAll(list, schema, host).value != []
    decreases list, 1
  {
    if list != [] {
      ParsedMeans(list[0], schema, host, view);
      ParsedMembersMean(list[0].members, schema, host, view);
      ParsedOrMeans(list[1..], schema, host, view);
      assert forall c :: c in list <==> c == list[0] || c in list[1..];
      var first := Parse(list[0], schema, host).value;
      var rest := ParseAll(list[1..], schema, host).value;
      assert AnyHolds(first + rest, view) <==> AnyHolds(first, view) || AnyHolds(rest, view);
      assert ParseAll(list, schema, host).value == first + rest;
      if first != [] && AllHold(first, view) {
        assert first[0] in first;
      }
      if |first| == 1 {
        assert first == [first[0]];
      }
    }
  }

  /** A query tested in memory. */
  lemma {:induction false} ParsedMeaning(query: Query, schema: Schema, host: Host, record: Record)
    requires Parse(query, schema, host).Ok?
    ensures NonEmptyOrs(query) && Means(query, InMemory(record, host)) ==> Test(Parse(query, schema, host).value, record, host)
    ensures SingleKeyOrs(query) ==>
              (Test(Parse(query, schema, host).value, record, host) <==> Means(query, InMemory(record, host)))
  {
    ParsedMeans(query, schema, host, InMemory(record, host));
    AllHoldInMemory(Parse(query, schema, host).value, record, host);
  }

  // ---- When the flattened `$or` is the written one ----

  ghost predicate SomeMeans(conditions: seq<Query>, view: View) {
    exists c :: c in conditions && Means(c, view)
  }

  ghost predicate SomeKeyMeans(conditions: seq<Query>, view: View) {
    exists c, m :: c in conditions && m in c.members && MemberMeans(m, view)
  }

  lemma {:induction false} SomeKeyParsed(members: seq<Member>, schema: Schema, host: Host, view: View)
    requires ParseMembers(members, schema, host).Ok? && forall m :: m in members ==> SingleKeyOrsIn(m)
    ensures AnyHolds(ParseMembers(members, schema, host).value, view) <==> exists m :: m in members && MemberMeans(m, view)
  {
    if members != [] {
      ParsedMemberMeans(members[0], schema, host, view);
      SomeKeyParsed(members[1..], schema, host, view);
      assert members == [members[0]] + members[1..];
    }
  }

  /** What the parser makes of an `$or` list: one condition for each key of each member. */
  lemma {:induction false} ParsedOrIsFlatOr(conditions: seq<Query>, schema: Schema, host: Host, view: View)
    requires ParseAll(conditions, schema, host).Ok? && forall c :: c in conditions ==> SingleKeyOrs(c)
    ensures AnyHolds(ParseAll(conditions, schema, host).value, view) <==> SomeKeyMeans(conditions, view)
  {
    if conditions != [] {
      var rest := conditions[1..];
      assert conditions[0] in conditions;
      SomeKeyParsed(conditions[0].members, schema, host, view);
      ParsedOrIsFlatOr(rest, schema, host, view);
      assert forall c :: c in conditions <==> c == conditions[0] || c in rest;
      var nodes := Parse(conditions[0], schema, host).value;
      assert AnyHolds(nodes + ParseAll(rest, schema, host).value, view)
        <==> AnyHolds(nodes, view) || AnyHolds(ParseAll(rest, schema, host).value, view);
    }
  }

  function KeyCounts(conditions: seq<Query>): seq<nat> {
    seq(|conditions|, i requires 0 <= i < |conditions| => |conditions[i].members|)
  }

  function KeyName(m: Member): Path {
    match m
    case FieldIs(path, _) => path
    case Logic(op, _) => [if op == And then "$and" else "$or"]
    case NotAList(op) => [if op == And then "$and" else "$or"]
  }

  /** The members of an `$or` list with these numbers of keys: no key occurs twice, and the lists inside are
      themselves parsed as written. */
  ghost predicate IsOrList(conditions: seq<Query>, keys: seq<nat>) {
    && KeyCounts(conditions) == keys
    && forall c :: c in conditions ==>
         SingleKeyOrs(c) && forall i, j :: 0 <= i < j < |c.members| ==> KeyName(c.members[i]) != KeyName(c.members[j])
  }

  /** Where the list parses, the parsed `$or` tests what is written. */
  ghost predicate OrIsExact(conditions: seq<Query>, schema: Schema, host: Host, record: Record) {
    ParseAll(conditions, schema, host).Ok? ==>
      (TestNode(Logical(Or, ParseAll(conditions, schema, host).value), record, host)
       <==> SomeMeans(conditions, InMemory(record, host)))
  }

  /** For a list of members with these numbers of keys, the parsed `$or` is the written one under every schema
      and on every record if and only if each member has one key. */
  lemma OrIsExactIffSingleKeys(keys: seq<nat>, host: Host)
    ensures (forall conditions, schema, record :: IsOrList(conditions, keys) ==> OrIsExact(conditions, schema, host, record))
       <==> (forall n :: n in keys ==> n == 1)
  {
    if forall n :: n in keys ==> n == 1 {
      forall conditions, schema, record | IsOrList(conditions, keys)
        ensures OrIsExact(conditions, schema, host, record)
      {
        SingleKeysAreExact(conditions, keys, schema, host, record);
      }
    } else {
      var conditions, schema := Lists(keys), Wide(Widest(keys) + 2);
      var record := if 0 in keys then map[] else map[Name(0) := Num(1.0)];
      ListsAreOrLists(keys);
      ListsDisagree(keys, schema, host, record);
      assert IsOrList(conditions, keys) && !OrIsExact(conditions, schema, host, record);
    }
  }

  lemma SingleKeysAreExact(conditions: seq<Query>, keys: seq<nat>, schema: Schema, host: Host, record: Record)
    requires IsOrList(conditions, keys) && forall n :: n in keys ==> n == 1
    ensures OrIsExact(conditions, schema, host, record)
  {
    if ParseAll(conditions, schema, host).Ok? {
      var nodes := ParseAll(conditions, schema, host).value;
      forall c | c in conditions
        ensures |c.members| == 1
      {
        var i :| 0 <= i < |conditions| && conditions[i] == c;
        assert keys[i] in keys;
      }
      ParsedOrMeans(conditions, schema, host, InMemory(record, host));
      forall node | node in nodes
        ensures Holds(node, InMemory(record, host)) <==> TestNode(node, record, host)
      {
        HoldsInMemory(node, record, host);
      }
    }
  }

  // ---- Members of any number of keys that are not ----

  /** Distinct names: "a", "aa", "aaa" and so on. */
  function Name(j: nat): (name: string)
    ensures |name| == j + 1
  {
    if j == 0 then "a" else "a" + Name(j - 1)
  }

  function Wide(n: nat): (schema: Schema)
    ensures forall j :: 0 <= j < n ==> Name(j) in schema && schema[Name(j)] == PrimField(FloatType, false, false, true)
  {
    if n == 0 then map[] else Wide(n - 1)[Name(n - 1) := PrimField(FloatType, false, false, true)]
  }

  function Widest(keys: seq<nat>): (n: nat)
    ensures forall k :: k in keys ==> k <= n
  {
    if keys == [] then 0
    else
      assert keys == [keys[0]] + keys[1..];
      var rest := Widest(keys[1..]);
      if keys[0] > rest then keys[0] else rest
  }

  function IsOne(j: nat): Member {
    FieldIs([Name(j)], Num(1.0))
  }

  /** One key: "the second field is 1". Any other number: "the first is 1, the second is 1, ...". */
  function MemberOf(n: nat): (q: Query)
    ensures |q.members| == n
    ensures forall j :: 0 <= j < n ==> q.members[j] == IsOne(if n == 1 then 1 else j)
  {
    Query(seq(n, j requires 0 <= j < n => IsOne(if n == 1 then 1 else j)))
  }

  function Lists(keys: seq<nat>): (conditions: seq<Query>)
    ensures |conditions| == |keys| && forall i :: 0 <= i < |keys| ==> conditions[i] == MemberOf(keys[i])
  {
    seq(|keys|, i requires 0 <= i < |keys| => MemberOf(keys[i]))
  }

  lemma ListsAreOrLists(keys: seq<nat>)
    ensures IsOrList(Lists(keys), keys)
  {
    var conditions := Lists(keys);
    assert KeyCounts(conditions) == keys;
    forall c | c in conditions
      ensures SingleKeyOrs(c) && forall i, j :: 0 <= i < j < |c.members| ==> KeyName(c.members[i]) != KeyName(c.members[j])
    {
      var k :| 0 <= k < |conditions| && conditions[k] == c;
      forall m | m in c.members
        ensures SingleKeyOrsIn(m)
      {
        var j :| 0 <= j < |c.members| && c.members[j] == m;
      }
      forall i, j | 0 <= i < j < |c.members|
        ensures KeyName(c.members[i]) != KeyName(c.members[j])
      {
        assert |Name(i)| != |Name(j)|;
      }
    }
  }

  lemma {:induction false} MembersParse(members: seq<Member>, schema: Schema, host: Host)
    requires forall m :: m in members ==> ParseMember(m, schema, host).Ok?
    ensures ParseMembers(members, schema, host).Ok?
  {
    if members != [] {
      MembersParse(members[1..], schema, host);
    }
  }

  lemma {:induction false} ListsParse(keys: seq<nat>, n: nat, host: Host)
    requires n >= 2 && forall k :: k in keys ==> k <= n
    ensures ParseAll(Lists(keys), Wide(n), host).Ok?
  {
    if keys != [] {
      assert keys == [keys[0]] + keys[1..] && keys[0] in keys;
      assert Lists(keys)[1..] == Lists(keys[1..]);
      forall k | k in keys[1..]
        ensures k <= n
      {
        assert k in keys;
      }
      ListsParse(keys[1..], n, host);
      var q := MemberOf(keys[0]);
      forall m | m in q.members
        ensures ParseMember(m, Wide(n), host).Ok?
      {
        var j :| 0 <= j < |q.members| && q.members[j] == m;
        var name := Name(if keys[0] == 1 then 1 else j);
        assert FieldAt(Wide(n), [name]) == Some(PrimField(FloatType, false, false, true));
      }
      MembersParse(q.members, Wide(n), host);
    }
  }

  lemma {:induction false} IsOneMeans(j: nat, record: Record, host: Host)
    ensures MemberMeans(IsOne(j), InMemory(record, host)) <==> Name(j) in record && Contains(record[Name(j)], Num(1.0))
  {
    assert Get(record, [Name(j)]) == if Name(j) in record then Some(record[Name(j)]) else None;
    assert Operator(Num(1.0)) == Some((Eq, Num(1.0)));
  }

  lemma {:induction false} ListsTestSomeKey(keys: seq<nat>, schema: Schema, host: Host, record: Record)
    requires schema == Wide(Widest(keys) + 2)
    ensures OrIsExact(Lists(keys), schema, host, record)
       <==> (SomeKeyMeans(Lists(keys), InMemory(record, host)) <==> SomeMeans(Lists(keys), InMemory(record, host)))
  {
    var conditions, view := Lists(keys), InMemory(record, host);
    ListsParse(keys, Widest(keys) + 2, host);
    ListsAreOrLists(keys);
    ParsedOrIsFlatOr(conditions, schema, host, view);
    forall node | node in ParseAll(conditions, schema, host).value
      ensures Holds(node, view) <==> TestNode(node, record, host)
    {
      HoldsInMemory(node, record, host);
    }
  }

  lemma MembersOfLists(keys: seq<nat>, c: Query, m: Member) returns (n: nat, j: nat)
    requires c in Lists(keys) && m in c.members
    ensures n in keys && c == MemberOf(n) && j < n && m == IsOne(if n == 1 then 1 else j)
  {
    var k :| 0 <= k < |keys| && Lists(keys)[k] == c;
    n := keys[k];
    j :| 0 <= j < |c.members| && c.members[j] == m;
  }

  /** With an empty member they part on the record without fields; otherwise on the one whose first field is 1. */
  lemma {:induction false} ListsDisagree(keys: seq<nat>, schema: Schema, host: Host, record: Record)
    requires schema == Wide(Widest(keys) + 2) && exists n :: n in keys && n != 1
    requires record == if 0 in keys then map[] else map[Name(0) := Num(1.0)]
    ensures !OrIsExact(Lists(keys), schema, host, record)
  {
    ListsTestSomeKey(keys, schema, host, record);
    if 0 in keys {
      EmptyMemberDisagrees(keys, host);
    } else {
      WideMemberDisagrees(keys, host);
    }
  }

  lemma EmptyMemberDisagrees(keys: seq<nat>, host: Host)
    requires 0 in keys
    ensures SomeMeans(Lists(keys), InMemory(map[], host)) && !SomeKeyMeans(Lists(keys), InMemory(map[], host))
  {
    var view := InMemory(map[], host);
    var k :| 0 <= k < |keys| && keys[k] == 0;
    assert Lists(keys)[k] in Lists(keys) && Means(Lists(keys)[k], view);
    forall c, m | c in Lists(keys) && m in c.members
      ensures !MemberMeans(m, view)
    {
      var n, j := MembersOfLists(keys, c, m);
      IsOneMeans(if n == 1 then 1 else j, map[], host);
    }
  }

  lemma WideMemberDisagrees(keys: seq<nat>, host: Host)
    requires 0 !in keys && exists n :: n in keys && n != 1
    ensures var view := InMemory(map[Name(0) := Num(1.0)], host);
            SomeKeyMeans(Lists(keys), view) && !SomeMeans(Lists(keys), view)
  {
    var record := map[Name(0) := Num(1.0)];
    var view := InMemory(record, host);
    var n :| n in keys && n != 1;
    var k :| 0 <= k < |keys| && keys[k] == n;
    var wide := Lists(keys)[k];
    IsOneMeans(0, record, host);
    IsOneMeans(1, record, host);
    assert |Name(1)| != |Name(0)|;
    assert wide in Lists(keys) && wide.members[0] in wide.members && wide.members[0] == IsOne(0);
    forall c | c in Lists(keys)
      ensures !Means(c, view)
    {
      var i :| 0 <= i < |keys| && Lists(keys)[i] == c;
      assert keys[i] in keys;
      var m := c.members[if keys[i] == 1 then 0 else 1];
      assert m in c.members && m == IsOne(1);
    }
  }

  /** `{ $or: [ { a: 1, b: 2 } ] }` is parsed as "a is 1 or b is 2". */
  lemma {:induction false} TwoKeyOrWidens(host: Host)
    ensures var schema := map["a" := PrimField(IntType, false, false, true), "b" := PrimField(IntType, false, false, true)];
            var query := Query([Logic(Or, [Query([FieldIs(["a"], Num(1.0)), FieldIs(["b"], Num(2.0))])])]);
            var record := map["a" := Num(1.0)];
            && Parse(query, schema, host).Ok?
            && Test(Parse(query, schema, host).value, record, host)
            && !Means(query, InMemory(record, host))
  {
    var schema := map["a" := PrimField(IntType, false, false, true), "b" := PrimField(IntType, false, false, true)];
    var a := FieldIs(["a"], Num(1.0));
    var b := FieldIs(["b"], Num(2.0));
    var both := Query([a, b]);
    var query := Query([Logic(Or, [both])]);
    var record := map["a" := Num(1.0)];
    var na := Field(["a"], Eq, Num(1.0));
    var nb := Field(["b"], Eq, Num(2.0));
    assert 1.0.Floor as real == 1.0 && 2.0.Floor as real == 2.0;
    assert ParseMember(a, schema, host) == Ok(na);
    assert ParseMember(b, schema, host) == Ok(nb);
    assert [a, b][1..] == [b] && [b][1..] == [];
    assert [nb] + [] == [nb] && [na] + [nb] == [na, nb];
    assert ParseMembers([b], schema, host) == Ok([nb]);
    assert ParseMembers([a, b], schema, host) == Ok([na, nb]);
    assert [both][1..] == [];
    assert [na, nb] + [] == [na, nb];
    assert Parse(both, schema, host) == Ok([na, nb]);
    assert ParseAll([both], schema, host) == Ok([na, nb]);
    assert query.members[1..] == [];
    assert [Logical(Or, [na, nb])] + [] == [Logical(Or, [na, nb])];
    assert ParseMember(query.members[0], schema, host) == Ok(Logical(Or, [na, nb]));
    assert Parse(query, schema, host) == Ok([Logical(Or, [na, nb])]);
    assert TestNode(na, record, host);
    assert !MemberMeans(b, InMemory(record, host));
    assert b in both.members;
    assert !Means(both, InMemory(record, host));
    assert query.members[0] in query.members && !MemberMeans(query.members[0], InMemory(record, host));
  }
}
