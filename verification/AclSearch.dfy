/** A row constraint checked on one object, against the same constraint folded into a search. */
module AclSearch {
  import opened Values
  import opened Schemas
  import opened FilterQuery
  import opened SchemaValidator
  import opened EsMeaning
  import opened Views
  import opened QueryMeaning
  import opened AclStatements
  import opened Acl
  import opened AclMeaning
  import opened FilterFolding
  import M = ModelSchemas

  function Full(schema: Schema): Schema {
    UniversalFields() + schema
  }

  // ---- Constraints the database can read ----

  /** Dates are given as numbers. */
  predicate RuleIsPlain(rule: Rule, ctx: Context, schema: Schema) {
    IsDate(rule.field, schema) ==> forall v :: v in ResolveValues(rule.values, ctx) ==> !v.Str?
  }

  predicate IsPlain(condition: Condition, ctx: Context, schema: Schema) {
    forall r :: r in Rules(condition) ==> RuleIsPlain(r.1, ctx, schema)
  }

  predicate QueryIsPlain(query: Query, schema: Schema) {
    forall m :: m in query.members ==> MemberIsPlain(m, schema)
  }

  predicate MemberIsPlain(member: Member, schema: Schema) {
    match member
    case FieldIs(path, condition) =>
      var written := Operator(condition);
      written.Some? ==> !written.value.0.Unknown? && LeafIsPlain(path, written.value.0, written.value.1, schema)
    case Logic(_, conditions) => forall c :: c in conditions ==> QueryIsPlain(c, schema)
    case NotAList(_) => true
  }

  predicate AllPlain(nodes: seq<FilterNode>, schema: Schema) {
    forall n :: n in nodes ==> Plain(n, schema)
  }

  lemma {:induction false} ParsedIsPlain(query: Query, schema: Schema, host: Host)
    requires Parse(query, schema, host).Ok? && QueryIsPlain(query, schema)
    ensures AllPlain(Parse(query, schema, host).value, schema)
    decreases query, 0
  {
    ParsedMembersPlain(query.members, schema, host);
  }

  lemma {:induction false} ParsedMembersPlain(members: seq<Member>, schema: Schema, host: Host)
    requires ParseMembers(members, schema, host).Ok? && forall m :: m in members ==> MemberIsPlain(m, schema)
    ensures AllPlain(ParseMembers(members, schema, host).value, schema)
    decreases members, 0
  {
    if members != [] {
      assert members[0] in members;
      if members[0].Logic? {
        ParsedListPlain(members[0].conditions, schema, host);
      }
      assert Plain(ParseMember(members[0], schema, host).value, schema);
      ParsedMembersPlain(members[1..], schema, host);
    }
  }

  lemma {:induction false} ParsedListPlain(list: seq<Query>, schema: Schema, host: Host)
    requires ParseAll(list, schema, host).Ok? && forall c :: c in list ==> QueryIsPlain(c, schema)
    ensures AllPlain(ParseAll(list, schema, host).value, schema)
    decreases list, 1
  {
    if list != [] {
      ParsedIsPlain(list[0], schema, host);
      ParsedListPlain(list[1..], schema, host);
    }
  }

  lemma {:induction false} FieldFilterIsPlain(operator: ConditionOperator, rule: Rule, ctx: Context, schema: Schema)
    requires ResolveValues(rule.values, ctx) != [] && RuleIsPlain(rule, ctx, schema)
    ensures QueryIsPlain(FieldFilter(operator, rule.field, ResolveValues(rule.values, ctx)), schema)
  {
    var values := ResolveValues(rule.values, ctx);
    ResolvedAreScalars(rule.values, ctx);
    forall v | v in values
      ensures QueryIsPlain(NotEqual(rule.field, v), schema)
    {
      assert map["ne" := v].Keys == {"ne"};
      assert Operator(Obj(map["ne" := v])) == Some((Ne, v));
    }
    assert map["in" := Arr(values)].Keys == {"in"};
    assert Operator(Obj(map["in" := Arr(values)])) == Some((In, Arr(values)));
    assert values[0] in values && Operator(values[0]) == Some((Eq, values[0]));
    if !IsEquality(operator) && |values| > 1 {
      var parts := seq(|values|, i requires 0 <= i < |values| => NotEqual(rule.field, values[i]));
      forall q | q in parts
        ensures QueryIsPlain(q, schema)
      {
        var i :| 0 <= i < |parts| && parts[i] == q;
        assert values[i] in values;
      }
    }
  }

  lemma {:induction false} ResolvedAreScalars(raws: seq<Raw>, ctx: Context)
    ensures forall v :: v in ResolveValues(raws, ctx) ==> v.Str? || v.Num?
  {
    if raws != [] {
      ResolvedAreScalars(raws[1..], ctx);
    }
  }

  lemma {:induction false} FragmentsArePlain(rules: seq<Tagged>, ctx: Context, schema: Schema)
    requires FlatFragments(rules, ctx).Some? && forall r :: r in rules ==> RuleIsPlain(r.1, ctx, schema)
    ensures forall q :: q in FlatFragments(rules, ctx).value ==> QueryIsPlain(q, schema)
  {
    if rules != [] {
      FragmentsArePlain(rules[1..], ctx, schema);
      FieldFilterIsPlain(rules[0].0, rules[0].1, ctx, schema);
    }
  }

  lemma {:induction false} LoweredIsPlain(condition: Condition, ctx: Context, schema: Schema)
    requires Lower(condition, ctx).Some? && IsPlain(condition, ctx, schema)
    ensures QueryIsPlain(Lower(condition, ctx).value, schema)
  {
    ConditionIsFlat(condition, ctx);
    FragmentsArePlain(Rules(condition), ctx, schema);
  }

  /** A plain query of single keys, searched for: the database finds what the query means there. */
  lemma {:induction false} PlainIsFound(query: Query, schema: Schema, host: Host, record: Record, mapping: Mapping)
    requires NewFilter(query, schema, host).Ok? && SingleKeyOrs(query)
    requires QueryIsPlain(query, Full(schema)) && mapping.schema == Full(schema)
    ensures Found(query, schema, host, record, mapping) <==> Means(query, InDatabase(record, mapping))
  {
    var nodes := NewFilter(query, schema, host).value;
    ParsedIsPlain(query, Full(schema), host);
    forall n | n in nodes
      ensures Searchable(n, mapping)
    {
      PlainIsSearchable(n, mapping);
    }
    FindsAllThatHold(nodes, record, mapping);
    ParsedMeans(query, Full(schema), host, InDatabase(record, mapping));
  }

  /** The filter of a condition finds the records that meet its rules, with absent fields differing from
      every value. */
  lemma LoweredIsFound(condition: Condition, ctx: Context, schema: Schema, host: Host, record: Record, mapping: Mapping)
    requires Satisfiable(condition, ctx) && Compiles(condition, ctx, schema, host)
    requires IsPlain(condition, ctx, Full(schema)) && mapping.schema == Full(schema)
    ensures Lower(condition, ctx).Some?
    ensures Found(Lower(condition, ctx).value, schema, host, record, mapping)
       <==> ConditionHolds(condition, ctx, InDatabase(record, mapping))
  {
    LoweredMeans(condition, ctx, schema, host, InDatabase(record, mapping));
    LoweredIsPlain(condition, ctx, Full(schema));
    PlainIsFound(Lower(condition, ctx).value, schema, host, record, mapping);
  }

  // ---- Where the two part, record by record ----

  /** A rule that is found is met, or says that an absent field differs. */
  lemma {:induction false} FoundIsMetOrAbsent(operator: ConditionOperator, rule: Rule, ctx: Context, record: Record, mapping: Mapping)
    requires RuleIsPlain(rule, ctx, mapping.schema)
    ensures RuleFound(operator, rule, ctx, record, mapping)
       <==> || RuleMet(operator, rule, ctx, record)
            || (!IsEquality(operator) && Get(record, rule.field).None? && ResolveValues(rule.values, ctx) != [])
  {
    var values := ResolveValues(rule.values, ctx);
    ResolvedAreScalars(rule.values, ctx);
    forall v | v in values
      ensures Literal(rule.field, v, mapping) == Some(v)
      ensures Get(record, rule.field).Some? ==>
                (Contains(Get(record, rule.field).value, v) <==> HasTerm(IndexedValues(record, rule.field), v))
    {
      if Get(record, rule.field).Some? {
        ContainsIsHas(record, rule.field, v);
      }
    }
  }

  /** `{ status: { ne: "secret" } }`, as a role may grant: an object without a status is refused by the row
      check and found by the search. */
  lemma {:induction false} SearchFindsWhatIsRefused(schema: Schema, host: Host, record: Record, mapping: Mapping)
    requires mapping.schema == Full(schema) && FieldAt(Full(schema), ["status"]) == Some(PrimField(StringType, false, false, true))
    requires Get(record, ["status"]).None?
    ensures var constraint := NotEqual(["status"], Str("secret"));
            && DatabaseInput(None, None, None, Some(constraint)) == Some(constraint)
            && Found(constraint, schema, host, record, mapping)
            && EnforceRow(constraint, schema, host, Some(record)) == AccessDenied
  {
    var ctx := Context(None, None, None);
    SecretIsLowered(ctx, schema, host);
    LoweredIsFound(NotSecret(), ctx, schema, host, record, mapping);
    LoweredTests(NotSecret(), ctx, schema, host, record);
    AbsentIsFoundNotMet(NotSecretRule(), ctx, record, mapping);
  }

  function NotSecretRule(): Rule {
    Rule(["status"], [Text("secret")])
  }

  function NotSecret(): Condition {
    [Block(StringNotEquals, [NotSecretRule()])]
  }

  lemma SecretIsLowered(ctx: Context, schema: Schema, host: Host)
    requires FieldAt(Full(schema), ["status"]) == Some(PrimField(StringType, false, false, true))
    ensures Rules(NotSecret()) == [(StringNotEquals, NotSecretRule())] && ResolveValues(NotSecretRule().values, ctx) != []
    ensures Satisfiable(NotSecret(), ctx) && Compiles(NotSecret(), ctx, schema, host)
    ensures RuleIsPlain(NotSecretRule(), ctx, Full(schema)) && IsPlain(NotSecret(), ctx, Full(schema))
    ensures Lower(NotSecret(), ctx) == Some(NotEqual(["status"], Str("secret")))
  {
    SecretResolves(ctx);
    OneRule(StringNotEquals, NotSecretRule());
    OneFragment(StringNotEquals, NotSecretRule(), Str("secret"), ctx);
  }

  /** A plain inequality rule is found on a record without its field, and not met. */
  lemma {:induction false} AbsentIsFoundNotMet(rule: Rule, ctx: Context, record: Record, mapping: Mapping)
    requires RuleIsPlain(rule, ctx, mapping.schema) && Get(record, rule.field).None? && ResolveValues(rule.values, ctx) != []
    ensures RuleFound(StringNotEquals, rule, ctx, record, mapping) && !RuleMet(StringNotEquals, rule, ctx, record)
  {
    FoundIsMetOrAbsent(StringNotEquals, rule, ctx, record, mapping);
  }

  lemma {:induction false} SecretResolves(ctx: Context)
    ensures ResolveValues([Text("secret")], ctx) == [Str("secret")]
  {
    assert !("$nxx:" <= "secret") by {
      assert "$nxx:"[0] != "secret"[0];
    }
    assert [Text("secret")][1..] == [];
    assert ResolveValues([], ctx) == [];
  }

  lemma OneRule(operator: ConditionOperator, rule: Rule)
    ensures Rules([Block(operator, [rule])]) == [(operator, rule)]
  {
    assert [rule][1..] == [] && [Block(operator, [rule])][1..] == [];
    assert Tag(operator, [rule]) == [(operator, rule)] + Tag(operator, []);
    assert Rules([]) == [];
  }

  lemma {:induction false} OneFragment(operator: ConditionOperator, rule: Rule, value: Value, ctx: Context)
    requires ResolveValues(rule.values, ctx) == [value]
    ensures Fragments([Block(operator, [rule])], ctx) == Some([FieldFilter(operator, rule.field, [value])])
  {
    var fragment := FieldFilter(operator, rule.field, [value]);
    assert [rule][1..] == [] && [Block(operator, [rule])][1..] == [];
    assert [fragment] + [] == [fragment];
    assert BlockFragments(operator, [rule], ctx) == Some([fragment]);
  }

  // ---- When they never part ----

  function EqualFields(rules: seq<Tagged>): set<Path> {
    set r | r in rules && IsEquality(r.0) :: r.1.field
  }

  /** A conforming record that has the fields needed has this one: along the path every name is required and
      cannot be null, or leads to a field that is needed. */
  predicate Pinned(schema: Schema, path: Path, needed: set<Path>, names: set<string>)
    decreases path
  {
    path != [] && path[0] in schema &&
    var def, below := schema[path[0]], M.Tails(needed, path[0]);
    if |path| == 1 then MustHave(path[0], def, names) || below != {}
    else
      && def.ObjectField?
      && (below != {} || (MustHave(path[0], def, names) && !def.nullable))
      && Pinned(def.properties, path[1..], below, names)
  }

  /** The values of the equality rules, or of the inequality rules, on a field. */
  function ValuesOn(rules: seq<Tagged>, field: Path, equality: bool, ctx: Context): seq<Value> {
    if rules == [] then []
    else
      (if IsEquality(rules[0].0) == equality && rules[0].1.field == field then ResolveValues(rules[0].1.values, ctx) else [])
      + ValuesOn(rules[1..], field, equality, ctx)
  }

  lemma {:induction false} ValuesOnAre(rules: seq<Tagged>, field: Path, equality: bool, ctx: Context)
    ensures forall v :: v in ValuesOn(rules, field, equality, ctx) <==>
              exists r :: r in rules && IsEquality(r.0) == equality && r.1.field == field && v in ResolveValues(r.1.values, ctx)
  {
    if rules != [] {
      ValuesOnAre(rules[1..], field, equality, ctx);
      assert rules == [rules[0]] + rules[1..];
    }
  }

  lemma {:induction false} InValuesOn(rules: seq<Tagged>, r: Tagged, ctx: Context, v: Value)
    requires r in rules && v in ResolveValues(r.1.values, ctx)
    ensures v in ValuesOn(rules, r.1.field, IsEquality(r.0), ctx)
  {
    if rules[0] != r {
      InValuesOn(rules[1..], r, ctx, v);
    }
  }

  lemma {:induction false} ValuesOnAreScalars(rules: seq<Tagged>, field: Path, equality: bool, ctx: Context)
    ensures forall v :: v in ValuesOn(rules, field, equality, ctx) ==> v.Str? || v.Num?
  {
    if rules != [] {
      ResolvedAreScalars(rules[0].1.values, ctx);
      ValuesOnAreScalars(rules[1..], field, equality, ctx);
    }
  }

  predicate MeetsAll(rules: seq<Tagged>, field: Path, v: Value, ctx: Context) {
    forall r :: r in rules && IsEquality(r.0) && r.1.field == field ==> v in ResolveValues(r.1.values, ctx)
  }

  /** The value is of the type and no inequality rule on the field names it. */
  predicate Allowed(rules: seq<Tagged>, field: Path, v: Value, prim: PrimType, ctx: Context) {
    PrimConforms(v, prim) && v !in ValuesOn(rules, field, false, ctx)
  }

  predicate CanMeet(rules: seq<Tagged>, rule: Rule, ctx: Context, schema: Schema) {
    var values := ResolveValues(rule.values, ctx);
    match FieldAt(schema, rule.field)
    case Some(PrimField(prim, _, _, _)) =>
      exists v :: v in values && Allowed(rules, rule.field, v, prim, ctx) && MeetsAll(rules, rule.field, v, ctx)
    case Some(ArrayField(elem, _, _, _)) => exists v :: v in values && Allowed(rules, rule.field, v, elem, ctx)
    case _ => false
  }

  /** The equality rules do not contradict one another, nor the inequality rules on their fields. */
  predicate Attainable(rules: seq<Tagged>, ctx: Context, schema: Schema) {
    forall r :: r in rules && IsEquality(r.0) ==> CanMeet(rules, r.1, ctx, schema)
  }

  predicate IsLeaf(schema: Schema, path: Path) {
    FieldAt(schema, path).Some? && !FieldAt(schema, path).value.ObjectField?
  }

  /** Fields of a condition that compiles are primitives, or arrays of primitives. */
  lemma {:induction false} RuleFieldIsLeaf(rule: Rule, ctx: Context, schema: Schema, host: Host)
    requires RuleCompiles(rule, ctx, schema, host) && ResolveValues(rule.values, ctx) != []
    ensures IsLeaf(Full(schema), rule.field)
    ensures var def := FieldAt(Full(schema), rule.field).value; def.PrimField? || def.ArrayField?
  {
    var values := ResolveValues(rule.values, ctx);
    assert values[0] in values;
  }

  lemma {:induction false} PinnedIsPresent(record: Record, schema: Schema, exempt: set<string>, path: Path, needed: set<Path>,
                                           names: set<string>)
    requires ObjectConforms(Obj(record), schema, exempt, names)
    requires IsLeaf(schema, path) && forall n :: n in needed ==> IsLeaf(schema, n) && Get(record, n).Some?
    requires Pinned(schema, path, needed, names)
    ensures Get(record, path).Some?
    decreases path
  {
    var k := path[0];
    var def, below := schema[k], M.Tails(needed, k);
    if below != {} {
      var m :| m in below;
      var n :| n in needed && n != [] && n[0] == k && n[1..] == m;
      assert Get(record, n).Some? && IsLeaf(schema, n);
      assert |path| > 1 ==> |n| > 1 && record[k].Obj?;
    }
    if |path| > 1 {
      if below == {} {
        assert k in record && !record[k].Null? && Conforms(record[k], def, names);
      }
      assert record[k].Obj?;
      forall m | m in below
        ensures IsLeaf(def.properties, m) && Get(record[k].fields, m).Some?
      {
        var n :| n in needed && n != [] && n[0] == k && n[1..] == m;
        assert Get(record, n).Some?;
      }
      PinnedIsPresent(record[k].fields, def.properties, {}, path[1..], below, names);
    }
  }

  // ---- A record with nothing more than it must have ----

  predicate IsPresent(name: string, def: FieldDef, needed: set<Path>, names: set<string>) {
    MustHave(name, def, names) || M.Tails(needed, name) != {}
  }

  /** The least value of a definition that has the fields needed; `pick` gives its leaves. */
  function Least(def: FieldDef, prefix: Path, needed: set<Path>, names: set<string>, pick: (Path, FieldDef) -> Value): Value {
    match def
    case ObjectField(properties, _, _) =>
      Obj(map k | k in properties && IsPresent(k, properties[k], needed, names) ::
            if properties[k].ObjectField? && properties[k].nullable && M.Tails(needed, k) == {} then Null
            else Least(properties[k], prefix + [k], M.Tails(needed, k), names, pick))
    case _ => pick(prefix, def)
  }

  function LeastRecord(schema: Schema, prefix: Path, needed: set<Path>, names: set<string>, pick: (Path, FieldDef) -> Value): Record {
    Least(ObjectField(schema, false, false), prefix, needed, names, pick).fields
  }

  ghost predicate PicksConform(pick: (Path, FieldDef) -> Value, names: set<string>) {
    forall p, d: FieldDef :: !d.ObjectField? ==> !pick(p, d).Null? && Conforms(pick(p, d), d, names)
  }

  lemma {:induction false} LeastConforms(def: FieldDef, prefix: Path, needed: set<Path>, names: set<string>, pick: (Path,
                                         FieldDef) -> Value)
    requires PicksConform(pick, names)
    ensures Conforms(Least(def, prefix, needed, names, pick), def, names) && !Least(def, prefix, needed, names, pick).Null?
    decreases def
  {
    if def.ObjectField? {
      forall k | k in def.properties
        ensures var v := Least(def.properties[k], prefix + [k], M.Tails(needed, k), names, pick);
                Conforms(v, def.properties[k], names) && !v.Null?
      {
        LeastConforms(def.properties[k], prefix + [k], M.Tails(needed, k), names, pick);
      }
    }
  }

  /** It has a leaf exactly where every such record must. */
  lemma {:induction false} LeastAt(schema: Schema, prefix: Path, needed: set<Path>, names: set<string>, pick: (Path,
                                   FieldDef) -> Value, path: Path)
    requires IsLeaf(schema, path) && forall n :: n in needed ==> IsLeaf(schema, n)
    ensures Get(LeastRecord(schema, prefix, needed, names, pick), path)
         == if Pinned(schema, path, needed, names) then Some(pick(prefix + path, FieldAt(schema, path).value)) else None
    decreases path
  {
    var k := path[0];
    var def, below := schema[k], M.Tails(needed, k);
    var record := LeastRecord(schema, prefix, needed, names, pick);
    if |path| == 1 {
      assert path == [k] && FieldAt(schema, path) == Some(def);
      assert Least(def, prefix + [k], below, names, pick) == pick(prefix + path, def);
      if IsPresent(k, def, needed, names) {
        assert k in record && record[k] == pick(prefix + path, def);
      }
    } else {
      assert prefix + [k] + path[1..] == prefix + path by {
        assert path == [k] + path[1..];
      }
      forall m | m in below
        ensures IsLeaf(def.properties, m)
      {
        var n :| n in needed && n != [] && n[0] == k && n[1..] == m;
      }
      LeastAt(def.properties, prefix + [k], below, names, pick, path[1..]);
      var inner := LeastRecord(def.properties, prefix + [k], below, names, pick);
      assert Least(def, prefix + [k], below, names, pick) == Obj(inner);
      if IsPresent(k, def, needed, names) {
        assert k in record && record[k] == if def.nullable && below == {} then Null else Obj(inner);
      }
    }
  }

  // ---- The leaves of a record a search finds ----

  function Longest(values: seq<Value>): (n: nat)
    ensures forall v :: v in values && v.Str? ==> |v.s| <= n
  {
    if values == [] then 0
    else
      assert values == [values[0]] + values[1..];
      var rest := Longest(values[1..]);
      if values[0].Str? && |values[0].s| > rest then |values[0].s| else rest
  }

  function Largest(values: seq<Value>): (n: int)
    ensures forall v :: v in values && v.Num? ==> v.n.Floor <= n
  {
    if values == [] then 0
    else
      assert values == [values[0]] + values[1..];
      var rest := Largest(values[1..]);
      if values[0].Num? && values[0].n.Floor > rest then values[0].n.Floor else rest
  }

  /** A value of the type that is none of these. */
  function Fresh(prim: PrimType, values: seq<Value>): (v: Value)
    ensures PrimConforms(v, prim)
    ensures (forall w :: w in values ==> w.Str? || w.Num?) ==> v !in values
  {
    match prim
    case StringType => Str(seq(Longest(values) + 1, _ => 'x'))
    case BoolType => Bool(true)
    case _ =>
      var n := Largest(values) + 1;
      assert (n as real).Floor == n;
      Num(n as real)
  }

  function Filter(rules: seq<Tagged>, field: Path, values: seq<Value>, prim: PrimType, all: bool, ctx: Context): (kept: seq<Value>)
    ensures forall v :: v in kept <==>
              v in values && Allowed(rules, field, v, prim, ctx) && (all ==> MeetsAll(rules, field, v, ctx))
  {
    if values == [] then []
    else
      assert values == [values[0]] + values[1..];
      (if Allowed(rules, field, values[0], prim, ctx) && (all ==> MeetsAll(rules, field, values[0], ctx)) then [values[0]] else [])
      + Filter(rules, field, values[1..], prim, all, ctx)
  }

  /** A leaf that meets the rules on it, where some value does. */
  function Pick(rules: seq<Tagged>, ctx: Context, field: Path, def: FieldDef): Value {
    match def
    case PrimField(prim, _, _, _) =>
      var kept := Filter(rules, field, ValuesOn(rules, field, true, ctx), prim, true, ctx);
      if kept != [] then kept[0] else Fresh(prim, ValuesOn(rules, field, false, ctx))
    case ArrayField(elem, _, _, _) => Arr(Filter(rules, field, ValuesOn(rules, field, true, ctx), elem, false, ctx))
    case ObjectArrayField(_, _, _, _, _) => Arr([])
    case ObjectField(_, _, _) => Null
  }

  lemma PicksAreOfTheirTypes(rules: seq<Tagged>, ctx: Context, names: set<string>)
    ensures PicksConform((p, d) => Pick(rules, ctx, p, d), names)
  {
    forall p: Path, d: FieldDef | !d.ObjectField?
      ensures !Pick(rules, ctx, p, d).Null? && Conforms(Pick(rules, ctx, p, d), d, names)
    {
      if d.PrimField? {
        var kept := Filter(rules, p, ValuesOn(rules, p, true, ctx), d.prim, true, ctx);
        if kept != [] {
          assert kept[0] in kept;
        }
      }
    }
  }

  /** A picked leaf is found by the rules on it. */
  lemma {:induction false} PickIsFound(rules: seq<Tagged>, r: Tagged, ctx: Context, schema: Schema, record: Record, mapping: Mapping)
    requires r in rules && ResolveValues(r.1.values, ctx) != [] && IsLeaf(schema, r.1.field)
    requires FieldAt(schema, r.1.field).value.PrimField? || FieldAt(schema, r.1.field).value.ArrayField?
    requires RuleIsPlain(r.1, ctx, mapping.schema)
    requires IsEquality(r.0) ==> CanMeet(rules, r.1, ctx, schema)
    requires Get(record, r.1.field) == Some(Pick(rules, ctx, r.1.field, FieldAt(schema, r.1.field).value))
    ensures RuleFound(r.0, r.1, ctx, record, mapping)
  {
    FoundIsMetOrAbsent(r.0, r.1, ctx, record, mapping);
    var field, def := r.1.field, FieldAt(schema, r.1.field).value;
    if IsEquality(r.0) {
      PickEquals(rules, r, ctx, field, def, schema);
    } else {
      forall v | v in ResolveValues(r.1.values, ctx)
        ensures !Contains(Pick(rules, ctx, field, def), v)
      {
        InValuesOn(rules, r, ctx, v);
        PickDiffers(rules, ctx, field, def, v);
      }
    }
  }

  lemma {:induction false} PickEquals(rules: seq<Tagged>, r: Tagged, ctx: Context, field: Path, def: FieldDef, schema: Schema)
    requires r in rules && IsEquality(r.0) && r.1.field == field && FieldAt(schema, field) == Some(def)
    requires CanMeet(rules, r.1, ctx, schema)
    ensures exists v :: v in ResolveValues(r.1.values, ctx) && Contains(Pick(rules, ctx, field, def), v)
  {
    if def.PrimField? {
      var v :| v in ResolveValues(r.1.values, ctx) && Allowed(rules, field, v, def.prim, ctx) && MeetsAll(rules, field, v, ctx);
      InValuesOn(rules, r, ctx, v);
      PrimPickEquals(rules, r, ctx, field, def, v);
    } else {
      var v :| v in ResolveValues(r.1.values, ctx) && Allowed(rules, field, v, def.elem, ctx);
      InValuesOn(rules, r, ctx, v);
      ArrayPickContains(rules, ctx, field, def, v);
    }
  }

  lemma {:induction false} PrimPickEquals(rules: seq<Tagged>, r: Tagged, ctx: Context, field: Path, def: FieldDef, v: Value)
    requires def.PrimField? && r in rules && IsEquality(r.0) && r.1.field == field
    requires v in ValuesOn(rules, field, true, ctx) && Allowed(rules, field, v, def.prim, ctx) && MeetsAll(rules, field, v, ctx)
    ensures Pick(rules, ctx, field, def) in ResolveValues(r.1.values, ctx)
    ensures Contains(Pick(rules, ctx, field, def), Pick(rules, ctx, field, def))
  {
    var kept := Filter(rules, field, ValuesOn(rules, field, true, ctx), def.prim, true, ctx);
    assert v in kept && kept[0] in kept && MeetsAll(rules, field, kept[0], ctx);
    ResolvedAreScalars(r.1.values, ctx);
  }

  lemma {:induction false} ArrayPickContains(rules: seq<Tagged>, ctx: Context, field: Path, def: FieldDef, v: Value)
    requires def.ArrayField? && v in ValuesOn(rules, field, true, ctx) && Allowed(rules, field, v, def.elem, ctx)
    ensures Contains(Pick(rules, ctx, field, def), v)
  {
    ValuesOnAreScalars(rules, field, true, ctx);
    assert v in Filter(rules, field, ValuesOn(rules, field, true, ctx), def.elem, false, ctx);
  }

  lemma {:induction false} PickDiffers(rules: seq<Tagged>, ctx: Context, field: Path, def: FieldDef, v: Value)
    requires (def.PrimField? || def.ArrayField?) && v in ValuesOn(rules, field, false, ctx)
    ensures !Contains(Pick(rules, ctx, field, def), v)
  {
    ValuesOnAreScalars(rules, field, false, ctx);
    match def
    case PrimField(prim, _, _, _) =>
      PrimPickDiffers(rules, ctx, field, def, v);
    case ArrayField(elem, _, _, _) =>
      assert forall w :: w in Pick(rules, ctx, field, def).items ==> w != v;
  }

  lemma {:induction false} PrimPickDiffers(rules: seq<Tagged>, ctx: Context, field: Path, def: FieldDef, v: Value)
    requires def.PrimField? && v in ValuesOn(rules, field, false, ctx)
    requires forall w :: w in ValuesOn(rules, field, false, ctx) ==> w.Str? || w.Num?
    ensures Pick(rules, ctx, field, def) != v && !Pick(rules, ctx, field, def).Arr?
  {
    var kept := Filter(rules, field, ValuesOn(rules, field, true, ctx), def.prim, true, ctx);
    assert kept != [] ==> kept[0] in kept;
  }

  // ---- The exact condition ----

  /** The rules of a condition whose filter compiles and that the database can read. */
  ghost predicate AreUsable(rules: seq<Tagged>, ctx: Context, schema: Schema) {
    forall r :: r in rules ==>
      && ResolveValues(r.1.values, ctx) != [] && RuleIsPlain(r.1, ctx, schema)
      && IsLeaf(schema, r.1.field)
      && (FieldAt(schema, r.1.field).value.PrimField? || FieldAt(schema, r.1.field).value.ArrayField?)
  }

  ghost predicate AllFound(rules: seq<Tagged>, ctx: Context, record: Record, mapping: Mapping) {
    forall r :: r in rules ==> RuleFound(r.0, r.1, ctx, record, mapping)
  }

  /** Rules that some conforming record is found by do not contradict one another. */
  lemma FoundMeansAttainable(rules: seq<Tagged>, ctx: Context, record: Record, mapping: Mapping, names: set<string>)
    requires AreUsable(rules, ctx, mapping.schema) && RecordConforms(record, mapping.schema, names)
    requires AllFound(rules, ctx, record, mapping)
    ensures Attainable(rules, ctx, mapping.schema)
  {
    forall r | r in rules && IsEquality(r.0)
      ensures CanMeet(rules, r.1, ctx, mapping.schema)
    {
      FoundCanBeMet(rules, r, ctx, record, mapping, names);
    }
  }

  lemma FoundCanBeMet(rules: seq<Tagged>, r: Tagged, ctx: Context, record: Record, mapping: Mapping, names: set<string>)
    requires AreUsable(rules, ctx, mapping.schema) && RecordConforms(record, mapping.schema, names)
    requires AllFound(rules, ctx, record, mapping) && r in rules && IsEquality(r.0)
    ensures CanMeet(rules, r.1, ctx, mapping.schema)
  {
    var field := r.1.field;
    FoundIsMetOrAbsent(r.0, r.1, ctx, record, mapping);
    ConformingAt(record, mapping.schema, RESERVED, names, field);
    var actual := Get(record, field).value;
    var def := FieldAt(mapping.schema, field).value;
    var v :| v in ResolveValues(r.1.values, ctx) && Contains(actual, v);
    ResolvedAreScalars(r.1.values, ctx);
    ValuesOnAre(rules, field, false, ctx);
    forall q | q in rules && q.1.field == field
      ensures RuleMet(q.0, q.1, ctx, record)
    {
      FoundIsMetOrAbsent(q.0, q.1, ctx, record, mapping);
    }
    assert forall q :: q in rules && !IsEquality(q.0) && q.1.field == field ==> v !in ResolveValues(q.1.values, ctx);
  }

  /** The least record of the equality fields is conforming and found, and has of the rules' fields exactly
      those that every such record has. */
  lemma LeastIsFound(rules: seq<Tagged>, ctx: Context, mapping: Mapping, names: set<string>) returns (record: Record)
    requires AreUsable(rules, ctx, mapping.schema) && Attainable(rules, ctx, mapping.schema)
    ensures RecordConforms(record, mapping.schema, names) && AllFound(rules, ctx, record, mapping)
    ensures forall r :: r in rules ==>
              (Get(record, r.1.field).Some? <==> Pinned(mapping.schema, r.1.field, EqualFields(rules), names))
  {
    var schema, needed := mapping.schema, EqualFields(rules);
    var pick := (p, d) => Pick(rules, ctx, p, d);
    record := LeastRecord(schema, [], needed, names, pick);
    PicksAreOfTheirTypes(rules, ctx, names);
    LeastConforms(ObjectField(schema, false, false), [], needed, names, pick);
    forall n | n in needed
      ensures IsLeaf(schema, n)
    {
      var r :| r in rules && IsEquality(r.0) && r.1.field == n;
    }
    forall r | r in rules
      ensures RuleFound(r.0, r.1, ctx, record, mapping)
      ensures Get(record, r.1.field).Some? <==> Pinned(schema, r.1.field, needed, names)
    {
      LeastAt(schema, [], needed, names, pick, r.1.field);
      assert [] + r.1.field == r.1.field;
      if Pinned(schema, r.1.field, needed, names) {
        PickIsFound(rules, r, ctx, schema, record, mapping);
      } else {
        if IsEquality(r.0) {
          NeededIsPinned(schema, r.1.field, needed, names);
        }
        FoundIsMetOrAbsent(r.0, r.1, ctx, record, mapping);
      }
    }
  }

  lemma {:induction false} NeededIsPinned(schema: Schema, path: Path, needed: set<Path>, names: set<string>)
    requires path in needed && IsLeaf(schema, path)
    ensures Pinned(schema, path, needed, names)
    decreases path
  {
    assert path[1..] in M.Tails(needed, path[0]);
    if |path| > 1 {
      NeededIsPinned(schema[path[0]].properties, path[1..], M.Tails(needed, path[0]), names);
    }
  }

  /** The row check and the search say the same of the record. */
  ghost predicate SaySame(constraint: Query, schema: Schema, host: Host, record: Record, mapping: Mapping) {
    Accepts(constraint, schema, host, record) <==> Found(constraint, schema, host, record, mapping)
  }

  /** Every inequality rule is on a field that no conforming record with the fields of the equality rules lacks. */
  predicate AllPinned(rules: seq<Tagged>, schema: Schema, names: set<string>) {
    forall r :: r in rules && !IsEquality(r.0) ==> Pinned(schema, r.1.field, EqualFields(rules), names)
  }

  /** On a record that has the fields of the inequality rules, and wherever one of the rules is not found, the two
      agree; they part exactly on a record that is found while such a field is absent. */
  lemma {:induction false} PartOnAbsentFields(condition: Condition, ctx: Context, schema: Schema, host: Host, record: Record,
                                              mapping: Mapping)
    requires Satisfiable(condition, ctx) && Compiles(condition, ctx, schema, host)
    requires IsPlain(condition, ctx, Full(schema)) && mapping.schema == Full(schema)
    ensures Lower(condition, ctx).Some?
    ensures SaySame(Lower(condition, ctx).value, schema, host, record, mapping)
       <==> (AllFound(Rules(condition), ctx, record, mapping) ==>
               forall r :: r in Rules(condition) && !IsEquality(r.0) ==> Get(record, r.1.field).Some?)
    ensures Accepts(Lower(condition, ctx).value, schema, host, record) ==>
              Found(Lower(condition, ctx).value, schema, host, record, mapping)
  {
    var rules := Rules(condition);
    LoweredIsFound(condition, ctx, schema, host, record, mapping);
    LoweredTests(condition, ctx, schema, host, record);
    forall r | r in rules
      ensures RuleFound(r.0, r.1, ctx, record, mapping)
         <==> RuleMet(r.0, r.1, ctx, record) || (!IsEquality(r.0) && Get(record, r.1.field).None?)
    {
      FoundIsMetOrAbsent(r.0, r.1, ctx, record, mapping);
    }
  }

  /** The row check and the search agree on every conforming record if and only if the equality rules
      contradict one another, or every inequality rule is on a field that cannot be absent: one that is required,
      in objects that are required and not nullable, or that an equality rule calls for. */
  lemma {:induction false} SearchAgreesWithRowCheckIff(condition: Condition, ctx: Context, schema: Schema, host: Host,
                                                       mapping: Mapping, names: set<string>)
    requires Satisfiable(condition, ctx) && Compiles(condition, ctx, schema, host)
    requires IsPlain(condition, ctx, Full(schema)) && mapping.schema == Full(schema)
    ensures Lower(condition, ctx).Some?
    ensures (forall record :: RecordConforms(record, Full(schema), names) ==>
               SaySame(Lower(condition, ctx).value, schema, host, record, mapping))
       <==> (Attainable(Rules(condition), ctx, Full(schema)) ==> AllPinned(Rules(condition), Full(schema), names))
  {
    var rules := Rules(condition);
    PartOnAbsentFields(condition, ctx, schema, host, map[], mapping);
    forall r | r in rules
      ensures IsLeaf(Full(schema), r.1.field)
      ensures var def := FieldAt(Full(schema), r.1.field).value; def.PrimField? || def.ArrayField?
    {
      RuleFieldIsLeaf(r.1, ctx, schema, host);
    }
    if Attainable(rules, ctx, Full(schema)) && !AllPinned(rules, Full(schema), names) {
      var record := LeastIsFound(rules, ctx, mapping, names);
      PartOnAbsentFields(condition, ctx, schema, host, record, mapping);
      var r :| r in rules && !IsEquality(r.0) && !Pinned(Full(schema), r.1.field, EqualFields(rules), names);
      assert !SaySame(Lower(condition, ctx).value, schema, host, record, mapping);
    } else {
      forall record | RecordConforms(record, Full(schema), names)
        ensures SaySame(Lower(condition, ctx).value, schema, host, record, mapping)
      {
        PartOnAbsentFields(condition, ctx, schema, host, record, mapping);
        if AllFound(rules, ctx, record, mapping) {
          FoundMeansAttainable(rules, ctx, record, mapping, names);
          PinnedFieldsArePresent(rules, ctx, record, mapping, names);
        }
      }
    }
  }

  lemma {:induction false} PinnedFieldsArePresent(rules: seq<Tagged>, ctx: Context, record: Record, mapping: Mapping, names: set<string>)
    requires AreUsable(rules, ctx, mapping.schema) && RecordConforms(record, mapping.schema, names)
    requires AllFound(rules, ctx, record, mapping) && AllPinned(rules, mapping.schema, names)
    ensures forall r :: r in rules && !IsEquality(r.0) ==> Get(record, r.1.field).Some?
  {
    var needed := EqualFields(rules);
    forall n | n in needed
      ensures IsLeaf(mapping.schema, n) && Get(record, n).Some?
    {
      var r :| r in rules && IsEquality(r.0) && r.1.field == n;
      FoundIsMetOrAbsent(r.0, r.1, ctx, record, mapping);
    }
    forall r | r in rules && !IsEquality(r.0)
      ensures Get(record, r.1.field).Some?
    {
      PinnedIsPresent(record, mapping.schema, RESERVED, r.1.field, needed, names);
    }
  }

  // ---- The constraint of all roles ----

  predicate AllPlainFilters(filters: seq<Query>, schema: Schema) {
    forall q :: q in filters ==> QueryIsPlain(q, schema)
  }

  ghost predicate GrantsArePlain(statements: set<Statement>, action: Action, model: string, ctx: Context, schema: Schema) {
    forall s :: s in statements && Grants(s, action, model, ctx) ==> IsPlain(s.condition.value, ctx, schema)
  }

  lemma {:induction false} AnyOfIsPlain(filters: seq<Query>, schema: Schema)
    requires filters != [] && AllPlainFilters(filters, schema)
    ensures QueryIsPlain(AnyOf(filters), schema)
  {
    assert filters[0] in filters;
  }

  lemma {:induction false} RoleFiltersArePlain(roles: seq<Role>, action: Action, model: string, ctx: Context, schema: Schema)
    requires GrantsArePlain(Statements(roles), action, model, ctx, schema)
    ensures AllPlainFilters(RoleFilters(roles, action, model, ctx), schema)
    decreases |roles|
  {
    if roles != [] {
      var role, rest := roles[0], roles[1..];
      assert role in roles && forall r :: r in rest ==> r in roles;
      RoleFiltersArePlain(rest, action, model, ctx, schema);
      RowFiltersAsSet(role, action, model, ctx);
      VerdictOf(role, action, model, ctx);
      forall q | q in RowFilters(role, action, model, ctx)
        ensures QueryIsPlain(q, schema)
      {
        var s :| s in role && RowFilter(s, action, model, ctx) == Some(q);
        LoweredSome(s.condition.value, ctx);
        assert s in Statements(roles) && Grants(s, action, model, ctx);
        LoweredIsPlain(s.condition.value, ctx, schema);
      }
      if RowFilters(role, action, model, ctx) != [] {
        AnyOfIsPlain(RowFilters(role, action, model, ctx), schema);
      }
    }
  }

  /** A search under the constraint of a principal's roles finds exactly the records that some conditional Allow is
      found by. */
  lemma {:induction false} SearchFindsGranted(roles: seq<Role>, action: Action, model: string, ctx: Context, schema: Schema,
                                              host: Host, record: Record, mapping: Mapping)
    requires !IsDenied(Statements(roles), action, model) && !IsOpen(Statements(roles), action, model)
    requires RoleFilters(roles, action, model, ctx) != [] && AllCompile(Statements(roles), action, model, ctx, schema, host)
    requires GrantsArePlain(Statements(roles), action, model, ctx, Full(schema)) && mapping.schema == Full(schema)
    ensures Found(AnyOf(RoleFilters(roles, action, model, ctx)), schema, host, record, mapping)
       <==> SomeHolds(Statements(roles), action, model, ctx, InDatabase(record, mapping))
  {
    var filters := RoleFilters(roles, action, model, ctx);
    FiltersExist(roles, action, model, ctx);
    FiltersParse(roles, action, model, ctx, schema, host);
    FiltersMean(roles, action, model, ctx, InDatabase(record, mapping));
    AnyOfSingles(filters, Full(schema), host);
    RoleFiltersArePlain(roles, action, model, ctx, Full(schema));
    AnyOfIsPlain(filters, Full(schema));
    PlainIsFound(AnyOf(filters), schema, host, record, mapping);
  }

  /** What the row check lets through the search finds; and where every condition in play meets the exact condition,
      the search finds nothing else among conforming records. */
  lemma {:induction false} SearchAgreesWithGrants(roles: seq<Role>, action: Action, model: string, ctx: Context, schema: Schema,
                                                  host: Host, record: Record, mapping: Mapping, names: set<string>)
    requires !IsDenied(Statements(roles), action, model) && !IsOpen(Statements(roles), action, model)
    requires RoleFilters(roles, action, model, ctx) != [] && AllCompile(Statements(roles), action, model, ctx, schema, host)
    requires GrantsArePlain(Statements(roles), action, model, ctx, Full(schema)) && mapping.schema == Full(schema)
    ensures var constraint := AnyOf(RoleFilters(roles, action, model, ctx));
            && (EnforceRow(constraint, schema, host, Some(record)) == Passed ==> Found(constraint, schema, host, record, mapping))
            && (RecordConforms(record, Full(schema), names)
                && (forall s :: s in Statements(roles) && Grants(s, action, model, ctx) ==>
                      Attainable(Rules(s.condition.value), ctx, Full(schema)) ==> AllPinned(Rules(s.condition.value), Full(schema), names))
                ==> (EnforceRow(constraint, schema, host, Some(record)) == Passed <==> Found(constraint, schema, host, record, mapping)))
  {
    var statements, view := Statements(roles), InDatabase(record, mapping);
    RowCheck(roles, action, model, ctx, schema, host, record);
    SearchFindsGranted(roles, action, model, ctx, schema, host, record, mapping);
    forall s | s in statements && Grants(s, action, model, ctx)
      ensures ConditionMet(s.condition.value, ctx, record) ==> ConditionHolds(s.condition.value, ctx, view)
      ensures RecordConforms(record, Full(schema), names)
              && (Attainable(Rules(s.condition.value), ctx, Full(schema)) ==> AllPinned(Rules(s.condition.value), Full(schema), names))
              ==> (ConditionMet(s.condition.value, ctx, record) <==> ConditionHolds(s.condition.value, ctx, view))
    {
      ConditionAgrees(s.condition.value, ctx, schema, host, record, mapping, names);
    }
  }

  lemma ConditionAgrees(condition: Condition, ctx: Context, schema: Schema, host: Host, record: Record, mapping: Mapping, names: set<string>)
    requires Satisfiable(condition, ctx) && Compiles(condition, ctx, schema, host)
    requires IsPlain(condition, ctx, Full(schema)) && mapping.schema == Full(schema)
    ensures var view := InDatabase(record, mapping);
            && (ConditionMet(condition, ctx, record) ==> ConditionHolds(condition, ctx, view))
            && (RecordConforms(record, Full(schema), names)
                && (Attainable(Rules(condition), ctx, Full(schema)) ==> AllPinned(Rules(condition), Full(schema), names))
                ==> (ConditionMet(condition, ctx, record) <==> ConditionHolds(condition, ctx, view)))
  {
    PartOnAbsentFields(condition, ctx, schema, host, record, mapping);
    LoweredIsFound(condition, ctx, schema, host, record, mapping);
    LoweredTests(condition, ctx, schema, host, record);
    SearchAgreesWithRowCheckIff(condition, ctx, schema, host, mapping, names);
  }
}
