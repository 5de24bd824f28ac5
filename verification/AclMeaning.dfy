/** What access control grants, said of the statements themselves, and that the engine with its
    lowered filters decides exactly that. */
module AclMeaning {
  import opened Values
  import opened Schemas
  import opened FilterQuery
  import opened EsCompiler
  import opened EsMeaning
  import opened Views
  import opened QueryMeaning
  import opened AclStatements
  import opened Acl

  // ---- What a condition says ----

  ghost predicate RuleMet(operator: ConditionOperator, rule: Rule, ctx: Context, record: Record) {
    var actual := Get(record, rule.field);
    var values := ResolveValues(rule.values, ctx);
    && actual.Some? && values != []
    && match operator
       case StringEquals => exists v :: v in values && Contains(actual.value, v)
       case NumericEquals => exists v :: v in values && Contains(actual.value, v)
       case StringNotEquals => forall v :: v in values ==> !Contains(actual.value, v)
       case NumericNotEquals => forall v :: v in values ==> !Contains(actual.value, v)
  }

  /** The same, as a search finds it: an absent field differs from every value. */
  ghost predicate RuleFound(operator: ConditionOperator, rule: Rule, ctx: Context, record: Record, mapping: Mapping) {
    var indexed := IndexedValues(record, rule.field);
    var values := ResolveValues(rule.values, ctx);
    && values != []
    && match operator
       case StringEquals => exists v :: v in values && HasLiteral(indexed, Literal(rule.field, v, mapping))
       case NumericEquals => exists v :: v in values && HasLiteral(indexed, Literal(rule.field, v, mapping))
       case StringNotEquals => forall v :: v in values ==> !HasLiteral(indexed, Literal(rule.field, v, mapping))
       case NumericNotEquals => forall v :: v in values ==> !HasLiteral(indexed, Literal(rule.field, v, mapping))
  }

  ghost predicate RuleHolds(operator: ConditionOperator, rule: Rule, ctx: Context, view: View) {
    match view
    case InMemory(record, _) => RuleMet(operator, rule, ctx, record)
    case InDatabase(record, mapping) => RuleFound(operator, rule, ctx, record, mapping)
  }

  /** All rules of a condition, each with its block's operator. */
  type Tagged = (ConditionOperator, Rule)

  function Tag(operator: ConditionOperator, rules: seq<Rule>): seq<Tagged> {
    if rules == [] then [] else [(operator, rules[0])] + Tag(operator, rules[1..])
  }

  function Rules(condition: Condition): seq<Tagged> {
    if condition == [] then [] else Tag(condition[0].operator, condition[0].rules) + Rules(condition[1..])
  }

  /** A condition holds when all of its rules do; one without a rule never does. */
  ghost predicate ConditionMet(condition: Condition, ctx: Context, record: Record) {
    Rules(condition) != [] && forall r :: r in Rules(condition) ==> RuleMet(r.0, r.1, ctx, record)
  }

  ghost predicate ConditionHolds(condition: Condition, ctx: Context, view: View) {
    Rules(condition) != [] && forall r :: r in Rules(condition) ==> RuleHolds(r.0, r.1, ctx, view)
  }

  /** Some value of every rule is known in this context. */
  predicate Satisfiable(condition: Condition, ctx: Context) {
    Rules(condition) != [] && forall r :: r in Rules(condition) ==> ResolveValues(r.1.values, ctx) != []
  }

  /** Every rule is on a filterable field, with values of its type. */
  predicate Compiles(condition: Condition, ctx: Context, schema: Schema, host: Host) {
    forall r :: r in Rules(condition) ==> RuleCompiles(r.1, ctx, schema, host)
  }

  predicate RuleCompiles(rule: Rule, ctx: Context, schema: Schema, host: Host) {
    var def := FieldAt(UniversalFields() + schema, rule.field);
    && def.Some? && IsFilterable(def.value)
    && forall v :: v in ResolveValues(rule.values, ctx) ==> AcceptsValue(def.value, v, host)
  }

  // ---- Queries with one key, whose parse says what they say ----

  predicate IsSingle(q: Query) {
    |q.members| == 1 && SingleKeyOrs(q)
  }

  predicate AllSingle(queries: seq<Query>) {
    forall q :: q in queries ==> IsSingle(q)
  }

  lemma {:induction false} ListParses(queries: seq<Query>, schema: Schema, host: Host)
    ensures ParseAll(queries, schema, host).Ok? <==> forall q :: q in queries ==> Parse(q, schema, host).Ok?
  {
    if queries != [] {
      var rest := queries[1..];
      ListParses(rest, schema, host);
      assert forall q :: q in queries <==> q == queries[0] || q in rest;
      assert ParseAll(queries, schema, host).Ok? <==> Parse(queries[0], schema, host).Ok? && ParseAll(rest, schema, host).Ok?;
      if ParseAll(queries, schema, host).Ok? {
        forall q | q in queries
          ensures Parse(q, schema, host).Ok?
        {
          if q != queries[0] {
            assert q in rest;
          }
        }
      } else if Parse(queries[0], schema, host).Ok? {
        var q :| q in rest && Parse(q, schema, host).Err?;
        assert q in queries;
      } else {
        assert queries[0] in queries;
      }
    }
  }

  lemma {:induction false} OneMember(m: Member, schema: Schema, host: Host)
    ensures Parse(Query([m]), schema, host).Ok? <==> ParseMember(m, schema, host).Ok?
    ensures forall view :: Means(Query([m]), view) <==> MemberMeans(m, view)
    ensures IsSingle(Query([m])) <==> SingleKeyOrsIn(m)
  {
    assert [m][1..] == [];
    assert ParseMembers([], schema, host) == Ok([]);
    assert ParseMembers([m], schema, host).Ok? <==> ParseMember(m, schema, host).Ok?;
    assert m in [m];
  }

  /** A logical list of single-key queries is itself a single-key query. */
  lemma {:induction false} SingleList(op: LogicOp, queries: seq<Query>, schema: Schema, host: Host)
    requires queries != [] && AllSingle(queries)
    ensures var q := Query([Logic(op, queries)]);
            && IsSingle(q)
            && (Parse(q, schema, host).Ok? <==> forall c :: c in queries ==> Parse(c, schema, host).Ok?)
            && (forall view :: Means(q, view) <==>
                  if op == And then forall c :: c in queries ==> Means(c, view)
                  else exists c :: c in queries && Means(c, view))
  {
    OneMember(Logic(op, queries), schema, host);
    ListParses(queries, schema, host);
  }

  lemma {:induction false} AnyOfSingles(filters: seq<Query>, schema: Schema, host: Host)
    requires filters != [] && AllSingle(filters)
    ensures var q := AnyOf(filters);
            && IsSingle(q)
            && (Parse(q, schema, host).Ok? <==> forall c :: c in filters ==> Parse(c, schema, host).Ok?)
            && (forall view :: Means(q, view) <==> exists c :: c in filters && Means(c, view))
  {
    SingleList(Or, filters, schema, host);
    if |filters| == 1 {
      assert filters == [filters[0]];
    }
  }

  // ---- Lowering ----

  predicate Differs(field: Path, v: Value, view: View) {
    match view
    case InMemory(record, _) => Get(record, field).Some? && !Contains(Get(record, field).value, v)
    case InDatabase(record, mapping) => !HasLiteral(IndexedValues(record, field), Literal(field, v, mapping))
  }

  const NO_HOST := Host(_ => None, _ => None, {})
  const NO_VIEW := InMemory(map[], NO_HOST)

  lemma {:induction false} NotEqualMeans(field: Path, v: Value, schema: Schema, host: Host)
    ensures IsSingle(NotEqual(field, v))
    ensures Parse(NotEqual(field, v), schema, host).Ok? <==>
              var def := FieldAt(schema, field); def.Some? && IsFilterable(def.value) && AcceptsValue(def.value, v, host)
    ensures forall view :: Means(NotEqual(field, v), view) <==> Differs(field, v, view)
  {
    var condition := Obj(map["ne" := v]);
    OneMember(FieldIs(field, condition), schema, host);
    assert condition.fields.Keys == {"ne"};
    assert Operator(condition) == Some((Ne, v));
    forall view: View
      ensures Means(NotEqual(field, v), view) <==> Differs(field, v, view)
    {
      OperatorObjectMeans(field, "ne", v, view);
      LeafIsNamed(field, Ne, v, view);
      if view.InDatabase? {
        assert Matches(MustNot(Term(field, v)), view.record, view.mapping) == !Matches(Term(field, v), view.record, view.mapping);
      }
    }
  }

  /** The filter of one rule. */
  lemma {:induction false} FieldFilterMeans(operator: ConditionOperator, rule: Rule, ctx: Context, schema: Schema, host: Host)
    requires ResolveValues(rule.values, ctx) != []
    ensures var q := FieldFilter(operator, rule.field, ResolveValues(rule.values, ctx));
            && IsSingle(q)
            && (Parse(q, UniversalFields() + schema, host).Ok? <==> RuleCompiles(rule, ctx, schema, host))
            && (forall view :: Means(q, view) <==> RuleHolds(operator, rule, ctx, view))
  {
    var values := ResolveValues(rule.values, ctx);
    if IsEquality(operator) && |values| == 1 {
      EqualsMeans(operator, rule, values[0], ctx, schema, host);
    } else if IsEquality(operator) {
      OneOfMeans(operator, rule, values, ctx, schema, host);
    } else if |values| == 1 {
      assert values == [values[0]];
      NotEqualMeans(rule.field, values[0], UniversalFields() + schema, host);
    } else {
      NotEqualsMean(rule, values, ctx, schema, host);
    }
  }

  lemma {:induction false} EqualsMeans(operator: ConditionOperator, rule: Rule, value: Value, ctx: Context, schema: Schema, host: Host)
    requires [value] == ResolveValues(rule.values, ctx) && IsEquality(operator)
    ensures var q := Query([FieldIs(rule.field, value)]);
            && IsSingle(q)
            && (Parse(q, UniversalFields() + schema, host).Ok? <==> RuleCompiles(rule, ctx, schema, host))
            && (forall view :: Means(q, view) <==> RuleHolds(operator, rule, ctx, view))
  {
    OneMember(FieldIs(rule.field, value), UniversalFields() + schema, host);
    ResolvedFrom(rule.values, ctx);
    assert value in [value];
    assert Operator(value) == Some((Eq, value));
    forall view
      ensures ConditionMeans(rule.field, value, view) <==> RuleHolds(operator, rule, ctx, view)
    {
      LeafIsNamed(rule.field, Eq, value, view);
    }
  }

  lemma {:induction false} OneOfMeans(operator: ConditionOperator, rule: Rule, values: seq<Value>, ctx: Context, schema: Schema, host: Host)
    requires values == ResolveValues(rule.values, ctx) && values != [] && IsEquality(operator)
    ensures var q := Query([FieldIs(rule.field, Obj(map["in" := Arr(values)]))]);
            && IsSingle(q)
            && (Parse(q, UniversalFields() + schema, host).Ok? <==> RuleCompiles(rule, ctx, schema, host))
            && (forall view :: Means(q, view) <==> RuleHolds(operator, rule, ctx, view))
  {
    var condition := Obj(map["in" := Arr(values)]);
    OneMember(FieldIs(rule.field, condition), UniversalFields() + schema, host);
    assert condition.fields.Keys == {"in"};
    assert Operator(condition) == Some((In, Arr(values)));
    forall view
      ensures ConditionMeans(rule.field, condition, view) <==> RuleHolds(operator, rule, ctx, view)
    {
      OperatorObjectMeans(rule.field, "in", Arr(values), view);
      LeafIsNamed(rule.field, In, Arr(values), view);
      OneOfHolds(operator, rule, values, ctx, view);
    }
  }

  lemma {:induction false} OneOfHolds(operator: ConditionOperator, rule: Rule, values: seq<Value>, ctx: Context, view: View)
    requires values == ResolveValues(rule.values, ctx) && IsEquality(operator)
    ensures LeafHolds(rule.field, In, Arr(values), view) <==> RuleHolds(operator, rule, ctx, view)
  {
    ResolvedFrom(rule.values, ctx);
  }

  lemma NotEqualParts(field: Path, values: seq<Value>)
    requires |values| > 1
    ensures var parts := FieldFilter(StringNotEquals, field, values).members[0].conditions;
            && |parts| == |values|
            && (forall v :: v in values ==> NotEqual(field, v) in parts)
            && forall c :: c in parts ==> exists v :: v in values && c == NotEqual(field, v)
  {
    var parts := FieldFilter(StringNotEquals, field, values).members[0].conditions;
    forall v | v in values
      ensures NotEqual(field, v) in parts
    {
      var i :| 0 <= i < |values| && values[i] == v;
      assert parts[i] == NotEqual(field, v);
    }
    forall c | c in parts
      ensures exists v :: v in values && c == NotEqual(field, v)
    {
      var i :| 0 <= i < |parts| && parts[i] == c;
      assert values[i] in values;
    }
  }

  lemma {:induction false} NotEqualsMean(rule: Rule, values: seq<Value>, ctx: Context, schema: Schema, host: Host)
    requires values == ResolveValues(rule.values, ctx) && |values| > 1
    ensures var q := FieldFilter(StringNotEquals, rule.field, values);
            && IsSingle(q)
            && (Parse(q, UniversalFields() + schema, host).Ok? <==> RuleCompiles(rule, ctx, schema, host))
            && (forall view :: Means(q, view) <==> RuleHolds(StringNotEquals, rule, ctx, view))
  {
    var all := UniversalFields() + schema;
    var parts := FieldFilter(StringNotEquals, rule.field, values).members[0].conditions;
    NotEqualParts(rule.field, values);
    forall v | v in values
      ensures IsSingle(NotEqual(rule.field, v))
      ensures Parse(NotEqual(rule.field, v), all, host).Ok? <==>
                var def := FieldAt(all, rule.field); def.Some? && IsFilterable(def.value) && AcceptsValue(def.value, v, host)
      ensures forall view :: Means(NotEqual(rule.field, v), view) <==> Differs(rule.field, v, view)
    {
      NotEqualMeans(rule.field, v, all, host);
    }
    SingleList(And, parts, all, host);
    assert values[0] in values;
  }

  // ---- A whole condition ----

  function FlatFragments(rules: seq<Tagged>, ctx: Context): Option<seq<Query>> {
    if rules == [] then Some([])
    else Join(RuleFragments(rules[0].0, rules[0].1, ctx), FlatFragments(rules[1..], ctx))
  }

  lemma {:induction false} FlatConcat(a: seq<Tagged>, b: seq<Tagged>, ctx: Context)
    ensures FlatFragments(a + b, ctx) == Join(FlatFragments(a, ctx), FlatFragments(b, ctx))
  {
    if a == [] {
      assert a + b == b;
      JoinLaws(FlatFragments(b, ctx), None, None);
    } else {
      assert (a + b)[1..] == a[1..] + b;
      FlatConcat(a[1..], b, ctx);
      JoinLaws(RuleFragments(a[0].0, a[0].1, ctx), FlatFragments(a[1..], ctx), FlatFragments(b, ctx));
    }
  }

  lemma {:induction false} BlockIsFlat(operator: ConditionOperator, rules: seq<Rule>, ctx: Context)
    ensures BlockFragments(operator, rules, ctx) == FlatFragments(Tag(operator, rules), ctx)
  {
    if rules != [] {
      BlockIsFlat(operator, rules[1..], ctx);
      assert Tag(operator, rules)[1..] == Tag(operator, rules[1..]);
    }
  }

  lemma {:induction false} ConditionIsFlat(condition: Condition, ctx: Context)
    ensures Fragments(condition, ctx) == FlatFragments(Rules(condition), ctx)
  {
    if condition != [] {
      ConditionIsFlat(condition[1..], ctx);
      BlockIsFlat(condition[0].operator, condition[0].rules, ctx);
      FlatConcat(Tag(condition[0].operator, condition[0].rules), Rules(condition[1..]), ctx);
    }
  }

  lemma {:induction false} AllOfMore(first: Query, others: seq<Query>, schema: Schema, host: Host, view: View)
    ensures (forall q :: q in [first] + others ==> Means(q, view))
       <==> Means(first, view) && forall q :: q in others ==> Means(q, view)
    ensures (forall q :: q in [first] + others ==> Parse(q, schema, host).Ok?)
       <==> Parse(first, schema, host).Ok? && forall q :: q in others ==> Parse(q, schema, host).Ok?
  {
    assert forall q :: q in [first] + others <==> q == first || q in others;
  }

  /** The fragments of a list of rules: none is missing when every rule has a value, they compile
      when the rules do, and they hold together of the records that meet every rule. */
  lemma {:induction false} FlatMeans(rules: seq<Tagged>, ctx: Context, schema: Schema, host: Host, view: View)
    ensures FlatFragments(rules, ctx).Some? <==> forall r :: r in rules ==> ResolveValues(r.1.values, ctx) != []
    ensures FlatFragments(rules, ctx).Some? ==>
              var fragments := FlatFragments(rules, ctx).value;
              && |fragments| == |rules| && AllSingle(fragments)
              && ((forall q :: q in fragments ==> Parse(q, UniversalFields() + schema, host).Ok?)
                  <==> forall r :: r in rules ==> RuleCompiles(r.1, ctx, schema, host))
              && ((forall q :: q in fragments ==> Means(q, view))
                  <==> forall r :: r in rules ==> RuleHolds(r.0, r.1, ctx, view))
  {
    if rules != [] {
      var rest := rules[1..];
      FlatMeans(rest, ctx, schema, host, view);
      assert forall r :: r in rules <==> r == rules[0] || r in rest;
      if ResolveValues(rules[0].1.values, ctx) != [] && FlatFragments(rest, ctx).Some? {
        FieldFilterMeans(rules[0].0, rules[0].1, ctx, schema, host);
        var first := FieldFilter(rules[0].0, rules[0].1.field, ResolveValues(rules[0].1.values, ctx));
        var others := FlatFragments(rest, ctx).value;
        assert FlatFragments(rules, ctx).value == [first] + others;
        AllOfMore(first, others, UniversalFields() + schema, host, view);
        assert (forall r :: r in rules ==> RuleHolds(r.0, r.1, ctx, view))
          <==> RuleHolds(rules[0].0, rules[0].1, ctx, view) && forall r :: r in rest ==> RuleHolds(r.0, r.1, ctx, view);
      }
    }
  }

  /** Lowering a condition keeps its meaning, and its filter compiles when its rules do. */
  lemma {:induction false} LoweredMeans(condition: Condition, ctx: Context, schema: Schema, host: Host, view: View)
    ensures Lower(condition, ctx).Some? <==> Satisfiable(condition, ctx)
    ensures Lower(condition, ctx).Some? ==>
              var q := Lower(condition, ctx).value;
              && IsSingle(q)
              && (Parse(q, UniversalFields() + schema, host).Ok? <==> Compiles(condition, ctx, schema, host))
              && (Means(q, view) <==> ConditionHolds(condition, ctx, view))
  {
    ConditionIsFlat(condition, ctx);
    FlatMeans(Rules(condition), ctx, schema, host, view);
    if Satisfiable(condition, ctx) {
      var fragments := Fragments(condition, ctx).value;
      SingleList(And, fragments, UniversalFields() + schema, host);
      if |fragments| == 1 {
        assert fragments == [fragments[0]];
      }
    }
  }

  /** The filter of a condition, compiled and tested, is the condition. */
  lemma LoweredTests(condition: Condition, ctx: Context, schema: Schema, host: Host, record: Record)
    requires Satisfiable(condition, ctx) && Compiles(condition, ctx, schema, host)
    ensures Lower(condition, ctx).Some? && NewFilter(Lower(condition, ctx).value, schema, host).Ok?
    ensures Test(NewFilter(Lower(condition, ctx).value, schema, host).value, record, host) <==> ConditionMet(condition, ctx, record)
  {
    LoweredMeans(condition, ctx, schema, host, InMemory(record, host));
    assert ConditionHolds(condition, ctx, InMemory(record, host)) <==> ConditionMet(condition, ctx, record);
    ParsedMeaning(Lower(condition, ctx).value, UniversalFields() + schema, host, record);
  }

  // ---- Roles ----

  /** All statements of the granted roles, in no order. */
  function Statements(roles: seq<Role>): set<Statement> {
    set r, s | r in roles && s in r :: s
  }

  ghost predicate IsDenied(statements: set<Statement>, action: Action, model: string) {
    exists s :: s in statements && Denies(s, action, model)
  }

  ghost predicate IsOpen(statements: set<Statement>, action: Action, model: string) {
    exists s :: s in statements && AllowsAll(s, action, model)
  }

  /** A conditional Allow for this action and model whose condition can be met in this context. */
  predicate Grants(s: Statement, action: Action, model: string, ctx: Context) {
    Applies(s, action, model) && s.allow && s.condition.Some? && Satisfiable(s.condition.value, ctx)
  }

  /** Some statement grants rows conditionally. */
  ghost predicate HasGrant(statements: set<Statement>, action: Action, model: string, ctx: Context) {
    exists s :: s in statements && Grants(s, action, model, ctx)
  }

  ghost predicate AllCompile(statements: set<Statement>, action: Action, model: string, ctx: Context, schema: Schema, host: Host) {
    forall s :: s in statements && Grants(s, action, model, ctx) ==> Compiles(s.condition.value, ctx, schema, host)
  }

  ghost predicate SomeMet(statements: set<Statement>, action: Action, model: string, ctx: Context, record: Record) {
    exists s :: s in statements && Grants(s, action, model, ctx) && ConditionMet(s.condition.value, ctx, record)
  }

  ghost predicate SomeHolds(statements: set<Statement>, action: Action, model: string, ctx: Context, view: View) {
    exists s :: s in statements && Grants(s, action, model, ctx) && ConditionHolds(s.condition.value, ctx, view)
  }

  /** What access control promises: no Deny, and an Allow without a condition or with one the object
      meets. All conditions in play must be ones the schema allows. */
  ghost predicate Permitted(statements: set<Statement>, action: Action, model: string, ctx: Context,
                            schema: Schema, host: Host, record: Option<Record>) {
    && !IsDenied(statements, action, model)
    && (|| IsOpen(statements, action, model)
        || (&& record.Some?
            && AllCompile(statements, action, model, ctx, schema, host)
            && SomeMet(statements, action, model, ctx, record.value)))
  }

  lemma {:induction false} SomeAsExists(role: Role, action: Action, model: string)
    ensures SomeDenies(role, action, model) <==> exists s :: s in role && Denies(s, action, model)
    ensures SomeAllowsAll(role, action, model) <==> exists s :: s in role && AllowsAll(s, action, model)
  {
    if role != [] {
      var rest := role[1..];
      SomeAsExists(rest, action, model);
      assert forall s :: s in role <==> s == role[0] || s in rest;
    }
  }

  /** The row filters of a role are those of its conditional Allows. */
  lemma {:induction false} RowFiltersAsSet(role: Role, action: Action, model: string, ctx: Context)
    ensures forall q :: q in RowFilters(role, action, model, ctx) <==>
              exists s :: s in role && RowFilter(s, action, model, ctx) == Some(q)
  {
    if role != [] {
      var rest := role[1..];
      RowFiltersAsSet(rest, action, model, ctx);
      assert forall s :: s in role <==> s == role[0] || s in rest;
    }
  }

  /** One role's verdict, said of its statements. */
  lemma {:induction false} VerdictOf(role: Role, action: Action, model: string, ctx: Context)
    ensures var v := RoleVerdict(role, action, model, ctx);
            && (v == Deny <==> exists s :: s in role && Denies(s, action, model))
            && (v == Allow(None) <==> v != Deny && exists s :: s in role && AllowsAll(s, action, model))
            && (v.Allow? && v.constraint.Some? ==>
                  RowFilters(role, action, model, ctx) != [] && v.constraint.value == AnyOf(RowFilters(role, action, model, ctx)))
            && (v == Neutral ==> RowFilters(role, action, model, ctx) == [])
  {
    SomeAsExists(role, action, model);
    assert [] + RowFilters(role, action, model, ctx) == RowFilters(role, action, model, ctx);
  }

  lemma {:induction false} HasVerdictAsExists(roles: seq<Role>, v: Verdict, action: Action, model: string, ctx: Context)
    ensures HasVerdict(roles, v, action, model, ctx) <==> exists r :: r in roles && RoleVerdict(r, action, model, ctx) == v
  {
    if roles != [] {
      var rest := roles[1..];
      HasVerdictAsExists(rest, v, action, model, ctx);
      assert forall r :: r in roles <==> r == roles[0] || r in rest;
    }
  }

  /** The row filter a role contributes: single-key, compiling when its conditions do, and holding of
      the records that meet one of them. */
  lemma {:induction false} RoleFilterMeans(role: Role, action: Action, model: string, ctx: Context, schema: Schema, host: Host, view: View)
    requires RowFilters(role, action, model, ctx) != []
    ensures var q := AnyOf(RowFilters(role, action, model, ctx));
            && IsSingle(q)
            && (Parse(q, UniversalFields() + schema, host).Ok? <==>
                  forall s :: s in role && Grants(s, action, model, ctx) ==> Compiles(s.condition.value, ctx, schema, host))
            && (Means(q, view) <==>
                  exists s :: s in role && Grants(s, action, model, ctx) && ConditionHolds(s.condition.value, ctx, view))
  {
    var filters := RowFilters(role, action, model, ctx);
    var all := UniversalFields() + schema;
    RowFiltersAsSet(role, action, model, ctx);
    forall s | s in role && Grants(s, action, model, ctx)
      ensures RowFilter(s, action, model, ctx).Some? && RowFilter(s, action, model, ctx).value in filters
      ensures var q := RowFilter(s, action, model, ctx).value;
              && (Parse(q, all, host).Ok? <==> Compiles(s.condition.value, ctx, schema, host))
              && (Means(q, view) <==> ConditionHolds(s.condition.value, ctx, view))
    {
      LoweredMeans(s.condition.value, ctx, schema, host, view);
    }
    forall q | q in filters
      ensures IsSingle(q)
      ensures exists s :: s in role && Grants(s, action, model, ctx) && RowFilter(s, action, model, ctx) == Some(q)
    {
      var s :| s in role && RowFilter(s, action, model, ctx) == Some(q);
      LoweredMeans(s.condition.value, ctx, schema, host, view);
      assert Grants(s, action, model, ctx);
    }
    AnyOfSingles(filters, all, host);
  }

  /** Deny and unconditional Allow, over all roles. */
  lemma {:induction false} FlagsOf(roles: seq<Role>, action: Action, model: string, ctx: Context)
    ensures HasVerdict(roles, Deny, action, model, ctx) <==> IsDenied(Statements(roles), action, model)
    ensures !IsDenied(Statements(roles), action, model) ==>
              (HasVerdict(roles, Allow(None), action, model, ctx) <==> IsOpen(Statements(roles), action, model))
  {
    HasVerdictAsExists(roles, Deny, action, model, ctx);
    HasVerdictAsExists(roles, Allow(None), action, model, ctx);
    forall r | r in roles
      ensures RoleVerdict(r, action, model, ctx) == Deny <==> exists s :: s in r && Denies(s, action, model)
      ensures RoleVerdict(r, action, model, ctx) == Allow(None)
         <==> RoleVerdict(r, action, model, ctx) != Deny && exists s :: s in r && AllowsAll(s, action, model)
    {
      VerdictOf(r, action, model, ctx);
    }
  }

  function Of(role: Role): set<Statement> {
    set s | s in role
  }

  predicate AllParse(filters: seq<Query>, schema: Schema, host: Host) {
    forall q :: q in filters ==> NewFilter(q, schema, host).Ok?
  }

  ghost predicate AnyMeans(filters: seq<Query>, view: View) {
    exists q :: q in filters && Means(q, view)
  }

  function OwnFilters(role: Role, action: Action, model: string, ctx: Context): seq<Query> {
    var v := RoleVerdict(role, action, model, ctx);
    if v.Allow? && v.constraint.Some? then [v.constraint.value] else []
  }

  /** A role that neither denies nor is open contributes a filter exactly when it grants something. */
  lemma {:induction false} OwnFilterOf(role: Role, action: Action, model: string, ctx: Context)
    requires !IsDenied(Of(role), action, model) && !IsOpen(Of(role), action, model)
    ensures HasGrant(Of(role), action, model, ctx) <==> RowFilters(role, action, model, ctx) != []
    ensures OwnFilters(role, action, model, ctx)
         == var filters := RowFilters(role, action, model, ctx); if filters == [] then [] else [AnyOf(filters)]
  {
    VerdictOf(role, action, model, ctx);
    forall s | s in role
      ensures !Denies(s, action, model) && !AllowsAll(s, action, model)
    {
      assert s in Of(role);
    }
    GrantIsFilter(role, action, model, ctx);
  }

  lemma {:induction false} GrantIsFilter(role: Role, action: Action, model: string, ctx: Context)
    ensures HasGrant(Of(role), action, model, ctx) <==> RowFilters(role, action, model, ctx) != []
  {
    var filters := RowFilters(role, action, model, ctx);
    RowFiltersAsSet(role, action, model, ctx);
    forall s
      ensures Grants(s, action, model, ctx) <==> RowFilter(s, action, model, ctx).Some?
    {
      if s.condition.Some? {
        LoweredSome(s.condition.value, ctx);
      }
    }
    if HasGrant(Of(role), action, model, ctx) {
      var s :| s in Of(role) && Grants(s, action, model, ctx);
      assert RowFilter(s, action, model, ctx).value in filters;
    }
    if filters != [] {
      assert filters[0] in filters;
    }
  }

  lemma LoweredSome(condition: Condition, ctx: Context)
    ensures Lower(condition, ctx).Some? <==> Satisfiable(condition, ctx)
  {
    LoweredMeans(condition, ctx, map[], NO_HOST, NO_VIEW);
  }

  /** Over all roles: whether there are filters, and of what kind. */
  lemma {:induction false} FiltersExist(roles: seq<Role>, action: Action, model: string, ctx: Context)
    requires !IsDenied(Statements(roles), action, model) && !IsOpen(Statements(roles), action, model)
    ensures RoleFilters(roles, action, model, ctx) != [] <==> HasGrant(Statements(roles), action, model, ctx)
    ensures AllSingle(RoleFilters(roles, action, model, ctx))
    decreases |roles|
  {
    if roles == [] {
      assert Statements(roles) == {};
    } else {
      var first, rest := roles[0], roles[1..];
      SplitRoles(roles, action, model);
      FiltersExist(rest, action, model, ctx);
      OwnFilterOf(first, action, model, ctx);
      if RowFilters(first, action, model, ctx) != [] {
        RoleFilterMeans(first, action, model, ctx, map[], NO_HOST, NO_VIEW);
      }
    }
  }

  lemma SplitRoles(roles: seq<Role>, action: Action, model: string)
    requires roles != [] && !IsDenied(Statements(roles), action, model) && !IsOpen(Statements(roles), action, model)
    ensures Statements(roles) == Of(roles[0]) + Statements(roles[1..])
    ensures !IsDenied(Of(roles[0]), action, model) && !IsOpen(Of(roles[0]), action, model)
    ensures !IsDenied(Statements(roles[1..]), action, model) && !IsOpen(Statements(roles[1..]), action, model)
  {
  }

  /** They compile when the conditions in play do. */
  lemma {:induction false} FiltersParse(roles: seq<Role>, action: Action, model: string, ctx: Context, schema: Schema, host: Host)
    requires !IsDenied(Statements(roles), action, model) && !IsOpen(Statements(roles), action, model)
    ensures AllParse(RoleFilters(roles, action, model, ctx), schema, host)
       <==> AllCompile(Statements(roles), action, model, ctx, schema, host)
    decreases |roles|
  {
    if roles == [] {
      assert Statements(roles) == {};
    } else {
      var first, rest := roles[0], roles[1..];
      SplitRoles(roles, action, model);
      FiltersParse(rest, action, model, ctx, schema, host);
      OwnFilterParses(first, action, model, ctx, schema, host);
      UnionCompiles(Of(first), Statements(rest), action, model, ctx, schema, host);
      ParseConcat(OwnFilters(first, action, model, ctx), RoleFilters(rest, action, model, ctx), schema, host);
    }
  }

  lemma ParseConcat(f: seq<Query>, g: seq<Query>, schema: Schema, host: Host)
    ensures AllParse(f + g, schema, host) <==> AllParse(f, schema, host) && AllParse(g, schema, host)
  {
  }

  lemma OwnFilterParses(role: Role, action: Action, model: string, ctx: Context, schema: Schema, host: Host)
    requires !IsDenied(Of(role), action, model) && !IsOpen(Of(role), action, model)
    ensures AllParse(OwnFilters(role, action, model, ctx), schema, host)
       <==> AllCompile(Of(role), action, model, ctx, schema, host)
  {
    OwnFilterOf(role, action, model, ctx);
    NoGrant(Of(role), action, model, ctx, schema, host);
    var filters := RowFilters(role, action, model, ctx);
    if filters != [] {
      RoleFilterMeans(role, action, model, ctx, schema, host, NO_VIEW);
      assert AnyOf(filters) in [AnyOf(filters)];
      assert forall s :: s in role <==> s in Of(role);
    }
  }

  lemma UnionCompiles(a: set<Statement>, b: set<Statement>, action: Action, model: string, ctx: Context, schema: Schema, host: Host)
    ensures AllCompile(a + b, action, model, ctx, schema, host)
       <==> AllCompile(a, action, model, ctx, schema, host) && AllCompile(b, action, model, ctx, schema, host)
  {
  }

  /** And one of them holds of a record exactly when it meets one of those conditions. */
  lemma {:induction false} FiltersMean(roles: seq<Role>, action: Action, model: string, ctx: Context, view: View)
    requires !IsDenied(Statements(roles), action, model) && !IsOpen(Statements(roles), action, model)
    ensures AnyMeans(RoleFilters(roles, action, model, ctx), view) <==> SomeHolds(Statements(roles), action, model, ctx, view)
    decreases |roles|
  {
    if roles == [] {
      assert Statements(roles) == {};
    } else {
      var first, rest := roles[0], roles[1..];
      SplitRoles(roles, action, model);
      FiltersMean(rest, action, model, ctx, view);
      OwnFilterOf(first, action, model, ctx);
      var own := OwnFilters(first, action, model, ctx);
      OwnFiltersMean(first, action, model, ctx, view);
      UnionMet(Of(first), Statements(rest), action, model, ctx, view);
      assert RoleFilters(roles, action, model, ctx) == own + RoleFilters(rest, action, model, ctx);
    }
  }

  lemma OwnFiltersMean(role: Role, action: Action, model: string, ctx: Context, view: View)
    requires !IsDenied(Of(role), action, model) && !IsOpen(Of(role), action, model)
    ensures AnyMeans(OwnFilters(role, action, model, ctx), view) <==> SomeHolds(Of(role), action, model, ctx, view)
  {
    OwnFilterOf(role, action, model, ctx);
    if OwnFilters(role, action, model, ctx) != [] {
      RoleFilterMeans(role, action, model, ctx, map[], NO_HOST, view);
    }
  }

  lemma UnionMet(a: set<Statement>, b: set<Statement>, action: Action, model: string, ctx: Context, view: View)
    ensures SomeHolds(a + b, action, model, ctx, view)
       <==> SomeHolds(a, action, model, ctx, view) || SomeHolds(b, action, model, ctx, view)
  {
  }

  function ContextOf(userType: Option<string>, userId: Option<string>, appId: string): Context {
    Context(userId, Some(EffectiveType(userType)), Some(appId))
  }

  function EffectiveType(userType: Option<string>): string {
    if userType.Some? then userType.value else "default"
  }

  /** The grant, said of the statements. */
  lemma {:induction false} GrantOf(roles: seq<Role>, action: Action, model: string, ctx: Context)
    ensures var statements := Statements(roles);
            && (IsDenied(statements, action, model) ==> Resolve(roles, action, model, ctx) == Refused)
            && (!IsDenied(statements, action, model) && IsOpen(statements, action, model) ==>
                  Resolve(roles, action, model, ctx) == Granted(None))
            && (!IsDenied(statements, action, model) && !IsOpen(statements, action, model) ==>
                  if HasGrant(statements, action, model, ctx)
                  then RoleFilters(roles, action, model, ctx) != []
                       && Resolve(roles, action, model, ctx) == Granted(Some(AnyOf(RoleFilters(roles, action, model, ctx))))
                  else Resolve(roles, action, model, ctx) == Refused)
  {
    FlagsOf(roles, action, model, ctx);
    var filters := RoleFilters(roles, action, model, ctx);
    assert [] + filters == filters;
    if !IsDenied(Statements(roles), action, model) && !IsOpen(Statements(roles), action, model) {
      FiltersExist(roles, action, model, ctx);
    }
  }

  /** The row check with the filters of all roles. */
  lemma {:induction false} RowCheck(roles: seq<Role>, action: Action, model: string, ctx: Context, schema: Schema, host: Host,
                                    record: Record)
    requires !IsDenied(Statements(roles), action, model) && !IsOpen(Statements(roles), action, model)
    requires RoleFilters(roles, action, model, ctx) != []
    ensures var decision := EnforceRow(AnyOf(RoleFilters(roles, action, model, ctx)), schema, host, Some(record));
            var compile := AllCompile(Statements(roles), action, model, ctx, schema, host);
            && (decision == Passed <==> compile && SomeMet(Statements(roles), action, model, ctx, record))
            && (decision == FilterRejected <==> !compile)
  {
    var filters := RoleFilters(roles, action, model, ctx);
    FiltersExist(roles, action, model, ctx);
    FiltersParse(roles, action, model, ctx, schema, host);
    FiltersMean(roles, action, model, ctx, InMemory(record, host));
    MetInMemory(Statements(roles), action, model, ctx, record, host);
    AnyOfSingles(filters, UniversalFields() + schema, host);
    if NewFilter(AnyOf(filters), schema, host).Ok? {
      ParsedMeaning(AnyOf(filters), UniversalFields() + schema, host, record);
    }
  }

  /** The engine, with its compiled statements, aggregated filters and filter parser, lets an object
      through exactly when access control is off or the statements permit it; and it fails on a filter only where nothing denies,
      nothing is unconditional, and some condition in play does not compile. */
  lemma {:induction false} DecidesAsPermitted(app: App, userType: Option<string>, userId: Option<string>, appId: string,
                                              action: Action, model: string, schema: Schema, host: Host, record: Option<Record>)
    ensures var statements := Statements(GrantedRoles(app, RoleNames(app, EffectiveType(userType))));
            var ctx := ContextOf(userType, userId, appId);
            var decision := Decide(app, userType, userId, appId, action, model, schema, host, record);
            && (decision == Passed <==> !app.aclEnabled || Permitted(statements, action, model, ctx, schema, host, record))
            && (decision == FilterRejected <==>
                  && app.aclEnabled
                  && !IsDenied(statements, action, model) && !IsOpen(statements, action, model)
                  && record.Some? && !AllCompile(statements, action, model, ctx, schema, host))
  {
    var roles := GrantedRoles(app, RoleNames(app, EffectiveType(userType)));
    var statements := Statements(roles);
    var ctx := ContextOf(userType, userId, appId);
    GrantOf(roles, action, model, ctx);
    if !IsDenied(statements, action, model) && !IsOpen(statements, action, model) {
      NoGrant(statements, action, model, ctx, schema, host);
      if HasGrant(statements, action, model, ctx) && record.Some? {
        RowCheck(roles, action, model, ctx, schema, host, record.value);
      }
    }
  }

  lemma MetInMemory(statements: set<Statement>, action: Action, model: string, ctx: Context, record: Record, host: Host)
    ensures SomeHolds(statements, action, model, ctx, InMemory(record, host)) <==> SomeMet(statements, action, model, ctx, record)
  {
    forall s | s in statements && s.condition.Some?
      ensures ConditionHolds(s.condition.value, ctx, InMemory(record, host)) <==> ConditionMet(s.condition.value, ctx, record)
    {
    }
  }

  lemma NoGrant(statements: set<Statement>, action: Action, model: string, ctx: Context, schema: Schema, host: Host)
    ensures !HasGrant(statements, action, model, ctx) ==> AllCompile(statements, action, model, ctx, schema, host)
    ensures !HasGrant(statements, action, model, ctx) ==> forall record :: !SomeMet(statements, action, model, ctx, record)
  {
  }

  /** Neither the order of roles and statements nor their repetition matters. */
  lemma {:induction false} OrderDoesNotMatter(app: App, other: App, userType: Option<string>, userId: Option<string>,
                                              appId: string, action: Action, model: string, schema: Schema, host: Host,
                                              record: Option<Record>)
    requires app.aclEnabled && other.aclEnabled
    requires Statements(GrantedRoles(app, RoleNames(app, EffectiveType(userType))))
          == Statements(GrantedRoles(other, RoleNames(other, EffectiveType(userType))))
    ensures Decide(app, userType, userId, appId, action, model, schema, host, record)
         == Decide(other, userType, userId, appId, action, model, schema, host, record)
  {
    DecidesAsPermitted(app, userType, userId, appId, action, model, schema, host, record);
    DecidesAsPermitted(other, userType, userId, appId, action, model, schema, host, record);
  }
}
