/** Folding an id, a user id and an access constraint into a client's filter. */
module FilterFolding {
  import opened Values
  import opened Schemas
  import opened FilterQuery
  import opened EsCompiler
  import opened EsMeaning
  import opened Views

  predicate IsField(m: Member, name: string) {
    m.FieldIs? && m.path == [name]
  }

  /** `{ ...query, [name]: value }`: a key already there keeps its place and gets the new value. */
  function WithField(query: Query, name: string, value: string): Query {
    var member := FieldIs([name], Str(value));
    if exists m :: m in query.members && IsField(m, name) then
      Query(seq(|query.members|, i requires 0 <= i < |query.members| =>
                  if IsField(query.members[i], name) then member else query.members[i]))
    else Query(query.members + [member])
  }

  /** An absent or empty string adds nothing. */
  function WithOptional(query: Query, name: string, value: Option<string>): Query {
    if value.Some? && value.value != "" then WithField(query, name, value.value) else query
  }

  function BaseInput(raw: Option<Query>, id: Option<string>, userId: Option<string>): Query {
    var start := if raw.Some? then raw.value else Query([]);
    WithOptional(WithOptional(start, "id", id), "userId", userId)
  }

  function Conjoin(a: Query, b: Query): Query {
    Query([Logic(And, [a, b])])
  }

  /** The input of `toDatabaseFilter`; `None` where the caller supplied nothing. */
  function DatabaseInput(raw: Option<Query>, id: Option<string>, userId: Option<string>, constraint: Option<Query>): Option<Query> {
    if raw.None? && id.None? && userId.None? && constraint.None? then None
    else
      var base := BaseInput(raw, id, userId);
      Some(if constraint.None? then base
           else if base.members != [] then Conjoin(base, constraint.value)
           else constraint.value)
  }

  /** The input of `subscriptionFilter`. */
  function SubscriptionInput(client: Option<Query>, constraint: Query): Query {
    if client.Some? then Conjoin(client.value, constraint) else constraint
  }

  // ---- What a list of keys admits ----

  /** A condition holds, and the database takes it where it is the one to evaluate it. */
  predicate Admitted(node: FilterNode, view: View) {
    Holds(node, view) && (view.InDatabase? ==> Searchable(node, view.mapping))
  }

  ghost predicate AllAdmitted(nodes: seq<FilterNode>, view: View) {
    forall node :: node in nodes ==> Admitted(node, view)
  }

  /** A query admits what all of its keys admit, and compiles when they do. */
  lemma {:induction false} KeyByKey(members: seq<Member>, schema: Schema, host: Host, view: View)
    ensures ParseMembers(members, schema, host).Ok? <==> forall m :: m in members ==> ParseMember(m, schema, host).Ok?
    ensures ParseMembers(members, schema, host).Ok? ==>
              (AllAdmitted(ParseMembers(members, schema, host).value, view) <==>
               forall m :: m in members ==> Admitted(ParseMember(m, schema, host).value, view))
  {
    if members != [] {
      var rest := members[1..];
      KeyByKey(rest, schema, host, view);
      assert forall m :: m in members <==> m == members[0] || m in rest;
      var first := ParseMember(members[0], schema, host);
      assert ParseMembers(members, schema, host).Ok? <==> first.Ok? && ParseMembers(rest, schema, host).Ok?;
      if ParseMembers(members, schema, host).Ok? {
        assert ParseMembers(members, schema, host).value == [first.value] + ParseMembers(rest, schema, host).value;
        assert AllAdmitted([first.value] + ParseMembers(rest, schema, host).value, view)
          <==> Admitted(first.value, view) && AllAdmitted(ParseMembers(rest, schema, host).value, view);
        forall m | m in members
          ensures ParseMember(m, schema, host).Ok?
        {
          if m != members[0] {
            assert m in rest;
          }
        }
        if forall m :: m in members ==> Admitted(ParseMember(m, schema, host).value, view) {
          assert members[0] in members;
          forall m | m in rest
            ensures Admitted(ParseMember(m, schema, host).value, view)
          {
            assert m in members;
          }
        } else {
          var m :| m in members && !Admitted(ParseMember(m, schema, host).value, view);
          assert m == members[0] || m in rest;
        }
      } else if first.Ok? {
        var m :| m in rest && ParseMember(m, schema, host).Err?;
        assert m in members;
      } else {
        assert members[0] in members;
      }
    }
  }

  lemma {:induction false} ConjoinAdmits(a: Query, b: Query, schema: Schema, host: Host, view: View)
    ensures Parse(Conjoin(a, b), schema, host).Ok? <==> Parse(a, schema, host).Ok? && Parse(b, schema, host).Ok?
    ensures Parse(Conjoin(a, b), schema, host).Ok? ==>
              (AllAdmitted(Parse(Conjoin(a, b), schema, host).value, view) <==>
               AllAdmitted(Parse(a, schema, host).value, view) && AllAdmitted(Parse(b, schema, host).value, view))
  {
    var both := Logic(And, [a, b]);
    assert [a, b][1..] == [b] && [b][1..] == [] && [both][1..] == [];
    assert ParseAll([], schema, host) == Ok([]);
    assert ParseAll([b], schema, host).Ok? <==> Parse(b, schema, host).Ok?;
    if Parse(a, schema, host).Ok? && Parse(b, schema, host).Ok? {
      var na, nb := Parse(a, schema, host).value, Parse(b, schema, host).value;
      assert nb + [] == nb;
      assert ParseAll([b], schema, host) == Ok(nb);
      assert ParseAll([a, b], schema, host) == Ok(na + nb);
      assert [Logical(And, na + nb)] + [] == [Logical(And, na + nb)];
      assert ParseMember(both, schema, host) == Ok(Logical(And, na + nb));
      assert ParseMembers([both], schema, host) == Ok([Logical(And, na + nb)]);
      assert Parse(Conjoin(a, b), schema, host) == Ok([Logical(And, na + nb)]);
      assert Logical(And, na + nb) in [Logical(And, na + nb)];
    } else {
      assert ParseMember(both, schema, host).Err?;
    }
  }

  /** The keys of a query other than the one named. */
  function Without(query: Query, name: string): Query {
    Query(Others(query.members, name))
  }

  function Others(members: seq<Member>, name: string): (others: seq<Member>)
    ensures forall m :: m in others <==> m in members && !IsField(m, name)
  {
    if members == [] then []
    else
      assert members == [members[0]] + members[1..];
      (if IsField(members[0], name) then [] else [members[0]]) + Others(members[1..], name)
  }

  ghost predicate Admits(query: Query, schema: Schema, host: Host, view: View) {
    NewFilter(query, schema, host).Ok? && AllAdmitted(NewFilter(query, schema, host).value, view)
  }

  predicate FieldIsString(name: string, value: string, view: View) {
    match view
    case InMemory(record, _) => Get(record, [name]).Some? && Contains(Get(record, [name]).value, Str(value))
    case InDatabase(record, _) => Str(value) in IndexedValues(record, [name])
  }

  /** The database's view is of an index made for this schema. */
  predicate IsOf(view: View, schema: Schema) {
    view.InDatabase? ==> view.mapping.schema == UniversalFields() + schema
  }

  predicate IsStringField(schema: Schema, name: string) {
    name in UniversalFields() + schema
    && (UniversalFields() + schema)[name].PrimField?
    && (UniversalFields() + schema)[name].prim == StringType
    && (UniversalFields() + schema)[name].filterable
  }

  lemma StringLeaf(name: string, value: string, schema: Schema, view: View)
    requires IsStringField(schema, name) && IsOf(view, schema)
    ensures Admitted(Field([name], Eq, Str(value)), view) <==> FieldIsString(name, value, view)
  {
    if view.InDatabase? {
      assert FieldAt(view.mapping.schema, [name]) == Some(view.mapping.schema[name]);
      assert Literal([name], Str(value), view.mapping) == Some(Str(value));
    }
  }

  /** A field set in a query replaces what the query said of that field and narrows the rest. */
  lemma WithFieldAdmits(query: Query, name: string, value: string, schema: Schema, host: Host, view: View)
    requires IsStringField(schema, name) && IsOf(view, schema)
    ensures NewFilter(WithField(query, name, value), schema, host).Ok? <==> NewFilter(Without(query, name), schema, host).Ok?
    ensures Admits(WithField(query, name, value), schema, host, view)
       <==> Admits(Without(query, name), schema, host, view) && FieldIsString(name, value, view)
  {
    var all := UniversalFields() + schema;
    var member := FieldIs([name], Str(value));
    var with := WithField(query, name, value);
    assert ParseMember(member, all, host) == Ok(Field([name], Eq, Str(value))) by {
      assert FieldAt(all, [name]) == Some(all[name]);
    }
    WithFieldMembers(query, name, value);
    OneMoreKey(with.members, Without(query, name).members, member, all, host, view);
    StringLeaf(name, value, schema, view);
  }

  lemma {:induction false} OneMoreKey(with: seq<Member>, rest: seq<Member>, member: Member, schema: Schema, host: Host, view: View)
    requires (forall m :: m in with <==> m == member || m in rest) && ParseMember(member, schema, host).Ok?
    ensures ParseMembers(with, schema, host).Ok? <==> ParseMembers(rest, schema, host).Ok?
    ensures ParseMembers(with, schema, host).Ok? ==>
              (AllAdmitted(ParseMembers(with, schema, host).value, view) <==>
               AllAdmitted(ParseMembers(rest, schema, host).value, view) && Admitted(ParseMember(member, schema, host).value, view))
  {
    KeyByKey(with, schema, host, view);
    KeyByKey(rest, schema, host, view);
    assert member in with;
  }

  lemma WithFieldMembers(query: Query, name: string, value: string)
    ensures forall m :: m in WithField(query, name, value).members <==>
              m == FieldIs([name], Str(value)) || m in Without(query, name).members
  {
    var with := WithField(query, name, value);
    if exists m :: m in query.members && IsField(m, name) {
      var k :| 0 <= k < |query.members| && IsField(query.members[k], name);
      assert with.members[k] in with.members;
      forall m | m in Without(query, name).members
        ensures m in with.members
      {
        var i :| 0 <= i < |query.members| && query.members[i] == m;
        assert with.members[i] == m;
      }
    }
  }

  /** What is left of the client's query once an id and a user id replace what it said of them. */
  function Remaining(raw: Option<Query>, id: Option<string>, userId: Option<string>): Query {
    var start := if raw.Some? then raw.value else Query([]);
    var noId := if id.Some? && id.value != "" then Without(start, "id") else start;
    if userId.Some? && userId.value != "" then Without(noId, "userId") else noId
  }

  predicate Given(name: string, value: Option<string>, view: View) {
    value.Some? && value.value != "" ==> FieldIsString(name, value.value, view)
  }

  lemma OthersKeep(query: Query, value: string)
    ensures forall m :: m in Without(WithField(query, "id", value), "userId").members <==>
              m in WithField(Without(query, "userId"), "id", value).members
    ensures forall m :: m in Without(Without(query, "userId"), "id").members <==>
              m in Without(Without(query, "id"), "userId").members
  {
    WithFieldMembers(query, "id", value);
    WithFieldMembers(Without(query, "userId"), "id", value);
  }

  /** Queries with the same keys, in any order, compile alike and accept alike. */
  lemma SameKeys(a: Query, b: Query, schema: Schema, host: Host, view: View)
    requires forall m :: m in a.members <==> m in b.members
    ensures NewFilter(a, schema, host).Ok? <==> NewFilter(b, schema, host).Ok?
    ensures Admits(a, schema, host, view) <==> Admits(b, schema, host, view)
  {
    KeyByKey(a.members, UniversalFields() + schema, host, view);
    KeyByKey(b.members, UniversalFields() + schema, host, view);
  }

  /** The base of the database filter. */
  lemma BaseAdmits(raw: Option<Query>, id: Option<string>, userId: Option<string>, schema: Schema, host: Host, view: View)
    requires IsStringField(schema, "id") && (userId.Some? ==> IsStringField(schema, "userId")) && IsOf(view, schema)
    ensures NewFilter(BaseInput(raw, id, userId), schema, host).Ok? <==> NewFilter(Remaining(raw, id, userId), schema, host).Ok?
    ensures Admits(BaseInput(raw, id, userId), schema, host, view)
       <==> Admits(Remaining(raw, id, userId), schema, host, view) && Given("id", id, view) && Given("userId", userId, view)
  {
    var start := if raw.Some? then raw.value else Query([]);
    var withId := WithOptional(start, "id", id);
    if userId.Some? && userId.value != "" {
      WithFieldAdmits(withId, "userId", userId.value, schema, host, view);
      if id.Some? && id.value != "" {
        OthersKeep(start, id.value);
        var swapped := WithField(Without(start, "userId"), "id", id.value);
        SameKeys(Without(withId, "userId"), swapped, schema, host, view);
        WithFieldAdmits(Without(start, "userId"), "id", id.value, schema, host, view);
        SameKeys(Without(Without(start, "userId"), "id"), Without(Without(start, "id"), "userId"), schema, host, view);
      }
    } else if id.Some? && id.value != "" {
      WithFieldAdmits(start, "id", id.value, schema, host, view);
    }
  }

  /** In either view the database filter admits exactly the records that the constraint admits, that have the
      id and the user id given, and that the rest of the client's filter admits. */
  lemma DatabaseFilterAdmits(raw: Option<Query>, id: Option<string>, userId: Option<string>, constraint: Option<Query>,
                             schema: Schema, host: Host, view: View)
    requires IsStringField(schema, "id") && (userId.Some? ==> IsStringField(schema, "userId")) && IsOf(view, schema)
    requires DatabaseInput(raw, id, userId, constraint).Some?
    ensures var input := DatabaseInput(raw, id, userId, constraint).value;
            && (NewFilter(input, schema, host).Ok? <==>
                  && NewFilter(Remaining(raw, id, userId), schema, host).Ok?
                  && (constraint.Some? ==> NewFilter(constraint.value, schema, host).Ok?))
            && (Admits(input, schema, host, view) <==>
                  && Admits(Remaining(raw, id, userId), schema, host, view)
                  && Given("id", id, view) && Given("userId", userId, view)
                  && (constraint.Some? ==> Admits(constraint.value, schema, host, view)))
  {
    var base := BaseInput(raw, id, userId);
    BaseAdmits(raw, id, userId, schema, host, view);
    if constraint.Some? {
      if base.members != [] {
        ConjoinAdmits(base, constraint.value, UniversalFields() + schema, host, view);
      } else {
        assert NewFilter(base, schema, host) == Ok([]);
      }
    }
  }

  /** A search goes without a filter exactly when the caller gave no filter, no id and no user id, and no role constrains
      it; otherwise the filter may be one that admits everything. */
  lemma NoFilterIff(raw: Option<Query>, id: Option<string>, userId: Option<string>, constraint: Option<Query>, schema: Schema, host: Host,
                    view: View)
    ensures DatabaseInput(raw, id, userId, constraint).None? <==>
              raw.None? && id.None? && userId.None? && constraint.None?
    ensures raw.None? && constraint.None? && id != None && id.value == "" && userId.None? ==>
              DatabaseInput(raw, id, userId, constraint).Some?
              && Admits(DatabaseInput(raw, id, userId, constraint).value, schema, host, view)
  {
    assert NewFilter(Query([]), schema, host) == Ok([]);
  }

  // ---- What a search finds, and what the test accepts ----

  ghost predicate Accepts(query: Query, schema: Schema, host: Host, record: Record) {
    NewFilter(query, schema, host).Ok? && Test(NewFilter(query, schema, host).value, record, host)
  }

  ghost predicate Found(query: Query, schema: Schema, host: Host, record: Record, mapping: Mapping) {
    NewFilter(query, schema, host).Ok? && Finds(Must(TranslateAll(NewFilter(query, schema, host).value)), record, mapping)
  }

  lemma AcceptsIsAdmits(query: Query, schema: Schema, host: Host, record: Record)
    ensures Accepts(query, schema, host, record) <==> Admits(query, schema, host, InMemory(record, host))
  {
    if NewFilter(query, schema, host).Ok? {
      AllHoldInMemory(NewFilter(query, schema, host).value, record, host);
    }
  }

  lemma FoundIsAdmits(query: Query, schema: Schema, host: Host, record: Record, mapping: Mapping)
    ensures Found(query, schema, host, record, mapping) <==> Admits(query, schema, host, InDatabase(record, mapping))
  {
    if NewFilter(query, schema, host).Ok? {
      FindsAllThatHold(NewFilter(query, schema, host).value, record, mapping);
    }
  }

  /** A search with the database filter finds exactly the records that searches with the constraint and with
      the rest of the client's filter both find, among those with the id and the user id given. */
  lemma DatabaseFilterFinds(raw: Option<Query>, id: Option<string>, userId: Option<string>, constraint: Option<Query>,
                            schema: Schema, host: Host, record: Record, mapping: Mapping)
    requires IsStringField(schema, "id") && (userId.Some? ==> IsStringField(schema, "userId"))
    requires mapping.schema == UniversalFields() + schema
    requires DatabaseInput(raw, id, userId, constraint).Some?
    ensures var view := InDatabase(record, mapping);
            Found(DatabaseInput(raw, id, userId, constraint).value, schema, host, record, mapping) <==>
              && Found(Remaining(raw, id, userId), schema, host, record, mapping)
              && Given("id", id, view) && Given("userId", userId, view)
              && (constraint.Some? ==> Found(constraint.value, schema, host, record, mapping))
  {
    DatabaseFilterAdmits(raw, id, userId, constraint, schema, host, InDatabase(record, mapping));
    FoundIsAdmits(DatabaseInput(raw, id, userId, constraint).value, schema, host, record, mapping);
    FoundIsAdmits(Remaining(raw, id, userId), schema, host, record, mapping);
    if constraint.Some? {
      FoundIsAdmits(constraint.value, schema, host, record, mapping);
    }
  }

  /** Whatever the client sends, a search under a constraint finds only rows a search with the constraint alone
      finds. */
  lemma ClientCannotWiden(raw: Option<Query>, id: Option<string>, userId: Option<string>, constraint: Query,
                          schema: Schema, host: Host, record: Record, mapping: Mapping)
    requires IsStringField(schema, "id") && (userId.Some? ==> IsStringField(schema, "userId"))
    requires mapping.schema == UniversalFields() + schema
    requires Found(DatabaseInput(raw, id, userId, Some(constraint)).value, schema, host, record, mapping)
    ensures Found(constraint, schema, host, record, mapping)
  {
    DatabaseFilterFinds(raw, id, userId, Some(constraint), schema, host, record, mapping);
  }

  /** A subscription under a constraint matches what the client's filter and the constraint both match; events
      are tested in memory only. */
  lemma SubscriptionFilterAccepts(client: Option<Query>, constraint: Query, schema: Schema, host: Host, record: Record)
    ensures Accepts(SubscriptionInput(client, constraint), schema, host, record)
       <==> Accepts(constraint, schema, host, record) && (client.Some? ==> Accepts(client.value, schema, host, record))
  {
    AcceptsIsAdmits(SubscriptionInput(client, constraint), schema, host, record);
    AcceptsIsAdmits(constraint, schema, host, record);
    if client.Some? {
      AcceptsIsAdmits(client.value, schema, host, record);
      ConjoinAdmits(client.value, constraint, UniversalFields() + schema, host, InMemory(record, host));
    }
  }
}
