/** What a search finds of a filter, against what the in-memory test accepts. */
module EsAgreement {
  import opened Values
  import opened Schemas
  import opened FilterQuery
  import opened SchemaValidator
  import opened EsCompiler
  import opened EsMeaning
  import opened Views

  /** Whatever holds in memory holds in the database, and on conforming records that have the fields `ne` names
      the two agree. */
  lemma {:induction false} HoldsInBoth(node: FilterNode, mapping: Mapping, host: Host, record: Record, names: set<string>)
    requires Fits(node, mapping.schema, host) && Plain(node, mapping.schema)
    ensures Holds(node, InMemory(record, host)) ==> Holds(node, InDatabase(record, mapping))
    ensures RecordConforms(record, mapping.schema, names) && NoEmptyOr(node) && NeFieldsPresent(node, record) ==>
              (Holds(node, InMemory(record, host)) <==> Holds(node, InDatabase(record, mapping)))
  {
    match node
    case Field(path, op, value) =>
      LeafAgreement(path, op, value, mapping, host, record, names);
    case Logical(_, conditions) =>
      forall c | c in conditions
        ensures Holds(c, InMemory(record, host)) ==> Holds(c, InDatabase(record, mapping))
        ensures RecordConforms(record, mapping.schema, names) && NoEmptyOr(c) && NeFieldsPresent(c, record) ==>
                  (Holds(c, InMemory(record, host)) <==> Holds(c, InDatabase(record, mapping)))
      {
        HoldsInBoth(c, mapping, host, record, names);
      }
  }

  /** Whatever the in-memory test accepts the compiled query finds. */
  lemma {:induction false} TestedIsMatched(node: FilterNode, mapping: Mapping, host: Host, record: Record, names: set<string>)
    requires Fits(node, mapping.schema, host) && Plain(node, mapping.schema)
    ensures TestNode(node, record, host) ==> Matches(Translate(node), record, mapping)
    ensures RecordConforms(record, mapping.schema, names) && NoEmptyOr(node) && NeFieldsPresent(node, record) ==>
              (TestNode(node, record, host) <==> Matches(Translate(node), record, mapping))
  {
    HoldsInBoth(node, mapping, host, record, names);
    HoldsInMemory(node, record, host);
    HoldsInDatabase(node, record, mapping);
  }

  /** A query against the database and the same query tested in memory. */
  lemma {:induction false} SearchAgreesWithTest(query: Query, mapping: Mapping, host: Host, record: Record, names: set<string>)
    requires Parse(query, mapping.schema, host).Ok?
    requires forall n :: n in Parse(query, mapping.schema, host).value ==> Plain(n, mapping.schema)
    ensures var nodes := Parse(query, mapping.schema, host).value;
            && (Test(nodes, record, host) ==> Finds(Must(TranslateAll(nodes)), record, mapping))
            && (RecordConforms(record, mapping.schema, names) && (forall n :: n in nodes ==> NoEmptyOr(n) && NeFieldsPresent(n, record)) ==>
                  (Test(nodes, record, host) <==> Finds(Must(TranslateAll(nodes)), record, mapping)))
  {
    var nodes := Parse(query, mapping.schema, host).value;
    ParsedFits(query, mapping.schema, host);
    var whole := Logical(And, nodes);
    PlainIsSearchable(whole, mapping);
    AcceptedIffSearchable(whole, mapping);
    TestedIsMatched(whole, mapping, host, record, names);
  }

  /** A record that has every field a filter mentions has those its `ne` conditions name. */
  lemma {:induction false} DefinedIsPresent(node: FilterNode, record: Record)
    requires forall p :: p in Paths(node) ==> Get(record, p).Some?
    ensures NeFieldsPresent(node, record)
  {
    if node.Logical? {
      forall c | c in node.conditions
        ensures NeFieldsPresent(c, record)
      {
        forall p | p in Paths(c)
          ensures p in Paths(node)
        {
        }
        DefinedIsPresent(c, record);
      }
    }
  }

  /** An `$or` whose members agree agrees itself exactly when it has a member. */
  lemma {:induction false} OrAgreesIffNonEmpty(conditions: seq<FilterNode>, record: Record, mapping: Mapping, host: Host)
    requires forall c :: c in conditions ==> (TestNode(c, record, host) <==> Matches(Translate(c), record, mapping))
    ensures (TestNode(Logical(Or, conditions), record, host) <==> Matches(Translate(Logical(Or, conditions)), record, mapping))
       <==> conditions != []
  {
    forall c | c in conditions
      ensures Holds(c, InMemory(record, host)) <==> Holds(c, InDatabase(record, mapping))
    {
      HoldsInMemory(c, record, host);
      HoldsInDatabase(c, record, mapping);
    }
    HoldsInMemory(Logical(Or, conditions), record, host);
    HoldsInDatabase(Logical(Or, conditions), record, mapping);
  }

  /** `{ $or: [ {} ] }` passes the parser as an `$or` without a member, which accepts nothing in memory and finds
      every document in the database. */
  lemma {:induction false} EmptyOrFindsEverything(schema: Schema, host: Host, record: Record, mapping: Mapping)
    ensures Parse(Query([Logic(Or, [Query([])])]), schema, host) == Ok([Logical(Or, [])])
    ensures !Test([Logical(Or, [])], record, host) && Finds(Translate(Logical(Or, [])), record, mapping)
  {
    var query, empty := Query([Logic(Or, [Query([])])]), Query([]);
    assert Parse(empty, schema, host) == Ok([]);
    assert [empty][1..] == [] && [Logic(Or, [empty])][1..] == [];
    assert ParseAll([empty][1..], schema, host) == Ok([]);
    var none: seq<FilterNode> := [];
    assert none + none == none;
    assert ParseAll([empty], schema, host) == Ok([]);
    assert ParseMember(Logic(Or, [empty]), schema, host) == Ok(Logical(Or, []));
    assert ParseMembers([Logic(Or, [empty])][1..], schema, host) == Ok([]);
    var node: seq<FilterNode> := [Logical(Or, [])];
    assert node + none == node;
    assert ParseMembers([Logic(Or, [empty])], schema, host) == Ok(node);
    OrAgreesIffNonEmpty([], record, mapping, host);
  }

  // ---- Filters that are not plain ----

  function UnknownOr(): FilterNode {
    Logical(Or, [Field(["a"], Unknown("any"), Num(1.0)), Field(["b"], Eq, Num(1.0))])
  }

  /** `{ a: { any: 1 } }` passes the parser although no operator is called `any`. */
  lemma {:induction false} UnknownOperatorIsParsed(schema: Schema, host: Host)
    requires FieldAt(schema, ["a"]) == Some(PrimField(FloatType, false, false, true))
    ensures ParseField(["a"], Obj(map["any" := Num(1.0)]), schema, host) == Ok(UnknownOr().conditions[0])
  {
  }

  /** `{ $or: [ { a: { any: 1 } }, { b: 1 } ] }`: in memory it accepts the records whose b is 1,
      and the database refuses it. */
  lemma {:induction false} UnknownOperatorIsRefused(record: Record, mapping: Mapping, host: Host)
    requires Get(record, ["b"]) == Some(Num(1.0))
    ensures TestNode(UnknownOr(), record, host) && !Finds(Translate(UnknownOr()), record, mapping)
  {
    var bad, good := UnknownOr().conditions[0], UnknownOr().conditions[1];
    assert TestNode(good, record, host) && good in UnknownOr().conditions;
    assert bad in UnknownOr().conditions && !Searchable(bad, mapping);
    AcceptedIffSearchable(UnknownOr(), mapping);
  }

  function DateOr(date: string): FilterNode {
    Logical(Or, [Field(["createdAt"], Eq, Str(date)), Field(["b"], Eq, Num(1.0))])
  }

  /** `{ $or: [ { createdAt: "2024-01-01T00:00:00Z" }, { b: 1 } ] }`: the date passes the parser, in memory the
      filter accepts the records whose b is 1, and the database, which reads dates in seconds, refuses it. */
  lemma {:induction false} DateStringIsRefused(date: string, record: Record, mapping: Mapping, host: Host)
    requires FieldAt(mapping.schema, ["createdAt"]) == Some(UniversalFields()["createdAt"])
    requires host.dateMillis(date).Some? && mapping.epochSeconds(date).None?
    requires Get(record, ["b"]) == Some(Num(1.0))
    ensures ParseField(["createdAt"], Str(date), mapping.schema, host) == Ok(DateOr(date).conditions[0])
    ensures TestNode(DateOr(date), record, host) && !Finds(Translate(DateOr(date)), record, mapping)
  {
    var bad, good := DateOr(date).conditions[0], DateOr(date).conditions[1];
    assert TestNode(good, record, host) && good in DateOr(date).conditions;
    assert Str(date) in Literals(Eq, Str(date)) && Literal(["createdAt"], Str(date), mapping).None?;
    assert bad in DateOr(date).conditions && !Searchable(bad, mapping);
    AcceptedIffSearchable(DateOr(date), mapping);
  }

  /** A condition on an array of dates takes texts only, and what is stored are seconds: in memory none is ever among
      them, and the database looks for what it reads off the text, or refuses. */
  lemma {:induction false} DateArrayIsNeverTested(path: Path, date: string, record: Record, mapping: Mapping, host: Host,
                                                  required: bool, nullable: bool, names: set<string>)
    requires FieldAt(mapping.schema, path) == Some(ArrayField(DateType, required, nullable, true))
    requires host.dateMillis(date).Some? && RecordConforms(record, mapping.schema, names)
    ensures forall n :: ParseField(path, Num(n), mapping.schema, host).Err?
    ensures ParseField(path, Str(date), mapping.schema, host) == Ok(Field(path, Eq, Str(date)))
    ensures !TestNode(Field(path, Eq, Str(date)), record, host)
    ensures Finds(Translate(Field(path, Eq, Str(date))), record, mapping)
       <==> mapping.epochSeconds(date).Some? && Num(mapping.epochSeconds(date).value) in IndexedValues(record, path)
  {
    if Get(record, path).Some? {
      ConformingAt(record, mapping.schema, RESERVED, names, path);
    }
  }

  /** A date the database can read off a string it finds, and the test never equals a number to a string. */
  lemma {:induction false} DateStringIsFoundNotTested(date: string, record: Record, mapping: Mapping, host: Host)
    requires FieldAt(mapping.schema, ["createdAt"]) == Some(UniversalFields()["createdAt"])
    requires mapping.epochSeconds(date).Some?
    requires Get(record, ["createdAt"]) == Some(Num(mapping.epochSeconds(date).value))
    ensures Finds(Translate(Field(["createdAt"], Eq, Str(date))), record, mapping)
    ensures !TestNode(Field(["createdAt"], Eq, Str(date)), record, host)
  {
    assert Num(mapping.epochSeconds(date).value) in IndexedValues(record, ["createdAt"]);
  }
}
