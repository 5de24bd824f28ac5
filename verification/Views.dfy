/** The two ways a filter is evaluated: tested on a record in memory, and searched for in the database. */
module Views {
  import opened Values
  import opened FilterQuery
  import opened EsCompiler
  import opened EsMeaning

  datatype View = InMemory(record: Record, host: Host) | InDatabase(record: Record, mapping: Mapping)

  predicate LeafHolds(path: Path, op: FieldOp, value: Value, view: View) {
    match view
    case InMemory(record, host) => TestField(path, op, value, record, host)
    case InDatabase(record, mapping) => Matches(Leaf(path, op, value), record, mapping)
  }

  /** A filter tree as one view evaluates it; a disjunction of nothing is where they differ above a leaf. */
  predicate Holds(node: FilterNode, view: View) {
    match node
    case Field(path, op, value) => LeafHolds(path, op, value, view)
    case Logical(And, conditions) => forall c :: c in conditions ==> Holds(c, view)
    case Logical(Or, conditions) => (conditions == [] && view.InDatabase?) || exists c :: c in conditions && Holds(c, view)
  }

  predicate AllHold(nodes: seq<FilterNode>, view: View) {
    forall node :: node in nodes ==> Holds(node, view)
  }

  predicate AllSearchable(nodes: seq<FilterNode>, mapping: Mapping) {
    forall node :: node in nodes ==> Searchable(node, mapping)
  }

  lemma {:induction false} HoldsInMemory(node: FilterNode, record: Record, host: Host)
    ensures Holds(node, InMemory(record, host)) <==> TestNode(node, record, host)
  {
    if node.Logical? {
      forall c | c in node.conditions
        ensures Holds(c, InMemory(record, host)) <==> TestNode(c, record, host)
      {
        HoldsInMemory(c, record, host);
      }
    }
  }

  lemma AllHoldInMemory(nodes: seq<FilterNode>, record: Record, host: Host)
    ensures AllHold(nodes, InMemory(record, host)) <==> Test(nodes, record, host)
  {
    forall node | node in nodes
      ensures Holds(node, InMemory(record, host)) <==> TestNode(node, record, host)
    {
      HoldsInMemory(node, record, host);
    }
  }

  /** A list of conditions and the list of their translations hold together, and one of each holds together. */
  lemma {:induction false} ListsHold(conditions: seq<FilterNode>, clauses: seq<EsQuery>, record: Record, mapping: Mapping)
    requires |clauses| == |conditions|
    requires forall i :: 0 <= i < |conditions| ==>
               (Holds(conditions[i], InDatabase(record, mapping)) <==> Matches(clauses[i], record, mapping))
    ensures AllHold(conditions, InDatabase(record, mapping)) <==> forall q :: q in clauses ==> Matches(q, record, mapping)
    ensures (exists c :: c in conditions && Holds(c, InDatabase(record, mapping)))
       <==> exists q :: q in clauses && Matches(q, record, mapping)
  {
    forall i | 0 <= i < |conditions|
      ensures conditions[i] in conditions && clauses[i] in clauses
    {
    }
    if AllHold(conditions, InDatabase(record, mapping)) {
      forall q | q in clauses
        ensures Matches(q, record, mapping)
      {
        var i :| 0 <= i < |clauses| && clauses[i] == q;
      }
    }
    if forall q :: q in clauses ==> Matches(q, record, mapping) {
      forall c | c in conditions
        ensures Holds(c, InDatabase(record, mapping))
      {
        var i :| 0 <= i < |conditions| && conditions[i] == c;
      }
    }
    if c :| c in conditions && Holds(c, InDatabase(record, mapping)) {
      var i :| 0 <= i < |conditions| && conditions[i] == c;
      assert Matches(clauses[i], record, mapping);
    }
    if q :| q in clauses && Matches(q, record, mapping) {
      var i :| 0 <= i < |clauses| && clauses[i] == q;
      assert Holds(conditions[i], InDatabase(record, mapping));
    }
  }

  lemma {:induction false} HoldsInDatabase(node: FilterNode, record: Record, mapping: Mapping)
    ensures Holds(node, InDatabase(record, mapping)) <==> Matches(Translate(node), record, mapping)
  {
    if node.Logical? {
      var conditions, clauses := node.conditions, TranslateAll(node.conditions);
      TranslateAllAt(conditions);
      forall i | 0 <= i < |conditions|
        ensures Holds(conditions[i], InDatabase(record, mapping)) <==> Matches(clauses[i], record, mapping)
      {
        HoldsInDatabase(conditions[i], record, mapping);
      }
      ListsHold(conditions, clauses, record, mapping);
    }
  }

  /** What a search with a whole filter finds: nothing where the database refuses it. */
  lemma {:induction false} FindsAllThatHold(nodes: seq<FilterNode>, record: Record, mapping: Mapping)
    ensures Finds(Must(TranslateAll(nodes)), record, mapping)
       <==> AllSearchable(nodes, mapping) && AllHold(nodes, InDatabase(record, mapping))
  {
    var whole := Logical(And, nodes);
    AcceptedIffSearchable(whole, mapping);
    HoldsInDatabase(whole, record, mapping);
  }
}
