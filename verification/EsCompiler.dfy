/** The database adapter's compiler: a loop over the flat pre-order stream of a filter's nodes
    that rebuilds the boolean query with an explicit stack of shared, mutable query objects. */
module EsCompiler {
  import opened Values
  import opened FilterQuery

  /** The query built, as a value. A `must` list requires all of its clauses; a `should` list,
      with `minimum_should_match` 1, requires one. */
  datatype EsQuery =
    | Term(path: Path, value: Value)
    | Terms(path: Path, values: Value)
    | Range(path: Path, op: FieldOp, value: Value)
    | MustNot(clause: EsQuery)
    | Must(clauses: seq<EsQuery>)
    | Should(clauses: seq<EsQuery>)

  function Leaf(path: Path, op: FieldOp, value: Value): EsQuery {
    match op
    case Eq => Term(path, value)
    case In => Terms(path, value)
    case Ne => MustNot(Term(path, value))
    case _ => Range(path, op, value)
  }

  function Combine(logic: LogicOp, clauses: seq<EsQuery>): EsQuery {
    if logic == Or then Should(clauses) else Must(clauses)
  }

  /** The direct translation, by recursion on the tree. */
  function Translate(node: FilterNode): EsQuery {
    match node
    case Field(path, op, value) => Leaf(path, op, value)
    case Logical(logic, conditions) => Combine(logic, TranslateAll(conditions))
  }

  function TranslateAll(nodes: seq<FilterNode>): (clauses: seq<EsQuery>)
    ensures |clauses| == |nodes|
  {
    if nodes == [] then [] else [Translate(nodes[0])] + TranslateAll(nodes[1..])
  }

  // ---- The stream ----

  /** What the iterator yields of a node; the children of a logical node follow on their own. */
  datatype Item = Item(node: FilterNode, depth: nat)

  /** `traverseNodes` */
  function Traverse(nodes: seq<FilterNode>, depth: nat): seq<Item> {
    if nodes == [] then []
    else [Item(nodes[0], depth)] + Children(nodes[0], depth) + Traverse(nodes[1..], depth)
  }

  function Children(node: FilterNode, depth: nat): seq<Item> {
    match node
    case Field(_, _, _) => []
    case Logical(_, conditions) => Traverse(conditions, depth + 1)
  }

  // ---- The stack machine, on values ----

  /** An open logical node: the clauses of it that are complete. The root is the frame at
      depth -1, which no item closes. */
  datatype Frame = Frame(depth: int, logic: LogicOp, done: seq<EsQuery>)

  function AddClauses(frames: seq<Frame>, clauses: seq<EsQuery>): seq<Frame>
    requires frames != []
  {
    var top := frames[|frames| - 1];
    frames[..|frames| - 1] + [top.(done := top.done + clauses)]
  }

  /** Close the top frame: it becomes the last clause of the one below. */
  function CloseTop(frames: seq<Frame>): (closed: seq<Frame>)
    requires |frames| > 1
    ensures |closed| == |frames| - 1
  {
    var top := frames[|frames| - 1];
    AddClauses(frames[..|frames| - 1], [Combine(top.logic, top.done)])
  }

  function PopTo(frames: seq<Frame>, depth: int): (popped: seq<Frame>)
    requires frames != []
    ensures popped != []
    decreases |frames|
  {
    if |frames| > 1 && frames[|frames| - 1].depth >= depth then PopTo(CloseTop(frames), depth)
    else frames
  }

  function Step(frames: seq<Frame>, item: Item): (next: seq<Frame>)
    requires frames != []
    ensures next != []
  {
    var open := PopTo(frames, item.depth);
    match item.node
    case Field(path, op, value) => AddClauses(open, [Leaf(path, op, value)])
    case Logical(logic, _) => open + [Frame(item.depth, logic, [])]
  }

  function Run(frames: seq<Frame>, items: seq<Item>): (end: seq<Frame>)
    requires frames != []
    ensures end != []
    decreases |items|
  {
    if items == [] then frames else Run(Step(frames, items[0]), items[1..])
  }

  function Start(): seq<Frame> {
    [Frame(-1, And, [])]
  }

  /** The frames are the open ancestors: the depths strictly increase from the root's -1. */
  ghost predicate Increasing(frames: seq<Frame>) {
    && frames != []
    && frames[0].depth == -1
    && frames[0].logic == And
    && forall i, j :: 0 <= i < j < |frames| ==> frames[i].depth < frames[j].depth
  }

  lemma {:induction false} PopKeepsIncreasing(frames: seq<Frame>, depth: nat)
    requires Increasing(frames)
    ensures Increasing(PopTo(frames, depth))
    ensures PopTo(frames, depth)[|PopTo(frames, depth)| - 1].depth < depth
    decreases |frames|
  {
    if |frames| > 1 && frames[|frames| - 1].depth >= depth {
      PopKeepsIncreasing(CloseTop(frames), depth);
    }
  }

  /** On every stream, at every point of it. */
  lemma {:induction false} RunKeepsIncreasing(frames: seq<Frame>, items: seq<Item>)
    requires Increasing(frames)
    ensures Increasing(Run(frames, items))
    decreases |items|
  {
    if items != [] {
      PopKeepsIncreasing(frames, items[0].depth);
      RunKeepsIncreasing(Step(frames, items[0]), items[1..]);
    }
  }

  /** Popping to a depth and then to a smaller one is popping to the smaller one. */
  lemma {:induction false} PopTwice(frames: seq<Frame>, deep: int, shallow: int)
    requires frames != [] && shallow <= deep
    ensures PopTo(PopTo(frames, deep), shallow) == PopTo(frames, shallow)
    decreases |frames|
  {
    if |frames| > 1 && frames[|frames| - 1].depth >= deep {
      PopTwice(CloseTop(frames), deep, shallow);
    }
  }

  lemma {:induction false} RunConcat(frames: seq<Frame>, first: seq<Item>, second: seq<Item>)
    requires frames != []
    ensures Run(frames, first + second) == Run(Run(frames, first), second)
    decreases |first|
  {
    if first == [] {
      assert first + second == second;
    } else {
      assert (first + second)[1..] == first[1..] + second;
      RunConcat(Step(frames, first[0]), first[1..], second);
    }
  }

  lemma AddTwice(frames: seq<Frame>, a: seq<EsQuery>, b: seq<EsQuery>)
    requires frames != []
    ensures AddClauses(AddClauses(frames, a), b) == AddClauses(frames, a + b)
  {
    var top := frames[|frames| - 1];
    assert top.done + a + b == top.done + (a + b);
  }

  /** What is still open below a depth makes no difference to a stream that starts there. */
  lemma {:induction false} SameRest(after: seq<Frame>, one: seq<Frame>, rest: seq<Item>, depth: nat)
    requires after != [] && one != [] && PopTo(after, depth) == one && (rest != [] ==> rest[0].depth == depth)
    ensures PopTo(Run(after, rest), depth) == PopTo(Run(one, rest), depth)
  {
    PopTwice(after, depth, depth);
    if rest != [] {
      assert Step(after, rest[0]) == Step(one, rest[0]);
    }
  }

  /** Running the stream of a list of siblings, and closing what they left open, adds their
      translations to the frame that was on top. */
  lemma {:induction false} RunTraverse(frames: seq<Frame>, nodes: seq<FilterNode>, depth: nat)
    requires frames != [] && frames[|frames| - 1].depth < depth
    ensures PopTo(Run(frames, Traverse(nodes, depth)), depth) == AddClauses(frames, TranslateAll(nodes))
    decreases nodes
  {
    if nodes == [] {
      assert AddClauses(frames, []) == frames by {
        var top := frames[|frames| - 1];
        assert top.done + [] == top.done;
      }
    } else {
      var node := nodes[0];
      var rest := Traverse(nodes[1..], depth);
      var item := Item(node, depth);
      var entered := Step(frames, item);
      var one := AddClauses(frames, [Translate(node)]);
      var after := Run(entered, Children(node, depth));
      assert PopTo(after, depth) == one by {
        RunNode(frames, node, depth);
      }
      assert Run(frames, Traverse(nodes, depth)) == Run(after, rest) by {
        assert Traverse(nodes, depth) == [item] + (Children(node, depth) + rest);
        RunConcat(entered, Children(node, depth), rest);
      }
      SameRest(after, one, rest, depth);
      RunTraverse(one, nodes[1..], depth);
      AddTwice(frames, [Translate(node)], TranslateAll(nodes[1..]));
    }
  }

  lemma {:induction false} RunNode(frames: seq<Frame>, node: FilterNode, depth: nat)
    requires frames != [] && frames[|frames| - 1].depth < depth
    ensures PopTo(Run(Step(frames, Item(node, depth)), Children(node, depth)), depth)
         == AddClauses(frames, [Translate(node)])
    decreases node
  {
    match node
    case Field(_, _, _) =>
    case Logical(logic, conditions) =>
      var entered := frames + [Frame(depth, logic, [])];
      assert Step(frames, Item(node, depth)) == entered;
      var end := Run(entered, Traverse(conditions, depth + 1));
      var full := frames + [Frame(depth, logic, TranslateAll(conditions))];
      assert PopTo(end, depth + 1) == full by {
        RunTraverse(entered, conditions, depth + 1);
        AddToNew(frames, depth, logic, TranslateAll(conditions));
      }
      PopTwice(end, depth + 1, depth);
      CloseNew(frames, depth, logic, TranslateAll(conditions));
  }

  lemma AddToNew(frames: seq<Frame>, depth: int, logic: LogicOp, clauses: seq<EsQuery>)
    requires frames != []
    ensures AddClauses(frames + [Frame(depth, logic, [])], clauses) == frames + [Frame(depth, logic, clauses)]
  {
    assert [] + clauses == clauses;
  }

  lemma {:induction false} CloseNew(frames: seq<Frame>, depth: int, logic: LogicOp, clauses: seq<EsQuery>)
    requires frames != [] && frames[|frames| - 1].depth < depth
    ensures PopTo(frames + [Frame(depth, logic, clauses)], depth) == AddClauses(frames, [Combine(logic, clauses)])
  {
  }

  function Finish(frames: seq<Frame>): EsQuery
    requires frames != []
  {
    var root := PopTo(frames, 0)[0];
    Combine(root.logic, root.done)
  }

  /** The query the machine has built when the stream ends is the direct translation. */
  lemma {:induction false} MachineTranslates(nodes: seq<FilterNode>)
    ensures Finish(Run(Start(), Traverse(nodes, 0))) == Must(TranslateAll(nodes))
  {
    RunTraverse(Start(), nodes, 0);
    assert [] + TranslateAll(nodes) == TranslateAll(nodes);
  }
}
