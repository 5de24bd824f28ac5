/** The compiler's loop as the adapter runs it: query objects on the heap, each held both by
    its parent's clause list and by the stack while it is open. */
module EsBuilder {
  import opened Values
  import opened FilterQuery
  import opened EsCompiler

  datatype Clause = LeafClause(query: EsQuery) | Nested(object_: BoolQuery)

  datatype Entry = Entry(depth: nat, boolQuery: BoolQuery, operator: LogicOp)

  /** A `bool` query object; a property it does not have is `None`. */
  class BoolQuery {
    var must: Option<seq<Clause>>
    var should: Option<seq<Clause>>
    var minimumShouldMatch: Option<nat>

    constructor (operator: LogicOp)
      ensures IsList(operator, [])
    {
      if operator == Or {
        must, should, minimumShouldMatch := None, Some([]), Some(1);
      } else {
        must, should, minimumShouldMatch := Some([]), None, None;
      }
    }

    ghost predicate IsList(operator: LogicOp, clauses: seq<Clause>)
      reads this
    {
      if operator == Or then must.None? && should == Some(clauses) && minimumShouldMatch == Some(1)
      else must == Some(clauses) && should.None? && minimumShouldMatch.None?
    }

    ghost function Clauses(): seq<Clause>
      reads this
    {
      if should.Some? then should.value else if must.Some? then must.value else []
    }
  }

  /** The clause, with the query objects below it, is the query `q`. */
  ghost predicate Shows(clause: Clause, q: EsQuery, objects: set<BoolQuery>)
    reads objects
    decreases q
  {
    match clause
    case LeafClause(leaf) => leaf == q
    case Nested(b) =>
      && b in objects
      && (q.Must? || q.Should?)
      && b.IsList(if q.Should? then Or else And, b.Clauses())
      && |b.Clauses()| == |q.clauses|
      && forall i :: 0 <= i < |q.clauses| ==> Shows(b.Clauses()[i], q.clauses[i], objects)
  }

  lemma {:induction false} ShowsInMore(clause: Clause, q: EsQuery, objects: set<BoolQuery>, more: set<BoolQuery>)
    requires Shows(clause, q, objects) && objects <= more
    ensures Shows(clause, q, more)
    decreases q
  {
    if clause.Nested? {
      forall i | 0 <= i < |q.clauses|
        ensures Shows(clause.object_.Clauses()[i], q.clauses[i], more)
      {
        ShowsInMore(clause.object_.Clauses()[i], q.clauses[i], objects, more);
      }
    }
  }

  /** Objects on the heap show one query only. */
  lemma {:induction false} ShowsOneQuery(clause: Clause, q: EsQuery, r: EsQuery, objects: set<BoolQuery>)
    requires Shows(clause, q, objects) && Shows(clause, r, objects)
    ensures q == r
    decreases q
  {
    if clause.Nested? {
      forall i | 0 <= i < |q.clauses|
        ensures q.clauses[i] == r.clauses[i]
      {
        ShowsOneQuery(clause.object_.Clauses()[i], q.clauses[i], r.clauses[i], objects);
      }
      assert q.clauses == r.clauses;
    }
  }

  /** The i-th open object holds its frame's finished clauses and then, unless it is on top,
      the open object above it. */
  ghost predicate Holds(open: seq<BoolQuery>, frames: seq<Frame>, closed: set<BoolQuery>, i: nat)
    requires i < |open| == |frames|
    reads open, closed
  {
    var clauses := open[i].Clauses();
    var done := frames[i].done;
    && open[i].IsList(frames[i].logic, clauses)
    && |clauses| == |done| + (if i == |open| - 1 then 0 else 1)
    && (i < |open| - 1 ==> clauses[|done|] == Nested(open[i + 1]))
    && forall j :: 0 <= j < |done| ==> Shows(clauses[j], done[j], closed)
  }

  /** `all` are the objects made so far: the open ones and the closed ones. */
  ghost predicate Linked(open: seq<BoolQuery>, frames: seq<Frame>, closed: set<BoolQuery>, all: set<BoolQuery>)
    reads all
  {
    && |open| == |frames|
    && closed <= all
    && (forall i :: 0 <= i < |open| ==> open[i] in all && open[i] !in closed)
    && (forall i, j :: 0 <= i < j < |open| ==> open[i] != open[j])
    && (forall i :: 0 <= i < |open| ==> Holds(open, frames, closed, i))
  }

  ghost predicate Rooted(frames: seq<Frame>) {
    frames != [] && frames[0].logic == And && forall i :: 0 < i < |frames| ==> frames[i].depth >= 0
  }

  /** Nothing is written when a node's subtree ends: the object on top only stops being open. */
  lemma CloseLinked(open: seq<BoolQuery>, frames: seq<Frame>, closed: set<BoolQuery>, all: set<BoolQuery>)
    requires Linked(open, frames, closed, all) && |frames| > 1
    ensures Linked(open[..|open| - 1], CloseTop(frames), closed + {open[|open| - 1]}, all)
  {
    var n := |open| - 1;
    var below := open[..n];
    var lower := CloseTop(frames);
    var more := closed + {open[n]};
    forall i | 0 <= i < n
      ensures Holds(below, lower, more, i)
    {
      assert Holds(open, frames, closed, i);
      forall j | 0 <= j < |frames[i].done|
        ensures Shows(open[i].Clauses()[j], frames[i].done[j], more)
      {
        ShowsInMore(open[i].Clauses()[j], frames[i].done[j], closed, more);
      }
      if i == n - 1 {
        TopShows(open, frames, closed, all, more);
        assert lower[i].done == frames[i].done + [Combine(frames[n].logic, frames[n].done)];
      } else {
        assert lower[i] == frames[i];
      }
    }
  }

  lemma TopShows(open: seq<BoolQuery>, frames: seq<Frame>, closed: set<BoolQuery>, all: set<BoolQuery>, some: set<BoolQuery>)
    requires Linked(open, frames, closed, all) && frames != []
    requires closed + {open[|open| - 1]} <= some
    ensures var n := |open| - 1;
            Shows(Nested(open[n]), Combine(frames[n].logic, frames[n].done), some)
  {
    var n := |open| - 1;
    assert Holds(open, frames, closed, n);
    forall j | 0 <= j < |frames[n].done|
      ensures Shows(open[n].Clauses()[j], frames[n].done[j], some)
    {
      ShowsInMore(open[n].Clauses()[j], frames[n].done[j], closed, some);
    }
  }

  lemma CloseRooted(frames: seq<Frame>)
    requires Rooted(frames) && |frames| > 1
    ensures Rooted(CloseTop(frames))
    ensures Finish(CloseTop(frames)) == Finish(frames)
  {
  }

  /** When the stream ends the root shows what the machine has built. */
  lemma {:induction false} RootShows(open: seq<BoolQuery>, frames: seq<Frame>, closed: set<BoolQuery>, all: set<BoolQuery>)
    requires Linked(open, frames, closed, all) && Rooted(frames)
    ensures Shows(Nested(open[0]), Finish(frames), all)
    decreases |frames|
  {
    if |frames| == 1 {
      TopShows(open, frames, closed, all, all);
    } else {
      var n := |open| - 1;
      CloseLinked(open, frames, closed, all);
      CloseRooted(frames);
      RootShows(open[..n], CloseTop(frames), closed + {open[n]}, all);
    }
  }

  ghost predicate StackMatches(stack: seq<Entry>, open: seq<BoolQuery>, frames: seq<Frame>) {
    && |stack| + 1 == |open| == |frames|
    && forall i :: 0 <= i < |stack| ==>
         stack[i].boolQuery == open[i + 1] && stack[i].operator == frames[i + 1].logic && stack[i].depth == frames[i + 1].depth
  }

  /** The pops an item starts with. No query object changes. */
  method PopStack(stack: seq<Entry>, depth: nat, ghost open: seq<BoolQuery>, ghost frames: seq<Frame>,
                  ghost closed: set<BoolQuery>, ghost all: set<BoolQuery>)
    returns (left: seq<Entry>, ghost leftOpen: seq<BoolQuery>, ghost nowClosed: set<BoolQuery>)
    requires Rooted(frames) && Linked(open, frames, closed, all) && StackMatches(stack, open, frames)
    ensures Rooted(PopTo(frames, depth)) && Linked(leftOpen, PopTo(frames, depth), nowClosed, all)
    ensures StackMatches(left, leftOpen, PopTo(frames, depth))
    ensures leftOpen[0] == open[0]
    ensures left <= stack && (left == [] || left[|left| - 1].depth < depth)
    ensures forall i :: |left| <= i < |stack| ==> stack[i].depth >= depth
  {
    left, leftOpen, nowClosed := stack, open, closed;
    ghost var now := frames;
    while |left| > 0 && left[|left| - 1].depth >= depth
      invariant Rooted(now) && Linked(leftOpen, now, nowClosed, all) && StackMatches(left, leftOpen, now)
      invariant PopTo(now, depth) == PopTo(frames, depth)
      invariant leftOpen[0] == open[0]
      invariant left <= stack && forall i :: |left| <= i < |stack| ==> stack[i].depth >= depth
      decreases |left|
    {
      CloseLinked(leftOpen, now, nowClosed, all);
      CloseRooted(now);
      nowClosed := nowClosed + {leftOpen[|left|]};
      left, leftOpen, now := left[..|left| - 1], leftOpen[..|left|], CloseTop(now);
    }
  }

  /** The append of a field's query to the object on top, which has the list its operator needs. */
  method AppendLeaf(currentBool: BoolQuery, currentOperator: LogicOp, fieldQuery: EsQuery, ghost open: seq<BoolQuery>,
                    ghost frames: seq<Frame>, ghost closed: set<BoolQuery>, ghost all: set<BoolQuery>)
    requires Linked(open, frames, closed, all) && frames != []
    requires currentBool == open[|open| - 1] && currentOperator == frames[|frames| - 1].logic
    modifies currentBool
    ensures Linked(open, AddClauses(frames, [fieldQuery]), closed, all)
  {
    ghost var top := |open| - 1;
    assert Holds(open, frames, closed, top);
    if currentOperator == Or {
      currentBool.should := Some(currentBool.should.value + [LeafClause(fieldQuery)]);
    } else {
      currentBool.must := Some(currentBool.must.value + [LeafClause(fieldQuery)]);
    }
    ghost var next := AddClauses(frames, [fieldQuery]);
    forall i | 0 <= i < |open|
      ensures Holds(open, next, closed, i)
    {
      assert i < top ==> next[i] == frames[i];
      assert old(Holds(open, frames, closed, i));
    }
  }

  /** The append of a new object to the object on top; the new one is then the open one. */
  method AppendLogical(currentBool: BoolQuery, currentOperator: LogicOp, operator: LogicOp, depth: nat, ghost open: seq<BoolQuery>,
                       ghost frames: seq<Frame>, ghost closed: set<BoolQuery>, ghost all: set<BoolQuery>)
    returns (newBool: BoolQuery)
    requires Linked(open, frames, closed, all) && frames != []
    requires currentBool == open[|open| - 1] && currentOperator == frames[|frames| - 1].logic
    modifies currentBool
    ensures fresh(newBool)
    ensures Linked(open + [newBool], frames + [Frame(depth, operator, [])], closed, all + {newBool})
  {
    ghost var top := |open| - 1;
    assert Holds(open, frames, closed, top);
    newBool := new BoolQuery(operator);
    if currentOperator == Or {
      currentBool.should := Some(currentBool.should.value + [Nested(newBool)]);
    } else {
      currentBool.must := Some(currentBool.must.value + [Nested(newBool)]);
    }
    ghost var next := frames + [Frame(depth, operator, [])];
    ghost var nowOpen := open + [newBool];
    forall i | 0 <= i < |nowOpen|
      ensures Holds(nowOpen, next, closed, i)
    {
      if i <= top {
        assert old(Holds(open, frames, closed, i));
      }
    }
  }

  /** One turn of the loop over the stream. */
  method AddItem(item: Item, root: BoolQuery, stack: seq<Entry>, ghost open: seq<BoolQuery>, ghost frames: seq<Frame>,
                 ghost closed: set<BoolQuery>, ghost all: set<BoolQuery>)
    returns (pushed: seq<Entry>, ghost nowOpen: seq<BoolQuery>, ghost nowClosed: set<BoolQuery>, ghost nowAll: set<BoolQuery>)
    requires Rooted(frames) && Linked(open, frames, closed, all) && StackMatches(stack, open, frames) && open[0] == root
    modifies all
    ensures all <= nowAll && fresh(nowAll - all) && nowOpen != [] && nowOpen[0] == root
    ensures Rooted(Step(frames, item)) && Linked(nowOpen, Step(frames, item), nowClosed, nowAll)
    ensures StackMatches(pushed, nowOpen, Step(frames, item))
  {
    pushed, nowOpen, nowClosed := PopStack(stack, item.depth, open, frames, closed, all);
    ghost var left := PopTo(frames, item.depth);
    var currentBool, currentOperator := root, And;
    if |pushed| > 0 {
      currentBool := pushed[|pushed| - 1].boolQuery;
      currentOperator := pushed[|pushed| - 1].operator;
    }
    match item.node {
      case Logical(operator, _) =>
        var newBool := AppendLogical(currentBool, currentOperator, operator, item.depth, nowOpen, left, nowClosed, all);
        pushed := pushed + [Entry(item.depth, newBool, operator)];
        nowOpen := nowOpen + [newBool];
        nowAll := all + {newBool};
      case Field(path, op, value) =>
        AppendLeaf(currentBool, currentOperator, Leaf(path, op, value), nowOpen, left, nowClosed, all);
        nowAll := all;
    }
  }

  /** Compiles a filter; without one the query matches all documents. */
  method BuildFilterQuery(filter: Option<seq<FilterNode>>) returns (query: Option<BoolQuery>, ghost all: set<BoolQuery>)
    ensures fresh(all)
    ensures query.Some? <==> filter.Some?
    ensures filter.Some? ==> Shows(Nested(query.value), Must(TranslateAll(filter.value)), all)
  {
    if filter.None? {
      return None, {};
    }
    var root := new BoolQuery(And);
    var stack: seq<Entry> := [];
    all := {root};
    ghost var frames, open, closed: set<BoolQuery> := Start(), [root], {};
    var items := Traverse(filter.value, 0);
    for k := 0 to |items|
      invariant Rooted(frames) && Linked(open, frames, closed, all) && StackMatches(stack, open, frames)
      invariant Run(frames, items[k..]) == Run(Start(), items)
      invariant open[0] == root && fresh(all)
    {
      assert items[k..][1..] == items[k + 1..];
      stack, open, closed, all := AddItem(items[k], root, stack, open, frames, closed, all);
      frames := Step(frames, items[k]);
    }
    assert items[|items|..] == [];
    RootShows(open, frames, closed, all);
    MachineTranslates(filter.value);
    query := Some(root);
  }
}
