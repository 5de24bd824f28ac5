/** The access-control language, and the lowering of a condition into the filter language. */
module AclStatements {
  import opened Values
  import opened FilterQuery

  datatype Action =
    | CreateAction | GetAction | SearchAction | CountAction | UpdateAction | DeleteAction | SubscribeAction

  datatype ConditionOperator = StringEquals | StringNotEquals | NumericEquals | NumericNotEquals

  datatype Raw = Text(s: string) | Number(n: real)

  /** One field of an operator block, with the values listed for it. */
  datatype Rule = Rule(field: Path, values: seq<Raw>)

  datatype Block = Block(operator: ConditionOperator, rules: seq<Rule>)

  type Condition = seq<Block>

  datatype Statement = Statement(allow: bool, action: seq<string>, resource: seq<string>, condition: Option<Condition>)

  datatype Context = Context(userId: Option<string>, userType: Option<string>, appId: Option<string>)

  // ---- Actions ----

  function ExpandToken(token: string): Option<set<Action>> {
    match token
    case "*" => Some({CreateAction, GetAction, SearchAction, CountAction, UpdateAction, DeleteAction, SubscribeAction})
    case "read" => Some({GetAction, SearchAction, CountAction, SubscribeAction})
    case "write" => Some({CreateAction, UpdateAction, DeleteAction})
    case "create" => Some({CreateAction})
    case "get" => Some({GetAction})
    case "search" => Some({SearchAction})
    case "count" => Some({CountAction})
    case "update" => Some({UpdateAction})
    case "delete" => Some({DeleteAction})
    case "subscribe" => Some({SubscribeAction})
    case _ => None
  }

  /** The token that names one action. */
  function TokenOf(action: Action): string {
    match action
    case CreateAction => "create"
    case GetAction => "get"
    case SearchAction => "search"
    case CountAction => "count"
    case UpdateAction => "update"
    case DeleteAction => "delete"
    case SubscribeAction => "subscribe"
  }

  predicate ChangesObjects(action: Action) {
    action == CreateAction || action == UpdateAction || action == DeleteAction
  }

  /** The grammar of tokens: a name denotes its action, `write` what changes stored objects, `read` what does not, `*`
      everything, and any other token nothing. */
  lemma TokensDenote(token: string, action: Action)
    ensures ExpandToken(TokenOf(action)) == Some({action})
    ensures ExpandToken("write").Some? && (action in ExpandToken("write").value <==> ChangesObjects(action))
    ensures ExpandToken("read").Some? && (action in ExpandToken("read").value <==> !ChangesObjects(action))
    ensures ExpandToken("*").Some? && action in ExpandToken("*").value
    ensures (forall a :: token != TokenOf(a)) && token !in {"read", "write", "*"} ==> ExpandToken(token).None?
  {
    if forall a :: token != TokenOf(a) {
      assert token != TokenOf(CreateAction) && token != TokenOf(GetAction) && token != TokenOf(SearchAction);
      assert token != TokenOf(CountAction) && token != TokenOf(UpdateAction) && token != TokenOf(DeleteAction);
      assert token != TokenOf(SubscribeAction);
    }
  }

  /** `expandActions`: unknown tokens add nothing. */
  method ExpandActions(tokens: seq<string>) returns (actions: set<Action>)
    ensures forall a :: a in actions <==> exists t :: t in tokens && ExpandToken(t).Some? && a in ExpandToken(t).value
  {
    actions := {};
    for i := 0 to |tokens|
      invariant forall a :: a in actions <==>
                              exists t :: t in tokens[..i] && ExpandToken(t).Some? && a in ExpandToken(t).value
    {
      assert tokens[..i + 1] == tokens[..i] + [tokens[i]];
      var expanded := ExpandToken(tokens[i]);
      if expanded.Some? {
        actions := actions + expanded.value;
      }
    }
    assert tokens[..|tokens|] == tokens;
  }

  // ---- Conditions ----

  const CONTEXT_PREFIX := "$nxx:"

  predicate IsContextRef(s: string) {
    CONTEXT_PREFIX <= s
  }

  /** `None` where the context has no such key. */
  function ResolveValue(raw: Raw, ctx: Context): Option<Value> {
    match raw
    case Number(n) => Some(Num(n))
    case Text(s) =>
      if !IsContextRef(s) then Some(Str(s))
      else
        var key := s[|CONTEXT_PREFIX|..];
        var found := if key == "userId" then ctx.userId
                     else if key == "userType" then ctx.userType
                     else if key == "appId" then ctx.appId
                     else None;
        if found.Some? then Some(Str(found.value)) else None
  }

  /** A number and a text are themselves; a reference is the value the context has under its name, and nothing where it
      has none or the name is another. */
  lemma ValuesResolve(name: string, text: string, n: real, ctx: Context)
    ensures ResolveValue(Number(n), ctx) == Some(Num(n))
    ensures !("$nxx:" <= text) ==> ResolveValue(Text(text), ctx) == Some(Str(text))
    ensures var found := ResolveValue(Text("$nxx:" + name), ctx);
            && (name == "userId" ==> if ctx.userId.Some? then found == Some(Str(ctx.userId.value)) else found.None?)
            && (name == "userType" ==> if ctx.userType.Some? then found == Some(Str(ctx.userType.value)) else found.None?)
            && (name == "appId" ==> if ctx.appId.Some? then found == Some(Str(ctx.appId.value)) else found.None?)
            && (name !in {"userId", "userType", "appId"} ==> found.None?)
  {
    var ref := "$nxx:" + name;
    assert "$nxx:" <= ref && ref[5..] == name;
    assert |"userId"| == 6 && |"userType"| == 8 && |"appId"| == 5;
  }

  function ResolveValues(raws: seq<Raw>, ctx: Context): seq<Value> {
    if raws == [] then []
    else
      var first := ResolveValue(raws[0], ctx);
      (if first.Some? then [first.value] else []) + ResolveValues(raws[1..], ctx)
  }

  lemma {:induction false} ResolvedFrom(raws: seq<Raw>, ctx: Context)
    ensures forall v :: v in ResolveValues(raws, ctx) <==> exists raw :: raw in raws && ResolveValue(raw, ctx) == Some(v)
  {
    if raws != [] {
      ResolvedFrom(raws[1..], ctx);
      assert raws == [raws[0]] + raws[1..];
    }
  }

  predicate IsEquality(operator: ConditionOperator) {
    operator == StringEquals || operator == NumericEquals
  }

  function NotEqual(field: Path, v: Value): Query {
    Query([FieldIs(field, Obj(map["ne" := v]))])
  }

  /** `buildFieldFilter` */
  function FieldFilter(operator: ConditionOperator, field: Path, values: seq<Value>): Query
    requires values != []
  {
    if IsEquality(operator) then
      if |values| == 1 then Query([FieldIs(field, values[0])])
      else Query([FieldIs(field, Obj(map["in" := Arr(values)]))])
    else
      if |values| == 1 then NotEqual(field, values[0])
      else Query([Logic(And, seq(|values|, i requires 0 <= i < |values| => NotEqual(field, values[i])))])
  }

  function Join(first: Option<seq<Query>>, second: Option<seq<Query>>): Option<seq<Query>> {
    if first.Some? && second.Some? then Some(first.value + second.value) else None
  }

  function RuleFragments(operator: ConditionOperator, rule: Rule, ctx: Context): Option<seq<Query>> {
    var values := ResolveValues(rule.values, ctx);
    if values == [] then None else Some([FieldFilter(operator, rule.field, values)])
  }

  function BlockFragments(operator: ConditionOperator, rules: seq<Rule>, ctx: Context): Option<seq<Query>> {
    if rules == [] then Some([])
    else Join(RuleFragments(operator, rules[0], ctx), BlockFragments(operator, rules[1..], ctx))
  }

  function Fragments(condition: Condition, ctx: Context): Option<seq<Query>> {
    if condition == [] then Some([])
    else Join(BlockFragments(condition[0].operator, condition[0].rules, ctx), Fragments(condition[1..], ctx))
  }

  /** The filter of a condition, or `None` where it cannot be met in this context. */
  function Lower(condition: Condition, ctx: Context): Option<Query> {
    match Fragments(condition, ctx)
    case None => None
    case Some(fragments) =>
      if fragments == [] then None
      else if |fragments| == 1 then Some(fragments[0])
      else Some(Query([Logic(And, fragments)]))
  }

  lemma JoinLaws(a: Option<seq<Query>>, b: Option<seq<Query>>, c: Option<seq<Query>>)
    ensures Join(Join(a, b), c) == Join(a, Join(b, c))
    ensures Join(Some([]), a) == a
    ensures Join(a, Some([])) == a
  {
    if a.Some? && b.Some? && c.Some? {
      assert a.value + b.value + c.value == a.value + (b.value + c.value);
    }
    if a.Some? {
      assert [] + a.value == a.value && a.value + [] == a.value;
    }
  }

  /** The loops of `resolve` and `resolveBlock`, pushing fragments and giving up on the first field
      without a value. */
  method ResolveCondition(condition: Condition, ctx: Context) returns (filter: Option<Query>)
    ensures filter == Lower(condition, ctx)
  {
    var fragments: seq<Query> := [];
    JoinLaws(Fragments(condition, ctx), None, None);
    assert condition[0..] == condition;
    for i := 0 to |condition|
      invariant Fragments(condition, ctx) == Join(Some(fragments), Fragments(condition[i..], ctx))
    {
      assert condition[i..][1..] == condition[i + 1..];
      var fragment := ResolveBlock(condition[i].operator, condition[i].rules, ctx);
      if fragment.None? {
        return None;
      }
      JoinLaws(Some(fragments), fragment, Fragments(condition[i + 1..], ctx));
      fragments := fragments + fragment.value;
    }
    assert fragments + [] == fragments;
    if fragments == [] {
      return None;
    }
    if |fragments| == 1 {
      return Some(fragments[0]);
    }
    return Some(Query([Logic(And, fragments)]));
  }

  method ResolveBlock(operator: ConditionOperator, rules: seq<Rule>, ctx: Context) returns (fragments: Option<seq<Query>>)
    ensures fragments == BlockFragments(operator, rules, ctx)
  {
    var pushed: seq<Query> := [];
    JoinLaws(BlockFragments(operator, rules, ctx), None, None);
    assert rules[0..] == rules;
    for i := 0 to |rules|
      invariant BlockFragments(operator, rules, ctx) == Join(Some(pushed), BlockFragments(operator, rules[i..], ctx))
    {
      assert rules[i..][1..] == rules[i + 1..];
      var values := CollectValues(rules[i].values, ctx);
      if values == [] {
        return None;
      }
      var one := FieldFilter(operator, rules[i].field, values);
      JoinLaws(Some(pushed), Some([one]), BlockFragments(operator, rules[i + 1..], ctx));
      pushed := pushed + [one];
    }
    assert pushed + [] == pushed;
    return Some(pushed);
  }

  /** Values whose context key is absent are dropped. */
  method CollectValues(raws: seq<Raw>, ctx: Context) returns (values: seq<Value>)
    ensures values == ResolveValues(raws, ctx)
  {
    values := [];
    assert raws[0..] == raws;
    for j := 0 to |raws|
      invariant ResolveValues(raws, ctx) == values + ResolveValues(raws[j..], ctx)
    {
      assert raws[j..][1..] == raws[j + 1..];
      var resolved := ResolveValue(raws[j], ctx);
      if resolved.Some? {
        values := values + [resolved.value];
      }
    }
    assert raws[|raws|..] == [];
  }
}
