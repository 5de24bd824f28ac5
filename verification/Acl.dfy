/** The decision engine: a role's verdict, the aggregate over roles, and the row check. */
module Acl {
  import opened Values
  import opened Schemas
  import opened FilterQuery
  import opened AclStatements

  /** A statement compiled for lookup. Conditions only scope Allow statements. */
  datatype Compiled = Compiled(allow: bool, actions: set<Action>, allModels: bool, models: set<string>, condition: Option<Condition>)

  datatype Verdict = Deny | Neutral | Allow(constraint: Option<Query>)

  predicate Applies(s: Statement, action: Action, model: string) {
    && (exists t :: t in s.action && ExpandToken(t).Some? && action in ExpandToken(t).value)
    && ("*" in s.resource || model in s.resource)
  }

  ghost predicate IsCompiled(c: Compiled, s: Statement) {
    && c.allow == s.allow
    && (forall a :: a in c.actions <==> exists t :: t in s.action && ExpandToken(t).Some? && a in ExpandToken(t).value)
    && (c.allModels <==> "*" in s.resource)
    && (forall m :: m in c.models <==> m in s.resource && m != "*")
    && c.condition == if s.allow then s.condition else None
  }

  method Compile(s: Statement) returns (c: Compiled)
    ensures IsCompiled(c, s)
  {
    var allModels := false;
    var models: set<string> := {};
    for i := 0 to |s.resource|
      invariant allModels <==> "*" in s.resource[..i]
      invariant forall m :: m in models <==> m in s.resource[..i] && m != "*"
    {
      assert s.resource[..i + 1] == s.resource[..i] + [s.resource[i]];
      if s.resource[i] == "*" {
        allModels := true;
      } else {
        models := models + {s.resource[i]};
      }
    }
    assert s.resource[..|s.resource|] == s.resource;
    var actions := ExpandActions(s.action);
    c := Compiled(s.allow, actions, allModels, models, if s.allow then s.condition else None);
  }

  // ---- One role ----

  predicate Denies(s: Statement, action: Action, model: string) {
    Applies(s, action, model) && !s.allow
  }

  predicate AllowsAll(s: Statement, action: Action, model: string) {
    Applies(s, action, model) && s.allow && s.condition.None?
  }

  /** The row filter a statement contributes, where it is a conditional Allow that can be met. */
  function RowFilter(s: Statement, action: Action, model: string, ctx: Context): Option<Query> {
    if Applies(s, action, model) && s.allow && s.condition.Some? then Lower(s.condition.value, ctx) else None
  }

  function RowFilters(statements: seq<Statement>, action: Action, model: string, ctx: Context): seq<Query> {
    if statements == [] then []
    else
      var first := RowFilter(statements[0], action, model, ctx);
      (if first.Some? then [first.value] else []) + RowFilters(statements[1..], action, model, ctx)
  }

  /** Several row filters are alternatives. */
  function AnyOf(filters: seq<Query>): Query
    requires filters != []
  {
    if |filters| == 1 then filters[0] else Query([Logic(Or, filters)])
  }

  predicate SomeDenies(statements: seq<Statement>, action: Action, model: string) {
    statements != [] && (Denies(statements[0], action, model) || SomeDenies(statements[1..], action, model))
  }

  predicate SomeAllowsAll(statements: seq<Statement>, action: Action, model: string) {
    statements != [] && (AllowsAll(statements[0], action, model) || SomeAllowsAll(statements[1..], action, model))
  }

  function Extend(filters: seq<Query>, filter: Option<Query>): seq<Query> {
    if filter.Some? then filters + [filter.value] else filters
  }

  /** The verdict once the statements left are read, from what the ones before contributed. */
  function VerdictFrom(open: bool, filters: seq<Query>, left: seq<Statement>, action: Action, model: string, ctx: Context): Verdict {
    var all := filters + RowFilters(left, action, model, ctx);
    if SomeDenies(left, action, model) then Deny
    else if open || SomeAllowsAll(left, action, model) then Allow(None)
    else if all == [] then Neutral
    else Allow(Some(AnyOf(all)))
  }

  function RoleVerdict(statements: seq<Statement>, action: Action, model: string, ctx: Context): Verdict {
    VerdictFrom(false, [], statements, action, model, ctx)
  }

  lemma VerdictStep(open: bool, filters: seq<Query>, left: seq<Statement>, action: Action, model: string, ctx: Context)
    requires left != [] && !Denies(left[0], action, model)
    ensures VerdictFrom(open, filters, left, action, model, ctx)
         == VerdictFrom(open || AllowsAll(left[0], action, model), Extend(filters, RowFilter(left[0], action, model, ctx)),
                        left[1..], action, model, ctx)
  {
    var first := RowFilter(left[0], action, model, ctx);
    var head := if first.Some? then [first.value] else [];
    var rest := RowFilters(left[1..], action, model, ctx);
    assert filters + (head + rest) == (filters + head) + rest;
    assert filters + [] == filters;
  }

  lemma CompiledApplies(c: Compiled, s: Statement, action: Action, model: string)
    requires IsCompiled(c, s)
    ensures Applies(s, action, model) <==> action in c.actions && (c.allModels || model in c.models)
  {
  }

  /** `evaluate`: the loop over the compiled statements, leaving at the first matching Deny. */
  method Evaluate(compiled: seq<Compiled>, ghost statements: seq<Statement>, action: Action, model: string, ctx: Context)
    returns (verdict: Verdict)
    requires |compiled| == |statements| && forall i :: 0 <= i < |compiled| ==> IsCompiled(compiled[i], statements[i])
    ensures verdict == RoleVerdict(statements, action, model, ctx)
  {
    var unconditionalAllow := false;
    var constraints: seq<Query> := [];
    assert statements[0..] == statements;
    for i := 0 to |compiled|
      invariant RoleVerdict(statements, action, model, ctx)
             == VerdictFrom(unconditionalAllow, constraints, statements[i..], action, model, ctx)
    {
      assert statements[i..][1..] == statements[i + 1..];
      var c := compiled[i];
      CompiledApplies(c, statements[i], action, model);
      if !Denies(statements[i], action, model) {
        VerdictStep(unconditionalAllow, constraints, statements[i..], action, model, ctx);
      }
      if action !in c.actions {
        continue;
      }
      if !c.allModels && model !in c.models {
        continue;
      }
      if !c.allow {
        return Deny;
      }
      if c.condition.None? {
        unconditionalAllow := true;
        continue;
      }
      var filter := ResolveCondition(c.condition.value, ctx);
      if filter.Some? {
        constraints := constraints + [filter.value];
      }
    }
    assert statements[|statements|..] == [] && constraints + [] == constraints;
    if unconditionalAllow {
      return Allow(None);
    }
    if constraints == [] {
      return Neutral;
    }
    if |constraints| == 1 {
      return Allow(Some(constraints[0]));
    }
    return Allow(Some(Query([Logic(Or, constraints)])));
  }

  // ---- All roles ----

  type Role = seq<Statement>

  /** `Refused`, or granted with the rows it is granted for (`None`: all of them). */
  datatype Grant = Refused | Granted(constraint: Option<Query>)

  function RoleFilters(roles: seq<Role>, action: Action, model: string, ctx: Context): seq<Query> {
    if roles == [] then []
    else
      var verdict := RoleVerdict(roles[0], action, model, ctx);
      (if verdict.Allow? && verdict.constraint.Some? then [verdict.constraint.value] else [])
      + RoleFilters(roles[1..], action, model, ctx)
  }

  predicate HasVerdict(roles: seq<Role>, verdict: Verdict, action: Action, model: string, ctx: Context) {
    roles != []
    && (RoleVerdict(roles[0], action, model, ctx) == verdict || HasVerdict(roles[1..], verdict, action, model, ctx))
  }

  /** The grant once the roles left are read, from what the ones before contributed. */
  function GrantFrom(open: bool, filters: seq<Query>, left: seq<Role>, action: Action, model: string, ctx: Context): Grant {
    var all := filters + RoleFilters(left, action, model, ctx);
    if HasVerdict(left, Deny, action, model, ctx) then Refused
    else if open || HasVerdict(left, Allow(None), action, model, ctx) then Granted(None)
    else if all == [] then Refused
    else Granted(Some(AnyOf(all)))
  }

  function Resolve(roles: seq<Role>, action: Action, model: string, ctx: Context): Grant {
    GrantFrom(false, [], roles, action, model, ctx)
  }

  lemma GrantStep(open: bool, filters: seq<Query>, role: Role, rest: seq<Role>, action: Action, model: string, ctx: Context)
    ensures GrantFrom(open, filters, [role] + rest, action, model, ctx)
         == var v := RoleVerdict(role, action, model, ctx);
            if v == Deny then Refused
            else GrantFrom(open || v == Allow(None), if v.Allow? then Extend(filters, v.constraint) else filters,
                           rest, action, model, ctx)
  {
    assert ([role] + rest)[0] == role && ([role] + rest)[1..] == rest;
    var v := RoleVerdict(role, action, model, ctx);
    var head := if v.Allow? && v.constraint.Some? then [v.constraint.value] else [];
    var tail := RoleFilters(rest, action, model, ctx);
    assert filters + (head + tail) == (filters + head) + tail;
    assert filters + [] == filters;
  }

  /** An application: its user types with the names of their roles, and the roles loaded. */
  datatype App = App(aclEnabled: bool, userTypes: map<string, seq<string>>, managers: map<string, Role>)

  function RoleNames(app: App, userType: string): seq<string> {
    if userType in app.userTypes then app.userTypes[userType] else []
  }

  /** The loaded roles granted to a user type; a name without a role is skipped. */
  function GrantedRoles(app: App, names: seq<string>): seq<Role> {
    if names == [] then []
    else (if names[0] in app.managers then [app.managers[names[0]]] else []) + GrantedRoles(app, names[1..])
  }

  method CompileRole(role: Role) returns (compiled: seq<Compiled>)
    ensures |compiled| == |role| && forall i :: 0 <= i < |role| ==> IsCompiled(compiled[i], role[i])
  {
    compiled := [];
    for i := 0 to |role|
      invariant |compiled| == i && forall j :: 0 <= j < i ==> IsCompiled(compiled[j], role[j])
    {
      var c := Compile(role[i]);
      compiled := compiled + [c];
    }
  }

  /** `NexxusAclManager.resolve`: the loop over role names, leaving at the first deny. */
  method ResolveRoles(app: App, userType: string, action: Action, model: string, ctx: Context) returns (grant: Grant)
    ensures grant == Resolve(GrantedRoles(app, RoleNames(app, userType)), action, model, ctx)
  {
    var names := RoleNames(app, userType);
    var sawAllow, unconditional := false, false;
    var constraints: seq<Query> := [];
    ghost var roles := GrantedRoles(app, names);
    assert names[0..] == names;
    for i := 0 to |names|
      invariant Resolve(roles, action, model, ctx)
             == GrantFrom(unconditional, constraints, GrantedRoles(app, names[i..]), action, model, ctx)
      invariant sawAllow <==> unconditional || constraints != []
    {
      assert names[i..][1..] == names[i + 1..];
      ghost var rest := GrantedRoles(app, names[i + 1..]);
      if names[i] !in app.managers {
        assert GrantedRoles(app, names[i..]) == rest;
        continue;
      }
      var role := app.managers[names[i]];
      GrantStep(unconditional, constraints, role, rest, action, model, ctx);
      var compiled := CompileRole(role);
      var verdict := Evaluate(compiled, role, action, model, ctx);
      if verdict == Deny {
        return Refused;
      }
      if verdict.Allow? {
        sawAllow := true;
        if verdict.constraint.None? {
          unconditional := true;
        } else {
          constraints := constraints + [verdict.constraint.value];
        }
      }
    }
    assert names[|names|..] == [] && constraints + [] == constraints;
    if !sawAllow {
      return Refused;
    }
    if unconditional {
      return Granted(None);
    }
    if |constraints| == 1 {
      return Granted(Some(constraints[0]));
    }
    return Granted(Some(Query([Logic(Or, constraints)])));
  }

  // ---- Enforcement ----

  /** Let through, refused with 403, or failed because the row filter does not compile. */
  datatype Decision = Passed | AccessDenied | FilterRejected

  /** `authorize` followed by `enforceRowConstraint` on one object (`None`: it was not found). */
  function Decide(app: App, userType: Option<string>, userId: Option<string>, appId: string, action: Action, model: string,
                  schema: Schema, host: Host, record: Option<Record>): Decision
  {
    if !app.aclEnabled then Passed
    else
      var effective := if userType.Some? then userType.value else "default";
      var ctx := Context(userId, Some(effective), Some(appId));
      match Resolve(GrantedRoles(app, RoleNames(app, effective)), action, model, ctx)
      case Refused => AccessDenied
      case Granted(None) => Passed
      case Granted(Some(constraint)) => EnforceRow(constraint, schema, host, record)
  }

  function EnforceRow(constraint: Query, schema: Schema, host: Host, record: Option<Record>): Decision {
    if record.None? then AccessDenied
    else if NewFilter(constraint, schema, host).Err? then FilterRejected
    else if Test(NewFilter(constraint, schema, host).value, record.value, host) then Passed
    else AccessDenied
  }
}
