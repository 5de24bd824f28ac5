/** What whole roles come to: the statements a user type is granted, roles that only read, and the rule that lets users at
    what they own. */
module AclRules {
  import opened Values
  import opened Schemas
  import opened FilterQuery
  import opened AclStatements
  import opened Acl
  import opened AclMeaning

  /** The statements in play are those of the loaded roles that the application lists for the user type. */
  lemma {:induction false} GrantedStatementsAre(app: App, userType: string, s: Statement)
    ensures s in Statements(GrantedRoles(app, RoleNames(app, userType)))
       <==> userType in app.userTypes
            && exists name :: name in app.userTypes[userType] && name in app.managers && s in app.managers[name]
  {
    NamedRolesAre(app, RoleNames(app, userType), s);
  }

  lemma {:induction false} NamedRolesAre(app: App, names: seq<string>, s: Statement)
    ensures s in Statements(GrantedRoles(app, names)) <==> exists name :: name in names && name in app.managers && s in app.managers[name]
  {
    if names != [] {
      NamedRolesAre(app, names[1..], s);
      assert names == [names[0]] + names[1..];
      var rest := GrantedRoles(app, names[1..]);
      if names[0] in app.managers {
        var role := app.managers[names[0]];
        assert GrantedRoles(app, names) == [role] + rest;
        assert s in Statements([role] + rest) <==> s in role || s in Statements(rest) by {
          assert forall r :: r in [role] + rest <==> r == role || r in rest;
        }
      }
    }
  }

  /** No Allow of theirs has another token than this one. */
  ghost predicate OnlyAllow(statements: set<Statement>, token: string) {
    forall s, t :: s in statements && s.allow && t in s.action ==> t == token
  }

  lemma TokenAllowsNot(s: Statement, token: string, action: Action, model: string)
    requires (forall t :: t in s.action ==> t == token) && token == if ChangesObjects(action) then "read" else "write"
    ensures !Applies(s, action, model)
  {
    TokensDenote(token, action);
  }

  lemma NothingIsPermitted(statements: set<Statement>, action: Action, model: string, ctx: Context, schema: Schema, host: Host,
                           record: Option<Record>)
    requires forall s :: s in statements && s.allow ==> !Applies(s, action, model)
    ensures !Permitted(statements, action, model, ctx, schema, host, record)
  {
  }

  /** A user whose roles allow nothing but `read` changes nothing, and one whose roles allow nothing but `write` reads
      nothing, whatever the conditions and the object. */
  lemma {:induction false} ReadersChangeNothing(app: App, userType: Option<string>, userId: Option<string>, appId: string,
                                                action: Action, model: string, schema: Schema, host: Host, record: Option<Record>)
    requires app.aclEnabled
    ensures var statements := Statements(GrantedRoles(app, RoleNames(app, EffectiveType(userType))));
            OnlyAllow(statements, if ChangesObjects(action) then "read" else "write") ==>
              Decide(app, userType, userId, appId, action, model, schema, host, record) == AccessDenied
  {
    var statements := Statements(GrantedRoles(app, RoleNames(app, EffectiveType(userType))));
    var token := if ChangesObjects(action) then "read" else "write";
    if OnlyAllow(statements, token) {
      forall s | s in statements && s.allow
        ensures !Applies(s, action, model)
      {
        TokenAllowsNot(s, token, action, model);
      }
      NothingIsPermitted(statements, action, model, ContextOf(userType, userId, appId), schema, host, record);
      DecidesAsPermitted(app, userType, userId, appId, action, model, schema, host, record);
    }
  }

  /** Allow this action on this model to the owner of the object. */
  function OwnerMay(action: Action, model: string): Statement {
    Statement(true, [TokenOf(action)], [model], Some([Block(StringEquals, [Rule(["userId"], [Text("$nxx:userId")])])]))
  }

  /** Where that is the one statement granted, a user passes at exactly the objects of that model that carry the user's
      id, with exactly that action. */
  lemma {:induction false} OwnersPass(app: App, userType: Option<string>, userId: Option<string>, appId: string, action: Action,
                                      model: string, asked: Action, on: string, schema: Schema, host: Host,
                                      record: Option<Record>)
    requires app.aclEnabled && model != "*"
    requires Statements(GrantedRoles(app, RoleNames(app, EffectiveType(userType)))) == {OwnerMay(action, model)}
    requires FieldAt(UniversalFields() + schema, ["userId"]) == Some(PrimField(StringType, true, false, true))
    ensures Decide(app, userType, userId, appId, asked, on, schema, host, record) == Passed
       <==> asked == action && on == model && userId.Some? && record.Some?
            && "userId" in record.value && OwnedBy(record.value["userId"], userId.value)
  {
    var s, ctx := OwnerMay(action, model), ContextOf(userType, userId, appId);
    DecidesAsPermitted(app, userType, userId, appId, asked, on, schema, host, record);
    OwnerMayApplies(action, model, asked, on);
    OwnerMayGrants(s, asked, on, ctx, schema, host);
    OnlyThatGrants({s}, s, asked, on, ctx, schema, host, record);
    if userId.Some? && record.Some? {
      OwnerRuleMet(ctx, record.value);
    }
  }

  lemma OwnerMayApplies(action: Action, model: string, asked: Action, on: string)
    requires model != "*"
    ensures Applies(OwnerMay(action, model), asked, on) <==> asked == action && on == model
  {
    var s := OwnerMay(action, model);
    TokensDenote("", action);
    assert s.action[0] in s.action && s.resource[0] in s.resource;
  }

  lemma OwnerMayGrants(s: Statement, asked: Action, on: string, ctx: Context, schema: Schema, host: Host)
    requires s.allow && s.condition == Some([Block(StringEquals, [OWNER])])
    requires FieldAt(UniversalFields() + schema, ["userId"]) == Some(PrimField(StringType, true, false, true))
    ensures Grants(s, asked, on, ctx) <==> Applies(s, asked, on) && ctx.userId.Some?
    ensures Compiles(s.condition.value, ctx, schema, host)
  {
    OwnerRuleIs(s.condition.value, ctx);
  }

  lemma OnlyThatGrants(statements: set<Statement>, s: Statement, asked: Action, on: string, ctx: Context, schema: Schema, host: Host,
                       record: Option<Record>)
    requires statements == {s} && s.allow && s.condition.Some? && Compiles(s.condition.value, ctx, schema, host)
    ensures Permitted(statements, asked, on, ctx, schema, host, record)
       <==> record.Some? && Grants(s, asked, on, ctx) && ConditionMet(s.condition.value, ctx, record.value)
  {
    assert s in statements;
    assert !IsDenied(statements, asked, on) && !IsOpen(statements, asked, on);
    assert AllCompile(statements, asked, on, ctx, schema, host);
    if record.Some? {
      OnlyThatIsMet(statements, s, asked, on, ctx, record.value);
    }
  }

  lemma OnlyThatIsMet(statements: set<Statement>, s: Statement, asked: Action, on: string, ctx: Context, record: Record)
    requires statements == {s} && s.allow && s.condition.Some?
    ensures SomeMet(statements, asked, on, ctx, record) <==> Grants(s, asked, on, ctx) && ConditionMet(s.condition.value, ctx, record)
  {
    assert s in statements;
  }

  /** The id, or a list with it. */
  predicate OwnedBy(v: Value, userId: string) {
    v == Str(userId) || (v.Arr? && Str(userId) in v.items)
  }

  const OWNER := Rule(["userId"], [Text("$nxx:userId")])

  lemma {:induction false} OwnerRuleIs(condition: Condition, ctx: Context)
    requires condition == [Block(StringEquals, [OWNER])]
    ensures Rules(condition) == [(StringEquals, OWNER)]
    ensures ResolveValues(OWNER.values, ctx) == if ctx.userId.Some? then [Str(ctx.userId.value)] else []
  {
    assert [OWNER][1..] == [] && condition[1..] == [] && OWNER.values[1..] == [];
    assert Tag(StringEquals, [OWNER]) == [(StringEquals, OWNER)] + Tag(StringEquals, []);
    assert Rules([]) == [] && ResolveValues([], ctx) == [];
    ValuesResolve("userId", "", 0.0, ctx);
    assert "$nxx:" + "userId" == "$nxx:userId";
  }

  lemma OwnerRuleMet(ctx: Context, record: Record)
    requires ctx.userId.Some?
    ensures ConditionMet([Block(StringEquals, [OWNER])], ctx, record)
       <==> "userId" in record && OwnedBy(record["userId"], ctx.userId.value)
  {
    OwnerRuleIs([Block(StringEquals, [OWNER])], ctx);
    assert (StringEquals, OWNER) in Rules([Block(StringEquals, [OWNER])]);
    var id := Str(ctx.userId.value);
    assert id in [id];
  }
}
