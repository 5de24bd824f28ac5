/** Records as requests create them, against the schema that patches on them are checked with. */
module CreatedRecords {
  import opened Values
  import opened Schemas
  import opened SchemaValidator
  import opened ModelSchemas
  import opened JsonPatch

  /** A create takes the body with the application and the caller, who may be nobody, in the place of what it says of them. */
  function Owned(body: Record, appId: string, user: Option<string>): Record {
    var own := body["appId" := Str(appId)];
    if user.Some? then own["userId" := Str(user.value)] else own - {"userId"}
  }

  /** The record keeps what the body says of everything but the application and the caller. */
  lemma OwnedIs(body: Record, appId: string, user: Option<string>, name: string)
    ensures var own := Owned(body, appId, user);
            && (name == "appId" ==> Get(own, [name]) == Some(Str(appId)))
            && (name == "userId" ==> if user.Some? then Get(own, [name]) == Some(Str(user.value)) else name !in own)
            && (name !in {"appId", "userId"} ==> Get(own, [name]) == Get(body, [name]))
  {
  }

  /** The record created: validated against what the application declares, and stamped only where the body brings no
      `updatedAt`. */
  function Created(body: Record, appId: string, user: Option<string>, model: ModelDef, now: int, host: Host): Result<Record> {
    var valid :- ValidateRecord(Owned(body, appId, user), model.fields, host);
    Ok(if "updatedAt" in valid then valid else valid["updatedAt" := Num(now as real)])
  }

  /** Marking fields as filterable changes nothing about what conforms. */
  lemma {:induction false} MarkedConforms(v: Value, def: FieldDef, names: set<string>)
    ensures Conforms(v, Mark(def), names) <==> Conforms(v, def, names)
    decreases v, 1
  {
    if def.ObjectField? {
      MarkedObjectConforms(v, def.properties, {}, names);
    }
  }

  lemma {:induction false} MarkedObjectConforms(v: Value, schema: Schema, exempt: set<string>, names: set<string>)
    ensures ObjectConforms(v, MarkAll(schema), exempt, names) <==> ObjectConforms(v, schema, exempt, names)
    decreases v, 0
  {
    if v.Obj? {
      forall k | k in schema && k in v.fields
        ensures Conforms(v.fields[k], Mark(schema[k]), names) <==> Conforms(v.fields[k], schema[k], names)
      {
        MarkedConforms(v.fields[k], schema[k], names);
      }
    }
  }

  /** What a conforming record of the declared fields lacks for the schema that is derived from them. */
  lemma ConformsForModelIff(record: Record, model: ModelDef, auth: bool, names: set<string>)
    requires RecordConforms(record, model.fields, names) && "userId" !in model.fields
    ensures RecordConforms(record, AppModelSchema(model, auth), names)
       <==> (auth ==> "userId" in record && record["userId"].Str?)
  {
    var userId := PrimField(StringType, true, false, true);
    var fields := if auth then model.fields["userId" := userId] else model.fields;
    MarkedObjectConforms(Obj(record), fields, RESERVED, names);
    if auth {
      assert fields["userId"] == userId && MustHave("userId", userId, names);
      assert forall k :: k in model.fields ==> k in fields && fields[k] == model.fields[k];
      if "userId" in record {
        assert Conforms(record["userId"], userId, names) <==> record["userId"].Str?;
      }
    }
  }

  /** A created record is one that patches keep conforming if and only if the body brought no `updatedAt`, or a whole
      number of seconds, and there is a caller where the application has users. */
  lemma CreatedIsPatchableIff(body: Record, appId: string, user: Option<string>, model: ModelDef, auth: bool, now: int, host: Host)
    requires model.fields.Keys !! RESERVED && Created(body, appId, user, model, now, host).Ok?
    ensures RecordConforms(Created(body, appId, user, model, now, host).value, PatchSchema(AppModelSchema(model, auth)), host.inherited)
       <==> ("updatedAt" in body ==> PrimConforms(body["updatedAt"], DateType)) && (auth ==> user.Some?)
  {
    var data := Owned(body, appId, user);
    var created := Created(body, appId, user, model, now, host).value;
    var schema := AppModelSchema(model, auth);
    CreatedConforms(body, appId, user, model, now, host);
    ConformsForModelIff(created, model, auth, host.inherited);
    if RecordConforms(created, schema, host.inherited) {
      ConformsForPatchesIff(created, schema, host.inherited);
    } else {
      LessConforms(created, schema, host.inherited);
    }
  }

  /** What was created conforms to the declared fields and keeps the caller and the stamp. */
  lemma CreatedConforms(body: Record, appId: string, user: Option<string>, model: ModelDef, now: int, host: Host)
    requires model.fields.Keys !! RESERVED && Created(body, appId, user, model, now, host).Ok?
    ensures var created := Created(body, appId, user, model, now, host).value;
            && RecordConforms(created, model.fields, host.inherited)
            && ("userId" in created <==> user.Some?) && (user.Some? ==> created["userId"] == Str(user.value))
            && "updatedAt" in created
            && (PrimConforms(created["updatedAt"], DateType) <==> ("updatedAt" in body ==> PrimConforms(body["updatedAt"], DateType)))
  {
    var data := Owned(body, appId, user);
    var valid := ValidateRecord(data, model.fields, host).value;
    var created := Created(body, appId, user, model, now, host).value;
    assert "userId" in RESERVED && "updatedAt" in RESERVED;
    ValidObjectsConform(Obj(data), model.fields, RESERVED, host);
    assert valid.Keys == data.Keys;
    forall k | k in created && k in model.fields
      ensures k in valid && created[k] == valid[k]
    {
    }
    assert (now as real).Floor == now;
  }

  /** A record that conforms for patches conforms to the model's schema. */
  lemma LessConforms(record: Record, schema: Schema, names: set<string>)
    requires "updatedAt" !in schema
    ensures RecordConforms(record, PatchSchema(schema), names) ==> RecordConforms(record, schema, names)
  {
    var full := PatchSchema(schema);
    assert full.Keys == schema.Keys + {"updatedAt"};
    assert forall k :: k in schema ==> full[k] == schema[k];
    assert "updatedAt" in RESERVED;
  }
}
