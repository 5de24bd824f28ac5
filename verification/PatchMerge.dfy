/** The database adapter's update: all patches of one document become one script and one action. */
module PatchMerge {
  import opened Values
  import opened Schemas
  import opened JsonPatch
  import opened PatchScripts
  import SV = SchemaValidator

  datatype Metadata = Metadata(modelType: string, appId: Option<string>, id: string)

  /** A validated patch: paths, normalised values and the types of the fields at the paths. */
  datatype ValidPatch = ValidPatch(metadata: Metadata, op: PatchOp, path: seq<Path>, value: seq<Value>, types: seq<FieldType>) {
    ghost predicate Valid() {
      |path| == |value| == |types|
    }
  }

  datatype DocKey = DocKey(index: string, id: string)

  /** The index of a document; every model but an application and a setting needs an app id. */
  function KeyOf(m: Metadata): Option<DocKey> {
    if m.modelType == "application" || m.modelType == "setting" then Some(DocKey("nxx-" + m.modelType, m.id))
    else if m.appId.None? || m.appId.value == "" then None
    else Some(DocKey("nxx-app-" + m.appId.value + "-" + m.modelType, m.id))
  }

  predicate IsGlobal(modelType: string) {
    modelType in {"application", "setting"}
  }

  /** Applications and settings have keys of their own, and other documents need an application. Of one application's
      models, as of those two, two documents have one key exactly when they have one type and one id. */
  lemma KeysOfOneApplication(a: Metadata, b: Metadata)
    ensures KeyOf(a).Some? <==> IsGlobal(a.modelType) || (a.appId.Some? && a.appId.value != "")
    ensures IsGlobal(a.modelType) && IsGlobal(b.modelType) ==>
              (KeyOf(a) == KeyOf(b) <==> a.modelType == b.modelType && a.id == b.id)
    ensures !IsGlobal(a.modelType) && !IsGlobal(b.modelType) && a.appId == b.appId && KeyOf(a).Some? ==>
              (KeyOf(a) == KeyOf(b) <==> a.modelType == b.modelType && a.id == b.id)
    ensures IsGlobal(a.modelType) && !IsGlobal(b.modelType) && KeyOf(b).Some? ==> KeyOf(a) != KeyOf(b)
  {
    if KeyOf(a).Some? && KeyOf(b).Some? {
      var x, y := KeyOf(a).value.index, KeyOf(b).value.index;
      if !IsGlobal(a.modelType) && !IsGlobal(b.modelType) && a.appId == b.appId {
        var prefix := "nxx-app-" + a.appId.value + "-";
        assert x[|prefix|..] == a.modelType && y[|prefix|..] == b.modelType;
      } else if IsGlobal(a.modelType) && !IsGlobal(b.modelType) {
        assert y[..8] == "nxx-app-" && y[7] == '-';
        assert x == "nxx-application" || x == "nxx-setting";
        assert x[7] != '-';
      }
    }
  }

  datatype Bucket = Bucket(lines: seq<Line>, params: map<nat, Value>, count: nat)

  datatype Action = Action(key: DocKey, lines: seq<Line>, params: map<nat, Value>)

  /** The line of a step, or none where the operation has no script for the field's type. */
  predicate HasLine(step: PatchStep) {
    match step.op
    case Replace => true
    case Append => step.fieldType == ArrayType || step.fieldType == Primitive(StringType)
    case Prepend => step.fieldType == ArrayType || step.fieldType == Primitive(StringType)
    case Incr => IsNumeric(step.fieldType)
    case Decr => IsNumeric(step.fieldType)
    case Remove => step.fieldType == ArrayType
  }

  /** A step has a line exactly when the operation is one for fields of that type. */
  lemma LineIffAllowed(step: PatchStep)
    ensures HasLine(step) <==> Allows(step.op, step.fieldType)
  {
  }

  function AddStep(bucket: Bucket, step: PatchStep): Bucket {
    if !HasLine(step) then bucket
    else
      Bucket(bucket.lines + [Line(step.op, step.path, step.fieldType, ByIndex(step), bucket.count)],
             bucket.params[bucket.count := step.operand],
             bucket.count + 1)
  }

  function AddSteps(bucket: Bucket, steps: seq<PatchStep>): Bucket
    decreases |steps|
  {
    if steps == [] then bucket else AddSteps(AddStep(bucket, steps[0]), steps[1..])
  }

  const EMPTY := Bucket([], map[], 0)

  function StepsOf(p: ValidPatch): seq<PatchStep>
    requires p.Valid()
  {
    seq(|p.path|, i requires 0 <= i < |p.path| => PatchStep(p.op, p.path[i], p.types[i], p.value[i]))
  }

  /** All steps on one document, in the order of the collection. */
  function StepsFor(collection: seq<ValidPatch>, key: DocKey): seq<PatchStep>
    requires forall p :: p in collection ==> p.Valid()
  {
    if collection == [] then []
    else
      var last := collection[|collection| - 1];
      StepsFor(collection[..|collection| - 1], key) + (if KeyOf(last.metadata) == Some(key) then StepsOf(last) else [])
  }

  lemma {:induction false} AddConcat(bucket: Bucket, a: seq<PatchStep>, b: seq<PatchStep>)
    ensures AddSteps(bucket, a + b) == AddSteps(AddSteps(bucket, a), b)
    decreases |a|
  {
    if a == [] {
      assert a + b == b;
    } else {
      assert (a + b)[1..] == a[1..] + b;
      AddConcat(AddStep(bucket, a[0]), a[1..], b);
    }
  }

  ghost predicate IsPatched(collection: seq<ValidPatch>, key: DocKey) {
    exists p :: p in collection && KeyOf(p.metadata) == Some(key)
  }

  // ---- The loops ----

  /** The lines of one patch. */
  method AddPatch(start: Bucket, p: ValidPatch) returns (bucket: Bucket)
    requires p.Valid()
    ensures bucket == AddSteps(start, StepsOf(p))
  {
    bucket := start;
    ghost var steps := StepsOf(p);
    assert steps[0..] == steps;
    for idx := 0 to |p.path|
      invariant AddSteps(start, steps) == AddSteps(bucket, steps[idx..])
    {
      assert steps[idx..][1..] == steps[idx + 1..];
      bucket := AddStep(bucket, PatchStep(p.op, p.path[idx], p.types[idx], p.value[idx]));
    }
  }

  /** What `updateItems` does before it talks to the database: nothing to send, a refusal because an app
      id is missing or because nothing can be expressed for some document, or the actions. */
  datatype Prepared = Refused | Unsupported(keys: seq<DocKey>) | Send(actions: seq<Action>)

  /** Groups the patches by document, in the order documents first appear. */
  method GroupPatches(collection: seq<ValidPatch>) returns (docBuckets: map<DocKey, Bucket>, order: seq<DocKey>, ok: bool)
    requires forall p :: p in collection ==> p.Valid()
    ensures ok <==> forall p :: p in collection ==> KeyOf(p.metadata).Some?
    ensures ok ==> forall k :: k in docBuckets <==> IsPatched(collection, k)
    ensures ok ==> forall k :: k in docBuckets ==> docBuckets[k] == AddSteps(EMPTY, StepsFor(collection, k))
    ensures ok ==> (forall k :: k in order <==> k in docBuckets)
    ensures forall i, j :: 0 <= i < j < |order| ==> order[i] != order[j]
  {
    docBuckets, order, ok := map[], [], true;
    for n := 0 to |collection|
      invariant forall p :: p in collection[..n] ==> KeyOf(p.metadata).Some?
      invariant forall k :: k in docBuckets <==> IsPatched(collection[..n], k)
      invariant forall k :: k in docBuckets ==> docBuckets[k] == AddSteps(EMPTY, StepsFor(collection[..n], k))
      invariant forall k :: k in order <==> k in docBuckets
      invariant forall i, j :: 0 <= i < j < |order| ==> order[i] != order[j]
    {
      var p := collection[n];
      ghost var before := collection[..n];
      assert collection[..n + 1] == before + [p];
      assert p in collection;
      var found := KeyOf(p.metadata);
      if found.None? {
        ok := false;
        return;
      }
      var key := found.value;
      forall k | k != key
        ensures IsPatched(before + [p], k) <==> IsPatched(before, k)
        ensures StepsFor(before + [p], k) == StepsFor(before, k)
      {
        StepsForNext(before, p, k);
      }
      StepsForNext(before, p, key);
      if key !in docBuckets {
        StepsForUnpatched(before, key);
        docBuckets := docBuckets[key := EMPTY];
        order := order + [key];
      }
      AddConcat(EMPTY, StepsFor(before, key), StepsOf(p));
      var bucket := AddPatch(docBuckets[key], p);
      docBuckets := docBuckets[key := bucket];
    }
    assert collection[..|collection|] == collection;
  }

  lemma {:induction false} StepsForNext(before: seq<ValidPatch>, p: ValidPatch, key: DocKey)
    requires p.Valid() && forall q :: q in before ==> q.Valid()
    ensures StepsFor(before + [p], key) == StepsFor(before, key) + (if KeyOf(p.metadata) == Some(key) then StepsOf(p) else [])
    ensures IsPatched(before + [p], key) <==> IsPatched(before, key) || KeyOf(p.metadata) == Some(key)
  {
  }

  lemma {:induction false} StepsForUnpatched(collection: seq<ValidPatch>, key: DocKey)
    requires (forall p :: p in collection ==> p.Valid()) && !IsPatched(collection, key)
    ensures StepsFor(collection, key) == []
    decreases |collection|
  {
    if collection != [] {
      StepsForUnpatched(collection[..|collection| - 1], key);
    }
  }

  /** The action of one document. */
  function ActionFor(collection: seq<ValidPatch>, key: DocKey): Action
    requires forall p :: p in collection ==> p.Valid()
  {
    BucketAction(key, AddSteps(EMPTY, StepsFor(collection, key)))
  }

  function BucketAction(key: DocKey, bucket: Bucket): Action {
    Action(key, bucket.lines, bucket.params)
  }

  /** One action for each patched document. */
  ghost predicate IsPlan(collection: seq<ValidPatch>, actions: seq<Action>)
    requires forall p :: p in collection ==> p.Valid()
  {
    && (forall a :: a in actions ==> IsPatched(collection, a.key) && a == ActionFor(collection, a.key))
    && (forall k :: IsPatched(collection, k) ==> exists a :: a in actions && a.key == k)
    && (forall i, j :: 0 <= i < j < |actions| ==> actions[i].key != actions[j].key)
  }

  ghost predicate HasNoLine(collection: seq<ValidPatch>, key: DocKey)
    requires forall p :: p in collection ==> p.Valid()
  {
    IsPatched(collection, key) && ActionFor(collection, key).lines == []
  }

  /** Nothing is sent when some patched document has no line at all. */
  method PrepareUpdate(collection: seq<ValidPatch>) returns (prepared: Prepared)
    requires forall p :: p in collection ==> p.Valid()
    ensures prepared.Refused? <==> collection == [] || exists p :: p in collection && KeyOf(p.metadata).None?
    ensures prepared.Unsupported? ==> prepared.keys != [] && forall k :: k in prepared.keys <==> HasNoLine(collection, k)
    ensures prepared.Send? ==> IsPlan(collection, prepared.actions) && forall k :: !HasNoLine(collection, k)
  {
    if collection == [] {
      return Refused;
    }
    var docBuckets, order, ok := GroupPatches(collection);
    if !ok {
      return Refused;
    }
    var actions, failures := CollectActions(docBuckets, order);
    if failures != [] {
      return Unsupported(failures);
    }
    PlanFromOrder(collection, order, actions);
    return Send(actions);
  }

  method CollectActions(docBuckets: map<DocKey, Bucket>, order: seq<DocKey>) returns (actions: seq<Action>, failures: seq<DocKey>)
    requires forall k :: k in order ==> k in docBuckets
    ensures failures == [] ==> |actions| == |order| && forall i :: 0 <= i < |order| ==>
              actions[i] == BucketAction(order[i], docBuckets[order[i]]) && actions[i].lines != []
    ensures forall k :: k in failures <==> k in order && docBuckets[k].lines == []
  {
    actions, failures := [], [];
    for n := 0 to |order|
      invariant failures == [] ==> |actions| == n && forall i :: 0 <= i < n ==>
                  actions[i] == BucketAction(order[i], docBuckets[order[i]]) && actions[i].lines != []
      invariant forall k :: k in failures <==> k in order[..n] && docBuckets[k].lines == []
    {
      assert order[n] in order && order[..n + 1] == order[..n] + [order[n]];
      var bucket := docBuckets[order[n]];
      if bucket.lines == [] {
        failures := failures + [order[n]];
      } else {
        actions := actions + [BucketAction(order[n], bucket)];
      }
    }
    assert order[..|order|] == order;
  }

  lemma PlanFromOrder(collection: seq<ValidPatch>, order: seq<DocKey>, actions: seq<Action>)
    requires forall p :: p in collection ==> p.Valid()
    requires forall k :: k in order <==> IsPatched(collection, k)
    requires forall i, j :: 0 <= i < j < |order| ==> order[i] != order[j]
    requires |actions| == |order|
    requires forall i :: 0 <= i < |order| ==> actions[i] == ActionFor(collection, order[i]) && actions[i].lines != []
    ensures IsPlan(collection, actions) && forall k :: !HasNoLine(collection, k)
  {
  }

  // ---- What the merged script does ----

  /** Runs the lines in order; a line whose parameter is missing fails. */
  function RunScript(lines: seq<Line>, params: map<nat, Value>, record: Record): Result<Record> {
    if lines == [] then Ok(record)
    else if lines[0].param !in params then Err
    else
      var next :- Exec(lines[0].op, lines[0].path, lines[0].fieldType, lines[0].byIndex, params[lines[0].param], record);
      RunScript(lines[1..], params, next)
  }

  /** Line n of a document's script is its n-th step and reads parameter n, which only it uses. */
  lemma {:induction false} LinesAre(steps: seq<PatchStep>)
    requires forall s :: s in steps ==> HasLine(s)
    ensures var b := AddSteps(EMPTY, steps);
            && |b.lines| == |steps| == b.count
            && (forall n: nat :: n in b.params <==> n < |steps|)
            && forall n :: 0 <= n < |steps| ==>
                 && b.lines[n] == Line(steps[n].op, steps[n].path, steps[n].fieldType, ByIndex(steps[n]), n)
                 && b.params[n] == steps[n].operand
    decreases |steps|
  {
    if steps != [] {
      var n := |steps| - 1;
      assert steps == steps[..n] + [steps[n]];
      LinesAre(steps[..n]);
      AddConcat(EMPTY, steps[..n], [steps[n]]);
      assert [steps[n]][1..] == [];
    }
  }

  lemma {:induction false} RunFrom(steps: seq<PatchStep>, lines: seq<Line>, params: map<nat, Value>, n: nat, record: Record)
    requires n <= |steps| == |lines|
    requires forall i :: 0 <= i < |steps| ==>
               && lines[i] == Line(steps[i].op, steps[i].path, steps[i].fieldType, ByIndex(steps[i]), i)
               && i in params && params[i] == steps[i].operand
    ensures RunScript(lines[n..], params, record) == ApplyAll(steps[n..], record)
    decreases |steps| - n
  {
    if n < |steps| {
      assert lines[n..][1..] == lines[n + 1..] && steps[n..][1..] == steps[n + 1..];
      var next := Apply(steps[n], record);
      if next.Ok? {
        RunFrom(steps, lines, params, n + 1, next.value);
      }
    }
  }

  /** The merged script is the steps, one after the other. */
  lemma {:induction false} MergedScriptAppliesInOrder(steps: seq<PatchStep>, record: Record)
    requires forall s :: s in steps ==> HasLine(s)
    ensures var b := AddSteps(EMPTY, steps); RunScript(b.lines, b.params, record) == ApplyAll(steps, record)
  {
    var b := AddSteps(EMPTY, steps);
    LinesAre(steps);
    RunFrom(steps, b.lines, b.params, 0, record);
    assert b.lines[0..] == b.lines && steps[0..] == steps;
  }

  // ---- The store ----

  datatype Stored = Stored(source: Record, version: nat)

  type Store = map<DocKey, Stored>

  /** A bulk update runs each action on its document: a missing document and a failed script change
      nothing, and a script that succeeds bumps the version once. */
  function RunAction(a: Action, store: Store): Store {
    if a.key !in store then store
    else
      match RunScript(a.lines, a.params, store[a.key].source)
      case Err => store
      case Ok(source) => store[a.key := Stored(source, store[a.key].version + 1)]
  }

  function Bulk(actions: seq<Action>, store: Store): Store {
    if actions == [] then store else Bulk(actions[1..], RunAction(actions[0], store))
  }

  /** What the patches mean for one document: all of its steps in order, or nothing. */
  function Updated(collection: seq<ValidPatch>, key: DocKey, stored: Stored): Stored
    requires forall p :: p in collection ==> p.Valid()
  {
    match ApplyAll(StepsFor(collection, key), stored.source)
    case Err => stored
    case Ok(source) => Stored(source, stored.version + 1)
  }

  lemma {:induction false} BulkAt(actions: seq<Action>, store: Store, key: DocKey)
    requires forall i, j :: 0 <= i < j < |actions| ==> actions[i].key != actions[j].key
    ensures Bulk(actions, store).Keys == store.Keys
    ensures key in store && (forall a :: a in actions ==> a.key != key) ==> Bulk(actions, store)[key] == store[key]
    ensures forall a :: a in actions && a.key == key && key in store ==> Bulk(actions, store)[key] == RunAction(a, store)[key]
    decreases |actions|
  {
    if actions != [] {
      var first, rest := actions[0], actions[1..];
      BulkAt(rest, RunAction(first, store), key);
      assert forall a :: a in actions <==> a == first || a in rest;
      forall a | a in rest
        ensures a.key != first.key
      {
        var i :| 0 <= i < |rest| && rest[i] == a;
        assert actions[i + 1] == a;
      }
    }
  }

  ghost predicate AllHaveLines(collection: seq<ValidPatch>)
    requires forall p :: p in collection ==> p.Valid()
  {
    forall key, s :: s in StepsFor(collection, key) ==> HasLine(s)
  }

  /** Sending the actions leaves in the store what the patches mean: every patched document has all of
      its steps applied in order under one version bump, or is untouched; no other document changes. */
  lemma {:induction false} UpdateMeans(collection: seq<ValidPatch>, actions: seq<Action>, store: Store)
    requires (forall p :: p in collection ==> p.Valid()) && AllHaveLines(collection)
    requires IsPlan(collection, actions)
    ensures Bulk(actions, store)
         == map k | k in store :: if IsPatched(collection, k) then Updated(collection, k, store[k]) else store[k]
  {
    forall k: DocKey
      ensures k in Bulk(actions, store) <==> k in store
      ensures k in store ==>
                Bulk(actions, store)[k] == if IsPatched(collection, k) then Updated(collection, k, store[k]) else store[k]
    {
      BulkAt(actions, store, k);
      if k in store {
        UpdateMeansAt(collection, actions, store, k);
      }
    }
  }

  lemma {:induction false} UpdateMeansAt(collection: seq<ValidPatch>, actions: seq<Action>, store: Store, key: DocKey)
    requires (forall p :: p in collection ==> p.Valid()) && AllHaveLines(collection)
    requires IsPlan(collection, actions) && key in store
    ensures key in Bulk(actions, store)
    ensures Bulk(actions, store)[key] == if IsPatched(collection, key) then Updated(collection, key, store[key]) else store[key]
  {
    BulkAt(actions, store, key);
    if IsPatched(collection, key) {
      var a :| a in actions && a.key == key;
      assert a == ActionFor(collection, key);
      MergedScriptAppliesInOrder(StepsFor(collection, key), store[key].source);
    }
  }

  // ---- Validated patches ----

  /** A patch as validation leaves it: every path may be patched, with its type and a fitting operand. */
  ghost predicate IsValidated(p: ValidPatch, schema: Schema, names: set<string>) {
    p.Valid() && forall i :: 0 <= i < |p.path| ==> StepFits(StepsOf(p)[i], schema, names)
  }

  /** Validation leaves patches so. */
  lemma {:induction false} ValidationValidates(op: PatchOp, path: seq<Path>, values: seq<Value>, schema: Schema, host: Host,
                                               metadata: Metadata)
    requires |path| == |values| && ValidatePairs(op, path, values, schema, host).Ok?
    ensures |ValidatePairs(op, path, values, schema, host).value| == |path|
    ensures IsValidated(ValidPatch(metadata, op, path, ValidatePairs(op, path, values, schema, host).value,
                                   TypesAt(path, schema)), schema, host.inherited)
  {
    SecondPassAcceptsPatch(op, path, values, schema, host);
  }

  lemma {:induction false} StepsFit(collection: seq<ValidPatch>, key: DocKey, schema: Schema, names: set<string>)
    requires forall p :: p in collection ==> p.Valid()
    requires forall p :: p in collection && KeyOf(p.metadata) == Some(key) ==> IsValidated(p, schema, names)
    ensures forall s :: s in StepsFor(collection, key) ==> StepFits(s, schema, names) && HasLine(s)
    decreases |collection|
  {
    if collection != [] {
      StepsFit(collection[..|collection| - 1], key, schema, names);
      var last := collection[|collection| - 1];
      assert last in collection;
    }
  }

  /** A group of validated patches on a conforming document: every path has its line, and the document
      either stays as it is or becomes, with one version bump, a conforming one. */
  lemma {:induction false} ValidatedUpdateConforms(collection: seq<ValidPatch>, key: DocKey, schema: Schema, stored: Stored,
                                                   names: set<string>)
    requires forall p :: p in collection ==> p.Valid()
    requires forall p :: p in collection && KeyOf(p.metadata) == Some(key) ==> IsValidated(p, schema, names)
    requires SchemaConforms(stored.source, schema, names)
    ensures var after := Updated(collection, key, stored);
            && SchemaConforms(after.source, schema, names)
            && (after == stored || after.version == stored.version + 1)
    ensures |ActionFor(collection, key).lines| == |StepsFor(collection, key)|
  {
    StepsFit(collection, key, schema, names);
    ApplyAllConforms(StepsFor(collection, key), schema, stored.source, names);
    LinesAre(StepsFor(collection, key));
  }

  /** Both together: validated patches sent to a store leave every patched document conforming, changed by its
      own steps in order under one version bump or not at all, and every other document as it was. */
  lemma {:induction false} ValidatedUpdateMeans(collection: seq<ValidPatch>, actions: seq<Action>, store: Store,
                                                schemaOf: DocKey -> Schema, names: set<string>)
    requires forall p :: p in collection ==> p.Valid()
    requires forall p :: p in collection ==>
               KeyOf(p.metadata).Some? && IsValidated(p, schemaOf(KeyOf(p.metadata).value), names)
    requires forall k :: k in store && IsPatched(collection, k) ==> SchemaConforms(store[k].source, schemaOf(k), names)
    requires IsPlan(collection, actions)
    ensures Bulk(actions, store)
         == map k | k in store :: if IsPatched(collection, k) then Updated(collection, k, store[k]) else store[k]
    ensures forall k :: k in store && IsPatched(collection, k) ==>
              && SchemaConforms(Updated(collection, k, store[k]).source, schemaOf(k), names)
              && (Updated(collection, k, store[k]) == store[k] || Updated(collection, k, store[k]).version == store[k].version + 1)
  {
    forall key
      ensures forall s :: s in StepsFor(collection, key) ==> HasLine(s)
    {
      StepsFit(collection, key, schemaOf(key), names);
    }
    UpdateMeans(collection, actions, store);
    forall k | k in store && IsPatched(collection, k)
      ensures SchemaConforms(Updated(collection, k, store[k]).source, schemaOf(k), names)
      ensures Updated(collection, k, store[k]) == store[k] || Updated(collection, k, store[k]).version == store[k].version + 1
    {
      ValidatedUpdateConforms(collection, k, schemaOf(k), store[k], names);
    }
  }

  ghost predicate SchemaConforms(record: Record, schema: Schema, names: set<string>) {
    SV.RecordConforms(record, PatchSchema(schema), names)
  }
}
