/** Who hears of an update or a delete, and in which messages: the cut-down records that travel with the event, looked up
    in the index, and the devices found batched. */
module ChangeEvents {
  import opened Values
  import opened Schemas
  import opened FilterQuery
  import opened SchemaValidator
  import opened ModelSchemas
  import opened SubscriptionKeys
  import opened SubscriptionIndex
  import opened SubscriptionRelation
  import opened DeviceLookup
  import opened Texts
  import opened FanOut

  /** A stored record with its version, as an update left it or a delete found it. */
  datatype Change = Change(record: Record, version: real)

  function Targets(changes: seq<Change>, fields: set<Path>): seq<Record> {
    seq(|changes|, i requires 0 <= i < |changes| => Delivered(changes[i].record, fields, changes[i].version))
  }

  /** Some stored record meets the filter. */
  predicate SomeMeets(query: Query, schema: Schema, host: Host, changes: seq<Change>) {
    && NewFilter(query, schema, host).Ok?
    && exists c :: c in changes && Test(NewFilter(query, schema, host).value, c.record, host)
  }

  function FieldsOf(model: ModelDef, auth: bool): set<Path> {
    FilterableFields(UniversalFields() + AppModelSchema(model, auth))
  }

  function TrialOf(model: ModelDef, auth: bool, host: Host, changes: seq<Change>): Trial {
    Trial(Some(AppModelSchema(model, auth)), host, Targets(changes, FieldsOf(model, auth)))
  }

  /** A stored filter passes on what was delivered exactly when a stored record meets it. */
  lemma PassesIffStoredMeets(query: Query, model: ModelDef, auth: bool, host: Host, changes: seq<Change>)
    requires model.fields.Keys !! RESERVED
    ensures Passes(query, TrialOf(model, auth, host, changes))
       <==> SomeMeets(query, AppModelSchema(model, auth), host, changes)
  {
    var schema, targets := AppModelSchema(model, auth), Targets(changes, FieldsOf(model, auth));
    if NewFilter(query, schema, host).Ok? {
      var nodes := NewFilter(query, schema, host).value;
      forall i | 0 <= i < |changes|
        ensures Test(nodes, targets[i], host) <==> Test(nodes, changes[i].record, host)
        ensures targets[i] in targets && changes[i] in changes
      {
        DeliveredGivesSameVerdict(query, model, auth, host, changes[i].record, changes[i].version);
      }
      forall t | t in targets && Test(nodes, t, host)
        ensures exists c :: c in changes && Test(nodes, c.record, host)
      {
        var i :| 0 <= i < |targets| && targets[i] == t;
      }
      forall c | c in changes && Test(nodes, c.record, host)
        ensures exists t :: t in targets && Test(nodes, t, host)
      {
        var i :| 0 <= i < |changes| && changes[i] == c;
      }
    }
  }

  /** A channel covers the object, and has no filter or one that a stored record meets. */
  predicate Concerns(c: Channel, filters: map<Slot, Query>, e: Event, model: ModelDef, auth: bool, host: Host, changes: seq<Change>) {
    && Covers(c, e)
    && (c.filterId.Some? ==> SlotOf(c) in filters && SomeMeets(filters[SlotOf(c)], AppModelSchema(model, auth), host, changes))
  }

  /** The channels a device hears of the change on. */
  function Heard(subs: set<Subscription>, filters: map<Slot, Query>, m: DeviceRef, e: Event, model: ModelDef, auth: bool, host: Host,
                 changes: seq<Change>): set<Channel>
  {
    set s | s in subs && s.member == m && Concerns(s.channel, filters, e, model, auth, host, changes) :: s.channel
  }

  lemma HeardIsScanned(subs: set<Subscription>, filters: map<Slot, Query>, m: DeviceRef, e: Event, model: ModelDef, auth: bool,
                       host: Host, changes: seq<Change>)
    requires model.fields.Keys !! RESERVED
    ensures ScanFor(subs, filters, m, e, TrialOf(model, auth, host, changes)) == Heard(subs, filters, m, e, model, auth, host, changes)
  {
    forall s | s in subs
      ensures Hears(s.channel, filters, e, TrialOf(model, auth, host, changes))
         <==> Concerns(s.channel, filters, e, model, auth, host, changes)
    {
      if s.channel.filterId.Some? && SlotOf(s.channel) in filters {
        PassesIffStoredMeets(filters[SlotOf(s.channel)], model, auth, host, changes);
      }
    }
  }

  /** From the stored records to the devices: a device hears of the change under exactly the keys of the channels it
      subscribes to that cover the object and that have no filter, or one that a stored record meets. */
  method FindRecipients(index: Index, e: Event, model: ModelDef, auth: bool, host: Host, changes: seq<Change>,
                        ghost subs: set<Subscription>, ghost hash: Query -> string)
    returns (found: DeviceKeys)
    requires index.Valid() && Agrees(index.Held(), subs, hash) && AllPrintable(subs) && model.fields.Keys !! RESERVED
    ensures forall m :: KeysFor(found, m) == KeysOfChannels(Heard(subs, index.filters, m, e, model, auth, host, changes))
    ensures forall m :: m in found ==> found[m] != {}
  {
    found := GetDevices(index, e, TrialOf(model, auth, host, changes));
    forall m
      ensures KeysFor(found, m) == KeysOfChannels(Heard(subs, index.filters, m, e, model, auth, host, changes))
    {
      LookupIsScan(index.Held(), subs, found, m, e, TrialOf(model, auth, host, changes), hash);
      HeardIsScanned(subs, index.filters, m, e, model, auth, host, changes);
    }
  }

  // ---- The messages ----

  /** The group with this signature is one of the transport's and serves the device. */
  predicate Serves(groups: Groups, m: DeviceRef, signature: string) {
    m.transport in groups && signature in groups[m.transport] && m.deviceId in groups[m.transport][signature].deviceIds
  }

  /** The device gets one message, under exactly the keys of these channels; none when there are none. */
  ghost predicate GetsOneMessage(groups: Groups, m: DeviceRef, channels: set<Channel>) {
    && (channels != {} <==> exists signature :: Serves(groups, m, signature))
    && (forall a, b :: Serves(groups, m, a) && Serves(groups, m, b) ==> a == b)
    && (forall a :: Serves(groups, m, a) ==> SetOf(groups[m.transport][a].channels) == KeysOfChannels(channels))
  }

  lemma HeardKeysArePrinted(channels: set<Channel>)
    requires channels != {} && forall c :: c in channels ==> Printable(c) && Lacks(c.appId, '\n') && Lacks(c.model, '\n')
    ensures FanOut.AreKeys(KeysOfChannels(channels))
  {
    PrintedKeys(channels, channels);
  }

  lemma OneMessageEach(groups: Groups, found: DeviceKeys, m: DeviceRef, channels: set<Channel>)
    requires AllKeys(found) && Batched(groups, found, found.Keys)
    requires KeysFor(found, m) == KeysOfChannels(channels) && (m in found ==> found[m] != {})
    ensures GetsOneMessage(groups, m, channels)
  {
    assert channels != {} <==> KeysOfChannels(channels) != {} by {
      if c :| c in channels {
        assert GetKey(c) in KeysOfChannels(channels);
      }
    }
    if m in found {
      assert IsFiled(groups, m, found[m]);
      var own :| own in groups[m.transport]
        && SetOf(groups[m.transport][own].channels) == found[m] && m.deviceId in groups[m.transport][own].deviceIds;
      assert Serves(groups, m, own);
    }
    forall a | Serves(groups, m, a)
      ensures m in found && SetOf(groups[m.transport][a].channels) == found[m]
    {
      RecipientsAreConserved(groups, found, m, a);
    }
    forall a, b | Serves(groups, m, a) && Serves(groups, m, b)
      ensures a == b
    {
      GroupsDiffer(groups, found, m.transport, a, b);
    }
  }

  /** From a change to its messages: a device that hears of it on some channels is in exactly one group of its transport,
      which names the keys of those channels and no other, and a device that hears of it on none is in no group. */
  method BatchRecipients(index: Index, e: Event, model: ModelDef, auth: bool, host: Host, changes: seq<Change>,
                         ghost subs: set<Subscription>, ghost hash: Query -> string)
    returns (groups: Groups)
    requires index.Valid() && Agrees(index.Held(), subs, hash) && AllPrintable(subs) && model.fields.Keys !! RESERVED
    requires Lacks(e.appId, '\n') && Lacks(e.model, '\n')
    ensures forall m :: GetsOneMessage(groups, m, Heard(subs, index.filters, m, e, model, auth, host, changes))
  {
    var found := FindRecipients(index, e, model, auth, host, changes, subs, hash);
    forall m | m in found
      ensures FanOut.AreKeys(found[m])
    {
      var channels := Heard(subs, index.filters, m, e, model, auth, host, changes);
      assert found[m] == KeysFor(found, m) == KeysOfChannels(channels);
      HeardKeysArePrinted(channels);
    }
    groups := GroupDevices(found);
    forall m
      ensures GetsOneMessage(groups, m, Heard(subs, index.filters, m, e, model, auth, host, changes))
    {
      OneMessageEach(groups, found, m, Heard(subs, index.filters, m, e, model, auth, host, changes));
    }
  }
}
