/** The Transport Manager's lookup: who hears about an event, found through the index. */
module DeviceLookup {
  import opened Values
  import opened Schemas
  import opened FilterQuery
  import opened Texts
  import opened SubscriptionKeys
  import opened SubscriptionIndex
  import opened SubscriptionRelation

  /** A change on one object. */
  datatype Event = Event(appId: string, model: string, modelId: Option<string>, userId: Option<string>)

  /** `generateSubscriptionPatterns` */
  function Patterns(e: Event): seq<Channel> {
    [Channel(e.appId, e.model, None, None, None)]
    + (if IsGiven(e.userId) then [Channel(e.appId, e.model, None, e.userId, None)] else [])
    + (if IsGiven(e.modelId) then
         [Channel(e.appId, e.model, e.modelId, None, None)]
         + (if IsGiven(e.userId) then [Channel(e.appId, e.model, e.modelId, e.userId, None)] else [])
       else [])
  }

  /** What an event is tested with: the schema of its model (`None` is a type the application does not declare) and
      the objects it carries. */
  datatype Trial = Trial(schema: Option<Schema>, host: Host, targets: seq<Record>)

  /** A stored filter that does not compile never passes. */
  predicate Passes(query: Query, trial: Trial) {
    trial.schema.Some? && NewFilter(query, trial.schema.value, trial.host).Ok?
    && exists t :: t in trial.targets && Test(NewFilter(query, trial.schema.value, trial.host).value, t, trial.host)
  }

  // ---- The keys an event is looked up under ----

  predicate PassingSlot(filters: map<Slot, Query>, pattern: Channel, slot: Slot, trial: Trial) {
    slot in filters && slot.registry == GetKey(pattern) && Passes(filters[slot], trial)
  }

  /** A pattern whose scope has no counter has none; the others have their own key and those of the filters that
      are stored for it and pass. */
  function KeysOf(held: Contents, pattern: Channel, trial: Trial): set<string> {
    if ScopeOf(pattern) !in held.scopes then {}
    else
      {GetKey(pattern)}
      + set slot | slot in held.filters && PassingSlot(held.filters, pattern, slot, trial) ::
          GetKey(pattern.(filterId := Some(slot.filterId)))
  }

  function AllKeysOf(held: Contents, patterns: seq<Channel>, trial: Trial): set<string> {
    set i, k | 0 <= i < |patterns| && k in KeysOf(held, patterns[i], trial) :: k
  }

  // ---- Building the map ----

  type DeviceKeys = map<DeviceRef, set<string>>

  function KeysFor(found: DeviceKeys, m: DeviceRef): set<string> {
    if m in found then found[m] else {}
  }

  /** Every device is mapped to those of the keys it is listed under, and no device to none. */
  ghost predicate Reaches(found: DeviceKeys, entries: set<Entry>, keys: set<string>) {
    && (forall m, k :: k in KeysFor(found, m) <==> k in keys && Entry(k, m) in entries)
    && (forall m :: m in found ==> found[m] != {})
  }

  /** Adds a key to each of the devices, making an entry where there is none. */
  method AddKey(found: DeviceKeys, devices: set<DeviceRef>, key: string) returns (more: DeviceKeys)
    ensures forall m :: KeysFor(more, m) == KeysFor(found, m) + (if m in devices then {key} else {})
    ensures (forall m :: m in found ==> found[m] != {}) ==> forall m :: m in more ==> more[m] != {}
  {
    more := found;
    var todo := devices;
    while todo != {}
      invariant todo <= devices
      invariant forall m :: KeysFor(more, m) == KeysFor(found, m) + (if m in devices && m !in todo then {key} else {})
      invariant (forall m :: m in found ==> found[m] != {}) ==> forall m :: m in more ==> more[m] != {}
      decreases todo
    {
      var m :| m in todo;
      todo := todo - {m};
      if m !in more {
        more := more[m := {}];
      }
      more := more[m := more[m] + {key}];
    }
  }

  /** Reads one channel's devices and adds its key to them. */
  method AddSubscribers(index: Index, found: DeviceKeys, c: Channel, ghost keys: set<string>) returns (more: DeviceKeys)
    requires index.Valid() && Reaches(found, index.entries, keys)
    ensures Reaches(more, index.entries, keys + {GetKey(c)})
  {
    var devices := index.GetAllDevices(c);
    var key := GetKeyString(c);
    more := AddKey(found, devices, key);
  }

  /** The stored filters of one pattern that pass: each is compiled, skipped when it does not compile, and
      tested against the targets. */
  method PassingFilters(filters: map<Slot, Query>, pattern: Channel, trial: Trial) returns (passing: set<Slot>)
    ensures forall slot :: slot in passing <==> PassingSlot(filters, pattern, slot, trial)
  {
    passing := {};
    if |trial.targets| == 0 {
      return;
    }
    var all := set slot | slot in filters && slot.registry == GetKey(pattern);
    var todo := all;
    while todo != {}
      invariant todo <= all
      invariant forall slot :: slot in passing <==> slot in all && slot !in todo && Passes(filters[slot], trial)
      decreases todo
    {
      var slot :| slot in todo;
      todo := todo - {slot};
      if trial.schema.None? {
        continue;
      }
      var filter := NewFilter(filters[slot], trial.schema.value, trial.host);
      if filter.Err? {
        continue;
      }
      if exists t :: t in trial.targets && Test(filter.value, t, trial.host) {
        passing := passing + {slot};
      }
    }
  }

  function SlotKeys(pattern: Channel, slots: set<Slot>): set<string> {
    set slot | slot in slots :: GetKey(pattern.(filterId := Some(slot.filterId)))
  }

  lemma SlotKeysMore(pattern: Channel, slots: set<Slot>, slot: Slot)
    ensures SlotKeys(pattern, slots + {slot}) == SlotKeys(pattern, slots) + {GetKey(pattern.(filterId := Some(slot.filterId)))}
  {
  }

  method AddFiltered(index: Index, found: DeviceKeys, pattern: Channel, slots: set<Slot>, ghost keys: set<string>)
    returns (more: DeviceKeys)
    requires index.Valid() && Reaches(found, index.entries, keys)
    ensures Reaches(more, index.entries, keys + SlotKeys(pattern, slots))
  {
    more := found;
    var todo := slots;
    ghost var done := {};
    assert keys + SlotKeys(pattern, {}) == keys;
    while todo != {}
      invariant done + todo == slots && Reaches(more, index.entries, keys + SlotKeys(pattern, done))
      decreases todo
    {
      var slot :| slot in todo;
      var c := pattern.(filterId := Some(slot.filterId));
      more := AddSubscribers(index, more, c, keys + SlotKeys(pattern, done));
      SlotKeysMore(pattern, done, slot);
      assert keys + SlotKeys(pattern, done + {slot}) == keys + SlotKeys(pattern, done) + {GetKey(c)};
      todo, done := todo - {slot}, done + {slot};
    }
    assert done == slots;
  }

  /** One turn of the loop: a pattern whose scope has no counter is skipped. */
  method VisitPattern(index: Index, pattern: Channel, found: DeviceKeys, trial: Trial, ghost keys: set<string>)
    returns (more: DeviceKeys)
    requires index.Valid() && Reaches(found, index.entries, keys)
    ensures Reaches(more, index.entries, keys + KeysOf(index.Held(), pattern, trial))
  {
    if ScopeOf(pattern) !in index.scopes {
      assert keys + {} == keys;
      return found;
    }
    more := AddSubscribers(index, found, pattern, keys);
    var passing := PassingFilters(index.filters, pattern, trial);
    more := AddFiltered(index, more, pattern, passing, keys + {GetKey(pattern)});
    assert keys + {GetKey(pattern)} + SlotKeys(pattern, passing) == keys + KeysOf(index.Held(), pattern, trial);
  }

  lemma AllKeysMore(held: Contents, patterns: seq<Channel>, i: nat, trial: Trial)
    requires i < |patterns|
    ensures AllKeysOf(held, patterns[..i + 1], trial) == AllKeysOf(held, patterns[..i], trial) + KeysOf(held, patterns[i], trial)
  {
    var more := patterns[..i + 1];
    assert more[i] == patterns[i];
    forall k | k in AllKeysOf(held, patterns[..i], trial)
      ensures k in AllKeysOf(held, more, trial)
    {
      var j :| 0 <= j < i && k in KeysOf(held, patterns[..i][j], trial);
      assert more[j] == patterns[..i][j];
    }
    forall k | k in AllKeysOf(held, more, trial)
      ensures k in AllKeysOf(held, patterns[..i], trial) + KeysOf(held, patterns[i], trial)
    {
      var j :| 0 <= j <= i && k in KeysOf(held, more[j], trial);
      assert j < i ==> more[j] == patterns[..i][j];
    }
  }

  /** The loop over the patterns, whatever the index holds: a device is found under exactly those of the event's keys
      that it is listed under. */
  method GetDevices(index: Index, e: Event, trial: Trial) returns (found: DeviceKeys)
    requires index.Valid()
    ensures Reaches(found, index.entries, AllKeysOf(index.Held(), Patterns(e), trial))
  {
    found := map[];
    var patterns := Patterns(e);
    for i := 0 to |patterns|
      invariant Reaches(found, index.entries, AllKeysOf(index.Held(), patterns[..i], trial))
    {
      found := VisitPattern(index, patterns[i], found, trial, AllKeysOf(index.Held(), patterns[..i], trial));
      AllKeysMore(index.Held(), patterns, i, trial);
    }
    assert patterns[..|patterns|] == patterns;
  }

  // ---- The full scan ----

  predicate Covers(c: Channel, e: Event) {
    && c.appId == e.appId && c.model == e.model
    && (c.modelId.Some? ==> c.modelId == e.modelId)
    && (c.userId.Some? ==> c.userId == e.userId)
  }

  predicate Hears(c: Channel, filters: map<Slot, Query>, e: Event, trial: Trial) {
    && Covers(c, e)
    && (c.filterId.Some? ==> SlotOf(c) in filters && Passes(filters[SlotOf(c)], trial))
  }

  /** What a scan of all subscriptions finds for one device: the channels it hears the event on. */
  function ScanFor(subs: set<Subscription>, filters: map<Slot, Query>, m: DeviceRef, e: Event, trial: Trial): set<Channel> {
    set s | s in subs && s.member == m && Hears(s.channel, filters, e, trial) :: s.channel
  }

  function KeysOfChannels(channels: set<Channel>): set<string> {
    set c | c in channels :: GetKey(c)
  }

  /** The patterns are the channels without a filter that cover the event; no given id is empty. */
  lemma PatternsAre(e: Event)
    ensures forall c: Channel :: c.modelId != Some("") && c.userId != Some("") ==>
              (c in Patterns(e) <==> c.filterId.None? && Covers(c, e))
  {
    forall c: Channel | c.filterId.None? && Covers(c, e) && c.modelId != Some("") && c.userId != Some("")
      ensures c in Patterns(e)
    {
      assert c == Channel(e.appId, e.model, c.modelId, c.userId, None);
      if c.modelId.None? && c.userId.None? {
        assert Patterns(e)[0] == c;
      } else if c.modelId.None? {
        assert Patterns(e)[1] == c;
      } else if c.userId.None? {
        assert Patterns(e)[if IsGiven(e.userId) then 2 else 1] == c;
      } else {
        assert Patterns(e)[3] == c;
      }
    }
  }

  lemma GivenInPatterns(e: Event, i: nat)
    requires i < |Patterns(e)|
    ensures var p := Patterns(e)[i];
            p.filterId.None? && Covers(p, e) && p.modelId != Some("") && p.userId != Some("")
  {
  }

  /** A pattern that is looked up is one some device subscribes to, with or without a filter: the pattern with both
      ids never is, nor is one that no key can be read back to. */
  lemma ActiveIsPrintable(subs: set<Subscription>, scopes: map<Scope, int>, p: Channel)
    requires AllPrintable(subs) && Positive(scopes) && ScopesHold(scopes, subs) && ScopeOf(p) in scopes
    requires p.filterId.None? && p.modelId != Some("") && p.userId != Some("")
    ensures Printable(p)
  {
    assert Count(scopes, ScopeOf(p)) == |AtScope(subs, ScopeOf(p))|;
    assert AtScope(subs, ScopeOf(p)) != {};
    var s :| s in AtScope(subs, ScopeOf(p));
    assert Printable(s.channel);
    SameDescriptor(s.channel, p);
    SameRegistry(s.channel.appId, s.channel.model, p.appId, p.model);
  }

  /** A descriptor without a colon in its ids is of one pair of ids. */
  lemma SameDescriptor(c: Channel, p: Channel)
    requires Printable(c) && p.modelId != Some("") && p.userId != Some("")
    requires ScopeDescriptor(c.modelId, c.userId) == ScopeDescriptor(p.modelId, p.userId)
    ensures p.modelId == c.modelId && p.userId == c.userId
  {
    if p.modelId.Some? && p.userId.Some? {
      var both := p.modelId.value + "|" + "user:" + p.userId.value;
      assert both[|p.modelId.value| + 5] == ':';
      BothIdsShareADescriptor(p.modelId.value, p.userId.value);
      DescriptorsAreInjective(c.(filterId := None), Channel("", "", Some(both), None, None));
      assert false;
    } else {
      DescriptorsAreInjective(c.(filterId := None), p.(filterId := None));
    }
  }

  lemma SameRegistry(a: string, x: string, b: string, y: string)
    requires Lacks(a, ':') && Lacks(x, ':') && a + ":" + x == b + ":" + y
    ensures a == b && x == y
  {
    var s, t := a + ":" + x, b + ":" + y;
    assert forall i :: 0 <= i < |s| && s[i] == ':' ==> i == |a|;
    assert t[|b|] == ':';
    assert s[..|a|] == a && t[..|b|] == b && s[|a| + 1..] == x && t[|b| + 1..] == y;
  }

  /** A subscription listed under a key of an active pattern hears the event. */
  lemma FoundIsHeard(held: Contents, subs: set<Subscription>, s: Subscription, e: Event, trial: Trial, hash: Query -> string, i: nat)
    requires Agrees(held, subs, hash) && AllPrintable(subs) && s in subs && i < |Patterns(e)|
    requires GetKey(s.channel) in KeysOf(held, Patterns(e)[i], trial)
    ensures Hears(s.channel, held.filters, e, trial)
  {
    var p := Patterns(e)[i];
    GivenInPatterns(e, i);
    ActiveIsPrintable(subs, held.scopes, p);
    if GetKey(s.channel) == GetKey(p) {
      KeysAreInjective(s.channel, p);
    } else {
      var slot :| slot in held.filters && PassingSlot(held.filters, p, slot, trial)
                  && GetKey(s.channel) == GetKey(p.(filterId := Some(slot.filterId)));
      SlotIsOfPattern(held.filters, subs, s, p, slot, hash);
    }
  }

  /** A slot of a printable pattern is that of its filtered channel. */
  lemma SlotIsOfPattern(filters: map<Slot, Query>, subs: set<Subscription>, s: Subscription, p: Channel, slot: Slot,
                        hash: Query -> string)
    requires FiltersHold(filters, subs, hash) && AllPrintable(subs) && s in subs && Printable(p) && p.filterId.None?
    requires slot in filters && slot.registry == GetKey(p) && GetKey(s.channel) == GetKey(p.(filterId := Some(slot.filterId)))
    ensures s.channel == p.(filterId := Some(slot.filterId)) && SlotOf(s.channel) == slot
  {
    assert HasSlot(subs, slot);
    var other :| other in subs && InSlot(other, slot);
    KeysAreInjective(other.channel.(filterId := None), p);
    KeysAreInjective(s.channel, other.channel);
  }

  /** One that hears the event is listed under a key of an active pattern. */
  lemma HeardIsFound(held: Contents, subs: set<Subscription>, s: Subscription, e: Event, trial: Trial, hash: Query -> string)
    requires Agrees(held, subs, hash) && AllPrintable(subs) && s in subs && Hears(s.channel, held.filters, e, trial)
    ensures GetKey(s.channel) in AllKeysOf(held, Patterns(e), trial)
  {
    var p := s.channel.(filterId := None);
    PatternsAre(e);
    assert Normal(s.channel) == s.channel;
    var i :| 0 <= i < |Patterns(e)| && Patterns(e)[i] == p;
    assert s in AtScope(subs, ScopeOf(p));
    assert Count(held.scopes, ScopeOf(p)) == |AtScope(subs, ScopeOf(p))|;
    assert GetKey(s.channel) in KeysOf(held, p, trial) by {
      if s.channel.filterId.Some? {
        assert PassingSlot(held.filters, p, SlotOf(s.channel), trial);
        assert s.channel == p.(filterId := Some(SlotOf(s.channel).filterId));
      } else {
        assert s.channel == p;
      }
    }
  }

  /** The lookup is the scan: where all subscriptions are printable, the keys a device is found under are those of the
      channels it hears the event on. */
  lemma LookupIsScan(held: Contents, subs: set<Subscription>, found: DeviceKeys, m: DeviceRef, e: Event, trial: Trial,
                     hash: Query -> string)
    requires Agrees(held, subs, hash) && AllPrintable(subs)
    requires Reaches(found, held.entries, AllKeysOf(held, Patterns(e), trial))
    ensures KeysFor(found, m) == KeysOfChannels(ScanFor(subs, held.filters, m, e, trial))
  {
    forall k | k in KeysFor(found, m)
      ensures k in KeysOfChannels(ScanFor(subs, held.filters, m, e, trial))
    {
      assert Entry(k, m) in EntriesOf(subs);
      var s :| s in subs && EntryOf(s) == Entry(k, m);
      var i :| 0 <= i < |Patterns(e)| && k in KeysOf(held, Patterns(e)[i], trial);
      FoundIsHeard(held, subs, s, e, trial, hash, i);
      assert s.channel in ScanFor(subs, held.filters, m, e, trial);
    }
    forall c | c in ScanFor(subs, held.filters, m, e, trial)
      ensures GetKey(c) in KeysFor(found, m)
    {
      var s :| s in subs && s.member == m && s.channel == c && Hears(c, held.filters, e, trial);
      HeardIsFound(held, subs, s, e, trial, hash);
      assert EntryOf(s) == Entry(GetKey(c), m);
    }
  }
}
