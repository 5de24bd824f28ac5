/** The plain relation of channels and devices that the index stands for, and when it does. */
module SubscriptionRelation {
  import opened Values
  import opened FilterQuery
  import opened Texts
  import opened SubscriptionKeys
  import opened SubscriptionIndex

  datatype Subscription = Subscription(channel: Channel, member: DeviceRef)

  /** What a request asks for: a channel whose filter id was derived from its filter. */
  datatype Request = Request(channel: Channel, filter: Option<Query>)

  /** A request gives at most one of the ids; `hash` is the hexadecimal digest of a normalised query. */
  predicate IsRequest(r: Request, hash: Query -> string) {
    && (r.channel.modelId.None? || r.channel.userId.None?)
    && r.channel.filterId == (if r.filter.Some? then Some(hash(r.filter.value)) else None)
    && (r.filter.Some? ==> hash(r.filter.value) != "" && Lacks(hash(r.filter.value), ':'))
  }

  lemma SameScope(r: Request, hash: Query -> string)
    requires IsRequest(r, hash)
    ensures ScopeOf(Normal(r.channel)) == ScopeOf(r.channel)
  {
  }

  // ---- The relation ----

  function EntryOf(s: Subscription): Entry {
    Entry(GetKey(s.channel), s.member)
  }

  function EntriesOf(subs: set<Subscription>): set<Entry> {
    set s | s in subs :: EntryOf(s)
  }

  function AtScope(subs: set<Subscription>, scope: Scope): set<Subscription> {
    set s | s in subs && ScopeOf(s.channel) == scope
  }

  ghost predicate ScopesHold(scopes: map<Scope, int>, subs: set<Subscription>) {
    forall scope :: Count(scopes, scope) == |AtScope(subs, scope)|
  }

  predicate InSlot(s: Subscription, slot: Slot) {
    s.channel.filterId.Some? && SlotOf(s.channel) == slot
  }

  predicate HasSlot(subs: set<Subscription>, slot: Slot) {
    exists s :: s in subs && InSlot(s, slot)
  }

  ghost predicate FiltersHold(filters: map<Slot, Query>, subs: set<Subscription>, hash: Query -> string) {
    && (forall slot :: slot in filters <==> HasSlot(subs, slot))
    && (forall slot :: slot in filters ==> slot.filterId == hash(filters[slot]))
  }

  /** The index holds exactly the members, the counts and the filters of these subscriptions. */
  ghost predicate Agrees(held: Contents, subs: set<Subscription>, hash: Query -> string) {
    && held.entries == EntriesOf(subs)
    && Positive(held.scopes) && ScopesHold(held.scopes, subs)
    && FiltersHold(held.filters, subs, hash)
  }

  predicate AllNormal(subs: set<Subscription>) {
    forall s :: s in subs ==> Normal(s.channel) == s.channel
  }

  /** A counter is of one application, one model and one pair of ids: no other channel has its field. */
  lemma AtScopeIsSameIds(subs: set<Subscription>, c: Channel)
    requires AllNormal(subs) && Normal(c) == c && Lacks(c.appId, ':') && forall s :: s in subs ==> Lacks(s.channel.appId, ':')
    ensures AtScope(subs, ScopeOf(c))
         == set s | s in subs && s.channel.appId == c.appId && s.channel.model == c.model
                    && s.channel.modelId == c.modelId && s.channel.userId == c.userId
  {
    forall s | s in subs
      ensures ScopeOf(s.channel) == ScopeOf(c)
         <==> s.channel.appId == c.appId && s.channel.model == c.model
              && s.channel.modelId == c.modelId && s.channel.userId == c.userId
    {
      DescriptorsAreInjective(s.channel, c);
      RegistriesAreInjective(s.channel.appId, s.channel.model, c.appId, c.model);
    }
  }

  lemma RegistriesAreInjective(a: string, x: string, b: string, y: string)
    requires Lacks(a, ':') && Lacks(b, ':')
    ensures a + ":" + x == b + ":" + y <==> a == b && x == y
  {
    var s, t := a + ":" + x, b + ":" + y;
    assert s[|a|] == ':' && t[|b|] == ':' && s[|a| + 1..] == x && t[|b| + 1..] == y;
    assert s[..|a|] == a && t[..|b|] == b;
    assert |a| < |b| ==> t[|a|] == b[|a|];
    assert |b| < |a| ==> s[|b|] == a[|b|];
  }

  // ---- One operation ----

  /** No subscribed channel shares the key of this one, unless they are the same. */
  ghost predicate Apart(subs: set<Subscription>, c: Channel) {
    forall s :: s in subs && GetKey(s.channel) == GetKey(c) ==> s.channel == Normal(c)
  }

  lemma EntryIffSubscribed(subs: set<Subscription>, c: Channel, m: DeviceRef)
    requires Apart(subs, c)
    ensures Entry(GetKey(c), m) in EntriesOf(subs) <==> Subscription(Normal(c), m) in subs
  {
    if Entry(GetKey(c), m) in EntriesOf(subs) {
      var s :| s in subs && EntryOf(s) == Entry(GetKey(c), m);
      assert s == Subscription(Normal(c), m);
    }
    if Subscription(Normal(c), m) in subs {
      assert EntryOf(Subscription(Normal(c), m)) == Entry(GetKey(c), m);
    }
  }

  lemma EntriesAfterAdd(subs: set<Subscription>, s: Subscription)
    ensures EntriesOf(subs + {s}) == EntriesOf(subs) + {EntryOf(s)}
  {
  }

  lemma EntriesAfterRemove(subs: set<Subscription>, s: Subscription)
    requires s in subs && Apart(subs, s.channel) && Normal(s.channel) == s.channel
    ensures EntriesOf(subs - {s}) == EntriesOf(subs) - {EntryOf(s)}
  {
    forall t | t in subs && EntryOf(t) == EntryOf(s)
      ensures t == s
    {
    }
    assert subs == (subs - {s}) + {s};
    EntriesAfterAdd(subs - {s}, s);
  }

  lemma ScopeAfterAdd(subs: set<Subscription>, s: Subscription)
    requires s !in subs
    ensures forall scope :: |AtScope(subs + {s}, scope)| == |AtScope(subs, scope)| + (if scope == ScopeOf(s.channel) then 1 else 0)
  {
    forall scope
      ensures |AtScope(subs + {s}, scope)| == |AtScope(subs, scope)| + (if scope == ScopeOf(s.channel) then 1 else 0)
    {
      if scope == ScopeOf(s.channel) {
        assert AtScope(subs + {s}, scope) == AtScope(subs, scope) + {s};
      } else {
        assert AtScope(subs + {s}, scope) == AtScope(subs, scope);
      }
    }
  }

  lemma ScopeAfterRemove(subs: set<Subscription>, s: Subscription)
    requires s in subs
    ensures forall scope :: |AtScope(subs - {s}, scope)| == |AtScope(subs, scope)| - (if scope == ScopeOf(s.channel) then 1 else 0)
  {
    assert subs == (subs - {s}) + {s};
    ScopeAfterAdd(subs - {s}, s);
  }

  /** Subscriptions with one slot have one key. */
  lemma SlotIsKey(s: Subscription, c: Channel)
    requires IsGiven(s.channel.filterId) && IsGiven(c.filterId) && SlotOf(s.channel) == SlotOf(c)
    ensures GetKey(s.channel) == GetKey(c)
  {
    FilteredKey(s.channel);
    FilteredKey(c);
  }

  lemma SlotAfterAdd(filters: map<Slot, Query>, subs: set<Subscription>, r: Request, m: DeviceRef, hash: Query -> string)
    requires FiltersHold(filters, subs, hash) && IsRequest(r, hash)
    ensures FiltersHold(if IsGiven(r.channel.filterId) && r.filter.Some? then filters[SlotOf(r.channel) := r.filter.value] else filters,
                        subs + {Subscription(Normal(r.channel), m)}, hash)
  {
    var s := Subscription(Normal(r.channel), m);
    SameSlot(r, hash);
    forall slot
      ensures HasSlot(subs + {s}, slot) <==> HasSlot(subs, slot) || InSlot(s, slot)
    {
    }
  }

  lemma SameSlot(r: Request, hash: Query -> string)
    requires IsRequest(r, hash)
    ensures Normal(r.channel).filterId == r.channel.filterId
    ensures r.channel.filterId.Some? ==> SlotOf(Normal(r.channel)) == SlotOf(r.channel)
  {
    if r.channel.filterId.Some? {
      assert Normal(r.channel.(filterId := None)) == Normal(r.channel).(filterId := None);
    }
  }

  /** The slot of a channel is free once no device is left under its key. */
  lemma SlotFreed(subs: set<Subscription>, c: Channel)
    requires Apart(subs, c) && AllNormal(subs) && IsGiven(c.filterId)
    ensures HasSlot(subs, SlotOf(c)) <==> HasMember(EntriesOf(subs), GetKey(c))
  {
    if HasSlot(subs, SlotOf(c)) {
      var s :| s in subs && InSlot(s, SlotOf(c));
      SlotIsKey(s, c);
      assert EntryOf(s) in EntriesOf(subs);
    }
    if HasMember(EntriesOf(subs), GetKey(c)) {
      var e :| e in EntriesOf(subs) && e.key == GetKey(c);
      var s :| s in subs && EntryOf(s) == e;
      assert s.channel == Normal(c);
      assert Normal(c.(filterId := None)) == Normal(c).(filterId := None);
      assert InSlot(s, SlotOf(c));
    }
  }

  lemma SlotAfterRemove(filters: map<Slot, Query>, subs: set<Subscription>, s: Subscription, hash: Query -> string)
    requires FiltersHold(filters, subs, hash) && s in subs && Apart(subs, s.channel) && AllNormal(subs)
    ensures FiltersHold(if IsGiven(s.channel.filterId) && !HasMember(EntriesOf(subs - {s}), GetKey(s.channel))
                        then filters - {SlotOf(s.channel)} else filters, subs - {s}, hash)
  {
    var left := subs - {s};
    SlotsWithout(subs, s);
    assert Normal(s.channel) == s.channel;
    if s.channel.filterId.Some? {
      SlotFreed(left, s.channel);
      assert InSlot(s, SlotOf(s.channel));
    }
  }

  lemma SlotsWithout(subs: set<Subscription>, s: Subscription)
    requires s in subs
    ensures forall slot :: HasSlot(subs, slot) <==> HasSlot(subs - {s}, slot) || InSlot(s, slot)
  {
    forall slot
      ensures HasSlot(subs, slot) <==> HasSlot(subs - {s}, slot) || InSlot(s, slot)
    {
      if HasSlot(subs, slot) {
        var t :| t in subs && InSlot(t, slot);
        assert t in subs - {s} || t == s;
      }
    }
  }

  lemma AddKeepsAgrees(held: Contents, subs: set<Subscription>, r: Request, m: DeviceRef, hash: Query -> string)
    requires Agrees(held, subs, hash) && AllNormal(subs) && Apart(subs, r.channel) && IsRequest(r, hash)
    ensures Agrees(AfterAdd(held, r.channel, r.filter, m), subs + {Subscription(Normal(r.channel), m)}, hash)
  {
    var s := Subscription(Normal(r.channel), m);
    EntryIffSubscribed(subs, r.channel, m);
    if s in subs {
      assert subs + {s} == subs;
    } else {
      EntriesAfterAdd(subs, s);
      ScopeAfterAdd(subs, s);
      SameScope(r, hash);
      SlotAfterAdd(held.filters, subs, r, m, hash);
    }
  }

  lemma RemoveKeepsAgrees(held: Contents, subs: set<Subscription>, r: Request, m: DeviceRef, hash: Query -> string)
    requires Agrees(held, subs, hash) && AllNormal(subs) && Apart(subs, r.channel) && IsRequest(r, hash)
    ensures Agrees(AfterRemove(held, r.channel, m), subs - {Subscription(Normal(r.channel), m)}, hash)
  {
    var s := Subscription(Normal(r.channel), m);
    EntryIffSubscribed(subs, r.channel, m);
    if s !in subs {
      assert subs - {s} == subs;
    } else {
      EntriesAfterRemove(subs, s);
      ScopeAfterRemove(subs, s);
      SameScope(r, hash);
      SameSlot(r, hash);
      SlotAfterRemove(held.filters, subs, s, hash);
      CountsDrop(held.scopes, subs, s);
    }
  }

  lemma CountsDrop(scopes: map<Scope, int>, subs: set<Subscription>, s: Subscription)
    requires ScopesHold(scopes, subs) && Positive(scopes) && s in subs
    ensures ScopesHold(Decremented(scopes, ScopeOf(s.channel)), subs - {s})
  {
    ScopeAfterRemove(subs, s);
    assert s in AtScope(subs, ScopeOf(s.channel));
  }

  // ---- Runs ----

  datatype Operation = Add(request: Request, member: DeviceRef) | Remove(request: Request, member: DeviceRef)

  /** What the index does. */
  function Perform(held: Contents, op: Operation): Contents {
    match op
    case Add(r, m) => AfterAdd(held, r.channel, r.filter, m)
    case Remove(r, m) => AfterRemove(held, r.channel, m)
  }

  /** What is meant. */
  function Replay(subs: set<Subscription>, op: Operation): set<Subscription> {
    var s := Subscription(Normal(op.request.channel), op.member);
    if op.Add? then subs + {s} else subs - {s}
  }

  function PerformAll(held: Contents, ops: seq<Operation>): Contents
    decreases |ops|
  {
    if ops == [] then held else PerformAll(Perform(held, ops[0]), ops[1..])
  }

  function ReplayAll(subs: set<Subscription>, ops: seq<Operation>): set<Subscription>
    decreases |ops|
  {
    if ops == [] then subs else ReplayAll(Replay(subs, ops[0]), ops[1..])
  }

  /** The index under any operations in any order. */
  method RunOperations(index: Index, ops: seq<Operation>)
    requires index.Valid()
    modifies index
    ensures index.Valid() && index.Held() == PerformAll(old(index.Held()), ops)
  {
    assert ops[0..] == ops;
    for i := 0 to |ops|
      invariant index.Valid() && PerformAll(index.Held(), ops[i..]) == PerformAll(old(index.Held()), ops)
    {
      assert ops[i..][1..] == ops[i + 1..];
      match ops[i] {
        case Add(r, m) => index.AddDevice(r.channel, r.filter, m);
        case Remove(r, m) =>
          var removed := index.RemoveDevice(r.channel, m);
      }
    }
  }

  ghost predicate Within(ops: seq<Operation>, requests: iset<Request>) {
    forall op :: op in ops ==> op.request in requests
  }

  /** Requests with one key ask for one channel. */
  ghost predicate KeysApart(requests: iset<Request>) {
    forall a, b :: a in requests && b in requests && GetKey(a.channel) == GetKey(b.channel) ==> Normal(a.channel) == Normal(b.channel)
  }

  ghost predicate IsAskedFor(s: Subscription, requests: iset<Request>) {
    exists r :: r in requests && s.channel == Normal(r.channel)
  }

  lemma OperationKeepsAgrees(held: Contents, subs: set<Subscription>, op: Operation, requests: iset<Request>, hash: Query -> string)
    requires (forall r :: r in requests ==> IsRequest(r, hash)) && KeysApart(requests) && op.request in requests
    requires Agrees(held, subs, hash) && forall s :: s in subs ==> IsAskedFor(s, requests)
    ensures Agrees(Perform(held, op), Replay(subs, op), hash)
    ensures forall s :: s in Replay(subs, op) ==> IsAskedFor(s, requests)
  {
    var c := op.request.channel;
    forall s | s in subs && GetKey(s.channel) == GetKey(c)
      ensures s.channel == Normal(c)
    {
      assert IsAskedFor(s, requests);
      var r :| r in requests && s.channel == Normal(r.channel);
      assert GetKey(r.channel) == GetKey(c);
    }
    assert AllNormal(subs) by {
      forall s | s in subs
        ensures Normal(s.channel) == s.channel
      {
        assert IsAskedFor(s, requests);
      }
    }
    assert IsAskedFor(Subscription(Normal(c), op.member), requests);
    if op.Add? {
      AddKeepsAgrees(held, subs, op.request, op.member, hash);
    } else {
      RemoveKeepsAgrees(held, subs, op.request, op.member, hash);
    }
  }

  lemma {:induction false} RunsAgree(held: Contents, subs: set<Subscription>, ops: seq<Operation>, requests: iset<Request>,
                                     hash: Query -> string)
    requires (forall r :: r in requests ==> IsRequest(r, hash)) && KeysApart(requests) && Within(ops, requests)
    requires Agrees(held, subs, hash) && forall s :: s in subs ==> IsAskedFor(s, requests)
    ensures Agrees(PerformAll(held, ops), ReplayAll(subs, ops), hash)
    decreases |ops|
  {
    if ops != [] {
      OperationKeepsAgrees(held, subs, ops[0], requests, hash);
      forall op | op in ops[1..]
        ensures op.request in requests
      {
        assert op in ops;
      }
      RunsAgree(Perform(held, ops[0]), Replay(subs, ops[0]), ops[1..], requests, hash);
    }
  }

  /** Subscribing to one channel and unsubscribing from another with its key. */
  lemma SharedKeyDisagrees(a: Request, b: Request, m: DeviceRef, hash: Query -> string)
    requires GetKey(a.channel) == GetKey(b.channel) && Normal(a.channel) != Normal(b.channel)
    ensures !Agrees(PerformAll(EMPTY, [Add(a, m), Remove(b, m)]), ReplayAll({}, [Add(a, m), Remove(b, m)]), hash)
  {
    var ops := [Add(a, m), Remove(b, m)];
    var s := Subscription(Normal(a.channel), m);
    assert ops[1..] == [Remove(b, m)] && ops[1..][1..] == [];
    var added, subs := Perform(EMPTY, ops[0]), Replay({}, ops[0]);
    assert PerformAll(added, ops[1..]) == Perform(added, ops[1]);
    assert ReplayAll(subs, ops[1..]) == Replay(subs, ops[1]);
    assert s in Replay(subs, ops[1]);
    assert EntryOf(s) in EntriesOf(Replay(subs, ops[1]));
    assert added.entries == {Entry(GetKey(a.channel), m)};
    assert Perform(added, ops[1]).entries == {};
  }

  /** In every run of adds and removes of some requests the index holds what is meant, if and only if no two of the
      requests ask for different channels with one key. */
  lemma RunsAgreeIff(requests: iset<Request>, hash: Query -> string)
    requires forall r :: r in requests ==> IsRequest(r, hash)
    ensures (forall ops :: Within(ops, requests) ==> Agrees(PerformAll(EMPTY, ops), ReplayAll({}, ops), hash)) <==> KeysApart(requests)
  {
    if KeysApart(requests) {
      forall ops | Within(ops, requests)
        ensures Agrees(PerformAll(EMPTY, ops), ReplayAll({}, ops), hash)
      {
        RunsAgree(EMPTY, {}, ops, requests, hash);
      }
    } else {
      var a, b :| a in requests && b in requests && GetKey(a.channel) == GetKey(b.channel) && Normal(a.channel) != Normal(b.channel);
      var m := DeviceRef("d", "t");
      assert Within([Add(a, m), Remove(b, m)], requests);
      SharedKeyDisagrees(a, b, m, hash);
    }
  }

  // ---- Printable channels ----

  /** Every subscription's channel is printable, so different channels have different keys. */
  ghost predicate AllPrintable(subs: set<Subscription>) {
    forall s :: s in subs ==> Printable(s.channel)
  }

  /** Requests for printable channels are told apart by their keys. */
  lemma PrintableAreApart(requests: iset<Request>)
    requires forall r :: r in requests ==> Printable(Normal(r.channel))
    ensures KeysApart(requests)
  {
    forall a, b | a in requests && b in requests && GetKey(a.channel) == GetKey(b.channel)
      ensures Normal(a.channel) == Normal(b.channel)
    {
      KeysAreInjective(Normal(a.channel), Normal(b.channel));
    }
  }

  // ---- What is held is determined by the subscriptions ----

  /** Two indexes of the same subscriptions hold the same members, counters and filter ids. */
  lemma ContentsAreDetermined(a: Contents, b: Contents, subs: set<Subscription>, hash: Query -> string)
    requires Agrees(a, subs, hash) && Agrees(b, subs, hash)
    ensures a.entries == b.entries && a.scopes == b.scopes && a.filters.Keys == b.filters.Keys
    ensures (forall q, r :: hash(q) == hash(r) ==> q == r) ==> a.filters == b.filters
  {
    SameCounts(a.scopes, b.scopes, subs);
    forall slot
      ensures slot in a.filters <==> slot in b.filters
    {
    }
  }

  lemma SameCounts(a: map<Scope, int>, b: map<Scope, int>, subs: set<Subscription>)
    requires Positive(a) && Positive(b) && ScopesHold(a, subs) && ScopesHold(b, subs)
    ensures a == b
  {
    forall scope | scope in a || scope in b
      ensures scope in a && scope in b && a[scope] == b[scope]
    {
      assert Count(a, scope) == Count(b, scope);
    }
  }
}
