/** When removing all subscriptions of a device leaves the index as it was before the device subscribed. */
module SubscriptionRemoval {
  import opened FilterQuery
  import opened Texts
  import opened SubscriptionKeys
  import opened SubscriptionIndex
  import opened SubscriptionRelation
  import opened DeviceSubscriptions

  /** A request as the device of this application makes it. */
  function Own(r: Request, appId: string): Request {
    r.(channel := r.channel.(appId := appId))
  }

  /** The requests that were not taken for listed already. */
  function Taken(keys: seq<string>, requests: seq<Request>, appId: string): seq<Request>
    requires AreKeys(keys)
    decreases |requests|
  {
    if requests == [] then []
    else
      var r := Own(requests[0], appId);
      AlwaysAKey(r.channel);
      if IsListed(keys, GetKey(r.channel), appId) then Taken(keys, requests[1..], appId)
      else [r] + Taken(keys + [GetKey(r.channel)], requests[1..], appId)
  }

  /** How many of the requests, and of the listed keys as they are read back, are counted at the scope. */
  function Asked(requests: seq<Request>, scope: Scope): nat {
    if requests == [] then 0 else (if ScopeOf(requests[0].channel) == scope then 1 else 0) + Asked(requests[1..], scope)
  }

  function Read(keys: seq<string>, scope: Scope, appId: string): nat
    requires AreKeys(keys)
  {
    if keys == [] then 0
    else (if ScopeOf(ReadBack(keys[0], appId)) == scope then 1 else 0) + Read(keys[1..], scope, appId)
  }

  function Members(keys: seq<string>, m: DeviceRef): set<Entry> {
    set k | k in keys :: Entry(k, m)
  }

  // ---- Keys read back ----

  /** A key read back and printed is read back as it was printed. */
  lemma ReprintedOnce(key: string, appId: string)
    requires IsKey(key) && Lacks(appId, ':')
    ensures IsKey(Reprinted(key, appId)) && Reprinted(Reprinted(key, appId), appId) == Reprinted(key, appId)
    ensures Reprinted(key, appId) == key ==> Printable(ReadBack(key, appId))
  {
    var e := ReadBack(key, appId);
    ParsedHaveNoColon(key);
    FromKeyInvertsGetKeyIff(Normal(e));
  }

  /** The scope of a channel that is not printable is not that of a printable one. */
  lemma UnprintableScope(r: Request, e: Channel, hash: Query -> string)
    requires IsRequest(r, hash) && !Printable(Normal(r.channel)) && Printable(e) && r.channel.appId == e.appId
    ensures ScopeOf(e) != ScopeOf(r.channel)
  {
    var n := Normal(r.channel);
    SameScope(r, hash);
    assert Normal(n) == n;
    RegistriesAreInjective(e.appId, e.model, n.appId, n.model);
    DescriptorsAreInjective(e, n);
  }

  // ---- After the adds ----

  predicate AllFixed(keys: seq<string>, appId: string)
    requires AreKeys(keys)
  {
    forall k :: k in keys ==> Reprinted(k, appId) == k
  }

  ghost predicate ListedAre(b: Books, m: DeviceRef) {
    forall k :: Entry(k, m) in b.held.entries <==> k in b.keys
  }

  predicate Distinct(keys: seq<string>) {
    forall i, j :: 0 <= i < j < |keys| ==> keys[i] != keys[j]
  }

  /** What the index holds after the adds, given that no listed key reads back as another. */
  lemma {:induction false} AfterAdds(b: Books, requests: seq<Request>, m: DeviceRef, appId: string)
    requires AreKeys(b.keys) && ListedAre(b, m) && Distinct(b.keys) && Positive(b.held.scopes)
    requires AllFixed(AfterAll(b, requests, m, appId).keys, appId)
    ensures var after := AfterAll(b, requests, m, appId);
            && ListedAre(after, m) && Distinct(after.keys) && Positive(after.held.scopes)
            && after.held.entries == b.held.entries + Members(after.keys, m)
    decreases |requests|
  {
    if requests == [] {
      assert Members(b.keys, m) <= b.held.entries;
    } else {
      var r := Own(requests[0], appId);
      AlwaysAKey(r.channel);
      var next := AfterSubscribe(b, requests[0], m, appId);
      KeysGrow(next, requests[1..], m, appId);
      assert AllFixed(next.keys, appId);
      AfterOne(b, requests[0], m, appId);
      KeysGrow(b, requests, m, appId);
      AfterAdds(next, requests[1..], m, appId);
      MembersMore(next.keys, AfterAll(b, requests, m, appId).keys, m);
    }
  }

  lemma {:induction false} CountsAfterAdds(b: Books, requests: seq<Request>, m: DeviceRef, appId: string, scope: Scope)
    requires AreKeys(b.keys) && ListedAre(b, m) && Distinct(b.keys) && Positive(b.held.scopes)
    requires AllFixed(AfterAll(b, requests, m, appId).keys, appId)
    ensures Count(AfterAll(b, requests, m, appId).held.scopes, scope)
         == Count(b.held.scopes, scope) + Asked(Taken(b.keys, requests, appId), scope)
    decreases |requests|
  {
    if requests != [] {
      var r := Own(requests[0], appId);
      AlwaysAKey(r.channel);
      var next := AfterSubscribe(b, requests[0], m, appId);
      KeysGrow(next, requests[1..], m, appId);
      assert AllFixed(next.keys, appId);
      AfterOne(b, requests[0], m, appId);
      CountsAfterAdds(next, requests[1..], m, appId, scope);
      if !IsListed(b.keys, GetKey(r.channel), appId) {
        var rest := Taken(next.keys, requests[1..], appId);
        assert ([r] + rest)[1..] == rest;
      }
    }
  }

  lemma AfterOne(b: Books, request: Request, m: DeviceRef, appId: string)
    requires AreKeys(b.keys) && ListedAre(b, m) && Distinct(b.keys) && Positive(b.held.scopes)
    requires AreKeys(AfterSubscribe(b, request, m, appId).keys) && AllFixed(AfterSubscribe(b, request, m, appId).keys, appId)
    ensures var next := AfterSubscribe(b, request, m, appId);
            && ListedAre(next, m) && Distinct(next.keys) && Positive(next.held.scopes)
            && next.held.entries == b.held.entries + Members(next.keys, m)
            && (next.keys != b.keys ==> next.held.scopes == Incremented(b.held.scopes, ScopeOf(Own(request, appId).channel)))
            && (next.keys == b.keys ==> next == b)
  {
    var key := GetKey(Own(request, appId).channel);
    assert Members(b.keys, m) <= b.held.entries;
    if !IsListed(b.keys, key, appId) {
      assert b.keys <= b.keys + [key];
      forall k | k in b.keys
        ensures k != key
      {
        assert k in b.keys + [key] && Reprinted(k, appId) == k;
      }
      assert Members(b.keys + [key], m) == Members(b.keys, m) + {Entry(key, m)};
    }
  }

  lemma MembersMore(a: seq<string>, b: seq<string>, m: DeviceRef)
    requires a <= b
    ensures Members(a, m) <= Members(b, m)
  {
  }

  lemma {:induction false} KeysGrow(b: Books, requests: seq<Request>, m: DeviceRef, appId: string)
    requires AreKeys(b.keys)
    ensures b.keys <= AfterAll(b, requests, m, appId).keys
    decreases |requests|
  {
    if requests != [] {
      AlwaysAKey(requests[0].channel.(appId := appId));
      KeysGrow(AfterSubscribe(b, requests[0], m, appId), requests[1..], m, appId);
    }
  }

  lemma {:induction false} KeysAreMembers(b: Books, requests: seq<Request>, m: DeviceRef, appId: string)
    requires AreKeys(b.keys) && forall k :: k in b.keys ==> Entry(k, m) in b.held.entries
    ensures forall k :: k in AfterAll(b, requests, m, appId).keys ==> Entry(k, m) in AfterAll(b, requests, m, appId).held.entries
    decreases |requests|
  {
    if requests != [] {
      AlwaysAKey(requests[0].channel.(appId := appId));
      KeysAreMembers(AfterSubscribe(b, requests[0], m, appId), requests[1..], m, appId);
    }
  }

  /** The keys listed are those of the requests taken. */
  lemma {:induction false} TakenAreListed(b: Books, requests: seq<Request>, m: DeviceRef, appId: string)
    requires AreKeys(b.keys)
    ensures AfterAll(b, requests, m, appId).keys == b.keys + Printed(Taken(b.keys, requests, appId))
    decreases |requests|
  {
    if requests == [] {
      assert b.keys + [] == b.keys;
    } else {
      var r := Own(requests[0], appId);
      AlwaysAKey(r.channel);
      TakenAreListed(AfterSubscribe(b, requests[0], m, appId), requests[1..], m, appId);
      if !IsListed(b.keys, GetKey(r.channel), appId) {
        PrintedMore(b.keys, r, Taken(b.keys + [GetKey(r.channel)], requests[1..], appId));
      }
    }
  }

  lemma PrintedMore(keys: seq<string>, r: Request, rest: seq<Request>)
    ensures keys + [GetKey(r.channel)] + Printed(rest) == keys + Printed([r] + rest)
  {
    assert Printed([r] + rest) == [GetKey(r.channel)] + Printed(rest);
  }

  function Printed(requests: seq<Request>): (keys: seq<string>)
    ensures |keys| == |requests| && forall i :: 0 <= i < |keys| ==> keys[i] == GetKey(requests[i].channel)
  {
    seq(|requests|, i requires 0 <= i < |requests| => GetKey(requests[i].channel))
  }

  // ---- After the removals ----

  /** A member under a key that no listed one reads back as stays. */
  lemma {:induction false} UnreadStays(held: Contents, keys: seq<string>, key: string, m: DeviceRef, appId: string)
    requires AreKeys(keys) && Entry(key, m) in held.entries && forall k :: k in keys ==> Reprinted(k, appId) != key
    ensures Entry(key, m) in AfterRemovals(held, keys, m, appId).entries
    decreases |keys|
  {
    if keys != [] {
      UnreadStays(AfterRemove(held, ReadBack(keys[0], appId), m), keys[1..], key, m, appId);
    }
  }

  function Less(count: int, n: nat): int {
    if count <= n then 0 else count - n
  }

  lemma {:induction false} AfterFixedRemovals(held: Contents, keys: seq<string>, m: DeviceRef, appId: string)
    requires AreKeys(keys) && AllFixed(keys, appId) && Distinct(keys) && Members(keys, m) <= held.entries && Positive(held.scopes)
    ensures var after := AfterRemovals(held, keys, m, appId);
            after.entries == held.entries - Members(keys, m) && Positive(after.scopes)
    ensures forall scope :: Count(AfterRemovals(held, keys, m, appId).scopes, scope)
                         == Less(Count(held.scopes, scope), Read(keys, scope, appId))
    decreases |keys|
  {
    if keys == [] {
      assert held.entries - Members([], m) == held.entries;
    } else {
      var next := AfterRemove(held, ReadBack(keys[0], appId), m);
      MembersWithout(keys, m);
      assert Entry(keys[0], m) in held.entries;
      AfterFixedRemovals(next, keys[1..], m, appId);
    }
  }

  lemma MembersWithout(keys: seq<string>, m: DeviceRef)
    requires keys != [] && Distinct(keys)
    ensures Members(keys, m) == {Entry(keys[0], m)} + Members(keys[1..], m) && Entry(keys[0], m) !in Members(keys[1..], m)
  {
    assert keys == [keys[0]] + keys[1..];
  }

  lemma {:induction false} PrintableCounts(requests: seq<Request>, scope: Scope, appId: string, hash: Query -> string)
    requires forall r :: r in requests ==> IsRequest(r, hash) && r.channel.appId == appId && Printable(Normal(r.channel))
    requires AreKeys(Printed(requests))
    ensures Read(Printed(requests), scope, appId) == Asked(requests, scope)
    decreases |requests|
  {
    if requests != [] {
      var r := requests[0];
      assert r in requests;
      FromKeyInvertsGetKeyIff(Normal(r.channel));
      SameScope(r, hash);
      assert Printed(requests)[1..] == Printed(requests[1..]);
      PrintableCounts(requests[1..], scope, appId, hash);
    }
  }

  lemma {:induction false} NoneRead(keys: seq<string>, r: Request, appId: string, hash: Query -> string)
    requires AreKeys(keys) && AllFixed(keys, appId) && Lacks(appId, ':')
    requires IsRequest(r, hash) && !Printable(Normal(r.channel)) && r.channel.appId == appId
    ensures Read(keys, ScopeOf(r.channel), appId) == 0
    decreases |keys|
  {
    if keys != [] {
      assert keys[0] in keys;
      ReprintedOnce(keys[0], appId);
      UnprintableScope(r, ReadBack(keys[0], appId), hash);
      NoneRead(keys[1..], r, appId, hash);
    }
  }

  lemma {:induction false} AskedAtLeastOnce(requests: seq<Request>, r: Request)
    requires r in requests
    ensures Asked(requests, ScopeOf(r.channel)) >= 1
    decreases |requests|
  {
    if requests[0] != r {
      AskedAtLeastOnce(requests[1..], r);
    }
  }

  lemma {:induction false} TakenAreRequests(keys: seq<string>, requests: seq<Request>, appId: string, hash: Query -> string)
    requires AreKeys(keys) && forall r :: r in requests ==> IsRequest(r, hash)
    ensures forall r :: r in Taken(keys, requests, appId) ==> IsRequest(r, hash) && r.channel.appId == appId
    decreases |requests|
  {
    if requests != [] {
      var r := Own(requests[0], appId);
      AlwaysAKey(r.channel);
      assert requests[0] in requests;
      TakenAreRequests(keys, requests[1..], appId, hash);
      TakenAreRequests(keys + [GetKey(r.channel)], requests[1..], appId, hash);
    }
  }

  // ---- The result ----

  /** What the index holds once a device has subscribed and all of its subscriptions have been removed. */
  function Afterwards(held: Contents, requests: seq<Request>, m: DeviceRef, appId: string): Contents {
    var b := AfterAll(Books([], held), requests, m, appId);
    AfterRemovals(b.held, b.keys, m, appId)
  }

  predicate AllTakenPrintable(requests: seq<Request>, appId: string) {
    forall r :: r in Taken([], requests, appId) ==> Printable(Normal(r.channel))
  }

  ghost predicate Absent(held: Contents, m: DeviceRef) {
    forall k :: Entry(k, m) !in held.entries
  }

  lemma PrintableTakenAreFixed(requests: seq<Request>, appId: string)
    requires AreKeys(Printed(requests))
    requires forall r :: r in requests ==> r.channel.appId == appId && Printable(Normal(r.channel))
    ensures AllFixed(Printed(requests), appId)
  {
    forall k | k in Printed(requests)
      ensures Reprinted(k, appId) == k
    {
      var i :| 0 <= i < |requests| && Printed(requests)[i] == k;
      assert requests[i] in requests;
      FromKeyInvertsGetKeyIff(Normal(requests[i].channel));
    }
  }

  lemma PrintableAreRestored(held: Contents, requests: seq<Request>, m: DeviceRef, appId: string, hash: Query -> string)
    requires Positive(held.scopes) && Absent(held, m) && Lacks(appId, ':') && forall r :: r in requests ==> IsRequest(r, hash)
    requires AllTakenPrintable(requests, appId)
    ensures Afterwards(held, requests, m, appId).entries == held.entries
    ensures Afterwards(held, requests, m, appId).scopes == held.scopes
  {
    var start, taken := Books([], held), Taken([], requests, appId);
    var b := AfterAll(start, requests, m, appId);
    TakenAreListed(start, requests, m, appId);
    assert b.keys == Printed(taken);
    TakenAreRequests([], requests, appId, hash);
    PrintableTakenAreFixed(taken, appId);
    AfterAdds(start, requests, m, appId);
    AfterFixedRemovals(b.held, b.keys, m, appId);
    var after := AfterRemovals(b.held, b.keys, m, appId);
    AddedThenGone(held.entries, Members(b.keys, m));
    forall scope
      ensures Count(after.scopes, scope) == Count(held.scopes, scope)
    {
      CountsAfterAdds(start, requests, m, appId, scope);
      PrintableCounts(taken, scope, appId, hash);
    }
    CountsAreScopes(after.scopes, held.scopes);
  }

  lemma AddedThenGone(entries: set<Entry>, more: set<Entry>)
    requires forall e :: e in more ==> e !in entries
    ensures entries + more - more == entries
  {
  }

  lemma CountsAreScopes(a: map<Scope, int>, b: map<Scope, int>)
    requires Positive(a) && Positive(b) && forall scope :: Count(a, scope) == Count(b, scope)
    ensures a == b
  {
    forall scope | scope in a || scope in b
      ensures scope in a && scope in b && a[scope] == b[scope]
    {
      assert Count(a, scope) == Count(b, scope);
    }
  }

  /** When all members are gone again, every listed key reads back as itself. */
  lemma {:induction false} RestoredAreFixed(held: Contents, requests: seq<Request>, m: DeviceRef, appId: string)
    requires Absent(held, m) && Lacks(appId, ':') && Afterwards(held, requests, m, appId).entries == held.entries
    ensures AllFixed(AfterAll(Books([], held), requests, m, appId).keys, appId)
  {
    var b := AfterAll(Books([], held), requests, m, appId);
    KeysAreMembers(Books([], held), requests, m, appId);
    forall k | k in b.keys
      ensures Reprinted(k, appId) == k
    {
      if forall other :: other in b.keys ==> Reprinted(other, appId) != k {
        UnreadStays(b.held, b.keys, k, m, appId);
        assert false;
      } else {
        var other :| other in b.keys && Reprinted(other, appId) == k;
        ReprintedOnce(other, appId);
      }
    }
  }

  /** An unprintable channel that was taken leaves its counter raised. */
  lemma {:induction false} UnprintableIsLeft(held: Contents, requests: seq<Request>, m: DeviceRef, appId: string,
                                             hash: Query -> string, r: Request)
    requires Positive(held.scopes) && Absent(held, m) && Lacks(appId, ':') && forall q :: q in requests ==> IsRequest(q, hash)
    requires r in Taken([], requests, appId) && !Printable(Normal(r.channel))
    requires AllFixed(AfterAll(Books([], held), requests, m, appId).keys, appId)
    ensures Count(Afterwards(held, requests, m, appId).scopes, ScopeOf(r.channel)) > Count(held.scopes, ScopeOf(r.channel))
  {
    var b := AfterAll(Books([], held), requests, m, appId);
    TakenAreRequests([], requests, appId, hash);
    AfterAdds(Books([], held), requests, m, appId);
    CountsAfterAdds(Books([], held), requests, m, appId, ScopeOf(r.channel));
    AfterFixedRemovals(b.held, b.keys, m, appId);
    NoneRead(b.keys, r, appId, hash);
    AskedAtLeastOnce(Taken([], requests, appId), r);
  }

  /** Whatever a device subscribes to, removing all of its subscriptions leaves the device sets, the partitions in use
      and the counters as they were before, if and only if every channel that was taken is printable. */
  lemma RestoredIff(held: Contents, requests: seq<Request>, m: DeviceRef, appId: string, hash: Query -> string)
    requires Positive(held.scopes) && Absent(held, m) && Lacks(appId, ':') && forall r :: r in requests ==> IsRequest(r, hash)
    ensures var after := Afterwards(held, requests, m, appId);
            after.entries == held.entries && after.scopes == held.scopes <==> AllTakenPrintable(requests, appId)
  {
    var after := Afterwards(held, requests, m, appId);
    if AllTakenPrintable(requests, appId) {
      PrintableAreRestored(held, requests, m, appId, hash);
    } else if after.entries == held.entries {
      RestoredAreFixed(held, requests, m, appId);
      var r :| r in Taken([], requests, appId) && !Printable(Normal(r.channel));
      UnprintableIsLeft(held, requests, m, appId, hash, r);
    }
  }

  /** The same of the stored structures. */
  method SubscribeAndLeave(index: Index, device: DeviceRecord, requests: seq<Request>, ghost hash: Query -> string)
    requires index.Valid() && device.subscriptions == [] && device.transport.Some? && Absent(index.Held(), device.Ref())
    requires Lacks(device.appId, ':') && forall r :: r in requests ==> IsRequest(r, hash)
    modifies index, device`subscriptions
    ensures index.Valid() && device.subscriptions == []
    ensures index.partitions == old(index.partitions) && index.partitionIndex == old(index.partitionIndex)
              && index.scopes == old(index.scopes)
       <==> AllTakenPrintable(requests, device.appId)
    ensures AllTakenPrintable(requests, device.appId) && FiltersInStep(old(index.Held())) ==>
              index.filters.Keys == old(index.filters.Keys)
  {
    ghost var held, sets, listed := index.Held(), index.partitions, index.partitionIndex;
    SubscribeThenRemoveAll(index, device, requests);
    RestoredIff(held, requests, device.Ref(), device.appId, hash);
    if index.entries == held.entries {
      SetsAreDetermined(sets, index.partitions, listed, index.partitionIndex, held.entries, index.partitionOf);
    }
    if index.partitions == sets {
      MembersAreDetermined(sets, held.entries, index.entries, index.partitionOf);
    }
    if AllTakenPrintable(requests, device.appId) && FiltersInStep(held) {
      FiltersAreRestored(held, requests, device.Ref(), device.appId, hash);
    }
  }

  lemma MembersAreDetermined(partitions: Partitions, a: set<Entry>, b: set<Entry>, partitionOf: string -> nat)
    requires PartitionsHold(partitions, a, partitionOf) && PartitionsHold(partitions, b, partitionOf)
    ensures a == b
  {
    forall e: Entry
      ensures e in a <==> e in b
    {
      var p := partitionOf(e.member.deviceId);
      assert MembersIn(partitions, e.key, p) == AtPartition(a, e.key, p, partitionOf);
      AtPartitionIff(a, e.key, p, e.member, partitionOf);
      AtPartitionIff(b, e.key, p, e.member, partitionOf);
    }
  }

  // ---- The filter registry ----

  /** A printable filtered channel has its filter stored exactly while some device is listed under its key. */
  ghost predicate FiltersInStep(held: Contents) {
    forall c :: Printable(c) && c.filterId.Some? ==> (SlotOf(c) in held.filters <==> HasMember(held.entries, GetKey(c)))
  }

  /** They are in every index that agrees with printable subscriptions. */
  lemma AgreeingIsInStep(held: Contents, subs: set<Subscription>, hash: Query -> string)
    requires Agrees(held, subs, hash) && AllPrintable(subs)
    ensures FiltersInStep(held)
  {
    forall c | Printable(c) && c.filterId.Some?
      ensures SlotOf(c) in held.filters <==> HasMember(held.entries, GetKey(c))
    {
      forall s | s in subs && GetKey(s.channel) == GetKey(c)
        ensures s.channel == Normal(c)
      {
        KeysAreInjective(s.channel, c);
      }
      SlotFreed(subs, c);
    }
  }

  predicate IsPrintableSlot(slot: Slot, c: Channel) {
    Printable(c) && c.filterId.Some? && SlotOf(c) == slot
  }

  /** Slots of no printable channel are as they were. */
  ghost predicate OthersKept(before: Contents, after: Contents) {
    forall slot :: (forall c :: !IsPrintableSlot(slot, c)) ==> (slot in before.filters <==> slot in after.filters)
  }

  lemma SlotOfKey(a: Channel, b: Channel)
    requires Printable(a) && Printable(b) && a.filterId.Some? && b.filterId.Some?
    ensures SlotOf(a) == SlotOf(b) <==> GetKey(a) == GetKey(b)
  {
    if GetKey(a) == GetKey(b) {
      KeysAreInjective(a, b);
    }
    if SlotOf(a) == SlotOf(b) {
      FilteredKey(a);
      FilteredKey(b);
    }
  }

  lemma AddKeepsStep(held: Contents, r: Request, m: DeviceRef, hash: Query -> string)
    requires FiltersInStep(held) && IsRequest(r, hash) && Printable(Normal(r.channel))
    ensures FiltersInStep(AfterAdd(held, r.channel, r.filter, m)) && OthersKept(held, AfterAdd(held, r.channel, r.filter, m))
  {
    var after, n := AfterAdd(held, r.channel, r.filter, m), Normal(r.channel);
    SameSlot(r, hash);
    forall c | Printable(c) && c.filterId.Some?
      ensures SlotOf(c) in after.filters <==> HasMember(after.entries, GetKey(c))
    {
      assert HasMember(held.entries, GetKey(c)) ==> HasMember(after.entries, GetKey(c));
      KeysAreInjective(c, n);
      if n.filterId.Some? {
        SlotOfKey(c, n);
      }
      assert Entry(GetKey(n), m) in after.entries;
    }
    assert n.filterId.Some? ==> IsPrintableSlot(SlotOf(n), n);
  }

  lemma RemoveKeepsStep(held: Contents, n: Channel, m: DeviceRef)
    requires FiltersInStep(held) && Printable(n)
    ensures FiltersInStep(AfterRemove(held, n, m)) && OthersKept(held, AfterRemove(held, n, m))
  {
    var after := AfterRemove(held, n, m);
    forall c | Printable(c) && c.filterId.Some?
      ensures SlotOf(c) in after.filters <==> HasMember(after.entries, GetKey(c))
    {
      KeysAreInjective(c, n);
      if n.filterId.Some? {
        SlotOfKey(c, n);
      }
      if GetKey(c) != GetKey(n) {
        forall e | e in held.entries && e.key == GetKey(c)
          ensures e in after.entries
        {
        }
      }
    }
    assert n.filterId.Some? ==> IsPrintableSlot(SlotOf(n), n);
  }

  lemma {:induction false} AddsKeepStep(b: Books, requests: seq<Request>, m: DeviceRef, appId: string, hash: Query -> string)
    requires AreKeys(b.keys) && FiltersInStep(b.held) && forall r :: r in requests ==> IsRequest(r, hash)
    requires forall r :: r in Taken(b.keys, requests, appId) ==> Printable(Normal(r.channel))
    ensures var after := AfterAll(b, requests, m, appId).held; FiltersInStep(after) && OthersKept(b.held, after)
    decreases |requests|
  {
    if requests != [] {
      var r := Own(requests[0], appId);
      AlwaysAKey(r.channel);
      assert requests[0] in requests;
      var next := AfterSubscribe(b, requests[0], m, appId);
      if !IsListed(b.keys, GetKey(r.channel), appId) {
        assert Taken(b.keys, requests, appId)[0] == r;
        assert Taken(b.keys, requests, appId)[1..] == Taken(next.keys, requests[1..], appId);
        AddKeepsStep(b.held, r, m, hash);
      }
      AddsKeepStep(next, requests[1..], m, appId, hash);
    }
  }

  lemma {:induction false} RemovalsKeepStep(held: Contents, keys: seq<string>, m: DeviceRef, appId: string)
    requires AreKeys(keys) && FiltersInStep(held) && AllFixed(keys, appId) && Lacks(appId, ':')
    ensures var after := AfterRemovals(held, keys, m, appId); FiltersInStep(after) && OthersKept(held, after)
    decreases |keys|
  {
    if keys != [] {
      assert keys[0] in keys;
      ReprintedOnce(keys[0], appId);
      RemoveKeepsStep(held, ReadBack(keys[0], appId), m);
      RemovalsKeepStep(AfterRemove(held, ReadBack(keys[0], appId), m), keys[1..], m, appId);
    }
  }

  /** The filters stored are those stored before, where they were in step with the device sets. */
  lemma FiltersAreRestored(held: Contents, requests: seq<Request>, m: DeviceRef, appId: string, hash: Query -> string)
    requires Positive(held.scopes) && Absent(held, m) && Lacks(appId, ':') && forall r :: r in requests ==> IsRequest(r, hash)
    requires AllTakenPrintable(requests, appId) && FiltersInStep(held)
    ensures Afterwards(held, requests, m, appId).filters.Keys == held.filters.Keys
  {
    var b, after := AfterAll(Books([], held), requests, m, appId), Afterwards(held, requests, m, appId);
    PrintableAreRestored(held, requests, m, appId, hash);
    RestoredAreFixed(held, requests, m, appId);
    AddsKeepStep(Books([], held), requests, m, appId, hash);
    RemovalsKeepStep(b.held, b.keys, m, appId);
    forall slot
      ensures slot in after.filters <==> slot in held.filters
    {
      if c :| IsPrintableSlot(slot, c) {
        assert SlotOf(c) in after.filters <==> HasMember(after.entries, GetKey(c));
      }
    }
  }
}
