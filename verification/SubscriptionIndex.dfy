/** The subscription index kept in Redis: partitioned device sets, the partitions in use, the scope
    counters and the filter registry, under the strings the original stores them by. */
module SubscriptionIndex {
  import opened Values
  import opened FilterQuery
  import opened SubscriptionKeys

  /** A subscribed device, with the transport it is reached by. */
  datatype DeviceRef = DeviceRef(deviceId: string, transport: string)

  /** A member of the device sets of a channel's key. */
  datatype Entry = Entry(key: string, member: DeviceRef)

  /** A counter: the registry of an application and a model, and a field of it. */
  datatype Scope = Scope(registry: string, descriptor: string)

  /** A stored filter: the registry of the channels that differ in their filter only, and a field of it. */
  datatype Slot = Slot(registry: string, filterId: string)

  function ScopeOf(c: Channel): Scope {
    Scope(c.appId + ":" + c.model, ScopeDescriptor(c.modelId, c.userId))
  }

  function SlotOf(c: Channel): Slot
    requires c.filterId.Some?
  {
    Slot(GetKey(c.(filterId := None)), c.filterId.value)
  }

  function Count(scopes: map<Scope, int>, s: Scope): int {
    if s in scopes then scopes[s] else 0
  }

  /** `HINCRBY` by one. */
  function Incremented(scopes: map<Scope, int>, s: Scope): map<Scope, int> {
    scopes[s := Count(scopes, s) + 1]
  }

  /** `HINCRBY` by minus one; a counter that is not above zero is deleted. */
  function Decremented(scopes: map<Scope, int>, s: Scope): map<Scope, int> {
    if Count(scopes, s) <= 1 then scopes - {s} else scopes[s := Count(scopes, s) - 1]
  }

  predicate Positive(scopes: map<Scope, int>) {
    forall s :: s in scopes ==> scopes[s] > 0
  }

  // ---- What the index holds ----

  /** The members of all device sets, the counters and the stored filters. */
  datatype Contents = Contents(entries: set<Entry>, scopes: map<Scope, int>, filters: map<Slot, Query>)

  const EMPTY := Contents({}, map[], map[])

  /** Whether any device is left under the key. */
  predicate HasMember(entries: set<Entry>, key: string) {
    exists e :: e in entries && e.key == key
  }

  /** A device that is there already changes nothing, counters included. */
  function AfterAdd(s: Contents, c: Channel, filter: Option<Query>, m: DeviceRef): Contents {
    if Entry(GetKey(c), m) in s.entries then s
    else Contents(s.entries + {Entry(GetKey(c), m)}, Incremented(s.scopes, ScopeOf(c)),
                  if IsGiven(c.filterId) && filter.Some? then s.filters[SlotOf(c) := filter.value] else s.filters)
  }

  /** A device that is not there changes nothing; the last of a filtered channel takes the filter with it. */
  function AfterRemove(s: Contents, c: Channel, m: DeviceRef): Contents {
    if Entry(GetKey(c), m) !in s.entries then s
    else
      var left := s.entries - {Entry(GetKey(c), m)};
      Contents(left, Decremented(s.scopes, ScopeOf(c)),
               if IsGiven(c.filterId) && !HasMember(left, GetKey(c)) then s.filters - {SlotOf(c)} else s.filters)
  }

  // ---- The device sets and the partitions in use ----

  type Partitions = map<(string, nat), set<DeviceRef>>

  type PartitionIndex = map<string, set<nat>>

  function MembersIn(partitions: Partitions, key: string, p: nat): set<DeviceRef> {
    if (key, p) in partitions then partitions[(key, p)] else {}
  }

  function PartitionsOf(partitionIndex: PartitionIndex, key: string): set<nat> {
    if key in partitionIndex then partitionIndex[key] else {}
  }

  function AtPartition(entries: set<Entry>, key: string, p: nat, partitionOf: string -> nat): set<DeviceRef> {
    set e | e in entries && e.key == key && partitionOf(e.member.deviceId) == p :: e.member
  }

  ghost predicate PartitionsHold(partitions: Partitions, entries: set<Entry>, partitionOf: string -> nat) {
    forall key, p: nat :: MembersIn(partitions, key, p) == AtPartition(entries, key, p, partitionOf)
                     && ((key, p) in partitions ==> partitions[(key, p)] != {})
  }

  /** The index lists exactly the partitions of a key with a member. */
  ghost predicate IndexAt(listed: set<nat>, entries: set<Entry>, key: string, partitionOf: string -> nat) {
    forall p: nat :: p in listed <==> AtPartition(entries, key, p, partitionOf) != {}
  }

  ghost predicate IndexHolds(partitionIndex: PartitionIndex, entries: set<Entry>, partitionOf: string -> nat) {
    forall key :: IndexAt(PartitionsOf(partitionIndex, key), entries, key, partitionOf)
                  && (key in partitionIndex ==> partitionIndex[key] != {})
  }

  function OwnMember(e: Entry, key: string, p: nat, partitionOf: string -> nat): set<DeviceRef> {
    if key == e.key && p == partitionOf(e.member.deviceId) then {e.member} else {}
  }

  lemma PartitionAfterAdd(entries: set<Entry>, e: Entry, partitionOf: string -> nat)
    ensures forall key, p: nat :: AtPartition(entries + {e}, key, p, partitionOf)
                               == AtPartition(entries, key, p, partitionOf) + OwnMember(e, key, p, partitionOf)
  {
  }

  lemma PartitionAfterRemove(entries: set<Entry>, e: Entry, partitionOf: string -> nat)
    ensures forall key, p: nat :: AtPartition(entries - {e}, key, p, partitionOf)
                               == AtPartition(entries, key, p, partitionOf) - OwnMember(e, key, p, partitionOf)
  {
  }

  lemma AtPartitionIff(entries: set<Entry>, key: string, p: nat, m: DeviceRef, partitionOf: string -> nat)
    ensures m in AtPartition(entries, key, p, partitionOf) <==> Entry(key, m) in entries && partitionOf(m.deviceId) == p
  {
    if Entry(key, m) in entries && partitionOf(m.deviceId) == p {
      assert Entry(key, m).member == m && Entry(key, m).key == key;
    }
  }

  lemma MemberIsPartitioned(entries: set<Entry>, key: string, partitionOf: string -> nat)
    ensures HasMember(entries, key) <==> exists p: nat :: AtPartition(entries, key, p, partitionOf) != {}
  {
    if HasMember(entries, key) {
      var e :| e in entries && e.key == key;
      assert e.member in AtPartition(entries, key, partitionOf(e.member.deviceId), partitionOf);
    }
    forall p: nat | AtPartition(entries, key, p, partitionOf) != {}
      ensures HasMember(entries, key)
    {
      var m :| m in AtPartition(entries, key, p, partitionOf);
      AtPartitionIff(entries, key, p, m, partitionOf);
      assert Entry(key, m).key == key;
    }
  }

  lemma IndexAfterRemove(listed: set<nat>, entries: set<Entry>, e: Entry, partitionOf: string -> nat)
    requires e in entries && IndexAt(listed, entries, e.key, partitionOf)
    ensures var p := partitionOf(e.member.deviceId);
            IndexAt(if AtPartition(entries - {e}, e.key, p, partitionOf) == {} then listed - {p} else listed,
                    entries - {e}, e.key, partitionOf)
  {
    PartitionAfterRemove(entries, e, partitionOf);
  }

  /** `SREM` from the partition index; the last partition takes the entry with it. */
  function Unlisted(partitionIndex: PartitionIndex, key: string, p: nat): PartitionIndex {
    var left := PartitionsOf(partitionIndex, key) - {p};
    if left == {} then partitionIndex - {key} else partitionIndex[key := left]
  }

  lemma DropKeepsIndex(before: PartitionIndex, entries: set<Entry>, e: Entry, partitionOf: string -> nat)
    requires IndexHolds(before, entries, partitionOf) && e in entries
    ensures var p := partitionOf(e.member.deviceId);
            IndexHolds(if AtPartition(entries - {e}, e.key, p, partitionOf) == {} then Unlisted(before, e.key, p) else before,
                       entries - {e}, partitionOf)
  {
    var p := partitionOf(e.member.deviceId);
    var after := if AtPartition(entries - {e}, e.key, p, partitionOf) == {} then Unlisted(before, e.key, p) else before;
    UnlistedIs(before, e.key, p);
    IndexAfterRemove(PartitionsOf(before, e.key), entries, e, partitionOf);
    OthersStayListed(before, after, entries, e, partitionOf);
  }

  lemma UnlistedIs(partitionIndex: PartitionIndex, key: string, p: nat)
    ensures var after := Unlisted(partitionIndex, key, p);
            && PartitionsOf(after, key) == PartitionsOf(partitionIndex, key) - {p}
            && (forall other :: other != key ==> PartitionsOf(after, other) == PartitionsOf(partitionIndex, other))
            && ((forall k :: k in partitionIndex ==> partitionIndex[k] != {}) ==> forall k :: k in after ==> after[k] != {})
  {
  }

  lemma StillListed(before: PartitionIndex, after: PartitionIndex, entries: set<Entry>, e: Entry, partitionOf: string -> nat)
    requires e in entries && IndexAt(PartitionsOf(before, e.key), entries, e.key, partitionOf)
    requires PartitionsOf(after, e.key) != {} || AtPartition(entries - {e}, e.key, partitionOf(e.member.deviceId), partitionOf) != {}
    requires IndexAt(PartitionsOf(after, e.key), entries - {e}, e.key, partitionOf)
    ensures PartitionsOf(after, e.key) != {}
  {
  }

  lemma LastIffUnlisted(listed: set<nat>, entries: set<Entry>, key: string, partitionOf: string -> nat)
    requires IndexAt(listed, entries, key, partitionOf)
    ensures listed == {} <==> !HasMember(entries, key)
  {
    MemberIsPartitioned(entries, key, partitionOf);
    if listed != {} {
      var p :| p in listed;
    }
  }

  lemma OtherKeyKeeps(entries: set<Entry>, e: Entry, other: string, partitionOf: string -> nat)
    requires other != e.key
    ensures forall p: nat :: AtPartition(entries - {e}, other, p, partitionOf) == AtPartition(entries, other, p, partitionOf)
    ensures forall p: nat :: AtPartition(entries + {e}, other, p, partitionOf) == AtPartition(entries, other, p, partitionOf)
  {
  }

  // ---- The index ----

  class Index {
    const partitionOf: string -> nat
    var partitions: Partitions
    var partitionIndex: PartitionIndex
    var scopes: map<Scope, int>
    var filters: map<Slot, Query>
    ghost var entries: set<Entry>

    ghost predicate Valid()
      reads this
    {
      && PartitionsHold(partitions, entries, partitionOf)
      && IndexHolds(partitionIndex, entries, partitionOf)
      && Positive(scopes)
    }

    ghost function Held(): Contents
      reads this
    {
      Contents(entries, scopes, filters)
    }

    /** `partitionOf` is the first byte of the device id's digest, modulo 16. */
    constructor (partitionOf: string -> nat)
      ensures Valid() && Held() == EMPTY && this.partitionOf == partitionOf
    {
      this.partitionOf := partitionOf;
      partitions, partitionIndex, scopes, filters, entries := map[], map[], map[], map[], {};
    }

    /** `SADD` to a device set. */
    method AddMember(key: string, p: nat, m: DeviceRef) returns (added: bool)
      requires PartitionsHold(partitions, entries, partitionOf) && p == partitionOf(m.deviceId)
      modifies this`partitions
      ensures added <==> Entry(key, m) !in entries
      ensures PartitionsHold(partitions, entries + {Entry(key, m)}, partitionOf)
    {
      var now := MembersIn(partitions, key, p);
      added := m !in now;
      AtPartitionIff(entries, key, p, m, partitionOf);
      partitions := partitions[(key, p) := now + {m}];
      PartitionAfterAdd(entries, Entry(key, m), partitionOf);
    }

    /** `SREM` from a device set; the last member takes the set with it. */
    method RemoveMember(key: string, p: nat, m: DeviceRef) returns (removed: bool)
      requires PartitionsHold(partitions, entries, partitionOf) && p == partitionOf(m.deviceId)
      modifies this`partitions
      ensures removed <==> Entry(key, m) in entries
      ensures PartitionsHold(partitions, entries - {Entry(key, m)}, partitionOf)
    {
      var now := MembersIn(partitions, key, p);
      removed := m in now;
      AtPartitionIff(entries, key, p, m, partitionOf);
      PartitionAfterRemove(entries, Entry(key, m), partitionOf);
      if now - {m} == {} {
        partitions := partitions - {(key, p)};
      } else {
        partitions := partitions[(key, p) := now - {m}];
      }
    }

    /** `SADD` of a partition to the partition index, after its device set has gained a member. */
    method AddPartition(key: string, p: nat, ghost e: Entry)
      requires IndexHolds(partitionIndex, entries, partitionOf)
      requires key == e.key && p == partitionOf(e.member.deviceId)
      modifies this`partitionIndex
      ensures IndexHolds(partitionIndex, entries + {e}, partitionOf)
    {
      ghost var before := partitionIndex;
      var listed := PartitionsOf(partitionIndex, key);
      assert IndexAt(listed, entries, key, partitionOf);
      partitionIndex := partitionIndex[key := listed + {p}];
      IndexAfterAdd(listed, entries, e, partitionOf);
      forall other | other != key
        ensures IndexAt(PartitionsOf(partitionIndex, other), entries + {e}, other, partitionOf)
      {
        assert IndexAt(PartitionsOf(before, other), entries, other, partitionOf);
        OtherKeyKeeps(entries, e, other, partitionOf);
      }
    }

    /** After the removal of a device an emptied partition leaves the index. Says whether it was the key's last. */
    method DropPartition(key: string, p: nat, ghost e: Entry) returns (last: bool)
      requires PartitionsHold(partitions, entries - {e}, partitionOf) && IndexHolds(partitionIndex, entries, partitionOf)
      requires e in entries && key == e.key && p == partitionOf(e.member.deviceId)
      modifies this`partitionIndex
      ensures IndexHolds(partitionIndex, entries - {e}, partitionOf)
      ensures last <==> !HasMember(entries - {e}, key)
    {
      ghost var left, before := entries - {e}, partitionIndex;
      assert MembersIn(partitions, key, p) == AtPartition(left, key, p, partitionOf);
      DropKeepsIndex(before, entries, e, partitionOf);
      last := false;
      if MembersIn(partitions, key, p) == {} {
        partitionIndex := Unlisted(partitionIndex, key, p);
        last := PartitionsOf(partitionIndex, key) == {};
      }
      assert IndexAt(PartitionsOf(partitionIndex, key), left, key, partitionOf);
      LastIffUnlisted(PartitionsOf(partitionIndex, key), left, key, partitionOf);
      if !last {
        StillListed(before, partitionIndex, entries, e, partitionOf);
      }
    }

    /** `addDevice`. */
    method AddDevice(c: Channel, filter: Option<Query>, m: DeviceRef)
      requires Valid()
      modifies this`partitions, this`partitionIndex, this`scopes, this`filters, this`entries
      ensures Valid() && Held() == AfterAdd(old(Held()), c, filter, m)
    {
      var key, partition := GetKey(c), partitionOf(m.deviceId);
      ghost var e := Entry(key, m);
      var added := AddMember(key, partition, m);
      if !added {
        assert entries + {e} == entries;
        return;
      }
      AddPartition(key, partition, e);
      scopes := scopes[ScopeOf(c) := Count(scopes, ScopeOf(c)) + 1];
      if IsGiven(c.filterId) && filter.Some? {
        filters := filters[SlotOf(c) := filter.value];
      }
      entries := entries + {e};
    }

    /** `removeDevice`: false, and nothing changes, where there is no such device. */
    method RemoveDevice(c: Channel, m: DeviceRef) returns (removed: bool)
      requires Valid()
      modifies this`partitions, this`partitionIndex, this`scopes, this`filters, this`entries
      ensures Valid() && Held() == AfterRemove(old(Held()), c, m)
      ensures removed <==> Entry(GetKey(c), m) in old(entries)
    {
      var key, partition := GetKey(c), partitionOf(m.deviceId);
      ghost var e := Entry(key, m);
      removed := RemoveMember(key, partition, m);
      if !removed {
        assert entries - {e} == entries;
        return;
      }
      var last := DropPartition(key, partition, e);
      if last && IsGiven(c.filterId) {
        filters := filters - {SlotOf(c)};
      }
      var newCount := Count(scopes, ScopeOf(c)) - 1;
      if newCount <= 0 {
        scopes := scopes - {ScopeOf(c)};
      } else {
        scopes := scopes[ScopeOf(c) := newCount];
      }
      entries := entries - {e};
    }

    /** `getAllDevices`: only the partitions in the index are read. */
    method GetAllDevices(c: Channel) returns (devices: set<DeviceRef>)
      requires Valid()
      ensures forall m :: m in devices <==> Entry(GetKey(c), m) in entries
    {
      var key := GetKey(c);
      var todo := PartitionsOf(partitionIndex, key);
      devices := {};
      assert IndexAt(todo, entries, key, partitionOf);
      forall m | Entry(key, m) in entries
        ensures partitionOf(m.deviceId) in todo
      {
        AtPartitionIff(entries, key, partitionOf(m.deviceId), m, partitionOf);
      }
      while todo != {}
        invariant forall m :: m in devices ==> Entry(key, m) in entries
        invariant forall m :: Entry(key, m) in entries ==> m in devices || partitionOf(m.deviceId) in todo
        decreases todo
      {
        var p :| p in todo;
        todo := todo - {p};
        var members := MembersIn(partitions, key, p);
        forall m
          ensures m in members <==> Entry(key, m) in entries && partitionOf(m.deviceId) == p
        {
          AtPartitionIff(entries, key, p, m, partitionOf);
        }
        devices := devices + members;
      }
    }
  }

  lemma IndexAfterAdd(listed: set<nat>, entries: set<Entry>, e: Entry, partitionOf: string -> nat)
    requires IndexAt(listed, entries, e.key, partitionOf)
    ensures IndexAt(listed + {partitionOf(e.member.deviceId)}, entries + {e}, e.key, partitionOf)
  {
    PartitionAfterAdd(entries, e, partitionOf);
  }

  lemma OthersStayListed(before: PartitionIndex, after: PartitionIndex, entries: set<Entry>, e: Entry, partitionOf: string -> nat)
    requires IndexHolds(before, entries, partitionOf)
    requires forall other :: other != e.key ==> PartitionsOf(after, other) == PartitionsOf(before, other)
    ensures forall other :: other != e.key ==> IndexAt(PartitionsOf(after, other), entries - {e}, other, partitionOf)
  {
    forall other | other != e.key
      ensures IndexAt(PartitionsOf(after, other), entries - {e}, other, partitionOf)
    {
      assert IndexAt(PartitionsOf(before, other), entries, other, partitionOf);
      OtherKeyKeeps(entries, e, other, partitionOf);
    }
  }

  // ---- The sets are determined by their members ----

  /** Two indexes with the same members have the same device sets and partitions in use: nothing of the order in
      which devices came and went is left in them. */
  lemma SetsAreDetermined(a: Partitions, b: Partitions, ia: PartitionIndex, ib: PartitionIndex, entries: set<Entry>,
                          partitionOf: string -> nat)
    requires PartitionsHold(a, entries, partitionOf) && PartitionsHold(b, entries, partitionOf)
    requires IndexHolds(ia, entries, partitionOf) && IndexHolds(ib, entries, partitionOf)
    ensures a == b && ia == ib
  {
    forall k | k in a || k in b
      ensures k in a && k in b && a[k] == b[k]
    {
      assert MembersIn(a, k.0, k.1) == MembersIn(b, k.0, k.1);
    }
    IndexIsDetermined(ia, ib, entries, partitionOf);
  }

  lemma IndexIsDetermined(a: PartitionIndex, b: PartitionIndex, entries: set<Entry>, partitionOf: string -> nat)
    requires IndexHolds(a, entries, partitionOf) && IndexHolds(b, entries, partitionOf)
    ensures a == b
  {
    forall key | key in a || key in b
      ensures key in a && key in b && a[key] == b[key]
    {
      assert IndexAt(PartitionsOf(a, key), entries, key, partitionOf);
      assert IndexAt(PartitionsOf(b, key), entries, key, partitionOf);
      assert PartitionsOf(a, key) == PartitionsOf(b, key);
    }
  }
}
