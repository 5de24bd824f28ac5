/** Batching recipients: one message for each transport and distinct set of channel keys. */
module FanOut {
  import opened Texts
  import opened SubscriptionKeys
  import opened SubscriptionIndex

  /** The devices one message serves, and the channel keys it names, sorted. */
  datatype Group = Group(channels: seq<string>, deviceIds: seq<string>)

  type Groups = map<string, map<string, Group>>

  /** A key starts at the next character. */
  predicate StartsAfter(s: string, p: nat) {
    p + 1 + |PREFIX| <= |s| && s[p] == '\n' && s[p + 1..p + 1 + |PREFIX|] == PREFIX
  }

  /** A printed key: it starts as keys do, and no line inside it does. */
  predicate IsPrinted(key: string) {
    PREFIX <= key && forall p :: 0 <= p < |key| ==> !StartsAfter(key, p)
  }

  /** Sets of printed channel keys: never empty. */
  predicate AreKeys(keys: set<string>) {
    keys != {} && forall k :: k in keys ==> IsPrinted(k)
  }

  predicate AllKeys(found: map<DeviceRef, set<string>>) {
    forall d :: d in found ==> AreKeys(found[d])
  }

  lemma {:induction false} JoinFirst(parts: seq<string>, sep: char)
    requires parts != []
    ensures var s := Join(parts, sep);
            && parts[0] <= s
            && (|parts| == 1 ==> s == parts[0])
            && (|parts| > 1 ==> |s| > |parts[0]| && s[|parts[0]|] == sep && s[|parts[0]| + 1..] == Join(parts[1..], sep))
  {
  }

  /** Where a start lies in a joined list of parts without colons, it lies across two of them. */
  lemma {:induction false} StartIsAcross(parts: seq<string>, p: nat) returns (i: nat)
    requires parts != [] && (forall q :: q in parts ==> Lacks(q, ':')) && StartsAfter(Join(parts, ':'), p)
    ensures i + 1 < |parts| && !Lacks(parts[i], '\n') && parts[i + 1] == "subscription"
    decreases |parts|
  {
    var s, first, rest := Join(parts, ':'), parts[0], parts[1..];
    JoinFirst(parts, ':');
    assert PREFIX[3] == ':' && PREFIX[16] == ':' && |PREFIX| == 17;
    assert s[p + 4] == PREFIX[3] && s[p + 17] == PREFIX[16];
    assert Lacks(first, ':');
    if p > |first| {
      var tail := Join(rest, ':');
      var q := p - |first| - 1;
      assert tail == s[|first| + 1..];
      assert tail[q + 1..q + 18] == s[p + 1..p + 18];
      i := StartIsAcross(rest, q);
      i := i + 1;
    } else {
      FirstEndsIn(parts, p);
      i := 0;
    }
  }

  lemma {:induction false} FirstEndsIn(parts: seq<string>, p: nat)
    requires parts != [] && (forall q :: q in parts ==> Lacks(q, ':')) && StartsAfter(Join(parts, ':'), p) && p <= |parts[0]|
    ensures |parts| > 1 && !Lacks(parts[0], '\n') && parts[1] == "subscription"
  {
    var s, first := Join(parts, ':'), parts[0];
    JoinFirst(parts, ':');
    assert Lacks(first, ':');
    EndsBeforeColon(s, first, p);
    assert first[p] == '\n';
    assert parts[1] in parts;
    JoinFirst(parts[1..], ':');
    TailOfStart(s, p);
    ReadsSubscription(s[p + 5..], parts[1]);
  }

  lemma TailOfStart(s: string, p: nat)
    requires StartsAfter(s, p)
    ensures |s[p + 5..]| >= 13 && s[p + 5..][..13] == "subscription:"
  {
    assert s[p + 5..][..13] == s[p + 1..p + 18][4..];
    assert PREFIX[4..] == "subscription:";
  }

  /** A text without a colon that a start begins in ends before the first colon of it. */
  lemma EndsBeforeColon(s: string, first: string, p: nat)
    requires first <= s && Lacks(first, ':') && p <= |first| && StartsAfter(s, p)
    requires |s| > |first| ==> s[|first|] == ':'
    ensures |first| == p + 4
  {
    var start := s[p + 1..p + 18];
    assert start[0] == 'n' && start[1] == 'x' && start[2] == 'x' && start[3] == ':';
    assert s[p + 1] == 'n' && s[p + 2] == 'x' && s[p + 3] == 'x' && s[p + 4] == ':';
    assert forall k :: 0 <= k < |first| ==> s[k] != ':';
  }

  lemma ReadsSubscription(tail: string, second: string)
    requires |tail| >= 13 && tail[..13] == "subscription:" && second <= tail && Lacks(second, ':')
    requires |tail| > |second| ==> tail[|second|] == ':'
    ensures second == "subscription"
  {
    var head := tail[..13];
    assert Lacks("subscription", ':') && head[..12] == "subscription";
    assert forall k :: 0 <= k < 12 ==> tail[k] == head[k] == head[..12][k];
    assert tail[12] == head[12] == ':';
    assert forall k :: 0 <= k < |second| ==> tail[k] != ':';
    assert second == tail[..13][..12];
  }

  /** The key of a printable channel is one, whatever is in its ids, when the application and the model have no newline
      in their names. */
  lemma KeyIsPrinted(c: Channel)
    requires Printable(c) && Lacks(c.appId, '\n') && Lacks(c.model, '\n')
    ensures IsPrinted(GetKey(c))
  {
    forall p | 0 <= p < |GetKey(c)|
      ensures !StartsAfter(GetKey(c), p)
    {
      if StartsAfter(GetKey(c), p) {
        StartIsInTail(Join(Parts(c), ':'), p);
        var i := StartIsAcross(Parts(c), p - |PREFIX|);
        NoPartBefore(c, i);
      }
    }
  }

  lemma StartIsInTail(tail: string, p: nat)
    requires StartsAfter(PREFIX + tail, p)
    ensures p >= |PREFIX| && StartsAfter(tail, p - |PREFIX|)
  {
    var key := PREFIX + tail;
    assert Lacks(PREFIX, '\n');
    assert forall k :: 0 <= k < |PREFIX| ==> key[k] == PREFIX[k];
    assert p >= |PREFIX|;
    assert tail[p - |PREFIX| + 1..p + 1] == key[p + 1..p + 1 + |PREFIX|];
  }

  lemma NoPartBefore(c: Channel, i: nat)
    requires Printable(c) && Lacks(c.appId, '\n') && Lacks(c.model, '\n') && i + 1 < |Parts(c)|
    ensures Lacks(Parts(c)[i], '\n') || Parts(c)[i + 1] != "subscription"
  {
    assert Lacks("user", '\n') && Lacks("filter", '\n');
  }

  /** The keys of the channels a device was found on are such a set, and different channel sets have
      different key sets. */
  lemma PrintedKeys(a: set<Channel>, b: set<Channel>)
    requires a != {} && forall c :: c in a + b ==> Printable(c) && Lacks(c.appId, '\n') && Lacks(c.model, '\n')
    ensures AreKeys(set c | c in a :: GetKey(c))
    ensures (set c | c in a :: GetKey(c)) == (set c | c in b :: GetKey(c)) <==> a == b
  {
    forall c | c in a
      ensures IsPrinted(GetKey(c))
    {
      assert c in a + b;
      KeyIsPrinted(c);
    }
    var keys, others := set c | c in a :: GetKey(c), set c | c in b :: GetKey(c);
    var some :| some in a;
    assert GetKey(some) in keys;
    if keys == others {
      forall c | c in a
        ensures c in b
      {
        assert GetKey(c) in others;
        var d :| d in b && GetKey(d) == GetKey(c);
        KeysAreInjective(c, d);
      }
      forall d | d in b
        ensures d in a
      {
        assert GetKey(d) in keys;
        var c :| c in a && GetKey(c) == GetKey(d);
        KeysAreInjective(c, d);
      }
    }
  }

  lemma StartIsInside(s: string, key: string, p: nat)
    requires key <= s && StartsAfter(s, p) && p + 1 + |PREFIX| <= |key|
    ensures StartsAfter(key, p)
  {
    assert key[p + 1..p + 1 + |PREFIX|] == s[p + 1..p + 1 + |PREFIX|];
  }

  lemma NoNewlineInStart(s: string, p: nat, k: nat)
    requires StartsAfter(s, p) && p < k <= p + |PREFIX|
    ensures s[k] != '\n'
  {
    assert s[k] == s[p + 1..p + 1 + |PREFIX|][k - p - 1];
    assert Lacks(PREFIX, '\n');
  }

  /** A printed key that is continued by a newline is not the beginning of a longer one. */
  lemma NoLongerKey(s: string, key: string, p: nat)
    requires IsPrinted(key) && key <= s && StartsAfter(s, p) && (|s| > |key| ==> s[|key|] == '\n')
    ensures p >= |key|
  {
    if p + 1 + |PREFIX| <= |key| {
      StartIsInside(s, key, p);
    } else if p < |key| {
      NoNewlineInStart(s, p, |key|);
    }
  }

  /** Where the first of several joined keys ends, a key starts. */
  lemma {:induction false} StartsAfterFirst(keys: seq<string>)
    requires |keys| > 1 && IsPrinted(keys[1])
    ensures StartsAfter(Join(keys, '\n'), |keys[0]|)
  {
    var s, p := Join(keys, '\n'), |keys[0]|;
    JoinFirst(keys, '\n');
    JoinFirst(keys[1..], '\n');
    assert PREFIX <= keys[1] <= s[p + 1..];
    assert s[p + 1..p + 1 + |PREFIX|] == s[p + 1..][..|PREFIX|];
  }

  /** Of two listings with one signature neither starts with a shorter key. */
  lemma {:induction false} FirstIsNotShorter(a: seq<string>, b: seq<string>)
    requires a != [] && b != [] && (forall k :: k in a + b ==> IsPrinted(k)) && Join(a, '\n') == Join(b, '\n')
    ensures |a[0]| >= |b[0]|
  {
    JoinFirst(a, '\n');
    JoinFirst(b, '\n');
    assert b[0] in a + b;
    if |a| > 1 {
      assert a[1] in a + b;
      StartsAfterFirst(a);
      NoLongerKey(Join(a, '\n'), b[0], |a[0]|);
    }
  }

  lemma {:induction false} JoinIsInjective(a: seq<string>, b: seq<string>)
    requires a != [] && b != [] && (forall k :: k in a + b ==> IsPrinted(k)) && Join(a, '\n') == Join(b, '\n')
    ensures a == b
    decreases |a|
  {
    assert b + a == b + a && forall k :: k in b + a <==> k in a + b;
    FirstIsNotShorter(a, b);
    FirstIsNotShorter(b, a);
    JoinFirst(a, '\n');
    JoinFirst(b, '\n');
    assert a[0] == Join(a, '\n')[..|a[0]|] == b[0];
    if |a| > 1 && |b| > 1 {
      forall k | k in a[1..] + b[1..]
        ensures k in a + b
      {
      }
      JoinIsInjective(a[1..], b[1..]);
    }
    assert a == [a[0]] + a[1..] && b == [b[0]] + b[1..];
  }

  /** The signature of a listing of keys tells its set apart. */
  lemma {:induction false} SignatureIsInjective(a: seq<string>, b: seq<string>)
    requires Sorted(a) && Sorted(b) && AreKeys(SetOf(a)) && AreKeys(SetOf(b))
    ensures Join(a, '\n') == Join(b, '\n') <==> SetOf(a) == SetOf(b)
  {
    EmptyListing(a);
    EmptyListing(b);
    forall k | k in a + b
      ensures IsPrinted(k)
    {
      assert k in SetOf(a) || k in SetOf(b);
    }
    if Join(a, '\n') == Join(b, '\n') {
      JoinIsInjective(a, b);
    }
    if SetOf(a) == SetOf(b) {
      SortedIsUnique(a, b);
    }
  }

  ghost predicate NoRepeats(s: seq<string>) {
    forall i, j :: 0 <= i < j < |s| ==> s[i] != s[j]
  }

  /** A group filed under its signature: sorted keys, and devices of this transport, each once, that were
      found on exactly these keys and are among those handled. */
  ghost predicate IsGroup(g: Group, signature: string, transport: string, found: map<DeviceRef, set<string>>, handled: set<DeviceRef>)
    requires handled <= found.Keys
  {
    && Sorted(g.channels) && AreKeys(SetOf(g.channels)) && signature == Join(g.channels, '\n')
    && g.deviceIds != [] && NoRepeats(g.deviceIds)
    && forall id :: id in g.deviceIds ==>
         DeviceRef(id, transport) in handled && found[DeviceRef(id, transport)] == SetOf(g.channels)
  }

  /** The device is in the group of its transport with its own key set. */
  ghost predicate IsFiled(groups: Groups, d: DeviceRef, keys: set<string>) {
    && d.transport in groups
    && exists signature :: signature in groups[d.transport]
         && SetOf(groups[d.transport][signature].channels) == keys && d.deviceId in groups[d.transport][signature].deviceIds
  }

  ghost predicate Batched(groups: Groups, found: map<DeviceRef, set<string>>, handled: set<DeviceRef>)
    requires handled <= found.Keys
  {
    && (forall t, signature :: t in groups && signature in groups[t] ==> IsGroup(groups[t][signature], signature, t, found, handled))
    && (forall d :: d in handled ==> IsFiled(groups, d, found[d]))
    && (forall t :: t in groups ==> groups[t] != map[])
  }

  /** Files one device. */
  method FileDevice(groups: Groups, d: DeviceRef, found: map<DeviceRef, set<string>>, ghost handled: set<DeviceRef>)
    returns (filed: Groups)
    requires AllKeys(found) && d in found && d !in handled && handled <= found.Keys && Batched(groups, found, handled)
    ensures Batched(filed, found, handled + {d})
  {
    var channels := Sort(found[d]);
    var signature := Join(channels, '\n');
    var mine := if d.transport in groups then groups[d.transport] else map[];
    var group: Group;
    if signature in mine {
      var existing := mine[signature];
      SignatureIsInjective(existing.channels, channels);
      group := Group(existing.channels, existing.deviceIds + [d.deviceId]);
      GroupGrows(existing, signature, found, handled, d);
    } else {
      group := Group(channels, [d.deviceId]);
    }
    filed := groups[d.transport := mine[signature := group]];
    assert IsGroup(group, signature, d.transport, found, handled + {d});
    OthersStayBatched(groups, filed, found, handled, d, signature);
    OneMoreBatched(filed, found, handled, d, signature);
  }

  lemma OneMoreBatched(filed: Groups, found: map<DeviceRef, set<string>>, handled: set<DeviceRef>, d: DeviceRef, signature: string)
    requires handled <= found.Keys && d in found && d.transport in filed && signature in filed[d.transport]
    requires IsGroup(filed[d.transport][signature], signature, d.transport, found, handled + {d})
    requires SetOf(filed[d.transport][signature].channels) == found[d] && d.deviceId in filed[d.transport][signature].deviceIds
    requires forall t, g :: t in filed && g in filed[t] && (t != d.transport || g != signature) ==>
               IsGroup(filed[t][g], g, t, found, handled)
    requires forall e :: e in handled ==> IsFiled(filed, e, found[e])
    requires forall t :: t in filed ==> filed[t] != map[]
    ensures Batched(filed, found, handled + {d})
  {
    assert IsFiled(filed, d, found[d]);
    forall t, g | t in filed && g in filed[t]
      ensures IsGroup(filed[t][g], g, t, found, handled + {d})
    {
    }
  }

  lemma GroupGrows(g: Group, signature: string, found: map<DeviceRef, set<string>>, handled: set<DeviceRef>, d: DeviceRef)
    requires handled <= found.Keys && IsGroup(g, signature, d.transport, found, handled)
    requires d in found && d !in handled && found[d] == SetOf(g.channels)
    ensures IsGroup(Group(g.channels, g.deviceIds + [d.deviceId]), signature, d.transport, found, handled + {d})
  {
    assert d.deviceId !in g.deviceIds;
  }

  lemma OthersStayBatched(groups: Groups, filed: Groups, found: map<DeviceRef, set<string>>, handled: set<DeviceRef>, d: DeviceRef,
                          signature: string)
    requires handled <= found.Keys && Batched(groups, found, handled)
    requires d.transport in filed && signature in filed[d.transport]
    requires filed == groups[d.transport := (if d.transport in groups then groups[d.transport] else map[])
                                              [signature := filed[d.transport][signature]]]
    requires d.transport in groups && signature in groups[d.transport] ==>
               && filed[d.transport][signature].channels == groups[d.transport][signature].channels
               && forall id :: id in groups[d.transport][signature].deviceIds ==> id in filed[d.transport][signature].deviceIds
    ensures forall t, g :: t in filed && g in filed[t] && (t != d.transport || g != signature) ==>
              IsGroup(filed[t][g], g, t, found, handled)
    ensures forall e :: e in handled ==> IsFiled(filed, e, found[e])
  {
    forall t, g | t in filed && g in filed[t] && (t != d.transport || g != signature)
      ensures IsGroup(filed[t][g], g, t, found, handled)
    {
      assert filed[t][g] == groups[t][g];
    }
    forall e | e in handled
      ensures IsFiled(filed, e, found[e])
    {
      assert IsFiled(groups, e, found[e]);
      FiledStays(groups, filed, d, signature, e, found[e]);
    }
  }

  lemma FiledStays(groups: Groups, filed: Groups, d: DeviceRef, signature: string, e: DeviceRef, keys: set<string>)
    requires IsFiled(groups, e, keys) && d.transport in filed && signature in filed[d.transport]
    requires filed == groups[d.transport := (if d.transport in groups then groups[d.transport] else map[])
                                              [signature := filed[d.transport][signature]]]
    requires d.transport in groups && signature in groups[d.transport] ==>
               && filed[d.transport][signature].channels == groups[d.transport][signature].channels
               && forall id :: id in groups[d.transport][signature].deviceIds ==> id in filed[d.transport][signature].deviceIds
    ensures IsFiled(filed, e, keys)
  {
    var g :| g in groups[e.transport]
      && SetOf(groups[e.transport][g].channels) == keys && e.deviceId in groups[e.transport][g].deviceIds;
    assert g in filed[e.transport];
  }

  /** `groupDevicesForFanOut`, before the groups of a transport are listed: every device is filed, and every
      group is made of filed devices. */
  method GroupDevices(found: map<DeviceRef, set<string>>) returns (groups: Groups)
    requires AllKeys(found)
    ensures Batched(groups, found, found.Keys)
  {
    groups := map[];
    var todo := found.Keys;
    while todo != {}
      invariant todo <= found.Keys && Batched(groups, found, found.Keys - todo)
      decreases todo
    {
      var d :| d in todo;
      groups := FileDevice(groups, d, found, found.Keys - todo);
      assert found.Keys - (todo - {d}) == found.Keys - todo + {d};
      todo := todo - {d};
    }
    assert found.Keys - {} == found.Keys;
  }

  // ---- Conservation ----

  /** The key sets of the devices on a transport. */
  function KeySets(found: map<DeviceRef, set<string>>, transport: string): set<set<string>> {
    set d | d in found && d.transport == transport :: found[d]
  }

  /** No recipient is lost, doubled or sent to a wrong channel: a device is in one group of its transport
      and in no other, that group has exactly its keys, and only devices found are in groups. */
  lemma RecipientsAreConserved(groups: Groups, found: map<DeviceRef, set<string>>, d: DeviceRef, signature: string)
    requires AllKeys(found) && Batched(groups, found, found.Keys)
    requires d.transport in groups && signature in groups[d.transport]
    ensures d.deviceId in groups[d.transport][signature].deviceIds
       <==> d in found && SetOf(groups[d.transport][signature].channels) == found[d]
  {
    var g := groups[d.transport][signature];
    assert IsGroup(g, signature, d.transport, found, found.Keys);
    assert DeviceRef(d.deviceId, d.transport) == d;
    if d in found && SetOf(g.channels) == found[d] {
      assert IsFiled(groups, d, found[d]);
      var own :| own in groups[d.transport]
        && SetOf(groups[d.transport][own].channels) == found[d] && d.deviceId in groups[d.transport][own].deviceIds;
      GroupsDiffer(groups, found, d.transport, signature, own);
    }
  }

  /** Two groups of one transport have different key sets. */
  lemma GroupsDiffer(groups: Groups, found: map<DeviceRef, set<string>>, transport: string, a: string, b: string)
    requires AllKeys(found) && Batched(groups, found, found.Keys)
    requires transport in groups && a in groups[transport] && b in groups[transport]
    requires SetOf(groups[transport][a].channels) == SetOf(groups[transport][b].channels)
    ensures a == b
  {
    assert IsGroup(groups[transport][a], a, transport, found, found.Keys);
    assert IsGroup(groups[transport][b], b, transport, found, found.Keys);
    SignatureIsInjective(groups[transport][a].channels, groups[transport][b].channels);
  }

  /** A transport gets one message for each distinct key set among its devices. */
  lemma MessageCount(groups: Groups, found: map<DeviceRef, set<string>>, transport: string)
    requires AllKeys(found) && Batched(groups, found, found.Keys)
    ensures transport in groups <==> exists d :: d in found && d.transport == transport
    ensures transport in groups ==> |groups[transport]| == |KeySets(found, transport)|
  {
    forall d | d in found && d.transport == transport
      ensures transport in groups
    {
      assert IsFiled(groups, d, found[d]);
    }
    if transport in groups {
      var mine := groups[transport];
      forall a, b | a in mine && b in mine && SetOf(mine[a].channels) == SetOf(mine[b].channels)
        ensures a == b
      {
        GroupsDiffer(groups, found, transport, a, b);
      }
      var sets := set a | a in mine :: SetOf(mine[a].channels);
      assert sets == KeySets(found, transport) by {
        GroupSets(groups, found, transport);
      }
      CountImages(mine, mine.Keys);
      assert mine.Keys != {};
      var a :| a in mine;
      assert IsGroup(mine[a], a, transport, found, found.Keys);
      assert mine[a].deviceIds[0] in mine[a].deviceIds;
      assert DeviceRef(mine[a].deviceIds[0], transport) in found;
    }
  }

  lemma GroupSets(groups: Groups, found: map<DeviceRef, set<string>>, transport: string)
    requires AllKeys(found) && Batched(groups, found, found.Keys) && transport in groups
    ensures (set a | a in groups[transport] :: SetOf(groups[transport][a].channels)) == KeySets(found, transport)
  {
    var mine := groups[transport];
    forall a | a in mine
      ensures SetOf(mine[a].channels) in KeySets(found, transport)
    {
      assert IsGroup(mine[a], a, transport, found, found.Keys);
      var id := mine[a].deviceIds[0];
      assert id in mine[a].deviceIds;
      assert found[DeviceRef(id, transport)] in KeySets(found, transport);
    }
    forall d | d in found && d.transport == transport
      ensures exists a :: a in mine && SetOf(mine[a].channels) == found[d]
    {
      assert IsFiled(groups, d, found[d]);
    }
  }

  lemma {:induction false} CountImages(mine: map<string, Group>, keys: set<string>)
    requires keys <= mine.Keys
    requires forall a, b :: a in mine && b in mine && SetOf(mine[a].channels) == SetOf(mine[b].channels) ==> a == b
    ensures |set a | a in keys :: SetOf(mine[a].channels)| == |keys|
    decreases keys
  {
    var images := set a | a in keys :: SetOf(mine[a].channels);
    if keys != {} {
      var k :| k in keys;
      CountImages(mine, keys - {k});
      var rest := set a | a in keys - {k} :: SetOf(mine[a].channels);
      assert images == rest + {SetOf(mine[k].channels)};
      assert SetOf(mine[k].channels) !in rest;
    } else {
      assert images == {};
    }
  }
}
