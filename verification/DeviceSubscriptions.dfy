/** A device's own list of subscriptions, as printed keys, kept beside the index. */
module DeviceSubscriptions {
  import opened Values
  import opened SubscriptionKeys
  import opened SubscriptionIndex
  import opened SubscriptionRelation

  // ---- Reading a key back ----

  /** A listed key as a loaded device sees it: parsed, with the device's own application. */
  function ReadBack(key: string, appId: string): Channel
    requires IsKey(key)
  {
    FromKey(key).(appId := appId)
  }

  function Reprinted(key: string, appId: string): string
    requires IsKey(key)
  {
    GetKey(ReadBack(key, appId))
  }

  predicate AreKeys(keys: seq<string>) {
    forall k :: k in keys ==> IsKey(k)
  }

  /** What the list looks like on a loaded device. */
  predicate IsListed(keys: seq<string>, key: string, appId: string)
    requires AreKeys(keys)
  {
    exists k :: k in keys && Reprinted(k, appId) == key
  }

  // ---- What the operations do ----

  /** A device's list and the index. */
  datatype Books = Books(keys: seq<string>, held: Contents)

  function AfterSubscribe(b: Books, r: Request, m: DeviceRef, appId: string): Books
    requires AreKeys(b.keys)
  {
    var c := r.channel.(appId := appId);
    if IsListed(b.keys, GetKey(c), appId) then b
    else Books(b.keys + [GetKey(c)], AfterAdd(b.held, c, r.filter, m))
  }

  function AfterRemovals(held: Contents, keys: seq<string>, m: DeviceRef, appId: string): Contents
    requires AreKeys(keys)
    decreases |keys|
  {
    if keys == [] then held else AfterRemovals(AfterRemove(held, ReadBack(keys[0], appId), m), keys[1..], m, appId)
  }

  /** The device document: the transport it is reached by, once it has one, and its subscriptions. */
  class DeviceRecord {
    const id: string
    const appId: string
    var transport: Option<string>
    var subscriptions: seq<string>

    constructor (id: string, appId: string)
      ensures this.id == id && this.appId == appId && transport.None? && subscriptions == [] && Valid()
    {
      this.id, this.appId, transport, subscriptions := id, appId, None, [];
    }

    predicate Valid()
      reads this
    {
      AreKeys(subscriptions)
    }

    function Ref(): DeviceRef
      requires transport.Some?
      reads this
    {
      DeviceRef(id, transport.value)
    }

    /** `hasSubscription`, on the list a request has just loaded. What the original then reads from the store is an
        array of matches, so that second look finds no key. */
    method HasSubscription(c: Channel) returns (found: bool)
      requires Valid()
      ensures found <==> IsListed(subscriptions, GetKey(c), appId)
    {
      var key := GetKeyString(c);
      for i := 0 to |subscriptions|
        invariant !IsListed(subscriptions[..i], key, appId)
      {
        var listed := ParseKey(subscriptions[i]);
        listed := listed.(appId := appId);
        var printed := GetKeyString(listed);
        if printed == key {
          return true;
        }
        assert subscriptions[..i + 1] == subscriptions[..i] + [subscriptions[i]];
      }
      assert subscriptions[..|subscriptions|] == subscriptions;
      return false;
    }

    /** `addSubscription`; `None` is a device without a transport, which is refused. */
    method AddSubscription(index: Index, r: Request) returns (added: Option<bool>)
      requires index.Valid() && Valid()
      modifies this`subscriptions, index
      ensures index.Valid() && Valid()
      ensures added.None? <==> transport.None?
      ensures transport.None? ==> index.Held() == old(index.Held()) && subscriptions == old(subscriptions)
      ensures transport.Some? ==>
                && Books(subscriptions, index.Held()) == AfterSubscribe(Books(old(subscriptions), old(index.Held())), r, Ref(), appId)
                && (added.value <==> !IsListed(old(subscriptions), GetKey(r.channel.(appId := appId)), appId))
    {
      if transport.None? {
        return None;
      }
      var c := r.channel.(appId := appId);
      var found := HasSubscription(c);
      if found {
        return Some(false);
      }
      var key := GetKeyString(c);
      AlwaysAKey(c);
      subscriptions := subscriptions + [key];
      index.AddDevice(c, r.filter, Ref());
      return Some(true);
    }

    /** `removeAllSubscriptions`: each listed key is parsed back and removed from the index; the list is
        emptied whatever happens. */
    method RemoveAllSubscriptions(index: Index)
      requires index.Valid() && Valid()
      modifies this`subscriptions, index
      ensures index.Valid() && subscriptions == []
      ensures transport.Some? ==> index.Held() == AfterRemovals(old(index.Held()), old(subscriptions), Ref(), appId)
      ensures transport.None? ==> index.Held() == old(index.Held())
    {
      var keys := subscriptions;
      for i := 0 to |keys|
        invariant index.Valid() && transport == old(transport)
        invariant transport.None? ==> index.Held() == old(index.Held())
        invariant transport.Some? ==>
                    AfterRemovals(index.Held(), keys[i..], Ref(), appId) == AfterRemovals(old(index.Held()), keys, Ref(), appId)
      {
        assert keys[i..][0] == keys[i] && keys[i..][1..] == keys[i + 1..];
        var channel := ParseKey(keys[i]);
        channel := channel.(appId := appId);
        if transport.Some? {
          var removed := index.RemoveDevice(channel, Ref());
        }
      }
      subscriptions := [];
    }
  }

  // ---- Subscribing and removing everything ----

  function AfterAll(b: Books, requests: seq<Request>, m: DeviceRef, appId: string): (after: Books)
    requires AreKeys(b.keys)
    ensures AreKeys(after.keys)
    decreases |requests|
  {
    if requests == [] then b
    else
      AlwaysAKey(requests[0].channel.(appId := appId));
      AfterAll(AfterSubscribe(b, requests[0], m, appId), requests[1..], m, appId)
  }

  /** Subscribes a device to several channels and, when it is gone, removes all of its subscriptions. */
  method SubscribeThenRemoveAll(index: Index, device: DeviceRecord, requests: seq<Request>)
    requires index.Valid() && device.Valid() && device.transport.Some?
    modifies index, device`subscriptions
    ensures index.Valid() && device.subscriptions == []
    ensures var books := AfterAll(Books(old(device.subscriptions), old(index.Held())), requests, device.Ref(), device.appId);
            index.Held() == AfterRemovals(books.held, books.keys, device.Ref(), device.appId)
  {
    ghost var books := AfterAll(Books(device.subscriptions, index.Held()), requests, device.Ref(), device.appId);
    for i := 0 to |requests|
      invariant index.Valid() && device.Valid() && device.transport == old(device.transport)
      invariant AfterAll(Books(device.subscriptions, index.Held()), requests[i..], device.Ref(), device.appId) == books
    {
      assert requests[i..][0] == requests[i] && requests[i..][1..] == requests[i + 1..];
      var added := device.AddSubscription(index, requests[i]);
    }
    device.RemoveAllSubscriptions(index);
  }

  /** A listed model id with a colon stands in the way of another: after `x:y` a request for `y` is taken for listed,
      and the device is not added for it. */
  lemma {:induction false} ColonIdBlocksAnother(m: DeviceRef)
    ensures var x := Request(Channel("app", "m", Some("x:y"), None, None), None);
            var y := Request(Channel("app", "m", Some("y"), None, None), None);
            var b := AfterAll(Books([], EMPTY), [x, y], m, "app");
            b.keys == [GetKey(x.channel)] && Entry(GetKey(y.channel), m) !in b.held.entries
  {
    var x := Request(Channel("app", "m", Some("x:y"), None, None), None);
    var y := Request(Channel("app", "m", Some("y"), None, None), None);
    ColonIdReadsAsAnother();
    var b := AfterSubscribe(Books([], EMPTY), x, m, "app");
    assert b.keys == [GetKey(x.channel)];
    assert Reprinted(b.keys[0], "app") == GetKey(y.channel);
    assert [x, y][1..] == [y] && [y][1..] == [];
    assert AfterSubscribe(b, y, m, "app") == b;
    assert AfterAll(b, [y], m, "app") == b;
  }
}
