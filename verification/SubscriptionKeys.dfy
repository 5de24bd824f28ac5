/** The string keys of subscriptions: printing, parsing back, and when they tell channels apart. */
module SubscriptionKeys {
  import opened Values
  import opened Texts

  /** A subscription channel. An empty identifier counts as none. */
  datatype Channel = Channel(appId: string, model: string, modelId: Option<string>, userId: Option<string>, filterId: Option<string>)

  const PREFIX := "nxx:subscription:"

  predicate IsGiven(id: Option<string>) {
    id.Some? && id.value != ""
  }

  function Part(name: string, value: Option<string>): seq<string> {
    if !IsGiven(value) then [] else (if name == "" then [] else [name]) + [value.value]
  }

  /** The parts of a channel's key. A user id is left out next to a model id. */
  function Parts(c: Channel): seq<string> {
    [c.appId, c.model] + Part("", c.modelId) + (if IsGiven(c.modelId) then [] else Part("user", c.userId)) + Part("filter", c.filterId)
  }

  /** `getKey`, appending as it goes. */
  method GetKeyString(c: Channel) returns (key: string)
    ensures key == GetKey(c)
  {
    ghost var parts := [c.appId, c.model];
    key := PREFIX + (c.appId + ":" + c.model);
    StartKey(c.appId, c.model);
    if IsGiven(c.modelId) {
      KeyAppend(parts, [c.modelId.value]);
      key := key + (":" + c.modelId.value);
      parts := parts + [c.modelId.value];
    }
    if IsGiven(c.userId) && !IsGiven(c.modelId) {
      KeyAppend(parts, ["user", c.userId.value]);
      key := key + (":" + ("user:" + c.userId.value));
      parts := parts + ["user", c.userId.value];
    }
    if IsGiven(c.filterId) {
      KeyAppend(parts, ["filter", c.filterId.value]);
      key := key + (":" + ("filter:" + c.filterId.value));
      parts := parts + ["filter", c.filterId.value];
    }
    assert parts == Parts(c);
  }

  lemma StartKey(appId: string, model: string)
    ensures Join([appId, model], ':') == appId + ":" + model
  {
  }

  /** Appending a segment to a printed key prints the longer list of parts. */
  lemma {:induction false} KeyAppend(parts: seq<string>, more: seq<string>)
    requires parts != [] && more != []
    ensures PREFIX + Join(parts, ':') + (":" + Join(more, ':')) == PREFIX + Join(parts + more, ':')
    ensures |more| == 2 && more[0] == "user" ==> Join(more, ':') == "user:" + more[1]
    ensures |more| == 2 && more[0] == "filter" ==> Join(more, ':') == "filter:" + more[1]
  {
    JoinMore(parts, more, ':');
    Regroup(PREFIX, Join(parts, ':'), ":", Join(more, ':'));
    if |more| == 2 {
      StartKey(more[0], more[1]);
      assert more == [more[0], more[1]];
      assert "user" + ":" == "user:" && "filter" + ":" == "filter:";
    }
  }

  lemma Regroup(a: string, b: string, c: string, d: string)
    ensures a + b + (c + d) == a + (b + c + d)
  {
    assert b + c + d == b + (c + d);
  }

  function GetKey(c: Channel): string {
    PREFIX + Join(Parts(c), ':')
  }

  // ---- Parsing ----

  datatype Ids = Ids(modelId: Option<string>, userId: Option<string>, filterId: Option<string>)

  function At(parts: seq<string>, i: nat): Option<string> {
    if i < |parts| then Some(parts[i]) else None
  }

  function ParseIds(parts: seq<string>, i: nat, ids: Ids): Ids
    decreases |parts| - i
  {
    if i >= |parts| then ids
    else if parts[i] == "user" then ParseIds(parts, i + 2, ids.(userId := At(parts, i + 1)))
    else if parts[i] == "filter" then ParseIds(parts, i + 2, ids.(filterId := At(parts, i + 1)))
    else ParseIds(parts, i + 1, ids.(modelId := Some(parts[i])))
  }

  predicate IsKey(key: string) {
    PREFIX <= key && |Split(key[|PREFIX|..], ':')| >= 2
  }

  function FromKey(key: string): Channel
    requires IsKey(key)
  {
    var parts := Split(key[|PREFIX|..], ':');
    var ids := ParseIds(parts, 2, Ids(None, None, None));
    Channel(parts[0], parts[1], ids.modelId, ids.userId, if IsGiven(ids.filterId) then ids.filterId else None)
  }

  /** The loop of `fromKey`. */
  method ParseKey(key: string) returns (c: Channel)
    requires IsKey(key)
    ensures c == FromKey(key)
  {
    var parts := Split(key[|PREFIX|..], ':');
    var modelId, userId, filterId: Option<string> := None, None, None;
    var i := 2;
    while i < |parts|
      invariant ParseIds(parts, 2, Ids(None, None, None)) == ParseIds(parts, i, Ids(modelId, userId, filterId))
      decreases |parts| - i
    {
      var part := parts[i];
      if part == "user" {
        userId := if i + 1 < |parts| then Some(parts[i + 1]) else None;
        i := i + 2;
      } else if part == "filter" {
        filterId := if i + 1 < |parts| then Some(parts[i + 1]) else None;
        i := i + 2;
      } else {
        modelId := Some(part);
        i := i + 1;
      }
    }
    return Channel(parts[0], parts[1], modelId, userId, if IsGiven(filterId) then filterId else None);
  }

  // ---- Round trip ----

  /** The channel a key speaks of: without empty ids, and without a user id next to a model id. */
  function Normal(c: Channel): (n: Channel)
    ensures GetKey(n) == GetKey(c)
  {
    Channel(c.appId, c.model, if IsGiven(c.modelId) then c.modelId else None,
            if IsGiven(c.userId) && !IsGiven(c.modelId) then c.userId else None,
            if IsGiven(c.filterId) then c.filterId else None)
  }

  predicate IdLacks(id: Option<string>) {
    id.Some? ==> Lacks(id.value, ':')
  }

  predicate NoColon(c: Channel) {
    Lacks(c.appId, ':') && Lacks(c.model, ':') && IdLacks(c.modelId) && IdLacks(c.userId) && IdLacks(c.filterId)
  }

  /** The channels whose keys can be read back: no identifier is empty or holds a colon, there are not both ids,
      and the model id is not one of the two words the format reserves. */
  predicate Printable(c: Channel) {
    NoColon(c) && Normal(c) == c && c.modelId != Some("user") && c.modelId != Some("filter")
  }

  lemma KeySplits(c: Channel)
    requires NoColon(c)
    ensures IsKey(GetKey(c)) && Split(GetKey(c)[|PREFIX|..], ':') == Parts(c)
  {
    assert GetKey(c)[|PREFIX|..] == Join(Parts(c), ':');
    SplitJoin(Parts(c), ':');
  }

  lemma {:induction false} ParseLast(parts: seq<string>, ids: Ids)
    requires |parts| == 5
    ensures ParseIds(parts, 4, ids)
         == if parts[4] == "user" then ids.(userId := None)
            else if parts[4] == "filter" then ids.(filterId := None)
            else ids.(modelId := Some(parts[4]))
  {
  }

  lemma ParsePrinted(c: Channel)
    requires NoColon(c) && Normal(c) == c && IsKey(GetKey(c))
    ensures FromKey(GetKey(c)) == c <==> c.modelId != Some("user") && c.modelId != Some("filter")
  {
    KeySplits(c);
    var parts := Parts(c);
    var none := Ids(None, None, None);
    if c.modelId.Some? {
      assert parts[2] == c.modelId.value;
      if c.filterId.Some? {
        assert parts == [c.appId, c.model, c.modelId.value, "filter", c.filterId.value];
        ParseLast(parts, none.(userId := Some("filter")));
        ParseLast(parts, none.(filterId := Some("filter")));
        var withModel := none.(modelId := c.modelId);
        assert ParseIds(parts, 5, withModel.(filterId := c.filterId)) == withModel.(filterId := c.filterId);
        assert ParseIds(parts, 3, withModel) == withModel.(filterId := c.filterId);
      } else {
        assert parts == [c.appId, c.model, c.modelId.value];
        assert ParseIds(parts, 3, none.(modelId := c.modelId)) == none.(modelId := c.modelId);
        assert ParseIds(parts, 4, none) == none;
        assert At(parts, 3) == None;
      }
    } else if c.userId.Some? {
      if c.filterId.Some? {
        assert parts == [c.appId, c.model, "user", c.userId.value, "filter", c.filterId.value];
        var withUser := none.(userId := c.userId);
        assert ParseIds(parts, 6, withUser.(filterId := c.filterId)) == withUser.(filterId := c.filterId);
        assert ParseIds(parts, 4, withUser) == withUser.(filterId := c.filterId);
        assert ParseIds(parts, 2, none) == ParseIds(parts, 4, withUser);
      } else {
        assert parts == [c.appId, c.model, "user", c.userId.value];
        assert ParseIds(parts, 2, none) == ParseIds(parts, 4, none.(userId := c.userId));
      }
    } else if c.filterId.Some? {
      assert parts == [c.appId, c.model, "filter", c.filterId.value];
      assert ParseIds(parts, 2, none) == ParseIds(parts, 4, none.(filterId := c.filterId));
    } else {
      assert parts == [c.appId, c.model];
    }
  }

  lemma AlwaysAKey(c: Channel)
    ensures IsKey(GetKey(c))
  {
    var parts := Parts(c);
    assert GetKey(c)[|PREFIX|..] == Join(parts, ':');
    assert Join(parts, ':') == parts[0] + [':'] + Join(parts[1..], ':');
    assert Join(parts, ':')[|parts[0]|] == ':';
    SplitsInTwo("", Join(parts, ':'), ':');
  }

  predicate FromParts(ids: Ids, parts: seq<string>) {
    && (ids.modelId.Some? ==> ids.modelId.value in parts && ids.modelId.value != "user" && ids.modelId.value != "filter")
    && (ids.userId.Some? ==> ids.userId.value in parts)
    && (ids.filterId.Some? ==> ids.filterId.value in parts)
  }

  lemma {:induction false} ParsedAreParts(parts: seq<string>, i: nat, ids: Ids)
    requires FromParts(ids, parts)
    ensures FromParts(ParseIds(parts, i, ids), parts)
    decreases |parts| - i
  {
    if i < |parts| {
      if parts[i] == "user" {
        ParsedAreParts(parts, i + 2, ids.(userId := At(parts, i + 1)));
      } else if parts[i] == "filter" {
        ParsedAreParts(parts, i + 2, ids.(filterId := At(parts, i + 1)));
      } else {
        ParsedAreParts(parts, i + 1, ids.(modelId := Some(parts[i])));
      }
    }
  }

  /** What is read off any key holds no colon, and its model id is no reserved word. */
  lemma ParsedHaveNoColon(key: string)
    requires IsKey(key)
    ensures NoColon(FromKey(key)) && FromKey(key).modelId != Some("user") && FromKey(key).modelId != Some("filter")
  {
    var parts := Split(key[|PREFIX|..], ':');
    PiecesLack("", key[|PREFIX|..], ':');
    ParsedAreParts(parts, 2, Ids(None, None, None));
    assert parts[0] in parts && parts[1] in parts;
  }

  /** For every channel: reading its key gives it back if and only if it is printable. */
  lemma FromKeyInvertsGetKeyIff(c: Channel)
    ensures IsKey(GetKey(c))
    ensures FromKey(GetKey(c)) == c <==> Printable(c)
  {
    AlwaysAKey(c);
    ParsedHaveNoColon(GetKey(c));
    if NoColon(c) {
      ParsePrinted(Normal(c));
    }
  }

  /** Different channels have different keys, and so have their partitions. */
  lemma KeysAreInjective(a: Channel, b: Channel)
    requires Printable(a) && Printable(b)
    ensures GetKey(a) == GetKey(b) ==> a == b
  {
    FromKeyInvertsGetKeyIff(a);
    FromKeyInvertsGetKeyIff(b);
  }

  function HexDigit(partition: nat): char
    requires partition < 16
  {
    "0123456789abcdef"[partition]
  }

  /** `buildPartitionKey` */
  function PartitionKey(c: Channel, partition: nat): string
    requires partition < 16
  {
    GetKey(c) + ":p" + [HexDigit(partition)]
  }

  lemma LastThree(s: string, a: char, b: char, c: char)
    ensures var t := s + [a, b] + [c]; |t| == |s| + 3 && t[..|s|] == s && t[|s| + 2] == c
  {
  }

  lemma HexDigitsDiffer(p: nat, q: nat)
    requires p < 16 && q < 16
    ensures HexDigit(p) == HexDigit(q) ==> p == q
    ensures HexDigit(p) as int == if p < 10 then '0' as int + p else 'a' as int + p - 10
  {
    var digits := "0123456789abcdef";
    assert forall i, j :: 0 <= i < j < 10 ==> digits[i] != digits[j];
    assert forall i, j :: 10 <= i < j < 16 ==> digits[i] != digits[j];
  }

  /** Different partitions, or partitions of different keys, have different keys. */
  lemma PartitionKeysAreInjective(a: Channel, p: nat, b: Channel, q: nat)
    requires p < 16 && q < 16
    ensures PartitionKey(a, p) == PartitionKey(b, q) <==> GetKey(a) == GetKey(b) && p == q
  {
    LastThree(GetKey(a), ':', 'p', HexDigit(p));
    LastThree(GetKey(b), ':', 'p', HexDigit(q));
    HexDigitsDiffer(p, q);
    if PartitionKey(a, p) == PartitionKey(b, q) {
      assert |GetKey(a)| == |GetKey(b)|;
    }
  }

  /** The key of a filtered channel is that of its registry, and the id after it. */
  lemma FilteredKey(c: Channel)
    requires IsGiven(c.filterId)
    ensures GetKey(c) == GetKey(c.(filterId := None)) + (":" + ("filter:" + c.filterId.value))
  {
    var base := c.(filterId := None);
    KeyAppend(Parts(base), ["filter", c.filterId.value]);
    assert Parts(c) == Parts(base) + ["filter", c.filterId.value];
  }

  /** A user's channel has the key of the channel of a model id that no request is refused for. */
  lemma UserKeyIsAModelKey(appId: string, model: string, userId: string, filterId: Option<string>)
    requires userId != ""
    ensures GetKey(Channel(appId, model, None, Some(userId), filterId))
         == GetKey(Channel(appId, model, Some("user:" + userId), None, filterId))
  {
    var rest := Part("filter", filterId);
    var a, b := [appId, model] + ["user", userId], [appId, model] + ["user:" + userId];
    StartKey("user", userId);
    assert "user" + ":" + userId == "user:" + userId;
    JoinMore([appId, model], ["user", userId], ':');
    JoinMore([appId, model], ["user:" + userId], ':');
    if rest != [] {
      JoinMore(a, rest, ':');
      JoinMore(b, rest, ':');
    }
    assert Parts(Channel(appId, model, None, Some(userId), filterId)) == a + rest;
    assert Parts(Channel(appId, model, Some("user:" + userId), None, filterId)) == b + rest;
    assert a + [] == a && b + [] == b;
  }

  /** A model id with a colon is read back as its last part, whose key is another one: what is removed under that
      key is not what was added. */
  lemma ColonIdReadsAsAnother()
    ensures var c := Channel("app", "m", Some("x:y"), None, None);
            && IsKey(GetKey(c)) && FromKey(GetKey(c)) == Channel("app", "m", Some("y"), None, None)
            && GetKey(FromKey(GetKey(c))) != GetKey(c)
  {
    var c, d := Channel("app", "m", Some("x:y"), None, None), Channel("app", "m", Some("y"), None, None);
    var parts := ["app", "m", "x", "y"];
    AlwaysAKey(c);
    StartKey("x", "y");
    assert "x" + ":" + "y" == "x:y";
    JoinMore(["app", "m"], ["x", "y"], ':');
    JoinMore(["app", "m"], ["x:y"], ':');
    assert ["app", "m"] + ["x", "y"] == parts && Parts(c) == ["app", "m"] + ["x:y"];
    assert GetKey(c)[|PREFIX|..] == Join(parts, ':');
    SplitJoin(parts, ':');
    var none := Ids(None, None, None);
    assert ParseIds(parts, 4, none.(modelId := Some("y"))) == none.(modelId := Some("y"));
    assert ParseIds(parts, 3, none.(modelId := Some("x"))) == none.(modelId := Some("y"));
    assert ParseIds(parts, 2, none) == none.(modelId := Some("y"));
    KeySplits(d);
    assert GetKey(d)[|PREFIX|..] == Join(Parts(d), ':');
    SplitJoin(Parts(d), ':');
    assert |Parts(d)| == 3;
  }

  /** A channel with both ids has the key of the one without the user id: that is why a request may not
      give both. */
  lemma BothIdsShareAKey(c: Channel)
    requires IsGiven(c.modelId)
    ensures GetKey(c) == GetKey(c.(userId := None))
  {
  }

  // ---- Scopes ----

  /** `buildScopeDescriptor` */
  function ScopeDescriptor(modelId: Option<string>, userId: Option<string>): string {
    if IsGiven(modelId) && IsGiven(userId) then "id:" + modelId.value + "|" + "user:" + userId.value
    else if IsGiven(modelId) then "id:" + modelId.value
    else if IsGiven(userId) then "user:" + userId.value
    else "*"
  }

  /** The descriptor as it is put together: the parts for the ids given, joined by bars. */
  method BuildScopeDescriptor(modelId: Option<string>, userId: Option<string>) returns (descriptor: string)
    ensures descriptor == ScopeDescriptor(modelId, userId)
  {
    var parts: seq<string> := [];
    if IsGiven(modelId) {
      parts := parts + ["id:" + modelId.value];
    }
    if IsGiven(userId) {
      parts := parts + ["user:" + userId.value];
    }
    if parts == [] {
      return "*";
    }
    if |parts| == 2 {
      JoinTwo(parts[0], parts[1]);
    }
    return Join(parts, '|');
  }

  lemma JoinTwo(a: string, b: string)
    ensures Join([a, b], '|') == a + "|" + b
  {
    assert [a, b][1..] == [b];
  }

  /** Different scopes of printable channels have different descriptors, whatever characters are in the ids. */
  lemma DescriptorsAreInjective(a: Channel, b: Channel)
    requires Normal(a) == a && Normal(b) == b
    ensures ScopeDescriptor(a.modelId, a.userId) == ScopeDescriptor(b.modelId, b.userId)
       <==> a.modelId == b.modelId && a.userId == b.userId
  {
    var x, y := ScopeDescriptor(a.modelId, a.userId), ScopeDescriptor(b.modelId, b.userId);
    if x == y {
      if a.modelId.Some? {
        assert x[3..] == a.modelId.value && x[0] == 'i';
        assert b.modelId.Some? ==> y[3..] == b.modelId.value;
      } else if a.userId.Some? {
        assert x[5..] == a.userId.value && x[0] == 'u';
        assert b.userId.Some? ==> y[5..] == b.userId.value;
      }
    }
  }

  /** The descriptor of an event with both ids is also one of a model id with a bar. */
  lemma BothIdsShareADescriptor(modelId: string, userId: string)
    requires modelId != "" && userId != ""
    ensures ScopeDescriptor(Some(modelId), Some(userId)) == ScopeDescriptor(Some(modelId + "|" + "user:" + userId), None)
  {
    assert "id:" + (modelId + "|" + "user:" + userId) == "id:" + modelId + "|" + "user:" + userId;
  }
}
