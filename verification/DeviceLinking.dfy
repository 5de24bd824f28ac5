/** Linking a device to its account before saving it, and taking ids that name no device off the account,
    as interleaved steps of many requests that may stop at any point. A write of the account carries a time
    stamp taken before it was sent. */
module DeviceLinking {
  import opened Values

  const UNLINK_AFTER_SECONDS := 60

  datatype Account = Account(devices: seq<string>, updatedAt: int)

  /** `remove` by value: every element equal to one of the ids goes. */
  function Remove(devices: seq<string>, gone: set<string>): (left: seq<string>)
    ensures forall d :: d in left <==> d in devices && d !in gone
  {
    if devices == [] then []
    else
      assert devices == [devices[0]] + devices[1..];
      Kept(devices[0], gone) + Remove(devices[1..], gone)
  }

  /** The ids left keep their order and their number. */
  lemma {:induction false} RemoveOfSplit(a: seq<string>, b: seq<string>, gone: set<string>)
    ensures Remove(a + b, gone) == Remove(a, gone) + Remove(b, gone)
    ensures |a| == 1 ==> Remove(a, gone) == if a[0] in gone then [] else a
    decreases |a|
  {
    if a == [] {
      assert a + b == b;
    } else {
      RemoveOfSplit(a[1..], b, gone);
      RemoveOfFirst(a, b, gone);
      Associate(Kept(a[0], gone), Remove(a[1..], gone), Remove(b, gone));
      if |a| == 1 {
        assert a == [a[0]] by {
          assert a[..1] == a;
        }
        RemoveOfOne(a[0], gone);
      }
    }
  }

  function Kept(device: string, gone: set<string>): seq<string> {
    if device in gone then [] else [device]
  }

  lemma Associate(a: seq<string>, b: seq<string>, c: seq<string>)
    ensures a + (b + c) == a + b + c
  {
  }

  lemma RemoveOfOne(device: string, gone: set<string>)
    ensures Remove([device], gone) == if device in gone then [] else [device]
  {
    assert [device][1..] == [];
  }

  lemma {:induction false} RemoveOfFirst(a: seq<string>, b: seq<string>, gone: set<string>)
    requires a != []
    ensures Remove(a + b, gone) == Kept(a[0], gone) + Remove(a[1..] + b, gone)
  {
    assert (a + b)[1..] == a[1..] + b;
  }

  // ---- The two operations, as one request runs them ----

  function WithDevice(account: Account, device: string, stamp: int): Account {
    Account(account.devices + [device], stamp)
  }

  function WithoutDevices(account: Account, gone: set<string>, stamp: int): Account {
    Account(Remove(account.devices, gone), stamp)
  }

  /** The account and the saved devices after the creation of an owned device. */
  function AfterCreate(account: Option<Account>, saved: set<string>, device: string, stamp: int): (Option<Account>, set<string>) {
    if account.None? then (None, saved) else (Some(WithDevice(account.value, device, stamp)), saved + {device})
  }

  /** The account after a clean-up of these ids, read with this `updatedAt` and checked at this time. */
  function AfterUnlink(account: Option<Account>, saved: set<string>, updatedAt: int, ids: set<string>, now: int, stamp: int)
    : Option<Account>
  {
    if now - updatedAt < UNLINK_AFTER_SECONDS || ids <= saved || account.None? then account
    else Some(WithoutDevices(account.value, ids - saved, stamp))
  }

  datatype Landed = Linked(device: string) | Saved(device: string) | Unlinked(gone: set<string>)

  class Registration {
    var now: int
    var account: Option<Account>
    var saved: set<string>
    ghost var writes: seq<Landed>

    constructor (now: int, account: Option<Account>, saved: set<string>)
      ensures this.now == now && this.account == account && this.saved == saved && writes == []
    {
      this.now, this.account, this.saved, writes := now, account, saved, [];
    }

    /** The clock goes on while a request waits for an answer. */
    method Await(seconds: nat)
      modifies this`now
      ensures now == old(now) + seconds
    {
      now := now + seconds;
    }

    /** `createDeviceForUser`: the account first, then the device; nothing is saved when the account is gone.
        An unowned device is saved alone. The link lands `delay` seconds after its stamp was taken, and the
        save `wait` seconds later. */
    method CreateDevice(device: string, owned: bool, delay: nat, wait: nat) returns (created: bool)
      modifies this`now, this`account, this`saved, this`writes
      ensures created <==> !owned || old(account).Some?
      ensures now == old(now) + (if owned then delay else 0) + (if created then wait else 0)
      ensures writes == old(writes) + (if !created then [] else if owned then [Linked(device), Saved(device)] else [Saved(device)])
      ensures owned ==> (account, saved) == AfterCreate(old(account), old(saved), device, old(now))
      ensures owned && created ==> account == Some(Account(old(account).value.devices + [device], old(now)))
      ensures !created ==> account == None && saved == old(saved)
      ensures created ==> saved == old(saved) + {device}
      ensures !owned ==> account == old(account) && saved == old(saved) + {device}
    {
      if owned {
        var stamp := now;
        Await(delay);
        if account.None? {
          return false;
        }
        account := Some(WithDevice(account.value, device, stamp));
        writes := writes + [Linked(device)];
      }
      Await(wait);
      saved := saved + {device};
      writes := writes + [Saved(device)];
      return true;
    }

    /** `unlinkMissingDevices`, for an account read with this `updatedAt`: nothing within a minute of it, and
        then only ids that name no device, by value. Asking about the ids takes `asking` seconds, and the
        write lands `delay` seconds after its stamp was taken. */
    method UnlinkMissing(updatedAt: int, deviceIds: seq<string>, asking: nat, delay: nat)
      modifies this`now, this`account, this`writes
      ensures account == AfterUnlink(old(account), saved, updatedAt, (set d | d in deviceIds), old(now), old(now) + asking)
      ensures var missing := set d | d in deviceIds && d !in saved;
              if old(now) - updatedAt < 60 || missing == {} || old(account).None?
              then account == old(account) && writes == old(writes)
              else account == Some(Account(Remove(old(account).value.devices, missing), old(now) + asking))
                   && now == old(now) + asking + delay && writes == old(writes) + [Unlinked(missing)]
    {
      if now - updatedAt < UNLINK_AFTER_SECONDS {
        return;
      }
      Await(asking);
      var missing := set d | d in deviceIds && d !in saved;
      ghost var ids := set d | d in deviceIds;
      assert missing == ids - saved;
      assert forall d :: d in ids && d !in saved ==> d in missing;
      if missing == {} {
        return;
      }
      var stamp := now;
      Await(delay);
      if account.None? {
        return;
      }
      account := Some(WithoutDevices(account.value, missing, stamp));
      writes := writes + [Unlinked(missing)];
    }
  }

  // ---- Many requests ----

  /** A request creating a device for the account. */
  datatype Creation =
    | ToLink(device: string)
    | ToSave(device: string, linkedAt: int)
    | Created(device: string)
    | NotCreated(device: string)

  /** A request removing missing ids: it has read the account, then passed the time check, then asked about
      the ids one by one. */
  datatype Cleanup =
    | ToCheckTime(ids: set<string>, updatedAt: int)
    | ToCheck(ids: set<string>, missing: set<string>)
    | Ended(missing: set<string>)

  /** How many seconds after its time stamp was taken a write of the account may still land, and how many
      after the link of a device its save may. */
  datatype Limits = Limits(delay: nat, window: nat)

  /** The clock in seconds, the account document, the devices saved for it, and the requests under way.
      Devices are never deleted. */
  datatype State = State(limits: Limits, now: int, account: Option<Account>, saved: set<string>, issued: set<string>,
                         creations: map<nat, Creation>, cleanups: map<nat, Cleanup>)

  datatype Event =
    | Tick
    | Register(id: nat, device: string, stamp: int)
    | BeginCreate(id: nat, device: string)
    | Link(id: nat, stamp: int)
    | Save(id: nat)
    | Crash(id: nat)
    | BeginCleanup(id: nat, unread: set<string>)
    | CheckTime(id: nat)
    | CheckExists(id: nat, device: string)
    | Unlink(id: nat, stamp: int)
    | CrashCleanup(id: nat)
    | OtherWrite(stamp: int)

  function InitialState(limits: Limits, now: int): State {
    State(limits, now, None, {}, {}, map[], map[])
  }

  /** A write of the account with this time stamp can land: it was taken not long ago, and not in the future. */
  predicate Lands(s: State, stamp: int) {
    s.now - s.limits.delay <= stamp <= s.now
  }

  /** One step; one that cannot happen leaves the state as it is. Whoever writes the account, a sign-in or a
      change of the profile included, sets its time stamp. */
  function Step(s: State, e: Event): State {
    match e
    case Tick => s.(now := s.now + 1)
    case Register(id, device, stamp) =>
      if s.account.Some? || id in s.creations || device in s.issued || !Lands(s, stamp) then s
      else s.(account := Some(Account([device], stamp)), issued := s.issued + {device},
              creations := s.creations[id := ToSave(device, s.now)])
    case BeginCreate(id, device) =>
      if id in s.creations || device in s.issued then s
      else s.(issued := s.issued + {device}, creations := s.creations[id := ToLink(device)])
    case Link(id, stamp) =>
      if id !in s.creations || !s.creations[id].ToLink? || !Lands(s, stamp) then s
      else
        var device := s.creations[id].device;
        if s.account.None? then s.(creations := s.creations[id := NotCreated(device)])
        else s.(account := Some(WithDevice(s.account.value, device, stamp)),
                creations := s.creations[id := ToSave(device, s.now)])
    case Save(id) =>
      if id !in s.creations || !s.creations[id].ToSave? || s.now - s.creations[id].linkedAt > s.limits.window then s
      else s.(saved := s.saved + {s.creations[id].device}, creations := s.creations[id := Created(s.creations[id].device)])
    case Crash(id) =>
      if id !in s.creations || s.creations[id].Created? then s
      else s.(creations := s.creations[id := NotCreated(s.creations[id].device)])
    case BeginCleanup(id, unread) =>
      if id in s.cleanups || s.account.None? then s
      else s.(cleanups := s.cleanups[id := ToCheckTime((set d | d in s.account.value.devices && d in unread), s.account.value.updatedAt)])
    case CheckTime(id) =>
      if id !in s.cleanups || !s.cleanups[id].ToCheckTime? then s
      else if s.now - s.cleanups[id].updatedAt < UNLINK_AFTER_SECONDS then s.(cleanups := s.cleanups[id := Ended({})])
      else s.(cleanups := s.cleanups[id := ToCheck(s.cleanups[id].ids, {})])
    case CheckExists(id, device) =>
      if id !in s.cleanups || !s.cleanups[id].ToCheck? || device !in s.cleanups[id].ids then s
      else
        var c := s.cleanups[id];
        s.(cleanups := s.cleanups[id := ToCheck(c.ids - {device}, if device in s.saved then c.missing else c.missing + {device})])
    case Unlink(id, stamp) =>
      if id !in s.cleanups || !s.cleanups[id].ToCheck? || s.cleanups[id].ids != {} || s.account.None? then s
      else if s.cleanups[id].missing == {} then s.(cleanups := s.cleanups[id := Ended({})])
      else if !Lands(s, stamp) then s
      else s.(account := Some(WithoutDevices(s.account.value, s.cleanups[id].missing, stamp)),
              cleanups := s.cleanups[id := Ended(s.cleanups[id].missing)])
    case CrashCleanup(id) => if id !in s.cleanups || s.cleanups[id].Ended? then s else s.(cleanups := s.cleanups[id := Ended({})])
    case OtherWrite(stamp) =>
      if s.account.None? || !Lands(s, stamp) then s else s.(account := Some(s.account.value.(updatedAt := stamp)))
  }

  function Run(s: State, events: seq<Event>): State
    decreases |events|
  {
    if events == [] then s else Run(Step(s, events[0]), events[1..])
  }

  // ---- A request on its own is one of the operations ----

  lemma {:induction false} RunMore(s: State, e: Event, rest: seq<Event>)
    ensures Run(s, [e] + rest) == Run(Step(s, e), rest)
  {
    assert ([e] + rest)[1..] == rest;
  }

  lemma {:induction false} RunOne(s: State, e: Event)
    ensures Run(s, [e]) == Step(s, e)
  {
    assert [e][1..] == [];
  }

  lemma {:induction false} RunAppend(s: State, a: seq<Event>, b: seq<Event>)
    ensures Run(s, a + b) == Run(Run(s, a), b)
    decreases |a|
  {
    if a == [] {
      assert a + b == b;
    } else {
      assert (a + b)[1..] == a[1..] + b;
      RunAppend(Step(s, a[0]), a[1..], b);
    }
  }

  function Ticks(seconds: nat): seq<Event> {
    if seconds == 0 then [] else [Tick] + Ticks(seconds - 1)
  }

  function Later(s: State, seconds: nat): State {
    s.(now := s.now + seconds)
  }

  lemma {:induction false} RunTicks(s: State, seconds: nat, rest: seq<Event>)
    ensures Run(s, Ticks(seconds) + rest) == Run(Later(s, seconds), rest)
    decreases seconds
  {
    if seconds == 0 {
      assert Ticks(0) + rest == rest && Later(s, 0) == s;
    } else {
      assert Ticks(seconds) + rest == [Tick] + (Ticks(seconds - 1) + rest);
      RunMore(s, Tick, Ticks(seconds - 1) + rest);
      RunTicks(Step(s, Tick), seconds - 1, rest);
    }
  }

  /** The steps of a creation that nothing interrupts do what the operation does: the stamp is the time it
      began at. */
  lemma {:induction false} CreationIsTheOperation(s: State, id: nat, device: string, delay: nat, wait: nat)
    requires id !in s.creations && device !in s.issued && delay <= s.limits.delay && wait <= s.limits.window
    ensures var t := Run(s, [BeginCreate(id, device)] + (Ticks(delay) + ([Link(id, s.now)] + (Ticks(wait) + ([Save(id)] + [])))));
            (t.account, t.saved) == AfterCreate(s.account, s.saved, device, s.now)
  {
    var saving := Ticks(wait) + ([Save(id)] + []);
    var begun := Step(s, BeginCreate(id, device));
    RunMore(s, BeginCreate(id, device), Ticks(delay) + ([Link(id, s.now)] + saving));
    RunTicks(begun, delay, [Link(id, s.now)] + saving);
    var sent := Later(begun, delay);
    RunMore(sent, Link(id, s.now), saving);
    LinkThenSave(sent, id, s.now, wait);
  }

  lemma {:induction false} LinkThenSave(s: State, id: nat, stamp: int, wait: nat)
    requires id in s.creations && s.creations[id].ToLink? && Lands(s, stamp) && wait <= s.limits.window
    ensures var t := Run(Step(s, Link(id, stamp)), Ticks(wait) + ([Save(id)] + []));
            (t.account, t.saved) == AfterCreate(s.account, s.saved, s.creations[id].device, stamp)
  {
    var linked := Step(s, Link(id, stamp));
    RunTicks(linked, wait, [Save(id)] + []);
    RunMore(Later(linked, wait), Save(id), []);
  }

  lemma NothingMissing(ids: set<string>, saved: set<string>)
    ensures ids <= saved <==> ids - saved == {}
  {
    if ids - saved == {} {
      forall d | d in ids
        ensures d in saved
      {
        assert d !in ids - saved;
      }
    }
  }

  function Checks(id: nat, ids: seq<string>): seq<Event> {
    if ids == [] then [] else [CheckExists(id, ids[0])] + Checks(id, ids[1..])
  }

  function Checked(s: State, id: nat, ids: set<string>, missing: set<string>): State {
    s.(cleanups := s.cleanups[id := ToCheck(ids, missing)])
  }

  lemma {:induction false} ChecksFindMissing(s: State, id: nat, ids: seq<string>, missing: set<string>)
    requires id in s.cleanups && forall i, j :: 0 <= i < j < |ids| ==> ids[i] != ids[j]
    ensures Run(Checked(s, id, (set d | d in ids), missing), Checks(id, ids))
         == Checked(s, id, {}, missing + ((set d | d in ids) - s.saved))
    decreases |ids|
  {
    var unread := set d | d in ids;
    if ids == [] {
      assert unread == {} && missing + ({} - s.saved) == missing;
    } else {
      var rest := ids[1..];
      assert ids == [ids[0]] + rest;
      var left := set d | d in rest;
      assert unread - {ids[0]} == left;
      var more := if ids[0] in s.saved then missing else missing + {ids[0]};
      CheckOne(s, id, unread, missing, ids[0]);
      RunMore(Checked(s, id, unread, missing), CheckExists(id, ids[0]), Checks(id, rest));
      ChecksFindMissing(s, id, rest, more);
      assert more + (left - s.saved) == missing + (unread - s.saved);
    }
  }

  lemma IsChecked(s: State, id: nat, ids: set<string>, missing: set<string>)
    requires id in s.cleanups && s.cleanups[id] == ToCheck(ids, missing)
    ensures Checked(s, id, ids, missing) == s
  {
    assert s.cleanups[id := ToCheck(ids, missing)] == s.cleanups;
  }

  lemma CheckOne(s: State, id: nat, ids: set<string>, missing: set<string>, device: string)
    requires id in s.cleanups && device in ids
    ensures Step(Checked(s, id, ids, missing), CheckExists(id, device))
         == Checked(s, id, ids - {device}, if device in s.saved then missing else missing + {device})
  {
    assert s.cleanups[id := ToCheck(ids, missing)][id := ToCheck(ids - {device}, if device in s.saved then missing else missing + {device})]
        == s.cleanups[id := ToCheck(ids - {device}, if device in s.saved then missing else missing + {device})];
  }

  lemma UnlinkOf(s: State, id: nat, gone: set<string>, stamp: int)
    requires id in s.cleanups && s.account.Some? && Lands(s, stamp)
    ensures Step(Checked(s, id, {}, gone), Unlink(id, stamp)).account
         == if gone == {} then s.account else Some(WithoutDevices(s.account.value, gone, stamp))
  {
  }

  /** Asking and sending take time, and then the write lands. */
  function UnlinkAfter(id: nat, seconds: nat, stamp: int): seq<Event> {
    Ticks(seconds) + [Unlink(id, stamp)]
  }

  lemma {:induction false} RunUnlinkAfter(s: State, id: nat, seconds: nat, stamp: int)
    ensures Run(s, UnlinkAfter(id, seconds, stamp)) == Step(Later(s, seconds), Unlink(id, stamp))
  {
    RunTicks(s, seconds, [Unlink(id, stamp)]);
    RunOne(Later(s, seconds), Unlink(id, stamp));
  }

  lemma ChecksThenUnlink(s: State, id: nat, ids: seq<string>, asking: nat, delay: nat)
    requires id in s.cleanups && s.account.Some? && forall i, j :: 0 <= i < j < |ids| ==> ids[i] != ids[j]
    requires s.cleanups[id] == ToCheck((set d | d in ids), {}) && delay <= s.limits.delay
    ensures var missing := (set d | d in ids) - s.saved;
            Run(s, Checks(id, ids) + UnlinkAfter(id, asking + delay, s.now + asking)).account
            == if missing == {} then s.account else Some(WithoutDevices(s.account.value, missing, s.now + asking))
  {
    var unread := set d | d in ids;
    var checked := Checked(s, id, {}, unread - s.saved);
    IsChecked(s, id, unread, {});
    ChecksFindMissing(s, id, ids, {});
    assert {} + (unread - s.saved) == unread - s.saved;
    RunAppend(s, Checks(id, ids), UnlinkAfter(id, asking + delay, s.now + asking));
    RunUnlinkAfter(checked, id, asking + delay, s.now + asking);
    var later := Later(s, asking + delay);
    assert Later(checked, asking + delay) == Checked(later, id, {}, unread - s.saved);
    UnlinkOf(later, id, unread - s.saved, s.now + asking);
  }

  lemma EndedThenUnlink(s: State, id: nat, ids: seq<string>, asking: nat, delay: nat, stamp: int)
    requires id in s.cleanups && s.cleanups[id].Ended?
    ensures Run(s, Checks(id, ids) + UnlinkAfter(id, asking + delay, stamp)).account == s.account
  {
    EndedStays(s, id, ids);
    RunAppend(s, Checks(id, ids), UnlinkAfter(id, asking + delay, stamp));
    RunUnlinkAfter(s, id, asking + delay, stamp);
  }

  lemma BegunAndTimed(s: State, id: nat, ids: set<string>)
    requires id !in s.cleanups && s.account.Some? && forall d :: d in ids ==> d in s.account.value.devices
    ensures var timed := Step(Step(s, BeginCleanup(id, ids)), CheckTime(id));
            timed == s.(cleanups := timed.cleanups) && id in timed.cleanups
            && timed.cleanups[id] == if s.now - s.account.value.updatedAt < UNLINK_AFTER_SECONDS then Ended({}) else ToCheck(ids, {})
  {
    assert (set d | d in s.account.value.devices && d in ids) == ids;
  }

  /** So do the steps of a clean-up of the ids that could not be read, listed once each: the guard looks at the
      time it began at, and the stamp is taken once the ids have been asked about. */
  lemma CleanupIsTheOperation(s: State, id: nat, ids: seq<string>, asking: nat, delay: nat)
    requires id !in s.cleanups && s.account.Some? && forall d :: d in ids ==> d in s.account.value.devices
    requires (forall i, j :: 0 <= i < j < |ids| ==> ids[i] != ids[j]) && delay <= s.limits.delay
    ensures var unread := set d | d in ids;
            var asked := Checks(id, ids) + UnlinkAfter(id, asking + delay, s.now + asking);
            Run(s, [BeginCleanup(id, unread)] + ([CheckTime(id)] + asked)).account
            == AfterUnlink(s.account, s.saved, s.account.value.updatedAt, unread, s.now, s.now + asking)
  {
    var unread := set d | d in ids;
    var asked := Checks(id, ids) + UnlinkAfter(id, asking + delay, s.now + asking);
    var begun := Step(s, BeginCleanup(id, unread));
    var timed := Step(begun, CheckTime(id));
    RunMore(s, BeginCleanup(id, unread), [CheckTime(id)] + asked);
    RunMore(begun, CheckTime(id), asked);
    BegunAndTimed(s, id, unread);
    if s.now - s.account.value.updatedAt < UNLINK_AFTER_SECONDS {
      EndedThenUnlink(timed, id, ids, asking, delay, s.now + asking);
    } else {
      ChecksThenUnlink(timed, id, ids, asking, delay);
      NothingMissing(unread, s.saved);
    }
  }

  lemma {:induction false} EndedStays(s: State, id: nat, ids: seq<string>)
    requires id in s.cleanups && s.cleanups[id].Ended?
    ensures Run(s, Checks(id, ids)) == s
    decreases |ids|
  {
    if ids != [] {
      RunMore(s, CheckExists(id, ids[0]), Checks(id, ids[1..]));
      EndedStays(s, id, ids[1..]);
    }
  }

  // ---- The invariant ----

  /** The device is saved, or its request may still save it. */
  ghost predicate MayExist(s: State, device: string) {
    device in s.saved || exists id :: id in s.creations && MaySave(s, s.creations[id], device)
  }

  predicate MaySave(s: State, c: Creation, device: string) {
    c.device == device && (c.ToLink? || (c.ToSave? && s.now - c.linkedAt <= s.limits.window))
  }

  /** No request can save the device any more, and none has. */
  ghost predicate NeverExists(s: State, device: string) {
    device in s.issued && !MayExist(s, device)
  }

  ghost predicate AccountOk(s: State) {
    match s.account
    case None => s.saved == {} && s.cleanups == map[] && forall id :: id in s.creations ==> !s.creations[id].ToSave?
    case Some(account) =>
      && account.updatedAt <= s.now
      && (forall d :: d in account.devices ==> d in s.issued)
      && (forall d :: d in s.saved ==> d in account.devices)
      && (forall id :: id in s.creations ==> CreationOk(s, account, s.creations[id]))
  }

  ghost predicate CreationOk(s: State, account: Account, c: Creation) {
    && (c.ToLink? ==> c.device !in account.devices)
    && (c.ToSave? ==> c.linkedAt <= s.now && c.linkedAt - s.limits.delay <= account.updatedAt)
    && (c.ToSave? && MaySave(s, c, c.device) ==> c.device in account.devices)
  }

  /** What a cleanup knows: the ids it read were linked by then; once the time check has passed, the ids it
      has not found can never exist. */
  ghost predicate CleanupOk(s: State, c: Cleanup) {
    match c
    case ToCheckTime(ids, updatedAt) =>
      forall d :: d in ids ==> d in s.issued && forall id :: id in s.creations && s.creations[id].device == d ==>
        !s.creations[id].ToLink? && (s.creations[id].ToSave? ==> s.creations[id].linkedAt - s.limits.delay <= updatedAt)
    case ToCheck(ids, missing) =>
      && (forall d :: d in ids ==> d in s.issued && (d in s.saved || NeverExists(s, d)))
      && (forall d :: d in missing ==> NeverExists(s, d))
    case Ended(missing) => forall d :: d in missing ==> NeverExists(s, d)
  }

  /** A device linked under an old stamp has been saved, or never will be, before the guard lets it be unlinked. */
  predicate WithinGuard(limits: Limits) {
    limits.delay + limits.window < 60
  }

  ghost predicate Inv(s: State) {
    && WithinGuard(s.limits)
    && AccountOk(s)
    && (forall id :: id in s.creations ==> s.creations[id].device in s.issued)
    && OneCreationEach(s)
    && PendingUnsaved(s)
    && (forall id :: id in s.cleanups ==> CleanupOk(s, s.cleanups[id]))
  }

  /** What can never exist stays so. */
  lemma NeverStaysNever(s: State, e: Event, device: string)
    requires NeverExists(s, device)
    ensures NeverExists(Step(s, e), device)
  {
  }

  /** A cleanup that is not stepping keeps what it knows. */
  lemma CleanupKeeps(s: State, e: Event, c: Cleanup)
    requires Inv(s) && CleanupOk(s, c)
    ensures CleanupOk(Step(s, e), c)
  {
    var t := Step(s, e);
    match c
    case ToCheckTime(ids, updatedAt) =>
    case ToCheck(ids, missing) =>
      forall d | d in ids + missing && NeverExists(s, d)
        ensures NeverExists(t, d)
      {
        NeverStaysNever(s, e, d);
      }
    case Ended(missing) =>
      forall d | d in missing
        ensures NeverExists(t, d)
      {
        NeverStaysNever(s, e, d);
      }
  }

  /** The time check: what the account listed a minute before is saved by now, or never will be. */
  lemma GuardSettles(s: State, ids: set<string>, updatedAt: int)
    requires Inv(s) && CleanupOk(s, ToCheckTime(ids, updatedAt)) && s.now - updatedAt >= UNLINK_AFTER_SECONDS
    ensures CleanupOk(s, ToCheck(ids, {}))
  {
  }

  lemma StepKeepsIssued(s: State, e: Event)
    requires Inv(s)
    ensures forall id :: id in Step(s, e).creations ==> Step(s, e).creations[id].device in Step(s, e).issued
  {
  }

  ghost predicate OneCreationEach(s: State) {
    forall i, j :: i in s.creations && j in s.creations && s.creations[i].device == s.creations[j].device ==> i == j
  }

  lemma StepKeepsOneCreation(s: State, e: Event)
    requires Inv(s)
    ensures OneCreationEach(Step(s, e))
  {
    assert OneCreationEach(s);
  }

  ghost predicate PendingUnsaved(s: State) {
    forall id :: id in s.creations && (s.creations[id].ToLink? || s.creations[id].ToSave?) ==> s.creations[id].device !in s.saved
  }

  lemma StepKeepsPending(s: State, e: Event)
    requires Inv(s)
    ensures PendingUnsaved(Step(s, e))
  {
    assert PendingUnsaved(s) && OneCreationEach(s);
    SavedWereIssued(s);
  }

  lemma SavedWereIssued(s: State)
    requires Inv(s)
    ensures forall d :: d in s.saved ==> d in s.issued
  {
  }

  lemma StepKeepsAccount(s: State, e: Event)
    requires Inv(s)
    ensures AccountOk(Step(s, e))
  {
    if e.Unlink? && Step(s, e) != s && s.cleanups[e.id].missing != {} {
      UnlinkKeepsAccount(s, e.id, e.stamp);
    } else if e.Link? {
      LinkKeepsAccount(s, e.id, e.stamp);
    } else if e.Save? {
      SaveKeepsAccount(s, e.id);
    } else if e.Register? || e.BeginCreate? {
      NewKeepsAccount(s, e);
    }
  }

  lemma NewKeepsAccount(s: State, e: Event)
    requires Inv(s) && (e.Register? || e.BeginCreate?)
    ensures AccountOk(Step(s, e))
  {
  }

  lemma LinkKeepsAccount(s: State, id: nat, stamp: int)
    requires Inv(s)
    ensures AccountOk(Step(s, Link(id, stamp)))
  {
  }

  lemma SaveKeepsAccount(s: State, id: nat)
    requires Inv(s)
    ensures AccountOk(Step(s, Save(id)))
  {
  }

  lemma UnlinkKeepsAccount(s: State, id: nat, stamp: int)
    requires Inv(s) && id in s.cleanups && s.cleanups[id].ToCheck? && s.cleanups[id].missing != {} && s.account.Some?
    ensures AccountOk(Step(s, Unlink(id, stamp)))
  {
  }

  lemma StepKeepsCleanups(s: State, e: Event)
    requires Inv(s)
    ensures forall id :: id in Step(s, e).cleanups ==> CleanupOk(Step(s, e), Step(s, e).cleanups[id])
  {
    var t := Step(s, e);
    forall id | id in t.cleanups
      ensures CleanupOk(t, t.cleanups[id])
    {
      if id in s.cleanups {
        CleanupKeeps(s, e, s.cleanups[id]);
        if t.cleanups[id] != s.cleanups[id] {
          OwnStep(s, e, id);
        }
      }
    }
  }

  lemma OwnStep(s: State, e: Event, id: nat)
    requires Inv(s) && id in s.cleanups && Step(s, e).cleanups[id] != s.cleanups[id]
    requires CleanupOk(Step(s, e), s.cleanups[id])
    ensures CleanupOk(Step(s, e), Step(s, e).cleanups[id])
  {
    var t := Step(s, e);
    var c := s.cleanups[id];
    if e.CheckTime? && t.cleanups[id].ToCheck? {
      GuardSettles(s, c.ids, c.updatedAt);
      CleanupKeeps(s, e, ToCheck(c.ids, {}));
    }
  }

  lemma StepKeepsInv(s: State, e: Event)
    requires Inv(s)
    ensures Inv(Step(s, e))
  {
    StepKeepsIssued(s, e);
    StepKeepsOneCreation(s, e);
    StepKeepsPending(s, e);
    StepKeepsAccount(s, e);
    StepKeepsCleanups(s, e);
  }

  lemma {:induction false} RunKeepsInv(s: State, events: seq<Event>)
    requires Inv(s)
    ensures Inv(Run(s, events))
    decreases |events|
  {
    if events != [] {
      StepKeepsInv(s, events[0]);
      RunKeepsInv(Step(s, events[0]), events[1..]);
    }
  }

  // ---- Every run ----

  ghost predicate SavedAreListed(s: State) {
    s.saved != {} ==> s.account.Some? && forall d :: d in s.saved ==> d in s.account.value.devices
  }

  lemma {:induction false} NeverInAnyRun(s: State, events: seq<Event>, device: string)
    requires NeverExists(s, device)
    ensures NeverExists(Run(s, events), device)
    decreases |events|
  {
    if events != [] {
      NeverStaysNever(s, events[0], device);
      NeverInAnyRun(Step(s, events[0]), events[1..], device);
    }
  }

  /** A clean-up is about to take the device off the account. */
  predicate IsToUnlink(s: State, id: nat, device: string) {
    id in s.cleanups && s.cleanups[id].ToCheck? && device in s.cleanups[id].missing
  }

  ghost predicate UnlinkedAreGone(limits: Limits, now: int, before: seq<Event>, after: seq<Event>) {
    forall id, stamp, device :: IsToUnlink(Run(InitialState(limits, now), before), id, device) ==>
      device !in Run(Step(Run(InitialState(limits, now), before), Unlink(id, stamp)), after).saved
  }

  lemma UnlinkedAreGoneWithinGuard(limits: Limits, now: int, before: seq<Event>, after: seq<Event>)
    requires WithinGuard(limits)
    ensures UnlinkedAreGone(limits, now, before, after)
  {
    var s := Run(InitialState(limits, now), before);
    RunKeepsInv(InitialState(limits, now), before);
    forall id, stamp, device | IsToUnlink(s, id, device)
      ensures device !in Run(Step(s, Unlink(id, stamp)), after).saved
    {
      assert CleanupOk(s, s.cleanups[id]);
      NeverStaysNever(s, Unlink(id, stamp), device);
      NeverInAnyRun(Step(s, Unlink(id, stamp)), after, device);
    }
  }

  // ---- A slow link ----

  /** A tablet is linked under the stamp 0 as late as the limits allow, and a clean-up asks about it as soon
      as the guard lets it. */
  function SlowLink(limits: Limits): seq<Event> {
    [Register(0, "phone", 0)] + ([BeginCreate(1, "tablet")] + (Ticks(limits.delay) + ([Link(1, 0)] + (Ticks(Until(limits)) + Ask()))))
  }

  function Until(limits: Limits): nat {
    if limits.delay < UNLINK_AFTER_SECONDS then UNLINK_AFTER_SECONDS - limits.delay else 0
  }

  function Ask(): seq<Event> {
    [BeginCleanup(0, {"tablet"})] + ([CheckTime(0)] + ([CheckExists(0, "tablet")] + []))
  }

  function SlowlyLinked(limits: Limits): State {
    State(limits, limits.delay, Some(Account(["phone", "tablet"], 0)), {}, {"phone", "tablet"},
          map[0 := ToSave("phone", 0), 1 := ToSave("tablet", limits.delay)], map[])
  }

  lemma SlowLinkLinks(limits: Limits)
    ensures Run(InitialState(limits, 0), SlowLink(limits)) == Run(Later(SlowlyLinked(limits), Until(limits)), Ask())
  {
    var initial := InitialState(limits, 0);
    var asking := Ticks(Until(limits)) + Ask();
    var sending := Ticks(limits.delay) + ([Link(1, 0)] + asking);
    RunMore(initial, Register(0, "phone", 0), [BeginCreate(1, "tablet")] + sending);
    RunMore(Step(initial, Register(0, "phone", 0)), BeginCreate(1, "tablet"), sending);
    BegunSlowly(limits);
    RunTicks(ToLinkSlowly(limits), limits.delay, [Link(1, 0)] + asking);
    RunMore(Later(ToLinkSlowly(limits), limits.delay), Link(1, 0), asking);
    LinkedSlowly(Later(ToLinkSlowly(limits), limits.delay));
    RunTicks(SlowlyLinked(limits), Until(limits), Ask());
  }

  function ToLinkSlowly(limits: Limits): State {
    State(limits, 0, Some(Account(["phone"], 0)), {}, {"phone", "tablet"},
          map[0 := ToSave("phone", 0), 1 := ToLink("tablet")], map[])
  }

  lemma BegunSlowly(limits: Limits)
    ensures Step(Step(InitialState(limits, 0), Register(0, "phone", 0)), BeginCreate(1, "tablet")) == ToLinkSlowly(limits)
  {
    assert {} + {"phone"} + {"tablet"} == {"phone", "tablet"};
  }

  lemma LinkedSlowly(s: State)
    requires s.now == s.limits.delay && s.account == Some(Account(["phone"], 0)) && s.saved == {} && s.cleanups == map[]
    requires s.issued == {"phone", "tablet"} && s.creations == map[0 := ToSave("phone", 0), 1 := ToLink("tablet")]
    ensures Step(s, Link(1, 0)) == SlowlyLinked(s.limits)
  {
    assert s.creations[1 := ToSave("tablet", s.now)] == map[0 := ToSave("phone", 0), 1 := ToSave("tablet", s.now)];
    assert ["phone"] + ["tablet"] == ["phone", "tablet"];
  }

  lemma {:induction false} AskFindsMissing(s: State)
    requires s.account == Some(Account(["phone", "tablet"], 0)) && s.saved == {} && s.cleanups == map[]
    requires s.now >= UNLINK_AFTER_SECONDS
    ensures Run(s, Ask()) == s.(cleanups := map[0 := ToCheck({}, {"tablet"})])
  {
    RunMore(s, BeginCleanup(0, {"tablet"}), [CheckTime(0)] + ([CheckExists(0, "tablet")] + []));
    var begun := Step(s, BeginCleanup(0, {"tablet"}));
    assert begun.cleanups[0] == ToCheckTime({"tablet"}, 0) by {
      assert (set d | d in ["phone", "tablet"] && d in {"tablet"}) == {"tablet"};
    }
    RunMore(begun, CheckTime(0), [CheckExists(0, "tablet")] + []);
    var timed := Step(begun, CheckTime(0));
    RunMore(timed, CheckExists(0, "tablet"), []);
    assert {"tablet"} - {"tablet"} == {} && {} + {"tablet"} == {"tablet"};
  }

  /** The clean-up takes the tablet off the account, and then it is saved. */
  lemma SlowLinkLoses(limits: Limits)
    requires !WithinGuard(limits)
    ensures var s := Run(InitialState(limits, 0), SlowLink(limits));
            IsToUnlink(s, 0, "tablet")
            && var t := Run(Step(s, Unlink(0, s.now)), [Save(1)] + []);
            t.saved == {"tablet"} && t.account.Some? && t.account.value.devices == ["phone"]
  {
    SlowLinkLinks(limits);
    var linked := Later(SlowlyLinked(limits), Until(limits));
    AskFindsMissing(linked);
    var asked := linked.(cleanups := map[0 := ToCheck({}, {"tablet"})]);
    UnlinkedThenSaved(asked, limits.delay);
  }

  lemma UnlinkedThenSaved(s: State, linkedAt: int)
    requires s.account == Some(Account(["phone", "tablet"], 0)) && s.saved == {} && s.now - linkedAt <= s.limits.window
    requires 0 in s.cleanups && s.cleanups[0] == ToCheck({}, {"tablet"})
    requires 1 in s.creations && s.creations[1] == ToSave("tablet", linkedAt)
    ensures var t := Run(Step(s, Unlink(0, s.now)), [Save(1)] + []);
            t.saved == {"tablet"} && t.account.Some? && t.account.value.devices == ["phone"]
  {
    RemoveTablet();
    RunMore(Step(s, Unlink(0, s.now)), Save(1), []);
  }

  lemma RemoveTablet()
    ensures Remove(["phone", "tablet"], {"tablet"}) == ["phone"]
  {
    assert ["phone", "tablet"][1..] == ["tablet"] && ["tablet"][1..] == [];
    assert Remove(["tablet"], {"tablet"}) == [];
  }

  /** In every run, with requests stopping anywhere, every saved device is listed on the account, if and only
      if writes land soon enough after their stamps and saves soon enough after their links. */
  lemma SavedDevicesAreListedIff(limits: Limits)
    ensures (forall now, events :: SavedAreListed(Run(InitialState(limits, now), events))) <==> WithinGuard(limits)
  {
    if WithinGuard(limits) {
      forall now, events
        ensures SavedAreListed(Run(InitialState(limits, now), events))
      {
        RunKeepsInv(InitialState(limits, now), events);
      }
    } else {
      SlowLinkLoses(limits);
      var s := Run(InitialState(limits, 0), SlowLink(limits));
      var rest := [Unlink(0, s.now)] + ([Save(1)] + []);
      RunAppend(InitialState(limits, 0), SlowLink(limits), rest);
      RunMore(s, Unlink(0, s.now), [Save(1)] + []);
      assert "tablet" in Run(InitialState(limits, 0), SlowLink(limits) + rest).saved;
      assert !SavedAreListed(Run(InitialState(limits, 0), SlowLink(limits) + rest));
    }
  }

  /** An id a clean-up takes off the account names no device then, and none in any continuation, under the
      same condition and no other. */
  lemma UnlinkedNeverExistsIff(limits: Limits)
    ensures (forall now, before, after :: UnlinkedAreGone(limits, now, before, after)) <==> WithinGuard(limits)
  {
    if WithinGuard(limits) {
      forall now, before, after
        ensures UnlinkedAreGone(limits, now, before, after)
      {
        UnlinkedAreGoneWithinGuard(limits, now, before, after);
      }
    } else {
      SlowLinkLoses(limits);
      var s := Run(InitialState(limits, 0), SlowLink(limits));
      assert "tablet" in Run(Step(s, Unlink(0, s.now)), [Save(1)] + []).saved;
      assert !UnlinkedAreGone(limits, 0, SlowLink(limits), [Save(1)] + []);
    }
  }
}
