/** A device's refresh session: one call against a store that others write to at any time. */
module Session {
  import opened Values

  /** The SHA-256 of a secret; distinct secrets have distinct hashes. */
  type Hash = string

  datatype Session = Session(hash: Hash, prevHash: Option<Hash>, rotatedAt: Option<int>, expiresAt: int)

  /** The stored document: whether it exists, and the session on it. */
  datatype Device = NoDevice | Device(session: Option<Session>)

  datatype Match = NoSession | Unknown | Current | Previous | Replayed | Expired

  /** `classifySecret`: expiry is looked at only after a match. */
  function Classify(session: Option<Session>, presented: Hash, now: int, reuseInterval: int): Match {
    if session.None? then NoSession
    else
      var s := session.value;
      var isCurrent := s.hash == presented;
      var isPrevious := !isCurrent && s.prevHash == Some(presented);
      if !isCurrent && !isPrevious then Unknown
      else if now >= s.expiresAt then Expired
      else if isCurrent then Current
      else if now - (if s.rotatedAt.Some? then s.rotatedAt.value else 0) <= reuseInterval then Previous
      else Replayed
  }

  // ---- What a presented secret is to the session read, said of the session's fields ----

  predicate Knows(session: Option<Session>, presented: Hash) {
    session.Some? && (session.value.hash == presented || session.value.prevHash == Some(presented))
  }

  /** Before the deadline, with the current secret, or with the one before it while the reuse interval since the
      rotation lasts. */
  predicate Refreshes(session: Option<Session>, presented: Hash, now: int, reuseInterval: int) {
    && session.Some? && now < session.value.expiresAt
    && (session.value.hash == presented
        || (session.value.prevHash == Some(presented)
            && match session.value.rotatedAt
               case Some(t) => now <= t + reuseInterval
               case None => now <= reuseInterval))
  }

  /** Before the deadline, with the secret before the current one, after the reuse interval. */
  predicate IsReplay(session: Option<Session>, presented: Hash, now: int, reuseInterval: int) {
    && session.Some? && now < session.value.expiresAt
    && session.value.hash != presented && session.value.prevHash == Some(presented)
    && match session.value.rotatedAt
       case Some(t) => now > t + reuseInterval
       case None => now > reuseInterval
  }

  predicate IsLate(session: Option<Session>, presented: Hash, now: int) {
    Knows(session, presented) && now >= session.value.expiresAt
  }

  /** The classification says which of these holds; exactly one does. */
  lemma ClassifiedBy(session: Option<Session>, presented: Hash, now: int, reuseInterval: int)
    ensures var m := Classify(session, presented, now, reuseInterval);
            && (m in {NoSession, Unknown} <==> !Knows(session, presented))
            && (m in {Current, Previous} <==> Refreshes(session, presented, now, reuseInterval))
            && (m == Replayed <==> IsReplay(session, presented, now, reuseInterval))
            && (m == Expired <==> IsLate(session, presented, now))
            && (m == NoSession <==> session.None?)
            && (m == Current <==> Refreshes(session, presented, now, reuseInterval) && session.value.hash == presented)
  {
  }

  /** The session a rotation puts in place of `s`: the deadline never moves. */
  function Successor(s: Session, newHash: Hash, now: int): Session {
    Session(newHash, Some(s.hash), Some(now), s.expiresAt)
  }

  datatype Outcome = Rotated | WasReplayed | WasExpired | Invalid | Missing | LostThreeTimes

  datatype Swap = Swapped | HashDiffers | DeviceMissing

  const MAX_ROTATION_ATTEMPTS := 3
  const DEFAULT_REUSE_INTERVAL_SECONDS := 10

  /** The writes one call makes. */
  datatype Write = Replace(old_: Session, new_: Session) | Clear(gone: Device)

  /** One more write, which replaced a session with this hash by the next one. */
  predicate OneReplace(before: seq<Write>, after: seq<Write>, hash: Hash, next: Session) {
    && |after| == |before| + 1 && before <= after
    && after[|before|].Replace? && after[|before|].old_.hash == hash && after[|before|].new_ == next
  }

  /** One more write, which removed whatever session was stored. */
  predicate OneClear(before: seq<Write>, after: seq<Write>) {
    |after| == |before| + 1 && before <= after && after[|before|].Clear?
  }

  /** A conditional write one call tries, with its result. */
  datatype Attempt = Attempt(expected: Hash, next: Session, result: Swap)

  /** The session read matched, and the swap tried for it found another hash. */
  ghost predicate LostSwap(found: Device, tried: Attempt, presented: Hash, newHash: Hash, now: int, reuseInterval: int) {
    && found.Device?
    && Refreshes(found.session, presented, now, reuseInterval)
    && tried == Attempt(found.session.value.hash,
                        Session(newHash, Some(found.session.value.hash), Some(now), found.session.value.expiresAt), HashDiffers)
  }

  ghost predicate AllLost(found: seq<Device>, tried: seq<Attempt>, presented: Hash, newHash: Hash, now: int, reuseInterval: int) {
    && |found| == |tried|
    && forall i :: 0 <= i < |found| ==> LostSwap(found[i], tried[i], presented, newHash, now, reuseInterval)
  }

  // ---- The commands ----

  function SwapResult(device: Device, expected: Hash): Swap {
    if device.NoDevice? then DeviceMissing
    else if device.session.None? || device.session.value.hash != expected then HashDiffers
    else Swapped
  }

  function AfterSwap(device: Device, expected: Hash, next: Session): Device {
    if SwapResult(device, expected) == Swapped then Device(Some(next)) else device
  }

  /** A missing session, or a missing device, is left as it is. */
  function AfterClear(device: Device): Device {
    if device.Device? then Device(None) else NoDevice
  }

  // ---- A call, as what it does with the replies it gets ----

  /** Where a call stands. `ToSwap` and `ToClear` remember the session read; `Done(None)` is a set, a
      clear or a revocation that went through. */
  datatype Stage =
    | ToRead
    | ToSwap(read: Session)
    | ToClear(outcome: Option<Outcome>)
    | ToSet
    | Done(outcome: Option<Outcome>)

  datatype Reply = Found(device: Device) | Answered(swap: Swap) | Cleared

  datatype Progress = Progress(stage: Stage, attempts: nat)

  /** What a rotation or a revocation does with what it read. */
  function Decision(found: Device, presented: Hash, now: int, reuseInterval: int, revoking: bool): Stage {
    if found.NoDevice? then Done(Some(Missing))
    else
      match Classify(found.session, presented, now, reuseInterval)
      case NoSession => Done(Some(Invalid))
      case Unknown => Done(Some(Invalid))
      case Current => if revoking then ToClear(None) else ToSwap(found.session.value)
      case Previous => if revoking then ToClear(None) else ToSwap(found.session.value)
      case Replayed => if revoking then ToClear(None) else ToClear(Some(WasReplayed))
      case Expired => if revoking then ToClear(None) else ToClear(Some(WasExpired))
  }

  function Resume(p: Progress, reply: Reply, presented: Hash, now: int, reuseInterval: int, revoking: bool): Progress {
    match (p.stage, reply)
    case (ToRead, Found(device)) => p.(stage := Decision(device, presented, now, reuseInterval, revoking))
    case (ToSwap(_), Answered(Swapped)) => p.(stage := Done(Some(Rotated)))
    case (ToSwap(_), Answered(DeviceMissing)) => p.(stage := Done(Some(Missing)))
    case (ToSwap(_), Answered(HashDiffers)) =>
      Progress(if p.attempts + 1 < MAX_ROTATION_ATTEMPTS then ToRead else Done(Some(LostThreeTimes)), p.attempts + 1)
    case (ToClear(outcome), Cleared) => p.(stage := Done(outcome))
    case _ => p
  }

  function Proceed(replies: seq<Reply>, presented: Hash, now: int, reuseInterval: int, revoking: bool): Progress {
    if replies == [] then Progress(ToRead, 0)
    else
      var n := |replies| - 1;
      Resume(Proceed(replies[..n], presented, now, reuseInterval, revoking), replies[n], presented, now, reuseInterval, revoking)
  }

  lemma {:induction false} ProceedMore(replies: seq<Reply>, reply: Reply, presented: Hash, now: int, reuseInterval: int, revoking: bool)
    ensures Proceed(replies + [reply], presented, now, reuseInterval, revoking)
         == Resume(Proceed(replies, presented, now, reuseInterval, revoking), reply, presented, now, reuseInterval, revoking)
  {
    assert (replies + [reply])[..|replies|] == replies;
  }

  /** The first reply of a turn, and the two that end it. */
  lemma {:induction false} ProceedFound(heard: seq<Reply>, found: Device, presented: Hash, now: int, reuseInterval: int, revoking: bool)
    requires Proceed(heard, presented, now, reuseInterval, revoking).stage == ToRead
    ensures Proceed(heard + [Found(found)], presented, now, reuseInterval, revoking)
         == Progress(Decision(found, presented, now, reuseInterval, revoking),
                     Proceed(heard, presented, now, reuseInterval, revoking).attempts)
  {
    ProceedMore(heard, Found(found), presented, now, reuseInterval, revoking);
  }

  lemma {:induction false} ResumeCleared(replies: seq<Reply>, presented: Hash, now: int, reuseInterval: int, revoking: bool)
    requires Proceed(replies, presented, now, reuseInterval, revoking).stage.ToClear?
    ensures var p := Proceed(replies, presented, now, reuseInterval, revoking);
            Proceed(replies + [Cleared], presented, now, reuseInterval, revoking) == p.(stage := Done(p.stage.outcome))
  {
    ProceedMore(replies, Cleared, presented, now, reuseInterval, revoking);
  }

  lemma {:induction false} ProceedCleared(heard: seq<Reply>, found: Device, presented: Hash, now: int, reuseInterval: int, revoking: bool)
    requires Proceed(heard, presented, now, reuseInterval, revoking).stage == ToRead
    requires Decision(found, presented, now, reuseInterval, revoking).ToClear?
    ensures Proceed(heard + [Found(found), Cleared], presented, now, reuseInterval, revoking)
         == Progress(Done(Decision(found, presented, now, reuseInterval, revoking).outcome),
                     Proceed(heard, presented, now, reuseInterval, revoking).attempts)
  {
    assert heard + [Found(found), Cleared] == heard + [Found(found)] + [Cleared];
    ProceedFound(heard, found, presented, now, reuseInterval, revoking);
    ResumeCleared(heard + [Found(found)], presented, now, reuseInterval, revoking);
  }

  lemma {:induction false} ProceedSwapped(heard: seq<Reply>, found: Device, swap: Swap, presented: Hash, now: int, reuseInterval: int)
    requires Proceed(heard, presented, now, reuseInterval, false).stage == ToRead
    requires Decision(found, presented, now, reuseInterval, false).ToSwap?
    ensures var n := Proceed(heard, presented, now, reuseInterval, false).attempts;
            Proceed(heard + [Found(found), Answered(swap)], presented, now, reuseInterval, false)
            == match swap
               case Swapped => Progress(Done(Some(Rotated)), n)
               case DeviceMissing => Progress(Done(Some(Missing)), n)
               case HashDiffers => Progress(if n + 1 < MAX_ROTATION_ATTEMPTS then ToRead else Done(Some(LostThreeTimes)), n + 1)
  {
    ProceedFound(heard, found, presented, now, reuseInterval, false);
    ProceedMore(heard + [Found(found)], Answered(swap), presented, now, reuseInterval, false);
    assert heard + [Found(found)] + [Answered(swap)] == heard + [Found(found), Answered(swap)];
  }

  /** The store one device document lives in, with the commands the session methods send. */
  class Store {
    var device: Device
    ghost var seen: seq<Device>
    ghost var attempts: seq<Attempt>
    ghost var writes: seq<Write>
    ghost var replies: seq<Reply>

    constructor (device: Device)
      ensures this.device == device && seen == [] && attempts == [] && writes == [] && replies == []
    {
      this.device, seen, attempts, writes, replies := device, [], [], [], [];
    }

    /** `readSession` */
    method ReadSession() returns (found: Device)
      modifies this`seen, this`replies
      ensures found == device && seen == old(seen) + [device] && replies == old(replies) + [Found(device)]
    {
      seen := seen + [device];
      replies := replies + [Found(device)];
      return device;
    }

    /** Anything other callers do between two commands of this one. */
    method Others()
      modifies this`device
    {
      device := *;
    }

    /** The script: swap only where the stored hash is the one expected. */
    method CompareAndSet(expected: Hash, next: Session) returns (result: Swap)
      modifies this`device, this`attempts, this`writes, this`replies
      ensures result == SwapResult(old(device), expected) && device == AfterSwap(old(device), expected, next)
      ensures attempts == old(attempts) + [Attempt(expected, next, result)] && replies == old(replies) + [Answered(result)]
      ensures result == Swapped ==> writes == old(writes) + [Replace(old(device).session.value, next)]
      ensures result != Swapped ==> writes == old(writes)
    {
      if device.NoDevice? {
        result := DeviceMissing;
      } else if device.session.None? || device.session.value.hash != expected {
        result := HashDiffers;
      } else {
        result := Swapped;
        writes := writes + [Replace(device.session.value, next)];
        device := Device(Some(next));
      }
      attempts := attempts + [Attempt(expected, next, result)];
      replies := replies + [Answered(result)];
    }

    /** `clearSession`: whatever session is stored by now goes, and there is no look at which. */
    method ClearSession()
      modifies this`device, this`writes, this`replies
      ensures device == AfterClear(old(device))
      ensures writes == old(writes) + [Clear(old(device))] && replies == old(replies) + [Cleared]
    {
      writes := writes + [Clear(device)];
      replies := replies + [Cleared];
      if device.Device? {
        device := Device(None);
      }
    }

    /** What the last read found. */
    ghost function LastRead(): Device
      requires seen != []
      reads this
    {
      seen[|seen| - 1]
    }

    /** One turn of the rotation loop, whatever others do between its commands; `None` is a lost swap. */
    method Turn(presented: Hash, newHash: Hash, now: int, reuseInterval: int, ghost heard: seq<Reply>)
      returns (outcome: Option<Outcome>, ghost more: seq<Reply>)
      requires Proceed(heard, presented, now, reuseInterval, false).stage == ToRead
      modifies this
      ensures seen != [] && seen == old(seen) + [LastRead()] && replies == old(replies) + more
      ensures outcome == Some(Missing) ==>
                && writes == old(writes)
                && (LastRead().NoDevice?
                    || (device.NoDevice? && Refreshes(LastRead().session, presented, now, reuseInterval)))
      ensures outcome != Some(Missing) ==> LastRead().Device?
      ensures outcome == Some(Rotated) ==>
                && Refreshes(LastRead().session, presented, now, reuseInterval)
                && var read := LastRead().session.value;
                && device == Device(Some(Session(newHash, Some(read.hash), Some(now), read.expiresAt)))
                && OneReplace(old(writes), writes, read.hash, device.session.value)
      ensures outcome == Some(WasReplayed) ==>
                && IsReplay(LastRead().session, presented, now, reuseInterval)
                && OneClear(old(writes), writes)
      ensures outcome == Some(WasExpired) ==>
                && IsLate(LastRead().session, presented, now)
                && OneClear(old(writes), writes)
      ensures outcome == Some(Invalid) ==>
                !Knows(LastRead().session, presented) && writes == old(writes)
      ensures outcome != Some(LostThreeTimes)
      ensures outcome.None? ==>
                && writes == old(writes) && |attempts| == |old(attempts)| + 1 && old(attempts) <= attempts
                && LostSwap(LastRead(), attempts[|attempts| - 1], presented, newHash, now, reuseInterval)
      ensures var p := Proceed(heard, presented, now, reuseInterval, false);
              var q := Proceed(heard + more, presented, now, reuseInterval, false);
              if outcome.Some? then q == Progress(Done(outcome), p.attempts)
              else q == Progress(if p.attempts + 1 < MAX_ROTATION_ATTEMPTS then ToRead else Done(Some(LostThreeTimes)), p.attempts + 1)
    {
      Others();
      var found := ReadSession();
      more := [Found(found)];
      ProceedFound(heard, found, presented, now, reuseInterval, false);
      if found.NoDevice? {
        outcome := Some(Missing);
        return;
      }
      var session := found.session;
      var matched := Classify(session, presented, now, reuseInterval);
      ClassifiedBy(session, presented, now, reuseInterval);
      if matched == Current || matched == Previous {
        var read := session.value;
        Others();
        var swapped := CompareAndSet(read.hash, Successor(read, newHash, now));
        ProceedSwapped(heard, found, swapped, presented, now, reuseInterval);
        more := [Found(found), Answered(swapped)];
        outcome := if swapped == DeviceMissing then Some(Missing) else if swapped == Swapped then Some(Rotated) else None;
      } else if matched == Replayed || matched == Expired {
        Others();
        ClearSession();
        ProceedCleared(heard, found, presented, now, reuseInterval, false);
        more := [Found(found), Cleared];
        outcome := Some(if matched == Replayed then WasReplayed else WasExpired);
      } else {
        outcome := Some(Invalid);
      }
    }

    /** `rotateSession`: read, decide, write on condition, at most three times, whatever others do in
        between. What is done is decided by the session read last: a rotation swaps once, from a stored
        session with the hash read, to the successor of the session read; a replay or an expiry clears
        once, whatever is stored by then; anything else writes nothing. A call that gives up has lost a swap
        after each of its reads. All of it is the call's progress through the replies. */
    method RotateSession(presented: Hash, newHash: Hash, now: int, reuseInterval: int)
      returns (outcome: Outcome, ghost heard: seq<Reply>)
      modifies this
      ensures |old(seen)| < |seen| <= |old(seen)| + 3
      ensures replies == old(replies) + heard
      ensures Proceed(heard, presented, now, reuseInterval, false).stage == Done(Some(outcome))
      ensures outcome == Missing ==>
                && writes == old(writes)
                && (LastRead().NoDevice?
                    || (device.NoDevice? && Refreshes(LastRead().session, presented, now, reuseInterval)))
      ensures outcome != Missing ==> LastRead().Device?
      ensures outcome == Rotated ==>
                && Refreshes(LastRead().session, presented, now, reuseInterval)
                && var read := LastRead().session.value;
                && device == Device(Some(Session(newHash, Some(read.hash), Some(now), read.expiresAt)))
                && OneReplace(old(writes), writes, read.hash, device.session.value)
      ensures outcome == WasReplayed ==>
                && IsReplay(LastRead().session, presented, now, reuseInterval)
                && OneClear(old(writes), writes)
      ensures outcome == WasExpired ==>
                && IsLate(LastRead().session, presented, now)
                && OneClear(old(writes), writes)
      ensures outcome == Invalid ==>
                !Knows(LastRead().session, presented) && writes == old(writes)
      ensures outcome == LostThreeTimes ==>
                && |seen| == |old(seen)| + 3 && writes == old(writes)
                && |old(attempts)| <= |attempts|
                && AllLost(seen[|old(seen)|..], attempts[|old(attempts)|..], presented, newHash, now, reuseInterval)
    {
      heard := [];
      for attempt := 0 to MAX_ROTATION_ATTEMPTS
        invariant |seen| == |old(seen)| + attempt && |attempts| == |old(attempts)| + attempt
        invariant writes == old(writes) && replies == old(replies) + heard
        invariant Proceed(heard, presented, now, reuseInterval, false)
               == Progress(if attempt < MAX_ROTATION_ATTEMPTS then ToRead else Done(Some(LostThreeTimes)), attempt)
        invariant attempt > 0 ==> LastRead().Device?
        invariant AllLost(seen[|old(seen)|..], attempts[|old(attempts)|..], presented, newHash, now, reuseInterval)
      {
        ghost var lost, tried := seen[|old(seen)|..], attempts[|old(attempts)|..];
        var turned, more := Turn(presented, newHash, now, reuseInterval, heard);
        heard := heard + more;
        if turned.Some? {
          outcome := turned.value;
          return;
        }
        assert seen[|old(seen)|..] == lost + [LastRead()];
        assert attempts[|old(attempts)|..] == tried + [attempts[|attempts| - 1]];
      }
      outcome := LostThreeTimes;
    }

    /** `revokeSession`: for any secret the session read knows, whatever is stored by then is ended; for one it
        does not know nothing changes. `None` is a missing device. */
    method RevokeSession(presented: Hash, now: int) returns (revoked: Option<bool>, ghost heard: seq<Reply>)
      modifies this
      ensures |seen| == |old(seen)| + 1
      ensures revoked.None? <==> LastRead().NoDevice?
      ensures revoked.Some? ==>
                (revoked.value <==> Knows(LastRead().session, presented))
      ensures revoked == Some(true) ==> OneClear(old(writes), writes)
      ensures revoked != Some(true) ==> writes == old(writes)
      ensures replies == old(replies) + heard
      ensures Proceed(heard, presented, now, DEFAULT_REUSE_INTERVAL_SECONDS, true).stage
           == Done(if revoked.None? then Some(Missing) else if revoked.value then None else Some(Invalid))
    {
      Others();
      var found := ReadSession();
      heard := [Found(found)];
      ProceedFound([], found, presented, now, DEFAULT_REUSE_INTERVAL_SECONDS, true);
      assert [] + heard == heard;
      if found.NoDevice? {
        revoked := None;
        return;
      }
      var matched := Classify(found.session, presented, now, DEFAULT_REUSE_INTERVAL_SECONDS);
      ClassifiedBy(found.session, presented, now, DEFAULT_REUSE_INTERVAL_SECONDS);
      if matched == NoSession || matched == Unknown {
        revoked := Some(false);
        return;
      }
      Others();
      ClearSession();
      ProceedCleared([], found, presented, now, DEFAULT_REUSE_INTERVAL_SECONDS, true);
      heard := [Found(found), Cleared];
      assert [] + heard == heard;
      revoked := Some(true);
    }
  }
}
