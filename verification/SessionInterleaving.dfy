/** Many callers on one device document, interleaved command by command. */
module SessionInterleaving {
  import opened Values
  import opened Session

  /** A session write that took effect, with the call that made it. */
  datatype Landed =
    | Started(call: nat, session: Session)
    | Rotation(call: nat, old_: Session, new_: Session)
    | Ended(call: nat)

  datatype Kind = Rotating | Revoking | Setting | Clearing

  /** A call. `secret` is the hash it presents, or starts a session with; `minted` the hash of the secret
      a rotation hands out; `begun` and `readAt` count the writes landed when it began and last read. */
  datatype Call = Call(kind: Kind, secret: Hash, minted: Hash, now: int, reuseInterval: int, expiresAt: int,
                       attempts: nat, stage: Stage, begun: nat, readAt: nat)

  datatype State = State(device: Device, calls: map<nat, Call>, issued: set<Hash>, log: seq<Landed>)

  datatype Event =
    | CreateDevice
    | BeginRotate(id: nat, presented: Hash, minted: Hash, now: int, reuseInterval: int)
    | BeginRevoke(id: nat, presented: Hash, now: int)
    | BeginSet(id: nat, hash: Hash, expiresAt: int)
    | BeginClear(id: nat)
    | Act(id: nat)

  function InitialState(exists_: bool): State {
    State(if exists_ then Device(None) else NoDevice, map[], {}, [])
  }

  /** One event: the device is created, a call begins, with secrets nobody holds yet, or one call sends its
      next command. An event that cannot happen leaves the state as it is. */
  function Step(s: State, e: Event): State {
    match e
    case CreateDevice => if s.device.NoDevice? then s.(device := Device(None)) else s
    case Act(id) => if id in s.calls then Command(s, id) else s
    case _ => if e.id in s.calls || Minted(e) * s.issued != {} then s else Begin(s, e)
  }

  function Minted(e: Event): set<Hash> {
    match e
    case BeginRotate(_, _, minted, _, _) => {minted}
    case BeginSet(_, hash, _) => {hash}
    case _ => {}
  }

  function NewCall(e: Event, landed: nat): Call
    requires !e.CreateDevice? && !e.Act?
  {
    match e
    case BeginRotate(_, presented, minted, now, reuse) => Call(Rotating, presented, minted, now, reuse, 0, 0, ToRead, landed, landed)
    case BeginRevoke(_, presented, now) =>
      Call(Revoking, presented, "", now, DEFAULT_REUSE_INTERVAL_SECONDS, 0, 0, ToRead, landed, landed)
    case BeginSet(_, hash, expiresAt) => Call(Setting, hash, hash, 0, 0, expiresAt, 0, ToSet, landed, landed)
    case BeginClear(_) => Call(Clearing, "", "", 0, 0, 0, 0, ToClear(None), landed, landed)
  }

  function Begin(s: State, e: Event): State
    requires !e.CreateDevice? && !e.Act?
  {
    s.(calls := s.calls[e.id := NewCall(e, |s.log|)], issued := s.issued + Minted(e))
  }

  /** The next command of a call, on the document as it is now. */
  function Command(s: State, id: nat): State
    requires id in s.calls
  {
    var call := s.calls[id];
    match call.stage
    case ToRead => Update(s, id, call.(readAt := |s.log|, stage := DecisionOf(s.device, call)))
    case ToSwap(read) =>
      if s.device.NoDevice? then Update(s, id, call.(stage := Done(Some(Missing))))
      else if s.device.session.None? || s.device.session.value.hash != read.hash then
        Update(s, id, call.(attempts := call.attempts + 1,
                            stage := if call.attempts + 1 < MAX_ROTATION_ATTEMPTS then ToRead else Done(Some(LostThreeTimes))))
      else
        var next := Successor(read, call.minted, call.now);
        Land(s, id, call.(stage := Done(Some(Rotated))), Rotation(id, s.device.session.value, next), Some(next))
    case ToClear(outcome) =>
      if s.device.Device? && s.device.session.Some? then
        Land(s, id, call.(stage := Done(outcome)), Ended(id), None)
      else Update(s, id, call.(stage := Done(outcome)))
    case ToSet =>
      if s.device.NoDevice? then Update(s, id, call.(stage := Done(Some(Missing))))
      else
        var session := Session(call.secret, None, None, call.expiresAt);
        Land(s, id, call.(stage := Done(None)), Started(id, session), Some(session))
    case Done(_) => s
  }

  function DecisionOf(found: Device, call: Call): Stage {
    Decision(found, call.secret, call.now, call.reuseInterval, call.kind == Revoking)
  }

  function Update(s: State, id: nat, call: Call): State {
    s.(calls := s.calls[id := call])
  }

  function Land(s: State, id: nat, call: Call, w: Landed, session: Option<Session>): State {
    State(Device(session), s.calls[id := call], s.issued, s.log + [w])
  }

  // ---- A call here is a call of the store ----

  /** The reply the document gives to the call's next command, and what the command leaves of the document. */
  function ReplyTo(device: Device, call: Call): Reply {
    match call.stage
    case ToSwap(read) => Answered(SwapResult(device, read.hash))
    case ToClear(_) => Cleared
    case _ => Found(device)
  }

  function Left(device: Device, call: Call): Device {
    match call.stage
    case ToSwap(read) => AfterSwap(device, read.hash, Successor(read, call.minted, call.now))
    case ToClear(_) => AfterClear(device)
    case _ => device
  }

  /** One command of a rotation or a revocation goes on as the store's methods do with the same reply, and leaves
      the document as their commands do. */
  lemma CommandResumes(s: State, id: nat)
    requires id in s.calls && s.calls[id].kind in {Rotating, Revoking} && !s.calls[id].stage.ToSet?
    ensures var call := s.calls[id];
            var next := Command(s, id).calls[id];
            && Progress(next.stage, next.attempts)
               == Resume(Progress(call.stage, call.attempts), ReplyTo(s.device, call),
                         call.secret, call.now, call.reuseInterval, call.kind == Revoking)
            && Command(s, id).device == Left(s.device, call)
  {
  }

  function Run(s: State, events: seq<Event>): State
    decreases |events|
  {
    if events == [] then s else Run(Step(s, events[0]), events[1..])
  }

  // ---- The history of the stored session ----

  /** The session left by the writes so far. */
  function CurrentSession(log: seq<Landed>): Option<Session> {
    if log == [] then None
    else
      match log[|log| - 1]
      case Started(_, session) => Some(session)
      case Rotation(_, _, new_) => Some(new_)
      case Ended(_) => None
  }

  /** The session the i-th write stored. */
  function StoredAt(log: seq<Landed>, i: nat): Option<Session>
    requires i < |log|
  {
    CurrentSession(log[..i + 1])
  }

  ghost predicate HashStored(log: seq<Landed>, hash: Hash) {
    exists i :: 0 <= i < |log| && StoredAt(log, i).Some? && StoredAt(log, i).value.hash == hash
  }

  /** A write as the protocol makes it, after the writes `log`: rotations start from the session stored,
      keep its deadline and remember its hash; what is stored has a hash never stored before. */
  ghost predicate Follows(log: seq<Landed>, w: Landed) {
    match w
    case Started(_, session) => session.prevHash.None? && !HashStored(log, session.hash)
    case Rotation(_, old_, new_) =>
      && CurrentSession(log) == Some(old_)
      && new_.prevHash == Some(old_.hash) && new_.expiresAt == old_.expiresAt
      && !HashStored(log, new_.hash)
    case Ended(_) => CurrentSession(log).Some?
  }

  ghost predicate IsHistory(log: seq<Landed>) {
    forall i :: 0 <= i < |log| ==> Follows(log[..i], log[i])
  }

  lemma HistoryAppend(log: seq<Landed>, w: Landed)
    requires IsHistory(log) && Follows(log, w)
    ensures IsHistory(log + [w])
    ensures CurrentSession(log + [w]) == (match w case Started(_, s) => Some(s) case Rotation(_, _, n) => Some(n) case Ended(_) => None)
    ensures forall h :: HashStored(log + [w], h) <==>
              HashStored(log, h) || (CurrentSession(log + [w]).Some? && CurrentSession(log + [w]).value.hash == h)
  {
    var more := log + [w];
    forall i | 0 <= i < |more|
      ensures Follows(more[..i], more[i])
    {
      assert more[..i] == if i < |log| then log[..i] else log;
    }
    assert more[..|log| + 1] == more;
    forall i | 0 <= i < |log|
      ensures StoredAt(more, i) == StoredAt(log, i)
    {
      assert more[..i + 1] == log[..i + 1];
    }
    assert StoredAt(more, |log|) == CurrentSession(more);
    forall h
      ensures HashStored(more, h) <==> HashStored(log, h) || (CurrentSession(more).Some? && CurrentSession(more).value.hash == h)
    {
      if HashStored(log, h) {
        var i :| 0 <= i < |log| && StoredAt(log, i).Some? && StoredAt(log, i).value.hash == h;
        assert StoredAt(more, i).value.hash == h;
      }
    }
  }

  lemma LaterHashIsNew(log: seq<Landed>, i: nat, j: nat)
    requires IsHistory(log) && i < j < |log| && StoredAt(log, i).Some? && StoredAt(log, j).Some?
    ensures StoredAt(log, i).value.hash != StoredAt(log, j).value.hash
  {
    var earlier := log[..j];
    assert Follows(earlier, log[j]);
    assert earlier[..i + 1] == log[..i + 1];
    assert log[..j + 1][j] == log[j];
    assert StoredAt(earlier, i) == StoredAt(log, i);
    assert HashStored(earlier, StoredAt(log, i).value.hash);
  }

  /** A stored session is known by its hash. */
  lemma SessionByHash(log: seq<Landed>, i: nat, j: nat)
    requires IsHistory(log) && i < |log| && j < |log|
    requires StoredAt(log, i).Some? && StoredAt(log, j).Some?
    requires StoredAt(log, i).value.hash == StoredAt(log, j).value.hash
    ensures i == j
  {
    if i < j {
      LaterHashIsNew(log, i, j);
    } else if j < i {
      LaterHashIsNew(log, j, i);
    }
  }

  lemma CurrentAt(log: seq<Landed>, n: nat)
    requires n <= |log| && CurrentSession(log[..n]).Some?
    ensures n > 0 && StoredAt(log, n - 1) == CurrentSession(log[..n])
  {
  }

  // ---- The invariant ----

  /** The hash a call may still store. */
  predicate MayStore(call: Call, hash: Hash) {
    hash == call.minted && (call.stage.ToSet? || (call.kind == Rotating && (call.stage.ToRead? || call.stage.ToSwap?)))
  }

  /** What the call read last. */
  function Seen(log: seq<Landed>, call: Call): Option<Session>
    requires call.readAt <= |log|
  {
    CurrentSession(log[..call.readAt])
  }

  /** The call's secret is one that what it read knows. */
  predicate SawItsOwn(log: seq<Landed>, call: Call)
    requires call.readAt <= |log|
  {
    Knows(Seen(log, call), call.secret)
  }

  predicate MaySwap(log: seq<Landed>, call: Call)
    requires call.readAt <= |log|
  {
    Refreshes(Seen(log, call), call.secret, call.now, call.reuseInterval)
  }

  /** A call's own account of the log. */
  ghost predicate CallOk(log: seq<Landed>, call: Call) {
    && call.begun <= call.readAt <= |log|
    && call.begun + call.attempts <= |log|
    && (call.stage.ToRead? || call.stage.ToSwap? ==> call.attempts < MAX_ROTATION_ATTEMPTS)
    && (call.stage.ToRead? ==> call.kind == Rotating || call.kind == Revoking)
    && (call.stage.ToClear? ==> call.stage.outcome in {None, Some(WasReplayed), Some(WasExpired)})
    && (call.stage.ToSwap? ==>
          && call.kind == Rotating
          && call.begun + call.attempts <= call.readAt
          && CurrentSession(log[..call.readAt]) == Some(call.stage.read)
          && MaySwap(log, call))
    && (call.stage.ToClear? && call.kind != Clearing ==> SawItsOwn(log, call))
    && (call.stage.ToSet? <==> call.kind == Setting && !call.stage.Done?)
    && (call.kind == Setting ==> call.secret == call.minted)
    && (call.stage == Done(Some(LostThreeTimes)) ==> call.attempts == MAX_ROTATION_ATTEMPTS)
  }

  /** The calls that have written nothing: those not done, and those that end without effect. */
  predicate WroteNothing(call: Call) {
    match call.stage
    case Done(None) => false
    case Done(Some(outcome)) => outcome in {Invalid, Missing, LostThreeTimes}
    case _ => true
  }

  /** A rotation replaces the session its call read, for a secret that was current or previous in it. */
  ghost predicate IsOwnRotation(log: seq<Landed>, call: Call, w: Landed)
    requires w.Rotation? && call.readAt <= |log|
  {
    && MaySwap(log, call)
    && CurrentSession(log[..call.readAt]) == Some(w.old_)
    && w.new_ == Session(call.minted, Some(w.old_.hash), Some(call.now), w.old_.expiresAt)
  }

  /** A write by a call that presents a secret: the secret matched the session the call had read. */
  ghost predicate Justified(s: State, i: nat)
    requires i < |s.log|
  {
    var w := s.log[i];
    && w.call in s.calls
    && !WroteNothing(s.calls[w.call])
    && s.calls[w.call].readAt <= i
    && (w.Rotation? ==> IsOwnRotation(s.log, s.calls[w.call], w))
    && (s.calls[w.call].kind == Rotating || s.calls[w.call].kind == Revoking ==>
          SawItsOwn(s.log, s.calls[w.call]))
  }

  ghost predicate Inv(s: State) {
    && IsHistory(s.log)
    && (if s.device.Device? then s.device.session == CurrentSession(s.log) else s.log == [])
    && (forall h :: HashStored(s.log, h) ==> h in s.issued)
    && (forall id :: id in s.calls ==> CallOk(s.log, s.calls[id]))
    && (forall id, h :: id in s.calls && MayStore(s.calls[id], h) ==> h in s.issued && !HashStored(s.log, h))
    && (forall i, j, h :: i in s.calls && j in s.calls && MayStore(s.calls[i], h) && MayStore(s.calls[j], h) ==> i == j)
    && (forall i :: 0 <= i < |s.log| ==> Justified(s, i))
  }

  lemma CallOkAppend(log: seq<Landed>, w: Landed, call: Call)
    requires CallOk(log, call)
    ensures CallOk(log + [w], call)
  {
  }

  /** A step of one call that writes nothing, mints nothing and may store no more than before. */
  lemma UpdateKeepsInv(s: State, id: nat, call: Call)
    requires Inv(s) && id in s.calls
    requires CallOk(s.log, call) && WroteNothing(s.calls[id])
    requires forall h :: MayStore(call, h) ==> MayStore(s.calls[id], h)
    ensures Inv(Update(s, id, call))
  {
    var t := Update(s, id, call);
    forall i | 0 <= i < |s.log|
      ensures Justified(t, i)
    {
      assert Justified(s, i);
    }
  }

  lemma DoneIsOk(log: seq<Landed>, call: Call, done: Call)
    requires CallOk(log, call) && done == call.(stage := done.stage) && done.stage.Done? && !WroteNothing(done)
    ensures CallOk(log, done)
  {
  }

  /** A step of one call that lands a write. */
  lemma LandKeepsInv(s: State, id: nat, call: Call, w: Landed, session: Option<Session>)
    requires Inv(s) && id in s.calls && s.device.Device?
    requires w.call == id && Follows(s.log, w) && CurrentSession(s.log + [w]) == session
    requires session.Some? ==> MayStore(s.calls[id], session.value.hash)
    requires call == s.calls[id].(stage := call.stage) && call.stage.Done? && !WroteNothing(call) && WroteNothing(s.calls[id])
    requires call.kind == Rotating || call.kind == Revoking ==> SawItsOwn(s.log, call)
    requires w.Rotation? ==> IsOwnRotation(s.log, call, w)
    ensures Inv(Land(s, id, call, w, session))
  {
    var t := Land(s, id, call, w, session);
    HistoryAppend(s.log, w);
    forall i | i in t.calls
      ensures CallOk(t.log, t.calls[i])
    {
      CallOkAppend(s.log, w, s.calls[i]);
      if i == id {
        DoneIsOk(t.log, s.calls[id], call);
      }
    }
    LandKeepsJustified(s, id, call, w, session);
  }

  lemma LandKeepsJustified(s: State, id: nat, call: Call, w: Landed, session: Option<Session>)
    requires (forall i :: i in s.calls ==> CallOk(s.log, s.calls[i])) && forall i :: 0 <= i < |s.log| ==> Justified(s, i)
    requires id in s.calls && w.call == id && call.readAt <= |s.log|
    requires call == s.calls[id].(stage := call.stage) && call.stage.Done? && !WroteNothing(call) && WroteNothing(s.calls[id])
    requires call.kind == Rotating || call.kind == Revoking ==> SawItsOwn(s.log, call)
    requires w.Rotation? ==> IsOwnRotation(s.log, call, w)
    ensures var t := Land(s, id, call, w, session); forall i :: 0 <= i < |t.log| ==> Justified(t, i)
  {
    var t := Land(s, id, call, w, session);
    forall i | 0 <= i < |t.log|
      ensures Justified(t, i)
    {
      if i < |s.log| {
        assert Justified(s, i);
        assert t.log[i] == s.log[i];
      }
      var author := t.calls[t.log[i].call];
      assert t.log[..author.readAt] == s.log[..author.readAt];
    }
  }

  lemma BeginKeepsInv(s: State, e: Event)
    requires Inv(s) && !e.CreateDevice? && !e.Act? && e.id !in s.calls && Minted(e) * s.issued == {}
    ensures Inv(Begin(s, e))
  {
    var t := Begin(s, e);
    var call := NewCall(e, |s.log|);
    forall h | MayStore(call, h)
      ensures h in Minted(e) && h !in s.issued && !HashStored(s.log, h)
    {
      assert h in Minted(e);
      assert h in s.issued ==> h in Minted(e) * s.issued;
    }
    forall i | 0 <= i < |s.log|
      ensures Justified(t, i)
    {
      assert Justified(s, i);
    }
  }

  /** A swap that succeeds replaces the very session the call read. */
  lemma SwapReplacesWhatWasRead(s: State, id: nat)
    requires Inv(s) && id in s.calls && s.calls[id].stage.ToSwap?
    requires s.device.Device? && s.device.session.Some? && s.device.session.value.hash == s.calls[id].stage.read.hash
    ensures s.device.session.value == s.calls[id].stage.read
  {
    var call := s.calls[id];
    assert CallOk(s.log, call);
    CurrentAt(s.log, call.readAt);
    assert s.log[..|s.log|] == s.log;
    CurrentAt(s.log, |s.log|);
    SessionByHash(s.log, call.readAt - 1, |s.log| - 1);
  }

  /** A swap that fails has lost to a write landed since the read. */
  lemma LostSwapMeansWrite(s: State, id: nat)
    requires Inv(s) && id in s.calls && s.calls[id].stage.ToSwap? && s.device.Device?
    requires s.device.session.None? || s.device.session.value.hash != s.calls[id].stage.read.hash
    ensures s.calls[id].readAt < |s.log|
  {
  }

  lemma CommandKeepsInv(s: State, id: nat)
    requires Inv(s) && id in s.calls
    ensures Inv(Command(s, id))
  {
    var call := s.calls[id];
    assert CallOk(s.log, call);
    match call.stage
    case ToRead =>
      assert s.log[..|s.log|] == s.log;
      ClassifiedBy(CurrentSession(s.log), call.secret, call.now, call.reuseInterval);
      UpdateKeepsInv(s, id, call.(readAt := |s.log|, stage := DecisionOf(s.device, call)));
    case ToSwap(read) =>
      if s.device.NoDevice? {
        UpdateKeepsInv(s, id, call.(stage := Done(Some(Missing))));
      } else if s.device.session.None? || s.device.session.value.hash != read.hash {
        LostSwapMeansWrite(s, id);
        UpdateKeepsInv(s, id, Command(s, id).calls[id]);
      } else {
        SwapReplacesWhatWasRead(s, id);
        var next := Successor(read, call.minted, call.now);
        assert MayStore(call, next.hash);
        LandKeepsInv(s, id, call.(stage := Done(Some(Rotated))), Rotation(id, read, next), Some(next));
      }
    case ToClear(outcome) =>
      ClearKeepsInv(s, id, outcome);
    case ToSet =>
      if s.device.NoDevice? {
        UpdateKeepsInv(s, id, call.(stage := Done(Some(Missing))));
      } else {
        var session := Session(call.secret, None, None, call.expiresAt);
        assert MayStore(call, session.hash);
        LandKeepsInv(s, id, call.(stage := Done(None)), Started(id, session), Some(session));
      }
    case Done(_) =>
  }

  lemma ClearKeepsInv(s: State, id: nat, outcome: Option<Outcome>)
    requires Inv(s) && id in s.calls && s.calls[id].stage == ToClear(outcome)
    ensures Inv(Command(s, id))
  {
    var call := s.calls[id];
    if s.device.Device? && s.device.session.Some? {
      LandKeepsInv(s, id, call.(stage := Done(outcome)), Ended(id), None);
    } else {
      UpdateKeepsInv(s, id, call.(stage := Done(outcome)));
    }
  }

  lemma StepKeepsInv(s: State, e: Event)
    requires Inv(s)
    ensures Inv(Step(s, e))
  {
    match e
    case CreateDevice =>
    case Act(id) =>
      if id in s.calls {
        CommandKeepsInv(s, id);
      }
    case _ =>
      if e.id !in s.calls && Minted(e) * s.issued == {} {
        BeginKeepsInv(s, e);
      }
  }

  lemma {:induction false} RunKeepsInv(s: State, events: seq<Event>)
    requires Inv(s)
    ensures Inv(Run(s, events))
    decreases |events|
  {
    if events != [] {
      StepKeepsInv(s, events[0]);
      RunKeepsInv(Step(s, events[0]), events[1..]);
    }
  }

  // ---- What holds over every run ----

  /** The sessions since the last start: each rotation adds one. */
  function Line(log: seq<Landed>): seq<Session> {
    if log == [] then []
    else
      match log[|log| - 1]
      case Started(_, session) => [session]
      case Rotation(_, _, new_) => Line(log[..|log| - 1]) + [new_]
      case Ended(_) => []
  }

  /** One line of sessions: each remembers the hash of the one it replaced, under one deadline. */
  ghost predicate IsLine(line: seq<Session>) {
    && (line != [] ==> line[0].prevHash.None?)
    && forall i :: 0 < i < |line| ==> line[i].prevHash == Some(line[i - 1].hash) && line[i].expiresAt == line[i - 1].expiresAt
  }

  lemma {:induction false} HistoryIsLine(log: seq<Landed>)
    requires IsHistory(log)
    ensures IsLine(Line(log))
    ensures CurrentSession(log) == if Line(log) == [] then None else Some(Line(log)[|Line(log)| - 1])
    decreases |log|
  {
    if log != [] {
      var before := log[..|log| - 1];
      forall i | 0 <= i < |before|
        ensures Follows(before[..i], before[i])
      {
        assert before[..i] == log[..i];
      }
      HistoryIsLine(before);
      assert Follows(before, log[|log| - 1]);
    }
  }

  lemma {:induction false} OneDeadline(line: seq<Session>, i: nat, j: nat)
    requires IsLine(line) && i <= j < |line|
    ensures line[i].expiresAt == line[j].expiresAt
    decreases j
  {
    if i < j {
      OneDeadline(line, i, j - 1);
    }
  }

  ghost predicate RotateSameHash(log: seq<Landed>, i: int, j: int) {
    && 0 <= i < |log| && 0 <= j < |log|
    && log[i].Rotation? && log[j].Rotation? && log[i].old_.hash == log[j].old_.hash
  }

  /** No session is rotated twice: no hash has two successors. */
  lemma NoTwoSuccessors(log: seq<Landed>, i: nat, j: nat)
    requires IsHistory(log) && i < |log| && j < |log| && log[i].Rotation? && log[j].Rotation?
    requires log[i].old_.hash == log[j].old_.hash
    ensures i == j
  {
    assert Follows(log[..i], log[i]) && Follows(log[..j], log[j]);
    CurrentAt(log, i);
    CurrentAt(log, j);
    SessionByHash(log, i - 1, j - 1);
  }

  /** In every run, however the callers interleave, the stored session is the end of a single line begun by
      the last start; every session of the line has the same deadline; only the last two secrets of the line
      match; and no hash is ever rotated from twice. */
  lemma {:induction false} StoredSessionIsEndOfLine(exists_: bool, events: seq<Event>)
    ensures var s := Run(InitialState(exists_), events);
            var line := Line(s.log);
            && IsLine(line)
            && (forall i, j :: 0 <= i < |line| && 0 <= j < |line| ==> line[i].expiresAt == line[j].expiresAt)
            && (forall i, j :: RotateSameHash(s.log, i, j) ==> i == j)
            && (s.device.Device? ==> s.device.session == if line == [] then None else Some(line[|line| - 1]))
    ensures var s := Run(InitialState(exists_), events);
            var line := Line(s.log);
            forall secret ::
              s.device.Device? && Knows(s.device.session, secret) ==>
                && line != []
                && (secret == line[|line| - 1].hash || (|line| > 1 && secret == line[|line| - 2].hash))
  {
    var s := Run(InitialState(exists_), events);
    RunKeepsInv(InitialState(exists_), events);
    HistoryIsLine(s.log);
    var line := Line(s.log);
    forall i, j | 0 <= i < |line| && 0 <= j < |line|
      ensures line[i].expiresAt == line[j].expiresAt
    {
      if i <= j {
        OneDeadline(line, i, j);
      } else {
        OneDeadline(line, j, i);
      }
    }
    forall i, j | RotateSameHash(s.log, i, j)
      ensures i == j
    {
      NoTwoSuccessors(s.log, i, j);
    }
  }

  /** Whatever a presenting call wrote, its secret matched the session stored when it read, and a rotation
      replaced that very session. What an ending removed is said below. */
  lemma {:induction false} WritesAreJustified(exists_: bool, events: seq<Event>, i: nat)
    requires i < |Run(InitialState(exists_), events).log|
    ensures var s := Run(InitialState(exists_), events);
            var w := s.log[i];
            && w.call in s.calls && s.calls[w.call].readAt <= i
            && (s.calls[w.call].kind == Rotating || s.calls[w.call].kind == Revoking ==>
                  SawItsOwn(s.log, s.calls[w.call]))
            && (w.Rotation? ==> IsOwnRotation(s.log, s.calls[w.call], w))
  {
    var s := Run(InitialState(exists_), events);
    RunKeepsInv(InitialState(exists_), events);
    assert Justified(s, i);
  }

  /** A call that ends refused, without a device, or beaten has written nothing; and one beaten three times
      was beaten by three writes of other calls landed since it began. */
  lemma {:induction false} LosersWroteNothing(exists_: bool, events: seq<Event>, id: nat)
    requires var s := Run(InitialState(exists_), events); id in s.calls && WroteNothing(s.calls[id])
    ensures var s := Run(InitialState(exists_), events);
            && (forall w :: w in s.log ==> w.call != id)
            && (s.calls[id].stage == Done(Some(LostThreeTimes)) ==>
                  |s.log| - s.calls[id].begun >= 3
                  && forall w :: w in s.log[s.calls[id].begun..] ==> w.call != id)
  {
    var s := Run(InitialState(exists_), events);
    RunKeepsInv(InitialState(exists_), events);
    assert CallOk(s.log, s.calls[id]);
    forall w | w in s.log
      ensures w.call != id
    {
      var i :| 0 <= i < |s.log| && s.log[i] == w;
      assert Justified(s, i);
    }
  }

  // ---- A refresh after a rotation ----

  /** What a refresh that begins to read after these writes, the last a rotation by `author`, does next. */
  function NextAfterRotation(old_: Session, new_: Session, author: Call, call: Call): Stage {
    if call.secret != old_.hash && call.secret != new_.hash then Done(Some(Invalid))
    else if call.now >= old_.expiresAt then ToClear(Some(WasExpired))
    else if call.secret == new_.hash then ToSwap(new_)
    else if call.now <= author.now + call.reuseInterval then ToSwap(new_)
    else ToClear(Some(WasReplayed))
  }

  // ---- A call and its arguments ----

  predicate SameArguments(a: Call, b: Call) {
    a.kind == b.kind && a.secret == b.secret && a.minted == b.minted && a.now == b.now && a.reuseInterval == b.reuseInterval
    && a.expiresAt == b.expiresAt
  }

  lemma {:induction false} RunKeepsArguments(s: State, events: seq<Event>, id: nat)
    requires id in s.calls
    ensures id in Run(s, events).calls && SameArguments(s.calls[id], Run(s, events).calls[id])
    decreases |events|
  {
    if events != [] {
      RunKeepsArguments(Step(s, events[0]), events[1..], id);
    }
  }

  /** Whatever happens afterwards, a call goes on with the arguments it was begun with. */
  lemma CallKeepsArguments(s: State, e: Event, events: seq<Event>)
    requires !e.CreateDevice? && !e.Act? && e.id !in s.calls && Minted(e) * s.issued == {}
    ensures var calls := Run(Step(s, e), events).calls;
            && e.id in calls
            && var call := calls[e.id];
            match e
            case BeginRotate(_, presented, minted, now, reuse) =>
              && call.kind == Rotating && call.secret == presented && call.minted == minted
              && call.now == now && call.reuseInterval == reuse
            case BeginRevoke(_, presented, now) => call.kind == Revoking && call.secret == presented && call.now == now
            case BeginSet(_, hash, expiresAt) => call.kind == Setting && call.secret == hash && call.expiresAt == expiresAt
            case _ => call.kind == Clearing
  {
    RunKeepsArguments(Step(s, e), events, e.id);
  }

  /** In every run: a secret that a rotation has just replaced still refreshes for as long as the reuse interval since
      that rotation lasts, and ends the session after it; the new secret refreshes; past the deadline either ends the
      session, and any other secret does nothing. */
  lemma {:induction false} RefreshAfterRotation(exists_: bool, events: seq<Event>, id: nat)
    requires var s := Run(InitialState(exists_), events);
             && s.log != [] && s.log[|s.log| - 1].Rotation?
             && id in s.calls && s.calls[id].kind == Rotating && s.calls[id].stage == ToRead
    ensures var s := Run(InitialState(exists_), events);
            var w := s.log[|s.log| - 1];
            && w.call in s.calls && w.old_.hash != w.new_.hash
            && Step(s, Act(id)).calls[id].stage == NextAfterRotation(w.old_, w.new_, s.calls[w.call], s.calls[id])
  {
    var s := Run(InitialState(exists_), events);
    var n := |s.log| - 1;
    RunKeepsInv(InitialState(exists_), events);
    assert Justified(s, n) && Follows(s.log[..n], s.log[n]);
    CurrentAt(s.log, n);
    assert s.log[..n][..n] == s.log[..n];
    assert StoredAt(s.log[..n], n - 1) == Some(s.log[n].old_);
    ReadsTheNext(s, id, s.log[n].old_, s.log[n].new_, s.calls[s.log[n].call]);
  }

  lemma ReadsTheNext(s: State, id: nat, old_: Session, new_: Session, author: Call)
    requires id in s.calls && s.calls[id].kind == Rotating && s.calls[id].stage == ToRead
    requires s.device == Device(Some(new_)) && old_.hash != new_.hash
    requires new_.prevHash == Some(old_.hash) && new_.rotatedAt == Some(author.now) && new_.expiresAt == old_.expiresAt
    ensures Step(s, Act(id)).calls[id].stage == NextAfterRotation(old_, new_, author, s.calls[id])
  {
  }

  /** When nothing lands in between, the refresh then does so: one rotation from the session stored, to one with the
      call's new secret that remembers the old one, the time and the deadline; or one ending; or nothing. */
  lemma {:induction false} RefreshLands(exists_: bool, events: seq<Event>, id: nat)
    requires var s := Run(InitialState(exists_), events);
             && s.log != [] && s.log[|s.log| - 1].Rotation?
             && id in s.calls && s.calls[id].kind == Rotating && s.calls[id].stage == ToRead
    ensures var s := Run(InitialState(exists_), events);
            var w, call := s.log[|s.log| - 1], s.calls[id];
            var t := Step(Step(s, Act(id)), Act(id));
            && w.call in s.calls
            && t.log == s.log + (match NextAfterRotation(w.old_, w.new_, s.calls[w.call], call)
                                 case ToSwap(_) =>
                                   [Rotation(id, w.new_, Session(call.minted, Some(w.new_.hash), Some(call.now), w.old_.expiresAt))]
                                 case ToClear(_) => [Ended(id)]
                                 case _ => [])
            && t.device == Device(CurrentSession(t.log))
  {
    var s := Run(InitialState(exists_), events);
    var n := |s.log| - 1;
    RunKeepsInv(InitialState(exists_), events);
    RefreshAfterRotation(exists_, events, id);
    assert Follows(s.log[..n], s.log[n]);
  }

  // ---- What an ending removes ----

  ghost predicate StartedIn(log: seq<Landed>, first: nat, last: nat) {
    exists j :: first <= j < last <= |log| && log[j].Started?
  }

  /** Without a start in between, the line only grows. */
  lemma {:induction false} LineGrows(log: seq<Landed>, first: nat, last: nat)
    requires IsHistory(log) && first <= last <= |log| && CurrentSession(log[..last]).Some? && !StartedIn(log, first, last)
    ensures CurrentSession(log[..first]).Some? && Line(log[..first]) <= Line(log[..last])
    decreases last
  {
    if first < last {
      assert log[..last][..last - 1] == log[..last - 1] && log[..last][last - 1] == log[last - 1];
      assert Follows(log[..last - 1], log[last - 1]);
      assert !StartedIn(log, first, last - 1);
      LineGrows(log, first, last - 1);
    }
  }

  /** The sessions of the line were all stored since its start. */
  lemma {:induction false} LineSince(log: seq<Landed>, start: nat, last: nat, session: Session) returns (k: nat)
    requires IsHistory(log) && start < last <= |log| && log[start].Started? && session in Line(log[..last])
    ensures start <= k < last && StoredAt(log, k) == Some(session)
    decreases last
  {
    var before := log[..last - 1];
    assert log[..last][..last - 1] == before && log[..last][last - 1] == log[last - 1];
    k := last - 1;
    if log[last - 1].Rotation? && session != log[last - 1].new_ {
      assert session in Line(before);
      k := LineSince(log, start, last - 1, session);
    }
  }

  lemma InLastOfLine(log: seq<Landed>, n: nat)
    requires IsHistory(log) && n <= |log| && CurrentSession(log[..n]).Some?
    ensures CurrentSession(log[..n]).value in Line(log[..n])
  {
    forall i | 0 <= i < |log[..n]|
      ensures Follows(log[..n][..i], log[..n][i])
    {
      assert log[..n][..i] == log[..i];
    }
    HistoryIsLine(log[..n]);
  }

  /** Of two moments with a session stored, the session of the first is in the line of the second exactly when no
      session was started in between. */
  lemma SameLineIffNoStart(log: seq<Landed>, first: nat, last: nat)
    requires IsHistory(log) && first <= last <= |log|
    requires CurrentSession(log[..first]).Some? && CurrentSession(log[..last]).Some?
    ensures CurrentSession(log[..first]).value in Line(log[..last]) <==> !StartedIn(log, first, last)
  {
    var session := CurrentSession(log[..first]).value;
    if !StartedIn(log, first, last) {
      LineGrows(log, first, last);
      InLastOfLine(log, first);
      assert forall x :: x in Line(log[..first]) ==> x in Line(log[..last]);
    } else if session in Line(log[..last]) {
      var j :| first <= j < last && log[j].Started?;
      var k := LineSince(log, j, last, session);
      CurrentAt(log, first);
      SessionByHash(log, first - 1, k);
    }
  }

  /** An ending by a call that presents a secret removes a session of the line its secret matched if and only if no
      session was started between the call's read and its clear. */
  lemma {:induction false} EndingIsOfMatchedLineIff(exists_: bool, events: seq<Event>, i: nat)
    requires var s := Run(InitialState(exists_), events);
             i < |s.log| && s.log[i].Ended? && s.log[i].call in s.calls && s.calls[s.log[i].call].kind in {Rotating, Revoking}
    ensures var s := Run(InitialState(exists_), events);
            var call := s.calls[s.log[i].call];
            && call.readAt <= i
            && CurrentSession(s.log[..i]).Some? && CurrentSession(s.log[..call.readAt]).Some?
            && SawItsOwn(s.log, call)
            && (CurrentSession(s.log[..call.readAt]).value in Line(s.log[..i]) <==> !StartedIn(s.log, call.readAt, i))
  {
    var s := Run(InitialState(exists_), events);
    RunKeepsInv(InitialState(exists_), events);
    assert Justified(s, i);
    assert Follows(s.log[..i], s.log[i]);
    SameLineIffNoStart(s.log, s.calls[s.log[i].call].readAt, i);
  }

  const ONE := Session("h0", None, None, 100)
  const TWO := Session("h2", None, None, 100)

  function SetCall(hash: Hash, stage: Stage, landed: nat): Call {
    Call(Setting, hash, hash, 0, 0, 100, 0, stage, landed, landed)
  }

  function RevokeCall(stage: Stage): Call {
    Call(Revoking, "h0", "", 0, DEFAULT_REUSE_INTERVAL_SECONDS, 0, 0, stage, 1, 1)
  }

  /** The first session is started, and a log-out with its secret has read it. */
  function LogoutHasRead(): State {
    State(Device(Some(ONE)), map[0 := SetCall("h0", Done(None), 0), 1 := RevokeCall(ToClear(None))], {"h0"}, [Started(0, ONE)])
  }

  /** Before it clears, the second session is started. */
  function NextIsStarted(): State {
    State(Device(Some(TWO)),
          map[0 := SetCall("h0", Done(None), 0), 1 := RevokeCall(ToClear(None)), 2 := SetCall("h2", Done(None), 1)],
          {"h0", "h2"}, [Started(0, ONE), Started(2, TWO)])
  }

  lemma ReachesLogoutHasRead()
    ensures Run(InitialState(false), [CreateDevice, BeginSet(0, "h0", 100), Act(0), BeginRevoke(1, "h0", 0), Act(1)]) == LogoutHasRead()
  {
    var begun := State(Device(None), map[0 := SetCall("h0", ToSet, 0)], {"h0"}, []);
    var set_ := State(Device(Some(ONE)), map[0 := SetCall("h0", Done(None), 0)], {"h0"}, [Started(0, ONE)]);
    var asked := set_.(calls := set_.calls[1 := RevokeCall(ToRead)]);
    assert Step(Step(InitialState(false), CreateDevice), BeginSet(0, "h0", 100)) == begun;
    assert Step(begun, Act(0)) == set_;
    assert Step(set_, BeginRevoke(1, "h0", 0)) == asked;
    assert Step(asked, Act(1)) == LogoutHasRead();
    RunOf3(InitialState(false), CreateDevice, BeginSet(0, "h0", 100), Act(0), [BeginRevoke(1, "h0", 0), Act(1)]);
    RunOf2(set_, BeginRevoke(1, "h0", 0), Act(1), []);
  }

  lemma {:induction false} RunOf2(s: State, a: Event, b: Event, rest: seq<Event>)
    ensures Run(s, [a, b] + rest) == Run(Step(Step(s, a), b), rest)
  {
    var all := [a, b] + rest;
    assert all[1..] == [b] + rest && all[1..][1..] == rest;
  }

  lemma {:induction false} RunOf3(s: State, a: Event, b: Event, c: Event, rest: seq<Event>)
    ensures Run(s, [a, b, c] + rest) == Run(Step(Step(Step(s, a), b), c), rest)
  {
    var all := [a, b, c] + rest;
    assert all[1..] == [b, c] + rest;
    RunOf2(Step(s, a), b, c, rest);
  }

  lemma ReachesNextIsStarted()
    ensures Run(LogoutHasRead(), [BeginSet(2, "h2", 100), Act(2)]) == NextIsStarted()
  {
    assert "h0" != "h2" && {"h2"} * {"h0"} == {};
    var asked := LogoutHasRead().(calls := LogoutHasRead().calls[2 := SetCall("h2", ToSet, 1)], issued := {"h0", "h2"});
    assert Step(LogoutHasRead(), BeginSet(2, "h2", 100)) == asked;
    assert Step(asked, Act(2)) == NextIsStarted();
    RunOf2(LogoutHasRead(), BeginSet(2, "h2", 100), Act(2), []);
    assert [BeginSet(2, "h2", 100), Act(2)] + [] == [BeginSet(2, "h2", 100), Act(2)];
  }

  /** A log-out that reads one session and ends the next, which does not know its secret. */
  lemma UnknownSecretCanEndASession()
    ensures var read := [CreateDevice, BeginSet(0, "h0", 100), Act(0), BeginRevoke(1, "h0", 0), Act(1)];
            var s := Run(InitialState(false), read + [BeginSet(2, "h2", 100), Act(2)]);
            && s == NextIsStarted()
            && !Knows(s.device.session, "h0")
            && Step(s, Act(1)).device == Device(None) && Step(s, Act(1)).log == s.log + [Ended(1)]
  {
    ReachesLogoutHasRead();
    ReachesNextIsStarted();
    RunAppend(InitialState(false), [CreateDevice, BeginSet(0, "h0", 100), Act(0), BeginRevoke(1, "h0", 0), Act(1)],
              [BeginSet(2, "h2", 100), Act(2)]);
    assert "h0" != "h2";
  }

  lemma {:induction false} RunAppend(s: State, a: seq<Event>, b: seq<Event>)
    ensures Run(s, a + b) == Run(Run(s, a), b)
    decreases |a|
  {
    if a == [] {
      assert a + b == b;
    } else {
      assert (a + b)[1..] == a[1..] + b;
      RunAppend(Step(s, a[0]), a[1..], b);
    }
  }
}
