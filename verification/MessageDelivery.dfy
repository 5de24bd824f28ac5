/** One delivery from the broker: run the handler until the message is done with, then settle it. */
module MessageDelivery {
  import opened Values

  datatype Settlement = Ack | DeadLetter | Requeue

  datatype HandlerResult = Resolves | Fails(terminal: bool)

  /** One run of the handler and what is seen after it: whether consumption is stopping, whether the
      delivery's connection is still there, whether every service is up; and, where the message waits to be
      tried again, whether the wait ran its course and whether the connection outlived it. */
  datatype Attempt = Attempt(result: HandlerResult, stopping: bool, live: bool, ready: bool, waited: bool, liveAfterWait: bool)

  /** A failure that is the message's own: it counts against the retries. */
  predicate Counts(a: Attempt) {
    a.result == Fails(false) && !a.stopping && a.live && a.ready
  }

  /** A failure during an outage: it does not. */
  predicate IsOutage(a: Attempt) {
    a.result == Fails(false) && !a.stopping && a.live && !a.ready
  }

  /** The message is tried again after this attempt, retries permitting. */
  predicate WaitsItOut(a: Attempt) {
    (Counts(a) || IsOutage(a)) && a.waited && a.liveAfterWait
  }

  /** How many of the runs counted. */
  function Counted(script: seq<Attempt>): nat {
    if script == [] then 0 else Counted(script[..|script| - 1]) + (if Counts(script[|script| - 1]) then 1 else 0)
  }

  /** The settlement the last of some runs calls for, after those before it; `None`: try again. */
  function Decide(earlier: seq<Attempt>, last: Attempt, retryDelays: nat): Option<Settlement> {
    match last.result
    case Resolves => Some(Ack)
    case Fails(terminal) =>
      if last.stopping || !last.live then Some(Requeue)
      else if terminal then Some(DeadLetter)
      else if last.ready && Counted(earlier) == retryDelays then Some(DeadLetter)
      else if !last.waited || !last.liveAfterWait then Some(Requeue)
      else None
  }

  /** `processDelivery`: the do-while loop. Every run but the last called for another; `None` is a message
      still being tried when the script ends. */
  method ProcessDelivery(decodes: bool, script: seq<Attempt>, retryDelays: nat) returns (outcome: Option<Settlement>, runs: nat)
    ensures !decodes ==> outcome == Some(DeadLetter) && runs == 0
    ensures decodes ==> runs <= |script| && (outcome.Some? ==> runs > 0) && (outcome.None? ==> runs == |script|)
    ensures decodes ==> forall i :: 0 <= i < runs ==>
              Decide(script[..i], script[i], retryDelays) == if i == runs - 1 then outcome else None
  {
    if !decodes {
      return Some(DeadLetter), 0;
    }
    var retries := 0;
    outcome := None;
    runs := 0;
    while outcome.None? && runs < |script|
      invariant runs <= |script| && (outcome.Some? ==> runs > 0)
      invariant outcome.None? ==> retries == Counted(script[..runs]) <= retryDelays
      invariant forall i :: 0 <= i < runs ==> Decide(script[..i], script[i], retryDelays) == if i == runs - 1 then outcome else None
      decreases |script| - runs, outcome.None?
    {
      var a := script[runs];
      assert script[..runs + 1][..runs] == script[..runs];
      if a.result == Resolves {
        outcome := Some(Ack);
      } else if a.stopping || !a.live {
        outcome := Some(Requeue);
      } else if a.result.terminal {
        outcome := Some(DeadLetter);
      } else if !a.ready {
        if !a.waited || !a.liveAfterWait {
          outcome := Some(Requeue);
        }
      } else if retries == retryDelays {
        outcome := Some(DeadLetter);
      } else {
        retries := retries + 1;
        if !a.waited || !a.liveAfterWait {
          outcome := Some(Requeue);
        }
      }
      runs := runs + 1;
    }
  }

  /** A run of attempts as the loop makes it: each but the last called for another. */
  ghost predicate IsRun(script: seq<Attempt>, retryDelays: nat) {
    forall i :: 0 <= i < |script| - 1 ==> Decide(script[..i], script[i], retryDelays) == None
  }

  /** The runs before one that called for another all waited their turn, and no more of them counted than
      there are retry delays. */
  lemma {:induction false} RetriedRuns(script: seq<Attempt>, retryDelays: nat)
    requires forall i :: 0 <= i < |script| ==> Decide(script[..i], script[i], retryDelays) == None
    ensures (forall a :: a in script ==> WaitsItOut(a)) && Counted(script) <= retryDelays
    decreases |script|
  {
    if script != [] {
      var n := |script| - 1;
      var earlier := script[..n];
      forall i | 0 <= i < n
        ensures Decide(earlier[..i], earlier[i], retryDelays) == None
      {
        assert earlier[..i] == script[..i];
      }
      RetriedRuns(earlier, retryDelays);
      assert script == earlier + [script[n]];
    }
  }

  /** What a delivery that is decided was: acknowledged exactly when the last run resolved; dead-lettered
      exactly when it failed for good, or failed with all services ready one time more than there are retry
      delays; and given back in every other case. Outages never count. */
  lemma {:induction false} SettlementMeans(script: seq<Attempt>, retryDelays: nat)
    requires script != [] && IsRun(script, retryDelays)
    ensures var n := |script| - 1;
            var last := script[n];
            var outcome := Decide(script[..n], last, retryDelays);
            var inForce := last.result.Fails? && !last.stopping && last.live;
            && (outcome == Some(Ack) <==> last.result == Resolves)
            && (outcome == Some(DeadLetter) <==>
                  inForce && (last.result.terminal || Counted(script) == retryDelays + 1))
            && (outcome == Some(Requeue) <==>
                  last.result.Fails? && !(inForce && (last.result.terminal || Counted(script) == retryDelays + 1)) && !WaitsItOut(last))
            && (outcome == None <==> WaitsItOut(last) && Counted(script) <= retryDelays)
            && forall a :: a in script[..n] ==> WaitsItOut(a)
  {
    var n := |script| - 1;
    var earlier := script[..n];
    forall i | 0 <= i < n
      ensures Decide(earlier[..i], earlier[i], retryDelays) == None
    {
      assert earlier[..i] == script[..i];
    }
    RetriedRuns(earlier, retryDelays);
  }

  /** Failures during outages can be inserted anywhere without changing what the last run leads to. */
  lemma {:induction false} OutagesDoNotCount(a: seq<Attempt>, outage: Attempt, b: seq<Attempt>)
    requires IsOutage(outage)
    ensures Counted(a + [outage] + b) == Counted(a + b)
    decreases |b|
  {
    if b == [] {
      assert a + [outage] + b == a + [outage] && a + b == a;
      assert (a + [outage])[..|a|] == a;
    } else {
      var n := |b| - 1;
      OutagesDoNotCount(a, outage, b[..n]);
      assert (a + [outage] + b)[..|a| + 1 + n] == a + [outage] + b[..n];
      assert (a + b)[..|a| + n] == a + b[..n];
    }
  }

  /** A delivery and what has been sent to the broker for it. */
  class Delivery {
    var settled: seq<Settlement>

    constructor ()
      ensures settled == []
    {
      settled := [];
    }

    /** `handleDelivery`: settles at most once, and never on a connection that is gone. A message that
        arrives while consumption is stopping goes straight back. */
    method HandleDelivery(stoppingOnArrival: bool, decodes: bool, script: seq<Attempt>, retryDelays: nat, liveAtEnd: bool)
      returns (outcome: Option<Settlement>, runs: nat)
      requires settled == []
      modifies this
      ensures settled == if outcome.Some? && liveAtEnd then [outcome.value] else []
      ensures stoppingOnArrival ==> outcome == Some(Requeue) && runs == 0
      ensures !stoppingOnArrival && !decodes ==> outcome == Some(DeadLetter) && runs == 0
      ensures !stoppingOnArrival && decodes ==> runs <= |script| && IsRun(script[..runs], retryDelays)
      ensures !stoppingOnArrival && decodes && outcome.Some? ==>
                runs > 0 && outcome == Decide(script[..runs - 1], script[runs - 1], retryDelays)
      ensures !stoppingOnArrival && decodes && outcome.None? ==>
                runs == |script| && (runs > 0 ==> Decide(script[..runs - 1], script[runs - 1], retryDelays) == None)
    {
      if stoppingOnArrival {
        outcome, runs := Some(Requeue), 0;
      } else {
        outcome, runs := ProcessDelivery(decodes, script, retryDelays);
        if decodes {
          forall i | 0 <= i < runs - 1
            ensures Decide(script[..runs][..i], script[..runs][i], retryDelays) == None
          {
            assert script[..runs][..i] == script[..i];
          }
        }
      }
      if outcome.None? || !liveAtEnd {
        return;
      }
      settled := settled + [outcome.value];
    }
  }
}
