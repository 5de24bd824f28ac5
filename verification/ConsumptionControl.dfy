/** When a worker consumes: the message-queue adapter's connection and pause flags, driven by the
    worker's view of the services it depends on. */
module ConsumptionControl {

  datatype Service = Db | Mq | Redis

  datatype ConnectResult = Connected | Retryable | Fatal

  type Queue = string

  /** The adapter and the worker of one process, and the consumers open at the broker. Each queue is
      registered once; opening and cancelling consumers succeed, in one step. */
  class Worker {
    // The adapter.
    var wantConnected: bool
    var connected: bool
    var tryInFlight: bool
    var retryTimer: bool
    var consumingPaused: bool
    var stopping: bool
    var consumers: set<Queue>
    // The worker.
    var serviceState: set<Service>
    var closing: bool
    // The broker.
    var open: multiset<Queue>
    // Whether start-up's wait for all services has been released.
    var started: bool
    // The attempts to connect made so far, and those answered.
    ghost var attempts: nat
    ghost var answers: nat

    predicate IsAvailable()
      reads this
    {
      serviceState == {Db, Mq, Redis}
    }

    ghost predicate Valid()
      reads this
    {
      && open == (if connected && !consumingPaused then multiset(consumers) else multiset{})
      && (stopping ==> consumingPaused)
      && (Mq in serviceState <==> connected)
      && (retryTimer <==> wantConnected && !connected)
      && (tryInFlight ==> !connected)
      && attempts == answers + (if tryInFlight then 1 else 0)
      && (consumers != {} ==> started)
      && (IsAvailable() ==> started)
      && (!stopping && !closing ==> (consumingPaused <==> started && !IsAvailable()))
      && (started || stopping || closing || !consumingPaused)
    }

    constructor ()
      ensures Valid() && consumers == {} && !started && !stopping && !closing
    {
      wantConnected, connected, tryInFlight, retryTimer := false, false, false, false;
      consumingPaused, stopping, consumers := false, false, {};
      serviceState, closing, open, started := {}, false, multiset{}, false;
      attempts, answers := 0, 0;
    }

    // ---- Pausing ----

    method CancelAll()
      modifies this`open
      ensures open == multiset{}
    {
      open := multiset{};
    }

    method ConsumeAll()
      requires open == multiset{}
      modifies this`open
      ensures open == multiset(consumers)
    {
      var todo := consumers;
      while todo != {}
        invariant todo <= consumers && open == multiset(consumers - todo)
        decreases todo
      {
        var queue :| queue in todo;
        todo := todo - {queue};
        open := open + multiset{queue};
      }
      assert consumers - {} == consumers;
    }

    method PauseConsuming()
      requires open == (if connected && !consumingPaused then multiset(consumers) else multiset{})
      modifies this`consumingPaused, this`open
      ensures consumingPaused && open == multiset{}
    {
      if consumingPaused {
        return;
      }
      consumingPaused := true;
      if connected {
        CancelAll();
      }
    }

    method ResumeConsuming()
      requires open == (if connected && !consumingPaused then multiset(consumers) else multiset{})
      requires stopping ==> consumingPaused
      modifies this`consumingPaused, this`open
      ensures consumingPaused <==> stopping
      ensures open == (if connected && !consumingPaused then multiset(consumers) else multiset{})
    {
      if !consumingPaused || stopping {
        return;
      }
      consumingPaused := false;
      if connected {
        ConsumeAll();
      }
    }

    /** `stopConsuming`: for good. */
    method StopConsuming()
      requires Valid()
      modifies this`stopping, this`consumingPaused, this`open
      ensures Valid() && stopping && open == multiset{}
    {
      if !stopping {
        stopping := true;
        consumingPaused := true;
        if connected {
          CancelAll();
        }
      }
    }

    /** `consumeMessages`, which start-up calls once every service has been up. */
    method Register(queue: Queue)
      requires Valid() && started && queue !in consumers
      modifies this`consumers, this`open
      ensures Valid() && consumers == old(consumers) + {queue}
    {
      consumers := consumers + {queue};
      if connected && !consumingPaused {
        open := open + multiset{queue};
      }
    }

    // ---- The services ----

    /** `markServiceUp`: consumption resumes when the last one is back. */
    method MarkServiceUp(service: Service)
      requires open == (if connected && !consumingPaused then multiset(consumers) else multiset{})
      requires stopping ==> consumingPaused
      modifies this`serviceState, this`consumingPaused, this`open, this`started
      ensures serviceState == old(serviceState) + {service}
      ensures started == (old(started) || (serviceState != old(serviceState) && IsAvailable()))
      ensures open == (if connected && !consumingPaused then multiset(consumers) else multiset{})
      ensures consumingPaused == if serviceState != old(serviceState) && IsAvailable() then stopping else old(consumingPaused)
    {
      if service in serviceState {
        return;
      }
      serviceState := serviceState + {service};
      assert service in serviceState;
      if IsAvailable() {
        started := true;
        ResumeConsuming();
      }
    }

    /** `markServiceDown`: consumption pauses on the first to go. */
    method MarkServiceDown(service: Service)
      requires open == (if connected && !consumingPaused then multiset(consumers) else multiset{})
      modifies this`serviceState, this`consumingPaused, this`open
      ensures serviceState == old(serviceState) - {service}
      ensures open == (if connected && !consumingPaused then multiset(consumers) else multiset{})
      ensures consumingPaused == (old(consumingPaused) || (service in old(serviceState) && old(IsAvailable()) && !closing))
    {
      if service !in serviceState {
        return;
      }
      var wasAvailable := IsAvailable();
      serviceState := serviceState - {service};
      if wasAvailable && !closing {
        PauseConsuming();
      }
    }

    /** The database or Redis connects. */
    method ServiceUp(service: Service)
      requires Valid() && service != Mq
      modifies this`serviceState, this`consumingPaused, this`open, this`started
      ensures Valid() && serviceState == old(serviceState) + {service}
      ensures started == (old(started) || IsAvailable())
    {
      MarkServiceUp(service);
    }

    method ServiceDown(service: Service)
      requires Valid() && service != Mq
      modifies this`serviceState, this`consumingPaused, this`open
      ensures Valid() && serviceState == old(serviceState) - {service}
    {
      MarkServiceDown(service);
    }

    // ---- The connection ----

    /** `connect` */
    method Connect()
      requires Valid()
      modifies this`wantConnected, this`tryInFlight, this`retryTimer, this`attempts
      ensures Valid() && wantConnected
      ensures tryInFlight == (old(tryInFlight) || (!connected && !old(retryTimer)))
    {
      wantConnected := true;
      if connected {
        return;
      }
      StartRetryLoop();
    }

    method StartRetryLoop()
      requires wantConnected && !connected
      modifies this`tryInFlight, this`retryTimer, this`attempts
      ensures retryTimer && tryInFlight == (old(tryInFlight) || !old(retryTimer))
      ensures attempts == old(attempts) + (if tryInFlight && !old(tryInFlight) then 1 else 0)
    {
      if retryTimer {
        return;
      }
      BeginTry();
      retryTimer := true;
    }

    /** `tryOnce`, up to the connection attempt; also what the retry timer runs. Nothing is attempted while an attempt
        has not been answered. */
    method BeginTry()
      requires wantConnected && !connected
      modifies this`tryInFlight, this`attempts
      ensures tryInFlight && attempts == old(attempts) + (if old(tryInFlight) then 0 else 1)
    {
      if tryInFlight {
        return;
      }
      tryInFlight := true;
      attempts := attempts + 1;
    }

    method TimerFires()
      requires Valid() && retryTimer
      modifies this`tryInFlight, this`attempts
      ensures Valid() && tryInFlight && attempts == old(attempts) + (if old(tryInFlight) then 0 else 1)
    {
      BeginTry();
    }

    /** The connection is there: consumers come back unless paused, and the worker is told. */
    method GoLive()
      requires Valid() && wantConnected && !connected
      modifies this`connected, this`retryTimer, this`open, this`consumingPaused, this`serviceState, this`started
      ensures connected && !retryTimer && serviceState == old(serviceState) + {Mq}
      ensures open == if !consumingPaused then multiset(consumers) else multiset{}
      ensures started == (old(started) || IsAvailable())
      ensures consumingPaused == if IsAvailable() then stopping else old(consumingPaused)
    {
      connected := true;
      retryTimer := false;
      if !consumingPaused {
        ConsumeAll();
      }
      MarkServiceUp(Mq);
    }

    /** `tryOnce`, from the answer to the connection attempt. Consumers come back unless paused; a connection
        nobody wants any more is closed again. */
    method FinishTry(result: ConnectResult)
      requires Valid() && tryInFlight
      modifies this
      ensures Valid() && !tryInFlight
      ensures connected <==> result == Connected && old(wantConnected)
      ensures wantConnected <==> old(wantConnected) && result != Fatal
      ensures serviceState == old(serviceState) + (if connected then {Mq} else {})
      ensures started == (old(started) || IsAvailable())
      ensures unchanged(`consumers) && unchanged(`stopping) && unchanged(`closing) && unchanged(`attempts)
    {
      match result {
        case Connected =>
          if wantConnected {
            GoLive();
          }
        case Retryable =>
        case Fatal =>
          wantConnected := false;
          retryTimer := false;
      }
      tryInFlight := false;
      answers := answers + 1;
    }

    /** `onConnectionLost`: the broker has dropped the consumers with the connection. */
    method ConnectionLost()
      requires Valid() && connected
      modifies this
      ensures Valid() && !connected && (wantConnected ==> retryTimer && tryInFlight)
      ensures serviceState == old(serviceState) - {Mq} && unchanged(`started)
      ensures unchanged(`consumers) && unchanged(`stopping) && unchanged(`closing) && unchanged(`wantConnected)
    {
      connected := false;
      open := multiset{};
      MarkServiceDown(Mq);
      if wantConnected {
        StartRetryLoop();
      }
    }

    // ---- Shutdown ----

    /** The first thing `close` does. */
    method BeginClose()
      requires Valid()
      modifies this`closing
      ensures Valid() && closing
    {
      closing := true;
    }

    /** `disconnect`, near the end of `close`. */
    method Disconnect()
      requires Valid() && closing
      modifies this
      ensures Valid() && !wantConnected && !connected && serviceState == old(serviceState) - {Mq}
      ensures unchanged(`consumers) && unchanged(`stopping) && unchanged(`closing)
    {
      wantConnected := false;
      retryTimer := false;
      if connected {
        connected := false;
        open := multiset{};
        MarkServiceDown(Mq);
      }
    }

    // ---- What follows at every point of every run ----

    /** One consumer for each registered queue when connected and not paused, and none otherwise; none while a
        service is down; all of them once every service is up; none after `stopConsuming`; a connection
        that is wanted and missing is being retried; and at most one attempt to connect is unanswered. */
    lemma ConsumptionFollowsServices()
      requires Valid()
      ensures connected && !consumingPaused ==> forall q :: open[q] == if q in consumers then 1 else 0
      ensures !(connected && !consumingPaused) ==> open == multiset{}
      ensures !closing && !IsAvailable() ==> open == multiset{}
      ensures !closing && !stopping && IsAvailable() ==> open == multiset(consumers)
      ensures stopping ==> open == multiset{}
      ensures wantConnected && !connected ==> retryTimer
      ensures attempts <= answers + 1
    {
    }
  }

  // ---- Runs ----

  datatype Event =
    | Connecting
    | Timer
    | TryAnswered(result: ConnectResult)
    | Lost
    | Up(service: Service)
    | Down(service: Service)
    | Registering(queue: Queue)
    | Stopping

  /** Any events in any order while the worker is not closing; one that cannot happen is passed over. */
  method Run(worker: Worker, events: seq<Event>)
    requires worker.Valid() && !worker.closing
    modifies worker
    ensures worker.Valid() && !worker.closing
    ensures !worker.IsAvailable() ==> worker.open == multiset{}
    ensures worker.IsAvailable() && !worker.stopping ==> worker.open == multiset(worker.consumers)
    ensures old(worker.stopping) || Stopping in events ==> worker.stopping && worker.open == multiset{}
    ensures old(worker.consumers) <= worker.consumers
  {
    for i := 0 to |events|
      invariant worker.Valid() && !worker.closing
      invariant old(worker.stopping) || Stopping in events[..i] ==> worker.stopping
      invariant old(worker.consumers) <= worker.consumers
    {
      assert events[..i + 1] == events[..i] + [events[i]];
      Happen(worker, events[i]);
    }
    assert events[..|events|] == events;
    worker.ConsumptionFollowsServices();
  }

  method Happen(worker: Worker, e: Event)
    requires worker.Valid() && !worker.closing
    modifies worker
    ensures worker.Valid() && !worker.closing
    ensures old(worker.stopping) || e == Stopping ==> worker.stopping
    ensures old(worker.consumers) <= worker.consumers
    ensures e.Registering? && old(worker.started) ==> e.queue in worker.consumers
    ensures e.Up? && e.service != Mq ==> worker.serviceState == old(worker.serviceState) + {e.service}
    ensures e.Down? && e.service != Mq ==> worker.serviceState == old(worker.serviceState) - {e.service}
    ensures e.Connecting? ==> worker.wantConnected
    ensures e.TryAnswered? && old(worker.tryInFlight) ==>
              (worker.connected <==> e.result == Connected && old(worker.wantConnected))
    ensures e.Lost? ==> !worker.connected
  {
    match e {
      case Up(_) => HappenToService(worker, e);
      case Down(_) => HappenToService(worker, e);
      case Registering(queue) =>
        if worker.started && queue !in worker.consumers {
          worker.Register(queue);
        }
      case Stopping => worker.StopConsuming();
      case _ => HappenToConnection(worker, e);
    }
  }

  method HappenToService(worker: Worker, e: Event)
    requires worker.Valid() && !worker.closing && (e.Up? || e.Down?)
    modifies worker
    ensures worker.Valid() && !worker.closing
    ensures worker.stopping == old(worker.stopping) && worker.consumers == old(worker.consumers)
    ensures e.Up? && e.service != Mq ==> worker.serviceState == old(worker.serviceState) + {e.service}
    ensures e.Down? && e.service != Mq ==> worker.serviceState == old(worker.serviceState) - {e.service}
  {
    if e.service != Mq {
      if e.Up? {
        worker.ServiceUp(e.service);
      } else {
        worker.ServiceDown(e.service);
      }
    }
  }

  method HappenToConnection(worker: Worker, e: Event)
    requires worker.Valid() && !worker.closing && (e.Connecting? || e.Timer? || e.TryAnswered? || e.Lost?)
    modifies worker
    ensures worker.Valid() && !worker.closing
    ensures worker.stopping == old(worker.stopping) && worker.consumers == old(worker.consumers)
    ensures e.Connecting? ==> worker.wantConnected
    ensures e.TryAnswered? && old(worker.tryInFlight) ==>
              (worker.connected <==> e.result == Connected && old(worker.wantConnected))
    ensures e.Lost? ==> !worker.connected
  {
    match e {
      case Connecting => worker.Connect();
      case Timer =>
        if worker.retryTimer {
          worker.TimerFires();
        }
      case TryAnswered(result) =>
        if worker.tryInFlight {
          worker.FinishTry(result);
        }
      case Lost =>
        if worker.connected {
          worker.ConnectionLost();
        }
    }
  }
}
