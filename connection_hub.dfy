/**
 * The connection hub: the supervisor of the one channel to the remote hub.
 *
 * The asynchronous steps of the hub are serialised into atomic method calls.
 * The wake-up event and the reconnect-cancel event are booleans, the reconnect
 * task slot holds the identifier of the last task started, and `liveJobs` holds
 * the tasks that have not finished. Transport I/O is abstracted as counters and
 * logs: `transportCloses` counts the requests to close the websocket,
 * `notifications` records each awaited listener call and `outbox` each request
 * handed to the client for sending.
 */
module Hub {
  import opened Wrappers
  import opened Messages
  import Backoff

  /** How a connection that opened came to close. */
  datatype SessionEnd =
    | PeerClosed      // the remote side or the network closed it
    | WatchdogClosed  // the forced-reconnect job's interval elapsed
    | Stopped         // stop() was called while connected

  /** What running the client produced in one attempt. */
  datatype Session = Failed | Opened(end: SessionEnd)

  /** What happens during the backoff wait of one attempt. */
  datatype Interruption = Quiet | WokenUp | StopRequested

  /**
   * One iteration of the retry loop as the environment plays it: whether the
   * token refresh raises, what the client run does, the jitter fraction drawn,
   * and whether wake_up() or stop() is called during the wait.
   */
  datatype Attempt = Attempt(refreshFails: bool, session: Session, jitter: real, interruption: Interruption)

  /** One awaited call of a listener with the connectivity it was given. */
  datatype Notification<L> = Notification(listener: L, connected: bool)

  /** One request handed to the client: the event name and its argument list. */
  datatype Outgoing = Outgoing(event: string, args: seq<Json>)

  /** One backoff wait: the delay waited on and whether the wake-up event ended it early. */
  datatype WaitRecord = WaitRecord(delay: real, woken: bool)

  /** The session an attempt amounts to once a failed token refresh is counted as a failed connection. */
  function EffectiveSession(a: Attempt): Session
  {
    if a.refreshFails then Failed else a.session
  }

  /** Whether stop() is called during an iteration that starts running. */
  predicate Stops(session: Session, interruption: Interruption)
  {
    session == Opened(Stopped) || interruption == StopRequested
  }

  /** Whether the wake-up event is set during an iteration. */
  predicate Wakes(session: Session, interruption: Interruption)
  {
    Stops(session, interruption) || interruption == WokenUp
  }

  /** The transport close requests issued during an iteration that starts running. */
  function Closes(session: Session, interruption: Interruption): nat
  {
    (if session == Opened(WatchdogClosed) then 1 else 0) + (if Stops(session, interruption) then 1 else 0)
  }

  /**
   * Whether an attempt leaves the forced-reconnect job as it was: a failed
   * client run touches no job, while an open or a stop() ends the pending one.
   */
  predicate KeepsJob(session: Session, interruption: Interruption)
  {
    session == Failed && interruption != StopRequested
  }

  predicate KeepsJobIn(a: Attempt)
  {
    KeepsJob(EffectiveSession(a), a.interruption)
  }

  predicate StopsIn(a: Attempt)
  {
    Stops(EffectiveSession(a), a.interruption)
  }

  predicate WakesIn(a: Attempt)
  {
    Wakes(EffectiveSession(a), a.interruption)
  }

  function ClosesIn(attempts: seq<Attempt>): nat
    decreases |attempts|
  {
    if attempts == [] then 0
    else
      var last := attempts[|attempts| - 1];
      ClosesIn(attempts[..|attempts| - 1]) + Closes(EffectiveSession(last), last.interruption)
  }

  /** For each attempt, whether it opened the connection (and so reset the backoff). */
  function OpenedFlags(attempts: seq<Attempt>): (r: seq<bool>)
    ensures |r| == |attempts|
    ensures forall k :: 0 <= k < |attempts| ==> r[k] == EffectiveSession(attempts[k]).Opened?
  {
    seq(|attempts|, k requires 0 <= k < |attempts| => EffectiveSession(attempts[k]).Opened?)
  }

  predicate JittersInRange(attempts: seq<Attempt>)
  {
    forall k :: 0 <= k < |attempts| ==> 0.0 <= attempts[k].jitter <= 0.5
  }

  /** The listeners a log of notifications mentions. */
  function ListenersOf<L>(log: seq<Notification<L>>): set<L>
    decreases |log|
  {
    if log == [] then {} else ListenersOf(log[..|log| - 1]) + {log[|log| - 1].listener}
  }

  /** The part of the hub's state the retry loop changes, apart from the reconnect job. */
  datatype LoopState = LoopState(retryDelay: int, running: bool, wake: bool, transportCloses: nat)

  /** The state after one iteration of the retry loop that starts running. */
  function Advance(s: LoopState, maxDelay: int, session: Session, interruption: Interruption): LoopState
  {
    var base := Backoff.BaseDelay(s.retryDelay, session.Opened?);
    LoopState(Backoff.NextDelay(base, maxDelay), s.running && !Stops(session, interruption), false,
              s.transportCloses + Closes(session, interruption))
  }

  /** The backoff wait of one iteration of the retry loop. */
  function WaitOf(s: LoopState, session: Session, jitter: real, interruption: Interruption): WaitRecord
  {
    var base := Backoff.BaseDelay(s.retryDelay, session.Opened?);
    WaitRecord(Backoff.JitteredDelay(base, jitter), s.wake || Wakes(session, interruption))
  }

  /** The loop state after the given attempts, starting from `s`. */
  function RunState(s: LoopState, maxDelay: int, attempts: seq<Attempt>): LoopState
    decreases |attempts|
  {
    if attempts == [] then s
    else
      var last := attempts[|attempts| - 1];
      Advance(RunState(s, maxDelay, attempts[..|attempts| - 1]), maxDelay, EffectiveSession(last), last.interruption)
  }

  /** The backoff waits of the given attempts, starting from `s`. */
  function Waits(s: LoopState, maxDelay: int, attempts: seq<Attempt>): (r: seq<WaitRecord>)
    ensures |r| == |attempts|
  {
    seq(|attempts|, k requires 0 <= k < |attempts| =>
      WaitOf(RunState(s, maxDelay, attempts[..k]), EffectiveSession(attempts[k]), attempts[k].jitter, attempts[k].interruption))
  }

  lemma OpenedFlagsPrefix(attempts: seq<Attempt>, n: nat)
    requires n <= |attempts|
    ensures OpenedFlags(attempts[..n]) == OpenedFlags(attempts)[..n]
  {
  }

  /** The retry delay after a run of attempts is the backoff arithmetic's final delay. */
  lemma {:induction false} RunRetryDelay(s: LoopState, maxDelay: int, attempts: seq<Attempt>)
    ensures RunState(s, maxDelay, attempts).retryDelay == Backoff.FinalDelay(s.retryDelay, maxDelay, OpenedFlags(attempts))
    decreases |attempts|
  {
    if attempts != [] {
      var n := |attempts| - 1;
      RunRetryDelay(s, maxDelay, attempts[..n]);
      OpenedFlagsPrefix(attempts, n);
    }
  }

  /**
   * Each wait is the scheduled base delay plus its jitter; for jitter in
   * [0, 0.5] it lies between the base delay and one and a half times it, and,
   * from a reachable delay, below three times the maximum.
   */
  lemma WaitDelays(s: LoopState, maxDelay: int, attempts: seq<Attempt>, k: nat)
    requires k < |attempts|
    ensures Waits(s, maxDelay, attempts)[k].delay
      == Backoff.JitteredDelay(Backoff.Schedule(s.retryDelay, maxDelay, OpenedFlags(attempts))[k], attempts[k].jitter)
    ensures Backoff.Reachable(s.retryDelay, maxDelay) && 0.0 <= attempts[k].jitter <= 0.5 ==>
      var base := Backoff.Schedule(s.retryDelay, maxDelay, OpenedFlags(attempts))[k];
      1.0 <= base as real <= Waits(s, maxDelay, attempts)[k].delay <= 1.5 * base as real
      && (maxDelay >= 1 ==> Waits(s, maxDelay, attempts)[k].delay < 3.0 * maxDelay as real)
  {
    RunRetryDelay(s, maxDelay, attempts[..k]);
    OpenedFlagsPrefix(attempts, k);
    Backoff.ScheduleAt(s.retryDelay, maxDelay, OpenedFlags(attempts), k);
    if Backoff.Reachable(s.retryDelay, maxDelay) {
      Backoff.ScheduleReachable(s.retryDelay, maxDelay, OpenedFlags(attempts), k);
      Backoff.ReachableBounds(Backoff.Schedule(s.retryDelay, maxDelay, OpenedFlags(attempts))[k], maxDelay);
    }
  }

  /** The loop keeps running exactly as long as no attempt calls stop(). */
  lemma {:induction false} RunRunning(s: LoopState, maxDelay: int, attempts: seq<Attempt>)
    ensures RunState(s, maxDelay, attempts).running == (s.running && forall k :: 0 <= k < |attempts| ==> !StopsIn(attempts[k]))
    decreases |attempts|
  {
    if attempts != [] {
      RunRunning(s, maxDelay, attempts[..|attempts| - 1]);
    }
  }

  /** Each watchdog firing and each stop() issues one transport close. */
  lemma {:induction false} RunCloses(s: LoopState, maxDelay: int, attempts: seq<Attempt>)
    ensures RunState(s, maxDelay, attempts).transportCloses == s.transportCloses + ClosesIn(attempts)
    decreases |attempts|
  {
    if attempts != [] {
      RunCloses(s, maxDelay, attempts[..|attempts| - 1]);
    }
  }

  /**
   * The wake-up event is one-shot: every wait clears it, so a wake-up set
   * before the loop shortens only the first wait, and every later wait is cut
   * short only by a wake_up() or stop() during that attempt.
   */
  lemma WakeIsOneShot(s: LoopState, maxDelay: int, attempts: seq<Attempt>)
    ensures attempts != [] ==> !RunState(s, maxDelay, attempts).wake
    ensures attempts != [] ==> Waits(s, maxDelay, attempts)[0].woken == (s.wake || WakesIn(attempts[0]))
    ensures forall k :: 0 < k < |attempts| ==> Waits(s, maxDelay, attempts)[k].woken == WakesIn(attempts[k])
  {
    forall k | 0 < k < |attempts|
      ensures Waits(s, maxDelay, attempts)[k].woken == WakesIn(attempts[k])
    {
      assert !RunState(s, maxDelay, attempts[..k]).wake;
    }
  }

  class ConnectionHub<L(==)> {
    const maxDelay: int
    const forcedReconnectInterval: int

    var hasClient: bool
    var running: bool
    var retryDelay: int
    var listeners: set<L>
    var wake: bool

    var reconnectFuture: Option<nat>
    var liveJobs: set<nat>
    var jobsStarted: nat
    var reconnectCancel: bool

    var watchersLaunched: nat
    var transportCloses: nat
    var notifications: seq<Notification<L>>
    var outbox: seq<Outgoing>

    /** The reconnect task slot holds a task that has not finished. */
    function JobPending(): bool
      reads this
    {
      reconnectFuture.Some? && reconnectFuture.value in liveJobs
    }

    /** The only task that can be running is the one in the slot. */
    ghost predicate SlotValid()
      reads this
    {
      liveJobs == {} || (reconnectFuture.Some? && liveJobs == {reconnectFuture.value})
    }

    ghost predicate Valid()
      reads this
      ensures Valid() ==> |liveJobs| <= 1 && (JobPending() <==> liveJobs != {})
    {
      Backoff.Reachable(retryDelay, maxDelay)
      && SlotValid()
      && (JobPending() ==> !reconnectCancel)
    }

    constructor (maxDelay: int := 256, forcedReconnectInterval: int := 86400)
      ensures Valid()
      ensures this.maxDelay == maxDelay && this.forcedReconnectInterval == forcedReconnectInterval
      ensures hasClient && !running && retryDelay == Backoff.InitialDelay && listeners == {} && !wake
      ensures reconnectFuture == None && liveJobs == {} && jobsStarted == 0 && !reconnectCancel
      ensures watchersLaunched == 0 && transportCloses == 0 && notifications == [] && outbox == []
    {
      this.maxDelay := maxDelay;
      this.forcedReconnectInterval := forcedReconnectInterval;
      retryDelay := Backoff.InitialDelay;
      listeners := {};
      running := false;
      wake := false;
      reconnectFuture := None;
      liveJobs := {};
      jobsStarted := 0;
      reconnectCancel := false;
      watchersLaunched := 0;
      transportCloses := 0;
      notifications := [];
      outbox := [];
      hasClient := true;
    }

    /** Whether the channel is up: false when there is no client, else the transport's state. */
    function Connected(transportConnected: bool): (r: bool)
      reads this
      ensures r ==> hasClient
      ensures hasClient ==> r == transportConnected
    {
      if hasClient then transportConnected else false
    }

    method AddListener(listener: L)
      modifies this`listeners
      ensures listeners == if running then old(listeners) else old(listeners) + {listener}
    {
      if running {
        return;
      }
      listeners := listeners + {listener};
    }

    /** Removing a listener that is not registered raises KeyError, unless the hub is running. */
    method RemoveListener(listener: L) returns (raised: Option<Error>)
      modifies this`listeners
      ensures listeners == if running then old(listeners) else old(listeners) - {listener}
      ensures raised == if !running && listener !in old(listeners) then Some(KeyError) else None
    {
      raised := None;
      if running {
        return;
      }
      if listener !in listeners {
        raised := Some(KeyError);
        return;
      }
      listeners := listeners - {listener};
    }

    /** Awaits every registered listener once, in some order, with `value`. */
    method NotifyListeners(value: bool)
      modifies this`notifications
      ensures |notifications| == |old(notifications)| + |listeners|
      ensures notifications[..|old(notifications)|] == old(notifications)
      ensures forall k :: |old(notifications)| <= k < |notifications| ==> notifications[k].connected == value
      ensures ListenersOf(notifications[|old(notifications)|..]) == listeners
    {
      var remaining := listeners;
      ghost var added: seq<Notification<L>> := [];
      while remaining != {}
        invariant remaining <= listeners
        invariant notifications == old(notifications) + added
        invariant |added| == |listeners - remaining|
        invariant forall k :: 0 <= k < |added| ==> added[k].connected == value
        invariant ListenersOf(added) == listeners - remaining
        decreases |remaining|
      {
        var listener :| listener in remaining;
        var notification := Notification(listener, value);
        notifications := notifications + [notification];
        assert (added + [notification])[..|added|] == added;
        assert listeners - (remaining - {listener}) == (listeners - remaining) + {listener};
        added := added + [notification];
        remaining := remaining - {listener};
      }
      assert notifications[|old(notifications)|..] == added;
    }

    /** The handler of the connectivity event: notifies every listener of the reported status. */
    method NotifyControllerConnection(args: seq<Json>) returns (raised: Option<Error>)
      modifies this`notifications
      ensures raised == if args == [] then Some(IndexError) else None
      ensures args == [] ==> notifications == old(notifications)
      ensures args != [] ==>
        |notifications| == |old(notifications)| + |listeners|
        && notifications[..|old(notifications)|] == old(notifications)
        && ListenersOf(notifications[|old(notifications)|..]) == listeners
        && forall k :: |old(notifications)| <= k < |notifications| ==>
             notifications[k].connected == (args[0] == JString(ControllerConnectedStatus))
    {
      match ControllerConnectivity(args)
      case Err(e) =>
        raised := Some(e);
      case Ok(connected) =>
        raised := None;
        NotifyListeners(connected);
    }

    method Start()
      modifies this`running, this`watchersLaunched
      ensures running
      ensures watchersLaunched == if old(running) then old(watchersLaunched) else old(watchersLaunched) + 1
    {
      if running {
        return;
      }
      running := true;
      watchersLaunched := watchersLaunched + 1;
    }

    method WakeUp()
      modifies this`wake
      ensures wake
    {
      wake := true;
    }

    /** Stops retrying, wakes the retry loop and closes the connection; a no-op when not running. */
    method Stop()
      requires Valid()
      modifies this`running, this`wake, this`reconnectCancel, this`liveJobs, this`transportCloses
      ensures Valid() && !running
      ensures old(running) ==> wake && !JobPending() && liveJobs == {}
      ensures old(running) ==> reconnectCancel == (old(reconnectCancel) || old(JobPending()))
      ensures old(running) ==> transportCloses == old(transportCloses) + 1
      ensures !old(running) ==>
        wake == old(wake) && reconnectCancel == old(reconnectCancel)
        && liveJobs == old(liveJobs) && transportCloses == old(transportCloses)
    {
      if !running {
        return;
      }
      running := false;
      WakeUp();
      CloseConnection();
    }

    /** Cancels the forced-reconnect job, then closes the websocket. */
    method CloseConnection()
      requires Valid()
      modifies this`reconnectCancel, this`liveJobs, this`transportCloses
      ensures Valid() && !JobPending() && liveJobs == {}
      ensures reconnectCancel == (old(reconnectCancel) || old(JobPending()))
      ensures transportCloses == old(transportCloses) + 1
    {
      CancelReconnectJob();
      transportCloses := transportCloses + 1;
    }

    /** The open callback: resets the backoff and starts the forced-reconnect job. */
    method OnOpen()
      requires Valid()
      modifies this`retryDelay, this`reconnectCancel, this`reconnectFuture, this`liveJobs, this`jobsStarted
      ensures Valid() && JobPending()
      ensures retryDelay == Backoff.InitialDelay
      ensures old(JobPending()) ==>
        reconnectFuture == old(reconnectFuture) && liveJobs == old(liveJobs)
        && jobsStarted == old(jobsStarted) && reconnectCancel == old(reconnectCancel)
      ensures !old(JobPending()) ==>
        reconnectFuture == Some(old(jobsStarted)) && liveJobs == {old(jobsStarted)}
        && jobsStarted == old(jobsStarted) + 1 && !reconnectCancel
    {
      retryDelay := Backoff.InitialDelay;
      StartReconnectJob();
    }

    /** The close callback: cancels the forced-reconnect job. */
    method OnClose()
      requires Valid()
      modifies this`reconnectCancel, this`liveJobs, this`transportCloses
      ensures Valid() && !JobPending() && liveJobs == {}
      ensures reconnectCancel == (old(reconnectCancel) || old(JobPending()))
      ensures transportCloses == old(transportCloses)
    {
      CancelReconnectJob();
    }

    /** Starts a forced-reconnect job unless one is still running. */
    method StartReconnectJob()
      requires Valid()
      modifies this`reconnectCancel, this`reconnectFuture, this`liveJobs, this`jobsStarted
      ensures Valid() && JobPending()
      ensures old(JobPending()) ==>
        reconnectFuture == old(reconnectFuture) && liveJobs == old(liveJobs)
        && jobsStarted == old(jobsStarted) && reconnectCancel == old(reconnectCancel)
      ensures !old(JobPending()) ==>
        reconnectFuture == Some(old(jobsStarted)) && liveJobs == {old(jobsStarted)}
        && jobsStarted == old(jobsStarted) + 1 && !reconnectCancel
    {
      if JobPending() {
        return;
      }
      reconnectCancel := false;
      reconnectFuture := Some(jobsStarted);
      liveJobs := liveJobs + {jobsStarted};
      jobsStarted := jobsStarted + 1;
    }

    /**
     * Cancels the running forced-reconnect job, if any, and returns only once it
     * has finished; the job sees the cancel flag and does not close the transport.
     */
    method CancelReconnectJob()
      requires Valid()
      modifies this`reconnectCancel, this`liveJobs, this`transportCloses
      ensures Valid() && !JobPending() && liveJobs == {}
      ensures reconnectCancel == (old(reconnectCancel) || old(JobPending()))
      ensures transportCloses == old(transportCloses)
    {
      if !JobPending() {
        return;
      }
      reconnectCancel := true;
      ReconnectJob();
    }

    /**
     * The forced-reconnect job resumes after its wait on the cancel flag: it
     * finishes without side effects if the flag was set, and otherwise (the
     * interval elapsed) closes the websocket to force a reconnection.
     */
    method ReconnectJob()
      requires SlotValid() && JobPending()
      modifies this`liveJobs, this`transportCloses
      ensures SlotValid() && liveJobs == {} && !JobPending()
      ensures transportCloses == old(transportCloses) + if reconnectCancel then 0 else 1
    {
      liveJobs := liveJobs - {reconnectFuture.value};
      if reconnectCancel {
        return;
      }
      transportCloses := transportCloses + 1;
    }

    /** Wraps the value in an envelope with a fresh nonce and hands it to the client. */
    method SendSerializedData(event: string, nonce: string, value: Json := JNull)
      modifies this`outbox
      ensures outbox == old(outbox) + [Outgoing(event, [SerializedData(nonce, value)])]
    {
      var serializedResult := SerializedData(nonce, value);
      outbox := outbox + [Outgoing(event, [serializedResult])];
    }

    /** The part of the state the retry loop changes, apart from the reconnect job. */
    function Snapshot(): LoopState
      reads this
    {
      LoopState(retryDelay, running, wake, transportCloses)
    }

    /**
     * Runs the client until the connection ends, with the open and close
     * callbacks it fires: an attempt that opens resets the backoff and starts the
     * forced-reconnect job, and its close cancels that job.
     */
    method RunSession(session: Session)
      requires Valid() && running
      modifies this`retryDelay, this`running, this`wake, this`reconnectCancel, this`reconnectFuture,
        this`liveJobs, this`jobsStarted, this`transportCloses
      ensures Valid()
      ensures retryDelay == Backoff.BaseDelay(old(retryDelay), session.Opened?)
      ensures running == (session != Opened(Stopped))
      ensures wake == (old(wake) || session == Opened(Stopped))
      ensures transportCloses == old(transportCloses) + (if session.Opened? && session.end != PeerClosed then 1 else 0)
      ensures session == Failed ==>
        reconnectFuture == old(reconnectFuture) && liveJobs == old(liveJobs)
        && reconnectCancel == old(reconnectCancel) && jobsStarted == old(jobsStarted)
      ensures session.Opened? ==> !JobPending()
    {
      match session {
        case Failed =>
        case Opened(end) =>
          OnOpen();
          match end {
            case PeerClosed =>
            case WatchdogClosed =>
              ReconnectJob();
            case Stopped =>
              Stop();
          }
          OnClose();
      }
    }

    /**
     * One iteration of the retry loop after the token refresh: run the client,
     * wait the jittered delay (cut short by the wake-up event, which is then
     * cleared) and double the delay while it is below the maximum.
     */
    method RetryIteration(session: Session, jitter: real, interruption: Interruption) returns (w: WaitRecord)
      requires Valid() && running
      modifies this`retryDelay, this`running, this`wake, this`reconnectCancel, this`reconnectFuture,
        this`liveJobs, this`jobsStarted, this`transportCloses
      ensures Valid()
      ensures Snapshot() == Advance(old(Snapshot()), maxDelay, session, interruption)
      ensures w == WaitOf(old(Snapshot()), session, jitter, interruption)
      ensures KeepsJob(session, interruption) ==>
        reconnectFuture == old(reconnectFuture) && liveJobs == old(liveJobs)
        && reconnectCancel == old(reconnectCancel) && jobsStarted == old(jobsStarted)
      ensures !KeepsJob(session, interruption) ==> !JobPending()
    {
      RunSession(session);

      var jittered := Backoff.JitteredDelay(retryDelay, jitter);
      match interruption {
        case Quiet =>
        case WokenUp =>
          WakeUp();
        case StopRequested =>
          Stop();
      }
      w := WaitRecord(jittered, wake);
      wake := false;

      Backoff.NextDelayKeepsReachable(retryDelay, maxDelay);
      if retryDelay < maxDelay {
        retryDelay := retryDelay * 2;
      }
    }

    /**
     * The retry loop as written: while running, refresh the token and run one
     * iteration. A token refresh that raises ends the loop with the exception
     * (`raised`), leaving the hub marked as running.
     */
    method ConnectionWatcher(attempts: seq<Attempt>) returns (waits: seq<WaitRecord>, raised: bool)
      requires Valid()
      modifies this`retryDelay, this`running, this`wake, this`reconnectCancel, this`reconnectFuture,
        this`liveJobs, this`jobsStarted, this`transportCloses
      ensures Valid()
      ensures |waits| <= |attempts|
      ensures Snapshot() == RunState(old(Snapshot()), maxDelay, attempts[..|waits|])
      ensures waits == Waits(old(Snapshot()), maxDelay, attempts)[..|waits|]
      ensures forall k :: 0 <= k < |waits| ==> !attempts[k].refreshFails
      ensures raised ==> |waits| < |attempts| && attempts[|waits|].refreshFails && running
      ensures !raised ==> !running || |waits| == |attempts|
      ensures !old(running) ==> waits == [] && !raised
      ensures JobPending() <==> old(JobPending()) && forall k :: 0 <= k < |waits| ==> KeepsJobIn(attempts[k])
      ensures (forall k :: 0 <= k < |waits| ==> KeepsJobIn(attempts[k])) ==>
        reconnectFuture == old(reconnectFuture) && liveJobs == old(liveJobs)
        && reconnectCancel == old(reconnectCancel) && jobsStarted == old(jobsStarted)
    {
      waits, raised := [], false;
      ghost var s0 := Snapshot();
      var i := 0;
      while running && i < |attempts|
        invariant 0 <= i <= |attempts| && |waits| == i
        invariant i > 0 ==> old(running)
        invariant Valid()
        invariant forall k :: 0 <= k < i ==> !attempts[k].refreshFails
        invariant Snapshot() == RunState(s0, maxDelay, attempts[..i])
        invariant forall k :: 0 <= k < i ==> waits[k] == Waits(s0, maxDelay, attempts)[k]
        invariant JobPending() <==> old(JobPending()) && forall k :: 0 <= k < i ==> KeepsJobIn(attempts[k])
        invariant (forall k :: 0 <= k < i ==> KeepsJobIn(attempts[k])) ==>
          reconnectFuture == old(reconnectFuture) && liveJobs == old(liveJobs)
          && reconnectCancel == old(reconnectCancel) && jobsStarted == old(jobsStarted)
        decreases |attempts| - i
      {
        var a := attempts[i];
        if a.refreshFails {
          raised := true;
          return;
        }
        var w := RetryIteration(a.session, a.jitter, a.interruption);
        assert attempts[..i + 1][..i] == attempts[..i];
        waits := waits + [w];
        i := i + 1;
      }
    }

    /**
     * The retry loop as the design intends it: a token refresh that raises is
     * handled like a failed connection, so the loop ends only when the hub is
     * stopped (or the environment plays no further attempts).
     */
    method ConnectionWatcherIntended(attempts: seq<Attempt>) returns (waits: seq<WaitRecord>)
      requires Valid()
      modifies this`retryDelay, this`running, this`wake, this`reconnectCancel, this`reconnectFuture,
        this`liveJobs, this`jobsStarted, this`transportCloses
      ensures Valid()
      ensures |waits| <= |attempts|
      ensures Snapshot() == RunState(old(Snapshot()), maxDelay, attempts[..|waits|])
      ensures waits == Waits(old(Snapshot()), maxDelay, attempts)[..|waits|]
      ensures !running || |waits| == |attempts|
      ensures !old(running) ==> waits == []
      ensures JobPending() <==> old(JobPending()) && forall k :: 0 <= k < |waits| ==> KeepsJobIn(attempts[k])
      ensures (forall k :: 0 <= k < |waits| ==> KeepsJobIn(attempts[k])) ==>
        reconnectFuture == old(reconnectFuture) && liveJobs == old(liveJobs)
        && reconnectCancel == old(reconnectCancel) && jobsStarted == old(jobsStarted)
    {
      waits := [];
      ghost var s0 := Snapshot();
      var i := 0;
      while running && i < |attempts|
        invariant 0 <= i <= |attempts| && |waits| == i
        invariant i > 0 ==> old(running)
        invariant Valid()
        invariant Snapshot() == RunState(s0, maxDelay, attempts[..i])
        invariant forall k :: 0 <= k < i ==> waits[k] == Waits(s0, maxDelay, attempts)[k]
        invariant JobPending() <==> old(JobPending()) && forall k :: 0 <= k < i ==> KeepsJobIn(attempts[k])
        invariant (forall k :: 0 <= k < i ==> KeepsJobIn(attempts[k])) ==>
          reconnectFuture == old(reconnectFuture) && liveJobs == old(liveJobs)
          && reconnectCancel == old(reconnectCancel) && jobsStarted == old(jobsStarted)
        decreases |attempts| - i
      {
        var a := attempts[i];
        var w := RetryIteration(EffectiveSession(a), a.jitter, a.interruption);
        assert attempts[..i + 1][..i] == attempts[..i];
        waits := waits + [w];
        i := i + 1;
      }
    }
  }
}
