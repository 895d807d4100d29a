/**
 * Clients of the connection hub that play short scenarios and state what the
 * hub's specifications let a caller conclude about them.
 */
module HubScenarios {
  import opened Wrappers
  import opened Messages
  import opened Hub

  /** start and stop are idempotent, and the hub can be started again after a stop. */
  method RestartAfterStop() returns (hub: ConnectionHub<nat>)
    ensures hub.Valid() && hub.running
    ensures hub.watchersLaunched == 2 && hub.transportCloses == 1
    ensures hub.wake
  {
    hub := new ConnectionHub<nat>();
    hub.Start();
    hub.Start();
    hub.Stop();
    hub.Stop();
    hub.Start();
  }

  /** Listener changes are ignored while running; removing an absent listener raises once stopped. */
  method ListenersFrozenWhileRunning() returns (hub: ConnectionHub<nat>, raised: Option<Error>)
    ensures hub.listeners == {1, 2}
    ensures raised == Some(KeyError)
  {
    hub := new ConnectionHub<nat>();
    hub.AddListener(1);
    hub.AddListener(2);
    hub.Start();
    hub.AddListener(3);
    var ignored := hub.RemoveListener(1);
    hub.Stop();
    raised := hub.RemoveListener(5);
  }

  /** stop() while the forced-reconnect job waits cancels it: the only close is the one stop() issues. */
  method StopCancelsWatchdog() returns (hub: ConnectionHub<nat>)
    ensures hub.Valid() && !hub.running && !hub.JobPending()
    ensures hub.transportCloses == 1 && hub.reconnectCancel
  {
    hub := new ConnectionHub<nat>();
    hub.Start();
    hub.OnOpen();
    hub.Stop();
  }

  /** An uncancelled forced-reconnect job closes the transport exactly once. */
  method WatchdogClosesOnce() returns (hub: ConnectionHub<nat>)
    ensures hub.Valid() && !hub.JobPending()
    ensures hub.transportCloses == 1 && hub.jobsStarted == 1
  {
    hub := new ConnectionHub<nat>();
    hub.Start();
    hub.OnOpen();
    hub.OnOpen();
    hub.ReconnectJob();
    hub.OnClose();
  }

  /** A token refresh that raises ends the retry loop as written, and the hub cannot be restarted. */
  method RefreshFailureStrandsHub() returns (hub: ConnectionHub<nat>, raised: bool)
    ensures raised && hub.running && hub.watchersLaunched == 1
  {
    hub := new ConnectionHub<nat>();
    hub.Start();
    var waits;
    waits, raised := hub.ConnectionWatcher([Attempt(true, Failed, 0.0, Quiet), Attempt(false, Failed, 0.0, Quiet)]);
    hub.Start();
  }

  /** The intended loop retries after the failed refresh and runs until stopped. */
  method RefreshFailureRetried() returns (hub: ConnectionHub<nat>, waits: seq<WaitRecord>)
    ensures !hub.running && |waits| == 2
  {
    hub := new ConnectionHub<nat>();
    hub.Start();
    var script := [Attempt(true, Failed, 0.0, Quiet), Attempt(false, Failed, 0.0, StopRequested)];
    ghost var s0 := hub.Snapshot();
    waits := hub.ConnectionWatcherIntended(script);
    RunRunning(s0, hub.maxDelay, script[..|waits|]);
  }

  /** The two request shapes of the feature services: a set with a value and a get without one. */
  method PushAndPull(hub: ConnectionHub<nat>, nonce1: string, nonce2: string)
    modifies hub`outbox
    ensures |hub.outbox| == |old(hub.outbox)| + 2
    ensures var put := hub.outbox[|hub.outbox| - 2];
      put.event == "SetFirmwareUpdate" && |put.args| == 1 &&
      RequestNonce(put.args[0]) == Some(nonce1) && Payload(put.args[0]) == JInt(0)
    ensures var get := hub.outbox[|hub.outbox| - 1];
      get.event == "GetFirmwareUpdate" && |get.args| == 1 &&
      RequestNonce(get.args[0]) == Some(nonce2) && get.args[0].JObject? && ValueKey !in get.args[0].fields
  {
    hub.SendSerializedData("SetFirmwareUpdate", nonce1, JInt(0));
    hub.SendSerializedData("GetFirmwareUpdate", nonce2);
  }
}
