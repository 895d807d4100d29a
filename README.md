# ConnectionHub model

This project models the connection supervisor of the pysmarlaapi client, `ConnectionHub`. The supervisor owns the one SignalR channel between the app and the remote hub. It is started and stopped by its owner, and it keeps reconnecting with randomised exponential backoff while it runs. After every open it runs a forced-reconnect watchdog that closes the websocket once a day. It fans the remote "controller connected" status out to registered listeners, and it wraps every outgoing request in a nonce envelope.

The model is a Dafny class, `Hub.ConnectionHub`, with one field per piece of supervisor state:

- `running`, `retryDelay` and `listeners`.
- `wake` stands for the wake-up event.
- `reconnectCancel` stands for the cancel event.
- `reconnectFuture` and `liveJobs` stand for the watchdog task slot and the tasks that have not finished.
- `transportCloses` counts websocket close requests.
- `notifications` logs each awaited listener call.
- `outbox` logs each request handed to the client.

Each asynchronous step runs as one atomic method call.

`ConnectionWatcher` is the retry loop. It runs as a `while running` loop over a sequence of `Attempt`s. An attempt is what the environment plays in one iteration:

- whether the token refresh raises
- how the client run ends:
  - it fails
  - the peer closes
  - the watchdog fires
  - `stop()` is called while connected
- the jitter fraction drawn
- whether `wake_up()` or `stop()` is called during the backoff wait

The loop is proved against pure specification functions. `Advance`, `RunState` and `Waits` give the state and the backoff waits after any prefix of attempts. The backoff arithmetic is connected to closed forms in module `Backoff`.

Modules:

- `Wrappers`: `Option` and `Result`
- `Backoff`: the delay arithmetic and its lemmas
- `Messages`: JSON values, the request envelope and the connectivity mapping
- `Hub`: the hub class and the retry-loop specification
- `HubScenarios`: short client scenarios

### Code and design

- The design describes the delay as doubling "up to `max_delay`". The code only stops doubling once the delay is no longer below `max_delay`, and never clamps it (`connection_hub/__init__.py:132-133`). The delay therefore settles at the least power of two that is at least `max_delay`, and that power can exceed it: 8 for a maximum of 5 (`Backoff.DelayIsNotClamped`). The model follows the code. The bound it proves is "below `2·max_delay`", so every wait stays below `3·max_delay`. The design's "capped at `max_delay·1.5`" holds only when `max_delay` is a power of two, as the default 256 is.
- The design says a failing listener must not stop the remaining listeners from being notified. The code awaits the listeners one after another and does not catch (`connection_hub/__init__.py:88-90`). In the model, listeners never raise.

## Model

| member | source | states |
|---|---|---|
| Hub.ConnectionHub.constructor | pysmarlaapi/connection_hub/__init__.py:37-62 | defaults are a maximum delay of 256 and a watchdog interval of 86400; the hub starts not running, with retry delay 1, no listeners, wake clear, no watchdog task, cancel flag clear, and empty logs |
| Hub.ConnectionHub.Connected | pysmarlaapi/connection_hub/__init__.py:34-35 | without a client the hub is never connected; with one it reports the transport's state |
| Hub.ConnectionHub.AddListener | pysmarlaapi/connection_hub/__init__.py:78-81 | while running the set is unchanged; otherwise exactly the listener is added |
| Hub.ConnectionHub.RemoveListener | pysmarlaapi/connection_hub/__init__.py:83-86 | while running the set is unchanged and nothing is raised; otherwise exactly the listener is removed; KeyError is raised exactly when it is absent |
| Hub.ConnectionHub.NotifyListeners | pysmarlaapi/connection_hub/__init__.py:88-90 | appends one call per registered listener, covering every listener, each with the given value, after the unchanged earlier log |
| Hub.ConnectionHub.NotifyControllerConnection | pysmarlaapi/connection_hub/__init__.py:64-69 | with no arguments it raises IndexError and notifies nobody; otherwise it notifies every listener with true exactly when the first argument is "ControllerConnected" |
| Messages.ControllerConnectivity | pysmarlaapi/connection_hub/__init__.py:64-66 | an error exactly for empty arguments, and that error is IndexError; true exactly when the first argument is the "ControllerConnected" string |
| Hub.ConnectionHub.Start | pysmarlaapi/connection_hub/__init__.py:104-108 | always leaves the hub running; launches a new retry loop exactly when it was not already running |
| Hub.ConnectionHub.WakeUp | pysmarlaapi/connection_hub/__init__.py:135-136 | sets the wake-up event |
| Hub.ConnectionHub.Stop | pysmarlaapi/connection_hub/__init__.py:110-115 | always leaves the hub not running. When it was running, it also sets wake, cancels the watchdog, setting the cancel flag exactly when a watchdog was pending, and issues one close. When it was not running, nothing changes. The invariant is kept |
| Hub.ConnectionHub.CloseConnection | pysmarlaapi/connection_hub/__init__.py:138-140 | cancels the watchdog first, leaving no task pending, then issues exactly one close |
| Hub.ConnectionHub.OnOpen | pysmarlaapi/connection_hub/__init__.py:92-95 | resets the retry delay to 1 and leaves exactly one watchdog pending; it starts a new one, with the cancel flag cleared, only when none was pending |
| Hub.ConnectionHub.OnClose | pysmarlaapi/connection_hub/__init__.py:97-99 | cancels the watchdog: nothing is pending afterwards, the cancel flag is set exactly when one was pending, and no close is issued |
| Hub.ConnectionHub.StartReconnectJob | pysmarlaapi/connection_hub/__init__.py:142-147 | a no-op while a watchdog is pending; otherwise clears the cancel flag and creates exactly one new pending task in the slot; at most one task is ever unfinished |
| Hub.ConnectionHub.CancelReconnectJob | pysmarlaapi/connection_hub/__init__.py:149-154 | a no-op when nothing is pending; otherwise sets the cancel flag and returns only once the task has finished; never closes the transport |
| Hub.ConnectionHub.ReconnectJob | pysmarlaapi/connection_hub/__init__.py:156-163 | the task finishes and leaves the slot; it closes the transport exactly when the cancel flag is not set |
| Hub.ConnectionHub.SendSerializedData | pysmarlaapi/connection_hub/__init__.py:170-181 | hands exactly one request to the client: the event and a one-element argument list holding the envelope |
| Messages.SerializedData | pysmarlaapi/connection_hub/__init__.py:171-177 | the envelope is an object whose call identifier carries the nonce; it has a value key exactly when a value is given, and that key holds the value |
| Messages.EnvelopeRoundTrip | pysmarlaapi/connection_hub/__init__.py:171-177 | the nonce and the value can be read back from the envelope |
| Messages.EnvelopeInjective | pysmarlaapi/connection_hub/__init__.py:171-177 | envelopes that are equal come from the same nonce and value |
| Hub.ConnectionHub.RunSession | pysmarlaapi/connection_hub/__init__.py:92-99 | a client run that opens resets the delay through the open callback and leaves no watchdog pending once its close callback has run. A run ended by the watchdog or by stop() issues one close; a run ended by the peer issues none. Only stop() clears running. A failed run leaves the watchdog slot, the unfinished tasks, the cancel flag and the task count as they were |
| Hub.ConnectionHub.RetryIteration | pysmarlaapi/connection_hub/__init__.py:120-133 | one loop body after the refresh moves the hub to the `Advance` state and waits the `WaitOf` delay: the jittered delay from the post-run retry delay, ended by a wake-up exactly when one was set; the wake-up is then cleared and the delay doubled while below the maximum. A failed run with no stop() during the wait leaves the watchdog untouched; otherwise no watchdog is pending afterwards |
| Hub.ConnectionHub.ConnectionWatcher | pysmarlaapi/connection_hub/__init__.py:117-133 | the loop as written. After the iterations it completed, the state and every wait match `RunState` and `Waits`. A refresh that raises ends the loop with the hub still marked running. Otherwise the loop ends only when the hub is stopped or no attempts remain. A loop started on a stopped hub does nothing. A watchdog is pending at the end exactly when one was pending at the start and every completed attempt failed with no stop(); in that case the slot is untouched |
| Hub.ConnectionHub.ConnectionWatcherIntended | pysmarlaapi/connection_hub/__init__.py:117-133 | the loop with a failed refresh treated as a failed connection. State and waits match `RunState` and `Waits`, and the loop ends only when the hub is stopped or no attempts remain. A watchdog is pending at the end exactly when one was pending at the start and every completed attempt failed with no stop(); in that case the slot is untouched |
| Hub.OpenedFlagsPrefix | pysmarlaapi/connection_hub/__init__.py:118-133 | the open marks of a prefix of attempts are the prefix of the marks |
| Hub.RunRetryDelay | pysmarlaapi/connection_hub/__init__.py:92-133 | the retry delay after any run of attempts is `Backoff.FinalDelay` of the open marks |
| Hub.WaitDelays | pysmarlaapi/connection_hub/__init__.py:126-128 | every wait is the scheduled delay plus its jitter. For jitter in [0, 0.5] it lies between the delay and 1.5 times it, and below 3 times the maximum |
| Hub.RunRunning | pysmarlaapi/connection_hub/__init__.py:110-118 | the loop is still running after a run of attempts exactly when it was and no attempt called stop() |
| Hub.RunCloses | pysmarlaapi/connection_hub/__init__.py:110-163 | the closes issued during a run are one per watchdog firing plus one per stop() |
| Hub.WakeIsOneShot | pysmarlaapi/connection_hub/__init__.py:128-129 | the wake-up event is clear after every wait. A wake-up set before the loop shortens only the first wait, and each later wait is cut short only by a wake_up() or stop() during its own attempt |
| Backoff.Log2 | pysmarlaapi/connection_hub/__init__.py:132-133 | every power of two is 2 to the power of its logarithm |
| Backoff.CeilLog2 | pysmarlaapi/connection_hub/__init__.py:132-133 | the least exponent whose power of two is at least the maximum |
| Backoff.NextDelayKeepsReachable | pysmarlaapi/connection_hub/__init__.py:132-133 | one doubling step keeps a reachable delay reachable, at most doubles it, and changes it exactly when it is below the maximum |
| Backoff.ReachableBounds | pysmarlaapi/connection_hub/__init__.py:132-133 | a reachable delay is at least 1 and below twice a positive maximum; with a maximum of at most 1 it stays 1 |
| Backoff.FinalDelayReachable | pysmarlaapi/connection_hub/__init__.py:92-133 | from a reachable delay, any outcome sequence leaves a power of two that is 1 or below twice the maximum |
| Backoff.ScheduleReachable | pysmarlaapi/connection_hub/__init__.py:126-133 | every delay waited on is reachable, so below twice a positive maximum |
| Backoff.FinalDelayAppend | pysmarlaapi/connection_hub/__init__.py:118-133 | the delay after two runs of outcomes is the second run started from the delay the first one left |
| Backoff.ScheduleAt | pysmarlaapi/connection_hub/__init__.py:92-127 | the k-th wait uses the delay left by the first k outcomes, or 1 when the k-th attempt opened |
| Backoff.ScheduleAppend | pysmarlaapi/connection_hub/__init__.py:118-133 | the waits of two runs are the first run's waits followed by the second's, started from where the first left off |
| Backoff.OpenForgetsHistory | pysmarlaapi/connection_hub/__init__.py:93 | after a successful open, later delays no longer depend on anything before it |
| Backoff.Pow2Monotone | pysmarlaapi/connection_hub/__init__.py:132-133 | powers of two grow with the exponent |
| Backoff.ConsecutiveFailures | pysmarlaapi/connection_hub/__init__.py:118-133 | after n failures from the start, the delay is 2^min(n, the least exponent reaching the maximum) |
| Backoff.ConsecutiveFailureWaits | pysmarlaapi/connection_hub/__init__.py:126-133 | the k-th wait of a run of failures uses the delay 2^min(k, that exponent) |
| Backoff.ReachableIsReached | pysmarlaapi/connection_hub/__init__.py:118-133 | the reachability invariant exactly characterises the delays some run of failures produces |
| Backoff.DelayIsNotClamped | pysmarlaapi/connection_hub/__init__.py:132-133 | with a maximum of 5, three failures leave a delay of 8 |
| Backoff.FourthAttemptWaitWithMaximumFour | pysmarlaapi/connection_hub/__init__.py:126-133 | with a maximum of 4, three failures wait on delays 1, 2 and 4, so the wait after the third failure, before the fourth attempt, is between 4 and 6 |
| Backoff.OpenResetsBackoff | pysmarlaapi/connection_hub/__init__.py:92-133 | failing, failing, opening, failing gives waits based on 1, 2, 1, 2 |
| Backoff.JitteredDelay | pysmarlaapi/connection_hub/__init__.py:126-127 | for a non-negative delay and a fraction in [0, 0.5], the wait lies between the delay and 1.5 times it |
| Hub.ConnectionHub.Valid | pysmarlaapi/connection_hub/__init__.py:142-154 | a valid hub has at most one unfinished watchdog, and it is pending exactly when one is unfinished |
| HubScenarios.RestartAfterStop | pysmarlaapi/connection_hub/__init__.py:104-115 | start twice, stop twice, start: running, two loops launched, one close, wake still set |
| HubScenarios.ListenersFrozenWhileRunning | pysmarlaapi/connection_hub/__init__.py:78-86 | changes while running are ignored; removing an absent listener once stopped raises KeyError |
| HubScenarios.StopCancelsWatchdog | pysmarlaapi/connection_hub/__init__.py:110-163 | stop() while the watchdog waits cancels it, and the only close is stop()'s own |
| HubScenarios.WatchdogClosesOnce | pysmarlaapi/connection_hub/__init__.py:142-163 | a second open does not start a second watchdog, and the uncancelled watchdog closes once |
| HubScenarios.RefreshFailureStrandsHub | pysmarlaapi/connection_hub/__init__.py:104-123 | a failing first refresh ends the loop as written with the hub running, so a later start() launches no loop |
| HubScenarios.RefreshFailureRetried | pysmarlaapi/connection_hub/__init__.py:117-133 | the intended loop goes on past the failed refresh until stop() |
| HubScenarios.PushAndPull | pysmarlaapi/connection_hub/__init__.py:170-181 | a request with value 0 carries its nonce and the value; a request without a value carries its nonce and no value key |

## Left out

- The SignalR client and websocket I/O: `setup`, `client.run()`, `client.send` and the websocket close are not modelled as network calls. Each client run is one `Session` outcome, each close adds 1 to `transportCloses` and each send adds an entry to `outbox`. The connected state is a parameter of `Connected`. `async_send_data`'s swallowing of send errors is not modelled, because the outbox records requests rather than deliveries.
- asyncio scheduling: `run_coroutine_threadsafe`, `create_task`, the lock and the event waits are not modelled. Each step is serialised into one atomic method call. Races between threads and interleavings other than those an `Attempt` can describe are not captured. In particular, `stop()` runs `close_connection` inline, and `cancel_reconnect_job` runs the cancelled task to completion inline.
- Time and randomness: the jitter fraction is a parameter of each attempt, and the model proves the bounds for fractions in [0, 0.5]. Whether a wait or the watchdog's interval elapses or is cut short is an input. `forcedReconnectInterval` is stored but no clock is modelled. The `event_wait` helper is covered only through these outcomes.
- Nonce generation: `uuid.uuid4()` is a nonce string parameter. Uniqueness is not modelled.
- Token refresh: the `Connection` collaborator, `refresh_token` and the authorization header are not modelled. Only whether the refresh raises is part of an attempt.
- Logging, the logger setup and `on_error` (which only logs) are not modelled.
- Listener exceptions: a listener that raises would end `notify_listeners` early; the model's listeners always return.
- A client run that fails before opening fires no callbacks. Only the open, close and watchdog paths of a session are modelled.
- The feature services, the status enums and the device test script are not part of this model. They only forward to `send_serialized_data` or declare constants.
- Backoff.JitteredDelay: its bounds are stated only for a non-negative delay and a fraction in [0, 0.5], the range `random.uniform(0, 0.5)` draws from.

## Findings

| source | as written | input that shows it | evidently intended | confidence | as-written member | corrected member |
|---|---|---|---|---|---|---|
| pysmarlaapi/connection_hub/__init__.py:117-123 | `refresh_token()` is awaited outside the `try` that guards `client.run()`. A refresh that raises leaves `connection_watcher` by exception, while `_running` stays true. Every later `start()` then returns at once, so the hub never reconnects until `stop()` is called | a started hub whose first token refresh raises (`Attempt(true, Failed, 0.0, Quiet)`): the loop ends with the hub running, and a second `start()` launches no loop | a refresh failure is folded into the retry path like any failed connection attempt, and only `stop()` ends retrying | not executed; follows from the control flow of lines 118-123 | Hub.ConnectionHub.ConnectionWatcher, HubScenarios.RefreshFailureStrandsHub | Hub.ConnectionHub.ConnectionWatcherIntended, HubScenarios.RefreshFailureRetried |
