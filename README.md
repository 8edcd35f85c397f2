# tsp client: command queue and reconnection, in Dafny

This project models the sequential bookkeeping of the tsp client object
(`tsp_client::client`, `src/client/client.cpp`). The model has three parts:

- **The command queue and the reply dispatcher.** `send` transmits a request and
  queues it with its reply callback. Each reply pops the oldest entry and runs
  its callback. `clear_callbacks` drains the queue. `resend_failed_commands`
  transmits every pending request again, oldest first.
- **The reconnection state machine.** The disconnection handler is guarded by
  `reconnecting_`. It resets the attempt counter and runs
  `while (should_reconnect()) { sleep; reconnect(); }`. Afterwards it either
  gives up, draining the queue and reporting `stopped`, or keeps the resent
  queue.
- **The phase notifications.** Every step reports `start`, `ok`, `failed`,
  `dropped`, `sleeping` or `stopped` to the observer given to `connect`.

Three files:

- `client_spec.dfy` (module `ClientSpec`) holds the value-level specification.
  - `ClientState` is a snapshot of the client's fields, the transport's state
    and three observation logs:
    - `sent`: every payload handed to the transport;
    - `fired`: every callback executed, with its reply;
    - `phases`: every notification delivered.
  - The member functions of `client` that change state each have a function
    giving their effect on a snapshot. `send` and `unprotected_send` share
    `Send`, since `send` only adds the lock. The two pure queries,
    `is_connected` and `is_reconnecting`, read the snapshot directly.
  - `RetryLoop` is the retry loop. It recurses on the attempts still allowed.
- `client.dfy` (module `TspClient`) holds `class Client`.
  - It has the source's fields: connection parameters, `reconnecting`,
    `cancel`, `attempts`, `commands`, `callbacksRunning`, and the transport's
    `connected` flag and outcomes.
  - Each method updates these fields in place, consistent with its
    `modifies` clause.
  - Each state-changing method is proved to change `Model()` exactly as its
    `ClientSpec` function says. Usually the two share a name; the other pairs
    are:
    - `UnprotectedSend`: `Send`;
    - `ReceiveReply`: `Receive`;
    - `ResendFailedCommands`: `Resend`;
    - `SleepBeforeNextReconnectAttempt`: `Sleep`;
    - `ConnectWithPolicy`: `Connect`;
    - `RetryWhileDisconnected`: `RetryLoop`;
    - `HandleDisconnection`: `HandleDrop`.
  - `TransportConnect` and `SendPending` are stated on the fields they change
    instead.
  - The drain loop, the resend loop and the retry loop are `while` loops with
    invariants. The retry loop's variant is the budget it has left.
- `client_properties.dfy` (module `ClientProperties`) proves the properties
  over the specification:
  - FIFO dispatch, and N sends followed by N replies;
  - retransmission exactly once, in order;
  - attempt counting and the attempt bound;
  - what the handler leaves behind when it gives up or recovers;
  - the handler's exact notification trace;
  - that `cancel_` is one-way;
  - a worked scenario.

The transport is abstracted as a `connected` flag plus an oracle, the
sequence `outcomes`, which says what each future connect does:
- `Connects`: the link comes up;
- `Refuses`: connect returns false;
- `Throws`: connect raises.

An exhausted oracle refuses. The observer is reduced to whether one was
given; its notifications are logged without host and port. Callbacks are
opaque numbers, and running one appends `(id, reply)` to `fired`.

## Model

| member | source | states |
|---|---|---|
| ClientSpec.Send | src/client/client.cpp:99-102 | the command is appended at the back of the queue, earlier ones unchanged; the request is appended to the transmitted log |
| TspClient.Client.Send | src/client/client.cpp:89-97 | same effect as unprotected_send: queue and transmitted log each grow by exactly this command and this request |
| TspClient.Client.UnprotectedSend | src/client/client.cpp:99-102 | the fields change as `ClientSpec.Send` says: transmit, then push (request, callback) |
| ClientSpec.Receive | src/client/client.cpp:105-129 | on an empty queue nothing changes; otherwise the front command is popped and only its callback fires, with the reply; the in-flight counter ends where it started |
| TspClient.Client.ReceiveReply | src/client/client.cpp:105-129 | the counter is raised before and lowered after the callback; the fields end as `ClientSpec.Receive` says |
| ClientSpec.ClearCallbacks | src/client/client.cpp:131-157 | the queue ends empty and nothing else changes; in particular no drained callback runs |
| TspClient.Client.ClearCallbacks | src/client/client.cpp:131-157 | the drain loop raises the in-flight counter by the batch size and lowers it once per entry, so it ends at its prior value with the queue empty |
| ClientSpec.Resend | src/client/client.cpp:159-173 | the queue is the same afterwards, and exactly its requests are appended to the transmitted log, in order |
| ClientSpec.RequestsIndex | src/client/client.cpp:167-172 | the retransmitted payloads are the pending requests one for one, in place |
| ClientSpec.RequestsCons | src/client/client.cpp:167-172 | retransmission read front first: the oldest request goes out first, then the rest |
| TspClient.Client.ResendFailedCommands | src/client/client.cpp:159-173 | the queue is moved out and each entry re-sent through unprotected_send; afterwards the queue is unchanged and the log has gained each request exactly once, in order |
| TspClient.Client.SendPending | src/client/client.cpp:167-172 | the resend loop: the queue gains the batch at its back and the log gains its requests in order |
| ClientProperties.SendAllAppends | src/client/client.cpp:99-102 | a run of sends appends exactly its commands to the queue and its requests to the log |
| ClientProperties.FifoDispatch | src/client/client.cpp:113-116 | k replies pop exactly the first k commands and fire their callbacks, matched in order |
| ClientProperties.UnmatchedRepliesIgnored | src/client/client.cpp:113-122 | replies arriving on an empty queue change nothing and run no callback |
| ClientProperties.InvocationsInSendOrder | src/client/client.cpp:113-122 | with every command carrying a callback, the k-th execution is the k-th command's callback with the k-th reply |
| ClientProperties.SendsThenReplies | src/client/client.cpp:99-102 | N sends on an empty queue then N replies: each request sent once, each callback fired once in send order, the queue left empty |
| ClientSpec.Notify | src/client/client.cpp:42-44 | a notification is logged exactly when an observer was given |
| TspClient.Client.Notify | src/client/client.cpp:42-44 | the phase log changes as `ClientSpec.Notify` says |
| TspClient.Client.TransportConnect | src/client/client.cpp:49 | the transport's connect consumes one oracle outcome, and the link is up exactly when it was a success |
| TspClient.Client.Connect | src/client/client.cpp:26-62 | connect stores host, port, observer, bound and interval, then behaves as `ClientSpec.Connect`; `raised` is true exactly when the transport threw |
| TspClient.Client.ConnectWithPolicy | src/client/client.cpp:41-61 | start is reported, then the transport is run, then ok or failed unless it threw, as `ClientSpec.Connect` states |
| ClientSpec.Connect | src/client/client.cpp:41-61 | connect changes only the link, the oracle and the phase log; the queue, the counters, the flags and the logs of sends and callbacks are untouched (its trace is stated by ConnectReports, the class method is proved against it) |
| ClientProperties.ConnectReports | src/client/client.cpp:41-61 | connect reports start first, then exactly one of ok (connected) or failed (refused), and nothing after start when the transport threw |
| ClientSpec.Disconnect | src/client/client.cpp:64-75 | the link is closed and the queue drained |
| TspClient.Client.Disconnect | src/client/client.cpp:64-75 | the transport is closed and then clear_callbacks runs, as `ClientSpec.Disconnect` says |
| ClientSpec.CancelReconnect | src/client/client.cpp:81-83 | cancel_ becomes true and nothing else changes |
| TspClient.Client.CancelReconnect | src/client/client.cpp:81-83 | the flag is set |
| TspClient.Client.IsReconnecting | src/client/client.cpp:85-87 | returns reconnecting_ |
| TspClient.Client.IsConnected | src/client/client.cpp:77-79 | returns the transport's state |
| TspClient.Client.ShouldReconnect | src/client/client.cpp:224-227 | true iff not connected, not cancelled, and either unbounded (-1) or the attempts are below the bound |
| ClientSpec.Sleep | src/client/client.cpp:212-222 | sleeping is notified only when an interval is configured; nothing else changes |
| TspClient.Client.SleepBeforeNextReconnectAttempt | src/client/client.cpp:212-222 | the phase log changes as `ClientSpec.Sleep` says |
| TspClient.Client.Reconnect | src/client/client.cpp:250-278 | the attempt counter grows by exactly one; connect's exception is swallowed; failed or ok is reported; only on success is the queue resent; the fields end as `ClientSpec.Reconnect` says |
| ClientSpec.Reconnect | src/client/client.cpp:250-278 | reconnect leaves reconnecting_, cancel_, the queue, the executed callbacks and the in-flight counter alone (its counting and reports are stated by ReconnectReports) |
| ClientProperties.ReconnectReports | src/client/client.cpp:262-272 | every reconnect counts one attempt, and its last report is ok exactly when the link is up, otherwise failed, even when connect threw |
| ClientSpec.Attempt | src/client/client.cpp:194-197 | one loop round leaves reconnecting_, cancel_, the queue, the executed callbacks and the in-flight counter alone; it equals sleep then reconnect by AttemptIsSleepThenReconnect |
| ClientSpec.AttemptIsSleepThenReconnect | src/client/client.cpp:194-197 | one loop round, sleep then reconnect, equals its field-by-field summary `Attempt` |
| ClientSpec.AttemptProgress | src/client/client.cpp:194-197 | a round of the loop uses up budget (bound minus attempts, or remaining oracle) and keeps the loop terminating |
| ClientSpec.BeginReconnect | src/client/client.cpp:181-189 | entering the handler sets reconnecting_, resets attempts to 0 and reports dropped |
| TspClient.Client.BeginReconnect | src/client/client.cpp:181-189 | the fields change as `ClientSpec.BeginReconnect` says |
| ClientSpec.EndReconnect | src/client/client.cpp:199-209 | leaving the handler: if still disconnected, the queue is drained and stopped is reported; reconnecting_ is cleared either way |
| TspClient.Client.EndReconnect | src/client/client.cpp:199-209 | the fields change as `ClientSpec.EndReconnect` says |
| TspClient.Client.RetryWhileDisconnected | src/client/client.cpp:194-197 | the retry loop, each iteration running sleep and then reconnect, ends in the state `ClientSpec.RetryLoop` gives |
| TspClient.Client.HandleDisconnection | src/client/client.cpp:175-210 | while reconnecting, a drop changes nothing; otherwise the handler ends with reconnecting_ false, in the state `ClientSpec.HandleDrop` gives |
| ClientSpec.RetryLoop | src/client/client.cpp:194-197 | the loop ends only once should_reconnect() is false; the Retry lemmas below state its frame, bound, counting, trace and resend |
| ClientProperties.RetryFrame | src/client/client.cpp:194-197 | the loop changes only the attempt counter, the link, the oracle, the phase log and the transmitted log, and never lowers the counter |
| ClientProperties.RetryBounded | src/client/client.cpp:224-227 | with a bound m >= 0, the attempts never exceed m |
| ClientProperties.RetryAllRefused | src/client/client.cpp:252-260 | against a transport that never connects, counting thrown and refused connects alike, exactly m attempts are made and the link stays down |
| ClientProperties.RetryFirstSuccess | src/client/client.cpp:194-197 | the loop stops right after the first successful connect the policy allows, having used one attempt per outcome up to it |
| ClientProperties.RetryResends | src/client/client.cpp:276-277 | the queue is retransmitted once when the loop recovers, and nothing is transmitted otherwise |
| ClientProperties.LoopPhasesQuiet | src/client/client.cpp:194-197 | the loop's rounds never report stopped or dropped |
| ClientProperties.RetryTraceAcc | src/client/client.cpp:194-197 | the loop's trace equals the per-round traces accumulated in order |
| ClientProperties.RetryTrace | src/client/client.cpp:194-197 | the loop appends, per attempt, an optional sleeping, then connect's start and ok/failed, then reconnect's ok/failed |
| ClientProperties.DropFrame | src/client/client.cpp:175-210 | past the guard the handler ends with reconnecting_ false and leaves cancel_, the in-flight counter and the executed callbacks alone; attempts ≥ 0 and within a bound |
| ClientProperties.HandlerPhasesOnRecovery | src/client/client.cpp:187-206 | a recovering handler run does not report stopped, and with an observer reports dropped exactly once |
| ClientProperties.DropTrace | src/client/client.cpp:175-210 | the handler's trace is dropped, then the loop's rounds, then stopped when it gave up |
| ClientProperties.DropQueue | src/client/client.cpp:199-200 | the queue survives only a recovery, and a recovery retransmits it exactly once |
| ClientProperties.DropGivesUp | src/client/client.cpp:199-206 | ending disconnected leaves the queue empty and stopped as the last notification |
| ClientProperties.DropRecovers | src/client/client.cpp:199-206 | ending connected keeps the queue, and this run reports no stopped |
| ClientSpec.HandleDrop | src/client/client.cpp:175-210 | a drop during reconnection changes no state and emits nothing; past the guard the handler ends with reconnecting_ false; the Drop lemmas state what it leaves behind |
| ClientProperties.DropAllRefused | src/client/client.cpp:175-210 | bound m >= 0 and a dead transport: exactly m attempts, queue drained, trace ending in stopped |
| ClientProperties.DropCancelled | src/client/client.cpp:81-83 | with cancel_ set, no attempt is made, nothing is transmitted, and a disconnected client reports dropped then stopped |
| ClientProperties.DropAfterDestroy | src/client/client.cpp:12-24 | a drop handled once the destructor has cancelled reconnection and closed the link makes no attempt and gives up at once |
| ClientProperties.CancelIsOneWay | src/client/client.cpp:81-83 | no operation clears cancel_ once it is set |
| ClientSpec.Destroy | src/client/client.cpp:12-24 | the destructor cancels reconnection, then closes the transport; nothing else changes |
| TspClient.Client.Destroy | src/client/client.cpp:12-24 | the fields change as `ClientSpec.Destroy` says |
| TspClient.Client.constructor | src/client/client.cpp:7-10 | a new client is disconnected, not reconnecting or cancelled, with an empty queue |
| ClientProperties.ScenarioSetup | src/client/client.cpp:26-62 | the scenario: connect succeeds, then one command with a callback is sent |
| ClientProperties.ScenarioRecovers | src/client/client.cpp:175-210 | after two refusals the third attempt recovers, and the pending request is retransmitted once |
| ClientProperties.ScenarioTrace | src/client/client.cpp:175-210 | the scenario's full notification trace, with every sleeping, start, failed and ok the code emits |

## Left out

- Concurrency. The mutex, the condition variable and the detached drain thread
  are replaced by their sequential effect. Reentrant `send` calls from inside a
  reply callback or the observer are not modelled.
- Callbacks and the observer are assumed to return normally.
  - A reply callback that throws at client.cpp:121 would skip the decrement
    at 126. `callbacks_running_` would stay raised and the exception would
    leave the handler.
  - The `catch (...)` at 259 would also swallow an exception thrown by the
    observer inside `connect`.
  - `Receive` and `ReceiveReply` promise that the in-flight counter ends
    where it started. This holds only under this assumption.
- The sleep itself is left out, and intervals are only compared with zero.
  The interval is unsigned, so `<= 0` means `== 0`.
- The connect timeout is left out: `connect_timeout_msecs_` is never assigned
  from the `timeout_msecs` parameter.
- `re_auth` and `unprotected_auth` are left out.
  - The body of `re_auth` (229-247) is commented out.
  - `unprotected_auth` is live code that sends through `unprotected_send`
    (229-233). Its only caller is that commented-out call, so it never runs.
- Logging (`std::cout`, `TB_LOG_INFO`) is left out.
- The observer's host and port arguments are left out. Only the phases are logged.
- The transport's own behaviour is left out:
  - the TCP/TLS socket;
  - transmit failures;
  - whether its `disconnect` in turn fires the drop handler.

  The transport is modelled as the `connected` flag plus the outcome oracle.
- TspClient.Client.RetryWhileDisconnected: it requires the retry loop to
  terminate (`Terminates`). It does not model an unbounded policy (`-1`)
  against a transport that never connects again. The source loops forever
  there.
- TspClient.Client.HandleDisconnection: it requires `Terminates` unless
  already reconnecting, for the same reason as `RetryWhileDisconnected`.
- ClientSpec.RetryLoop: it has the same `Terminates` requirement, so the
  non-terminating case has no value.
- ClientSpec.HandleDrop: it has the same requirement as `RetryLoop`.
- TspClient.Client.Reconnect: it runs connect's body after the parameter
  stores (`ConnectWithPolicy`) rather than `Connect`. The source passes the
  stored parameters back to `connect`, so the stores change nothing.
- The widths are not modelled: `max_reconnects` is a 32-bit signed integer,
  the interval is 32-bit unsigned, and the attempt counter's type is not
  shown. They are unbounded integers here, with the attempt counter compared
  with the bound as a signed value.
- The destructor (12-24) cancels reconnection and then closes the transport.
  It neither drains the queue nor waits for running callbacks, and the model
  does the same.
- Drained commands' callbacks are not run. The call inside the drain at
  146-147 is commented out.
- The drain thread is detached at 156 and never awaited. The model runs its
  loop to the end at once.
- Each reconnect attempt is reported twice:
  - first connect's own start and ok/failed (43, 54 or 59);
  - then reconnect's ok/failed (264 or 271).

  A thrown connect reports only start, then reconnect's failed. The traces
  proved here carry all of these notifications.
