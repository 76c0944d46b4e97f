# Verified model of the Clisbot client core

Clisbot's client library keeps one connection to a daemon alive, correlates requests with
responses over it, and protects it end to end. This project models that core, and five smaller
algorithms around it, and proves what callers rely on.

`dafny verify dfyconfig.toml` checks everything.

## The parts

**The client** (`packages/client/src/daemon-client.ts`). `session.dfy` is the client as a state
machine: one event is one turn of the event loop, with the promise continuations it releases run at
its end. The state has four parts, one file each: the connection (`link.dfy`, on top of `timers.dfy`
and `backoff.dfy`), the requests (`requests.dfy`), liveness (`liveness.dfy`) and the terminal slots.
`session_safety.dfy` proves what every step keeps; `session_runs.dfy`, `session_faults.dfy`,
`session_promises.dfy`, `session_sends.dfy`, `session_calls.dfy`, `session_liveness.dfy` and
`session_claims.dfy`, and `session_effects.dfy`, `session_answers.dfy` and `session_probes.dfy`, which
say exactly what each event does, prove the theorems about every finite run, that is, every interleaving of connects, credential results,
timers, transport events, messages, requests, aborts and closes.
`daemon_client.dfy` is the client as an object whose fields its methods update in place, with the
loops over queue and waiters (`request_table.dfy`, `connection.dfy`, `liveness_monitor.dfy`); each
event method refines one step of the machine, so the theorems are about it. The one class of the
source is split into these objects; the fields keep their meaning.

- Timers are a pool of armed callbacks; the client holds handles. A timer whose handle is overwritten
  would stay in the pool and could still fire, so "one retry at most" is a real claim.
- `frames` is the history of requests whose frame reached `transport.send`. A frame may be refused
  before that (too large, not valid) or the transport may throw after it; both are inputs.
- A retry delay may be no number and a retry time no date; publishing it then throws in the middle of
  a loss. `faults` counts the losses that broke off so, and theorems about who drives the client name it.
- A call has two write-once promises, for its send and for its waiter; what `sendRequest` tells its
  caller follows from the two.
- The environment keeps these rules: listeners do not call back into the client within a step,
  cleaned-up handlers do not fire, and a transport does not open after it has reported an error.
- Subscriptions and creations that are asked for again on a new session are `restored` requests; they
  go out before the held sends.

**The encrypted transport wrapper** (`daemon-client-relay-e2ee-transport.ts`).
`encrypted_transport.dfy` has its steps, `encrypted_runs.dfy` and `encrypted_effects.dfy` the theorems
about all runs, and `encrypted_wrapper.dfy` the object with its drain loop; whatever re-enters the wrapper during an
emission is a script that the loop runs in between. The secure channel and the base transport are
the environment: open is reported before any message, the negotiated mode meets the minimum, and the
channel's `close` closes the transport. The base may report a close from within its own `close`, with
any code, or later.

**The lockfile merge** (`scripts/upstream-sync/merge-lockfile.py`): `merge_lockfile.dfy`, and
`merge_absorption.dfy` for merging twice.

**File transfer** (`daemon-client.ts`): `file_transfer.dfy` (reassembly, splitting) and
`file_reader.dfy` (the maps and the handler).

**Rolling metrics** (`daemon-client-runtime-metrics.ts`): `runtime_metrics.dfy` (what a recount is,
which events the window holds) and `metrics_recorder.dfy` (the maps, buckets and loops).

**The provider wait** (`packages/client/src/index.ts`): `provider_wait.dfy`.

**Release numbers** (`packages/app/native-release-version.js`): `release_version.dfy`.

## Where the code does less than it seems to

- A loss that may reconnect throws before it changes the connection state or arms a retry when the
  retry time is no date: with a base delay of 0 after 1024 losses without a session, and with a delay
  that ends after the last date. An attempt that failed leaves a client that is wanted with nothing to
  drive it, and a lost session is still taken for live. Exactly a positive base with delays that end
  in time is safe (`SessionFaults.DrivenExactly`, `SessionFaults.FaultCause`,
  `SessionFaults.UnsaneStrands`).
- `connect()` is turned away by a promise left over from a connect that failed before the promise
  field was assigned, with reconnecting on or off: it then does nothing, while `ensureConnected()`
  does (`SessionRuns.StaleExactly`, `SessionRuns.StaleTurnsAway`, `SessionRuns.StaleWhileRetrying`,
  `SessionRuns.ConnectRevives`).
- A call whose waiter times out while its send is held keeps its place in the queue: it is sent once
  connected, and only then is its caller told that it timed out (`SessionSends.WithdrawnExactly`,
  `SessionSends.SettledStillSent`, `SessionSends.TimedOutSent`).
- `setReconnectEnabled(false)` cancels an armed retry without answering a `connect()` that waits for
  it: that call is never settled, nothing drives the connection, and further `connect()` calls join it
  (`SessionPromises.AbandonedExactly`, `SessionPromises.AbandonedStays`,
  `SessionPromises.AbandonmentReachable`).
- The downgrade check of the encrypted transport looks only at the first `server_info` of a session
  that comes as text. A later one that advertises protected support is delivered in a legacy session,
  and so is one that comes as bytes, which the client reads all the same
  (`EncryptedRuns.DowngradeExact`, `EncryptedRuns.SecondServerInfoPasses`, `EncryptedRuns.BytesPass`).
- A snapshot response whose request id is empty leaves the provider wait deaf to updates
  (`ProviderWait.WakesExactly`, `ProviderWait.DeafForever`, `ProviderWait.LostWakeUp`).
- Merging a lockfile twice is not the same as merging it once where the `workspaces` list both sides
  changed is the one the base had, or is an object that lacks an upstream change
  (`MergeAbsorption.AbsorptionExact`, `MergeAbsorption.AbsorptionCounterexample`).

## Model

| member | source | states |
|---|---|---|
| SessionRuns.SingleDriver | packages/client/src/daemon-client.ts:1536-1563 | Never stuck: from a request to connect on, while reconnecting stays enabled, the client is not closed and no loss has broken off, every boundary of every run has exactly one of a live attempt, an armed retry, or a connecting or connected session |
| SessionFaults.DrivenExactly | packages/client/src/daemon-client.ts:7803-7918 | For every reconnect policy and latest time of a loss: a client that has been asked to connect, is enabled and not closed always has exactly one driver, in all runs, if and only if the base delay is positive and the longest delay ends at a date |
| SessionFaults.SaneStaysDriven | packages/client/src/daemon-client.ts:7803-7918 | With such a policy the client is never stuck, with no condition on the run |
| SessionFaults.UnsaneStrands | packages/client/src/daemon-client.ts:7862-7900 | With any other policy a run of failed attempts leaves an enabled client that was asked to connect with nothing to drive it |
| SessionFaults.FaultCause | packages/client/src/daemon-client.ts:7862-7900 | In every run a loss breaks off only where reconnecting is allowed and the retry time of the try is no date; the status is then the one before, with no attempt and no retry |
| SessionFaults.LosePaced | packages/client/src/daemon-client.ts:7803-7860 | Any loss breaks off exactly when the client is not disposed, reconnecting is wanted and enabled, authentication has not failed, and the retry time cannot be published |
| SessionFaults.SaneNeverFaults | packages/client/src/daemon-client.ts:7862-7900 | With a positive base and delays that end at a date no loss of any run breaks off |
| SessionRuns.FirstConnectAsks | packages/client/src/daemon-client.ts:1515-1534 | The first `connect` of a run is never turned away by a leftover promise |
| SessionRuns.AtMostOneDriver | packages/client/src/daemon-client.ts:7803-7860 | Never two drivers: a retry is armed only while disconnected with reconnecting enabled, and unless a loss has broken off a connecting session always has a deadline or error timer that can end it |
| SessionRuns.ConnectRevives | packages/client/src/daemon-client.ts:1803-1822 | In every run, for a client nothing drives and however its credentials come, `ensureConnected` always claims an attempt, and `connect` does exactly when no promise is left over and otherwise changes nothing |
| SessionRuns.StaleExactly | packages/client/src/daemon-client.ts:1525-1531 | In every run a leftover promise arises exactly in a `connect` whose own attempt fails in the turn that began it, whether or not reconnecting is enabled, unless its loss breaks off |
| SessionRuns.StaleTurnsAway | packages/client/src/daemon-client.ts:1522-1524 | In every run, while it is there `connect` changes nothing, and the step that ends it clears the record and leaves no connect waiting |
| SessionRuns.StaleWhileRetrying | packages/client/src/daemon-client.ts:1522-1531 | With reconnecting on, a first connect that fails in its own turn leaves one while its retry is armed, and every further `connect` changes nothing |
| SessionRuns.StalePromise | packages/client/src/daemon-client.ts:1525-1531 | With reconnecting off a first connect that fails in its own turn leaves such a promise, nothing drives the client, and the next `connect` changes nothing |
| SessionPromises.ConnectAnswered | packages/client/src/daemon-client.ts:1752-1768 | In every run in which no armed retry of a waiting connect is disabled and no loss breaks off, a waiting connect has exactly one driver, and a connected client has answered every connect |
| SessionPromises.AbandonedExactly | packages/client/src/daemon-client.ts:7795-7801 | In every run without a loss that breaks off, the first step that leaves a waiting connect without a driver, or a connected client with an unanswered one, is exactly one that disables reconnecting while that connect's retry is armed |
| SessionPromises.AbandonedStays | packages/client/src/daemon-client.ts:7795-7801 | After such a step the connect is unanswered, nothing drives the client, and another `connect` changes nothing |
| SessionPromises.AbandonmentReachable | packages/client/src/daemon-client.ts:7795-7801 | A run that leads there |
| SessionEffects.CourseExactly | packages/client/src/daemon-client.ts:1536-1738 | In every run, unless its loss breaks off, each event leaves exactly the status, attempt, retry and try number that follow from what it is: the end of an attempt, a loss, the daemon's first server_info, a close, a request; every loss or failed attempt arms a retry if and only if one is still allowed |
| SessionEffects.ConnectExactly | packages/client/src/daemon-client.ts:1515-1768 | In every run, unless its loss breaks off: a caller of `connect` that finds nobody's promise waits, and is answered exactly by the session being established, the failure of an attempt, a loss that no retry follows, or `close` |
| SessionEffects.TransportExactly | packages/client/src/daemon-client.ts:1603-1722 | In every run: which transport is held after each event, whether it has reported an error, the security floor, which credentials are still to come, and whether the connect deadline and the delayed error are armed |
| SessionEffects.StartExactly | packages/client/src/daemon-client.ts:1430-1470 | Every run begins idle, with the caller's policy, switch and floor, and nothing under way |
| SessionEffects.RefusedExactly | packages/client/src/daemon-client.ts:7575-7586 | In every run the authentication mark is set exactly while a refusal of the credentials stands: said by the hello or by a close, with no new transport and no other word on the hello since |
| SessionEffects.DisabledExactly | packages/client/src/daemon-client.ts:1642-1677 | In every run reconnecting is turned off, other than by its switch, exactly by a close that forbids another attempt, by a relay that refuses the credentials, and by a loss or failed attempt while a refusal stands |
| SessionEffects.RefusalStops | packages/client/src/daemon-client.ts:7843-7857 | In every run a loss while a refusal of the credentials stands leaves reconnecting off, nothing armed or under way, and no `connect` waiting |
| SessionEffects.HelloThenClose | packages/client/src/daemon-client.ts:7575-7586 | A hello rejected for its password and then an ordinary close stop the client so; a hello rejected for another reason and a close leave reconnecting as enabled as it was |
| SessionRuns.DisposedAbsorbs | packages/client/src/daemon-client.ts:1770-1801 | Disposed is absorbing: no transport, attempt, retry or pending connect ever again, and no frame handed over |
| SessionRuns.RunLater | packages/client/src/daemon-client.ts:7803-7860 | Between any two states of a run: settled promises keep their value, frames and histories only grow, the security floor does not fall |
| SessionClaims.OnlyCurrentAttemptInstalls | packages/client/src/daemon-client.ts:1548-1563 | Only the attempt that is current installs a transport, so a superseded one never does, and it is built with the security floor of that moment |
| SessionClaims.HonestLoss | packages/client/src/daemon-client.ts:8092-8108 | A call rejected by a connection loss without "unknown" never has its frame handed to a transport, before the rejection or at any later point of the run |
| SessionClaims.UnknownIsEarned | packages/client/src/daemon-client.ts:2134-2163 | "Unknown" is only said when a frame with that request id was handed over |
| SessionClaims.OutcomeSettlesOnce | packages/client/src/daemon-client.ts:2299-2368 | The send promise, the waiter promise and the outcome of a call are written at most once in any run |
| SessionClaims.TablesExact | packages/client/src/daemon-client.ts:8172-8247 | A waiter is in the table, and a send in the queue, exactly while it is unsettled; a non-empty queue implies connecting, or closing |
| SessionClaims.FramesInCallOrder | packages/client/src/daemon-client.ts:2230-2284 | No request is handed over twice, and frames go out in the order of the calls, however sends were queued, aborted or timed out |
| SessionSends.WithdrawnNeverSent | packages/client/src/daemon-client.ts:2334-2343 | Over any run a held send that is aborted, or that times out in the queue, is never handed over afterwards |
| SessionSends.WithdrawnExactly | packages/client/src/daemon-client.ts:2241-2253 | Of all timeouts and aborts exactly the queue timeout and the abort of a held send's own call take it out of the queue; a waiter timeout does not |
| SessionSends.SettledStillSent | packages/client/src/daemon-client.ts:2267-2284 | In every run a send still held when the session is established is handed over even if its waiter has settled, and only then is the caller told what the waiter settled with |
| SessionSends.TimedOutSent | packages/client/src/daemon-client.ts:8200-8207 | A run in which a call times out while connecting, is sent afterwards and is told that it timed out |
| SessionSends.SendsSayTheTruth | packages/client/src/daemon-client.ts:2230-2297 | In every run a send that resolved has handed its frame to a transport, and one that is pending, or was refused for any reason but a failed send, has not |
| SessionSends.RefusedStaysUnsent | packages/client/src/daemon-client.ts:2289-2297 | What was refused unsent is not handed over at any later point |
| SessionClaims.SettlementEarned | packages/client/src/daemon-client.ts:8063-8108 | Whatever a call made in an earlier step settles with, the event of that step is the reason: an answer or error carries its own request id and type, a cancel or timeout is its own, and a loss leaves no waiter, queued send, ping probe or terminal slot |
| SessionCalls.NewCallOutcome | packages/client/src/daemon-client.ts:2230-2264 | A call made in this step is told at once exactly this: the failure of its send while connected, the loss where there is no connection, and otherwise nothing; no other event makes a call |
| SessionCalls.RequestOpensCall | packages/client/src/daemon-client.ts:2299-2328 | A request makes exactly one call, and none if its signal has already fired |
| SessionAnswers.ReplyExactly | packages/client/src/daemon-client.ts:8063-8077 | In every run a waiting call is answered exactly by a response with its own id and type that its selector takes, rejected exactly by one on which its selector throws or by an error with its id, and then has left the table |
| SessionAnswers.WaiterExactly | packages/client/src/daemon-client.ts:8063-8108 | In every run, for every event, a waiter settles in that step with exactly the outcome the event has for it, and otherwise stays: replies, broken replies, timeouts, abort, failed send, loss, close, and nothing else |
| SessionAnswers.HeldExactly | packages/client/src/daemon-client.ts:2230-2297 | In every run, for every event, what becomes of a held send: sent when the session is established, refused by its timeout, its abort, a loss, `close` or a failed send, and otherwise still held |
| SessionAnswers.HandedExactly | packages/client/src/daemon-client.ts:2230-2284 | In every run the frames a step hands over are exactly a new request's while connected, and those of the restored requests and then of the held ones, in order, when a session is established |
| SessionAnswers.NewCallExactly | packages/client/src/daemon-client.ts:2299-2328 | A new call carries the id and type of the request it is made for; it is held exactly when made while connecting, and calls of a new session count as restored |
| SessionSafety.ScheduleReconnectKeeps | packages/client/src/daemon-client.ts:7837-7860 | The loss step empties waiters, send queue, ping probe and terminal slots together and, unless it breaks off, leaves exactly one driver if reconnecting is allowed |
| SessionPromises.NothingOutlivesSession | packages/client/src/daemon-client.ts:7831-7842 | In every run waiters exist only in a connecting or connected session, and outside one, unless `close` is under way, there is no waiter, held send, ping probe or terminal slot |
| SessionSafety.StepKeeps | packages/client/src/daemon-client.ts:1515-1822 | Every event keeps the whole session invariant, extends what was settled and, unless a loss has broken off, keeps the client driven |
| SessionLiveness.LatencyNeverCounts | packages/client/src/daemon-client.ts:3041-3113 | A latency measurement counts no liveness failure and touches nothing outside liveness; beginning one, sent or not, leaves the heartbeat and its timer alone, and so does its timeout, except that a heartbeat which waited for that ping is scheduled again while connected |
| SessionLiveness.HistoryExact | packages/client/src/daemon-client.ts:7563-7649 | What each event does to the failure count and its history: a heartbeat ping that times out or cannot be sent counts, a validated message, file frame or terminal frame resets, nothing else does either |
| SessionLiveness.TeardownJustified | packages/client/src/daemon-client.ts:7949-7962 | Over any run a liveness teardown comes with a heartbeat failure that follows another one with no message, file frame or terminal frame between them, and the transport and all that belonged to it are really given up, the connected status too unless a loss has broken off |
| SessionLiveness.SecondFailureTears | packages/client/src/daemon-client.ts:7949-7962 | And a second failure in such silence always tears the connection down |
| SessionLiveness.HeartbeatNeverStops | packages/client/src/daemon-client.ts:3115-3141 | The failure count stays below 2, at most one ping is in flight, and unless a loss has broken off a connected client always has its next heartbeat coming |
| SessionProbes.PingExactly | packages/client/src/daemon-client.ts:3041-3113 | In every run a ping goes out exactly when a heartbeat or a measurement is sent on a connected client with none in flight, can fail the heartbeat exactly when it is the heartbeat's, and is over exactly with a pong, its timeout, the loss of its session or `close` |
| SessionProbes.BeatExactly | packages/client/src/daemon-client.ts:3115-3141 | In every run, unless its loss breaks off, a heartbeat is scheduled exactly when a session is established, when the ping one waited for is over, or when one has fired without a ping to wait for; it goes when it fires or its transport is disposed of |
| SessionProbes.PongEnds | packages/client/src/daemon-client.ts:7920-7928 | In every run an answered ping is over: neither it nor its timer is left |
| SessionProbes.SlotsExactly | packages/client/src/daemon-client.ts:7841-7842 | In every run the terminal slots are those opened since the session was last lost, and `close` is under way until it ends |
| SessionClaims.BackoffTruthful | packages/client/src/daemon-client.ts:7862-7918 | An armed retry belongs to the latest try and waits exactly the published delay, within the ceiling of that try (strictly below with jitter), and unless a loss has broken off one delay is drawn for each retry armed |
| SessionClaims.TriesFallOnConnect | packages/client/src/daemon-client.ts:8007-8011 | The try number falls only when a session is established |
| Backoff.CeilingMonotone | packages/client/src/daemon-client.ts:7888-7900 | The ceiling does not fall from one try to the next and never exceeds the maximum |
| Backoff.CeilingReachesMax | packages/client/src/daemon-client.ts:7888-7900 | With a positive base the ceiling reaches the maximum and stays there |
| Backoff.CeilingExactly | packages/client/src/daemon-client.ts:7888-7893 | The ceiling is the base times two to the power of the try, or the maximum if that is less |
| Backoff.DefaultCeilings | packages/client/src/daemon-client.ts:1181-1182 | With the defaults: 1.5 s, 3 s, 6 s, 12 s, 24 s, and 30 s from then on |
| Backoff.Delay | packages/client/src/daemon-client.ts:7892-7898 | There is a delay except for a base of 0 from try 1024 on, where the ceiling is no number; it is the ceiling, or with full jitter the whole part of a random share of it, strictly below a positive ceiling |
| SessionClaims.SecurityOnlyRises | packages/client/src/daemon-client.ts:1583-1599 | Over any run the security floor never falls, and each transport was built with at least the mode of the one before |
| SessionClaims.LaterBuildsMeetFloor | packages/client/src/daemon-client.ts:1583-1599 | Every transport built after a state asks for at least the floor of that state |
| SessionClaims.ProtectedStays | packages/client/src/daemon-client.ts:1594-1597 | Every transport built after protected mode was negotiated asks for protected mode |
| Link.RisingPairwise | packages/client/src/daemon-client.ts:1466 | A rising history of builds is ordered between any two of them |
| DaemonClients.DaemonClient.Connect | packages/client/src/daemon-client.ts:1515-1534 | `connect` takes the machine's connect step, stale promise included, and keeps the invariant |
| DaemonClients.DaemonClient.EnsureConnected | packages/client/src/daemon-client.ts:1803-1822 | `ensureConnected` takes its step and keeps the invariant |
| DaemonClients.DaemonClient.AttemptConnect | packages/client/src/daemon-client.ts:1536-1560 | Claims the attempt, cancels the armed retry, and goes on at once or when credentials arrive |
| DaemonClients.DaemonClient.ContinueAttempt | packages/client/src/daemon-client.ts:1563-1738 | Installs a transport or fails the attempt, and does nothing for one that is superseded |
| DaemonClients.DaemonClient.CredentialsSettle | packages/client/src/daemon-client.ts:1562-1565 | A late credential result takes its step, whether or not its attempt is still current |
| DaemonClients.DaemonClient.ReconnectTimerFires | packages/client/src/daemon-client.ts:7911-7917 | The retry timer takes its step |
| DaemonClients.DaemonClient.ConnectDeadlineFires | packages/client/src/daemon-client.ts:1618-1631 | The connect deadline takes its step |
| DaemonClients.DaemonClient.GenericErrorDelayFires | packages/client/src/daemon-client.ts:1690-1704 | The delayed generic error takes its step |
| DaemonClients.DaemonClient.OnTransportOpen | packages/client/src/daemon-client.ts:1634-1641 | Transport open and the hello that follows take their step |
| DaemonClients.DaemonClient.OnTransportClose | packages/client/src/daemon-client.ts:1642-1677 | A transport close takes its step, with each reason that disables reconnecting |
| DaemonClients.DaemonClient.OnTransportError | packages/client/src/daemon-client.ts:1678-1720 | A transport error, generic or not, takes its step |
| DaemonClients.DaemonClient.OnSecurityMode | packages/client/src/daemon-client.ts:1594-1597 | A negotiated protected mode raises the floor |
| DaemonClients.DaemonClient.SetReconnectEnabled | packages/client/src/daemon-client.ts:7795-7801 | Disabling reconnecting cancels the armed retry |
| DaemonClients.DaemonClient.ScheduleReconnect | packages/client/src/daemon-client.ts:7803-7860 | The loss step on the fields, with its loops over waiters and queue |
| DaemonClients.DaemonClient.DropSession | packages/client/src/daemon-client.ts:1824-1850 | Giving up the whole session takes its step |
| DaemonClients.DaemonClient.SendRequest | packages/client/src/daemon-client.ts:2299-2360 | A request is sent, held or refused by connection state, and its waiter registered first |
| DaemonClients.DaemonClient.AbortRequest | packages/client/src/daemon-client.ts:2334-2343 | An abort settles the waiter and takes the send out of the queue |
| DaemonClients.DaemonClient.WaiterTimeoutFires | packages/client/src/daemon-client.ts:8200-8207 | A waiter timeout settles that waiter |
| DaemonClients.DaemonClient.SendQueueTimeoutFires | packages/client/src/daemon-client.ts:2241-2253 | A queue timeout rejects that send and, through its continuation, its waiter |
| DaemonClients.DaemonClient.OnTransportMessage | packages/client/src/daemon-client.ts:7508-7612 | Every kind of inbound message and frame takes its step |
| DaemonClients.DaemonClient.HandleServerInfo | packages/client/src/daemon-client.ts:8001-8021 | The first server info establishes the session: restored requests, then the held sends in order, then the connect resolves |
| DaemonClients.DaemonClient.HeartbeatTimerFires | packages/client/src/daemon-client.ts:3129-3141 | A heartbeat opens a ping, waits for one in flight, or counts a failed send |
| DaemonClients.DaemonClient.MeasureLatency | packages/client/src/daemon-client.ts:3041-3113 | A latency measurement takes its step |
| DaemonClients.DaemonClient.PingTimeoutFires | packages/client/src/daemon-client.ts:3087-3097 | A ping timeout takes its step, counting only heartbeat pings |
| DaemonClients.DaemonClient.Close | packages/client/src/daemon-client.ts:1770-1786 | `close` up to its await: disposed, settled, unwatched, waiters rejected |
| DaemonClients.DaemonClient.FinishClose | packages/client/src/daemon-client.ts:1787-1791 | The rest of `close`: queue, probe and slots go |
| Link.DrawnOnce | packages/client/src/daemon-client.ts:7888-7900 | One draw per try: a pending draw is used as it is, a new one is within its bounds where it is a number and then pending, and asking again gives the same delay whatever the random source says |
| Connections.Pacer.NextReconnectDelayMs | packages/client/src/daemon-client.ts:7888-7900 | Returns the pending draw of this try unchanged, or draws once, within the bounds where there is a number, and keeps it, so that the published delay is the one that is armed |
| RequestTables.RequestTable.ResolveWaiters | packages/client/src/daemon-client.ts:8063-8077 | The loop offers a reply to every waiter present and settles exactly those it concerns |
| RequestTables.RequestTable.RejectWaitersForRequestId | packages/client/src/daemon-client.ts:8079-8090 | The loop rejects exactly the waiters of one request id |
| RequestTables.RequestTable.ClearWaitersAfterLoss | packages/client/src/daemon-client.ts:8092-8108 | The loop rejects every waiter, as unknown exactly when its request was submitted |
| RequestTables.RequestTable.FlushPendingSendQueue | packages/client/src/daemon-client.ts:2267-2284 | The loop makes the held sends in order and settles each once |
| RequestTables.RequestTable.RejectPendingSendQueue | packages/client/src/daemon-client.ts:2289-2297 | The loop rejects every held send and empties the queue |
| EncryptedRuns.InOrder | packages/client/src/daemon-client-relay-e2ee-transport.ts:172-192 | In every reachable state, while not closed, delivered followed by buffered messages are the messages received; after a close a prefix was delivered; once published and open nothing is left behind |
| EncryptedRuns.OpenFirstCloseLast | packages/client/src/daemon-client-relay-e2ee-transport.ts:117-135 | Open comes once, before every message, directly behind the report of a mode that meets the floor, with the channel assigned; one close, and nothing after it |
| EncryptedRuns.SilentAfterClose | packages/client/src/daemon-client-relay-e2ee-transport.ts:125-143 | After a close no event makes another emission |
| EncryptedRuns.BufferBounded | packages/client/src/daemon-client-relay-e2ee-transport.ts:172-192 | In every reachable state at most 64 messages and 1 MiB are buffered and the byte counter is their sum |
| EncryptedRuns.AdmissionExact | packages/client/src/daemon-client-relay-e2ee-transport.ts:178-191 | An early message ends the session exactly when buffering it would break a limit; the owner then sees one close, with code 4002 or the base's own code if the base reports from within its close |
| EncryptedRuns.LateChannelClosed | packages/client/src/daemon-client-relay-e2ee-transport.ts:242-247 | A channel obtained after a close is closed and, whatever happens later, never published |
| EncryptedRuns.DowngradeRefused | packages/client/src/daemon-client-relay-e2ee-transport.ts:140-159 | In a legacy session the first server_info that comes as text, if it advertises protected support, and everything behind it are never delivered |
| EncryptedRuns.DowngradeExact | packages/client/src/daemon-client-relay-e2ee-transport.ts:144-159 | When its turn comes, an advertising server_info is delivered in a legacy session if and only if it came as bytes or an earlier one was delivered as text; otherwise the session closes, with 4002 or the base's own code |
| EncryptedRuns.SecondServerInfoPasses | packages/client/src/daemon-client-relay-e2ee-transport.ts:144-159 | A legacy session told "no" and then "yes" delivers the second |
| EncryptedRuns.BytesPass | packages/client/src/daemon-client-relay-e2ee-transport.ts:144 | A reachable legacy session has delivered an advertising server_info that came as bytes, and nothing before it |
| EncryptedRuns.DrainIsRun | packages/client/src/daemon-client-relay-e2ee-transport.ts:249-260 | The drain loop in one turn, with anything re-entering it, is a run of the small steps |
| EncryptedRuns.DrainEmpties | packages/client/src/daemon-client-relay-e2ee-transport.ts:249-260 | After the loop everything received, including what arrived during it, is delivered unless the wrapper closed on the way |
| EncryptedEffects.SignalsExactly | packages/client/src/daemon-client-relay-e2ee-transport.ts:117-317 | In every reachable state each event tells the owner exactly this: the close of the base or the channel under its own code, an error, the mode and open, a message, a refused downgrade, an overflow, a failed handshake; and nothing after a close |
| EncryptedEffects.ClosesExactly | packages/client/src/daemon-client-relay-e2ee-transport.ts:145-317 | In every reachable state: which code each event closes the base transport with (4002, 4001, 1000 or the owner's), when the channel's own `close` is called, and what phase, mode and early messages are left |
| EncryptedEffects.StartExactly | packages/client/src/daemon-client-relay-e2ee-transport.ts:95-115 | Every wrapper begins with nothing open, said or buffered, and keeps its floor |
| EncryptedEffects.BaseCloseTold | packages/client/src/daemon-client-relay-e2ee-transport.ts:276-280 | A close of the base transport is told to an open session's owner at once, under its own code |
| EncryptedTransport.StepKeeps | packages/client/src/daemon-client-relay-e2ee-transport.ts:222-268 | Every step of handshake, channel, base transport and owner keeps the wrapper's invariant |
| EncryptedWrappers.EncryptedWrapper.DrainEarly | packages/client/src/daemon-client-relay-e2ee-transport.ts:249-260 | The drain loop on the fields computes the drain of its script |
| EncryptedWrappers.EncryptedWrapper.OnChannelCreated | packages/client/src/daemon-client-relay-e2ee-transport.ts:242-260 | The rest of the handshake in one turn, with everything that re-enters it |
| EncryptedWrappers.EncryptedWrapper.EmitMessage | packages/client/src/daemon-client-relay-e2ee-transport.ts:140-161 | Emits a message, or refuses a downgrade |
| EncryptedWrappers.EncryptedWrapper.ReceiveChannelMessage | packages/client/src/daemon-client-relay-e2ee-transport.ts:172-192 | Emits, buffers or sheds a message of the channel |
| EncryptedWrappers.EncryptedWrapper.Handle | packages/client/src/daemon-client-relay-e2ee-transport.ts:228-317 | Every callback and the owner's close take their step and keep the invariant |
| EncryptedWrappers.EncryptedWrapper.OnHandshakeError | packages/client/src/daemon-client-relay-e2ee-transport.ts:261-267 | A failed handshake reports the error and closes the base with 4001 |
| MergeLockfile.CollisionDecides | scripts/upstream-sync/merge-lockfile.py:47-51 | From a both-changed value down the result is upstream's, or the given list at a `workspaces` key |
| MergeLockfile.StopExactly | scripts/upstream-sync/merge-lockfile.py:47-51 | Where both sides changed the value under a key and it is not two objects, the result is the given list if that key, the last of the path, is "workspaces", and upstream's value otherwise |
| MergeLockfile.CollisionExactly | scripts/upstream-sync/merge-lockfile.py:47-51 | The same in the whole merged tree, at any depth |
| MergeLockfile.LockfileExample | scripts/upstream-sync/merge-lockfile.py:28-51 | A lockfile whose root package has a list changed on both sides and a version changed upstream gets the given list and upstream's version |
| MergeLockfile.FreeDecides | scripts/upstream-sync/merge-lockfile.py:28-46 | At every path where nothing collides, the side that changed the value wins and two changed objects merge |
| MergeLockfile.UpstreamReaches | scripts/upstream-sync/merge-lockfile.py:28-51 | Every upstream change reaches the result unless a both-changed `workspaces` key covers its path |
| MergeLockfile.OursReaches | scripts/upstream-sync/merge-lockfile.py:28-51 | Every Clisbot change reaches the result unless its path or a prefix of it collides |
| MergeLockfile.UnchangedKept | scripts/upstream-sync/merge-lockfile.py:28-51 | A value neither side changed is kept unless a prefix of its path collides |
| MergeLockfile.OpenMeans | scripts/upstream-sync/merge-lockfile.py:33-36 | The recursion reaches a path exactly when every value on the way is an object on both sides |
| MergeLockfile.MergeInto | scripts/upstream-sync/merge-lockfile.py:28-51 | The program's recursion returns the merge and appends exactly the collisions that are not at a `workspaces` key, each once, with both values; where it stops at one, it returns the given list and appends nothing if the last key is "workspaces", and otherwise returns upstream's value and appends that conflict |
| MergeLockfile.MergeFields | scripts/upstream-sync/merge-lockfile.py:35-46 | The loop over the keys, in any order, fills the object and records what lies below them |
| MergeLockfile.RecordedSymmetric | scripts/upstream-sync/merge-lockfile.py:28-51 | Swapping the sides records the same paths with the values swapped |
| MergeLockfile.MergeSymmetric | scripts/upstream-sync/merge-lockfile.py:28-51 | Where nothing collides the merged trees are equal with the sides swapped |
| MergeAbsorption.MergedMoves | scripts/upstream-sync/merge-lockfile.py:28-51 | If upstream changed the value the merged value differs from the base, unless a `workspaces` list that does not last took its place |
| MergeAbsorption.Absorbs | scripts/upstream-sync/merge-lockfile.py:28-51 | Merging again with the same base and upstream changes nothing: always when no `workspaces` key collides, and otherwise when the list lasts |
| MergeAbsorption.CarriesAbsorbs | scripts/upstream-sync/merge-lockfile.py:28-46 | A side that has every upstream change already comes out of the merge as it is |
| MergeAbsorption.LastingExactly | scripts/upstream-sync/merge-lockfile.py:47-48 | Where the list, of any shape, takes the place of both sides, a second merge keeps it if and only if it lasts: as an object against an object it carries upstream's changes, and otherwise it is not what the base had |
| MergeAbsorption.AbsorptionExact | scripts/upstream-sync/merge-lockfile.py:28-51 | For every base, sides and list, merging again changes nothing if and only if the list lasts at every both-changed `workspaces` key |
| MergeAbsorption.SecondMergeQuiet | scripts/upstream-sync/merge-lockfile.py:47-51 | The second merge records no conflict |
| MergeAbsorption.AbsorptionCounterexample | scripts/upstream-sync/merge-lockfile.py:47-48 | A list the base already had is undone by a second merge |
| FileTransfer.Isolation | packages/client/src/daemon-client.ts:7668-7754 | However the frames of many requests interleave, each request fares as if its own frames were the only ones |
| FileTransfer.InterleavingIrrelevant | packages/client/src/daemon-client.ts:7668-7754 | Two runs in which a request sees the same events serve it alike |
| FileTransfer.PendingExactly | packages/client/src/daemon-client.ts:5779-5807 | Over any events a read is pending with what was asked exactly when its last read came with that and no end of it came since |
| FileTransfer.ActiveExactly | packages/client/src/daemon-client.ts:7668-7683 | A transfer is under way exactly while some begin of a pending read has announced it and nothing has ended it |
| FileTransfer.ReceivingHolds | packages/client/src/daemon-client.ts:7669-7701 | While a file is being received the transfer holds exactly that request's chunks since its last begin, or none when it is too large |
| FileTransfer.CompletedExact | packages/client/src/daemon-client.ts:7731-7741 | In every run a completed read is the in-order concatenation of its own chunks between one begin and its end, as long as was declared |
| FileTransfer.CompletedStays | packages/client/src/daemon-client.ts:5795-5807 | A completed file stays, whatever happens to others, until its read takes it, and then nothing of that read is left |
| FileTransfer.EndExact | packages/client/src/daemon-client.ts:7703-7754 | The end of a transfer says too large, incomplete or delivered exactly when the limit is exceeded, the sum differs, or neither |
| FileTransfer.SplitFlatten | packages/client/src/daemon-client.ts:5963-5979 | Splitting by any positive chunk size and concatenating is the identity |
| FileTransfer.SplitSizes | packages/client/src/daemon-client.ts:5963-5979 | Every piece but the last has the chosen size, and the last is neither empty nor longer |
| FileTransfer.RoundTrip | packages/client/src/daemon-client.ts:1249-1257 | From the read to its file: asked for, announced within its limit, split into pieces of any positive size and sent among other requests' events, the file arrives whole, with the place asked for, and the request is told so |
| FileTransfer.ReadExample | packages/client/src/daemon-client.ts:5779-5807 | A read of three bytes, from the request to the file and the reply |
| FileTransfer.UploadChunks | packages/client/src/daemon-client.ts:5963-5979 | The upload loop sends the pieces in order, all of them or those before the interruption |
| FileTransfer.ConcatByteChunks | packages/client/src/daemon-client.ts:1249-1257 | The array holds the chunks one behind the other and zeros after them |
| FileReaders.FileReader.HandleFrame | packages/client/src/daemon-client.ts:7668-7754 | The frame handler takes its step on the maps |
| FileReaders.FileReader.EndRead | packages/client/src/daemon-client.ts:5795-5807 | A finished read takes its file and leaves no transfer of its own behind |
| RuntimeMetrics.RecordRecounts | packages/client/src/daemon-client-runtime-metrics.ts:57-76 | Recording an event keeps six maps equal to a recount of the events |
| RuntimeMetrics.SamplesExactly | packages/client/src/daemon-client-runtime-metrics.ts:57-76 | What each kind of event adds to which series, frames with their bytes and times under "binary:" and their kind |
| RuntimeMetrics.MergedRecounts | packages/client/src/daemon-client-runtime-metrics.ts:209-233 | Merging two recounts gives the recount of both lists of events: counts, byte totals, and count, total and maximum of timings |
| RuntimeMetrics.Partition | packages/client/src/daemon-client-runtime-metrics.ts:113-137 | Every event is in exactly one place, in order: one sealed bucket, pruned or not, or the current maps; stream events alone seal nothing |
| RuntimeMetrics.KeptExact | packages/client/src/daemon-client-runtime-metrics.ts:139-144 | With a clock that does not run backwards, dropping from the front keeps exactly the buckets that ended within the window |
| RuntimeMetrics.WithinExactly | packages/client/src/daemon-client-runtime-metrics.ts:139-144 | The window holds exactly the buckets that ended at its start or later |
| MetricsRecorders.MetricsRecorder.constructor | packages/client/src/daemon-client-runtime-metrics.ts:46-55 | The window is the given one if positive and 60 s otherwise, and the maps start as the recount of nothing |
| RuntimeMetrics.ActivityShows | packages/client/src/daemon-client-runtime-metrics.ts:114-116 | The maps show activity exactly when a message or frame is among the events |
| MetricsRecorders.MetricsRecorder.Flush | packages/client/src/daemon-client-runtime-metrics.ts:78-93 | The report is the recount of every event whose bucket ended within the window, withheld exactly when it holds no message or frame and is not the last |
| MetricsRecorders.MetricsRecorder.ConsumeCurrentBucket | packages/client/src/daemon-client-runtime-metrics.ts:113-137 | Seals the current maps into a bucket exactly when they show activity |
| MetricsRecorders.MetricsRecorder.PruneBuckets | packages/client/src/daemon-client-runtime-metrics.ts:139-144 | The loop drops the expired buckets at the front |
| MetricsRecorders.MetricsRecorder.AggregateBuckets | packages/client/src/daemon-client-runtime-metrics.ts:146-160 | The loop yields the recount of all buckets' events |
| MetricsRecorders.MetricsRecorder.RecordMessage | packages/client/src/daemon-client-runtime-metrics.ts:57-61 | Records a message in three maps: one more under its type, its bytes, its time |
| MetricsRecorders.MetricsRecorder.RecordAgentStream | packages/client/src/daemon-client-runtime-metrics.ts:63-70 | Records a stream event in two maps |
| MetricsRecorders.MetricsRecorder.RecordBinaryFrame | packages/client/src/daemon-client-runtime-metrics.ts:72-76 | Records a frame: one more under its kind, with bytes and time under "binary:" and its kind |
| MetricsRecorders.MergeCountMap | packages/client/src/daemon-client-runtime-metrics.ts:209-213 | The loop adds one count map into another, key by key |
| MetricsRecorders.MergeHandlerTimingMap | packages/client/src/daemon-client-runtime-metrics.ts:215-233 | The loop joins counts, totals and maxima key by key |
| ProviderWait.SettlesFirst | packages/client/src/index.ts:1111-1186 | No wake-up is lost: in every interleaving the wait settles at the first moment it should (ready snapshot, ready latest earlier update for its directory, ready later update, failure, abort, timeout), with that outcome, and keeps it |
| ProviderWait.StaysOpen | packages/client/src/index.ts:1111-1186 | And it stays open until there is such a moment |
| ProviderWait.NeverResolvesLoading | packages/client/src/index.ts:1139-1183 | It never resolves with an entry that is loading, whatever happens |
| ProviderWait.LoadingExactly | packages/client/src/index.ts:1156-1159 | The names it reports are exactly those of the loading entries, and none exactly when nothing loads |
| ProviderWait.TimeoutNames | packages/client/src/index.ts:1154-1166 | A wait that is open at the timeout ends with exactly the providers that load in what it saw last of its directory |
| ProviderWait.SettledStays | packages/client/src/index.ts:1123-1135 | Once settled it stays as it is |
| ProviderWait.WakesExactly | packages/client/src/index.ts:1142-1149 | After the response, a ready update for its directory ends the wait if and only if the request id is not empty |
| ProviderWait.DeafForever | packages/client/src/index.ts:1142-1145 | With an empty request id only a failure, an abort or the timeout can end the wait |
| ProviderWait.LostWakeUp | packages/client/src/index.ts:1142-1145 | A run in which the wake-up is there and is lost |
| ProviderWait.Waiter.OnUpdate | packages/client/src/index.ts:1139-1150 | The update handler takes its step |
| ProviderWait.Waiter.OnSnapshot | packages/client/src/index.ts:1171-1184 | The response handler takes its step |
| ReleaseVersion.AcceptedExactly | packages/app/native-release-version.js:10-38 | A version gets numbers exactly up to 209.999.999, short of 0.0.0, with a beta number from 1 to 998 |
| ReleaseVersion.SafeIntegerCheckNeverFails | packages/app/native-release-version.js:40-44 | The last check never refuses anything |
| ReleaseVersion.DecodeBuild | packages/app/native-release-version.js:31-41 | The iOS build number gives the version back by division and remainder |
| ReleaseVersion.NumbersExactly | packages/app/native-release-version.js:31-57 | Every accepted version has exactly these numbers: three digits each for minor and patch, the beta number or 999 behind them on iOS, and 1 to 4 behind them for armeabi-v7a, arm64-v8a, x86 and x86_64 |
| ReleaseVersion.RefusedExactly | packages/app/native-release-version.js:10-38 | A refused version is refused for the first reason that applies: not a version, a minor or patch over 999, a beta number out of range, a code out of range |
| ReleaseVersion.BuildOrder | packages/app/native-release-version.js:40-41 | iOS build numbers are ordered exactly as section 11 of Semantic Versioning 2.0.0 orders the versions, so no two share one |
| ReleaseVersion.FdroidCodesExact | packages/app/native-release-version.js:51-57 | The F-Droid codes of two accepted versions are equal exactly for the same core and ABI, at most 2,100,000,000, and grow with the core |

## Left out

- Device credentials and access tickets: the client is modelled with both options absent.
- `verifyConnection`: modelled as the session drop its failure ends in, followed by `ensureConnected`.
- `whenConnected` barriers without a message, fire-and-forget sends and the notification scope: they own no waiter.
- The one-request wrappers of the client and the handle factories of the SDK: they only forward to `sendRequest`.
- Message schemas, frame codecs, `ConnectionSubscriptions`, `CreationClient` and the relay's cryptography: environment.
- Payload selectors of correlated requests: a response names the calls whose selector declines or throws.
- Tracing, logging and the error texts of rejections.
- Reconnect delays that are not whole numbers, or are negative or infinite, and what the host does with a timer delay above its own limit.
- Terminal stream routing below the set of open slots.
- Subscribing to the encrypted transport after it has opened or closed, the individual handler sets, and `send` beyond having an owner.
- `onSecurityMode` calling back into the wrapper before open is emitted: the report and open are one step.
- Python's equality of 1, 1.0 and True in the lockfile merge, and the order of keys in its result.
- FileTransfer.UploadChunks: asks for a positive chunk size, because with 0 the source's loop does not end.
- RuntimeMetrics.KeptExact: asks for a clock that does not run backwards; `MetricsRecorder.Flush` says what is reported without it.
- The observation of provider events becoming ready, and a client disposed before it does: the provider wait starts after that.
- Inline file payloads of old daemons, and the kind a file is shown as.
- Sorting and rounding of the metrics report, and its connection fields.
- The rest of `close` after the terminal slots: the final metrics flush is `MetricsRecorder.Flush`.
- Reading a version from text and writing the numbers as text; numbers too large for exact doubles, which are refused either way.
