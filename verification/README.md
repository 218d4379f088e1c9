# PlaceNet Hamlet: verified models

Hamlet is a home-node server. It registers radio beacons through HTTP handshakes, broadcasts an
authenticated URL to them over MQTT, keeps WebSocket and MQTT connections to gateways, and runs all
of this under a small supervisor. This project models the parts of Hamlet whose behaviour unfolds
over time and proves what holds in every run of them.

`dafny verify dfyconfig.toml` checks everything.

## How the models are built

Each long-lived part is a state machine: a datatype for its state, a datatype for its events, a
`Next` function and a `Run` over a sequence of events. Everything the program does not decide itself
(which `select!` branch wins, what the network answers, what the clock and the random source say,
where a future is dropped) is in the events, so a theorem about `Run(.., es)` for all `es` is a
theorem about every run. Where a machine keeps books (a last-seen time, a log, a list of frames),
a `History` module or lemma reads the same facts off the events alone. Beside each machine stands the code in its own form (classes, loops, early
returns), with a contract that ties it to the machine.

| files | part of Hamlet |
|---|---|
| `Registry`, `MessageLoop`, `BeaconRegistry` | the beacon registry and the `select!` loop, as values, as a machine with the sweep cut into micro-steps, and as classes and loops |
| `History` | each record read off the messages and channels that made it |
| `Gateways`, `Topics`, `Timeouts` | what every run of that loop keeps: gateway handles, the broadcast list, timing |
| `GatewayTasks`, `LingeringTime` | the loop together with the WebSocket tasks it spawns, which outlive their handles, and for how long |
| `Endpoints`, `GatewayRuns` | the same with gateways compared by what is dialled, and concrete runs in which one is dialled twice |
| `BroadcastKeys`, `BroadcastTokens`, `KeyManagement` | the broadcast-key table, slots and tokens, and the broadcast cycle |
| `GatewayMqttTask`, `GatewayMqttHistory`, `ConnectionTask` | the cloud-gateway MQTT task: flat, read off its events, and in nested loops |
| `WebSocketTask`, `WebSocketHistory`, `WebSocketConnection` | the WebSocket task: flat, read off its events, and in nested loops |
| `Backoff`, `Oneshot` | the reconnect delay and the shutdown receiver both tasks use |
| `Supervisor`, `SupervisorReplies`, `Services`, `ManagedServices` | the supervisor over arbitrary services, its replies, the real services under it, and both as classes |
| `Urls` | the two URL transformations |

## Where the code does less than it says

- `registry.rs:159` says a timed-out beacon's gateway can be connected to again. A known gateway URL
  loses its last holder, and is refused for ever after, when the sweep is cancelled on its beacon,
  when the message announcing it cannot be tied to a registered beacon, or when its beacon announces
  another one. `Gateways.OrphanCount` shows that these steps, counted exactly, are the only way, and
  `Gateways.SweptGatewayCanStayBlocked` gives a run for any beacon and gateway.
- A sweep cancelled after taking a beacon out of the map leaves that beacon's topic in the broadcast
  list for ever (`Topics.ListMatchesLiveBeacons`, `Topics.StrandedForEver`); the same run shows it
  (`Topics.SweptTopicCanStayListed`).
- The registry compares gateway URLs as announced, while a task dials what `compute_ws_url` makes of
  them: `https://g`, `https://g/`, `https://g/ws` and `wss://g` are four URLs and one endpoint
  (`Urls.FourSpellings`, exact in `Urls.SameEndpoint`). Beacons that announce two spellings get two
  tasks to one endpoint, both with their handles held (`Endpoints.TwoSpellings`), and another
  spelling of our own URL makes us dial ourselves (`Endpoints.OwnGatewayDialled`).
  `Endpoints.OneTaskPerEndpoint` says exactly when neither happens, and
  `Endpoints.UniformSpellingSuffices` that one spelling per endpoint reduces it to the next point.
- The registry keeps at most one shutdown handle per announced URL, but dropping a handle only asks
  its task to stop: a task asleep between two attempts, up to 60 seconds, does not notice. Two tasks
  can therefore serve one URL (`GatewayRuns.TwoTasksOneGateway`); they do exactly when a message
  announces a URL that a task without a handle still serves (`GatewayTasks.OneTaskPerUrl`), which
  cannot happen more than 60 seconds after the handle was dropped if the task is prompt
  (`LingeringTime.SpacedAnnouncementsSuffice`).
- A WebSocket session whose Register fails is reopened without any wait; between two connects there
  is exactly one of a wait and a failed Register (`WebSocketTask.ReconnectsAtOnce`).
- An HTTP gateway whose TLS set-up fails keeps the handle it stored before. It is then Failed, and
  every Start and Restart answers "already running" until somebody sends Stop, because Restart stops
  only Running services (`Services.GetsStuck`, `Services.OnlyStopRecovers`).
- `config.rs:268-272` and the comment on `BroadcastKeyManagement::new` say a retired key is kept for
  `key_expiry` after rotation. The code counts from creation, so it is kept only
  `key_expiry - rotation_interval` past its rotation deadline
  (`BroadcastKeys.RetiredKeyKeptLessThanDocumented`, exact in `BroadcastKeys.KeptExactlyUntilExpiry`).
- `Restart` on a Running MQTT client or gateway MQTT service always fails and leaves it stopped and
  Failed, because its receivers were consumed by the first start (`Services.RestartRunning`).
- `compute_ws_url` is meant to go to "/ws" below the gateway URL. With a query or fragment the path
  is left alone, so it does only if the path ends in "/ws" already; what is added lands in the query
  or fragment (`Urls.WsLandsInTail`, `Urls.QueryGetsWs`). Without one it does, unless the URL has no path and its authority is `ws`
  (then nothing is appended) or missing (then the scheme is damaged). `Urls.GoesBelowGateway` is exact.
- `Url::parse` accepts a URL without a host (`Urls.EmptyHostAccepted`); exactly those inputs do not
  survive printing and parsing again (`Urls.ParseNormalises`).

## Assumptions

- `Instant` never runs backwards; for the key table, the wall clock does not either (except in
  `AtMostOneActive`, which needs no clock assumption). The rotation interval and expiry are fixed for
  a run; the lemmas state which relation between them they need.
- A handshake's UUID is fresh, which the hypothesis `FromHandshakes` expresses.
- `LingeringTime` alone assumes that timers fire on time, that sending Register takes a bounded time,
  and that a task which can see its dropped handle takes that `select!` branch first.
- HMAC-SHA256 is an arbitrary function of material and slot.
- Integers are unbounded. Unix seconds plus a 32-bit interval cannot overflow the source's `i64`.

## Model

| member | source | states |
|---|---|---|
| Gateways.OneHandlePerUrl | src/services/beacon_management/registry.rs:128-204 | in every reachable state, mid-sweep and after cancelled sweeps included, the shutdown handles not yet dropped are exactly those live records hold, no two belong to the same announced URL, none to our own URL, every held URL is known and held once |
| Gateways.RunInv | src/app.rs:241-309 | from any state satisfying the invariant, every run keeps it, keeps every orphaned URL, and adds exactly one orphan per orphaning step |
| Gateways.OrphanCount | src/services/beacon_management/registry.rs:159-163 | the known URLs nobody holds number exactly the orphaning steps; all known URLs are ours or held iff there were none |
| Gateways.OrphanBlockedForEver | src/app.rs:286-308 | once a URL has no holder, no later event spawns a task to it, tied to a beacon or not, and no handle to it is ever held |
| Gateways.SweptGatewayCanStayBlocked | src/services/beacon_management/registry.rs:138-163 | for any beacon and gateway, a run from a complete handshake, every step of it possible, in which a timed-out beacon's gateway stays blocked |
| GatewayTasks.RunningTasks | src/services/cloud_gateway/cloud_gateway_service.rs:87-94 | in every run of the loop and its tasks, a task whose handle is held is running, none was spawned for our own URL, and of two running tasks for one announced URL at least one has lost its handle |
| GatewayTasks.OneTaskPerUrl | src/app.rs:286-308 | at every moment no two running tasks serve one announced URL iff no message spawns a task to a URL that a task without a handle still serves |
| GatewayTasks.OnlyFinishedSweepsCollide | src/services/beacon_management/registry.rs:159-163 | while no sweep has finished with a beacon, running tasks are unique per announced URL |
| GatewayRuns.TwoTasksOneGateway | src/services/cloud_gateway/cloud_gateway_service.rs:146-154 | for any two beacons and any URL, a run from complete handshakes, every step of it possible, at whose second 121 two running tasks serve it, the older asleep since second 62 |
| GatewayTasks.EndsWhenItListens | src/services/cloud_gateway/cloud_gateway_service.rs:140-183 | a running task ends iff its handle was dropped and it notices, which it can only while it connects or serves |
| GatewayTasks.LingersWhileAsleep | src/services/cloud_gateway/cloud_gateway_service.rs:219-220 | a sleeping task keeps running, its handle dropped or not, until its own sleep is over, whatever the loop and the other tasks do |
| GatewayTasks.TasksAreRuns | src/services/cloud_gateway/cloud_gateway_service.rs:87-94 | every task spawned in any run is a run of the WebSocket task from its initial state, so the laws of `WebSocketTask` hold of it |
| Endpoints.OneTaskPerEndpoint | src/services/cloud_gateway/cloud_gateway_service.rs:87-94 | at every moment running tasks dial pairwise different endpoints and never our own iff no message spawns a task to our own endpoint or to one a running task dials |
| Endpoints.UniformSpellingSuffices | src/app.rs:286-292 | if announced URLs and our own spell no endpoint in two ways, that holds iff no message announces the URL of a task without a handle |
| Endpoints.TwoSpellings | src/app.rs:286-308 | for any two spellings of one endpoint and any two beacons, a possible run with both handles held and both tasks dialling it |
| Endpoints.OwnGatewayDialled | src/services/beacon_management/registry.rs:46-66 | for any other spelling of our own URL, a possible run that dials our own endpoint |
| Endpoints.SlashAliases | src/services/cloud_gateway/cloud_gateway_service.rs:70-70 | every URL has another spelling |
| LingeringTime.LingersBriefly | src/services/cloud_gateway/cloud_gateway_service.rs:138-221 | in every timely run a task outlives its handle by at most 60 seconds, or by the time Register takes if that is longer |
| LingeringTime.SpacedAnnouncementsSuffice | src/services/beacon_management/registry.rs:159-163 | in every timely run in which no URL is announced within that time of its handle being dropped, running tasks are always unique per announced URL |
| Topics.ListMatchesLiveBeacons | src/services/beacon_management/registry.rs:98-157 | for handshake-produced channels the list has no duplicates and holds every live beacon's topic; topics without a live beacon number exactly the interruptions that caught a beacon with a topic, at most the interrupted sweeps; list and live topics agree iff there were none |
| Topics.StrandedForEver | src/app.rs:242-259 | a topic left behind by an interrupted sweep stays in the list in every continuation |
| Topics.SweptTopicCanStayListed | src/services/beacon_management/registry.rs:138-157 | for any beacon and gateway, a run fed by one handshake, every step of it possible, that ends with no beacon and the beacon's topic listed |
| Registry.DeliveredFromHandshakes | src/services/beacon_management/internals/handlers.rs:53-74 | channels of handshakes with distinct ids, in any interleaving and with any lost to a full channel, are of handshake form with no beacon broadcast twice |
| Registry.RegisterShape | src/services/beacon_management/registry.rs:73-119 | registering any channel touches one record and never its gateway, handle or (if it existed) last-seen time; the list gains the topic iff the channel is broadcast, or hybrid and subscribed |
| Registry.ProducedInOrder | src/services/beacon_management/internals/handlers.rs:53-74 | each handshake offers "{id}/rec" to listen on and then "{id}/cast" to broadcast on |
| Registry.WithoutAppend | src/services/beacon_management/registry.rs:152-157 | removing a topic works element by element and keeps the order of the rest |
| Timeouts.OnlyStaleRemoved | src/services/beacon_management/registry.rs:131-139 | the only step that removes a beacon is a sweep's, and only if no message came on its "{id}/rec" topic, nor was its record created, in the 120 s before that sweep began |
| Timeouts.SilenceBounded | src/services/beacon_management/registry.rs:128-177 | at any moment at most g seconds after the last completed sweep began, every registered beacon sent a message, or was created, within the last 120 + g seconds |
| History.RecordsTellHistory | src/services/beacon_management/registry.rs:73-119 | in every reachable state each record's last-seen time, topics and gateway are those of the last message, successful subscribe, broadcast channel and new URL since the record was created |
| History.SweepsTellHistory | src/services/beacon_management/registry.rs:128-136 | a sweep under way and the last completed one bear the time they began |
| History.MessageHasEffect | src/app.rs:261-309 | a message on "{id}/rec" refreshes exactly the record of id, and an unknown URL in it is added, spawned and stored on that record |
| BeaconRegistry.BeaconRegistry.constructor | src/services/beacon_management/registry.rs:46-66 | no records, our own URL known, the shared list as given |
| BeaconRegistry.BeaconRegistry.RegisterChannel | src/services/beacon_management/registry.rs:73-119 | the new registry is `Register` of the old one, for all three channel types and both subscribe outcomes |
| BeaconRegistry.BeaconRegistry.StaleIds | src/services/beacon_management/registry.rs:131-136 | every stale id once, in arbitrary order |
| BeaconRegistry.BeaconRegistry.Deregister | src/services/beacon_management/registry.rs:138-166 | one iteration is the machine's remove followed by finish or, dropped at an await, by cancel; it finishes iff enough awaits complete |
| BeaconRegistry.BeaconRegistry.CheckTimeouts | src/services/beacon_management/registry.rs:128-168 | the sweep is a legal run of the micro-steps; a completed one removes exactly the stale beacons, their gateways and their topics, and enough awaits complete it |
| BeaconRegistry.BeaconRegistry.UpdateLastSeen | src/services/beacon_management/registry.rs:173-177 | only the beacon's last-seen time changes, and nothing if it is unknown |
| BeaconRegistry.BeaconRegistry.AssociateGateway | src/services/beacon_management/registry.rs:194-204 | URL and handle are stored on a registered beacon, nothing on an unknown one |
| BeaconRegistry.HandleMessage | src/app.rs:261-309 | the sender's record, found by its "{id}/rec" topic, is refreshed; a URL not known yet is added, spawned once and stored on it; nothing else changes, as in the machine |
| BeaconRegistry.HandleInput | src/app.rs:242-259 | each winning branch is the matching legal segment of machine events |
| BeaconRegistry.RunBeaconMessageLoop | src/app.rs:234-311 | over any inputs with a monotonic clock the loop is a legal run of the machine taking exactly those inputs in order; afterwards gateways are held once, known and never our own, and the list is duplicate-free, holds every live beacon's topic and at most one stray topic per interrupted sweep |
| BroadcastKeys.AtMostOneActive | src/services/beacon_management/key_management.rs:162-181 | in every state, whatever the clock does and whichever inserts fail, at most one key is active |
| BroadcastKeys.RotationOutcome | src/services/beacon_management/key_management.rs:154-181 | a failed retirement changes nothing, a failed insert leaves every row and none active, a complete rotation leaves the new row alone active |
| BroadcastKeys.RunInv | src/services/beacon_management/key_management.rs:76-181 | deadlines count from creation, retired keys are past their rotation deadline, and creation times are at least one rotation interval apart, in every run |
| BroadcastKeys.InForce | src/services/beacon_management/key_management.rs:79-97 | a stored key before its rotation deadline is the only row the query can return, and no rotation happens |
| BroadcastKeys.SameKeyThroughWindow | src/services/beacon_management/key_management.rs:76-98 | once stored, a key is what every call returns until its rotation deadline, its row unchanged |
| BroadcastKeys.KeptExactlyUntilExpiry | src/services/beacon_management/key_management.rs:136-149 | a key is still stored, unchanged but for retirement and never re-activated, iff no sweep succeeded at or after creation plus expiry |
| BroadcastKeys.ReturnedKeyRetained | src/services/beacon_management/key_management.rs:76-98 | a key returned at clock t survives every rotation and sweep up to t + (expiry - rotation) |
| BroadcastKeys.RetentionIsSharp | src/services/beacon_management/key_management.rs:154-157 | one second later it can be gone |
| BroadcastKeys.RetiredKeyKeptLessThanDocumented | src/config.rs:268-272 | for every configuration a retired key is deleted before `key_expiry` has passed since its rotation |
| BroadcastKeys.TableStaysSmall | src/services/beacon_management/key_management.rs:136-181 | after every successful sweep at most ceil(expiry/rotation) rows remain, failed inserts and earlier failed sweeps included |
| BroadcastKeys.BoundAttained | src/services/beacon_management/key_management.rs:154-181 | rotating on time reaches that bound for every configuration |
| BroadcastTokens.SlotOfClock | src/services/beacon_management/key_management.rs:110-111 | the slot is the one and only multiple of the rotation interval, or of one second if that is zero, that the clock lies in |
| BroadcastTokens.TokenOfSlot | src/services/beacon_management/key_management.rs:113-120 | the token is the MAC of the slot that the clock lies in |
| BroadcastTokens.DriftTolerance | src/services/beacon_management/key_management.rs:35-42 | clocks at most d apart are always within one slot iff d is at most the rotation interval, or one second if that is zero |
| BroadcastTokens.DriftingBeaconAccepts | src/services/beacon_management/key_management.rs:109-121 | a beacon that checks the slot its own clock lies in and the two next to it accepts every token when the drift is at most the rotation interval |
| BroadcastTokens.WindowUsesTwoSlots | src/services/beacon_management/key_management.rs:109-111 | tokens generated in a key's window use at most two adjacent slots of rotation-interval length |
| BroadcastTokens.HexRoundTrip | src/services/beacon_management/key_management.rs:203-205 | two lowercase digits a byte, and decoding returns the bytes |
| KeyManagement.NeverCorrupt | src/services/beacon_management/key_management.rs:207-226 | no stored row is ever reported corrupt, and its deadlines count from creation |
| KeyManagement.AlwaysWellSized | src/services/beacon_management/key_management.rs:207-226 | in every run from an empty table all ids have four bytes and all materials sixteen |
| KeyManagement.BroadcastKeyManagement.Query | src/services/beacon_management/key_management.rs:79-89 | an active row before its deadline with the latest deadline of all active rows, or none iff there is none |
| KeyManagement.BroadcastKeyManagement.RotateKey | src/services/beacon_management/key_management.rs:154-191 | succeeds iff both statements do and the id is fresh; every row is retired iff the first statement succeeded, and the new one stored with its three times |
| KeyManagement.BroadcastKeyManagement.GetOrRotateKey | src/services/beacon_management/key_management.rs:76-98 | exactly the machine's hit or rotation; yields a key iff the query succeeds and finds one or the rotation goes through; a returned key is the stored row |
| KeyManagement.BroadcastKeyManagement.SweepExpired | src/services/beacon_management/key_management.rs:136-149 | deletes exactly the expired rows and returns how many |
| KeyManagement.BroadcastKeyManagement.BroadcastCycle | src/app.rs:43-95 | the cycle goes through iff the query succeeds and finds a key or the rotation goes through; then it sweeps and publishes to every listed topic, in order, the same key id and the token of the slot that the clock lies in; otherwise it does neither |
| KeyManagement.PublishedTokenAccepted | src/services/beacon_management/key_management.rs:127-131 | the published token field decodes to a token the drifting beacon accepts |
| GatewayMqttHistory.TaskFollowsEvents | src/services/gateway_mqtt/tasks.rs:32-137 | over the events taken: every failure, loss and refusal leads to the backoff, a backoff to a login unless credentials are in force; the cache holds the last login's credentials not refused since; logins equal refusals plus one iff credentials are cached |
| GatewayMqttHistory.ConnectsWithGranted | src/services/gateway_mqtt/tasks.rs:67-107 | every connection is built with the credentials of the last login taken, not refused since; passes, publications and queue are those of the events |
| GatewayMqttHistory.DelayFollowsEvents | src/services/gateway_mqtt/tasks.rs:179-186 | the delay and the total waited, in closed form, for the k waits taken since the last ConnAck taken |
| GatewayMqttHistory.TakesWhereItIs | src/services/gateway_mqtt/tasks.rs:42-131 | which events the task takes in each place: shutdown everywhere but while it builds its options |
| GatewayMqttTask.OneBackoffPerPass | src/services/gateway_mqtt/tasks.rs:34-137 | passes of the outer loop and full backoffs alternate |
| GatewayMqttTask.NothingLostInTheQueue | src/services/gateway_mqtt/tasks.rs:100-107 | messages handed to publish followed by those queued are those accepted, in order |
| GatewayMqttTask.ShutdownIsFinal | src/services/gateway_mqtt/tasks.rs:43-137 | shutdown seen at any await ends the task, which acts no more |
| ConnectionTask.ConnectionTask.Park | src/services/gateway_mqtt/tasks.rs:93-109 | waiting takes nothing but enqueued messages and stops at an event the await takes |
| ConnectionTask.ConnectionTask.Backoff | src/services/gateway_mqtt/tasks.rs:179-186 | sleeps or sees shutdown, doubles the delay up to the cap, as the machine does |
| ConnectionTask.ConnectionTask.EnsureCredentials | src/services/gateway_mqtt/tasks.rs:35-65 | cached credentials skip the login; each login outcome leads where the machine goes |
| ConnectionTask.ConnectionTask.BuildConnection | src/services/gateway_mqtt/tasks.rs:67-90 | a connection with the cached credentials, or a backoff |
| ConnectionTask.ConnectionTask.Serve | src/services/gateway_mqtt/tasks.rs:92-133 | the inner loop follows the machine, which drops the credentials on a refusal only, and leaves it only for shutdown or backoff |
| ConnectionTask.ConnectionTask.Execute | src/services/gateway_mqtt/tasks.rs:29-140 | the nested loops end where the flat machine does on every script, and the shutdown receiver is never polled after it delivered |
| WebSocketTask.RegisterFirst | src/services/cloud_gateway/cloud_gateway_service.rs:161-206 | on every session Register is the first frame and only once, and nothing follows a failed Register, a failed data frame or a close; a failed Pong is ignored |
| WebSocketTask.SleepsOn | src/services/cloud_gateway/cloud_gateway_service.rs:219-220 | a sleeping task stays asleep through every event but the end of its sleep, shutdown included |
| WebSocketTask.ReconnectsAtOnce | src/services/cloud_gateway/cloud_gateway_service.rs:161-175 | between two consecutive connects the task waits once or fails to send Register once, never both; without a wait the first connect succeeded |
| WebSocketTask.Conservation | src/services/cloud_gateway/cloud_gateway_service.rs:177-217 | messages are taken in FIFO order; those sent are those taken less the unserialisable and at most one lost per session |
| WebSocketTask.BackoffClosedForm | src/services/cloud_gateway/cloud_gateway_service.rs:146-158 | the delay and total wait since the last successful connect, in closed form |
| WebSocketHistory.TaskFollowsEvents | src/services/cloud_gateway/cloud_gateway_service.rs:138-221 | over the events taken: a failed connect, a lost message and a closed stream lead to sleep, a failed Register back to connecting; the delay and each wait are those of the k waits since the last connect |
| WebSocketHistory.FramesFollowEvents | src/services/cloud_gateway/cloud_gateway_service.rs:161-216 | one session per connect; the frames other than data are one Register per Register event, one Pong per ping and a Close for a shutdown while serving, in order |
| WebSocketHistory.TakesWhereItIs | src/services/cloud_gateway/cloud_gateway_service.rs:138-219 | which events the task takes in each place: shutdown only while it connects or serves |
| WebSocketConnection.WebSocketConnection.Connect | src/services/cloud_gateway/cloud_gateway_service.rs:138-158 | a new session with the delay reset, a wait, or the end |
| WebSocketConnection.WebSocketConnection.SendRegister | src/services/cloud_gateway/cloud_gateway_service.rs:161-175 | Register is attempted unless it cannot be serialised; failure reconnects at once |
| WebSocketConnection.WebSocketConnection.Relay | src/services/cloud_gateway/cloud_gateway_service.rs:185-195 | one message leaves the queue with its outcome; only a failed send ends the session |
| WebSocketConnection.WebSocketConnection.Receive | src/services/cloud_gateway/cloud_gateway_service.rs:179-216 | shutdown closes, a ping is answered, a closed stream ends the session |
| WebSocketConnection.WebSocketConnection.Serve | src/services/cloud_gateway/cloud_gateway_service.rs:177-217 | the inner loop follows the machine and leaves it only for shutdown or a broken session |
| WebSocketConnection.WebSocketConnection.Sleep | src/services/cloud_gateway/cloud_gateway_service.rs:219-220 | waits the delay, uninterrupted, and doubles it up to the cap |
| WebSocketConnection.WebSocketConnection.Execute | src/services/cloud_gateway/cloud_gateway_service.rs:135-224 | the nested loops end where the flat machine does on every script |
| Supervisor.StatusesTellTheTruth | src/supervisor.rs:138-239 | for arbitrary service behaviour the maps share their keys, nothing is Starting between commands, Running means the last successful call was a start, and two successful starts have a successful stop between them |
| Supervisor.RegisteredAs | src/supervisor.rs:116-129 | after any registrations a service is Stopped if its last one was available and Unavailable if it was not |
| Supervisor.UnavailableForEver | src/supervisor.rs:116-129 | a service last registered as not available stays Unavailable and is never called |
| SupervisorReplies.RepliesTell | src/supervisor.rs:138-239 | for arbitrary services: Start and Restart are answered Ok iff a start was called and succeeded, a failed one with the reason in the Failed status, Stop iff a stop was called and succeeded, Status with the statuses of that moment; which calls are made, and that no other service changes |
| Services.StatusMatchesService | src/supervisor.rs:169-231 | Running implies the shutdown handle is held, Stopped that it is not, and only the HTTP gateway can be Failed with one |
| Services.StopRunningSucceeds | src/supervisor.rs:205-231 | stopping a Running service succeeds and releases its handle |
| Services.StopOutcome | src/supervisor.rs:205-231 | in every run, Stop succeeds iff the service is Running, or Failed and either the gateway MQTT service or the HTTP gateway with a handle left over; otherwise nothing changes |
| Services.GatewayComesUp | src/services/beacon_management/gateway_service.rs:60-86 | in every run, Start of the HTTP gateway succeeds iff it is Stopped or Failed because its socket did not bind, and binding and TLS now work; Restart iff that or Running |
| Services.GetsStuck | src/services/beacon_management/gateway_service.rs:65-71 | in every run, a command leaves the HTTP gateway Failed with its handle held iff it starts it and TLS fails after the socket was bound |
| Services.GatewayCanGetStuck | src/services/beacon_management/gateway_service.rs:65-71 | one such start does it |
| Services.OnlyStopRecovers | src/supervisor.rs:205-239 | from then on, whatever is commanded short of its Stop, every Start and Restart fails; a Stop succeeds and releases the handle |
| Services.ReceiverHandedOutOnce | src/services/mqtt_client/mqtt_client_service.rs:111-127 | one-shot services start at most once, the tasks given their receivers number their successful starts, and Start or Restart succeeds iff nothing was ever called on the service, it is available and its options can be built |
| Services.RestartRunning | src/supervisor.rs:233-239 | Restart of a Running service succeeds iff it is the HTTP gateway and binding and TLS work; otherwise it ends Failed |
| ManagedServices.Supervisor.Register | src/supervisor.rs:116-129 | Stopped if available, else Unavailable, and the service stored |
| ManagedServices.Supervisor.HandleStart | src/supervisor.rs:169-203 | result, status, service and call of every branch |
| ManagedServices.Supervisor.HandleStop | src/supervisor.rs:205-231 | result, status, service and call of every branch |
| ManagedServices.Supervisor.HandleRestart | src/supervisor.rs:233-239 | a stop only if Running, its failure ignored, then a start |
| ManagedServices.Supervisor.ProcessCommands | src/supervisor.rs:138-156 | over service objects, commands are handled one by one, each reply tells what its command did, and statuses agree with the objects' private state afterwards |
| ManagedServices.Supervisor.StopAll | src/supervisor.rs:158-163 | exactly one stop call per service is made, in the map's arbitrary order, after which no service holds a handle and none has handed out a receiver on the way |
| ManagedServices.Supervisor.Live | src/supervisor.rs:135-164 | the task's whole life from any agreeing state: replies, final statuses and calls, no handle held, and at most one receiver handout per one-shot service, shutdown included |
| ManagedServices.RunSupervisor | src/supervisor.rs:116-167 | the same from construction and registration of new service objects on |
| Urls.PrintParse | src/services/gateway_mqtt/login.rs:139-162 | printing then parsing returns the same URL, colons in the host included, iff the host is non-empty |
| Urls.ParseAccepts | src/services/gateway_mqtt/login.rs:139-162 | an input is accepted iff it begins with "https://" or "http://" and what follows up to the next slash has no colon, one in front, or a port after the last |
| Urls.ParseNormalises | src/services/gateway_mqtt/login.rs:139-162 | every accepted input has a normal form that parses to the same URL iff something other than a slash follows its first "://" |
| Urls.HostFromInput | src/services/gateway_mqtt/login.rs:149-158 | an accepted input has an empty host iff nothing or a slash follows its first "://" |
| Urls.EmptyHostAccepted | src/services/gateway_mqtt/login.rs:149-160 | every such http or https URL is accepted, with the default port |
| Urls.ParsedIsPlausible | src/services/gateway_mqtt/login.rs:149-160 | a parsed URL has a slash-free host, a 16-bit port and a rooted path |
| Urls.PortDecides | src/services/gateway_mqtt/login.rs:153-157 | what follows the last colon must be a port, and is |
| Urls.PortAccepted | src/services/gateway_mqtt/login.rs:155-155 | the texts accepted as port n are exactly its decimal numeral after any number of zeros and at most one plus sign, for each n up to 65535 and no other |
| Urls.DefaultPortUsed | src/services/gateway_mqtt/login.rs:158-158 | 443 for https and 80 for http when no port is given |
| Urls.MissingPathIsRoot | src/services/gateway_mqtt/login.rs:149-152 | no path means "/" |
| Urls.WsUrlIdempotent | src/services/cloud_gateway/cloud_gateway_service.rs:69-83 | applying the transformation twice is applying it once, for every string |
| Urls.TrailingSlashesIgnored | src/services/cloud_gateway/cloud_gateway_service.rs:70-70 | any number of trailing slashes makes no difference |
| Urls.EndsInWs | src/services/cloud_gateway/cloud_gateway_service.rs:78-82 | the result always ends in "/ws" |
| Urls.SecureStaysSecure | src/services/cloud_gateway/cloud_gateway_service.rs:71-72 | an https gateway is always reached over wss |
| Urls.GoesBelowGateway | src/services/cloud_gateway/cloud_gateway_service.rs:69-83 | for every authority, path and query or fragment, the result keeps scheme and authority and has a path ending in "/ws" iff, without query and fragment, not both the path is empty or slashes and the authority is missing or `ws`; with one, iff the path ended in "/ws" already |
| Urls.WsLandsInTail | src/services/cloud_gateway/cloud_gateway_service.rs:78-82 | with a query or fragment, scheme aside, only that is changed |
| Urls.TailKept | src/services/cloud_gateway/cloud_gateway_service.rs:78-82 | a query or fragment stays as it was iff it ends in "/ws" |
| Urls.QueryGetsWs | src/services/cloud_gateway/cloud_gateway_service.rs:78-82 | the family of URLs whose query or fragment gets the "/ws" |
| Urls.SameEndpoint | src/services/cloud_gateway/cloud_gateway_service.rs:69-83 | two URLs give one endpoint iff, trimmed and with the scheme swapped, they are equal or one is the other, not ending in "/ws", followed by "/ws" |
| Urls.FourSpellings | src/services/cloud_gateway/cloud_gateway_service.rs:69-83 | four spellings give one endpoint for every authority but `ws` |

## Left out

- HMAC-SHA256, random generation and key distribution to beacons: only slots and the key lifecycle are Hamlet's own logic.
- SQLite: the key table is a map, and each statement either takes effect or fails; crashes inside a statement are not modelled.
- Concurrent callers of `get_or_rotate_key`: the broadcast loop is the only caller.
- The Mosquitto service and the `CloudGatewayService` wrapper: the first drives a child process and is covered only as an arbitrary service; the second has the `start` and `stop` of the gateway MQTT service.
- `CloudGatewayHandle` inside `GatewayTasks`: that the announcing beacon's payload is queued first is an `Enqueue` step of the task like any other.
- Endpoints are compared as the strings handed to the WebSocket client: that two of them may differ in letter case or name a default port is not modelled.
- The capacity of the channels: a full channel only drops or delays messages before they are accepted. A publish that blocks because the MQTT client's request queue is full is not modelled.
- JSON parsing of beacon messages: a message carries the gateway URL it advertises, or none.
- QoS levels and the MQTT subscriptions themselves: a subscribe succeeds or fails.
- Jitter and interval scheduling in the broadcast loop: only the order of its operations.
- The certificate authority, TLS set-up, HTTP proxying, the login exchange, configuration and logging: plumbing and foreign libraries.
