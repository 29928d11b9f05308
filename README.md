# Kaa connection core, modelled in Dafny

This project models four pieces of the Kaa IoT platform and proves properties about them:

- **The client's operation TCP channel** (`DefaultOperationTcpChannel`). This state machine opens, pauses, resumes and shuts down the connection to an operations server. It routes server failures to the failover logic, reacts to CONNACK, SYNC-RESPONSE and DISCONNECT frames, and sends SYNC requests with a per-transport-type direction map.
- **The client lifecycle guard** (`AbstractKaaClient`). This is the `CREATED/STARTED/PAUSED/STOPPED` state machine behind `start`, `stop`, `pause` and `resume`, the "client must be started" guard on feature calls, and the bootstrap-server check in the constructor.
- **The endpoint group, user and profile rules of the DAO service** (`EndpointServiceImpl`). These cover:
  - uniqueness of (application, weight) among endpoint groups;
  - protection of the default group (weight 0);
  - the `endpointIds` bookkeeping when an endpoint is attached to or detached from a user;
  - the duplicate checks for users and profiles;
  - the unescaping of stored log records.
- **The actor routing key** (`ActorClassifier`) and its `equals`/`hashCode` contract.

The project is organised in two layers. Each source class with mutable fields is a Dafny `class` with those fields. Each of its methods is proved to produce exactly the state and the result of a pure function over a snapshot of the fields. The properties the source promises are then proved as lemmas about those functions.

| file | module | content |
|---|---|---|
| `common.dfy` | `Common` | `Option`, `Result` and `Outcome` (pass or throw) |
| `actor_classifier.dfy` | `ActorRoute` | `ActorClassifier` value, `equals`, `hashCode` |
| `transport.dfy` | `Transport` | transport types, `SUPPORTED_TYPES`, the direction-map loop of `sync` |
| `channel_spec.dfy` | `ChannelSpec` | channel fields, environment outcomes, effects, one function per channel method |
| `channel.dfy` | `OperationChannel` | class `DefaultOperationTcpChannel` |
| `channel_lemmas.dfy` | `ChannelProperties` | guards, reconnect, lifecycle, failure routing, frame handling, invariant over every run |
| `client.dfy` | `KaaClient` | lifecycle functions and class `AbstractKaaClient` |
| `endpoint_spec.dfy` | `EndpointSpec` | records, DAO store, validation, one function per service operation |
| `endpoint_service.dfy` | `EndpointServiceModel` | class `EndpointServiceImpl` over in-memory DAO maps |
| `endpoint_lemmas.dfy` | `EndpointProperties` | group, attach/detach, user, profile and log properties, invariants |

The channel has no control over its environment, so the model takes each outcome as a parameter (`Env`):
- whether the socket is created;
- whether a frame is sent;
- the connectivity check;
- the failover manager's decision;
- whether a SYNC-RESPONSE body decrypts.

Everything the channel does to the outside world is appended to an effect log. Effects include `SentConnect`, `SentDisconnect`, `SentSync(directions)`, `ServerConnected`, `ServerFailed`, `Failover`, `CleanState`, `ScheduledReconnect(delay)` and `Exit`. Sockets are numbered in creation order. The channel records the socket it handed to the latest read task (`readTaskSocket`). A read event names the socket it read from, and the model compares that number with the live `socket`, as the stale-socket check of the read loop does.

The services the endpoint DAO depends on are modelled as follows:
- Each DAO is an in-memory store. Groups and users are maps from id to record, and `findById` is a map lookup. Profiles are an ordered sequence of rows, and `findByKeyHash`/`findByAccessToken` return the first matching row. `save` inserts or overwrites by id.
- The ids and timestamps that the DAO and the clock generate are parameters: `freshId` and `now`.
- The latest server-profile schema, which comes from another service, is the parameter `latest`.
- The DAO interfaces are not part of this model. The maps are an abstraction of them.

The DAO code calls a `Validator` class that is not part of this model. Its behaviour is assumed as follows:
- `isValidId(s)` holds iff `s` is not blank;
- `validateString` and `validateId` throw on a blank argument;
- `validateHash` throws on an empty array;
- `validateSqlId` throws unless the id is an optional sign followed by one or more decimal digits;
- `validateSqlObject`, `validateObject` and `isValidObject` only check that the object is not null. A record is never null in this model, so these calls never throw here. If `validateSqlObject` also checks the group's id, for example rejecting a non-blank id that is not a SQL id, that check is not modelled.

Some behaviours of the code are easy to misread. The model follows the code:
- `pause()` on a channel with a live socket first sets `PAUSE` and then calls `closeConnection()`, which overwrites the state with `CLOSED`. A later `resume()` therefore does nothing (`PauseOfLiveConnectionEndsClosed`).
- `pause()`, `syncAck` and a decrypted SYNC-RESPONSE all leave `SHUTDOWN`, so `SHUTDOWN` is not terminal (`ShutdownIsNotTerminal`).
- A SYNC-RESPONSE sets `OPENED` and reports the connection, but it does not call `syncAll`; only `syncAck` does.
- `sync(Set)` rebuilds the whole direction map for every requested type, so when several types are requested the last one iterated decides the map (`LastRequestedTypeWins`). For a single type, the only way this file calls it, the map is the documented one.
- `openConnection()` with no current server dereferences the missing server again inside its own catch block, so the exception escapes. This is modelled as clearing the reconnect flag and nothing else.
- The end of the read stream routes to `onServerFailed` without checking that the socket is still current. An `IOException` during a read does check.

## Model

| member | source | states |
|---|---|---|
| ActorRoute.New | server/node/src/main/java/org/kaaproject/kaa/server/operations/service/akka/messages/core/route/ActorClassifier.java:21-24 | the constructor stores its flag |
| ActorRoute.HashCode | server/node/src/main/java/org/kaaproject/kaa/server/operations/service/akka/messages/core/route/ActorClassifier.java:30-36 | the hash is 1262 for a global actor and 1268 otherwise, within Java `int` range |
| ActorRoute.IsGlobalActorReturnsArgument | server/node/src/main/java/org/kaaproject/kaa/server/operations/service/akka/messages/core/route/ActorClassifier.java:21-28 | `isGlobalActor()` returns exactly the constructor argument |
| ActorRoute.EqualsExactly | server/node/src/main/java/org/kaaproject/kaa/server/operations/service/akka/messages/core/route/ActorClassifier.java:38-50 | `equals` holds iff the other object is an `ActorClassifier` with the same flag; false for null and for other classes |
| ActorRoute.EqualsIsEquivalence | server/node/src/main/java/org/kaaproject/kaa/server/operations/service/akka/messages/core/route/ActorClassifier.java:38-50 | `equals` between classifiers is reflexive, symmetric and transitive |
| ActorRoute.HashCodeAgreesWithEquals | server/node/src/main/java/org/kaaproject/kaa/server/operations/service/akka/messages/core/route/ActorClassifier.java:30-50 | equal classifiers have equal hash codes, and unequal ones have different hash codes |
| Transport.SupportedOrderEnumeratesTable | client/client-multi/client-java-core/src/main/java/org/kaaproject/kaa/client/channel/impl/channels/DefaultOperationTcpChannel.java:75-83 | the iteration order of the supported-types table holds exactly the table's types |
| Transport.BuildDirectionMap | client/client-multi/client-java-core/src/main/java/org/kaaproject/kaa/client/channel/impl/channels/DefaultOperationTcpChannel.java:458-472 | the nested loops produce exactly the direction map the specification function defines for the requested types |
| Transport.PassYieldsDirectionsFor | client/client-multi/client-java-core/src/main/java/org/kaaproject/kaa/client/channel/impl/channels/DefaultOperationTcpChannel.java:458-472 | a map built by one outer pass has the supported types as its keys, gives the requested type its declared direction, and gives every other type `DOWN` |
| Transport.SingleTypeDirections | client/client-multi/client-java-core/src/main/java/org/kaaproject/kaa/client/channel/impl/channels/DefaultOperationTcpChannel.java:458-472 | for one supported type: keys are all supported types, that type keeps its direction, every other type is `DOWN`; for an unsupported type every type is `DOWN` |
| Transport.LastRequestedTypeWins | client/client-multi/client-java-core/src/main/java/org/kaaproject/kaa/client/channel/impl/channels/DefaultOperationTcpChannel.java:458-472 | with several requested types, the map still has exactly the supported types as keys, and an earlier supported type that differs from the last one ends up `DOWN` |
| OperationChannel.DefaultOperationTcpChannel.constructor | client/client-multi/client-java-core/src/main/java/org/kaaproject/kaa/client/channel/impl/channels/DefaultOperationTcpChannel.java:268-275 | a new channel is `CLOSED` with no socket, server, tasks or pending reconnect, and satisfies the invariant |
| OperationChannel.DefaultOperationTcpChannel.CloseConnection | client/client-multi/client-java-core/src/main/java/org/kaaproject/kaa/client/channel/impl/channels/DefaultOperationTcpChannel.java:311-339 | the fields and effects become those of the close function: futures cancelled, DISCONNECT sent and socket dropped when there was one, `CLOSED` unless `SHUTDOWN` |
| OperationChannel.DefaultOperationTcpChannel.ScheduleOpenConnectionTask | client/client-multi/client-java-core/src/main/java/org/kaaproject/kaa/client/channel/impl/channels/DefaultOperationTcpChannel.java:389-401 | schedules a reconnect with the given delay only when none is pending and an executor exists |
| OperationChannel.DefaultOperationTcpChannel.OnServerFailed | client/client-multi/client-java-core/src/main/java/org/kaaproject/kaa/client/channel/impl/channels/DefaultOperationTcpChannel.java:363-387 | closes the connection, then takes the no-connectivity failover branch or notifies the failover manager, as the routing function says |
| OperationChannel.DefaultOperationTcpChannel.OpenConnection | client/client-multi/client-java-core/src/main/java/org/kaaproject/kaa/client/channel/impl/channels/DefaultOperationTcpChannel.java:344-361 | no-op in `PAUSE`/`SHUTDOWN`; otherwise clears the reconnect flag and runs the connect attempt |
| OperationChannel.DefaultOperationTcpChannel.Connect | client/client-multi/client-java-core/src/main/java/org/kaaproject/kaa/client/channel/impl/channels/DefaultOperationTcpChannel.java:350-360 | creates the socket, sends CONNECT and starts the read and ping tasks, or routes a failure to `onServerFailed` |
| OperationChannel.DefaultOperationTcpChannel.ScheduleReadTask | client/client-multi/client-java-core/src/main/java/org/kaaproject/kaa/client/channel/impl/channels/DefaultOperationTcpChannel.java:403-410 | when an executor exists, starts a read task over the given socket and records that socket as the read task's; without one nothing changes |
| OperationChannel.DefaultOperationTcpChannel.SchedulePingTask | client/client-multi/client-java-core/src/main/java/org/kaaproject/kaa/client/channel/impl/channels/DefaultOperationTcpChannel.java:412-419 | starts the ping task when an executor exists |
| OperationChannel.DefaultOperationTcpChannel.Sync | client/client-multi/client-java-core/src/main/java/org/kaaproject/kaa/client/channel/impl/channels/DefaultOperationTcpChannel.java:426-478 | sends one SYNC with the direction map only when the sync guards hold; a send failure is only logged; the fields never change |
| OperationChannel.DefaultOperationTcpChannel.SyncAll | client/client-multi/client-java-core/src/main/java/org/kaaproject/kaa/client/channel/impl/channels/DefaultOperationTcpChannel.java:480-507 | under the sync guards sends a SYNC for all types; a send failure goes to `onServerFailed` |
| OperationChannel.DefaultOperationTcpChannel.SyncAck | client/client-multi/client-java-core/src/main/java/org/kaaproject/kaa/client/channel/impl/channels/DefaultOperationTcpChannel.java:509-533 | when not `OPENED`: becomes `OPENED`, reports the connection, then runs `syncAll`; when `OPENED`: one type leads to `sync`, several to `syncAll` |
| OperationChannel.DefaultOperationTcpChannel.OnConnAck | client/client-multi/client-java-core/src/main/java/org/kaaproject/kaa/client/channel/impl/channels/DefaultOperationTcpChannel.java:114-130 | ACCEPTED does nothing; bad credentials clean the state and fail; other codes fail |
| OperationChannel.DefaultOperationTcpChannel.OnSyncResponse | client/client-multi/client-java-core/src/main/java/org/kaaproject/kaa/client/channel/impl/channels/DefaultOperationTcpChannel.java:141-175 | a readable body sets `OPENED` and reports the connection; a decrypt failure changes nothing |
| OperationChannel.DefaultOperationTcpChannel.OnDisconnect | client/client-multi/client-java-core/src/main/java/org/kaaproject/kaa/client/channel/impl/channels/DefaultOperationTcpChannel.java:177-189 | reason NONE only closes the connection; any other reason takes the failure path |
| OperationChannel.DefaultOperationTcpChannel.OnRead | client/client-multi/client-java-core/src/main/java/org/kaaproject/kaa/client/channel/impl/channels/DefaultOperationTcpChannel.java:201-235 | a read error on the current socket fails the server, and on a stale socket does nothing; end of stream always fails |
| OperationChannel.DefaultOperationTcpChannel.SetServer | client/client-multi/client-java-core/src/main/java/org/kaaproject/kaa/client/channel/impl/channels/DefaultOperationTcpChannel.java:549-578 | a null server or `SHUTDOWN` changes nothing; otherwise replaces server and encoder, and reconnects when not paused and the address changed or there is no socket |
| OperationChannel.DefaultOperationTcpChannel.SetMultiplexer | client/client-multi/client-java-core/src/main/java/org/kaaproject/kaa/client/channel/impl/channels/DefaultOperationTcpChannel.java:542-547 | records the multiplexer and changes nothing else |
| OperationChannel.DefaultOperationTcpChannel.SetDemultiplexer | client/client-multi/client-java-core/src/main/java/org/kaaproject/kaa/client/channel/impl/channels/DefaultOperationTcpChannel.java:535-540 | records the demultiplexer and changes nothing else |
| OperationChannel.DefaultOperationTcpChannel.SetConnectivityChecker | client/client-multi/client-java-core/src/main/java/org/kaaproject/kaa/client/channel/impl/channels/DefaultOperationTcpChannel.java:585-588 | records the connectivity checker and changes nothing else |
| OperationChannel.DefaultOperationTcpChannel.DestroyExecutor | client/client-multi/client-java-core/src/main/java/org/kaaproject/kaa/client/channel/impl/channels/DefaultOperationTcpChannel.java:608-614 | drops the executor and clears the pending-reconnect flag |
| OperationChannel.DefaultOperationTcpChannel.Shutdown | client/client-multi/client-java-core/src/main/java/org/kaaproject/kaa/client/channel/impl/channels/DefaultOperationTcpChannel.java:590-596 | sets `SHUTDOWN`, closes the connection and destroys the executor |
| OperationChannel.DefaultOperationTcpChannel.Pause | client/client-multi/client-java-core/src/main/java/org/kaaproject/kaa/client/channel/impl/channels/DefaultOperationTcpChannel.java:598-606 | no-op in `PAUSE`; otherwise sets `PAUSE`, closes the connection and destroys the executor |
| OperationChannel.DefaultOperationTcpChannel.Resume | client/client-multi/client-java-core/src/main/java/org/kaaproject/kaa/client/channel/impl/channels/DefaultOperationTcpChannel.java:616-626 | acts only in `PAUSE`: becomes `CLOSED`, creates an executor and schedules an immediate reconnect |
| ChannelProperties.InitialInv | client/client-multi/client-java-core/src/main/java/org/kaaproject/kaa/client/channel/impl/channels/DefaultOperationTcpChannel.java:268-275 | the initial channel is `CLOSED`, quiescent and satisfies the invariant |
| ChannelProperties.ServerFailedKeepsInv | client/client-multi/client-java-core/src/main/java/org/kaaproject/kaa/client/channel/impl/channels/DefaultOperationTcpChannel.java:363-387 | `onServerFailed` preserves the invariant: a pending reconnect implies an executor, `PAUSE`/`SHUTDOWN` imply no socket and no running task, and the live socket and the latest read task's socket were created earlier |
| ChannelProperties.SyncAllKeepsInv | client/client-multi/client-java-core/src/main/java/org/kaaproject/kaa/client/channel/impl/channels/DefaultOperationTcpChannel.java:480-507 | `syncAll` preserves the invariant |
| ChannelProperties.ConnectKeepsInv | client/client-multi/client-java-core/src/main/java/org/kaaproject/kaa/client/channel/impl/channels/DefaultOperationTcpChannel.java:350-360 | the connect attempt preserves the invariant |
| ChannelProperties.OpenKeepsInv | client/client-multi/client-java-core/src/main/java/org/kaaproject/kaa/client/channel/impl/channels/DefaultOperationTcpChannel.java:344-361 | `openConnection` preserves the invariant |
| ChannelProperties.SyncAckKeepsInv | client/client-multi/client-java-core/src/main/java/org/kaaproject/kaa/client/channel/impl/channels/DefaultOperationTcpChannel.java:515-533 | `syncAck` preserves the invariant |
| ChannelProperties.SetServerKeepsInv | client/client-multi/client-java-core/src/main/java/org/kaaproject/kaa/client/channel/impl/channels/DefaultOperationTcpChannel.java:549-578 | `setServer` preserves the invariant |
| ChannelProperties.PauseKeepsInv | client/client-multi/client-java-core/src/main/java/org/kaaproject/kaa/client/channel/impl/channels/DefaultOperationTcpChannel.java:598-606 | `pause` preserves the invariant |
| ChannelProperties.ResumeKeepsInv | client/client-multi/client-java-core/src/main/java/org/kaaproject/kaa/client/channel/impl/channels/DefaultOperationTcpChannel.java:616-626 | `resume` preserves the invariant |
| ChannelProperties.ShutdownKeepsInv | client/client-multi/client-java-core/src/main/java/org/kaaproject/kaa/client/channel/impl/channels/DefaultOperationTcpChannel.java:590-596 | `shutdown` preserves the invariant |
| ChannelProperties.FramesKeepInv | client/client-multi/client-java-core/src/main/java/org/kaaproject/kaa/client/channel/impl/channels/DefaultOperationTcpChannel.java:114-235 | the CONNACK, SYNC-RESPONSE and DISCONNECT handlers and the read task preserve the invariant |
| ChannelProperties.ApplyKeepsInv | client/client-multi/client-java-core/src/main/java/org/kaaproject/kaa/client/channel/impl/channels/DefaultOperationTcpChannel.java:114-626 | every single event (call, task or frame) preserves the invariant |
| ChannelProperties.CallKeepsInv | client/client-multi/client-java-core/src/main/java/org/kaaproject/kaa/client/channel/impl/channels/DefaultOperationTcpChannel.java:311-626 | every public call and scheduled task preserves the invariant |
| ChannelProperties.FrameKeepsInv | client/client-multi/client-java-core/src/main/java/org/kaaproject/kaa/client/channel/impl/channels/DefaultOperationTcpChannel.java:114-235 | every incoming frame and read outcome preserves the invariant |
| ChannelProperties.RunKeepsInv | client/client-multi/client-java-core/src/main/java/org/kaaproject/kaa/client/channel/impl/channels/DefaultOperationTcpChannel.java:114-626 | any sequence of events preserves the invariant |
| ChannelProperties.ReachableInv | client/client-multi/client-java-core/src/main/java/org/kaaproject/kaa/client/channel/impl/channels/DefaultOperationTcpChannel.java:114-626 | every state reachable from a new channel satisfies the invariant |
| ChannelProperties.SyncGuards | client/client-multi/client-java-core/src/main/java/org/kaaproject/kaa/client/channel/impl/channels/DefaultOperationTcpChannel.java:431-507 | `sync` never changes fields and `syncAll` changes them only through `onServerFailed` after a failed send; unless `OPENED` with multiplexer, demultiplexer, server and socket they emit nothing; a failed `sync` send is only logged while a failed `syncAll` send fails the server |
| ChannelProperties.SyncOneTypeDirections | client/client-multi/client-java-core/src/main/java/org/kaaproject/kaa/client/channel/impl/channels/DefaultOperationTcpChannel.java:458-472 | `sync({t})` sends one SYNC whose map has exactly the supported types as keys, `t` with its declared direction and every other type `DOWN` |
| ChannelProperties.SetServerIgnored | client/client-multi/client-java-core/src/main/java/org/kaaproject/kaa/client/channel/impl/channels/DefaultOperationTcpChannel.java:550-555 | a null server or a `SHUTDOWN` channel makes `setServer` a no-op |
| ChannelProperties.SetServerReplacesAndReconnects | client/client-multi/client-java-core/src/main/java/org/kaaproject/kaa/client/channel/impl/channels/DefaultOperationTcpChannel.java:556-577 | otherwise server and encoder are replaced, and when not paused and a reconnect is needed the connection is closed and one reconnect at delay 0 is scheduled |
| ChannelProperties.SetServerSameAddressTwice | client/client-multi/client-java-core/src/main/java/org/kaaproject/kaa/client/channel/impl/channels/DefaultOperationTcpChannel.java:562-576 | setting a server with the same host and port right after another emits nothing the second time |
| ChannelProperties.AtMostOnePendingReconnect | client/client-multi/client-java-core/src/main/java/org/kaaproject/kaa/client/channel/impl/channels/DefaultOperationTcpChannel.java:389-401 | scheduling emits a reconnect only when none is pending and an executor exists; a second schedule is ignored |
| ChannelProperties.ServerFailedKeepsPendingReconnect | client/client-multi/client-java-core/src/main/java/org/kaaproject/kaa/client/channel/impl/channels/DefaultOperationTcpChannel.java:363-387 | `onServerFailed` never clears a pending reconnect |
| ChannelProperties.PendingReconnectClearedOnlyByOpenOrDestroy | client/client-multi/client-java-core/src/main/java/org/kaaproject/kaa/client/channel/impl/channels/DefaultOperationTcpChannel.java:345-614 | no event other than the reconnect task, `pause` or `shutdown` (which destroy the executor) clears the pending flag |
| ChannelProperties.PauseIdempotentInPause | client/client-multi/client-java-core/src/main/java/org/kaaproject/kaa/client/channel/impl/channels/DefaultOperationTcpChannel.java:598-606 | `pause` in `PAUSE` has no effect |
| ChannelProperties.PauseWithoutSocket | client/client-multi/client-java-core/src/main/java/org/kaaproject/kaa/client/channel/impl/channels/DefaultOperationTcpChannel.java:598-606 | without a socket `pause` reaches a quiescent `PAUSE` silently, and a second `pause` does nothing |
| ChannelProperties.PauseOfLiveConnectionEndsClosed | client/client-multi/client-java-core/src/main/java/org/kaaproject/kaa/client/channel/impl/channels/DefaultOperationTcpChannel.java:598-606 | with a live socket `pause` ends in `CLOSED` (the close overwrites `PAUSE`), and `resume` then does nothing |
| ChannelProperties.ResumeOnlyFromPause | client/client-multi/client-java-core/src/main/java/org/kaaproject/kaa/client/channel/impl/channels/DefaultOperationTcpChannel.java:616-626 | `resume` outside `PAUSE` is a no-op; from `PAUSE` it goes to `CLOSED` and schedules one reconnect at delay 0 |
| ChannelProperties.OpenRefusedWhenPausedOrShutdown | client/client-multi/client-java-core/src/main/java/org/kaaproject/kaa/client/channel/impl/channels/DefaultOperationTcpChannel.java:345-349 | `openConnection` in `PAUSE` or `SHUTDOWN` changes nothing and emits nothing |
| ChannelProperties.OpenConnectionSucceeds | client/client-multi/client-java-core/src/main/java/org/kaaproject/kaa/client/channel/impl/channels/DefaultOperationTcpChannel.java:344-361 | with a server, a socket and working sends, `openConnection` creates a new socket, sends CONNECT and clears the pending reconnect; when an executor exists it starts the read task over the new socket and the ping task, and without one it leaves both tasks as they were |
| ChannelProperties.CloseConnectionCases | client/client-multi/client-java-core/src/main/java/org/kaaproject/kaa/client/channel/impl/channels/DefaultOperationTcpChannel.java:311-339 | close cancels both tasks and drops the socket; with a socket it sends DISCONNECT and sets `CLOSED` unless `SHUTDOWN`; without one the state is untouched and nothing is sent |
| ChannelProperties.ShutdownIsNotTerminal | client/client-multi/client-java-core/src/main/java/org/kaaproject/kaa/client/channel/impl/channels/DefaultOperationTcpChannel.java:598-603 | from `SHUTDOWN`, `pause` reaches `PAUSE`, and a readable SYNC-RESPONSE (lines 169-172) or a `syncAck` (lines 516-521) reaches `OPENED` |
| ChannelProperties.Notifications | client/client-multi/client-java-core/src/main/java/org/kaaproject/kaa/client/channel/impl/channels/DefaultOperationTcpChannel.java:363-387 | the notifications selected from an effect log are no more than the log and are all failover or failure notifications |
| ChannelProperties.NotificationsOfConcat | client/client-multi/client-java-core/src/main/java/org/kaaproject/kaa/client/channel/impl/channels/DefaultOperationTcpChannel.java:363-387 | selecting notifications distributes over concatenated logs |
| ChannelProperties.ServerFailureRouting | client/client-multi/client-java-core/src/main/java/org/kaaproject/kaa/client/channel/impl/channels/DefaultOperationTcpChannel.java:363-387 | `onServerFailed` always drops the socket; with a checker reporting no connectivity, NOOP does nothing more, RETRY schedules a reconnect after the retry period, STOP_APP exits; otherwise the failover manager is told the server failed |
| ChannelProperties.ServerFailureNotifiesOnce | client/client-multi/client-java-core/src/main/java/org/kaaproject/kaa/client/channel/impl/channels/DefaultOperationTcpChannel.java:363-387 | each `onServerFailed` emits exactly one notification, either the failover call or the server-failed call |
| ChannelProperties.ConnAckHandling | client/client-multi/client-java-core/src/main/java/org/kaaproject/kaa/client/channel/impl/channels/DefaultOperationTcpChannel.java:120-127 | CONNACK ACCEPTED does nothing; REFUSE_BAD_CREDENTIALS cleans the state before the failure path; any other code is the failure path |
| ChannelProperties.DisconnectHandling | client/client-multi/client-java-core/src/main/java/org/kaaproject/kaa/client/channel/impl/channels/DefaultOperationTcpChannel.java:182-187 | DISCONNECT NONE only closes the connection and never notifies; any other reason is the failure path |
| ChannelProperties.SyncAckHandling | client/client-multi/client-java-core/src/main/java/org/kaaproject/kaa/client/channel/impl/channels/DefaultOperationTcpChannel.java:516-533 | `syncAck` outside `OPENED` opens, reports the connection and syncs all; in `OPENED` one type is `sync(type)` and several are `syncAll` |
| ChannelProperties.SyncResponseHandling | client/client-multi/client-java-core/src/main/java/org/kaaproject/kaa/client/channel/impl/channels/DefaultOperationTcpChannel.java:147-173 | a readable SYNC-RESPONSE sets `OPENED` and reports the connection every time; a decrypt failure changes nothing |
| ChannelProperties.StaleReadTaskIgnored | client/client-multi/client-java-core/src/main/java/org/kaaproject/kaa/client/channel/impl/channels/DefaultOperationTcpChannel.java:226-231 | after a reconnect, a read error from an older socket is ignored while one from the current socket fails the server |
| KaaClient.CheckClientState | client/client-multi/client-java-core/src/main/java/org/kaaproject/kaa/client/AbstractKaaClient.java:161-165 | passes iff the state is the expected one; otherwise throws `KaaRuntimeException` with the given message |
| KaaClient.CheckClientStateNot | client/client-multi/client-java-core/src/main/java/org/kaaproject/kaa/client/AbstractKaaClient.java:167-171 | passes iff the state is not the given one; otherwise throws `KaaRuntimeException` with the given message |
| KaaClient.GuardAdmitsExactlyAllowed | client/client-multi/client-java-core/src/main/java/org/kaaproject/kaa/client/AbstractKaaClient.java:233-340 | the guards of `start/stop/pause/resume` pass exactly on the transitions the lifecycle allows: start from CREATED or STOPPED, stop from STARTED or PAUSED, pause from STARTED, resume from PAUSED |
| KaaClient.CheckedLifecycle | client/client-multi/client-java-core/src/main/java/org/kaaproject/kaa/client/AbstractKaaClient.java:233-358 | with checking on, an allowed call moves to its target state and a refused call throws `KaaRuntimeException`, keeps the state and submits nothing |
| KaaClient.UncheckedLifecycle | client/client-multi/client-java-core/src/main/java/org/kaaproject/kaa/client/AbstractKaaClient.java:233-340 | with checking off, every call moves to its target state unconditionally |
| KaaClient.GuardMessages | client/client-multi/client-java-core/src/main/java/org/kaaproject/kaa/client/AbstractKaaClient.java:235-338 | each refused call throws `KaaRuntimeException` with the message the code writes |
| KaaClient.FailedStartLeavesStarted | client/client-multi/client-java-core/src/main/java/org/kaaproject/kaa/client/AbstractKaaClient.java:238-278 | a start whose profile manager is not ready and that has no state listener throws after the state already became STARTED, so a second start is refused |
| KaaClient.PauseResumeRoundTrip | client/client-multi/client-java-core/src/main/java/org/kaaproject/kaa/client/AbstractKaaClient.java:309-358 | with checking on, pausing a STARTED client succeeds and reaches PAUSED, and resuming it then returns to STARTED and submits the resume task |
| KaaClient.RestartAfterStop | client/client-multi/client-java-core/src/main/java/org/kaaproject/kaa/client/AbstractKaaClient.java:232-307 | with checking on, a stopped client can be started again when its profile is ready or a listener is set |
| KaaClient.FeatureGuard | client/client-multi/client-java-core/src/main/java/org/kaaproject/kaa/client/AbstractKaaClient.java:370-554 | a feature call passes iff the client is STARTED, whatever the check flag; otherwise it throws "Kaa client isn't started" |
| KaaClient.BootstrapCheck | client/client-multi/client-java-core/src/main/java/org/kaaproject/kaa/client/AbstractKaaClient.java:187-190 | construction passes iff the bootstrap-server map is present and non-empty; otherwise a `RuntimeException` is thrown |
| KaaClient.AbstractKaaClient.constructor | client/client-multi/client-java-core/src/main/java/org/kaaproject/kaa/client/AbstractKaaClient.java:177-190 | a new client is CREATED with its check flag and listener, and has no effects |
| KaaClient.AbstractKaaClient.Create | client/client-multi/client-java-core/src/main/java/org/kaaproject/kaa/client/AbstractKaaClient.java:187-190 | creation fails exactly when the bootstrap check fails; otherwise it yields a fresh CREATED client |
| KaaClient.AbstractKaaClient.Start | client/client-multi/client-java-core/src/main/java/org/kaaproject/kaa/client/AbstractKaaClient.java:232-267 | result, new state and submitted work are those of the lifecycle function for `start` |
| KaaClient.AbstractKaaClient.CheckReadiness | client/client-multi/client-java-core/src/main/java/org/kaaproject/kaa/client/AbstractKaaClient.java:269-278 | throws iff the profile manager is not ready and there is no state listener; with a listener only the failure is reported |
| KaaClient.AbstractKaaClient.Stop | client/client-multi/client-java-core/src/main/java/org/kaaproject/kaa/client/AbstractKaaClient.java:280-307 | result, new state and submitted work are those of the lifecycle function for `stop` |
| KaaClient.AbstractKaaClient.Pause | client/client-multi/client-java-core/src/main/java/org/kaaproject/kaa/client/AbstractKaaClient.java:309-333 | result, new state and submitted work are those of the lifecycle function for `pause` |
| KaaClient.AbstractKaaClient.Resume | client/client-multi/client-java-core/src/main/java/org/kaaproject/kaa/client/AbstractKaaClient.java:335-358 | result, new state and submitted work are those of the lifecycle function for `resume` |
| KaaClient.AbstractKaaClient.InvokeFeature | client/client-multi/client-java-core/src/main/java/org/kaaproject/kaa/client/AbstractKaaClient.java:370-555 | a feature call passes iff the client is STARTED, and changes no state |
| EndpointSpec.FirstIndex | server/common/dao/src/main/java/org/kaaproject/kaa/server/common/dao/service/EndpointServiceImpl.java:227-230 | the DAO finder returns the first row that matches the key, or nothing when no row matches |
| EndpointSpec.SaveProfileRow | server/common/dao/src/main/java/org/kaaproject/kaa/server/common/dao/service/EndpointServiceImpl.java:269-283 | insert-or-overwrite by id: the saved profile is stored; the row count is unchanged iff a row already has its id, otherwise one row is appended; every row with another id keeps its place and value; no other row appears |
| EndpointSpec.SaveEndpointProfile | server/common/dao/src/main/java/org/kaaproject/kaa/server/common/dao/service/EndpointServiceImpl.java:253-286 | a refused save leaves the store unchanged; groups, users and history never change |
| EndpointSpec.WithServerProfile | server/common/dao/src/main/java/org/kaaproject/kaa/server/common/dao/service/EndpointServiceImpl.java:257-263 | a profile without server-profile data gets the latest schema version and its default record; other profiles are unchanged |
| EndpointProperties.NewGroupRule | server/common/dao/src/main/java/org/kaaproject/kaa/server/common/dao/service/EndpointServiceImpl.java:120-129 | a new group is refused with "same weight" when (application, weight) is taken; otherwise it is stored under a fresh id with a created time |
| EndpointProperties.UpdateGroupRule | server/common/dao/src/main/java/org/kaaproject/kaa/server/common/dao/service/EndpointServiceImpl.java:130-145 | an update is refused when another group holds the (application, weight) or the stored group has weight 0; otherwise the stored group is replaced |
| EndpointProperties.WeightChangeRecorded | server/common/dao/src/main/java/org/kaaproject/kaa/server/common/dao/service/EndpointServiceImpl.java:140-142 | a successful update that changes the weight appends one weight-change history entry; an unchanged weight appends nothing |
| EndpointProperties.SaveGroupIgnored | server/common/dao/src/main/java/org/kaaproject/kaa/server/common/dao/service/EndpointServiceImpl.java:119-150 | an invalid application id, or an unknown group id, returns null and saves nothing |
| EndpointProperties.SaveGroupKeepsInv | server/common/dao/src/main/java/org/kaaproject/kaa/server/common/dao/service/EndpointServiceImpl.java:114-151 | saving a group keeps records keyed by id and keeps (application, weight) unique; users are untouched |
| EndpointProperties.RemoveGroupRule | server/common/dao/src/main/java/org/kaaproject/kaa/server/common/dao/service/EndpointServiceImpl.java:467-489 | removal happens iff the group exists and has a non-zero weight or `forceRemove` is set; it deletes only that group, appends one removal entry to the history and reports the group's application; otherwise it returns null and changes nothing |
| EndpointProperties.RemoveByIdRule | server/common/dao/src/main/java/org/kaaproject/kaa/server/common/dao/service/EndpointServiceImpl.java:107-112 | an id that is not a SQL id is refused without change; a valid id of a weight-0 group is not removed, because removal by id never forces |
| EndpointProperties.RemoveGroupsInOrderGroups | server/common/dao/src/main/java/org/kaaproject/kaa/server/common/dao/service/EndpointServiceImpl.java:94-105 | removing distinct groups in order deletes exactly those groups |
| EndpointProperties.RemoveGroupsInOrderHistory | server/common/dao/src/main/java/org/kaaproject/kaa/server/common/dao/service/EndpointServiceImpl.java:94-105 | removing distinct groups in order appends one removal entry per group, in that order |
| EndpointProperties.RemoveGroupKeepsInv | server/common/dao/src/main/java/org/kaaproject/kaa/server/common/dao/service/EndpointServiceImpl.java:467-489 | removal keeps the store invariant and leaves users untouched |
| EndpointProperties.RemoveGroupsInOrderSnoc | server/common/dao/src/main/java/org/kaaproject/kaa/server/common/dao/service/EndpointServiceImpl.java:101-103 | one more loop iteration is one more forced removal |
| EndpointProperties.RemoveByAppIdEffect | server/common/dao/src/main/java/org/kaaproject/kaa/server/common/dao/service/EndpointServiceImpl.java:94-105 | removing all groups of an application, in any order, deletes exactly them and records each once |
| EndpointProperties.DistinctLength | server/common/dao/src/main/java/org/kaaproject/kaa/server/common/dao/service/EndpointServiceImpl.java:101-103 | a duplicate-free enumeration of a set has the set's size |
| EndpointProperties.FirstIndexIs | server/common/dao/src/main/java/org/kaaproject/kaa/server/common/dao/service/EndpointServiceImpl.java:227-230 | the finder returns the first matching row |
| EndpointProperties.RemoveFirstOfAppended | server/common/dao/src/main/java/org/kaaproject/kaa/server/common/dao/service/EndpointServiceImpl.java:368-395 | `remove` undoes `add` of an element not already listed |
| EndpointProperties.RemoveFirstRemovesOne | server/common/dao/src/main/java/org/kaaproject/kaa/server/common/dao/service/EndpointServiceImpl.java:395 | `List.remove(Object)` removes exactly one occurrence when there is one, and nothing when absent |
| EndpointProperties.RemoveFirstKeepsOrder | server/common/dao/src/main/java/org/kaaproject/kaa/server/common/dao/service/EndpointServiceImpl.java:395 | the occurrence `remove` takes out is the first one, and the other ids keep their order |
| EndpointProperties.DistinctTail | server/common/dao/src/main/java/org/kaaproject/kaa/server/common/dao/service/EndpointServiceImpl.java:395 | the tail of a duplicate-free list is duplicate-free and lacks the head |
| EndpointProperties.DistinctCons | server/common/dao/src/main/java/org/kaaproject/kaa/server/common/dao/service/EndpointServiceImpl.java:368 | prefixing an absent element keeps a list duplicate-free |
| EndpointProperties.RemoveFirstSubset | server/common/dao/src/main/java/org/kaaproject/kaa/server/common/dao/service/EndpointServiceImpl.java:395 | `remove` adds no element |
| EndpointProperties.RemoveFirstKeepsDistinct | server/common/dao/src/main/java/org/kaaproject/kaa/server/common/dao/service/EndpointServiceImpl.java:395 | on a duplicate-free list, `remove` keeps it duplicate-free and removes the element entirely |
| EndpointProperties.AttachRule | server/common/dao/src/main/java/org/kaaproject/kaa/server/common/dao/service/EndpointServiceImpl.java:347-385 | a refused attach changes nothing; a successful one returns and saves exactly the first profile with that access token with only its user id set to the user; it appends the endpoint id once to the user's list; the endpoint's row is overwritten in place, the row count is kept and every other endpoint's row is unchanged; groups and history are unchanged |
| EndpointProperties.AttachRefusals | server/common/dao/src/main/java/org/kaaproject/kaa/server/common/dao/service/EndpointServiceImpl.java:350-383 | attach throws, leaving the store unchanged, when the user id is blank, the user is missing, no endpoint has the token, the first endpoint with the token belongs to another user, or its id is already listed; otherwise it succeeds |
| EndpointProperties.DetachRule | server/common/dao/src/main/java/org/kaaproject/kaa/server/common/dao/service/EndpointServiceImpl.java:387-407 | detach throws without change unless the endpoint names a user that exists and lists it; otherwise the id is removed from the user's list and the user is saved; then, when the endpoint id is not blank and its key hash is not empty, the endpoint is saved with its user id cleared (and a server-profile body filled in) and every other endpoint's row is unchanged; an empty key hash makes that second save fail after the user was already saved |
| EndpointProperties.AttachThenDetachRestoresUsers | server/common/dao/src/main/java/org/kaaproject/kaa/server/common/dao/service/EndpointServiceImpl.java:347-407 | detaching right after a successful attach restores every user exactly |
| EndpointProperties.AttachKeepsInv | server/common/dao/src/main/java/org/kaaproject/kaa/server/common/dao/service/EndpointServiceImpl.java:347-385 | attach keeps the store invariant, and keeps every user's list duplicate-free |
| EndpointProperties.DetachKeepsInv | server/common/dao/src/main/java/org/kaaproject/kaa/server/common/dao/service/EndpointServiceImpl.java:387-407 | detach keeps the store invariant, and keeps every user's list duplicate-free |
| EndpointProperties.SaveUserRule | server/common/dao/src/main/java/org/kaaproject/kaa/server/common/dao/service/EndpointServiceImpl.java:537-549 | a user is refused iff another user with a different id has the same (externalId, tenantId); otherwise it is stored under its id or a fresh one |
| EndpointProperties.UniqueExternalIdsInsert | server/common/dao/src/main/java/org/kaaproject/kaa/server/common/dao/service/EndpointServiceImpl.java:540-546 | storing a user without a clash keeps (externalId, tenantId) unique |
| EndpointProperties.SaveUserKeepsInv | server/common/dao/src/main/java/org/kaaproject/kaa/server/common/dao/service/EndpointServiceImpl.java:537-549 | saving a user keeps the store invariant |
| EndpointProperties.SaveUserKeepsDistinctIds | server/common/dao/src/main/java/org/kaaproject/kaa/server/common/dao/service/EndpointServiceImpl.java:537-549 | saving a duplicate-free user keeps every list duplicate-free |
| EndpointProperties.SaveProfileDuplicateRule | server/common/dao/src/main/java/org/kaaproject/kaa/server/common/dao/service/EndpointServiceImpl.java:265-280 | a new profile whose key hash is stored is refused without change when the keys differ; when they match it takes the stored id and version and overwrites the stored row in place, keeping the row count |
| EndpointProperties.SaveProfileRule | server/common/dao/src/main/java/org/kaaproject/kaa/server/common/dao/service/EndpointServiceImpl.java:253-286 | an empty key hash is refused before anything is saved; the saved profile is the given one with the server-profile default filled in, differing at most in id and version; a profile with an id is stored under it; a new profile whose key hash is not stored is stored under the generated id, appended when that id is fresh; rows of other ids are kept |
| EndpointProperties.EscapeHead | server/common/dao/src/main/java/org/kaaproject/kaa/server/common/dao/service/EndpointServiceImpl.java:304-306 | an escaped string never starts with a bare quote, and is empty iff the original is |
| EndpointProperties.UnescapeEscape | server/common/dao/src/main/java/org/kaaproject/kaa/server/common/dao/service/EndpointServiceImpl.java:304-306 | unescaping `\"` to `"` inverts escaping `"` as `\"` |
| EndpointProperties.UnescapeShortens | server/common/dao/src/main/java/org/kaaproject/kaa/server/common/dao/service/EndpointServiceImpl.java:304-306 | unescaping never lengthens a record and leaves one without backslashes unchanged |
| EndpointServiceModel.EndpointServiceImpl.constructor | server/common/dao/src/main/java/org/kaaproject/kaa/server/common/dao/service/EndpointServiceImpl.java:56-77 | a new service has empty stores and the given log records, and satisfies the invariant |
| EndpointServiceModel.EndpointServiceImpl.FindByAppIdAndWeight | server/common/dao/src/main/java/org/kaaproject/kaa/server/common/dao/service/EndpointServiceImpl.java:122 | returns a group of that application with that weight iff one exists, and it is the only one |
| EndpointServiceModel.EndpointServiceImpl.SaveEndpointGroup | server/common/dao/src/main/java/org/kaaproject/kaa/server/common/dao/service/EndpointServiceImpl.java:114-151 | the stores and result become those of the save-group function; the invariant is kept |
| EndpointServiceModel.EndpointServiceImpl.RemoveEndpointGroup | server/common/dao/src/main/java/org/kaaproject/kaa/server/common/dao/service/EndpointServiceImpl.java:467-489 | the stores and result become those of the remove-group function; the invariant is kept |
| EndpointServiceModel.EndpointServiceImpl.RemoveEndpointGroupById | server/common/dao/src/main/java/org/kaaproject/kaa/server/common/dao/service/EndpointServiceImpl.java:107-112 | the stores and result become those of the remove-by-id function |
| EndpointServiceModel.EndpointServiceImpl.RemoveEndpointGroupByAppId | server/common/dao/src/main/java/org/kaaproject/kaa/server/common/dao/service/EndpointServiceImpl.java:94-105 | an invalid id is refused; otherwise the loop leaves the state of removing every group of the application in some order |
| EndpointServiceModel.EndpointServiceImpl.AttachEndpointToUser | server/common/dao/src/main/java/org/kaaproject/kaa/server/common/dao/service/EndpointServiceImpl.java:347-385 | the stores and result become those of the attach function; the invariant is kept |
| EndpointServiceModel.EndpointServiceImpl.AttachFound | server/common/dao/src/main/java/org/kaaproject/kaa/server/common/dao/service/EndpointServiceImpl.java:358-377 | the ownership checks and list update for a found user and endpoint match the attach function |
| EndpointServiceModel.EndpointServiceImpl.DetachEndpointFromUser | server/common/dao/src/main/java/org/kaaproject/kaa/server/common/dao/service/EndpointServiceImpl.java:387-407 | with a generated id that no stored profile has, the stores and result become those of the detach function; the invariant is kept |
| EndpointServiceModel.EndpointServiceImpl.SaveEndpointUser | server/common/dao/src/main/java/org/kaaproject/kaa/server/common/dao/service/EndpointServiceImpl.java:537-549 | the stores and result become those of the save-user function; the invariant is kept |
| EndpointServiceModel.EndpointServiceImpl.FindByExternalIdAndTenantId | server/common/dao/src/main/java/org/kaaproject/kaa/server/common/dao/service/EndpointServiceImpl.java:540-541 | returns a user with that (externalId, tenantId) iff one exists |
| EndpointServiceModel.EndpointServiceImpl.SaveEndpointProfile | server/common/dao/src/main/java/org/kaaproject/kaa/server/common/dao/service/EndpointServiceImpl.java:253-286 | with a generated id that no stored profile has, the stores and result become those of the save-profile function; the invariant is kept |
| EndpointServiceModel.EndpointServiceImpl.FindEndpointLogByKeyHash | server/common/dao/src/main/java/org/kaaproject/kaa/server/common/dao/service/EndpointServiceImpl.java:299-312 | null for a missing or empty list; otherwise a list of the same length whose entry i is stored entry i with every `\"` replaced by `"` |

## Left out

- Socket I/O, threads, the executor and futures, and the `synchronized` locking of the channel. Their outcomes are parameters and their actions are effects. Interleavings of concurrent calls are not modelled.
- The ping task's body (sending PINGREQ and rescheduling itself, `DefaultOperationTcpChannel.java` 238-259) and the blocking read loop's byte handling. Only the scheduling of these tasks and the outcome of a read (error, end of stream, stale socket) are modelled.
- A read event may name any socket number. A cancelled read task may still be inside a blocking read when a newer socket replaces its own, so the model does not restrict which earlier read task reports; the stale-socket comparison is what decides.
- The channel's effect log records a DISCONNECT send and the hand-over of a SYNC-RESPONSE to the demultiplexer as attempts. The source catches and only logs a failed DISCONNECT send (`DefaultOperationTcpChannel.java` 321-325) and a missing demultiplexer (160-163), and the model does not tell these apart from a success. An encrypted SYNC-RESPONSE with no encryption session is modelled as changing nothing. In the source the null dereference would be caught by the read loop's handler (`DefaultOperationTcpChannel.java` 215-230) and, on the current socket, fail the server; the case cannot arise, because a socket exists only after `setServer` has set the encoder.
- `System.exit` on STOP_APP is recorded as an `Exit` effect; the process keeps running in the model.
- The frame codec (`MessageFactory`, `MqttFrame`), the `MessageEncoderDecoder` crypto, the `FailoverManager`, the `KaaClientState` and the multiplexer/demultiplexer payloads are not part of this model. They appear only as the effects the channel emits towards them, plus the decrypt outcome.
- AbstractKaaClient module wiring (the `build*` factories, transport binding, listener callbacks and the bodies of submitted lifecycle tasks) is not modelled. A submission is recorded as an effect, and the calls the submitted tasks make are not modelled.
- AbstractKaaClient's `volatile` publication of `clientState` across threads is not modelled.
- The `Validator` class is not part of this model; its assumed behaviour is stated above. `validateSqlId` is modelled without the `Long` range check.
- A null `endpointIds` list is modelled as an empty list, which `contains`, `add` and `remove` treat the same way.
- The optimistic-lock exception and the version increment the DAO performs on save are not modelled.
- The retry loop of `attachEndpointToUser(String, String, EndpointProfileDto)` is left out because it depends on database concurrency.
- The application sequence number that `removeEndpointGroup` reads from the history service is not modelled. The returned change notification carries the application id, the group id and the group's own sequence number, and the removal is recorded by appending an entry to the store's history.
- Thin DAO pass-throughs (`find*`, topic add/remove, `save*Configuration/Status`, `removeEndpointUserById`) are not modelled.
- Whitespace for `isBlank` is the ASCII whitespace Java's `Character.isWhitespace` accepts; Unicode space separators are not modelled.
- ApplicationServiceImpl, the Mongo log document, the GUI view and the test fixtures in the repository are not part of this model.
