# SyncHub verification

A Dafny model of the SyncHub message broker: the WebSocket hub and its client queues, the SSE
broker with replay, the Valkey bridge between nodes, room access and capacity, the two request
limiters and the two domain matchers. `dafny verify dfyconfig.toml` checks everything.

How the model is built:

- Shared state is modelled twice. A class holds the maps and runs the loops of the code, with one
  method per locked section (`HubServer`, `SseServer`, `Bridge`, the two `RateLimiter`s); each
  method is proved equal to a function on values. The functions are the steps of a machine whose
  runs are all interleavings of those sections with the goroutines around them, and the theorems
  are about every run.
- A pointer is a number into a map: connections and SSE subscribers are numbered, and so are the
  member sets of rooms, because a room broadcast keeps a set across two separate lock periods and
  that set may have been replaced in between.
- A concurrent loop (the read loop, the write loop, the SSE handler, a publisher between its
  locks) is a program counter and one step per atomic action. Broadcasts are free-standing steps,
  so the model allows more interleavings than the program has.
- In the hub a send on a closed channel or a second close sets `crashed`, after which nothing is
  enabled: those panics are in the hub's and the clients' own goroutines and end the process. A second close of an SSE
  stream's Done is a panic in an HTTP handler, which the HTTP server recovers: it is recorded for
  that stream (`Panicked`) and the run goes on.
- Clock readings, dice, message numbers, anonymous ids and the success of a write are arguments.

Files: `GapLimiter` (the Go limiter), `SlidingLog` (the Elixir limiter, call by call), `SlidingRace`
and `SlidingRush` (its calls overlapping), `LimiterSimulation` (the two side by side); `Domains`;
`Access` (ACL and token grants); `SendQueue` (client queue and write loop); `HubModel` (the hub
machine), `HubSafety`, `HubLife` (its invariants), `HubTheorems`, `HubCapacity` (what it promises),
`HubEffects` (who receives what, and where identities come from), `HubFailures` (what fails without
the hypothesis), `HubServer` (the hub object); `Cluster`, `ClusterDelivery`, `Bridge`;
`Replay` (the buffer), `SseHandoff`, `SseInterleaved` and `SseReconnect` (streams against publishers
whose three parts interleave), `SseModel`, `SseTheorems`, `SseOrder` and `SseResume` (the whole broker, a publish
being one step), `SseServer` (the broker object); `ElixirBroker`; `Sets`.

What turned out to need a hypothesis, or to be false:

- *Takeover.* Registering a user id that is held closes the holder's queue and leaves it in its
  rooms; the holder's own unregister then closes the queue again. The hub is safe under the run
  hypothesis `Orderly` (a user id is not registered while held; register comes before unregister).
  `TakeoverCrashes`: after a Register, a run without any further takeover can crash if and only if
  the id was held, whatever the holder was doing.
- *Early unregister.* The read loop is started before the connection is handed to the hub, so the
  other half of the hypothesis is an assumption about scheduling. Without it (`EarlyUnregister`): if
  the id is held by another connection, the process crashes at the greeting, with no takeover at
  all; if it is free, the connection keeps the id and an open queue until another connection of the
  same user is registered or unregistered (`LeakLasts`).
- *Direct messages* are sent after the lookup lock is released. The machine sends them in one step;
  `LateDirectSend` says when the gap matters: exactly when the target was unregistered in it.
- *Room limit.* Auto-join never checks it (`AutoJoinIgnoresTheLimit`). With n join requests in
  flight a room with limit M holds at most M - 1 + n members (`CapacityBound`), which exceeds M by
  n - 1, and every such overrun can be reached (`EveryoneGetsIn`, `BoundIsReached`).
- *SSE key drop.* `DisconnectKey` closes a stream's Done channel and the stream's deferred
  unsubscribe closes it again, so that handler panics. This happens to exactly the subscribers of
  the key that the drop finds listed (`KeyDropPanics`), and nothing else closes Done twice
  (`QuietDropsNeverPanic`). The panic is recovered and no other stream notices.
- *SSE resume, repetition.* A live event carries the counter's value, not its own id. Once a stream
  has written its `connected` line, a reconnect never replays an event it wrote, in any interleaving
  (`ConnectedNeverRepeats`). A client cut off during its replay may be sent an event again if and
  only if the replayed ids did not increase (`CutOffRepeatsIff`), that is, if and only if the newer
  entries in the buffer had been appended out of the order of their ids (`ReplayInOrderIff`;
  `OutOfOrderReplay` is a run that replays 3 before 2). Publishers that append in turn rule that out
  (`InTurnReplaysInOrder`, `LogOrderedIff`). On one stream an event can be written twice, replayed
  and then live (`WrittenTwice`), never more often (`WrittenAtMostTwice`).
- *SSE resume, loss.* For the same reason events are lost: a reconnect with the last id loses what
  was queued or dropped at or below that id and not replayed, and nothing else as long as the buffer
  has not overflowed (`ReconnectLosesIff`, `ReconnectLosesBacklog`, `LosesTheNext`). A queued event is
  not always lost: one published between the subscribe and the replay read is on the stream already
  (`QueuedAndReplayed`). With interleaved publishers and a cut after any line, an event that was not
  seen is lost if and only if its fan-out misses the second stream and its id is not above the last
  tag, or it was evicted (`SseReconnect.CutLosesIff`).
- *Elixir limiter.* A call reads the clock, may sweep, counts and inserts at four separate moments, so
  the limit is not kept: with n calls of an address between count and insert, up to limit - 1 + n pass
  in a window (`AtMostLimitPlusRacers`, reached by `RacersReachTheBound`; `TwoPass` lets two through a
  limit of one). Nor are sweeps harmless: a call misses exactly the rows of its window that a call
  with a later clock sweeps between its clock reading and its count (`CountIsLogLessMissed`,
  `MissingIs`, `LateSweepChangesDecision`), and then up to limit - 1 + 2n pass
  (`AtMostLimitPlusTwice`, reached by `SweepReachesTheBound`). The one-step theorems of `SlidingLog`
  are the case without overlap (`AloneIsOneStep`, `SequenceIsRun`).
- *Limiters compared, without overlap.* The per-key limiter grants a first request even for a rate
  below one, and its run never ends under steady traffic, so it is stricter than the Elixir window,
  not equal (`LimitersDiffer`). They agree on a request if and only if its position is within the
  limit or the window is full (`LimitersAgreeIff`), and always while the run is no older than the
  window (`AgreeWithinOneWindow`).
- *Domains.* Only the Elixir side trims a pattern before comparing it with `*`, and only the Go side
  rejects an empty host: `AgreeOnListIff` and `AgreeOnEmptyHostIff` say on which lists they agree,
  `DisagreeOnPadding` shows both differences.
- *Node ids.* Nothing is offered twice even if two nodes share an id; a shared id only makes them
  deaf to each other (`OfferedAtMostOnce`, `ReceiveReaches`).
- *Rooms without a local member.* A room broadcast returns at its first lock when the room has no
  local WebSocket member, before anything is handed to SSE or the bus
  (`RoomBroadcastNeedsLocalMember`). So a `user_left` of the last local member never reaches members
  on other nodes (`LastToLeaveIsNotAnnounced`, `UnheardElsewhere`).

## Model

| member | source | states |
|---|---|---|
| `HubTheorems.NoChannelMisuse` | ws-go/internal/hub/hub.go:62-117 | in every orderly run of connects, joins, leaves, broadcasts in two locked halves, direct sends and unregisters, no send hits a closed queue, no queue is closed twice, and a queue is closed once exactly when its connection has been unregistered |
| `HubFailures.TakeoverCrashes` | ws-go/internal/hub/hub.go:64-102 | from every orderly run in which a connection can be registered, some continuation without a further takeover or early unregister crashes if and only if its user id is held, whichever of the five read states the holder is in |
| `HubFailures.EarlyUnregister` | ws-go/internal/hub/hub.go:72-102 | from every run, a connection unregistered before it is registered, then registered and greeted, crashes the process if and only if its user id was held by another; if the id was free it ends up holding it with an open queue and all its rooms |
| `HubFailures.LeakLasts` | ws-go/internal/hub/hub.go:88-102 | in every continuation of such a run, that connection keeps its user id and its open queue until a connection of the same user is registered or unregistered |
| `HubFailures.LateDirectSend` | ws-go/internal/hub/hub.go:134-149 | in every orderly state, a direct send to a connection looked up earlier crashes if and only if that connection has been unregistered |
| `HubTheorems.IndexAgrees` | ws-go/internal/hub/client.go:233-256 | in every run, a connection between messages is in the hub's set of a room exactly when the room is in its own set |
| `HubTheorems.CleanupIsComplete` | ws-go/internal/hub/hub.go:93-100 | after every orderly run, an unregistered connection is in no room and in no member set ever made, including captured ones |
| `HubTheorems.CapturedSetIsCurrentOrEmpty` | ws-go/internal/hub/hub.go:177-202 | in every run, a set captured by a room broadcast is the room's present set or empty, never holds a non-member, and no listed room is empty |
| `HubTheorems.MembersAreEntitled` | ws-go/internal/transport/websocket.go:63-97 | in every run with a fixed ACL table, each room member passes the ACL for its key and user id and, if it carries a token, has read access, whether it auto-joined or asked |
| `HubEffects.MembersCameEntitled` | ws-go/internal/hub/client.go:212-231 | in every run with a fixed ACL table, each room member came with a Connect step whose key and user the ACL admits to the room and whose token, if it brought one, grants it read access |
| `HubEffects.ConnectionsHaveAnOrigin` | ws-go/internal/transport/websocket.go:60-97 | in every run, each connection was made by an admitting Connect step and still has that step's token and key and acts for the token's user, else the requested id, and for an anonymous id if that is empty |
| `HubEffects.RoomBroadcastReaches` | ws-go/internal/hub/hub.go:176-202 | in every run, a room broadcast reaches exactly the members whose user is not excluded: offered once, appended if fewer than 256 wait, dropped otherwise |
| `HubEffects.LateBroadcastReaches` | ws-go/internal/hub/hub.go:191-202 | in every run, whatever came between its two locks, it reaches the present members except the excluded user if the room still has that set, and nobody otherwise |
| `HubEffects.BroadcastAllReaches` | ws-go/internal/hub/hub.go:223-231 | a broadcast reaches exactly the connections that hold their user id |
| `HubEffects.PublishRoomReaches` | ws-go/cmd/server/main.go:213-226 | the publish endpoint reaches exactly the room's members |
| `HubEffects.SendToUserReaches` | ws-go/internal/hub/hub.go:134-149 | a direct message reaches exactly the holder of the user id |
| `HubEffects.AskJoinReaches` | ws-go/internal/hub/client.go:207-231 | a refused join sends one error to the asker alone, an accepted one sends nothing |
| `HubEffects.ReplyReaches` | ws-go/internal/hub/client.go:310-314 | a reply reaches its connection alone |
| `HubEffects.GreetReaches` | ws-go/internal/hub/hub.go:75-79 | the greeting reaches the newly registered connection alone |
| `HubEffects.RegisterReaches` | ws-go/internal/hub/hub.go:62-78 | registering tells and then closes the holder of the user id, touches no other queue and no room, and gives the id to the newcomer, which is then greeted |
| `HubEffects.UnregisterReaches` | ws-go/internal/hub/hub.go:88-104 | unregistering closes the connection's own queue if its user id is listed and changes no other connection |
| `HubEffects.LeaveLeaves` | ws-go/internal/hub/client.go:255-256 | in every run, a connection between messages can leave any named room and is then in it by neither index, with every other membership unchanged and an emptied room gone |
| `HubTheorems.ClientsReadInOrder` | ws-go/internal/hub/client.go:98-122 | in every run of the hub, each client's written frames, a failed one and the waiting ones are the accepted offers in order, and a close frame follows all of them |
| `HubSafety.RunsAreSound` | ws-go/internal/hub/hub.go:152-173 | every run keeps rooms pointing to their own non-empty set, all detached sets empty, the two room indexes inverse and the client map keyed by user id |
| `HubSafety.JoinMembers` | ws-go/internal/hub/hub.go:152-160 | joining adds the client to that room's members and changes no other room's |
| `HubSafety.LeaveMembers` | ws-go/internal/hub/hub.go:163-173 | leaving removes the client from that room's members, drops the room if emptied and changes no other room's |
| `HubSafety.UnregisterMembers` | ws-go/internal/hub/hub.go:90-103 | unregistering removes the client from the rooms of its own set if its user id is listed, and from none otherwise |
| `HubLife.OrderlyRunsLive` | ws-go/internal/hub/hub.go:62-117 | every orderly run keeps everything the hub can address open and every registered connection the holder of its user id |
| `HubLife.UnregisterEmptiesRooms` | ws-go/internal/hub/hub.go:93-102 | an orderly unregister leaves the connection in no room and no numbered set |
| `HubCapacity.CapacityBound` | ws-go/internal/hub/client.go:217-234 | with limit M and at most n requests between check and join, a room not auto-joined holds at most M - 1 + n members over every run, so at most M one at a time |
| `HubCapacity.EveryoneGetsIn` | ws-go/internal/hub/client.go:217-234 | from every run with the room below its limit, any number of distinct idle connections outside it that are entitled to it can all pass the check and then all enter, and the members grow by that number |
| `HubCapacity.BoundIsReached` | ws-go/internal/hub/client.go:217-234 | from every metered run with M - 1 members and none in flight, n such connections reach exactly M - 1 + n members in a run with never more than n in flight |
| `HubCapacity.EnteringKeepsLoad` | ws-go/internal/hub/client.go:233-234 | entering a room moves a connection from the requests in flight to the members without raising their sum |
| `HubCapacity.AutoJoinIgnoresTheLimit` | ws-go/internal/transport/websocket.go:94-97 | after every run, a connection admitted by ACL and token adds one member on connecting, however full the room |
| `HubServer.HubServer.Send` | ws-go/internal/hub/client.go:310-314 | one non-blocking send: appended if there is room, dropped if full, a crash if closed |
| `HubServer.HubServer.SendEach` | ws-go/cmd/server/main.go:213-226 | the loop over a room's members offers to each exactly once and touches nothing else |
| `HubServer.HubServer.DeliverRoom` | ws-go/internal/hub/hub.go:191-202 | the second half of a room broadcast offers once to each captured member whose user is not excluded |
| `HubServer.HubServer.BroadcastMessage` | ws-go/internal/hub/hub.go:223-231 | the loop over the client map offers once to each registered client |
| `HubServer.HubServer.JoinRoom` | ws-go/internal/hub/hub.go:152-160 | a missing room gets a new set, and the client is in the room's set |
| `HubServer.HubServer.LeaveRoom` | ws-go/internal/hub/hub.go:163-173 | the client leaves the set and an emptied room is deleted |
| `HubServer.HubServer.Register` | ws-go/internal/hub/hub.go:62-71 | a present holder is told and closed, then the new client holds the user id |
| `HubServer.HubServer.Unregister` | ws-go/internal/hub/hub.go:88-104 | the loop over the client's own rooms, in any order, removes it from each, deletes emptied rooms and closes the queue, only if the user id is listed |
| `HubServer.HubServer.Connect` | ws-go/internal/transport/websocket.go:63-97 | a connection is admitted if and only if its channel is empty or the ACL and the token allow it, and then it keeps its token, key and user and has auto-joined |
| `HubServer.HubServer.Admit` | ws-go/internal/hub/client.go:207-231 | the checks of a join request pass if and only if the room is named, the ACL admits key and user, the limit is not reached and a token, if any, grants read |
| `HubServer.HubServer.HandleJoinRoom` | ws-go/internal/hub/client.go:206-238 | a refused request only sends an error; an accepted one is a whole join and an acknowledgement |
| `HubServer.EnteredInThreeSteps` | ws-go/internal/hub/client.go:225-234 | an undisturbed join is exactly admission, the client's own set, then the hub's set |
| `HubServer.HubServer.HandleLeaveRoom` | ws-go/internal/hub/client.go:249-260 | an unnamed room only gets an error; otherwise the request is the two leave steps and an acknowledgement |
| `HubServer.WriteRound` | ws-go/internal/hub/client.go:99-122 | undisturbed, one round writes everything waiting in order, or up to the first failed write, and never reads past the queue |
| `HubServer.HubServer.RoomMemberCount` | ws-go/internal/hub/hub.go:258-265 | the number of members, zero for an unknown room |
| `SendQueue.WritesAreAcceptedOffers` | ws-go/internal/hub/client.go:90-131 | over every interleaving, frames are the accepted offers in order, only offers meeting a full queue are lost, the inner drain never blocks or reads a closed channel, and the close frame (section 5.5.1 of RFC 6455) comes after everything accepted unless a write failed |
| `SendQueue.ActKeepsQueue` | ws-go/internal/hub/client.go:98-129 | each send, close and write-loop move keeps that discipline |
| `SendQueue.LoopEnds` | ws-go/internal/hub/client.go:101-129 | the write loop ends exactly on a failed write or ping or a closed empty queue, with a close frame only for the last, and for good |
| `Access.CanJoin` | ws-go/internal/security/acl.go:75-103 | the search with a flag decides the rule: unlisted or public, or key allowed (if keys are listed) and user named (if permissions are listed) |
| `Access.TokenGrants` | ws-go/internal/security/jwt.go:91-115 | a token that names nothing grants everything; else its entry for the channel decides, only without one its `*` entry, only without both the list; read needs read, write or admin in any case, write needs write or admin |
| `Access.CheckToken` | ws-go/internal/security/jwt.go:91-115 | the search decides that rule, and no token grants nothing |
| `Cluster.NamesRoundTrip` | ws-go/internal/valkey/valkey.go:172-199 | bus names of all rooms and users decode to themselves, every decodable name re-encodes to itself, and a name matches at most one subscription |
| `Cluster.OfferedAtMostOnce` | ws-go/internal/valkey/valkey.go:115-206 | in every run of any number of nodes, with hubs running freely, no message is offered twice to any client's queue and none is published twice |
| `Cluster.ReceiveReaches` | ws-go/internal/valkey/valkey.go:166-205 | after every run, receiving offers the message exactly once to each addressed client with an open queue if the node ids differ, and does nothing if they are equal |
| `ClusterDelivery.EnvelopesWereSaid` | ws-go/internal/valkey/valkey.go:115-150 | in every run, every envelope on its way was said by a step of the run, under the name of that step's room, user or the broadcast, with its node's id and its number |
| `ClusterDelivery.RoomMessageArrives` | ws-go/internal/hub/hub.go:176-212 | from every run, a room message reaches exactly the captured members except the excluded user at home and, published and received under the room's name, exactly the room's members on another node |
| `ClusterDelivery.BroadcastArrives` | ws-go/internal/hub/hub.go:215-242 | from every run, a message to all reaches exactly the holders of their user ids, at home and on another node |
| `ClusterDelivery.DirectMessageArrives` | ws-go/internal/hub/hub.go:134-144 | from every run, a direct message to a user not on the node changes nothing there and reaches exactly the holder of that id on another node |
| `ClusterDelivery.DirectMessageStays` | ws-go/internal/hub/hub.go:146-149 | a direct message to a user on the node reaches that holder alone and nothing goes on the bus |
| `ClusterDelivery.OtherIncoming` | ws-go/internal/valkey/valkey.go:172-205 | a message under any other name changes nothing |
| `Cluster.InsideSeen` | ws-go/internal/hub/hub.go:62-147 | no step that stays inside one process offers a numbered message to anyone |
| `Cluster.RoomBroadcastNeedsLocalMember` | ws-go/internal/hub/hub.go:177-214 | after every run of the nodes, a room broadcast gets past its first lock, and so to the bus, if and only if the room has a member on that node; otherwise its first half changes nothing |
| `Cluster.LastToLeaveIsNotAnnounced` | ws-go/internal/hub/client.go:255-268 | after every run, when the last local member leaves a room, the leave broadcast puts nothing on the bus |
| `Cluster.UnheardElsewhere` | ws-go/internal/hub/hub.go:182-184 | a run with the room's only member on another node and no envelope for it |
| `Bridge.Bridge.HandleIncoming` | ws-go/internal/valkey/valkey.go:159-206 | own echoes change nothing; otherwise the audience named by the channel is offered the message |
| `Replay.PushIsTail` | ws-go/internal/transport/sse.go:117-123 | for any limit of at least one, the buffer update keeps the buffer the end of the log |
| `Replay.ReplayIsExactIff` | ws-go/internal/transport/sse.go:174-190 | on an increasing log, reading the buffer equals filtering the full log if and only if at most `limit` newer entries exist |
| `Replay.SincePairwise` | ws-go/internal/transport/sse.go:184-188 | filtering keeps order: any relation holds along the replay if and only if it holds along the newer buffered entries |
| `SseHandoff.NoGap` | ws-go/internal/transport/sse.go:243-263 | in every interleaving of id taking, append and fan-out with subscribe and replay read, each newer event was replayed, offered live, is about to be, or had been evicted by `limit` later ones before the read |
| `SseInterleaved.BufferIsEndOfLog` | ws-go/internal/transport/sse.go:116-123 | in every interleaving the buffer is the last entries appended, and reading it equals filtering the log if and only if nothing newer was evicted; with publishers in turn, if and only if at most `limit` newer events exist |
| `SseInterleaved.LogOrderedIff` | ws-go/internal/transport/sse.go:116-123 | over every run, the log is in id order with no smaller id still held if and only if each append was by the holder of the smallest id |
| `SseInterleaved.InTurnReplaysInOrder` | ws-go/internal/transport/sse.go:116-123 | over every run in which each append was by the holder of the smallest id, every replay increases |
| `SseInterleaved.ReplayInOrderIff` | ws-go/internal/transport/sse.go:174-190 | in every interleaving, replayed ids increase if and only if the newer entries then buffered had been appended in id order |
| `SseInterleaved.CutOffRepeatsIff` | ws-go/internal/transport/sse.go:255-259 | in every interleaving, a client cut off during its replay can be replayed a written event again if and only if the replayed ids did not increase; if they did, no later buffer repeats one |
| `SseInterleaved.OvertakingDisorders` | ws-go/internal/transport/sse.go:116-123 | from every run with two ids held, appending them out of turn makes a later replay from below both decrease, for any limit of at least two |
| `SseInterleaved.OutOfOrderReplay` | ws-go/internal/transport/sse.go:116-123 | a run that replays ids 3, 2, after which a reconnect from 2 is sent 3 again |
| `SseInterleaved.ConnectedNeverRepeats` | ws-go/internal/transport/sse.go:265-285 | in every interleaving, from the connected line on tags never decrease and are at least their event's id, so a reconnect with the last one never brings an event the stream wrote or replayed, whatever the buffer holds |
| `SseInterleaved.OffersOverRuns` | ws-go/internal/transport/sse.go:125-143 | in every interleaving, every offer was written live, still waits or was dropped, and a numbered event is offered once, at its fan-out |
| `SseInterleaved.StreamIsInOrder` | ws-go/internal/transport/sse.go:132-139 | in every interleaving, the stream from its connected line on and then its queue carry, in the order of the fan-outs and with their data, exactly those that found fewer than 64 waiting; the others were dropped |
| `SseInterleaved.PassedOver` | ws-go/internal/transport/sse.go:279-282 | in every interleaving, the events whose publish was not over when the stream was listed and that it has not written live are exactly those queued, dropped or still being published, and a replay from the last tag, out of any buffer, brings exactly the entries above that tag |
| `SseInterleaved.WrittenAtMostTwice` | ws-go/internal/transport/sse.go:251-285 | in every interleaving, an event is replayed at most once, if and only if it is newer, was appended before the read and not evicted, and written live at most once, only after a fan-out while listed |
| `SseInterleaved.WrittenTwice` | ws-go/internal/transport/sse.go:240-285 | from every run in which a publisher holds an id while a stream is listed and has not read, the event can be replayed and then written live |
| `SseReconnect.CutLosesIff` | ws-go/internal/transport/sse.go:240-285 | in every interleaving of publishers, a first stream cut after any line and a second that asks from that line's tag, an unseen event is lost if and only if its fan-out misses the second and its id is not above the tag or it was evicted before the second read; nothing seen is replayed |
| `SseTheorems.BufferRefinesLog` | ws-go/internal/transport/sse.go:109-123 | over every run with publish as one step, each channel's buffer is the last entries of its log and ids strictly increase |
| `SseTheorems.ReplayMatchesLog` | ws-go/internal/transport/sse.go:174-190 | over every run, a replay equals filtering everything published on the channel if and only if at most `limit` newer events exist |
| `SseTheorems.ReconnectNeverRepeats` | ws-go/internal/transport/sse.go:251-285 | over every run, the ids on one stream never decrease and are at least their event's id, so a reconnect with the last one never replays a written event, whatever the buffer holds |
| `SseOrder.StreamsAreInOrder` | ws-go/internal/transport/sse.go:251-285 | over every run, a stream is its replay, the connected line and then events; those and the queue are, in order and with data, exactly the publishes to its channel and broadcasts made while it was listed that found fewer than 64 waiting, and the others were dropped in order |
| `SseOrder.SubscribersHaveAnOrigin` | ws-go/internal/transport/sse.go:52-58 | over every run, a subscriber has the channel and key it subscribed with |
| `SseResume.OffersAreAccounted` | ws-go/internal/transport/sse.go:125-166 | over every run and for every subscriber, everything offered while it was listed was written live, waits or was dropped, each once, and the events on its stream are those written live and those replayed |
| `SseResume.ReconnectLosesIff` | ws-go/internal/transport/sse.go:251-285 | after every run, a reconnect with a stream's last id never gets an unsent event at or below it, and, with at most `limit` newer events, loses nothing published while subscribed if and only if each queued or dropped event is newer than that id or was replayed |
| `SseResume.ReconnectLosesBacklog` | ws-go/internal/transport/sse.go:279-282 | right after every live write, a reconnect loses nothing if and only if each numbered event queued or dropped was replayed; without a replay, if and only if none is queued and none was dropped |
| `SseResume.LosesTheNext` | ws-go/internal/transport/sse.go:279-282 | from every run in which a live stream has something queued and room for more, one more event and one more write lose that event for every later buffer |
| `SseResume.LosesAnEvent` | ws-go/internal/transport/sse.go:279-282 | a run from the start that loses its second event |
| `SseResume.QueuedAndReplayed` | ws-go/internal/transport/sse.go:243-260 | from every run, an event published between a subscribe and its replay read is queued and replayed, and a reconnect after the connected line loses nothing |
| `SseTheorems.AccountsOverRuns` | ws-go/internal/transport/sse.go:52-106 | over every run a subscriber is listed under its own channel only, exactly until it unsubscribes or its key is dropped |
| `SseTheorems.KeyDropPanics` | ws-go/internal/transport/sse.go:73-106 | after every run, a key drop changes nothing if no subscriber of the key is listed; each listed one has its Done closed once by the drop, could have unsubscribed without a panic before it, and panics by unsubscribing after it, with every other stream unchanged |
| `SseTheorems.QuietDropsNeverPanic` | ws-go/internal/transport/sse.go:73-106 | over every run whose key drops found nobody, no handler has panicked and each Done was closed exactly by its own unsubscribe |
| `SseTheorems.DisconnectCounts` | ws-go/internal/transport/sse.go:88-106 | after every run, dropping a key removes exactly its subscribers and the total falls by their number |
| `SseTheorems.DeliveredIsGrowth` | ws-go/internal/transport/sse.go:132-143 | the count a publish returns is what the queues of any group of subscribers grew by |
| `SseTheorems.PublishReturnsGrowth` | ws-go/internal/transport/sse.go:109-144 | in every state, a publish to a channel returns what all queues together grow by |
| `SseTheorems.PublishAllReturnsGrowth` | ws-go/internal/transport/sse.go:147-166 | in every state, a publish to all channels returns what all queues together grow by |
| `SseServer.SseServer.Subscribe` | ws-go/internal/transport/sse.go:52-70 | the new subscriber is added under its channel with an empty queue |
| `SseServer.SseServer.Unsubscribe` | ws-go/internal/transport/sse.go:73-85 | it leaves its channel, an emptied channel is deleted, and Done is closed, a second time if a key drop had closed it |
| `SseServer.SseServer.DisconnectKey` | ws-go/internal/transport/sse.go:88-106 | the nested loops drop exactly the key's subscribers, close each Done once, keep emptied channels listed and return how many |
| `SseServer.SseServer.Publish` | ws-go/internal/transport/sse.go:109-144 | the counter and the buffer advance, each listener is offered the event once, and the result counts those with room |
| `SseServer.SseServer.PublishAll` | ws-go/internal/transport/sse.go:147-166 | the nested loops offer once to every subscriber and count those with room |
| `SseServer.SseServer.GetReplaySince` | ws-go/internal/transport/sse.go:174-190 | the loop returns the buffered entries newer than the given id, in order |
| `SseServer.SseServer.WriteReplay` | ws-go/internal/transport/sse.go:255-259 | the replay loop writes each newer buffered entry under its own id, in order |
| `SseServer.SseServer.TotalSubscribers` | ws-go/internal/transport/sse.go:193-201 | the sum over channels is the number of distinct subscribers |
| `GapLimiter.TableMeaning` | ws-go/internal/middleware/middleware.go:68-92 | over every history, an entry holds its key's run position and last time, and a missing entry means no request or a gap longer than the window |
| `GapLimiter.AnswerIsPosition` | ws-go/internal/middleware/middleware.go:68-81 | over every history and any rate, a request is granted if and only if it starts a run or its run position is at most the rate |
| `GapLimiter.AnswerIgnoresCleanupAndOthers` | ws-go/internal/middleware/middleware.go:121-145 | two histories with the same requests of a key answer alike, wherever cleanups and other keys fall |
| `GapLimiter.AtMostRatePerWindow` | ws-go/internal/middleware/middleware.go:121-134 | over every history, an interval no longer than the window sees at most rate grants to a key, or one if the rate is below one |
| `GapLimiter.RateLimiter.Allow` | ws-go/internal/middleware/middleware.go:68-81 | over the object's whole call history with a forward clock, the answer is yes if and only if the request starts a run of its own key or stands at a position within the rate, whatever cleanups and other keys did to the table |
| `GapLimiter.RateLimiter.Cleanup` | ws-go/internal/middleware/middleware.go:83-92 | the deleting loop removes exactly the entries quiet for longer than the window, and leaves every key's request history, on which later answers depend, as it was |
| `SlidingLog.TableRefinesLog` | ws-elixir/lib/ws_elixir_web/plugs/rate_limiter.ex:33-51 | over every run with a nondecreasing clock, the swept table agrees with the unswept log on all rows still in the window |
| `SlidingLog.DecisionIsLogDecision` | ws-elixir/lib/ws_elixir_web/plugs/rate_limiter.ex:42-50 | each decision is the one the unswept log would make |
| `SlidingLog.SweepsNeverMatter` | ws-elixir/lib/ws_elixir_web/plugs/rate_limiter.ex:37-40 | without overlap, the same requests with any other dice get the same decision |
| `SlidingLog.AtMostLimitPerWindow` | ws-elixir/lib/ws_elixir_web/plugs/rate_limiter.ex:33-51 | over every run of calls that do not overlap, at most limit requests of an address pass in an interval no longer than the window |
| `SlidingLog.RateLimiter.Allowed` | ws-elixir/lib/ws_elixir_web/plugs/rate_limiter.ex:33-51 | over the object's whole call history with a forward clock and any dice, the answer is yes if and only if the log that is never swept holds fewer than limit acceptances of the address in the trailing window, and that log grows exactly by the request accepted |
| `SlidingRace.CountIsLogLessMissed` | ws-elixir/lib/ws_elixir_web/plugs/rate_limiter.ex:33-48 | in every interleaving, a call counts what the unswept log holds in its window less the rows swept from it since the call read the clock, and decides as the log would if and only if those rows make no difference |
| `SlidingRace.MissingIs` | ws-elixir/lib/ws_elixir_web/plugs/rate_limiter.ex:38-40 | a sweep takes from a call's window exactly its address's rows older than the sweep's start, so nothing unless the sweeping call read a later clock |
| `SlidingRace.TimelySweepsNeverMatter` | ws-elixir/lib/ws_elixir_web/plugs/rate_limiter.ex:33-48 | in every run in which no sweep with a later clock falls between another call's clock reading and its count, every decision is the unswept log's |
| `SlidingRace.AtMostLimitPlusRacers` | ws-elixir/lib/ws_elixir_web/plugs/rate_limiter.ex:42-50 | with timely sweeps and at most n calls of the address between count and insert, at most limit - 1 + n requests pass in an interval no longer than the window, so at most the limit for n = 1 |
| `SlidingRace.AtMostLimitPlusTwice` | ws-elixir/lib/ws_elixir_web/plugs/rate_limiter.ex:33-50 | in every run, with at most n calls of the address between clock reading and insert, at most limit - 1 + 2n requests pass in such an interval |
| `SlidingRush.RacersReachTheBound` | ws-elixir/lib/ws_elixir_web/plugs/rate_limiter.ex:42-50 | from every run with one place left and none of the address under way, n processes reach limit - 1 + n with no sweep |
| `SlidingRush.SweepReachesTheBound` | ws-elixir/lib/ws_elixir_web/plugs/rate_limiter.ex:33-50 | from every such run, n processes and one late sweep reach limit - 1 + 2n with never more than n under way |
| `SlidingRush.TwoPass` | ws-elixir/lib/ws_elixir_web/plugs/rate_limiter.ex:42-50 | a run in which two simultaneous requests pass a limit of one |
| `SlidingRush.LateSweepChangesDecision` | ws-elixir/lib/ws_elixir_web/plugs/rate_limiter.ex:37-42 | a run in which a late sweep lets a request pass that the log refuses |
| `SlidingRush.AloneIsOneStep` | ws-elixir/lib/ws_elixir_web/plugs/rate_limiter.ex:33-51 | in every run, a call during which nobody else moves is one step of the one-step machine, with the same answer and table |
| `SlidingRush.SequenceIsRun` | ws-elixir/lib/ws_elixir_web/plugs/rate_limiter.ex:33-51 | calls one after the other give exactly the one-step machine's run |
| `LimiterSimulation.GoGrantsImplyElixirGrants` | ws-elixir/lib/ws_elixir_web/plugs/rate_limiter.ex:33-51 | for any limit of at least one, the same window and traffic, any Go cleanups and any dice, what the Go limiter grants the Elixir limiter grants |
| `LimiterSimulation.LimitersAgreeIff` | ws-go/internal/middleware/middleware.go:68-81 | on the same traffic with any Go cleanups and dice, the limiters agree on a request if and only if its run position is within the limit or the Elixir window is full; for a zero limit, if and only if it does not start a run |
| `LimiterSimulation.AgreeWithinOneWindow` | ws-elixir/lib/ws_elixir_web/plugs/rate_limiter.ex:42-50 | for a limit of at least one they agree on every request whose key's current run began no longer ago than the window |
| `LimiterSimulation.LimitersDiffer` | ws-go/internal/middleware/middleware.go:68-81 | concrete traffic where only the Elixir limiter grants, and a zero limit where only the Go limiter does |
| `Domains.MatchesDomain` | ws-go/internal/security/apikey.go:160-175 | the search returns whether some pattern is `*` or matches, and false for an empty host |
| `Domains.TrimCutsBlanks` | ws-go/internal/security/apikey.go:179-180 | trimming cuts white space, and only that, off both ends until none is left there |
| `Domains.PlainMatchesByLetters` | ws-go/internal/security/apikey.go:182-184 | a pattern without a leading `*.` matches exactly the hosts with the same letters in any case, once both are trimmed |
| `Domains.SuffixIsLabelSuffix` | ws-go/internal/security/apikey.go:186-189 | for all strings, being d or ending in "." + d is having d's labels as last labels |
| `Domains.WildcardMatchesByLabels` | ws-go/internal/security/apikey.go:178-192 | a normalised "*." + d matches a host if and only if d's labels are the last labels of the normalised host |
| `Domains.WildcardClosedUnderSubdomains` | ws-go/internal/security/apikey.go:186-189 | a host matched by a wildcard stays matched below any further subdomain |
| `Domains.ElixirPlainMatches` | ws-elixir/lib/ws_elixir/api_key_store.ex:110-116 | the Elixir broker matches a plain pattern by its letters against the untrimmed host, and a trimmed `*` against everything |
| `Domains.ElixirWildcardMatches` | ws-elixir/lib/ws_elixir/api_key_store.ex:117-119 | the Elixir broker matches a wildcard by the last labels of the untrimmed host |
| `Domains.AgreeOnPattern` | ws-elixir/lib/ws_elixir/api_key_store.ex:107-123 | on one pattern and a non-empty trimmed host the brokers agree if and only if the pattern is not a padded `*` or the host is `*` |
| `Domains.AgreeOnTrimmed` | ws-elixir/lib/ws_elixir/api_key_store.ex:107-123 | on all lists of trimmed patterns and non-empty trimmed hosts the brokers agree |
| `Domains.AgreeOnListIff` | ws-elixir/lib/ws_elixir/api_key_store.ex:107-123 | on any list and a non-empty trimmed host the brokers agree if and only if the Go broker allows the host or no pattern normalises to `*` |
| `Domains.AgreeOnEmptyHostIff` | ws-go/internal/security/apikey.go:160-164 | on an empty host they agree if and only if no pattern normalises to `*`, the empty string or `*.` |
| `Domains.DisagreeOnPadding` | ws-elixir/lib/ws_elixir/api_key_store.ex:110-115 | a padded `*` and an empty host on which they differ |
| `ElixirBroker.RunRefinesRelation` | ws-elixir/lib/ws_elixir/sse_broker.ex:34-81 | over every run the channel map is the set of (channel, pid) pairs and keeps no empty channel |
| `ElixirBroker.DownPairs` | ws-elixir/lib/ws_elixir/sse_broker.ex:72-80 | a DOWN removes exactly the pairs of that process |
| `ElixirBroker.TotalCountsPairs` | ws-elixir/lib/ws_elixir/sse_broker.ex:54-57 | the sum of set sizes, in any order, is the number of pairs |
| `ElixirBroker.CallersSeeTheRelation` | ws-elixir/lib/ws_elixir/sse_broker.ex:42-57 | over every run, total is the number of pairs, and a publish reaches and counts exactly the processes paired with the channel |

## Left out

- HTTP handlers, routing, CORS, logging, metrics gauges and their text output: plumbing.
- JSON, URL parsing, file persistence, key generation and token signing or parsing: library code; hosts, claims and messages are taken as decoded.
- API key creation, update, revocation and listing: easy map updates.
- Webhooks, the Elixir sockets and controllers, the browser client: input and output.
- Socket deadlines and pings beyond "a write may fail" and "a read may end"; `DisconnectKey` of the hub only closes sockets and appears as a read loop ending.
- The write permission check of room messages and user-info updates: room broadcasts are allowed to anyone in the model, a superset of what the program does.
- Valkey connection, timeouts and retries: the bus hands each published message to each matching subscription at most once, or loses it.
- Wrap-around of the 64-bit event id and message counters: identifiers are unbounded.
- Non-ASCII white space and case folding in domain patterns: trimming and lowercasing are ASCII.
- SSE delivery of bridged messages: the bridge does not feed SSE in the program either.
- Object identity of clients and subscribers is modelled by numbers in maps, not by heap references, and hub panics end the run instead of unwinding.
- SlidingLog.TableRefinesLog: a call is one step there, the case without overlap; `SlidingRace` has the overlapping calls.
- SlidingLog.DecisionIsLogDecision: as `TableRefinesLog`; `SlidingRace.CountIsLogLessMissed` gives the exact decision of overlapping calls.
- SlidingLog.SweepsNeverMatter: as `TableRefinesLog`; `SlidingRace.TimelySweepsNeverMatter` gives the condition for overlapping calls.
- SlidingLog.AtMostLimitPerWindow: as `TableRefinesLog`; `SlidingRace.AtMostLimitPlusRacers` is the bound for overlapping calls, and this the case n = 1.
- SlidingLog.RateLimiter.Allowed: the call runs from clock reading to insert without another call in between.
- LimiterSimulation.GoGrantsImplyElixirGrants: the Elixir side answers one call at a time.
- LimiterSimulation.LimitersAgreeIff: the Elixir side answers one call at a time.
- LimiterSimulation.AgreeWithinOneWindow: the Elixir side answers one call at a time.
- Each operation of the Elixir limiter on its table is one moment, and the system clock is not negative and does not run backwards.
- A panic while the publish endpoint sends to room members is recovered with the hub's read lock held, so the hub blocks instead of ending; the model ends the run. It needs a closed queue in a room, which orderly runs exclude.
- SseTheorems.BufferRefinesLog: publish is one step of the whole broker there; with its three parts interleaved the log need not be in id order, and `SseInterleaved.BufferIsEndOfLog` and `LogOrderedIff` say exactly when it is.
- SseTheorems.ReplayMatchesLog: publish is one step there; for interleaved publishes `SseInterleaved.BufferIsEndOfLog` gives the condition.
- SseTheorems.ReconnectNeverRepeats: publish is one step there; for interleaved publishes `SseInterleaved.ConnectedNeverRepeats` and `CutOffRepeatsIff` say when it holds.
- SseResume.ReconnectLosesIff: publish is one step there; for interleaved publishes there is `SseReconnect.CutLosesIff`.
- SseResume.ReconnectLosesBacklog: as `ReconnectLosesIff`.
- SseInterleaved and SseReconnect follow one channel and streams whose key is not dropped; key drops and closes are in `SseTheorems`.
