# A verified model of a multi-instance chat server and its client

The repository is a WebSocket chat server in Go, run as any number of instances over one SQL database and one
Redis, with a TypeScript browser client. These Dafny modules model what its handlers do to queues, tables,
subscriptions and the client's store, and prove what its users may rely on.

## How the model is built

**Delivery protocol.** `HubSpec`, `DbSpec` and `BusSpec` give the hub, the tables and publish/subscribe as values.
`Protocol` puts them together for any number of instances, one step a handler: connect with its hook, disconnect,
direct message, acknowledgement, history request, forwarding or loss of a published copy, one socket write, and any
other packet. Every sequence of events is a run; an event whose guard does not hold changes nothing. Rows carry ids in
the order they were stored, and a history beside the tables records each message's addressee and the acknowledgements.
`ProtocolSteps` says what each handler keeps and exactly what it adds. `NoLoss`, `CopyBound`, `Addressing`,
`PacketTruth`, `Backlog`, `Receipts`, `Subscriptions` and `Mapping` prove the guarantees over whole runs. `HubTells`
says what each user is told by any succession of sends.

**Interleavings.** `Interleaving` cuts the handlers into lock-sized steps: a thread is the list of steps it has left,
and any thread of any live instance may move next. A send looks its receiver up in one step and enqueues in another;
an enqueue on a closed channel ends the instance, or only the handler when it happens in a connect hook, which runs
under the HTTP server's recovery (server/main.go:176). `InterleavedHub`, `InterleavedStatus`, `ReplayFits`, `ChatRaces`,
`InterleavedNoLoss` and `InterleavedAddressing` prove what survives every interleaving and exactly when the rest fails,
and `Atomicity` that a handler nobody interrupts is the protocol's single step. `InterleavedReceipts`, `ReceiptRaces`
and `InterleavedEntry` do the same for the order of receipts, up to the sender's screen. `Scenes` builds reachable
states step by step, and `FineWitnesses` and `Witnesses` use it, and its like for single-step handlers, to show what
does not survive.

**In place.** `Hub` and `Server` are the classes of the Go code: connection objects with buffered channels, the user
map, the router, the connection pool and the handlers, each method proved against the specification functions.
`Requests` says what each request does to the tables, the wire and every user, which is what the dispatcher promises,
and `RequestRuns` that each is a run of the protocol. What a SQL engine, Redis or the clock decides is a parameter:
which row `LIMIT 1` keeps, which hundred rows a batch holds, `now()`, and whether a publication succeeds.

**Around it.** `Limiter` is the Redis counter with its expiry, with `Gate.Allow` and all timed traces over any number
of instances. `Presence` is the key with a TTL, its heartbeats and the batch lookup. `GroupsSpec` and `Groups` are
membership, provenance and fan-out.

**Client.** `Store` holds the reducers, `StoreRuns` their runs, `HistoryMerge` the merge of a loaded history, `Browser`
the event loop, search loops, acknowledgement pass and date grouping in place. `EntryPhases` follows one optimistic
entry through its receipts, and `EndToEnd` joins runs of the server to runs of the sender's browser. `HistoryRuns` puts
the loading of histories among the client's events, `LoadedEndToEnd` lets the joint runs ask the server for them, and
`Histories` says where each history comes from and what it shows.

## What the proofs show about the code

- "Delivered" means accepted by a queue. The connect hook ignores the answer of its sends and marks the row all the
  same; that is sound exactly while fewer than 256 enqueues were tried on the undrained connection, so at most 156
  other sends are always harmless. With 157 of them the hundredth row is refused and marked, and that state is reached.
- Apart from such marks nothing is lost unseen under any interleaving: a message that is no longer pending was accepted
  by a queue of its receiver or acknowledged.
- The rate limiter lets at most 2*max - 1 requests through in an interval of one window, not 2*max: the request that
  creates a key opens its window, so it and the last of the next lifetime never share an interval. Requests that Redis
  does not answer all pass on top of that.
- A history never has a row of the chat that is not among the oldest fifty, so new messages of a long chat are missing
  from it.
- A status falls only from `read` to `delivered`, and only by a handler's late write after an acknowledgement.
- The `read` notice stands before the `sent` acknowledgement on a connection exactly if it was queued there while the
  handler that stored the message still had the acknowledgement to send, and the sender's entry then stays `delivered`.
  A receipt handled after that handler is past its acknowledgement can never arrive first, and no weaker guard will do:
  while the acknowledgement is still to be sent to an open connection with places to spare, some continuation turns
  the order round.
- A history that is loaded between the sending of a message and its `sent`, and already has its row, makes the message
  appear twice, until the next history with the row is loaded. A history asked for before the message was read, and
  loaded after its notice, shows it unread again. One asked for later never does.
- A send whose receiver's reader ends between lookup and enqueue panics, and outside a connect hook that is the end of
  the instance.
- Writing to oneself picks some chat of the user, and the message is stored there: exactly if the user's own queue does
  not take the copy, for instance because a later connection of his replaced it and ended, it becomes pending for the
  other member.
- Of two overlapping connections the end of the earlier closes the subscription of the later.
- A copy redelivered after its acknowledgement stays `delivered` while the chat window stays mounted. Closing and
  opening the window empties its memory: the copy is then acknowledged a second time and marked read. A loaded
  history replaces it by the server's entry.
- The design documents speak of a hub with one goroutine and of a sliding window. The code has a locked map and a
  fixed window, and the model follows the code.

## Model

| member | source | states |
|---|---|---|
| HubSpec.SendEffect | server/ws/hub.go:53-68 | the whole effect of an uninterrupted send: it succeeds exactly when the user is mapped and his queue holds fewer than 256 packets; then one entry is logged, otherwise his entry (only his) is gone |
| HubTells.SendTells | server/ws/hub.go:53-68 | a send tells its addressee the packet, as far as his mapped connection has room, and drops it exactly if it has none; nobody else is told anything |
| HubTells.ToldThen | server/ws/hub.go:53-68 | what a user is told by one part of a handler and then by another is the one list after the other, cut where his queue is full |
| HubSpec.UnregisterKeepsHub | server/ws/hub.go:43-51 | removal is checked against identity: only that connection is closed and unmapped, no other user's entry and no newer connection of the user is touched |
| HubSpec.RegisterKeepsHub | server/ws/hub.go:37-41 | overwriting a user's entry keeps every mapped connection open and keyed by its own user, and every queue a FIFO of its accepted sends |
| HubSpec.EnqueueIsLast | server/ws/hub.go:60-62 | an accepted packet is the last of its queue and of its connection's log, and queue, writes and log of every other connection are unchanged |
| HubSpec.WriteKeepsHub | server/ws/client.go:80-91 | taking the head of a queue, written or lost by a socket error, keeps written + failed + queued equal to the accepted sends |
| HubSpec.WrittenIsPrefix | server/ws/client.go:80-91 | what a socket was given is a prefix of the accepted sends, and at most 256 packets plus one failed write separate the two |
| Hub.Client.TrySend | server/ws/hub.go:60-64 | the non-blocking channel send: queued while fewer than 256 wait, refused otherwise, never reordered |
| Hub.Client.WritePump | server/ws/client.go:73-99 | the writer loop drains the queue from its head in order and stops for good at the first failed write |
| Hub.PumpIsWrites | server/ws/client.go:80-91 | the writer loop is a run of the single writes the protocol interleaves with everything else |
| Hub.Hub.Register | server/ws/hub.go:37-41 | the map in place refines the hub specification; the overwritten connection is left open |
| Hub.Hub.Unregister | server/ws/hub.go:43-51 | deletes and closes in place only the very object that is mapped |
| Hub.Hub.Send | server/ws/hub.go:53-68 | lookup, enqueue and drop on overflow in place refine the specified send, result included |
| Hub.Hub.EndReader | server/ws/client.go:43-46 | the deferred unregistration at the end of a reader |
| Hub.Hub.Drain | server/ws/client.go:80-91 | a connection's writer run in place is a run of single writes of that connection alone |
| Hub.Hub.IsOnline | server/ws/hub.go:70-75 | true exactly for mapped users |
| DbSpec.LookupIsRightIffUsersDiffer | server/db/messages.go:22-59 | the pair lookup answers with the pair's own chat exactly when the two users differ; for equal users it fails without a chat and otherwise answers with a chat shared with somebody else |
| DbSpec.LookupKeepsOneChatPerPair | server/db/messages.go:24-30 | with one-step lookups a pair has at most one chat and both directions find it |
| DbSpec.CreateKeepsTables | server/db/messages.go:45-58 | a created chat has exactly the two users as members and no other chat changes |
| DbSpec.OtherMember | migrations/000001_init.up.sql:15-19 | two distinct members of a chat are all of its members |
| DbSpec.BatchFits | server/db/messages.go:79-87 | a pending query names existing rows and at most 100 of them |
| BusSpec.CopiesCount | server/pubsub/router.go:19-21 | a publication makes exactly one copy for each live subscription of the user |
| ProtocolSteps.HandleDmKeeps | server/chat/dm.go:38-77 | a direct message stores one row, adds at most one local copy or one copy for each live subscription, marks exactly the local case, adds at most one acknowledgement after the copy, and keeps the system's invariant |
| ProtocolSteps.DmAcksIff | server/chat/dm.go:57-77 | the hub's log after a direct message, exactly: a copy if the receiver had room here, then the sender's acknowledgement if the copy was queued or published and the sender has room after it |
| ProtocolSteps.HandleAckKeeps | server/chat/dm.go:93-109 | an acknowledgement writes `read` to one row, records it, adds at most one local notice, and puts nothing but notices of that row on the wire |
| ProtocolSteps.AckNotifiesIff | server/chat/dm.go:97-108 | the notice, exactly: none without a named sender; one entry of the named one if he has room here; otherwise one copy for each live subscription of his, if the publication succeeds |
| ProtocolSteps.SelfMessagePendsIff | server/chat/dm.go:38-77 | a message to oneself, exactly: it becomes pending for another user if and only if the lookup found a chat, that user is its other member, and the writer has no room in a queue here |
| ProtocolSteps.ConnectKeeps | server/ws/handler.go:48-55 | a connect makes one connection whose queue accepts the whole batch in order, marks exactly those rows, and opens one subscription |
| ProtocolSteps.ReplayEffect | server/main.go:216-227 | while the queue has room for the batch every replayed copy is accepted, in order, each with the id, author, text and time of its row, and nothing else is logged |
| ProtocolSteps.ReplayMarks | server/main.go:225-226 | the loop marks exactly the rows of the batch delivered, whatever the sends answered |
| ProtocolSteps.DisconnectKeeps | server/main.go:229-234 | a disconnect changes no row, no log and no flight |
| NoLoss.RunKeepsSys | server/chat/dm.go:27-78 | every run over any number of instances keeps hubs, tables, subscriptions and packet ids consistent |
| NoLoss.RunAdvancesRows | server/db/messages.go:129-132 | with one step a handler, no status ever falls and no stored content ever changes |
| PacketTruth.RunTells | server/chat/dm.go:38-109 | every run keeps this true of every packet that is queued or on its way: a copy carries the author, text and time of its row, and a `read` notice names a row that is read |
| PacketTruth.CopiesCarryTheirRow | server/main.go:216-225 | in every run all copies of a message, from its own handler, over the wire or replayed, are one and the same packet, made of its row |
| NoLoss.PendingIsAddressed | server/db/messages.go:79-87 | a row pending for a user is addressed to him |
| NoLoss.NoMessageIsLost | server/chat/dm.go:57-67 | on every run each stored message between two users is still pending for its receiver, or was accepted by a queue of his, or was acknowledged |
| CopyBound.CopiesAreBounded | server/chat/dm.go:57-67 | over a whole run a locally delivered message is enqueued exactly once, a published one at most once for each subscription then live and once more, an unpublished one at most once |
| Witnesses.CopyBoundIsReached | server/chat/dm.go:57-63 | for every number n of subscriptions live at the publication, a reachable state in which n + 1 queues hold a copy of the one message |
| Addressing.CopiesReachOnlyTheAddressee | server/chat/dm.go:57-63 | over every run no queue but its addressee's ever accepts a copy of a message between two users, forwarded and replayed copies included |
| Backlog.PendingIsExact | server/db/messages.go:79-87 | before its limit the pending query returns exactly the `sent` messages addressed to the user, even if a pair has two chats |
| Backlog.OneChatForEachPair | server/db/messages.go:22-59 | in every run each chat has two members, each pair at most one chat, and the lookup is symmetric |
| Backlog.BatchIsPrefix | server/db/messages.go:85-86 | with distinct times the batch is exactly the oldest hundred of the backlog, in order |
| Backlog.BacklogDrains | server/main.go:211-227 | the batches of successive connects concatenate to the backlog in order, each row once, and it is empty exactly after ceil(k/100) connects |
| Receipts.ReceiptsArriveInOrder | server/chat/dm.go:69-75 | on every connection of every run no `read` notice precedes the `sent` acknowledgement of its message and no acknowledgement repeats |
| Subscriptions.LiveSubscriptionsAreAccountedFor | server/pubsub/router.go:40-54 | after every run a user's live subscriptions on an instance are the mapped one plus one for each connect that found an entry |
| Subscriptions.OneConnectionNoLeak | server/pubsub/router.go:57-68 | with one connection at a time nothing leaks, and every hub user has a live mapped subscription |
| Mapping.MappedIffLastConnected | server/pubsub/router.go:40-68 | after every run a user is mapped on an instance exactly if the last of his connects and reader ends there was a connect, so a hub user lacks a subscription exactly if another connection of his ended after his last connect |
| InterleavedHub.HubsStaySound | server/ws/hub.go:37-68 | under every interleaving of lock-sized steps a mapped connection is open and keyed by its user, and each queue is the FIFO of its accepted sends, at most 256 waiting |
| InterleavedHub.QueuesCloseOnce | server/ws/hub.go:43-51 | no step closes a closed queue or reopens one, and no step removes another connection's entry: a stale drop never evicts a newer connection |
| InterleavedHub.PanicIffClosedSinceLookup | server/ws/hub.go:53-66 | an enqueue hits a closed channel exactly when that very connection was unregistered between the send's lookup and its enqueue |
| InterleavedStatus.StatusFallsOnlyByLateWrite | server/db/messages.go:129-132 | under every interleaving no row returns to `sent`; a status falls exactly when a handler's late write of `delivered` finds the row read, by an acknowledgement after that handler stored or listed it |
| InterleavedStatus.PendingIsExactWhenLookupsRace | server/db/messages.go:79-87 | the pending query stays exact in every interleaving, racing lookups included |
| ChatRaces.SecondChatIffMadeSinceLookup | server/db/messages.go:22-59 | under every interleaving a commit gives its pair a second chat exactly if the pair has one by then, that is, exactly if somebody committed a chat of the pair after this handler's lookup |
| ReplayFits.ReplayFitsTheQueue | server/main.go:216-227 | under every interleaving, while at most 156 other sends reach the connection and it is not replaced, the hook's lookups find it, its enqueues are accepted, and a row about to be marked was accepted |
| ReplayFits.ReplayAcceptedIff | server/ws/client.go:33-39 | the hook's enqueue is accepted exactly when fewer than 256 were tried on the connection; a refused row is marked delivered all the same |
| ReplayFits.RunKeepsReplay | server/ws/handler.go:48-55 | an undrained open queue counts exactly the enqueues tried on it, and a closed one overflowed |
| InterleavedNoLoss.NoMessageIsLostUnseen | server/main.go:211-227 | under every interleaving each stored message between two users is pending for its receiver, or acknowledged, or was accepted by a queue of his, or some step that the run really took marked it after an offer by his connect hook that more than 156 other sends or a replacement had disturbed |
| InterleavedAddressing.PacketsReachOnlyTheirUser | server/chat/dm.go:57-77 | under every interleaving a queue that accepted a copy of a message between two users is its addressee's, the copy carries the author, text and time of its row, and a queue that accepted an acknowledgement is its sender's |
| InterleavedReceipts.AcknowledgedOnce | server/chat/dm.go:69-75 | under every interleaving the acknowledgement of a message stands at one place at most: one step of one handler still to be taken, or one place in one connection's stream |
| InterleavedReceipts.NoticeFirstIff | server/chat/dm.go:57-109 | under every interleaving the notice of a message stands before its acknowledgement on a connection exactly if the acknowledgement is there and a notice was queued there while some handler still had the acknowledgement to send |
| InterleavedReceipts.InOrderOnceFinished | server/chat/dm.go:69-109 | if nobody has acknowledged the message when the storing handler is past its acknowledgement, no continuation puts a notice first on any connection |
| ReceiptRaces.HeldCanBreak | server/chat/dm.go:57-109 | conversely, while a handler holds the acknowledgement and it is bound for an open, mapped connection with places to spare, some continuation puts the notice first |
| ReceiptRaces.SafeFromHereIff | server/chat/dm.go:57-109 | so for a message not acknowledged yet, and such a connection, every continuation keeps the order if and only if no handler holds its acknowledgement |
| InterleavedEntry.EntryReadIffNoticedLate | web/src/hooks/useWebSocket.ts:81-107 | under every interleaving of the server, a composed entry whose browser takes a stretch of its connection with the acknowledgement takes the server's id, and ends `read` if and only if a notice in reach was queued when no handler had the acknowledgement to send any more |
| InterleavedEntry.AckedAfterIsSeen | server/chat/dm.go:93-109 | so if the receipt is handled after the storing handler is past its acknowledgement, the entry ends `read` whatever interleaves |
| Atomicity.DirectMessageIsAtomic | server/chat/dm.go:27-78 | a direct message cut into lock-sized steps and not interrupted is the protocol's single step |
| Atomicity.AcknowledgementIsAtomic | server/chat/dm.go:93-109 | the same for a read receipt |
| Atomicity.ConnectIsAtomic | server/main.go:204-228 | the same for registration, hook and pumps |
| Atomicity.AloneIsARun | server/ws/hub.go:53-68 | the steps of one thread taken in a row are a run of the interleaving model in which nothing else moves |
| FineWitnesses.RefusedAndMarked | server/main.go:216-227 | for every backlog of r rows, 1 to 100, a reachable state in which 257 - r other sends came first, the last row was refused by a full queue and is marked `delivered`, though no queue ever took it and nobody acknowledged it |
| FineWitnesses.SendCanPanic | server/ws/hub.go:53-66 | a run in which a reader ends between a send's lookup and its enqueue, and the send takes the instance down |
| FineWitnesses.StatusCanFall | server/chat/dm.go:64-67 | a reachable state, both users connected and the copy on the receiver's socket, in which a late write takes a row from `read` to `delivered` |
| FineWitnesses.NoticeCanOvertake | server/chat/dm.go:57-77 | a run in which the receiver acknowledges the message while its handler still has the `sent` to send, so that the notice stands before it on the sender's connection, and a sender's entry whose browser takes that queue stays `delivered` |
| FineWitnesses.LookupsCanRace | server/db/messages.go:24-58 | a reachable state in which two racing lookups have given one pair two chats |
| Witnesses.OverlapLosesTheSubscription | server/pubsub/router.go:40-68 | a reachable state after two overlapping connections that leaves the connected user without a mapped subscription and one subscription open for good |
| Witnesses.SelfMessageReachesAnother | server/db/messages.go:24-30 | a reachable state in which a message that a user sent to himself, on an open connection, is pending for another user |
| Server.Router.Subscribe | server/pubsub/router.go:40-54 | opens a subscription and overwrites the user's entry without closing the earlier one |
| Server.Router.Unsubscribe | server/pubsub/router.go:57-68 | forgets and closes the mapped subscription only |
| Server.Pool.FindOrCreateChat | server/db/messages.go:22-59 | the lookup and the rolled-back insert in place |
| Server.Pool.GetPendingMessages | server/db/messages.go:78-102 | the row loop returns each row of the result once, in its order |
| Server.Instance.SendOrPublish | server/chat/dm.go:57-63 | the local queue first, the user's channel when that refuses |
| Server.Instance.HandleDM | server/chat/dm.go:27-78 | the handler in place refines the protocol's step, and errs exactly when the chat cannot be made or the copy can be neither queued nor published |
| Server.Instance.MarkAndAck | server/chat/dm.go:64-77 | the status write comes before the acknowledgement, and only for a local delivery |
| Server.Instance.HandleAck | server/chat/dm.go:81-109 | the handler in place refines the protocol's step |
| Server.Instance.OnConnect | server/main.go:204-228 | the hook in place: presence refreshed, one subscription, and the replay of the batch |
| Server.Instance.PushAll | server/main.go:216-227 | the loop over the fetched rows is the replay of the rows as they stand |
| Server.Instance.ServeWS | server/ws/handler.go:48-61 | a fresh connection is registered, its hook run and only then its pumps started: the protocol's connect, with the user's presence refreshed at that time |
| Server.Instance.ReaderEnds | server/ws/handler.go:56-61 | the end of a reader and its hook are the protocol's disconnect, and presence is dropped |
| Server.Instance.Dispatch | server/main.go:33-142 | routes one request: a direct or group message the limiter refuses does nothing but tell its sender so; any other does what its kind does to tables, wire, records and every user; counters move for limited requests only, and presence for an answered ping only |
| Requests.RequestDoes | server/main.go:48-142 | what direct messages, receipts, pings, presence checks and relays do, exactly, from the tables and queues before: rows, members, records, the copies on the wire, and what every user is told, online exactly if Redis answers and the key lives, relays under their sender's name |
| Requests.GroupRequestDoes | server/main.go:52-89 | what posts, creations, additions, departures and typing notices do, exactly, to the groups' tables and to what every user is told |
| Requests.RefusedIff | server/main.go:40-47 | a request is refused exactly if it is a direct or group message, Redis answers, and the counter has reached the limit |
| Requests.CountsIff | server/main.go:40-47 | a counter grows by one exactly for a direct or group message of its user whose transaction was applied |
| RequestRuns.RequestIsARun | server/main.go:48-142 | every request outside the groups is a run of the protocol's events, so the guarantees over all runs hold for whatever clients ask |
| RequestRuns.GroupRequestIsARun | server/main.go:52-89 | what a request for the groups does to the hub is a run of notices |
| Server.Instance.CheckPresence | server/main.go:90-112 | one answer to the asking user for each listed id, in order |
| Server.Instance.Forward | server/pubsub/router.go:47-53 | a forwarder offers each copy to the local queue of its subscription's user |
| RequestRuns.ForwardTells | server/pubsub/router.go:47-53 | forwarding takes one copy off the wire and tells exactly that packet to the subscription's user on its own instance, and changes nothing else |
| RequestRuns.ForwardedInOrder | server/pubsub/router.go:47-53 | each subscription is a queue: what is forwarded is the oldest copy it has coming |
| Limiter.Redis.Incr | server/ratelimit/limiter.go:26 | INCR: an expired key counts from one again and has no expiry |
| Limiter.Gate.Allow | server/ratelimit/limiter.go:23-33 | one transaction: an unanswered request passes, an answered one exactly if the counter was below the limit; an applied transaction counts one for the user and leaves every other key alone |
| Limiter.RateIsBounded | server/ratelimit/limiter.go:23-33 | in any half-open interval one window long, over all instances and both kinds, at most 2*max - 1 answered requests of a user pass, none when max is not positive |
| Limiter.RateBoundIsTight | server/ratelimit/limiter.go:25-32 | for every limit and window a trace reaches that bound |
| Limiter.FailuresPass | server/ratelimit/limiter.go:28-31 | over any trace the gate lets through exactly the granted requests and all unanswered ones, so at most 2*max - 1 and the unanswered ones in an interval one window long |
| Limiter.LifetimeGrantsExactly | server/ratelimit/limiter.go:25-32 | each lifetime of a key lets exactly min(n, max) of its n requests through |
| Limiter.ExpiryIsFixed | server/ratelimit/limiter.go:27 | rejected, failed and foreign requests never move the expiry of a living key |
| Limiter.NeverStarves | server/ratelimit/limiter.go:25-32 | the first answered request at or after a key's expiry passes exactly when the limit is positive, whatever was sent before |
| Limiter.ExpiryIsNear | server/ratelimit/limiter.go:27 | a key expires at most one window after the last request |
| Limiter.RefreshingStarves | server/ratelimit/limiter.go:27 | a gate that refreshed the expiry on every hit would let nothing through after the first max while requests stay less than a window apart |
| Presence.Store.IsOnline | server/presence/presence.go:29-32 | true exactly for a living key and an answering Redis |
| Presence.Store.GetPresenceBatch | server/presence/presence.go:35-55 | agrees with the single lookup for exactly the listed ids, duplicates included; empty input needs no Redis |
| Presence.UptoShows | server/presence/presence.go:19-32 | at any instant of a trace a user is online exactly if a refresh still reaches it and no drop came after that refresh |
| Presence.OnlineIffRefreshed | server/presence/presence.go:29-32 | without a drop a user is online at exactly the instants some refresh reaches |
| Presence.OnlineThroughoutIffNoGap | server/presence/presence.go:12 | a user is online throughout exactly if no two neighbouring refreshes are more than 30 s apart |
| Presence.HeartbeatsKeepOnline | web/src/hooks/useWebSocket.ts:49-56 | heartbeats every 20 s delayed by less than 10 s keep a user online from the first arrival until 30 s after the last, and at no other instant |
| GroupsSpec.StepMembership | server/db/groups.go:34-98 | exactly which memberships and roles each handler adds and removes |
| GroupsSpec.ListsInOrder | server/db/groups.go:100-122 | the member list has each row of the group once, in the order they joined |
| GroupsSpec.RunKeepsTables | server/db/groups.go:34-58 | in every run member rows and names are unique and an admin is the creator |
| GroupsSpec.RoleNeverChanges | server/db/groups.go:80-87 | a re-add never changes a role |
| GroupsSpec.MembersWereInvited | server/chat/group.go:124-136 | every member ever present has a chain of invitations back to the creator, each made by someone who was then a member |
| GroupsSpec.AuthorsWereMembers | server/chat/group.go:33-45 | every stored group message was posted by someone who was then a member |
| Groups.HandlersAreSteps | server/chat/group.go:79-176 | what the handlers do to the tables is one step of such a run |
| Groups.FanOutTells | server/chat/group.go:61-65 | a fan-out tells each user but the sender the packet as often as he is listed, as far as he has room, and nobody else anything |
| Groups.PostReachesEachMember | server/chat/group.go:22-76 | a member's message tells each other member one copy with group, row, author and text, tells the author `group_sent`, and is stored; a stranger's tells him the error and does nothing else |
| Groups.CreationIsAnswered | server/chat/group.go:79-103 | the creator is told `group_created` with id and name, or that the name is taken, exactly as the tables before have it |
| Groups.AdditionIsAnswered | server/chat/group.go:106-145 | a member who adds is told `member_added`, a re-add included, a stranger the error; nobody else is told anything |
| Groups.LeavingIsAnswered | server/chat/group.go:148-176 | one who leaves is told `left_group` and has no row left, a stranger is told the error, and all other rows stay |
| Groups.Pool.CreateGroup | server/db/groups.go:34-58 | group and admin row together, or neither when the name is taken |
| Groups.Pool.IsGroupMember | server/db/groups.go:71-78 | true exactly for a stored member row |
| Groups.Pool.AddGroupMember | server/db/groups.go:80-87 | a conflict changes nothing |
| Groups.Pool.RemoveGroupMember | server/db/groups.go:89-98 | reports whether a row was there |
| Groups.Pool.GetGroupMembers | server/db/groups.go:100-122 | the row loop returns the group's members in the order they joined |
| Groups.Handlers.HandleGroupMessage | server/chat/group.go:22-76 | the handler in place: check, insert, fan out, acknowledge |
| Groups.Handlers.FanOutTo | server/chat/group.go:61-65 | the loop in place is the specified fan-out |
| Groups.Handlers.HandleCreateGroup | server/chat/group.go:79-103 | the handler in place, a taken name included |
| Groups.Handlers.HandleAddMember | server/chat/group.go:106-145 | the handler in place: only a member adds |
| Groups.Handlers.HandleLeaveGroup | server/chat/group.go:148-176 | the handler in place, a stranger's request included |
| StoreRuns.ClientIsMonotone | web/src/store.ts:76-110 | over any sequence of socket events, optimistic sends and acknowledgement passes unconfirmed entries stay `sent`, no status falls, and entries never move or vanish |
| StoreRuns.EventDoes | web/src/hooks/useWebSocket.ts:60-107 | what one socket event does to every conversation, entry by entry: a message is appended as received and delivered, `sent` gives the first holder's entry the row id and `delivered`, `read` makes the first holder's entries of the row read, and nothing else changes |
| StoreRuns.SendDoes | web/src/components/ChatWindow.tsx:76-88 | an optimistic send appends the user's own unconfirmed entry to the partner's conversation and changes nothing else |
| StoreRuns.RepeatedSentIffHeldOnce | web/src/hooks/useWebSocket.ts:81-94 | a second `sent` for a client id changes nothing exactly when only one conversation held it |
| StoreRuns.RepeatedSentIsNoOp | web/src/hooks/useWebSocket.ts:81-94 | in every run it changes nothing |
| StoreRuns.AckFromExactly | web/src/components/ChatWindow.tsx:58-68 | a pass acknowledges each unread id once and marks exactly those ids read |
| StoreRuns.PassReadsIffNotAcked | web/src/components/ChatWindow.tsx:60-67 | after a pass a received entry is read exactly if it was read before or its id had not been acknowledged since the window was mounted |
| StoreRuns.RedeliveredStaysUnread | web/src/components/ChatWindow.tsx:61 | a copy of an acknowledged message stays as delivered through every run in which the window stays mounted and no `read` notice names it |
| StoreRuns.RedeliveredCopyStays | web/src/components/ChatWindow.tsx:58-68 | so the copy that a redelivery of an acknowledged message adds stays `delivered` as long as the window stays mounted and no notice names it |
| StoreRuns.AckedOncePerMounting | web/src/components/ChatWindow.tsx:60-63 | over any run no id is acknowledged twice while the window stays mounted |
| StoreRuns.AckedAgainIff | web/src/components/ChatWindow.tsx:34-63 | a pass acknowledges an id exactly if the conversation shows an unread copy of it and it was not acknowledged since the window was mounted |
| StoreRuns.RemountAcknowledgesAgain | web/src/pages/ChatPage.tsx:258-299 | a run of five events in which one message is acknowledged twice: shown, redelivered, and shown again after the window was closed and opened |
| HistoryMerge.StableSortSorts | web/src/store.ts:88-90 | the sort is a permutation in order of time that keeps ties in place |
| HistoryMerge.SortIsUnique | web/src/store.ts:88-90 | there is only one such result, so any stable sort gives it |
| HistoryMerge.MergeIsExact | web/src/store.ts:83-92 | the merge is the sorted permutation of the history and of exactly the local entries whose id is not in it, history first at equal times |
| HistoryMerge.MergeLeavesNoDuplicates | web/src/store.ts:86-87 | each history id occurs exactly once afterwards however many copies there were, every other id as often as before |
| HistoryMerge.MergeTwice | web/src/store.ts:83-92 | applying a history twice equals applying it once |
| HistoryMerge.LoadingTwiceIsLoadingOnce | web/src/store.ts:83-92 | the same on the store, other conversations untouched |
| HistoryRuns.LoadDoes | web/src/components/ChatWindow.tsx:41-56 | loading makes the conversation the history and its entries of other ids, in order of time; an empty history, other conversations and the window's memory stay |
| HistoryRuns.RunShows | web/src/store.ts:76-110 | through any events and loads of histories, what the store shows of an optimistic message (whether it waits, how many entries its row has, how many of them are unread) is what a machine of three fields says |
| HistoryRuns.ShownTwiceIffLoadedBefore | web/src/components/ChatWindow.tsx:41-56 | once its `sent` has arrived a message is shown twice if and only if a history with its row was loaded before and none since, otherwise once, and only in its conversation |
| HistoryRuns.AllReadIffCleared | web/src/store.ts:83-110 | all that is shown of it is read if and only if after its `sent` a notice arrived or a history had the row as read, and no history loaded later had it unread |
| HistoryRuns.LoadedInBetweenIsShownTwice | web/src/components/ChatWindow.tsx:41-56 | a run of three events that shows one message twice: sent, loaded with a history, acknowledged |
| EntryPhases.EntryEndsReadIff | web/src/hooks/useWebSocket.ts:81-107 | what becomes of an optimistic entry, exactly: through any events it stays where it was put; it takes its row's id if and only if its acknowledgement arrives, and ends `read` if and only if a notice of the row arrives after that, `delivered` otherwise |
| EndToEnd.SentThenReadIsSeen | server/chat/dm.go:69-107 | from any reachable server state and any session, server events, packets taken from the socket and user actions interleaving in any way: a message composed at any point whose acknowledgement and notice both arrive ends, in the place where it was put, with the server's id and status `read` |
| LoadedEndToEnd.RunLoaded | server/main.go:237-298 | joint runs in which windows ask the server for histories, and answers come in at any time, keep server and browser consistent, and what arrives on the socket is the next stretch of what was sent |
| LoadedEndToEnd.LoadsAreAnswers | server/main.go:244-298 | every history taken in stands in order of time and has each row once; each entry shows a row of a chat of the two users with its author and text, its time down to the second, a status it has or had, and whether it is the user's own |
| Histories.HistoriesWereAsked | server/main.go:257-298 | every history taken in was made by an earlier request, from the rows of its page as they stood then, in its order, with the status of that moment |
| Histories.InHistoryIffEarly | server/main.go:257-264 | with distinct times a row of the chat is in the answer exactly if fewer than fifty rows of the chat are older |
| LoadedEndToEnd.ShownThroughLoads | web/src/components/ChatWindow.tsx:41-56 | from any reachable server state and any session: a message composed at any point whose `sent` is taken is shown twice if and only if a history with its row came in before that and none since, and all that is shown of it is read if and only if something read it after that and no later history had it unread |
| LoadedEndToEnd.ReadStaysSeenThroughLoads | server/chat/dm.go:69-109 | if no answer with the row unread is under way when the notice is taken, the message is shown and all that is shown of it is read from then on, whatever histories are asked for and come in |
| Browser.GroupByDate | web/src/components/ChatWindow.tsx:98-106 | the message list is cut into days without loss or reordering, with a cut exactly where the date changes |
| Browser.Session.Search | web/src/hooks/useWebSocket.ts:86-92 | the search loop finds the first conversation holding the id |
| Browser.Session.OnEvent | web/src/hooks/useWebSocket.ts:60-107 | the event switch in place refines the reducers |
| Browser.TrimIsTrimmed | web/src/components/ChatWindow.tsx:77-85 | trimming takes blanks and nothing else off both ends |
| Browser.Session.HandleSend | web/src/components/ChatWindow.tsx:76-88 | exactly if the body is not all blanks, one unconfirmed entry of the trimmed body is added, and a message with partner, trimmed body and the entry's id goes to the server |
| Browser.Session.AckPass | web/src/components/ChatWindow.tsx:58-68 | the effect's loop in place is the specified pass |
| Browser.Session.Remount | web/src/components/ChatWindow.tsx:34 | a window opened again starts with an empty memory of acknowledged ids |
| Browser.Session.LoadHistory | web/src/components/ChatWindow.tsx:41-56 | a loaded history is merged into the store, an empty one ignored |

## Left out

- Failures of the database: queries and status writes always succeed, except that a taken group name and a chat of a
  user with himself break their unique keys.
- User accounts, foreign keys to users, user names in packets, JWT, password hashing and HTTP routing.
- JSON and UUID parsing: requests arrive decoded, ids are opaque. An acknowledgement names a stored row or no row.
- The SQL and Redis engines themselves. A publication reaches the live subscriptions, and each copy is forwarded in
  the order of its subscription or lost.
- Subscriptions, presence and published copies in the interleaving model: there a publication is a step without
  effect, and every forwarded copy is one of the plain sends that may start at any time.
- The content of call signalling; the times and user names in group messages and notices.
- The keys with which typing notices are recorded in Redis; a failure to set one suppresses the notice.
- Socket deadlines and keep-alive pings; a writer that finds its channel closed just ends.
- `HistoryRuns` takes any history of distinct rows; `LoadedEndToEnd` takes the server's, the oldest fifty rows of the
  chat, with lookup and query as one step.
- Persistence of the store, stale component closures, rendering, reconnect backoff, contact list and command line.
- Invalid timestamps: entries carry comparable times.
- Atomicity.DirectMessageIsAtomic: compares the hub and the tables; the published copies and the history of the
  protocol's step are not part of the interleaving model.
- Atomicity.AcknowledgementIsAtomic: the same.
- Atomicity.ConnectIsAtomic: compares the hub and the tables; the subscription is not part of the interleaving model.
- NoLoss.NoMessageIsLost: says nothing of a message to oneself, since the pair lookup is right only for two users.
- Addressing.CopiesReachOnlyTheAddressee: says nothing of a message to oneself, for the same reason.
- InterleavedNoLoss.NoMessageIsLostUnseen: says nothing of a message to oneself, for the same reason.
- EndToEnd.SentThenReadIsSeen: asks that the client's correlation id is fresh and is acknowledged for one message only,
  which is what a generated id gives, and that the message is stored after it was composed. It takes handlers as single
  steps; InterleavedEntry.EntryReadIffNoticedLate is the exact statement for lock-sized steps. It loads no history;
  LoadedEndToEnd.ShownThroughLoads does, where an entry need no longer stand where it was put.
- LoadedEndToEnd.ShownThroughLoads: asks besides that no window is one with oneself, since the lookup for such a window
  answers with a chat shared with somebody else. It takes handlers as single steps.
- LoadedEndToEnd.ReadStaysSeenThroughLoads: the same.
- InterleavedEntry.EntryReadIffNoticedLate: says nothing of a message to oneself, and loads no history.
- InterleavedEntry.AckedAfterIsSeen: the same.
- InterleavedAddressing.PacketsReachOnlyTheirUser: says nothing of copies of a message to oneself.
- StoreRuns.ClientIsMonotone: loading a history is not among the events, since a history may carry older statuses;
  HistoryRuns.RunShows says what becomes of a message then.
