# Grav's message bus and mesh hub, modelled and proved

Grav is an in-process message bus. Pods connect to it; each gets a connection in a circular linked list. One bus
goroutine takes messages off a channel and walks every message once round the ring, checking the next connection
before it steps onto it: a check drains what the pod reported, and may remove the connection, replay recent messages
to it, or send it the messages it failed to handle once more. Sends are goroutines that race with the closing of the
pod's channel. A hub ties buses on different nodes together: it keeps a table of peer connections, an index of
round-robin lists by capability, and withdraws from its peers behind a counting barrier.

The model has three kinds of parts, which share their definitions.

* Objects with the fields and loops of the program, each method proved against a specification function: the message
  buffer, the filter, the pod, the ring nodes and the pool (`PodConnection`, `ConnectionPool`), the bus
  (`MessageBus`), the balancer, the signaler, the connection handler and the hub. The pool keeps a ghost sequence
  that following `next` pointers spells out; the bus's walk is run against a script of what other goroutines do
  before each of its steps.
* Two interleaved transition systems. `Systems` is the bus goroutine between any two of its lock-protected
  operations, all send goroutines, handler goroutines and pod owners, and the goroutines that connect pods.
  `Withdraws` is a withdraw: the withdrawing goroutine, the counting goroutine, and every connection's withdraw
  listener and read loop. Theorems about them hold in every state of every run.
* Values: rings as cyclic sequences (`Rings`), the buffer, the filter, the feedback rules, the state of one connection
  (`Connections`), the hub's table and index (`MeshIndexes`).

What pods and handlers do to the bus, and it to them, is also told from the actions of a run alone: `Intakes` says what
the history is in terms of what was sent, `Owners` what a pod is after what its owner did, `Reports` what the bus has
heard and made of it, and `Ledgers` where every copy of a message must be.

`Undisturbed` connects the first two: bus steps that nothing comes between do together what the methods of the pool
and the bus promise.

Safety theorems (membership of the ring, closing of channels, conservation, the hub's place, the buffer, what a pod
hears) hold in every state of every run, whatever interleaves. Two things the program does can go wrong when pods
connect at unlucky moments, and the theorems on delivery and replay say so exactly.

* A removal or replay acts on whoever is next by then. `Removals` proves that it hits the connection that
  `prepareNext` peeked at and checked if and only if no pod connected since that peek; otherwise the latest connection
  is closed, or gets the replay, in its place. A run is *undiverted* as long as this does not happen.
* A walk moves its end on if the connection it peeked at was its end and something was removed. If that something was
  a newcomer, the end is still there and the walk is *misaimed*. `Misaims` proves when this happens, that it is the
  only thing that breaks delivery, and how: a message sent twice to the start, or members left out. A run is *aimed* as
  long as no step is misaimed; delivery is proved of every run up to its first misaimed step.

A run that is both is *steady*; `OrderlyRuns` proves that runs in which pods connect only between bus steps are.
`Exhibits` builds runs from the initial state that show each failure, and a pod that hears its own message.

Every member is proved by Dafny. Files: `Messages`, `Sequences`, `Ring`, `MsgBuffer`, `BufferGap`, `Filter`,
`Feedback`, `Connection` (values and small objects); `Pool`, `Bus`, `Pod` (the ring and the bus as objects); `System`,
`SystemSafety`, `Delivery`, `Removals`, `Misaim`, `Mark`, `Replay`, `ReplayJoin`, `Orderly`, `Rotation`, `OwnMessage`,
`Owner`, `Report`, `Ledger`, `Limit`, `Intake`, `Exhibit`, `Undisturbed` (the bus as a transition system); `Balancer`,
`MeshIndex`, `Withdraw`, `Handler`, `Hub` (the mesh).

Where the program's comments and code differ, the code is followed. A disconnect or replay request drained together
with a failed message is dropped (`Undisturbed.PrepareFlushesIff`), although the comments describe both as granted.
`Pod.Send`'s promise that a message does not bounce back holds exactly until the onFunc is replaced or the UUID is let
through (`OwnMessages.HearsIff`, with a run that breaks it in `Exhibits.HearsOwnMessage`). `Iter` calls its visitor
with nil for a slot whose UUID came back and was evicted since (`BufferGaps.MissingIff`; with the bus's 128 slots, after
127 other messages, `BufferGaps.RepeatLeavesAGapIff`).

## Model

| member | source | states |
|---|---|---|
| Delivery.WalksDeliverSlices | grav/bus.go:33-83 | In every run up to its first misaimed step, what walks sent to a connection is a contiguous stretch of the bus history starting with the first message after its insertion, each once; between messages every ring member has had all of them. |
| Delivery.MembersMissNothing | grav/bus.go:40-53 | Up to the first misaimed step, between any two moments with no message in hand, a member that stays is walked to with exactly the messages taken in between, in order. |
| Delivery.RemovalPoint | grav/bus.go:57-83 | Up to the first misaimed step, a connection about to be removed had every message since its insertion up to the one in hand, and the one in hand exactly if the walk began with it. |
| SystemSafety.RemovedGetsNothing | grav/pool.go:125-141 | In every run a removed connection stays out of the ring and nothing is ever sent to it again, by a walk, a replay or a flush. |
| Delivery.AlwaysDelivers | grav/bus.go:57-83 | The invariant of all runs up to the first misaimed step: the walk's end stays on the ring (or was just removed and leads to a connection that is), and exactly the members between current and end lack the message in hand. |
| Intakes.HistoryIsEmitted | grav/pod.go:93 | In every state of every run, the messages the bus has taken followed by those in its channel are exactly those the pods have put there, in that order. |
| Intakes.RecordedIsEmitted | grav/pod.go:85-101 | In every run, each call of `Send` that recorded a message has put it on the channel once or is still to. |
| Intakes.EmittedIsWalked | grav/bus.go:33-83 | Up to the first misaimed step, whenever the bus has nothing to do, every member has been walked to with exactly what all pods have put on the channel, in order, from the message it was born for. |
| Intakes.BornAtInsertion | grav/pool.go:38-54 | That is the message after those taken when it was inserted, or the one then in hand; and its pod wants a replay exactly if it was connected so. |
| Misaims.DeliveryLastsIff | grav/bus.go:67-73 | In every run, that invariant lasts through a bus step if and only if the step is not a misaimed one. |
| Misaims.MisaimedIffConnected | grav/bus.go:67-73 | A walk is misaimed if and only if the connection it peeked at next is its end and a pod connected between that peek and the removal (and the ring has others). |
| Misaims.OvershootRepeats | grav/bus.go:68-82 | If the lost end is the next connection, three bus steps later it has been sent the message again: one more than the bus took, and no longer a stretch of the history. |
| Misaims.ConnectMakesOvershoot | grav/bus.go:67-82 | One pod that connects just before the walk's end is removed at wrap-around is enough for that. |
| Misaims.UndershootMisses | grav/bus.go:68-82 | If the lost end is the current connection, the walk ends at once and every other member is left without the message. |
| Exhibits.WalkRepeats | grav/bus.go:57-83 | A run from the start in which a walk sends its one message to its start twice. |
| Buses.MessageBus.Emit | grav/bus.go:40-53 | One round of the bus loop ends; afterwards the log of `send` calls of every ring member, newcomers included, has exactly one more walk send, of this message, nobody else's has but possibly the first receiver's, nobody has been replayed anything the buffer did not hold before the round, and the message has then been pushed to the buffer. |
| Buses.MessageBus.Traverse | grav/bus.go:57-83 | The walk ends whatever pods do before each send (connections finite in number); visits are without repetition, cover the final ring, and only the start can have left; by the tally of the logs, those visited, and only those, were sent the message, once. |
| Buses.MessageBus.Ready | grav/bus.go:41-46 | The retry loop ends; each failed round takes one connection out of the ring, and no round sends anything as part of a walk. |
| Buses.MessageBus.PrepareAndStep | grav/bus.go:65-75 | One step of the walk: the ring steps on past a removed connection unchecked, and the stop moves to the removed connection's successor exactly if the stop was removed. |
| Buses.MessageBus.Interfere | grav/bus.go:29-31 | What happens between steps only adds connections right behind the current one and feedback; the hub's pod stays in the ring and quiet. |
| Buses.RemovedUnderway | grav/bus.go:67-75 | Why re-targeting works: after removing the next connection and stepping, the walk is complete exactly if it meets its possibly moved end, and otherwise two fewer ring positions are due, all unvisited. |
| Buses.KeptUnderway | grav/bus.go:67-81 | The same when the next connection is kept: complete exactly at the end, otherwise one fewer position due. |
| Buses.JoinUnderway | grav/podconnection.go:121-129 | Connections that join right behind the current one during a walk are due in it, and nobody visited becomes due again. |
| Buses.WalkRounds | grav/bus.go:57-83 | From the tally of a complete walk: once more for everyone in the ring, nothing for those who left but the start. |
| Pools.ConnectionPool.Insert | grav/pool.go:38-54 | Refines inserting after the head of the cyclic sequence, with a fresh ID above all earlier ones; the pointers still form one cycle of connected nodes. |
| Pools.ConnectionPool.Next | grav/pool.go:65-72 | Refines rotating the cyclic sequence by one. |
| Pools.ConnectionPool.Peek | grav/pool.go:57-62 | The second of the cyclic sequence, never nil on a ring that is not empty. |
| Pools.ConnectionPool.DeleteNext | grav/pool.go:125-141 | Refines dropping the second; it is disconnected, its channel closed, and it keeps its own next pointer, which leads to the then third. |
| Pools.ConnectionPool.ReplayNext | grav/pool.go:111-120 | Sends the buffer's contents, oldest first, to the next connection and to no other. |
| Pools.ConnectionPool.PrepareNext | grav/pool.go:77-108 | Whole effect on ring and next connection as a function of the drained batch: removal, replay, flush, or nothing. |
| Pools.PodConnection.CheckStatus | grav/podconnection.go:64-96 | Drains the whole feedback channel; failures are queued in order and the status is that of the batch. |
| Pools.PodConnection.FlushFailed | grav/podconnection.go:108-118 | Sends every failed message once more, in order, and holds none afterwards. |
| Pools.PodConnection.InsertAfter | grav/podconnection.go:121-129 | Links the new connection in behind this one. |
| Pools.LinksInsert | grav/pool.go:38-54 | A cycle with a node linked in behind its head is the cycle of the inserted sequence, with distinct IDs. |
| Pools.LinksSkip | grav/pool.go:134-140 | A cycle whose head skips the second is the cycle of the sequence without it. |
| Pools.LinksRotate | grav/pool.go:65-72 | A cycle seen from its second node is the rotated cycle. |
| SystemSafety.NeverCrashes | grav/pool.go:57-141 | In every run the ring is never empty and the hub's pod never leaves it, so peek, next and deleteNext never dereference nil. |
| SystemSafety.RingIsMembership | grav/pool.go:38-72 | Under every interleaving the ring holds exactly the connections inserted and not removed, without repetition. |
| SystemSafety.MessagesAreConserved | grav/podconnection.go:49-118 | In every state of every run, as multisets, walk and replay sends equal what is waiting, writing, abandoned, queued, with a handler, dropped, handled, reported as failed or held as failed. |
| SystemSafety.ChannelsAreSafe | grav/podconnection.go:49-61 | In every run a messageChan is open exactly while its connection is in the ring, was closed once otherwise, and no send goroutine can write to a closed one. |
| SystemSafety.RemovedForGood | grav/pool.go:125-141 | A removed connection never re-enters the ring, under any interleaving. |
| SystemSafety.AlwaysSafe | grav/pool.go:38-141 | The invariant of all runs: membership, IDs never reused, the hub's place and quiet, conservation and channel safety. |
| Connections.FlushMoves | grav/podconnection.go:108-118 | A flush moves messages and neither creates nor loses a copy of any. |
| Connections.ActMoves | grav/pod.go:245-277 | No step of a send goroutine, handler or owner creates or loses a copy of a message. |
| Connections.ActKeepsAskedOnce | grav/pod.go:230-237 | replayOnce lets at most one replay request through, ever. |
| Ledgers.AlwaysBalanced | grav/podconnection.go:49-61 | In every state of every run, every place on a message's way (waiting, writing, given up, queued, received, in onFunc, dropped, handled) holds exactly the copies that came in and have not gone on; a send goroutine gives up exactly if the connection has left the ring, a handler drops exactly what the pod does not hear. |
| Ledgers.MembersAbandonNothing | grav/podconnection.go:49-61 | As long as a connection is in the ring, no message sent to it is given up. |
| Reports.ReportsAreDrained | grav/podconnection.go:64-96 | In every run, what checks have drained followed by what waits in the feedback channel is exactly what handlers and owner reported, in order: one result for each message heard, one disconnect, and one replay request with the first onFunc if wanted. |
| Reports.FailuresAreResent | grav/podconnection.go:64-118 | In every run, the failures reported about a connection are, in order, those re-sent to it once each, those the bus holds, and those still in the channel. |
| Limits.AlwaysWithinLimits | grav/pod.go:60-68 | In every run at most 256 messages wait for the bus and 128 in each channel of a pod, and no message is in an onFunc that is being replaced. |
| Limits.WorkerStopsDrained | grav/pod.go:245-277 | A pod's worker ends only after its connection was removed and everything queued was received, and nothing is received afterwards. |
| Connections.ConservedMeans | grav/podconnection.go:49-118 | Counting copies place by place is equality of multisets. |
| Removals.RemovalHitsCheckedIff | grav/pool.go:77-95 | In every run, the connection that prepareNext peeked at and checked is the one deleteNext removes if and only if no pod connected between that peek and the removal. |
| Removals.RemovalHitsNextIff | grav/pool.go:125-141 | The same from any earlier moment since which nothing was removed and the ring did not step on. |
| Removals.WalksStartPrepared | grav/bus.go:41-48 | In every run, a walk starts only after a check that kept its connection with nothing removed since; whoever was next at that check is the first receiver exactly if no pod connected since. |
| Removals.ReplayGoesToCheckedIff | grav/pool.go:95-120 | The connection that was checked gets the replay if and only if no pod connected between the peek and the replay; otherwise the latest connection gets it, and nobody else is sent anything. |
| Removals.ConnectDivertsRemoval | grav/pool.go:125-141 | A pod that connects just before a removal is closed in the other's place, before anything was sent to it; ring and everyone else are as at the check. |
| Undisturbed.PreparedConnection | grav/pool.go:77-108 | Steps of one preparation taken without interruption leave the next connection as `PrepareNext` promises. |
| Undisturbed.PreparedRing | grav/pool.go:77-108 | And the ring, the buffer and every other connection. |
| Undisturbed.PrepareRemovesIff | grav/pool.go:85-95 | The next connection leaves the ring if and only if its failed messages reach 64 or the batch holds a disconnect and no failure. |
| Undisturbed.PrepareFlushesIff | grav/pool.go:95-105 | A kept connection is replayed to exactly if it asked and nothing failed in the batch, and re-sent all its failed messages in order, which it then no longer holds, exactly if the batch held a success. |
| Undisturbed.VisitedRing | grav/bus.go:61-82 | One undisturbed iteration of the walk moves ring and stop as `MessageBus.PrepareAndStep` promises. |
| Feedback.RemovalRule | grav/podconnection.go:64-96 | The verdict on a batch is removal if and only if failures reach the mark, or there is a disconnect and no failure. |
| Feedback.ReplayRule | grav/pool.go:85-98 | A batch below the mark leads to a replay if and only if it asks for one and holds neither failure nor disconnect. |
| Marks.AtMarkIff | grav/pool.go:85-90 | In every run, a ring member that is not about to be removed holds 64 failed messages or more if and only if it was to be removed for that and another connection was removed in its place. |
| Marks.FailedStaysBelowMark | grav/pool.go:85-90 | So in undiverted runs every ring member holds fewer than 64 failed messages at all times, except just before its removal. |
| Replays.ReplaysAreWindows | grav/bus.go:50-52 | In every run, with UUIDs not repeating too soon, the buffer holds the last 128 messages before the one in hand, because the push comes after the walk; no nil among them. |
| Replays.ReplaysNilIff | grav/msgbuffer.go:83-111 | In every run, a replay has a nil message to send if and only if a UUID that is still listed was evicted since its last push. |
| Replays.AlwaysSpliced | grav/pool.go:95-120 | In steady runs, apart from flushes, every connection's sends are its walked messages with at most one window of the buffer spliced in, at the place where the replay was made. |
| Replays.AskedUnlessAnothers | grav/pod.go:230-237 | In every run a connection gets at most one replay, and only if its pod wants one and has been given an onFunc (which is when the one request is made), as long as no replay meant for another went to it. |
| Replays.AskedLastsIff | grav/pool.go:95-120 | In every run, that lasts through a bus step if and only if the step does not replay to it in the place of another. |
| ReplayJoins.ReplayJoinsLiveTraffic | grav/pool.go:95-120 | In steady runs, if the first check of a connection finds a replay request and no disconnect while message k is in hand, its sends apart from flushes are the last min(k, 128) messages before k, oldest first, then k and each later one once. |
| ReplayJoins.SeamlessIff | grav/pool.go:95-120 | In steady runs with distinct messages, sends apart from flushes are one contiguous stretch of the history if and only if the replay came before anything was walked to the connection, or there was nothing to replay. |
| ReplayJoins.RepeatsNothingIff | grav/bus.go:67-75 | In steady runs with distinct messages, a replay repeats nothing if and only if no message before the one in hand had been walked to the connection. |
| Exhibits.LateReplay | grav/pod.go:230-237 | A run in which a pod asks for its replay after a message was walked to it, and gets that message again. |
| Exhibits.UnpreparedReplay | grav/bus.go:67-75 | A run in which a pod asked in time, but the walk removed the connection before it and stepped onto it unchecked, and its replay repeats a message. |
| OrderlyRuns.OrderlyIsSteady | grav/bus.go:57-83 | Runs in which pods connect only between bus steps are steady. |
| Rotation.FirstReceiverRotates | grav/bus.go:40-53 | In every run: while the ring of n does not change, n consecutive messages start at its members in ring order, each once. |
| Rotation.StartIsOfMessage | grav/bus.go:48 | Start number k is where message number k is first sent. |
| OwnMessages.DeniesIff | grav/pod.go:85-101 | In every state of every run, a pod's filter denies a UUID if and only if the pod sent or barred it and since then neither its onFunc was replaced nor the UUID let through. |
| OwnMessages.HearsIff | grav/pod.go:254-271 | In every run, the step in which a handler takes up a message puts it into the onFunc if and only if the last onFunc given was not nil, the last word on the message's type lets it in, and its UUID is not so denied; otherwise the message is dropped. |
| OwnMessages.NeverHearsItself | grav/pod.go:85-101 | From Send's recording of a UUID until the onFunc is replaced or the UUID is allowed by hand, no step puts a message with it into the pod's onFunc. |
| Exhibits.HearsOwnMessage | grav/pod.go:224-228 | A run in which a pod sends a message, is given a new onFunc, and ends up with its own message in it. |
| Owners.LetsInIff | grav/pod.go:114-131 | In every run, a pod has an onFunc exactly if the last one given was not nil, and permits a type exactly by the last word on it since then: named by hand, the onFunc's own type, or else whether the onFunc is for all types. |
| Owners.DeadIff | grav/pod.go:135-140 | In every run, a pod is dead if and only if its owner disconnected it or its worker ended. |
| Owners.DeadSendsNothing | grav/pod.go:85-89 | From then on no `Send` of it records anything. |
| Owners.LeavingIsReported | grav/pod.go:135-140 | Every disconnect is reported once, or still waits to be. |
| Pods.Pod.Send | grav/pod.go:85-101 | A dead pod sends nothing and returns no receipt; otherwise the message goes to the bus and the filter no longer lets it in. |
| Pods.Pod.On | grav/pod.go:114-119 | The two steps of replacing the onFunc: open filter, and a replay request the first time only; with no room for the request the call waits after the first step. |
| Pods.Pod.OnType | grav/pod.go:123-131 | The same, and the filter then lets in exactly the messages of that type. |
| Pods.Pod.SetOnFunc | grav/pod.go:224-238 | A fresh open filter, and one replay request over all calls, if wanted. |
| Pods.Pod.Disconnect | grav/pod.go:135-140 | Dead at once, then the disconnect is reported, as soon as there is room. |
| Pods.Pod.Handle | grav/pod.go:254-271 | The system's steps Handle and Report: onFunc runs exactly if set and the filter allows; it reports success or the failed message exactly when it ran. |
| Pods.Pod.Work | grav/pod.go:245-277 | Every queued message gets a handler; the pod is dead once the channel is closed and drained. |
| Filters.MessageFilter.Allow | grav/filter.go:33-56 | Both maps must permit: an entry decides, a missing one leaves it to the inclusive rule. |
| Filters.MessageFilter.FilterUUID | grav/filter.go:59-64 | Decides about messages with that UUID, but for their types, and about no others. |
| Filters.MessageFilter.FilterType | grav/filter.go:66-71 | Decides about messages of that type, but for their UUIDs, and about no others. |
| MsgBuffers.SlidingWindow | grav/msgbuffer.go:37-58 | After any pushes in which no UUID repeats within limit + 1 consecutive ones, map and order agree and the contents are the last `limit` messages, oldest first, across any number of wraps. |
| MsgBuffers.IntactThroughoutIff | grav/msgbuffer.go:37-58 | Map and order agree after every push if and only if no UUID repeats within limit + 1 consecutive pushes. |
| MsgBuffers.PushKeepsIntactIff | grav/msgbuffer.go:41-57 | One push keeps map and order in agreement exactly if its UUID is not listed. |
| BufferGaps.MissingIff | grav/msgbuffer.go:41-57 | Whatever UUIDs come back, a slot has no message if and only if a UUID still listed was evicted since its last push. |
| BufferGaps.HeldIff | grav/msgbuffer.go:41-57 | The map holds a UUID if and only if it was pushed after its last eviction. |
| BufferGaps.ListedIsWindow | grav/msgbuffer.go:45-57 | Whatever UUIDs come back, the listed ones are those of the last `limit` pushes, oldest first. |
| BufferGaps.RepeatLeavesAGapIff | grav/msgbuffer.go:45-48 | A UUID pushed twice in a row leaves a slot without a message exactly after limit - 1 other pushes. |
| MsgBuffers.NextYieldsFromWindow | grav/msgbuffer.go:62-80 | Through any mix of pushes and reads the read index stays in range and a read yields one of the last `limit` messages as soon as one was pushed. |
| MsgBuffers.ReadsInSlotOrder | grav/msgbuffer.go:62-80 | Between pushes, as many calls as there are messages, each on the state the last one left, go once through the slots in order from the read index on. |
| MsgBuffers.NextReadsEachOnce | grav/msgbuffer.go:62-80 | So they return every buffered message exactly once. |
| MsgBuffers.PushKeepsReader | grav/msgbuffer.go:41-57 | A push does not change what the next read returns, unless it went into that very slot of a full buffer. |
| MsgBuffers.CallsArePushes | grav/msgbuffer.go:62-80 | Reads move the read index and nothing else. |
| MsgBuffers.MsgBuffer.Push | grav/msgbuffer.go:37-58 | The new state is that of the specification function `Pushed`. |
| MsgBuffers.MsgBuffer.Next | grav/msgbuffer.go:62-80 | Nil on an empty buffer, else the first of `Reads`, whose later ones the state it leaves goes on with. |
| MsgBuffers.MsgBuffer.Iter | grav/msgbuffer.go:83-111 | Ends, having visited every slot once from the oldest on. |
| MeshIndexes.AlwaysAgrees | grav/hub.go:255-326 | In every state of every run, with looking up and adding as separate steps: whoever is listed in a balancer is in the table, and every entry is listed for each of its interests. |
| MeshIndexes.AlwaysExact | grav/hub.go:255-326 | With looking up and adding as one step, a UUID is listed for a capability exactly as often as its interests name it. |
| MeshIndexes.EnterKeepsExactIff | grav/hub.go:272-302 | Adding keeps the counts exact if and only if the UUID was not in the table or had no interests there. |
| MeshIndexes.EnterKeepsTurns | grav/hub.go:288-301 | Adding leaves every balancer's turn and list as they were, with the new entries last. |
| MeshIndexes.PickTakesTurn | grav/hub.go:383-386 | A pick returns the entry whose turn it is, leaves the turns after it to come, and touches no other balancer. |
| MeshIndexes.CanPickIff | grav/hub.go:376-385 | A balancer has an entry to pick if someone in the table is interested, and with exact counts only then. |
| MeshIndexes.DropEmptiesIff | grav/hub.go:315-326 | A removal keeps every balancer in the index and empties exactly those that listed nobody else. |
| MeshIndexes.DropUndoesEnter | grav/hub.go:272-326 | Removing a connection just added restores table and counts. |
| Hubs.Hub.AddConnection | grav/hub.go:272-302 | A new handler and signaler under the UUID; the index is that of the specification function `Entered`. |
| Hubs.Hub.SetupNewConnection | grav/hub.go:255-262 | A duplicate is closed and nothing else changes; otherwise the connection is added. |
| Hubs.Hub.FindConnection | grav/hub.go:328-338 | The connection under the UUID, or none. |
| Hubs.Hub.RemoveMeshConnection | grav/hub.go:315-326 | The index is that of the specification function `Dropped`. |
| Hubs.Hub.ScanFailedMeshConnections | grav/hub.go:342-374 | One round removes exactly the connections with an error on their channel or a withdrawn peer, and closes exactly those. |
| Hubs.DroppedAllTable | grav/hub.go:368-370 | Removing connections one by one removes exactly them and keeps index and table in agreement and the counts exact. |
| Hubs.Hub.MessageHandler | grav/hub.go:107-118 | A broadcast sends the message once on exactly the connections whose peer has not withdrawn and whose link works, and leaves one error with exactly those whose peer has not withdrawn and whose link does not work. |
| Hubs.Hub.SendTunneledMessage | grav/hub.go:376-400 | Succeeds if and only if one of the next 32 entries is in the table with a working link and a peer that has not withdrawn; the first such entry's connection gets the message once and nobody else does; the balancer has stepped on by exactly the tries made, no other has, and each try on a broken link left one error. On an empty list, and only there, it reads out of range. |
| Hubs.ChargedOncePerTry | grav/hub.go:382-397 | The errors a tunnelled send leaves: one per try on a connection whose link fails, and none elsewhere. |
| Hubs.OneEntrySuffices | grav/hub.go:382-397 | With at most 32 entries, one live entry anywhere is within reach of the retry loop. |
| Hubs.TunnelledIff | grav/hub.go:382-399 | The outcome of the tries decides whether one of the next 32 entries was live. |
| Handlers.ConnectionHandler.Send | grav/connectionhandler.go:66-77 | The message is sent exactly if the peer has not withdrawn and the link works; a withdrawn peer is sent nothing; a failed send is an error for the scan. |
| Handlers.Signaler.Signal | grav/withdraw/signaler.go:33-38 | Does to the signaler what the withdraw system's steps Raise and then Signal do, and waits between them while an earlier token is there. |
| Hubs.Hub.SignalAll | grav/hub.go:411-418 | A first withdraw takes exactly those two steps for every connection in the table. |
| Handlers.Signaler.Done | grav/withdraw/signaler.go:46-48 | Does to the signaler what the withdraw system's step SayDone does, and waits while an earlier token is there. |
| Handlers.ConnectionHandler.Listen | grav/connectionhandler.go:24-35 | The listener does to the signaler what hearing, attempting and saying done do in the withdraw system, and a failed attempt is reported. |
| Handlers.ConnectionHandler.ReadOne | grav/connectionhandler.go:37-63 | One round of the read loop does what the withdraw system's step Read does; a failed read is an error exactly if neither side has withdrawn. |
| Balancers.NextIsFair | grav/tunnel/balancer.go:58-71 | From any state a run of calls can reach, k times n calls of Next on n entries read every position exactly k times, in cyclic order. |
| Balancers.AlwaysInRange | grav/tunnel/balancer.go:26-71 | After any run of Add, Remove and Next the index is in range whenever the list is not empty. |
| Balancers.WithoutCounts | grav/tunnel/balancer.go:39-49 | Removing takes every occurrence of the UUID and of no other. |
| Balancers.WithoutKeepsOrder | grav/tunnel/balancer.go:39-49 | And keeps the order of the rest. |
| Balancers.AddedComesLast | grav/tunnel/balancer.go:26-31 | The next turns go to those still due in this round, in order, and then to the new entry. |
| Balancers.TurnAfterRemoval | grav/tunnel/balancer.go:35-55 | After a removal the index stays unless it is at or past the end: as many remaining entries are skipped as copies were removed from ahead of the turn; at the end, it is the middle entry's turn. |
| Balancers.RemovingNobodyIff | grav/tunnel/balancer.go:35-55 | Removing a UUID that is not listed changes nothing, except that it moves the turn when it was the last entry's among three or more. |
| Balancers.Balancer.Remove | grav/tunnel/balancer.go:35-55 | List rebuilt without the UUID, index repaired. |
| Balancers.Balancer.Next | grav/tunnel/balancer.go:58-71 | The entry at the index, which steps on cyclically. |
| Balancers.Balancer.Add | grav/tunnel/balancer.go:26-31 | The UUID goes to the end of the list. |
| Withdraws.BarrierHolds | grav/hub.go:402-457 | In every interleaving, a withdraw that has returned nil saw every connection's one attempt to send the withdraw finish and its listener call Done. |
| Withdraws.CountIsExact | grav/hub.go:424-446 | The count is the connections less the tokens received, never negative, and no connection is counted twice. |
| Withdraws.CountIsZeroIff | grav/hub.go:441-444 | The count reaches zero if and only if every connection has been counted. |
| Withdraws.FinishedCanReturn | grav/hub.go:424-456 | Once every listener has finished, at most two passes of the counter lead to a nil return; nothing but the timeout stands in the way. |
| Withdraws.FlagBeforeAttempt | grav/connectionhandler.go:24-48 | No withdraw is sent before the connection's own flag is up, and from then on a failing read is no longer reported as an error. |
| Withdraws.FlagsStayUp | grav/withdraw/signaler.go:51-63 | A raised flag stays up through every run. |
| Withdraws.FlagsIff | grav/withdraw/signaler.go:51-63 | In every run, a connection's own flag is up exactly if the withdraw raised it, and the peer's exactly if the peer's withdraw was read. |
| Withdraws.ReadErrorIff | grav/connectionhandler.go:37-48 | A failed read is reported exactly if by then neither flag had been raised. |
| Withdraws.FailedAttemptIsReported | grav/connectionhandler.go:24-35 | An attempt has failed exactly if its error is being offered or was taken. |
| Withdraws.SignalledOneByOne | grav/hub.go:411-418 | In every run, never are two connections' flags up without their tokens sent. |
| Withdraws.NothingReadAfterEnd | grav/connectionhandler.go:37-63 | After the peer's withdraw or a failed read nothing more is read. |
| Withdraws.AlwaysSound | grav/hub.go:402-457 | The invariant behind these: each connection is at exactly one place of signal, attempt, token and count. |

## Left out

- Websocket, NATS and Kafka transports, local discovery and bridges: network input and output; a connection is an object that delivers or does not.
- JSON encoding, UUID generation, timestamps: a message is an identity with UUID, type and reply-to.
- Handshake field checks of the hub: each is settled by one branch. That the table's key is the peer's UUID is what the handshake is taken to have established.
- WaitOn, WaitUntil, receipts and timeouts: wall-clock time and unbuffered rendezvous.
- Deadlock freedom and liveness: a blocked channel operation is a step not yet taken, and nothing is claimed about it ever being taken.
- Order of arrival in messageChan: the code disclaims it; multisets there, sequences for the calls of send.
- Logging, options, the scan's sleeping interval, and real data races on unlocked map reads.
- A second withdraw, and table changes by the scan after a withdraw timed out: the barrier is that of a first withdraw, during which the hub's lock keeps the table as it is.
- onFunc values: a pod either has one or not, and its outcome on each message is arbitrary.
- Systems: a drained batch, a replay and a flush are one step each, although feedback can arrive between two reads of one drain; the write lock of a disconnect waits for readers, which is a step not yet possible.
- SystemSafety.NeverCrashes: is about the bus goroutine. A nil message from a buffer slot without one is sent like any other; at a pod with an onFunc the program would dereference it in the filter, where the model has no step. `Replays.ReplaysNilIff` says when there is one.
- Delivery.WalksDeliverSlices: up to the first misaimed step of a run, which is where it stops being true (`Misaims.DeliveryLastsIff`).
- Delivery.MembersMissNothing: the same.
- Delivery.RemovalPoint: the same.
- Marks.FailedStaysBelowMark: undiverted runs; `Marks.AtMarkIff` is about all.
- ReplayJoins.ReplayJoinsLiveTraffic: steady runs, for these reasons.
- Pools.ConnectionPool.PrepareNext: one atomic call on the object; its second half is the method `Settle`. The interleaving of its lock-protected parts is in `Systems`.
- Buses.MessageBus.Traverse: other goroutines act before each send and not inside an iteration, where they can misaim the walk; `Systems` interleaves them everywhere.
- Buses.MessageBus.Emit: the same.
- MsgBuffers.MsgBuffer.Iter: the callback is modelled as the sequence of its arguments.
- Hubs.Hub.AddConnection: the handler's two goroutines are not started by it; they are `ConnectionHandler.Listen`, `ConnectionHandler.ReadOne` and the withdraw system.
- Hubs.Hub.SendTunneledMessage: table, list and outcomes of sends are fixed during the call, and an error offered on ErrChan is counted instead of blocking the sender until the scan takes it.
- Hubs.Hub.MessageHandler: an error offered on ErrChan is counted in the same way.
- Handlers.ConnectionHandler.Send: an error offered on ErrChan is counted in the same way.
