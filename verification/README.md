# gMaxLinked in Dafny

gMaxLinked keeps long-lived TCP connections and relays messages between them. Threads share a timer
manager, a session registry, one message queue for each group of nodes, and a pool of nodes. This
project models those parts and proves what they promise together. Every `.dfy` file is one module:

| file | models |
|---|---|
| `Prelude`, `RoundRobin` | sequences without duplicates; a list visited by a roving cursor, and how far an element is from it |
| `TimerSpec`, `TimerRuns`, `TimerManager` | the timer manager as steps over values, what holds over every run, and the linked list, queues and slot pool in place, proved equal to the steps |
| `LoopBuffer` | the ring buffer over an array, proved a FIFO queue of bytes |
| `Framing`, `Pipeline`, `Link`, `Node` | the wire format's reference decoder; sockets to group worker as interleaved steps; sender, wire and receiver; the read and write loops of both peers in place |
| `Session`, `Transaction` | a session as steps, one for each call its handlers make; CTransaction in place, each handler proved equal to running its steps to the end |
| `Server`, `ServerTimers`, `ServerSteps`, `ServerRuns` | the serial view of the server: sessions, timers, registry, groups, pool and recycle queue as one step system in which each session has one pc; its invariant, and what follows for every run |
| `Workers`, `WorkersSerial`, `WorkerRuns` | the threads over that state: the traffic thread, a worker for each group with its queue, the timer thread; when they do what the serial view does, and what then holds in every run |
| `Alarms`, `AlarmRuns` | what the waiting timers of a session are for, in the serial view and for the threads; that a keepalive timer lasts and its message is a tick |
| `Lost`, `Failures` | which nodes are lost, exactly; runs in which the code fails or loses a node |
| `Traffic` | the node group and the traffic manager in place |
| `Locks` | the locks of all threads and the order they are taken in |
| `Store`, `Delivery`, `Courier` | sending into the message store; delivering from it, over runs and in place |
| `Conf` | the ini scanner |

A state machine has `State`, `Step`, `Enabled`, `Next` and `Inv`; `Behavior` (for the timers
`Runnable` and `Run`) is a run of any length, and `NextInv` says that every step keeps the invariant.
A class is the same thing in place: its `ensures` say which steps or which function its methods are.

Some properties one would expect are false of the code. Each is stated with the condition it needs and
with a run or an input where it fails:

- Nothing keeps the handlers of a session apart. A message can be queued, or in a worker's hand, when
  its node is recycled and accepted again, and is then handled beside the new connection's messages
  or beside onAttach (`Failures.HandlersOverlap`, `Failures.HandlerDuringAttach`). If nothing refers to
  a node when it is accepted, which _addNodes could test, handlers never overlap and the asserts hold
  (`WorkerRuns`, condition `CleanAccepts`); a message in a worker's hand makes them overlap at once
  (`WorkerRuns.HeldMessageOverlaps`). The condition is not necessary: what is queued in the group the
  node is accepted into is handled by that group's worker, one message after the other, and matters
  only if the attach fails.
- A node whose attach fails comes back into the pool if and only if a handler that ends its session is
  already running, or some worker is going to dispatch one to it before any handshake; otherwise it is
  lost (`Lost.LostExactly`; runs: `Failures.StuckNodeReturns`, `EndedNodeReturns`,
  `StuckHandshakeFails`, `LosesNode`). A session that ends inside `onCheck` never comes back
  (`Lost.AbandonedForever`, `Failures.DropsNode`).
- A timer killed between drain and visit can fire when its node has no group any more
  (`Failures.GroupMissing`): if and only if the node was recycled while the timer thread was in front
  of this timer (`WorkerRuns.NoAssertFails`, `WorkerRuns.FiredTimerHasGroup`).
- An ack timer's message that comes after the ack reaches `assert(false_v)` (`Failures.TimerComesLate`;
  exactly when: `Sessions.UnexpectedTimer`).
- A session knows its timers by slot, and a slot whose timer has fired can be given out again before the
  timer's message is handled. Then two records of a session share a slot, or the records of two sessions,
  and killing the one kills the other (`Failures.SlotIsShared`). What a record still means is told by
  `AlarmRuns.RecordsAreFor`; a keepalive timer lasts exactly until somebody kills its slot
  (`AlarmRuns.KeepaliveLasts`).
- `checkMessages` compares scores with `>`: without an expiry, entries that share a score with the last
  accepted one are never delivered (`Delivery.TiesAreLost`); after VALID_DURATION without a message it
  goes by position alone, so that entries are skipped, sent again, or delivered late
  (`Delivery.ExpiryGoesByPosition`). `Delivery.StretchExactly` says when nothing of this happens.
- `_parseFile` takes a name in the file that is only a beginning of the requested one
  (`Conf.AskedIsRead`, `Conf.PrefixShadows`).

## Model

| member | source | states |
|---|---|---|
| TimerManagers.TimerManager.constructor | src/common/CTimerManager.cpp:17-26 | an empty manager: every slot is in the pool, in order, and the state is an initial state of the step system |
| TimerManagers.TimerManager.AllocateTimer | src/common/CTimerManager.cpp:32-38 | pops the oldest free slot or finds the pool empty; the linked state moves exactly as the step Allocate |
| TimerManagers.TimerManager.FillTimer | src/common/CTimerManager.cpp:45-53 | writes all fields of one slot outside the lock, its status TO_BE_ADD; nothing else of the linked state changes |
| TimerManagers.TimerManager.EnqueueTimer | src/common/CTimerManager.cpp:55-57 | appends the slot to the add queue, whatever happened to it since it was filled |
| TimerManagers.TimerManager.SetTimer | src/common/CTimerManager.cpp:30-63 | an uninterrupted setTimer is the three steps in sequence; 0 (None) exactly when the pool is empty |
| TimerManagers.TimerManager.Reclaim | src/common/CResource.h:73-93 | the search loop succeeds exactly for a slot of the pool, and appends it to the free list |
| TimerManagers.TimerManager.KillTimer | src/common/CTimerManager.cpp:65-90 | TO_BE_ADD goes straight back to the pool and stays queued; ADDED is marked and put on the delete queue; any other status is left alone |
| TimerManagers.TimerManager.AddTimer | src/common/CTimerManager.cpp:171-184 | appends one node to the doubly linked list, head, tail and links agreeing with the sequence of ids afterwards |
| TimerManagers.TimerManager.DelTimer | src/common/CTimerManager.cpp:186-212 | unlinks one node wherever it stands, all four cases, and gives the slot back to the pool once |
| TimerManagers.TimerManager.AddQueued | src/common/CTimerManager.cpp:95-103 | the first drain loop adds each queued slot that is still TO_BE_ADD, in queue order, and skips stale and repeated entries |
| TimerManagers.TimerManager.DelQueued | src/common/CTimerManager.cpp:105-117 | the second drain loop deletes each queued slot that is TO_BE_DEL, moving the cursor off it first |
| TimerManagers.TimerManager.DrainQueues | src/common/CTimerManager.cpp:93-119 | one critical section empties both queues; every assert of the list operations holds |
| TimerManagers.TimerManager.VisitCurrent | src/common/CTimerManager.cpp:121-169 | one visit: restart at the head, fire if due, count down, unlink after the last fire, move on; equal to the step Visit |
| TimerSpec.NextInv | src/common/CTimerManager.cpp:30-212 | every step of setTimer, killTimer and working keeps the invariant on slots, pool, list, cursor and both queues |
| TimerRuns.RunInv | src/common/CTimerManager.cpp:30-212 | the invariant holds in every state of every run, for any interleaving of the steps |
| TimerRuns.SlotsConserved | src/common/CTimerManager.cpp:30-212 | in every reachable state each slot is exactly once in the pool, in a setTimer's hands, TO_BE_ADD, or in the list: nothing is reclaimed twice |
| TimerRuns.PoolInTurn | src/common/CResource.h:58-94 | over any run the pool is a queue: slots are given out in the order in which they came back |
| TimerRuns.DrainEffect | src/common/CTimerManager.cpp:93-119 | a drain adds exactly the queued TO_BE_ADD slots, deletes exactly the TO_BE_DEL slots, and changes no other slot |
| TimerRuns.StaleEntryIsHarmless | src/common/CTimerManager.cpp:105-117 | in every run, a delete-queue entry of an older incarnation finds its slot outside the list before a drain, so that the drain passes it over (DrainEffect) |
| TimerRuns.FiresAtMostTimes | src/common/CTimerManager.cpp:135-164 | in any run a timer with k > 0 times left fires at most k times more, is out of the list after the k-th, and never turns endless |
| TimerRuns.KilledTimerFires | src/common/CTimerManager.cpp:65-90 | after killTimer the killed incarnation fires at most once more, and not at all unless it was listed and the worker stood between drain and visit |
| TimerRuns.FiresSpaced | src/common/CTimerManager.cpp:135-142 | over any run, each fire of a timer is at least its period after the base recorded before, in (s, us) order |
| TimerRuns.LapVisitsAll | src/common/CTimerManager.cpp:105-169 | without additions, every timer that stays listed is visited within as many visits as the list was long, kills in between allowed |
| TimerRuns.VisitFires | src/common/CTimerManager.cpp:135-168 | a visit calls __onTimer for the timer under the cursor if and only if base plus period is not after now; with `again`, a timer without end or with more than one time left stays in the list with a new base and one time less, otherwise it leaves; a timer that is not due, and every other one, stays as it is |
| TimerRuns.DueFiresWithinLap | src/common/CTimerManager.cpp:121-169 | a listed timer that nobody kills fires within one lap of visits that come after its period, without additions |
| TimerRuns.SetTimerHolds | src/common/CTimerManager.cpp:45-57 | for as long as an incarnation lives it is for the owner, parameter and period of its setTimer; its fires are spaced by that period from the time of setTimer on, and there are at most as many as asked for |
| LoopBuffers.LoopBuffer.constructor | src/common/CLoopBuffer.cpp:18-29 | an empty queue of the given size |
| LoopBuffers.LoopBuffer.Write | src/common/CLoopBuffer.cpp:33-84 | accepts exactly when the bytes fit (with padding: in one piece), and then appends them to the queue's contents; otherwise nothing changes |
| LoopBuffers.LoopBuffer.WritePadded | src/common/CLoopBuffer.cpp:56-67 | leaves a hole at the end rather than splitting, only if the left part has room |
| LoopBuffers.LoopBuffer.WriteAround | src/common/CLoopBuffer.cpp:68-72 | splits a write over the end; the contents grow by exactly its bytes |
| LoopBuffers.LoopBuffer.Read | src/common/CLoopBuffer.cpp:86-146 | takes min(size, used) bytes from the front of the contents, in both modes and across the end and the hole; all bytes ever read are a beginning of all accepted |
| LoopBuffers.LoopBuffer.ReadWrapped | src/common/CLoopBuffer.cpp:106-140 | the case w <= r, full buffer included: right part, left part, and the hole given back |
| LoopBuffers.LoopBuffer.Reset | src/common/CLoopBuffer.cpp:148-156 | an empty buffer with all its space, hole included |
| Framing.DecodeEncode | src/traffic/CNode.cpp:52-141 | decoding the concatenation of well-formed messages and a tail gives those messages and what the tail decodes to |
| Framing.EncodeDecode | src/traffic/CNode.cpp:52-141 | the decoded frames and the rest, put together, are the stream |
| Framing.DecodeMore | src/traffic/CNode.cpp:52-141 | bytes that arrive later change nothing that is decoded, only what was left over |
| Framing.FeedChunk | src/traffic/CNode.cpp:56-137 | a chunk of at most the wanted bytes leaves a frame incomplete or completes exactly it |
| Framing.LittleEndian | src/traffic/CNode.cpp:79-86 | a size is its low byte and then its high byte |
| Framing.ExtReplaced | src/traffic/CNode.cpp:118-126 | bytes 21 to 28 of a message, and no others, are replaced by ext |
| Nodes.Node.OnAttach | src/traffic/CNode.cpp:33-34 | the receive offset and size are cleared: a receiving side at the start of a stream |
| Nodes.Node.Recv | src/traffic/CNode.cpp:52-141 | for every split of the stream by read(), puts exactly the newly completed frames, ext replaced, on the queue in order; stops at the first refusal |
| Nodes.WriteAll | src/traffic/CNode.cpp:150-209 | the write loop: on success all bytes are out once and in order, on failure a proper beginning of them |
| Nodes.Node.Send | src/traffic/CNode.cpp:143-210 | writes the message with ext cleared, whole or not successfully |
| Nodes.Connection.Receive | clients/c/connection.c:170-224 | the client's receive loop hands on exactly the frames of the bytes it has read |
| Nodes.Connection.Send | clients/c/connection.c:275-308 | -1 when not connected, 0 when all bytes are written, -2 after a proper beginning of them |
| Pipeline.NextInv | src/traffic/CNode.cpp:52-141 | every chunk, message, connect and queue read keeps: queue contents are the undispatched messages, and each connection has admitted a beginning of its frames |
| Pipeline.EndToEnd | src/traffic/CNodeGroup.cpp:62-126 | for any chunking and interleaving: the size mismatch is unreachable, accepted messages are dispatched whole and in order, and those of a connection are a beginning of its stream's frames, ext replaced |
| Pipeline.CaughtUp | src/traffic/CNodeGroup.cpp:90-125 | with the queue empty and nothing in hand, every accepted message has been dispatched, exactly once |
| Link.NextInv | src/traffic/CNode.cpp:143-210 | sender, wire and receiver: what is read plus what is on the wire is what has been written |
| Link.ReceiverUndoesSender | clients/c/connection.c:170-224 | for any partial writes and reads the delivered messages are a beginning of the sent ones, and all of them once the wire is empty; both directions have this shape |
| Traffic.NodeGroup.RollingNode | src/traffic/CNodeGroup.cpp:128-141 | returns the node that is due and moves the cursor behind it, restarting at the front |
| Traffic.NodeGroup.PutMessage | src/traffic/CNodeGroup.cpp:62-77 | appends a whole message if it fits, and otherwise leaves the messages as they are |
| Traffic.NodeGroup.ReadSize | src/traffic/CNodeGroup.cpp:95-98 | the first read gets the size of the front message |
| Traffic.NodeGroup.ReadBody | src/traffic/CNodeGroup.cpp:100-108 | the second read completes exactly that message, whatever has been queued since |
| RoundRobin.LapVisitsAll | src/traffic/CNodeGroup.cpp:128-153 | every surviving node is among the next n calls of _rollingNode, n the container's size, detaches in between allowed |
| Transactions.Transaction.OnAttach | src/transaction/CTransaction.cpp:35-57 | from FREE to CONNECTED with the handshake timer recorded, or false when there is no timer |
| Transactions.Transaction.OnDetach | src/transaction/CTransaction.cpp:59-69 | from OVER with nothing left in the session to FREE |
| Transactions.Transaction.OnMessage | src/transaction/CTransaction.cpp:91-115 | every message in every status has the outcome of its steps in the step system; false exactly when the message ends the session, or is a handshake that is rejected |
| Transactions.Transaction.Greet | src/transaction/CTransaction.cpp:119-160 | handshake: the waiting timer is killed first; a too old client or an unknown session id ends the session |
| Transactions.Transaction.Register | src/transaction/CTransaction.cpp:162-193 | a duplicate session id ends the newcomer and leaves the incumbent's entry; otherwise READY with a keepalive timer, or over if none is left |
| Transactions.Transaction.Acknowledge | src/transaction/CTransaction.cpp:266-290 | an ack kills the timer of its number and forgets it |
| Transactions.Transaction.HandleTimer | src/transaction/CTransaction.cpp:292-361 | handshake time-out, keepalive, ack time-out, and timers that come too late |
| Transactions.Transaction.HandlePushMessage | src/transaction/CTransaction.cpp:235-263 | a push is numbered, sent, given an ack timer, and only then moves lastUpdate |
| Transactions.Transaction.Stop | src/transaction/CTransaction.cpp:363-432 | kills every recorded timer, unregisters, clears all fields |
| Transactions.Transaction.Arm | src/transaction/CTransaction.cpp:434-463 | the setTimer call of __send and __onStart as its three steps |
| Sessions.MessageOutcome | src/transaction/CTransaction.cpp:91-361 | a dispatched message with its whole handler: exactly when it ends the session, told from status, message, recorded timers, registry and pool; what is left then; and what it changes otherwise: SEND_MSG nothing, a heartbeat ack only the heartbeat, an ack only its own number, an accepted handshake the session's identity, lastUpdate and keepalive |
| Sessions.PushOutcome | src/transaction/CTransaction.cpp:235-263 | a push with its whole handler: the next number, and a timer with that number, once, for the configured period; without a timer the session ends and is not recycled |
| Transactions.TransactionMap.RegisterTransaction | src/transaction/CTransactionManager.cpp:50-70 | succeeds exactly for a new session id and never replaces an entry |
| Transactions.TransactionMap.UnregisterTransaction | src/transaction/CTransactionManager.cpp:72-97 | removes the entry of a nonempty session id; true exactly when there was one |
| ServerSteps.NextInv | src/transaction/CTransaction.cpp:35-463 | in the serial view, where any message may reach any session at rest, every step of sessions, timers, registry, groups, pool and recycle queue keeps the joint invariant |
| WorkersSerial.NextRefines | src/traffic/CNodeGroup.cpp:90-153 | as long as nothing refers to a node when it is accepted, every step of the threads (queues, what workers hold and have picked, attach under the group's lock) is a step of the serial view |
| WorkerRuns.HandlersNeverOverlap | src/traffic/CNodeGroup.cpp:111-153 | then at most one thread is ever in a handler of a session |
| WorkerRuns.HeldMessageOverlaps | src/traffic/CNodeGroup.cpp:111-122 | conversely, a message that a worker has in its hand when its node is accepted can at once be handled beside onAttach, if and only if it is not a timer's |
| WorkerRuns.RunsAreSerial | src/traffic/CNodeGroup.cpp:79-153 | then every run of the threads is, state by state, a run of the serial view |
| WorkerRuns.NoAssertFails | src/transaction/CTransaction.cpp:35-69 | in such a run no assert of onAttach, onDetach, setTimer, killTimer, unregisterTransaction, _rollingQueue or the list can fail; the one thing that can be missing is the group of a timer that fires, if and only if the timer's node has been recycled while the timer thread stood between drain and visit in front of this timer, and neither has gone on since |
| WorkerRuns.Lifecycle | src/transaction/CTransaction.cpp:35-432 | in such a run the status moves only FREE, CONNECTED, READY, OVER, FREE or CONNECTED to OVER, and FREE and settled OVER sessions are cleared |
| WorkerRuns.ReadyEnds | src/transaction/CTransaction.cpp:91-361 | in any such run a ready session ends with a step if and only if a worker dispatches it a handshake, over, an unknown message, a keepalive tick without a heartbeat ack, or the timer of an outstanding ack, or a handler of it asks for a timer when there is none |
| WorkerRuns.StaysReady | src/transaction/CTransaction.cpp:91-361 | over any stretch of such a run a session stays ready exactly as long as none of that happens, whatever else it is sent |
| WorkerRuns.GroupsInTurn | src/traffic/CTrafficManager.cpp:448-454 | in any run the k-th accepted node goes to group k modulo the number of groups |
| WorkerRuns.PoolInTurn | src/common/CResource.h:58-94 | in any run nodes are accepted in the order in which they came back to the pool |
| WorkerRuns.NoTimerAfterStop | src/transaction/CTransaction.cpp:408-418 | in such a run no timer of the session is TO_BE_ADD or ADDED after __onStop's kills, in any interleaving with the timer thread |
| WorkerRuns.FiredTimerHasGroup | src/transaction/CTransactionManager.cpp:99-123 | over such a run, every timer that may fire at any state and time, killed ones included, finds its session attached to a group if and only if no node is recycled while the timer thread is between drain and visit in front of a timer of it |
| WorkerRuns.UnkilledTimerHasGroup | src/transaction/CTransactionManager.cpp:99-123 | a timer that nobody has killed needs no such condition |
| WorkerRuns.OneReadySession | src/transaction/CTransactionManager.cpp:50-70 | in such a run at most one session is READY per session id, and each READY session is mapped from its own id |
| WorkerRuns.KeysKeepTheirText | src/transaction/CTransactionManager.cpp:50-97 | the text behind a registered key is its owner's session id for as long as it is registered |
| WorkerRuns.FindsHolder | src/transaction/CTransactionManager.cpp:37-48 | findTransaction finds a session id if and only if a session holds it that is ready, or over and not unregistered yet, and finds that session |
| WorkerRuns.NodesConserved | src/traffic/CTrafficManager.cpp:271-303 | in such a run each node is in exactly one of the pool (exactly the FREE ones), one group's container once, or being attached, or its attach has failed |
| WorkerRuns.RecycleQueueExact | src/traffic/CTrafficManager.cpp:180-189 | in such a run the recycle queue holds exactly the OVER nodes that no handler is at, each once, but for those ended inside onCheck |
| WorkerRuns.KeepaliveExact | src/transaction/CTransaction.cpp:292-330 | a keepalive tick ends the session if and only if no heartbeat ack was handled since the tick before, over any such run |
| AlarmRuns.TimersAreFor | src/transaction/CTransaction.cpp:46-50 | in any such run each armed timer has the configured period and is what its session asked for: CONNECTED and once while it waits for its handshake; READY and without end as its keepalive, or once with the number of a message whose ack is outstanding, while it is ready |
| AlarmRuns.RecordsAreFor | src/transaction/CTransaction.cpp:182-186 | an armed slot that a ready session records as its keepalive carries READY and has no end if and only if no pushed message has got the slot; what it records for a message carries the number of a message with that slot, and fires once |
| AlarmRuns.SetTimerFills | src/common/CTimerManager.cpp:45-53 | owner, parameter, times and period of each of the three setTimer calls, from the time of the call |
| AlarmRuns.KeepaliveLasts | src/transaction/CTransaction.cpp:182-186 | while the session is ready its keepalive timer stays armed, exactly until somebody calls killTimer with its id |
| AlarmRuns.KeepaliveMessage | src/transaction/CTransactionManager.cpp:99-123 | when that timer is due at a visit, a message with READY as its parameter goes to the end of the queue of the session's group |
| AlarmRuns.KeepaliveTicks | src/traffic/CNodeGroup.cpp:111-122 | in its turn that message is a tick in the sense of KeepaliveExact, if the session is still ready and has kept the timer |
| Sessions.UnexpectedTimer | src/transaction/CTransaction.cpp:292-361 | an assert(false_v) of __onTimer is reached if and only if the session is ready, the timer is not its keepalive timer, and no ack of that number is outstanding; the session ends exactly on the three time-outs |
| Lost.LostExactly | src/traffic/CTrafficManager.cpp:297-303 | in any run, a node whose attach has failed comes back into the pool if and only if a handler that ends its session is running, or has ended it, or some worker that is not blocked has, as its first message for the node that is no timer's, one that is no handshake: once those messages are dispatched, the calls of __onStop made and the recycle queue worked off |
| Lost.FailedAttach | src/traffic/CTrafficManager.cpp:297-303 | in any run, an attach that finds no timer leaves a node accepted with nothing of its last connection left but messages on the way at one of the stages LostExactly is about, whatever workers have done to it meanwhile |
| Lost.UnusedWhenClean | src/traffic/CTrafficManager.cpp:271-303 | a node in the pool has nothing else left of its last connection, as long as the accepts before were clean |
| Lost.LostForever | src/traffic/CTrafficManager.cpp:297-303 | otherwise no step of any continuation moves it: it is in no pool, queue or container, and its session stays as it is |
| Lost.AbandonedForever | src/traffic/CNodeGroup.cpp:148-150 | in any run a session ended inside onCheck is lost for ever, whatever is queued for it |
| Lost.CleanlyLost | src/traffic/CTrafficManager.cpp:297-303 | if nothing refers to a node when it is accepted, both kinds are lost |
| Failures.HandlersOverlap | src/traffic/CNodeGroup.cpp:111-122 | a run in which a handshake left in one group's queue and a message of the node's new connection in another group are handled at once, and a session that is OVER becomes READY |
| Failures.HandlerDuringAttach | src/transaction/CTransaction.cpp:46-49 | a run in which a message in a worker's hand is dispatched while the traffic thread is inside onAttach, and __onStart's assert fails |
| Failures.StuckNodeReturns | src/traffic/CNodeGroup.cpp:111-122 | a run in which a failed attach is undone: an unknown message from the last connection gets the node back into the pool |
| Failures.EndedNodeReturns | src/traffic/CNodeGroup.cpp:111-122 | a run in which nothing is on the way when the attach fails, but a worker is ending the session already, and the node comes back |
| Failures.StuckHandshakeFails | src/transaction/CTransaction.cpp:127 | a run in which a handshake from the last connection meets a session whose attach has failed: the assert fails, and the node is lost |
| Failures.LosesNode | src/traffic/CTrafficManager.cpp:297-303 | a run, with nothing referring to accepted nodes, in which a failed attach loses a node |
| Failures.DropsNode | src/transaction/CTransaction.cpp:452-459 | such a run in which a session ends inside onCheck for want of a timer |
| Failures.GroupMissing | src/transaction/CTransactionManager.cpp:120 | such a run in which a timer killed between drain and visit is about to fire for a recycled node, whose group is null |
| Failures.TimerComesLate | src/transaction/CTransaction.cpp:355-357 | such a run in which an ack timer's message is overtaken by its ack and reaches assert(false_v) |
| Failures.SlotIsShared | src/transaction/CTransaction.cpp:274-281 | such a run in which the slot of a fired ack timer goes to the next message, so that the slot recorded for message 1 carries 2, and the ack of 1 would kill the timer of 2 |
| Traffic.NodeGroup.Attach | src/traffic/CNodeGroup.cpp:28-43 | CNode::onAttach is the transaction's onAttach; if it succeeds the node is appended to the container, otherwise only the session changes |
| Traffic.NodeGroup.Detach | src/traffic/CNodeGroup.cpp:45-60 | the node leaves the container if it is there, a cursor on it moves on, and the transaction is detached, its asserts being what is required |
| Traffic.TrafficManager.AllocateGroup | src/traffic/CTrafficManager.cpp:448-454 | the groups in turn, starting over after the last |
| Traffic.TrafficManager.AddNode | src/traffic/CTrafficManager.cpp:285-303 | pool, groups, homes and index move as the serial view's Accept, the session as onAttach; the node joins the container exactly if onAttach succeeds |
| Traffic.TrafficManager.RecycleNode | src/traffic/CTrafficManager.cpp:423-428 | for a session that is over, the Recycling call of the serial view, its assert included |
| Traffic.TrafficManager.DelNode | src/traffic/CTrafficManager.cpp:365-421 | a node that is free or has no socket is passed over; any other is recycled as in the serial view, onDetach's asserts included |
| Traffic.TrafficManager.RecycleNodes | src/traffic/CTrafficManager.cpp:180-189 | the recycle loop is the serial view's Recycle, or a pass-over, for each node in the queue |
| Traffic.ReleasedOnce | src/traffic/CTrafficManager.cpp:365-368 | whatever the recycle queue holds, a pass gives back exactly the nodes in it that are out, each once |
| Locks.PathDisciplined | src/common/CTimerManager.cpp:55-57 | every path takes its locks in the order traffic manager, group, timers, with the registry's as a leaf, and only re-enters the timers' mutex |
| Locks.NextInv | src/traffic/CTrafficManager.cpp:180-189 | any number of threads keep this discipline at every step |
| Locks.NoCyclicWait | src/traffic/CNodeGroup.cpp:28-77 | no reachable state has a circle of threads each waiting for a lock the next one holds, for any number of threads and groups |
| Locks.NoDeadlock | src/traffic/CTrafficManager.cpp:180-189 | as long as a thread is in the middle of a path some thread can go on |
| Store.RedisOperator.SendMessage | src/database/CRedisOperator.cpp:139-225 | command by command, with any of them failing: the store it leaves, its result and message id are those of the step system |
| Store.RedisOperator.FanOutTo | src/database/CRedisOperator.cpp:207-219 | one zadd for each listed member, under the group's score, failures ignored |
| Store.DriveKeeps | src/database/CRedisOperator.cpp:139-225 | a whole send keeps the store's integrity and has put the message where its result says |
| Store.NextInv | src/database/CRedisOperator.cpp:139-225 | integrity is kept by every command of any number of interleaved senders, lost answers included |
| Store.IdsUnique | src/database/CRedisOperator.cpp:152-163 | over a whole run no two sends are ever given the same message id, refused ones included |
| Store.QueuedHaveRecords | src/database/CRedisOperator.cpp:165-219 | an id in a queue always has a record, sent to that user or group, or to a group whose queue has it under the same score |
| Store.GroupSendReachesAll | src/database/CRedisOperator.cpp:182-219 | over any run, a group send has put its message into the group's queue, under the time of that zadd, and under the same score into the queues of those who were members when it listed them: of all of them if its commands have taken effect, and of nobody else; the record is the request's sender, destination and json |
| Store.UserSendReaches | src/database/CRedisOperator.cpp:174-181 | a message to a user is in that user's queue alone, under the time of its zadd; one to neither a user nor a group in no queue |
| Store.SendExact | src/database/CRedisOperator.cpp:139-225 | a send that nobody interrupts: exactly when it returns true, and exactly what it has changed, one lost zadd of the fan-out at a time |
| Couriers.Courier.CheckMessages | src/database/CRedisOperator.cpp:227-334 | over the transaction in place: which entries are handed over, where lastUpdate ends, and the result, for any failure on the way, a push that ends the session for want of a timer included |
| Couriers.Courier.PushBatch | src/database/CRedisOperator.cpp:287-331 | skips missing records, stops at the first failed read or push, moves the cursor with every success |
| Delivery.ZaddAppends | src/database/CRedisOperator.cpp:175-177 | a message stored under a time not before all others is appended to the queue as checkMessages reads it |
| Delivery.CheckDelivers | src/database/CRedisOperator.cpp:240-331 | what one check accepts: from its start, at most its limit, up to the first failure |
| Delivery.LoginCheck | src/database/CRedisOperator.cpp:240-266 | a check after a login without a time, or after more than VALID_DURATION, whose pushes all succeed hands over exactly the last VALID_NUMBER entries, or all if there are fewer |
| Delivery.RecentCheck | src/database/CRedisOperator.cpp:267-274 | any other check hands over the entries later than lastUpdate, up to the limit of the command |
| Delivery.HandedExactly | src/database/CRedisOperator.cpp:287-331 | an entry is accepted exactly if its push succeeds and each entry before it has been pushed or has no record |
| Delivery.StretchExactly | src/database/CRedisOperator.cpp:227-334 | over any run, what is accepted stays one contiguous stretch of the queue exactly as long as every step continues it: a message is not put in front of the cursor, and a check that has something to accept goes on at the cursor, after an expiry by position and otherwise by a higher score |
| Delivery.DeliveredStretch | src/database/CRedisOperator.cpp:227-334 | with growing scores and no expiry after the first accepted message, the accepted messages are one contiguous ascending stretch of the queue, without gap or repeat, early stops included |
| Delivery.FirstStart | src/database/CRedisOperator.cpp:240-274 | that stretch starts at max(0, count - VALID_NUMBER) after a cold or expired login, else just after lastUpdate |
| Delivery.NeverRepeats | src/database/CRedisOperator.cpp:287-331 | without expiry nothing is accepted twice or out of order, even with missing records and tied scores |
| Delivery.ExpiryContinues | src/database/CRedisOperator.cpp:240-266 | after an expiry the stretch continues if and only if the last VALID_NUMBER entries begin at the cursor |
| Delivery.ExpiryGoesByPosition | src/database/CRedisOperator.cpp:240-266 | a check after an expiry accepts by position alone: exactly the entries from VALID_NUMBER before the counted end on, at most VALID_NUMBER, up to the first that is not pushed |
| Delivery.TiesAreLost | src/database/CRedisOperator.cpp:267-274 | over any run without expiry, an entry tied with the cursor or before it that has not been accepted never is |
| Delivery.ZeroLimitStalls | src/database/CRedisOperator.cpp:267-274 | with a second limit of 0 nothing is accepted any more once something has been |
| Delivery.TieIsPassedOver | src/database/CRedisOperator.cpp:267-274 | a queue of two tied messages of which the second is passed over |
| Delivery.TieAfterExpiry | src/database/CRedisOperator.cpp:240-266 | the same queue after an expiry: the second is delivered |
| Delivery.ExpirySkips | src/database/CRedisOperator.cpp:240-266 | a queue of which an expiry skips a message |
| Delivery.ExpiryRepeats | src/database/CRedisOperator.cpp:240-266 | the same queue with a larger VALID_NUMBER: a message is sent again |
| Conf.SameIsPrefix | src/common/CConfReader.cpp:82-83 | strncmp over the length of the file's text asks whether that text is a beginning of the requested name |
| Conf.ConfReader.MatchLine | src/common/CConfReader.cpp:107-126 | one line against the key: comments, the first '=', and lines that begin with '=' |
| Conf.ConfReader.ScanLines | src/common/CConfReader.cpp:95-129 | the lines of a section, up to the next header or the end |
| Conf.ConfReader.ScanHeader | src/common/CConfReader.cpp:73-93 | a header up to ']' or the end, and the white space behind it |
| Conf.ConfReader.ParseFile | src/common/CConfReader.cpp:64-137 | terminates inside the buffer and finds what the line-by-line reader finds, at the places it reports |
| Conf.ConfReader.ReadString | src/common/CConfReader.cpp:139-167 | the four result codes, and the value cut to size - 1 characters and closed by NUL |
| Conf.ReadsBack | src/common/CConfReader.cpp:64-137 | a clean file is read as its settings say: the first setting whose key is a beginning of the requested key, in a section whose name is a beginning of the requested one |
| Conf.AskedIsRead | src/common/CConfReader.cpp:82-125 | a setting is read back under its own names if and only if no earlier setting has beginnings of both (unless with the same value, which a reader cannot tell apart) |
| Conf.PrefixShadows | src/common/CConfReader.cpp:82-125 | a file where asking for port_max yields the value of port |
| Conf.LineEndsAlike | src/common/CConfReader.cpp:56-56 | line feeds and carriage returns end lines alike: what is read does not depend on which stand in the file |

## Left out

- Sockets, epoll, accept, error codes and the clock: reads and writes move any part of what they could, or would block, or fail; times are parameters. A write would block only finitely often.
- The Redis connection: each command is one atomic step on maps and score-sorted sets, answered or lost. Records are never deleted, and a queue is read in the order of its scores.
- Daemonising, signals, logging, configuration defaults, the thread wrappers and the Java client: plumbing, or only easy members.
- The C client's reconnecting, which keeps offset and pending_size: one connection at a time. Its test for a broken connection takes EAGAIN and EWOULDBLOCK to be equal, as they are on Linux.
- Malformed frames (size below 29 or above 512) and internal commands sent by a peer: excluded by `Sane` and `WellFormed`.
- Integer widths: times, sizes and counters are unbounded, except that a session's sequence number wraps at 32 bits; a push is possible only while its next number is not outstanding. The second limit of checkMessages, 64 bits passed where 32 are read, is a parameter.
- TimerSpec.NextInv: the status write of a visit that unlinks its timer, outside the lock in the code, is one step with the rest of the visit. killTimer reads the status for its assert before it locks; that too is one step.
- TimerRuns.KilledTimerFires: is about the incarnation that has the slot. A slot's address is reused, so killTimer with an old id can hit the timer of another owner; AlarmRuns.KeepaliveLasts says what that means for a keepalive.
- TimerRuns.LapVisitsAll: counts visits; a visit of an empty list, which only sleeps, is none.
- LoopBuffers.LoopBuffer.Write: writes and reads are atomic, as under the buffer's mutex; the pointers are indices.
- Nodes.Node.Recv: assumes that the peer sends legal frames. It is proved against the queue it alone writes to; other writers interleave in `Pipeline`.
- Pipeline.EndToEnd: `Net` and `Internal` messages that the queue has no room for are refused, and a connection whose frame was refused reads no more, as its caller then closes it.
- Workers.Next: a micro-step reads and writes a session's fields in one piece, also where two threads are in handlers of it, whose accesses the code does not order. A visit that fires waits as a whole while the group's mutex is held. Every queue may refuse a message at any time.
- WorkerRuns.NoAssertFails: leaves out three asserts that depend on what a peer sends or on when it does. `assert(msg->header.seq)` of __onPushMsg is a condition of the step that receives the message. `assert(sessionId && 0 != sessionId[0])` at src/database/CRedisOperator.cpp:106 fails for a handshake with an empty session id; the session then ends like one whose id is not found, as in a release build. `assert(false_v)` at src/transaction/CTransaction.cpp:356 is reached in the run of Failures.TimerComesLate, and is taken as not there.
- Transactions.Transaction.Stop: the `switch` on the reason, which only logs, is left out, and so is its failing default case, which NO_MORE_TIMER falls to. The ids are taken from the records before the kills, which no other thread can see.
- AlarmRuns.KeepaliveMessage: the queue has room; a message that is refused is dropped, and the timer fires again after its period.
- WorkerRuns.NodesConserved: the branch of _addNodes where epoll_ctl fails is not modelled; a node whose attach failed counts as being outside.
- WorkerRuns.HandlersNeverOverlap: CleanAccepts is sufficient. A converse is stated for messages in a worker's hand (HeldMessageOverlaps) and by the run Failures.HandlersOverlap, not for every message in a queue.
- Lost.FailedAttach: no handler of the node's last connection is still running when it is accepted; LostExactly starts from the stages this leads to. Clean accepts guarantee it (Lost.UnusedWhenClean); in other runs handlers can overlap (Failures.HandlersOverlap).
- WorkerRuns.NoTimerAfterStop: a push is possible only while its next number is not outstanding; a number that wraps onto an outstanding one would drop the record of a timer.
- Nodes.Node.OnAttach: the receiving side only; ip, port, fd and group have no part in the decoder, and the transaction's onAttach is Transactions.Transaction.OnAttach.
- Traffic.NodeGroup.Attach: without connecting to the store for the first node, and Detach without disconnecting for the last.
- Traffic.TrafficManager.AddNode: without the socket calls and without the branch in which epoll_ctl fails, which detaches a node that is CONNECTED. A node has a socket as long as it has a group.
- Transactions.Transaction.OnMessage: sending is an outcome, not bytes; __onSendMsg's part in the store is `Store`.
- Traffic.NodeGroup.Detach: the code compares what the cursor points to also when the cursor stands at the end; here the end is no node.
- Locks.PathDisciplined: the paths are written down by hand from the code; they start with no lock held.
- Delivery.DeliveredStretch: scores grow strictly and no message expires after the first accepted one; StretchExactly, TiesAreLost and ExpiryGoesByPosition say what happens otherwise. That a check runs at a time after lastUpdate is its assert, and a condition here: the client chooses lastUpdate at login. In these runs a push is its success and the cursor; Couriers.Courier has the transaction's own handlePushMessage, whose failure for want of a timer ends the session and so the run.
- Conf.ConfReader.ParseFile: two NULs behind the text are a precondition: the constructor does not write them, and its reading of the file is not modelled. readByte, readShort and readInt only add atoi.
- CTransactionManager.instance, CTrafficManager.work and the thread start-up: no state of interest.
