# Verification of the IOCP engine's core

The engine serves many TCP connections over Windows I/O completion ports.  Its sessions, queues and
memory pools are shared by completion threads, job workers and service threads, mostly without locks:
counters, one-bit flags and exchanges decide who may touch what.  This project models those parts and
proves what the rest of the engine relies on.

`dafny verify dfyconfig.toml` checks everything.

## How it is modelled

**Protocols.**  Each concurrent part is a step system.  A state holds the shared fields, what the
kernel still has, and one program counter for every thread; an action is one interlocked operation,
one plain read or store, or one section under an SRW lock.  `Runs` says that a schedule of actions is
enabled step by step, so a theorem about `After(s0, schedule)` is about every interleaving of any
number of threads.  Windows calls are nondeterministic steps: a posted operation completes once, a
receive never exceeds the posted length, a send transfers at least one byte and at most what is left,
an allocation may fail.

**Code.**  The objects the engine updates in place are classes.  `SessionCode`, `ReceiveCode`,
`SendCode` and `AcceptCode` are the methods of the source statement by statement: between any two
statements `Others` lets all other threads do whatever the protocol allows, and every statement is
shown to be a step of the protocol.  `Valid()` of these classes says that the object is in the state
some run has led to, so the theorems about runs hold of the methods; `Begins` and the program counter
in each `ensures` say which operation was carried out and that it was carried out to its end.  What
Windows answers is a parameter.  `Acts` says that every step the calling thread takes in a call is one
of the protocol with that answer, and `Answered`, `Cancelled` and `PostedAt` name the step at which a
call did what the answer let it do, so no call can pass over a success or act on a failure.  The
containers and the pools (`RecvRing`, `ReadySessionQueue`, `SessionJobQueue`, `SendPacketQueue`,
`ClientSessionPool`, `GlobalBlockPool`, `ThreadBlockCache`, `TlsMemoryPool`) are heap classes proved
against sequences.  The memory pool has two protocols: in `PoolSteps` any number of threads are inside
Acquire, Release and thread exit at once, each at a step of its own, and in `BlockPoolProtocol` an
action is a whole call.  The pool classes are proved to take one step of the second per call, and
`PoolCalls` proves that a call nobody interrupts does the same in the first.  Growth under the commit
limit has a protocol of its own, `CommitLimit`; a grow of the class nobody interrupts is one of its
runs (`GrewAlone`).

| part | protocol and theorems | code |
|---|---|---|
| session lifetime | `SessionProtocol`, `SessionAccounting`, `SessionRecycle`, `LeaseHandout`, `UnheldSend`, `CancelBarrier`, `SessionPoolProtocol` | `SessionCode`, `ClientSessionPool` |
| receive backpressure, job scheduler | `BackpressureProtocol`, `BackpressureInvariants`, `BackpressureBound`, `DeepestBacklog`, `ReceivePipeline`, `SchedulerProtocol` | `ReceiveCode`, `SessionJobQueue`, `ReadySessionQueue` |
| send path, broadcast | `SendPathProtocol`, `SendPathInvariants`, `SendStranding`, `BroadcastProtocol`, `BroadcastOwnership` | `SendCode`, `SendPacketQueue` |
| receive ring, framing | `Wire`, `Framing` | `RecvRing`, `ReceiveLoop` |
| both ends of a connection | `Connection` | |
| accept slots | `AcceptSlots` | `AcceptCode` |
| memory pool | `PoolSteps`, `PoolStepsInvariants`, `DoubleRelease`, `GrowthYields`, `PoolCalls`, `BlockPoolProtocol`, `BlockPoolInvariants`, `PoolFinalize`, `CommitLimit`, `PoolPicture` | `Bits`, `SizeBin`, `BlockMemory`, `MemoryLayout`, `GlobalBlockPool`, `ThreadBlockCache`, `TlsMemoryPool`, `PoolSetup` |

`Tally` holds sums over tables of threads.

## Where the code does less than one might expect

- **A session can be recycled under a live unit.**  That a count of zero means nobody is touching the
  session (Session/BaseSession.cpp:192-219) needs more than that every thread holds a unit.  A thread that has
  dropped the last unit, has just read a count of zero or has decided to release, but has not taken its
  next step, may find the node handed out again; it then takes the next lease's pending release for
  its own.  `HandoutIsSafeIffClean` gives the exact condition, no such thread at the moment of
  `Acquire`; `ParkedHandoutHappens` shows that the condition can fail.  `RecycleIsSafe` and
  `GoodbyesMatchHellos` are about the runs in which it holds at every hand-out.
- **A disconnect notification can be lost.**  Past such a thread a lease can end whose OnClientConnect
  was called and whose OnClientDisconnect was not (`HelloWithoutGoodbye`).  The notifications, the
  counter and the right to receive are well kept under exactly the same condition
  (`HandoutIsWellIffClean`).
- **A send without a unit needs a session somebody answers for.**  Service threads in
  EnqueueSendPacket and the pool's heartbeat loop count a unit on a session they hold none of
  (Session/ClientSessionPool.cpp:384-400).  Whenever the count is positive that is safe
  (`CountedSendIsWell`); on a free node, on one whose lessee has not counted yet, or after some thread has
  seen zero it is not, unless the cancel gate turns the sender back in time.  `UnheldSendIsWellIff` has the
  exact condition, `PostedOnFreeNode` a run that ends with a send posted on a free node.
- **The backlog depends on the completion threads too.**  Counting one stale resume for each worker
  gives a bound that holds exactly when one completion thread serves the session
  (`WorkersAloneBoundIff`), because a handler that has just marked the pause may resume late as well
  (Session/ClientSession.cpp:640-685).  `BacklogIsBounded` has the bound for any numbers, and
  `DeepestIsReached` shows that it is exact.
- **The commit limit can be exceeded.**  Check and commit are serialised within a bin only
  (Memory/GlobalBlockPool.cpp:356-428).  `CommittedIsBounded` has the ceiling, `LimitCanBeExceeded`
  meets it, `LimitHoldsIff` says when the limit itself holds of every run: at most one bin has room for
  a segment at the start.  `SerialFromStart` gives it when growth is serialised.
- **A packet can be left behind.**  When WSASend fails for want of resources the current packet is
  dropped and the session lives on; a packet queued meanwhile may have nobody to send it
  (`StrandedByShortage`).  That happens exactly when the queue is not empty and no other thread is on
  its way to it as the right is given back (`StrandedIff`).  The next accepted packet gets the queue
  going (`NextEnqueueDrains`), but a full queue accepts none and stays where it is
  (`FullQueueStaysStranded`).
- **Two overlapping releases of one block go through.**  Release reads the magic and writes it in two
  plain accesses (Memory/TlsMemoryPool.cpp:275-299).  A second Release that reads LIVE before the first
  has stored FREE puts the block into two lists (`ReleasedTwice`); without that every block keeps one
  place, and only without it (`SecondReadIff`).  A second Release after the first one's store changes
  nothing.
- **A refill can fail although the bin has grown.**  Carved chunks are on the stack before the grower
  pops one, and others take them without the lock (`PopFailsDespiteGrowth`).  The grower is sure of a
  chunk exactly when every other thread is waiting for the lock (`GrowthYieldsIff`).
- **An oversized request can wrap around.**  The bytes asked of the heap are a sum on size_t
  (Memory/TlsMemoryPool.cpp:340); the payload lies inside what the heap gave exactly when that sum has
  not wrapped around (`HeapBlockFitsIff`, `WrappedRequest`).
- **Not every accepted configuration gives a usable pool.**  Sizes of 9 to 16 bytes alone give a table
  without a bin; above 2 GB a 32-bit block size becomes zero and `MakeBinSpec` divides by it
  (`UsableIff`).
- **m_postedAcceptCount may be off for a moment**, between a slot's change and the counter's, and even
  below zero (`CountBelowZero`).  `PostedCountIsExactIff` says when it is exact; with every thread at
  rest it is (`RestingSlotsAreKnown`).

Some branches are proved unreachable rather than modelled in the code classes: the negative count of
`DecrementIO`, the full ready queue, a current packet already in hand in `TrySendNext`, no bytes left
in `PostCurrentSend`, no packet in hand in `OnSendCompleted`, `ReleaseSlot` on an unowned slot, and the
pending release inside a cancel that `Release` called.

## Model

| member | source | states |
|---|---|---|
| `SessionAccounting.CountNeverNegative` | `Session/BaseSession.cpp:141-184` | in every reachable state, whoever counts units, m_ioCount is not negative and no enabled step makes it so: the negative-count branch of DecrementIO is unreachable |
| `SessionAccounting.FinishedExactlyOnce` | `Session/ClientSessionPool.cpp:92-221` | over every interleaving CompleteRelease is entered at most once per lease, never while the node is in use, never by two threads at a time, and exactly once by the time the node is free again |
| `SessionAccounting.ReleaseNeverLost` | `Session/BaseSession.cpp:192-219` | when no thread is inside an engine call, a session still waiting for its release has the pending mark up and units outstanding, so whoever drops the last one finishes it |
| `SessionAccounting.NestedDropComesBack` | `Session/BaseSession.cpp:231-311` | a drop inside CancelPendingIO reached from Release never finds the release pending: control always returns to Release |
| `SessionRecycle.RecycleIsSafe` | `Session/ClientSession.cpp:506-591` | in runs whose leases were handed out clean and whose threads without a unit count one only while somebody answers for the session (as whenever the count is positive): the counter equals posted operations, thread-held units and the pause token; no unit exists while CompleteRelease runs or the node is free; at most one party may post the next receive |
| `SessionRecycle.GoodbyesMatchHellos` | `Session/ClientSession.cpp:426-434` | in those runs OnClientDisconnect fires exactly as often (0 or 1) as OnClientConnect in every lease that has ended, and never more often while one lasts; when this can be relied on is `HandoutIsWellIffClean` |
| `LeaseHandout.HandoutIsSafeIffClean` | `Session/ClientSessionPool.cpp:68-90` | in every continuation of the lease by such steps no unit exists while CompleteRelease runs, if and only if no thread was parked past its last look at the old lease when Acquire popped the node |
| `LeaseHandout.HandoutIsWellIffClean` | `Session/ClientSession.cpp:426-434` | a hand-out keeps all of it in every continuation of the lease by such steps (the counter equals the units, at most one party receives, no unit outlives the lease, no more goodbyes than hellos, as many once the node is free) if and only if no thread was parked past its last look at the old lease |
| `LeaseHandout.HelloWithoutGoodbye` | `Session/ClientSession.cpp:426-434` | a concrete run past a parked thread: OnClientConnect was called in a lease that has ended, OnClientDisconnect was not |
| `LeaseHandout.ParkedHandoutHappens` | `Session/BaseSession.cpp:192-219` | a concrete reachable hand-out past a parked thread: three threads suffice to make CompleteRelease overlap a live unit of the next lease |
| `UnheldSend.UnheldSendIsWellIff` | `Session/BaseSession.cpp:414-430` | a thread without a unit counts one: everything is kept in every continuation of the lease if and only if somebody answers for the session (leased, its lessee has counted or gone, nobody has seen the count at zero since), or the cancel gate is up on a session in use and nobody can leave a release pending before the sender is back |
| `UnheldSend.CountedSendIsWell` | `Session/ClientSessionPool.cpp:393-400` | so it is whenever the count is positive |
| `UnheldSend.PostedOnFreeNode` | `Session/BaseSession.cpp:414-430` | a concrete run: a send without a unit ends up posted on a node of the free list |
| `CancelBarrier.ZeroBehindGateIsFinal` | `Session/BaseSession.cpp:414-430` | with m_cancelIo up and the count seen at zero no I/O is posted, no pause is pending and no thread is past the BeginIO gate, and this stays true under every step until the reset that reopens the gate |
| `CancelBarrier.StragglersOnlyShrink` | `Session/BaseSession.cpp:313-322` | behind a closed gate posted operations, posts in the making and pauses are never replaced, from any state whatever |
| `CancelBarrier.LateComersNeverPost` | `Session/BaseSession.cpp:414-430` | in every run behind the raised m_cancelIo: a thread that was not past the gate when it was raised is never past it at any later point, and no step of its own adds a posted operation or a pause |
| `SessionPoolProtocol.FreeListIsExact` | `Session/ClientSessionPool.cpp:68-221` | over every interleaving of all sessions of the pool the free list holds each FREE node once and nothing else, so what Acquire pops is FREE |
| `SessionCode.ClientSession.constructor` | `Session/BaseSession.cpp:20-38` | the object starts a run of the protocol, with the node FREE |
| `SessionCode.ClientSession.DecrementIO` | `Session/BaseSession.cpp:141-184` | statement by statement a path of protocol steps for every behaviour of the other threads; ends back at its caller or having finished the release |
| `SessionCode.ClientSession.RequestRelease` | `Session/BaseSession.cpp:192-219` | mark, read of the count, exchange of the mark: each a protocol step; true exactly when this thread goes on into CompleteRelease |
| `SessionCode.ClientSession.CompleteRelease` | `Session/ClientSessionPool.cpp:179-221` | socket, notification, state, both resets and the return to the free list, store by store, each a protocol step |
| `SessionCode.ClientSession.ReleaseUnpostedIO` | `Session/ClientSession.cpp:737-753` | the exchange of m_recvPaused and the drop of its unit by the winner, each a protocol step |
| `SessionCode.ClientSession.CancelPendingIO` | `Session/BaseSession.cpp:231-311` | a thread that finds no socket, loses the exchange of m_cancelIo, or wins it and has CancelIoEx find something to cancel takes its own exchange of m_recvPaused in this call: the mark is down right after it, and where it was up the thread's next own step drops the unit the mark stood for; only a winner with nothing to cancel returns early; every own step is one of the protocol with that answer |
| `SessionCode.ClientSession.Release` | `Session/ClientSessionPool.cpp:92-155` | called with a unit or by a thread that has decided to without one: one winner of the IN_USE to RELEASING exchange looks whether the session is connected, cancels a connected one as `CancelPendingIO` does, requests and, if it has to, finishes; a loser takes the one step of its lost exchange and changes nothing |
| `SessionCode.ClientSession.Decide` | `Session/ClientSessionPool.cpp:92-155` | a thread without a unit may decide to release a session it sees connected: a protocol step of its own, before the exchange |
| `SessionCode.ClientSession.BeginIO` | `Session/BaseSession.cpp:414-430` | for holders of a unit and for service threads without one: the increment precedes the look at m_cancelIo; ends past the gate or with its unit dropped again |
| `ClientSessionPool.ClientSessionPool.constructor` | `Session/ClientSessionPool.cpp:15-51` | as many nodes as asked for, all FREE and all on the list |
| `ClientSessionPool.ClientSessionPool.Acquire` | `Session/ClientSessionPool.cpp:68-90` | hands out the first free node and makes it IN_USE, nothing exactly when no node is FREE, and leaves the states of all others; the linked list stays acyclic, without repetition and equal to the FREE nodes |
| `ClientSessionPool.ClientSessionPool.BeginRelease` | `Session/ClientSessionPool.cpp:92-155` | exactly the caller that finds the node IN_USE wins, and only then the state changes |
| `ClientSessionPool.ClientSessionPool.FinishRelease` | `Session/ClientSessionPool.cpp:179-221` | the node becomes FREE at the head of the list |
| `ClientSessionPool.ClientSessionPool.GetInUseCount` | `Session/ClientSessionPool.cpp:234-253` | counts exactly the nodes that are not on the free list |
| `BackpressureInvariants.NothingIsStranded` | `Session/ClientSession.cpp:613-735` | whenever all threads have left the session and it is not scheduled, its job queue is empty, m_processing and m_recvPaused are 0, exactly one receive is posted and every job enqueued has run, in order |
| `BackpressureInvariants.OneTurnOneReceive` | `Scheduler/ReadySessionScheduler.cpp:137-184` | in every reachable state the session is in the ready queue at most once and not while a worker drains it, at most one worker drains, the posted receive, the pause and the threads about to post are together exactly one, and the jobs run are a prefix of those enqueued |
| `SchedulerProtocol.ReadyQueueHasRoom` | `Core/IOCPServer.cpp:1917-1960` | with capacity equal to the session count no push ever finds the ready queue full: the rollback branches are dead code |
| `SchedulerProtocol.ServerNeverStrands` | `Scheduler/ReadySessionScheduler.cpp:133-197` | over every interleaving of all sessions and threads the ready queue holds no session twice, is never full for a pusher, and a session at rest has run all its jobs and receives again |
| `BackpressureBound.BacklogIsBounded` | `Session/ClientSession.cpp:613-703` | the job depth never exceeds pause - 1 + batch * (completion threads + workers) |
| `DeepestBacklog.DeepestIsReached` | `Session/ClientSession.cpp:687-735` | that depth is reached: a run exists in which all workers and all completion threads but one hold stale depth reads |
| `DeepestBacklog.WorkersAloneBoundIff` | `Session/ClientSession.cpp:613-703` | the smaller bound pause - 1 + batch * (workers + 1) holds of all runs if and only if exactly one completion thread serves the session |
| `ReceivePipeline.JobsFollowStream` | `Core/IOCPServer.cpp:983-1170` | over every interleaving of completions, handlers and workers with the ring between them: the jobs run are the first packets of the bytes received, in their order, and with everybody at rest they are all of them |
| `ReceivePipeline.BudgetSuffices` | `Core/IOCPServer.cpp:1034-1122` | whenever the ring holds a whole packet its handler may still submit one: a quarter of the ring is enough for every handler of every run |
| `ReceivePipeline.HandlerFitsBatch` | `Buffer/RecvPacketBuffer.cpp:211-281` | a ring of bytes never delivers more than ringSize / 4 packets |
| `ReceivePipeline.BacklogInBytes` | `Core/IOCPServer.cpp:1034-1153` | the job depth of the path with the real ring never exceeds pause - 1 + ringSize / 4 * (completion threads + workers) |
| `ReceiveCode.ClientSession.constructor` | `Core/IOCPServer.cpp:906-956` | a connected session: its first receive is posted, nothing is queued |
| `ReceiveCode.ClientSession.SubmitPacketJob` | `Core/IOCPServer.cpp:1917-1960` | enqueue, m_processing exchange, push to the ready queue by the winner: each a protocol step, the job next in the queue order |
| `ReceiveCode.ClientSession.PostReceiveOrPause` | `Session/ClientSession.cpp:613-685` | depth read, post or pause mark, second read, own resume: each a protocol step; the thread leaves the session |
| `ReceiveCode.ClientSession.HandleRecv` | `Core/IOCPServer.cpp:983-1170` | the packets of a completion are the very next jobs submitted, in order and with none in between; then the next receive is posted or paused |
| `ReceiveCode.ClientSession.GiveUpTurn` | `Scheduler/ReadySessionScheduler.cpp:160-184` | clear the flag, look again, take the turn back if a job slipped in |
| `ReceiveCode.ClientSession.ResumeReceiveIfDrained` | `Session/ClientSession.cpp:687-697` | a worker resumes only a paused session that it sees at or below the resume level |
| `ReceiveCode.ClientSession.ResumeReceive` | `Session/ClientSession.cpp:699-735` | this worker posts the receive exactly when its own exchange found the session paused, and at a later step of its own |
| `ReceiveCode.ClientSession.WorkerTurn` | `Scheduler/ReadySessionScheduler.cpp:133-197` | one turn of the worker loop as protocol steps: pop, drain, give up the turn, resume; a turn that does not end has run as many jobs as it was followed for |
| `SessionJobQueue.SessionJobQueue.EnqueueJob` | `Session/SessionJobQueue.cpp:27-60` | the job becomes the last of the linked queue; null is refused and changes nothing; wasEmpty tells whether the queue was empty |
| `SessionJobQueue.SessionJobQueue.DequeueJob` | `Session/SessionJobQueue.cpp:62-91` | takes the oldest job, fails exactly on an empty queue |
| `SessionJobQueue.SessionJobQueue.Reset` | `Session/SessionJobQueue.cpp:148-177` | every waiting job is given back once, oldest first, and the queue is empty |
| `ReadySessionQueue.PushAround` | `Scheduler/ReadySessionQueue.cpp:58-77` | writing the tail cell of the circular array appends to the waiting sessions |
| `ReadySessionQueue.PopAround` | `Scheduler/ReadySessionQueue.cpp:79-108` | clearing the head cell and advancing removes the first waiting session and no other |
| `ReadySessionQueue.ReadySessionQueue.Push` | `Scheduler/ReadySessionQueue.cpp:58-77` | appends, refused exactly when every cell is taken |
| `ReadySessionQueue.ReadySessionQueue.TryPop` | `Scheduler/ReadySessionQueue.cpp:79-108` | takes the session that has waited longest, fails exactly when none waits |
| `SendPathInvariants.OneSendAtATime` | `Session/ClientSession.cpp:767-932` | at most one WSASend is outstanding, no thread touches the packet or the overlapped structure meanwhile, and m_sending 0 means no packet in hand |
| `SendPathInvariants.WireFollowsQueue` | `Session/ClientSession.cpp:767-932` | in PushBack order every accepted packet is released, in hand or queued, and the wire holds exactly the bytes they sent; until a send fails the wire is a prefix of the accepted stream, under every partial completion and also under a cancel |
| `SendPathInvariants.NothingIsStranded` | `Session/ClientSession.cpp:767-812` | at rest, without a failed send and without a cancel, everything accepted is on the wire and nothing is queued |
| `SendPathInvariants.StrandedByShortage` | `Session/ClientSession.cpp:1171-1208` | a concrete run in which WSASend fails for want of resources and another accepted packet stays queued with nobody to send it |
| `SendStranding.StrandedIff` | `Session/ClientSession.cpp:767-895` | a post has failed and its thread is about to give m_sending back: every continuation without further failure or cancel drains the queue if and only if it is empty or another thread is on its way to look at it |
| `SendStranding.NextEnqueueDrains` | `Session/ClientSession.cpp:1027-1089` | the next accepted packet drains a stranded queue |
| `SendStranding.FullQueueStaysStranded` | `Buffer/SendPacketQueue.cpp:128-151` | a stranded queue at its maximum accepts nothing, so no continuation whatever moves it |
| `SendStranding.FullQueueCanBeStranded` | `Session/ClientSession.cpp:814-895` | a concrete run into that state |
| `Connection.ReceiverSeesAccepted` | `Session/ClientSession.cpp:767-932` | end to end: whatever pieces the wire bytes arrive in, the receiver sees no bad header and is delivered a prefix of the accepted packets, all of them once the sender is at rest |
| `Connection.JobsFollowSends` | `Session/ClientSession.cpp:767-932` | from one service to the other: without a failed send the jobs the receiver has run are the first of the packets the sender's queue accepted, in that order, and all of them once both are at rest |
| `SendCode.ClientSession.constructor` | `Session/ClientSession.cpp:76-160` | an idle send path |
| `SendCode.ClientSession.EnqueueSendPacket` | `Session/ClientSession.cpp:1027-1089` | accepts exactly the well-formed packets of admissible size that CanSendPacket allows, for which there is an entry and which fit the queue; a refused one changes nothing, an accepted one is next in the send order; then the sending right is tried: a packet this call takes is posted, at a step of its own, unless a cancel is up or WSASend fails |
| `SendCode.ClientSession.TrySendNext` | `Session/ClientSession.cpp:767-812` | exchange, dequeue, give back and look again as protocol steps; a packet taken is posted by an own step of this call if WSASend takes it and no cancel is up, and is given up only otherwise; a call that finishes without taking one found another sender or nothing to send; one that has not finished went round as often as it was followed for |
| `SendCode.ClientSession.PostCurrentSend` | `Session/ClientSession.cpp:814-895` | the rest of the current packet is posted by an own step exactly when WSASend takes it and no cancel is up, else it is given back |
| `SendCode.ClientSession.OnSendCompleted` | `Session/ClientSession.cpp:897-932` | after any partial completion the rest is posted as `PostCurrentSend` does, else the packet is released, the right given back and the next one tried as `TrySendNext` does |
| `SendPacketQueue.SendPacketQueue.PushBack` | `Buffer/SendPacketQueue.cpp:128-151` | the entry becomes the last of the linked queue, refused exactly at the maximum |
| `SendPacketQueue.SendPacketQueue.Enqueue` | `Buffer/SendPacketQueue.cpp:59-100` | the packet is the queue's, behind all others and with its size, exactly when the call succeeds and the caller's otherwise; what waits keeps its packet and size |
| `SendPacketQueue.SendPacketQueue.Dequeue` | `Buffer/SendPacketQueue.cpp:153-180` | takes the oldest entry with its packet and size, fails exactly on an empty queue |
| `SendPacketQueue.SendPacketQueue.Reset` | `Buffer/SendPacketQueue.cpp:218-245` | every entry is released once, oldest first, and the queue is empty |
| `SendPacketQueue.SharedSendPacket.AddRef` | `Buffer/SharedSendPacket.h:104-110` | one reference more, nothing given back |
| `SendPacketQueue.SharedSendPacket.Release` | `Buffer/SharedSendPacket.h:112-144` | one reference less; the last one returns the packet and then the header, once each |
| `BroadcastOwnership.NothingReturnsTwice` | `Buffer/SharedSendPacket.h:84-151` | for any number of queues and any pattern of failures, dequeues and resets: packet and header go back at most once and only when distributor and every entry have dropped their reference; every drop finds the count positive; no entry and no packet goes back twice |
| `BroadcastOwnership.EverythingReturns` | `Buffer/SendPacketQueue.cpp:182-245` | once the broadcast is over and the queues are drained, the packet, its header, every entry taken and every accepted packet have gone back exactly once |
| `AcceptSlots.OneAcceptPerSlot` | `Session/AcceptSession.cpp:138-151` | in every reachable state each slot has at most one AcceptEx posted, is owned exactly while one is posted or one thread posts or handles, never both and never by two, its count is not negative, and no ReleaseSlot ran on an unowned slot |
| `AcceptSlots.RestingSlotsAreKnown` | `Core/IOCPServer.cpp:1706-1740` | with every thread at rest a slot is owned exactly when its AcceptEx is posted, its count is that one operation, and m_postedAcceptCount is the number posted |
| `AcceptSlots.PostedCountIsExactIff` | `Core/IOCPServer.cpp:1542-1704` | over all runs m_postedAcceptCount lacks the posts not noted yet and still has the completions not taken off yet: it is exact if and only if these are equally many |
| `AcceptSlots.CountBelowZero` | `Core/IOCPServer.cpp:1767-1772` | a concrete run with the count at -1 and nothing posted: the case GetPostedAcceptCount cuts off at zero |
| `AcceptSlots.ShutdownIsFinal` | `Core/IOCPServer.cpp:1542-1704` | after shutdown was requested and a slot's count was seen at zero, no AcceptEx is ever posted on it again |
| `AcceptCode.IOCPServer.constructor` | `Core/IOCPServer.cpp:1446-1495` | all slots empty and unowned |
| `AcceptCode.IOCPServer.TryAcquireSlot` | `Session/AcceptSession.cpp:138-141` | wins exactly an unowned slot |
| `AcceptCode.IOCPServer.ReleaseSlot` | `Session/AcceptSession.cpp:143-151` | the slot is free afterwards and the violation branch is not taken |
| `AcceptCode.IOCPServer.PostAccept` | `Core/IOCPServer.cpp:1542-1704` | posts an AcceptEx, by an own step of this call, exactly when WSASocket and AcceptEx go through, unless shutdown is up; shutdown look, socket, count, second look, AcceptEx and posted count are each a protocol step; false leaves the slot with the caller |
| `AcceptCode.IOCPServer.HandleAccept` | `Core/IOCPServer.cpp:601-904` | from the dequeued completion to its DecrementIO a path of protocol steps; the slot is given up only in shutdown, else posted on again as `PostAccept` does |
| `AcceptCode.IOCPServer.HandleAcceptIOCancelled` | `Core/IOCPServer.cpp:958-981` | an aborted accept is uncounted and its slot released |
| `AcceptCode.IOCPServer.RefillAcceptSlots` | `Core/IOCPServer.cpp:1706-1750` | tries every slot, each at a step of its own and in order, and posts on each one it wins, unless a post fails: then it gives that slot back and stops; so with every WSASocket and AcceptEx going through and no shutdown all slots are tried and all that were free are posted on; does nothing in shutdown |
| `Framing.PiecesDoNotMatter` | `Core/IOCPServer.cpp:1034-1122` | parsing after every piece of a stream delivers what parsing the whole stream delivers, for every split |
| `Framing.FramedRoundTrip` | `Buffer/RecvPacketBuffer.cpp:211-281` | the packets of a well-formed stream come out as they went in, nothing left over |
| `Framing.PrefixDelivers` | `Buffer/RecvPacketBuffer.cpp:211-281` | a well-formed stream cut short anywhere delivers a prefix of its packets and no bad header |
| `Framing.FewPackets` | `Core/IOCPServer.cpp:1034-1122` | no more packets than four-byte headers in the bytes |
| `RecvRing.RecvPacketBuffer.Initialize` | `Buffer/RecvPacketBuffer.cpp:20-65` | succeeds exactly for a power-of-two ring of at least twice the packet size, a packet size between 4 and 65535, a pool and memory |
| `RecvRing.RecvPacketBuffer.GetWriteableSize` | `Buffer/RecvPacketBuffer.cpp:108-125` | the longest free run from the write position: up to the end of the buffer, and no more than is free |
| `RecvRing.RecvPacketBuffer.CommitWrite` | `Buffer/RecvPacketBuffer.cpp:127-146` | accepts exactly the completions that fit the offer and appends their bytes to the contents |
| `RecvRing.RecvPacketBuffer.PeekHeader` | `Buffer/RecvPacketBuffer.cpp:148-169` | the first four bytes of the contents, also around the end of the buffer; fails exactly when there are fewer |
| `RecvRing.RecvPacketBuffer.PrepareWrite` | `Buffer/RecvPacketBuffer.cpp:171-198` | keeps the contents, and leaves a whole packet of writeable bytes whenever less than a packet is stored; nothing moves where that room is there already |
| `RecvRing.RecvPacketBuffer.Compact` | `Buffer/RecvPacketBuffer.cpp:200-209` | moves the contents to the front unchanged |
| `RecvRing.RecvPacketBuffer.ReadPacket` | `Buffer/RecvPacketBuffer.cpp:211-281` | a header written with an id and a size from 4 to the maximum, with its body behind it, comes out with that id, that size and those bytes, and the rest stays; otherwise it says why not and changes nothing |
| `Wire.HeaderTells` | `Protocol/PacketHeader.h:9-37` | the id and the size a header was written with, low byte first in 16 bits each, are what is read from any bytes that begin with it |
| `Wire.HeaderIsRead` | `Protocol/PacketHeader.h:9-37` | any four bytes are the header of the id and the size read from them |
| `Wire.FramedIff` | `Protocol/PacketHeader.h:9-37` | a packet is admitted exactly if it is a header and a body, the header written with the size of both |
| `Framing.ParsesWhatWasWritten` | `Buffer/RecvPacketBuffer.cpp:211-232` | cutting undoes writing: a header of an admitted size with its body behind it gives that packet and the rest, one of any other size is invalid, one whose body is not all there waits |
| `ReceiveLoop.HandleRecv` | `Core/IOCPServer.cpp:1023-1122` | after one completion the packets handed on are the first of what the contents deliver, all of them unless the packet pool runs out |
| `ReceiveLoop.ReceiveConnection` | `Core/IOCPServer.cpp:983-1170` | whatever lengths the kernel chooses within the offers, the packets of the whole stream are delivered, every completion is committed, every offer holds a whole packet, and the bytes add up to the stream |
| `ReceiveLoop.ReceivePackets` | `Buffer/RecvPacketBuffer.cpp:108-281` | well-formed packets sent are the packets delivered, and the ring ends empty |
| `SizeBin.AlignUpRounds` | `Memory/BlockLayout.h:46-49` | rounds up to the next multiple of a power of two whenever the sum does not overflow size_t |
| `SizeBin.CeilLog2Fits` | `Memory/SizeBin.h:66-74` | the exponent of the smallest power of two that is at least the value |
| `SizeBin.BinOfIsSmallestFit` | `Memory/SizeBin.h:88-108` | the chosen bin fits the size and the next smaller one does not |
| `SizeBin.SmallestFitIsUnique` | `Memory/SizeBin.h:88-108` | only one bin can be the smallest fit |
| `SizeBin.MakeBinSpecIsSound` | `Memory/SizeBin.h:113-137` | for block sizes 32 to 2 GB and every legal alignment: header and block fit the least aligned stride, the cache is the most blocks up to 512 that 64 KB hold and none exactly if fewer than 4 fit, a flush takes a quarter of a full cache, a segment is the most blocks that 256 KB hold, or two batches if those are more |
| `Bits.MaskIsMod` | `Memory/SizeBin.h:88-108` | masking with 2^k - 1 is the remainder |
| `Bits.HighMaskRoundsDown` | `Memory/BlockLayout.h:46-49` | masking with the high bits of a word rounds down to a multiple |
| `Bits.PowerOfTwoIff` | `Memory/SizeBin.h:60-64` | the bit test succeeds exactly for powers of two |
| `PoolSetup.FindRange` | `Memory/TlsMemoryPool.cpp:48-78` | the smallest and largest configured size; fails exactly if one is zero |
| `PoolSetup.BuildTable` | `Memory/TlsMemoryPool.cpp:36-127` | which tables come out of which configurations, with every refusal |
| `PoolSetup.UsableIff` | `Memory/TlsMemoryPool.cpp:54-127` | a table with bins comes out if and only if the largest size is between 17 bytes and 2 GB over at most 24 powers of two; 9 to 16 gives a table without bins, up to 8 is refused |
| `PoolSetup.BuiltIsSound` | `Memory/TlsMemoryPool.cpp:95-127` | every bin of a built table is as `MakeBinSpecIsSound` says, which is what the upper tiers rely on |
| `PoolSetup.ServesUpToLargest` | `Memory/TlsMemoryPool.cpp:234-242` | a request is pooled exactly when it is at most the largest configured size rounded up to a power of two |
| `PoolSetup.Open` | `Memory/TlsMemoryPool.cpp:36-149` | an empty pool comes out exactly for the configurations that give a table: every bin in the initial state of the protocol, the layout charted, every size up to the largest configured one pooled |
| `MemoryLayout.EveryBlockIsWellPlaced` | `Memory/GlobalBlockPool.cpp:296-334` | in a charted layout every block, live or free, has an aligned payload inside one segment of its bin or inside its heap block, apart from every header and from every other payload |
| `MemoryLayout.WholesApart` | `Memory/GlobalBlockPool.cpp:296-334` | no two blocks share a byte, headers and padding included |
| `MemoryLayout.GrowthKeepsChart` | `Memory/GlobalBlockPool.cpp:356-428` | a segment VirtualAlloc maps on 64 KB granularity where nothing else lies, cut into blocks of its bin, keeps the layout charted |
| `MemoryLayout.SegmentIsAligned` | `Memory/GlobalBlockPool.cpp:396-399` | the 64 KB granularity of VirtualAlloc satisfies every admissible alignment |
| `MemoryLayout.HeapBlockFitsIff` | `Memory/TlsMemoryPool.cpp:336-357` | header and payload of an oversized block lie inside what the heap gave if and only if headerSize + size + alignment has not wrapped around size_t |
| `MemoryLayout.WrappedRequest` | `Memory/TlsMemoryPool.cpp:336-342` | a concrete size that wraps: 16 bytes are asked for, and the payload leaves them |
| `BlockPoolInvariants.BlocksHaveOnePlace` | `Memory/TlsMemoryPool.cpp:234-330` | over all runs of whole calls by any threads: every created block is in exactly one of a chunk, one cache or live and is marked LIVE exactly then; Acquire never returns a live block; a second Release changes nothing; no cache ends above its cap; acquires less releases are the live blocks (overlapping calls: `DoubleRelease`) |
| `DoubleRelease.OnePlaceUnlessOverlap` | `Memory/TlsMemoryPool.cpp:234-330` | over every interleaving of the single steps of Acquire, refill, grow, Release, Flush and thread exit in which no two Releases of a block overlap between reading its magic and storing FREE: every created block is in exactly one of a chunk, a list, a thread's hands or live; only free blocks are handed out; no list is above its cap; one thread at most is in the grow section |
| `DoubleRelease.SecondReadIff` | `Memory/TlsMemoryPool.cpp:275-299` | a Release reads LIVE: from then on every block stays in one place if and only if no other Release of that block has read LIVE and not stored FREE yet |
| `DoubleRelease.ReleasedTwice` | `Memory/TlsMemoryPool.cpp:275-299` | a concrete run of two overlapping Releases that leaves one block in two chunks of the store |
| `DoubleRelease.CountersAtRest` | `Memory/ThreadBlockCache.cpp:344-378` | over the same interleavings, with every thread out of the pool, acquires less releases over retired and attached caches are the live blocks |
| `DoubleRelease.PopFailsDespiteGrowth` | `Memory/GlobalBlockPool.cpp:181-217` | a concrete run in which growth is granted and PopChunk fails all the same, because another thread has taken the carved chunk |
| `GrowthYields.GrowthYieldsIff` | `Memory/GlobalBlockPool.cpp:181-217` | over every run, with the growth of a thread under the lock granted: it finds a chunk at its third pop in every continuation if and only if every other thread is waiting for that lock |
| `PoolCalls.AcquireAlone` | `Memory/TlsMemoryPool.cpp:234-262` | an Acquire no other step interrupts ends where the protocol of whole calls says, with or without a cache, a refill and a grow |
| `PoolCalls.ReleaseAlone` | `Memory/TlsMemoryPool.cpp:264-330` | so does a Release, into the thread's cache, into one attached for it, or without one |
| `PoolCalls.LeaveAlone` | `Memory/ThreadBlockCache.cpp:293-342` | and a thread exit |
| `BlockPoolInvariants.CalmAfterFlush` | `Memory/ThreadBlockCache.h:58-70` | after a flush caused by a push fewer than a batch of further operations never reach the global store |
| `BlockPoolInvariants.BatchPushesFlushAgain` | `Memory/ThreadBlockCache.cpp:97-129` | and with pushes only the batch-th one does, so the bound is exact |
| `BlockPoolInvariants.LengthsAreReal` | `Memory/ThreadBlockCache.h:41-70` | the list lengths the two statements count with are those of the caches |
| `PoolFinalize.FinalizeSeesEveryBlock` | `Memory/TlsMemoryPool.cpp:151-208` | through every attach, detach and release without a cache, the summed counters differ if and only if some pooled or bypass block is out |
| `GlobalBlockPool.GlobalBlockPool.constructor` | `Memory/GlobalBlockPool.cpp:64-101` | empty bins |
| `GlobalBlockPool.GlobalBlockPool.PushChunk` | `Memory/GlobalBlockPool.cpp:219-233` | the chunk is on top of its bin's stack, under the node in its first block's payload; whose bytes those are is `NodesAreApart` |
| `GlobalBlockPool.GlobalBlockPool.LinkRun` | `Memory/GlobalBlockPool.cpp:296-334` | a run of fresh blocks becomes one linked list, last block first, with free headers and nothing else changed |
| `GlobalBlockPool.GlobalBlockPool.CarveAndPush` | `Memory/GlobalBlockPool.cpp:296-334` | a segment is cut into linked chunks of a batch each, exactly its blocks become known, all free, the last chunk uppermost |
| `BlockMemory.CarvedSizes` | `Memory/GlobalBlockPool.cpp:300-326` | every chunk carved is a whole batch, but the last one, which takes what is left |
| `GlobalBlockPool.GlobalBlockPool.NotePopped` | `Memory/GlobalBlockPool.cpp:235-251` | the stock falls by the blocks taken, and the lowest stock seen falls to it exactly when it is lower |
| `GlobalBlockPool.GlobalBlockPool.RecordSegmentLocked` | `Memory/GlobalBlockPool.cpp:253-294` | segment list and both byte counts rise together, or nothing does |
| `GlobalBlockPool.GlobalBlockPool.GrowLocked` | `Memory/GlobalBlockPool.cpp:356-428` | runtime growth leaves a pool that was within its limit within it, and with memory and list at hand it is refused only where it would pass the limit; initial growth is not held to it; the segment is recorded and its blocks become known, or stock, segments and byte counts stay; blocks made, grows, failures and limit hits are counted |
| `GlobalBlockPool.GlobalBlockPool.PopChunk` | `Memory/GlobalBlockPool.cpp:181-217` | uninterrupted: takes the top chunk, growing first when there is none, within the limit, and comes back with nothing exactly when an empty bin does not grow: for the limit, VirtualAlloc or the list; then it has been one undisturbed grow of `CommitLimit`; when another thread can make it fail is `GrowthYieldsIff` |
| `GlobalBlockPool.GlobalBlockPool.CommittedIsInitial` | `Memory/GlobalBlockPool.cpp:264-288` | the byte counts the pool keeps are a start of the protocol of concurrent growth, so its theorems hold of the runs from there |
| `CommitLimit.AloneRuns` | `Memory/GlobalBlockPool.cpp:356-428` | a grow nobody interrupts is a run of the protocol that adds one segment to the bin and the pool if it is within the limit and the system gives it, and nothing otherwise |
| `GlobalBlockPool.GlobalBlockPool.Preallocate` | `Memory/GlobalBlockPool.cpp:167-179` | initial growth is not held to the limit |
| `ThreadBlockCache.ThreadBlockCache.Refill` | `Memory/ThreadBlockCache.cpp:79-95` | an empty list takes over the chunk the store gives up |
| `ThreadBlockCache.ThreadBlockCache.FlushOne` | `Memory/ThreadBlockCache.cpp:97-129` | the first batch of the list becomes the top chunk, order kept |
| `ThreadBlockCache.ThreadBlockCache.Flush` | `Memory/ThreadBlockCache.cpp:97-129` | one batch, or the whole list batch by batch, moves to the store and nothing is lost |
| `ThreadBlockCache.ThreadBlockCache.FlushAll` | `Memory/ThreadBlockCache.cpp:131-141` | every list is empty and every block is in the store |
| `ThreadBlockCache.ThreadBlockCache.Pop` | `Memory/ThreadBlockCache.h:41-54` | hands out the head of the list, refilled first when empty |
| `ThreadBlockCache.ThreadBlockCache.Push` | `Memory/ThreadBlockCache.h:58-70` | the block heads the list; above the cap a batch moves to the store |
| `TlsMemoryPool.TlsMemoryPool.constructor` | `Memory/TlsMemoryPool.cpp:109-149` | every bin starts in the initial state of the bin protocol, the layout charted |
| `TlsMemoryPool.TlsMemoryPool.Preallocate` | `Memory/TlsMemoryPool.cpp:119-141` | exactly the protocol's preallocation of that bin, past the commit limit; the layout stays charted |
| `TlsMemoryPool.TlsMemoryPool.GetOrCreate` | `Memory/ThreadBlockCache.cpp:241-291` | a thread's first use attaches one empty cache and no bin's other state changes |
| `TlsMemoryPool.TlsMemoryPool.AcquireFrom` | `Memory/TlsMemoryPool.cpp:246-261` | on linked memory exactly the protocol's Acquire of that bin, other bins unchanged |
| `TlsMemoryPool.TlsMemoryPool.Acquire` | `Memory/TlsMemoryPool.cpp:234-262` | a block that was not live, of the smallest bin that fits, now live and marked so; or one from the heap above the largest bin; or nothing, with nothing live changed, exactly for size 0, for a thread without a cache that gets none, when neither its list nor the store has a block and the bin does not grow, or when the heap gives nothing; the payload is aligned, has at least `size` bytes inside one segment or heap block, and meets no header and no other payload; the bin takes the protocol's Acquire with the thread's own cache, made first if there was none, and no other bin changes otherwise |
| `TlsMemoryPool.TlsMemoryPool.LiveOfAcquire` | `Memory/TlsMemoryPool.cpp:234-262` | the protocol's Acquire adds exactly the block it hands out to the live ones |
| `TlsMemoryPool.TlsMemoryPool.LiveIsPlaced` | `Memory/TlsMemoryPool.cpp:234-262` | and every live block keeps such a place as long as it is out |
| `TlsMemoryPool.TlsMemoryPool.NodesAreApart` | `Memory/GlobalBlockPool.cpp:219-233` | the node of every stored chunk lies in the payload of a block that is not live; its bytes meet no header and no other block's payload |
| `TlsMemoryPool.TlsMemoryPool.ReleaseInto` | `Memory/ThreadBlockCache.h:58-70` | on linked memory exactly the protocol's Release, other bins unchanged |
| `TlsMemoryPool.TlsMemoryPool.ReleaseUncached` | `Memory/TlsMemoryPool.cpp:313-325` | a release without a cache makes a chunk of one block and is counted centrally |
| `TlsMemoryPool.TlsMemoryPool.Release` | `Memory/TlsMemoryPool.cpp:264-330` | uninterrupted: the bin takes the protocol's Release into the thread's cache, made first if there was none, and the release past it exactly when none can be had; an oversized block goes back to the heap; a second release, a damaged mark and another pool's block change nothing; for overlapping releases see `SecondReadIff` |
| `TlsMemoryPool.TlsMemoryPool.Detach` | `Memory/ThreadBlockCache.cpp:293-342` | a leaving thread's blocks go to the store and its counters stay in the sums: exactly the protocol's detach for every bin, the layout still charted |
| `TlsMemoryPool.TlsMemoryPool.AcquireBypass` | `Memory/TlsMemoryPool.cpp:336-362` | an oversized block gets an aligned payload behind a header of its own and changes no bin; the layout stays charted if the byte count has not wrapped around |
| `TlsMemoryPool.TlsMemoryPool.ReleaseBypass` | `Memory/TlsMemoryPool.cpp:364-369` | it goes back with its header and its bytes and changes no bin |
| `PoolPicture.MarkTells` | `Memory/TlsMemoryPool.cpp:264-290` | the mark in a pooled block's header says exactly whether it is live |
| `PoolPicture.LiveIsNotHeld` | `Memory/TlsMemoryPool.cpp:234-330` | a live block is in no chunk and no cache |
| `PoolPicture.CachedIsNotStored` | `Memory/ThreadBlockCache.cpp:79-129` | a cached block is in no chunk, in no other cache, and only once there |
| `CommitLimit.CommittedIsBounded` | `Memory/GlobalBlockPool.cpp:253-294` | over every interleaving of grows of different bins committed bytes and grows in flight stay within max(initial, limit + all runtime segments but the smallest), and the pool total equals the bins' sum whenever no grow is between its two counts |
| `CommitLimit.LimitHoldsIff` | `Memory/GlobalBlockPool.cpp:356-428` | every run stays within max(initial, limit) if and only if at most one bin has room for a segment at the start |
| `CommitLimit.SerialFromStart` | `Memory/GlobalBlockPool.cpp:356-428` | with growth serialised across bins runtime growth never takes the pool above max(initial, limit) |
| `CommitLimit.LimitCanBeExceeded` | `Memory/GlobalBlockPool.cpp:356-428` | a concrete run of two bins that meets the ceiling, above the limit |

## Left out

- SessionRecycle.RecycleIsSafe: speaks of runs whose leases were all handed out clean and in which a thread without a unit counts one only while somebody answers for the session; it is false of others, and `HandoutIsWellIffClean` and `UnheldSendIsWellIff` have the exact conditions for each hand-out and each such send.
- SessionRecycle.GoodbyesMatchHellos: holds of the same runs; it is false of others, and `HandoutIsWellIffClean` has the exact condition for each hand-out.
- BackpressureInvariants.NothingIsStranded: within one lease, without a cancel and without a failed post; a session reset while it is still in the ready queue is not modelled.
- ReceivePipeline.JobsFollowStream: every packet becomes a job; system packets, which the handler answers itself, and a job that cannot be allocated are not modelled.
- SendPathInvariants.NothingIsStranded: requires that no send has failed and no cancel was raised, see `StrandedByShortage`.
- SendCode.ClientSession.TrySendNext: the loop of the source has no bound; it is followed for a given number of rounds, which other threads' packets can use up.
- ReceiveCode.ClientSession.PostReceiveOrPause: the refused BeginIO and the failed WSARecv, after which the session is released, are not among its branches; the lease is one without a cancel.
- ReceiveCode.ClientSession.ResumeReceive: likewise without the failed WSARecv.
- ReceiveCode.ClientSession.HandleRecv: the zero-byte completion and the bad header, which release the session, and the exhausted packet pool are not among its branches; the last is part of `ReceiveLoop.HandleRecv`.
- ReceiveCode.ClientSession.WorkerTurn: the drain loop has no bound; it is followed for a given number of jobs, which producers can use up.
- TlsMemoryPool.TlsMemoryPool.Acquire: the pool's methods run one at a time, interleavings are those of `PoolSteps`, which is about one bin; the corruption check on a popped block is not a branch of the class, because a block on a list is always marked free. Above the largest bin the layout is promised only for sizes whose byte count does not wrap around.
- TlsMemoryPool.TlsMemoryPool.AcquireBypass: where the byte count has wrapped around, the header is taken to meet no known block.
- TlsMemoryPool.TlsMemoryPool.Release: runs uninterrupted; the two plain accesses to the magic are apart in `PoolSteps`. A bin index above the table that is not the heap's mark is excluded.
- GlobalBlockPool.GlobalBlockPool.PopChunk: runs uninterrupted; the steps in between are those of `PoolSteps`.
- BlockPoolInvariants.BlocksHaveOnePlace: is about whole calls; about single steps it is false, and `SecondReadIff` has the exact condition.
- ReadySessionQueue.ReadySessionQueue.TryPop: the wait on the condition variable and the stop flag of Pop are outside.
- SendPacketQueue.SendPacketQueue.Reset: returns the entries in order; the packet and the callback of each are those of `BroadcastProtocol`.
- GlobalBlockPool.GlobalBlockPool.NotePopped: its compare-and-swap loop is one update.
- AcceptCode.IOCPServer.HandleAccept: ends at the DecrementIO of the accept session; the accepted socket, the per-address limit and the lease that follows do not concern the slot.
- Weak memory: sequential consistency is assumed throughout.
- Winsock, completion ports, CancelIoEx, VirtualAlloc, HeapAlloc and fiber-local storage are nondeterministic steps or parameters.
- WaitForIOCancelComplete: its event, its wait slices and its time-out; what it may conclude from a count of zero is `ZeroBehindGateIsFinal`, what repeated cancels can still meet is `StragglersOnlyShrink`.
- That every lease is released in the end: HandleAccept returns after attaching a socket when the next AcceptEx cannot be posted.
- DisconnectAllSessions, StartServer, StopServer, heartbeat, watchdog, connection policy and statistics.
- Handler table, authentication, system packets, IOCPClient and WaitDequeueJob.
- TlsMemoryPool::Initialize after `Open`: adding up the preallocation of configurations that share a bin, and taking everything down when one of them fails; the preallocation of a bin is `Preallocate`.
- GlobalBlockPool::Finalize: walking the segment list to unmap it; the decision whether to is `FinalizeSeesEveryBlock`.
- The cache registry's slot mask and generations: a thread finds its own cache, or none.
- 32-bit wrap-around of m_ioCount and of the statistics counters; sizes and addresses are 64-bit where overflow is possible (`AlignUpSize`).
- SlabMemoryPool, which the thread-local pool has replaced.
