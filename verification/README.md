# A verified model of simpwire's TCP node

simpwire is a small asynchronous TCP library.  A node runs three worker threads
(listen, connect, send) over one peer map, two queues and a handful of atomic
flags, behind a data mutex D, a callback mutex C and three condition variables.
Sockets reach it only through an abstract interface.

Two models say what the node does, and a third module joins them.

* **Critical sections** (`NodeState` and the modules over it).  One action is one
  critical section of D, or one lock-free step of the connect thread.  Socket and
  system-call answers, map iteration orders and installed callbacks come in with
  the action, so a run is any interleaving with any environment.  The state holds
  the peer map, both queues, the listener, the connect thread's local variables
  and a history: events, sockets made and freed, bytes per wire, requests.
  `TcpNode.TcpNodePrivate` is the node as an object with the source's fields; each
  method is proved to take the machine's step of the same name.  `PeerPrivate.Peer`
  is the peer record.
* **Locks** (`Protocol` and the modules over it).  Every thread has a program
  counter; a step is one lock operation, one atomic write or one piece of work
  between them.  Any number of user threads call the node at any time.
* **Both together** (`Coupling` and the `Joint` modules).  A move of a thread carries
  the action on the data that the source makes there.

Beside them `SocketState` and `SocketObject.Socket` give the default socket as a
state machine and as an object, and `DefaultNode` runs the node over default
sockets with only the kernel's answers open.  `SendLoop`, `ConnectRetry` and
`ListenerFlags` hold the loops and flags that are best seen alone.  `Effects` and
`CallSteps` say what each step does with the arguments of the call and the answers of
the environment, and `CallHistory` traces the calls through whole runs.

`dafny verify dfyconfig.toml` checks everything.

## Main results

* Deadlock: a circle of waits exists exactly when the listen thread wants D back
  at line 336 while it holds C and the owner of D wants C.  Such a state is
  reachable, it lasts for ever, and none is reached in a run in which no
  stopped-listening callback is found at line 332, nor without the re-lock.
* Listen requests: if the listen thread sleeps with listening enabled and no
  listener, the request fell between its branch tests and line 340.  That does
  happen; a change request, or a stop, is never slept through.
* Listener flags: two passes settle them from any reachable top of the loop, and
  the second is needed exactly when a change is pending while listening is
  disabled and the listener opens.  A settled listener that listens was opened with
  the port and IP version the last doListen of the run was called with.
* Peers: every peer goes through accepted or joined, data, one or more marks, one
  end with the kind of the last mark, and nothing after it.  Ids are never reused.
  The user hears of a connection before its Connected exactly when a section or a
  send answers for the peer while the connect thread is about to announce it.
* Sockets: those made are those in the map, in flight, freed, or the listener,
  pairwise disjoint; each is freed at most once; every use hits a live one.
  setListener keeps these books exactly if it is given a socket the node never
  had.
* Sending: the buffers given to sendData are those handled followed by those
  pending, whole and in order of the calls; a wire carries the full concatenation
  exactly when every send was complete.  The eight-bit count in the loop does no harm.
* Connecting: the front is defined and fixed through a batch; every address tried is
  the one its connectTo call named, first attempts in order of the calls; whenever n
  requests are queued and none arrives, draining them takes n(n+1)/2 cycles.  A batch of q can make any number of connections up to q for its
  one request, and no more.
* Receiving: the order of the map does not matter, and with default sockets what
  arrives is an unchanged prefix of the peer's stream, and every unmarked peer's
  socket is connected.
* disconnectPeer closes that peer, and disconnectAll every peer, in as many passes as
  there were peers, with one end each; under fair scheduling those passes come after
  disconnectAll, unless the deadlock does.
* Shutdown: in every execution with fair scheduling the destructor ends with all
  threads joined, unless the deadlock above is hit; from every state on the way
  some run leads there; each thread does at most one more piece of work.
* Service: in every execution without destructor that is fair and never deadlocked,
  every buffer given at any moment is handled later in order, every connectTo
  is attempted and popped, and sections go on as long as a peer remains.
  Fair means that a thread which again and again owes a move it can make makes one;
  a user between calls and a worker with nothing to wake for owe none, so users may
  stop calling and workers may sleep.  Such executions exist.
* Both models: every run of the pair projects to a run of either, the two agree on
  peers, queues and where a connect batch stands, and the data change only under D, so that a
  critical section may be taken as one action.

## Where the code and its documentation disagree

The model follows the code.

* `connectTo` promises one connection.  A batch works on the front request once
  for every request that was queued and then pops one, so a request may connect
  several times: `ConnectOrigins.OneRequestTwoConnections` is a run with two, and
  `ConnectOrigins.ConnectionsIff` says how many are possible.
* `setReceiveBufferSize` promises to bound what `onReceive` delivers.  It reaches
  only the listener; peers keep 1024.  The promise is kept exactly for sizes of at
  least 1024 (`BufferSize.SizeIsKeptIff`).
* `sendData` promises to send a buffer.  A partially sent one is popped and its rest
  dropped: `PartialSends.RestIsDropped` is such a run, and
  `SendPipeline.FullExactlyWhenComplete` says when everything is sent.
* `onListenError` promises accept errors.  With default sockets there is none to
  report, since accept reads its own error number first
  (`DefaultNode.AcceptErrorNever`).
* A failed send never calls `onSendError`, but marks the peer only if that
  callback is installed (`SendPipeline.FailedSendIsNotTold`); an empty buffer counts
  as failed (`SendPipeline.EmptyBufferCountsAsFailed`).
* `listen` loses a descriptor for good exactly if it opens an address that cannot
  be made non-blocking and goes on to another (`SocketState.DescriptorsAreLostIff`,
  with an input in `SocketState.TwoAddressesLoseOne`).

## Model

| member | source | states |
|---|---|---|
| Deadlock.MutualExclusion | src/TcpNodePrivate.cpp:123-716 | two threads whose program counters lie in sections of the same mutex are one thread |
| Deadlock.StepKeepsLocks | src/TcpNodePrivate.cpp:281-677 | every step of every thread keeps program counters and mutex owners in agreement |
| Deadlock.LockOrder | src/TcpNodePrivate.cpp:328-337 | the only acquisition of D while holding C is the re-lock; nobody wants what it holds |
| Deadlock.DeadlockIffStuck | src/TcpNodePrivate.cpp:325-338 | some circle of waits exists if and only if the listen thread re-locks D holding C and the owner of D wants C |
| Deadlock.CycleIsStuck | src/TcpNodePrivate.cpp:328-337 | every circle of waits contains the listen thread at the re-lock |
| Deadlock.StuckForever | src/TcpNodePrivate.cpp:328-337 | from there neither thread ever moves and no step of another thread resolves it |
| Deadlock.StuckInEveryRun | src/TcpNodePrivate.cpp:328-337 | in every run from there the two threads never move again |
| Deadlock.NoRelockNoDeadlock | src/TcpNodePrivate.cpp:325-338 | with the re-lock taken out, no run from construction reaches a circle of waits |
| Deadlock.NoCallbackNoDeadlock | src/TcpNodePrivate.cpp:331-337 | as written, no run from construction in which the stopped-listening callback is never found at line 332 reaches a circle of waits |
| Deadlock.WaitingEnds | src/TcpNodePrivate.cpp:349-502 | outside the deadlock, a waiting thread can take its mutex or an owner of a mutex can move |
| Scenarios.DeadlockHappens | src/TcpNodePrivate.cpp:271-336 | the deadlock is reachable: listen, stop, and send to a missing peer during the stopped-listening callback |
| Scenarios.MissedDoListenHappens | src/TcpNodePrivate.cpp:123-136 | a doListen made during that callback is slept through |
| ListenRequests.EveryMissedRequest | src/TcpNodePrivate.cpp:286-342 | in every run: asleep with nothing to wake for means no listener and no pending change, and if listening is enabled, the last doListen wrote after the first branch test and its wake-up was wiped by line 340 |
| ListenRequests.ChangeIsServed | src/TcpNodePrivate.cpp:286-324 | a pending change is dropped only by the listen thread at the end of an opening |
| ListenRequests.LateRequestIsMissed | src/TcpNodePrivate.cpp:340-342 | an enabled flag that arrives before line 340 without a listener does put the thread to sleep |
| ListenRequests.ListenerSettles | src/TcpNodePrivate.cpp:286-342 | from the top of the loop in any reachable state with no doListen half-way, in every interleaving without listener requests, the flags are settled after two completed passes and stay so, and before that the pause predicate is true |
| ListenRequests.PassIsOnCourse | src/TcpNodePrivate.cpp:286-340 | each lock-by-lock step of a pass keeps the flags on course to what one undisturbed pass gives |
| ListenTarget.SettledOnTarget | src/TcpNodePrivate.cpp:123-136 | in every run from construction: settled, listening and no doListen half-way means opened with the port and IP version the last doListen of the run was called with |
| ListenTarget.ListenerReachesTarget | src/TcpNodePrivate.cpp:286-324 | without further requests two passes settle the listener, and if it listens, on the port and version the last doListen of the run was called with |
| ListenTarget.TargetIsLastAsked | src/TcpNodePrivate.cpp:123-136 | at the end of every run the port and version stored are those carried by the last first write and the last second write of a doListen in it |
| ListenTarget.DoListenIsAsked | src/TcpNodePrivate.cpp:123-136 | a doListen that runs alone has a run to its end, after which its port and version are stored, the node is enabled and woken, and a change is pending if it was or there is a listener |
| CallSteps.StopListeningSteps | src/TcpNodePrivate.cpp:228-236 | stopListening disables and then wakes exactly if the listen thread runs, and otherwise returns at once |
| CallSteps.SetListenerStep | src/TcpNodePrivate.cpp:836-850 | setListener leaves a listener that does not listen and asks for a change exactly if one was pending or listening is enabled |
| CallSteps.ConnectToStep | src/TcpNodePrivate.cpp:238-252 | connectTo adds one request, starts the connect thread if it was not running, and gives D up |
| CallSteps.SendDataStep | src/TcpNodePrivate.cpp:254-279 | sendData adds one buffer and starts the send thread, or without the peer adds none and goes for C with D held |
| CallSteps.StartSteps | src/TcpNodePrivate.cpp:507-516 | the listen thread is tested for without a mutex, started under D |
| CallSteps.OpenAndCloseSteps | src/TcpNodePrivate.cpp:289-340 | which flags an opening that succeeds, one that fails, a close and the clearing of the wake-up write, and no others |
| ListenRequests.PeersKeepItAwake | src/TcpNodePrivate.cpp:679-686 | a listen thread that is awake does not fall asleep in any run in which a peer remains |
| ListenerFlags.TwoPassesSettle | src/TcpNodePrivate.cpp:286-340 | two passes settle any consistent flags, a third changes nothing; one is not enough exactly if a change is pending while disabled and listen succeeds |
| Shutdown.ListenWindsDown | src/TcpNodePrivate.cpp:281-349 | once the destructor has begun each listen-thread step lowers a lexicographic rank whose first part allows one more section |
| Shutdown.SendWindsDown | src/TcpNodePrivate.cpp:609-677 | after its flag clears each send-thread step lowers a rank, and an entry popped is its last |
| Shutdown.ConnectWindsDown | src/TcpNodePrivate.cpp:518-607 | after its flag clears each connect-thread step lowers a lexicographic rank over batch, cycle, step and attempts: one more batch at most |
| Shutdown.AtMostOneMore | src/TcpNodePrivate.cpp:281-677 | in every run once told to end: at most one more listen section, one more send entry, one more connect batch |
| Shutdown.EveryLastWork | src/TcpNodePrivate.cpp:78-121 | the same for every run from construction and every continuation |
| Shutdown.OthersLeaveThreadsAlone | src/TcpNodePrivate.cpp:78-121 | after the destructor has begun no thread's progress is undone by another |
| Shutdown.ListenLetsGo | src/TcpNodePrivate.cpp:286-502 | while the listen thread holds a mutex each of its steps lowers the rank: it gives it up |
| Shutdown.OthersLetGo | src/TcpNodePrivate.cpp:123-279 | the same for users and the send thread; the connect thread gives a mutex up in its next step |
| Shutdown.NoDeadEnd | src/TcpNodePrivate.cpp:78-121 | until the destructor is done, outside the deadlock, the joined thread, the destructor or a mutex owner can move, and a joined thread's flag is clear |
| Shutdown.NoDeadEndInAnyRun | src/TcpNodePrivate.cpp:78-121 | the same at the end of every run from construction |
| FairShutdown.EveryJoinIsReached | src/TcpNodePrivate.cpp:78-121 | in every fair execution from construction in which a destructor has begun, it comes to its end with every worker ended or never started, or the threads get stuck at line 336 |
| FairShutdown.EveryRunCanFinish | src/TcpNodePrivate.cpp:83-111 | after every run from construction in which a destructor has begun, some continuation reaches its end, with every worker joined, or the deadlock |
| FairShutdown.FinishedRunIsFair | src/TcpNodePrivate.cpp:83-111 | such a continuation followed by rest is a fair execution, so there are fair executions with a destructor |
| FairShutdown.NobodyMovesAfterwards | src/TcpNodePrivate.cpp:78-121 | once the destructor is done no thread can move |
| FairShutdown.AwaitedMoves | src/TcpNodePrivate.cpp:89-109 | outside the deadlock, under fairness, the thread a join waits for moves again |
| Liveness.EverythingQueuedIsServed | src/TcpNodePrivate.cpp:518-677 | in every fair execution without destructor and deadlock, users calling or not, as many entries as are queued at any moment are handled or popped later |
| Liveness.ServedOrStuck | src/TcpNodePrivate.cpp:518-677 | without a destructor all that is queued is served, or the threads get stuck at line 336 |
| Liveness.NextPop | src/TcpNodePrivate.cpp:602-623 | a worker with something queued pops it after finitely many of its own steps |
| Fairness.RestIsFair | src/TcpNodePrivate.cpp:679-700 | a run after which no thread owes a move it can make, followed by rest, is a fair execution |
| FairScenarios.FairServiceHappens | src/TcpNodePrivate.cpp:238-252 | a fair execution without destructor and deadlock: one connectTo, its request queued and then popped, and from some moment on nobody moves |
| ListenLiveness.SectionsGoOn | src/TcpNodePrivate.cpp:342-504 | in every fair execution without destructor and deadlock, from any moment on and for every m, the listen thread, started or not, ends m more sections unless a moment without peers comes first |
| ListenLiveness.ListenStarts | src/TcpNodePrivate.cpp:507-516 | if there are peers and no listen thread yet, the user about to start it does |
| JointLiveness.EveryBufferIsHandled | src/TcpNodePrivate.cpp:609-677 | in every such execution with data, the buffers given to sendData by any moment for peers then in the map are at a later one exactly those handled, unchanged and in the order of the calls |
| JointLiveness.EveryRequestIsPopped | src/TcpNodePrivate.cpp:518-607 | and the requests of all calls of connectTo made by any moment are tried and popped at a later one |
| JointLiveness.ClosingComesToAnEnd | src/TcpNodePrivate.cpp:464-500 | once every peer is being closed and none comes in, a moment comes at which none is left and each was told closed exactly once |
| JointLiveness.DisconnectAllEnds | src/TcpNodePrivate.cpp:712-723 | the same from a call of disconnectAll |
| JointScenarios.FairServiceHappensWithData | src/TcpNodePrivate.cpp:238-252 | such an execution with data exists: one request queued, and popped later |
| JointScenarios.DeadlockHappensWithData | src/TcpNodePrivate.cpp:271-336 | the deadlock is reached by a run of threads and data together |
| JointScenarios.MissedDoListenHappensWithData | src/TcpNodePrivate.cpp:123-136 | and so is the doListen that is slept through |
| JointScenarios.MoveHasAction | src/TcpNodePrivate.cpp:123-716 | every move of the lock model that asks nothing of peers that may not exist can be made with the action the source makes there |
| Fairness.OwnersMove | src/TcpNodePrivate.cpp:349-502 | outside the deadlock, under fairness, whoever owns a mutex moves again |
| JointRuns.EveryJointRun | src/TcpNodePrivate.cpp:123-716 | every run of both models together is a run of each, keeps the invariants of each, and ends with both agreeing on peers, queues and the connect thread's place |
| Coupling.StepKeepsSound | src/TcpNodePrivate.cpp:349-716 | every move with its action keeps both invariants and the agreement |
| JointRuns.ChangesNeedMutex | src/TcpNodePrivate.cpp:123-716 | whoever changes the peer map, a queue or the listener holds the data mutex |
| JointRuns.HeldDataStay | src/TcpNodePrivate.cpp:349-502 | in every run in which the mutex's holder does not move, it keeps the mutex and the data stay as they are |
| JointRuns.SleepsOnlyWithoutWork | src/TcpNodePrivate.cpp:679-700 | the listen thread falls asleep only with an empty map, the connect and send threads only with empty queues |
| JointRuns.ConnectIsInStep | src/TcpNodePrivate.cpp:518-607 | wherever the connect thread acts, the data allow that action whatever is answered, so front and pop never meet an empty deque |
| JointRuns.SectionIsAllowed | src/TcpNodePrivate.cpp:349-502 | whatever a section accepts, receives and erases, the lock model has a step for it |
| NodeRuns.EveryRun | src/TcpNodePrivate.cpp:123-820 | every run from construction keeps all invariants below, and no peer's event order is ever broken |
| NodeRuns.StepKeepsInv | src/TcpNodePrivate.cpp:254-677 | each action keeps ids, event order, socket ledger, send pipeline and connect queue |
| PeerLife.IdsKept | src/TcpNodePrivate.cpp:361-370 | keys equal ids, are valid, between 1 and the counter, and issued in increasing order |
| NodeRuns.NewIdsAreFresh | src/TcpNodePrivate.cpp:580-590 | a peer that appears has a number no node used before |
| PeerLife.OrderIsKept | src/TcpNodePrivate.cpp:353-500 | where the events put each peer is where the node has it, after every action |
| PeerStories.AcceptedComesFirst | src/TcpNodePrivate.cpp:372-378 | no event of an accepted peer comes before its Accepted |
| PeerStories.NoDataAfterMark | src/TcpNodePrivate.cpp:397-400 | after a mark neither Received nor Sent of that peer occurs |
| PeerStories.TheEndIsTheEnd | src/TcpNodePrivate.cpp:464-500 | a peer ends at most once and nothing of it follows |
| PeerStories.EndHasLastMarkKind | src/PeerPrivate.cpp:111-115 | the end's kind is that of the last scheduleDelete before it |
| PeerStories.LatestIsLastInserted | src/TcpNodePrivate.cpp:797-818 | the greatest key is the most recently inserted peer that survives |
| PeerStories.ExistsIsMembership | src/TcpNodePrivate.cpp:744-758 | _peerExists is membership in the map |
| LateConnected.ConnectedIsLateIff | src/TcpNodePrivate.cpp:579-597 | in every run from construction the user hears of a connection before its Connected if and only if, between inserting and announcing it, a section receives from the peer or erases it or a send to it takes bytes, with the callback installed |
| LateConnected.StepTells | src/TcpNodePrivate.cpp:395-500 | a step tells of a peer exactly if the environment answers for it there, and only the announcement tells Connected |
| LateConnected.QuietWindowIsSafe | src/TcpNodePrivate.cpp:591-596 | in every run from construction whose waits for the announcement see no section and no send, the user does not hear of the peer before Connected |
| LateConnected.SectionCanAnswer | src/TcpNodePrivate.cpp:395-428 | wherever an unmarked peer waits to be announced, a section can receive from it first |
| LateConnected.DataMayPrecedeConnected | src/TcpNodePrivate.cpp:579-597 | from every new node a run that delivers data of a peer before its Connected |
| SocketLedger.LedgerIsKept | src/TcpNodePrivate.cpp:357-370 | each action keeps: sockets made are those in the map, in flight, freed and the listener, disjoint, freed without repetition, one per peer |
| SocketLedger.ReplaceKeepsLedgerIff | src/TcpNodePrivate.cpp:836-850 | setListener keeps the books if and only if the socket it is given is none the node ever had |
| SocketLedger.SameListenerIsFreedTwice | src/TcpNodePrivate.cpp:840-843 | given the listener it has, the node keeps a freed listener and frees it again at the next change |
| SocketLedger.UsesAreLive | src/TcpNodePrivate.cpp:643-644 | a peer's socket pointer is non-null and live |
| SocketLedger.OwnersAreLive | src/TcpNodePrivate.cpp:836-850 | in-flight sockets and the listener are live, and the live sockets are exactly those owned |
| SocketLedger.DestructorLeavesPeerSockets | src/TcpNodePrivate.cpp:118-120 | the destructor's tail marks every peer, frees the listener for the first time, and leaves exactly the sockets of the peers still in the map alive for ever |
| NodeRuns.LedgerBalances | src/TcpNodePrivate.cpp:536-590 | sets and numbers balance: one socket for each peer, none freed twice |
| NodeRuns.DisconnectAllDrains | src/TcpNodePrivate.cpp:712-723 | after disconnectAll, in any run without inserts, as many passes as peers empty the map and tell each peer closed exactly once and nothing else |
| Disconnecting.DisconnectPeerCloses | src/TcpNodePrivate.cpp:702-710 | after disconnectPeer of a peer in the map, in any run without inserts, as many passes as peers make it go; since the call nothing was told of it but such marks and, last, exactly one end of that kind |
| Effects.DisconnectPeerEffect | src/TcpNodePrivate.cpp:702-710 | that record is marked as disconnected by us and the mark noted; every other record, both queues and all else stay; without the peer nothing changes |
| Effects.DisconnectAllEffect | src/TcpNodePrivate.cpp:712-723 | every record is so marked, each once, and nothing else of it changes |
| ReceiveSweep.SweepOrderIrrelevant | src/TcpNodePrivate.cpp:395-461 | two iteration orders end in the same map, marks and messages and the same events of each peer |
| ReceiveSweep.SweepVisitsEachOnce | src/TcpNodePrivate.cpp:395-461 | a walk's whole effect on a peer is one visit, in whatever order |
| ReceiveSweep.FirstMarkedFinds | src/TcpNodePrivate.cpp:464-467 | a peer to delete is found exactly if one is marked |
| Effects.AcceptEffect | src/TcpNodePrivate.cpp:353-392 | an accepted connection is one new record under the next number with the address, port and host name the socket gives, unmarked, and Accepted is told of it; without one, an error is told exactly if there is a number and a callback |
| Effects.SweepEffect | src/TcpNodePrivate.cpp:397-460 | answer by answer, what one visit does to a record, which kind and message it gets and what is told |
| Effects.DeleteEffect | src/TcpNodePrivate.cpp:464-500 | the first marked record of the walk is erased, its socket freed and its end told with its kind and message; without one nothing changes |
| Effects.OpenEffect | src/TcpNodePrivate.cpp:289-323 | an opening tells the port or the message with the error number, if there is a callback |
| Effects.DigitsDenote | src/TcpNodePrivate.cpp:725-742 | numbers in messages are decimal digits without leading zero that denote them |
| SendPipeline.PipelineIsKept | src/TcpNodePrivate.cpp:623-669 | each action keeps: accepted equals handled then pending; wires are the in-order concatenation of prefixes; one fate and one note for each handled buffer |
| SendPipeline.WireIsBounded | src/TcpNodePrivate.cpp:644-655 | no wire gets more bytes than its buffers hold, and as many exactly when all were complete |
| SendPipeline.FullExactlyWhenComplete | src/TcpNodePrivate.cpp:644-669 | a wire equals the full concatenation if and only if every send to that peer was complete |
| SendPipeline.FailedSendIsNotTold | src/TcpNodePrivate.cpp:656-669 | a send fails exactly if the socket takes nothing; then no send error is told, and the peer is marked exactly if the callback is installed |
| SendPipeline.EmptyBufferCountsAsFailed | src/TcpNodePrivate.cpp:656-666 | an empty buffer is handled as a failed send and marks its peer exactly if the error callback is installed |
| PartialSends.RestIsDropped | src/TcpNodePrivate.cpp:644-669 | from every new node a run in which one byte of two reaches the wire, the buffer is handled and nothing is pending |
| CallHistory.AcceptedAreGiven | src/TcpNodePrivate.cpp:254-279 | in every run the buffers accepted are those given to sendData for peers in the map at that moment, whole and in the order of the calls |
| CallHistory.WireIsGiven | src/TcpNodePrivate.cpp:623-669 | in every run from construction the buffers handled and then those pending are those given; a wire is what its socket took of them, and the whole of what was given for the peer and handled exactly if every send was complete |
| Effects.SendDataEffect | src/TcpNodePrivate.cpp:254-279 | for a peer in the map the whole buffer is queued last; for any other nothing, and the message names address and port |
| Effects.SendOneEffect | src/TcpNodePrivate.cpp:623-669 | the four fates of the front buffer: what goes on the wire, what is told, which record is marked and with which message, and that nothing else changes |
| SendLoop.EightBitsRefineExact | src/TcpNodePrivate.cpp:613-623 | every run of the loop with the eight-bit count is matched by a run with the exact count, ending with the same queue and handled buffers |
| SendLoop.StepMatches | src/TcpNodePrivate.cpp:695-700 | one step of the eight-bit loop is one step of the exact one, or none |
| SendLoop.NeverStallsWithWork | src/TcpNodePrivate.cpp:616-623 | the thread falls asleep only with an empty queue, having handled all that was accepted in order |
| ConnectQueue.QueueIsKept | src/TcpNodePrivate.cpp:522-605 | each action keeps: the queue is what arrived less what was popped, and the cycles run are those the batch lengths prescribe |
| ConnectQueue.FrontIsDefinedAndFixed | src/TcpNodePrivate.cpp:537-540 | in a batch the deque is not empty and its front does not change until the pop |
| ConnectQueue.FirstAttemptsAreFifo | src/TcpNodePrivate.cpp:534-604 | requests are attempted in order of arrival, each before it is popped |
| ConnectQueue.PoppedRanQueueLength | src/TcpNodePrivate.cpp:525-534 | a popped request ran as many cycles as the queue was long when its batch began |
| ConnectQueue.DrainingIsKept | src/TcpNodePrivate.cpp:522-525 | from any point on, without arrivals, each new batch is as long as what is left |
| ConnectQueue.EveryDrain | src/TcpNodePrivate.cpp:522-605 | whatever the node did before and other threads do meanwhile: draining n queued requests without arrivals runs the one at position i exactly n less i cycles, n(n+1)/2 in all |
| ConnectQueue.FirstDrain | src/TcpNodePrivate.cpp:534-604 | for a node's first drain these are all the cycles ever run |
| CallHistory.ArrivedAreCalled | src/TcpNodePrivate.cpp:238-252 | in every run the requests that arrive are the addresses of its connectTo calls, in the order of the calls |
| CallHistory.AttemptsAreCalls | src/TcpNodePrivate.cpp:537-555 | in every run from construction each cycle tries the address a connectTo call named, calls are first tried in call order, what is queued is named by the calls not yet popped, and each popped was tried |
| Effects.ConnectToEffect | src/TcpNodePrivate.cpp:238-252 | the address is queued last and nothing else of the node changes |
| Effects.BatchEffect | src/TcpNodePrivate.cpp:524-534 | a batch is as long as the queue, or none begins |
| Effects.CycleEffect | src/TcpNodePrivate.cpp:536-560 | the front address is tried on the new socket; success wins, an error number or the end of the time loses, anything else tries again |
| Effects.LostEffect | src/TcpNodePrivate.cpp:562-576 | a lost attempt frees its socket, goes on with the next cycle and tells address, port and error number if there is a callback |
| Effects.WonEffect | src/TcpNodePrivate.cpp:579-591 | a won attempt inserts one record under the next number with the address, port and host name the socket gives and that socket, unmarked |
| Effects.AnnounceEffect | src/TcpNodePrivate.cpp:593-598 | Connected is told of that number if there is a callback |
| Effects.PopEffect | src/TcpNodePrivate.cpp:602-604 | the front is popped and the batch ends |
| ConnectOrigins.EveryRequest | src/TcpNodePrivate.cpp:534-600 | in every run from construction a request makes at most as many connections as its batch was long |
| ConnectOrigins.ConnectionsIff | src/TcpNodePrivate.cpp:534-604 | some run to the end of a batch of q makes exactly m connections for its request if and only if m is at most q |
| ConnectOrigins.OneRequestTwoConnections | src/TcpNodePrivate.cpp:534-604 | from every new node a run in which one request makes two connections and is popped |
| ConnectOrigins.OriginsAreKept | src/TcpNodePrivate.cpp:542-591 | each action keeps: a request's connections and the cycle under way are among its cycles |
| ConnectRetry.TryConnect | src/TcpNodePrivate.cpp:542-560 | the retry loop ends within max(1, ceil(timeout/sleep)) attempts; all but the last failed without error number and in time; the last alone decides |
| ConnectRetry.MostAttempts | src/TcpNodePrivate.cpp:556-560 | the bound is the least positive number of sleeps that reaches the timeout |
| ConnectRetry.SleepsAddUp | src/TcpNodePrivate.cpp:551-557 | n sleeps of at least the nominal time add up to at least n times it |
| ConnectRetry.LoopEndsCycle | src/TcpNodePrivate.cpp:562-591 | as steps of the node the loop ends in a won connection exactly if the last attempt succeeded, even if time was up |
| TcpNode.TcpNodePrivate.constructor | src/TcpNodePrivate.cpp:48-76 | a new node is an initial state of the machine, with all invariants and settled flags |
| TcpNode.TcpNodePrivate.DoListen | src/TcpNodePrivate.cpp:123-136 | enables and wakes; asks for a change exactly if there is a listener |
| TcpNode.TcpNodePrivate.StopListening | src/TcpNodePrivate.cpp:228-236 | disables and wakes, if the listen thread runs, and otherwise does nothing |
| TcpNode.TcpNodePrivate.SetListener | src/TcpNodePrivate.cpp:836-850 | the machine's step for any socket, old or new; asks for a change exactly if listening is enabled |
| TcpNode.TcpNodePrivate.ConnectTo | src/TcpNodePrivate.cpp:238-252 | queues the address last |
| TcpNode.TcpNodePrivate.SendData | src/TcpNodePrivate.cpp:254-279 | queues the buffer for an existing peer, or reports that there is none |
| TcpNode.TcpNodePrivate.DisconnectPeer | src/TcpNodePrivate.cpp:702-710 | marks that peer and no other |
| TcpNode.TcpNodePrivate.DisconnectAll | src/TcpNodePrivate.cpp:712-723 | marks every peer once, in any order of iteration |
| TcpNode.TcpNodePrivate.LatestPeer | src/TcpNodePrivate.cpp:797-818 | returns a copy of the most recently inserted surviving peer, or an invalid one exactly if there is none |
| TcpNode.TcpNodePrivate.OpenListener | src/TcpNodePrivate.cpp:289-323 | the opening section: flags and events as listen answers, no change pending any more |
| TcpNode.TcpNodePrivate.CloseListener | src/TcpNodePrivate.cpp:327-337 | the closing section: no listener any more, told if a callback is there |
| TcpNode.TcpNodePrivate.AcceptNext | src/TcpNodePrivate.cpp:353-392 | the accept part of a section, replacing no record |
| TcpNode.TcpNodePrivate.SweepOne | src/TcpNodePrivate.cpp:397-460 | what one visit does to a record and tells, asking only a live socket |
| TcpNode.TcpNodePrivate.Sweep | src/TcpNodePrivate.cpp:395-461 | the receive loop, in any order of iteration |
| TcpNode.TcpNodePrivate.DeleteFirst | src/TcpNodePrivate.cpp:464-500 | erases the first marked record in the order of iteration, frees its socket and tells its end, or changes nothing |
| TcpNode.TcpNodePrivate.ListenSection | src/TcpNodePrivate.cpp:349-502 | the whole section is one step of the machine |
| TcpNode.TcpNodePrivate.SendFront | src/TcpNodePrivate.cpp:623-670 | handles and pops the front buffer, with a live socket under the unchecked pointer |
| TcpNode.TcpNodePrivate.ReadQueueLength | src/TcpNodePrivate.cpp:524-534 | begins a batch of the queue's length, or none |
| TcpNode.TcpNodePrivate.CreateSocket | src/TcpNodePrivate.cpp:536 | a new socket is in flight |
| TcpNode.TcpNodePrivate.ReadFront | src/TcpNodePrivate.cpp:537-540 | reads the front of a deque that is not empty |
| TcpNode.TcpNodePrivate.AttemptOnce | src/TcpNodePrivate.cpp:549-560 | one turn of the retry loop on a live socket |
| TcpNode.TcpNodePrivate.GiveUp | src/TcpNodePrivate.cpp:562-576 | reports and frees the socket of a lost attempt |
| TcpNode.TcpNodePrivate.AddConnected | src/TcpNodePrivate.cpp:579-591 | inserts the connection under a new number |
| TcpNode.TcpNodePrivate.Announce | src/TcpNodePrivate.cpp:593-598 | tells Connected and ends the cycle |
| TcpNode.TcpNodePrivate.PopFront | src/TcpNodePrivate.cpp:602-604 | pops a deque that is not empty and ends the batch |
| TcpNode.TcpNodePrivate.DestructorTail | src/TcpNodePrivate.cpp:118-120 | marks every peer, erases none, frees the live listener |
| PeerPrivate.Peer.Copy | src/PeerPrivate.cpp:67-79 | a copy equals the original in every field |
| PeerPrivate.Peer.Set | src/PeerPrivate.cpp:94-104 | sets number, address, port and host name and nothing else |
| PeerPrivate.Peer.ScheduleDelete | src/PeerPrivate.cpp:111-115 | marks with the given kind and nothing else |
| PeerPrivate.Peer.DestroySocket | src/PeerPrivate.cpp:137-145 | hands back the pointer freed and forgets it, so a second call frees nothing |
| SocketState.FlagsFit | src/Socket.cpp:125-365 | over every call sequence: listener and listening agree, never with connected, and either has a descriptor |
| SocketState.WalkSucceedsWithDescriptor | src/Socket.cpp:169-248 | listen succeeds exactly if some address works, and then has a descriptor |
| SocketState.DescriptorsAreLostIff | src/Socket.cpp:169-248 | over every call sequence, what was closed and is held is among what was opened, and all of it unless some listen goes on from an address that opens and blocks |
| SocketState.WalkLosesIff | src/Socket.cpp:169-206 | the same for one walk over addresses |
| SocketState.TwoAddressesLoseOne | src/Socket.cpp:193-200 | a two-address input on which listen succeeds and a descriptor stays open even after close |
| SocketState.CloseRests | src/Socket.cpp:359-366 | close brings a socket to rest after any calls |
| SocketState.NeverListens | src/Socket.cpp:411-422 | a socket never told to listen is never called a listener by receive |
| SocketState.AcceptedIsConnected | src/Socket.cpp:368-409 | accept yields a socket exactly on a listener with a connection, and it is connected and no listener |
| SocketState.ConnectOpens | src/Socket.cpp:267-357 | connect answers true exactly on a settled handshake over a non-blocking descriptor, and leaves an open socket over that descriptor; otherwise one at rest with the number of the system |
| SocketState.AcceptOpens | src/Socket.cpp:368-409 | an accepted socket is open over the descriptor the system gave; the listener stays as it is |
| SocketState.ListenOpens | src/Socket.cpp:125-265 | listen holds the descriptor of the first address that works and listens at the port |
| SocketState.ListenFails | src/Socket.cpp:125-265 | on port 0, without a resolution or without an address that works it answers false and does not listen |
| SocketState.OpenReceives | src/Socket.cpp:411-490 | an open socket hands on data, silence and end of stream and stays open; a failure closes it and leaves the number |
| SocketState.OpenSends | src/Socket.cpp:492-520 | an open socket reports the amount the kernel took, or nothing and the number |
| SocketState.ClosedDoesNothing | src/Socket.cpp:411-520 | without a connection nothing is received or sent |
| SocketState.ReadNeedsStore | src/Socket.cpp:775-794 | in every run a non-zero number read was stored immediately before, so none is read twice |
| SocketState.NumbersComeWithoutText | src/TcpNodePrivate.cpp:725-742 | asking for the number consumes it, so the text asked for next is empty |
| SocketState.ListenErrorMessage | src/TcpNodePrivate.cpp:296-299 | the message of a failed listen has the number if there is one, and no text; on port 0 a number left over |
| SocketState.ConnectErrorMessage | src/TcpNodePrivate.cpp:550-572 | the message of a failed connect has no number |
| SocketState.AcceptLeavesNoErrno | src/Socket.cpp:389-405 | a failed accept leaves no error number |
| SocketState.ChunksReassemble | src/Socket.cpp:411-490 | chunks are non-empty, fit the buffer and concatenate to the next stretch of the stream, whatever else is called |
| SocketObject.Socket.Listen | src/Socket.cpp:125-265 | gives the state and answer of the state machine, and the descriptors opened and closed |
| SocketObject.Socket.Walk | src/Socket.cpp:165-248 | the loop over addresses ends with the descriptor, answer and descriptors opened and closed that the walk prescribes |
| SocketObject.Socket.Connect | src/Socket.cpp:267-357 | the same for connect, closed again on failure |
| SocketObject.Socket.Close | src/Socket.cpp:359-366 | the same for close |
| SocketObject.Socket.Accept | src/Socket.cpp:368-409 | the same for accept, with the new socket a fresh object |
| SocketObject.Socket.Receive | src/Socket.cpp:411-490 | the same for receive; without OK the caller's data is untouched |
| SocketObject.Socket.Send | src/Socket.cpp:492-520 | the same for send; never more than offered |
| SocketObject.Socket.GetLastErrno | src/Socket.cpp:775-780 | returns the number and clears it |
| SocketObject.Socket.GetLastErrnoString | src/Socket.cpp:723-753 | returns the text of the number and clears it |
| SocketObject.Socket.CreateErrorMessage | src/TcpNodePrivate.cpp:725-742 | the message built from a default socket |
| DefaultNode.RunsAreRuns | src/TcpNodePrivate.cpp:820-823 | every run over default sockets is a run of the node |
| DefaultNode.StepKeepsSound | src/TcpNodePrivate.cpp:349-502 | each step keeps: only the listener listens, each connection has its own socket, and what sockets took in is what was told |
| DefaultNode.EveryDefaultRun | src/TcpNodePrivate.cpp:402-428 | in every run the bytes told of a connection are all its socket took in, in order |
| DefaultNode.StreamsArriveUnchanged | src/TcpNodePrivate.cpp:419-428 | Received events carry 1 to 1024 bytes each, whatever setReceiveBufferSize was told, and add up to a prefix of the peer's stream |
| BufferSize.SizeIsKeptIff | src/TcpNodePrivate.cpp:788-795 | Received events carry at most n bytes in every run that first sets the size to n if and only if n is at least 1024 |
| BufferSize.LargeChunk | src/TcpNodePrivate.cpp:788-795 | for every n a run that sets the size to n and then tells of 1024 bytes at once |
| DefaultNode.KernelDecidesTheMark | src/TcpNodePrivate.cpp:402-460 | what recv said decides the mark of every unmarked peer: end of stream means disconnected themself, failure means faulty with the number and no text and a closed socket, data is told unchanged, anything else leaves the peer, and nobody is found unconnected |
| DefaultNode.PeersAreConnected | src/TcpNodePrivate.cpp:402-444 | in every run the socket of every unmarked peer, and the one whose connect has just succeeded, is open |
| DefaultNode.KernelDecidesTheSend | src/TcpNodePrivate.cpp:643-655 | what a send to an unmarked peer reports is what the kernel took |
| DefaultNode.NoPeerIsAListener | src/TcpNodePrivate.cpp:436-442 | no pass of any run marks a peer as a listener |
| DefaultNode.AcceptErrorNever | src/TcpNodePrivate.cpp:380-391 | the accept-error branch is never taken |

## Left out

- System calls, name resolution, address text, Winsock and the Windows branches: foreign; their results are answers handed in.
- TCP's in-order delivery (section 2.2 of RFC 9293): assumed of the kernel in the two stream results.
- Notifications missed because `stopListening` and the destructor notify without D: evaluating a pause predicate and blocking is one step, and a blocked thread may always look again.
- Two users racing in `_startListenThreadIfNotRunning`: doListen and connectTo do not overlap.  The other thread starts are under D and need no such assumption.
- Calls made on a node whose destructor has begun, or calls still under way when it begins: the destructor starts when every user is idle, and no call starts afterwards.
- User callbacks that call back into the node.
- Overflow of the 64-bit connection counter; real time beyond each sleep lasting at least its nominal time.
- Runs in which setListener is given a socket the node already had: exactly these break the socket ledger, so every-run results leave them out; in the lock model the socket given is not listening.
- TcpNode.TcpNodePrivate.ReconfigureListener: is one undisturbed pass; how its lock-by-lock steps interleave with users is the subject of `ListenRequests`.
- Freeing memory: sockets are handles into sets of made and freed ones, because Dafny references cannot be freed; the connection counter is an object all nodes share.
- DefaultNode.StreamsArriveUnchanged: peers' sockets after their deletion are kept in the store but never called again.
- FairShutdown.EveryJoinIsReached, like the results of Liveness, ListenLiveness and JointLiveness: assumes of the scheduler that a thread which again and again owes a move it can make does move (strong fairness, so that no mutex is handed past a waiting thread for ever, and a sleeper whose predicate holds is woken), of callbacks and sleeps that they end, and of each connect attempt loop that it is bounded (`ConnectRetry.TryConnect`).
- Coupling: the listener's flags live in the lock model alone; that the two agree on peers, queues and the connect thread is what is proved.
- Freeing the peers left at destruction: the code does not do it (`SocketLedger.DestructorLeavesPeerSockets`).
- `allPeers`, `isListening`, `listenPort`, timeouts and other getters and setters, `TcpNode.cpp`, `Peer.cpp`, the demo and the test suite: forwarding or user interface.
