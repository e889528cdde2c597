# Socket engine: model and proofs

An asynchronous socket engine keeps a set of sockets and a set of buffers in two recyclable lists,
posts overlapped operations on them, and serves the completions of those operations with worker
threads. This project models the engine in Dafny and proves what it keeps over whole runs, where it
falls short of its intent, and exactly when.

## How the model is built

- `Manager.SocketManager` and `RecyclableList.CriticalRecyclableList` are classes: the handlers change
  sockets, buffers, queue and map in place, as the source does. Every method is proved to do to the
  abstract state what the function of the same name in `Engine` says.
- `Engine.World` is that abstract state. Every public call and every handled completion is one step
  (`World.Step`); the answers of the operating system are arguments, so a statement about all
  arguments is a statement about all outcomes. The lists hold `Socket` and `Buffer` records by value, as
  `std::list` does, and a pointer to an element is the number of its node. `World.faults` counts
  releases of something not live and accesses to memory that was given back; `World.log` lists every
  lock taken and released.
- Six modules look at single protocols at the grain of critical sections and unlocked accesses:
  `SendPath`, `Delivery`, `AcceptChain`, `Cleanup` and `Deadlock` with any number of threads, `Registration`
  with a caller and whatever handles its connection. `Shutdown` does so for
  the end of the workers, and `TimeWait` for the length of the reuse queue.
- A run is *clean* (`Completions.Clean`) when closes end, the option call that follows a connection
  succeeds (or, for an accept, fails together with the first receive), the first receive on a connecting
  socket is accepted, and the user does not use an id whose socket's memory was given back.
  For the option call and the first receive `Limits` proves that the condition is exact. Runs ask that
  every close ends, which is more than is needed; `Limits.AbandonedIff` says which closes matter.
- `Outcasts` is about all runs, clean or not: what is left behind stays behind.
- `Engine.World.forgets` is false of the source. With it true the model is a variant whose successful
  disconnect also erases the socket's id; `Forgetting` proves what that erase would buy.
- `SourceNames` says of the source itself, over every clean run, when every stored id names its own live
  socket; `Names` looks at single connections and accepts.
- `Admission`, `Openings`, `Endings` and `Outcomes` say field by field what sends, calls that make sockets,
  completions and errors leave: records, map, queue, lists, operations in flight and returned values.
- `Lifetimes` runs a client and a server through their lives: the clean runs are not empty.

## What the code does that its documentation does not say

- `SendData` copies every chunk from the start of `data`, with `strncpy`: what reaches the peer is the
  input exactly when the input repeats every 4096 bytes and has no byte after a NUL in its first chunk
  (`Chunking.WireIsInputIff`).
- The documented send limit holds in every run exactly when at most one thread sends on a socket
  (`SendPath.DocumentedLimitIff`); while calls do not overlap it always holds (`EngineRuns.RunsAreSound`,
  `Admission.AdmitsIff`).
- A recycled buffer keeps the length of its last use. The buffer of a connection or an accept is posted with
  that length, and so is the connection's first receive (`Openings.ConnectOutcome`,
  `Openings.AcceptCallOutcome`, `Openings.ConnectedOutcome`).
- A refused disconnect leaves its buffer in the list (`Endings.TeardownBuffers`), and a connection that is
  retried gives its handle up without closing it (`Openings.RetriedRecord`).
- A connecting socket whose first receive is refused is removed twice; if its option call fails, or
  that of an accepted socket whose first receive was accepted, a receive stays in flight on a released
  buffer (`Limits.ConnectSoundIff`, `Limits.AcceptSoundIff`).
- A close that is reported as still in progress leaves the socket in the list for ever
  (`Limits.AbandonedIff`, `Strays.AbandonedForEver`). So does a bind option refused on a new socket
  (`Strays.ConnectLeavesIff`, `Strays.ListenLeavesIff`, `Strays.LeftForEver`). A connection that fails and
  is not retried leaves its socket in the list for ever, out of the map (`Strays.FailedConnectLeavesIff`,
  `Strays.FailedConnectForEver`), and an accept that fails leaves the socket it was to fill there, ACCEPTING
  (`Strays.FailedAcceptForEver`).
- A connection can be torn down twice, and its socket released twice. Where a disconnect fails even a lone
  worker tears down twice, releasing once (`Cleanup.FailedDisconnectCleansTwice`), so only a connection that
  no worker serves is never torn down twice (`Cleanup.NeverTwiceIff`). Some run has more than one teardown
  beside those for failed disconnects, and some run releases the socket twice, exactly when a worker shares the socket with another thread, be it a
  second worker or one that sends: a sender past its unlocked test of the state can still post while a worker
  has decided to tear down (`Cleanup.CleanedOnceIff`, `Cleanup.ReleasedOnceIff`). A second teardown releases
  the socket again exactly when the first one closed it (`Limits.SecondTeardownIff`). For the same reason a
  socket can wait in the reuse queue with a write of its last connection still counted on it: some run does
  so exactly when a worker shares the socket with another thread (`Cleanup.ReuseIsCleanIff`).
- ACCEPTING is stored after `AcceptEx` is called, without the lock, and can overwrite CONNECTED. It does
  so exactly when a handler that picked the socket up has stored CONNECTED since the socket was last
  generated (`AcceptChain.OverwritesSinceIff`; `AcceptChain.OverwritesIff` for any run); the user's thread and one worker
  are enough (`AcceptChain.NeverOverwritesIff`). Such a socket, if it is sending nothing, is then never torn
  down unless its first receive is empty or the callback closes it (`Strays.LateStoreOverwrites`, `Strays.OverwrittenIff`,
  `Strays.OverwrittenForEver`; `Lifetimes.ALateStoreOverwrites` is an instance).
- A refused receive on a connected socket leaves a critical section that was never entered; no other
  branch breaks the lock discipline (`LockDiscipline.HandleReadHoldsIff`).
- The id of a disconnected socket stays in the map and later names a socket with another id, or one that
  was removed. Over a clean run every stored id names its own live socket throughout if and only if no step
  does one of four things (`SourceNames.SourceIsFaithfulIff`): a connection attempt, made by a call, a
  callback or a retry, takes a socket with an id from the reuse queue; an accept the system refuses has taken
  one; an accept picks up a socket with an id; or a retry stops short, after which its id keeps naming the
  removed socket. `Names.ConnectKeepsNamesIff`, `Names.AcceptKeepsNamesIff` and
  `SourceNames.RetryKeepsNamesIff` are the conditions for single operations. With the missing erase added only
  the last of the four is left (`Forgetting.VariantIsFaithfulIff`).
- The id of a new connection is stored after the connection is posted. A worker that gets ahead makes the
  user's id name a removed socket for ever: if the socket is torn down, or retried, before its id is stored,
  or retried with an id read before it was set (`Registration.RightIff`). While
  retries reach their end it happens in no run exactly when the socket is registered before its connection is
  posted (`Registration.AlwaysRightIff`).
- While a recycled socket is connecting, `isSocketInitialising` says no, and the documentation tells the
  user to discard it (`Queries.QueriesMean`).

## Model

| member | source | states |
|---|---|---|
| `EngineRuns.RunsAreSound` | SocketManager.cpp:136-256 | In every state of every clean run: no socket or buffer was released twice; each socket's counters and pending bytes equal the operations in flight on it, and the pending bytes lie between 0 and 65536; CONNECTED has exactly one receive in flight; CLOSING and FAILURE have some operation in flight; every operation names a live socket and a live, unpooled buffer of 1 to 4096 bytes; registered sockets are found under their id; sockets waiting for reuse have nothing pending |
| `EngineRuns.StepKeeps` | SocketManager.cpp:136-313 | Every clean step keeps the invariant; on a draining socket it handles exactly one operation fewer remains or the teardown happens; draining sockets it does not handle keep their operations and state; a socket becomes CONNECTED only through a completed connect or accept |
| `EngineRuns.DrainsOneByOne` | SocketManager.cpp:136-225 | Over any clean run a draining socket loses exactly one operation with each of its completions and errors, gains none, and stays live and draining while any is left |
| `EngineRuns.LastTearsDown` | SocketManager.cpp:172-179 | The step that handles a draining socket's last operation tears it down: it is gone, or parked with its disconnect pending |
| `Lifetimes.AClientLives` | SocketManager.cpp:591-653 | A concrete clean run: connect, close by the peer, disconnect, rest, and a new connection on the same socket with a new id |
| `Lifetimes.AServerLives` | SocketManager.cpp:687-741 | A concrete clean run: listen, one accepted connection receiving, and the next accept outstanding |
| `Lifetimes.ALateStoreOverwrites` | SocketManager.cpp:682-684 | In the state that run reaches, a late store of ACCEPTING by the thread that listened gives the state `Strays.OverwrittenIff` starts from |
| `EngineRuns.FailNotConnected` | SocketManager.cpp:136-181 | After a failed operation its socket is gone or not connected |
| `Completions.CompleteRead` | SocketManager.cpp:227-256 | A completed receive, with any callback, keeps the invariant; on a draining socket it is the last operation, which tears the socket down, or leaves one fewer |
| `Completions.CompleteWrite` | SocketManager.cpp:258-273 | The same for a completed send, full or short |
| `Outcomes.WriteOutcome` | SocketManager.cpp:258-273 | A send completing on a connected socket gives back exactly its bytes and its buffer; the socket stays connected if the send was complete and fails if it was short; its receive stays in flight |
| `Endings.WriteEnds` | SocketManager.cpp:258-273 | A completed send, on a connected, closing or failed socket: its bytes and its count are given back; the socket fails exactly if it was short; and if nothing is left in flight on a socket that is no longer connected it is disconnecting, if it was closing and fewer than 30 are queued, or else closed, unlisted and out of the map |
| `Endings.WriteReleases` | SocketManager.cpp:258-273 | A completed send releases one buffer; one is made if a disconnect is tried |
| `Outcomes.ReadOutcome` | SocketManager.cpp:236-247 | A receive with data leaves its socket connected if and only if the callback left it connected and the next receive is accepted; that receive uses the same buffer at full size |
| `Endings.ReadEnds` | SocketManager.cpp:236-247 | What a receive with data leaves, from the end of the callback on: posted again at full size exactly if the socket is still connected and the system accepts; failed if it refuses; ended if nothing is in flight on a socket that is no longer connected |
| `Endings.EmptyReadEnds` | SocketManager.cpp:248-255 | An empty receive stores CLOSING whatever the state was, and ends the socket if nothing else is in flight |
| `Endings.ReadReleases` | SocketManager.cpp:236-247 | A receive keeps its buffer exactly if it is posted again |
| `Endings.EmptyReadReleases` | SocketManager.cpp:248-255 | An empty receive releases its buffer |
| `Endings.TransferSpares` | SocketManager.cpp:227-273 | A completed send or empty receive changes no socket but its own |
| `Endings.ReadSpares` | SocketManager.cpp:236-247 | Nor does the end of a receive with data, the callback aside |
| `Openings.CallbackClosesIff` | SocketManager.cpp:236-239 | A connected socket is CLOSING when its callback ends if and only if the callback closed it; otherwise it is connected or failed |
| `Completions.CompleteConnect` | SocketManager.cpp:275-313 | A completed connect whose option and first receive succeed ends CONNECTED with one receive in flight |
| `Openings.ConnectedOutcome` | SocketManager.cpp:275-313 | Its exact record, its first receive, posted into the connection's buffer at that buffer's length, and the unchanged map |
| `Openings.NotStartedOutcome` | SocketManager.cpp:293-313 | A connection whose first receive or option call fails: the buffer is released and the socket closed, abortively if lingering could be switched off, unlisted and out of the map; a receive that was accepted stays in flight |
| `Completions.CompleteAccept` | SocketManager.cpp:284-313 | A completed accept, next accept included, keeps the invariant unless the option fails while the receive is accepted; the socket it was waiting to fill is connected when its first receive is accepted |
| `Outcomes.AcceptOutcome` | SocketManager.cpp:284-313 | A completed accept whose connection starts: the exact record of the socket, connected under a new id that names it; its receive in the accept's buffer; the listener as it was; and the next accept outstanding if and only if no system call refused it |
| `Outcomes.AcceptsIff` | SocketManager.cpp:655-685 | An accept is posted on the listener if and only if no system call it needs refuses |
| `Openings.AcceptCallOutcome` | SocketManager.cpp:655-685 | An accept that no system call refuses: the socket taken, its record, the queue, the accept posted on the listener into a new buffer, and the socket recorded as the awaited one |
| `Openings.RefusedAcceptOutcome` | SocketManager.cpp:655-685 | One that is refused: no operation and no id; the socket it took or made is deleted, and is still recorded as the awaited one if the accept call itself was refused |
| `Completions.CompleteDisconnect` | SocketManager.cpp:315-329 | A completed disconnect keeps the invariant and spares every other socket |
| `Outcomes.DisconnectOutcome` | SocketManager.cpp:315-329 | A completed disconnect puts its socket, disconnected as of now, at the end of the queue, releases its buffer, and tears nothing down |
| `Completions.FailTransfer` | SocketManager.cpp:157-180 | A failed send or receive keeps the invariant; a draining socket loses one operation or is torn down |
| `Outcomes.FailOutcome` | SocketManager.cpp:157-180 | A failed send or receive gives back exactly its own count and bytes; its socket is in FAILURE if operations remain and removed if none does |
| `Endings.ErrorEnds` | SocketManager.cpp:136-181 | Any failed operation but a connection: its own count and bytes are given back, its socket fails, and ends if nothing is left in flight |
| `Endings.FailedOtherEnds` | SocketManager.cpp:168-179 | A failed accept ends the listener, and a failed disconnect the socket that was to be reused: closed without a handle, abortively if lingering could be switched off, unlisted and out of the map; the buffer is released |
| `Endings.FailedConnectEnds` | SocketManager.cpp:151-155 | A failed connection, other than for an address in use, leaves its socket listed as it was, in CONNECT_FAILURE, and takes its id out of the map |
| `Endings.ErrorReleases` | SocketManager.cpp:180 | Whatever operation failed, retries included, its buffer is released |
| `Endings.ErrorSpares` | SocketManager.cpp:136-181 | An error that is not retried changes no socket but its own |
| `Completions.FailOther` | SocketManager.cpp:144-156 | A failed connect, accept or disconnect keeps the invariant, the retry on another socket included |
| `EngineSteps.UserCallKeeps` | SocketManager.h:98-111 | Every public call, made from outside or from the callback, keeps the invariant, the counters of draining sockets and every buffer in someone's hands, and connects nothing |
| `EngineSteps.ReceiveDataKeeps` | SocketManager.cpp:236-239 | Whatever finite sequence of calls the callback makes, the socket it was given stays live, with its operations accounted for |
| `EngineSteps.ConnectKeeps` | SocketManager.cpp:591-653 | Whatever system call refuses, a connection attempt keeps the invariant and yields nil with no new id, or the id of a live socket with one connect pending |
| `Openings.ConnectOutcome` | SocketManager.cpp:591-653 | A connection attempt that no system call refuses: the socket is the rested head of the queue or a new one; its record, id, map entry, queue, lists and the posted connection, exactly |
| `Openings.NoConnectOutcome` | SocketManager.cpp:591-653 | One that is refused returns nil and posts and registers nothing |
| `Openings.RefusedOutcome` | SocketManager.cpp:591-653 | What it leaves in list and queue: the socket taken or made is gone, unless it is new and its options were refused |
| `Openings.RetriedRecord` | SocketManager.cpp:149-151 | The memory of a retried socket: RETRY_CONNECTION and without a handle, which was not closed |
| `EngineSteps.AcceptKeeps` | SocketManager.cpp:655-685 | The same for an accept: it leaves exactly one accept outstanding, for a live ACCEPTING socket that is the current one, or none |
| `EngineSteps.ListenDuring` | SocketManager.cpp:687-741 | Listening keeps the invariant at every refused call |
| `Openings.ListensIff` | SocketManager.cpp:687-741 | A call to listen returns an id if and only if the manager is a server's and READY and no system call up to and with the first accept refuses; the id is then new, stored, and names a live new socket in LISTENING that carries it, with one accept in flight, and the manager is SERVER_LISTENING; otherwise it is nil and nothing is registered or posted |
| `EngineSteps.SendDataKeeps` | SocketManager.cpp:19-48 | A send, refused at any chunk or at none, keeps the invariant and the buffers others hold |
| `Admission.AdmitsIff` | SocketManager.cpp:20-26 | A live socket admits a send if and only if it is connected and the bytes pending and to be sent are 65536 at most |
| `Admission.SendOutcome` | SocketManager.cpp:19-48 | A send that is admitted posts the chunks before the refused one, in order, in as many new buffers, counts and budgets them, and fails the socket exactly if one was refused; one that is not admitted changes nothing |
| `Admission.SendToOutcome` | SocketManager.h:110 | A send through an id does so to the socket the id names, and nothing if it names none |
| `Admission.OwnSendOutcome` | SocketManager.cpp:19-48 | A send from the callback does so to the callback's socket |
| `Admission.SendToAllOutcome` | SocketManager.h:111 | Sending to all: each listed socket that admits the data gets exactly the chunks before its refused one, and its record changes by them; no other socket changes and nothing else is posted |
| `Admission.SendToAllCall` | SocketManager.h:111 | The call sends to all listed sockets |
| `Admission.AdmittingIsCount` | SocketManager.h:111 | The count returned is the number of listed sockets that admit |
| `EngineSteps.GenerateKeeps` | SocketManager.cpp:492-512 | A generated socket is nobody else's: it has no operation in flight and is not queued |
| `Limits.AbandonedIff` | SocketHelperClasses.cpp:84-122 | A teardown leaves its socket in the list, draining with nothing in flight, exactly when it does not park it and the close is reported in progress |
| `Strays.ConnectLeavesIff` | SocketManager.cpp:529-532 | A connection attempt leaves a new live ASSOCIATED socket with no id and no operation if and only if the socket is new, association succeeds and an option is refused |
| `Strays.ListenLeavesIff` | SocketManager.cpp:687-720 | Listening leaves such a socket if and only if the socket is made, its port converted, associated, and an option is refused |
| `Strays.LeftForEver` | SocketManager.cpp:529-532 | A socket left so by a call stays in the list, unchanged, through every run |
| `Strays.FailedConnectLeavesIff` | SocketHelperClasses.cpp:44-55 | A socket whose connection failed stays in the list, in CONNECT_FAILURE and with its id out of the map, if and only if the failure is not an address in use |
| `Strays.FailedConnectForEver` | SocketHelperClasses.cpp:44-55 | It then stays there, with nothing in flight, through every run, clean or not |
| `Strays.FailedAcceptForEver` | SocketManager.cpp:168-179 | After a failed accept the socket that was to be accepted stays in the list, ACCEPTING and with nothing in flight, through every run, clean or not |
| `Strays.AbandonedForEver` | SocketHelperClasses.cpp:84-122 | A socket abandoned by a teardown stays in the list, draining, through every run |
| `Outcasts.OutcastForEver` | SocketManager.cpp:136-256 | A live socket that is not connected, not queued, without operations and not about to be accepted is never touched again, in any run, clean or not |
| `Strays.OverwrittenIff` | SocketManager.cpp:236-247 | A socket marked ACCEPTING after its connection and sending nothing is left behind by its receive if and only if the receive carries data and the callback does not close it |
| `Strays.OverwrittenForEver` | SocketManager.cpp:213-247 | It then stays in the list, ACCEPTING and idle, through every run |
| `Strays.LateStoreOverwrites` | SocketManager.cpp:682-684 | In every state of the invariant, storing ACCEPTING into a connected socket that is sending nothing gives the state `Strays.OverwrittenIff` starts from |
| `Limits.ConnectSoundIff` | SocketManager.cpp:293-313 | Handling a completed connect leaves a sound state if and only if the option call and the first receive both succeed |
| `Limits.AcceptSoundIff` | SocketManager.cpp:284-313 | Handling a completed accept leaves a sound state if and only if the option call succeeds or the first receive is refused |
| `Limits.SecondTeardownIff` | SocketManager.cpp:213-224 | A second teardown of the same socket releases it again if and only if the first one closed it |
| `Cleanup.NeverLeftBehind` | SocketManager.cpp:183-225 | In every interleaving of any number of workers and senders, each unlocked test and each critical section one step, a connection with nothing in flight and nobody at work has been torn down, and no counter is negative |
| `Cleanup.CleanedOnceIff` | SocketManager.cpp:168-224 | In every run a connection is torn down at most once, and once more for each disconnect that fails, if and only if no worker shares it with another thread, worker or sender |
| `Cleanup.FailedDisconnectCleansTwice` | SocketManager.cpp:168-179 | With any worker a concrete run in which the disconnect fails tears the connection down twice and releases it once |
| `Cleanup.NeverTwiceIff` | SocketManager.cpp:168-224 | No run tears a connection down twice if and only if no worker serves it |
| `Cleanup.ReleasedOnceIff` | SocketHelperClasses.cpp:55-59 | In every run, whatever disconnect or close fails, its socket is released at most once if and only if no worker shares it with another thread |
| `Cleanup.SenderInBetween` | SocketManager.cpp:19-48 | One worker and one sender past its test of the state tear the connection down twice and release it twice, in a concrete run |
| `Cleanup.BothClean` | SocketManager.cpp:213-224 | Two workers with the last read and the last write tear the connection down twice and release it twice, in a concrete run |
| `Cleanup.ReuseIsCleanIff` | SocketManager.cpp:315-329 | A socket that waits in the reuse queue is disconnected, not released, and has no operation counted on it, at every moment of its wait in every run, if and only if no worker shares it with another thread |
| `Cleanup.QueuedWithWrite` | SocketManager.cpp:90-113 | With one worker and one sender a concrete run queues the socket while a write of its last connection is counted on it |
| `Cleanup.LeftOn` | SocketManager.cpp:227-273 | In every interleaving, before and after the socket is queued, both counters are zero exactly when no read or write is in the port or in the hands of a worker that has not accounted for it |
| `Teardown.TeardownContract` | SocketHelperClasses.cpp:17-82 | Every teardown ends parked with one disconnect pending, closed and gone from list and map, deleted with the map untouched, erased from the map only, or not closed; which one is given by state, room in the queue and the system's answers; nothing else is touched |
| `Teardown.TeardownKeeps` | SocketHelperClasses.cpp:17-82 | A teardown of a socket without operations keeps the invariant |
| `Endings.TeardownOutcome` | SocketHelperClasses.cpp:17-82 | The teardown of a closing, failed or listening socket whose calls end: parked, under its id, with one disconnect posted, if and only if it is closing, fewer than 30 are queued and the disconnect is accepted; otherwise closed, unlisted and out of the map, abortively exactly where it failed, listened, was refused the disconnect, or its shutdown failed |
| `Endings.HangOutcome` | SocketHelperClasses.cpp:84-122 | The record of a socket whose close stays in progress: listed, out of the map, in FAILURE if its disconnect was refused |
| `Endings.TeardownBuffers` | SocketHelperClasses.cpp:62-82 | A teardown makes a buffer exactly if it tries a disconnect; a refused one leaves it listed |
| `Endings.DeleteOutcome` | SocketHelperClasses.cpp:4-15 | Deleting a connected or failed socket closes its handle if the calls end, abortively if it failed or its shutdown did; any other is left as it was; no other record changes |
| `LockDiscipline.TeardownHolds` | SocketHelperClasses.cpp:17-82 | On every path of the mutual recursion the socket's lock is released as often as it is taken |
| `LockDiscipline.HandleReadHoldsIff` | SocketManager.cpp:227-256 | Handling a receive keeps the lock discipline if and only if it is not a refused receive on a connected socket |
| `LockDiscipline.HandleErrorHolds` | SocketManager.cpp:136-181 | Only a retry nests socket locks, and only on a replacement nobody else can name; every other error takes the failed socket's lock alone |
| `LockDiscipline.StepHolds` | SocketManager.cpp:136-313 | Every other step takes a socket's lock before any container's, never two containers' locks, and ends holding nothing |
| `Guards.StepGuarded` | SocketManager.cpp:136-313 | Every step, in any state and whatever the system answers, that changes the socket list, the buffer list, the map or the reuse queue takes the lock that guards it |
| `Deadlock.HandlersObey` | SocketManager.cpp:136-313 | The lock programs of all the engine's steps but the refused receive obey the discipline, with a second socket only for a retry |
| `Deadlock.StepsBegin` | SocketManager.cpp:136-313 | Each of those steps may begin on a free thread of the deadlock model; only a retry asks that the connection it retries is pending |
| `Deadlock.InnermostRuns` | SocketHelperClasses.cpp:48-54 | A thread that holds a container's lock, or two locks, waits for nobody |
| `Deadlock.ChainsEnd` | SocketManager.cpp:141-177 | Of threads waiting in a row, the fourth waits for nobody |
| `Deadlock.NeverDeadlocked` | SocketManager.cpp:136-181 | In every interleaving of any number of threads, no group of threads waits only for each other |
| `Takings.TakenOnce` | SocketManager.cpp:492-512 | However several threads take turns at the reuse queue and at the socket list, no socket is handed out twice, while in another thread's hands, or with a connection pending |
| `SendPath.RunsConserve` | SocketManager.cpp:50-115 | In every interleaving the counters and the byte budget equal what is posted and not accounted for, none is negative, and an idle socket has no pending byte and no transfer in flight |
| `SendPath.OverlappingSendersBound` | SocketManager.cpp:19-48 | With T threads sending, pending plus admitted bytes never exceed T times the limit |
| `SendPath.OverlappingSendersTight` | SocketManager.cpp:20-48 | For every T some interleaving leaves T times the limit pending |
| `SendPath.DocumentedLimitIff` | SocketManager.cpp:23-26 | Pending bytes stay within the documented limit in every run if and only if at most one thread sends |
| `Chunking.ChunkLensCover` | SocketManager.cpp:29-46 | ceil(length / 4096) chunks of 1 to 4096 bytes; the first k make up the first 4096 k bytes; all together make up the length |
| `Chunking.SendAccounts` | SocketManager.cpp:29-46 | A chunk refused at position i leaves exactly the first i chunks posted and accounted and the socket in FAILURE; none refused leaves all of them and the state as it was |
| `Chunking.SendPending` | SocketManager.cpp:107-111 | The byte budget grows by the length, or by 4096 for each chunk before the refused one |
| `Chunking.WireIsInputIff` | SocketManager.cpp:29-46 | The bytes handed to the system are the input if and only if the input repeats every 4096 bytes and its first chunk has no byte after a NUL |
| `Chunking.WireAt` | SocketManager.cpp:33-34 | Every byte handed over comes from the first chunk |
| `Chunking.AdvancingSendsInput` | SocketManager.cpp:29-46 | With the pointer advanced and memory copied the chunks concatenate to the input |
| `Chunking.SendOneOfAll` | SocketManager.h:111 | Sending to one listed socket does not change which others admit the data |
| `Chunking.SendToAllSpares` | SocketManager.h:111 | Sockets not listed, not connected or without room are left as they were |
| `Delivery.DeliveredInOrder` | SocketManager.cpp:227-256 | However the system splits the stream and whichever workers serve, the callback never overlaps itself, at most one read is with the system, and the delivered blocks are a prefix of the peer's stream, short of what was read only by the block on its way |
| `Delivery.InOrderIff` | SocketManager.cpp:240-247 | With two workers or more, delivery is in order in every run if and only if at most one read is posted |
| `AcceptChain.EachAcceptedOnce` | SocketManager.cpp:284-292 | After one listen, in every interleaving: at most one accept is outstanding; the current socket is the one passed to it until a handler reads it; the sockets picked up are the sockets filled, in order, each once |
| `AcceptChain.LateOverwrites` | SocketManager.cpp:682-684 | With two threads some run leaves a served socket marked ACCEPTING |
| `AcceptChain.OverwritesSinceIff` | SocketManager.cpp:293 | In any run that generates a socket only when no thread has yet to mark it ACCEPTING, the store overwrites CONNECTED if and only if a handler stored CONNECTED since that socket was last generated |
| `AcceptChain.OverwritesIff` | SocketManager.cpp:293 | In any run, whatever nodes it uses again, the store of ACCEPTING overwrites CONNECTED if and only if a handler that picked the socket up stored CONNECTED after it was last generated and no ACCEPTING was stored since |
| `AcceptChain.NeverOverwritesIff` | SocketManager.cpp:682-684 | No run overwrites CONNECTED if and only if a single thread does all the work, which no manager has: the user's thread and one worker are two |
| `Shutdown.AllWorkersExit` | SocketManager.cpp:470-490 | After the End packets are posted, whatever completions arrive: queued Ends equal live workers, the workers' moves are bounded by a measure they decrease, and some worker can move until all have exited |
| `Shutdown.MoveKeepsBalance` | SocketManager.cpp:347-386 | Every move of a worker decreases the measure; an arriving completion leaves it unchanged |
| `Shutdown.ArrivalIsBehind` | SocketManager.cpp:357-382 | A completion queued behind the last End does not delay the shutdown |
| `Shutdown.CompletionPort.ClearThreads` | SocketManager.cpp:470-480 | One End per thread is queued behind what is there |
| `Shutdown.CompletionPort.IOCPWorkerThread` | SocketManager.cpp:347-386 | A worker handles the packets before the first End, in order, takes that End and leaves, however much the handlers cause |
| `Manager.SocketManager.Destroy` | SocketManager.cpp:453-468 | The destructor leaves both lists empty |
| `Manager.SocketManager.ClearSockets` | SocketHelperClasses.h:108-121 | Clearing empties the list, fills the pool in list order up to its cap, releases nothing twice, and leaves every socket still in memory closed if it was connected or failed and its calls end |
| `RecyclableList.RefinesPlainList` | SocketHelperClasses.h:21-58 | Over any run of creations and erasures the live list shows exactly the elements of a plain list in creation order |
| `RecyclableList.MemoryIsBoundedByPeak` | SocketHelperClasses.h:21-58 | The pool never exceeds its cap, and live and pooled nodes never exceed the peak number of live ones |
| `RecyclableList.LiveNodesAreStable` | SocketHelperClasses.h:87-123 | A live element keeps its node, contents and self-iterator through any run that does not erase it |
| `RecyclableList.CreateKeeps` | SocketHelperClasses.h:43-57 | A creation appends a node that was not live, and keeps live and pooled nodes disjoint |
| `RecyclableList.EraseKeeps` | SocketHelperClasses.h:31-41 | An erasure removes one live node, keeps the order of the others, and respects the cap |
| `RecyclableList.ClearedIsEmpty` | SocketHelperClasses.h:108-121 | Clearing one element at a time ends with no live node and the pool filled in order |
| `RecyclableList.CriticalRecyclableList.Create` | SocketHelperClasses.h:95-102 | The in-place creation is the abstract one and returns the node it used |
| `RecyclableList.CriticalRecyclableList.Delete` | SocketHelperClasses.h:104-106 | The in-place deletion through the stored iterator is the abstract erasure |
| `RecyclableList.CriticalRecyclableList.ClearList` | SocketHelperClasses.h:108-121 | The clearing loop empties the list and fills the pool in order |
| `TimeWait.AgedIff` | SocketManager.cpp:807-808 | When the 32-bit test passes the true age exceeds the delay; the test is wrong if and only if the socket has rested for some whole turns of the counter and at most the delay more |
| `TimeWait.WrapHidesAge` | SocketManager.cpp:807-808 | After a whole turn of the tick counter a rested socket is refused |
| `TimeWait.InitialTimeWait` | SocketManager.cpp:778-799 | The starting delay is the registry's value, raised to 30000 or lowered to 300000 where it lies outside; 120000 if there is none; and 300000 if it cannot be read |
| `TimeWait.DelayAfterErrors` | SocketManager.cpp:145-148 | After n address-in-use errors the delay is min(300000, v times 2 to the n); it never wraps and never decreases |
| `TimeWait.FourErrorsSuffice` | SocketManager.cpp:145-148 | From any registry outcome the delay is fixed at its maximum after four errors; three do not suffice from the smallest |
| `TimeWait.OccupancyBound` | SocketManager.cpp:821-829 | With at most p disconnects pending at once the queue and what is on its way to it never exceed 29 + p |
| `TimeWait.OccupancyBoundIsTight` | SocketHelperClasses.cpp:25-30 | For every p some run reaches 29 + p |
| `Continuity.HeadTestIsExact` | SocketManager.cpp:801-819 | No socket is reused before it truly rested; while all ages are below 2^32 ms the head test fails exactly when no queued socket has rested long enough |
| `Continuity.ReusedIsClean` | SocketManager.cpp:801-819 | A reused socket is the head of the queue, with zero counters, zero pending bytes and nothing in flight |
| `Continuity.ConnectsIff` | SocketManager.cpp:591-653 | A connection attempt yields an id if and only if no system call it needs refuses |
| `Continuity.RetryIff` | SocketManager.cpp:144-156 | After an address-in-use error the old socket is removed, the delay doubles, and the user's id names a connecting replacement if and only if the retry reaches its end; otherwise it keeps naming the removed socket |
| `Continuity.RetriesKeepTheId` | SocketManager.cpp:144-156 | Through any clean run in which every step that handles an operation of the socket the id names is an address-in-use error whose retry reaches its end, whatever happens to other sockets: the id names a live connecting socket, each replaced socket is gone right after its retry, and the delay is the starting one doubled for every address-in-use error of the run, capped |
| `Continuity.PendingIff` | SocketManager.cpp:136-181 | A connection stays pending under its id through a clean step if and only if the step handles nothing of its socket, or is an address-in-use error whose retry reaches its end |
| `Continuity.OldIdBecomesAlias` | SocketHelperClasses.cpp:25-30 | A successful reuse leaves the old id naming a socket that carries another |
| `Names.ConnectKeepsNamesIff` | SocketManager.cpp:591-653 | A connection attempt leaves every id that named its own live socket naming it, whatever the system answers, if and only if it does not take a socket with an id from the reuse queue |
| `Names.AcceptKeepsNamesIff` | SocketManager.cpp:284-292 | A completed accept does so if and only if the socket it picks up has no id and no socket with an id is taken from the queue and refused |
| `SourceNames.RetryKeepsNamesIff` | SocketManager.cpp:144-156 | A retry leaves every id that named its own live socket naming it if and only if it reaches its end and does not take a socket with an id from the reuse queue |
| `SourceNames.ListenFaithIff` | SocketManager.cpp:687-741 | After a call to listen every stored id names its own live socket if and only if all did and the call does not reach a first accept that is refused on a socket with an id from the queue |
| `SourceNames.ReceiveFaithIff` | SocketManager.cpp:236-239 | The same through a callback, if and only if none of its calls takes a named socket away, each judged in the state it is made in |
| `SourceNames.StepNamesIff` | SocketManager.cpp:136-313 | A clean step of the source, be it a call, a completion or an error, keeps every stored id naming a live socket that carries it if and only if it is not a connection attempt, listen, accept, callback or retry that takes a socket away from its id |
| `SourceNames.SourceIsFaithfulIff` | SocketHelperClasses.cpp:25-54 | Over every clean run of the source all stored ids name their own live sockets throughout if and only if no step does so |
| `Registration.RightIff` | SocketManager.cpp:636-652 | At every moment of every interleaving of a connection call with the handling of its completion, the id the user gets, once stored, names a listed socket that carries it or is out of the map if and only if the call's socket is still listed, or the worker never read the id before it was set, never used the map before the id was stored, and no retry stopped short |
| `Registration.AlwaysRightIff` | SocketManager.cpp:636-652 | That holds in every interleaving whose retries reach their end if and only if the socket is registered before its connection is posted |
| `Forgetting.StepFaithfulIff` | SocketHelperClasses.cpp:25-54 | In the variant that erases the id of a parked socket, a clean step keeps every stored id naming its own live socket if and only if it is not a failed connection, named by its id, whose retry stops short |
| `Forgetting.VariantIsFaithfulIff` | SocketHelperClasses.cpp:25-54 | Over every clean run of that variant all stored ids name their own live sockets throughout if and only if no retry of a named connection stops short |
| `Queries.QueriesMean` | SocketManager.h:107-109 | For an id of a live socket: what `isSocketInitialising`, `isClientSocketReady` and `isServerSocketReady` say about its operations, exactly; a recycled socket that is connecting is not reported as initialising; a socket with an accept in flight is reported as listening, and one reported so has nothing else in flight and its manager is listening |
| `Openings.ListenIsReported` | SocketManager.h:109 | The id a successful listen returns is reported as listening |
| `Openings.ConnectIsReported` | SocketManager.h:107 | A new connection is reported as initialising exactly if its socket is new, and as nothing else |
| `Manager.SocketManager.constructor` | SocketManager.cpp:388-451 | A successful construction gives the starting state of the runs |
| `Manager.SocketManager.InitTimeWaitValue` | SocketManager.cpp:778-799 | The delay is set from the registry's answer and nothing else changes |
| `Manager.SocketManager.ChangeSocketState` | SocketManager.cpp:11-17 | The state changes under the socket's lock and nothing else does |
| `Manager.SocketManager.SendChunks` | SocketManager.cpp:29-46 | The loop posts what the abstract send posts, and hands the system the prefix of `Wire` before the refused chunk |
| `Manager.SocketManager.SendData` | SocketManager.cpp:19-48 | True exactly when the socket is CONNECTED and the length fits beside its pending bytes, even if a post fails; then its chunks are sent, and otherwise nothing changes |
| `Manager.SocketManager.SendDataToAll` | SocketManager.h:111 | Does what `Admission.SendToAllOutcome` describes; the result is the number of listed sockets that admit the data |
| `Manager.SocketManager.PostRecv` | SocketManager.cpp:50-81 | A posted receive is counted; a refused one changes nothing |
| `Manager.SocketManager.PostSend` | SocketManager.cpp:83-115 | A posted send is counted and adds its length to the budget; a refused one changes nothing |
| `Manager.SocketManager.HandleError` | SocketManager.cpp:136-181 | In-place form of the abstract step, whose effect `Endings.ErrorEnds`, `Endings.FailedOtherEnds`, `Endings.FailedConnectEnds` and `Continuity.RetryIff` state |
| `Manager.SocketManager.HandleIo` | SocketManager.cpp:183-225 | In-place form of the abstract step, with the closing check |
| `Manager.SocketManager.HandleRead` | SocketManager.cpp:227-256 | In-place form of the abstract step, unmatched leave included |
| `Manager.SocketManager.HandleWrite` | SocketManager.cpp:258-273 | In-place form of the abstract step |
| `Manager.SocketManager.HandleConnection` | SocketManager.cpp:275-313 | In-place form of the abstract step, both paths |
| `Manager.SocketManager.HandleDisconnect` | SocketManager.cpp:315-329 | In-place form of the abstract step |
| `Manager.SocketManager.GenerateSocket` | SocketManager.cpp:492-512 | A reused socket, or else a new one, or none |
| `Manager.SocketManager.AssociateSocketToIOCP` | SocketManager.cpp:514-527 | Associates, or deletes the socket |
| `Manager.SocketManager.BindSocket` | SocketManager.cpp:529-544 | Binds, leaves the socket at a refused option, or deletes it at a refused bind |
| `Manager.SocketManager.AddSocketToMap` | SocketManager.cpp:576-589 | Gives a new id where the id is nil, and registers the socket under it |
| `Manager.SocketManager.ConnectToNewSocket` | SocketManager.cpp:591-653 | In-place form of the abstract operation, with the id it returns |
| `Manager.SocketManager.AcceptNewSocket` | SocketManager.cpp:655-685 | In-place form of the abstract operation |
| `Manager.SocketManager.ListenToNewSocket` | SocketManager.cpp:687-741 | In-place form of the abstract operation, with the id it returns, both as `Openings.ListensIff` states |
| `Manager.SocketManager.ReuseSocket` | SocketManager.cpp:801-819 | Pops the head of the queue exactly when the 32-bit test passes on it |
| `Manager.SocketManager.ShouldReuseSocket` | SocketManager.cpp:821-829 | Tells whether the queue has room |
| `Manager.SocketManager.DeleteSocket` | SocketHelperClasses.cpp:4-15 | Closes a connected or failed socket, and removes it |
| `Manager.SocketManager.DeleteOrDisconnect` | SocketHelperClasses.cpp:17-60 | In-place form of the mutual recursion |
| `Manager.SocketManager.Disconnect` | SocketHelperClasses.cpp:62-82 | In-place form of the mutual recursion |
| `Manager.SocketManager.Close` | SocketHelperClasses.cpp:84-122 | In-place form of the close, early returns included |
| `Manager.SocketManager.Get` | SocketHelperClasses.h:72-82 | The socket registered under an id, if any |
| `Manager.SocketManager.ReceiveData` | SocketManager.h:100 | The callback: any finite sequence of calls |
| `Manager.SocketManager.IsSocketInitialising` | SocketManager.h:107 | Answers as `Queries.SaysInitialising` |
| `Manager.SocketManager.IsClientSocketReady` | SocketManager.h:108 | Answers as `Queries.SaysConnected` |
| `Manager.SocketManager.IsServerSocketReady` | SocketManager.h:109 | Answers as `Queries.SaysListening`, which `Queries.QueriesMean` and `Openings.ListenIsReported` pin down |
| `Manager.SocketManager.Serve` | SocketManager.cpp:357-382 | One packet handled in place is one abstract step |
| `Manager.SocketManager.ServeAll` | SocketManager.cpp:357-382 | The loop over a clean run ends in the state the run ends in, with the invariant and everything a user relies on |

## Left out

- Winsock, the completion port, the registry and id generation: only their outcomes, one completion per posted operation, ids never given out twice, first-in first-out packets and a clock that does not go back.
- Completion order: the whole-engine runs let posted operations complete in any order; only `Shutdown` and `Delivery` rely on the port's order.
- Steps of the whole engine are whole calls and whole completions. What may happen inside them is proved for single protocols only: `Cleanup` and `SendPath` take one connection, `AcceptChain` one listener, `Registration` one connection call. `Cleanup` follows the socket until it waits in the reuse queue, not what late steps do to the next connection on the same node. In `Registration` the node of a removed socket is not used again while the call still holds it, and a replacement's own completion comes after its registration.
- ISB notifications (`PostISBNotify`, `UpdateISB`): uncounted operations; the model has factor 0, the default, so `maxPendingByteSent` stays 65536.
- Addresses, ports, `strncpy` past the end of `data`, socket option values, `InitAsyncSocketFuncs`, `Misc.cpp`, `Misc.h` and `main.cpp`: plumbing and a demo.
- Failed construction: a manager that is not READY accepts no socket, and has no states worth following.
- Copying of `CRITICAL_SECTION` in `Socket::operator=`: locks are named by the node they belong to.
- Server-side reuse of handles that are already associated: association is an outcome of the system, and nothing claims that it succeeds.
- The claim that every stored id names a live socket with that id, for the source itself: false of the code (`SourceNames.SourceIsFaithfulIff` says exactly of which runs it is true); proved of the variant with the erase added.
- `TimeWaitValue` is shared by all managers of a process; the model has one manager.
- Element records: sockets and buffers are values held in list nodes, written back at each store, rather than objects; torn reads of a single field are not modelled.
- Memory in the pool: touching a pooled element is not counted in `faults`, because its memory is still there; touching a freed one is.
- Handlers are taken to end: the callback makes finitely many calls, and no lock is held for ever (`Deadlock`).
- Strays.OverwrittenIff: with writes in flight on the overwritten socket a short or failed write still fails it and has it torn down; those runs are not followed.
- Deadlock.NeverDeadlocked: threads take sockets that no other thread is connecting, retrying or has taken. `Takings.TakenOnce` proves that of any turns at the queue and the list; the two models are not one.
