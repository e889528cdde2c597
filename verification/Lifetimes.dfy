/** Two lives, from start to end: a client's connection that ends, rests and is used again, and a
    server that listens and is connected to.  They are clean runs, so what is proved of clean runs is
    proved of something. */
module Lifetimes {
  import opened SocketTypes
  import opened RecyclableList
  import opened TimeWait
  import opened Engine
  import opened EngineInvariant
  import opened EngineSteps
  import opened Teardown
  import opened Completions
  import opened EngineRuns
  import Strays

  const ACCEPT := AcceptOs(true, true, true)
  const CONNECT := ConnectOs(true, true, Bound, true, true)
  const CLOSE := TeardownOs(true, Ok, true, Ok)
  const IO := IoOs([], true, ConnectionOs(ACCEPT, true, true, CLOSE), CLOSE)

  /** The world while it has one socket, in node 0, and one buffer. */
  ghost predicate OneSocket(w: World, s: Socket, buf: Option<Buffer>, op: seq<Posted>, queue: seq<Node>, nextId: Uuid) {
    && w.kind == CLIENT && w.mgr == READY && w.faults == 0 && w.timeWait == 30000
    && w.sockets.live == [0] && w.sockets.pool == [] && w.sockets.mem == map[0 := s]
    && w.sockets.it == map[0 := 0] && w.sockets.cap == MAX_RECYCLED_SIZE
    && w.buffers.live == (if buf.Some? then [0] else []) && w.buffers.pool == (if buf.Some? then [] else [0])
    && 0 in w.buffers.mem && (buf.Some? ==> w.buffers.mem[0] == buf.value) && w.buffers.mem[0].bufLen == 4096
    && w.buffers.it == map[0 := 0] && w.buffers.cap == MAX_RECYCLED_SIZE
    && w.posted == op && w.queue == queue && w.nextId == nextId
    && |w.since| == |queue|
  }

  const OPEN := NEW_SOCKET.(id := 1)

  function Only(op: Operation): seq<Posted> { [Posted(0, 0, op, 4096)] }

  lemma {:induction false} Connecting(w: World)
    requires w == Start(CLIENT, 30000)
    ensures var l := Call(0, ConnectNew(CONNECT));
            && w.Enabled(l) && Clean(w, l) && w.Step(l).clock == 0
            && OneSocket(w.Step(l), OPEN.(state := BOUND), Some(Buffer(Operation.Connect, 4096)),
                Only(Operation.Connect), [], 2)
  {
    hide World.DeleteSocket, World.SendData, World.SendDataToAll, World.ListenToNewSocket;
  }

  lemma {:induction false} Connected(w: World)
    requires OneSocket(w, OPEN.(state := BOUND), Some(Buffer(Operation.Connect, 4096)), Only(Operation.Connect), [],
        2) && w.clock == 0
    ensures var l := Complete(0, 0, 0, IO);
            && w.Enabled(l) && Clean(w, l) && w.Step(l).clock == 0
            && OneSocket(w.Step(l), OPEN.(state := CONNECTED, outstandingRecv := 1),
                Some(Buffer(Operation.Read, 4096)), Only(Operation.Read), [], 2)
  {
  }

  /** The peer closes: the socket drains, and the teardown parks it. */
  lemma {:induction false} Parked(w: World)
    requires OneSocket(w, OPEN.(state := CONNECTED, outstandingRecv := 1), Some(Buffer(Operation.Read, 4096)),
        Only(Operation.Read), [], 2) && w.clock == 0
    ensures var l := Complete(0, 0, 0, IO);
            && w.Enabled(l) && Clean(w, l) && w.Step(l).clock == 0
            && OneSocket(w.Step(l), OPEN.(state := DISCONNECTING), Some(Buffer(Operation.Disconnect, 4096)),
                Only(Operation.Disconnect), [], 2)
  {
    hide World.DeleteOrDisconnect, OneSocket;
    Drains(w);
    var w1 := w.(clock := 0).Dequeue(0).HandleRead(0, 0, 0, [], true);
    LastOne(w1);
  }

  lemma {:induction false} Drains(w: World)
    requires OneSocket(w, OPEN.(state := CONNECTED, outstandingRecv := 1), Some(Buffer(Operation.Read, 4096)),
        Only(Operation.Read), [], 2)
    ensures w.posted == Only(Operation.Read) && w.BufAt(0).operation == Operation.Read
    ensures OneSocket(w.(clock := 0).Dequeue(0).HandleRead(0, 0, 0, [], true), OPEN.(state := CLOSING), None, [], [], 2)
  {
    hide World.ReceiveData;
  }

  lemma {:induction false} LastOne(w: World)
    requires OneSocket(w, OPEN.(state := CLOSING), None, [], [], 2)
    ensures OneSocket(w.CleanupIfLast(0, CLOSE), OPEN.(state := DISCONNECTING),
        Some(Buffer(Operation.Disconnect, 4096)), Only(Operation.Disconnect), [], 2)
    ensures w.CleanupIfLast(0, CLOSE).clock == w.clock
  {
    hide World.DeleteOrDisconnect;
    TeardownContract(w.Section(SockLock(0)), 0, CLOSE);
  }

  lemma {:induction false} Rested(w: World)
    requires OneSocket(w, OPEN.(state := DISCONNECTING), Some(Buffer(Operation.Disconnect, 4096)),
        Only(Operation.Disconnect), [], 2) && w.clock == 0
    ensures var l := Complete(10, 0, 0, IO);
            && w.Enabled(l) && Clean(w, l) && w.Step(l).clock == 10
            && OneSocket(w.Step(l), OPEN.(state := DISCONNECTED, timeWaitStartTime := 10), None, [], [0], 2)
  {
    hide World.DeleteOrDisconnect, World.HandleDisconnect;
    var w1 := w.(clock := 10).Dequeue(0);
    assert w1.posted == [] && w1.BufAt(0).operation == Operation.Disconnect;
    Queued(w1);
    NoCleanup(w1.HandleDisconnect(0, 0));
  }

  lemma {:induction false} Queued(w: World)
    requires OneSocket(w, OPEN.(state := DISCONNECTING), Some(Buffer(Operation.Disconnect, 4096)), [], [], 2)
    requires w.clock == 10
    ensures OneSocket(w.HandleDisconnect(0, 0), OPEN.(state := DISCONNECTED, timeWaitStartTime := 10), None, [], [0], 2)
    ensures w.HandleDisconnect(0, 0).clock == 10
  {
  }

  lemma {:induction false} NoCleanup(w: World)
    requires w.At(0).state.Rank() <= CONNECTED.Rank()
    ensures w.CleanupIfLast(0, CLOSE) == w.Section(SockLock(0))
  {
    hide World.DeleteOrDisconnect;
  }

  lemma {:induction false} UsedAgain(w: World)
    requires OneSocket(w, OPEN.(state := DISCONNECTED, timeWaitStartTime := 10), None, [], [0], 2) && w.clock == 10
    ensures var l := Call(30011, ConnectNew(CONNECT));
            && w.Enabled(l) && Clean(w, l)
            && OneSocket(w.Step(l), OPEN.(id := 2, state := DISCONNECTED), Some(Buffer(Operation.Connect, 4096)),
                Only(Operation.Connect), [], 3)
  {
    hide World.DeleteSocket, World.SendData, World.SendDataToAll, World.ListenToNewSocket, World.GenerateSocket;
    hide World.CreateBuffer, World.AddSocketToMap;
    Popped(w.(clock := 30011));
    var w1 := w.(clock := 30011).GenerateSocket(true, true).0;
    ReadyAgain(w1);
  }

  lemma {:induction false} ReadyAgain(w: World)
    requires OneSocket(w, OPEN.(state := DISCONNECTED), None, [], [], 2)
    ensures var w1 := w.CreateBuffer(Operation.Connect).Post(w.buffers.Slot(), 0, Operation.Connect).Do(Publish(0));
            OneSocket(w1.AddSocketToMap(0, NIL_UUID), OPEN.(id := 2, state := DISCONNECTED),
                      Some(Buffer(Operation.Connect, 4096)), Only(Operation.Connect), [], 3)
  {
  }

  lemma {:induction false} Popped(w: World)
    requires OneSocket(w, OPEN.(state := DISCONNECTED, timeWaitStartTime := 10), None, [], [0], 2) && w.clock == 30011
    ensures var (w', g) := w.GenerateSocket(true, true);
            g == Some(0) && OneSocket(w', OPEN.(state := DISCONNECTED), None, [], [], 2)
  {
  }

  const CLIENT_LIFE := [Call(0, ConnectNew(CONNECT)), Complete(0, 0, 0, IO), Complete(0, 0, 0, IO),
                        Complete(10, 0, 0, IO), Call(30011, ConnectNew(CONNECT))]

  lemma {:induction false} RunBack(w: World, ls: seq<Label>)
    requires ls != [] && w.Enabled(ls[0]) && Clean(w, ls[0]) && CleanRun(w.Step(ls[0]), ls[1..])
    ensures CleanRun(w, ls) && Exec(w, ls) == Exec(w.Step(ls[0]), ls[1..])
  {
  }

  /** A client's socket is connected, closed by the peer, disconnected, rested and connecting again:
      a clean run. */
  lemma {:induction false} AClientLives()
    ensures CleanRun(Start(CLIENT, 30000), CLIENT_LIFE)
    ensures OneSocket(Exec(Start(CLIENT, 30000), CLIENT_LIFE), OPEN.(id := 2, state := DISCONNECTED),
                      Some(Buffer(Operation.Connect, 4096)), Only(Operation.Connect), [], 3)
  {
    hide World.Step, Clean, OneSocket, World.Enabled, CleanRun, Exec;
    var w0 := Start(CLIENT, 30000);
    Connecting(w0);
    var w1 := w0.Step(CLIENT_LIFE[0]);
    Connected(w1);
    var w2 := w1.Step(CLIENT_LIFE[1]);
    Parked(w2);
    var w3 := w2.Step(CLIENT_LIFE[2]);
    Rested(w3);
    var w4 := w3.Step(CLIENT_LIFE[3]);
    UsedAgain(w4);
    var w5 := w4.Step(CLIENT_LIFE[4]);
    NoMore(w5);
    assert CLIENT_LIFE[4..][1..] == [];
    RunBack(w4, CLIENT_LIFE[4..]);
    RunBack(w3, CLIENT_LIFE[3..]);
    RunBack(w2, CLIENT_LIFE[2..]);
    RunBack(w1, CLIENT_LIFE[1..]);
    RunBack(w0, CLIENT_LIFE);
  }

  lemma {:induction false} NoMore(w: World)
    ensures CleanRun(w, []) && Exec(w, []) == w
  {
  }

  // ---------- a server ----------

  const LISTEN := ListenOs(true, true, true, Bound, true, ACCEPT)

  ghost predicate Serving(w: World, sockets: seq<Socket>, buffers: seq<Buffer>, ops: seq<Posted>) {
    && w.kind == SERVER && w.mgr == SERVER_LISTENING && w.faults == 0
    && |w.sockets.live| == |sockets| && w.sockets.next == |sockets| && w.sockets.pool == []
    && (forall i :: 0 <= i < |sockets| ==> w.sockets.live[i] == i && w.At(i) == sockets[i] && i in w.sockets.mem)
    && |w.buffers.live| == |buffers| && w.buffers.next == |buffers| && w.buffers.pool == []
    && (forall i :: 0 <= i < |buffers| ==> w.buffers.live[i] == i && w.BufAt(i) == buffers[i] && i in w.buffers.mem)
    && w.posted == ops && w.queue == [] && w.current == Some(|sockets| - 1)
  }

  const LISTENER := NEW_SOCKET.(id := 1, state := LISTENING)
  const WAITING := NEW_SOCKET.(state := ACCEPTING)

  lemma {:induction false} Listens(w: World)
    requires w == Start(SERVER, 30000)
    ensures var l := Call(0, ListenNew(LISTEN));
            && w.Enabled(l) && Clean(w, l) && w.Step(l).clock == 0
            && Serving(w.Step(l), [LISTENER, WAITING], [Buffer(Operation.Accept, 4096)], Only(Operation.Accept)) &&
                w.Step(l).nextId == 2
  {
    hide World.DeleteSocket, World.SendData, World.SendDataToAll, World.ConnectToNewSocket, World.AcceptNewSocket;
    var w1 := w.CreateSocket().Do(Take(0)).SetState(0, ASSOCIATED).SetState(0, BOUND).SetState(0, LISTENING);
    assert w1.At(0) == LISTENER.(id := NIL_UUID);
    FirstIssued(w1);
  }

  lemma {:induction false} FirstIssued(w: World)
    requires w.kind == SERVER && w.mgr == READY && w.faults == 0 && w.posted == [] && w.queue == []
    requires w.nextId == 1 && w.clock == 0
    requires w.sockets.live == [0] && w.sockets.next == 1 && w.sockets.pool == []
    requires w.sockets.mem == map[0 := LISTENER.(id := NIL_UUID)]
    requires w.buffers == Empty(MAX_RECYCLED_SIZE)
    ensures var (w1, ok) := w.AcceptNewSocket(0, ACCEPT);
            && ok && w1.clock == 0
            && Serving(w1.AddSocketToMap(0, NIL_UUID).(mgr := SERVER_LISTENING), [LISTENER, WAITING],
                       [Buffer(Operation.Accept, 4096)], Only(Operation.Accept))
            && w1.AddSocketToMap(0, NIL_UUID).nextId == 2
  {
    hide World.DeleteSocket;
  }

  const SERVED := NEW_SOCKET.(id := 2, state := CONNECTED, outstandingRecv := 1)
  const NEXT := Posted(1, 0, Operation.Accept, 4096)

  /** The socket is registered and the next accept is issued. */
  lemma {:induction false} NextIssued(w: World)
    requires Serving(w, [LISTENER, WAITING], [Buffer(Operation.Accept, 4096)], []) && w.nextId == 2
    ensures Serving(w.AddSocketToMap(1, NIL_UUID).AcceptNewSocket(0, ACCEPT).0, [LISTENER, WAITING.(id := 2), WAITING],
                    [Buffer(Operation.Accept, 4096), Buffer(Operation.Accept, 4096)], [NEXT])
  {
    hide World.DeleteSocket;
    var w1 := w.AddSocketToMap(1, NIL_UUID);
    assert Serving(w1, [LISTENER, WAITING.(id := 2)], [Buffer(Operation.Accept, 4096)], []);
  }

  lemma {:induction false} Received(w: World)
    requires Serving(w, [LISTENER, WAITING.(id := 2), WAITING],
        [Buffer(Operation.Accept, 4096), Buffer(Operation.Accept, 4096)], [NEXT])
    ensures Serving(w.StartReceiving(1, 0, IO.connection), [LISTENER, SERVED, WAITING],
                    [Buffer(Operation.Read, 4096), Buffer(Operation.Accept, 4096)],
                      [NEXT, Posted(0, 1, Operation.Read, 4096)])
  {
    hide World.DeleteOrDisconnect;
  }

  lemma {:induction false} ListenerStays(w: World, sockets: seq<Socket>, buffers: seq<Buffer>, ops: seq<Posted>)
    requires Serving(w, sockets, buffers, ops) && |sockets| > 0 && sockets[0] == LISTENER
    ensures Serving(w.CleanupIfLast(0, CLOSE), sockets, buffers, ops)
  {
    hide World.DeleteOrDisconnect;
  }

  lemma {:induction false} Serves(w: World)
    requires Serving(w, [LISTENER, WAITING], [Buffer(Operation.Accept, 4096)], Only(Operation.Accept))
    requires w.nextId == 2 && w.clock == 0
    ensures var l := Complete(0, 0, 0, IO);
            && w.Enabled(l) && Clean(w, l)
            && Serving(w.Step(l), [LISTENER, SERVED, WAITING],
                       [Buffer(Operation.Read, 4096), Buffer(Operation.Accept, 4096)],
                         [NEXT, Posted(0, 1, Operation.Read, 4096)])
  {
    hide World.AddSocketToMap, World.AcceptNewSocket, World.StartReceiving, World.CleanupIfLast;
    var w1 := w.(clock := 0).Dequeue(0);
    NextIssued(w1);
    var w2 := w1.AddSocketToMap(1, NIL_UUID).AcceptNewSocket(0, ACCEPT).0;
    Received(w2);
    ListenerStays(w2.StartReceiving(1, 0, IO.connection), [LISTENER, SERVED, WAITING],
                  [Buffer(Operation.Read, 4096), Buffer(Operation.Accept, 4096)],
                    [NEXT, Posted(0, 1, Operation.Read, 4096)]);
  }

  const SERVER_LIFE := [Call(0, ListenNew(LISTEN)), Complete(0, 0, 0, IO)]

  /** A server listens and is connected to, and the next accept is outstanding: a clean run. */
  lemma {:induction false} AServerLives()
    ensures CleanRun(Start(SERVER, 30000), SERVER_LIFE)
    ensures Serving(Exec(Start(SERVER, 30000), SERVER_LIFE), [LISTENER, SERVED, WAITING],
                    [Buffer(Operation.Read, 4096), Buffer(Operation.Accept, 4096)],
                      [NEXT, Posted(0, 1, Operation.Read, 4096)])
  {
    hide World.Step, Clean, Serving, World.Enabled, CleanRun, Exec;
    var w0 := Start(SERVER, 30000);
    Listens(w0);
    var w1 := w0.Step(SERVER_LIFE[0]);
    Serves(w1);
    var w2 := w1.Step(SERVER_LIFE[1]);
    NoMore(w2);
    assert SERVER_LIFE[1..][1..] == [];
    RunBack(w1, SERVER_LIFE[1..]);
    RunBack(w0, SERVER_LIFE);
  }

  /** In the state that run reaches, the store of ACCEPTING by the thread that issued the first accept, if it
      comes this late, overwrites the connection. */
  lemma {:induction false} ALateStoreOverwrites()
    ensures CleanRun(Start(SERVER, 30000), SERVER_LIFE)
    ensures Strays.Overwritten(Exec(Start(SERVER, 30000), SERVER_LIFE).SetState(1, ACCEPTING), 1)
  {
    hide World.Step, Clean, World.Enabled, CleanRun, Exec, Sound, Inv, Strays.Overwritten;
    AServerLives();
    StartHolds(SERVER, 30000);
    RunKeeps(Start(SERVER, 30000), SERVER_LIFE);
    Strays.LateStoreOverwrites(Exec(Start(SERVER, 30000), SERVER_LIFE), 1);
  }
}
