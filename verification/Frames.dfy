/** Which sockets an operation can change at all, whatever state the engine is in. */
module Frames {
  import opened SocketTypes
  import opened RecyclableList
  import opened Engine

  /** Sockets outside `touched` are as they were: live or not, with the same contents; and so is the delay. */
  ghost predicate Only(w: World, w': World, touched: set<Node>) {
    && w'.sockets.Valid() && w'.timeWait == w.timeWait
    && forall q :: q !in touched ==> (q in w'.sockets.live <==> q in w.sockets.live) && w'.At(q) == w.At(q)
  }

  lemma {:induction false} OnlyTwice(w: World, w': World, w'': World, s: set<Node>, t: set<Node>)
    requires Only(w, w', s) && Only(w', w'', t)
    ensures Only(w, w'', s + t)
  {
  }

  lemma {:induction false} OnlyAgain(w: World, w': World, w'': World, s: set<Node>)
    requires Only(w, w', s) && Only(w', w'', s)
    ensures Only(w, w'', s)
  {
  }

  lemma {:induction false} SameSockets(w: World, w': World, s: set<Node>)
    requires w.sockets.Valid() && w'.sockets == w.sockets && w'.timeWait == w.timeWait
    ensures Only(w, w', s)
  {
  }

  // ---------- single operations ----------

  lemma {:induction false} PutOnly(w: World, r: Node, s: Socket)
    requires w.sockets.Valid()
    ensures Only(w, w.Put(r, s), {r})
  {
  }

  lemma {:induction false} EraseOnly(w: World, r: Node)
    requires w.sockets.Valid()
    ensures Only(w, w.EraseSocket(r), {r})
    ensures r in w.sockets.live ==> r !in w.EraseSocket(r).sockets.live
  {
    if r in w.sockets.live {
      EraseKeeps(w.sockets, r);
    }
  }

  lemma {:induction false} CreateOnly(w: World)
    requires w.sockets.Valid()
    ensures Only(w, w.CreateSocket(), {w.sockets.Slot()})
    ensures w.sockets.Slot() !in w.sockets.live && w.CreateSocket().sockets.live == w.sockets.live + [w.sockets.Slot()]
  {
    CreateKeeps(w.sockets, NEW_SOCKET, AssignSocket);
  }

  lemma {:induction false} CloseOnly(w: World, r: Node, force: bool, os: TeardownOs)
    requires w.sockets.Valid()
    ensures Only(w, w.Close(r, force, os), {r})
  {
    hide World.Put;
    if force || os.shutdown != InProgress {
      var forceClose := force || os.shutdown == Error;
      var w1 := if forceClose && os.lingerOk then w.Put(r, w.At(r).(abortive := true)) else w;
      PutOnly(w, r, w.At(r).(abortive := true));
      SameSockets(w, w, {r});
      PutOnly(w1, r, w1.At(r).(hasHandle := false, state := CLOSED));
      OnlyAgain(w, w1, w1.Put(r, w1.At(r).(hasHandle := false, state := CLOSED)), {r});
    }
  }

  lemma {:induction false} DeleteOnly(w: World, r: Node, os: TeardownOs)
    requires w.sockets.Valid()
    ensures Only(w, w.DeleteSocket(r, os), {r})
  {
    hide World.Close, World.EraseSocket;
    var w1 := w.Do(Enter(SockLock(r)));
    var s := w.At(r);
    var w2 := if s.hasHandle &&
      (s.state == CONNECTED || s.state == FAILURE) then w1.Close(r, s.state == FAILURE, os) else w1;
    CloseOnly(w1, r, s.state == FAILURE, os);
    SameSockets(w, w1, {r});
    OnlyAgain(w, w1, w2, {r});
    var w3 := w2.Do(Leave(SockLock(r)));
    SameSockets(w2, w3, {r});
    OnlyAgain(w, w2, w3, {r});
    EraseOnly(w3, r);
    OnlyAgain(w, w3, w3.EraseSocket(r), {r});
  }

  lemma {:induction false} DeleteRemoves(w: World, r: Node)
    requires w.sockets.Valid() && r in w.sockets.live && w.At(r).state !in {CONNECTED, FAILURE}
    ensures r !in w.DeleteSocket(r, NEVER_CONNECTED).sockets.live
  {
    hide World.EraseSocket;
    EraseOnly(w.Section(SockLock(r)), r);
    assert w.DeleteSocket(r, NEVER_CONNECTED) == w.Section(SockLock(r)).EraseSocket(r);
  }

  // ---------- creating sockets ----------

  lemma {:induction false} ReuseOnly(w: World)
    requires w.sockets.Valid()
    ensures var (w', g) := w.ReuseSocket();
            && Only(w, w', if g.Some? then {g.value} else {})
            && w'.buffers == w.buffers && w'.posted == w.posted && w'.current == w.current
            && (forall q :: q in w'.queue ==> q in w.queue)
            && (g.Some? ==> w.queue != [] && g.value == w.queue[0])
            && w'.ids == w.ids && w'.nextId == w.nextId
  {
  }

  /** The socket `GenerateSocket` returns is the head of the queue, or a node that was not live. */
  lemma {:induction false} GenerateOnly(w: World, reuse: bool, createOk: bool)
    requires w.sockets.Valid()
    ensures var (w', g) := w.GenerateSocket(reuse, createOk);
            && Only(w, w', if g.Some? then {g.value} else {})
            && w'.buffers == w.buffers && w'.posted == w.posted && w'.current == w.current
            && (forall q :: q in w'.queue ==> q in w.queue)
            && (g.Some? ==> (w.queue != [] && g.value == w.queue[0]) || g.value !in w.sockets.live)
            && w'.ids == w.ids && w'.nextId == w.nextId
  {
    hide World.ReuseSocket, World.CreateSocket;
    var (w1, g) := if reuse then w.ReuseSocket() else (w, None);
    ReuseOnly(w);
    SameSockets(w, w, {});
    if g.Some? {
      SameSockets(w1, w1.Do(Take(g.value)), {g.value});
      OnlyAgain(w, w1, w1.Do(Take(g.value)), {g.value});
    } else if createOk {
      var w2, r := w1.CreateSocket(), w1.sockets.Slot();
      CreateOnly(w1);
      CreateFields(w1);
      OnlyTwice(w, w1, w2, {}, {r});
      SameSockets(w2, w2.Do(Take(r)), {r});
      OnlyTwice(w, w2, w2.Do(Take(r)), {} + {r}, {r});
      assert {} + {r} + {r} == {r};
    }
  }

  lemma {:induction false} CreateFields(w: World)
    ensures var w' := w.CreateSocket();
            && w'.buffers == w.buffers && w'.posted == w.posted && w'.current == w.current && w'.queue == w.queue
            && w'.ids == w.ids && w'.nextId == w.nextId
  {
  }

  /** Fields that preparing or deleting a socket leaves alone. */
  ghost predicate Rest(w: World, w': World) {
    && w'.buffers == w.buffers && w'.posted == w.posted && w'.current == w.current && w'.queue == w.queue
    && w'.ids == w.ids && w'.nextId == w.nextId && w'.mgr == w.mgr && w'.kind == w.kind
  }

  lemma {:induction false} DeleteRest(w: World, r: Node, os: TeardownOs)
    ensures Rest(w, w.DeleteSocket(r, os))
  {
    hide World.Close, World.EraseSocket;
    CloseRest(w.Do(Enter(SockLock(r))), r, w.At(r).state == FAILURE, os);
    var w1 := w.Do(Enter(SockLock(r)));
    var s := w.At(r);
    var w2 := if s.hasHandle &&
      (s.state == CONNECTED || s.state == FAILURE) then w1.Close(r, s.state == FAILURE, os) else w1;
    EraseRest(w2.Do(Leave(SockLock(r))), r);
  }

  lemma {:induction false} CloseRest(w: World, r: Node, force: bool, os: TeardownOs)
    ensures Rest(w, w.Close(r, force, os))
  {
  }

  lemma {:induction false} EraseRest(w: World, r: Node)
    ensures Rest(w, w.EraseSocket(r))
  {
  }

  lemma {:induction false} SetStateOnly(w: World, r: Node, st: SocketState)
    requires w.sockets.Valid()
    ensures Only(w, w.SetState(r, st), {r}) && Rest(w, w.SetState(r, st))
  {
    PutOnly(w, r, w.At(r).(state := st));
  }

  lemma {:induction false} AssociateOnly(w: World, r: Node, ok: bool)
    requires w.sockets.Valid()
    ensures Only(w, w.AssociateSocketToIOCP(r, ok), {r}) && Rest(w, w.AssociateSocketToIOCP(r, ok))
  {
    hide World.DeleteSocket, World.SetState, Only;
    SetStateOnly(w, r, ASSOCIATED);
    DeleteOnly(w, r, NEVER_CONNECTED);
    DeleteRest(w, r, NEVER_CONNECTED);
  }

  lemma {:induction false} BindOnly(w: World, r: Node, bind: BindOs)
    requires w.sockets.Valid()
    ensures Only(w, w.BindSocket(r, bind), {r}) && Rest(w, w.BindSocket(r, bind))
  {
    hide World.DeleteSocket, World.SetState, Only;
    SetStateOnly(w, r, BOUND);
    DeleteOnly(w, r, NEVER_CONNECTED);
    DeleteRest(w, r, NEVER_CONNECTED);
    SameSockets(w, w, {r});
  }

  lemma {:induction false} PrepareOnly(w: World, r: Node, associateOk: bool, bind: BindOs)
    requires w.sockets.Valid()
    ensures Only(w, w.PrepareSocket(r, associateOk, bind).0, {r}) && Rest(w, w.PrepareSocket(r, associateOk, bind).0)
  {
    hide World.AssociateSocketToIOCP, World.BindSocket, Only;
    SameSockets(w, w, {r});
    if w.At(r).state != DISCONNECTED {
      var w1 := w.AssociateSocketToIOCP(r, associateOk);
      AssociateOnly(w, r, associateOk);
      if associateOk {
        OnlyValid(w, w1, {r});
        BindOnly(w1, r, bind);
        OnlyAgain(w, w1, w1.BindSocket(r, bind), {r});
      }
    }
  }

  lemma {:induction false} OnlyValid(w: World, w': World, s: set<Node>)
    requires Only(w, w', s)
    ensures w'.sockets.Valid()
  {
  }

  lemma {:induction false} AddIdOnly(w: World, r: Node, id: Uuid)
    requires w.sockets.Valid()
    ensures var w', i := w.AddSocketToMap(r, id), if id == NIL_UUID then w.nextId else id;
            && Only(w, w', {r}) && w'.ids == w.ids[i := r]
            && w'.buffers == w.buffers && w'.posted == w.posted && w'.current == w.current && w'.queue == w.queue
            && (r in w.sockets.mem ==> w'.At(r) == w.At(r).(id := i)) && (r in w'.sockets.live <==> r in w.sockets.live)
  {
    PutOnly(w, r, w.At(r).(id := if id == NIL_UUID then w.nextId else id));
  }

  /** The socket a connection or an accept works on, if there is one. */
  function Generated(w: World, createOk: bool): set<Node> {
    match w.GenerateSocket(true, createOk).1
    case None => {}
    case Some(g) => {g}
  }

  /** A connection attempt changes the generated socket only, and registers it or nothing. */
  lemma {:induction false} ConnectOnly(w: World, id: Uuid, os: ConnectOs)
    requires w.sockets.Valid()
    ensures var (w', i) := w.ConnectToNewSocket(id, os);
            && Only(w, w', Generated(w, os.createOk))
            && (w'.ids == w.ids || exists g ::
                  g in Generated(w, os.createOk) && w'.ids == w.ids[if id == NIL_UUID then w.nextId else id := g])
  {
    hide World.GenerateSocket, World.PrepareSocket, World.DeleteSocket, World.AddSocketToMap, World.CreateBuffer, Only;
    SameSockets(w, w, Generated(w, os.createOk));
    if w.mgr != NOT_READY && w.kind == CLIENT {
      var (w1, generated) := w.GenerateSocket(true, os.createOk);
      GenerateOnly(w, true, os.createOk);
      if generated.Some? {
        ConnectGenerated(w, w1, generated.value, id, os);
      }
    }
  }

  lemma {:induction false} ConnectGenerated(w: World, w1: World, g: Node, id: Uuid, os: ConnectOs)
    requires Only(w, w1, {g}) && w.GenerateSocket(true, os.createOk) == (w1, Some(g)) && w.mgr != NOT_READY
    requires w.kind == CLIENT
    requires w1.ids == w.ids && w1.nextId == w.nextId
    ensures var (w', i) := w.ConnectToNewSocket(id, os);
            && Only(w, w', {g})
            && (w'.ids == w.ids || w'.ids == w.ids[if id == NIL_UUID then w.nextId else id := g])
  {
    OnlyValid(w, w1, {g});
    hide World.GenerateSocket, World.PrepareSocket, World.DeleteSocket, World.AddSocketToMap, World.CreateBuffer, Only;
    var (w2, go) := w1.PrepareSocket(g, os.associateOk, os.bind);
    PrepareOnly(w1, g, os.associateOk, os.bind);
    OnlyAgain(w, w1, w2, {g});
    OnlyValid(w, w2, {g});
    var b := w2.buffers.Slot();
    var w3 := w2.CreateBuffer(Operation.Connect);
    CreateBufferSockets(w2, Operation.Connect);
    SameSockets(w2, w3, {g});
    OnlyAgain(w, w2, w3, {g});
    DeleteStays(w, w2, g);
    DeleteStays(w, w3, g);
    var w4 := w3.Post(b, g, Operation.Connect).Do(Publish(g));
    SameSockets(w3, w4, {g});
    OnlyAgain(w, w3, w4, {g});
    AddIdOnly(w4, g, id);
    OnlyAgain(w, w4, w4.AddSocketToMap(g, id), {g});
  }

  lemma {:induction false} CreateBufferSockets(w: World, op: Operation)
    ensures var w' := w.CreateBuffer(op);
            w'.sockets == w.sockets && w'.ids == w.ids && w'.nextId == w.nextId && w'.timeWait == w.timeWait
  {
  }

  lemma {:induction false} DeleteStays(w: World, w': World, g: Node)
    requires Only(w, w', {g})
    ensures Only(w, w'.DeleteSocket(g, NEVER_CONNECTED), {g}) && w'.DeleteSocket(g, NEVER_CONNECTED).ids == w'.ids
  {
    DeleteOnly(w', g, NEVER_CONNECTED);
    DeleteRest(w', g, NEVER_CONNECTED);
    hide World.DeleteSocket;
  }

  /** An accept changes the generated socket only, and no id. */
  lemma {:induction false} AcceptOnly(w: World, listener: Node, os: AcceptOs)
    requires w.sockets.Valid()
    ensures var w' := w.AcceptNewSocket(listener, os).0; Only(w, w', Generated(w, os.createOk)) && w'.ids == w.ids
  {
    hide World.GenerateSocket, World.AssociateSocketToIOCP, World.DeleteSocket, World.CreateBuffer, World.SetState,
         Only;
    var (w1, generated) := w.GenerateSocket(true, os.createOk);
    GenerateOnly(w, true, os.createOk);
    if generated.Some? {
      AcceptGenerated(w, w1, generated.value, listener, os);
    }
  }

  lemma {:induction false} AcceptGenerated(w: World, w1: World, g: Node, listener: Node, os: AcceptOs)
    requires Only(w, w1, {g}) && w.GenerateSocket(true, os.createOk) == (w1, Some(g)) && w1.ids == w.ids
    ensures var w' := w.AcceptNewSocket(listener, os).0; Only(w, w', {g}) && w'.ids == w.ids
  {
    OnlyValid(w, w1, {g});
    hide World.GenerateSocket, World.AssociateSocketToIOCP, World.DeleteSocket, World.CreateBuffer, World.SetState,
         Only;
    var w2 := w1.AssociateSocketToIOCP(g, os.associateOk);
    AssociateOnly(w1, g, os.associateOk);
    OnlyAgain(w, w1, w2, {g});
    OnlyValid(w, w2, {g});
    var w3 := w2.(current := Some(g)).CreateBuffer(Operation.Accept);
    CreateBufferSockets(w2.(current := Some(g)), Operation.Accept);
    SameSockets(w2, w3, {g});
    OnlyAgain(w, w2, w3, {g});
    OnlyValid(w, w3, {g});
    DeleteStays(w, w3, g);
    var w4 := w3.Post(w2.buffers.Slot(), listener, Operation.Accept).Do(Publish(g));
    SameSockets(w3, w4, {g});
    OnlyAgain(w, w3, w4, {g});
    OnlyValid(w, w4, {g});
    SetStateOnly(w4, g, ACCEPTING);
    OnlyAgain(w, w4, w4.SetState(g, ACCEPTING), {g});
  }

  // ---------- teardown ----------

  /** At most the socket's own id left the map. */
  ghost predicate Loses(w: World, w': World, id: Uuid) { w'.ids == w.ids || w'.ids == w.ids - {id} }

  lemma {:induction false} UnregisterOnly(w: World, r: Node)
    requires w.sockets.Valid()
    ensures Only(w, w.Unregister(r), {r}) && Loses(w, w.Unregister(r), w.At(r).id)
  {
    hide World.EraseSocket, Only;
    var w1 := if w.At(r).state == RETRY_CONNECTION then w else w.(ids := w.ids - {w.At(r).id}).Section(MapLock);
    var w2 := w1.Do(Leave(SockLock(r)));
    SameSockets(w, w2, {r});
    EraseOnly(w2, r);
    OnlyAgain(w, w2, w2.EraseSocket(r), {r});
    EraseIds(w2, r);
  }

  lemma {:induction false} EraseIds(w: World, r: Node)
    ensures w.EraseSocket(r).ids == w.ids
  {
  }

  lemma {:induction false} CloseThenUnregisterOnly(w: World, r: Node, force: bool, os: TeardownOs)
    requires w.sockets.Valid()
    ensures var w' := w.Close(r, force, os).Unregister(r); Only(w, w', {r}) && Loses(w, w', w.At(r).id)
  {
    var w1 := w.Close(r, force, os);
    CloseOnly(w, r, force, os);
    CloseId(w, r, force, os);
    UnregisterOnly(w1, r);
    hide World.Unregister, World.Close;
    OnlyAgain(w, w1, w1.Unregister(r), {r});
  }

  lemma {:induction false} CloseId(w: World, r: Node, force: bool, os: TeardownOs)
    ensures w.Close(r, force, os).At(r).id == w.At(r).id && w.Close(r, force, os).ids == w.ids
  {
  }

  lemma {:induction false} TeardownOnly(w: World, r: Node, os: TeardownOs)
    requires w.sockets.Valid()
    ensures Only(w, w.DeleteOrDisconnect(r, os), {r}) && Loses(w, w.DeleteOrDisconnect(r, os), w.At(r).id)
    decreases if w.At(r).state == CLOSING then 2 else 0
  {
    hide Only, World.Unregister, World.Close, World.Disconnect;
    var w1 := w.Do(Enter(SockLock(r)));
    SameSockets(w, w1, {r});
    var w2 := w1.Section(QueueLock);
    SameSockets(w, w2, {r});
    if w.At(r).state == CLOSING && w.ShouldReuse() {
      DisconnectOnly(w2, r, os);
      OnlyAgain(w, w2, w2.Disconnect(r, os), {r});
    } else if w.At(r).state == CLOSING {
      CloseThenUnregisterOnly(w2, r, false, os);
      OnlyAgain(w, w2, w2.Close(r, false, os).Unregister(r), {r});
    } else if w.At(r).state in {CONNECTED, FAILURE, LISTENING} {
      CloseThenUnregisterOnly(w1, r, w.At(r).state != CONNECTED, os);
      OnlyAgain(w, w1, w1.Close(r, w.At(r).state != CONNECTED, os).Unregister(r), {r});
    } else {
      UnregisterOnly(w1, r);
      OnlyAgain(w, w1, w1.Unregister(r), {r});
    }
  }

  lemma {:induction false} DisconnectOnly(w: World, r: Node, os: TeardownOs)
    requires w.sockets.Valid()
    ensures Only(w, w.Disconnect(r, os), {r}) && Loses(w, w.Disconnect(r, os), w.At(r).id)
    decreases 1
  {
    hide Only, World.DeleteOrDisconnect, World.SetState, World.CreateBuffer;
    var b, st := w.buffers.Slot(), if os.disconnectOk then DISCONNECTING else FAILURE;
    var w1 := w.CreateBuffer(Operation.Disconnect);
    CreateBufferSockets(w, Operation.Disconnect);
    var w2 := if os.disconnectOk then w1.Post(b, r, Operation.Disconnect) else w1;
    SameSockets(w, w2, {r});
    OnlyValid(w, w2, {r});
    SetStateOnly(w2, r, st);
    SetStateId(w2, r, st);
    var w3 := w2.SetState(r, st);
    OnlyAgain(w, w2, w3, {r});
    OnlyValid(w, w3, {r});
    if os.disconnectOk {
      SameSockets(w3, w.Disconnect(r, os), {r});
      OnlyAgain(w, w3, w.Disconnect(r, os), {r});
    } else {
      var w4 := w3.Do(Leave(SockLock(r)));
      SameSockets(w3, w4, {r});
      OnlyAgain(w, w3, w4, {r});
      TeardownOnly(w4, r, os);
      OnlyAgain(w, w4, w4.DeleteOrDisconnect(r, os), {r});
    }
  }

  lemma {:induction false} SetStateId(w: World, r: Node, st: SocketState)
    ensures w.SetState(r, st).At(r).id == w.At(r).id && w.SetState(r, st).ids == w.ids
    ensures w.SetState(r, st).At(r).state in {st, CLOSED}
  {
  }

  // ---------- connections ----------

  lemma {:induction false} StartOnly(w: World, r: Node, b: Node, os: ConnectionOs)
    requires w.sockets.Valid()
    ensures Only(w, w.StartReceiving(r, b, os), {r}) && Loses(w, w.StartReceiving(r, b, os), w.At(r).id)
  {
    hide Only, World.DeleteOrDisconnect, World.Put;
    var w1 := w.ChangeSocketState(r, CONNECTED);
    ChangeOnly(w, r, CONNECTED);
    var w2 := w1.PutBuf(b, w1.BufAt(b).(operation := Operation.Read));
    SameSockets(w1, w2, {r});
    var w3 := w2.PostRecv(r, b, os.recvOk);
    PostRecvOnly(w2, r, b, os.recvOk);
    OnlyAgain(w, w1, w2, {r});
    OnlyAgain(w, w2, w3, {r});
    OnlyValid(w, w3, {r});
    var w4 := w3.ChangeSocketState(r, FAILURE);
    ChangeOnly(w3, r, FAILURE);
    OnlyAgain(w, w3, w4, {r});
    OnlyValid(w, w4, {r});
    var w5 := w4.DeleteBuffer(b);
    SameSockets(w4, w5, {r});
    OnlyAgain(w, w4, w5, {r});
    TeardownOnly(w5, r, os.teardown);
    OnlyAgain(w, w5, w5.DeleteOrDisconnect(r, os.teardown), {r});
  }

  lemma {:induction false} ChangeOnly(w: World, r: Node, st: SocketState)
    requires w.sockets.Valid()
    ensures Only(w, w.ChangeSocketState(r, st), {r}) && w.ChangeSocketState(r, st).ids == w.ids
    ensures w.ChangeSocketState(r, st).At(r).id == w.At(r).id && w.ChangeSocketState(r, st).sockets.Valid()
  {
    PutOnly(w, r, w.At(r).(state := st));
  }

  lemma {:induction false} PostRecvOnly(w: World, r: Node, b: Node, ok: bool)
    requires w.sockets.Valid()
    ensures Only(w, w.PostRecv(r, b, ok), {r}) && w.PostRecv(r, b, ok).ids == w.ids
    ensures w.PostRecv(r, b, ok).At(r).id == w.At(r).id
  {
    PutOnly(w.Post(b, r, Operation.Read), r, w.At(r).RecvPosted());
  }

  // ---------- ids ----------

  /** If the socket is still listed, its id is the one it had. */
  ghost predicate KeepsId(w: World, w': World, r: Node) { r in w'.sockets.live ==> w'.At(r).id == w.At(r).id }

  lemma {:induction false} UnregisterId(w: World, r: Node)
    requires w.sockets.Valid()
    ensures KeepsId(w, w.Unregister(r), r)
  {
    hide World.EraseSocket;
    var w1 := if w.At(r).state == RETRY_CONNECTION then w else w.(ids := w.ids - {w.At(r).id}).Section(MapLock);
    EraseOnly(w1.Do(Leave(SockLock(r))), r);
    EraseFaults(w1.Do(Leave(SockLock(r))), r);
  }

  lemma {:induction false} EraseFaults(w: World, r: Node)
    ensures r !in w.sockets.live ==> w.EraseSocket(r).sockets == w.sockets
  {
  }

  lemma {:induction false} CloseUnregisterId(w: World, r: Node, force: bool, os: TeardownOs)
    requires w.sockets.Valid()
    ensures KeepsId(w, w.Close(r, force, os).Unregister(r), r)
  {
    CloseOnly(w, r, force, os);
    CloseId(w, r, force, os);
    UnregisterId(w.Close(r, force, os), r);
    hide World.Unregister, World.Close;
  }

  lemma {:induction false} TeardownId(w: World, r: Node, os: TeardownOs)
    requires w.sockets.Valid()
    ensures KeepsId(w, w.DeleteOrDisconnect(r, os), r)
    decreases if w.At(r).state == CLOSING then 2 else 0
  {
    hide World.Unregister, World.Close, World.Disconnect;
    var w1 := w.Do(Enter(SockLock(r)));
    var w2 := w1.Section(QueueLock);
    if w.At(r).state == CLOSING && w.ShouldReuse() {
      DisconnectId(w2, r, os);
    } else if w.At(r).state == CLOSING {
      CloseUnregisterId(w2, r, false, os);
    } else if w.At(r).state in {CONNECTED, FAILURE, LISTENING} {
      CloseUnregisterId(w1, r, w.At(r).state != CONNECTED, os);
    } else {
      UnregisterId(w1, r);
    }
  }

  lemma {:induction false} DisconnectId(w: World, r: Node, os: TeardownOs)
    requires w.sockets.Valid()
    ensures KeepsId(w, w.Disconnect(r, os), r)
    decreases 1
  {
    hide World.DeleteOrDisconnect, World.SetState, World.CreateBuffer;
    var b, st := w.buffers.Slot(), if os.disconnectOk then DISCONNECTING else FAILURE;
    var w1 := w.CreateBuffer(Operation.Disconnect);
    CreateBufferSockets(w, Operation.Disconnect);
    var w2 := if os.disconnectOk then w1.Post(b, r, Operation.Disconnect) else w1;
    SetStateOnly(w2, r, st);
    SetStateId(w2, r, st);
    if !os.disconnectOk {
      TeardownId(w2.SetState(r, st).Do(Leave(SockLock(r))), r, os);
    }
  }

  lemma {:induction false} StartId(w: World, r: Node, b: Node, os: ConnectionOs)
    requires w.sockets.Valid()
    ensures KeepsId(w, w.StartReceiving(r, b, os), r)
  {
    hide Only, World.DeleteOrDisconnect, World.ChangeSocketState, World.PostRecv;
    var w1 := w.ChangeSocketState(r, CONNECTED);
    ChangeOnly(w, r, CONNECTED);
    var w2 := w1.PutBuf(b, w1.BufAt(b).(operation := Operation.Read));
    var w3 := w2.PostRecv(r, b, os.recvOk);
    PostRecvOnly(w2, r, b, os.recvOk);
    OnlyValid(w2, w3, {r});
    var w4 := w3.ChangeSocketState(r, FAILURE);
    ChangeOnly(w3, r, FAILURE);
    TeardownId(w4.DeleteBuffer(b), r, os.teardown);
  }
}
