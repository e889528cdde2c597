/** The containers' locks: no step changes the socket list, the buffer list, the map or the reuse queue without
    having taken the lock that guards it. */
module Guards {
  import opened SocketTypes
  import opened RecyclableList
  import opened TimeWait
  import opened Engine

  /** What happened to the locks since `w`. */
  function Events(w: World, w': World): seq<Event> {
    if |w.log| <= |w'.log| then w'.log[|w.log|..] else []
  }

  /** The log only grew; and each container that changed has had its lock taken. */
  ghost predicate Guarded(w: World, w': World) {
    && |w.log| <= |w'.log| && w'.log[..|w.log|] == w.log
    && (w'.sockets.live != w.sockets.live ==> Enter(SockListLock) in Events(w, w'))
    && (w'.buffers.live != w.buffers.live ==> Enter(BufListLock) in Events(w, w'))
    && (w'.ids != w.ids ==> Enter(MapLock) in Events(w, w'))
    && (w'.queue != w.queue ==> Enter(QueueLock) in Events(w, w'))
  }

  lemma {:induction false} Twice(w: World, w': World, w'': World)
    requires Guarded(w, w') && Guarded(w', w'')
    ensures Guarded(w, w'')
  {
    assert w''.log[..|w.log|] == w''.log[..|w'.log|][..|w.log|];
    assert Events(w, w'') == Events(w, w') + Events(w', w'');
  }

  /** Containers that stay as they are need no lock. */
  lemma {:induction false} Unchanged(w: World, w': World, es: seq<Event>)
    requires w'.log == w.log + es && w'.sockets.live == w.sockets.live && w'.buffers.live == w.buffers.live
    requires w'.ids == w.ids && w'.queue == w.queue
    ensures Guarded(w, w')
  {
  }

  /** A section of one lock, with whatever it guards changed. */
  lemma {:induction false} Changed(w: World, w': World, l: Lock)
    requires w'.log == w.log + [Enter(l)] + [Leave(l)]
    requires l == SockListLock || w'.sockets.live == w.sockets.live
    requires l == BufListLock || w'.buffers.live == w.buffers.live
    requires l == MapLock || w'.ids == w.ids
    requires l == QueueLock || w'.queue == w.queue
    ensures Guarded(w, w')
  {
    assert Events(w, w') == [Enter(l)] + [Leave(l)];
  }

  // ---------- single operations ----------

  lemma {:induction false} PutGuarded(w: World, r: Node, s: Socket)
    ensures Guarded(w, w.Put(r, s))
  {
    Unchanged(w, w.Put(r, s), []);
  }

  lemma {:induction false} DoGuarded(w: World, e: Event)
    ensures Guarded(w, w.Do(e)) && Guarded(w, w)
  {
    Unchanged(w, w.Do(e), [e]);
    Unchanged(w, w, []);
  }

  lemma {:induction false} SectionGuarded(w: World, l: Lock)
    ensures Guarded(w, w.Section(l))
  {
    Changed(w, w.Section(l), l);
  }

  lemma {:induction false} ChangeGuarded(w: World, r: Node, st: SocketState)
    ensures Guarded(w, w.ChangeSocketState(r, st)) && Guarded(w, w.SetState(r, st))
  {
    Changed(w, w.ChangeSocketState(r, st), SockLock(r));
    PutGuarded(w, r, w.At(r).(state := st));
  }

  lemma {:induction false} ListsGuarded(w: World, op: Operation, b: Node, r: Node)
    ensures Guarded(w, w.CreateBuffer(op)) && Guarded(w, w.DeleteBuffer(b))
    ensures Guarded(w, w.CreateSocket()) && Guarded(w, w.EraseSocket(r))
  {
    Changed(w, w.CreateBuffer(op), BufListLock);
    Changed(w, w.DeleteBuffer(b), BufListLock);
    Changed(w, w.CreateSocket(), SockListLock);
    Changed(w, w.EraseSocket(r), SockListLock);
  }

  lemma {:induction false} PutBufGuarded(w: World, b: Node, buf: Buffer)
    ensures Guarded(w, w.PutBuf(b, buf))
  {
    Unchanged(w, w.PutBuf(b, buf), []);
  }

  lemma {:induction false} PostGuarded(w: World, r: Node, b: Node, ok: bool)
    ensures Guarded(w, w.PostRecv(r, b, ok)) && Guarded(w, w.PostSend(r, b, ok))
  {
    Changed(w, w.PostRecv(r, b, ok), SockLock(r));
    Changed(w, w.PostSend(r, b, ok), SockLock(r));
  }

  lemma {:induction false} AddGuarded(w: World, r: Node, id: Uuid)
    ensures Guarded(w, w.AddSocketToMap(r, id))
  {
    Changed(w, w.AddSocketToMap(r, id), MapLock);
  }

  // ---------- teardown ----------

  lemma {:induction false} CloseGuarded(w: World, r: Node, force: bool, os: TeardownOs)
    ensures Guarded(w, w.Close(r, force, os))
  {
    hide Guarded, World.Put;
    DoGuarded(w, Leave(MapLock));
    var w1 := if (force || os.shutdown == SysResult.Error) &&
      os.lingerOk then w.Put(r, w.At(r).(abortive := true)) else w;
    PutGuarded(w, r, w.At(r).(abortive := true));
    var s := w1.At(r).(hasHandle := false, state := CLOSED);
    PutGuarded(w1, r, s);
    Twice(w, w1, w1.Put(r, s));
  }

  lemma {:induction false} DeleteGuarded(w: World, r: Node, os: TeardownOs)
    ensures Guarded(w, w.DeleteSocket(r, os))
  {
    hide Guarded, World.Close, World.EraseSocket, World.Do;
    var w1 := w.Do(Enter(SockLock(r)));
    DoGuarded(w, Enter(SockLock(r)));
    CloseGuarded(w1, r, w.At(r).state == FAILURE, os);
    var w2 := if w.At(r).hasHandle && (w.At(r).state == CONNECTED || w.At(r).state == FAILURE)
              then w1.Close(r, w.At(r).state == FAILURE, os) else w1;
    DoGuarded(w1, Enter(SockLock(r)));
    Twice(w, w1, w2);
    var w3 := w2.Do(Leave(SockLock(r)));
    DoGuarded(w2, Leave(SockLock(r)));
    Twice(w, w2, w3);
    ListsGuarded(w3, Operation.Read, 0, r);
    Twice(w, w3, w3.EraseSocket(r));
  }

  lemma {:induction false} UnregisterGuarded(w: World, r: Node)
    ensures Guarded(w, w.Unregister(r))
  {
    hide World.EraseSocket;
    var w1 := if w.At(r).state == RETRY_CONNECTION then w else w.(ids := w.ids - {w.At(r).id}).Section(MapLock);
    if w.At(r).state == RETRY_CONNECTION {
      Unchanged(w, w1, []);
    } else {
      Changed(w, w1, MapLock);
    }
    var w2 := w1.Do(Leave(SockLock(r)));
    DoGuarded(w1, Leave(SockLock(r)));
    ListsGuarded(w2, Operation.Read, 0, r);
    hide Guarded;
    Twice(w, w1, w2);
    Twice(w, w2, w2.EraseSocket(r));
  }

  lemma {:induction false} CloseThenUnregister(w: World, r: Node, force: bool, os: TeardownOs)
    ensures Guarded(w, w.Close(r, force, os).Unregister(r))
  {
    CloseGuarded(w, r, force, os);
    UnregisterGuarded(w.Close(r, force, os), r);
    hide Guarded, World.Close, World.Unregister;
    Twice(w, w.Close(r, force, os), w.Close(r, force, os).Unregister(r));
  }

  lemma {:induction false} TeardownGuarded(w: World, r: Node, os: TeardownOs)
    ensures Guarded(w, w.DeleteOrDisconnect(r, os))
    decreases if w.At(r).state == CLOSING then 2 else 0
  {
    hide Guarded, World.Close, World.Unregister, World.Disconnect;
    var w1 := w.Do(Enter(SockLock(r)));
    DoGuarded(w, Enter(SockLock(r)));
    var w2 := w1.Section(QueueLock);
    SectionGuarded(w1, QueueLock);
    Twice(w, w1, w2);
    if w.At(r).state == CLOSING && w.ShouldReuse() {
      DisconnectGuarded(w2, r, os);
      Twice(w, w2, w2.Disconnect(r, os));
    } else if w.At(r).state == CLOSING {
      CloseThenUnregister(w2, r, false, os);
      Twice(w, w2, w2.Close(r, false, os).Unregister(r));
    } else if w.At(r).state in {CONNECTED, FAILURE, LISTENING} {
      CloseThenUnregister(w1, r, w.At(r).state != CONNECTED, os);
      Twice(w, w1, w1.Close(r, w.At(r).state != CONNECTED, os).Unregister(r));
    } else {
      UnregisterGuarded(w1, r);
      Twice(w, w1, w1.Unregister(r));
    }
  }

  lemma {:induction false} ForgetGuarded(w: World, r: Node)
    ensures Guarded(w, w.Forget(r))
  {
    if w.forgets {
      Changed(w, w.Forget(r), MapLock);
    } else {
      Unchanged(w, w, []);
    }
  }

  lemma {:induction false} DisconnectGuarded(w: World, r: Node, os: TeardownOs)
    ensures Guarded(w, w.Disconnect(r, os))
    decreases 1
  {
    hide Guarded, World.DeleteOrDisconnect, World.SetState, World.CreateBuffer, World.Forget, World.Do;
    var b, w1 := w.buffers.Slot(), w.CreateBuffer(Operation.Disconnect);
    ListsGuarded(w, Operation.Disconnect, 0, r);
    if os.disconnectOk {
      var w2 := w1.Post(b, r, Operation.Disconnect);
      Unchanged(w1, w2, []);
      Twice(w, w1, w2);
      var w3 := w2.SetState(r, DISCONNECTING);
      ChangeGuarded(w2, r, DISCONNECTING);
      Twice(w, w2, w3);
      ForgetGuarded(w3, r);
      Twice(w, w3, w3.Forget(r));
      DoGuarded(w3.Forget(r), Leave(SockLock(r)));
      Twice(w, w3.Forget(r), w.Disconnect(r, os));
    } else {
      var w2 := w1.SetState(r, FAILURE);
      ChangeGuarded(w1, r, FAILURE);
      Twice(w, w1, w2);
      FailedState(w1, r);
      var w3 := w2.Do(Leave(SockLock(r)));
      DoGuarded(w2, Leave(SockLock(r)));
      Twice(w, w2, w3);
      TeardownGuarded(w3, r, os);
      Twice(w, w3, w3.DeleteOrDisconnect(r, os));
    }
  }

  lemma {:induction false} FailedState(w: World, r: Node)
    ensures w.SetState(r, FAILURE).Do(Leave(SockLock(r))).At(r).state != CLOSING
  {
  }

  // ---------- sending ----------

  lemma {:induction false} ChunkGuarded(w: World, r: Node, b: Node, length: nat, ok: bool)
    ensures var w0 := w.PrepareChunk(length);
            Guarded(w, if ok then w0.PostSend(r, b, true) else w0.RefuseChunk(r, b))
  {
    hide Guarded, World.CreateBuffer, World.PutBuf, World.PostSend, World.ChangeSocketState, World.DeleteBuffer;
    var w0, w1 := w.PrepareChunk(length), w.CreateBuffer(Operation.Write);
    ListsGuarded(w, Operation.Write, 0, r);
    PutBufGuarded(w1, w.buffers.Slot(), w1.BufAt(w.buffers.Slot()).(bufLen := ChunkLen(length)));
    Twice(w, w1, w0);
    var w2 := w0.PostSend(r, b, ok);
    PostGuarded(w0, r, b, ok);
    Twice(w, w0, w2);
    if !ok {
      var w3 := w2.ChangeSocketState(r, FAILURE);
      ChangeGuarded(w2, r, FAILURE);
      Twice(w, w2, w3);
      ListsGuarded(w3, Operation.Write, b, r);
      Twice(w, w3, w3.DeleteBuffer(b));
    }
  }

  lemma {:induction false} SendGuarded(w: World, r: Node, length: nat, failAt: nat)
    ensures Guarded(w, w.SendChunks(r, length, failAt))
    decreases length
  {
    hide Guarded, World.PrepareChunk, World.PostSend, World.RefuseChunk;
    DoGuarded(w, Leave(MapLock));
    if length > 0 {
      var b := w.buffers.Slot();
      ChunkGuarded(w, r, b, length, failAt > 0);
      if failAt > 0 {
        var w1 := w.PrepareChunk(length).PostSend(r, b, true);
        SendGuarded(w1, r, length - ChunkLen(length), failAt - 1);
        Twice(w, w1, w.SendChunks(r, length, failAt));
      }
    }
  }

  lemma {:induction false} SendDataGuarded(w: World, r: Node, length: nat, failAt: nat)
    ensures Guarded(w, w.SendData(r, length, failAt))
  {
    hide Guarded, World.SendChunks;
    SendGuarded(w, r, length, failAt);
    DoGuarded(w, Leave(MapLock));
  }

  lemma {:induction false} SendAllGuarded(w: World, nodes: seq<Node>, length: nat, failAts: map<Node, nat>)
    ensures Guarded(w, w.SendDataToAll(nodes, length, failAts))
    decreases |nodes|
  {
    hide Guarded, World.SendData;
    DoGuarded(w, Leave(MapLock));
    if nodes != [] {
      var failAt := if nodes[0] in failAts then failAts[nodes[0]] else length;
      var w1 := w.SendData(nodes[0], length, failAt);
      SendDataGuarded(w, nodes[0], length, failAt);
      SendAllGuarded(w1, nodes[1..], length, failAts);
      Twice(w, w1, w.SendDataToAll(nodes, length, failAts));
    }
  }

  // ---------- creating sockets ----------

  lemma {:induction false} ReuseGuarded(w: World)
    ensures Guarded(w, w.ReuseSocket().0)
  {
    Changed(w, w.ReuseSocket().0, QueueLock);
  }

  lemma {:induction false} GenerateGuarded(w: World, reuse: bool, createOk: bool)
    ensures Guarded(w, w.GenerateSocket(reuse, createOk).0)
  {
    hide Guarded, World.ReuseSocket, World.CreateSocket, World.Do;
    DoGuarded(w, Leave(MapLock));
    ReuseGuarded(w);
    var (w1, g) := if reuse then w.ReuseSocket() else (w, None);
    if g.Some? {
      DoGuarded(w1, Take(g.value));
      Twice(w, w1, w1.Do(Take(g.value)));
    } else if createOk {
      ListsGuarded(w1, Operation.Read, 0, 0);
      Twice(w, w1, w1.CreateSocket());
      DoGuarded(w1.CreateSocket(), Take(w1.sockets.Slot()));
      Twice(w, w1.CreateSocket(), w1.CreateSocket().Do(Take(w1.sockets.Slot())));
    }
  }

  lemma {:induction false} PrepareGuarded(w: World, r: Node, ok: bool, bind: BindOs)
    ensures Guarded(w, w.AssociateSocketToIOCP(r, ok)) && Guarded(w, w.BindSocket(r, bind))
    ensures Guarded(w, w.PrepareSocket(r, ok, bind).0)
  {
    hide Guarded, World.SetState, World.DeleteSocket;
    DoGuarded(w, Leave(MapLock));
    ChangeGuarded(w, r, ASSOCIATED);
    ChangeGuarded(w, r, BOUND);
    DeleteGuarded(w, r, NEVER_CONNECTED);
    var w1 := w.SetState(r, ASSOCIATED);
    ChangeGuarded(w1, r, BOUND);
    DeleteGuarded(w1, r, NEVER_CONNECTED);
    Twice(w, w1, w1.SetState(r, BOUND));
    Twice(w, w1, w1.DeleteSocket(r, NEVER_CONNECTED));
  }

  lemma {:induction false} ConnectGuarded(w: World, id: Uuid, os: ConnectOs)
    ensures Guarded(w, w.ConnectToNewSocket(id, os).0)
  {
    hide Guarded, World.GenerateSocket, World.PrepareSocket, World.DeleteSocket, World.CreateBuffer,
         World.AddSocketToMap;
    DoGuarded(w, Leave(MapLock));
    var (w1, g) := w.GenerateSocket(true, os.createOk);
    GenerateGuarded(w, true, os.createOk);
    if g.Some? {
      var r := g.value;
      var w2 := w1.PrepareSocket(r, os.associateOk, os.bind).0;
      PrepareGuarded(w1, r, os.associateOk, os.bind);
      Twice(w, w1, w2);
      DeleteGuarded(w2, r, NEVER_CONNECTED);
      Twice(w, w2, w2.DeleteSocket(r, NEVER_CONNECTED));
      var w3 := w2.CreateBuffer(Operation.Connect);
      ListsGuarded(w2, Operation.Connect, 0, r);
      Twice(w, w2, w3);
      DeleteGuarded(w3, r, NEVER_CONNECTED);
      Twice(w, w3, w3.DeleteSocket(r, NEVER_CONNECTED));
      var w4 := w3.Post(w2.buffers.Slot(), r, Operation.Connect).Do(Publish(r));
      Unchanged(w3, w4, [Publish(r)]);
      Twice(w, w3, w4);
      AddGuarded(w4, r, id);
      Twice(w, w4, w4.AddSocketToMap(r, id));
    }
  }

  lemma {:induction false} AcceptGuarded(w: World, listener: Node, os: AcceptOs)
    ensures Guarded(w, w.AcceptNewSocket(listener, os).0)
  {
    hide Guarded, World.GenerateSocket, World.AssociateSocketToIOCP, World.DeleteSocket, World.CreateBuffer,
         World.SetState;
    var (w1, g) := w.GenerateSocket(true, os.createOk);
    GenerateGuarded(w, true, os.createOk);
    if g.Some? {
      var r := g.value;
      var w2 := w1.AssociateSocketToIOCP(r, os.associateOk);
      PrepareGuarded(w1, r, os.associateOk, Bound);
      Twice(w, w1, w2);
      var w3 := w2.(current := Some(r));
      Unchanged(w2, w3, []);
      Twice(w, w2, w3);
      var w4 := w3.CreateBuffer(Operation.Accept);
      ListsGuarded(w3, Operation.Accept, 0, r);
      Twice(w, w3, w4);
      DeleteGuarded(w4, r, NEVER_CONNECTED);
      Twice(w, w4, w4.DeleteSocket(r, NEVER_CONNECTED));
      var w5 := w4.Post(w3.buffers.Slot(), listener, Operation.Accept).Do(Publish(r));
      Unchanged(w4, w5, [Publish(r)]);
      Twice(w, w4, w5);
      ChangeGuarded(w5, r, ACCEPTING);
      Twice(w, w5, w5.SetState(r, ACCEPTING));
    }
  }

  lemma {:induction false} ListenGuarded(w: World, os: ListenOs)
    ensures Guarded(w, w.ListenToNewSocket(os).0)
  {
    hide Guarded, World.GenerateSocket, World.AssociateSocketToIOCP, World.BindSocket, World.DeleteSocket,
         World.AcceptNewSocket, World.SetState, World.AddSocketToMap;
    DoGuarded(w, Leave(MapLock));
    var (w1, g) := w.GenerateSocket(false, os.createOk);
    GenerateGuarded(w, false, os.createOk);
    if g.Some? {
      var r := g.value;
      DeleteGuarded(w1, r, NEVER_CONNECTED);
      Twice(w, w1, w1.DeleteSocket(r, NEVER_CONNECTED));
      var w2 := w1.AssociateSocketToIOCP(r, os.associateOk);
      PrepareGuarded(w1, r, os.associateOk, os.bind);
      Twice(w, w1, w2);
      var w3 := w2.BindSocket(r, os.bind);
      PrepareGuarded(w2, r, true, os.bind);
      Twice(w, w2, w3);
      DeleteGuarded(w3, r, NEVER_CONNECTED);
      Twice(w, w3, w3.DeleteSocket(r, NEVER_CONNECTED));
      ListenAcceptGuarded(w3, r, os.accept);
      var (w5, accepting) := w3.SetState(r, LISTENING).AcceptNewSocket(r, os.accept);
      Twice(w, w3, if accepting then w5.AddSocketToMap(r, NIL_UUID).(mgr := SERVER_LISTENING)
                   else w5.DeleteSocket(r, NEVER_CONNECTED));
    }
  }

  lemma {:induction false} ListenAcceptGuarded(w: World, r: Node, os: AcceptOs)
    ensures var (w', accepting) := w.SetState(r, LISTENING).AcceptNewSocket(r, os);
            Guarded(w, if accepting then w'.AddSocketToMap(r, NIL_UUID).(mgr := SERVER_LISTENING)
                       else w'.DeleteSocket(r, NEVER_CONNECTED))
  {
    hide Guarded, World.AcceptNewSocket, World.SetState, World.AddSocketToMap, World.DeleteSocket;
    var w1 := w.SetState(r, LISTENING);
    ChangeGuarded(w, r, LISTENING);
    var w2 := w1.AcceptNewSocket(r, os).0;
    AcceptGuarded(w1, r, os);
    Twice(w, w1, w2);
    var w3 := w2.AddSocketToMap(r, NIL_UUID);
    AddGuarded(w2, r, NIL_UUID);
    Twice(w, w2, w3);
    Unchanged(w3, w3.(mgr := SERVER_LISTENING), []);
    Twice(w, w3, w3.(mgr := SERVER_LISTENING));
    DeleteGuarded(w2, r, NEVER_CONNECTED);
    Twice(w, w2, w2.DeleteSocket(r, NEVER_CONNECTED));
  }

  // ---------- calls ----------

  lemma {:induction false} CallGuarded(w: World, own: Option<Node>, c: UserCall)
    ensures Guarded(w, w.UserCalls(own, c))
  {
    hide Guarded, World.SendData, World.SendDataToAll, World.ConnectToNewSocket, World.ListenToNewSocket,
         World.ChangeSocketState;
    DoGuarded(w, Leave(MapLock));
    match c {
      case SendTo(id, data, failAt) =>
        var w1 := w.Section(MapLock);
        SectionGuarded(w, MapLock);
        Unchanged(w1, w1.Fault(), []);
        Twice(w, w1, w1.Fault());
        if id in w.ids {
          SendDataGuarded(w1, w.ids[id], |data|, failAt);
          Twice(w, w1, w1.SendData(w.ids[id], |data|, failAt));
        }
      case SendToAll(data, failAts) => SendAllGuarded(w, w.sockets.live, |data|, failAts);
      case ConnectNew(os) => ConnectGuarded(w, NIL_UUID, os);
      case ListenNew(os) => ListenGuarded(w, os);
      case OwnSend(data, failAt) =>
        if own.Some? {
          SendDataGuarded(w, own.value, |data|, failAt);
        }
      case OwnClose =>
        if own.Some? {
          ChangeGuarded(w, own.value, CLOSING);
        }
    }
  }

  lemma {:induction false} ReceiveGuarded(w: World, own: Node, cs: seq<UserCall>)
    ensures Guarded(w, w.ReceiveData(own, cs))
    decreases |cs|
  {
    hide Guarded, World.UserCalls;
    DoGuarded(w, Leave(MapLock));
    if cs != [] {
      var w1 := w.UserCalls(Some(own), cs[0]);
      CallGuarded(w, Some(own), cs[0]);
      ReceiveGuarded(w1, own, cs[1..]);
      Twice(w, w1, w.ReceiveData(own, cs));
    }
  }

  // ---------- completions ----------

  lemma {:induction false} PutSectionGuarded(w: World, r: Node, s: Socket)
    ensures Guarded(w, w.Put(r, s).Section(SockLock(r)))
  {
    PutGuarded(w, r, s);
    SectionGuarded(w.Put(r, s), SockLock(r));
    hide Guarded, World.Put, World.Section;
    Twice(w, w.Put(r, s), w.Put(r, s).Section(SockLock(r)));
  }

  lemma {:induction false} AfterReceiveGuarded(w: World, r: Node, b: Node, ok: bool)
    ensures Guarded(w, w.AfterReceive(r, b, ok))
  {
    hide Guarded, World.PutBuf, World.PostRecv, World.ChangeSocketState, World.DeleteBuffer, World.Do;
    var w1 := w.PutBuf(b, w.BufAt(b).(bufLen := DEFAULT_BUFFER_SIZE));
    PutBufGuarded(w, b, w.BufAt(b).(bufLen := DEFAULT_BUFFER_SIZE));
    ListsGuarded(w1, Operation.Read, b, r);
    Twice(w, w1, w1.DeleteBuffer(b));
    var w2 := w1.PostRecv(r, b, ok);
    PostGuarded(w1, r, b, ok);
    Twice(w, w1, w2);
    var w3 := w2.ChangeSocketState(r, FAILURE);
    ChangeGuarded(w2, r, FAILURE);
    Twice(w, w2, w3);
    var w4 := w3.Do(Leave(SockLock(r)));
    DoGuarded(w3, Leave(SockLock(r)));
    Twice(w, w3, w4);
    ListsGuarded(w4, Operation.Read, b, r);
    Twice(w, w4, w4.DeleteBuffer(b));
  }

  lemma {:induction false} ReadGuarded(w: World, r: Node, b: Node, bytes: nat, cs: seq<UserCall>, ok: bool)
    ensures Guarded(w, w.HandleRead(r, b, bytes, cs, ok))
  {
    hide Guarded, World.Put, World.Section, World.PutBuf, World.ReceiveData, World.AfterReceive,
         World.ChangeSocketState, World.DeleteBuffer;
    var w1 := w.Put(r, w.At(r).RecvDone()).Section(SockLock(r));
    PutSectionGuarded(w, r, w.At(r).RecvDone());
    if bytes > 0 {
      var w2 := w1.PutBuf(b, w1.BufAt(b).(bufLen := bytes));
      PutBufGuarded(w1, b, w1.BufAt(b).(bufLen := bytes));
      Twice(w, w1, w2);
      var w3 := w2.ReceiveData(r, cs);
      ReceiveGuarded(w2, r, cs);
      Twice(w, w2, w3);
      AfterReceiveGuarded(w3, r, b, ok);
      Twice(w, w3, w3.AfterReceive(r, b, ok));
    } else {
      EndGuarded(w, w1, r, b, CLOSING);
    }
  }

  lemma {:induction false} EndGuarded(w: World, w1: World, r: Node, b: Node, st: SocketState)
    requires Guarded(w, w1)
    ensures Guarded(w, w1.ChangeSocketState(r, st).DeleteBuffer(b)) && Guarded(w, w1.DeleteBuffer(b))
  {
    hide Guarded, World.ChangeSocketState, World.DeleteBuffer;
    var w2 := w1.ChangeSocketState(r, st);
    ChangeGuarded(w1, r, st);
    Twice(w, w1, w2);
    ListsGuarded(w2, Operation.Read, b, r);
    Twice(w, w2, w2.DeleteBuffer(b));
    ListsGuarded(w1, Operation.Read, b, r);
    Twice(w, w1, w1.DeleteBuffer(b));
  }

  lemma {:induction false} WriteGuarded(w: World, r: Node, b: Node, bytes: nat)
    ensures Guarded(w, w.HandleWrite(r, b, bytes))
  {
    hide Guarded, World.Put, World.Section, World.ChangeSocketState, World.DeleteBuffer;
    var s := w.At(r).SendDone(w.BufAt(b).bufLen);
    PutSectionGuarded(w, r, s);
    EndGuarded(w, w.Put(r, s).Section(SockLock(r)), r, b, FAILURE);
  }

  lemma {:induction false} DisconnectedGuarded(w: World, r: Node, b: Node)
    ensures Guarded(w, w.HandleDisconnect(r, b))
  {
    hide World.Put, World.DeleteBuffer;
    var s := w.At(r).(state := DISCONNECTED, timeWaitStartTime := Tick(w.clock));
    var w1 := w.Put(r, s).Section(SockLock(r));
    PutSectionGuarded(w, r, s);
    var w2 := w1.(queue := w1.queue + [r], since := w1.since + [w1.clock]).Section(QueueLock);
    Changed(w1, w2, QueueLock);
    PutSectionClock(w, r, s);
    hide Guarded;
    Twice(w, w1, w2);
    EndGuarded(w, w2, r, b, FAILURE);
  }

  lemma {:induction false} PutSectionClock(w: World, r: Node, s: Socket)
    ensures var w' := w.Put(r, s).Section(SockLock(r));
            w'.clock == w.clock && w'.queue == w.queue && w'.since == w.since
  {
  }

  lemma {:induction false} StartGuarded(w: World, r: Node, b: Node, os: ConnectionOs)
    ensures Guarded(w, w.StartReceiving(r, b, os))
  {
    hide Guarded, World.ChangeSocketState, World.PutBuf, World.PostRecv, World.DeleteBuffer, World.DeleteOrDisconnect;
    var w1 := w.ChangeSocketState(r, CONNECTED);
    ChangeGuarded(w, r, CONNECTED);
    var w2 := w1.PutBuf(b, w1.BufAt(b).(operation := Operation.Read));
    PutBufGuarded(w1, b, w1.BufAt(b).(operation := Operation.Read));
    Twice(w, w1, w2);
    var w3 := w2.PostRecv(r, b, os.recvOk);
    PostGuarded(w2, r, b, os.recvOk);
    Twice(w, w2, w3);
    EndGuarded(w, w3, r, b, FAILURE);
    var w4 := w3.ChangeSocketState(r, FAILURE).DeleteBuffer(b);
    TeardownGuarded(w4, r, os.teardown);
    Twice(w, w4, w4.DeleteOrDisconnect(r, os.teardown));
  }

  lemma {:induction false} ConnectionGuarded(w: World, r: Node, b: Node, os: ConnectionOs)
    ensures Guarded(w, w.HandleConnection(r, b, os))
  {
    hide Guarded, World.AddSocketToMap, World.AcceptNewSocket, World.StartReceiving;
    if w.BufAt(b).operation == Operation.Connect {
      StartGuarded(w, r, b, os);
    } else if w.current.None? {
      Unchanged(w, w.Fault(), []);
    } else {
      var a := w.current.value;
      var w1 := w.AddSocketToMap(a, NIL_UUID);
      AddGuarded(w, a, NIL_UUID);
      var w2 := w1.AcceptNewSocket(r, os.accept).0;
      AcceptGuarded(w1, r, os.accept);
      Twice(w, w1, w2);
      StartGuarded(w2, a, b, os);
      Twice(w, w2, w2.StartReceiving(a, b, os));
    }
  }

  lemma {:induction false} IoGuarded(w: World, r: Node, b: Node, bytes: nat, os: IoOs)
    ensures Guarded(w, w.HandleIo(r, b, bytes, os))
  {
    hide Guarded, World.HandleRead, World.HandleWrite, World.HandleDisconnect, World.HandleConnection,
         World.Section, World.DeleteOrDisconnect;
    var w1 := match w.BufAt(b).operation
      case Read => w.HandleRead(r, b, bytes, os.callback, os.recvOk)
      case Write => w.HandleWrite(r, b, bytes)
      case Disconnect => w.HandleDisconnect(r, b)
      case _ => w.HandleConnection(r, b, os.connection);
    ReadGuarded(w, r, b, bytes, os.callback, os.recvOk);
    WriteGuarded(w, r, b, bytes);
    DisconnectedGuarded(w, r, b);
    ConnectionGuarded(w, r, b, os.connection);
    var w2 := w1.Section(SockLock(r));
    SectionGuarded(w1, SockLock(r));
    Twice(w, w1, w2);
    TeardownGuarded(w2, r, os.teardown);
    Twice(w, w2, w2.DeleteOrDisconnect(r, os.teardown));
  }

  lemma {:induction false} MarkGuarded(w: World, r: Node, b: Node, addressInUse: bool, os: ConnectOs)
    ensures Guarded(w, w.MarkError(r, b, addressInUse, os))
  {
    hide Guarded, World.ConnectToNewSocket, World.Put, World.SetState;
    match w.BufAt(b).operation {
      case Connect =>
        if addressInUse {
          var w1 := w.(timeWait := Doubled(w.timeWait));
          Unchanged(w, w1, []);
          var w2 := w1.ConnectToNewSocket(w.At(r).id, os).0;
          ConnectGuarded(w1, w.At(r).id, os);
          Twice(w, w1, w2);
          PutGuarded(w2, r, w2.At(r).(hasHandle := false, state := RETRY_CONNECTION));
          Twice(w, w2, w2.Put(r, w2.At(r).(hasHandle := false, state := RETRY_CONNECTION)));
        } else {
          ChangeGuarded(w, r, CONNECT_FAILURE);
        }
      case Read => PutGuarded(w, r, w.At(r).RecvDone().(state := FAILURE));
      case Write => PutGuarded(w, r, w.At(r).SendDone(w.BufAt(b).bufLen).(state := FAILURE));
      case _ => ChangeGuarded(w, r, FAILURE);
    }
  }

  lemma {:induction false} ErrorGuarded(w: World, r: Node, b: Node, addressInUse: bool, os: ErrorOs)
    ensures Guarded(w, w.HandleError(r, b, addressInUse, os))
  {
    hide Guarded, World.MarkError, World.DeleteOrDisconnect, World.DeleteBuffer, World.Do;
    var w1 := w.Do(Enter(SockLock(r)));
    DoGuarded(w, Enter(SockLock(r)));
    var w2 := w1.MarkError(r, b, addressInUse, os.connect);
    MarkGuarded(w1, r, b, addressInUse, os.connect);
    Twice(w, w1, w2);
    var w3 := w2.Do(Leave(SockLock(r)));
    DoGuarded(w2, Leave(SockLock(r)));
    Twice(w, w2, w3);
    EndGuarded(w, w3, r, b, FAILURE);
    var w4 := w3.DeleteOrDisconnect(r, os.teardown);
    TeardownGuarded(w3, r, os.teardown);
    Twice(w, w3, w4);
    EndGuarded(w, w4, r, b, FAILURE);
  }

  /** Every step, in any state and whatever the system answers. */
  lemma {:induction false} StepGuarded(w: World, l: Label)
    requires w.Enabled(l)
    ensures Guarded(w, w.Step(l))
  {
    hide Guarded, World.HandleIo, World.HandleError, World.UserCalls;
    var w1 := w.(clock := l.at);
    Unchanged(w, w1, []);
    match l {
      case Complete(_, i, bytes, os) =>
        Unchanged(w, w1.Dequeue(i), []);
        IoGuarded(w1.Dequeue(i), w.posted[i].key, w.posted[i].buf, bytes, os);
        Twice(w, w1.Dequeue(i), w.Step(l));
      case Fail(_, i, addressInUse, os) =>
        Unchanged(w, w1.Dequeue(i), []);
        ErrorGuarded(w1.Dequeue(i), w.posted[i].key, w.posted[i].buf, addressInUse, os);
        Twice(w, w1.Dequeue(i), w.Step(l));
      case Call(_, c) =>
        CallGuarded(w1, None, c);
        Twice(w, w1, w.Step(l));
    }
  }
}
