/** Sockets that other sockets' steps leave alone: live, not connected, not queued, and no accept about to
    fill them.  With nothing in flight on them either they stay as they are through every run, clean or not. */
module Outcasts {
  import opened SocketTypes
  import opened RecyclableList
  import opened TimeWait
  import opened Engine
  import opened EngineInvariant
  import opened Frames

  /** No operation in flight, and no buffer in hand, is an accept. */
  ghost predicate NoAccepts(w: World, hand: set<Node>) {
    && (forall p :: p in w.posted ==> w.BufAt(p.buf).operation != Operation.Accept)
    && (forall b :: b in hand ==> w.BufAt(b).operation != Operation.Accept)
  }

  /** A live socket that is neither connected nor queued, and that no accept is about to fill.  `hand`
      holds the buffers of the completion being handled. */
  ghost predicate Apart(w: World, q: Node, hand: set<Node>) {
    && w.sockets.Valid() && q in w.sockets.live && q !in w.queue && w.At(q).state != CONNECTED
    && (w.current == Some(q) ==> NoAccepts(w, hand))
  }

  /** An outcast: nothing is in flight on it either. */
  ghost predicate Outcast(w: World, q: Node, hand: set<Node>) {
    Apart(w, q, hand) && TallyOf(w.posted, q) == NOTHING
  }

  /** The socket is as it was, with the same operations in flight, and the delay is the same. */
  ghost predicate Stays(w: World, w': World, q: Node, hand: set<Node>) {
    && Apart(w', q, hand) && w'.At(q) == w.At(q)
    && TallyOf(w'.posted, q) == TallyOf(w.posted, q) && w'.timeWait == w.timeWait
  }

  lemma {:induction false} StaysTwice(w: World, w': World, w'': World, q: Node, hand: set<Node>)
    requires Stays(w, w', q, hand) && Stays(w', w'', q, hand)
    ensures Stays(w, w'', q, hand)
  {
  }

  // ---------- single operations ----------

  /** Nothing but fields that do not concern it changed. */
  ghost predicate Aloof(w: World, w': World) {
    && w'.sockets == w.sockets && w'.buffers == w.buffers && w'.posted == w.posted
    && w'.queue == w.queue && w'.current == w.current && w'.timeWait == w.timeWait
  }

  lemma {:induction false} AloofStays(w: World, w': World, q: Node, hand: set<Node>)
    requires Apart(w, q, hand) && Aloof(w, w')
    ensures Stays(w, w', q, hand)
  {
    assert forall b :: w'.BufAt(b) == w.BufAt(b);
    assert w'.At(q) == w.At(q);
  }

  /** Other sockets changed, and nothing else that concerns it. */
  lemma {:induction false} OnlyStays(w: World, w': World, q: Node, hand: set<Node>, s: set<Node>)
    requires Apart(w, q, hand) && Only(w, w', s) && q !in s
    requires w'.buffers == w.buffers && w'.posted == w.posted && w'.current == w.current
    requires forall x :: x in w'.queue ==> x in w.queue
    ensures Stays(w, w', q, hand)
  {
    assert forall b :: w'.BufAt(b) == w.BufAt(b);
  }

  /** Buffers changed, none into an accept. */
  lemma {:induction false} BuffersStay(w: World, w': World, q: Node, hand: set<Node>)
    requires Apart(w, q, hand) && w' == w.(buffers := w'.buffers, faults := w'.faults, log := w'.log)
    requires forall b :: w'.BufAt(b).operation == w.BufAt(b).operation || w'.BufAt(b).operation != Operation.Accept
    ensures Stays(w, w', q, hand)
  {
    assert w'.At(q) == w.At(q);
  }

  lemma {:induction false} CreateBufferStays(w: World, op: Operation, q: Node, hand: set<Node>)
    requires Apart(w, q, hand) && op != Operation.Accept
    ensures Stays(w, w.CreateBuffer(op), q, hand) && w.CreateBuffer(op).BufAt(w.buffers.Slot()).operation == op
  {
    var w' := w.CreateBuffer(op);
    assert forall b :: b != w.buffers.Slot() ==> w'.BufAt(b) == w.BufAt(b);
    hide Apart;
    BuffersStay(w, w', q, hand);
  }

  lemma {:induction false} DeleteBufferStays(w: World, b: Node, q: Node, hand: set<Node>)
    requires Apart(w, q, hand)
    ensures Stays(w, w.DeleteBuffer(b), q, hand)
  {
    var w' := w.DeleteBuffer(b);
    assert forall x :: w'.BufAt(x) == w.BufAt(x) || w'.BufAt(x) == Buffer(Read, 0);
    hide Apart;
    BuffersStay(w, w', q, hand);
  }

  lemma {:induction false} PutBufStays(w: World, b: Node, buf: Buffer, q: Node, hand: set<Node>)
    requires Apart(w, q, hand) && (buf.operation == w.BufAt(b).operation || buf.operation != Operation.Accept)
    ensures Stays(w, w.PutBuf(b, buf), q, hand)
  {
    var w' := w.PutBuf(b, buf);
    assert forall x :: x != b ==> w'.BufAt(x) == w.BufAt(x);
    hide Apart;
    BuffersStay(w, w', q, hand);
  }

  lemma {:induction false} PostStays(w: World, b: Node, r: Node, op: Operation, q: Node, hand: set<Node>)
    requires Apart(w, q, hand) && r != q
    requires w.current != Some(q) || b in hand || w.BufAt(b).operation != Operation.Accept
    ensures Stays(w, w.Post(b, r, op), q, hand)
  {
    assert w.Post(b, r, op).At(q) == w.At(q);
  }

  lemma {:induction false} PutStays(w: World, r: Node, s: Socket, q: Node, hand: set<Node>)
    requires Apart(w, q, hand) && r != q
    ensures Stays(w, w.Put(r, s), q, hand)
  {
    PutOnly(w, r, s);
    PutFields(w, r, s);
    hide World.Put, Outcast;
    OnlyStays(w, w.Put(r, s), q, hand, {r});
  }

  lemma {:induction false} PutFields(w: World, r: Node, s: Socket)
    ensures var w' := w.Put(r, s);
            w'.buffers == w.buffers && w'.posted == w.posted && w'.current == w.current && w'.queue == w.queue
  {
  }

  lemma {:induction false} EraseStays(w: World, r: Node, q: Node, hand: set<Node>)
    requires Apart(w, q, hand) && r != q
    ensures Stays(w, w.EraseSocket(r), q, hand)
  {
    EraseOnly(w, r);
    OnlyStays(w, w.EraseSocket(r), q, hand, {r});
  }

  lemma {:induction false} ChangeStays(w: World, r: Node, st: SocketState, q: Node, hand: set<Node>)
    requires Apart(w, q, hand) && r != q
    ensures Stays(w, w.ChangeSocketState(r, st), q, hand)
  {
    hide Apart, World.Put;
    var w1 := w.SetState(r, st);
    PutStays(w, r, w.At(r).(state := st), q, hand);
    AloofStays(w1, w.ChangeSocketState(r, st), q, hand);
  }

  lemma {:induction false} RestStays(w: World, w': World, r: Node, q: Node, hand: set<Node>)
    requires Apart(w, q, hand) && r != q && Only(w, w', {r}) && Rest(w, w')
    ensures Stays(w, w', q, hand)
  {
    OnlyStays(w, w', q, hand, {r});
  }

  // ---------- teardown ----------

  lemma {:induction false} CloseStays(w: World, r: Node, force: bool, os: TeardownOs, q: Node, hand: set<Node>)
    requires Apart(w, q, hand) && r != q
    ensures Stays(w, w.Close(r, force, os), q, hand)
  {
    CloseOnly(w, r, force, os);
    CloseRest(w, r, force, os);
    hide World.Close;
    OnlyStays(w, w.Close(r, force, os), q, hand, {r});
  }

  lemma {:induction false} UnregisterStays(w: World, r: Node, q: Node, hand: set<Node>)
    requires Apart(w, q, hand) && r != q
    ensures Stays(w, w.Unregister(r), q, hand)
  {
    hide Apart, World.EraseSocket;
    var w1 := if w.At(r).state == RETRY_CONNECTION then w else w.(ids := w.ids - {w.At(r).id}).Section(MapLock);
    var w2 := w1.Do(Leave(SockLock(r)));
    AloofStays(w, w2, q, hand);
    EraseStays(w2, r, q, hand);
  }

  lemma {:induction false} CloseUnregisterStays(w: World, r: Node, force: bool, os: TeardownOs, q: Node,
      hand: set<Node>)
    requires Apart(w, q, hand) && r != q
    ensures Stays(w, w.Close(r, force, os).Unregister(r), q, hand)
  {
    hide Apart, World.Close, World.Unregister;
    CloseStays(w, r, force, os, q, hand);
    UnregisterStays(w.Close(r, force, os), r, q, hand);
  }

  lemma {:induction false} TeardownStays(w: World, r: Node, os: TeardownOs, q: Node, hand: set<Node>)
    requires Apart(w, q, hand) && r != q
    ensures Stays(w, w.DeleteOrDisconnect(r, os), q, hand)
    decreases if w.At(r).state == CLOSING then 2 else 0
  {
    hide Apart, World.Unregister, World.Close, World.Disconnect;
    var w1 := w.Do(Enter(SockLock(r)));
    AloofStays(w, w1, q, hand);
    var w2 := w1.Section(QueueLock);
    AloofStays(w, w2, q, hand);
    if w.At(r).state == CLOSING && w.ShouldReuse() {
      DisconnectStays(w2, r, os, q, hand);
    } else if w.At(r).state == CLOSING {
      CloseUnregisterStays(w2, r, false, os, q, hand);
    } else if w.At(r).state in {CONNECTED, FAILURE, LISTENING} {
      CloseUnregisterStays(w1, r, w.At(r).state != CONNECTED, os, q, hand);
    } else {
      UnregisterStays(w1, r, q, hand);
    }
  }

  lemma {:induction false} DisconnectStays(w: World, r: Node, os: TeardownOs, q: Node, hand: set<Node>)
    requires Apart(w, q, hand) && r != q
    ensures Stays(w, w.Disconnect(r, os), q, hand)
    decreases 1
  {
    hide Apart, World.DeleteOrDisconnect, World.SetState, World.CreateBuffer, World.Post;
    var b, st := w.buffers.Slot(), if os.disconnectOk then DISCONNECTING else FAILURE;
    var w1 := w.CreateBuffer(Operation.Disconnect);
    CreateBufferStays(w, Operation.Disconnect, q, hand);
    var w2 := if os.disconnectOk then w1.Post(b, r, Operation.Disconnect) else w1;
    PostStays(w1, b, r, Operation.Disconnect, q, hand);
    var w3 := w2.SetState(r, st);
    SetStateStays(w2, r, st, q, hand);
    SetStateId(w2, r, st);
    StaysTwice(w, w1, w2, q, hand);
    StaysTwice(w, w2, w3, q, hand);
    if os.disconnectOk {
      AloofStays(w3, w.Disconnect(r, os), q, hand);
    } else {
      var w4 := w3.Do(Leave(SockLock(r)));
      AloofStays(w3, w4, q, hand);
      TeardownStays(w4, r, os, q, hand);
    }
  }

  lemma {:induction false} SetStateStays(w: World, r: Node, st: SocketState, q: Node, hand: set<Node>)
    requires Apart(w, q, hand) && r != q
    ensures Stays(w, w.SetState(r, st), q, hand)
  {
    hide Apart, World.Put;
    PutStays(w, r, w.At(r).(state := st), q, hand);
  }

  lemma {:induction false} DeleteStays(w: World, r: Node, q: Node, hand: set<Node>)
    requires Apart(w, q, hand) && r != q
    ensures Stays(w, w.DeleteSocket(r, NEVER_CONNECTED), q, hand)
  {
    DeleteOnly(w, r, NEVER_CONNECTED);
    DeleteRest(w, r, NEVER_CONNECTED);
    RestStays(w, w.DeleteSocket(r, NEVER_CONNECTED), r, q, hand);
  }

  // ---------- sending ----------

  lemma {:induction false} PostSendStays(w: World, r: Node, b: Node, ok: bool, q: Node, hand: set<Node>)
    requires Apart(w, q, hand) && r != q && w.BufAt(b).operation != Operation.Accept
    ensures Stays(w, w.PostSend(r, b, ok), q, hand)
  {
    hide Apart, World.Put, World.Post;
    var w1 := if ok then w.Post(b, r, Operation.Write).Put(r, w.At(r).SendPosted(w.BufAt(b).bufLen)) else w;
    AloofStays(w, w, q, hand);
    PostStays(w, b, r, Operation.Write, q, hand);
    PutStays(w.Post(b, r, Operation.Write), r, w.At(r).SendPosted(w.BufAt(b).bufLen), q, hand);
    AloofStays(w1, w.PostSend(r, b, ok), q, hand);
  }

  lemma {:induction false} PostRecvStays(w: World, r: Node, b: Node, ok: bool, q: Node, hand: set<Node>)
    requires Apart(w, q, hand) && r != q && b in hand
    ensures Stays(w, w.PostRecv(r, b, ok), q, hand)
  {
    hide Apart, World.Put, World.Post;
    var w1 := if ok then w.Post(b, r, Operation.Read).Put(r, w.At(r).RecvPosted()) else w;
    AloofStays(w, w, q, hand);
    PostStays(w, b, r, Operation.Read, q, hand);
    PutStays(w.Post(b, r, Operation.Read), r, w.At(r).RecvPosted(), q, hand);
    AloofStays(w1, w.PostRecv(r, b, ok), q, hand);
  }

  lemma {:induction false} ChunkStays(w: World, r: Node, length: nat, ok: bool, q: Node, hand: set<Node>)
    requires Apart(w, q, hand) && r != q
    ensures var b, w1 := w.buffers.Slot(), w.PrepareChunk(length);
            Stays(w, if ok then w1.PostSend(r, b, true) else w1.RefuseChunk(r, b), q, hand)
  {
    hide Apart, World.CreateBuffer, World.PutBuf, World.PostSend, World.ChangeSocketState, World.DeleteBuffer;
    var b, w0 := w.buffers.Slot(), w.CreateBuffer(Operation.Write);
    CreateBufferStays(w, Operation.Write, q, hand);
    var buf := w0.BufAt(b).(bufLen := ChunkLen(length));
    var w1 := w.PrepareChunk(length);
    PutBufStays(w0, b, buf, q, hand);
    PutBufOp(w0, b, buf);
    PostSendStays(w1, r, b, ok, q, hand);
    if !ok {
      var w2 := w1.PostSend(r, b, false);
      ChangeStays(w2, r, FAILURE, q, hand);
      DeleteBufferStays(w2.ChangeSocketState(r, FAILURE), b, q, hand);
    }
  }

  lemma {:induction false} PutBufOp(w: World, b: Node, buf: Buffer)
    requires buf.operation != Operation.Accept
    ensures w.PutBuf(b, buf).BufAt(b).operation != Operation.Accept
  {
  }

  lemma {:induction false} SendStays(w: World, r: Node, length: nat, failAt: nat, q: Node, hand: set<Node>)
    requires Apart(w, q, hand) && r != q
    ensures Stays(w, w.SendChunks(r, length, failAt), q, hand)
    decreases length
  {
    hide Apart, World.PrepareChunk, World.PostSend, World.RefuseChunk;
    AloofStays(w, w, q, hand);
    if length > 0 {
      ChunkStays(w, r, length, failAt > 0, q, hand);
      if failAt > 0 {
        var w1 := w.PrepareChunk(length).PostSend(r, w.buffers.Slot(), true);
        SendStays(w1, r, length - ChunkLen(length), failAt - 1, q, hand);
      }
    }
  }

  /** A socket that is not connected takes no data. */
  lemma {:induction false} SendDataStays(w: World, r: Node, length: nat, failAt: nat, q: Node, hand: set<Node>)
    requires Apart(w, q, hand)
    ensures Stays(w, w.SendData(r, length, failAt), q, hand)
  {
    AloofStays(w, w, q, hand);
    if r != q {
      SendStays(w, r, length, failAt, q, hand);
    }
    hide World.SendChunks;
  }

  lemma {:induction false} SendAllStays(w: World, nodes: seq<Node>, length: nat, failAts: map<Node, nat>, q: Node,
      hand: set<Node>)
    requires Apart(w, q, hand)
    ensures Stays(w, w.SendDataToAll(nodes, length, failAts), q, hand)
    decreases |nodes|
  {
    hide Apart, World.SendData;
    AloofStays(w, w, q, hand);
    if nodes != [] {
      var failAt := if nodes[0] in failAts then failAts[nodes[0]] else length;
      SendDataStays(w, nodes[0], length, failAt, q, hand);
      SendAllStays(w.SendData(nodes[0], length, failAt), nodes[1..], length, failAts, q, hand);
    }
  }

  // ---------- creating sockets ----------

  lemma {:induction false} GenerateStays(w: World, reuse: bool, createOk: bool, q: Node, hand: set<Node>)
    requires Apart(w, q, hand)
    ensures var (w', g) := w.GenerateSocket(reuse, createOk); Stays(w, w', q, hand) && g != Some(q)
  {
    GenerateOnly(w, reuse, createOk);
    var (w', g) := w.GenerateSocket(reuse, createOk);
    hide World.GenerateSocket;
    if w.queue != [] {
      assert w.queue[0] in w.queue;
    }
    OnlyStays(w, w', q, hand, if g.Some? then {g.value} else {});
  }

  lemma {:induction false} AddIdStays(w: World, r: Node, id: Uuid, q: Node, hand: set<Node>)
    requires Apart(w, q, hand) && r != q
    ensures Stays(w, w.AddSocketToMap(r, id), q, hand)
  {
    AddIdOnly(w, r, id);
    hide World.AddSocketToMap;
    OnlyStays(w, w.AddSocketToMap(r, id), q, hand, {r});
  }

  lemma {:induction false} PrepareStays(w: World, r: Node, associateOk: bool, bind: BindOs, q: Node, hand: set<Node>)
    requires Apart(w, q, hand) && r != q
    ensures Stays(w, w.PrepareSocket(r, associateOk, bind).0, q, hand)
  {
    PrepareOnly(w, r, associateOk, bind);
    hide World.PrepareSocket;
    RestStays(w, w.PrepareSocket(r, associateOk, bind).0, r, q, hand);
  }

  lemma {:induction false} AssociateStays(w: World, r: Node, ok: bool, q: Node, hand: set<Node>)
    requires Apart(w, q, hand) && r != q
    ensures Stays(w, w.AssociateSocketToIOCP(r, ok), q, hand)
  {
    AssociateOnly(w, r, ok);
    hide World.AssociateSocketToIOCP;
    RestStays(w, w.AssociateSocketToIOCP(r, ok), r, q, hand);
  }

  lemma {:induction false} ConnectStays(w: World, id: Uuid, os: ConnectOs, q: Node, hand: set<Node>)
    requires Apart(w, q, hand)
    ensures Stays(w, w.ConnectToNewSocket(id, os).0, q, hand)
  {
    hide Apart, World.GenerateSocket, World.PrepareSocket, World.DeleteSocket, World.CreateBuffer,
         World.AddSocketToMap, World.Post;
    AloofStays(w, w, q, hand);
    GenerateStays(w, true, os.createOk, q, hand);
    var (w1, generated) := w.GenerateSocket(true, os.createOk);
    if generated.Some? {
      var g := generated.value;
      var w2 := w1.PrepareSocket(g, os.associateOk, os.bind).0;
      PrepareStays(w1, g, os.associateOk, os.bind, q, hand);
      DeleteStays(w2, g, q, hand);
      var b, w3 := w2.buffers.Slot(), w2.CreateBuffer(Operation.Connect);
      CreateBufferStays(w2, Operation.Connect, q, hand);
      DeleteStays(w3, g, q, hand);
      var w4 := w3.Post(b, g, Operation.Connect);
      PostStays(w3, b, g, Operation.Connect, q, hand);
      AloofStays(w4, w4.Do(Publish(g)), q, hand);
      AddIdStays(w4.Do(Publish(g)), g, id, q, hand);
    }
  }

  /** The new accept's socket is current; nothing said of accepts binds any more. */
  lemma {:induction false} CurrentStays(w: World, g: Node, listener: Node, q: Node, hand: set<Node>)
    requires Apart(w, q, hand) && g != q && listener != q
    ensures var w1 := w.(current := Some(g));
            var w2 := w1.CreateBuffer(Operation.Accept);
            && Stays(w, w2, q, hand)
            && Stays(w, w2.Post(w.buffers.Slot(), listener, Operation.Accept).Do(Publish(g)), q, hand)
  {
    var w2 := w.(current := Some(g)).CreateBuffer(Operation.Accept);
    var w3 := w2.Post(w.buffers.Slot(), listener, Operation.Accept).Do(Publish(g));
    assert w2.sockets == w.sockets && w2.At(q) == w.At(q) && w3.At(q) == w.At(q);
  }

  lemma {:induction false} AcceptStays(w: World, listener: Node, os: AcceptOs, q: Node, hand: set<Node>)
    requires Apart(w, q, hand) && listener != q
    ensures Stays(w, w.AcceptNewSocket(listener, os).0, q, hand)
  {
    hide Apart, World.GenerateSocket, World.AssociateSocketToIOCP, World.DeleteSocket, World.CreateBuffer,
         World.SetState, World.Post;
    AloofStays(w, w, q, hand);
    GenerateStays(w, true, os.createOk, q, hand);
    var (w1, generated) := w.GenerateSocket(true, os.createOk);
    if generated.Some? {
      var g := generated.value;
      var w2 := w1.AssociateSocketToIOCP(g, os.associateOk);
      AssociateStays(w1, g, os.associateOk, q, hand);
      CurrentStays(w2, g, listener, q, hand);
      var w3 := w2.(current := Some(g)).CreateBuffer(Operation.Accept);
      DeleteStays(w3, g, q, hand);
      SetStateStays(w3.Post(w2.buffers.Slot(), listener, Operation.Accept).Do(Publish(g)), g, ACCEPTING, q, hand);
    }
  }

  lemma {:induction false} ListenStays(w: World, os: ListenOs, q: Node, hand: set<Node>)
    requires Apart(w, q, hand)
    ensures Stays(w, w.ListenToNewSocket(os).0, q, hand)
  {
    hide Apart, World.GenerateSocket, World.AssociateSocketToIOCP, World.BindSocket, World.DeleteSocket,
         World.AcceptNewSocket;
    hide World.AddSocketToMap, World.SetState;
    AloofStays(w, w, q, hand);
    GenerateStays(w, false, os.createOk, q, hand);
    var (w1, generated) := w.GenerateSocket(false, os.createOk);
    if generated.Some? {
      var g := generated.value;
      DeleteStays(w1, g, q, hand);
      var w2 := w1.AssociateSocketToIOCP(g, os.associateOk);
      AssociateStays(w1, g, os.associateOk, q, hand);
      var w3 := w2.BindSocket(g, os.bind);
      BindStays(w2, g, os.bind, q, hand);
      DeleteStays(w3, g, q, hand);
      var w4 := w3.SetState(g, LISTENING);
      SetStateStays(w3, g, LISTENING, q, hand);
      var w5 := w4.AcceptNewSocket(g, os.accept).0;
      AcceptStays(w4, g, os.accept, q, hand);
      DeleteStays(w5, g, q, hand);
      var w6 := w5.AddSocketToMap(g, NIL_UUID);
      AddIdStays(w5, g, NIL_UUID, q, hand);
      AloofStays(w6, w6.(mgr := SERVER_LISTENING), q, hand);
    }
  }

  lemma {:induction false} BindStays(w: World, r: Node, bind: BindOs, q: Node, hand: set<Node>)
    requires Apart(w, q, hand) && r != q
    ensures Stays(w, w.BindSocket(r, bind), q, hand)
  {
    BindOnly(w, r, bind);
    hide World.BindSocket;
    RestStays(w, w.BindSocket(r, bind), r, q, hand);
  }

  // ---------- user calls ----------

  lemma {:induction false} CallStays(w: World, own: Option<Node>, c: UserCall, q: Node, hand: set<Node>)
    requires Apart(w, q, hand) && (c.OwnClose? ==> own != Some(q))
    ensures Stays(w, w.UserCalls(own, c), q, hand)
  {
    hide Apart, World.SendData, World.SendDataToAll, World.ConnectToNewSocket, World.ListenToNewSocket,
         World.ChangeSocketState;
    AloofStays(w, w, q, hand);
    match c {
      case SendTo(id, data, failAt) =>
        var w1 := w.Section(MapLock);
        AloofStays(w, w1, q, hand);
        AloofStays(w1, w1.Fault(), q, hand);
        if id in w.ids {
          SendDataStays(w1, w.ids[id], |data|, failAt, q, hand);
        }
      case SendToAll(data, failAts) => SendAllStays(w, w.sockets.live, |data|, failAts, q, hand);
      case ConnectNew(os) => ConnectStays(w, NIL_UUID, os, q, hand);
      case ListenNew(os) => ListenStays(w, os, q, hand);
      case OwnSend(data, failAt) =>
        if own.Some? {
          SendDataStays(w, own.value, |data|, failAt, q, hand);
        }
      case OwnClose =>
        if own.Some? {
          ChangeStays(w, own.value, CLOSING, q, hand);
        }
    }
  }

  lemma {:induction false} ReceiveStays(w: World, own: Node, cs: seq<UserCall>, q: Node, hand: set<Node>)
    requires Apart(w, q, hand) && (own == q ==> UserCall.OwnClose !in cs)
    ensures Stays(w, w.ReceiveData(own, cs), q, hand)
    decreases |cs|
  {
    hide Apart, World.UserCalls;
    AloofStays(w, w, q, hand);
    if cs != [] {
      assert cs[0] in cs;
      CallStays(w, Some(own), cs[0], q, hand);
      ReceiveStays(w.UserCalls(Some(own), cs[0]), own, cs[1..], q, hand);
    }
  }

  // ---------- completions ----------

  lemma {:induction false} AccountStays(w: World, r: Node, s: Socket, q: Node, hand: set<Node>)
    requires Apart(w, q, hand) && r != q
    ensures Stays(w, w.Put(r, s).Section(SockLock(r)), q, hand)
  {
    hide Apart, World.Put;
    PutStays(w, r, s, q, hand);
    AloofStays(w.Put(r, s), w.Put(r, s).Section(SockLock(r)), q, hand);
  }

  lemma {:induction false} AfterReceiveStays(w: World, r: Node, b: Node, ok: bool, q: Node, hand: set<Node>)
    requires Apart(w, q, hand) && r != q && b in hand
    ensures Stays(w, w.AfterReceive(r, b, ok), q, hand)
  {
    hide Apart, World.PutBuf, World.PostRecv, World.ChangeSocketState, World.DeleteBuffer;
    var w1 := w.PutBuf(b, w.BufAt(b).(bufLen := DEFAULT_BUFFER_SIZE));
    PutBufStays(w, b, w.BufAt(b).(bufLen := DEFAULT_BUFFER_SIZE), q, hand);
    DeleteBufferStays(w1, b, q, hand);
    var w2 := w1.PostRecv(r, b, ok);
    PostRecvStays(w1, r, b, ok, q, hand);
    var w3 := w2.ChangeSocketState(r, FAILURE);
    ChangeStays(w2, r, FAILURE, q, hand);
    AloofStays(w3, w3.Do(Leave(SockLock(r))), q, hand);
    DeleteBufferStays(w3.Do(Leave(SockLock(r))), b, q, hand);
  }

  lemma {:induction false} ReadStays(w: World, r: Node, b: Node, bytes: nat, calls: seq<UserCall>, recvOk: bool,
      q: Node, hand: set<Node>)
    requires Apart(w, q, hand) && r != q && b in hand
    ensures Stays(w, w.HandleRead(r, b, bytes, calls, recvOk), q, hand)
  {
    hide Apart, World.Put, World.PutBuf, World.ReceiveData, World.AfterReceive, World.ChangeSocketState,
         World.DeleteBuffer;
    var w1 := w.Put(r, w.At(r).RecvDone()).Section(SockLock(r));
    AccountStays(w, r, w.At(r).RecvDone(), q, hand);
    if bytes > 0 {
      var w2 := w1.PutBuf(b, w1.BufAt(b).(bufLen := bytes));
      PutBufStays(w1, b, w1.BufAt(b).(bufLen := bytes), q, hand);
      ReceiveStays(w2, r, calls, q, hand);
      AfterReceiveStays(w2.ReceiveData(r, calls), r, b, recvOk, q, hand);
    } else {
      ChangeStays(w1, r, CLOSING, q, hand);
      DeleteBufferStays(w1.ChangeSocketState(r, CLOSING), b, q, hand);
    }
  }

  lemma {:induction false} WriteStays(w: World, r: Node, b: Node, bytes: nat, q: Node, hand: set<Node>)
    requires Apart(w, q, hand) && r != q
    ensures Stays(w, w.HandleWrite(r, b, bytes), q, hand)
  {
    hide Apart, World.Put, World.ChangeSocketState, World.DeleteBuffer;
    var len := w.BufAt(b).bufLen;
    var w1 := w.Put(r, w.At(r).SendDone(len)).Section(SockLock(r));
    AccountStays(w, r, w.At(r).SendDone(len), q, hand);
    ChangeStays(w1, r, FAILURE, q, hand);
    DeleteBufferStays(if bytes < len then w1.ChangeSocketState(r, FAILURE) else w1, b, q, hand);
  }

  lemma {:induction false} PushStays(w: World, r: Node, q: Node, hand: set<Node>)
    requires Apart(w, q, hand) && r != q
    ensures Stays(w, w.(queue := w.queue + [r], since := w.since + [w.clock]).Section(QueueLock), q, hand)
  {
    var w' := w.(queue := w.queue + [r], since := w.since + [w.clock]).Section(QueueLock);
    assert w'.At(q) == w.At(q) && forall b :: w'.BufAt(b) == w.BufAt(b);
  }

  lemma {:induction false} DisconnectedStays(w: World, r: Node, b: Node, q: Node, hand: set<Node>)
    requires Apart(w, q, hand) && r != q
    ensures Stays(w, w.HandleDisconnect(r, b), q, hand)
  {
    hide Apart, World.Put, World.DeleteBuffer;
    PutClock(w, r, w.At(r).(state := DISCONNECTED, timeWaitStartTime := Tick(w.clock)));
    var s := w.At(r).(state := DISCONNECTED, timeWaitStartTime := Tick(w.clock));
    var w1 := w.Put(r, s).Section(SockLock(r));
    AccountStays(w, r, s, q, hand);
    var w2 := w1.(queue := w1.queue + [r], since := w1.since + [w1.clock]).Section(QueueLock);
    PushStays(w1, r, q, hand);
    DeleteBufferStays(w2, b, q, hand);
  }

  lemma {:induction false} PutClock(w: World, r: Node, s: Socket)
    ensures w.Put(r, s).clock == w.clock && w.Put(r, s).queue == w.queue && w.Put(r, s).since == w.since
  {
  }

  lemma {:induction false} StartStays(w: World, r: Node, b: Node, os: ConnectionOs, q: Node, hand: set<Node>)
    requires Apart(w, q, hand) && r != q && b in hand
    ensures Stays(w, w.StartReceiving(r, b, os), q, hand)
  {
    hide Apart, World.PutBuf, World.PostRecv, World.ChangeSocketState, World.DeleteBuffer, World.DeleteOrDisconnect;
    var w1 := w.ChangeSocketState(r, CONNECTED);
    ChangeStays(w, r, CONNECTED, q, hand);
    var w2 := w1.PutBuf(b, w1.BufAt(b).(operation := Operation.Read));
    PutBufStays(w1, b, w1.BufAt(b).(operation := Operation.Read), q, hand);
    var w3 := w2.PostRecv(r, b, os.recvOk);
    PostRecvStays(w2, r, b, os.recvOk, q, hand);
    var w4 := w3.ChangeSocketState(r, FAILURE);
    ChangeStays(w3, r, FAILURE, q, hand);
    DeleteBufferStays(w4, b, q, hand);
    TeardownStays(w4.DeleteBuffer(b), r, os.teardown, q, hand);
  }

  lemma {:induction false} CurrentIsOther(w: World, q: Node, b: Node, hand: set<Node>)
    requires Apart(w, q, hand) && b in hand && w.BufAt(b).operation == Operation.Accept
    ensures w.current != Some(q)
  {
  }

  lemma {:induction false} ConnectionStays(w: World, r: Node, b: Node, os: ConnectionOs, q: Node, hand: set<Node>)
    requires Apart(w, q, hand) && r != q && b in hand && w.BufAt(b).operation in {Operation.Connect, Operation.Accept}
    ensures Stays(w, w.HandleConnection(r, b, os), q, hand)
  {
    hide Apart, World.StartReceiving, World.AddSocketToMap, World.AcceptNewSocket;
    if w.BufAt(b).operation == Operation.Connect {
      StartStays(w, r, b, os, q, hand);
    } else if w.current.None? {
      AloofStays(w, w.Fault(), q, hand);
    } else {
      CurrentIsOther(w, q, b, hand);
      var a := w.current.value;
      AddIdStays(w, a, NIL_UUID, q, hand);
      AcceptStays(w.AddSocketToMap(a, NIL_UUID), r, os.accept, q, hand);
      StartStays(w.AddSocketToMap(a, NIL_UUID).AcceptNewSocket(r, os.accept).0, a, b, os, q, hand);
    }
  }

  lemma {:induction false} CleanupStays(w: World, r: Node, os: TeardownOs, q: Node, hand: set<Node>)
    requires Apart(w, q, hand) && r != q
    ensures Stays(w, w.CleanupIfLast(r, os), q, hand)
  {
    hide Apart, World.DeleteOrDisconnect;
    AloofStays(w, w.Section(SockLock(r)), q, hand);
    TeardownStays(w.Section(SockLock(r)), r, os, q, hand);
  }

  lemma {:induction false} HandleIoStays(w: World, r: Node, b: Node, bytes: nat, os: IoOs, q: Node, hand: set<Node>)
    requires Apart(w, q, hand) && r != q && b in hand
    ensures Stays(w, w.HandleIo(r, b, bytes, os), q, hand)
  {
    hide Apart, World.HandleRead, World.HandleWrite, World.HandleDisconnect, World.HandleConnection,
         World.CleanupIfLast;
    var w1 := match w.BufAt(b).operation
      case Read => w.HandleRead(r, b, bytes, os.callback, os.recvOk)
      case Write => w.HandleWrite(r, b, bytes)
      case Disconnect => w.HandleDisconnect(r, b)
      case _ => w.HandleConnection(r, b, os.connection);
    match w.BufAt(b).operation {
      case Read => ReadStays(w, r, b, bytes, os.callback, os.recvOk, q, hand);
      case Write => WriteStays(w, r, b, bytes, q, hand);
      case Disconnect => DisconnectedStays(w, r, b, q, hand);
      case _ => ConnectionStays(w, r, b, os.connection, q, hand);
    }
    CleanupStays(w1, r, os.teardown, q, hand);
  }

  /** The delay after a failed operation: doubled where the handler connects another socket. */
  function Delay(w: World, b: Node, addressInUse: bool): nat {
    if w.BufAt(b).operation == Operation.Connect && addressInUse then Doubled(w.timeWait) else w.timeWait
  }

  lemma {:induction false} MarkStays(w: World, r: Node, b: Node, addressInUse: bool, os: ConnectOs, q: Node,
      hand: set<Node>)
    requires Apart(w, q, hand) && r != q
    ensures Stays(w.(timeWait := Delay(w, b, addressInUse)), w.MarkError(r, b, addressInUse, os), q, hand)
  {
    hide Apart, World.Put, World.ConnectToNewSocket;
    var w1 := w.(timeWait := Delay(w, b, addressInUse));
    DelayStays(w, w1.timeWait, q, hand);
    var w2 := w1.ConnectToNewSocket(w.At(r).id, os).0;
    ConnectStays(w1, w.At(r).id, os, q, hand);
    PutStays(w2, r, w2.At(r).(hasHandle := false, state := RETRY_CONNECTION), q, hand);
    PutStays(w, r, w.At(r).(state := CONNECT_FAILURE), q, hand);
    PutStays(w, r, w.At(r).(state := FAILURE), q, hand);
    PutStays(w, r, w.At(r).RecvDone().(state := FAILURE), q, hand);
    PutStays(w, r, w.At(r).SendDone(w.BufAt(b).bufLen).(state := FAILURE), q, hand);
  }

  lemma {:induction false} DelayStays(w: World, timeWait: nat, q: Node, hand: set<Node>)
    requires Apart(w, q, hand)
    ensures Apart(w.(timeWait := timeWait), q, hand)
  {
    var w1 := w.(timeWait := timeWait);
    assert w1.At(q) == w.At(q) && forall b :: w1.BufAt(b) == w.BufAt(b);
  }

  lemma {:induction false} HandleErrorStays(w: World, r: Node, b: Node, addressInUse: bool, os: ErrorOs, q: Node,
      hand: set<Node>)
    requires Apart(w, q, hand) && r != q
    ensures Stays(w.(timeWait := Delay(w, b, addressInUse)), w.HandleError(r, b, addressInUse, os), q, hand)
  {
    hide Apart, World.MarkError, World.DeleteOrDisconnect, World.DeleteBuffer;
    var w1 := w.Do(Enter(SockLock(r)));
    AloofStays(w, w1, q, hand);
    var w2 := w1.MarkError(r, b, addressInUse, os.connect);
    MarkStays(w1, r, b, addressInUse, os.connect, q, hand);
    var w3 := w2.Do(Leave(SockLock(r)));
    AloofStays(w2, w3, q, hand);
    TeardownStays(w3, r, os.teardown, q, hand);
    DeleteBufferStays(if w2.At(r).Idle() then w3.DeleteOrDisconnect(r, os.teardown) else w3, b, q, hand);
  }

  lemma {:induction false} DequeueStays(w: World, i: nat, q: Node)
    requires Apart(w, q, {}) && i < |w.posted| && w.posted[i].key != q
    ensures Stays(w, w.Dequeue(i), q, {w.posted[i].buf})
  {
    var w1, t := w.Dequeue(i), TallyOf(w.Dequeue(i).posted, q);
    TallyRemove(w.posted, i, q);
    assert t.Plus(NOTHING) == t;
    hide TallyOf;
    assert w.posted[i] in w.posted;
    assert forall p :: p in w1.posted ==> p in w.posted;
    assert w1.At(q) == w.At(q) && forall b :: w1.BufAt(b) == w.BufAt(b);
  }

  // ---------- steps and runs ----------

  lemma {:induction false} HandOver(w: World, q: Node, hand: set<Node>)
    requires Apart(w, q, hand)
    ensures Apart(w, q, {})
  {
  }

  /** The step handles an operation of socket `q`. */
  predicate Concerns(w: World, l: Label, q: Node) {
    !l.Call? && l.i < |w.posted| && w.posted[l.i].key == q
  }

  /** The step handles a connection that failed because its address is in use. */
  predicate InUse(w: World, l: Label) {
    && l.Fail? && l.addressInUse && l.i < |w.posted|
    && w.BufAt(w.posted[l.i].buf).operation == Operation.Connect
  }

  function DelayAfter(w: World, l: Label): nat { if InUse(w, l) then Doubled(w.timeWait) else w.timeWait }

  /** A step, clean or not, that handles no operation of such a socket leaves it alone. */
  lemma {:induction false} StepStays(w: World, l: Label, q: Node)
    requires Apart(w, q, {}) && w.Enabled(l) && !Concerns(w, l, q)
    ensures Stays(w.(timeWait := DelayAfter(w, l)), w.Step(l), q, {})
  {
    hide Apart, TallyOf, World.HandleIo, World.HandleError, World.UserCalls;
    var w1 := w.(clock := l.at);
    AloofStays(w, w1, q, {});
    match l {
      case Complete(_, i, bytes, os) =>
        DequeueStays(w1, i, q);
        HandleIoStays(w1.Dequeue(i), w.posted[i].key, w.posted[i].buf, bytes, os, q, {w.posted[i].buf});
        HandOver(w.Step(l), q, {w.posted[i].buf});
      case Fail(_, i, addressInUse, os) =>
        DequeueStays(w1, i, q);
        HandleErrorStays(w1.Dequeue(i), w.posted[i].key, w.posted[i].buf, addressInUse, os, q, {w.posted[i].buf});
        HandOver(w.Step(l), q, {w.posted[i].buf});
      case Call(_, c) => CallStays(w1, None, c, q, {});
    }
  }

  /** No step, clean or not, touches an outcast. */
  lemma {:induction false} OutcastStays(w: World, l: Label, q: Node)
    requires Outcast(w, q, {}) && w.Enabled(l)
    ensures Outcast(w.Step(l), q, {}) && w.Step(l).At(q) == w.At(q)
  {
    NotAKey(w.posted, q);
    hide Apart, TallyOf, World.Step;
    StepStays(w, l, q);
    DelayStays(w, DelayAfter(w, l), q, {});
  }

  /** Any run the engine can make, clean or not. */
  ghost predicate AnyRun(w: World, ls: seq<Label>)
    decreases |ls|
  {
    ls == [] || (w.Enabled(ls[0]) && AnyRun(w.Step(ls[0]), ls[1..]))
  }

  ghost function AnyEnd(w: World, ls: seq<Label>): World
    requires AnyRun(w, ls)
    decreases |ls|
  {
    if ls == [] then w else AnyEnd(w.Step(ls[0]), ls[1..])
  }

  /** An outcast stays in the list, unchanged, for ever. */
  lemma {:induction false} OutcastForEver(w: World, ls: seq<Label>, q: Node)
    requires Outcast(w, q, {}) && AnyRun(w, ls)
    ensures Outcast(AnyEnd(w, ls), q, {}) && AnyEnd(w, ls).At(q) == w.At(q)
    decreases |ls|
  {
    hide Outcast, World.Step, World.Enabled;
    if ls != [] {
      OutcastStays(w, ls[0], q);
      OutcastForEver(w.Step(ls[0]), ls[1..], q);
    }
  }
}
