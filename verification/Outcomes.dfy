/** What exactly a completion makes of a connected socket. */
module Outcomes {
  import opened SocketTypes
  import opened RecyclableList
  import opened Engine
  import opened EngineInvariant
  import opened EngineSteps
  import opened Completions
  import opened TimeWait
  import opened Teardown
  import opened Frames
  import opened Names

  // ---------- sends ----------

  lemma {:induction false} WriteFacts(w: World, i: nat)
    requires Inv(w) && i < |w.posted| && w.posted[i].op == Operation.Write && w.At(w.posted[i].key).state == CONNECTED
    ensures var r, b, w1 := w.posted[i].key, w.posted[i].buf, w.Dequeue(i);
            && r in w1.sockets.mem && r in w1.sockets.live && b in w1.buffers.live && w1.At(r) == w.At(r)
            && w1.BufAt(b) == Buffer(Operation.Write, w.posted[i].len) && w.At(r).outstandingRecv == 1
  {
    hide InvExcept, TallyOf;
    DequeueKeeps(w, i);
    SendAccounted(w, i);
    Facts(w.Dequeue(i), w.posted[i].key, {w.posted[i].key});
  }

  lemma {:induction false} WrittenState(w: World, r: Node, b: Node, bytes: nat)
    requires r in w.sockets.mem && r in w.sockets.live && b in w.buffers.live
    ensures var w', len := w.HandleWrite(r, b, bytes), w.BufAt(b).bufLen;
            && w'.At(r) == w.At(r).SendDone(len).(state := if bytes < len then FAILURE else w.At(r).state)
            && w'.posted == w.posted && w'.sockets.live == w.sockets.live
            && w'.buffers.live == w.buffers.Erase(b).live
  {
  }

  lemma {:induction false} NotLast(w: World, r: Node, os: TeardownOs)
    requires !w.At(r).Idle()
    ensures w.CleanupIfLast(r, os) == w.Section(SockLock(r)) && w.CleanupIfLast(r, os).At(r) == w.At(r)
  {
    hide World.DeleteOrDisconnect;
  }

  /** A send that completes on a connected socket gives back its bytes and its buffer, and leaves the
      socket connected exactly when it was complete, else failed; its receive stays in flight. */
  lemma {:induction false} WriteOutcome(w: World, i: nat, bytes: nat, os: IoOs)
    requires Inv(w) && i < |w.posted| && w.posted[i].op == Operation.Write && w.At(w.posted[i].key).state == CONNECTED
    ensures var p := w.posted[i];
            var w' := w.Dequeue(i).HandleIo(p.key, p.buf, bytes, os);
            && w'.At(p.key) == w.At(p.key).SendDone(p.len).(state := if bytes < p.len then FAILURE else CONNECTED)
            && w'.posted == w.Dequeue(i).posted && p.key in w'.sockets.live && p.buf !in w'.buffers.live
  {
    hide InvExcept, TallyOf, World.HandleWrite, World.CleanupIfLast;
    var p, w1 := w.posted[i], w.Dequeue(i);
    WriteFacts(w, i);
    WrittenState(w1, p.key, p.buf, bytes);
    NotLast(w1.HandleWrite(p.key, p.buf, bytes), p.key, os.teardown);
    BuffersValid(w, p.buf);
  }

  lemma {:induction false} BuffersValid(w: World, b: Node)
    requires Inv(w) && b in w.buffers.live
    ensures b !in w.buffers.Erase(b).live
  {
    hide TallyOf;
    EraseKeeps(w.buffers, b);
  }

  // ---------- receives ----------

  /** The state the callback leaves behind. */
  ghost function CallbackEnd(w: World, i: nat, bytes: nat, calls: seq<UserCall>): World
    requires i < |w.posted|
  {
    CallbackState(w, i, bytes).ReceiveData(w.posted[i].key, calls)
  }

  lemma {:induction false} CallbackFacts(w: World, i: nat, bytes: nat, calls: seq<UserCall>)
    requires Inv(w) && i < |w.posted| && w.posted[i].op == Operation.Read && 0 < bytes <= w.posted[i].len
    requires SafeCalls(CallbackState(w, i, bytes), w.posted[i].key, calls)
    ensures var r, b, c := w.posted[i].key, w.posted[i].buf, CallbackEnd(w, i, bytes, calls);
            && r in c.sockets.mem && r in c.sockets.live && b in c.buffers.mem && b in c.buffers.live
            && c.BufAt(b) == Buffer(Operation.Read, bytes) && c.At(r).outstandingRecv == 0 &&
                c.At(r).outstandingSend >= 0
            && (c.At(r).state == CONNECTED || Draining(c.At(r).state))
  {
    hide InvExcept, TallyOf, Evolves, Spares, SafeCalls, World.ReceiveData;
    var r, b := w.posted[i].key, w.posted[i].buf;
    var w1 := w.Dequeue(i).Put(r, w.Dequeue(i).At(r).RecvDone()).Section(SockLock(r));
    RecvAccounted(w, i);
    var w2 := CallbackState(w, i, bytes);
    PutBufKeeps(w1, b, w1.BufAt(b).(bufLen := bytes), {r});
    OpenBuffers(w1, w2, r, 0);
    ReceiveDataKeeps(w2, r, calls);
    var c := w2.ReceiveData(r, calls);
    EvolvesFacts(w2, c, r, b, 0);
    Facts(c, r, {r});
    HeldInMemory(c, b, {r});
  }

  lemma {:induction false} HeldInMemory(w: World, b: Node, f: set<Node>)
    requires InvExcept(w, f) && Held(w, b)
    ensures b in w.buffers.mem && b in w.buffers.live
  {
    hide TallyOf;
  }

  lemma {:induction false} AfterCallback(c: World, r: Node, b: Node, ok: bool)
    requires r in c.sockets.mem && b in c.buffers.mem && b in c.buffers.live && c.BufAt(b).operation == Operation.Read
    ensures var w' := c.AfterReceive(r, b, ok);
            && w'.sockets.live == c.sockets.live
            && (c.At(r).state != CONNECTED ==> w'.At(r) == c.At(r) && w'.posted == c.posted)
            && (c.At(r).state == CONNECTED && ok ==>
                  w'.At(r) == c.At(r).RecvPosted() &&
                    w'.posted == c.posted + [Posted(b, r, Operation.Read, DEFAULT_BUFFER_SIZE)])
            && (c.At(r).state == CONNECTED && !ok ==> w'.At(r) == c.At(r).(state := FAILURE) && w'.posted == c.posted)
  {
  }

  /** A receive that completes leaves its socket connected exactly when it carried data, the callback
      left the socket connected, and the next receive was accepted; that receive then goes into
      the same buffer, at full size. */
  lemma {:induction false} ReadOutcome(w: World, i: nat, bytes: nat, os: IoOs)
    requires Inv(w) && i < |w.posted| && w.posted[i].op == Operation.Read && 0 < bytes <= w.posted[i].len
    requires Ends(os.teardown)
    requires SafeCalls(CallbackState(w, i, bytes), w.posted[i].key, os.callback)
    ensures var r, b, c := w.posted[i].key, w.posted[i].buf, CallbackEnd(w, i, bytes, os.callback);
            var w' := w.Dequeue(i).HandleIo(r, b, bytes, os);
            && (r in w'.sockets.live && w'.At(r).state == CONNECTED <==> c.At(r).state == CONNECTED && os.recvOk)
            && (c.At(r).state == CONNECTED && os.recvOk ==>
                  w'.posted == c.posted + [Posted(b, r, Operation.Read, DEFAULT_BUFFER_SIZE)])
  {
    hide InvExcept, TallyOf, SafeCalls, World.ReceiveData, World.AfterReceive, World.CleanupIfLast, World.BeforeReceive;
    var r, b, c := w.posted[i].key, w.posted[i].buf, CallbackEnd(w, i, bytes, os.callback);
    DequeueKeeps(w, i);
    CallbackFacts(w, i, bytes, os.callback);
    AfterCallback(c, r, b, os.recvOk);
    var w1 := c.AfterReceive(r, b, os.recvOk);
    if c.At(r).state == CONNECTED && os.recvOk {
      NotLast(w1, r, os.teardown);
    } else if !w1.At(r).Idle() {
      NotLast(w1, r, os.teardown);
    } else {
      ReadKeeps(w, i, bytes, os.callback, os.recvOk);
      TornDownState(w1, w1.CleanupIfLast(r, os.teardown), r, os.teardown, 0);
    }
  }

  // ---------- disconnects ----------

  /** A completed disconnect puts its socket at the end of the queue, disconnected as of now; nothing is
      torn down. */
  lemma {:induction false} DisconnectOutcome(w: World, i: nat, bytes: nat, os: IoOs)
    requires Inv(w) && i < |w.posted| && w.posted[i].op == Operation.Disconnect
    ensures var p := w.posted[i];
            var w' := w.Dequeue(i).HandleIo(p.key, p.buf, bytes, os);
            && w'.At(p.key) == w.At(p.key).(state := DISCONNECTED, timeWaitStartTime := Tick(w.clock))
            && w'.queue == w.queue + [p.key] && w'.since == w.since + [w.clock]
            && w'.posted == w.Dequeue(i).posted && p.key in w'.sockets.live && p.buf !in w'.buffers.live
  {
    hide InvExcept, TallyOf, Spares, World.CleanupIfLast, World.HandleDisconnect;
    var p, w1 := w.posted[i], w.Dequeue(i);
    var w2 := w1.HandleDisconnect(p.key, p.buf);
    DequeueKeeps(w, i);
    DisconnectKeeps(w, i);
    DisconnectAccounted(w, i);
    Facts(w1, p.key, {p.key});
    DisconnectedState(w1, p.key, p.buf);
    CleanupNothing(w2, p.key, os.teardown);
    BuffersValid(w, p.buf);
  }

  lemma {:induction false} DisconnectedState(w: World, r: Node, b: Node)
    requires r in w.sockets.mem && b in w.buffers.live
    ensures var w' := w.HandleDisconnect(r, b);
            && w'.At(r) == w.At(r).(state := DISCONNECTED, timeWaitStartTime := Tick(w.clock))
            && w'.posted == w.posted && w'.sockets.live == w.sockets.live && w'.buffers.live == w.buffers.Erase(b).live
  {
  }

  // ---------- errors ----------

  /** The socket after a failed transfer is accounted for. */
  function Failed(s: Socket, p: Posted): Socket {
    (if p.op == Operation.Read then s.RecvDone() else s.SendDone(p.len)).(state := FAILURE)
  }

  /** A failed receive or send gives back exactly its own count and bytes and fails its socket; the
      socket is removed if it was the last operation, and stays otherwise. */
  lemma {:induction false} FailOutcome(w: World, i: nat, addressInUse: bool, os: ErrorOs)
    requires Inv(w) && i < |w.posted| && w.posted[i].op in {Operation.Read, Operation.Write} && Ends(os.teardown)
    ensures var p := w.posted[i];
            var w', s := w.Dequeue(i).HandleError(p.key, p.buf, addressInUse, os), Failed(w.At(p.key), p);
            if s.Idle() then p.key !in w'.sockets.live
            else p.key in w'.sockets.live && w'.At(p.key) == s
  {
    hide InvExcept, TallyOf, Open, Spares, Held, World.FinishError;
    var p, r, b := w.posted[i], w.posted[i].key, w.posted[i].buf;
    DequeueKeeps(w, i);
    var w1 := w.Dequeue(i).Do(Enter(SockLock(r)));
    var w2 := w1.MarkError(r, b, addressInUse, os.connect);
    if p.op == Operation.Read {
      RecvFailed(w, i);
      FinishOpen(w2, r, 0, b, os.teardown);
    } else {
      SendFailed(w, i);
      FinishOpen(w2, r, TallyOf(w.posted, r).recvs, b, os.teardown);
    }
  }

  // ---------- accepts ----------

  /** Whether `AcceptNewSocket` reaches its end. */
  predicate Accepts(w: World, os: AcceptOs) {
    (w.HeadAged() || os.createOk) && os.associateOk && os.acceptOk
  }

  /** An accept is posted on the listener exactly when no system call refuses. */
  lemma {:induction false} AcceptsIff(w: World, listener: Node, os: AcceptOs)
    requires w.sockets.Valid()
    ensures var (w', ok) := w.AcceptNewSocket(listener, os);
            && (ok <==> Accepts(w, os))
            && w'.posted == w.posted + (if ok then [w'.posted[|w.posted|]] else [])
            && (ok ==> w'.posted[|w.posted|].op == Operation.Accept && w'.posted[|w.posted|].key == listener)
  {
    GenerateOnly(w, true, os.createOk);
    GeneratedSome(w, os.createOk);
    hide World.GenerateSocket, World.AssociateSocketToIOCP, World.CreateBuffer, World.SetState, World.DeleteSocket,
         World.HeadAged;
    var (w1, generated) := w.GenerateSocket(true, os.createOk);
    if generated.Some? {
      AcceptsFrom(w1, generated.value, listener, os);
    }
  }

  /** The operations posted by the part of an accept that follows its generated socket. */
  lemma {:induction false} AcceptsFrom(w: World, g: Node, listener: Node, os: AcceptOs)
    ensures var w2 := w.AssociateSocketToIOCP(g, os.associateOk);
            var w3 := w2.(current := Some(g)).CreateBuffer(Operation.Accept);
            var w4 := w3.Post(w2.buffers.Slot(), listener, Operation.Accept).Do(Publish(g)).SetState(g, ACCEPTING);
            && w2.posted == w.posted && w3.DeleteSocket(g, NEVER_CONNECTED).posted == w.posted
            && w4.posted == w.posted +
                [Posted(w2.buffers.Slot(), listener, Operation.Accept, w3.BufAt(w2.buffers.Slot()).bufLen)]
  {
    hide World.DeleteSocket;
    DeleteRest(w, g, NEVER_CONNECTED);
    var w2 := w.AssociateSocketToIOCP(g, os.associateOk);
    DeleteRest(w2.(current := Some(g)).CreateBuffer(Operation.Accept), g, NEVER_CONNECTED);
  }

  lemma {:induction false} GeneratedSome(w: World, createOk: bool)
    ensures w.GenerateSocket(true, createOk).1.Some? <==> w.HeadAged() || createOk
  {
  }

  lemma {:induction false} StartedPosts(w: World, a: Node, b: Node, os: ConnectionOs)
    requires a in w.sockets.mem && b in w.buffers.mem && os.optionOk && os.recvOk
    ensures var w' := w.StartReceiving(a, b, os);
            && w'.posted == w.posted + [Posted(b, a, Operation.Read, w.BufAt(b).bufLen)] && w'.ids == w.ids
            && w'.At(a) == w.At(a).RecvPosted().(state := CONNECTED)
  {
    hide World.DeleteOrDisconnect;
  }

  /** A completed accept whose connection starts: the socket the accept was waiting to fill is connected
      under a new id, with one receive posted into the accept's buffer; and the next accept is
      outstanding on the listener if and only if no system call refused it. */
  lemma {:induction false} AcceptOutcome(w: World, i: nat, bytes: nat, os: IoOs)
    requires Inv(w) && i < |w.posted| && w.posted[i].op == Operation.Accept
    requires os.connection.optionOk && os.connection.recvOk && Ends(os.connection.teardown)
    ensures w.current.Some?
    ensures var p, a := w.posted[i], w.current.value;
            var w' := w.Dequeue(i).HandleIo(p.key, p.buf, bytes, os);
            && w'.At(a) == w.At(a).(id := w.nextId, state := CONNECTED, outstandingRecv := w.At(a).outstandingRecv + 1)
            && w.nextId in w'.ids && w'.ids[w.nextId] == a && w'.At(p.key) == w.At(p.key)
            && (exists x :: x in w'.posted && x.op == Operation.Read && x.key == a && x.buf == p.buf)
            && ((exists x :: x in w'.posted && x.op == Operation.Accept) <==> Accepts(w, os.connection.accept))
  {
    hide InvExcept, TallyOf, Held, NoAccept, World.HandleIo, Accepts;
    AcceptAccounted(w, i);
    DequeueNames(w, i);
    AcceptedWell(w.Dequeue(i), w.posted[i].key, w.posted[i].buf, bytes, os);
    SameAccepts(w, w.Dequeue(i), os.connection.accept);
  }

  lemma {:induction false} SameAccepts(w: World, w1: World, os: AcceptOs)
    requires w1.HeadAged() == w.HeadAged()
    ensures Accepts(w1, os) <==> Accepts(w, os)
  {
  }

  lemma {:induction false} AcceptedWell(w: World, r: Node, b: Node, bytes: nat, os: IoOs)
    requires Inv(w) && NoAccept(w) && AcceptTarget(w) && Held(w, b) && w.current.value != r
    requires w.BufAt(b).operation == Operation.Accept && r in w.sockets.live && w.At(r).state == LISTENING
    requires os.connection.optionOk && os.connection.recvOk && Ends(os.connection.teardown)
    ensures var a := w.current.value;
            var w' := w.HandleIo(r, b, bytes, os);
            && w'.At(a) == w.At(a).(id := w.nextId, state := CONNECTED, outstandingRecv := w.At(a).outstandingRecv + 1)
            && w.nextId in w'.ids && w'.ids[w.nextId] == a && w'.At(r) == w.At(r)
            && (exists x :: x in w'.posted && x.op == Operation.Read && x.key == a && x.buf == b)
            && ((exists x :: x in w'.posted && x.op == Operation.Accept) <==> Accepts(w, os.connection.accept))
  {
    hide InvExcept, TallyOf, Held, Only, Fresh, Accepts, World.HandleIo, World.HandleConnection, World.CleanupIfLast,
         World.HeadAged;
    hide World.AddSocketToMap, World.AcceptNewSocket, World.StartReceiving;
    var a := w.current.value;
    HandleIoAccept(w, r, b, bytes, os);
    HandleAccepted(w, r, b, os.connection);
    RestingFacts(w, a);
    Basics(w);
    AddIdOnly(w, a, NIL_UUID);
    var w1 := w.AddSocketToMap(a, NIL_UUID);
    OnlyValid(w, w1, {a});
    AddIdFields(w, a);
    SameHead(w, w1, a);
    SameAccepts(w, w1, os.connection.accept);
    var w2 := w1.AcceptNewSocket(r, os.connection.accept).0;
    AcceptsIff(w1, r, os.connection.accept);
    AcceptOnly(w1, r, os.connection.accept);
    AcceptLeaves(w, w1, r, os.connection.accept);
    NextAccept(w, r, b, os.connection.accept);
    FreshInMemory(w2, a);
    HeldInMemory(w2, b, {a});
    StartedPosts(w2, a, b, os.connection);
    var w3 := Accepted(w, r, b, os.connection);
    PickedUp(w, r, b, os.connection);
    ListeningRank(w, w3, r);
    CleanupPosts(w3, r, os.teardown);
    AcceptPosts(w, w2, w3, b, a, r, Accepts(w, os.connection.accept));
  }

  lemma {:induction false} CleanupPosts(w: World, r: Node, os: TeardownOs)
    requires w.At(r).state.Rank() <= CONNECTED.Rank()
    ensures var w' := w.CleanupIfLast(r, os);
            w'.sockets == w.sockets && w'.ids == w.ids && w'.posted == w.posted && forall q :: w'.At(q) == w.At(q)
  {
    hide World.DeleteOrDisconnect;
  }

  /** The operations posted: perhaps an accept, and a receive. */
  lemma {:induction false} AcceptPosts(w: World, w2: World, w3: World, b: Node, a: Node, r: Node, ok: bool)
    requires NoAccept(w) && |w2.posted| == |w.posted| + (if ok then 1 else 0) && w2.posted[..|w.posted|] == w.posted
    requires ok ==> w2.posted[|w.posted|].op == Operation.Accept
    requires w3.posted == w2.posted + [Posted(b, a, Operation.Read, w2.BufAt(b).bufLen)]
    ensures exists x :: x in w3.posted && x.op == Operation.Read && x.key == a && x.buf == b
    ensures (exists x :: x in w3.posted && x.op == Operation.Accept) <==> ok
  {
    var read := Posted(b, a, Operation.Read, w2.BufAt(b).bufLen);
    assert read in w3.posted;
    if ok {
      assert w2.posted[|w.posted|] in w3.posted;
    } else {
      assert w2.posted == w.posted;
      forall x | x in w3.posted
        ensures x.op != Operation.Accept
      {
        assert x in w.posted || x == read;
      }
    }
  }
}
