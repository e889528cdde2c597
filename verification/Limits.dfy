/** Exactly when a step goes wrong. */
module Limits {
  import opened SocketTypes
  import opened RecyclableList
  import opened TimeWait
  import opened Engine
  import opened EngineInvariant
  import opened EngineSteps
  import opened Teardown
  import opened Completions
  import opened EngineRuns

  // ---------- closes that do not end ----------

  /** A socket that stays in the list, out of use, with nothing in flight to remove it. */
  ghost predicate Abandoned(w: World, r: Node) {
    r in w.sockets.live && Draining(w.At(r).state) && TallyOf(w.posted, r) == NOTHING
  }

  lemma {:induction false} EndingAbandons(w: World, w': World, r: Node, os: TeardownOs, e: Ending)
    requires InvExcept(w, {r}) && r in w.sockets.live && Draining(w.At(r).state) && TallyOf(w.posted, r) == NOTHING
    requires Ended(w, w', r, os, e) && e in {Parked, Gone, Stranded}
    ensures Abandoned(w', r) <==> e == Stranded
  {
    hide TallyOf;
    match e {
      case Gone => WithoutMembers(w.sockets.live, r);
      case _ =>
    }
  }

  /** A teardown abandons its socket exactly when it does not park it and the close it
      attempts is reported as still in progress. */
  lemma {:induction false} AbandonedIff(w: World, r: Node, os: TeardownOs)
    requires InvExcept(w, {r}) && Settled(w, r) && Draining(w.At(r).state)
    ensures var st, room := w.At(r).state, w.ShouldReuse();
            Abandoned(w.DeleteOrDisconnect(r, os), r) <==>
            !(st == CLOSING && room && os.disconnectOk) && !os.Completes(st == FAILURE || room)
  {
    SettledFacts(w, r);
    SettledTally(w, r);
    hide InvExcept, TallyOf, Settled, Abandoned, Ended, World.DeleteOrDisconnect;
    TeardownContract(w, r, os);
    EndingAbandons(w, w.DeleteOrDisconnect(r, os), r, os, Verdict(w.At(r).state, w.ShouldReuse(), os));
  }

  lemma {:induction false} SettledTally(w: World, r: Node)
    requires Settled(w, r)
    ensures TallyOf(w.posted, r) == NOTHING
  {
    hide TallyOf;
  }

  // ---------- connections that do not start ----------

  /** An operation in flight on a buffer that was released. */
  ghost predicate Dangling(w: World) {
    exists p :: p in w.posted && p.buf !in w.buffers.live
  }

  lemma {:induction false} GoneReads(w: World, w': World, r: Node, os: TeardownOs)
    requires InvExcept(w, {r}) && r in w.sockets.live && w.At(r).state == FAILURE && Ended(w, w', r, os, Gone)
    ensures r !in w'.sockets.live && w'.At(r).state == CLOSED && w'.faults == w.faults
    ensures w'.At(r).outstandingRecv == w.At(r).outstandingRecv || w'.At(r) == FREED_SOCKET
    ensures w'.At(r).outstandingSend == w.At(r).outstandingSend || w'.At(r) == FREED_SOCKET
  {
    hide TallyOf;
    WithoutMembers(w.sockets.live, r);
  }

  /** Tearing down a socket that was already removed removes it a second time. */
  lemma {:induction false} SecondRemoval(w: World, r: Node, os: TeardownOs)
    requires r !in w.sockets.live && w.At(r).state == CLOSED
    ensures w.DeleteOrDisconnect(r, os).faults == w.faults + 1
    ensures w.DeleteOrDisconnect(r, os).posted == w.posted && w.DeleteOrDisconnect(r, os).buffers == w.buffers
  {
  }

  /** Two workers that both take a socket's last operation for theirs tear it down twice.  The second
      teardown releases the socket a second time exactly when the first one closed it. */
  lemma {:induction false} SecondTeardownIff(w: World, r: Node, os: TeardownOs, again: TeardownOs)
    requires w.sockets.Valid() && r in w.sockets.live && Draining(w.At(r).state)
    ensures var w1 := w.DeleteOrDisconnect(r, os);
            w1.DeleteOrDisconnect(r, again).faults == w1.faults <==>
            Verdict(w.At(r).state, w.ShouldReuse(), os) != Gone
  {
    hide World.DeleteOrDisconnect;
    var w1 := w.DeleteOrDisconnect(r, os);
    TeardownContract(w, r, os);
    match Verdict(w.At(r).state, w.ShouldReuse(), os) {
      case Gone =>
        ClosedAndErased(w, w1, r, os);
        SecondRemoval(w1, r, again);
      case _ => TeardownContract(w1, r, again);
    }
  }

  lemma {:induction false} ClosedAndErased(w: World, w': World, r: Node, os: TeardownOs)
    requires w.sockets.Valid() && r in w.sockets.live && Ended(w, w', r, os, Gone)
    ensures r !in w'.sockets.live && w'.At(r).state == CLOSED
  {
    WithoutMembers(w.sockets.live, r);
  }

  /** The failed connection just before it is torn down. */
  lemma {:induction false} BeforeRefusal(w: World, r: Node, b: Node)
    requires InvExcept(w, {r}) && Fresh(w, r) && Held(w, b)
    ensures var w1 := w.ChangeSocketState(r, CONNECTED);
            var w2 := w1.PutBuf(b, w1.BufAt(b).(operation := Operation.Read)).PostRecv(r, b, false);
            var w3 := w2.ChangeSocketState(r, FAILURE).DeleteBuffer(b);
            InvExcept(w3, {r}) && Settled(w3, r) && w3.At(r).state == FAILURE && w3.At(r).Idle()
  {
    hide InvExcept, TallyOf, Open, Spares, Settled, Touches, Fresh, Held;
    var w1 := w.ChangeSocketState(r, CONNECTED);
    var w2 := w1.PutBuf(b, w1.BufAt(b).(operation := Operation.Read));
    ConnectedState(w, r, b);
    var w3 := w2.PostRecv(r, b, false);
    LogKeeps(w2, w3, {r});
    OpenBuffers(w2, w3, r, 0);
    HeldSame(w2, w3);
    var w4 := w3.ChangeSocketState(r, FAILURE);
    FailSocket(w3, r, FAILURE, 0);
    HeldSame(w3, w4);
    DropBuffer(w4, r, 0, b);
    FreshIdle(w, r);
    OpenSettled(w4.DeleteBuffer(b), r, 0);
  }

  lemma {:induction false} RemovedTwice(w: World, r: Node, os: TeardownOs, last: TeardownOs)
    requires InvExcept(w, {r}) && Settled(w, r) && w.At(r).state == FAILURE && w.At(r).Idle() && Ends(os)
    ensures w.DeleteOrDisconnect(r, os).CleanupIfLast(r, last).faults == 1
  {
    SettledFacts(w, r);
    hide InvExcept, TallyOf, Settled, Ended, World.DeleteOrDisconnect, World.CleanupIfLast;
    TeardownContract(w, r, os);
    NoFaults(w, {r});
    var w' := w.DeleteOrDisconnect(r, os);
    GoneReads(w, w', r, os);
    CleanedTwice(w', r, last);
  }

  lemma {:induction false} CleanedTwice(w: World, r: Node, os: TeardownOs)
    requires r !in w.sockets.live && w.At(r).state == CLOSED && w.At(r).Idle()
    ensures w.CleanupIfLast(r, os).faults == w.faults + 1
  {
    SecondRemoval(w.Section(SockLock(r)), r, os);
  }

  /** A refused first receive on the connecting side: the socket is removed twice. */
  lemma {:induction false} RefusedConnect(w: World, r: Node, b: Node, os: ConnectionOs, last: TeardownOs)
    requires InvExcept(w, {r}) && Fresh(w, r) && Held(w, b) && !os.recvOk && Ends(os.teardown)
    ensures w.StartReceiving(r, b, os).CleanupIfLast(r, last).faults == 1
  {
    hide InvExcept, Settled, Fresh, Held, World.DeleteOrDisconnect, World.CleanupIfLast, TallyOf;
    BeforeRefusal(w, r, b);
    var w1 := w.ChangeSocketState(r, CONNECTED);
    var w2 := w1.PutBuf(b, w1.BufAt(b).(operation := Operation.Read)).PostRecv(r, b, false);
    RemovedTwice(w2.ChangeSocketState(r, FAILURE).DeleteBuffer(b), r, os.teardown, last);
  }

  lemma {:induction false} FreshIdle(w: World, r: Node)
    requires Fresh(w, r)
    ensures w.At(r).Idle() && r in w.sockets.live
  {
    hide TallyOf;
  }

  lemma {:induction false} NoFaults(w: World, f: set<Node>)
    requires InvExcept(w, f)
    ensures w.faults == 0
  {
  }

  /** A connection whose option call fails after its first receive was accepted: the receive
      stays in flight on a released buffer. */
  lemma {:induction false} OptionRefused(w: World, r: Node, b: Node, os: ConnectionOs)
    requires InvExcept(w, {r}) && Fresh(w, r) && Held(w, b) && os.recvOk && !os.optionOk && Ends(os.teardown)
    ensures var w' := w.StartReceiving(r, b, os);
            && (exists p :: p in w'.posted && p.buf == b) && b !in w'.buffers.live
            && (w'.At(r).Idle() ==> w'.At(r) == FREED_SOCKET) && r !in w'.sockets.live && w'.At(r).state == CLOSED
            && Touches(w, w', r)
  {
    hide InvExcept, TallyOf, Open, Spares, Settled, TornDown, Touches, Fresh, Held;
    var w1 := w.ChangeSocketState(r, CONNECTED);
    var w2 := w1.PutBuf(b, w1.BufAt(b).(operation := Operation.Read));
    ConnectedState(w, r, b);
    HeldLive(w2, b);
    var w3 := w2.PostRecv(r, b, true);
    PostRecvKeeps(w2, r, b, {r});
    LocalTouches(w2, w3, r);
    TouchesTransitive(w, w2, w3, r);
    FreshIdle(w, r);
    var p := Posted(b, r, Operation.Read, w2.BufAt(b).bufLen);
    assert w3.posted == w2.posted + [p] && p in w3.posted;
    var w4 := w3.ChangeSocketState(r, FAILURE);
    FailSocket(w3, r, FAILURE, 1);
    var w5 := w4.DeleteBuffer(b);
    RecvCounted(w2, r, b);
    Facts(w4, r, {r});
    OptionTeardown(w4, r, b, os.teardown, p);
    TouchesTransitive(w, w3, w4, r);
    TouchesTransitive(w, w4, w5.DeleteOrDisconnect(r, os.teardown), r);
  }

  lemma {:induction false} HeldLive(w: World, b: Node)
    requires Held(w, b)
    ensures b in w.buffers.live
  {
  }

  lemma {:induction false} RecvCounted(w: World, r: Node, b: Node)
    requires r in w.sockets.mem
    ensures w.PostRecv(r, b, true).At(r).outstandingRecv == w.At(r).outstandingRecv + 1
  {
  }

  /** Releasing the buffer of an operation in flight, and tearing its socket down. */
  lemma {:induction false} OptionTeardown(w: World, r: Node, b: Node, os: TeardownOs, p: Posted)
    requires InvExcept(w, {r}) && r in w.sockets.live && r in w.sockets.mem && w.At(r).state == FAILURE
    requires b in w.buffers.live
    requires p in w.posted && p.buf == b && Ends(os) && w.At(r).outstandingRecv == 1
    ensures var w' := w.DeleteBuffer(b).DeleteOrDisconnect(r, os);
            && p in w'.posted && b !in w'.buffers.live
            && (w'.At(r).Idle() ==> w'.At(r) == FREED_SOCKET) && r !in w'.sockets.live && w'.At(r).state == CLOSED
            && Touches(w, w', r)
  {
    hide TallyOf, World.DeleteOrDisconnect;
    var w1 := w.DeleteBuffer(b);
    EraseKeeps(w.buffers, b);
    TeardownContract(w1, r, os);
    WithoutMembers(w.sockets.live, r);
  }

  lemma {:induction false} CleanupOfClosed(w: World, r: Node, q: Node, os: TeardownOs, b: Node)
    requires r !in w.sockets.live && w.At(r).state == CLOSED && (w.At(r).Idle() ==> w.At(r) == FREED_SOCKET)
    requires (exists p :: p in w.posted && p.buf == b) && b !in w.buffers.live
    requires q == r || w.At(q).state.Rank() <= CONNECTED.Rank()
    ensures Dangling(w.CleanupIfLast(q, os))
  {
    var p :| p in w.posted && p.buf == b;
    if q == r && w.At(r).Idle() {
      SecondRemoval(w.Section(SockLock(r)), r, os);
    }
    assert p in w.CleanupIfLast(q, os).posted;
  }

  lemma {:induction false} Unsound(w: World)
    requires Dangling(w) || w.faults != 0
    ensures !Sound(w)
  {
    hide TallyOf;
  }

  /** Handling a completed connect leaves a sound state exactly when both the option call and
      the first receive succeed. */
  lemma {:induction false} ConnectSoundIff(w: World, i: nat, bytes: nat, os: IoOs)
    requires Inv(w) && i < |w.posted| && w.posted[i].op == Operation.Connect
    requires Ends(os.connection.teardown)
    ensures Sound(w.Dequeue(i).HandleIo(w.posted[i].key, w.posted[i].buf, bytes, os)) <==>
            os.connection.optionOk && os.connection.recvOk
  {
    hide InvExcept, TallyOf, Spares, Fresh, Held, Sound, Dangling, World.CleanupIfLast, World.StartReceiving;
    var r, b, w1 := w.posted[i].key, w.posted[i].buf, w.Dequeue(i);
    var w2 := w1.StartReceiving(r, b, os.connection);
    var w' := w1.HandleIo(r, b, bytes, os);
    ConnectAccounted(w, i);
    assert w' == w2.CleanupIfLast(r, os.teardown);
    if !os.connection.recvOk {
      RefusedConnect(w1, r, b, os.connection, os.teardown);
      Unsound(w');
    } else if !os.connection.optionOk {
      OptionRefused(w1, r, b, os.connection);
      CleanupOfClosed(w2, r, r, os.teardown, b);
      Unsound(w');
    } else {
      CompleteConnect(w, i, bytes, os);
      InvIsSound(w');
    }
  }

  /** Handling a completed accept leaves a sound state exactly unless the option call fails
      while the first receive is accepted. */
  lemma {:induction false} AcceptSoundIff(w: World, i: nat, bytes: nat, os: IoOs)
    requires Inv(w) && i < |w.posted| && w.posted[i].op == Operation.Accept
    requires Ends(os.connection.teardown)
    ensures Sound(w.Dequeue(i).HandleIo(w.posted[i].key, w.posted[i].buf, bytes, os)) <==>
            (os.connection.optionOk || !os.connection.recvOk)
  {
    hide InvExcept, TallyOf, Spares, Open, Held, NoAccept, Sound, Dangling, World.HandleIo;
    var w1 := w.Dequeue(i);
    AcceptAccounted(w, i);
    if os.connection.optionOk || !os.connection.recvOk {
      CompleteAccept(w, i, bytes, os);
      InvIsSound(w1.HandleIo(w.posted[i].key, w.posted[i].buf, bytes, os));
    } else {
      AcceptAbandoned(w1, w.posted[i].key, w.posted[i].buf, bytes, os);
      Unsound(w1.HandleIo(w.posted[i].key, w.posted[i].buf, bytes, os));
    }
  }

  lemma {:induction false} AcceptedAbandoned(w: World, r: Node, b: Node, os: ConnectionOs)
    requires Inv(w) && NoAccept(w) && AcceptTarget(w) && Held(w, b) && w.current.value != r
    requires w.BufAt(b).operation == Operation.Accept && r in w.sockets.live && w.At(r).state == LISTENING
    requires os.recvOk && !os.optionOk && Ends(os.teardown)
    ensures var w', a := w.HandleConnection(r, b, os), w.current.value;
            && (exists p :: p in w'.posted && p.buf == b) && b !in w'.buffers.live
            && (w'.At(a).Idle() ==> w'.At(a) == FREED_SOCKET) && a !in w'.sockets.live && w'.At(a).state == CLOSED
            && w'.At(r) == w.At(r)
  {
    hide InvExcept, TallyOf, Spares, Open, Held, NoAccept, Fresh, World.StartReceiving;
    NextAccept(w, r, b, os.accept);
    OptionRefused(w.AddSocketToMap(w.current.value, NIL_UUID).AcceptNewSocket(r, os.accept).0, w.current.value, b, os);
  }

  lemma {:induction false} AcceptAbandoned(w: World, r: Node, b: Node, bytes: nat, os: IoOs)
    requires Inv(w) && NoAccept(w) && AcceptTarget(w) && Held(w, b) && w.current.value != r
    requires w.BufAt(b).operation == Operation.Accept && r in w.sockets.live && w.At(r).state == LISTENING
    requires os.connection.recvOk && !os.connection.optionOk && Ends(os.connection.teardown)
    ensures Dangling(w.HandleIo(r, b, bytes, os))
  {
    var a := w.current.value;
    hide *;
    HandleIoAccept(w, r, b, bytes, os);
    AcceptedAbandoned(w, r, b, os.connection);
    ListeningRank(w, w.HandleConnection(r, b, os.connection), r);
    CleanupOfClosed(w.HandleConnection(r, b, os.connection), a, r, os.teardown, b);
  }
}
