/** What `DeleteOrDisconnect` and `Disconnect`, which call each other, leave behind. */
module Teardown {
  import opened SocketTypes
  import opened RecyclableList
  import opened TimeWait
  import opened Engine
  import opened EngineInvariant
  import opened EngineSteps

  // ---------- the contract ----------

  /** How a teardown ends: a disconnect is pending, the socket is closed and gone, it is gone
      because another socket replaces it, it only left the map, or it left the map but could
      not be closed. */
  datatype Ending = Parked | Gone | Replaced | Unlisted | Stranded

  /** Whether the close a teardown attempts is abortive. */
  predicate Forced(st: SocketState, room: bool) {
    st == FAILURE || st == LISTENING || (st == CLOSING && room)
  }

  function Verdict(st: SocketState, room: bool, os: TeardownOs): Ending {
    if st == CLOSING && room && os.disconnectOk then Parked
    else if st in {CLOSING, CONNECTED, FAILURE, LISTENING} then
      if os.Completes(Forced(st, room)) then Gone else Stranded
    else if st == RETRY_CONNECTION then Replaced
    else Unlisted
  }

  /** The socket once its handle is closed. */
  function ClosedSocket(s: Socket, force: bool, os: TeardownOs): Socket {
    s.(hasHandle := false, state := CLOSED,
       abortive := s.abortive || ((force || os.shutdown == Error) && os.lingerOk))
  }

  /** A refused disconnect leaves its buffer in the list. */
  function LeftBuffers(w: World, r: Node): Recycler<Buffer> {
    if w.At(r).state == CLOSING && w.ShouldReuse() then w.CreateBuffer(Operation.Disconnect).buffers else w.buffers
  }

  /** What each ending means.  Nothing but socket `r`, its map entry, and the buffer and
      posted operation of a pending disconnect is touched. */
  ghost predicate Ended(w: World, w': World, r: Node, os: TeardownOs, e: Ending) {
    var s := w.At(r);
    match e
    case Parked =>
      && w'.sockets == w.sockets.Write(r, s.(state := DISCONNECTING))
      && w'.posted == w.posted + [Posted(w.buffers.Slot(), r, Operation.Disconnect, w'.BufAt(w.buffers.Slot()).bufLen)]
      && w' == w.(sockets := w'.sockets, posted := w'.posted, buffers := LeftBuffers(w, r), log := w'.log,
                  ids := if w.forgets then w.ids - {s.id} else w.ids)
    case Gone =>
      && w'.sockets == w.sockets.Write(r, ClosedSocket(s, Forced(s.state, w.ShouldReuse()), os)).Erase(r)
      && w' == w.(sockets := w'.sockets, ids := w.ids - {s.id}, buffers := LeftBuffers(w, r), log := w'.log)
    case Replaced =>
      w' == w.(sockets := w.sockets.Erase(r), log := w'.log)
    case Unlisted =>
      w' == w.(ids := w.ids - {s.id}, log := w'.log)
    case Stranded =>
      && w' == w.(sockets := w'.sockets, ids := w.ids - {s.id}, buffers := LeftBuffers(w, r), log := w'.log)
      && w'.sockets.live == w.sockets.live && w'.At(r).state in {CLOSING, CONNECTED, FAILURE, LISTENING}
      && (Draining(s.state) ==> Draining(w'.At(r).state))
  }

  lemma {:induction false} CloseEffect(w: World, r: Node, force: bool, os: TeardownOs)
    requires r in w.sockets.mem
    ensures var w' := w.Close(r, force, os);
            && (os.Completes(force) ==> w' == w.Put(r, ClosedSocket(w.At(r), force, os)))
            && (!os.Completes(force) ==>
                  w' == w.(sockets := w'.sockets) && w'.sockets.live == w.sockets.live
                  && w'.At(r) == w.At(r).(abortive := w'.At(r).abortive) && r in w'.sockets.mem)
  {
    if os.Completes(force) {
      assert w.Close(r, force, os).sockets.mem == w.Put(r, ClosedSocket(w.At(r), force, os)).sockets.mem;
    }
  }

  lemma {:induction false} UnregisterEffect(w: World, r: Node)
    requires r in w.sockets.mem && r in w.sockets.live
    ensures var w', s := w.Unregister(r), w.At(r);
            w' == w.(log := w'.log,
                     ids := if s.state == RETRY_CONNECTION then w.ids else w.ids - {s.id},
                     sockets := if s.state == CLOSED || s.state == RETRY_CONNECTION then w.sockets.Erase(r)
                       else w.sockets)
  {
  }

  lemma {:induction false} CloseAndUnregister(w: World, r: Node, force: bool, os: TeardownOs)
    requires r in w.sockets.mem && r in w.sockets.live && w.At(r).state in {CLOSING, CONNECTED, FAILURE, LISTENING}
    ensures var w', s := w.Close(r, force, os).Unregister(r), w.At(r);
            && w' == w.(sockets := w'.sockets, ids := w.ids - {s.id}, log := w'.log)
            && (os.Completes(force) ==> w'.sockets == w.sockets.Write(r, ClosedSocket(s, force, os)).Erase(r))
            && (!os.Completes(force) ==> w'.sockets.live == w.sockets.live && w'.At(r).state == s.state)
  {
    CloseEffect(w, r, force, os);
    UnregisterEffect(w.Close(r, force, os), r);
  }

  lemma {:induction false} DisconnectEffect(w: World, r: Node, os: TeardownOs)
    requires r in w.sockets.mem && r in w.sockets.live && w.At(r).state == CLOSING && w.ShouldReuse()
    ensures var w', s := w.Disconnect(r, os), w.At(r);
            && (os.disconnectOk ==> Ended(w, w', r, os, Parked))
            && (!os.disconnectOk && os.Completes(true) ==>
                  && w'.sockets == w.sockets.Write(r, ClosedSocket(s, true, os)).Erase(r)
                  && w' == w.(sockets := w'.sockets, ids := w.ids - {s.id}, buffers := LeftBuffers(w, r),
                      log := w'.log))
            && (!os.disconnectOk && !os.Completes(true) ==> Ended(w, w', r, os, Stranded))
  {
    hide World.Close, World.Unregister;
    if !os.disconnectOk {
      var w1 := w.CreateBuffer(Operation.Disconnect).SetState(r, FAILURE).Do(Leave(SockLock(r)));
      var w2 := w1.Do(Enter(SockLock(r)));
      CloseAndUnregister(w2, r, true, os);
      assert w.Disconnect(r, os) == w2.Close(r, true, os).Unregister(r);
      assert w1.sockets.Write(r, ClosedSocket(w1.At(r), true, os)) ==
        w.sockets.Write(r, ClosedSocket(w.At(r), true, os)) by {
        assert w1.sockets.mem[r := ClosedSocket(w1.At(r), true, os)] ==
          w.sockets.mem[r := ClosedSocket(w.At(r), true, os)];
      }
    }
  }

  /** The teardown of any live socket ends as its state, the room in the reuse queue and the
      system's answers say. */
  lemma {:induction false} TeardownContract(w: World, r: Node, os: TeardownOs)
    requires r in w.sockets.mem && r in w.sockets.live && w.At(r).state != CLOSED
    ensures Ended(w, w.DeleteOrDisconnect(r, os), r, os, Verdict(w.At(r).state, w.ShouldReuse(), os))
  {
    hide World.Close, World.Unregister, World.Disconnect;
    var st := w.At(r).state;
    var w1 := w.Do(Enter(SockLock(r)));
    if st == CLOSING {
      var w2 := w1.Section(QueueLock);
      if w.ShouldReuse() {
        DisconnectEffect(w2, r, os);
      } else {
        CloseAndUnregister(w2, r, false, os);
      }
    } else if st in {CONNECTED, FAILURE, LISTENING} {
      CloseAndUnregister(w1, r, Forced(st, w.ShouldReuse()), os);
    } else {
      UnregisterEffect(w1, r);
    }
  }

  // ---------- the invariant ----------

  /** A socket whose last operation has been accounted for. */
  ghost predicate Settled(w: World, r: Node) {
    && r in w.sockets.live && r !in w.queue
    && TallyOf(w.posted, r) == NOTHING
    && Counts(w.At(r), NOTHING)
    && w.At(r).state in {CLOSING, FAILURE, CONNECT_FAILURE, RETRY_CONNECTION}
    && (w.At(r).state != RETRY_CONNECTION ==> OwnsId(w, r))
  }

  /** The close, if the teardown attempts one, runs to its end. */
  predicate Finishes(st: SocketState, room: bool, os: TeardownOs) {
    Verdict(st, room, os) != Stranded
  }

  /** Everything but socket `r` is as it was; `r` is parked, unlisted or gone. */
  ghost predicate TornDown(w: World, w': World, r: Node) {
    && w'.clock == w.clock && w'.kind == w.kind && w'.queue == w.queue && w'.since == w.since &&
        w'.timeWait == w.timeWait
    && w'.forgets == w.forgets
    && (forall q :: q != r ==>
          && (q in w'.sockets.live <==> q in w.sockets.live)
          && (q in w.sockets.live ==> w'.At(q) == w.At(q) && TallyOf(w'.posted, q) == TallyOf(w.posted, q)))
    && (r in w'.sockets.live ==> w'.At(r).state in {DISCONNECTING, CONNECT_FAILURE})
    && (forall b :: Held(w, b) ==> Held(w', b) && w'.BufAt(b) == w.BufAt(b))
    && (forall i :: i in w'.ids ==> i in w.ids && w'.ids[i] == w.ids[i])
    && (forall i :: i in w.ids && i != w.At(r).id ==> i in w'.ids)
  }

  lemma {:induction false} TornDownLog(w: World, w': World, w'': World, r: Node)
    requires TornDown(w, w', r) && w'' == w'.(log := w''.log)
    ensures TornDown(w, w'', r)
  {
    hide TallyOf, Held;
    HeldSame(w', w'');
  }

  lemma {:induction false} ParkInv(w: World, r: Node)
    requires InvExcept(w, {r}) && Settled(w, r) && w.At(r).state == CLOSING
    ensures var w' := w.CreateBuffer(Operation.Disconnect).Post(w.buffers.Slot(), r, Operation.Disconnect)
                       .SetState(r, DISCONNECTING).Forget(r);
            Inv(w') && TornDown(w, w', r)
  {
    hide InvExcept, TallyOf;
    var b := w.buffers.Slot();
    var w1 := w.CreateBuffer(Operation.Disconnect);
    CreateBufferKeeps(w, Operation.Disconnect, {r});
    var w2 := w1.Post(b, r, Operation.Disconnect);
    PostKeeps(w1, b, r, Operation.Disconnect, {r});
    HeldPost(w1, b, r, Operation.Disconnect);
    var w3 := w2.SetState(r, DISCONNECTING);
    SetStateKeeps(w2, r, DISCONNECTING, {r});
    assert TallyOf(w3.posted, r) == NOTHING.(disconnects := 1);
    var w4 := w3.Forget(r);
    if w.forgets {
      EraseIdKeeps(w3, r, {r});
      LogKeeps(w3.(ids := w3.ids - {w3.At(r).id}), w4, {r});
    }
    HeldSame(w3, w4);
    assert {r} == {} + {r};
    Narrow(w4, r, {});
  }

  lemma {:induction false} GoneInv(w: World, r: Node, s: Socket)
    requires InvExcept(w, {r}) && Settled(w, r)
    requires s == w.At(r).(state := s.state, hasHandle := s.hasHandle, abortive := s.abortive)
    requires s.state in {CLOSED, RETRY_CONNECTION} && w.At(r).state != RETRY_CONNECTION
    ensures var w' := w.(sockets := w.sockets.Write(r, s).Erase(r), ids := w.ids - {w.At(r).id});
            Inv(w') && TornDown(w, w', r)
  {
    hide InvExcept, TallyOf, Held;
    Facts(w, r, {r});
    var w1 := w.(ids := w.ids - {w.At(r).id});
    EraseIdKeeps(w, r, {r});
    var w2 := w1.Put(r, s);
    PutKeeps(w1, r, s, {r});
    var w3 := w2.EraseSocket(r);
    EraseSocketKeeps(w2, r, {r});
    var w' := w3.(log := w.log);
    assert {r} - {r} == {};
    LogKeeps(w3, w', {});
    HeldSame(w, w');
  }

  lemma {:induction false} ReplacedInv(w: World, r: Node)
    requires InvExcept(w, {r}) && Settled(w, r) && w.At(r).state == RETRY_CONNECTION
    ensures var w' := w.(sockets := w.sockets.Erase(r));
            Inv(w') && TornDown(w, w', r)
  {
    hide InvExcept, TallyOf, Held;
    var w1 := w.EraseSocket(r);
    EraseSocketKeeps(w, r, {r});
    var w' := w1.(log := w.log);
    assert {r} - {r} == {};
    LogKeeps(w1, w', {});
    HeldSame(w, w');
  }

  lemma {:induction false} UnlistedInv(w: World, r: Node)
    requires InvExcept(w, {r}) && Settled(w, r) && w.At(r).state == CONNECT_FAILURE
    ensures var w' := w.(ids := w.ids - {w.At(r).id});
            Inv(w') && TornDown(w, w', r)
  {
    hide InvExcept, TallyOf, Held;
    var w' := w.(ids := w.ids - {w.At(r).id});
    EraseIdKeeps(w, r, {r});
    assert {r} == {} + {r};
    Narrow(w', r, {});
    HeldSame(w, w');
  }

  lemma {:induction false} LeftBuffersInv(w: World, r: Node, w': World)
    requires Inv(w') && w'.buffers == w.buffers && BuffersOk(w.buffers, w.posted)
    requires w'.posted == w.posted
    ensures Inv(w'.(buffers := LeftBuffers(w, r)))
    ensures forall b :: Held(w', b) ==>
        Held(w'.(buffers := LeftBuffers(w, r)), b) && w'.(buffers := LeftBuffers(w, r)).BufAt(b) == w'.BufAt(b)
  {
    hide InvExcept, TallyOf;
    var w1 := w'.CreateBuffer(Operation.Disconnect);
    CreateBufferKeeps(w', Operation.Disconnect, {});
    LogKeeps(w1, w1.(log := w'.log), {});
  }

  lemma {:induction false} LeftBuffersTornDown(w: World, r: Node, w': World)
    requires TornDown(w, w', r)
    requires forall b :: Held(w', b) ==>
        Held(w'.(buffers := LeftBuffers(w, r)), b) && w'.(buffers := LeftBuffers(w, r)).BufAt(b) == w'.BufAt(b)
    ensures TornDown(w, w'.(buffers := LeftBuffers(w, r)), r)
  {
    hide TallyOf, Held;
  }

  lemma {:induction false} SettledFacts(w: World, r: Node)
    requires InvExcept(w, {r}) && Settled(w, r)
    ensures r in w.sockets.mem && r in w.sockets.live && BuffersOk(w.buffers, w.posted)
    ensures w.At(r).state in {CLOSING, FAILURE, CONNECT_FAILURE, RETRY_CONNECTION}
  {
    hide TallyOf;
  }

  lemma {:induction false} GoneKeeps(w: World, r: Node, w': World, os: TeardownOs)
    requires InvExcept(w, {r}) && Settled(w, r) && w.At(r).state in {CLOSING, FAILURE} && Ended(w, w', r, os, Gone)
    ensures Inv(w') && TornDown(w, w', r)
  {
    SettledFacts(w, r);
    hide InvExcept, TallyOf, Settled, TornDown, BuffersOk;
    var s := ClosedSocket(w.At(r), Forced(w.At(r).state, w.ShouldReuse()), os);
    var w1 := w.(sockets := w.sockets.Write(r, s).Erase(r), ids := w.ids - {w.At(r).id});
    GoneInv(w, r, s);
    LeftBuffersInv(w, r, w1);
    LeftBuffersTornDown(w, r, w1);
    LogKeeps(w1.(buffers := LeftBuffers(w, r)), w', {});
    TornDownLog(w, w1.(buffers := LeftBuffers(w, r)), w', r);
  }

  lemma {:induction false} ParkKeeps(w: World, r: Node, w': World, os: TeardownOs)
    requires InvExcept(w, {r}) && Settled(w, r) && w.At(r).state == CLOSING && w.ShouldReuse()
    requires Ended(w, w', r, os, Parked)
    ensures Inv(w') && TornDown(w, w', r)
  {
    SettledFacts(w, r);
    hide InvExcept, TallyOf, Settled, TornDown, BuffersOk;
    var w1 := w.CreateBuffer(Operation.Disconnect).Post(w.buffers.Slot(), r, Operation.Disconnect)
               .SetState(r, DISCONNECTING).Forget(r);
    ParkInv(w, r);
    LogKeeps(w1, w', {});
    TornDownLog(w, w1, w', r);
  }

  /** The teardown of a settled socket restores the invariant, if the close it attempts ends. */
  lemma {:induction false} TeardownKeeps(w: World, r: Node, os: TeardownOs)
    requires InvExcept(w, {r}) && Settled(w, r)
    requires Finishes(w.At(r).state, w.ShouldReuse(), os)
    ensures var w' := w.DeleteOrDisconnect(r, os);
            Inv(w') && TornDown(w, w', r) && Ended(w, w', r, os, Verdict(w.At(r).state, w.ShouldReuse(), os))
  {
    SettledFacts(w, r);
    hide InvExcept, TallyOf, Settled, TornDown, BuffersOk;
    var w' := w.DeleteOrDisconnect(r, os);
    TeardownContract(w, r, os);
    match Verdict(w.At(r).state, w.ShouldReuse(), os) {
      case Parked => ParkKeeps(w, r, w', os);
      case Gone => GoneKeeps(w, r, w', os);
      case Replaced =>
        ReplacedInv(w, r);
        LogKeeps(w.(sockets := w.sockets.Erase(r)), w', {});
        TornDownLog(w, w.(sockets := w.sockets.Erase(r)), w', r);
      case Unlisted =>
        UnlistedInv(w, r);
        LogKeeps(w.(ids := w.ids - {w.At(r).id}), w', {});
        TornDownLog(w, w.(ids := w.ids - {w.At(r).id}), w', r);
    }
  }
}
