/** What is left of a socket by the completion, or the error, of its last operation, and what its last but
    one leaves: the record, the map, the operations in flight and the buffer, field by field. */
module Endings {
  import opened SocketTypes
  import opened RecyclableList
  import opened TimeWait
  import opened Engine
  import opened EngineInvariant
  import opened EngineSteps
  import opened Teardown
  import opened Completions
  import opened Outcomes
  import opened Frames

  // ---------- one teardown ----------

  /** Only these sockets may be disconnected for another use: closing ones, while fewer than 30 are queued. */
  predicate Parks(s: Socket, queued: nat, os: TeardownOs) { s.state == CLOSING && queued < 30 && os.disconnectOk }

  /** The record of a socket that is closed: no handle; and lingering is off where the close was abortive,
      because the socket failed or listened, its disconnect was refused, or its shutdown failed. */
  predicate ClosedAs(s: Socket, s': Socket, queued: nat, os: TeardownOs) {
    && s' == s.(hasHandle := false, state := CLOSED, abortive := s'.abortive)
    && (s'.abortive <==>
          s.abortive
          || (os.lingerOk && (s.state != CLOSING || queued < 30 || os.shutdown == SysResult.Error)))
  }

  /** What is left of socket `r`, last seen as `s`, with these other operations in flight, this map and so
      many sockets queued: it is disconnecting, under its id; or closed, unlisted and out of the map. */
  ghost predicate EndsAs(w': World, r: Node, s: Socket, posted: seq<Posted>, ids: map<Uuid, Node>, queued: nat,
      os: TeardownOs)
  {
    if Parks(s, queued, os) then
      && r in w'.sockets.live && w'.At(r) == s.(state := DISCONNECTING) && w'.ids == ids
      && |w'.posted| == |posted| + 1 && w'.posted[..|posted|] == posted
      && w'.posted[|posted|].key == r && w'.posted[|posted|].op == Operation.Disconnect
    else
      && r !in w'.sockets.live && w'.ids == ids - {s.id} && w'.posted == posted
      && (r in w'.sockets.mem ==> ClosedAs(s, w'.At(r), queued, os))
  }

  lemma {:induction false} ParkedAs(w: World, w': World, r: Node, os: TeardownOs)
    requires Ended(w, w', r, os, Parked) && !w.forgets && r in w.sockets.live && Parks(w.At(r), |w.queue|, os)
    ensures EndsAs(w', r, w.At(r), w.posted, w.ids, |w.queue|, os)
  {
  }

  lemma {:induction false} GoneAs(w: World, w': World, r: Node, os: TeardownOs)
    requires Ended(w, w', r, os, Gone) && w.sockets.Valid() && r in w.sockets.live && !Parks(w.At(r), |w.queue|, os)
    requires w.At(r).state in {CLOSING, FAILURE, LISTENING} && Ends(os)
    ensures EndsAs(w', r, w.At(r), w.posted, w.ids, |w.queue|, os)
  {
    var s := ClosedSocket(w.At(r), Forced(w.At(r).state, w.ShouldReuse()), os);
    assert w.sockets.Write(r, s).Valid();
    EraseKeeps(w.sockets.Write(r, s), r);
  }

  /** The teardown of a live socket that closes, failed or listens. */
  lemma {:induction false} TeardownOutcome(w: World, r: Node, os: TeardownOs)
    requires w.sockets.Valid() && !w.forgets && r in w.sockets.live && Ends(os)
    requires w.At(r).state in {CLOSING, FAILURE, LISTENING}
    ensures EndsAs(w.DeleteOrDisconnect(r, os), r, w.At(r), w.posted, w.ids, |w.queue|, os)
  {
    TeardownContract(w, r, os);
    hide World.DeleteOrDisconnect, Ended, EndsAs;
    if Parks(w.At(r), |w.queue|, os) {
      ParkedAs(w, w.DeleteOrDisconnect(r, os), r, os);
    } else {
      GoneAs(w, w.DeleteOrDisconnect(r, os), r, os);
    }
  }

  /** The record of a socket whose close does not end: out of the map, failed if its disconnect was refused,
      and otherwise as it was but for lingering. */
  ghost predicate HangsAs(w: World, w': World, r: Node, os: TeardownOs) {
    var s, s', refused := w.At(r), w'.At(r), w.At(r).state == CLOSING && |w.queue| < 30;
    && s' == s.(state := if refused then FAILURE else s.state, abortive := s'.abortive)
    && (s'.abortive <==>
          s.abortive || (os.lingerOk && (refused || s.state in {FAILURE, LISTENING} || os.shutdown == SysResult.Error)))
    && w'.sockets.live == w.sockets.live && w'.ids == w.ids - {s.id} && w'.posted == w.posted
  }

  lemma {:induction false} CloseHangs(w: World, r: Node, force: bool, os: TeardownOs)
    requires r in w.sockets.mem && !os.Completes(force)
    ensures var w', s := w.Close(r, force, os), w.At(r);
            && w' == w.(sockets := w'.sockets) && w'.sockets.live == w.sockets.live && r in w'.sockets.mem
            && w'.At(r) == s.(abortive := s.abortive || (os.lingerOk && (force || os.shutdown == SysResult.Error)))
  {
  }

  lemma {:induction false} UnregisterKeeps(w: World, r: Node)
    requires r in w.sockets.mem && w.At(r).state !in {CLOSED, RETRY_CONNECTION}
    ensures var w' := w.Unregister(r);
            w'.sockets == w.sockets && w'.ids == w.ids - {w.At(r).id} && w'.posted == w.posted
  {
  }

  /** A teardown that does not park its socket and whose close stays in progress. */
  lemma {:induction false} HangOutcome(w: World, r: Node, os: TeardownOs)
    requires w.sockets.Valid() && r in w.sockets.live && w.At(r).state in {CLOSING, CONNECTED, FAILURE, LISTENING}
    requires !Parks(w.At(r), |w.queue|, os)
    requires !os.Completes(w.At(r).state in {FAILURE, LISTENING} || (w.At(r).state == CLOSING && |w.queue| < 30))
    ensures HangsAs(w, w.DeleteOrDisconnect(r, os), r, os)
  {
    hide World.Close, World.Unregister, World.CreateBuffer, World.SetState, HangsAs;
    var w1 := w.Do(Enter(SockLock(r)));
    var w2 := w1.Section(QueueLock);
    if w.At(r).state == CLOSING && |w.queue| < 30 {
      RefusedFields(w2, r);
      var w3 := Refused(w2, r);
      RefusedCloses(w2, r, os);
      CloseHangs(w3, r, true, os);
      UnregisterKeeps(w3.Close(r, true, os), r);
    } else if w.At(r).state == CLOSING {
      CloseHangs(w2, r, false, os);
      UnregisterKeeps(w2.Close(r, false, os), r);
    } else {
      CloseHangs(w1, r, w.At(r).state != CONNECTED, os);
      UnregisterKeeps(w1.Close(r, w.At(r).state != CONNECTED, os), r);
    }
    HangsIs(w, w.DeleteOrDisconnect(r, os), r, os);
  }

  /** The state in which the teardown goes on after a refused disconnect. */
  function Refused(w: World, r: Node): World {
    w.CreateBuffer(Operation.Disconnect).SetState(r, FAILURE).Do(Leave(SockLock(r))).Do(Enter(SockLock(r)))
  }

  lemma {:induction false} RefusedCloses(w: World, r: Node, os: TeardownOs)
    requires r in w.sockets.mem && !os.disconnectOk
    ensures w.Disconnect(r, os) == Refused(w, r).Close(r, true, os).Unregister(r)
  {
    RefusedFields(w, r);
    hide World.Close, World.Unregister, World.CreateBuffer, World.SetState;
    var w1 := w.CreateBuffer(Operation.Disconnect).SetState(r, FAILURE).Do(Leave(SockLock(r)));
    assert w1.At(r).state == FAILURE;
  }

  lemma {:induction false} RefusedFields(w: World, r: Node)
    requires r in w.sockets.mem
    ensures var w' := Refused(w, r);
            && w'.At(r) == w.At(r).(state := FAILURE) && r in w'.sockets.mem && w'.sockets.live == w.sockets.live
            && w'.ids == w.ids && w'.posted == w.posted
  {
  }

  lemma {:induction false} HangsIs(w: World, w': World, r: Node, os: TeardownOs)
    requires var s, refused := w.At(r), w.At(r).state == CLOSING && |w.queue| < 30;
             && w'.At(r) == s.(state := if refused then FAILURE else s.state, abortive := s.abortive
                  || (os.lingerOk && (refused || s.state in {FAILURE, LISTENING} || os.shutdown == SysResult.Error)))
             && w'.sockets.live == w.sockets.live && w'.ids == w.ids - {s.id} && w'.posted == w.posted
    ensures HangsAs(w, w', r, os)
  {
  }

  // ---------- the closing check ----------

  /** What a completion leaves of its socket, last seen as `s`: if it was the last operation of a socket
      that is no longer connected, the socket ends; otherwise it is as last seen. */
  ghost predicate Leaves(w': World, r: Node, s: Socket, posted: seq<Posted>, ids: map<Uuid, Node>, queued: nat,
      os: TeardownOs)
  {
    if s.outstandingRecv == 0 && s.outstandingSend == 0 && s.state in {CLOSING, FAILURE} then
      EndsAs(w', r, s, posted, ids, queued, os)
    else
      r in w'.sockets.live && w'.At(r) == s && w'.ids == ids && w'.posted == posted
  }

  lemma {:induction false} CheckOutcome(w: World, r: Node, os: TeardownOs)
    requires w.sockets.Valid() && !w.forgets && r in w.sockets.live && Ends(os)
    requires w.At(r).state in {CONNECTED, CLOSING, FAILURE}
    requires w.At(r).state == CONNECTED ==> !w.At(r).Idle()
    ensures Leaves(w.CleanupIfLast(r, os), r, w.At(r), w.posted, w.ids, |w.queue|, os)
  {
    hide World.DeleteOrDisconnect, EndsAs;
    var w1 := w.Section(SockLock(r));
    if w.At(r).state != CONNECTED {
      TeardownOutcome(w1, r, os);
    }
  }

  lemma {:induction false} HandledFacts(w: World, r: Node, k: nat)
    requires Handled(w, r, k)
    ensures w.sockets.Valid() && r in w.sockets.live && w.At(r).state in {CONNECTED, CLOSING, FAILURE}
    ensures w.At(r).state == CONNECTED ==> !w.At(r).Idle()
  {
    hide TallyOf;
  }

  // ---------- sends ----------

  /** The socket after its send of `len` bytes completed with `bytes` of them. */
  function Written(s: Socket, len: nat, bytes: nat): Socket {
    s.(outstandingSend := s.outstandingSend - 1, pendingByteSent := s.pendingByteSent - len,
       state := if bytes < len then FAILURE else s.state)
  }

  lemma {:induction false} WriteSeen(w: World, i: nat, bytes: nat)
    requires Inv(w) && i < |w.posted| && w.posted[i].op == Operation.Write
    ensures var p := w.posted[i];
            var w' := w.Dequeue(i).HandleWrite(p.key, p.buf, bytes);
            && w'.At(p.key) == Written(w.At(p.key), p.len, bytes) && w'.posted == w.Dequeue(i).posted
            && w'.ids == w.ids && w'.queue == w.queue && w'.forgets == w.forgets
  {
    hide InvExcept, TallyOf;
    var p, w1 := w.posted[i], w.Dequeue(i);
    DequeueKeeps(w, i);
    SendAccounted(w, i);
    Facts(w1, p.key, {p.key});
    WrittenFields(w1, p.key, p.buf, bytes);
  }

  lemma {:induction false} WrittenFields(w: World, r: Node, b: Node, bytes: nat)
    requires r in w.sockets.mem
    ensures var w', len := w.HandleWrite(r, b, bytes), w.BufAt(b).bufLen;
            && w'.At(r) == Written(w.At(r), len, bytes) && w'.posted == w.posted && w'.ids == w.ids
            && w'.queue == w.queue && w'.forgets == w.forgets
  {
  }

  /** A send completes, on a connected, closing or failed socket: its bytes and count are given back, the
      socket fails exactly if it was short, and ends if it was the last operation. */
  lemma {:induction false} WriteEnds(w: World, i: nat, bytes: nat, os: IoOs)
    requires Inv(w) && !w.forgets && i < |w.posted| && w.posted[i].op == Operation.Write && Ends(os.teardown)
    ensures var p := w.posted[i];
            var w' := w.Dequeue(i).HandleIo(p.key, p.buf, bytes, os);
            Leaves(w', p.key, Written(w.At(p.key), p.len, bytes), w.Dequeue(i).posted, w.ids, |w.queue|, os.teardown)
  {
    hide InvExcept, TallyOf, Handled, Leaves, World.HandleWrite, World.CleanupIfLast;
    var p, w1 := w.posted[i], w.Dequeue(i);
    DequeueKeeps(w, i);
    var w2 := w1.HandleWrite(p.key, p.buf, bytes);
    WriteSeen(w, i, bytes);
    WriteKeeps(w, i, bytes);
    HandledFacts(w2, p.key, TallyOf(w.posted, p.key).recvs);
    CheckOutcome(w2, p.key, os.teardown);
  }

  // ---------- receives ----------

  /** An empty receive closes its socket, whatever state it was in, and ends it if nothing else is in flight. */
  lemma {:induction false} EmptyReadEnds(w: World, i: nat, os: IoOs)
    requires Inv(w) && !w.forgets && i < |w.posted| && w.posted[i].op == Operation.Read && Ends(os.teardown)
    ensures var p, s := w.posted[i], w.At(w.posted[i].key);
            var w' := w.Dequeue(i).HandleIo(p.key, p.buf, 0, os);
            Leaves(w', p.key, s.(outstandingRecv := s.outstandingRecv - 1, state := CLOSING), w.Dequeue(i).posted,
              w.ids,
              |w.queue|, os.teardown)
  {
    hide InvExcept, TallyOf, Handled, Leaves, World.HandleRead, World.CleanupIfLast, SafeCalls;
    var p, w1 := w.posted[i], w.Dequeue(i);
    DequeueKeeps(w, i);
    var w2 := w1.HandleRead(p.key, p.buf, 0, os.callback, os.recvOk);
    EmptySeen(w, i, os.callback, os.recvOk);
    ReadKeeps(w, i, 0, os.callback, os.recvOk);
    HandledFacts(w2, p.key, if w2.At(p.key).state == CONNECTED then 1 else 0);
    CheckOutcome(w2, p.key, os.teardown);
  }

  lemma {:induction false} EmptySeen(w: World, i: nat, calls: seq<UserCall>, recvOk: bool)
    requires Inv(w) && i < |w.posted| && w.posted[i].op == Operation.Read
    ensures var p, s := w.posted[i], w.At(w.posted[i].key);
            var w' := w.Dequeue(i).HandleRead(p.key, p.buf, 0, calls, recvOk);
            && w'.At(p.key) == s.(outstandingRecv := s.outstandingRecv - 1, state := CLOSING)
            && w'.posted == w.Dequeue(i).posted && w'.ids == w.ids && w'.queue == w.queue && w'.forgets == w.forgets
  {
    hide InvExcept, TallyOf;
    DequeueKeeps(w, i);
    Facts(w.Dequeue(i), w.posted[i].key, {w.posted[i].key});
    EmptyFields(w.Dequeue(i), w.posted[i].key, w.posted[i].buf, calls, recvOk);
  }

  lemma {:induction false} EmptyFields(w: World, r: Node, b: Node, calls: seq<UserCall>, recvOk: bool)
    requires r in w.sockets.mem
    ensures var w', s := w.HandleRead(r, b, 0, calls, recvOk), w.At(r);
            && w'.At(r) == s.(outstandingRecv := s.outstandingRecv - 1, state := CLOSING) && w'.posted == w.posted
            && w'.ids == w.ids && w'.queue == w.queue && w'.forgets == w.forgets
  {
  }

  /** The socket after its callback, and the receive that follows it. */
  function Received(s: Socket, recvOk: bool): Socket {
    if s.state != CONNECTED then s
    else if recvOk then s.(outstandingRecv := s.outstandingRecv + 1)
    else s.(state := FAILURE)
  }

  lemma {:induction false} ReceivedFields(c: World, r: Node, b: Node, ok: bool)
    requires r in c.sockets.mem && b in c.buffers.mem && b in c.buffers.live && c.BufAt(b).operation == Operation.Read
    ensures var w' := c.AfterReceive(r, b, ok);
            && w'.At(r) == Received(c.At(r), ok) && w'.ids == c.ids && w'.queue == c.queue && w'.forgets == c.forgets
            && w'.posted == c.posted +
                 if c.At(r).state == CONNECTED && ok then [Posted(b, r, Operation.Read, 4096)] else []
  {
  }

  /** A receive with data, from the end of its callback on: it is posted again, into the same buffer at full
      size, exactly if the callback left the socket connected; a refused one fails the socket; and a socket
      that is no longer connected ends if nothing is in flight. */
  lemma {:induction false} ReadEnds(w: World, i: nat, bytes: nat, os: IoOs)
    requires Inv(w) && !w.forgets && i < |w.posted| && w.posted[i].op == Operation.Read && 0 < bytes <= w.posted[i].len
    requires Ends(os.teardown) && SafeCalls(CallbackState(w, i, bytes), w.posted[i].key, os.callback)
    ensures var p, c := w.posted[i], CallbackEnd(w, i, bytes, os.callback);
            var w' := w.Dequeue(i).HandleIo(p.key, p.buf, bytes, os);
            var again := if c.At(p.key).state == CONNECTED && os.recvOk then
                           [Posted(p.buf, p.key, Operation.Read, 4096)] else [];
            Leaves(w', p.key, Received(c.At(p.key), os.recvOk), c.posted + again, c.ids, |c.queue|, os.teardown)
  {
    hide InvExcept, TallyOf, SafeCalls, Handled, Leaves, World.ReceiveData, World.AfterReceive, World.CleanupIfLast,
         World.BeforeReceive;
    var p, c := w.posted[i], CallbackEnd(w, i, bytes, os.callback);
    DequeueKeeps(w, i);
    CallbackFacts(w, i, bytes, os.callback);
    ReceivedFields(c, p.key, p.buf, os.recvOk);
    ReadKeeps(w, i, bytes, os.callback, os.recvOk);
    ReadFlags(w, i, bytes, os);
    var w1 := c.AfterReceive(p.key, p.buf, os.recvOk);
    HandledFacts(w1, p.key, if w1.At(p.key).state == CONNECTED then 1 else 0);
    CheckOutcome(w1, p.key, os.teardown);
  }

  lemma {:induction false} ReadFlags(w: World, i: nat, bytes: nat, os: IoOs)
    requires Inv(w) && i < |w.posted| && w.posted[i].op == Operation.Read && 0 < bytes <= w.posted[i].len
    requires SafeCalls(CallbackState(w, i, bytes), w.posted[i].key, os.callback)
    ensures w.Dequeue(i).HandleRead(w.posted[i].key, w.posted[i].buf, bytes, os.callback, os.recvOk).forgets ==
        w.forgets
  {
    hide Inv, Handled, SafeCalls, World.HandleRead;
    ReadKeeps(w, i, bytes, os.callback, os.recvOk);
  }

  // ---------- errors ----------

  /** What the rest of an error makes of a socket last seen as `w.At(r)`. */
  lemma {:induction false} FinishOutcome(w: World, r: Node, b: Node, os: TeardownOs)
    requires w.sockets.Valid() && !w.forgets && r in w.sockets.live && Ends(os)
    requires w.At(r).state in {CLOSING, FAILURE}
    ensures var w', s := w.FinishError(r, b, os), w.At(r);
            if s.Idle() then EndsAs(w', r, s, w.posted, w.ids, |w.queue|, os)
            else r in w'.sockets.live && w'.At(r) == s && w'.ids == w.ids && w'.posted == w.posted
  {
    hide World.DeleteOrDisconnect, EndsAs;
    var w1 := w.Do(Leave(SockLock(r)));
    if w.At(r).Idle() {
      TeardownOutcome(w1, r, os);
      EndsDropped(w1.DeleteOrDisconnect(r, os), r, b, w.At(r), w.posted, w.ids, |w.queue|, os);
    }
  }

  lemma {:induction false} EndsDropped(w: World, r: Node, b: Node, s: Socket, posted: seq<Posted>, ids: map<Uuid, Node>,
      queued: nat, os: TeardownOs)
    requires EndsAs(w, r, s, posted, ids, queued, os)
    ensures EndsAs(w.DeleteBuffer(b), r, s, posted, ids, queued, os)
  {
    assert w.DeleteBuffer(b).At(r) == w.At(r);
  }

  /** The socket after an operation failed: the operation is given back, and the socket is in FAILURE. */
  function Erred(s: Socket, p: Posted): Socket {
    match p.op
    case Read => s.(outstandingRecv := s.outstandingRecv - 1, state := FAILURE)
    case Write => s.(outstandingSend := s.outstandingSend - 1, pendingByteSent := s.pendingByteSent - p.len,
                     state := FAILURE)
    case _ => s.(state := FAILURE)
  }

  lemma {:induction false} ErredFields(w: World, r: Node, b: Node, addressInUse: bool, os: ConnectOs, p: Posted)
    requires r in w.sockets.mem && w.BufAt(b) == Buffer(p.op, p.len) && p.op != Operation.Connect
    ensures var w' := w.MarkError(r, b, addressInUse, os);
            && w'.At(r) == Erred(w.At(r), p) && w'.posted == w.posted && w'.ids == w.ids && w'.queue == w.queue
            && w'.forgets == w.forgets && w'.sockets.live == w.sockets.live && w'.buffers == w.buffers
            && (w.sockets.Valid() && r in w.sockets.live ==> w'.sockets.Valid())
  {
  }

  lemma {:induction false} ErrorFacts(w: World, i: nat)
    requires Inv(w) && i < |w.posted|
    ensures var p, w1 := w.posted[i], w.Dequeue(i);
            && w1.sockets.Valid() && w1.buffers.Valid() && p.key in w1.sockets.live && p.key in w1.sockets.mem
            && p.buf in w1.buffers.live && w1.BufAt(p.buf) == Buffer(p.op, p.len) && w1.At(p.key) == w.At(p.key)
  {
    hide TallyOf;
    assert w.posted[i] in w.posted;
  }

  /** Any operation but a connection fails: its own count and bytes are given back and its socket fails; a
      socket with nothing left in flight, as after any failed accept or disconnect, is closed abortively,
      unlisted and out of the map. */
  lemma {:induction false} ErrorEnds(w: World, i: nat, addressInUse: bool, os: ErrorOs)
    requires Inv(w) && !w.forgets && i < |w.posted| && w.posted[i].op != Operation.Connect && Ends(os.teardown)
    ensures var p := w.posted[i];
            var w' := w.Dequeue(i).HandleError(p.key, p.buf, addressInUse, os);
            Leaves(w', p.key, Erred(w.At(p.key), p), w.Dequeue(i).posted, w.ids, |w.queue|, os.teardown)
  {
    hide InvExcept, EndsAs, World.MarkError, World.FinishError;
    var p, w1 := w.posted[i], w.Dequeue(i).Do(Enter(SockLock(w.posted[i].key)));
    ErrorFacts(w, i);
    ErredFields(w1, p.key, p.buf, addressInUse, os.connect, p);
    FinishOutcome(w1.MarkError(p.key, p.buf, addressInUse, os.connect), p.key, p.buf, os.teardown);
  }

  /** A failed accept or disconnect was the socket's only operation. */
  lemma {:induction false} FailedAlone(w: World, i: nat)
    requires Inv(w) && i < |w.posted| && w.posted[i].op in {Operation.Accept, Operation.Disconnect}
    ensures w.At(w.posted[i].key).Idle()
  {
    hide InvExcept, TallyOf, Spares, Held;
    ErrorAccounted(w, i);
  }

  /** A failed accept ends the listener, and a failed disconnect the socket that was to be used again: closed
      without a handle, abortively if the system lets it, unlisted, out of the map, and its buffer released. */
  lemma {:induction false} FailedOtherEnds(w: World, i: nat, addressInUse: bool, os: ErrorOs)
    requires Inv(w) && !w.forgets && i < |w.posted| && Ends(os.teardown)
    requires w.posted[i].op in {Operation.Accept, Operation.Disconnect}
    ensures var p, s := w.posted[i], w.At(w.posted[i].key);
            var w' := w.Dequeue(i).HandleError(p.key, p.buf, addressInUse, os);
            && p.key !in w'.sockets.live && w'.ids == w.ids - {s.id} && w'.posted == w.Dequeue(i).posted
            && p.buf !in w'.buffers.live
            && (p.key in w'.sockets.mem ==>
                  w'.At(p.key) ==
                    s.(hasHandle := false, state := CLOSED, abortive := s.abortive || os.teardown.lingerOk))
  {
    hide InvExcept, World.HandleError;
    ErrorEnds(w, i, addressInUse, os);
    FailedAlone(w, i);
    ErrorReleases(w, i, addressInUse, os);
  }

  /** A connection that fails for another reason than an address in use leaves its socket as it was, in
      CONNECT_FAILURE and out of the map. */
  lemma {:induction false} FailedConnectEnds(w: World, i: nat, os: ErrorOs)
    requires Inv(w) && i < |w.posted| && w.posted[i].op == Operation.Connect
    ensures var p, s := w.posted[i], w.At(w.posted[i].key);
            var w' := w.Dequeue(i).HandleError(p.key, p.buf, false, os);
            && p.key in w'.sockets.live && w'.At(p.key) == s.(state := CONNECT_FAILURE) && w'.ids == w.ids - {s.id}
            && w'.posted == w.Dequeue(i).posted
  {
    hide InvExcept, TallyOf, Spares, Held, World.DeleteOrDisconnect;
    var p, w1 := w.posted[i], w.Dequeue(i).Do(Enter(SockLock(w.posted[i].key)));
    ErrorFacts(w, i);
    ErrorAccounted(w, i);
    var w2 := w1.SetState(p.key, CONNECT_FAILURE).Do(Leave(SockLock(p.key)));
    assert w2.At(p.key) == w.At(p.key).(state := CONNECT_FAILURE);
    TeardownContract(w2, p.key, os.teardown);
  }

  /** Whatever failed, its buffer is released. */
  lemma {:induction false} ErrorReleases(w: World, i: nat, addressInUse: bool, os: ErrorOs)
    requires Inv(w) && i < |w.posted| && Ends(os.teardown)
    ensures var p := w.posted[i];
            p.buf !in w.Dequeue(i).HandleError(p.key, p.buf, addressInUse, os).buffers.live
  {
    hide InvExcept, TallyOf, Open, Spares, Held, Settled, World.FinishError, World.MarkError;
    var p, r, b := w.posted[i], w.posted[i].key, w.posted[i].buf;
    var w1 := w.Dequeue(i).Do(Enter(SockLock(r)));
    var w2 := w1.MarkError(r, b, addressInUse, os.connect);
    if p.op in {Operation.Read, Operation.Write} {
      TransferMarked(w, i, addressInUse, os.connect);
    } else {
      OtherOperations(p.op);
      MarkOther(w, i, addressInUse, os);
    }
    FinishReleases(w2, r, b, os.teardown);
  }

  lemma {:induction false} OtherOperations(op: Operation)
    requires op !in {Operation.Read, Operation.Write}
    ensures op in {Operation.Disconnect, Operation.Accept, Operation.Connect}
  {
  }

  lemma {:induction false} TransferMarked(w: World, i: nat, addressInUse: bool, os: ConnectOs)
    requires Inv(w) && i < |w.posted| && w.posted[i].op in {Operation.Read, Operation.Write}
    ensures var r := w.posted[i].key;
            var w' := w.Dequeue(i).Do(Enter(SockLock(r))).MarkError(r, w.posted[i].buf, addressInUse, os);
            InvExcept(w', {r}) && (w'.At(r).Idle() ==> Settled(w', r))
  {
    hide InvExcept, TallyOf, Open, Spares, Held, Settled;
    var p, r, b := w.posted[i], w.posted[i].key, w.posted[i].buf;
    DequeueKeeps(w, i);
    var w2 := w.Dequeue(i).Do(Enter(SockLock(r))).MarkError(r, b, addressInUse, os);
    if p.op == Operation.Read {
      RecvFailed(w, i);
    } else {
      SendFailed(w, i);
    }
    if w2.At(r).Idle() {
      OpenSettled(w2, r, if p.op == Operation.Read then 0 else TallyOf(w.posted, r).recvs);
    }
  }

  lemma {:induction false} FinishReleases(w: World, r: Node, b: Node, os: TeardownOs)
    requires InvExcept(w, {r}) && Ends(os) && (w.At(r).Idle() ==> Settled(w, r))
    ensures b !in w.FinishError(r, b, os).buffers.live
  {
    hide InvExcept, Settled, World.DeleteOrDisconnect, World.DeleteBuffer, TornDown, Ended;
    var w1 := w.Do(Leave(SockLock(r)));
    LogKeeps(w, w1, {r});
    BuffersKept(w1, {r});
    if w.At(r).Idle() {
      SettledLog(w, w1, r);
      SettledFacts(w1, r);
      TeardownKeeps(w1, r, os);
      BuffersKept(w1.DeleteOrDisconnect(r, os), {});
    }
    DropRemoves(if w.At(r).Idle() then w1.DeleteOrDisconnect(r, os) else w1, b);
  }

  lemma {:induction false} BuffersKept(w: World, f: set<Node>)
    requires InvExcept(w, f)
    ensures w.buffers.Valid() && w.sockets.Valid()
  {
  }

  lemma {:induction false} DropRemoves(w: World, b: Node)
    requires w.buffers.Valid()
    ensures b !in w.DeleteBuffer(b).buffers.live
    ensures |w.DeleteBuffer(b).buffers.live| == |w.buffers.live| - if b in w.buffers.live then 1 else 0
  {
    if b in w.buffers.live {
      EraseKeeps(w.buffers, b);
      WithoutMembers(w.buffers.live, b);
    }
  }

  // ---------- buffers ----------

  /** A teardown makes a buffer exactly if it tries a disconnect; a refused one leaves it in the list. */
  lemma {:induction false} TeardownBuffers(w: World, r: Node, os: TeardownOs)
    requires r in w.sockets.mem && r in w.sockets.live && w.At(r).state != CLOSED && w.buffers.Valid()
    ensures |w.DeleteOrDisconnect(r, os).buffers.live|
         == |w.buffers.live| + if w.At(r).state == CLOSING && |w.queue| < 30 then 1 else 0
  {
    TeardownContract(w, r, os);
    hide World.DeleteOrDisconnect, Ended;
    EndedBuffers(w, w.DeleteOrDisconnect(r, os), r, os, Verdict(w.At(r).state, w.ShouldReuse(), os));
    LeftCount(w, r);
  }

  lemma {:induction false} EndedBuffers(w: World, w': World, r: Node, os: TeardownOs, e: Ending)
    requires Ended(w, w', r, os, e) && e == Verdict(w.At(r).state, w.ShouldReuse(), os)
    ensures w'.buffers == LeftBuffers(w, r)
  {
    hide Recycler.Valid, World.CreateBuffer;
  }

  lemma {:induction false} LeftCount(w: World, r: Node)
    requires w.buffers.Valid()
    ensures |LeftBuffers(w, r).live| == |w.buffers.live| + if w.At(r).state == CLOSING && |w.queue| < 30 then 1 else 0
  {
    CreateKeeps(w.buffers, NewBuffer(Operation.Disconnect), AssignBuffer);
    hide Recycler.Valid;
  }

  /** The buffer a teardown makes, if it makes one, once the last operation of a socket is done. */
  function Disconnects(s: Socket, queued: nat): nat {
    if s.outstandingRecv == 0 && s.outstandingSend == 0 && s.state == CLOSING && queued < 30 then 1 else 0
  }

  lemma {:induction false} CheckBuffers(w: World, r: Node, os: TeardownOs)
    requires r in w.sockets.mem && r in w.sockets.live && w.At(r).state in {CONNECTED, CLOSING, FAILURE}
    requires w.buffers.Valid()
    ensures |w.CleanupIfLast(r, os).buffers.live| == |w.buffers.live| + Disconnects(w.At(r), |w.queue|)
  {
    hide World.DeleteOrDisconnect, Recycler.Valid;
    if w.At(r).state != CONNECTED {
      TeardownBuffers(w.Section(SockLock(r)), r, os);
    }
  }

  lemma {:induction false} WriteDrops(w: World, r: Node, b: Node, bytes: nat)
    requires w.buffers.Valid() && b in w.buffers.live
    ensures var w' := w.HandleWrite(r, b, bytes); w'.buffers.Valid() && |w'.buffers.live| == |w.buffers.live| - 1
  {
    EraseKeeps(w.buffers, b);
    WithoutMembers(w.buffers.live, b);
  }

  /** A completed send releases its buffer. */
  lemma {:induction false} WriteReleases(w: World, i: nat, bytes: nat, os: IoOs)
    requires Inv(w) && i < |w.posted| && w.posted[i].op == Operation.Write && Ends(os.teardown)
    ensures var p := w.posted[i];
            var w' := w.Dequeue(i).HandleIo(p.key, p.buf, bytes, os);
            |w'.buffers.live| == |w.buffers.live| - 1 + Disconnects(Written(w.At(p.key), p.len, bytes), |w.queue|)
  {
    hide InvExcept, TallyOf, Handled, World.HandleWrite, World.CleanupIfLast;
    var p, w1 := w.posted[i], w.Dequeue(i);
    ErrorFacts(w, i);
    var w2 := w1.HandleWrite(p.key, p.buf, bytes);
    WriteSeen(w, i, bytes);
    WriteKeeps(w, i, bytes);
    WriteDrops(w1, p.key, p.buf, bytes);
    HandledFacts(w2, p.key, TallyOf(w.posted, p.key).recvs);
    CheckBuffers(w2, p.key, os.teardown);
  }

  lemma {:induction false} EmptyDrops(w: World, r: Node, b: Node, calls: seq<UserCall>, recvOk: bool)
    requires w.buffers.Valid() && b in w.buffers.live
    ensures var w' := w.HandleRead(r, b, 0, calls, recvOk);
            w'.buffers.Valid() && |w'.buffers.live| == |w.buffers.live| - 1
  {
    EraseKeeps(w.buffers, b);
    WithoutMembers(w.buffers.live, b);
  }

  /** An empty receive releases its buffer. */
  lemma {:induction false} EmptyReadReleases(w: World, i: nat, os: IoOs)
    requires Inv(w) && i < |w.posted| && w.posted[i].op == Operation.Read && Ends(os.teardown)
    ensures var p, s := w.posted[i], w.At(w.posted[i].key);
            var w' := w.Dequeue(i).HandleIo(p.key, p.buf, 0, os);
            |w'.buffers.live| == |w.buffers.live| - 1
              + Disconnects(s.(outstandingRecv := s.outstandingRecv - 1, state := CLOSING), |w.queue|)
  {
    hide InvExcept, TallyOf, Handled, World.HandleRead, World.CleanupIfLast, SafeCalls;
    var p, w1 := w.posted[i], w.Dequeue(i);
    ErrorFacts(w, i);
    var w2 := w1.HandleRead(p.key, p.buf, 0, os.callback, os.recvOk);
    EmptySeen(w, i, os.callback, os.recvOk);
    ReadKeeps(w, i, 0, os.callback, os.recvOk);
    EmptyDrops(w1, p.key, p.buf, os.callback, os.recvOk);
    HandledFacts(w2, p.key, if w2.At(p.key).state == CONNECTED then 1 else 0);
    CheckBuffers(w2, p.key, os.teardown);
  }

  lemma {:induction false} AfterDrops(c: World, r: Node, b: Node, ok: bool)
    requires c.buffers.Valid() && b in c.buffers.live
    ensures var w' := c.AfterReceive(r, b, ok);
            && w'.buffers.Valid()
            && |w'.buffers.live| == |c.buffers.live| - if c.At(r).state == CONNECTED && ok then 0 else 1
  {
    var l := c.PutBuf(b, c.BufAt(b).(bufLen := DEFAULT_BUFFER_SIZE)).buffers;
    assert l.Valid();
    EraseKeeps(l, b);
    WithoutMembers(l.live, b);
  }

  lemma {:induction false} CallbackBuffers(w: World, i: nat, bytes: nat, calls: seq<UserCall>)
    requires Inv(w) && i < |w.posted| && w.posted[i].op == Operation.Read && 0 < bytes <= w.posted[i].len
    requires SafeCalls(CallbackState(w, i, bytes), w.posted[i].key, calls)
    ensures CallbackEnd(w, i, bytes, calls).buffers.Valid() && CallbackEnd(w, i, bytes, calls).sockets.Valid()
  {
    hide InvExcept, TallyOf, Evolves, Spares, SafeCalls, World.ReceiveData;
    var r, b := w.posted[i].key, w.posted[i].buf;
    var w1 := w.Dequeue(i).Put(r, w.Dequeue(i).At(r).RecvDone()).Section(SockLock(r));
    RecvAccounted(w, i);
    var w2 := CallbackState(w, i, bytes);
    PutBufKeeps(w1, b, w1.BufAt(b).(bufLen := bytes), {r});
    OpenBuffers(w1, w2, r, 0);
    ReceiveDataKeeps(w2, r, calls);
    BuffersKept(w2.ReceiveData(r, calls), {r});
  }

  /** A receive keeps its buffer exactly if it is posted again. */
  lemma {:induction false} ReadReleases(w: World, i: nat, bytes: nat, os: IoOs)
    requires Inv(w) && i < |w.posted| && w.posted[i].op == Operation.Read && 0 < bytes <= w.posted[i].len
    requires Ends(os.teardown) && SafeCalls(CallbackState(w, i, bytes), w.posted[i].key, os.callback)
    ensures var p, c := w.posted[i], CallbackEnd(w, i, bytes, os.callback);
            var w' := w.Dequeue(i).HandleIo(p.key, p.buf, bytes, os);
            |w'.buffers.live| == |c.buffers.live| - (if c.At(p.key).state == CONNECTED && os.recvOk then 0 else 1)
                                 + Disconnects(Received(c.At(p.key), os.recvOk), |c.queue|)
  {
    hide InvExcept, TallyOf, SafeCalls, Handled, World.ReceiveData, World.AfterReceive, World.CleanupIfLast,
         World.BeforeReceive;
    var p, c := w.posted[i], CallbackEnd(w, i, bytes, os.callback);
    DequeueKeeps(w, i);
    CallbackFacts(w, i, bytes, os.callback);
    CallbackBuffers(w, i, bytes, os.callback);
    ReceivedFields(c, p.key, p.buf, os.recvOk);
    AfterDrops(c, p.key, p.buf, os.recvOk);
    ReadKeeps(w, i, bytes, os.callback, os.recvOk);
    var w1 := c.AfterReceive(p.key, p.buf, os.recvOk);
    HandledFacts(w1, p.key, if w1.At(p.key).state == CONNECTED then 1 else 0);
    CheckBuffers(w1, p.key, os.teardown);
  }

  // ---------- deletion ----------

  /** What deleting a socket makes of its record: a connected or failed one is closed, if its calls end, and
      abortively if it failed or its shutdown did; any other is left as it was. */
  predicate DroppedAs(s: Socket, s': Socket, os: TeardownOs) {
    if s.hasHandle && s.state in {CONNECTED, FAILURE} then
      if os.close != InProgress && (s.state == FAILURE || os.shutdown != InProgress) then
        s' == s.(hasHandle := false, state := CLOSED,
                 abortive := s.abortive || (os.lingerOk && (s.state == FAILURE || os.shutdown == SysResult.Error)))
      else s' == s.(abortive := s'.abortive)
    else s' == s
  }

  lemma {:induction false} CloseDrops(w: World, r: Node, os: TeardownOs)
    requires r in w.sockets.mem && w.At(r).hasHandle && w.At(r).state in {CONNECTED, FAILURE}
    ensures var w' := w.Close(r, w.At(r).state == FAILURE, os);
            && DroppedAs(w.At(r), w'.At(r), os) && (forall q :: q != r ==> w'.At(q) == w.At(q))
            && w'.sockets.live == w.sockets.live && w'.sockets.it == w.sockets.it
            && (forall q :: q in w'.sockets.mem <==> q in w.sockets.mem)
  {
  }

  lemma {:induction false} EraseLeaves(w: World, r: Node)
    requires r in w.sockets.live && r in w.sockets.it && w.sockets.it[r] == r
    ensures var w' := w.EraseSocket(r);
            forall q :: q in w'.sockets.mem ==> q in w.sockets.mem && w'.At(q) == w.At(q)
  {
  }

  lemma {:induction false} DeleteOutcome(w: World, r: Node, os: TeardownOs)
    requires w.sockets.Valid() && r in w.sockets.live
    ensures var w' := w.DeleteSocket(r, os);
            forall q :: q in w'.sockets.mem ==>
              q in w.sockets.mem && if q == r then DroppedAs(w.At(r), w'.At(r), os) else w'.At(q) == w.At(q)
  {
    hide World.Close, World.EraseSocket, DroppedAs;
    var w1 := w.Do(Enter(SockLock(r)));
    if w.At(r).hasHandle && w.At(r).state in {CONNECTED, FAILURE} {
      CloseDrops(w1, r, os);
      var w2 := w1.Close(r, w.At(r).state == FAILURE, os);
      var w3 := w2.Do(Leave(SockLock(r)));
      assert forall q :: w3.At(q) == w2.At(q) && w1.At(q) == w.At(q);
      EraseLeaves(w3, r);
    } else {
      NotDropped(w.At(r), os);
      EraseLeaves(w1.Do(Leave(SockLock(r))), r);
    }
  }

  lemma {:induction false} NotDropped(s: Socket, os: TeardownOs)
    requires !(s.hasHandle && s.state in {CONNECTED, FAILURE})
    ensures DroppedAs(s, s, os)
  {
  }

  // ---------- the others ----------

  lemma {:induction false} CheckOnly(w: World, r: Node, os: TeardownOs)
    requires w.sockets.Valid()
    ensures Only(w, w.CleanupIfLast(r, os), {r})
  {
    hide Only, World.DeleteOrDisconnect;
    var w1 := w.Section(SockLock(r));
    SameSockets(w, w1, {r});
    TeardownOnly(w1, r, os);
    OnlyAgain(w, w1, w1.DeleteOrDisconnect(r, os), {r});
  }

  lemma {:induction false} PutThen(w: World, w1: World, r: Node, s: Socket, st: SocketState, b: Node)
    requires w.sockets.Valid() && w1 == w.Put(r, s).Section(SockLock(r))
    ensures Only(w, w1.DeleteBuffer(b), {r}) && Only(w, w1.ChangeSocketState(r, st).DeleteBuffer(b), {r})
  {
    hide Only, World.Put, World.ChangeSocketState, World.DeleteBuffer;
    PutOnly(w, r, s);
    OnlyValid(w, w.Put(r, s), {r});
    SameSockets(w.Put(r, s), w1, {r});
    OnlyAgain(w, w.Put(r, s), w1, {r});
    OnlyValid(w, w1, {r});
    DropSame(w1, b);
    SameSockets(w1, w1.DeleteBuffer(b), {r});
    OnlyAgain(w, w1, w1.DeleteBuffer(b), {r});
    var w2 := w1.ChangeSocketState(r, st);
    ChangeOnly(w1, r, st);
    OnlyAgain(w, w1, w2, {r});
    DropSame(w2, b);
    SameSockets(w2, w2.DeleteBuffer(b), {r});
    OnlyAgain(w, w2, w2.DeleteBuffer(b), {r});
  }

  lemma {:induction false} DropSame(w: World, b: Node)
    ensures w.DeleteBuffer(b).sockets == w.sockets && w.DeleteBuffer(b).timeWait == w.timeWait
  {
  }

  /** A completed send, or an empty receive, changes no socket but its own. */
  lemma {:induction false} TransferSpares(w: World, i: nat, bytes: nat, os: IoOs)
    requires Inv(w) && i < |w.posted|
    requires w.posted[i].op == Operation.Write || (w.posted[i].op == Operation.Read && bytes == 0)
    ensures var p := w.posted[i]; Only(w, w.Dequeue(i).HandleIo(p.key, p.buf, bytes, os), {p.key})
  {
    hide InvExcept, Only, World.CleanupIfLast, World.Put, World.ChangeSocketState, World.DeleteBuffer;
    var p, w1 := w.posted[i], w.Dequeue(i);
    var r := p.key;
    ErrorFacts(w, i);
    var w2 := if p.op == Operation.Write then w1.HandleWrite(r, p.buf, bytes)
              else w1.HandleRead(r, p.buf, bytes, os.callback, os.recvOk);
    var s := if p.op == Operation.Write then w1.At(r).SendDone(p.len) else w1.At(r).RecvDone();
    PutThen(w1, w1.Put(r, s).Section(SockLock(r)), r, s, if p.op == Operation.Write then FAILURE else CLOSING, p.buf);
    OnlyValid(w1, w2, {r});
    CheckOnly(w2, r, os.teardown);
    OnlyAgain(w1, w2, w2.CleanupIfLast(r, os.teardown), {r});
    OnlyFrom(w, w1, w2.CleanupIfLast(r, os.teardown), r);
  }

  lemma {:induction false} OnlyFrom(w: World, w1: World, w': World, r: Node)
    requires Only(w1, w', {r}) && w1.sockets == w.sockets && w1.timeWait == w.timeWait
    ensures Only(w, w', {r})
  {
  }

  /** The end of a receive with data changes no socket but its own, the callback aside. */
  lemma {:induction false} ReadSpares(w: World, i: nat, bytes: nat, os: IoOs)
    requires Inv(w) && i < |w.posted| && w.posted[i].op == Operation.Read && 0 < bytes <= w.posted[i].len
    requires SafeCalls(CallbackState(w, i, bytes), w.posted[i].key, os.callback)
    ensures var p := w.posted[i];
            Only(CallbackEnd(w, i, bytes, os.callback), w.Dequeue(i).HandleIo(p.key, p.buf, bytes, os), {p.key})
  {
    hide InvExcept, TallyOf, SafeCalls, Only, World.ReceiveData, World.AfterReceive, World.CleanupIfLast,
         World.BeforeReceive;
    var p, c := w.posted[i], CallbackEnd(w, i, bytes, os.callback);
    DequeueKeeps(w, i);
    CallbackBuffers(w, i, bytes, os.callback);
    AfterOnly(c, p.key, p.buf, os.recvOk);
    var w1 := c.AfterReceive(p.key, p.buf, os.recvOk);
    OnlyValid(c, w1, {p.key});
    CheckOnly(w1, p.key, os.teardown);
    OnlyAgain(c, w1, w1.CleanupIfLast(p.key, os.teardown), {p.key});
  }

  lemma {:induction false} AfterOnly(c: World, r: Node, b: Node, ok: bool)
    requires c.sockets.Valid()
    ensures Only(c, c.AfterReceive(r, b, ok), {r})
  {
    hide Only, World.PostRecv, World.ChangeSocketState, World.DeleteBuffer;
    var w1 := c.PutBuf(b, c.BufAt(b).(bufLen := DEFAULT_BUFFER_SIZE));
    SameSockets(c, w1, {r});
    DropSame(w1, b);
    SameSockets(w1, w1.DeleteBuffer(b), {r});
    OnlyAgain(c, w1, w1.DeleteBuffer(b), {r});
    var w2 := w1.PostRecv(r, b, ok);
    PostRecvOnly(w1, r, b, ok);
    OnlyAgain(c, w1, w2, {r});
    OnlyValid(c, w2, {r});
    var w3 := w2.ChangeSocketState(r, FAILURE);
    ChangeOnly(w2, r, FAILURE);
    OnlyAgain(c, w2, w3, {r});
    var w4 := w3.Do(Leave(SockLock(r)));
    DropSame(w4, b);
    SameSockets(w3, w4.DeleteBuffer(b), {r});
    OnlyAgain(c, w3, w4.DeleteBuffer(b), {r});
  }

  /** An error, other than one that is retried, changes no socket but its own. */
  lemma {:induction false} ErrorSpares(w: World, i: nat, addressInUse: bool, os: ErrorOs)
    requires Inv(w) && i < |w.posted| && !(addressInUse && w.posted[i].op == Operation.Connect)
    ensures var p := w.posted[i]; Only(w, w.Dequeue(i).HandleError(p.key, p.buf, addressInUse, os), {p.key})
  {
    hide InvExcept, Only, World.MarkError, World.DeleteOrDisconnect, World.DeleteBuffer;
    var p, w1 := w.posted[i], w.Dequeue(i).Do(Enter(SockLock(w.posted[i].key)));
    var r := p.key;
    ErrorFacts(w, i);
    var w2 := w1.MarkError(r, p.buf, addressInUse, os.connect);
    MarkOnly(w1, r, p.buf, addressInUse, os.connect);
    OnlyValid(w1, w2, {r});
    var w3 := w2.Do(Leave(SockLock(r)));
    SameSockets(w2, w3, {r});
    OnlyAgain(w1, w2, w3, {r});
    TeardownOnly(w3, r, os.teardown);
    OnlyAgain(w1, w3, w3.DeleteOrDisconnect(r, os.teardown), {r});
    var w4 := if w2.At(r).Idle() then w3.DeleteOrDisconnect(r, os.teardown) else w3;
    OnlyValid(w1, w4, {r});
    DropSame(w4, p.buf);
    SameSockets(w4, w4.DeleteBuffer(p.buf), {r});
    OnlyAgain(w1, w4, w4.DeleteBuffer(p.buf), {r});
    OnlyFrom(w, w1, w4.DeleteBuffer(p.buf), r);
  }

  lemma {:induction false} MarkOnly(w: World, r: Node, b: Node, addressInUse: bool, os: ConnectOs)
    requires w.sockets.Valid() && !(addressInUse && w.BufAt(b).operation == Operation.Connect)
    ensures Only(w, w.MarkError(r, b, addressInUse, os), {r})
  {
    hide Only, World.Put;
    PutOnly(w, r, w.At(r).(state := CONNECT_FAILURE));
    PutOnly(w, r, w.At(r).(state := FAILURE));
    PutOnly(w, r, w.At(r).RecvDone().(state := FAILURE));
    PutOnly(w, r, w.At(r).SendDone(w.BufAt(b).bufLen).(state := FAILURE));
  }
}
