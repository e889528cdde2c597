/** Every handled completion keeps the invariant, and so does every run. */
module Completions {
  import opened SocketTypes
  import opened RecyclableList
  import opened TimeWait
  import opened Engine
  import opened EngineInvariant
  import opened EngineSteps
  import opened Teardown

  lemma {:induction false} ClockKeeps(w: World, t: nat)
    requires Inv(w) && t >= w.clock
    ensures Inv(w.(clock := t))
  {
  }

  /** The state after the receive or send being handled has been accounted for. */
  ghost predicate Handled(w: World, r: Node, k: nat) {
    InvExcept(w, {r}) && Open(w, r, k) && k <= 1 && (w.At(r).state == CONNECTED ==> k == 1)
  }

  predicate Ends(os: TeardownOs) { os.shutdown != InProgress && os.close != InProgress }

  lemma {:induction false} OpenSettled(w: World, r: Node, k: nat)
    requires Open(w, r, k) && w.At(r).Idle() && Draining(w.At(r).state)
    ensures Settled(w, r) && k == 0
  {
    hide TallyOf;
    NoSendsNoBytes(w.posted, r);
  }

  lemma {:induction false} OpenBusyFits(w: World, r: Node, k: nat)
    requires Open(w, r, k) && k <= 1 && (w.At(r).state == CONNECTED ==> k == 1)
    requires !(w.At(r).Idle() && Draining(w.At(r).state))
    ensures SockOk(w, r)
  {
    hide TallyOf;
  }

  /** What a completion on `r` may do to the rest: as a user call, and then `r` is torn down or not. */
  ghost predicate Spares(w: World, w': World, r: Node) {
    && w'.forgets == w.forgets
    && (forall q :: q != r && q in w.sockets.live && Draining(w.At(q).state) ==>
          && q in w'.sockets.live && Draining(w'.At(q).state)
          && w'.At(q).outstandingRecv == w.At(q).outstandingRecv
          && w'.At(q).outstandingSend == w.At(q).outstandingSend)
    && (forall q :: q != r && q in w'.sockets.live && w'.At(q).state == CONNECTED ==>
          q in w.sockets.live && w.At(q).state == CONNECTED)
  }

  /** Every live socket but `r` is as it was. */
  ghost predicate Touches(w: World, w': World, r: Node) {
    forall q :: q != r && q in w.sockets.live ==> q in w'.sockets.live && w'.At(q) == w.At(q)
  }

  lemma {:induction false} TouchesTransitive(w: World, w': World, w'': World, r: Node)
    requires Touches(w, w', r) && Touches(w', w'', r)
    ensures Touches(w, w'', r)
  {
  }

  lemma {:induction false} SparesTransitive(w: World, w': World, w'': World, r: Node)
    requires Spares(w, w', r) && Spares(w', w'', r)
    ensures Spares(w, w'', r)
  {
  }

  lemma {:induction false} TornDownSpares(w: World, w': World, r: Node)
    requires TornDown(w, w', r)
    ensures Spares(w, w', r)
  {
    hide TallyOf, Held;
  }

  lemma {:induction false} LocalTouches(w: World, w': World, r: Node)
    requires Local(w, w', r)
    ensures Touches(w, w', r)
  {
    hide TallyOf;
  }

  lemma {:induction false} TornDownTouches(w: World, w': World, r: Node)
    requires TornDown(w, w', r)
    ensures Touches(w, w', r)
  {
    hide TallyOf, Held;
  }

  lemma {:induction false} LocalSpares(w: World, w': World, r: Node)
    requires Local(w, w', r)
    ensures Spares(w, w', r)
  {
    hide TallyOf, Held;
  }

  lemma {:induction false} CleanupKeeps(w: World, r: Node, k: nat, os: TeardownOs)
    requires Handled(w, r, k) && Ends(os)
    ensures var w' := w.CleanupIfLast(r, os);
            && Inv(w') && Spares(w, w', r)
            && (w.At(r).Idle() && Draining(w.At(r).state) ==> TornDown(w, w', r))
            && (!(w.At(r).Idle() && Draining(w.At(r).state)) ==> w'.At(r) == w.At(r) && r in w'.sockets.live)
  {
    hide InvExcept, TallyOf, Open, Settled, TornDown, Spares;
    var w1 := w.Section(SockLock(r));
    LogKeeps(w, w1, {r});
    OpenFacts(w, r, k);
    OpenLog(w, w1, r, k);
    if w.At(r).Idle() && Draining(w.At(r).state) {
      OpenSettled(w1, r, k);
      TeardownKeeps(w1, r, os);
      TornDownFrom(w, w1, w1.DeleteOrDisconnect(r, os), r);
      TornDownSpares(w, w1.DeleteOrDisconnect(r, os), r);
    } else {
      OpenBusyFits(w1, r, k);
      assert {r} == {} + {r};
      Narrow(w1, r, {});
      LocalBuffers(w, w1, r);
      LocalSpares(w, w1, r);
    }
  }

  lemma {:induction false} OpenLog(w: World, w': World, r: Node, k: nat)
    requires Open(w, r, k) && w' == w.(log := w'.log)
    ensures Open(w', r, k)
  {
    hide TallyOf;
  }

  lemma {:induction false} TornDownFrom(w: World, w1: World, w': World, r: Node)
    requires w1 == w.(log := w1.log) && TornDown(w1, w', r)
    ensures TornDown(w, w', r)
  {
    hide TallyOf, Held;
    HeldSame(w, w1);
  }

  // ---------- receives ----------

  /** A receive just taken from the port: its socket is open with one receive less. */
  lemma {:induction false} RecvAccounted(w: World, i: nat)
    requires Inv(w) && i < |w.posted| && w.posted[i].op == Operation.Read
    ensures var p, w1 := w.posted[i], w.Dequeue(i);
            var w2 := w1.Put(p.key, w1.At(p.key).RecvDone()).Section(SockLock(p.key));
            && InvExcept(w2, {p.key}) && Open(w2, p.key, 0) && Held(w2, p.buf)
            && w2.BufAt(p.buf) == Buffer(Operation.Read, p.len) && 1 <= p.len <= DEFAULT_BUFFER_SIZE
            && w2.At(p.key) == w.At(p.key).RecvDone() && Spares(w, w2, p.key)
  {
    hide InvExcept, TallyOf;
    var p, w1 := w.posted[i], w.Dequeue(i);
    var r := p.key;
    DequeueKeeps(w, i);
    Facts(w1, r, {r});
    PutKeeps(w1, r, w1.At(r).RecvDone(), {r});
    var w2 := w1.Put(r, w1.At(r).RecvDone());
    LogKeeps(w2, w2.Section(SockLock(r)), {r});
    BufferSize(w, p);
  }

  lemma {:induction false} BufferSize(w: World, p: Posted)
    requires Inv(w) && p in w.posted
    ensures 1 <= p.len <= DEFAULT_BUFFER_SIZE
  {
  }

  /** The counters of a draining socket, and that it is draining. */
  ghost predicate SameDrain(s: Socket, s': Socket) {
    Draining(s.state) ==>
      Draining(s'.state) && s'.outstandingRecv == s.outstandingRecv && s'.outstandingSend == s.outstandingSend
  }

  lemma {:induction false} DropBuffer(w: World, r: Node, k: nat, b: Node)
    requires InvExcept(w, {r}) && Open(w, r, k) && Held(w, b)
    ensures var w' := w.DeleteBuffer(b);
            InvExcept(w', {r}) && Open(w', r, k) && Spares(w, w', r) && w'.At(r) == w.At(r) && Touches(w, w', r)
  {
    hide InvExcept, TallyOf;
    DeleteBufferKeeps(w, b, {r});
  }

  lemma {:induction false} FailSocket(w: World, r: Node, st: SocketState, k: nat)
    requires InvExcept(w, {r}) && Open(w, r, k) && Draining(st)
    ensures var w' := w.ChangeSocketState(r, st);
            InvExcept(w', {r}) && Open(w', r, k) && Spares(w, w', r) && w'.At(r) == w.At(r).(state := st) &&
              Touches(w, w', r)
    ensures w.ChangeSocketState(r, st).posted == w.posted && w.ChangeSocketState(r, st).buffers == w.buffers
  {
    hide InvExcept, TallyOf;
    OpenFacts(w, r, k);
    ChangeSocketStateKeeps(w, r, st, {r});
    OpenLocal(w, w.ChangeSocketState(r, st), r, k);
  }

  lemma {:induction false} AfterReceiveKeeps(w: World, r: Node, b: Node, recvOk: bool)
    requires InvExcept(w, {r}) && Open(w, r, 0) && Held(w, b) && w.BufAt(b).operation == Operation.Read
    ensures var w' := w.AfterReceive(r, b, recvOk);
            && Handled(w', r, if w'.At(r).state == CONNECTED then 1 else 0)
            && Spares(w, w', r) && SameDrain(w.At(r), w'.At(r))
  {
    hide InvExcept, TallyOf, Open;
    OpenFacts(w, r, 0);
    var w1 := w.PutBuf(b, w.BufAt(b).(bufLen := DEFAULT_BUFFER_SIZE));
    PutBufKeeps(w, b, w.BufAt(b).(bufLen := DEFAULT_BUFFER_SIZE), {r});
    OpenBuffers(w, w1, r, 0);
    if w1.At(r).state != CONNECTED {
      DropBuffer(w1, r, 0, b);
    } else if recvOk {
      PostRecvKeeps(w1, r, b, {r});
      LocalSpares(w1, w1.PostRecv(r, b, true), r);
    } else {
      var w2 := w1.PostRecv(r, b, false);
      LogKeeps(w1, w2, {r});
      OpenBuffers(w1, w2, r, 0);
      var w3 := w2.ChangeSocketState(r, FAILURE);
      FailSocket(w2, r, FAILURE, 0);
      var w4 := w3.Do(Leave(SockLock(r)));
      LogKeeps(w3, w4, {r});
      OpenBuffers(w3, w4, r, 0);
      DropBuffer(w4, r, 0, b);
    }
  }

  lemma {:induction false} OpenBuffers(w: World, w': World, r: Node, k: nat)
    requires Open(w, r, k) && w' == w.(buffers := w'.buffers, log := w'.log)
    ensures Open(w', r, k)
  {
    hide TallyOf;
  }

  /** The state in which the callback of the i-th operation runs. */
  ghost function CallbackState(w: World, i: nat, bytes: nat): World
    requires i < |w.posted|
  {
    w.Dequeue(i).BeforeReceive(w.posted[i].key, w.posted[i].buf, bytes)
  }

  lemma {:induction false} ReadKeeps(w: World, i: nat, bytes: nat, calls: seq<UserCall>, recvOk: bool)
    requires Inv(w) && i < |w.posted| && w.posted[i].op == Operation.Read && bytes <= w.posted[i].len
    requires bytes > 0 ==> SafeCalls(CallbackState(w, i, bytes), w.posted[i].key, calls)
    ensures var r := w.posted[i].key;
            var w' := w.Dequeue(i).HandleRead(r, w.posted[i].buf, bytes, calls, recvOk);
            && Handled(w', r, if w'.At(r).state == CONNECTED then 1 else 0)
            && Spares(w, w', r) && SameDrain(w.At(r).RecvDone(), w'.At(r))
  {
    hide InvExcept, TallyOf, Open, Evolves, Spares, SafeCalls;
    var r, b := w.posted[i].key, w.posted[i].buf;
    var w1 := w.Dequeue(i).Put(r, w.Dequeue(i).At(r).RecvDone()).Section(SockLock(r));
    RecvAccounted(w, i);
    if bytes > 0 {
      var w2 := CallbackState(w, i, bytes);
      PutBufKeeps(w1, b, w1.BufAt(b).(bufLen := bytes), {r});
      OpenBuffers(w1, w2, r, 0);
      var w3 := w2.ReceiveData(r, calls);
      ReceiveDataKeeps(w2, r, calls);
      EvolvesFacts(w2, w3, r, b, 0);
      LocalBuffers(w1, w2, r);
      LocalSpares(w1, w2, r);
      AfterReceiveKeeps(w3, r, b, recvOk);
      var w4 := w3.AfterReceive(r, b, recvOk);
      SparesTransitive(w, w1, w2, r);
      SparesTransitive(w, w2, w3, r);
      SparesTransitive(w, w3, w4, r);
    } else {
      var w2 := w1.ChangeSocketState(r, CLOSING);
      FailSocket(w1, r, CLOSING, 0);
      SparesTransitive(w, w1, w2, r);
      DropBuffer(w2, r, 0, b);
      SparesTransitive(w, w2, w2.DeleteBuffer(b), r);
    }
  }

  lemma {:induction false} EvolvesFacts(w: World, w': World, r: Node, b: Node, k: nat)
    requires Evolves(w, w') && Open(w, r, k) && Held(w, b)
    ensures Held(w', b) && w'.BufAt(b) == w.BufAt(b) && SameDrain(w.At(r), w'.At(r)) && Spares(w, w', r)
  {
    hide TallyOf, Held;
  }

  // ---------- sends ----------

  lemma {:induction false} SendAccounted(w: World, i: nat)
    requires Inv(w) && i < |w.posted| && w.posted[i].op == Operation.Write
    ensures var p, w1 := w.posted[i], w.Dequeue(i);
            var k := TallyOf(w.posted, p.key).recvs;
            var w2 := w1.Put(p.key, w1.At(p.key).SendDone(p.len)).Section(SockLock(p.key));
            && InvExcept(w2, {p.key}) && Open(w2, p.key, k) && Held(w2, p.buf) && k <= 1
            && w1.BufAt(p.buf).bufLen == p.len && (w.At(p.key).state == CONNECTED ==> k == 1)
            && w2.At(p.key) == w.At(p.key).SendDone(p.len) && Spares(w, w2, p.key)
  {
    hide InvExcept, TallyOf;
    var p, w1 := w.posted[i], w.Dequeue(i);
    var r := p.key;
    DequeueKeeps(w, i);
    Facts(w1, r, {r});
    PutKeeps(w1, r, w1.At(r).SendDone(p.len), {r});
    var w2 := w1.Put(r, w1.At(r).SendDone(p.len));
    LogKeeps(w2, w2.Section(SockLock(r)), {r});
  }

  lemma {:induction false} WriteKeeps(w: World, i: nat, bytes: nat)
    requires Inv(w) && i < |w.posted| && w.posted[i].op == Operation.Write
    ensures var r := w.posted[i].key;
            var w' := w.Dequeue(i).HandleWrite(r, w.posted[i].buf, bytes);
            && Handled(w', r, TallyOf(w.posted, r).recvs)
            && Spares(w, w', r) && SameDrain(w.At(r).SendDone(w.posted[i].len), w'.At(r))
  {
    hide InvExcept, TallyOf, Open, Spares;
    var r, b, k := w.posted[i].key, w.posted[i].buf, TallyOf(w.posted, w.posted[i].key).recvs;
    var len := w.posted[i].len;
    var w1 := w.Dequeue(i).Put(r, w.Dequeue(i).At(r).SendDone(len)).Section(SockLock(r));
    SendAccounted(w, i);
    var w2 := if bytes < len then w1.ChangeSocketState(r, FAILURE) else w1;
    if bytes < len {
      FailSocket(w1, r, FAILURE, k);
      SparesTransitive(w, w1, w2, r);
    }
    DropBuffer(w2, r, k, b);
    SparesTransitive(w, w2, w2.DeleteBuffer(b), r);
  }

  // ---------- disconnects ----------

  lemma {:induction false} PushKeeps(w: World, r: Node)
    requires InvExcept(w, {r}) && r in w.sockets.live && r !in w.queue
    requires w.At(r).state == DISCONNECTED && w.At(r).timeWaitStartTime == Tick(w.clock)
    requires Counts(w.At(r), NOTHING) && TallyOf(w.posted, r) == NOTHING && OwnsId(w, r)
    ensures Inv(w.(queue := w.queue + [r], since := w.since + [w.clock]))
  {
    hide TallyOf, SocketsOk, BuffersOk, PostedOk;
    var w' := w.(queue := w.queue + [r], since := w.since + [w.clock]);
    AppendNoDup(w.queue, r);
  }

  lemma {:induction false} CleanupNothing(w: World, r: Node, os: TeardownOs)
    requires Inv(w) && w.At(r).state.Rank() <= CONNECTED.Rank()
    ensures var w' := w.CleanupIfLast(r, os);
            Inv(w') && w' == w.(log := w'.log) && (forall q :: w'.At(q) == w.At(q))
  {
    LogKeeps(w, w.Section(SockLock(r)), {});
  }

  lemma {:induction false} LogSpares(w: World, w': World, r: Node)
    requires w' == w.(log := w'.log)
    ensures Spares(w, w', r)
  {
  }

  lemma {:induction false} DisconnectAccounted(w: World, i: nat)
    requires Inv(w) && i < |w.posted| && w.posted[i].op == Operation.Disconnect
    ensures var p, w1 := w.posted[i], w.Dequeue(i);
            && InvExcept(w1, {p.key}) && Held(w1, p.buf)
            && p.key in w1.sockets.live && p.key !in w1.queue && w.At(p.key).state == DISCONNECTING
            && TallyOf(w1.posted, p.key) == NOTHING && Counts(w1.At(p.key), NOTHING) && OwnsId(w1, p.key)
  {
    hide InvExcept, TallyOf;
    DequeueKeeps(w, i);
  }

  /** A completed disconnect queues the socket, stamped with the present time. */
  lemma {:induction false} DisconnectKeeps(w: World, i: nat)
    requires Inv(w) && i < |w.posted| && w.posted[i].op == Operation.Disconnect
    ensures var r := w.posted[i].key;
            var w' := w.Dequeue(i).HandleDisconnect(r, w.posted[i].buf);
            && Inv(w') && Spares(w, w', r) && w'.At(r).state == DISCONNECTED
            && w'.queue == w.queue + [r] && w'.since == w.since + [w.clock]
  {
    hide InvExcept, TallyOf;
    var r, b, w1 := w.posted[i].key, w.posted[i].buf, w.Dequeue(i);
    DisconnectAccounted(w, i);
    Facts(w1, r, {r});
    var s := w1.At(r).(state := DISCONNECTED, timeWaitStartTime := Tick(w1.clock));
    var w2 := w1.Put(r, s).Section(SockLock(r));
    PutKeeps(w1, r, s, {r});
    LogKeeps(w1.Put(r, s), w2, {r});
    var w3 := w2.(queue := w2.queue + [r], since := w2.since + [w2.clock]);
    PushKeeps(w2, r);
    var w4 := w3.Section(QueueLock);
    LogKeeps(w3, w4, {});
    DeleteBufferKeeps(w4, b, {});
  }

  // ---------- connections ----------

  /** A socket about to become connected. */
  ghost predicate Fresh(w: World, r: Node) {
    && r in w.sockets.live && r !in w.queue
    && TallyOf(w.posted, r) == NOTHING && Counts(w.At(r), NOTHING)
    && OwnsId(w, r)
    && (w.At(r).state == ACCEPTING ==> w.current != Some(r) || NoAccept(w))
    && !Draining(w.At(r).state)
  }

  lemma {:induction false} ConnectedState(w: World, r: Node, b: Node)
    requires InvExcept(w, {r}) && Fresh(w, r) && Held(w, b)
    ensures var w1 := w.ChangeSocketState(r, CONNECTED);
            var w2 := w1.PutBuf(b, w1.BufAt(b).(operation := Operation.Read));
            && InvExcept(w2, {r}) && Open(w2, r, 0) && Held(w2, b) && w2.BufAt(b).operation == Operation.Read
            && Spares(w, w2, r) && w2.At(r) == w.At(r).(state := CONNECTED) && Touches(w, w2, r)
  {
    hide InvExcept, TallyOf;
    var w1 := w.ChangeSocketState(r, CONNECTED);
    ChangeSocketStateKeeps(w, r, CONNECTED, {r});
    LocalSpares(w, w1, r);
    BufLenOk(w1, b, {r});
    var w2 := w1.PutBuf(b, w1.BufAt(b).(operation := Operation.Read));
    PutBufKeeps(w1, b, w1.BufAt(b).(operation := Operation.Read), {r});
    assert Open(w1, r, 0);
  }

  lemma {:induction false} BufLenOk(w: World, b: Node, f: set<Node>)
    requires InvExcept(w, f) && Held(w, b)
    ensures 1 <= w.BufAt(b).bufLen <= DEFAULT_BUFFER_SIZE
  {
  }

  /** A connection that starts is left with one receive in flight; if that receive is refused
      the socket is torn down. */
  lemma {:induction false} StartKeeps(w: World, r: Node, b: Node, os: ConnectionOs)
    requires InvExcept(w, {r}) && Fresh(w, r) && Held(w, b)
    requires os.optionOk || !os.recvOk
    requires Ends(os.teardown)
    ensures var w' := w.StartReceiving(r, b, os);
            && Inv(w') && Spares(w, w', r) && Touches(w, w', r)
            && (os.recvOk ==> Open(w', r, 1) && w'.At(r).state == CONNECTED)
            && (!os.recvOk ==> r !in w'.sockets.live)
  {
    hide InvExcept, TallyOf, Open, Spares, Settled, TornDown, Touches;
    var w1 := w.ChangeSocketState(r, CONNECTED);
    var w2 := w1.PutBuf(b, w1.BufAt(b).(operation := Operation.Read));
    ConnectedState(w, r, b);
    var w3 := w2.PostRecv(r, b, os.recvOk);
    if os.recvOk {
      PostRecvKeeps(w2, r, b, {r});
      LocalSpares(w2, w3, r);
      LocalTouches(w2, w3, r);
      TouchesTransitive(w, w2, w3, r);
      SparesTransitive(w, w2, w3, r);
      OpenFits(w3, r);
      assert {r} == {} + {r};
      Narrow(w3, r, {});
    } else {
      LogKeeps(w2, w3, {r});
      OpenBuffers(w2, w3, r, 0);
      LogSpares(w2, w3, r);
      LocalBuffers(w2, w3, r);
      LocalTouches(w2, w3, r);
      TouchesTransitive(w, w2, w3, r);
      SparesTransitive(w, w2, w3, r);
      FailedStart(w, w3, r, b, os.teardown);
    }
  }

  lemma {:induction false} FailedStart(w: World, w3: World, r: Node, b: Node, os: TeardownOs)
    requires InvExcept(w3, {r}) && Open(w3, r, 0) && Held(w3, b) && Spares(w, w3, r) && Touches(w, w3, r)
    requires w3.At(r).Idle() && Ends(os)
    ensures var w' := w3.ChangeSocketState(r, FAILURE).DeleteBuffer(b).DeleteOrDisconnect(r, os);
            Inv(w') && Spares(w, w', r) && r !in w'.sockets.live && Touches(w, w', r)
  {
    hide InvExcept, TallyOf, Open, Spares, Settled, TornDown, Touches;
    var w4 := w3.ChangeSocketState(r, FAILURE);
    FailSocket(w3, r, FAILURE, 0);
    var w5 := w4.DeleteBuffer(b);
    DropBuffer(w4, r, 0, b);
    OpenSettled(w5, r, 0);
    SettledFacts(w5, r);
    TeardownKeeps(w5, r, os);
    var w6 := w5.DeleteOrDisconnect(r, os);
    TornDownSpares(w5, w6, r);
    SparesTransitive(w, w3, w4, r);
    SparesTransitive(w, w4, w5, r);
    SparesTransitive(w, w5, w6, r);
    TornDownTouches(w5, w6, r);
    TouchesTransitive(w, w3, w4, r);
    TouchesTransitive(w, w4, w5, r);
    TouchesTransitive(w, w5, w6, r);
    GoneNotLive(w5, w6, r, os);
  }

  lemma {:induction false} GoneNotLive(w: World, w': World, r: Node, os: TeardownOs)
    requires InvExcept(w, {r}) && Settled(w, r) && w.At(r).state in {CLOSING, FAILURE} && Ended(w, w', r, os, Gone)
    ensures r !in w'.sockets.live
  {
    hide TallyOf;
    WithoutMembers(w.sockets.live, r);
  }

  lemma {:induction false} ConnectAccounted(w: World, i: nat)
    requires Inv(w) && i < |w.posted| && w.posted[i].op == Operation.Connect
    ensures var p, w1 := w.posted[i], w.Dequeue(i);
            && InvExcept(w1, {p.key}) && Held(w1, p.buf) && Fresh(w1, p.key)
            && w1.BufAt(p.buf).operation == Operation.Connect && w.At(p.key).state in {BOUND, DISCONNECTED}
            && w1.At(p.key) == w.At(p.key) && Spares(w, w1, p.key)
  {
    hide InvExcept, TallyOf;
    DequeueKeeps(w, i);
  }

  /** An accept just taken from the port: the listener is back to rest and the accepted
      socket is the one recorded. */
  lemma {:induction false} AcceptAccounted(w: World, i: nat)
    requires Inv(w) && i < |w.posted| && w.posted[i].op == Operation.Accept
    ensures var p, w1 := w.posted[i], w.Dequeue(i);
            && Inv(w1) && Held(w1, p.buf) && NoAccept(w1)
            && w1.BufAt(p.buf).operation == Operation.Accept
            && w1.current.Some? && w1.current == w.current && w1.current.value != p.key
            && w1.At(p.key).state == LISTENING && p.key in w1.sockets.live
            && w1.current.value in w1.sockets.live && w1.At(w1.current.value).state == ACCEPTING
            && Spares(w, w1, w1.current.value)
  {
    hide InvExcept, TallyOf;
    DequeueKeeps(w, i);
    var w1, r := w.Dequeue(i), w.posted[i].key;
    assert {r} == {} + {r};
    Narrow(w1, r, {});
  }

  /** What the invariant says of an accepting socket and of a listener. */
  lemma {:induction false} RestingFacts(w: World, r: Node)
    requires Inv(w) && r in w.sockets.live && w.At(r).state in {ACCEPTING, LISTENING} && NoAccept(w)
    ensures TallyOf(w.posted, r) == NOTHING && Counts(w.At(r), NOTHING) && OwnsId(w, r) && r !in w.queue
    ensures w.At(r).state == LISTENING ==> w.mgr == SERVER_LISTENING
  {
    hide TallyOf;
    NoAcceptTally(w.posted, r);
    assert SockOk(w, r);
  }

  /** The accepted socket gets an id, and the next accept is posted. */
  lemma {:induction false} NextAccept(w: World, r: Node, b: Node, os: AcceptOs)
    requires Inv(w) && NoAccept(w) && AcceptTarget(w) && Held(w, b)
    requires r in w.sockets.live && w.At(r).state == LISTENING
    ensures var a := w.current.value;
            var w' := w.AddSocketToMap(a, NIL_UUID).AcceptNewSocket(r, os).0;
            && InvExcept(w', {a}) && Fresh(w', a) && Held(w', b) && Spares(w, w', a)
            && w'.At(r) == w.At(r) && r in w'.sockets.live && w'.BufAt(b) == w.BufAt(b)
  {
    hide InvExcept, TallyOf, Quiet, Held, Spares, World.AddSocketToMap, World.AcceptNewSocket;
    var a := w.current.value;
    RestingFacts(w, a);
    RestingFacts(w, r);
    FreshId(w, {});
    Widen(w, {}, {a});
    AddIdKeeps(w, a, NIL_UUID, {a});
    var w1 := w.AddSocketToMap(a, NIL_UUID);
    AddIdSpares(w, a);
    HeldSame(w, w1);
    Widen(w1, {a}, {a, r});
    AcceptKeeps(w1, r, os, {a, r});
    var (w2, ok) := w1.AcceptNewSocket(r, os);
    QuietSub(w1, w2, if ok then {a, r} - {r} else {a, r}, {a});
    NextAcceptFits(w1, w2, r, a, ok);
    QuietFacts(w1, w2, a, b);
    SparesTransitive(w, w1, w2, a);
  }

  lemma {:induction false} QuietFacts(w: World, w': World, a: Node, b: Node)
    requires Quiet(w, w', {a}) && Held(w, b)
    ensures Held(w', b) && w'.BufAt(b) == w.BufAt(b) && Spares(w, w', a)
  {
    hide TallyOf, Held;
  }

  lemma {:induction false} AddIdSpares(w: World, a: Node)
    requires a in w.sockets.mem
    ensures Spares(w, w.AddSocketToMap(a, NIL_UUID), a)
  {
    var w' := w.AddSocketToMap(a, NIL_UUID);
    assert forall q :: q != a ==> w'.At(q) == w.At(q);
  }

  lemma {:induction false} NextAcceptFits(w: World, w': World, r: Node, a: Node, ok: bool)
    requires InvExcept(w', {a, r}) && Quiet(w, w', {a}) && AcceptDone(w, w', r, ok, {a, r}) && a != r
    requires a in w.sockets.live && r in w.sockets.live && a !in w.queue && r !in w.queue
    requires TallyOf(w.posted, a) == NOTHING && Counts(w.At(a), NOTHING) && OwnsId(w, a) && w.At(a).state == ACCEPTING
    requires TallyOf(w.posted, r) == NOTHING && Counts(w.At(r), NOTHING) && OwnsId(w, r)
    requires w.At(r).state == LISTENING && w.mgr == SERVER_LISTENING
    ensures InvExcept(w', {a}) && Fresh(w', a)
  {
    hide InvExcept, TallyOf, Evolves;
    assert {a, r} == {a} + {r};
    Narrow(w', r, {a});
  }

  // ---------- failed completions ----------

  lemma {:induction false} ErrorAccounted(w: World, i: nat)
    requires Inv(w) && i < |w.posted| && w.posted[i].op in {Operation.Disconnect, Operation.Accept, Operation.Connect}
    ensures var p, w1 := w.posted[i], w.Dequeue(i);
            && InvExcept(w1, {p.key}) && Held(w1, p.buf) && w1.BufAt(p.buf) == Buffer(p.op, p.len)
            && p.key in w1.sockets.live && p.key !in w1.queue && w1.At(p.key) == w.At(p.key)
            && TallyOf(w1.posted, p.key) == NOTHING && Counts(w1.At(p.key), NOTHING) && OwnsId(w1, p.key)
            && w1.At(p.key).state in {DISCONNECTING, BOUND, DISCONNECTED, LISTENING} && Spares(w, w1, p.key)
  {
    hide InvExcept, TallyOf, Spares;
    DequeueKeeps(w, i);
    DequeueSpares(w, i);
  }

  lemma {:induction false} DequeueSpares(w: World, i: nat)
    requires i < |w.posted|
    ensures Spares(w, w.Dequeue(i), w.posted[i].key)
  {
  }

  lemma {:induction false} SettledLog(w: World, w': World, r: Node)
    requires Settled(w, r) && w' == w.(log := w'.log)
    ensures Settled(w', r)
  {
    hide TallyOf;
  }

  lemma {:induction false} SettledIdle(w: World, r: Node)
    requires Settled(w, r)
    ensures w.At(r).Idle()
  {
    hide TallyOf;
  }

  lemma {:induction false} TornDownHeld(w: World, w': World, r: Node, b: Node)
    requires TornDown(w, w', r) && Held(w, b)
    ensures Held(w', b) && Spares(w, w', r)
  {
    hide TallyOf, Held;
  }

  lemma {:induction false} DropFinal(w: World, b: Node, r: Node)
    requires Inv(w) && Held(w, b)
    ensures var w' := w.DeleteBuffer(b);
            Inv(w') && Spares(w, w', r) && w'.sockets == w.sockets && w'.ids == w.ids && w'.timeWait == w.timeWait
            && w'.posted == w.posted && w'.queue == w.queue && w'.clock == w.clock
  {
    hide InvExcept, TallyOf;
    DeleteBufferKeeps(w, b, {});
  }

  lemma {:induction false} FinishSettled(w: World, r: Node, b: Node, os: TeardownOs)
    requires InvExcept(w, {r}) && Settled(w, r) && Held(w, b) && Ends(os)
    ensures var w' := w.FinishError(r, b, os);
            && Inv(w') && Spares(w, w', r)
            && (w.At(r).state == FAILURE ==> r !in w'.sockets.live)
            && (r in w'.sockets.live ==> w'.At(r).state in {DISCONNECTING, CONNECT_FAILURE})
  {
    hide InvExcept, TallyOf, Settled, Spares;
    var w1 := w.Do(Leave(SockLock(r)));
    LogKeeps(w, w1, {r});
    SettledLog(w, w1, r);
    SettledIdle(w, r);
    LogSpares(w, w1, r);
    HeldSame(w, w1);
    SettledFacts(w1, r);
    TeardownKeeps(w1, r, os);
    var w2 := w1.DeleteOrDisconnect(r, os);
    TornDownHeld(w1, w2, r, b);
    if w.At(r).state == FAILURE {
      GoneNotLive(w1, w2, r, os);
    }
    DropFinal(w2, b, r);
    SparesTransitive(w, w1, w2, r);
    SparesTransitive(w, w2, w2.DeleteBuffer(b), r);
  }

  lemma {:induction false} FinishOpen(w: World, r: Node, k: nat, b: Node, os: TeardownOs)
    requires InvExcept(w, {r}) && Open(w, r, k) && k <= 1 && w.At(r).state == FAILURE && Held(w, b) && Ends(os)
    ensures var w' := w.FinishError(r, b, os);
            && Inv(w') && Spares(w, w', r)
            && (w.At(r).Idle() ==> r !in w'.sockets.live)
            && (!w.At(r).Idle() ==> w'.At(r) == w.At(r) && r in w'.sockets.live)
  {
    hide InvExcept, TallyOf, Open, Spares, Settled;
    if w.At(r).Idle() {
      OpenSettled(w, r, k);
      FinishSettled(w, r, b, os);
    } else {
      var w1 := w.Do(Leave(SockLock(r)));
      LogKeeps(w, w1, {r});
      OpenFacts(w, r, k);
      OpenLog(w, w1, r, k);
      OpenBusyFits(w1, r, k);
      assert {r} == {} + {r};
      Narrow(w1, r, {});
      LogSpares(w, w1, r);
      HeldSame(w, w1);
      DropFinal(w1, b, r);
      SparesTransitive(w, w1, w1.DeleteBuffer(b), r);
    }
  }

  lemma {:induction false} MarkSettled(w: World, r: Node, st: SocketState, f: set<Node>)
    requires InvExcept(w, {r}) && r in w.sockets.live && r !in w.queue && TallyOf(w.posted, r) == NOTHING
    requires Counts(w.At(r), NOTHING) && OwnsId(w, r) && w.At(r).state != ACCEPTING && !Draining(w.At(r).state)
    requires st in {FAILURE, CONNECT_FAILURE}
    ensures var w' := w.SetState(r, st);
            InvExcept(w', {r}) && Settled(w', r) && Spares(w, w', r) && w'.buffers == w.buffers && w'.posted == w.posted
  {
    hide InvExcept, TallyOf;
    SetStateKeeps(w, r, st, {r});
    LocalSpares(w, w.SetState(r, st), r);
  }

  lemma {:induction false} DoubledRange(v: nat)
    requires MIN_TIME_WAIT_VALUE <= v <= MAX_TIME_WAIT_VALUE
    ensures MIN_TIME_WAIT_VALUE <= Doubled(v) <= MAX_TIME_WAIT_VALUE
  {
  }

  /** The retry of a connection whose address is still in use. */
  lemma {:induction false} RetryKeeps(w: World, r: Node, b: Node, os: ConnectOs)
    requires InvExcept(w, {r}) && r in w.sockets.live && r !in w.queue && TallyOf(w.posted, r) == NOTHING
    requires Counts(w.At(r), NOTHING) && OwnsId(w, r) && w.At(r).state in {BOUND, DISCONNECTED} && Held(w, b)
    ensures var (w1, i) := w.(timeWait := Doubled(w.timeWait)).ConnectToNewSocket(w.At(r).id, os);
            var w' := w1.Put(r, w1.At(r).(hasHandle := false, state := RETRY_CONNECTION));
            && InvExcept(w', {r}) && Settled(w', r) && Held(w', b) && Spares(w, w', r)
            && ConnectDone(w, w1, w.At(r).id, i, {r}) && w1.At(r) == w.At(r)
  {
    hide InvExcept, TallyOf, Quiet, Held, Spares;
    var id := w.At(r).id;
    var w0 := w.(timeWait := Doubled(w.timeWait));
    TimeWaitKeeps(w, r);
    var (w1, i) := w0.ConnectToNewSocket(id, os);
    Facts(w, r, {r});
    OwnIdRange(w, r);
    ConnectKeeps(w0, id, os, {r});
    QuietFacts(w0, w1, r, b) by { HeldSame(w, w0); }
    KeptListener(w0, w1, {r}, r);
    Facts(w1, r, {r});
    var s := w1.At(r).(hasHandle := false, state := RETRY_CONNECTION);
    PutKeeps(w1, r, s, {r});
    HeldSame(w1, w1.Put(r, s));
    PutSpares(w1, r, s);
    SparesTransitive(w, w0, w1, r) by { TimeWaitSpares(w, r); }
    SparesTransitive(w, w1, w1.Put(r, s), r);
  }

  lemma {:induction false} TimeWaitKeeps(w: World, r: Node)
    requires InvExcept(w, {r})
    ensures InvExcept(w.(timeWait := Doubled(w.timeWait)), {r})
  {
    DoubledRange(w.timeWait);
  }

  lemma {:induction false} TimeWaitSpares(w: World, r: Node)
    ensures Spares(w, w.(timeWait := Doubled(w.timeWait)), r)
  {
  }

  lemma {:induction false} PutSpares(w: World, r: Node, s: Socket)
    requires r in w.sockets.mem
    ensures Spares(w, w.Put(r, s), r)
  {
    assert forall q :: q != r ==> w.Put(r, s).At(q) == w.At(q);
  }

  lemma {:induction false} OwnIdRange(w: World, r: Node)
    requires InvExcept(w, {r}) && OwnsId(w, r)
    ensures w.At(r).id != NIL_UUID ==> w.At(r).id > NIL_UUID
  {
  }

  // ---------- one step ----------

  /** The answers under which a step is clean: closes run to their end, a connection that
      starts is not abandoned with a receive in flight, nor a second time, and stale ids do
      not name memory that was given back. */
  ghost predicate Clean(w: World, l: Label)
    requires w.Enabled(l)
  {
    match l
    case Call(_, c) => SafeCall(w, c)
    case Fail(_, _, _, os) => Ends(os.teardown)
    case Complete(at, i, bytes, os) =>
      && Ends(os.teardown)
      && match w.posted[i].op
         case Read => bytes > 0 ==> SafeCalls(CallbackState(w.(clock := at), i, bytes), w.posted[i].key, os.callback)
         case Connect => os.connection.optionOk && os.connection.recvOk && Ends(os.connection.teardown)
         case Accept => (os.connection.optionOk || !os.connection.recvOk) && Ends(os.connection.teardown)
         case _ => true
  }

  /** How a completion on a draining socket leaves it: one operation less, or torn down. */
  ghost predicate Drained(w: World, w': World, r: Node) {
    var s, s' := w.At(r), w'.At(r);
    if s.outstandingRecv + s.outstandingSend == 1 then
      r in w'.sockets.live ==> s'.state == DISCONNECTING
    else
      && r in w'.sockets.live && Draining(s'.state)
      && s'.outstandingRecv + s'.outstandingSend == s.outstandingRecv + s.outstandingSend - 1
  }

  ghost predicate StepResult(w: World, w': World, r: Node) {
    Inv(w') && Spares(w, w', r) && (Draining(w.At(r).state) ==> Drained(w, w', r))
  }

  lemma {:induction false} CleanupResult(w: World, w1: World, r: Node, k: nat, s: Socket, os: TeardownOs)
    requires Handled(w1, r, k) && Ends(os) && Spares(w, w1, r) && SameDrain(s, w1.At(r))
    requires s.state == w.At(r).state
    requires s.outstandingRecv + s.outstandingSend == w.At(r).outstandingRecv + w.At(r).outstandingSend - 1
    ensures StepResult(w, w1.CleanupIfLast(r, os), r)
  {
    hide InvExcept, TallyOf, Spares, TornDown;
    var w' := w1.CleanupIfLast(r, os);
    CleanupKeeps(w1, r, k, os);
    SparesTransitive(w, w1, w', r);
    HandledCounts(w1, r, k);
    if w1.At(r).Idle() && Draining(w1.At(r).state) {
      TornDownState(w1, w', r, os, k);
    }
  }

  lemma {:induction false} HandledCounts(w: World, r: Node, k: nat)
    requires Handled(w, r, k)
    ensures w.At(r).outstandingRecv >= 0 && w.At(r).outstandingSend >= 0
  {
    hide TallyOf;
  }

  /** A draining socket that is torn down is parked or gone. */
  lemma {:induction false} TornDownState(w: World, w': World, r: Node, os: TeardownOs, k: nat)
    requires Handled(w, r, k) && w.At(r).Idle() && Draining(w.At(r).state) && Ends(os) && w' == w.CleanupIfLast(r, os)
    ensures r in w'.sockets.live ==> w'.At(r).state == DISCONNECTING
  {
    hide TallyOf, InvExcept, Settled;
    var w1 := w.Section(SockLock(r));
    LogKeeps(w, w1, {r});
    OpenLog(w, w1, r, k);
    OpenSettled(w1, r, k);
    SettledFacts(w1, r);
    DrainedEnding(w1, r, os);
  }

  lemma {:induction false} DrainedEnding(w: World, r: Node, os: TeardownOs)
    requires InvExcept(w, {r}) && Settled(w, r) && Draining(w.At(r).state) && Ends(os)
    ensures var w' := w.DeleteOrDisconnect(r, os);
            r in w'.sockets.live ==> w'.At(r).state == DISCONNECTING
  {
    SettledFacts(w, r);
    hide TallyOf, InvExcept, Settled;
    var w' := w.DeleteOrDisconnect(r, os);
    TeardownContract(w, r, os);
    if Verdict(w.At(r).state, w.ShouldReuse(), os) == Gone {
      GoneNotLive(w, w', r, os);
    }
  }

  lemma {:induction false} CompleteRead(w: World, i: nat, bytes: nat, os: IoOs)
    requires Inv(w) && i < |w.posted| && w.posted[i].op == Operation.Read && bytes <= w.posted[i].len
    requires Ends(os.teardown)
    requires bytes > 0 ==> SafeCalls(CallbackState(w, i, bytes), w.posted[i].key, os.callback)
    ensures StepResult(w, w.Dequeue(i).HandleIo(w.posted[i].key, w.posted[i].buf, bytes, os), w.posted[i].key)
  {
    hide InvExcept, TallyOf, Handled, StepResult, Spares, SafeCalls;
    var r, b := w.posted[i].key, w.posted[i].buf;
    DequeueKeeps(w, i);
    var w1 := w.Dequeue(i).HandleRead(r, b, bytes, os.callback, os.recvOk);
    ReadKeeps(w, i, bytes, os.callback, os.recvOk);
    CleanupResult(w, w1, r, if w1.At(r).state == CONNECTED then 1 else 0, w.At(r).RecvDone(), os.teardown);
  }

  lemma {:induction false} CompleteWrite(w: World, i: nat, bytes: nat, os: IoOs)
    requires Inv(w) && i < |w.posted| && w.posted[i].op == Operation.Write && Ends(os.teardown)
    ensures StepResult(w, w.Dequeue(i).HandleIo(w.posted[i].key, w.posted[i].buf, bytes, os), w.posted[i].key)
  {
    hide InvExcept, TallyOf, Handled, StepResult, Spares;
    var r, b := w.posted[i].key, w.posted[i].buf;
    DequeueKeeps(w, i);
    var w1 := w.Dequeue(i).HandleWrite(r, b, bytes);
    WriteKeeps(w, i, bytes);
    CleanupResult(w, w1, r, TallyOf(w.posted, r).recvs, w.At(r).SendDone(w.posted[i].len), os.teardown);
  }

  lemma {:induction false} NothingLeft(w: World, w1: World, r: Node, os: TeardownOs)
    requires Inv(w1) && Spares(w, w1, r) && w1.At(r).state.Rank() <= CONNECTED.Rank()
    ensures Inv(w1.CleanupIfLast(r, os)) && Spares(w, w1.CleanupIfLast(r, os), r)
    ensures w1.CleanupIfLast(r, os) == w1.(log := w1.CleanupIfLast(r, os).log)
  {
    hide InvExcept, Spares;
    CleanupNothing(w1, r, os);
    LogSpares(w1, w1.CleanupIfLast(r, os), r);
    SparesTransitive(w, w1, w1.CleanupIfLast(r, os), r);
  }

  lemma {:induction false} CompleteDisconnect(w: World, i: nat, bytes: nat, os: IoOs)
    requires Inv(w) && i < |w.posted| && w.posted[i].op == Operation.Disconnect
    ensures StepResult(w, w.Dequeue(i).HandleIo(w.posted[i].key, w.posted[i].buf, bytes, os), w.posted[i].key)
  {
    hide InvExcept, TallyOf, Spares;
    var r, b := w.posted[i].key, w.posted[i].buf;
    DequeueKeeps(w, i);
    DisconnectAccounted(w, i);
    DisconnectKeeps(w, i);
    NothingLeft(w, w.Dequeue(i).HandleDisconnect(r, b), r, os.teardown);
  }

  lemma {:induction false} CompleteConnect(w: World, i: nat, bytes: nat, os: IoOs)
    requires Inv(w) && i < |w.posted| && w.posted[i].op == Operation.Connect
    requires os.connection.optionOk && os.connection.recvOk && Ends(os.connection.teardown)
    ensures var r := w.posted[i].key;
            var w' := w.Dequeue(i).HandleIo(r, w.posted[i].buf, bytes, os);
            StepResult(w, w', r) && r in w'.sockets.live && w'.At(r).state == CONNECTED
  {
    hide InvExcept, TallyOf, Spares, Fresh, Open;
    var r, b, w1 := w.posted[i].key, w.posted[i].buf, w.Dequeue(i);
    ConnectAccounted(w, i);
    StartKeeps(w1, r, b, os.connection);
    var w2 := w1.StartReceiving(r, b, os.connection);
    OpenFacts(w2, r, 1);
    SparesTransitive(w, w1, w2, r);
    NothingLeft(w, w2, r, os.teardown);
  }

  lemma {:induction false} HandleIoAccept(w: World, r: Node, b: Node, bytes: nat, os: IoOs)
    requires w.BufAt(b).operation == Operation.Accept
    ensures w.HandleIo(r, b, bytes, os) == w.HandleConnection(r, b, os.connection).CleanupIfLast(r, os.teardown)
  {
  }

  /** The accepted socket is registered, the next accept posted, and its first receive started. */
  lemma {:induction false} AcceptedStarts(w: World, r: Node, b: Node, os: ConnectionOs)
    requires Inv(w) && NoAccept(w) && AcceptTarget(w) && Held(w, b) && w.current.value != r
    requires w.BufAt(b).operation == Operation.Accept
    requires r in w.sockets.live && w.At(r).state == LISTENING
    requires (os.optionOk || !os.recvOk) && Ends(os.teardown)
    ensures var w', a := w.HandleConnection(r, b, os), w.current.value;
            && Inv(w') && Spares(w, w', a) && w'.At(r) == w.At(r)
            && (os.recvOk ==> a in w'.sockets.live && w'.At(a).state == CONNECTED)
  {
    hide InvExcept, TallyOf, Spares, Fresh, Open, Held, NoAccept;
    hide World.AddSocketToMap, World.AcceptNewSocket, World.StartReceiving;
    var a := w.current.value;
    NextAccept(w, r, b, os.accept);
    var w2 := w.AddSocketToMap(a, NIL_UUID).AcceptNewSocket(r, os.accept).0;
    StartKeeps(w2, a, b, os);
    var w3 := w2.StartReceiving(a, b, os);
    if os.recvOk {
      OpenFacts(w3, a, 1);
    }
    SparesTransitive(w, w2, w3, a);
  }

  lemma {:induction false} ListeningRank(w: World, w': World, r: Node)
    requires w.At(r).state == LISTENING && w'.At(r) == w.At(r)
    ensures w'.At(r).state.Rank() <= CONNECTED.Rank()
  {
  }

  lemma {:induction false} AcceptHandled(w: World, r: Node, b: Node, bytes: nat, os: IoOs)
    requires Inv(w) && NoAccept(w) && AcceptTarget(w) && Held(w, b) && w.current.value != r
    requires w.BufAt(b).operation == Operation.Accept
    requires r in w.sockets.live && w.At(r).state == LISTENING
    requires (os.connection.optionOk || !os.connection.recvOk) && Ends(os.connection.teardown)
    ensures var w', a := w.HandleIo(r, b, bytes, os), w.current.value;
            && Inv(w') && Spares(w, w', a)
            && (os.connection.recvOk ==> a in w'.sockets.live && w'.At(a).state == CONNECTED)
  {
    var a := w.current.value;
    hide *;
    HandleIoAccept(w, r, b, bytes, os);
    AcceptedStarts(w, r, b, os.connection);
    var w2 := w.HandleConnection(r, b, os.connection);
    ListeningRank(w, w2, r);
    CleanupNothing(w2, r, os.teardown);
    LogSpares(w2, w2.CleanupIfLast(r, os.teardown), a);
    SparesTransitive(w, w2, w2.CleanupIfLast(r, os.teardown), a);
  }

  lemma {:induction false} CompleteAccept(w: World, i: nat, bytes: nat, os: IoOs)
    requires Inv(w) && i < |w.posted| && w.posted[i].op == Operation.Accept
    requires (os.connection.optionOk || !os.connection.recvOk) && Ends(os.connection.teardown)
    ensures var r := w.posted[i].key;
            var w' := w.Dequeue(i).HandleIo(r, w.posted[i].buf, bytes, os);
            && Inv(w') && w.current.Some? && Spares(w, w', w.current.value) && w.At(r).state == LISTENING
            && w.At(w.current.value).state == ACCEPTING
            && (os.connection.recvOk ==>
                  w.current.value in w'.sockets.live && w'.At(w.current.value).state == CONNECTED)
  {
    hide InvExcept, TallyOf, Spares, Open, Held, NoAccept, World.HandleIo;
    var r, b, w1 := w.posted[i].key, w.posted[i].buf, w.Dequeue(i);
    AcceptAccounted(w, i);
    AcceptHandled(w1, r, b, bytes, os);
    SparesTransitive(w, w1, w1.HandleIo(r, b, bytes, os), w1.current.value);
  }

  // ---------- errors ----------

  lemma {:induction false} RecvFailed(w: World, i: nat)
    requires Inv(w) && i < |w.posted| && w.posted[i].op == Operation.Read
    ensures var p, w1 := w.posted[i], w.Dequeue(i).Do(Enter(SockLock(w.posted[i].key)));
            var w2 := w1.Put(p.key, w1.At(p.key).RecvDone().(state := FAILURE));
            && InvExcept(w2, {p.key}) && Open(w2, p.key, 0) && Held(w2, p.buf)
            && w2.At(p.key) == w.At(p.key).RecvDone().(state := FAILURE) && Spares(w, w2, p.key)
  {
    hide InvExcept, TallyOf;
    var p, r := w.posted[i], w.posted[i].key;
    DequeueKeeps(w, i);
    var w1 := w.Dequeue(i).Do(Enter(SockLock(r)));
    LogKeeps(w.Dequeue(i), w1, {r});
    Facts(w1, r, {r});
    PutKeeps(w1, r, w1.At(r).RecvDone().(state := FAILURE), {r});
  }

  lemma {:induction false} SendFailed(w: World, i: nat)
    requires Inv(w) && i < |w.posted| && w.posted[i].op == Operation.Write
    ensures var p, w1 := w.posted[i], w.Dequeue(i).Do(Enter(SockLock(w.posted[i].key)));
            var k := TallyOf(w.posted, p.key).recvs;
            var w2 := w1.Put(p.key, w1.At(p.key).SendDone(p.len).(state := FAILURE));
            && InvExcept(w2, {p.key}) && Open(w2, p.key, k) && Held(w2, p.buf) && k <= 1
            && w2.At(p.key) == w.At(p.key).SendDone(p.len).(state := FAILURE) && Spares(w, w2, p.key)
  {
    hide InvExcept, TallyOf;
    var p, r := w.posted[i], w.posted[i].key;
    DequeueKeeps(w, i);
    var w1 := w.Dequeue(i).Do(Enter(SockLock(r)));
    LogKeeps(w.Dequeue(i), w1, {r});
    Facts(w1, r, {r});
    PutKeeps(w1, r, w1.At(r).SendDone(p.len).(state := FAILURE), {r});
  }

  lemma {:induction false} OpenCounts(w: World, r: Node, k: nat)
    requires Open(w, r, k)
    ensures w.At(r).outstandingRecv >= 0 && w.At(r).outstandingSend >= 0
  {
    hide TallyOf;
  }

  lemma {:induction false} FailTransfer(w: World, i: nat, addressInUse: bool, os: ErrorOs)
    requires Inv(w) && i < |w.posted| && w.posted[i].op in {Operation.Read, Operation.Write} && Ends(os.teardown)
    ensures StepResult(w, w.Dequeue(i).HandleError(w.posted[i].key, w.posted[i].buf, addressInUse, os), w.posted[i].key)
  {
    hide InvExcept, TallyOf, Open, Spares, Held;
    var p, r, b := w.posted[i], w.posted[i].key, w.posted[i].buf;
    DequeueKeeps(w, i);
    var w1 := w.Dequeue(i).Do(Enter(SockLock(r)));
    var k := if p.op == Operation.Read then 0 else TallyOf(w.posted, r).recvs;
    var w2 := w1.MarkError(r, b, addressInUse, os.connect);
    if p.op == Operation.Read {
      RecvFailed(w, i);
    } else {
      SendFailed(w, i);
    }
    OpenCounts(w2, r, k);
    FinishOpen(w2, r, k, b, os.teardown);
    SparesTransitive(w, w2, w2.FinishError(r, b, os.teardown), r);
  }

  /** The state in which the failed operation has been marked, other than a transfer. */
  lemma {:induction false} MarkOther(w: World, i: nat, addressInUse: bool, os: ErrorOs)
    requires Inv(w) && i < |w.posted| && w.posted[i].op in {Operation.Disconnect, Operation.Accept, Operation.Connect}
    ensures var r, b := w.posted[i].key, w.posted[i].buf;
            var w2 := w.Dequeue(i).Do(Enter(SockLock(r))).MarkError(r, b, addressInUse, os.connect);
            InvExcept(w2, {r}) && Settled(w2, r) && Held(w2, b) && Spares(w, w2, r) && !Draining(w.At(r).state)
  {
    hide InvExcept, TallyOf, Settled, Spares, Held;
    var p, r, b := w.posted[i], w.posted[i].key, w.posted[i].buf;
    ErrorAccounted(w, i);
    if p.op == Operation.Connect {
      OnlyConnectsAre(w, i);
    }
    var w0 := w.Dequeue(i);
    var w1 := w0.Do(Enter(SockLock(r)));
    LogKeeps(w0, w1, {r});
    HeldSame(w0, w1);
    LogSpares(w0, w1, r);
    SparesTransitive(w, w0, w1, r);
    var w2 := w1.MarkError(r, b, addressInUse, os.connect);
    if p.op == Operation.Connect && addressInUse {
      RetryKeeps(w1, r, b, os.connect);
    } else {
      var st := if p.op == Operation.Connect then CONNECT_FAILURE else FAILURE;
      MarkSettled(w1, r, st, {r});
      HeldSame(w1, w2);
    }
    SparesTransitive(w, w1, w2, r);
  }

  lemma {:induction false} OnlyConnectsAre(w: World, i: nat)
    requires Inv(w) && i < |w.posted| && w.posted[i].op == Operation.Connect
    ensures w.At(w.posted[i].key).state in {BOUND, DISCONNECTED}
  {
    hide InvExcept, TallyOf;
    DequeueKeeps(w, i);
  }

  lemma {:induction false} FailOther(w: World, i: nat, addressInUse: bool, os: ErrorOs)
    requires Inv(w) && i < |w.posted|
    requires w.posted[i].op in {Operation.Disconnect, Operation.Accept, Operation.Connect} && Ends(os.teardown)
    ensures StepResult(w, w.Dequeue(i).HandleError(w.posted[i].key, w.posted[i].buf, addressInUse, os), w.posted[i].key)
  {
    hide InvExcept, TallyOf, Settled, Spares, Held, World.MarkError, World.FinishError;
    var r, b := w.posted[i].key, w.posted[i].buf;
    MarkOther(w, i, addressInUse, os);
    var w2 := w.Dequeue(i).Do(Enter(SockLock(r))).MarkError(r, b, addressInUse, os.connect);
    FinishSettled(w2, r, b, os.teardown);
    SparesTransitive(w, w2, w2.FinishError(r, b, os.teardown), r);
  }
}
