/** The variant whose successful disconnect also erases the socket's id: its map names live sockets
    under their own ids, and nothing else, for as long as every retry reaches its end. */
module Forgetting {
  import opened SocketTypes
  import opened RecyclableList
  import opened TimeWait
  import opened Engine
  import opened EngineInvariant
  import opened EngineSteps
  import opened Teardown
  import opened Completions
  import opened EngineRuns
  import opened Continuity
  import opened Names
  import opened Limits

  /** Every stored id names a live socket that carries it. */
  ghost predicate Faithful(w: World) { forall id :: id in w.ids ==> Resolves(w, id) }

  predicate Nameable(st: SocketState) { st != DISCONNECTING && st != ACCEPTING }

  /** What steps keep: the map is faithful, and names no socket that is disconnecting, queued or
      waiting to be accepted, those in `spared` aside. */
  ghost predicate Strong(w: World, spared: set<Node>) {
    forall id :: id in w.ids ==>
      && Resolves(w, id) && w.ids[id] !in w.queue
      && (w.ids[id] in spared || Nameable(w.At(w.ids[id]).state))
  }

  function Named(w: World): set<Node> { set id | id in w.ids :: w.ids[id] }

  // ---------- single operations ----------

  lemma {:induction false} SameMap(w: World, w': World, e: set<Node>)
    requires Strong(w, e) && w'.ids == w.ids && w'.queue == w.queue && w'.sockets == w.sockets
    ensures Strong(w', e)
  {
  }

  lemma {:induction false} PutStrong(w: World, r: Node, s: Socket, e: set<Node>)
    requires Strong(w, e) && s.id == w.At(r).id && (s.state == w.At(r).state || Nameable(s.state) || r in e)
    ensures Strong(w.Put(r, s), e)
    ensures Nameable(s.state) && (r in w.sockets.mem || r !in Named(w)) ==> Strong(w.Put(r, s), e - {r})
  {
    var w' := w.Put(r, s);
    assert forall q :: q != r ==> w'.At(q) == w.At(q);
    assert w'.sockets.live == w.sockets.live;
    assert r in w.sockets.mem ==> w'.At(r) == s;
    assert forall id :: id in w.ids ==> w.ids[id] in Named(w);
  }

  // ---------- sending ----------

  /** Ids, queue and list are left alone, and sockets are only failed. */
  ghost predicate OnlyFails(w: World, w': World) {
    && w'.ids == w.ids && w'.queue == w.queue && w'.sockets.live == w.sockets.live
    && forall q :: w'.At(q).id == w.At(q).id && (w'.At(q).state == w.At(q).state || w'.At(q).state == FAILURE)
  }

  lemma {:induction false} OnlyFailsTwice(w: World, w': World, w'': World)
    requires OnlyFails(w, w') && OnlyFails(w', w'')
    ensures OnlyFails(w, w'')
  {
  }

  lemma {:induction false} OnlyFailsStrong(w: World, w': World, e: set<Node>)
    requires Strong(w, e) && OnlyFails(w, w')
    ensures Strong(w', e)
  {
  }

  lemma {:induction false} PostOnlyFails(w: World, r: Node, b: Node, ok: bool)
    ensures OnlyFails(w, w.PostSend(r, b, ok)) && OnlyFails(w, w.PostRecv(r, b, ok))
    ensures OnlyFails(w, w.ChangeSocketState(r, FAILURE))
  {
    hide OnlyFails, World.Put;
    var posted := w.Post(b, r, Operation.Write);
    PutOnlyFails(posted, r, w.At(r).SendPosted(w.BufAt(b).bufLen));
    PutOnlyFails(w.Post(b, r, Operation.Read), r, w.At(r).RecvPosted());
    PutOnlyFails(w, r, w.At(r).(state := FAILURE));
    SameOnlyFails(w, posted.Put(r, w.At(r).SendPosted(w.BufAt(b).bufLen)), w.PostSend(r, b, ok), posted);
    SameOnlyFails(w, w.Post(b, r, Operation.Read).Put(r, w.At(r).RecvPosted()), w.PostRecv(r, b, ok),
      w.Post(b, r, Operation.Read));
    SameOnlyFails(w, w.SetState(r, FAILURE), w.ChangeSocketState(r, FAILURE), w);
    SameOnlyFails(w, w, w.PostSend(r, b, false), w) by { BuffersOnlyFail(w, w); }
    SameOnlyFails(w, w, w.PostRecv(r, b, false), w) by { BuffersOnlyFail(w, w); }
  }

  lemma {:induction false} PutOnlyFails(w: World, r: Node, s: Socket)
    requires s.id == w.At(r).id && (s.state == w.At(r).state || s.state == FAILURE)
    ensures OnlyFails(w, w.Put(r, s))
  {
  }

  /** Operations posted and locks taken make no difference, before and after. */
  lemma {:induction false} SameOnlyFails(w: World, w1: World, w2: World, w0: World)
    requires w0 == w.(posted := w0.posted) && OnlyFails(w0, w1)
    ensures w2 == w1.(log := w2.log) ==> OnlyFails(w, w2)
  {
    assert forall q :: w0.At(q) == w.At(q);
    if w2 == w1.(log := w2.log) {
      assert forall q :: w2.At(q) == w1.At(q);
    }
  }

  lemma {:induction false} BuffersOnlyFail(w: World, w': World)
    requires w' == w.(buffers := w'.buffers, faults := w'.faults, log := w'.log)
    ensures OnlyFails(w, w')
  {
  }

  lemma {:induction false} ChunkOnlyFails(w: World, r: Node, b: Node, length: nat, ok: bool)
    ensures var w' := w.PrepareChunk(length); OnlyFails(w, if ok then w'.PostSend(r, b, true) else w'.RefuseChunk(r, b))
  {
    hide OnlyFails, World.PostSend, World.ChangeSocketState;
    var w' := w.PrepareChunk(length);
    BuffersOnlyFail(w, w');
    PostOnlyFails(w', r, b, ok);
    OnlyFailsTwice(w, w', w'.PostSend(r, b, ok));
    if !ok {
      var w2 := w'.PostSend(r, b, false);
      PostOnlyFails(w2, r, b, false);
      var w3 := w2.ChangeSocketState(r, FAILURE);
      OnlyFailsTwice(w, w2, w3);
      BuffersOnlyFail(w3, w3.DeleteBuffer(b));
      OnlyFailsTwice(w, w3, w3.DeleteBuffer(b));
    }
  }

  lemma {:induction false} SendOnlyFails(w: World, r: Node, length: nat, failAt: nat)
    ensures OnlyFails(w, w.SendChunks(r, length, failAt))
    decreases length
  {
    hide OnlyFails, World.PrepareChunk, World.PostSend, World.RefuseChunk;
    BuffersOnlyFail(w, w);
    if length > 0 {
      var b := w.buffers.Slot();
      ChunkOnlyFails(w, r, b, length, failAt > 0);
      if failAt > 0 {
        var w1 := w.PrepareChunk(length).PostSend(r, b, true);
        SendOnlyFails(w1, r, length - ChunkLen(length), failAt - 1);
        OnlyFailsTwice(w, w1, w.SendChunks(r, length, failAt));
      }
    }
  }

  lemma {:induction false} SendAllOnlyFails(w: World, nodes: seq<Node>, length: nat, failAts: map<Node, nat>)
    ensures OnlyFails(w, w.SendDataToAll(nodes, length, failAts))
    decreases |nodes|
  {
    hide OnlyFails, World.SendChunks;
    BuffersOnlyFail(w, w);
    if nodes != [] {
      var failAt := if nodes[0] in failAts then failAts[nodes[0]] else length;
      SendOnlyFails(w, nodes[0], length, failAt);
      var w1 := w.SendData(nodes[0], length, failAt);
      SendAllOnlyFails(w1, nodes[1..], length, failAts);
      OnlyFailsTwice(w, w1, w.SendDataToAll(nodes, length, failAts));
    }
  }

  // ---------- user calls ----------

  /** The named sockets, and the one whose data is being received, are set aside. */
  lemma {:induction false} NamedAside(w: World, own: Option<Node>)
    requires During(w, own) && Strong(w, {})
    ensures InvExcept(w, Owner(own) + Named(w)) && Aside(w, Owner(own) + Named(w))
  {
    hide InvExcept, TallyOf;
    OwnerAside(w, own);
    Widen(w, Owner(own), Owner(own) + Named(w));
  }

  lemma {:induction false} KeptNamed(w: World, w': World, f: set<Node>, id: Uuid)
    requires Strong(w, {}) && Quiet(w, w', f) && Named(w) <= f && Aside(w, f) && id in w.ids && id in w'.ids
    requires w'.ids[id] == w.ids[id]
    ensures Resolves(w', id) && w'.ids[id] !in w'.queue && Nameable(w'.At(w'.ids[id]).state)
  {
    assert w.ids[id] in Named(w);
    KeptListener(w, w', f, w.ids[id]);
  }

  lemma {:induction false} PendingUnqueued(w: World, r: Node, f: set<Node>)
    requires InvExcept(w, f) && r in w.sockets.live && r !in f && TallyOf(w.posted, r) == NOTHING.(connects := 1)
    ensures r !in w.queue
  {
    hide TallyOf;
    assert SockOk(w, r);
  }

  lemma {:induction false} ConnectStrong(w: World, id: Uuid, os: ConnectOs, f: set<Node>)
    requires InvExcept(w, f) && Aside(w, f) && Named(w) <= f && Strong(w, {})
    requires NIL_UUID <= id < w.nextId && (w.forgets || id == NIL_UUID)
    ensures Strong(w.ConnectToNewSocket(id, os).0, {})
  {
    hide InvExcept, TallyOf, Quiet, World.ConnectToNewSocket, Strong;
    var (w', i) := w.ConnectToNewSocket(id, os);
    ConnectKeeps(w, id, os, f);
    if i != NIL_UUID {
      PendingUnqueued(w', w'.ids[i], f);
    }
    forall j | j in w'.ids
      ensures Resolves(w', j) && w'.ids[j] !in w'.queue && Nameable(w'.At(w'.ids[j]).state)
    {
      if !(i != NIL_UUID && j == i) {
        KeptNamed(w, w', f, j);
      }
    }
    StrongIs(w');
  }

  lemma {:induction false} StrongIs(w: World)
    requires forall j :: j in w.ids ==> Resolves(w, j) && w.ids[j] !in w.queue && Nameable(w.At(w.ids[j]).state)
    ensures Strong(w, {})
  {
  }

  lemma {:induction false} ListenStrong(w: World, os: ListenOs, f: set<Node>)
    requires InvExcept(w, f) && Aside(w, f) && Named(w) <= f && Strong(w, {}) && (w.mgr == READY ==> NoAccept(w))
    ensures Strong(w.ListenToNewSocket(os).0, {})
  {
    hide InvExcept, TallyOf, Quiet, World.ListenToNewSocket, Strong, NoAccept;
    var w' := w.ListenToNewSocket(os).0;
    ListenKeeps(w, os, f);
    forall j | j in w'.ids
      ensures Resolves(w', j) && w'.ids[j] !in w'.queue && Nameable(w'.At(w'.ids[j]).state)
    {
      if j in w.ids {
        KeptNamed(w, w', f, j);
      }
    }
    StrongIs(w');
  }

  lemma {:induction false} UserCallStrong(w: World, own: Option<Node>, c: UserCall)
    requires During(w, own) && Strong(w, {})
    ensures Strong(w.UserCalls(own, c), {})
  {
    hide InvExcept, TallyOf, Strong, OnlyFails, World.SendChunks, World.SendDataToAll, Open;
    hide World.ConnectToNewSocket, World.ListenToNewSocket;
    match c {
      case SendTo(id, data, failAt) =>
        var w1 := w.Section(MapLock);
        SameMap(w, w1, {});
        if id in w.ids {
          SendOnlyFails(w1, w.ids[id], |data|, failAt);
          SameMap(w1, w1.Fault(), {});
          BuffersOnlyFail(w1, w1);
          OnlyFailsStrong(w1, w1.SendData(w.ids[id], |data|, failAt), {});
        }
      case SendToAll(data, failAts) =>
        SendAllOnlyFails(w, w.sockets.live, |data|, failAts);
        OnlyFailsStrong(w, w.SendDataToAll(w.sockets.live, |data|, failAts), {});
      case ConnectNew(os) =>
        NamedAside(w, own);
        FreshId(w, Owner(own));
        ConnectStrong(w, NIL_UUID, os, Owner(own) + Named(w));
      case ListenNew(os) =>
        NamedAside(w, own);
        if w.mgr == READY {
          ReadyMeansNoAccept(w, own);
        }
        ListenStrong(w, os, Owner(own) + Named(w));
      case OwnSend(data, failAt) =>
        if own.Some? {
          SendOnlyFails(w, own.value, |data|, failAt);
          BuffersOnlyFail(w, w);
          OnlyFailsStrong(w, w.SendData(own.value, |data|, failAt), {});
        }
      case OwnClose =>
        if own.Some? {
          ChangeStrong(w, own.value, CLOSING, {});
        }
    }
  }

  lemma {:induction false} ChangeStrong(w: World, r: Node, st: SocketState, e: set<Node>)
    requires Strong(w, e) && Nameable(st)
    ensures Strong(w.ChangeSocketState(r, st), e)
  {
    hide Strong;
    PutStrong(w, r, w.At(r).(state := st), e);
    SameMap(w.SetState(r, st), w.ChangeSocketState(r, st), e);
  }

  lemma {:induction false} ReceiveStrong(w: World, own: Node, cs: seq<UserCall>)
    requires During(w, Some(own)) && SafeCalls(w, own, cs) && Strong(w, {})
    ensures Strong(w.ReceiveData(own, cs), {})
    decreases |cs|
  {
    hide During, Strong, SafeCall, World.UserCalls;
    if cs != [] {
      UserCallStrong(w, Some(own), cs[0]);
      UserCallKeeps(w, Some(own), cs[0]);
      ReceiveStrong(w.UserCalls(Some(own), cs[0]), own, cs[1..]);
    }
  }

  // ---------- teardown ----------

  /** No id names the socket. */
  ghost predicate Unnamed(w: World, r: Node) { forall id :: id in w.ids ==> w.ids[id] != r }

  lemma {:induction false} UnnamedBy(w: World, r: Node)
    requires Strong(w, {}) && (r in w.queue || !Nameable(w.At(r).state) || !Registered(w, r))
    ensures Unnamed(w, r)
  {
  }

  /** Erasing a socket's id, or its node when nothing names it, keeps the rest named. */
  lemma {:induction false} TornStrong(w: World, w': World, r: Node, os: TeardownOs, e: Ending)
    requires Strong(w, {}) && w.forgets && w.sockets.Valid() && r in w.sockets.live && Ended(w, w', r, os, e)
    requires e != Stranded
    requires e == Replaced ==> Unnamed(w, r)
    ensures Strong(w', {})
  {
    match e {
      case Gone =>
        var l := w.sockets.Write(r, ClosedSocket(w.At(r), Forced(w.At(r).state, w.ShouldReuse()), os));
        assert l.Valid();
        EraseKeeps(l, r);
      case Replaced => EraseKeeps(w.sockets, r);
      case _ =>
    }
  }

  lemma {:induction false} TeardownStrong(w: World, r: Node, os: TeardownOs)
    requires Strong(w, {}) && w.forgets && InvExcept(w, {r}) && Settled(w, r) && Ends(os)
    requires w.At(r).state == RETRY_CONNECTION ==> Unnamed(w, r)
    ensures Strong(w.DeleteOrDisconnect(r, os), {})
  {
    hide InvExcept, TallyOf, Strong, Unnamed, Ended, Settled, World.DeleteOrDisconnect;
    SettledFacts(w, r);
    SocketsValid(w, {r});
    TeardownContract(w, r, os);
    TornStrong(w, w.DeleteOrDisconnect(r, os), r, os, Verdict(w.At(r).state, w.ShouldReuse(), os));
  }

  /** The check that ends a completion. */
  lemma {:induction false} CleanupStrong(w: World, r: Node, k: nat, os: TeardownOs)
    requires Strong(w, {}) && w.forgets && Handled(w, r, k) && Ends(os)
    ensures Strong(w.CleanupIfLast(r, os), {})
  {
    hide InvExcept, TallyOf, Strong, Settled, World.DeleteOrDisconnect, Open;
    var w1 := w.Section(SockLock(r));
    SameMap(w, w1, {});
    if w.At(r).Idle() && w.At(r).state.Rank() > CONNECTED.Rank() {
      LogKeeps(w, w1, {r});
      OpenLog(w, w1, r, k);
      OpenFacts(w1, r, k);
      OpenSettled(w1, r, k);
      SettledFacts(w1, r);
      TeardownStrong(w1, r, os);
    }
  }

  lemma {:induction false} BuffersStrong(w: World, w': World, e: set<Node>)
    requires Strong(w, e) && w' == w.(buffers := w'.buffers, faults := w'.faults, log := w'.log)
    ensures Strong(w', e)
  {
    SameMap(w, w', e);
  }

  // ---------- reads and writes ----------

  lemma {:induction false} AccountStrong(w: World, r: Node, s: Socket, e: set<Node>)
    requires Strong(w, e) && s.id == w.At(r).id && s.state == w.At(r).state
    ensures Strong(w.Put(r, s).Section(SockLock(r)), e)
  {
    hide Strong;
    PutStrong(w, r, s, e);
    SameMap(w.Put(r, s), w.Put(r, s).Section(SockLock(r)), e);
  }

  lemma {:induction false} AfterReceiveStrong(w: World, r: Node, b: Node, ok: bool)
    requires Strong(w, {})
    ensures Strong(w.AfterReceive(r, b, ok), {})
  {
    hide Strong, OnlyFails, World.PostRecv, World.ChangeSocketState;
    var w1 := w.PutBuf(b, w.BufAt(b).(bufLen := DEFAULT_BUFFER_SIZE));
    BuffersStrong(w, w1, {});
    BuffersStrong(w1, w1.DeleteBuffer(b), {});
    var w2 := w1.PostRecv(r, b, ok);
    PostOnlyFails(w1, r, b, ok);
    OnlyFailsStrong(w1, w2, {});
    var w3 := w2.ChangeSocketState(r, FAILURE);
    ChangeStrong(w2, r, FAILURE, {});
    BuffersStrong(w3, w3.Do(Leave(SockLock(r))).DeleteBuffer(b), {});
  }

  /** The state the callback starts in. */
  lemma {:induction false} CallbackDuring(w: World, i: nat, bytes: nat)
    requires Inv(w) && i < |w.posted| && w.posted[i].op == Operation.Read && 0 < bytes <= w.posted[i].len
    ensures During(CallbackState(w, i, bytes), Some(w.posted[i].key))
  {
    hide InvExcept, TallyOf, Open, Spares;
    var r, b := w.posted[i].key, w.posted[i].buf;
    var w1 := w.Dequeue(i).Put(r, w.Dequeue(i).At(r).RecvDone()).Section(SockLock(r));
    RecvAccounted(w, i);
    PutBufKeeps(w1, b, w1.BufAt(b).(bufLen := bytes), {r});
    OpenBuffers(w1, CallbackState(w, i, bytes), r, 0);
  }

  lemma {:induction false} ReadStrong(w: World, i: nat, bytes: nat, os: IoOs)
    requires Inv(w) && Strong(w, {}) && i < |w.posted| && w.posted[i].op == Operation.Read && bytes <= w.posted[i].len
    requires bytes > 0 ==> SafeCalls(CallbackState(w, i, bytes), w.posted[i].key, os.callback)
    ensures Strong(w.Dequeue(i).HandleRead(w.posted[i].key, w.posted[i].buf, bytes, os.callback, os.recvOk), {})
  {
    hide Inv, Strong, During, SafeCalls, World.ReceiveData, World.AfterReceive, World.Put, World.ChangeSocketState;
    var r, b, w0 := w.posted[i].key, w.posted[i].buf, w.Dequeue(i);
    SameMap(w, w0, {});
    var w1 := w0.Put(r, w0.At(r).RecvDone()).Section(SockLock(r));
    AccountStrong(w0, r, w0.At(r).RecvDone(), {});
    if bytes > 0 {
      var w2 := CallbackState(w, i, bytes);
      BuffersStrong(w1, w2, {});
      CallbackDuring(w, i, bytes);
      ReceiveStrong(w2, r, os.callback);
      AfterReceiveStrong(w2.ReceiveData(r, os.callback), r, b, os.recvOk);
    } else {
      var w2 := w1.ChangeSocketState(r, CLOSING);
      ChangeStrong(w1, r, CLOSING, {});
      BuffersStrong(w2, w2.DeleteBuffer(b), {});
    }
  }

  lemma {:induction false} WriteStrong(w: World, r: Node, b: Node, bytes: nat)
    requires Strong(w, {})
    ensures Strong(w.HandleWrite(r, b, bytes), {})
  {
    hide Strong, World.Put, World.ChangeSocketState;
    var len := w.BufAt(b).bufLen;
    var w1 := w.Put(r, w.At(r).SendDone(len)).Section(SockLock(r));
    AccountStrong(w, r, w.At(r).SendDone(len), {});
    var w2 := if bytes < len then w1.ChangeSocketState(r, FAILURE) else w1;
    ChangeStrong(w1, r, FAILURE, {});
    BuffersStrong(w2, w2.DeleteBuffer(b), {});
  }

  /** A disconnected socket is queued under no name. */
  lemma {:induction false} PushStrong(w: World, r: Node, b: Node)
    requires Strong(w, {}) && Unnamed(w, r)
    ensures Strong(w.HandleDisconnect(r, b), {})
  {
    var w' := w.HandleDisconnect(r, b);
    assert forall q :: q != r ==> w'.At(q) == w.At(q);
    assert w'.sockets.live == w.sockets.live && w'.queue == w.queue + [r] && w'.ids == w.ids;
  }

  // ---------- connections ----------

  lemma {:induction false} SpareMore(w: World, r: Node)
    requires Strong(w, {})
    ensures Strong(w, {r})
  {
  }

  /** Once connected, the socket may be named like any other. */
  lemma {:induction false} ConnectedStrong(w: World, r: Node)
    requires Strong(w, {r}) && r in w.sockets.mem
    ensures Strong(w.ChangeSocketState(r, CONNECTED), {})
  {
    hide Strong;
    PutStrong(w, r, w.At(r).(state := CONNECTED), {r});
    assert {r} - {r} == {};
    SameMap(w.SetState(r, CONNECTED), w.ChangeSocketState(r, CONNECTED), {});
  }

  lemma {:induction false} StartStrong(w: World, r: Node, b: Node, os: ConnectionOs)
    requires Strong(w, {r}) && w.forgets && InvExcept(w, {r}) && Fresh(w, r) && Held(w, b)
    requires (os.optionOk || !os.recvOk) && Ends(os.teardown)
    ensures Strong(w.StartReceiving(r, b, os), {})
  {
    FreshInMemory(w, r);
    hide InvExcept, Fresh, Held, Strong, OnlyFails, Settled, World.PostRecv, World.ChangeSocketState,
         World.DeleteOrDisconnect;
    var w1 := w.ChangeSocketState(r, CONNECTED);
    ConnectedStrong(w, r);
    var w2 := w1.PutBuf(b, w1.BufAt(b).(operation := Operation.Read));
    BuffersStrong(w1, w2, {});
    var w3 := w2.PostRecv(r, b, os.recvOk);
    PostOnlyFails(w2, r, b, os.recvOk);
    OnlyFailsStrong(w2, w3, {});
    if !os.recvOk {
      var w4 := w3.ChangeSocketState(r, FAILURE);
      ChangeStrong(w3, r, FAILURE, {});
      var w5 := w4.DeleteBuffer(b);
      BuffersStrong(w4, w5, {});
      BeforeRefusal(w, r, b);
      StartFlag(w, r, b);
      TeardownStrong(w5, r, os.teardown);
    }
  }

  lemma {:induction false} StartFlag(w: World, r: Node, b: Node)
    ensures var w1 := w.ChangeSocketState(r, CONNECTED);
            var w2 := w1.PutBuf(b, w1.BufAt(b).(operation := Operation.Read)).PostRecv(r, b, false);
            w2.ChangeSocketState(r, FAILURE).DeleteBuffer(b).forgets == w.forgets
  {
  }

  lemma {:induction false} RegisterStrong(w: World, a: Node)
    requires Strong(w, {}) && Unnamed(w, a) && a in w.sockets.live && a in w.sockets.mem && a !in w.queue
    requires w.nextId !in w.ids
    ensures Strong(w.AddSocketToMap(a, NIL_UUID), {a})
  {
    var w' := w.AddSocketToMap(a, NIL_UUID);
    assert forall q :: q != a ==> w'.At(q) == w.At(q);
    assert w'.At(a).id == w.nextId && w'.sockets.live == w.sockets.live && w'.queue == w.queue;
  }

  lemma {:induction false} AcceptStrong(w: World, r: Node, os: AcceptOs, a: Node, f: set<Node>)
    requires InvExcept(w, f) && Aside(w, f) && r in f && NoAccept(w) && Named(w) <= f && Strong(w, {a})
    ensures Strong(w.AcceptNewSocket(r, os).0, {a}) && w.AcceptNewSocket(r, os).0.forgets == w.forgets
  {
    hide InvExcept, TallyOf, NoAccept, Quiet, World.AcceptNewSocket;
    AcceptKeeps(w, r, os, f);
    var (w', ok) := w.AcceptNewSocket(r, os);
    forall id | id in w'.ids
      ensures Resolves(w', id) && w'.ids[id] !in w'.queue && (w'.ids[id] == a || Nameable(w'.At(w'.ids[id]).state))
    {
      assert w.ids[id] in Named(w);
      AcceptKept(w, w', r, ok, f, w.ids[id]);
    }
  }

  lemma {:induction false} AcceptKept(w: World, w': World, r: Node, ok: bool, f: set<Node>, q: Node)
    requires Quiet(w, w', if ok then f - {r} else f) && AcceptDone(w, w', r, ok, f) && Aside(w, f) && q in f && r in f
    ensures q in w'.sockets.live && w'.At(q) == w.At(q) && q !in w'.queue
  {
    hide TallyOf, Evolves;
    if q != r || !ok {
      QuietSub(w, w', if ok then f - {r} else f, {q});
      assert Kept(w, w', {q});
    }
  }

  /** A completed accept: the picked-up socket enters the map, the next accept is issued, and the
      connection starts. */
  lemma {:induction false} AcceptedStrong(w: World, r: Node, b: Node, os: ConnectionOs)
    requires Inv(w) && w.forgets && Strong(w, {}) && NoAccept(w) && AcceptTarget(w) && Held(w, b)
    requires w.current.value != r
    requires r in w.sockets.live && w.At(r).state == LISTENING && (os.optionOk || !os.recvOk) && Ends(os.teardown)
    ensures Strong(Accepted(w, r, b, os), {})
  {
    hide InvExcept, TallyOf, NoAccept, Strong, Held, Fresh, World.AddSocketToMap, World.AcceptNewSocket,
         World.StartReceiving;
    var a := w.current.value;
    Basics(w);
    RestingFacts(w, a);
    RestingFacts(w, r);
    UnnamedBy(w, a);
    RegisterStrong(w, a);
    var w1 := w.AddSocketToMap(a, NIL_UUID);
    RegisteredAside(w, a, r);
    var f := {a, r} + Named(w1);
    AcceptStrong(w1, r, os.accept, a, f);
    var w2 := w1.AcceptNewSocket(r, os.accept).0;
    NextAccept(w, r, b, os.accept);
    StartStrong(w2, a, b, os);
  }

  /** The named sockets can be set aside for the next accept. */
  lemma {:induction false} RegisteredAside(w: World, a: Node, r: Node)
    requires Inv(w) && Strong(w, {}) && NoAccept(w) && a in w.sockets.live && r in w.sockets.live
    requires a !in w.queue && r !in w.queue
    ensures var w1 := w.AddSocketToMap(a, NIL_UUID);
            InvExcept(w1, {a, r} + Named(w1)) && Aside(w1, {a, r} + Named(w1)) && NoAccept(w1) &&
              w1.forgets == w.forgets
  {
    hide InvExcept, TallyOf;
    var w1 := w.AddSocketToMap(a, NIL_UUID);
    FreshId(w, {});
    Widen(w, {}, {a});
    AddIdKeeps(w, a, NIL_UUID, {a});
    Widen(w1, {a}, {a, r} + Named(w1));
  }

  // ---------- errors ----------

  /** The rest of an error on a socket whose operations are accounted for. */
  lemma {:induction false} FinishStrong(w: World, r: Node, b: Node, os: TeardownOs)
    requires Strong(w, {}) && w.forgets && InvExcept(w, {r}) && Ends(os)
    requires w.At(r).Idle() ==> Settled(w, r)
    requires w.At(r).state == RETRY_CONNECTION ==> Unnamed(w, r)
    ensures Strong(w.FinishError(r, b, os), {})
  {
    hide InvExcept, Strong, Settled, World.DeleteOrDisconnect;
    var w1 := w.Do(Leave(SockLock(r)));
    SameMap(w, w1, {});
    LogKeeps(w, w1, {r});
    if w.At(r).Idle() {
      SettledLog(w, w1, r);
      TeardownStrong(w1, r, os);
    }
    var w2 := if w.At(r).Idle() then w1.DeleteOrDisconnect(r, os) else w1;
    BuffersStrong(w2, w2.DeleteBuffer(b), {});
  }

  lemma {:induction false} FailedTransferStrong(w: World, i: nat, addressInUse: bool, os: ErrorOs)
    requires Inv(w) && w.forgets && Strong(w, {}) && Ends(os.teardown)
    requires i < |w.posted| && w.posted[i].op in {Operation.Read, Operation.Write}
    ensures Strong(w.Dequeue(i).HandleError(w.posted[i].key, w.posted[i].buf, addressInUse, os), {})
  {
    hide InvExcept, TallyOf, Open, Spares, Held, Strong, Settled, World.FinishError, World.Put;
    var p, r, b := w.posted[i], w.posted[i].key, w.posted[i].buf;
    DequeueKeeps(w, i);
    var w1 := w.Dequeue(i).Do(Enter(SockLock(r)));
    SameMap(w, w1, {});
    var s := if p.op == Operation.Read then w1.At(r).RecvDone() else w1.At(r).SendDone(p.len);
    var w2 := w1.Put(r, s.(state := FAILURE));
    PutStrong(w1, r, s.(state := FAILURE), {});
    var k := if p.op == Operation.Read then 0 else TallyOf(w.posted, r).recvs;
    if p.op == Operation.Read {
      RecvFailed(w, i);
    } else {
      SendFailed(w, i);
    }
    PutFlag(w1, r, s.(state := FAILURE));
    if w2.At(r).Idle() {
      OpenSettled(w2, r, k);
    }
    FinishStrong(w2, r, b, os.teardown);
  }

  lemma {:induction false} PutFlag(w: World, r: Node, s: Socket)
    ensures w.Put(r, s).forgets == w.forgets
  {
  }

  /** The step is a connection that fails because its address is in use, whose id names its socket, and
      whose retry does not reach its end. */
  ghost predicate Dangles(w: World, l: Label)
    requires w.Enabled(l)
  {
    && l.Fail? && l.addressInUse && w.posted[l.i].op == Operation.Connect && Registered(w, w.posted[l.i].key)
    && !Reaches(RetryState(w.(clock := l.at), l.i), l.err.connect)
  }

  /** After a retry nothing names the old socket, unless it was named and the retry got nowhere. */
  lemma {:induction false} RetryStrong(w: World, r: Node, os: ConnectOs)
    requires InvExcept(w, {r}) && Strong(w, {}) && w.forgets && r in w.sockets.live && r !in w.queue
    requires NIL_UUID <= w.At(r).id < w.nextId
    requires Registered(w, r) ==> Reaches(w, os)
    ensures var w1 := w.ConnectToNewSocket(w.At(r).id, os).0;
            var w' := w1.Put(r, w1.At(r).(hasHandle := false, state := RETRY_CONNECTION));
            Strong(w', {}) && Unnamed(w', r)
  {
    hide *;
    RetryAside(w, r);
    NoNil(w, {r});
    var w1 := w.ConnectToNewSocket(w.At(r).id, os).0;
    RetryConnects(w, r, os, {r} + Named(w));
    RetryPut(w1, r);
  }

  lemma {:induction false} RetryConnects(w: World, r: Node, os: ConnectOs, f: set<Node>)
    requires InvExcept(w, f) && Aside(w, f) && f == {r} + Named(w) && Strong(w, {}) && w.forgets && NIL_UUID !in w.ids
    requires NIL_UUID <= w.At(r).id < w.nextId && (Registered(w, r) ==> Reaches(w, os))
    ensures var w1 := w.ConnectToNewSocket(w.At(r).id, os).0; Strong(w1, {}) && Unnamed(w1, r)
  {
    var id := w.At(r).id;
    hide InvExcept, TallyOf, Quiet, Reaches, Strong, Unnamed, ConnectDone, Registered, World.ConnectToNewSocket;
    var (w1, i) := w.ConnectToNewSocket(id, os);
    ConnectStrong(w, id, os, f);
    ConnectKeeps(w, id, os, f);
    ConnectsIff(w, id, os, f);
    KeptListener(w, w1, f, r);
    RetryUnnames(w, w1, r, i, f);
  }

  lemma {:induction false} RetryPut(w: World, r: Node)
    requires Strong(w, {}) && Unnamed(w, r)
    ensures var w' := w.Put(r, w.At(r).(hasHandle := false, state := RETRY_CONNECTION));
            Strong(w', {}) && Unnamed(w', r)
  {
    hide Strong, World.Put;
    var s := w.At(r).(hasHandle := false, state := RETRY_CONNECTION);
    PutStrong(w, r, s, {});
    PutIds(w, r, s);
    UnnamedSame(w, w.Put(r, s), r);
  }

  lemma {:induction false} UnnamedSame(w: World, w': World, r: Node)
    requires Unnamed(w, r) && w'.ids == w.ids
    ensures Unnamed(w', r)
  {
  }

  lemma {:induction false} NoNil(w: World, f: set<Node>)
    requires InvExcept(w, f)
    ensures NIL_UUID !in w.ids
  {
  }

  lemma {:induction false} RetryUnnames(w: World, w1: World, r: Node, i: Uuid, f: set<Node>)
    requires Strong(w, {}) && Strong(w1, {}) && ConnectDone(w, w1, w.At(r).id, i, f) && r in f
    requires w1.At(r).id == w.At(r).id
    requires (Registered(w, r) ==> i != NIL_UUID) && NIL_UUID !in w.ids
    ensures Unnamed(w1, r)
  {
    hide TallyOf;
    forall j | j in w1.ids
      ensures w1.ids[j] != r
    {
      assert Resolves(w1, j);
    }
  }

  lemma {:induction false} PutIds(w: World, r: Node, s: Socket)
    ensures w.Put(r, s).ids == w.ids
  {
  }

  lemma {:induction false} RetryAside(w: World, r: Node)
    requires InvExcept(w, {r}) && Strong(w, {}) && r in w.sockets.live && r !in w.queue
    ensures InvExcept(w, {r} + Named(w)) && Aside(w, {r} + Named(w))
  {
    hide InvExcept;
    Widen(w, {r}, {r} + Named(w));
  }

  lemma {:induction false} FailedOtherStrong(w: World, i: nat, addressInUse: bool, os: ErrorOs)
    requires Inv(w) && w.forgets && Strong(w, {}) && Ends(os.teardown) && i < |w.posted|
    requires w.posted[i].op in {Operation.Disconnect, Operation.Accept, Operation.Connect}
    requires addressInUse && w.posted[i].op == Operation.Connect && Registered(w, w.posted[i].key) ==>
               Reaches(RetryState(w, i), os.connect)
    ensures Strong(w.Dequeue(i).HandleError(w.posted[i].key, w.posted[i].buf, addressInUse, os), {})
  {
    var r, b := w.posted[i].key, w.posted[i].buf;
    hide *;
    OtherMarked(w, i, addressInUse, os.connect);
    MarkOther(w, i, addressInUse, os);
    FinishStrong(w.Dequeue(i).Do(Enter(SockLock(r))).MarkError(r, b, addressInUse, os.connect), r, b, os.teardown);
    HandleErrorIs(w.Dequeue(i), r, b, addressInUse, os);
  }

  lemma {:induction false} HandleErrorIs(w: World, r: Node, b: Node, addressInUse: bool, os: ErrorOs)
    ensures w.HandleError(r, b, addressInUse, os)
         == w.Do(Enter(SockLock(r))).MarkError(r, b, addressInUse, os.connect).FinishError(r, b, os.teardown)
  {
  }

  lemma {:induction false} OtherMarked(w: World, i: nat, addressInUse: bool, os: ConnectOs)
    requires Inv(w) && w.forgets && Strong(w, {}) && i < |w.posted|
    requires w.posted[i].op in {Operation.Disconnect, Operation.Accept, Operation.Connect}
    requires addressInUse && w.posted[i].op == Operation.Connect && Registered(w, w.posted[i].key) ==>
        Reaches(RetryState(w, i), os)
    ensures var r := w.posted[i].key;
            var w' := w.Dequeue(i).Do(Enter(SockLock(r))).MarkError(r, w.posted[i].buf, addressInUse, os);
            Strong(w', {}) && w'.forgets && (w'.At(r).state == RETRY_CONNECTION ==> Unnamed(w', r))
  {
    hide InvExcept, TallyOf, Held, Spares, Strong, Reaches, World.ConnectToNewSocket, World.Put, Unnamed;
    var p, r, b := w.posted[i], w.posted[i].key, w.posted[i].buf;
    ErrorAccounted(w, i);
    var w1 := w.Dequeue(i).Do(Enter(SockLock(r)));
    SameMap(w, w1, {});
    LogKeeps(w.Dequeue(i), w1, {r});
    Facts(w1, r, {r});
    if p.op == Operation.Connect && addressInUse {
      var w2 := RetryState(w, i);
      TimeWaitKeeps(w1, r);
      SameMap(w1, w2, {});
      RetryStrong(w2, r, os);
      RetryFlag(w2, r, os);
    } else {
      var st := if p.op == Operation.Connect then CONNECT_FAILURE else FAILURE;
      PutStrong(w1, r, w1.At(r).(state := st), {});
      PutFlag(w1, r, w1.At(r).(state := st));
      PutAt(w1, r, w1.At(r).(state := st));
    }
  }

  lemma {:induction false} PutAt(w: World, r: Node, s: Socket)
    requires r in w.sockets.mem
    ensures w.Put(r, s).At(r) == s
  {
  }

  lemma {:induction false} RetryFlag(w: World, r: Node, os: ConnectOs)
    requires InvExcept(w, {r}) && r in w.sockets.live && r !in w.queue && NIL_UUID <= w.At(r).id < w.nextId && w.forgets
    ensures var w1 := w.ConnectToNewSocket(w.At(r).id, os).0;
            w1.Put(r, w1.At(r).(hasHandle := false, state := RETRY_CONNECTION)).forgets == w.forgets
  {
    hide InvExcept, TallyOf, World.ConnectToNewSocket, World.Put, Kept;
    var w1 := w.ConnectToNewSocket(w.At(r).id, os).0;
    ConnectKeeps(w, w.At(r).id, os, {r});
    EvolvesFlag(w, w1);
    PutFlag(w1, r, w1.At(r).(hasHandle := false, state := RETRY_CONNECTION));
  }

  // ---------- steps and runs ----------

  lemma {:induction false} CompleteStrong(w: World, i: nat, bytes: nat, os: IoOs)
    requires var l := Complete(w.clock, i, bytes, os);
             Inv(w) && w.forgets && Strong(w, {}) && w.Enabled(l) && Clean(w, l)
    ensures Strong(w.Dequeue(i).HandleIo(w.posted[i].key, w.posted[i].buf, bytes, os), {})
  {
    hide InvExcept, TallyOf, SafeCalls, Strong, Spares, Held, Fresh, NoAccept, Open, Handled;
    hide World.HandleRead, World.HandleWrite, World.HandleConnection, World.HandleDisconnect, World.CleanupIfLast,
         World.StartReceiving;
    assert w.(clock := w.clock) == w;
    var p, r, b, w1 := w.posted[i], w.posted[i].key, w.posted[i].buf, w.Dequeue(i);
    SameMap(w, w1, {});
    DequeueKeeps(w, i);
    match p.op {
      case Read =>
        var w2 := w1.HandleRead(r, b, bytes, os.callback, os.recvOk);
        ReadStrong(w, i, bytes, os);
        ReadKeeps(w, i, bytes, os.callback, os.recvOk);
        ReadFlag(w, i, bytes, os);
        CleanupStrong(w2, r, if w2.At(r).state == CONNECTED then 1 else 0, os.teardown);
      case Write =>
        WriteStrong(w1, r, b, bytes);
        WriteKeeps(w, i, bytes);
        WriteFlag(w1, r, b, bytes);
        CleanupStrong(w1.HandleWrite(r, b, bytes), r, TallyOf(w.posted, r).recvs, os.teardown);
      case Disconnect =>
        DisconnectAccounted(w, i);
        UnnamedBy(w1, r);
        PushStrong(w1, r, b);
        DisconnectKeeps(w, i);
        CleanupSame2(w1.HandleDisconnect(r, b), r, os.teardown);
      case Connect => ConnectCompleteStrong(w, i, bytes, os);
      case Accept => AcceptCompleteStrong(w, i, bytes, os);
    }
  }

  lemma {:induction false} CleanupSame2(w: World, r: Node, os: TeardownOs)
    requires Strong(w, {}) && w.At(r).state.Rank() <= CONNECTED.Rank()
    ensures Strong(w.CleanupIfLast(r, os), {})
  {
    hide Strong, World.DeleteOrDisconnect;
    SameMap(w, w.Section(SockLock(r)), {});
  }

  lemma {:induction false} WriteFlag(w: World, r: Node, b: Node, bytes: nat)
    ensures w.HandleWrite(r, b, bytes).forgets == w.forgets
  {
  }

  lemma {:induction false} ReadFlag(w: World, i: nat, bytes: nat, os: IoOs)
    requires Inv(w) && i < |w.posted| && w.posted[i].op == Operation.Read && bytes <= w.posted[i].len
    requires bytes > 0 ==> SafeCalls(CallbackState(w, i, bytes), w.posted[i].key, os.callback)
    ensures w.Dequeue(i).HandleRead(w.posted[i].key, w.posted[i].buf, bytes, os.callback, os.recvOk).forgets ==
        w.forgets
  {
    hide Inv, Handled, SafeCalls, World.HandleRead;
    ReadKeeps(w, i, bytes, os.callback, os.recvOk);
  }

  lemma {:induction false} ConnectCompleteStrong(w: World, i: nat, bytes: nat, os: IoOs)
    requires Inv(w) && w.forgets && Strong(w, {}) && i < |w.posted| && w.posted[i].op == Operation.Connect
    requires os.connection.optionOk && os.connection.recvOk && Ends(os.connection.teardown)
    ensures Strong(w.Dequeue(i).HandleIo(w.posted[i].key, w.posted[i].buf, bytes, os), {})
  {
    hide InvExcept, TallyOf, Spares, Fresh, Open, Held, Strong, World.StartReceiving, World.CleanupIfLast;
    var r, b, w1 := w.posted[i].key, w.posted[i].buf, w.Dequeue(i);
    SameMap(w, w1, {});
    ConnectAccounted(w, i);
    SpareMore(w1, r);
    StartStrong(w1, r, b, os.connection);
    StartKeeps(w1, r, b, os.connection);
    CleanupSame2(w1.StartReceiving(r, b, os.connection), r, os.teardown);
  }

  lemma {:induction false} AcceptCompleteStrong(w: World, i: nat, bytes: nat, os: IoOs)
    requires Inv(w) && w.forgets && Strong(w, {}) && i < |w.posted| && w.posted[i].op == Operation.Accept
    requires (os.connection.optionOk || !os.connection.recvOk) && Ends(os.connection.teardown)
    ensures Strong(w.Dequeue(i).HandleIo(w.posted[i].key, w.posted[i].buf, bytes, os), {})
  {
    hide InvExcept, TallyOf, Spares, Held, NoAccept, Strong, World.HandleConnection, World.CleanupIfLast, Accepted;
    var r, b, w1 := w.posted[i].key, w.posted[i].buf, w.Dequeue(i);
    SameMap(w, w1, {});
    AcceptAccounted(w, i);
    HandleIoAccept(w1, r, b, bytes, os);
    HandleAccepted(w1, r, b, os.connection);
    AcceptedStrong(w1, r, b, os.connection);
    AcceptedStarts(w1, r, b, os.connection);
    CleanupSame2(Accepted(w1, r, b, os.connection), r, os.teardown);
  }

  lemma {:induction false} LaterStrong(w: World, l: Label)
    requires w.Enabled(l) && Strong(w, {})
    ensures var w1 := w.(clock := l.at);
            Strong(w1, {}) && w1.Enabled(l) && (Dangles(w1, l) <==> Dangles(w, l)) && w1.(clock := l.at) == w1
  {
    SameMap(w, w.(clock := l.at), {});
    hide Strong, Reaches;
  }

  /** A clean step keeps the map as it should be, unless it leaves an id dangling. */
  lemma {:induction false} StepStrong(w: World, l: Label)
    requires Inv(w) && w.forgets && Strong(w, {}) && w.Enabled(l) && Clean(w, l) && !Dangles(w, l)
    ensures Strong(w.Step(l), {})
  {
    var w1 := w.(clock := l.at);
    LaterStrong(w, l);
    Later(w, l);
    hide InvExcept, TallyOf, Strong, Reaches, StepEffect, World.HandleIo, World.HandleError, World.UserCalls, SafeCalls;
    match l {
      case Complete(_, i, bytes, os) => CompleteStrong(w1, i, bytes, os);
      case Fail(_, i, addressInUse, os) =>
        if w1.posted[i].op in {Operation.Read, Operation.Write} {
          FailedTransferStrong(w1, i, addressInUse, os);
        } else {
          OtherOps(w1.posted[i].op);
          FailedOtherStrong(w1, i, addressInUse, os);
        }
      case Call(_, c) => UserCallStrong(w1, None, c);
    }
  }

  lemma {:induction false} OtherOps(op: Operation)
    requires op !in {Operation.Read, Operation.Write}
    ensures op in {Operation.Disconnect, Operation.Accept, Operation.Connect}
  {
  }

  /** A dangling retry leaves its id naming a removed socket. */
  lemma {:induction false} DanglingBreaks(w: World, l: Label)
    requires Inv(w) && w.Enabled(l) && Dangles(w, l)
    ensures !Faithful(w.Step(l))
  {
    var w1 := w.(clock := l.at);
    ClockKeeps(w, l.at);
    RegisteredId(w1, w1.posted[l.i].key);
    hide InvExcept, TallyOf, Reaches, World.HandleError;
    RetryIff(w1, l.i, l.err);
  }

  lemma {:induction false} RegisteredId(w: World, r: Node)
    requires Inv(w) && Registered(w, r)
    ensures w.At(r).id != NIL_UUID
  {
  }

  /** In the variant a clean step keeps every stored id naming a live socket that carries it, if and
      only if it is not a failed connection whose retry stops short. */
  lemma {:induction false} StepFaithfulIff(w: World, l: Label)
    requires Inv(w) && w.forgets && Strong(w, {}) && w.Enabled(l) && Clean(w, l)
    ensures Faithful(w.Step(l)) <==> !Dangles(w, l)
  {
    hide Inv, Clean, Dangles, World.Step, World.Enabled;
    if Dangles(w, l) {
      DanglingBreaks(w, l);
    } else {
      StepStrong(w, l);
    }
  }

  ghost predicate NoneDangles(w: World, ls: seq<Label>)
    requires CleanRun(w, ls)
    decreases |ls|
  {
    ls == [] || (!Dangles(w, ls[0]) && NoneDangles(w.Step(ls[0]), ls[1..]))
  }

  ghost predicate AlwaysFaithful(w: World, ls: seq<Label>)
    requires CleanRun(w, ls)
    decreases |ls|
  {
    Faithful(w) && (ls == [] || AlwaysFaithful(w.Step(ls[0]), ls[1..]))
  }

  lemma {:induction false} StepFlag(w: World, l: Label)
    requires Inv(w) && w.Enabled(l) && Clean(w, l)
    ensures Inv(w.Step(l)) && w.Step(l).forgets == w.forgets
  {
    StepKeeps(w, l);
    hide Inv, Clean, World.Step, World.Enabled;
  }

  lemma {:induction false} RunFaithfulIff(w: World, ls: seq<Label>)
    requires Inv(w) && w.forgets && Strong(w, {}) && CleanRun(w, ls)
    ensures AlwaysFaithful(w, ls) <==> NoneDangles(w, ls)
    decreases |ls|
  {
    hide Inv, Clean, Dangles, Strong, World.Step, World.Enabled;
    StrongIsFaithful(w);
    if ls != [] {
      var w1 := w.Step(ls[0]);
      if Dangles(w, ls[0]) {
        DanglingBreaks(w, ls[0]);
      } else {
        StepStrong(w, ls[0]);
        StepFlag(w, ls[0]);
        RunFaithfulIff(w1, ls[1..]);
      }
    }
  }

  lemma {:induction false} StrongIsFaithful(w: World)
    requires Strong(w, {})
    ensures Faithful(w)
  {
  }

  /** Over every clean run of the variant: every id stored at any moment names a live socket that
      carries it, if and only if no retry of a named connection stops short. */
  lemma {:induction false} VariantIsFaithfulIff(kind: ManagerType, timeWait: nat, ls: seq<Label>)
    requires MIN_TIME_WAIT_VALUE <= timeWait <= MAX_TIME_WAIT_VALUE
    requires CleanRun(Start(kind, timeWait).(forgets := true), ls)
    ensures var w := Start(kind, timeWait).(forgets := true);
            AlwaysFaithful(w, ls) <==> NoneDangles(w, ls)
  {
    hide CleanRun, AlwaysFaithful, NoneDangles;
    var w := Start(kind, timeWait).(forgets := true);
    VariantStarts(kind, timeWait);
    RunFaithfulIff(w, ls);
  }

  lemma {:induction false} VariantStarts(kind: ManagerType, timeWait: nat)
    requires MIN_TIME_WAIT_VALUE <= timeWait <= MAX_TIME_WAIT_VALUE
    ensures var w := Start(kind, timeWait).(forgets := true); Inv(w) && w.forgets && Strong(w, {})
  {
  }
}
