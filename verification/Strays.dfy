/** Sockets the engine leaves behind: when exactly, and that they stay behind whatever follows. */
module Strays {
  import opened SocketTypes
  import opened RecyclableList
  import opened TimeWait
  import opened Engine
  import opened EngineInvariant
  import opened EngineSteps
  import opened Teardown
  import opened Completions
  import opened Limits
  import opened Frames
  import opened Names
  import opened Outcasts
  import opened Continuity

  /** In a state where the invariant holds but for it, an idle socket is an outcast. */
  lemma {:induction false} OutcastBy(w: World, q: Node)
    requires InvExcept(w, {q}) && q in w.sockets.live && q !in w.queue && TallyOf(w.posted, q) == NOTHING
    requires w.At(q).state !in {CONNECTED, ACCEPTING}
    ensures Outcast(w, q, {})
  {
    NotAKey(w.posted, q);
    hide TallyOf;
    if w.current == Some(q) {
      forall p | p in w.posted
        ensures w.BufAt(p.buf).operation != Operation.Accept
      {
        CurrentTarget(w, q, p);
      }
    }
  }

  lemma {:induction false} CurrentTarget(w: World, q: Node, p: Posted)
    requires InvExcept(w, {q}) && p in w.posted && p.key != q && w.current == Some(q) && w.At(q).state != ACCEPTING
    ensures w.BufAt(p.buf).operation != Operation.Accept
  {
    var i :| 0 <= i < |w.posted| && w.posted[i] == p;
    TallyCounts(w.posted, i);
    hide TallyOf;
    assert SockOk(w, p.key);
  }

  // ---------- refused options ----------

  /** A new live socket, associated and no more: no id, and no operation in flight. */
  ghost predicate LeftBehind(w: World, w': World, r: Node) {
    && r in w'.sockets.live && r !in w.sockets.live
    && w'.At(r).state == ASSOCIATED && w'.At(r).id == NIL_UUID && TallyOf(w'.posted, r) == NOTHING
  }

  /** As the constructor or the assignment makes a socket, but for its state. */
  predicate JustMade(s: Socket, st: SocketState) {
    s == NEW_SOCKET.(state := st, maxPendingByteSent := s.maxPendingByteSent)
  }

  /** Preparing a new socket leaves it bound, or associated where an option is refused, or removes it. */
  lemma {:induction false} PrepareNew(w: World, g: Node, associateOk: bool, bind: BindOs)
    requires w.sockets.Valid() && g in w.sockets.live && JustMade(w.At(g), INIT)
    ensures var (w', go) := w.PrepareSocket(g, associateOk, bind);
            && (go <==> associateOk && bind.Bound?)
            && (g in w'.sockets.live <==> associateOk && !bind.BindRefused?)
            && (associateOk && bind.OptionRefused? ==> JustMade(w'.At(g), ASSOCIATED))
            && (go ==> JustMade(w'.At(g), BOUND))
            && w'.posted == w.posted && w'.sockets.Valid()
  {
    hide World.DeleteSocket;
    DeleteRemoves(w, g);
    DeleteRest(w, g, NEVER_CONNECTED);
    PrepareOnly(w, g, associateOk, bind);
    var w1 := w.SetState(g, ASSOCIATED);
    SetStateOnly(w, g, ASSOCIATED);
    assert JustMade(w1.At(g), ASSOCIATED);
    DeleteRemoves(w1, g);
    DeleteRest(w1, g, NEVER_CONNECTED);
  }

  lemma {:induction false} NewGenerated(w: World, reuse: bool, createOk: bool)
    requires w.sockets.Valid() && (reuse ==> !w.HeadAged())
    ensures var (w', g) := w.GenerateSocket(reuse, createOk);
            && (g.Some? <==> createOk) && w'.posted == w.posted && w'.sockets.Valid()
            && (createOk ==> g == Some(w.sockets.Slot()) && g.value !in w.sockets.live && g.value in w'.sockets.live)
            && (createOk ==> JustMade(w'.At(w.sockets.Slot()), INIT))
  {
    CreateKeeps(w.sockets, NEW_SOCKET, AssignSocket);
    CreateOnly(w);
  }

  /** After a failed preparation the call is over; after a good one the socket is not left associated. */
  lemma {:induction false} ConnectNew(w: World, os: ConnectOs)
    requires w.sockets.Valid() && !w.HeadAged() && os.createOk && w.mgr != NOT_READY && w.kind == CLIENT
    requires NIL_UUID < w.nextId
    ensures var w', g := w.ConnectToNewSocket(NIL_UUID, os).0, w.sockets.Slot();
            if os.associateOk && os.bind.OptionRefused? then
              g in w'.sockets.live && JustMade(w'.At(g), ASSOCIATED) && w'.posted == w.posted
            else g in w'.sockets.live ==> w'.At(g).state == BOUND
  {
    hide World.GenerateSocket, World.PrepareSocket, World.DeleteSocket, World.AddSocketToMap, World.CreateBuffer,
         World.HeadAged;
    NewGenerated(w, true, os.createOk);
    var (w1, generated) := w.GenerateSocket(true, os.createOk);
    var g := generated.value;
    PrepareNew(w1, g, os.associateOk, os.bind);
    var (w2, go) := w1.PrepareSocket(g, os.associateOk, os.bind);
    if go {
      DeleteRemoves(w2, g);
      var w3 := w2.CreateBuffer(Operation.Connect);
      CreateBufferSockets(w2, Operation.Connect);
      DeleteRemoves(w3, g);
      ValidMem(w3, g);
      AddIdOnly(w3.Post(w2.buffers.Slot(), g, Operation.Connect).Do(Publish(g)), g, NIL_UUID);
    }
  }

  lemma {:induction false} ValidMem(w: World, g: Node)
    requires w.sockets.Valid() && g in w.sockets.live
    ensures g in w.sockets.mem
  {
  }

  /** A connection attempt leaves a new socket behind if and only if it makes one, associates it, and
      an option is refused before the bind. */
  lemma {:induction false} ConnectLeavesIff(w: World, os: ConnectOs)
    requires Inv(w) && w.mgr != NOT_READY && w.kind == CLIENT
    ensures (exists r :: LeftBehind(w, w.ConnectToNewSocket(NIL_UUID, os).0, r)) <==>
            !w.HeadAged() && os.createOk && os.associateOk && os.bind.OptionRefused?
  {
    Basics(w);
    SlotIdle(w);
    hide Inv, Only, JustMade, World.ConnectToNewSocket, World.HeadAged;
    var w', g := w.ConnectToNewSocket(NIL_UUID, os).0, w.sockets.Slot();
    ConnectOnly(w, NIL_UUID, os);
    if w.HeadAged() || !os.createOk {
      NothingNew(w, os.createOk, w');
    } else {
      NewGenerated(w, true, os.createOk);
      assert Generated(w, os.createOk) == {g};
      ConnectNewLeaves(w, os);
    }
  }

  lemma {:induction false} ConnectNewLeaves(w: World, os: ConnectOs)
    requires w.sockets.Valid() && !w.HeadAged() && os.createOk && w.mgr != NOT_READY && w.kind == CLIENT
    requires NIL_UUID < w.nextId
    requires TallyOf(w.posted, w.sockets.Slot()) == NOTHING && w.sockets.Slot() !in w.sockets.live
    requires Only(w, w.ConnectToNewSocket(NIL_UUID, os).0, {w.sockets.Slot()})
    ensures (exists r :: LeftBehind(w, w.ConnectToNewSocket(NIL_UUID, os).0, r)) <==>
        os.associateOk && os.bind.OptionRefused?
  {
    hide *;
    var w', g := w.ConnectToNewSocket(NIL_UUID, os).0, w.sockets.Slot();
    ConnectNew(w, os);
    OnlyNew(w, w', g);
    if os.associateOk && os.bind.OptionRefused? {
      LeftIs(w, w', g);
    } else {
      NotLeft(w, w', g);
    }
  }

  lemma {:induction false} LeftIs(w: World, w': World, g: Node)
    requires g !in w.sockets.live && g in w'.sockets.live && JustMade(w'.At(g), ASSOCIATED)
    requires TallyOf(w'.posted, g) == NOTHING
    ensures LeftBehind(w, w', g)
  {
  }

  lemma {:induction false} NotLeft(w: World, w': World, g: Node)
    requires g in w'.sockets.live ==> w'.At(g).state != ASSOCIATED
    ensures !LeftBehind(w, w', g)
  {
  }

  lemma {:induction false} SlotIdle(w: World)
    requires Inv(w)
    ensures TallyOf(w.posted, w.sockets.Slot()) == NOTHING
  {
    hide TallyOf;
    CreateKeeps(w.sockets, NEW_SOCKET, AssignSocket);
    assert forall i :: 0 <= i < |w.posted| ==> w.posted[i] in w.posted;
    TallyNone(w.posted, w.sockets.Slot());
  }

  lemma {:induction false} NothingNew(w: World, createOk: bool, w': World)
    requires Inv(w) && (w.HeadAged() || !createOk) && Only(w, w', Generated(w, createOk))
    ensures forall r :: !LeftBehind(w, w', r)
  {
    Basics(w);
    QueueLive(w);
    GeneratedIs(w, createOk);
    NewGenerated(w, false, createOk);
    hide Inv;
  }

  lemma {:induction false} QueueLive(w: World)
    requires Inv(w)
    ensures w.queue != [] ==> w.queue[0] in w.sockets.live
  {
    hide TallyOf;
  }

  lemma {:induction false} OnlyNew(w: World, w': World, g: Node)
    requires Only(w, w', {g})
    ensures forall r :: LeftBehind(w, w', r) ==> r == g
  {
  }

  // ---------- refused options of a listening socket ----------

  /** What an accept generates is accepting or gone. */
  lemma {:induction false} AcceptOutcome(w: World, listener: Node, os: AcceptOs)
    requires w.sockets.Valid()
    requires (w.queue != [] ==> w.queue[0] in w.sockets.live && w.At(w.queue[0]).state == DISCONNECTED)
    ensures var w' := w.AcceptNewSocket(listener, os).0;
            && Only(w, w', Generated(w, os.createOk)) && w'.sockets.Valid()
            && forall g :: g in Generated(w, os.createOk) && g in w'.sockets.live ==> w'.At(g).state == ACCEPTING
  {
    AcceptOnly(w, listener, os);
    GeneratedLive(w, os.createOk);
    hide World.GenerateSocket, World.AssociateSocketToIOCP, World.DeleteSocket, World.SetState, World.CreateBuffer,
         Only;
    var (w1, generated) := w.GenerateSocket(true, os.createOk);
    if generated.Some? {
      AcceptGeneratedState(w1, generated.value, listener, os);
    }
  }

  lemma {:induction false} GeneratedLive(w: World, createOk: bool)
    requires w.sockets.Valid()
    requires (w.queue != [] ==> w.queue[0] in w.sockets.live && w.At(w.queue[0]).state == DISCONNECTED)
    ensures var (w', g) := w.GenerateSocket(true, createOk);
            g.Some? ==> w'.sockets.Valid() && g.value in w'.sockets.live && w'.At(g.value).state in {INIT, DISCONNECTED}
  {
    CreateKeeps(w.sockets, NEW_SOCKET, AssignSocket);
  }

  /** The accept from its generated socket on. */
  lemma {:induction false} AcceptGeneratedState(w: World, g: Node, listener: Node, os: AcceptOs)
    requires w.sockets.Valid() && g in w.sockets.live && w.At(g).state in {INIT, DISCONNECTED}
    ensures var w2 := w.AssociateSocketToIOCP(g, os.associateOk);
            var w3 := w2.(current := Some(g)).CreateBuffer(Operation.Accept);
            var w4 := w3.Post(w2.buffers.Slot(), listener, Operation.Accept).Do(Publish(g)).SetState(g, ACCEPTING);
            && (!os.associateOk ==> g !in w2.sockets.live)
            && (os.associateOk ==>
                  g !in w3.DeleteSocket(g, NEVER_CONNECTED).sockets.live && w4.At(g).state == ACCEPTING)
  {
    hide World.DeleteSocket;
    DeleteRemoves(w, g);
    if os.associateOk {
      var w2 := w.SetState(g, ASSOCIATED);
      SetStateOnly(w, g, ASSOCIATED);
      var w3 := w2.(current := Some(g)).CreateBuffer(Operation.Accept);
      assert w3.At(g).state == ASSOCIATED && w3.sockets == w2.sockets;
      DeleteRemoves(w3, g);
    }
  }

  /** The part of listening that comes before the accept. */
  lemma {:induction false} ListenPrepared(w: World, g: Node, os: ListenOs)
    requires w.sockets.Valid() && g in w.sockets.live && JustMade(w.At(g), INIT) && os.htonsOk
    ensures var w2 := w.AssociateSocketToIOCP(g, os.associateOk);
            var w3 := w2.BindSocket(g, os.bind);
            && (!os.associateOk ==> g !in w2.sockets.live) && g !in w.DeleteSocket(g, NEVER_CONNECTED).sockets.live
            && (os.associateOk && os.bind.OptionRefused? ==>
                  g in w3.sockets.live && JustMade(w3.At(g), ASSOCIATED) && w3.posted == w.posted)
            && (os.associateOk && os.bind.BindRefused? ==> g !in w3.sockets.live)
            && (os.associateOk && os.bind.Bound? ==> ReadyToListen(w, w3, g))
  {
    hide World.DeleteSocket;
    DeleteRemoves(w, g);
    var w1 := w.SetState(g, ASSOCIATED);
    SetStateOnly(w, g, ASSOCIATED);
    DeleteRemoves(w1, g);
    var w2 := w1.SetState(g, BOUND);
    SetStateOnly(w1, g, BOUND);
    DeleteRemoves(w2, g);
  }

  /** Bound, and about to be marked as listening. */
  ghost predicate ReadyToListen(w: World, w3: World, g: Node) {
    && g !in w3.DeleteSocket(g, NEVER_CONNECTED).sockets.live
    && w3.sockets.Valid() && g in w3.sockets.live && Only(w, w3, {g}) && w3.queue == w.queue
  }

  /** Once bound, the socket listens or is gone, and what the first accept generates is accepting or gone. */
  lemma {:induction false} ListenFinishes(w: World, g: Node, os: AcceptOs)
    requires w.sockets.Valid() && g in w.sockets.live && g !in w.queue
    requires w.queue != [] ==> w.queue[0] in w.sockets.live && w.At(w.queue[0]).state == DISCONNECTED
    ensures var w4 := w.SetState(g, LISTENING);
            var (w5, accepting) := w4.AcceptNewSocket(g, os);
            var w' := if accepting then w5.AddSocketToMap(g, NIL_UUID).(mgr := SERVER_LISTENING)
              else w5.DeleteSocket(g, NEVER_CONNECTED);
            forall r :: r in w'.sockets.live && r !in w.sockets.live ==> w'.At(r).state == ACCEPTING
    ensures var w4 := w.SetState(g, LISTENING);
            var (w5, accepting) := w4.AcceptNewSocket(g, os);
            var w' := if accepting then w5.AddSocketToMap(g, NIL_UUID).(mgr := SERVER_LISTENING)
              else w5.DeleteSocket(g, NEVER_CONNECTED);
            g in w'.sockets.live ==> w'.At(g).state == LISTENING
  {
    hide World.AcceptNewSocket, World.DeleteSocket, World.AddSocketToMap;
    var w4 := w.SetState(g, LISTENING);
    SetStateOnly(w, g, LISTENING);
    ValidMem(w, g);
    assert w4.At(g).state == LISTENING && w4.sockets.live == w.sockets.live;
    if w4.queue != [] {
      assert w4.queue[0] in w4.queue;
    }
    AcceptOutcome(w4, g, os);
    NotGenerated(w4, os.createOk, g);
    var (w5, accepting) := w4.AcceptNewSocket(g, os);
    DeleteOnly(w5, g, NEVER_CONNECTED);
    DeleteRemoves(w5, g);
    ValidMem(w5, g);
    AddIdOnly(w5, g, NIL_UUID);
  }

  /** Listening leaves a new socket behind if and only if the socket is made, its port converted,
      associated, and an option is refused before the bind. */
  lemma {:induction false} ListenLeavesIff(w: World, os: ListenOs)
    requires Inv(w) && w.mgr == READY && w.kind == SERVER
    ensures (exists r :: LeftBehind(w, w.ListenToNewSocket(os).0, r)) <==>
            os.createOk && os.htonsOk && os.associateOk && os.bind.OptionRefused?
  {
    Basics(w);
    SlotIdle(w);
    HeadsLive(w);
    hide *;
    ListenCases(w, os);
    var w', g := w.ListenToNewSocket(os).0, w.sockets.Slot();
    if os.createOk && os.htonsOk && os.associateOk && os.bind.OptionRefused? {
      LeftIs(w, w', g);
    } else {
      NoneLeft(w, w');
    }
  }

  lemma {:induction false} NoneLeft(w: World, w': World)
    requires forall r :: r in w'.sockets.live && r !in w.sockets.live ==> w'.At(r).state != ASSOCIATED
    ensures !exists r :: LeftBehind(w, w', r)
  {
  }

  lemma {:induction false} HeadsLive(w: World)
    requires Inv(w)
    ensures forall q :: q in w.queue ==> q in w.sockets.live
    ensures w.queue != [] ==> w.At(w.queue[0]).state == DISCONNECTED
  {
    hide TallyOf;
    if w.queue != [] {
      assert w.queue[0] in w.queue && SockOk(w, w.queue[0]);
    }
  }

  lemma {:induction false} ListenCases(w: World, os: ListenOs)
    requires w.sockets.Valid() && w.mgr == READY && w.kind == SERVER && TallyOf(w.posted, w.sockets.Slot()) == NOTHING
    requires (forall q :: q in w.queue ==> q in w.sockets.live)
    requires (w.queue != [] ==> w.At(w.queue[0]).state == DISCONNECTED)
    ensures var w', g := w.ListenToNewSocket(os).0, w.sockets.Slot();
            if os.createOk && os.htonsOk && os.associateOk && os.bind.OptionRefused? then
              && g !in w.sockets.live && g in w'.sockets.live && JustMade(w'.At(g), ASSOCIATED)
              && TallyOf(w'.posted, g) == NOTHING
            else forall r :: r in w'.sockets.live && r !in w.sockets.live ==> w'.At(r).state != ASSOCIATED
  {
    NewGenerated(w, false, os.createOk);
    GenerateOnly(w, false, os.createOk);
    hide World.GenerateSocket, World.AssociateSocketToIOCP, World.BindSocket, World.DeleteSocket, World.AcceptNewSocket;
    hide World.AddSocketToMap, World.SetState, TallyOf, JustMade;
    var (w1, generated) := w.GenerateSocket(false, os.createOk);
    if os.createOk {
      var g := generated.value;
      if !os.htonsOk {
        StartedInit(w1, g);
        DeleteOnly(w1, g, NEVER_CONNECTED);
        DeleteRemoves(w1, g);
      } else {
        ListenFrom(w, w1, g, os);
      }
    }
  }

  lemma {:induction false} StartedInit(w: World, g: Node)
    requires JustMade(w.At(g), INIT)
    ensures w.At(g).state == INIT
  {
  }

  /** The rest of listening, from the new socket on. */
  lemma {:induction false} ListenFrom(w: World, w1: World, g: Node, os: ListenOs)
    requires w.mgr == READY && w.kind == SERVER && os.htonsOk && w.GenerateSocket(false, os.createOk) == (w1, Some(g))
    requires Only(w, w1, {g}) && g !in w.sockets.live && g in w1.sockets.live && JustMade(w1.At(g), INIT)
    requires w1.posted == w.posted
    requires (forall q :: q in w1.queue ==> q in w.queue) && (forall q :: q in w.queue ==> q in w.sockets.live)
    requires w1.queue != [] ==> w1.At(w1.queue[0]).state == DISCONNECTED
    requires TallyOf(w.posted, g) == NOTHING
    ensures var w' := w.ListenToNewSocket(os).0;
            if os.associateOk && os.bind.OptionRefused? then
              g in w'.sockets.live && JustMade(w'.At(g), ASSOCIATED) && TallyOf(w'.posted, g) == NOTHING
            else forall r :: r in w'.sockets.live && r !in w.sockets.live ==> w'.At(r).state != ASSOCIATED
  {
    hide World.GenerateSocket, World.AssociateSocketToIOCP, World.BindSocket, World.DeleteSocket, World.AcceptNewSocket;
    hide World.AddSocketToMap, World.SetState, TallyOf, JustMade;
    ListenPrepared(w1, g, os);
    AssociateOnly(w1, g, os.associateOk);
    var w2 := w1.AssociateSocketToIOCP(g, os.associateOk);
    BindOnly(w2, g, os.bind);
    var w3 := w2.BindSocket(g, os.bind);
    DeleteOnly(w3, g, NEVER_CONNECTED);
    if w1.queue != [] {
      assert w1.queue[0] in w1.queue;
    }
    if os.associateOk && os.bind.Bound? && os.listenOk {
      ListenFinishes(w3, g, os.accept);
    }
  }

  /** A socket left behind by a call stays in the list, associated and idle, through every run. */
  lemma {:induction false} LeftForEver(w: World, c: UserCall, r: Node, ls: seq<Label>)
    requires Inv(w) && SafeCall(w, c) && LeftBehind(w, w.UserCalls(None, c), r) && AnyRun(w.UserCalls(None, c), ls)
    ensures var w' := AnyEnd(w.UserCalls(None, c), ls);
            r in w'.sockets.live && w'.At(r).state == ASSOCIATED && w'.At(r).id == NIL_UUID && w'.At(r).Idle()
  {
    hide InvExcept, TallyOf, World.UserCalls, AnyRun, AnyEnd, Outcast, Open;
    var w1 := w.UserCalls(None, c);
    UserCallKeeps(w, None, c);
    LeftIsOutcast(w1, r);
    OutcastForEver(w1, ls, r);
    OutcastLive(AnyEnd(w1, ls), r);
  }

  lemma {:induction false} LeftIsOutcast(w: World, r: Node)
    requires Inv(w) && r in w.sockets.live && w.At(r).state in {ASSOCIATED, CONNECT_FAILURE}
    ensures Outcast(w, r, {}) && w.At(r).Idle()
  {
    hide TallyOf, Outcast;
    assert SockOk(w, r);
    Widen(w, {}, {r});
    OutcastBy(w, r);
  }

  // ---------- failed connections and accepts ----------

  /** A socket whose connection failed stays in the list, out of the map, exactly when it is not retried. */
  lemma {:induction false} FailedConnectLeavesIff(w: World, i: nat, addressInUse: bool, os: ErrorOs)
    requires Inv(w) && i < |w.posted| && w.posted[i].op == Operation.Connect && Ends(os.teardown)
    ensures var r := w.posted[i].key;
            var w' := w.Dequeue(i).HandleError(r, w.posted[i].buf, addressInUse, os);
            && Inv(w') && (r in w'.sockets.live <==> !addressInUse)
            && (!addressInUse ==> w'.At(r).state == CONNECT_FAILURE && w.At(r).id !in w'.ids)
  {
    hide InvExcept, TallyOf, Settled, Spares, Held, World.FinishError, World.ConnectToNewSocket, World.Put;
    var r, b := w.posted[i].key, w.posted[i].buf;
    ErrorAccounted(w, i);
    MarkOther(w, i, addressInUse, os);
    var w2 := w.Dequeue(i).Do(Enter(SockLock(r))).MarkError(r, b, addressInUse, os.connect);
    FinishSettled(w2, r, b, os.teardown);
    SettledFacts(w2, r);
    MarkedState(w.Dequeue(i).Do(Enter(SockLock(r))), r, b, addressInUse, os.connect);
    if addressInUse {
      FinishReplaced(w2, r, b, os.teardown);
    } else {
      FinishUnlisted(w2, r, b, os.teardown);
    }
  }

  lemma {:induction false} MarkedState(w: World, r: Node, b: Node, addressInUse: bool, os: ConnectOs)
    requires w.BufAt(b).operation == Operation.Connect && r in w.MarkError(r, b, addressInUse, os).sockets.mem
    ensures w.MarkError(r, b, addressInUse, os).At(r).state ==
            if addressInUse then RETRY_CONNECTION else CONNECT_FAILURE
    ensures !addressInUse ==> w.MarkError(r, b, addressInUse, os).At(r).id == w.At(r).id
  {
    hide World.ConnectToNewSocket;
  }

  lemma {:induction false} FinishUnlisted(w: World, r: Node, b: Node, os: TeardownOs)
    requires InvExcept(w, {r}) && Settled(w, r) && w.At(r).state == CONNECT_FAILURE
    ensures w.FinishError(r, b, os).sockets == w.sockets && r in w.sockets.live
    ensures w.At(r).id !in w.FinishError(r, b, os).ids
  {
    SettledFacts(w, r);
    hide InvExcept, TallyOf, Settled, World.DeleteOrDisconnect;
    TeardownContract(w.Do(Leave(SockLock(r))), r, os);
  }

  /** Then it stays there in every run, with nothing in flight. */
  lemma {:induction false} FailedConnectForEver(w: World, i: nat, os: ErrorOs, ls: seq<Label>)
    requires Inv(w) && i < |w.posted| && w.posted[i].op == Operation.Connect && Ends(os.teardown)
    requires AnyRun(w.Dequeue(i).HandleError(w.posted[i].key, w.posted[i].buf, false, os), ls)
    ensures var r, w' := w.posted[i].key,
              AnyEnd(w.Dequeue(i).HandleError(w.posted[i].key, w.posted[i].buf, false, os), ls);
            r in w'.sockets.live && w'.At(r).state == CONNECT_FAILURE && w'.At(r).Idle()
  {
    hide InvExcept, TallyOf, AnyRun, AnyEnd, Outcast, World.HandleError;
    var r := w.posted[i].key;
    var w1 := w.Dequeue(i).HandleError(r, w.posted[i].buf, false, os);
    FailedConnectLeavesIff(w, i, false, os);
    LeftIsOutcast(w1, r);
    OutcastForEver(w1, ls, r);
    OutcastLive(AnyEnd(w1, ls), r);
  }

  /** With no accept outstanding, a socket waiting to be accepted is an outcast. */
  lemma {:induction false} WaitingIsOutcast(w: World, a: Node)
    requires Inv(w) && NoAccept(w) && a in w.sockets.live && w.At(a).state == ACCEPTING
    ensures Outcast(w, a, {}) && w.At(a).Idle()
  {
    RestingFacts(w, a);
    hide TallyOf;
    forall p | p in w.posted
      ensures w.BufAt(p.buf).operation != Operation.Accept
    {
      assert w.buffers.mem[p.buf] == Buffer(p.op, p.len);
    }
  }

  /** A failed accept leaves the socket that was to be accepted in the list, accepting and with nothing in
      flight, in every run. */
  lemma {:induction false} FailedAcceptForEver(w: World, i: nat, addressInUse: bool, os: ErrorOs, ls: seq<Label>)
    requires Inv(w) && i < |w.posted| && w.posted[i].op == Operation.Accept
    requires AnyRun(w.Dequeue(i).HandleError(w.posted[i].key, w.posted[i].buf, addressInUse, os), ls)
    ensures w.current.Some?
    ensures var a, w' := w.current.value,
              AnyEnd(w.Dequeue(i).HandleError(w.posted[i].key, w.posted[i].buf, addressInUse, os), ls);
            a in w'.sockets.live && w'.At(a).state == ACCEPTING && w'.At(a).Idle()
  {
    hide InvExcept, TallyOf, NoAccept, Held, Spares, AnyRun, AnyEnd, Apart, World.HandleError;
    var r, b, w0 := w.posted[i].key, w.posted[i].buf, w.Dequeue(i);
    AcceptAccounted(w, i);
    var a := w.current.value;
    WaitingIsOutcast(w0, a);
    HandleErrorStays(w0, r, b, addressInUse, os, a, {});
    var w1 := w0.HandleError(r, b, addressInUse, os);
    OutcastForEver(w1, ls, a);
    OutcastLive(AnyEnd(w1, ls), a);
  }

  // ---------- closes that do not end ----------

  /** A socket whose teardown stops at a close still in progress stays in the list, draining and with
      nothing in flight, through every run. */
  lemma {:induction false} AbandonedForEver(w: World, r: Node, os: TeardownOs, ls: seq<Label>)
    requires InvExcept(w, {r}) && Settled(w, r) && Draining(w.At(r).state)
    requires Abandoned(w.DeleteOrDisconnect(r, os), r) && AnyRun(w.DeleteOrDisconnect(r, os), ls)
    ensures var w' := AnyEnd(w.DeleteOrDisconnect(r, os), ls); r in w'.sockets.live && Draining(w'.At(r).state)
  {
    hide InvExcept, TallyOf, Settled, AnyRun, AnyEnd, Outcast, World.DeleteOrDisconnect;
    var w1 := w.DeleteOrDisconnect(r, os);
    AbandonedIsOutcast(w, r, os);
    OutcastForEver(w1, ls, r);
    OutcastLive(AnyEnd(w1, ls), r);
  }

  lemma {:induction false} AbandonedIsOutcast(w: World, r: Node, os: TeardownOs)
    requires InvExcept(w, {r}) && Settled(w, r) && Draining(w.At(r).state) && Abandoned(w.DeleteOrDisconnect(r, os), r)
    ensures Outcast(w.DeleteOrDisconnect(r, os), r, {})
  {
    SettledFacts(w, r);
    SettledTally(w, r);
    SettledUnqueued(w, r);
    OutcastBy(w, r);
    EndingIs(w, r, os);
    var w' := w.DeleteOrDisconnect(r, os);
    TeardownOnly(w, r, os);
    CreateBufferStays(w, Operation.Disconnect, r, {});
    hide InvExcept, TallyOf, Settled, World.DeleteOrDisconnect, Only, Abandoned;
    StrandedOutcast(w, w', r, os);
  }

  lemma {:induction false} SettledUnqueued(w: World, r: Node)
    requires Settled(w, r)
    ensures r !in w.queue
  {
    hide TallyOf;
  }

  lemma {:induction false} EndingIs(w: World, r: Node, os: TeardownOs)
    requires InvExcept(w, {r}) && Settled(w, r) && Draining(w.At(r).state) && Abandoned(w.DeleteOrDisconnect(r, os), r)
    ensures Ended(w, w.DeleteOrDisconnect(r, os), r, os, Stranded)
  {
    SettledFacts(w, r);
    SettledTally(w, r);
    hide InvExcept, TallyOf, Settled, Abandoned, Ended, World.DeleteOrDisconnect;
    TeardownContract(w, r, os);
    EndingAbandons(w, w.DeleteOrDisconnect(r, os), r, os, Verdict(w.At(r).state, w.ShouldReuse(), os));
  }

  lemma {:induction false} StrandedOutcast(w: World, w': World, r: Node, os: TeardownOs)
    requires Outcast(w, r, {}) && Draining(w.At(r).state) && Ended(w, w', r, os, Stranded) && Only(w, w', {r})
    requires Stays(w, w.CreateBuffer(Operation.Disconnect), r, {})
    ensures Outcast(w', r, {})
  {
    var w1 := w.CreateBuffer(Operation.Disconnect);
    assert w1.posted == w.posted && w1.current == w.current;
    assert w'.buffers == w.buffers ==> forall b :: w'.BufAt(b) == w.BufAt(b);
    assert w'.buffers == w1.buffers ==> forall b :: w'.BufAt(b) == w1.BufAt(b);
  }

  // ---------- a late store ----------

  /** The one receive of a connection whose state was overwritten by ACCEPTING. */
  ghost predicate Overwritten(w: World, i: nat) {
    && i < |w.posted|
    && var p := w.posted[i];
    && Outcast(w.Dequeue(i), p.key, {p.buf}) && w.BufAt(p.buf).operation == Operation.Read
    && w.At(p.key).state == ACCEPTING && w.At(p.key).outstandingRecv == 1 && w.At(p.key).outstandingSend == 0
  }

  lemma {:induction false} SelfPut(w: World, q: Node, s: Socket, hand: set<Node>)
    requires Outcast(w, q, hand) && s.state != CONNECTED
    ensures Outcast(w.Put(q, s), q, hand) && w.Put(q, s).At(q) == s
  {
    assert forall b :: w.Put(q, s).BufAt(b) == w.BufAt(b);
  }

  /** The callback leaves such a socket as it is, or closes it. */
  lemma {:induction false} CallbackCloses(w: World, q: Node, cs: seq<UserCall>, hand: set<Node>)
    requires Outcast(w, q, hand) && w.At(q).state in {ACCEPTING, CLOSING}
    ensures var w' := w.ReceiveData(q, cs);
            && Outcast(w', q, hand)
            && w'.At(q) == w.At(q).(state := if UserCall.OwnClose in cs then CLOSING else w.At(q).state)
    decreases |cs|
  {
    hide Apart, TallyOf, World.UserCalls;
    if cs != [] {
      assert cs == [cs[0]] + cs[1..];
      var w1 := w.UserCalls(Some(q), cs[0]);
      if cs[0].OwnClose? {
        OwnCloses(w, q, hand);
      } else {
        CallStays(w, Some(q), cs[0], q, hand);
      }
      CallbackCloses(w1, q, cs[1..], hand);
    }
  }

  lemma {:induction false} OwnCloses(w: World, q: Node, hand: set<Node>)
    requires Outcast(w, q, hand)
    ensures var w' := w.UserCalls(Some(q), UserCall.OwnClose);
            Outcast(w', q, hand) && w'.At(q) == w.At(q).(state := CLOSING)
  {
    hide Apart, TallyOf, World.Put;
    var s := w.At(q).(state := CLOSING);
    SelfPut(w, q, s, hand);
    AloofStays(w.Put(q, s), w.ChangeSocketState(q, CLOSING), q, hand);
  }

  /** What is left of such a connection after its receive, just before the closing check. */
  lemma {:induction false} OverwrittenRead(w: World, i: nat, bytes: nat, os: IoOs)
    requires Overwritten(w, i)
    ensures var p := w.posted[i];
            var w' := w.Dequeue(i).HandleRead(p.key, p.buf, bytes, os.callback, os.recvOk);
            && Outcast(w', p.key, {p.buf}) && w'.At(p.key).Idle()
            && w'.At(p.key).state == if bytes > 0 && UserCall.OwnClose !in os.callback then ACCEPTING else CLOSING
  {
    hide Apart, TallyOf, World.Put, World.PutBuf, World.ReceiveData, World.ChangeSocketState, World.DeleteBuffer;
    var p, q, b, hand := w.posted[i], w.posted[i].key, w.posted[i].buf, {w.posted[i].buf};
    var w0 := w.Dequeue(i);
    SelfPut(w0, q, w0.At(q).RecvDone(), hand);
    var w1 := w0.Put(q, w0.At(q).RecvDone()).Section(SockLock(q));
    AloofStays(w0.Put(q, w0.At(q).RecvDone()), w1, q, hand);
    if bytes > 0 {
      var w2 := w1.PutBuf(b, w1.BufAt(b).(bufLen := bytes));
      PutBufStays(w1, b, w1.BufAt(b).(bufLen := bytes), q, hand);
      CallbackCloses(w2, q, os.callback, hand);
      var w3 := w2.ReceiveData(q, os.callback);
      PutBufStays(w3, b, w3.BufAt(b).(bufLen := DEFAULT_BUFFER_SIZE), q, hand);
      DeleteBufferStays(w3.PutBuf(b, w3.BufAt(b).(bufLen := DEFAULT_BUFFER_SIZE)), b, q, hand);
    } else {
      OwnCloses(w1, q, hand);
      DeleteBufferStays(w1.ChangeSocketState(q, CLOSING), b, q, hand);
    }
  }

  /** Tearing down a closing socket leaves none that is accepting. */
  lemma {:induction false} CleanedUp(w: World, q: Node, os: TeardownOs, hand: set<Node>)
    requires Outcast(w, q, hand) && w.At(q).state == CLOSING && w.At(q).Idle()
    ensures var w' := w.CleanupIfLast(q, os); q in w'.sockets.live ==> w'.At(q).state != ACCEPTING
  {
    hide World.DeleteOrDisconnect;
    var w1 := w.Section(SockLock(q));
    TeardownContract(w1, q, os);
    if Verdict(w1.At(q).state, w1.ShouldReuse(), os) == Gone {
      ClosedAndErased(w1, w.CleanupIfLast(q, os), q, os);
    }
  }

  /** A connection whose state was overwritten is not torn down by its receive, but left behind with
      nothing in flight, if and only if the receive carries data and the callback does not close it. */
  lemma {:induction false} OverwrittenIff(w: World, i: nat, bytes: nat, os: IoOs)
    requires Overwritten(w, i)
    ensures var p := w.posted[i];
            var w' := w.Dequeue(i).HandleIo(p.key, p.buf, bytes, os);
            && ((p.key in w'.sockets.live && w'.At(p.key).state == ACCEPTING) <==>
                  bytes > 0 && UserCall.OwnClose !in os.callback)
            && (bytes > 0 && UserCall.OwnClose !in os.callback ==> Outcast(w', p.key, {}) && w'.At(p.key).Idle())
  {
    hide Apart, TallyOf, World.HandleRead, World.DeleteOrDisconnect;
    var p, q := w.posted[i], w.posted[i].key;
    var w0 := w.Dequeue(i);
    var w1 := w0.HandleRead(q, p.buf, bytes, os.callback, os.recvOk);
    OverwrittenRead(w, i, bytes, os);
    if bytes > 0 && UserCall.OwnClose !in os.callback {
      var w2 := w1.Section(SockLock(q));
      AloofStays(w1, w2, q, {p.buf});
      HandOver(w2, q, {p.buf});
      OutcastLive(w2, q);
    } else {
      CleanedUp(w1, q, os.teardown, {p.buf});
    }
  }

  lemma {:induction false} OutcastLive(w: World, q: Node)
    requires Outcast(w, q, {})
    ensures q in w.sockets.live
  {
  }

  /** Then nothing tears it down, in any run. */
  lemma {:induction false} OverwrittenForEver(w: World, i: nat, bytes: nat, os: IoOs, ls: seq<Label>)
    requires Overwritten(w, i) && 0 < bytes && UserCall.OwnClose !in os.callback
    requires AnyRun(w.Dequeue(i).HandleIo(w.posted[i].key, w.posted[i].buf, bytes, os), ls)
    ensures var w' := AnyEnd(w.Dequeue(i).HandleIo(w.posted[i].key, w.posted[i].buf, bytes, os), ls);
            w.posted[i].key in w'.sockets.live && w'.At(w.posted[i].key).state == ACCEPTING &&
              w'.At(w.posted[i].key).Idle()
  {
    hide Outcast, AnyRun, AnyEnd, World.HandleIo;
    var q := w.posted[i].key;
    var w1 := w.Dequeue(i).HandleIo(q, w.posted[i].buf, bytes, os);
    OverwrittenIff(w, i, bytes, os);
    OutcastForEver(w1, ls, q);
    OutcastLive(AnyEnd(w1, ls), q);
  }

  /** The state such a connection is in: wherever the invariant holds, storing ACCEPTING late into a connected
      socket that is sending nothing overwrites it. */
  lemma {:induction false} LateStoreOverwrites(w: World, i: nat)
    requires Inv(w) && i < |w.posted| && w.posted[i].op == Operation.Read
    requires w.At(w.posted[i].key).state == CONNECTED && w.At(w.posted[i].key).outstandingSend == 0
    ensures Overwritten(w.SetState(w.posted[i].key, ACCEPTING), i)
  {
    hide Inv, TallyOf, NoAccepts;
    var q := w.posted[i].key;
    ConnectedFacts(w, i);
    LateTally(w, i);
    LateFields(w, q);
    if w.current == Some(q) {
      NoneFor(w, q);
    }
    LateAccepts(w, i);
  }

  lemma {:induction false} ConnectedFacts(w: World, i: nat)
    requires Inv(w) && i < |w.posted| && w.posted[i].op == Operation.Read && w.At(w.posted[i].key).state == CONNECTED
    ensures var q := w.posted[i].key;
            && w.sockets.Valid() && q in w.sockets.live && q in w.sockets.mem && q !in w.queue
            && w.At(q).outstandingRecv == 1
    ensures w.BufAt(w.posted[i].buf).operation == Operation.Read
  {
    hide TallyOf;
    assert w.posted[i] in w.posted;
    assert SockOk(w, w.posted[i].key);
  }

  /** The receive is all there is in flight on it. */
  lemma {:induction false} LateTally(w: World, i: nat)
    requires Inv(w) && i < |w.posted| && w.posted[i].op == Operation.Read && w.At(w.posted[i].key).outstandingSend == 0
    ensures TallyOf(w.Dequeue(i).posted, w.posted[i].key) == NOTHING
  {
    hide InvExcept, TallyOf, Spares, Held;
    RecvAccounted(w, i);
    NoSendsNoBytes(w.Dequeue(i).posted, w.posted[i].key);
    PutPosted(w.Dequeue(i), w.posted[i].key, w.Dequeue(i).At(w.posted[i].key).RecvDone());
    hide World.Put;
  }

  lemma {:induction false} PutPosted(w: World, r: Node, s: Socket)
    ensures w.Put(r, s).Section(SockLock(r)).posted == w.posted
  {
  }

  lemma {:induction false} NoneFor(w: World, q: Node)
    requires Inv(w) && w.current == Some(q) && w.At(q).state != ACCEPTING
    ensures NoAccepts(w, {})
  {
    hide InvExcept;
    forall p | p in w.posted
      ensures w.BufAt(p.buf).operation != Operation.Accept
    {
      NoAcceptFor(w, q, p);
    }
  }

  lemma {:induction false} LateAccepts(w: World, i: nat)
    requires i < |w.posted| && w.BufAt(w.posted[i].buf).operation == Operation.Read
    ensures NoAccepts(w, {}) ==>
              NoAccepts(w.SetState(w.posted[i].key, ACCEPTING).Dequeue(i), {w.posted[i].buf})
  {
    var w' := w.SetState(w.posted[i].key, ACCEPTING).Dequeue(i);
    assert forall p :: p in w'.posted ==> p in w.posted;
    assert forall b :: w'.BufAt(b) == w.BufAt(b);
  }

  lemma {:induction false} LateFields(w: World, q: Node)
    requires w.sockets.Valid() && q in w.sockets.mem
    ensures var w' := w.SetState(q, ACCEPTING);
            && w'.At(q) == w.At(q).(state := ACCEPTING) && w'.posted == w.posted && w'.queue == w.queue
            && w'.current == w.current && w'.sockets.Valid() && w'.sockets.live == w.sockets.live
            && forall b :: w'.BufAt(b) == w.BufAt(b)
  {
  }
}
