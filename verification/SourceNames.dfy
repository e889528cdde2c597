/** The source's own map: exactly which steps leave a stored id naming something else than the live
    socket that carries it. */
module SourceNames {
  import opened SocketTypes
  import opened RecyclableList
  import opened TimeWait
  import opened Engine
  import opened EngineInvariant
  import opened EngineSteps
  import opened Teardown
  import opened Completions
  import opened EngineRuns
  import opened Continuity
  import opened Frames
  import opened Names
  import opened Limits
  import opened Forgetting

  // ---------- what the invariant says of ids ----------

  lemma {:induction false} IdsAt(w: World, f: set<Node>)
    requires InvExcept(w, f)
    ensures w.sockets.Valid() && w.nextId !in w.ids && NIL_UUID !in w.ids && NIL_UUID < w.nextId
    ensures forall x :: x in w.ids ==> NIL_UUID < x < w.nextId
    ensures forall r :: r in w.sockets.live ==> r in w.sockets.mem && NIL_UUID <= w.At(r).id < w.nextId
  {
    hide TallyOf;
  }

  /** The head of the queue rests, and the map names it under its id. */
  lemma {:induction false} HeadAt(w: World, f: set<Node>)
    requires InvExcept(w, f) && Aside(w, f) && !w.forgets && w.queue != []
    ensures HeadRests(w) && w.queue[0] !in f && (w.At(w.queue[0]).id != NIL_UUID ==> Registered(w, w.queue[0]))
  {
    hide TallyOf;
    assert w.queue[0] in w.queue;
    assert SockOk(w, w.queue[0]);
  }

  // ---------- connecting ----------

  /** A new socket that is still listed carries the id it was given, or none. */
  lemma {:induction false} NewOutcome(w: World, id: Uuid, os: ConnectOs)
    requires w.sockets.Valid() && !w.HeadAged()
    ensures var w' := w.ConnectToNewSocket(id, os).0;
            w.mgr != NOT_READY && w.kind == CLIENT ==>
              forall g :: g in Generated(w, os.createOk) && g in w'.sockets.live ==>
                w'.At(g).id in {NIL_UUID, if id == NIL_UUID then w.nextId else id}
  {
    if w.mgr != NOT_READY && w.kind == CLIENT && os.createOk {
      NewMade(w);
      hide World.GenerateSocket, World.HeadAged;
      var (w1, generated) := w.GenerateSocket(true, true);
      var g := generated.value;
      NewConnects(w1, g, id, os);
    }
  }

  lemma {:induction false} NewMade(w: World)
    requires w.sockets.Valid() && !w.HeadAged()
    ensures var (w', g) := w.GenerateSocket(true, true);
            && g.Some? && w'.sockets.Valid() && g.value in w'.sockets.live && g.value in w'.sockets.mem
            && w'.At(g.value).id == NIL_UUID && w'.At(g.value).state == INIT && w'.nextId == w.nextId
    ensures w.GenerateSocket(true, false).1.None?
  {
    CreateKeeps(w.sockets, NEW_SOCKET, AssignSocket);
  }

  /** The part of a connection attempt that follows its new socket. */
  lemma {:induction false} NewConnects(w: World, g: Node, id: Uuid, os: ConnectOs)
    requires w.sockets.Valid() && g in w.sockets.live && g in w.sockets.mem && w.At(g).id == NIL_UUID
    requires w.At(g).state == INIT
    ensures var (w2, go) := w.PrepareSocket(g, os.associateOk, os.bind);
            var w3 := w2.CreateBuffer(Operation.Connect);
            var w4 := w3.Post(w2.buffers.Slot(), g, Operation.Connect).Do(Publish(g)).AddSocketToMap(g, id);
            && (!go && g in w2.sockets.live ==> w2.At(g).id == NIL_UUID)
            && (go ==> g !in w2.DeleteSocket(g, NEVER_CONNECTED).sockets.live)
            && (go ==> g !in w3.DeleteSocket(g, NEVER_CONNECTED).sockets.live)
            && (go ==> w4.At(g).id == if id == NIL_UUID then w.nextId else id)
  {
    hide World.DeleteSocket, World.AddSocketToMap;
    DeleteRemoves(w, g);
    var w1 := w.SetState(g, ASSOCIATED);
    SetStateOnly(w, g, ASSOCIATED);
    DeleteRemoves(w1, g);
    var w2 := w1.SetState(g, BOUND);
    SetStateOnly(w1, g, BOUND);
    DeleteRemoves(w2, g);
    var w3 := w2.CreateBuffer(Operation.Connect);
    assert w3.sockets == w2.sockets;
    DeleteRemoves(w3, g);
    AddIdOnly(w3.Post(w2.buffers.Slot(), g, Operation.Connect).Do(Publish(g)), g, id);
  }

  /** A connection attempt is about to take the head of the queue. */
  ghost predicate TakesHead(w: World) { w.mgr != NOT_READY && w.kind == CLIENT && w.HeadAged() }

  /** The socket the id names is taken from the queue. */
  ghost predicate Taken(w: World, x: Uuid)
    requires x in w.ids
  {
    TakesHead(w) && w.ids[x] == w.queue[0]
  }

  /** What a connection attempt does to the ids of others. */
  lemma {:induction false} OthersResolve(w: World, w': World, g: set<Node>, j: Uuid, x: Uuid)
    requires Only(w, w', g) && x in w.ids && x != j && x != NIL_UUID
    requires w'.ids == w.ids || exists q :: q in g && w'.ids == w.ids[j := q]
    requires forall q :: q in g && q in w'.sockets.live ==> w'.At(q).id in {NIL_UUID, j}
    ensures x in w'.ids && w'.ids[x] == w.ids[x]
    ensures Resolves(w', x) <==> Resolves(w, x) && w.ids[x] !in g
  {
  }

  lemma {:induction false} ConnectIds(w: World, id: Uuid, os: ConnectOs, f: set<Node>)
    requires InvExcept(w, f) && Aside(w, f) && !w.forgets && w.mgr != NOT_READY && w.kind == CLIENT
    ensures var w' := w.ConnectToNewSocket(id, os).0;
            forall q :: q in Generated(w, os.createOk) && q in w'.sockets.live ==>
              w'.At(q).id in {NIL_UUID, if id == NIL_UUID then w.nextId else id}
  {
    hide *;
    IdsAt(w, f);
    if w.HeadAged() {
      HeadInQueue(w);
      HeadAt(w, f);
      HeadOnly(w, os.createOk);
      HeadMeans(w);
      ReusedOutcome(w, id, os);
    } else {
      NewOutcome(w, id, os);
    }
  }

  lemma {:induction false} HeadMeans(w: World)
    requires w.queue != [] && HeadRests(w)
    ensures w.queue[0] in w.sockets.live && w.queue[0] in w.sockets.mem && w.At(w.queue[0]).state == DISCONNECTED
  {
  }

  lemma {:induction false} HeadOnly(w: World, createOk: bool)
    requires w.sockets.Valid() && w.HeadAged()
    ensures w.queue != [] && Generated(w, createOk) == {w.queue[0]}
  {
    HeadInQueue(w);
    GeneratedIs(w, createOk);
  }

  /** After a connection attempt an id of before names its own socket exactly if it did and its socket was
      not taken from the queue; the id of the call itself aside. */
  lemma {:induction false} ConnectResolves(w: World, id: Uuid, os: ConnectOs, f: set<Node>, x: Uuid)
    requires InvExcept(w, f) && Aside(w, f) && !w.forgets && x in w.ids && x != id
    ensures var w' := w.ConnectToNewSocket(id, os).0;
            && x in w'.ids && w'.ids[x] == w.ids[x] && (Resolves(w', x) <==> Resolves(w, x) && !Taken(w, x))
  {
    hide *;
    if w.mgr != NOT_READY && w.kind == CLIENT {
      IdsAt(w, f);
      ConnectOnly(w, id, os);
      ConnectIds(w, id, os, f);
      OthersResolve(w, w.ConnectToNewSocket(id, os).0, Generated(w, os.createOk),
        if id == NIL_UUID then w.nextId else id, x);
      TakenIs(w, os.createOk, x);
    } else {
      NotReady(w, id, os, x);
    }
  }

  lemma {:induction false} TakenIs(w: World, createOk: bool, x: Uuid)
    requires w.sockets.Valid() && x in w.ids && w.mgr != NOT_READY && w.kind == CLIENT
    ensures Resolves(w, x) ==> (Taken(w, x) <==> w.ids[x] in Generated(w, createOk))
  {
    hide World.HeadAged, Generated;
    if w.HeadAged() {
      HeadOnly(w, createOk);
    } else {
      GeneratedIs(w, createOk);
    }
  }

  lemma {:induction false} NotReady(w: World, id: Uuid, os: ConnectOs, x: Uuid)
    requires x in w.ids && !(w.mgr != NOT_READY && w.kind == CLIENT)
    ensures w.ConnectToNewSocket(id, os).0 == w && !Taken(w, x)
  {
  }

  /** The source's connection attempt takes a socket with an id from the queue. */
  ghost predicate ConnectBreaks(w: World) { w.mgr != NOT_READY && w.kind == CLIENT && TakesNamed(w) }

  /** A connection attempt under a new id leaves every stored id right if and only if all were and the
      socket it takes, if it takes one from the queue, has no id. */
  lemma {:induction false} ConnectFaithIff(w: World, os: ConnectOs, f: set<Node>)
    requires InvExcept(w, f) && Aside(w, f) && !w.forgets
    ensures Faithful(w.ConnectToNewSocket(NIL_UUID, os).0) <==> Faithful(w) && !ConnectBreaks(w)
  {
    hide *;
    var (w', i) := w.ConnectToNewSocket(NIL_UUID, os);
    IdsAt(w, f);
    ConnectKeeps(w, NIL_UUID, os, f);
    NewIdResolves(w, w', i, f);
    forall x | x in w.ids
      ensures x in w'.ids && (Resolves(w', x) <==> Resolves(w, x) && !Taken(w, x))
    {
      ConnectResolves(w, NIL_UUID, os, f, x);
    }
    if TakesHead(w) {
      TakesHeadHas(w);
      HeadAt(w, f);
    }
    ConnectFaithFrom(w, w');
  }

  lemma {:induction false} TakesHeadHas(w: World)
    requires TakesHead(w)
    ensures w.queue != []
  {
  }

  lemma {:induction false} NewIdResolves(w: World, w': World, i: Uuid, f: set<Node>)
    requires ConnectDone(w, w', NIL_UUID, i, f)
    ensures forall x :: x in w'.ids && x !in w.ids ==> Resolves(w', x)
  {
    hide TallyOf;
  }

  lemma {:induction false} ConnectFaithFrom(w: World, w': World)
    requires forall x :: x in w'.ids && x !in w.ids ==> Resolves(w', x)
    requires forall x :: x in w.ids ==> x in w'.ids && (Resolves(w', x) <==> Resolves(w, x) && !Taken(w, x))
    requires TakesHead(w) ==> w.queue != [] && (w.At(w.queue[0]).id != NIL_UUID ==> Registered(w, w.queue[0]))
    requires NIL_UUID !in w.ids
    ensures Faithful(w') <==> Faithful(w) && !ConnectBreaks(w)
  {
    hide World.HeadAged;
    if ConnectBreaks(w) {
      assert Taken(w, w.At(w.queue[0]).id);
    } else {
      assert forall x :: x in w.ids && Resolves(w, x) ==> !Taken(w, x);
    }
  }

  // ---------- operations that leave every id alone ----------

  /** The map, the list and the sockets' ids are the same. */
  ghost predicate SameNames(w: World, w': World) {
    && w'.ids == w.ids
    && forall q :: (q in w'.sockets.live <==> q in w.sockets.live) && w'.At(q).id == w.At(q).id
  }

  lemma {:induction false} SameFaith(w: World, w': World)
    requires SameNames(w, w')
    ensures Faithful(w') <==> Faithful(w)
    ensures forall x :: Resolves(w', x) <==> Resolves(w, x)
  {
    assert forall x :: Resolves(w', x) <==> Resolves(w, x);
  }

  lemma {:induction false} SameTwice(w: World, w': World, w'': World)
    requires SameNames(w, w') && SameNames(w', w'')
    ensures SameNames(w, w'')
  {
  }

  lemma {:induction false} OnlyFailsSame(w: World, w': World)
    requires OnlyFails(w, w')
    ensures SameNames(w, w')
  {
  }

  lemma {:induction false} BuffersSame(w: World, w': World)
    requires w'.sockets == w.sockets && w'.ids == w.ids
    ensures SameNames(w, w')
  {
  }

  lemma {:induction false} PutSame(w: World, r: Node, s: Socket)
    requires s.id == w.At(r).id
    ensures SameNames(w, w.Put(r, s))
  {
  }

  lemma {:induction false} ChangeSame(w: World, r: Node, st: SocketState)
    ensures SameNames(w, w.ChangeSocketState(r, st)) && SameNames(w, w.SetState(r, st))
  {
    hide SameNames;
    PutSame(w, r, w.At(r).(state := st));
    BuffersSame(w.SetState(r, st), w.ChangeSocketState(r, st));
    SameTwice(w, w.SetState(r, st), w.ChangeSocketState(r, st));
  }

  // ---------- one socket changed ----------

  /** A change of a socket that the id does not name, before or after. */
  lemma {:induction false} OtherChanged(w: World, w': World, g: Node, x: Uuid)
    requires Only(w, w', {g}) && x in w.ids && x in w'.ids && w'.ids[x] == w.ids[x]
    requires g in w.sockets.live ==> w.At(g).id != x
    requires g in w'.sockets.live ==> w'.At(g).id != x
    ensures Resolves(w', x) <==> Resolves(w, x)
  {
  }

  // ---------- accepting ----------

  /** The head of the queue is taken for an accept the system refuses. */
  ghost predicate LosesHead(w: World, os: AcceptOs) { w.HeadAged() && !(os.associateOk && os.acceptOk) }

  /** A new socket that is accepted has no id yet. */
  lemma {:induction false} NewAccepts(w: World, listener: Node, os: AcceptOs)
    requires w.sockets.Valid() && !w.HeadAged()
    ensures var w' := w.AcceptNewSocket(listener, os).0;
            forall g :: g in Generated(w, os.createOk) && g in w'.sockets.live ==> w'.At(g).id == NIL_UUID
  {
    if os.createOk {
      NewMade(w);
      hide World.GenerateSocket, World.HeadAged, World.DeleteSocket;
      var (w1, generated) := w.GenerateSocket(true, true);
      var g := generated.value;
      DeleteRemoves(w1, g);
      var w2 := w1.SetState(g, ASSOCIATED);
      SetStateOnly(w1, g, ASSOCIATED);
      var w3 := w2.(current := Some(g)).CreateBuffer(Operation.Accept);
      DeleteRemoves(w3, g);
    } else {
      NewMade(w);
    }
  }

  /** Issuing an accept changes no id, and takes its socket away from one only when the system refuses a
      socket taken from the queue. */
  lemma {:induction false} AcceptResolves(w: World, listener: Node, os: AcceptOs, x: Uuid)
    requires w.sockets.Valid() && x in w.ids && x != NIL_UUID && (w.queue != [] ==> HeadRests(w))
    ensures var w' := w.AcceptNewSocket(listener, os).0;
            && w'.ids == w.ids
            && (Resolves(w', x) <==> Resolves(w, x) && !(LosesHead(w, os) && w.ids[x] == w.queue[0]))
  {
    hide *;
    var w', g := w.AcceptNewSocket(listener, os).0, Generated(w, os.createOk);
    AcceptOnly(w, listener, os);
    if w.HeadAged() {
      HeadInQueue(w);
      HeadMeans(w);
      HeadOnly(w, os.createOk);
      ReusedAccepts(w, listener, os);
      HeadResolves(w, w', os, x);
    } else {
      GeneratedIs(w, os.createOk);
      NewAccepts(w, listener, os);
      NewResolves(w, w', g, x);
      NothingLost(w, os);
    }
  }

  lemma {:induction false} NothingLost(w: World, os: AcceptOs)
    requires !w.HeadAged()
    ensures !LosesHead(w, os)
  {
  }

  lemma {:induction false} HeadResolves(w: World, w': World, os: AcceptOs, x: Uuid)
    requires w.HeadAged() && w.queue != [] && HeadRests(w) && Only(w, w', {w.queue[0]}) && x in w.ids && w'.ids == w.ids
    requires w.queue[0] in w'.sockets.live <==> os.associateOk && os.acceptOk
    requires os.associateOk && os.acceptOk ==> w'.At(w.queue[0]).id == w.At(w.queue[0]).id
    ensures Resolves(w', x) <==> Resolves(w, x) && !(LosesHead(w, os) && w.ids[x] == w.queue[0])
  {
    hide World.HeadAged;
  }

  lemma {:induction false} NewResolves(w: World, w': World, g: set<Node>, x: Uuid)
    requires Only(w, w', g) && x in w.ids && w'.ids == w.ids && x != NIL_UUID
    requires forall q :: q in g ==> q !in w.sockets.live
    requires forall q :: q in g && q in w'.sockets.live ==> w'.At(q).id == NIL_UUID
    ensures Resolves(w', x) <==> Resolves(w, x)
  {
  }

  // ---------- listening ----------

  /** The state in which a listening socket issues its first accept. */
  function Listener(w: World): World {
    var (w1, g) := w.GenerateSocket(false, true);
    var r := w.sockets.Slot();
    w1.SetState(r, ASSOCIATED).SetState(r, BOUND).SetState(r, LISTENING)
  }

  /** A socket of the calling thread's own: it was not listed before and has no id. */
  ghost predicate Newcomer(w: World, w': World, g: Node) {
    && Only(w, w', {g}) && g !in w.sockets.live && g in w'.sockets.live && g in w'.sockets.mem
    && w'.At(g).id == NIL_UUID && w'.At(g).state !in {CONNECTED, FAILURE}
    && w'.ids == w.ids && w'.nextId == w.nextId && w'.queue == w.queue && w'.clock == w.clock
  }

  lemma {:induction false} NewcomerSet(w: World, w': World, g: Node, st: SocketState)
    requires Newcomer(w, w', g) && st !in {CONNECTED, FAILURE}
    ensures Newcomer(w, w'.SetState(g, st), g)
  {
    SetStateOnly(w', g, st);
    OnlyAgain(w, w', w'.SetState(g, st), {g});
    hide Only;
  }

  lemma {:induction false} NewcomerMade(w: World)
    requires w.sockets.Valid()
    ensures w.GenerateSocket(false, true).1 == Some(w.sockets.Slot())
    ensures Newcomer(w, w.GenerateSocket(false, true).0, w.sockets.Slot())
    ensures w.GenerateSocket(false, false) == (w, None)
  {
    GenerateOnly(w, false, true);
    CreateKeeps(w.sockets, NEW_SOCKET, AssignSocket);
    hide Only;
  }

  /** Where nothing has happened but to a socket of the thread's own, ids mean what they meant, also
      after that socket is deleted again. */
  lemma {:induction false} NewcomerNames(w: World, w': World, g: Node, x: Uuid)
    requires Newcomer(w, w', g) && x in w.ids && x != NIL_UUID
    ensures w'.DeleteSocket(g, NEVER_CONNECTED).ids == w.ids
    ensures Resolves(w', x) <==> Resolves(w, x)
    ensures Resolves(w'.DeleteSocket(g, NEVER_CONNECTED), x) <==> Resolves(w, x)
  {
    OnlyValid(w, w', {g});
    DeleteStays(w, w', g);
    DeleteRemoves(w', g);
    hide World.DeleteSocket, Only;
    OtherChanged(w, w', g, x);
    OtherChanged(w, w'.DeleteSocket(g, NEVER_CONNECTED), g, x);
  }

  /** Whether listening reaches its first accept. */
  predicate ReachesAccept(w: World, os: ListenOs) {
    && w.mgr == READY && w.kind == SERVER && os.createOk && os.htonsOk && os.associateOk && os.bind.Bound? &&
        os.listenOk
  }

  /** Listening that stops before its first accept. */
  lemma {:induction false} ListenStops(w: World, os: ListenOs, x: Uuid)
    requires w.sockets.Valid() && x in w.ids && x != NIL_UUID && !ReachesAccept(w, os)
    ensures var w' := w.ListenToNewSocket(os).0; w'.ids == w.ids && (Resolves(w', x) <==> Resolves(w, x))
  {
    hide World.GenerateSocket, World.DeleteSocket, World.SetState, Newcomer;
    if w.mgr == READY && w.kind == SERVER {
      NewcomerMade(w);
      var r := w.sockets.Slot();
      var w1 := w.GenerateSocket(false, true).0;
      NewcomerNames(w, w1, r, x);
      NewcomerSet(w, w1, r, ASSOCIATED);
      var w2 := w1.SetState(r, ASSOCIATED);
      NewcomerNames(w, w2, r, x);
      NewcomerIds(w, w2, r);
      NewcomerSet(w, w2, r, BOUND);
      NewcomerNames(w, w2.SetState(r, BOUND), r, x);
    }
  }

  lemma {:induction false} NewcomerIds(w: World, w': World, g: Node)
    requires Newcomer(w, w', g)
    ensures w'.ids == w.ids && w'.nextId == w.nextId && w'.queue == w.queue && w'.sockets.Valid()
  {
    hide TallyOf;
  }

  lemma {:induction false} ListenerIs(w: World)
    requires w.sockets.Valid()
    ensures Newcomer(w, Listener(w), w.sockets.Slot())
  {
    hide World.GenerateSocket, World.SetState, Newcomer;
    var r := w.sockets.Slot();
    var w1 := w.GenerateSocket(false, true).0;
    NewcomerMade(w);
    NewcomerSet(w, w1, r, ASSOCIATED);
    NewcomerSet(w, w1.SetState(r, ASSOCIATED), r, BOUND);
    NewcomerSet(w, w1.SetState(r, ASSOCIATED).SetState(r, BOUND), r, LISTENING);
  }

  lemma {:induction false} ListenIs(w: World, os: ListenOs)
    requires w.sockets.Valid() && ReachesAccept(w, os)
    ensures var r := w.sockets.Slot();
            var (w1, accepting) := Listener(w).AcceptNewSocket(r, os.accept);
            w.ListenToNewSocket(os).0 == if accepting then w1.AddSocketToMap(r, NIL_UUID).(mgr := SERVER_LISTENING)
                                         else w1.DeleteSocket(r, NEVER_CONNECTED)
  {
    NewcomerMade(w);
    hide World.GenerateSocket, World.DeleteSocket, World.SetState, World.AcceptNewSocket, World.AddSocketToMap;
  }

  /** The queue a listening socket's first accept meets is the one the call met. */
  lemma {:induction false} ListenerHead(w: World, os: AcceptOs)
    requires Newcomer(w, Listener(w), w.sockets.Slot()) && (w.queue != [] ==> HeadRests(w))
    ensures var w' := Listener(w);
            w'.queue == w.queue && (w'.queue != [] ==> HeadRests(w')) && (LosesHead(w', os) <==> LosesHead(w, os))
  {
    hide Listener;
    if w.queue != [] {
      InMemory(w, Listener(w), w.queue[0]);
    }
  }

  lemma {:induction false} InMemory(w: World, w': World, q: Node)
    requires w'.sockets.Valid() && q in w'.sockets.live
    ensures q in w'.sockets.mem
  {
  }

  /** The end of a call to listen: the newcomer is registered, or deleted. */
  lemma {:induction false} ListenEnds(w: World, r: Node, accepting: bool, x: Uuid)
    requires w.sockets.Valid() && r in w.sockets.live && r in w.sockets.mem && w.At(r).id == NIL_UUID
    requires w.At(r).state == LISTENING && x in w.ids && x != NIL_UUID && w.nextId !in w.ids
    ensures var w' := if accepting then w.AddSocketToMap(r, NIL_UUID).(mgr := SERVER_LISTENING)
                      else w.DeleteSocket(r, NEVER_CONNECTED);
            x in w'.ids && (Resolves(w', x) <==> Resolves(w, x))
  {
    if accepting {
      var w1 := w.AddSocketToMap(r, NIL_UUID);
      AddIdOnly(w, r, NIL_UUID);
      hide World.AddSocketToMap;
      OtherChanged(w, w1, r, x);
      assert Resolves(w1.(mgr := SERVER_LISTENING), x) <==> Resolves(w1, x);
    } else {
      SameSockets(w, w, {r});
      DeleteStays(w, w, r);
      DeleteRemoves(w, r);
      hide World.DeleteSocket;
      OtherChanged(w, w.DeleteSocket(r, NEVER_CONNECTED), r, x);
    }
  }

  /** The listening socket is still its thread's own after its first accept. */
  lemma {:induction false} ListenerStays(w: World, os: AcceptOs)
    requires Newcomer(w, Listener(w), w.sockets.Slot()) && (w.queue != [] ==> HeadRests(w)) && w.nextId !in w.ids
    ensures var r := w.sockets.Slot();
            var w1 := Listener(w).AcceptNewSocket(r, os).0;
            && w1.sockets.Valid() && r in w1.sockets.live && r in w1.sockets.mem && w1.At(r).id == NIL_UUID
            && w1.At(r).state == LISTENING && w1.nextId !in w1.ids
  {
    var r, w0 := w.sockets.Slot(), Listener(w);
    ListenerState(w);
    hide Listener, World.AcceptNewSocket, World.HeadAged, Generated;
    AcceptOnly(w0, r, os);
    ListenerHead(w, os);
    GeneratedIs(w0, os.createOk);
    if w0.HeadAged() {
      HeadInQueue(w0);
    }
    AcceptNext(w0, r, os);
    InMemory(w, w0.AcceptNewSocket(r, os).0, r);
  }

  lemma {:induction false} ListenerState(w: World)
    requires Newcomer(w, Listener(w), w.sockets.Slot())
    ensures Listener(w).At(w.sockets.Slot()).state == LISTENING
  {
    hide World.GenerateSocket;
  }

  lemma {:induction false} AcceptNext(w: World, listener: Node, os: AcceptOs)
    ensures w.AcceptNewSocket(listener, os).0.nextId == w.nextId
  {
    hide World.DeleteSocket;
    var (w1, g) := w.GenerateSocket(true, os.createOk);
    GenerateSame(w, true, os.createOk);
    if g.Some? {
      var r := g.value;
      DeleteRest(w1, r, NEVER_CONNECTED);
      DeleteRest(w1.SetState(r, ASSOCIATED).(current := Some(r)).CreateBuffer(Operation.Accept), r, NEVER_CONNECTED);
    }
  }

  /** Listening changes no id of before, and takes its socket away from one only when its first accept
      is refused on a socket taken from the queue. */
  lemma {:induction false} ListenResolves(w: World, os: ListenOs, x: Uuid)
    requires w.sockets.Valid() && x in w.ids && x != NIL_UUID && w.nextId !in w.ids && (w.queue != [] ==> HeadRests(w))
    ensures var w' := w.ListenToNewSocket(os).0;
            && x in w'.ids
            && (Resolves(w', x) <==>
                Resolves(w, x) && !(ReachesAccept(w, os) && LosesHead(w, os.accept) && w.ids[x] == w.queue[0]))
  {
    hide *;
    if ReachesAccept(w, os) {
      var r := w.sockets.Slot();
      ListenerIs(w);
      ListenIs(w, os);
      ListenerHead(w, os.accept);
      NewcomerIds(w, Listener(w), r);
      NewcomerNames(w, Listener(w), r, x);
      AcceptResolves(Listener(w), r, os.accept, x);
      ListenerStays(w, os.accept);
      ListenEnds(Listener(w).AcceptNewSocket(r, os.accept).0, r, Listener(w).AcceptNewSocket(r, os.accept).1, x);
    } else {
      ListenStops(w, os, x);
    }
  }

  /** Listening loses a socket with an id to its first accept. */
  ghost predicate ListenBreaks(w: World, os: ListenOs) { ReachesAccept(w, os) && RefusesNamed(w, os.accept) }

  /** Listening leaves every stored id right if and only if all were and its first accept, if it gets that
      far, is not refused on a socket with an id from the queue. */
  lemma {:induction false} ListenFaithIff(w: World, os: ListenOs, f: set<Node>)
    requires InvExcept(w, f) && Aside(w, f) && !w.forgets && (w.mgr == READY ==> NoAccept(w))
    ensures Faithful(w.ListenToNewSocket(os).0) <==> Faithful(w) && !ListenBreaks(w, os)
  {
    hide *;
    var w' := w.ListenToNewSocket(os).0;
    IdsAt(w, f);
    ListenKeeps(w, os, f);
    ListenerResolves(w, w');
    HeadOwned(w, f);
    LosesHas(w, os.accept);
    forall x | x in w.ids
      ensures x in w'.ids && (Resolves(w', x) <==>
          Resolves(w, x) && !(ReachesAccept(w, os) && LosesHead(w, os.accept) && w.ids[x] == w.queue[0]))
    {
      ListenResolves(w, os, x);
    }
    LosesFaith(w, w', ReachesAccept(w, os), os.accept);
    ListenBreaksIs(w, os);
  }

  lemma {:induction false} LosesHas(w: World, os: AcceptOs)
    ensures LosesHead(w, os) ==> w.queue != []
  {
  }

  lemma {:induction false} ListenBreaksIs(w: World, os: ListenOs)
    ensures ListenBreaks(w, os) <==> ReachesAccept(w, os) && RefusesNamed(w, os.accept)
  {
  }

  lemma {:induction false} HeadOwned(w: World, f: set<Node>)
    requires InvExcept(w, f) && Aside(w, f) && !w.forgets
    ensures w.queue != [] ==> HeadRests(w) && (w.At(w.queue[0]).id != NIL_UUID ==> Registered(w, w.queue[0]))
  {
    hide *;
    if w.queue != [] {
      HeadAt(w, f);
    }
  }

  lemma {:induction false} ListenerResolves(w: World, w': World)
    requires ListenIds(w, w')
    ensures forall x :: x in w'.ids && x !in w.ids ==> Resolves(w', x)
  {
  }

  /** All stored ids are right after an accept was issued if and only if they were and it has not lost a
      socket with an id. */
  lemma {:induction false} LosesFaith(w: World, w': World, reached: bool, os: AcceptOs)
    requires forall x :: x in w'.ids && x !in w.ids ==> Resolves(w', x)
    requires forall x :: x in w.ids ==>
        x in w'.ids && (Resolves(w', x) <==> Resolves(w, x) && !(reached && LosesHead(w, os) && w.ids[x] == w.queue[0]))
    requires w.queue != [] ==> (w.At(w.queue[0]).id != NIL_UUID ==> Registered(w, w.queue[0]))
    requires NIL_UUID !in w.ids
    ensures Faithful(w') <==> Faithful(w) && !(reached && RefusesNamed(w, os))
  {
    hide World.HeadAged;
    if w.HeadAged() {
      HeadInQueue(w);
      if reached && RefusesNamed(w, os) {
        assert w.At(w.queue[0]).id in w.ids;
      }
    }
  }

  // ---------- calls ----------

  /** The call takes a socket away from the id that names it. */
  ghost predicate CallBreaks(w: World, c: UserCall) {
    match c
    case ConnectNew(_) => ConnectBreaks(w)
    case ListenNew(os) => ListenBreaks(w, os)
    case _ => false
  }

  lemma {:induction false} SendFaith(w: World, r: Node, length: nat, failAt: nat)
    ensures Faithful(w.SendData(r, length, failAt)) <==> Faithful(w)
  {
    hide OnlyFails, Faithful, SameNames, World.SendChunks;
    SendOnlyFails(w, r, length, failAt);
    OnlyFailsSame(w, w.SendChunks(r, length, failAt));
    SameFaith(w, w.SendChunks(r, length, failAt));
  }

  lemma {:induction false} SectionFaith(w: World, l: Lock)
    ensures Faithful(w.Section(l)) <==> Faithful(w)
    ensures Faithful(w.Fault()) <==> Faithful(w)
  {
    hide Faithful, SameNames;
    BuffersSame(w, w.Section(l));
    SameFaith(w, w.Section(l));
    BuffersSame(w, w.Fault());
    SameFaith(w, w.Fault());
  }

  lemma {:induction false} SendAllFaith(w: World, length: nat, failAts: map<Node, nat>)
    ensures Faithful(w.SendDataToAll(w.sockets.live, length, failAts)) <==> Faithful(w)
  {
    hide OnlyFails, Faithful, SameNames, World.SendDataToAll;
    var w' := w.SendDataToAll(w.sockets.live, length, failAts);
    SendAllOnlyFails(w, w.sockets.live, length, failAts);
    OnlyFailsSame(w, w');
    SameFaith(w, w');
  }

  /** Every stored id is right after a call, from outside or from a callback, if and only if all were
      and the call takes no named socket away. */
  lemma {:induction false} UserCallFaithIff(w: World, own: Option<Node>, c: UserCall)
    requires During(w, own) && !w.forgets
    ensures Faithful(w.UserCalls(own, c)) <==> Faithful(w) && !CallBreaks(w, c)
  {
    hide During, InvExcept, Faithful, ConnectBreaks, ListenBreaks, NoAccept, Aside, World.SendData, World.SendDataToAll;
    hide World.ConnectToNewSocket, World.ListenToNewSocket, World.ChangeSocketState;
    match c {
      case SendTo(id, data, failAt) =>
        var w1 := w.Section(MapLock);
        SectionFaith(w, MapLock);
        SectionFaith(w1, MapLock);
        if id in w.ids {
          SendFaith(w1, w.ids[id], |data|, failAt);
        }
      case SendToAll(data, failAts) => SendAllFaith(w, |data|, failAts);
      case ConnectNew(os) =>
        DuringInv(w, own);
        OwnerAside(w, own);
        ConnectFaithIff(w, os, Owner(own));
      case ListenNew(os) =>
        DuringInv(w, own);
        OwnerAside(w, own);
        if w.mgr == READY {
          ReadyMeansNoAccept(w, own);
        }
        ListenFaithIff(w, os, Owner(own));
      case OwnSend(data, failAt) =>
        if own.Some? {
          SendFaith(w, own.value, |data|, failAt);
        }
      case OwnClose =>
        if own.Some? {
          ChangeFaith(w, own.value, CLOSING);
        }
    }
  }

  lemma {:induction false} DuringInv(w: World, own: Option<Node>)
    requires During(w, own)
    ensures InvExcept(w, Owner(own))
  {
  }

  lemma {:induction false} ChangeFaith(w: World, r: Node, st: SocketState)
    ensures Faithful(w.ChangeSocketState(r, st)) <==> Faithful(w)
  {
    hide Faithful, SameNames, World.ChangeSocketState;
    ChangeSame(w, r, st);
    SameFaith(w, w.ChangeSocketState(r, st));
  }

  /** Some call of a callback takes a socket away from the id that names it. */
  ghost predicate CallsBreak(w: World, own: Node, cs: seq<UserCall>)
    decreases |cs|
  {
    cs != [] && (CallBreaks(w, cs[0]) || CallsBreak(w.UserCalls(Some(own), cs[0]), own, cs[1..]))
  }

  lemma {:induction false} ReceiveFaithIff(w: World, own: Node, cs: seq<UserCall>)
    requires During(w, Some(own)) && SafeCalls(w, own, cs) && !w.forgets
    ensures Faithful(w.ReceiveData(own, cs)) <==> Faithful(w) && !CallsBreak(w, own, cs)
    decreases |cs|
  {
    hide During, Faithful, CallBreaks, SafeCall, Evolves, World.UserCalls;
    if cs != [] {
      var w1 := w.UserCalls(Some(own), cs[0]);
      UserCallFaithIff(w, Some(own), cs[0]);
      UserCallKeeps(w, Some(own), cs[0]);
      EvolvesFlag(w, w1);
      ReceiveFaithIff(w1, own, cs[1..]);
    }
  }

  // ---------- teardown ----------

  /** The map names the socket under its id, if it has one. */
  ghost predicate Owned(w: World, r: Node) {
    r in w.sockets.live && NIL_UUID !in w.ids && (w.At(r).id != NIL_UUID ==> Registered(w, r))
  }

  /** A teardown that erases its socket's id, or keeps its socket, leaves every other id as right as it was. */
  lemma {:induction false} TornFaithIff(w: World, w': World, r: Node, os: TeardownOs, e: Ending)
    requires w.sockets.Valid() && !w.forgets && Owned(w, r) && Ended(w, w', r, os, e) && e !in {Stranded, Replaced}
    ensures Faithful(w') <==> Faithful(w)
  {
    match e {
      case Gone =>
        var l := w.sockets.Write(r, ClosedSocket(w.At(r), Forced(w.At(r).state, w.ShouldReuse()), os));
        assert l.Valid();
        EraseKeeps(l, r);
        LessOne(w, w', r);
      case Unlisted => LessOne(w, w', r);
      case _ =>
        var s := w.At(r).(state := DISCONNECTING);
        WriteSame(w, w', r, s);
        SameFaith(w, w');
    }
  }

  lemma {:induction false} WriteSame(w: World, w': World, r: Node, s: Socket)
    requires w.sockets.Valid() && r in w.sockets.live && w'.sockets == w.sockets.Write(r, s) && w'.ids == w.ids
    requires s.id == w.At(r).id
    ensures SameNames(w, w')
  {
  }

  lemma {:induction false} LessOne(w: World, w': World, r: Node)
    requires Owned(w, r) && w'.ids == w.ids - {w.At(r).id}
    requires forall q :: q != r ==> (q in w'.sockets.live <==> q in w.sockets.live) && w'.At(q) == w.At(q)
    requires r in w'.sockets.live ==> w'.At(r) == w.At(r)
    ensures Faithful(w') <==> Faithful(w)
  {
    var id := w.At(r).id;
    if Faithful(w') {
      forall x | x in w.ids
        ensures Resolves(w, x)
      {
        assert x != id ==> Resolves(w', x);
      }
    }
    if Faithful(w) {
      forall x | x in w'.ids
        ensures Resolves(w', x)
      {
        assert Resolves(w, x);
      }
    }
  }

  lemma {:induction false} SettledOwned(w: World, r: Node)
    requires InvExcept(w, {r}) && Settled(w, r) && !w.forgets && w.At(r).state != RETRY_CONNECTION
    ensures w.sockets.Valid() && Owned(w, r)
  {
    hide TallyOf;
  }

  lemma {:induction false} TeardownFaithIff(w: World, r: Node, os: TeardownOs)
    requires InvExcept(w, {r}) && Settled(w, r) && !w.forgets && w.At(r).state != RETRY_CONNECTION && Ends(os)
    ensures Faithful(w.DeleteOrDisconnect(r, os)) <==> Faithful(w)
  {
    hide InvExcept, TallyOf, Faithful, Owned, Ended, Settled, World.DeleteOrDisconnect;
    SettledFacts(w, r);
    SettledOwned(w, r);
    TeardownContract(w, r, os);
    TornFaithIff(w, w.DeleteOrDisconnect(r, os), r, os, Verdict(w.At(r).state, w.ShouldReuse(), os));
  }

  /** The check that ends a completion leaves every stored id as right as it was. */
  lemma {:induction false} CleanupFaithIff(w: World, r: Node, k: nat, os: TeardownOs)
    requires !w.forgets && Handled(w, r, k) && Ends(os)
    ensures Faithful(w.CleanupIfLast(r, os)) <==> Faithful(w)
  {
    hide InvExcept, TallyOf, Faithful, Settled, World.DeleteOrDisconnect, Open;
    var w1 := w.Section(SockLock(r));
    SectionFaith(w, SockLock(r));
    if w.At(r).Idle() && w.At(r).state.Rank() > CONNECTED.Rank() {
      LogKeeps(w, w1, {r});
      OpenLog(w, w1, r, k);
      OpenFacts(w1, r, k);
      OpenSettled(w1, r, k);
      SettledFacts(w1, r);
      TeardownFaithIff(w1, r, os);
    }
  }

  /** Where the socket is not past CONNECTED the check does nothing. */
  lemma {:induction false} NoCleanupFaith(w: World, r: Node, os: TeardownOs)
    requires w.At(r).state.Rank() <= CONNECTED.Rank()
    ensures Faithful(w.CleanupIfLast(r, os)) <==> Faithful(w)
  {
    hide Faithful, World.DeleteOrDisconnect;
    SectionFaith(w, SockLock(r));
  }

  // ---------- reads and writes ----------

  lemma {:induction false} AfterReceiveSame(w: World, r: Node, b: Node, ok: bool)
    ensures SameNames(w, w.AfterReceive(r, b, ok))
  {
    hide SameNames, OnlyFails, World.PostRecv, World.ChangeSocketState;
    var w1 := w.PutBuf(b, w.BufAt(b).(bufLen := DEFAULT_BUFFER_SIZE));
    BuffersSame(w, w1);
    if w1.At(r).state != CONNECTED {
      BuffersSame(w, w1.DeleteBuffer(b));
    } else {
      var w2 := w1.PostRecv(r, b, ok);
      PostOnlyFails(w1, r, b, ok);
      OnlyFailsSame(w1, w2);
      SameTwice(w, w1, w2);
      var w3 := w2.ChangeSocketState(r, FAILURE);
      ChangeSame(w2, r, FAILURE);
      SameTwice(w, w2, w3);
      var w4 := w3.Do(Leave(SockLock(r))).DeleteBuffer(b);
      BuffersSame(w3, w4);
      SameTwice(w, w3, w4);
    }
  }

  lemma {:induction false} DequeueSame(w: World, i: nat)
    requires i < |w.posted|
    ensures SameNames(w, w.Dequeue(i))
  {
  }

  lemma {:induction false} AccountSame(w: World, r: Node, s: Socket)
    requires s.id == w.At(r).id
    ensures SameNames(w, w.Put(r, s).Section(SockLock(r)))
  {
    hide SameNames;
    PutSame(w, r, s);
    BuffersSame(w.Put(r, s), w.Put(r, s).Section(SockLock(r)));
    SameTwice(w, w.Put(r, s), w.Put(r, s).Section(SockLock(r)));
  }

  lemma {:induction false} CallbackSame(w: World, i: nat, bytes: nat)
    requires i < |w.posted|
    ensures SameNames(w, CallbackState(w, i, bytes)) && CallbackState(w, i, bytes).forgets == w.forgets
  {
    hide SameNames, World.Put;
    var r, b, w0 := w.posted[i].key, w.posted[i].buf, w.Dequeue(i);
    DequeueSame(w, i);
    var w1 := w0.Put(r, w0.At(r).RecvDone()).Section(SockLock(r));
    AccountSame(w0, r, w0.At(r).RecvDone());
    PutFlag(w0, r, w0.At(r).RecvDone());
    SameTwice(w, w0, w1);
    BuffersSame(w1, CallbackState(w, i, bytes));
    SameTwice(w, w1, CallbackState(w, i, bytes));
  }

  lemma {:induction false} ReadFaithIff(w: World, i: nat, bytes: nat, os: IoOs)
    requires Inv(w) && !w.forgets && i < |w.posted| && w.posted[i].op == Operation.Read && bytes <= w.posted[i].len
    requires bytes > 0 ==> SafeCalls(CallbackState(w, i, bytes), w.posted[i].key, os.callback)
    ensures Faithful(w.Dequeue(i).HandleRead(w.posted[i].key, w.posted[i].buf, bytes, os.callback, os.recvOk)) <==>
            Faithful(w) && !(bytes > 0 && CallsBreak(CallbackState(w, i, bytes), w.posted[i].key, os.callback))
  {
    hide Inv, Faithful, During, SafeCalls, SameNames, CallsBreak, World.ReceiveData, World.AfterReceive, World.Put,
         World.ChangeSocketState;
    var r, b, w0 := w.posted[i].key, w.posted[i].buf, w.Dequeue(i);
    if bytes > 0 {
      var w2 := CallbackState(w, i, bytes);
      CallbackSame(w, i, bytes);
      SameFaith(w, w2);
      CallbackDuring(w, i, bytes);
      ReceiveFaithIff(w2, r, os.callback);
      var w3 := w2.ReceiveData(r, os.callback);
      AfterReceiveSame(w3, r, b, os.recvOk);
      SameFaith(w3, w3.AfterReceive(r, b, os.recvOk));
    } else {
      var w1 := w0.Put(r, w0.At(r).RecvDone()).Section(SockLock(r));
      DequeueSame(w, i);
      AccountSame(w0, r, w0.At(r).RecvDone());
      SameTwice(w, w0, w1);
      ClosedSame(w, w1, r, b, CLOSING);
    }
  }

  lemma {:induction false} ClosedSame(w: World, w1: World, r: Node, b: Node, st: SocketState)
    requires SameNames(w, w1)
    ensures Faithful(w1.ChangeSocketState(r, st).DeleteBuffer(b)) <==> Faithful(w)
  {
    hide SameNames, Faithful, World.ChangeSocketState;
    var w2 := w1.ChangeSocketState(r, st);
    ChangeSame(w1, r, st);
    SameTwice(w, w1, w2);
    BuffersSame(w2, w2.DeleteBuffer(b));
    SameTwice(w, w2, w2.DeleteBuffer(b));
    SameFaith(w, w2.DeleteBuffer(b));
  }

  lemma {:induction false} WriteFaithIff(w: World, r: Node, b: Node, bytes: nat)
    ensures Faithful(w.HandleWrite(r, b, bytes)) <==> Faithful(w)
  {
    hide SameNames, Faithful, World.Put, World.ChangeSocketState;
    var len := w.BufAt(b).bufLen;
    var w1 := w.Put(r, w.At(r).SendDone(len)).Section(SockLock(r));
    AccountSame(w, r, w.At(r).SendDone(len));
    ClosedSame(w, w1, r, b, FAILURE);
    BuffersSame(w1, w1.DeleteBuffer(b));
    SameTwice(w, w1, w1.DeleteBuffer(b));
    SameFaith(w, w1.DeleteBuffer(b));
  }

  lemma {:induction false} DisconnectSame(w: World, r: Node, b: Node)
    ensures SameNames(w, w.HandleDisconnect(r, b))
  {
    hide SameNames, World.Put;
    var s := w.At(r).(state := DISCONNECTED, timeWaitStartTime := Tick(w.clock));
    PutSame(w, r, s);
    BuffersSame(w.Put(r, s), w.HandleDisconnect(r, b));
    SameTwice(w, w.Put(r, s), w.HandleDisconnect(r, b));
  }

  // ---------- errors ----------

  /** The rest of an error, other than a retry. */
  lemma {:induction false} FinishFaithIff(w: World, r: Node, b: Node, os: TeardownOs)
    requires InvExcept(w, {r}) && !w.forgets && Ends(os) && w.At(r).state != RETRY_CONNECTION
    requires w.At(r).Idle() ==> Settled(w, r)
    ensures Faithful(w.FinishError(r, b, os)) <==> Faithful(w)
  {
    hide InvExcept, Faithful, Settled, SameNames, World.DeleteOrDisconnect;
    var w1 := w.Do(Leave(SockLock(r)));
    BuffersSame(w, w1);
    SameFaith(w, w1);
    LogKeeps(w, w1, {r});
    if w.At(r).Idle() {
      SettledLog(w, w1, r);
      TeardownFaithIff(w1, r, os);
    }
    var w2 := if w.At(r).Idle() then w1.DeleteOrDisconnect(r, os) else w1;
    BuffersSame(w2, w2.DeleteBuffer(b));
    SameFaith(w2, w2.DeleteBuffer(b));
  }

  lemma {:induction false} FailedTransferFaith(w: World, i: nat, addressInUse: bool, os: ErrorOs)
    requires Inv(w) && !w.forgets && Ends(os.teardown)
    requires i < |w.posted| && w.posted[i].op in {Operation.Read, Operation.Write}
    ensures Faithful(w.Dequeue(i).HandleError(w.posted[i].key, w.posted[i].buf, addressInUse, os)) <==> Faithful(w)
  {
    hide InvExcept, TallyOf, Open, Spares, Held, Faithful, SameNames, Settled, World.FinishError, World.Put;
    var p, r, b := w.posted[i], w.posted[i].key, w.posted[i].buf;
    DequeueKeeps(w, i);
    var w1 := w.Dequeue(i).Do(Enter(SockLock(r)));
    BuffersSame(w, w1);
    var s := if p.op == Operation.Read then w1.At(r).RecvDone() else w1.At(r).SendDone(p.len);
    var w2 := w1.Put(r, s.(state := FAILURE));
    PutSame(w1, r, s.(state := FAILURE));
    SameTwice(w, w1, w2);
    SameFaith(w, w2);
    var k := if p.op == Operation.Read then 0 else TallyOf(w.posted, r).recvs;
    if p.op == Operation.Read {
      RecvFailed(w, i);
    } else {
      SendFailed(w, i);
    }
    PutFlag(w1, r, s.(state := FAILURE));
    if w2.At(r).Idle() {
      OpenSettled(w2, r, k);
    }
    FinishFaithIff(w2, r, b, os.teardown);
  }

  lemma {:induction false} FailedOtherFaith(w: World, i: nat, addressInUse: bool, os: ErrorOs)
    requires Inv(w) && !w.forgets && Ends(os.teardown) && i < |w.posted|
    requires w.posted[i].op in {Operation.Disconnect, Operation.Accept, Operation.Connect}
    requires !(addressInUse && w.posted[i].op == Operation.Connect)
    ensures Faithful(w.Dequeue(i).HandleError(w.posted[i].key, w.posted[i].buf, addressInUse, os)) <==> Faithful(w)
  {
    hide InvExcept, TallyOf, Held, Spares, Faithful, SameNames, Settled, World.FinishError, World.Put;
    var p, r, b := w.posted[i], w.posted[i].key, w.posted[i].buf;
    ErrorAccounted(w, i);
    MarkOther(w, i, addressInUse, os);
    var w1 := w.Dequeue(i).Do(Enter(SockLock(r)));
    BuffersSame(w, w1);
    Facts(w.Dequeue(i), r, {r});
    var st := if p.op == Operation.Connect then CONNECT_FAILURE else FAILURE;
    var s := w1.At(r).(state := st);
    PutSame(w1, r, s);
    SameTwice(w, w1, w1.Put(r, s));
    SameFaith(w, w1.Put(r, s));
    PutFlag(w1, r, s);
    PutAt(w1, r, s);
    FinishFaithIff(w1.Put(r, s), r, b, os.teardown);
  }

  // ---------- retries ----------

  /** What the invariant says of the state in which a retry is attempted. */
  lemma {:induction false} RetryStateIs(w: World, i: nat)
    requires Inv(w) && !w.forgets && i < |w.posted| && w.posted[i].op == Operation.Connect
    ensures var r, w2 := w.posted[i].key, RetryState(w, i);
            && InvExcept(w2, {r}) && Aside(w2, {r}) && !w2.forgets && w2.ids == w.ids && w2.nextId == w.nextId
            && w2.At(r) == w.At(r) && SameNames(w, w2) && Owned(w, r)
  {
    hide InvExcept, TallyOf, Held, Spares;
    var r := w.posted[i].key;
    ErrorAccounted(w, i);
    var w1 := w.Dequeue(i).Do(Enter(SockLock(r)));
    LogKeeps(w.Dequeue(i), w1, {r});
    TimeWaitKeeps(w1, r);
    IdsAt(w, {});
  }

  /** The state after the attempt, with the old socket marked, and what is left of it when the old socket
      is erased. */
  lemma {:induction false} RetryEnds(w: World, w': World, r: Node, x: Uuid)
    requires w'.ids == w.ids && x in w.ids && w.At(r).id != x
    requires forall q :: q in w'.sockets.live <==> q in w.sockets.live && q != r
    requires forall q :: q in w'.sockets.live ==> w'.At(q) == w.At(q)
    ensures Resolves(w', x) <==> Resolves(w, x)
  {
  }

  lemma {:induction false} MarkIs(w: World, i: nat, os: ConnectOs)
    requires Inv(w) && i < |w.posted| && w.posted[i].op == Operation.Connect
    ensures var r, w2 := w.posted[i].key, RetryState(w, i);
            var w1 := w2.ConnectToNewSocket(w.At(r).id, os).0;
            w.Dequeue(i).Do(Enter(SockLock(r))).MarkError(r, w.posted[i].buf, true, os)
            == w1.Put(r, w1.At(r).(hasHandle := false, state := RETRY_CONNECTION))
  {
    hide InvExcept, TallyOf, Held, Spares, World.ConnectToNewSocket, World.Put;
    ErrorAccounted(w, i);
  }

  /** The retry, with the old socket marked: what is true of its map. */
  lemma {:induction false} RetryMarks(w: World, i: nat, os: ConnectOs)
    requires Inv(w) && !w.forgets && i < |w.posted| && w.posted[i].op == Operation.Connect
    ensures var r, w2 := w.posted[i].key, RetryState(w, i);
            var (w1, j) := w2.ConnectToNewSocket(w.At(r).id, os);
            var w' := w1.Put(r, w1.At(r).(hasHandle := false, state := RETRY_CONNECTION));
            && InvExcept(w', {r}) && Settled(w', r) && w'.At(r).state == RETRY_CONNECTION
            && SameNames(w1, w') && ConnectDone(w2, w1, w.At(r).id, j, {r}) && w1.At(r) == w.At(r)
  {
    hide InvExcept, TallyOf, Settled, Spares, Held, SameNames, World.ConnectToNewSocket, World.Put;
    var r, b, w2 := w.posted[i].key, w.posted[i].buf, RetryState(w, i);
    ErrorAccounted(w, i);
    OnlyConnectsAre(w, i);
    var w1 := w.Dequeue(i).Do(Enter(SockLock(r)));
    LogKeeps(w.Dequeue(i), w1, {r});
    HeldSame(w.Dequeue(i), w1);
    RetryKeeps(w1, r, b, os);
    var w3 := w2.ConnectToNewSocket(w.At(r).id, os).0;
    var s := w3.At(r).(hasHandle := false, state := RETRY_CONNECTION);
    PutSame(w3, r, s);
    SettledFacts(w3.Put(r, s), r);
    PutMeans(w3, r, s);
  }

  lemma {:induction false} PutMeans(w: World, r: Node, s: Socket)
    requires r in w.Put(r, s).sockets.mem
    ensures w.Put(r, s).At(r) == s
  {
  }

  /** The state after the retry of the i-th operation, with the connection's failure handled. */
  function Retried(w: World, i: nat, os: ErrorOs): World
    requires i < |w.posted|
  {
    w.Dequeue(i).HandleError(w.posted[i].key, w.posted[i].buf, true, os)
  }

  /** Through a retry an id other than the failed socket's names its socket exactly if it did and its
      socket was not taken from the queue. */
  lemma {:induction false} RetryOthers(w: World, i: nat, os: ErrorOs, x: Uuid)
    requires Inv(w) && !w.forgets && i < |w.posted| && w.posted[i].op == Operation.Connect
    requires x in w.ids && x != w.At(w.posted[i].key).id && x in RetryState(w, i).ids
    ensures var w' := Retried(w, i, os);
            x in w'.ids && (Resolves(w', x) <==> Resolves(w, x) && !Taken(RetryState(w, i), x))
  {
    hide *;
    var r, b, w2 := w.posted[i].key, w.posted[i].buf, RetryState(w, i);
    var w1 := w2.ConnectToNewSocket(w.At(r).id, os.connect).0;
    var w3 := w1.Put(r, w1.At(r).(hasHandle := false, state := RETRY_CONNECTION));
    RetryStateIs(w, i);
    SameFaith(w, w2);
    ConnectResolves(w2, w.At(r).id, os.connect, {r}, x);
    RetryMarks(w, i, os.connect);
    SameFaith(w1, w3);
    MarkIs(w, i, os.connect);
    FinishReplaced(w3, r, b, os.teardown);
    RetriedIs(w, i, os, w3);
    SameIdOf(w1, w3, r);
    RetryEnds(w3, Retried(w, i, os), r, x);
  }

  lemma {:induction false} SameIdOf(w: World, w': World, r: Node)
    requires SameNames(w, w')
    ensures w'.At(r).id == w.At(r).id && w'.ids == w.ids
  {
  }

  lemma {:induction false} RetriedIs(w: World, i: nat, os: ErrorOs, w3: World)
    requires i < |w.posted|
    requires w3 == w.Dequeue(i).Do(Enter(SockLock(w.posted[i].key)))
                    .MarkError(w.posted[i].key, w.posted[i].buf, true, os.connect)
    ensures Retried(w, i, os) == w3.FinishError(w.posted[i].key, w.posted[i].buf, os.teardown)
  {
  }

  /** The id a retry stores anew, if there is one, names its socket. */
  lemma {:induction false} RetryNewIds(w: World, i: nat, os: ErrorOs)
    requires Inv(w) && !w.forgets && i < |w.posted| && w.posted[i].op == Operation.Connect
    ensures forall x :: x in Retried(w, i, os).ids && x !in w.ids ==> Resolves(Retried(w, i, os), x)
  {
    hide *;
    var r, b, w2 := w.posted[i].key, w.posted[i].buf, RetryState(w, i);
    var (w1, j) := w2.ConnectToNewSocket(w.At(r).id, os.connect);
    var w3 := w1.Put(r, w1.At(r).(hasHandle := false, state := RETRY_CONNECTION));
    RetryStateIs(w, i);
    RetryMarks(w, i, os.connect);
    MarkIs(w, i, os.connect);
    FinishReplaced(w3, r, b, os.teardown);
    RetriedIs(w, i, os, w3);
    forall x | x in Retried(w, i, os).ids && x !in w.ids
      ensures Resolves(Retried(w, i, os), x)
    {
      NewIdAfter(w2, w1, w3, Retried(w, i, os), r, j, w.At(r).id, x);
    }
  }

  lemma {:induction false} NewIdAfter(w: World, w1: World, w2: World, w': World, r: Node, j: Uuid, id: Uuid, x: Uuid)
    requires ConnectDone(w, w1, id, j, {r}) && SameNames(w1, w2) && w'.ids == w2.ids
    requires forall q :: q in w'.sockets.live <==> q in w2.sockets.live && q != r
    requires forall q :: q in w'.sockets.live ==> w'.At(q) == w2.At(q)
    requires x in w'.ids && x !in w.ids
    ensures Resolves(w', x)
  {
    hide TallyOf;
  }

  /** The failed socket's own id names its replacement exactly when the retry reaches its end. */
  lemma {:induction false} RetryOwn(w: World, i: nat, os: ErrorOs)
    requires Inv(w) && !w.forgets && i < |w.posted| && w.posted[i].op == Operation.Connect
    requires w.At(w.posted[i].key).id != NIL_UUID
    ensures var w', id := Retried(w, i, os), w.At(w.posted[i].key).id;
            id in w'.ids && (Resolves(w', id) <==> Reaches(RetryState(w, i), os.connect))
  {
    RetryIff(w, i, os);
    hide InvExcept, TallyOf, Reaches, World.HandleError;
  }

  /** The retry does harm: it stops short, and so leaves its own id on the removed socket, or it takes a
      socket with an id from the queue. */
  ghost predicate RetryBreaks(w: World, i: nat, os: ConnectOs)
    requires i < |w.posted|
  {
    || (w.At(w.posted[i].key).id != NIL_UUID && !Reaches(RetryState(w, i), os))
    || ConnectBreaks(RetryState(w, i))
  }

  lemma {:induction false} RetryFrom(w: World, w2: World, w': World, r: Node, reached: bool)
    requires Owned(w, r) && Owned(w2, r) && r !in w2.queue && SameNames(w, w2)
    requires forall x :: x in w'.ids && x !in w.ids ==> Resolves(w', x)
    requires forall x :: x in w.ids && x != w.At(r).id ==>
               x in w2.ids && x in w'.ids && (Resolves(w', x) <==> Resolves(w, x) && !Taken(w2, x))
    requires w.At(r).id != NIL_UUID ==> w.At(r).id in w'.ids && (Resolves(w', w.At(r).id) <==> reached)
    requires w2.queue != [] ==> (w2.At(w2.queue[0]).id != NIL_UUID ==> Registered(w2, w2.queue[0]) && HeadRests(w2))
    requires TakesHead(w2) ==> w2.queue != []
    ensures KeepsNames(w, w') <==> !((w.At(r).id != NIL_UUID && !reached) || ConnectBreaks(w2))
    ensures Faithful(w') <==> Faithful(w) && !((w.At(r).id != NIL_UUID && !reached) || ConnectBreaks(w2))
  {
    hide World.HeadAged;
    var id := w.At(r).id;
    assert id != NIL_UUID ==> Resolves(w, id) && id in w.ids;
    if ConnectBreaks(w2) {
      var h := w2.At(w2.queue[0]).id;
      assert Taken(w2, h) && h in w.ids && Resolves(w, h) && h != id;
      assert !Resolves(w', h);
    } else {
      assert forall x :: x in w.ids && x != id && Resolves(w, x) ==> !Taken(w2, x);
    }
  }

  lemma {:induction false} RetryFacts(w: World, i: nat, os: ErrorOs)
    requires Inv(w) && !w.forgets && i < |w.posted| && w.posted[i].op == Operation.Connect
    ensures var w' := Retried(w, i, os);
            && (KeepsNames(w, w') <==> !RetryBreaks(w, i, os.connect))
            && (Faithful(w') <==> Faithful(w) && !RetryBreaks(w, i, os.connect))
  {
    hide *;
    var r, w2, w' := w.posted[i].key, RetryState(w, i), Retried(w, i, os);
    RetryStateIs(w, i);
    RetryNewIds(w, i, os);
    forall x | x in w.ids && x != w.At(r).id
      ensures x in w2.ids && x in w'.ids && (Resolves(w', x) <==> Resolves(w, x) && !Taken(w2, x))
    {
      RetryOthers(w, i, os, x);
    }
    if w.At(r).id != NIL_UUID {
      RetryOwn(w, i, os);
    }
    HeadOwned(w2, {r});
    TakenHas(w2);
    RetryOwned(w, i);
    RetryFrom(w, w2, w', r, Reaches(w2, os.connect));
    RetryBreaksIs(w, i, os.connect);
  }

  lemma {:induction false} TakenHas(w: World)
    ensures TakesHead(w) ==> w.queue != []
  {
  }

  lemma {:induction false} RetryOwned(w: World, i: nat)
    requires Inv(w) && !w.forgets && i < |w.posted| && w.posted[i].op == Operation.Connect
    ensures var r, w2 := w.posted[i].key, RetryState(w, i); Owned(w2, r) && r !in w2.queue
  {
    hide InvExcept, TallyOf;
    RetryStateIs(w, i);
  }

  lemma {:induction false} RetryBreaksIs(w: World, i: nat, os: ConnectOs)
    requires i < |w.posted|
    ensures RetryBreaks(w, i, os) <==>
            (w.At(w.posted[i].key).id != NIL_UUID && !Reaches(RetryState(w, i), os)) || ConnectBreaks(RetryState(w, i))
  {
  }

  /** A retry takes no id away from the socket that carries it if and only if it reaches its end, so that
      its own id names the replacement, and does not take a socket with an id from the reuse queue. */
  lemma {:induction false} RetryKeepsNamesIff(w: World, i: nat, os: ErrorOs)
    requires Inv(w) && !w.forgets && i < |w.posted| && w.posted[i].op == Operation.Connect
    requires w.At(w.posted[i].key).id != NIL_UUID
    ensures KeepsNames(w, w.Dequeue(i).HandleError(w.posted[i].key, w.posted[i].buf, true, os)) <==>
            Reaches(RetryState(w, i), os.connect) && !TakesNamed(RetryState(w, i))
  {
    hide InvExcept, TallyOf, KeepsNames, Faithful, TakesNamed, World.HandleError, World.HeadAged, RetryState;
    RetryFacts(w, i, os);
  }

  // ---------- connections that start ----------

  /** A connection that starts under its first receive keeps every id. */
  lemma {:induction false} StartSame(w: World, r: Node, b: Node, os: ConnectionOs)
    requires os.optionOk && os.recvOk
    ensures SameNames(w, w.StartReceiving(r, b, os))
  {
    hide SameNames, OnlyFails, World.PostRecv, World.ChangeSocketState;
    var w1 := w.ChangeSocketState(r, CONNECTED);
    ChangeSame(w, r, CONNECTED);
    var w2 := w1.PutBuf(b, w1.BufAt(b).(operation := Operation.Read));
    BuffersSame(w1, w2);
    SameTwice(w, w1, w2);
    PostOnlyFails(w2, r, b, true);
    OnlyFailsSame(w2, w2.PostRecv(r, b, true));
    SameTwice(w, w2, w2.PostRecv(r, b, true));
  }

  /** A connection whose first receive is refused leaves the map under its id. */
  lemma {:induction false} RefusedLeavesMap(w: World, r: Node, b: Node, os: ConnectionOs)
    requires InvExcept(w, {r}) && Fresh(w, r) && Held(w, b) && !os.recvOk && Ends(os.teardown)
    ensures w.At(r).id !in w.StartReceiving(r, b, os).ids
  {
    hide InvExcept, TallyOf, Fresh, Held, SameNames, OnlyFails, Settled, World.PostRecv, World.ChangeSocketState,
         World.DeleteOrDisconnect;
    BeforeRefusal(w, r, b);
    var w1 := w.ChangeSocketState(r, CONNECTED);
    ChangeSame(w, r, CONNECTED);
    var w2 := w1.PutBuf(b, w1.BufAt(b).(operation := Operation.Read));
    BuffersSame(w1, w2);
    SameTwice(w, w1, w2);
    var w3 := w2.PostRecv(r, b, false);
    PostOnlyFails(w2, r, b, false);
    OnlyFailsSame(w2, w3);
    SameTwice(w, w2, w3);
    var w4 := w3.ChangeSocketState(r, FAILURE);
    ChangeSame(w3, r, FAILURE);
    SameTwice(w, w3, w4);
    var w5 := w4.DeleteBuffer(b);
    BuffersSame(w4, w5);
    SameTwice(w, w4, w5);
    SameIdOf(w, w5, r);
    SettledFacts(w5, r);
    TeardownContract(w5, r, os.teardown);
  }

  lemma {:induction false} ConnectedFaith(w: World, i: nat, bytes: nat, os: IoOs)
    requires Inv(w) && i < |w.posted| && w.posted[i].op == Operation.Connect
    requires os.connection.optionOk && os.connection.recvOk && Ends(os.connection.teardown)
    ensures Faithful(w.Dequeue(i).HandleIo(w.posted[i].key, w.posted[i].buf, bytes, os)) <==> Faithful(w)
  {
    hide InvExcept, TallyOf, Spares, Fresh, Open, Held, SameNames, Faithful, World.StartReceiving, World.CleanupIfLast;
    var r, b, w1 := w.posted[i].key, w.posted[i].buf, w.Dequeue(i);
    DequeueSame(w, i);
    ConnectAccounted(w, i);
    var w2 := w1.StartReceiving(r, b, os.connection);
    StartSame(w1, r, b, os.connection);
    SameTwice(w, w1, w2);
    SameFaith(w, w2);
    StartKeeps(w1, r, b, os.connection);
    NoCleanupFaith(w2, r, os.teardown);
  }

  /** Through a completed accept every id of before stays in the map, and the one it adds names its socket. */
  lemma {:induction false} AcceptedNewIds(w: World, r: Node, b: Node, os: ConnectionOs)
    requires Inv(w) && !w.forgets && NoAccept(w) && AcceptTarget(w) && Held(w, b) && w.current.value != r
    requires w.BufAt(b).operation == Operation.Accept && r in w.sockets.live && w.At(r).state == LISTENING
    requires (os.optionOk || !os.recvOk) && Ends(os.teardown)
    ensures var w' := Accepted(w, r, b, os);
            && (forall x :: x in w.ids ==> x in w'.ids)
            && (forall x :: x in w'.ids && x !in w.ids ==> Resolves(w', x))
  {
    TargetNames(w);
    hide *;
    AcceptedKeepsIds(w, r, b, os);
    PickedResolves(w, r, b, os);
    AcceptedMap(w, r, b, os);
    NewFrom(w, Accepted(w, r, b, os));
  }

  lemma {:induction false} NewFrom(w: World, w': World)
    requires forall x :: x in w'.ids && x !in w.ids ==> x == w.nextId
    requires w.nextId in w'.ids ==> Resolves(w', w.nextId)
    ensures forall x :: x in w'.ids && x !in w.ids ==> Resolves(w', x)
  {
    hide Resolves;
  }

  lemma {:induction false} AcceptedKeepsIds(w: World, r: Node, b: Node, os: ConnectionOs)
    requires Inv(w) && !w.forgets && NoAccept(w) && AcceptTarget(w)
    ensures var w' := Accepted(w, r, b, os); forall x :: x in w.ids ==> x in w'.ids
  {
    TargetNames(w);
    hide *;
    HeadFacts(w);
    AcceptedFrame(w, r, b, os);
  }

  /** The new id, if it is stored at the end, names the picked-up socket. */
  lemma {:induction false} PickedResolves(w: World, r: Node, b: Node, os: ConnectionOs)
    requires Inv(w) && !w.forgets && NoAccept(w) && AcceptTarget(w) && Held(w, b) && w.current.value != r
    requires w.BufAt(b).operation == Operation.Accept && r in w.sockets.live && w.At(r).state == LISTENING
    requires (os.optionOk || !os.recvOk) && Ends(os.teardown)
    ensures var w' := Accepted(w, r, b, os); w.nextId in w'.ids ==> Resolves(w', w.nextId)
  {
    TargetNames(w);
    hide *;
    var w' := Accepted(w, r, b, os);
    if os.recvOk {
      HandleAccepted(w, r, b, os);
      AcceptedStarts(w, r, b, os);
      PickedUp(w, r, b, os);
      AcceptedMap(w, r, b, os);
      NamesPicked(w, w');
    } else {
      AcceptRefused(w, r, b, os);
    }
  }

  lemma {:induction false} NamesPicked(w: World, w': World)
    requires w.current.Some? && w.current.value in w'.sockets.live && w'.At(w.current.value).id == w.nextId
    requires w.nextId !in w.ids && forall x :: x in w'.ids && x !in w.ids ==> w'.ids[x] == w.current.value
    ensures w.nextId in w'.ids ==> Resolves(w', w.nextId)
  {
  }

  /** An accepted socket whose first receive is refused is out of the map again. */
  lemma {:induction false} AcceptRefused(w: World, r: Node, b: Node, os: ConnectionOs)
    requires Inv(w) && !w.forgets && NoAccept(w) && AcceptTarget(w) && Held(w, b) && w.current.value != r
    requires r in w.sockets.live && w.At(r).state == LISTENING && !os.recvOk && Ends(os.teardown)
    ensures w.nextId !in Accepted(w, r, b, os).ids
  {
    TargetNames(w);
    hide *;
    var a := w.current.value;
    NextAccept(w, r, b, os.accept);
    AddIdOnly(w, a, NIL_UUID);
    var w1 := w.AddSocketToMap(a, NIL_UUID);
    OnlyValid(w, w1, {a});
    AcceptOnly(w1, r, os.accept);
    AcceptLeaves(w, w1, r, os.accept);
    RefusedLeavesMap(w1.AcceptNewSocket(r, os.accept).0, a, b, os);
    AcceptedIs(w, r, b, os);
  }

  lemma {:induction false} AcceptedIs(w: World, r: Node, b: Node, os: ConnectionOs)
    requires w.current.Some?
    ensures Accepted(w, r, b, os)
         == w.AddSocketToMap(w.current.value, NIL_UUID).AcceptNewSocket(r, os.accept).0
             .StartReceiving(w.current.value, b, os)
  {
  }

  /** The map after an accept: a new entry for the picked-up socket, unless it was lost again. */
  lemma {:induction false} AcceptedMap(w: World, r: Node, b: Node, os: ConnectionOs)
    requires w.current.Some? && w.sockets.Valid() && w.current.value in w.sockets.mem
    ensures var a, w' := w.current.value, Accepted(w, r, b, os);
            && (forall x :: x in w'.ids && x !in w.ids ==> x == w.nextId && w'.ids[x] == a)
  {
    hide World.AddSocketToMap, World.AcceptNewSocket, World.StartReceiving, Generated;
    var a := w.current.value;
    var w1 := w.AddSocketToMap(a, NIL_UUID);
    AddIdOnly(w, a, NIL_UUID);
    AcceptOnly(w1, r, os.accept);
    StartOnly(w1.AcceptNewSocket(r, os.accept).0, a, b, os);
  }

  /** All stored ids are right after a completed accept exactly if none lost its socket to it. */
  lemma {:induction false} AcceptFaithIff(w: World, i: nat, bytes: nat, os: IoOs)
    requires Inv(w) && !w.forgets && Faithful(w) && i < |w.posted| && w.posted[i].op == Operation.Accept
    requires (os.connection.optionOk || !os.connection.recvOk) && Ends(os.connection.teardown)
    ensures w.current.Some?
    ensures Faithful(w.Dequeue(i).HandleIo(w.posted[i].key, w.posted[i].buf, bytes, os)) <==>
            w.At(w.current.value).id == NIL_UUID && !RefusesNamed(w, os.connection.accept)
  {
    hide *;
    var r, b, w1 := w.posted[i].key, w.posted[i].buf, w.Dequeue(i);
    AcceptKeepsNamesIff(w, i, bytes, os);
    AcceptAccounted(w, i);
    DequeueNames(w, i);
    DequeueSame(w, i);
    SameMapOf(w, w1);
    TargetIs(w1, w);
    AcceptedNewIds(w1, r, b, os.connection);
    HandleIoAccept(w1, r, b, bytes, os);
    HandleAccepted(w1, r, b, os.connection);
    AcceptedStarts(w1, r, b, os.connection);
    ListeningRank(w1, Accepted(w1, r, b, os.connection), r);
    CleanupSame(Accepted(w1, r, b, os.connection), r, os.teardown);
    NamesFaith(w, Accepted(w1, r, b, os.connection), w1.HandleIo(r, b, bytes, os));
  }

  lemma {:induction false} SameMapOf(w: World, w': World)
    requires SameNames(w, w')
    ensures w'.ids == w.ids
  {
  }

  lemma {:induction false} TargetIs(w: World, w0: World)
    requires w.current.Some? && w.current.value in w.sockets.live && w.At(w.current.value).state == ACCEPTING
    ensures AcceptTarget(w)
  {
  }

  /** Where no id leaves the map and those that enter it are right, keeping names is keeping all ids right. */
  lemma {:induction false} NamesFaith(w: World, w1: World, w': World)
    requires Faithful(w) && w'.sockets == w1.sockets && w'.ids == w1.ids
    requires forall x :: x in w.ids ==> x in w1.ids
    requires forall x :: x in w1.ids && x !in w.ids ==> Resolves(w1, x)
    ensures Faithful(w') <==> KeepsNames(w, w')
  {
    assert forall x :: Resolves(w', x) <==> Resolves(w1, x);
  }

  // ---------- steps and runs ----------

  /** The step takes a socket away from an id that names it: a connection attempt takes a socket with an id
      from the queue; an accept is refused on one; an accept picks up a socket with an id; or a retry stops
      short. */
  ghost predicate StepBreaks(w: World, l: Label)
    requires w.Enabled(l)
  {
    var w1 := w.(clock := l.at);
    match l
    case Call(_, c) => CallBreaks(w1, c)
    case Fail(_, i, addressInUse, os) =>
      addressInUse && w.posted[i].op == Operation.Connect && RetryBreaks(w1, i, os.connect)
    case Complete(_, i, bytes, os) =>
      match w.posted[i].op
      case Read => bytes > 0 && CallsBreak(CallbackState(w1, i, bytes), w.posted[i].key, os.callback)
      case Accept =>
        w.current.Some? && (w.At(w.current.value).id != NIL_UUID || RefusesNamed(w1, os.connection.accept))
      case _ => false
  }

  lemma {:induction false} CompleteFaithIff(w: World, i: nat, bytes: nat, os: IoOs)
    requires var l := Complete(w.clock, i, bytes, os);
             Inv(w) && !w.forgets && Faithful(w) && w.Enabled(l) && Clean(w, l)
    ensures Faithful(w.Dequeue(i).HandleIo(w.posted[i].key, w.posted[i].buf, bytes, os)) <==>
            !StepBreaks(w, Complete(w.clock, i, bytes, os))
  {
    hide InvExcept, TallyOf, SafeCalls, CallsBreak, Faithful, Spares, Held, Fresh, NoAccept, Open, Handled, SameNames,
         RefusesNamed;
    hide World.HandleRead, World.HandleWrite, World.HandleConnection, World.HandleDisconnect, World.CleanupIfLast,
         World.StartReceiving;
    assert w.(clock := w.clock) == w;
    var p, r, b, w1 := w.posted[i], w.posted[i].key, w.posted[i].buf, w.Dequeue(i);
    DequeueKeeps(w, i);
    DequeueSame(w, i);
    SameFaith(w, w1);
    match p.op {
      case Read =>
        var w2 := w1.HandleRead(r, b, bytes, os.callback, os.recvOk);
        ReadFaithIff(w, i, bytes, os);
        ReadKeeps(w, i, bytes, os.callback, os.recvOk);
        ReadFlag(w, i, bytes, os);
        CleanupFaithIff(w2, r, if w2.At(r).state == CONNECTED then 1 else 0, os.teardown);
      case Write =>
        WriteFaithIff(w1, r, b, bytes);
        WriteKeeps(w, i, bytes);
        WriteFlag(w1, r, b, bytes);
        CleanupFaithIff(w1.HandleWrite(r, b, bytes), r, TallyOf(w.posted, r).recvs, os.teardown);
      case Disconnect =>
        var w2 := w1.HandleDisconnect(r, b);
        DisconnectSame(w1, r, b);
        SameFaith(w1, w2);
        DisconnectKeeps(w, i);
        NoCleanupFaith(w2, r, os.teardown);
      case Connect => ConnectedFaith(w, i, bytes, os);
      case Accept => AcceptFaithIff(w, i, bytes, os);
    }
  }

  lemma {:induction false} FailFaithIff(w: World, i: nat, addressInUse: bool, os: ErrorOs)
    requires Inv(w) && !w.forgets && Faithful(w) && i < |w.posted| && Ends(os.teardown)
    ensures Faithful(w.Dequeue(i).HandleError(w.posted[i].key, w.posted[i].buf, addressInUse, os)) <==>
            !(addressInUse && w.posted[i].op == Operation.Connect && RetryBreaks(w, i, os.connect))
  {
    hide InvExcept, Faithful, RetryBreaks, World.HandleError;
    if w.posted[i].op in {Operation.Read, Operation.Write} {
      FailedTransferFaith(w, i, addressInUse, os);
    } else if addressInUse && w.posted[i].op == Operation.Connect {
      RetryFacts(w, i, os);
    } else {
      OtherOps(w.posted[i].op);
      FailedOtherFaith(w, i, addressInUse, os);
    }
  }

  lemma {:induction false} CallFaithIff(w: World, c: UserCall)
    requires Inv(w) && !w.forgets
    ensures Faithful(w.UserCalls(None, c)) <==> Faithful(w) && !CallBreaks(w, c)
  {
    hide InvExcept, Faithful, CallBreaks, World.UserCalls;
    UserCallFaithIff(w, None, c);
  }

  lemma {:induction false} LaterBreaks(w: World, l: Label)
    requires w.Enabled(l)
    ensures var w1 := w.(clock := l.at);
            w1.Enabled(l) && (StepBreaks(w1, l) <==> StepBreaks(w, l)) && (Faithful(w1) <==> Faithful(w))
  {
    var w1 := w.(clock := l.at);
    hide CallsBreak, CallBreaks, RetryBreaks, RefusesNamed, SameNames, Faithful, CallbackState;
    assert w1.(clock := l.at) == w1;
    BuffersSame(w, w1);
    SameFaith(w, w1);
  }

  /** In the source a clean step keeps every stored id naming a live socket that carries it, if and only
      if it does not take a named socket away: by connecting, listening or accepting, by a call from a
      callback, or by a retry. */
  lemma {:induction false} StepNamesIff(w: World, l: Label)
    requires Inv(w) && !w.forgets && Faithful(w) && w.Enabled(l) && Clean(w, l)
    ensures Faithful(w.Step(l)) <==> !StepBreaks(w, l)
  {
    var w1 := w.(clock := l.at);
    LaterBreaks(w, l);
    Later(w, l);
    hide InvExcept, TallyOf, Faithful, StepEffect, World.HandleIo, World.HandleError, World.UserCalls, SafeCalls;
    hide CallsBreak, CallBreaks, RetryBreaks, RefusesNamed;
    match l {
      case Complete(_, i, bytes, os) => CompleteFaithIff(w1, i, bytes, os);
      case Fail(_, i, addressInUse, os) => FailFaithIff(w1, i, addressInUse, os);
      case Call(_, c) => CallFaithIff(w1, c);
    }
  }

  ghost predicate NoneBreaks(w: World, ls: seq<Label>)
    requires CleanRun(w, ls)
    decreases |ls|
  {
    ls == [] || (!StepBreaks(w, ls[0]) && NoneBreaks(w.Step(ls[0]), ls[1..]))
  }

  lemma {:induction false} RunNamesIff(w: World, ls: seq<Label>)
    requires Inv(w) && !w.forgets && Faithful(w) && CleanRun(w, ls)
    ensures AlwaysFaithful(w, ls) <==> NoneBreaks(w, ls)
    decreases |ls|
  {
    hide Inv, Clean, Faithful, StepBreaks, World.Step, World.Enabled;
    if ls != [] {
      StepNamesIff(w, ls[0]);
      StepFlag(w, ls[0]);
      if !StepBreaks(w, ls[0]) {
        RunNamesIff(w.Step(ls[0]), ls[1..]);
      }
    }
  }

  /** Over every clean run of the source: every id stored at any moment names a live socket that carries it,
      if and only if no step of the run takes a named socket away. */
  lemma {:induction false} SourceIsFaithfulIff(kind: ManagerType, timeWait: nat, ls: seq<Label>)
    requires MIN_TIME_WAIT_VALUE <= timeWait <= MAX_TIME_WAIT_VALUE && CleanRun(Start(kind, timeWait), ls)
    ensures AlwaysFaithful(Start(kind, timeWait), ls) <==> NoneBreaks(Start(kind, timeWait), ls)
  {
    hide CleanRun, AlwaysFaithful, NoneBreaks;
    StartHolds(kind, timeWait);
    StartNames(kind, timeWait);
    RunNamesIff(Start(kind, timeWait), ls);
  }

  lemma {:induction false} StartNames(kind: ManagerType, timeWait: nat)
    ensures Faithful(Start(kind, timeWait)) && !Start(kind, timeWait).forgets
  {
  }
}
