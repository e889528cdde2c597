/** When the ids the user holds go on naming the sockets they were given for. */
module Names {
  import opened SocketTypes
  import opened RecyclableList
  import opened TimeWait
  import opened Engine
  import opened EngineInvariant
  import opened EngineSteps
  import opened Teardown
  import opened Completions
  import opened EngineRuns
  import opened Continuity
  import opened Frames

  /** The id names a live socket that carries it. */
  ghost predicate Resolves(w: World, id: Uuid) {
    id in w.ids && w.ids[id] in w.sockets.live && w.At(w.ids[id]).id == id
  }

  ghost predicate KeepsNames(w: World, w': World) {
    forall id :: Resolves(w, id) ==> Resolves(w', id)
  }

  // ---------- connecting ----------

  /** The head of the queue is taken, and has an id. */
  ghost predicate TakesNamed(w: World) { w.HeadAged() && w.At(w.queue[0]).id != NIL_UUID }

  lemma {:induction false} OtherNames(w: World, w': World, g: set<Node>, id: Uuid)
    requires Only(w, w', g) && Resolves(w, id) && w.ids[id] !in g && id in w'.ids && w'.ids[id] == w.ids[id]
    ensures Resolves(w', id)
  {
  }

  lemma {:induction false} Basics(w: World)
    requires Inv(w)
    ensures w.sockets.Valid() && w.nextId !in w.ids && NIL_UUID !in w.ids && NIL_UUID < w.nextId
    ensures forall r :: r in w.sockets.live ==> r in w.sockets.mem && w.At(r).id < w.nextId
  {
    hide TallyOf;
  }

  lemma {:induction false} GeneratedIs(w: World, createOk: bool)
    requires w.sockets.Valid()
    ensures Generated(w, createOk) == if w.HeadAged() then {w.queue[0]} else Generated(w, createOk)
    ensures !w.HeadAged() ==> forall g :: g in Generated(w, createOk) ==> g !in w.sockets.live
  {
    CreateOnly(w.ReuseSocket().0);
  }

  /** The head of the queue is live and disconnected. */
  ghost predicate HeadRests(w: World)
    requires w.queue != []
  {
    && w.queue[0] in w.sockets.live && w.queue[0] in w.sockets.mem
    && w.At(w.queue[0]).state == DISCONNECTED
  }

  /** A reused socket ends under a new id, or is removed. */
  lemma {:induction false} ReusedOutcome(w: World, id: Uuid, os: ConnectOs)
    requires w.sockets.Valid() && w.HeadAged() && w.mgr != NOT_READY && w.kind == CLIENT
    requires w.queue[0] in w.sockets.live && w.queue[0] in w.sockets.mem && w.At(w.queue[0]).state == DISCONNECTED
    ensures var w', g := w.ConnectToNewSocket(id, os).0, w.queue[0];
            g in w'.sockets.live ==> w'.At(g).id == if id == NIL_UUID then w.nextId else id
  {
    hide World.DeleteSocket, World.AddSocketToMap;
    var g := w.queue[0];
    var (w1, generated) := w.GenerateSocket(true, os.createOk);
    ReuseOnly(w);
    assert generated == Some(g) && w1.At(g) == w.At(g).(timeWaitStartTime := 0) && w1.sockets.live == w.sockets.live;
    DeleteRemoves(w1, g);
    var w2 := w1.CreateBuffer(Operation.Connect);
    DeleteRemoves(w2, g);
    AddIdOnly(w2.Post(w1.buffers.Slot(), g, Operation.Connect).Do(Publish(g)), g, id);
  }

  /** A connection attempt takes no id away from the socket that carries it, whatever the system
      answers, if and only if it does not take a socket with an id from the reuse queue. */
  lemma {:induction false} ConnectKeepsNamesIff(w: World, os: ConnectOs)
    requires Inv(w) && !w.forgets && w.mgr != NOT_READY && w.kind == CLIENT
    ensures KeepsNames(w, w.ConnectToNewSocket(NIL_UUID, os).0) <==> !TakesNamed(w)
  {
    hide Inv, TakesNamed, KeepsNames, World.ConnectToNewSocket;
    if TakesNamed(w) {
      TakenLosesName(w, os);
    } else {
      OthersKeepNames(w, os);
    }
  }

  lemma {:induction false} TakenLosesName(w: World, os: ConnectOs)
    requires Inv(w) && !w.forgets && w.mgr != NOT_READY && w.kind == CLIENT && TakesNamed(w)
    ensures !KeepsNames(w, w.ConnectToNewSocket(NIL_UUID, os).0)
  {
    Basics(w);
    HeadInQueue(w);
    QueuedFacts(w);
    hide Inv, World.ConnectToNewSocket, World.HeadAged;
    ConnectOnly(w, NIL_UUID, os);
    ReusedOutcome(w, NIL_UUID, os);
    var w', was := w.ConnectToNewSocket(NIL_UUID, os).0, w.At(w.queue[0]).id;
    assert Resolves(w, was);
    assert was in w'.ids && w'.ids[was] == w.queue[0];
    assert !Resolves(w', was);
  }

  lemma {:induction false} OthersKeepNames(w: World, os: ConnectOs)
    requires Inv(w) && !w.forgets && w.mgr != NOT_READY && w.kind == CLIENT && !TakesNamed(w)
    ensures KeepsNames(w, w.ConnectToNewSocket(NIL_UUID, os).0)
  {
    Basics(w);
    GeneratedIs(w, os.createOk);
    hide Inv, Only, Generated, World.ConnectToNewSocket, World.HeadAged;
    var w' := w.ConnectToNewSocket(NIL_UUID, os).0;
    ConnectOnly(w, NIL_UUID, os);
    forall id | Resolves(w, id)
      ensures Resolves(w', id)
    {
      OtherNames(w, w', Generated(w, os.createOk), id);
    }
  }

  // ---------- accepting ----------

  /** A reused socket keeps its id through an accept, and is removed if the system refuses. */
  lemma {:induction false} ReusedAccepts(w: World, listener: Node, os: AcceptOs)
    requires w.sockets.Valid() && w.HeadAged()
    requires w.queue[0] in w.sockets.live && w.queue[0] in w.sockets.mem && w.At(w.queue[0]).state == DISCONNECTED
    ensures var w', g := w.AcceptNewSocket(listener, os).0, w.queue[0];
            && (g in w'.sockets.live <==> os.associateOk && os.acceptOk)
            && (os.associateOk && os.acceptOk ==> w'.At(g).id == w.At(g).id)
  {
    hide World.DeleteSocket;
    var g := w.queue[0];
    var (w1, generated) := w.GenerateSocket(true, os.createOk);
    ReuseOnly(w);
    assert generated == Some(g) && w1.At(g) == w.At(g).(timeWaitStartTime := 0) && w1.sockets.live == w.sockets.live;
    DeleteRemoves(w1, g);
    var w2 := w1.SetState(g, ASSOCIATED).(current := Some(g)).CreateBuffer(Operation.Accept);
    SetStateOnly(w1, g, ASSOCIATED);
    assert w2.sockets.Valid();
    DeleteRemoves(w2, g);
  }

  /** The accepted socket's handling, up to the cleanup check. */
  function Accepted(w: World, r: Node, b: Node, os: ConnectionOs): World
    requires w.current.Some?
  {
    w.AddSocketToMap(w.current.value, NIL_UUID).AcceptNewSocket(r, os.accept).0.StartReceiving(w.current.value, b, os)
  }

  /** A reused socket loses its name in an accept exactly when the system refuses the accept. */
  ghost predicate RefusesNamed(w: World, os: AcceptOs) { TakesNamed(w) && !(os.associateOk && os.acceptOk) }

  lemma {:induction false} SameHead(w: World, w': World, a: Node)
    requires Only(w, w', {a}) && w'.queue == w.queue && a !in w.queue && w'.clock == w.clock
    requires w'.timeWait == w.timeWait
    ensures w'.HeadAged() == w.HeadAged() && (w.queue != [] ==> w'.At(w.queue[0]) == w.At(w.queue[0]))
  {
  }

  lemma {:induction false} AddIdFields(w: World, a: Node)
    ensures var w' := w.AddSocketToMap(a, NIL_UUID);
            w'.clock == w.clock && w'.timeWait == w.timeWait && w'.queue == w.queue
  {
  }

  /** The head of the queue stays, under its id, exactly when the system accepts it. */
  ghost predicate HeadKept(w: World, w': World, a: Node, os: AcceptOs)
    requires w.HeadAged()
  {
    && w.queue[0] != a
    && (w.queue[0] in w'.sockets.live <==> os.associateOk && os.acceptOk)
    && (w.queue[0] in w'.sockets.live ==> w'.At(w.queue[0]).id == w.At(w.queue[0]).id)
  }

  /** What an accept does to the sockets that have ids, the picked-up one aside. */
  lemma {:induction false} AcceptedFrame(w: World, r: Node, b: Node, os: ConnectionOs)
    requires w.sockets.Valid() && w.current.Some? && w.current.value in w.sockets.mem && w.current.value !in w.queue
    requires w.queue != [] ==> HeadRests(w)
    requires w.current.value in w.sockets.live
    ensures var w', a := Accepted(w, r, b, os), w.current.value;
            && (forall id :: id in w.ids && id != w.nextId ==> id in w'.ids && w'.ids[id] == w.ids[id])
            && (forall q :: q in w.sockets.live && q != a && !(w.HeadAged() && q == w.queue[0]) ==>
                  q in w'.sockets.live && w'.At(q) == w.At(q))
            && (w.HeadAged() ==> HeadKept(w, w', a, os.accept))
  {
    hide Only, World.AddSocketToMap, World.AcceptNewSocket, World.StartReceiving, World.HeadAged;
    var a := w.current.value;
    var w1 := w.AddSocketToMap(a, NIL_UUID);
    AddIdOnly(w, a, NIL_UUID);
    AddIdFields(w, a);
    SameHead(w, w1, a);
    OnlyValid(w, w1, {a});
    var w2 := w1.AcceptNewSocket(r, os.accept).0;
    AcceptOnly(w1, r, os.accept);
    GeneratedIs(w1, os.accept.createOk);
    var g := Generated(w1, os.accept.createOk);
    OnlyValid(w1, w2, g);
    StartOnly(w2, a, b, os);
    AcceptedParts(w, w1, w2, w2.StartReceiving(a, b, os), a, g, os.accept, r);
  }

  lemma {:induction false} AcceptedParts(w: World, w1: World, w2: World, w': World, a: Node, g: set<Node>,
      os: AcceptOs, r: Node)
    requires w.sockets.Valid() && w1.sockets.Valid() && a in w.sockets.live && a in w.sockets.mem && a !in w.queue
    requires w1.queue == w.queue
    requires Only(w, w1, {a}) && Only(w1, w2, g) && Only(w2, w', {a}) && w2 == w1.AcceptNewSocket(r, os).0
    requires w1.ids == w.ids[w.nextId := a] && w2.ids == w1.ids && Loses(w2, w', w2.At(a).id) && w1.At(a).id == w.nextId
    requires a in w1.sockets.live && w1.HeadAged() == w.HeadAged()
    requires (w.queue != [] ==> w1.At(w.queue[0]) == w.At(w.queue[0]))
    requires if w1.HeadAged() then g == {w.queue[0]} else forall x :: x in g ==> x !in w1.sockets.live
    requires w.queue != [] ==> HeadRests(w)
    ensures forall id :: id in w.ids && id != w.nextId ==> id in w'.ids && w'.ids[id] == w.ids[id]
    ensures forall q :: q in w.sockets.live && q != a && !(w.HeadAged() && q == w.queue[0]) ==>
        q in w'.sockets.live && w'.At(q) == w.At(q)
    ensures w.HeadAged() ==> HeadKept(w, w', a, os)
  {
    hide World.AcceptNewSocket, World.HeadAged;
    if w.HeadAged() {
      HeadInQueue(w);
    }
    assert a !in g;
    if w.HeadAged() {
      ReusedAccepts(w1, r, os);
    }
  }

  lemma {:induction false} HeadInQueue(w: World)
    requires w.HeadAged()
    ensures w.queue != [] && w.queue[0] in w.queue
  {
  }

  /** The picked-up socket is gone, or goes on under a new id; the listener is as it was. */
  lemma {:induction false} PickedUp(w: World, r: Node, b: Node, os: ConnectionOs)
    requires Inv(w) && NoAccept(w) && AcceptTarget(w) && w.current.value != r
    requires r in w.sockets.live && w.At(r).state == LISTENING
    ensures var w', a := Accepted(w, r, b, os), w.current.value;
            (a in w'.sockets.live ==> w'.At(a).id == w.nextId) && w'.At(r) == w.At(r)
  {
    hide InvExcept, TallyOf, NoAccept, World.AddSocketToMap, World.AcceptNewSocket, World.StartReceiving;
    var a := w.current.value;
    RestingFacts(w, a);
    RestingFacts(w, r);
    Basics(w);
    AddIdOnly(w, a, NIL_UUID);
    var w1 := w.AddSocketToMap(a, NIL_UUID);
    AcceptOnly(w1, r, os.accept);
    AcceptLeaves(w, w1, r, os.accept);
    NotGenerated(w1, os.accept.createOk, r);
    var w2 := w1.AcceptNewSocket(r, os.accept).0;
    StartOnly(w2, a, b, os);
    StartId(w2, a, b, os);
  }

  lemma {:induction false} NotGenerated(w: World, createOk: bool, q: Node)
    requires w.sockets.Valid() && q in w.sockets.live && q !in w.queue
    ensures q !in Generated(w, createOk)
  {
    GenerateOnly(w, true, createOk);
    hide World.GenerateSocket;
    if w.queue != [] {
      assert w.queue[0] in w.queue;
    }
  }

  lemma {:induction false} FreshInMemory(w: World, a: Node)
    requires InvExcept(w, {a}) && Fresh(w, a)
    ensures a in w.sockets.mem
  {
    hide TallyOf;
  }

  lemma {:induction false} AcceptLeaves(w: World, w1: World, r: Node, os: AcceptOs)
    requires Inv(w) && AcceptTarget(w) && NoAccept(w) && w1 == w.AddSocketToMap(w.current.value, NIL_UUID)
    requires Only(w, w1, {w.current.value}) && Only(w1, w1.AcceptNewSocket(r, os).0, Generated(w1, os.createOk))
    requires w.current.value in w1.sockets.live
    ensures w1.AcceptNewSocket(r, os).0.At(w.current.value) == w1.At(w.current.value)
  {
    RestingFacts(w, w.current.value);
    AddIdFields(w, w.current.value);
    OnlyValid(w, w1, {w.current.value});
    hide InvExcept, TallyOf, World.AddSocketToMap, World.AcceptNewSocket, World.HeadAged;
    GeneratedIs(w1, os.createOk);
    if w1.HeadAged() {
      HeadInQueue(w1);
    }
  }

  /** A completed accept takes no id away from the socket that carries it if and only if the socket it
      picks up had none, and it does not lose a socket with an id from the reuse queue to a refusal. */
  lemma {:induction false} AcceptKeepsNamesIff(w: World, i: nat, bytes: nat, os: IoOs)
    requires Inv(w) && !w.forgets && i < |w.posted| && w.posted[i].op == Operation.Accept
    ensures w.current.Some?
    ensures KeepsNames(w, w.Dequeue(i).HandleIo(w.posted[i].key, w.posted[i].buf, bytes, os)) <==>
            w.At(w.current.value).id == NIL_UUID && !RefusesNamed(w, os.connection.accept)
  {
    hide World.HandleIo, InvExcept, TallyOf, Held, Resolves, RefusesNamed, NoAccept, KeepsNames, World.HeadAged;
    AcceptAccounted(w, i);
    DequeueNames(w, i);
    AcceptHandledNames(w.Dequeue(i), w.posted[i].key, w.posted[i].buf, bytes, os);
    KeepsFrom(w, w.Dequeue(i), w.Dequeue(i).HandleIo(w.posted[i].key, w.posted[i].buf, bytes, os));
    RefusesFrom(w, w.Dequeue(i), os.connection.accept);
  }

  lemma {:induction false} KeepsFrom(w: World, w1: World, w': World)
    requires forall id :: Resolves(w1, id) <==> Resolves(w, id)
    ensures KeepsNames(w1, w') <==> KeepsNames(w, w')
  {
  }

  lemma {:induction false} RefusesFrom(w: World, w1: World, os: AcceptOs)
    requires w1.HeadAged() == w.HeadAged() && w1.queue == w.queue && forall q :: w1.At(q) == w.At(q)
    ensures RefusesNamed(w1, os) <==> RefusesNamed(w, os)
  {
  }

  lemma {:induction false} AcceptHandledNames(w: World, r: Node, b: Node, bytes: nat, os: IoOs)
    requires Inv(w) && !w.forgets && NoAccept(w) && AcceptTarget(w) && Held(w, b) && w.current.value != r
    requires w.BufAt(b).operation == Operation.Accept && r in w.sockets.live && w.At(r).state == LISTENING
    ensures KeepsNames(w, w.HandleIo(r, b, bytes, os)) <==>
            w.At(w.current.value).id == NIL_UUID && !RefusesNamed(w, os.connection.accept)
  {
    hide *;
    TargetNames(w);
    var a := w.current.value;
    HandleIoAccept(w, r, b, bytes, os);
    HandleAccepted(w, r, b, os.connection);
    var w1 := Accepted(w, r, b, os.connection);
    HeadFacts(w);
    AcceptedFrame(w, r, b, os.connection);
    PickedUp(w, r, b, os.connection);
    ListeningRank(w, w1, r);
    CleanupSame(w1, r, os.teardown);
    FrameSame(w, w1, w1.CleanupIfLast(r, os.teardown), a, os.connection.accept);
    AcceptNamesIff(w, w1.CleanupIfLast(r, os.teardown), a, os.connection.accept);
  }

  lemma {:induction false} TargetNames(w: World)
    requires Inv(w) && !w.forgets && NoAccept(w) && AcceptTarget(w)
    ensures w.current.Some? && w.sockets.Valid() && w.nextId !in w.ids && NIL_UUID !in w.ids
    ensures var a := w.current.value;
            && a in w.sockets.live && a in w.sockets.mem && a !in w.queue && w.At(a).id < w.nextId
            && (w.At(a).id != NIL_UUID ==> Registered(w, a))
  {
    hide InvExcept, TallyOf;
    Basics(w);
    RestingFacts(w, w.current.value);
  }

  lemma {:induction false} HeadFacts(w: World)
    requires Inv(w) && !w.forgets
    ensures w.HeadAged() ==> w.queue != []
    ensures w.queue != [] ==>
              && w.queue[0] in w.sockets.live && w.queue[0] in w.sockets.mem && w.At(w.queue[0]).state == DISCONNECTED
              && (w.At(w.queue[0]).id != NIL_UUID ==> Registered(w, w.queue[0]))
    ensures w.queue != [] ==> HeadRests(w)
  {
    hide InvExcept, TallyOf;
    if w.queue != [] {
      QueuedFacts(w);
    }
  }

  lemma {:induction false} FrameSame(w: World, w1: World, w2: World, a: Node, os: AcceptOs)
    requires w2.sockets == w1.sockets && w2.ids == w1.ids
    ensures forall q :: w2.At(q) == w1.At(q)
    ensures w.HeadAged() && HeadKept(w, w1, a, os) ==> HeadKept(w, w2, a, os)
  {
    hide World.HeadAged;
    if w.HeadAged() {
      HeadInQueue(w);
    }
  }

  lemma {:induction false} HandleAccepted(w: World, r: Node, b: Node, os: ConnectionOs)
    requires w.BufAt(b).operation == Operation.Accept && w.current.Some?
    ensures w.HandleConnection(r, b, os) == Accepted(w, r, b, os)
  {
  }

  lemma {:induction false} CleanupSame(w: World, r: Node, os: TeardownOs)
    requires w.At(r).state.Rank() <= CONNECTED.Rank()
    ensures var w' := w.CleanupIfLast(r, os); w'.sockets == w.sockets && w'.ids == w.ids
  {
  }

  lemma {:induction false} DequeueNames(w: World, i: nat)
    requires i < |w.posted|
    ensures var w1 := w.Dequeue(i);
            && (forall id :: Resolves(w1, id) <==> Resolves(w, id)) && w1.HeadAged() == w.HeadAged()
            && w1.current == w.current && w1.queue == w.queue && w1.forgets == w.forgets && forall q ::
                w1.At(q) == w.At(q)
  {
  }

  lemma {:induction false} AcceptNamesIff(w: World, w': World, a: Node, os: AcceptOs)
    requires w.nextId !in w.ids && w.At(a).id < w.nextId && a in w.sockets.live
    requires w.At(a).id != NIL_UUID ==> Registered(w, a)
    requires w.HeadAged() && w.At(w.queue[0]).id != NIL_UUID ==>
        Registered(w, w.queue[0]) && w.queue[0] in w.sockets.live
    requires NIL_UUID !in w.ids
    requires a in w'.sockets.live ==> w'.At(a).id == w.nextId
    requires forall id :: id in w.ids && id != w.nextId ==> id in w'.ids && w'.ids[id] == w.ids[id]
    requires forall q :: q in w.sockets.live && q != a && !(w.HeadAged() && q == w.queue[0]) ==>
               q in w'.sockets.live && w'.At(q) == w.At(q)
    requires w.HeadAged() ==> HeadKept(w, w', a, os)
    ensures KeepsNames(w, w') <==> w.At(a).id == NIL_UUID && !RefusesNamed(w, os)
  {
    hide World.HeadAged;
    if w.HeadAged() {
      HeadInQueue(w);
    }
    if w.At(a).id != NIL_UUID {
      assert Resolves(w, w.At(a).id) && !Resolves(w', w.At(a).id);
    } else if RefusesNamed(w, os) {
      assert Resolves(w, w.At(w.queue[0]).id) && !Resolves(w', w.At(w.queue[0]).id);
    }
  }
}
