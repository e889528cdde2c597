/** What connecting, listening and a connection that starts make of their socket, and the ids they return. */
module Openings {
  import opened SocketTypes
  import opened RecyclableList
  import opened TimeWait
  import opened Engine
  import opened EngineInvariant
  import opened EngineSteps
  import opened Teardown
  import opened Completions
  import opened Continuity
  import opened Frames
  import opened Names
  import opened Forgetting
  import opened Outcomes
  import opened Limits
  import opened SourceNames
  import opened Queries
  import opened Endings
  import Chunking

  // ---------- listening ----------

  lemma {:induction false} ListenerRecord(w: World, f: set<Node>)
    requires InvExcept(w, f)
    ensures var r, w' := w.sockets.Slot(), Listener(w);
            && w'.At(r) == NEW_SOCKET.(state := LISTENING) && w'.posted == w.posted && TallyOf(w.posted, r) == NOTHING
            && w'.mgr == w.mgr && w'.kind == w.kind && w'.timeWait == w.timeWait && w'.buffers == w.buffers
  {
    CreateSocketKeeps(w, f);
    hide InvExcept, TallyOf;
    var r, w1 := w.sockets.Slot(), w.CreateSocket().Do(Take(w.sockets.Slot()));
    assert w1.At(r) == NEW_SOCKET && r in w1.sockets.mem;
  }

  lemma {:induction false} ListenerAged(w: World)
    requires Newcomer(w, Listener(w), w.sockets.Slot()) && (w.queue != [] ==> HeadRests(w))
    ensures Listener(w).HeadAged() <==> w.HeadAged()
  {
    hide Listener;
  }

  lemma {:induction false} ListenCalls(w: World, os: ListenOs)
    requires w.sockets.Valid() && ReachesAccept(w, os)
    ensures var r := w.sockets.Slot();
            var (w1, accepting) := Listener(w).AcceptNewSocket(r, os.accept);
            var w2 := w1.AddSocketToMap(r, NIL_UUID).(mgr := SERVER_LISTENING);
            w.ListenToNewSocket(os) == if accepting then (w2, w2.At(r).id)
                                       else (w1.DeleteSocket(r, NEVER_CONNECTED), NIL_UUID)
  {
    NewcomerMade(w);
    hide World.GenerateSocket, World.DeleteSocket, World.SetState, World.AcceptNewSocket, World.AddSocketToMap;
  }

  /** The returned id is the new entry of the map, for a listening socket with one accept in flight. */
  ghost predicate NowListening(w: World, w': World, id: Uuid, r: Node) {
    && id == w.nextId && w'.nextId == w.nextId + 1 && w'.ids == w.ids[id := r] && w'.mgr == SERVER_LISTENING
    && r !in w.sockets.live && r in w'.sockets.live && w'.At(r) == NEW_SOCKET.(id := id, state := LISTENING)
    && TallyOf(w'.posted, r) == NOTHING.(accepts := 1)
  }

  /** Nothing was registered. */
  ghost predicate NotListening(w: World, w': World, id: Uuid) {
    id == NIL_UUID && w'.ids == w.ids && w'.nextId == w.nextId && w'.mgr == w.mgr && w'.posted == w.posted
  }

  lemma {:induction false} ListenStopped(w: World, os: ListenOs)
    requires w.sockets.Valid() && !ReachesAccept(w, os)
    ensures NotListening(w, w.ListenToNewSocket(os).0, w.ListenToNewSocket(os).1)
  {
    hide World.GenerateSocket, World.DeleteSocket, World.SetState, Only;
    if w.mgr == READY && w.kind == SERVER {
      NewcomerMade(w);
      GenerateSame(w, false, os.createOk);
      var r := w.sockets.Slot();
      var w1 := w.GenerateSocket(false, true).0;
      var w2 := w1.SetState(r, ASSOCIATED);
      var w3 := w2.SetState(r, BOUND);
      DeleteRest(w1, r, NEVER_CONNECTED);
      SetStateRest(w1, r, ASSOCIATED);
      DeleteRest(w2, r, NEVER_CONNECTED);
      SetStateRest(w2, r, BOUND);
      DeleteRest(w3, r, NEVER_CONNECTED);
      GenerateOnly(w, false, os.createOk);
    }
  }

  lemma {:induction false} SetStateRest(w: World, r: Node, st: SocketState)
    ensures Rest(w, w.SetState(r, st))
  {
  }

  /** The listening socket once its first accept is in flight. */
  lemma {:induction false} FirstAccept(w: World, os: AcceptOs, f: set<Node>)
    requires InvExcept(w, f) && Aside(w, f) && !w.forgets
    ensures var r := w.sockets.Slot();
            var (w1, accepting) := Listener(w).AcceptNewSocket(r, os);
            && (accepting <==> Accepts(w, os)) && w1.ids == w.ids && w1.nextId == w.nextId && w1.mgr == w.mgr
            && r !in w.sockets.live && r in w1.sockets.live && r in w1.sockets.mem
            && w1.At(r) == NEW_SOCKET.(state := LISTENING)
            && (accepting ==> TallyOf(w1.posted, r) == NOTHING.(accepts := 1)) && (!accepting ==> w1.posted == w.posted)
  {
    hide *;
    var r, w0 := w.sockets.Slot(), Listener(w);
    IdsAt(w, f);
    HeadOwned(w, f);
    ListenerIs(w);
    ListenerAged(w);
    ListenerRecord(w, f);
    NewcomerIds(w, w0, r);
    NewcomerLive(w, w0, r);
    AcceptsIff(w0, r, os);
    SameAccepts(w, w0, os);
    AcceptOnly(w0, r, os);
    AcceptNext(w0, r, os);
    AcceptMgr(w0, r, os);
    ListenerSpared(w, w0, os);
    AcceptTally(w0.posted, w0.AcceptNewSocket(r, os).0.posted, r, w0.AcceptNewSocket(r, os).1);
  }

  lemma {:induction false} NewcomerLive(w: World, w': World, g: Node)
    requires Newcomer(w, w', g)
    ensures g !in w.sockets.live && g in w'.sockets.live && g in w'.sockets.mem && w'.sockets.Valid()
  {
  }

  lemma {:induction false} AcceptMgr(w: World, listener: Node, os: AcceptOs)
    ensures w.AcceptNewSocket(listener, os).0.mgr == w.mgr
  {
    hide World.DeleteSocket;
    var (w1, g) := w.GenerateSocket(true, os.createOk);
    GenerateSame(w, true, os.createOk);
    if g.Some? {
      DeleteRest(w1, g.value, NEVER_CONNECTED);
      DeleteRest(w1.SetState(g.value, ASSOCIATED).(current := Some(g.value)).CreateBuffer(Operation.Accept), g.value,
        NEVER_CONNECTED);
    }
  }

  /** The accept works on another socket than the listener. */
  lemma {:induction false} ListenerSpared(w: World, w0: World, os: AcceptOs)
    requires w0 == Listener(w) && Newcomer(w, w0, w.sockets.Slot()) && (w.queue != [] ==> HeadRests(w))
    requires w0.queue == w.queue
    ensures var r := w.sockets.Slot();
            var w1 := w0.AcceptNewSocket(r, os).0;
            r in w1.sockets.live && r in w1.sockets.mem && w1.At(r) == w0.At(r)
  {
    var r := w.sockets.Slot();
    hide Listener, World.AcceptNewSocket, World.HeadAged, Generated;
    AcceptOnly(w0, r, os);
    GeneratedIs(w0, os.createOk);
    if w0.HeadAged() {
      HeadInQueue(w0);
    }
    InMemory(w, w0.AcceptNewSocket(r, os).0, r);
  }

  lemma {:induction false} AcceptTally(ps: seq<Posted>, qs: seq<Posted>, r: Node, ok: bool)
    requires TallyOf(ps, r) == NOTHING && |qs| == |ps| + (if ok then 1 else 0) && qs[..|ps|] == ps
    requires ok ==> qs[|ps|].op == Operation.Accept && qs[|ps|].key == r
    ensures ok ==> TallyOf(qs, r) == NOTHING.(accepts := 1)
    ensures !ok ==> qs == ps
  {
    hide TallyOf;
    if ok {
      OneMore(ps, qs[|ps|], r);
      assert qs == ps + [qs[|ps|]];
    }
  }

  lemma {:induction false} OneMore(ps: seq<Posted>, p: Posted, r: Node)
    requires TallyOf(ps, r) == NOTHING && p.op == Operation.Accept && p.key == r
    ensures TallyOf(ps + [p], r) == NOTHING.(accepts := 1)
  {
    hide *;
    TallyAppend(ps, p, r);
    NothingPlus(TallyOf(ps, r), Of(p, r));
    AcceptSingle(p, r);
  }

  lemma {:induction false} NothingPlus(t: Tally, u: Tally)
    requires t == NOTHING
    ensures t.Plus(u) == u
  {
  }

  lemma {:induction false} AcceptSingle(p: Posted, r: Node)
    requires p.op == Operation.Accept && p.key == r
    ensures Of(p, r) == NOTHING.(accepts := 1)
  {
  }

  /** A call to listen returns an id if and only if the manager is a server's, not listening yet, and no system
      call up to and with the first accept refuses.  The id is new, stored, and names a live listening socket
      that carries it and has one accept in flight, and the manager is listening; otherwise the id is nil and
      none was stored. */
  lemma {:induction false} ListensIff(w: World, os: ListenOs, f: set<Node>)
    requires InvExcept(w, f) && Aside(w, f) && !w.forgets
    ensures var (w', id) := w.ListenToNewSocket(os);
            && (id != NIL_UUID <==> ReachesAccept(w, os) && Accepts(w, os.accept))
            && (id != NIL_UUID ==> NowListening(w, w', id, w.sockets.Slot()))
            && (id == NIL_UUID ==> NotListening(w, w', id))
  {
    hide *;
    IdsAt(w, f);
    if ReachesAccept(w, os) {
      ListenCalls(w, os);
      FirstAccept(w, os.accept, f);
      var r := w.sockets.Slot();
      var w1 := Listener(w).AcceptNewSocket(r, os.accept).0;
      RegisteredAs(w1, r);
      DeletedAs(w1, r);
      if Accepts(w, os.accept) {
        NowFrom(w, w1, r);
      } else {
        NotFrom(w, w1, w1.DeleteSocket(r, NEVER_CONNECTED));
      }
    } else {
      ListenStopped(w, os);
      NotMeans(w, w.ListenToNewSocket(os).0, w.ListenToNewSocket(os).1);
    }
  }

  lemma {:induction false} NotMeans(w: World, w': World, id: Uuid)
    requires NotListening(w, w', id)
    ensures id == NIL_UUID
  {
  }

  lemma {:induction false} NotFrom(w: World, w1: World, w': World)
    requires w1.ids == w.ids && w1.nextId == w.nextId && w1.mgr == w.mgr && w1.posted == w.posted
    requires w'.ids == w1.ids && w'.nextId == w1.nextId && w'.mgr == w1.mgr && w'.posted == w1.posted
    ensures NotListening(w, w', NIL_UUID)
  {
  }

  lemma {:induction false} NowFrom(w: World, w1: World, r: Node)
    requires w1.ids == w.ids && w1.nextId == w.nextId && r !in w.sockets.live && r in w1.sockets.live
    requires w1.At(r) == NEW_SOCKET.(state := LISTENING) && r in w1.sockets.mem
    requires TallyOf(w1.posted, r) == NOTHING.(accepts := 1)
    ensures var w' := w1.AddSocketToMap(r, NIL_UUID).(mgr := SERVER_LISTENING);
            NowListening(w, w', w'.At(r).id, r) && w'.At(r).id == w.nextId
  {
    hide TallyOf;
  }

  lemma {:induction false} RegisteredAs(w: World, r: Node)
    requires r in w.sockets.mem
    ensures w.AddSocketToMap(r, NIL_UUID).At(r).id == w.nextId
  {
  }

  lemma {:induction false} DeletedAs(w: World, r: Node)
    ensures var w' := w.DeleteSocket(r, NEVER_CONNECTED);
            w'.ids == w.ids && w'.nextId == w.nextId && w'.mgr == w.mgr && w'.posted == w.posted
  {
    DeleteRest(w, r, NEVER_CONNECTED);
    hide World.DeleteSocket;
  }

  /** The id a successful listen returns is reported as listening. */
  lemma {:induction false} ListenIsReported(w: World, os: ListenOs, f: set<Node>)
    requires InvExcept(w, f) && Aside(w, f) && !w.forgets && ReachesAccept(w, os) && Accepts(w, os.accept)
    ensures var (w', id) := w.ListenToNewSocket(os); SaysListening(w', id) && !SaysConnected(w', id)
  {
    hide InvExcept, TallyOf, Aside, World.ListenToNewSocket, ReachesAccept, Accepts;
    ListensIff(w, os, f);
  }

  // ---------- connecting ----------

  /** The socket a connection attempt works on: the head of the queue if it is old enough, or else a new one. */
  function Picked(w: World): Node { if w.HeadAged() then w.queue[0] else w.sockets.Slot() }

  /** Its record before it is registered: a recycled one with its rest over, or a new one, bound. */
  function Prepared(w: World): Socket {
    if w.HeadAged() then w.At(w.queue[0]).(timeWaitStartTime := 0) else NEW_SOCKET.(state := BOUND)
  }

  /** The state in which the connection is posted. */
  function Connecting(w: World, os: ConnectOs): World {
    w.GenerateSocket(true, os.createOk).0.PrepareSocket(Picked(w), os.associateOk, os.bind).0
  }

  lemma {:induction false} PickedOld(w: World, f: set<Node>, os: ConnectOs)
    requires InvExcept(w, f) && Aside(w, f) && w.HeadAged()
    ensures var w', r := w.GenerateSocket(true, os.createOk).0, w.queue[0];
            && w.GenerateSocket(true, os.createOk).1 == Some(r) &&
                w'.PrepareSocket(r, os.associateOk, os.bind) == (w', true)
            && w'.At(r) == w.At(r).(timeWaitStartTime := 0) && w'.queue == w.queue[1..]
            && w'.sockets.live == w.sockets.live && r in w'.sockets.live && r in w'.sockets.mem
            && w'.ids == w.ids && w'.nextId == w.nextId && w'.mgr == w.mgr && w'.posted == w.posted
            && w'.buffers == w.buffers
  {
    hide TallyOf;
    assert w.queue[0] in w.queue;
    assert SockOk(w, w.queue[0]);
  }

  lemma {:induction false} PickedNew(w: World, f: set<Node>, os: ConnectOs)
    requires InvExcept(w, f) && Aside(w, f) && !w.HeadAged() && os.createOk
    ensures var w', r := w.GenerateSocket(true, os.createOk).0, w.sockets.Slot();
            && w.GenerateSocket(true, os.createOk).1 == Some(r) && r !in w.sockets.live
            && w'.At(r) == NEW_SOCKET && w'.queue == w.queue
            && w'.sockets.live == w.sockets.live + [r] && r in w'.sockets.mem
            && w'.ids == w.ids && w'.nextId == w.nextId && w'.mgr == w.mgr && w'.posted == w.posted
            && w'.buffers == w.buffers
  {
    CreateSocketKeeps(w, f);
    SlotAppended(w, f);
    hide InvExcept, TallyOf;
  }

  lemma {:induction false} SlotAppended(w: World, f: set<Node>)
    requires InvExcept(w, f)
    ensures w.CreateSocket().sockets.live == w.sockets.live + [w.sockets.Slot()]
    ensures w.sockets.Slot() in w.CreateSocket().sockets.mem
  {
    CreateKeeps(w.sockets, NEW_SOCKET, AssignSocket);
  }

  lemma {:induction false} BoundNew(w: World, r: Node)
    requires r in w.sockets.mem && w.At(r) == NEW_SOCKET
    ensures var (w', go) := w.PrepareSocket(r, true, Bound);
            && go && w'.At(r) == NEW_SOCKET.(state := BOUND) && r in w'.sockets.mem
            && w' == w.(sockets := w'.sockets) && w'.sockets.live == w.sockets.live
  {
  }

  lemma {:induction false} ReadyToConnect(w: World, os: ConnectOs, f: set<Node>)
    requires InvExcept(w, f) && Aside(w, f) && Reaches(w, os)
    ensures var w', r := Connecting(w, os), Picked(w);
            && w.GenerateSocket(true, os.createOk).1 == Some(r)
            && w.GenerateSocket(true, os.createOk).0.PrepareSocket(r, os.associateOk, os.bind).1
            && w'.At(r) == Prepared(w) && w'.queue == (if w.HeadAged() then w.queue[1..] else w.queue)
            && w'.sockets.live == w.sockets.live + (if w.HeadAged() then [] else [r])
            && r in w'.sockets.live && r in w'.sockets.mem
            && w'.ids == w.ids && w'.nextId == w.nextId && w'.mgr == w.mgr && w'.posted == w.posted
            && w'.buffers == w.buffers
  {
    hide InvExcept, TallyOf, Aside, World.GenerateSocket, World.PrepareSocket, World.HeadAged;
    if w.HeadAged() {
      PickedOld(w, f, os);
    } else {
      PickedNew(w, f, os);
      BoundNew(w.GenerateSocket(true, os.createOk).0, w.sockets.Slot());
    }
  }

  /** The length of a new buffer: a recycled one keeps the length of its last use. */
  function BufferLen(w: World): nat {
    if w.buffers.pool == [] then 4096 else w.BufAt(w.buffers.pool[0]).bufLen
  }

  lemma {:induction false} NewBufferLen(w: World, op: Operation)
    requires w.buffers.Valid()
    ensures w.CreateBuffer(op).BufAt(w.buffers.Slot()) == Buffer(op, BufferLen(w))
  {
    if w.buffers.pool != [] {
      assert w.buffers.pool[0] in w.buffers.pool;
    }
  }

  /** A connection is posted for the picked socket under the id given, or a new one. */
  ghost predicate NowConnecting(w: World, w': World, id: Uuid, given: Uuid) {
    var r := Picked(w);
    && id == (if given == NIL_UUID then w.nextId else given)
    && w'.nextId == (if given == NIL_UUID then w.nextId + 1 else w.nextId)
    && w'.ids == w.ids[id := r] && w'.mgr == w.mgr
    && w'.At(r) == Prepared(w).(id := id)
    && w'.queue == (if w.HeadAged() then w.queue[1..] else w.queue)
    && w'.sockets.live == w.sockets.live + (if w.HeadAged() then [] else [r])
    && |w'.posted| == |w.posted| + 1 && w'.posted[..|w.posted|] == w.posted
    && w'.posted[|w.posted|] == Posted(w.buffers.Slot(), r, Operation.Connect, BufferLen(w))
    && w'.buffers.live == w.buffers.live + [w.buffers.Slot()]
  }

  /** A connection attempt in which no system call refuses. */
  lemma {:induction false} ConnectOutcome(w: World, given: Uuid, os: ConnectOs, f: set<Node>)
    requires InvExcept(w, f) && Aside(w, f) && NIL_UUID <= given && Reaches(w, os)
    ensures var (w', id) := w.ConnectToNewSocket(given, os);
            NowConnecting(w, w', id, given) && id != NIL_UUID
  {
    ReadyToConnect(w, os, f);
    NilIsLow(w, f);
    BuffersKept(w, f);
    ConnectCalls(w, given, os);
    hide *;
    var w1, r := Connecting(w, os), Picked(w);
    SlotAdded(w1);
    SameBufferLen(w, w1);
    PostedFields(w1, r, given);
    NowConnects(w, w1, w.ConnectToNewSocket(given, os).0, given);
  }

  lemma {:induction false} SlotAdded(w: World)
    requires w.buffers.Valid()
    ensures w.buffers.Create(NewBuffer(Operation.Connect), AssignBuffer).live == w.buffers.live + [w.buffers.Slot()]
  {
    CreateKeeps(w.buffers, NewBuffer(Operation.Connect), AssignBuffer);
  }

  /** The state after a posted and registered connection. */
  function ConnectPosted(w: World, r: Node, given: Uuid): World {
    w.CreateBuffer(Operation.Connect).Post(w.buffers.Slot(), r, Operation.Connect).Do(Publish(r)).AddSocketToMap(r,
      given)
  }

  lemma {:induction false} ConnectCalls(w: World, given: Uuid, os: ConnectOs)
    requires Reaches(w, os) && w.GenerateSocket(true, os.createOk).1 == Some(Picked(w))
    requires w.GenerateSocket(true, os.createOk).0.PrepareSocket(Picked(w), os.associateOk, os.bind).1
    ensures var w' := ConnectPosted(Connecting(w, os), Picked(w), given);
            w.ConnectToNewSocket(given, os) == (w', w'.At(Picked(w)).id)
  {
    hide World.GenerateSocket, World.PrepareSocket, World.CreateBuffer, World.AddSocketToMap, World.HeadAged, Picked;
  }

  lemma {:induction false} NowConnects(w: World, w1: World, w': World, given: Uuid)
    requires var r := Picked(w);
             && w1.At(r) == Prepared(w) && w1.queue == (if w.HeadAged() then w.queue[1..] else w.queue)
             && w1.sockets.live == w.sockets.live + (if w.HeadAged() then [] else [r])
             && w1.ids == w.ids && w1.nextId == w.nextId && w1.mgr == w.mgr && w1.posted == w.posted
             && w1.buffers == w.buffers
    requires var b, r, id := w1.buffers.Slot(), Picked(w), if given == NIL_UUID then w1.nextId else given;
             && w'.At(r) == w1.At(r).(id := id) && w'.ids == w1.ids[id := r] && w'.mgr == w1.mgr && w'.queue == w1.queue
             && w'.nextId == (if given == NIL_UUID then w1.nextId + 1 else w1.nextId)
             && w'.sockets.live == w1.sockets.live && w'.buffers.live == w1.buffers.live + [b]
             && w'.posted == w1.posted + [Posted(b, r, Operation.Connect, BufferLen(w))]
    ensures NowConnecting(w, w', w'.At(Picked(w)).id, given)
    ensures w'.At(Picked(w)).id == if given == NIL_UUID then w.nextId else given
  {
    hide World.HeadAged, Picked, Prepared;
  }

  lemma {:induction false} SameBufferLen(w: World, w1: World)
    requires w1.buffers == w.buffers
    ensures BufferLen(w1) == BufferLen(w)
  {
  }

  lemma {:induction false} PostedFields(w: World, r: Node, given: Uuid)
    requires r in w.sockets.mem && w.buffers.Valid()
    ensures var b, id := w.buffers.Slot(), if given == NIL_UUID then w.nextId else given;
            var w' := ConnectPosted(w, r, given);
            && w'.At(r) == w.At(r).(id := id) && w'.ids == w.ids[id := r] && w'.mgr == w.mgr && w'.queue == w.queue
            && w'.nextId == (if given == NIL_UUID then w.nextId + 1 else w.nextId)
            && w'.sockets.live == w.sockets.live &&
                w'.buffers == w.buffers.Create(NewBuffer(Operation.Connect), AssignBuffer)
            && w'.posted == w.posted + [Posted(b, r, Operation.Connect, BufferLen(w))]
  {
    NewBufferLen(w, Operation.Connect);
    hide Recycler.Valid, BufferLen;
  }

  /** A connection attempt in which one refuses returns nil and registers and posts nothing. */
  lemma {:induction false} NoConnectOutcome(w: World, given: Uuid, os: ConnectOs, f: set<Node>)
    requires InvExcept(w, f) && Aside(w, f) && !Reaches(w, os)
    requires NIL_UUID <= given < w.nextId && (w.forgets || (given != NIL_UUID ==> given in w.ids && w.ids[given] in f))
    ensures var (w', id) := w.ConnectToNewSocket(given, os);
            id == NIL_UUID && w'.ids == w.ids && w'.nextId == w.nextId && w'.mgr == w.mgr && w'.posted == w.posted
  {
    hide InvExcept, TallyOf, Aside, Quiet, Reaches, World.ConnectToNewSocket;
    ConnectsIff(w, given, os, f);
    ConnectKeeps(w, given, os, f);
    NoConnectPosts(w, given, os, f);
  }

  lemma {:induction false} NoConnectPosts(w: World, given: Uuid, os: ConnectOs, f: set<Node>)
    requires InvExcept(w, f) && Aside(w, f) && !Reaches(w, os)
    ensures w.ConnectToNewSocket(given, os).0.posted == w.posted
  {
    GenerateSame(w, true, os.createOk);
    hide InvExcept, TallyOf, Aside, World.GenerateSocket, World.PrepareSocket, World.DeleteSocket,
         World.CreateBuffer, World.AddSocketToMap, Reaches;
    if w.mgr != NOT_READY && w.kind == CLIENT {
      var (w1, g) := w.GenerateSocket(true, os.createOk);
      if g.Some? {
        ReachesPrepared(w, os, f);
        var (w2, go) := w1.PrepareSocket(g.value, os.associateOk, os.bind);
        PreparePosts(w1, g.value, os.associateOk, os.bind);
        DeletedAs(w2, g.value);
        BufferPosts(w2);
        DeletedAs(w2.CreateBuffer(Operation.Connect), g.value);
      }
    }
  }

  lemma {:induction false} BufferPosts(w: World)
    ensures w.CreateBuffer(Operation.Connect).posted == w.posted
  {
  }

  lemma {:induction false} PreparePosts(w: World, r: Node, associateOk: bool, bind: BindOs)
    ensures w.PrepareSocket(r, associateOk, bind).0.posted == w.posted
  {
    hide World.DeleteSocket;
    DeletedAs(w, r);
    DeletedAs(w.SetState(r, ASSOCIATED), r);
  }

  /** An attempt that gets as far as the connection call reaches its end exactly if that is accepted. */
  lemma {:induction false} ReachesPrepared(w: World, os: ConnectOs, f: set<Node>)
    requires InvExcept(w, f) && Aside(w, f) && w.mgr != NOT_READY && w.kind == CLIENT
    requires w.GenerateSocket(true, os.createOk).1.Some?
    ensures var (w1, g) := w.GenerateSocket(true, os.createOk);
            w1.PrepareSocket(g.value, os.associateOk, os.bind).1 && os.htonsOk && os.connectOk ==> Reaches(w, os)
  {
    hide InvExcept, TallyOf, World.GenerateSocket, World.PrepareSocket, World.HeadAged;
    if !w.HeadAged() {
      if os.createOk {
        PickedNew(w, f, os);
        var w1 := w.GenerateSocket(true, os.createOk).0;
        PrepareGoes(w1, w.sockets.Slot(), os.associateOk, os.bind);
      } else {
        GeneratedSome(w, os.createOk);
      }
    }
  }

  // ---------- refused connections ----------

  /** What a refused connection attempt leaves in the list: the socket it took or made is deleted, unless it
      is a new one whose options were refused; and a recycled one has left the queue. */
  ghost predicate NotConnected(w: World, w': World, os: ConnectOs) {
    if w.mgr == NOT_READY || w.kind != CLIENT then w' == w
    else if w.HeadAged() then
      w'.queue == w.queue[1..] && forall q :: q in w'.sockets.live <==> q in w.sockets.live && q != w.queue[0]
    else
      && w'.queue == w.queue
      && (forall q :: q in w'.sockets.live <==>
            q in w.sockets.live || (q == w.sockets.Slot() && os.createOk && os.associateOk && os.bind.OptionRefused?))
  }

  lemma {:induction false} DeletedList(w: World, r: Node)
    requires w.sockets.Valid() && r in w.sockets.live && w.At(r).state !in {CONNECTED, FAILURE}
    ensures var w' := w.DeleteSocket(r, NEVER_CONNECTED);
            w'.queue == w.queue && forall q :: q in w'.sockets.live <==> q in w.sockets.live && q != r
  {
    DeleteRest(w, r, NEVER_CONNECTED);
    DeleteOnly(w, r, NEVER_CONNECTED);
    DeleteRemoves(w, r);
    hide World.DeleteSocket;
  }

  lemma {:induction false} PreparedList(w: World, r: Node, os: ConnectOs)
    requires w.sockets.Valid() && r in w.sockets.live && r in w.sockets.mem && w.At(r) == NEW_SOCKET
    ensures var (w', go) := w.PrepareSocket(r, os.associateOk, os.bind);
            && (go <==> os.associateOk && os.bind.Bound?) && w'.queue == w.queue && w'.buffers == w.buffers
            && (go ==> w'.sockets.Valid() && r in w'.sockets.live && w'.At(r).state == BOUND)
            && forall q :: q in w'.sockets.live <==>
                 q in w.sockets.live && (q != r || go || (os.associateOk && os.bind.OptionRefused?))
  {
    hide World.DeleteSocket, World.SetState;
    DeletedList(w, r);
    DeleteRest(w, r, NEVER_CONNECTED);
    StateSet(w, r, ASSOCIATED);
    var w1 := w.SetState(r, ASSOCIATED);
    DeletedList(w1, r);
    DeleteRest(w1, r, NEVER_CONNECTED);
    StateSet(w1, r, BOUND);
  }

  lemma {:induction false} StateSet(w: World, r: Node, st: SocketState)
    requires w.sockets.Valid() && r in w.sockets.live && r in w.sockets.mem
    ensures var w' := w.SetState(r, st);
            && w'.sockets.Valid() && w'.sockets.live == w.sockets.live && r in w'.sockets.mem && w'.At(r).state == st
            && w'.queue == w.queue && w'.buffers == w.buffers
  {
  }

  lemma {:induction false} BufferList(w: World, op: Operation)
    ensures var w' := w.CreateBuffer(op);
            w'.sockets == w.sockets && w'.queue == w.queue && forall q :: w'.At(q) == w.At(q)
  {
  }

  /** The rest of a connection attempt whose socket is prepared. */
  lemma {:induction false} RefusedFrom(w: World, r: Node, given: Uuid, os: ConnectOs)
    requires w.sockets.Valid() && r in w.sockets.live && w.At(r).state in {BOUND, DISCONNECTED}
    requires !(os.htonsOk && os.connectOk)
    ensures var w1 := if os.htonsOk then w.CreateBuffer(Operation.Connect) else w;
            var w' := w1.DeleteSocket(r, NEVER_CONNECTED);
            w'.queue == w.queue && forall q :: q in w'.sockets.live <==> q in w.sockets.live && q != r
  {
    hide World.DeleteSocket, World.CreateBuffer;
    BufferList(w, Operation.Connect);
    DeletedList(if os.htonsOk then w.CreateBuffer(Operation.Connect) else w, r);
  }

  lemma {:induction false} RefusedCalls(w: World, given: Uuid, os: ConnectOs)
    requires w.mgr != NOT_READY && w.kind == CLIENT && !(os.htonsOk && os.connectOk)
    requires w.GenerateSocket(true, os.createOk).1.Some?
    ensures var (w1, g) := w.GenerateSocket(true, os.createOk);
            var (w2, go) := w1.PrepareSocket(g.value, os.associateOk, os.bind);
            var w3 := if os.htonsOk then w2.CreateBuffer(Operation.Connect) else w2;
            w.ConnectToNewSocket(given, os).0 == if go then w3.DeleteSocket(g.value, NEVER_CONNECTED) else w2
  {
    hide World.GenerateSocket, World.PrepareSocket, World.CreateBuffer, World.DeleteSocket, World.AddSocketToMap;
  }

  lemma {:induction false} UnpreparedCalls(w: World, given: Uuid, os: ConnectOs)
    requires w.mgr != NOT_READY && w.kind == CLIENT && w.GenerateSocket(true, os.createOk).1.Some?
    requires var (w1, g) := w.GenerateSocket(true, os.createOk);
             !w1.PrepareSocket(g.value, os.associateOk, os.bind).1
    ensures var (w1, g) := w.GenerateSocket(true, os.createOk);
            w.ConnectToNewSocket(given, os).0 == w1.PrepareSocket(g.value, os.associateOk, os.bind).0
  {
    hide World.GenerateSocket, World.PrepareSocket, World.CreateBuffer, World.DeleteSocket, World.AddSocketToMap;
  }

  lemma {:induction false} RefusedOld(w: World, given: Uuid, os: ConnectOs, f: set<Node>)
    requires InvExcept(w, f) && Aside(w, f) && w.mgr != NOT_READY && w.kind == CLIENT && w.HeadAged()
    requires !(os.htonsOk && os.connectOk)
    ensures NotConnected(w, w.ConnectToNewSocket(given, os).0, os)
  {
    hide *;
    PickedOld(w, f, os);
    HeadInQueue(w);
    HeadState(w, f);
    SocketsKept(w, f, os);
    RefusedCalls(w, given, os);
    var w1 := w.GenerateSocket(true, os.createOk).0;
    RefusedFrom(w1, w.queue[0], given, os);
    OldRefused(w, w1, w.ConnectToNewSocket(given, os).0, os);
  }

  lemma {:induction false} OldRefused(w: World, w1: World, w': World, os: ConnectOs)
    requires w.mgr != NOT_READY && w.kind == CLIENT && w.HeadAged() && w.queue != []
    requires w1.sockets.live == w.sockets.live && w1.queue == w.queue[1..] && w'.queue == w1.queue
    requires forall q :: q in w'.sockets.live <==> q in w1.sockets.live && q != w.queue[0]
    ensures NotConnected(w, w', os)
  {
    hide World.HeadAged;
  }

  lemma {:induction false} SocketsKept(w: World, f: set<Node>, os: ConnectOs)
    requires InvExcept(w, f) && Aside(w, f)
    ensures w.GenerateSocket(true, os.createOk).0.sockets.Valid()
  {
    SocketsValid(w, f);
    GenerateOnly(w, true, os.createOk);
    hide InvExcept, Aside, World.GenerateSocket;
  }

  lemma {:induction false} RefusedNew(w: World, given: Uuid, os: ConnectOs, f: set<Node>)
    requires InvExcept(w, f) && Aside(w, f) && w.mgr != NOT_READY && w.kind == CLIENT && !w.HeadAged() && os.createOk
    requires !Reaches(w, os)
    ensures NotConnected(w, w.ConnectToNewSocket(given, os).0, os)
  {
    PickedNew(w, f, os);
    SocketsKept(w, f, os);
    hide InvExcept, Aside, World.GenerateSocket, World.PrepareSocket, World.ConnectToNewSocket, World.HeadAged;
    hide World.CreateBuffer, World.DeleteSocket;
    var r := w.sockets.Slot();
    var w1 := w.GenerateSocket(true, os.createOk).0;
    PreparedList(w1, r, os);
    var (w2, go) := w1.PrepareSocket(r, os.associateOk, os.bind);
    if go {
      RefusedCalls(w, given, os);
      RefusedFrom(w2, r, given, os);
    } else {
      UnpreparedCalls(w, given, os);
    }
    NewRefused(w, w1, w.ConnectToNewSocket(given, os).0, os);
  }

  lemma {:induction false} NewRefused(w: World, w1: World, w': World, os: ConnectOs)
    requires w.mgr != NOT_READY && w.kind == CLIENT && !w.HeadAged() && os.createOk
    requires w1.sockets.live == w.sockets.live + [w.sockets.Slot()] && w.sockets.Slot() !in w.sockets.live
    requires w'.queue == w.queue
    requires forall q :: q in w'.sockets.live <==>
        q in w1.sockets.live && (q != w.sockets.Slot() || (os.associateOk && os.bind.OptionRefused?))
    ensures NotConnected(w, w', os)
  {
    hide World.HeadAged;
    assert forall q :: q in w1.sockets.live <==> q in w.sockets.live || q == w.sockets.Slot();
  }

  lemma {:induction false} NotMade(w: World, given: Uuid, os: ConnectOs)
    requires !w.HeadAged() && !os.createOk
    ensures NotConnected(w, w.ConnectToNewSocket(given, os).0, os)
  {
  }

  /** What a connection attempt in which a system call refuses leaves of its socket. */
  lemma {:induction false} RefusedOutcome(w: World, given: Uuid, os: ConnectOs, f: set<Node>)
    requires InvExcept(w, f) && Aside(w, f) && !Reaches(w, os)
    ensures NotConnected(w, w.ConnectToNewSocket(given, os).0, os)
  {
    hide InvExcept, Aside, World.ConnectToNewSocket, World.HeadAged;
    if w.mgr != NOT_READY && w.kind == CLIENT {
      if w.HeadAged() {
        RefusedOld(w, given, os, f);
      } else if os.createOk {
        RefusedNew(w, given, os, f);
      } else {
        NotMade(w, given, os);
      }
    } else {
      NotReadyConnect(w, given, os);
    }
  }

  lemma {:induction false} NotReadyConnect(w: World, given: Uuid, os: ConnectOs)
    requires w.mgr == NOT_READY || w.kind != CLIENT
    ensures w.ConnectToNewSocket(given, os) == (w, NIL_UUID) && NotConnected(w, w, os)
  {
  }

  // ---------- accepting ----------

  /** The record of a socket about to be accepted into: a recycled one keeps its id. */
  function Awaited(w: World): Socket {
    if w.HeadAged() then w.At(w.queue[0]).(timeWaitStartTime := 0, state := ACCEPTING)
    else NEW_SOCKET.(state := ACCEPTING)
  }

  /** An accept is posted on the listener for the picked socket, which is the one awaited from now on. */
  ghost predicate NowAccepting(w: World, w': World, listener: Node) {
    var r := Picked(w);
    && w'.current == Some(r) && w'.At(r) == Awaited(w)
    && w'.ids == w.ids && w'.nextId == w.nextId && w'.mgr == w.mgr
    && w'.queue == (if w.HeadAged() then w.queue[1..] else w.queue)
    && w'.sockets.live == w.sockets.live + (if w.HeadAged() then [] else [r])
    && w'.posted == w.posted + [Posted(w.buffers.Slot(), listener, Operation.Accept, BufferLen(w))]
    && w'.buffers.live == w.buffers.live + [w.buffers.Slot()]
  }

  lemma {:induction false} AcceptCalls(w: World, listener: Node, os: AcceptOs)
    requires w.GenerateSocket(true, os.createOk).1 == Some(Picked(w)) && os.associateOk && os.acceptOk
    ensures var r, w1 := Picked(w), w.GenerateSocket(true, os.createOk).0;
            var w2 := w1.SetState(r, ASSOCIATED).(current := Some(r));
            w.AcceptNewSocket(listener, os)
            == (w2.CreateBuffer(Operation.Accept).Post(w2.buffers.Slot(), listener, Operation.Accept).Do(Publish(r))
                  .SetState(r, ACCEPTING), true)
  {
    hide World.GenerateSocket, World.SetState, World.CreateBuffer, Picked;
  }

  lemma {:induction false} AcceptFields(w: World, r: Node, listener: Node)
    requires r in w.sockets.mem && w.buffers.Valid()
    ensures var w2 := w.SetState(r, ASSOCIATED).(current := Some(r));
            var w' := w2.CreateBuffer(Operation.Accept).Post(w2.buffers.Slot(), listener, Operation.Accept)
                        .Do(Publish(r)).SetState(r, ACCEPTING);
            && w'.current == Some(r) && w'.At(r) == w.At(r).(state := ACCEPTING) && w'.ids == w.ids
            && w'.nextId == w.nextId && w'.mgr == w.mgr && w'.queue == w.queue && w'.sockets.live == w.sockets.live
            && w'.posted == w.posted + [Posted(w.buffers.Slot(), listener, Operation.Accept, BufferLen(w))]
            && w'.buffers.live == w.buffers.live + [w.buffers.Slot()]
  {
    var w2 := w.SetState(r, ASSOCIATED).(current := Some(r));
    NewBufferLen(w2, Operation.Accept);
    SameBufferLen(w, w2);
    CreateKeeps(w.buffers, NewBuffer(Operation.Accept), AssignBuffer);
    hide Recycler.Valid, BufferLen;
  }

  lemma {:induction false} ReadyToAccept(w: World, os: AcceptOs, f: set<Node>)
    requires InvExcept(w, f) && Aside(w, f) && (w.HeadAged() || os.createOk)
    ensures var w', r := w.GenerateSocket(true, os.createOk).0, Picked(w);
            && w.GenerateSocket(true, os.createOk).1 == Some(r)
            && w'.At(r).(state := ACCEPTING) == Awaited(w)
            && w'.queue == (if w.HeadAged() then w.queue[1..] else w.queue)
            && w'.sockets.live == w.sockets.live + (if w.HeadAged() then [] else [r]) && r in w'.sockets.mem
            && w'.ids == w.ids && w'.nextId == w.nextId && w'.mgr == w.mgr && w'.posted == w.posted
            && w'.buffers == w.buffers
  {
    hide InvExcept, TallyOf, Aside, World.GenerateSocket, World.PrepareSocket, World.HeadAged;
    var cos := ConnectOs(os.createOk, true, Bound, true, true);
    if w.HeadAged() {
      PickedOld(w, f, cos);
    } else {
      PickedNew(w, f, cos);
    }
  }

  /** An accept in which no system call refuses. */
  lemma {:induction false} AcceptCallOutcome(w: World, listener: Node, os: AcceptOs, f: set<Node>)
    requires InvExcept(w, f) && Aside(w, f) && Accepts(w, os)
    ensures var (w', ok) := w.AcceptNewSocket(listener, os); ok && NowAccepting(w, w', listener)
  {
    ReadyToAccept(w, os, f);
    BuffersKept(w, f);
    AcceptCalls(w, listener, os);
    var w1, r := w.GenerateSocket(true, os.createOk).0, Picked(w);
    hide *;
    AcceptFields(w1, r, listener);
    SameBufferLen(w, w1);
    NowAccepts(w, w1, w.AcceptNewSocket(listener, os).0, listener);
  }

  lemma {:induction false} NowAccepts(w: World, w1: World, w': World, listener: Node)
    requires var r := Picked(w);
             && w1.At(r).(state := ACCEPTING) == Awaited(w) && w1.buffers == w.buffers && w1.posted == w.posted
             && w1.queue == (if w.HeadAged() then w.queue[1..] else w.queue)
             && w1.sockets.live == w.sockets.live + (if w.HeadAged() then [] else [r])
             && w1.ids == w.ids && w1.nextId == w.nextId && w1.mgr == w.mgr
    requires var r := Picked(w);
             && w'.current == Some(r) && w'.At(r) == w1.At(r).(state := ACCEPTING) && w'.ids == w1.ids
             && w'.nextId == w1.nextId && w'.mgr == w1.mgr && w'.queue == w1.queue
             && w'.sockets.live == w1.sockets.live
             && w'.posted == w1.posted + [Posted(w1.buffers.Slot(), listener, Operation.Accept, BufferLen(w))]
             && w'.buffers.live == w1.buffers.live + [w1.buffers.Slot()]
    ensures NowAccepting(w, w', listener)
  {
    hide World.HeadAged, Picked, Awaited, BufferLen;
  }

  /** What an accept in which a system call refuses leaves: no operation; the socket it took or made is deleted,
      though it is still the one awaited if the accept call itself was refused. */
  ghost predicate NotAccepting(w: World, w': World, os: AcceptOs) {
    && w'.ids == w.ids && w'.posted == w.posted
    && w'.queue == (if w.HeadAged() then w.queue[1..] else w.queue)
    && (forall q :: q in w'.sockets.live <==> q in w.sockets.live && !(w.HeadAged() && q == w.queue[0]))
    && w'.current == if (w.HeadAged() || os.createOk) && os.associateOk then Some(Picked(w)) else w.current
  }

  lemma {:induction false} RefusedAcceptCalls(w: World, listener: Node, os: AcceptOs)
    requires w.GenerateSocket(true, os.createOk).1 == Some(Picked(w)) && !(os.associateOk && os.acceptOk)
    ensures var r, w1 := Picked(w), w.GenerateSocket(true, os.createOk).0;
            var w2 := w1.SetState(r, ASSOCIATED).(current := Some(r)).CreateBuffer(Operation.Accept);
            w.AcceptNewSocket(listener, os).0 == (if os.associateOk then w2 else w1).DeleteSocket(r, NEVER_CONNECTED)
  {
    hide World.GenerateSocket, World.SetState, World.CreateBuffer, World.DeleteSocket, Picked;
  }

  lemma {:induction false} RefusedAcceptFields(w: World, r: Node, associateOk: bool)
    requires w.sockets.Valid() && r in w.sockets.live && w.At(r).state in {INIT, DISCONNECTED}
    ensures var w2 := w.SetState(r, ASSOCIATED).(current := Some(r)).CreateBuffer(Operation.Accept);
            var w' := (if associateOk then w2 else w).DeleteSocket(r, NEVER_CONNECTED);
            && w'.ids == w.ids && w'.posted == w.posted && w'.queue == w.queue
            && w'.current == (if associateOk then Some(r) else w.current)
            && forall q :: q in w'.sockets.live <==> q in w.sockets.live && q != r
  {
    hide World.DeleteSocket, World.CreateBuffer;
    AssociatedFields(w, r);
    var w2 := w.SetState(r, ASSOCIATED).(current := Some(r)).CreateBuffer(Operation.Accept);
    DeletedList(if associateOk then w2 else w, r);
    DeletedAs(if associateOk then w2 else w, r);
    DeleteRest(if associateOk then w2 else w, r, NEVER_CONNECTED);
  }

  lemma {:induction false} AssociatedFields(w: World, r: Node)
    requires w.sockets.Valid() && r in w.sockets.live
    ensures var w' := w.SetState(r, ASSOCIATED).(current := Some(r)).CreateBuffer(Operation.Accept);
            && w'.sockets.Valid() && w'.sockets.live == w.sockets.live && w'.At(r).state == ASSOCIATED
            && w'.ids == w.ids && w'.posted == w.posted && w'.queue == w.queue && w'.current == Some(r)
  {
  }

  lemma {:induction false} RefusedAcceptOutcome(w: World, listener: Node, os: AcceptOs, f: set<Node>)
    requires InvExcept(w, f) && Aside(w, f) && !Accepts(w, os)
    ensures var (w', ok) := w.AcceptNewSocket(listener, os); !ok && NotAccepting(w, w', os)
  {
    SocketsValid(w, f);
    AcceptsIff(w, listener, os);
    if w.HeadAged() || os.createOk {
      ReadyToAccept(w, os, f);
      GeneratedIsLive(w, os, f);
      RefusedAcceptCalls(w, listener, os);
      var w1, r := w.GenerateSocket(true, os.createOk).0, Picked(w);
      hide *;
      RefusedAcceptFields(w1, r, os.associateOk);
      NotAccepts(w, w1, w.AcceptNewSocket(listener, os).0, os);
    } else {
      NoneGenerated(w, listener, os);
    }
  }

  lemma {:induction false} NoneGenerated(w: World, listener: Node, os: AcceptOs)
    requires !w.HeadAged() && !os.createOk
    ensures NotAccepting(w, w.AcceptNewSocket(listener, os).0, os)
  {
  }

  lemma {:induction false} GeneratedIsLive(w: World, os: AcceptOs, f: set<Node>)
    requires InvExcept(w, f) && Aside(w, f) && (w.HeadAged() || os.createOk)
    ensures var w', r := w.GenerateSocket(true, os.createOk).0, Picked(w);
            && w'.sockets.Valid() && r in w'.sockets.live && w'.At(r).state in {INIT, DISCONNECTED}
            && w'.current == w.current && (w.HeadAged() ==> r == w.queue[0]) && (!w.HeadAged() ==> r !in w.sockets.live)
  {
    var cos := ConnectOs(os.createOk, true, Bound, true, true);
    SocketsKept(w, f, cos);
    SocketsValid(w, f);
    GenerateOnly(w, true, os.createOk);
    hide InvExcept, TallyOf, Aside, World.GenerateSocket, World.PrepareSocket, World.HeadAged, Only;
    if w.HeadAged() {
      PickedOld(w, f, cos);
      HeadState(w, f);
    } else {
      PickedNew(w, f, cos);
    }
  }

  lemma {:induction false} NotAccepts(w: World, w1: World, w': World, os: AcceptOs)
    requires w.HeadAged() || os.createOk
    requires w1.ids == w.ids && w1.posted == w.posted && w1.current == w.current
    requires w1.queue == (if w.HeadAged() then w.queue[1..] else w.queue)
    requires w1.sockets.live == w.sockets.live + (if w.HeadAged() then [] else [Picked(w)])
    requires if w.HeadAged() then w.queue != [] && Picked(w) == w.queue[0] else Picked(w) !in w.sockets.live
    requires w'.ids == w1.ids && w'.posted == w1.posted && w'.queue == w1.queue
    requires w'.current == if os.associateOk then Some(Picked(w)) else w1.current
    requires forall q :: q in w'.sockets.live <==> q in w1.sockets.live && q != Picked(w)
    ensures NotAccepting(w, w', os)
  {
    hide World.HeadAged, Picked;
  }

  // ---------- retries ----------

  /** The memory of a socket that was retried: its handle was given up, not closed. */
  lemma {:induction false} RetriedRecord(w: World, i: nat, os: ErrorOs)
    requires Inv(w) && !w.forgets && i < |w.posted| && w.posted[i].op == Operation.Connect
    ensures var r, s, w' := w.posted[i].key, w.At(w.posted[i].key), Retried(w, i, os);
            r in w'.sockets.mem ==> w'.At(r) == s.(hasHandle := false, state := RETRY_CONNECTION)
  {
    hide *;
    var r, b, w2 := w.posted[i].key, w.posted[i].buf, RetryState(w, i);
    var w1 := w2.ConnectToNewSocket(w.At(r).id, os.connect).0;
    var s := w1.At(r).(hasHandle := false, state := RETRY_CONNECTION);
    RetryMarks(w, i, os.connect);
    MarkIs(w, i, os.connect);
    FinishReplaced(w1.Put(r, s), r, b, os.teardown);
    RetriedIs(w, i, os, w1.Put(r, s));
    SettledFacts(w1.Put(r, s), r);
    PutMeans(w1, r, s);
    ErasedRecord(w1.Put(r, s), Retried(w, i, os), r);
  }

  lemma {:induction false} ErasedRecord(w: World, w': World, r: Node)
    requires w'.sockets == w.sockets.Erase(r)
    ensures r in w'.sockets.mem ==> w'.At(r) == w.At(r)
  {
  }

  // ---------- connections that start ----------

  /** A connection whose option call and first receive are accepted. */
  lemma {:induction false} ConnectedOutcome(w: World, i: nat, bytes: nat, os: IoOs)
    requires Inv(w) && i < |w.posted| && w.posted[i].op == Operation.Connect
    requires os.connection.optionOk && os.connection.recvOk
    ensures var p, s := w.posted[i], w.At(w.posted[i].key);
            var w' := w.Dequeue(i).HandleIo(p.key, p.buf, bytes, os);
            && p.key in w'.sockets.live
            && w'.At(p.key) == s.(outstandingRecv := s.outstandingRecv + 1, state := CONNECTED) && w'.ids == w.ids
            && w'.posted == w.Dequeue(i).posted + [Posted(p.buf, p.key, Operation.Read, p.len)]
            && p.buf in w'.buffers.live && w'.BufAt(p.buf) == Buffer(Operation.Read, p.len)
  {
    hide InvExcept, World.StartReceiving, World.CleanupIfLast;
    var p, w1 := w.posted[i], w.Dequeue(i);
    ErrorFacts(w, i);
    StartedRecord(w1, p.key, p.buf, os.connection);
    CleanupPosts(w1.StartReceiving(p.key, p.buf, os.connection), p.key, os.teardown);
    CleanupBuffers(w1.StartReceiving(p.key, p.buf, os.connection), p.key, os.teardown);
  }

  lemma {:induction false} CleanupBuffers(w: World, r: Node, os: TeardownOs)
    requires w.At(r).state.Rank() <= CONNECTED.Rank()
    ensures w.CleanupIfLast(r, os).buffers == w.buffers
  {
    hide World.DeleteOrDisconnect;
  }

  lemma {:induction false} StartedRecord(w: World, r: Node, b: Node, os: ConnectionOs)
    requires r in w.sockets.mem && r in w.sockets.live && b in w.buffers.mem && b in w.buffers.live
    requires os.optionOk && os.recvOk
    ensures var w', s := w.StartReceiving(r, b, os), w.At(r);
            && r in w'.sockets.live && w'.At(r) == s.(outstandingRecv := s.outstandingRecv + 1, state := CONNECTED)
            && w'.ids == w.ids && w'.posted == w.posted + [Posted(b, r, Operation.Read, w.BufAt(b).bufLen)]
            && b in w'.buffers.live && w'.BufAt(b) == Buffer(Operation.Read, w.BufAt(b).bufLen)
  {
  }

  /** A connection whose first receive is refused, or whose option call fails: the buffer is released and the
      socket closed, abortively if the system lets it, unlisted and out of the map; the receive, if it was
      accepted, stays in flight. */
  ghost predicate NotStarted(w: World, w': World, r: Node, b: Node, os: ConnectionOs) {
    var s := w.At(r);
    && r !in w'.sockets.live && b !in w'.buffers.live && w'.ids == w.ids - {s.id}
    && w'.posted == w.posted + (if os.recvOk then [Posted(b, r, Operation.Read, w.BufAt(b).bufLen)] else [])
    && (r in w'.sockets.mem ==>
          w'.At(r) == s.(hasHandle := false, state := CLOSED, abortive := s.abortive || os.teardown.lingerOk,
                         outstandingRecv := s.outstandingRecv + if os.recvOk then 1 else 0))
  }

  /** The state in which the socket of such a connection is torn down. */
  function FailedStart(w: World, r: Node, b: Node, recvOk: bool): World {
    var w0 := w.ChangeSocketState(r, CONNECTED);
    w0.PutBuf(b, w0.BufAt(b).(operation := Operation.Read)).PostRecv(r, b, recvOk)
      .ChangeSocketState(r, FAILURE).DeleteBuffer(b)
  }

  lemma {:induction false} FailedStartSocket(w: World, r: Node, b: Node, recvOk: bool)
    requires w.sockets.Valid() && r in w.sockets.live && b in w.buffers.mem
    ensures var w', s := FailedStart(w, r, b, recvOk), w.At(r);
            && r in w'.sockets.live && w'.ids == w.ids && w'.queue == w.queue && w'.forgets == w.forgets
            && w'.At(r) == s.(state := FAILURE, outstandingRecv := s.outstandingRecv + if recvOk then 1 else 0)
            && w'.posted == w.posted + (if recvOk then [Posted(b, r, Operation.Read, w.BufAt(b).bufLen)] else [])
  {
    assert r in w.sockets.mem;
    hide Recycler.Valid;
  }

  lemma {:induction false} FailedStartValid(w: World, r: Node, b: Node, recvOk: bool)
    requires w.sockets.Valid()
    ensures FailedStart(w, r, b, recvOk).sockets.Valid()
  {
    hide World.ChangeSocketState, World.PostRecv, Recycler.Valid, Only;
    var w0 := w.ChangeSocketState(r, CONNECTED);
    ChangeOnly(w, r, CONNECTED);
    var w1 := w0.PutBuf(b, w0.BufAt(b).(operation := Operation.Read));
    PostRecvOnly(w1, r, b, recvOk);
    OnlyValid(w1, w1.PostRecv(r, b, recvOk), {r});
    ChangeOnly(w1.PostRecv(r, b, recvOk), r, FAILURE);
  }

  lemma {:induction false} FailedStartBuffers(w: World, r: Node, b: Node, recvOk: bool)
    requires w.buffers.Valid() && b in w.buffers.live
    ensures b !in FailedStart(w, r, b, recvOk).buffers.live
  {
    var w0 := w.ChangeSocketState(r, CONNECTED);
    var w1 := w0.PutBuf(b, w0.BufAt(b).(operation := Operation.Read));
    assert w1.buffers.Valid() && w1.buffers.live == w.buffers.live;
    EraseKeeps(w1.buffers, b);
    hide Recycler.Valid;
  }

  lemma {:induction false} NotStartedOutcome(w: World, r: Node, b: Node, os: ConnectionOs)
    requires w.sockets.Valid() && w.buffers.Valid() && !w.forgets && r in w.sockets.live && b in w.buffers.live
    requires !(os.optionOk && os.recvOk) && Ends(os.teardown)
    ensures NotStarted(w, w.StartReceiving(r, b, os), r, b, os)
  {
    FailedStartSocket(w, r, b, os.recvOk);
    FailedStartValid(w, r, b, os.recvOk);
    FailedStartBuffers(w, r, b, os.recvOk);
    StartFails(w, r, b, os);
    hide FailedStart, World.DeleteOrDisconnect, World.StartReceiving, Recycler.Valid;
    var w2 := FailedStart(w, r, b, os.recvOk);
    TeardownOutcome(w2, r, os.teardown);
    FailedBuffers(w2, r, os.teardown);
  }

  lemma {:induction false} StartFails(w: World, r: Node, b: Node, os: ConnectionOs)
    requires !(os.optionOk && os.recvOk)
    ensures w.StartReceiving(r, b, os) == FailedStart(w, r, b, os.recvOk).DeleteOrDisconnect(r, os.teardown)
  {
    hide World.ChangeSocketState, World.PutBuf, World.PostRecv, World.DeleteBuffer, World.DeleteOrDisconnect;
  }

  /** The teardown of a failed socket makes no buffer. */
  lemma {:induction false} FailedBuffers(w: World, r: Node, os: TeardownOs)
    requires w.sockets.Valid() && r in w.sockets.live && w.At(r).state == FAILURE
    ensures w.DeleteOrDisconnect(r, os).buffers == w.buffers
  {
    TeardownContract(w, r, os);
    hide World.DeleteOrDisconnect, Ended;
    EndedBuffers(w, w.DeleteOrDisconnect(r, os), r, os, Verdict(w.At(r).state, w.ShouldReuse(), os));
  }

  // ---------- the callback ----------

  /** A call from the callback other than a close leaves the socket's state, or fails it; a close stores CLOSING. */
  lemma {:induction false} CallState(w: World, own: Node, c: UserCall)
    requires During(w, Some(own)) && SafeCall(w, c)
    ensures var st, st' := w.At(own).state, w.UserCalls(Some(own), c).At(own).state;
            if c.OwnClose? then st' == CLOSING
            else if st == CONNECTED then st' in {CONNECTED, FAILURE}
            else st' == st
  {
    OpenFacts(w, own, 0);
    OwnSet(w, own);
    hide During, InvExcept, TallyOf, Open, World.SendData, World.SendDataToAll;
    hide World.ConnectToNewSocket, World.ListenToNewSocket, World.ChangeSocketState;
    match c {
      case SendTo(id, data, failAt) =>
        if id in w.ids {
          SendState(w.Section(MapLock), w.ids[id], |data|, failAt, own);
        }
      case SendToAll(data, failAts) => SendAllState(w, w.sockets.live, |data|, failAts, own);
      case ConnectNew(os) => OwnSpared(w, own, c);
      case ListenNew(os) => OwnSpared(w, own, c);
      case OwnSend(data, failAt) => SendState(w, own, |data|, failAt, own);
      case OwnClose => CloseState(w, own);
    }
  }

  lemma {:induction false} OwnSpared(w: World, own: Node, c: UserCall)
    requires During(w, Some(own)) && (c.ConnectNew? || c.ListenNew?)
    ensures w.UserCalls(Some(own), c).At(own) == w.At(own)
  {
    hide *;
    OwnSet(w, own);
    match c {
      case ConnectNew(os) =>
        ConnectSpares(w, own, os);
        CallIs(w, own, c);
      case ListenNew(os) =>
        if w.mgr == READY {
          ReadyMeansNoAccept(w, Some(own));
        }
        ListenSpares(w, own, os);
        CallIs(w, own, c);
    }
  }

  lemma {:induction false} CallIs(w: World, own: Node, c: UserCall)
    ensures c.ConnectNew? ==> w.UserCalls(Some(own), c) == w.ConnectToNewSocket(NIL_UUID, c.connect).0
    ensures c.ListenNew? ==> w.UserCalls(Some(own), c) == w.ListenToNewSocket(c.listen).0
  {
    hide World.ConnectToNewSocket, World.ListenToNewSocket;
  }

  lemma {:induction false} ConnectSpares(w: World, own: Node, os: ConnectOs)
    requires InvExcept(w, {own}) && Aside(w, {own})
    ensures w.ConnectToNewSocket(NIL_UUID, os).0.At(own) == w.At(own)
  {
    hide InvExcept, TallyOf, Aside, Quiet, World.ConnectToNewSocket;
    FreshId(w, {own});
    ConnectKeeps(w, NIL_UUID, os, {own});
    KeptListener(w, w.ConnectToNewSocket(NIL_UUID, os).0, {own}, own);
  }

  lemma {:induction false} ListenSpares(w: World, own: Node, os: ListenOs)
    requires InvExcept(w, {own}) && Aside(w, {own}) && (w.mgr == READY ==> NoAccept(w))
    ensures w.ListenToNewSocket(os).0.At(own) == w.At(own)
  {
    hide InvExcept, TallyOf, Aside, NoAccept, Quiet, World.ListenToNewSocket;
    ListenKeeps(w, os, {own});
    KeptListener(w, w.ListenToNewSocket(os).0, {own}, own);
  }

  lemma {:induction false} OwnSet(w: World, own: Node)
    requires During(w, Some(own))
    ensures InvExcept(w, {own}) && Aside(w, {own}) && own in w.sockets.mem
  {
    hide TallyOf;
  }

  lemma {:induction false} CloseState(w: World, r: Node)
    requires r in w.sockets.mem
    ensures w.ChangeSocketState(r, CLOSING).At(r).state == CLOSING
  {
  }

  lemma {:induction false} SendState(w: World, r: Node, length: nat, failAt: nat, q: Node)
    ensures var st, st' := w.At(q).state, w.SendData(r, length, failAt).At(q).state;
            if st == CONNECTED then st' in {CONNECTED, FAILURE} else st' == st
  {
    hide World.SendChunks;
    SendOnlyFails(w, r, length, failAt);
    SendChunksElsewhere(w, r, length, failAt);
  }

  lemma {:induction false} SendChunksElsewhere(w: World, r: Node, length: nat, failAt: nat)
    ensures forall q :: q != r ==> w.SendChunks(r, length, failAt).At(q) == w.At(q)
  {
    hide World.SendChunks;
    Chunking.SendChunksLocal(w, r, length, failAt);
  }

  lemma {:induction false} SendAllState(w: World, nodes: seq<Node>, length: nat, failAts: map<Node, nat>, q: Node)
    ensures var st, st' := w.At(q).state, w.SendDataToAll(nodes, length, failAts).At(q).state;
            if st == CONNECTED then st' in {CONNECTED, FAILURE} else st' == st
    decreases |nodes|
  {
    hide World.SendData;
    if nodes != [] {
      var failAt := if nodes[0] in failAts then failAts[nodes[0]] else length;
      SendState(w, nodes[0], length, failAt, q);
      SendAllState(w.SendData(nodes[0], length, failAt), nodes[1..], length, failAts, q);
    }
  }

  /** A connected socket is CLOSING when its callback ends if and only if the callback closed it. */
  lemma {:induction false} CallbackClosesIff(w: World, own: Node, cs: seq<UserCall>)
    requires During(w, Some(own)) && SafeCalls(w, own, cs)
    ensures var st, st' := w.At(own).state, w.ReceiveData(own, cs).At(own).state;
            && (UserCall.OwnClose in cs ==> st' == CLOSING)
            && (UserCall.OwnClose !in cs ==> if st == CONNECTED then st' in {CONNECTED, FAILURE} else st' == st)
    decreases |cs|
  {
    hide During, SafeCall, Evolves, World.UserCalls;
    if cs != [] {
      assert cs == [cs[0]] + cs[1..];
      CallState(w, own, cs[0]);
      UserCallKeeps(w, Some(own), cs[0]);
      CallbackClosesIff(w.UserCalls(Some(own), cs[0]), own, cs[1..]);
    }
  }

  // ---------- queries ----------

  /** A new connection is reported as initialising if its socket is new, and as neither if it is recycled. */
  lemma {:induction false} ConnectIsReported(w: World, os: ConnectOs, f: set<Node>)
    requires InvExcept(w, f) && Aside(w, f) && Reaches(w, os)
    ensures var (w', id) := w.ConnectToNewSocket(NIL_UUID, os);
            && !SaysConnected(w', id) && !SaysListening(w', id) && (SaysInitialising(w', id) <==> !w.HeadAged())
  {
    hide *;
    var (w', id) := w.ConnectToNewSocket(NIL_UUID, os);
    ConnectOutcome(w, NIL_UUID, os, f);
    ConnectingState(w, w', id);
    PreparedState(w, f);
    ReportedAs(w', id);
  }

  lemma {:induction false} ConnectingState(w: World, w': World, id: Uuid)
    requires NowConnecting(w, w', id, NIL_UUID)
    ensures id in w'.ids && w'.At(w'.ids[id]).state == Prepared(w).state
  {
    hide Prepared, Picked, World.HeadAged;
  }

  lemma {:induction false} PreparedState(w: World, f: set<Node>)
    requires InvExcept(w, f) && Aside(w, f)
    ensures Prepared(w).state == if w.HeadAged() then DISCONNECTED else BOUND
  {
    hide InvExcept, Aside;
    if w.HeadAged() {
      HeadState(w, f);
    }
  }

  lemma {:induction false} ReportedAs(w: World, id: Uuid)
    requires id in w.ids && w.At(w.ids[id]).state in {DISCONNECTED, BOUND}
    ensures !SaysConnected(w, id) && !SaysListening(w, id)
    ensures SaysInitialising(w, id) <==> w.At(w.ids[id]).state == BOUND
  {
  }

  lemma {:induction false} HeadState(w: World, f: set<Node>)
    requires InvExcept(w, f) && Aside(w, f) && w.queue != []
    ensures w.At(w.queue[0]).state == DISCONNECTED
  {
    hide TallyOf;
    assert w.queue[0] in w.queue;
    assert SockOk(w, w.queue[0]);
  }
}
