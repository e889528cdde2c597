/** Every operation of the engine keeps the invariant. */
module EngineSteps {
  import opened SocketTypes
  import opened RecyclableList
  import opened TimeWait
  import opened Engine
  import opened EngineInvariant

  // ---------- relations between the states before and after ----------

  /** A buffer that is live and not posted: its holder may use it. */
  ghost predicate Held(w: World, b: Node) { b in w.buffers.live && Unposted(w, b) }

  /** What no user call disturbs: draining sockets stay draining with the same operations
      in flight, no socket becomes connected, and held buffers stay held and unchanged. */
  ghost predicate Evolves(w: World, w': World) {
    && w'.clock == w.clock
    && w'.kind == w.kind && w'.forgets == w.forgets
    && (forall q :: q in w.sockets.live && Draining(w.At(q).state) ==>
          && q in w'.sockets.live && Draining(w'.At(q).state)
          && w'.At(q).outstandingRecv == w.At(q).outstandingRecv
          && w'.At(q).outstandingSend == w.At(q).outstandingSend)
    && (forall q :: q in w'.sockets.live && w'.At(q).state == CONNECTED ==>
          q in w.sockets.live && w.At(q).state == CONNECTED)
    && (forall b :: Held(w, b) ==> Held(w', b) && w'.BufAt(b) == w.BufAt(b))
  }

  /** Only socket `r`, the buffers and the posted operations changed. */
  ghost predicate Local(w: World, w': World, r: Node) {
    && w' == w.(sockets := w'.sockets, buffers := w'.buffers, posted := w'.posted, log := w'.log)
    && w'.sockets.live == w.sockets.live
    && (forall q :: q != r ==> w'.At(q) == w.At(q) && TallyOf(w'.posted, q) == TallyOf(w.posted, q))
  }

  ghost predicate HeldKept(w: World, w': World) {
    forall b :: Held(w, b) ==> Held(w', b) && w'.BufAt(b) == w.BufAt(b)
  }

  /** A socket in a connection, with `k` receives in flight. */
  ghost predicate Open(w: World, r: Node, k: nat) {
    var s, t := w.At(r), TallyOf(w.posted, r);
    && r in w.sockets.live
    && (s.state == CONNECTED || Draining(s.state))
    && Counts(s, t)
    && t.recvs == k && t.connects == 0 && t.disconnects == 0 && t.accepts == 0
    && r !in w.queue
    && OwnsId(w, r)
  }

  lemma {:induction false} LocalTransitive(w: World, w': World, w'': World, r: Node)
    requires Local(w, w', r) && Local(w', w'', r)
    ensures Local(w, w'', r)
  {
  }

  lemma {:induction false} LocalBuffers(w: World, w': World, r: Node)
    requires w' == w.(buffers := w'.buffers, log := w'.log)
    ensures Local(w, w', r)
  {
  }

  lemma {:induction false} LocalLog(w: World, w': World, w'': World, r: Node)
    requires Local(w, w', r) && w'' == w'.(log := w''.log)
    ensures Local(w, w'', r)
  {
  }

  lemma {:induction false} LocalPost(w: World, b: Node, r: Node, op: Operation, s: Socket)
    requires r in w.sockets.mem
    ensures Local(w, w.Post(b, r, op).Put(r, s), r)
  {
    hide TallyOf, Single;
    TallyPosted(w.posted, Posted(b, r, op, w.BufAt(b).bufLen));
  }

  lemma {:induction false} Widen(w: World, f: set<Node>, g: set<Node>)
    requires InvExcept(w, f) && f <= g
    ensures InvExcept(w, g)
  {
  }

  lemma {:induction false} Narrow(w: World, r: Node, f: set<Node>)
    requires InvExcept(w, f + {r}) && (r in w.sockets.live ==> SockOk(w, r))
    ensures InvExcept(w, f)
  {
  }

  // ---------- one socket ----------

  lemma {:induction false} SetStateKeeps(w: World, r: Node, st: SocketState, f: set<Node>)
    requires InvExcept(w, f) && r in f && r in w.sockets.live
    requires w.At(r).state == ACCEPTING ==> st == ACCEPTING || NoAccept(w) || w.current != Some(r)
    ensures var w' := w.SetState(r, st);
            && InvExcept(w', f) && Local(w, w', r) && HeldKept(w, w')
            && w'.At(r) == w.At(r).(state := st)
            && w'.posted == w.posted && w'.buffers == w.buffers && w'.log == w.log
  {
    PutKeeps(w, r, w.At(r).(state := st), f);
  }

  lemma {:induction false} ChangeSocketStateKeeps(w: World, r: Node, st: SocketState, f: set<Node>)
    requires InvExcept(w, f) && r in f && r in w.sockets.live
    requires w.At(r).state == ACCEPTING ==> st == ACCEPTING || NoAccept(w) || w.current != Some(r)
    ensures var w' := w.ChangeSocketState(r, st);
            && InvExcept(w', f) && Local(w, w', r) && HeldKept(w, w')
            && w'.At(r) == w.At(r).(state := st)
            && w'.posted == w.posted && w'.buffers == w.buffers
  {
    hide InvExcept, TallyOf;
    SetStateKeeps(w, r, st, f);
    LogKeeps(w.SetState(r, st), w.ChangeSocketState(r, st), f);
  }

  lemma {:induction false} OpenFacts(w: World, r: Node, k: nat)
    requires Open(w, r, k)
    ensures r in w.sockets.live && r !in w.queue && (w.At(r).state == CONNECTED || Draining(w.At(r).state))
    ensures w.At(r).state != ACCEPTING
  {
  }

  /** So many bytes fit into the socket's budget. */
  predicate Roomy(w: World, r: Node, length: nat) {
    length + w.At(r).pendingByteSent <= DEFAULT_MAX_PENDING_BYTE_SENT
  }

  lemma {:induction false} PostSendInv(w: World, r: Node, b: Node, f: set<Node>)
    requires InvExcept(w, f) && r in f && r in w.sockets.live
    requires Held(w, b) && w.BufAt(b).operation == Operation.Write
    requires w.At(r).state != ACCEPTING && Roomy(w, r, w.BufAt(b).bufLen)
    ensures InvExcept(w.PostSend(r, b, true), f)
  {
    hide InvExcept, TallyOf;
    Facts(w, r, f);
    PostKeeps(w, b, r, Operation.Write, f);
    var w1, s := w.Post(b, r, Operation.Write), w.At(r).SendPosted(w.BufAt(b).bufLen);
    PutKeeps(w1, r, s, f);
    LogKeeps(w1.Put(r, s), w.PostSend(r, b, true), f);
  }

  lemma {:induction false} PostSendLocal(w: World, r: Node, b: Node)
    requires r in w.sockets.mem
    ensures Local(w, w.PostSend(r, b, true), r)
  {
    hide Local, TallyOf;
    var s := w.At(r).SendPosted(w.BufAt(b).bufLen);
    LocalPost(w, b, r, Operation.Write, s);
    LocalLog(w, w.Post(b, r, Operation.Write).Put(r, s), w.PostSend(r, b, true), r);
  }

  lemma {:induction false} PostSendOpen(w: World, r: Node, b: Node, k: nat)
    requires r in w.sockets.mem && Open(w, r, k)
    ensures Open(w.PostSend(r, b, true), r, k) && w.PostSend(r, b, true).At(r).state == w.At(r).state
  {
    hide TallyOf;
    TallyAppend(w.posted, Posted(b, r, Operation.Write, w.BufAt(b).bufLen), r);
  }

  lemma {:induction false} PostSendHeld(w: World, r: Node, b: Node)
    requires r in w.sockets.mem
    ensures var w' := w.PostSend(r, b, true);
            w'.buffers == w.buffers && (forall c :: c != b && Held(w, c) ==> Held(w', c))
  {
  }

  lemma {:induction false} PostSendKeeps(w: World, r: Node, b: Node, f: set<Node>, k: nat)
    requires InvExcept(w, f) && r in f && Open(w, r, k) && Roomy(w, r, w.BufAt(b).bufLen)
    requires Held(w, b) && w.BufAt(b).operation == Operation.Write
    ensures var w' := w.PostSend(r, b, true);
            && InvExcept(w', f) && Open(w', r, k) && Local(w, w', r)
            && w'.At(r).state == w.At(r).state
            && w'.At(r).pendingByteSent == w.At(r).pendingByteSent + w.BufAt(b).bufLen
            && (forall c :: c != b && Held(w, c) ==> Held(w', c)) && w'.buffers == w.buffers
  {
    Facts(w, r, f);
    PostSendPending(w, r, b);
    hide *;
    OpenFacts(w, r, k);
    PostSendInv(w, r, b, f);
    PostSendLocal(w, r, b);
    PostSendOpen(w, r, b, k);
    PostSendHeld(w, r, b);
  }

  lemma {:induction false} PostSendPending(w: World, r: Node, b: Node)
    requires r in w.sockets.mem
    ensures w.PostSend(r, b, true).At(r).pendingByteSent == w.At(r).pendingByteSent + w.BufAt(b).bufLen
  {
  }

  lemma {:induction false} PostRecvInv(w: World, r: Node, b: Node, f: set<Node>)
    requires InvExcept(w, f) && r in f && r in w.sockets.live
    requires Held(w, b) && w.BufAt(b).operation == Operation.Read
    requires w.At(r).state != ACCEPTING
    ensures InvExcept(w.PostRecv(r, b, true), f)
  {
    hide InvExcept, TallyOf;
    Facts(w, r, f);
    PostKeeps(w, b, r, Operation.Read, f);
    var w1, s := w.Post(b, r, Operation.Read), w.At(r).RecvPosted();
    PutKeeps(w1, r, s, f);
    LogKeeps(w1.Put(r, s), w.PostRecv(r, b, true), f);
  }

  lemma {:induction false} PostRecvLocal(w: World, r: Node, b: Node)
    requires r in w.sockets.mem
    ensures Local(w, w.PostRecv(r, b, true), r)
  {
    hide Local, TallyOf;
    var s := w.At(r).RecvPosted();
    LocalPost(w, b, r, Operation.Read, s);
    LocalLog(w, w.Post(b, r, Operation.Read).Put(r, s), w.PostRecv(r, b, true), r);
  }

  lemma {:induction false} PostRecvOpen(w: World, r: Node, b: Node)
    requires r in w.sockets.mem && Open(w, r, 0)
    ensures Open(w.PostRecv(r, b, true), r, 1) && w.PostRecv(r, b, true).At(r).state == w.At(r).state
  {
    hide TallyOf;
    TallyAppend(w.posted, Posted(b, r, Operation.Read, w.BufAt(b).bufLen), r);
  }

  lemma {:induction false} PostRecvHeld(w: World, r: Node, b: Node)
    requires r in w.sockets.mem
    ensures var w' := w.PostRecv(r, b, true);
            w'.buffers == w.buffers && (forall c :: c != b && Held(w, c) ==> Held(w', c))
  {
  }

  lemma {:induction false} PostRecvKeeps(w: World, r: Node, b: Node, f: set<Node>)
    requires InvExcept(w, f) && r in f && Open(w, r, 0)
    requires Held(w, b) && w.BufAt(b).operation == Operation.Read
    ensures var w' := w.PostRecv(r, b, true);
            && InvExcept(w', f) && Open(w', r, 1) && Local(w, w', r)
            && w'.At(r).state == w.At(r).state
            && (forall c :: c != b && Held(w, c) ==> Held(w', c)) && w'.buffers == w.buffers
  {
    Facts(w, r, f);
    hide *;
    OpenFacts(w, r, 0);
    PostRecvInv(w, r, b, f);
    PostRecvLocal(w, r, b);
    PostRecvOpen(w, r, b);
    PostRecvHeld(w, r, b);
  }

  // ---------- sending ----------

  /** The state after sends on `r`, which lies in `f` and has `k` receives in flight. */
  ghost predicate Sent(w: World, w': World, r: Node, f: set<Node>, k: nat) {
    && InvExcept(w', f) && Open(w', r, k) && Local(w, w', r) && HeldKept(w, w')
    && (w'.At(r).state == w.At(r).state || w'.At(r).state == FAILURE)
  }

  lemma {:induction false} SentTransitive(w: World, w': World, w'': World, r: Node, f: set<Node>, k: nat)
    requires Sent(w, w', r, f, k) && Sent(w', w'', r, f, k)
    ensures Sent(w, w'', r, f, k)
  {
    hide InvExcept, Open, Local;
    LocalTransitive(w, w', w'', r);
  }

  lemma {:induction false} OpenLocal(w: World, w': World, r: Node, k: nat)
    requires Open(w, r, k) && w'.At(r).state in {CONNECTED, CLOSING, FAILURE}
    requires w'.At(r) == w.At(r).(state := w'.At(r).state)
    requires w'.sockets.live == w.sockets.live && w'.posted == w.posted && w'.queue == w.queue && w'.ids == w.ids
    requires w'.forgets == w.forgets
    ensures Open(w', r, k)
  {
    hide TallyOf;
  }

  lemma {:induction false} PrepareChunkKeeps(w: World, r: Node, length: nat, f: set<Node>, k: nat)
    requires InvExcept(w, f) && Open(w, r, k) && length > 0
    ensures var w', b := w.PrepareChunk(length), w.buffers.Slot();
            && Sent(w, w', r, f, k) && w'.At(r) == w.At(r)
            && !Held(w, b) && Held(w', b) && w'.BufAt(b) == Buffer(Operation.Write, ChunkLen(length))
  {
    hide InvExcept, TallyOf, Local;
    var b := w.buffers.Slot();
    var w1 := w.CreateBuffer(Operation.Write);
    CreateBufferKeeps(w, Operation.Write, f);
    PutBufKeeps(w1, b, w1.BufAt(b).(bufLen := ChunkLen(length)), f);
    LocalBuffers(w, w.PrepareChunk(length), r);
  }

  lemma {:induction false} RefuseChunkInv(w: World, r: Node, b: Node, f: set<Node>)
    requires InvExcept(w, f) && r in f && r in w.sockets.live && w.At(r).state != ACCEPTING && Held(w, b)
    ensures var w' := w.RefuseChunk(r, b);
            InvExcept(w', f) && Local(w, w', r) && w'.At(r) == w.At(r).(state := FAILURE) && w'.posted == w.posted
    ensures forall c :: c != b && Held(w, c) ==>
        Held(w.RefuseChunk(r, b), c) && w.RefuseChunk(r, b).BufAt(c) == w.BufAt(c)
  {
    hide InvExcept, TallyOf, Local;
    var w1 := w.PostSend(r, b, false);
    LogKeeps(w, w1, f);
    var w2 := w1.ChangeSocketState(r, FAILURE);
    ChangeSocketStateKeeps(w1, r, FAILURE, f);
    DeleteBufferKeeps(w2, b, f);
    LocalBuffers(w, w1, r);
    LocalTransitive(w, w1, w2, r);
    LocalBuffers(w2, w2.DeleteBuffer(b), r);
    LocalTransitive(w, w2, w2.DeleteBuffer(b), r);
  }

  /** One chunk, refused or posted. */
  lemma {:induction false} ChunkKeeps(w: World, r: Node, length: nat, f: set<Node>, k: nat)
    requires InvExcept(w, f) && r in f && Open(w, r, k) && length > 0 && Roomy(w, r, length)
    ensures var w', b := w.PrepareChunk(length), w.buffers.Slot();
            && Sent(w, w'.RefuseChunk(r, b), r, f, k) && Sent(w, w'.PostSend(r, b, true), r, f, k)
            && Roomy(w'.PostSend(r, b, true), r, length - ChunkLen(length))
  {
    hide InvExcept, TallyOf, Local, Open, Held, World.PrepareChunk, World.PostSend, World.RefuseChunk;
    var b := w.buffers.Slot();
    var w1 := w.PrepareChunk(length);
    PrepareChunkKeeps(w, r, length, f, k);
    OpenFacts(w1, r, k);
    RefuseChunkInv(w1, r, b, f);
    RefuseFrame(w1, r, b);
    OpenLocal(w1, w1.RefuseChunk(r, b), r, k);
    LocalTransitive(w, w1, w1.RefuseChunk(r, b), r);
    PostSendKeeps(w1, r, b, f, k);
    LocalTransitive(w, w1, w1.PostSend(r, b, true), r);
  }

  lemma {:induction false} RefuseFrame(w: World, r: Node, b: Node)
    ensures var w' := w.RefuseChunk(r, b);
            && w'.sockets.live == w.sockets.live && w'.queue == w.queue && w'.ids == w.ids && w'.forgets == w.forgets
            && w'.posted == w.posted
  {
  }

  lemma {:induction false} SendChunksKeeps(w: World, r: Node, length: nat, failAt: nat, f: set<Node>, k: nat)
    requires InvExcept(w, f) && r in f && Open(w, r, k) && Roomy(w, r, length)
    ensures Sent(w, w.SendChunks(r, length, failAt), r, f, k)
    decreases length
  {
    hide InvExcept, TallyOf, Local, Open, World.PrepareChunk, World.PostSend, World.RefuseChunk;
    if length == 0 {
      LocalBuffers(w, w, r);
    } else {
      ChunkKeeps(w, r, length, f, k);
      if failAt > 0 {
        var w1 := w.PrepareChunk(length).PostSend(r, w.buffers.Slot(), true);
        SendChunksKeeps(w1, r, length - ChunkLen(length), failAt - 1, f, k);
        SentTransitive(w, w1, w.SendChunks(r, length, failAt), r, f, k);
      }
    }
  }

  /** The state a user call meets: nothing is being handled, or the data of `own` is being received. */
  ghost predicate During(w: World, own: Option<Node>) {
    InvExcept(w, Owner(own)) && (own.Some? ==> Open(w, own.value, 0))
  }

  ghost function Owner(own: Option<Node>): set<Node> {
    match own
    case None => {}
    case Some(o) => {o}
  }

  lemma {:induction false} EvolvesTransitive(w: World, w': World, w'': World)
    requires Evolves(w, w') && Evolves(w', w'')
    ensures Evolves(w, w'')
  {
    hide Held;
  }

  lemma {:induction false} EvolvesLocal(w: World, w': World, r: Node)
    requires Local(w, w', r) && HeldKept(w, w') && w.At(r).state == CONNECTED
    ensures Evolves(w, w')
  {
    hide Held, TallyOf;
  }

  lemma {:induction false} OpenOther(w: World, w': World, r: Node, o: Node, k: nat)
    requires Open(w, o, k) && Local(w, w', r) && r != o
    ensures Open(w', o, k)
  {
    hide TallyOf;
  }

  /** Only live sockets are connected; outside `f` they are open with one receive. */
  lemma {:induction false} ConnectedIsOpen(w: World, r: Node, f: set<Node>)
    requires InvExcept(w, f) && w.At(r).state == CONNECTED
    ensures r in w.sockets.live
    ensures r !in f ==> Open(w, r, 1)
  {
    hide TallyOf;
  }

  lemma {:induction false} OpenFits(w: World, r: Node)
    requires Open(w, r, 1)
    ensures SockOk(w, r)
  {
    hide TallyOf;
  }

  lemma {:induction false} SendDataKeeps(w: World, own: Option<Node>, r: Node, length: nat, failAt: nat)
    requires During(w, own)
    ensures var w' := w.SendData(r, length, failAt);
            During(w', own) && Evolves(w, w') && w'.sockets.live == w.sockets.live
  {
    hide InvExcept, TallyOf, Local, Open;
    if w.Admits(r, length) {
      var w' := w.SendChunks(r, length, failAt);
      var f := Owner(own);
      ConnectedIsOpen(w, r, f);
      Facts(w, r, f);
      if own == Some(r) {
        SendChunksKeeps(w, r, length, failAt, f, 0);
        LiveLocal(w, w', r);
      } else {
        Widen(w, f, f + {r});
        SendChunksKeeps(w, r, length, failAt, f + {r}, 1);
        LiveLocal(w, w', r);
        OpenFits(w', r);
        Narrow(w', r, f);
        if own.Some? {
          OpenOther(w, w', r, own.value, 0);
        }
      }
      EvolvesLocal(w, w', r);
    } else {
      EvolvesSame(w);
    }
  }

  lemma {:induction false} LiveLocal(w: World, w': World, r: Node)
    requires Local(w, w', r)
    ensures w'.sockets.live == w.sockets.live
  {
  }

  lemma {:induction false} EvolvesSame(w: World)
    ensures Evolves(w, w)
  {
  }

  lemma {:induction false} SendDataToAllKeeps(w: World, own: Option<Node>, nodes: seq<Node>, length: nat,
      failAts: map<Node, nat>)
    requires During(w, own)
    ensures var w' := w.SendDataToAll(nodes, length, failAts);
            During(w', own) && Evolves(w, w')
    decreases |nodes|
  {
    hide During, Evolves;
    if nodes == [] {
      EvolvesSame(w);
    } else {
      var failAt := if nodes[0] in failAts then failAts[nodes[0]] else length;
      var w1 := w.SendData(nodes[0], length, failAt);
      SendDataKeeps(w, own, nodes[0], length, failAt);
      SendDataToAllKeeps(w1, own, nodes[1..], length, failAts);
      EvolvesTransitive(w, w1, w1.SendDataToAll(nodes[1..], length, failAts));
    }
  }

  // ---------- creating sockets ----------

  /** A socket nobody else knows: no operation in flight, not queued. */
  ghost predicate Loose(w: World, r: Node) {
    && r in w.sockets.live && r !in w.queue
    && TallyOf(w.posted, r) == NOTHING
    && w.At(r).outstandingRecv == 0 && w.At(r).outstandingSend == 0 && w.At(r).pendingByteSent == 0
    && w.At(r).state in {INIT, DISCONNECTED, ASSOCIATED, BOUND, LISTENING}
    && OwnsId(w, r)
  }

  /** Sockets set aside in `f` are as they were. */
  ghost predicate Kept(w: World, w': World, f: set<Node>) {
    forall o :: o in f && o in w.sockets.live ==>
      && o in w'.sockets.live && w'.At(o) == w.At(o)
      && TallyOf(w'.posted, o) == TallyOf(w.posted, o)
      && (o !in w.queue ==> o !in w'.queue)
  }

  ghost predicate Aside(w: World, f: set<Node>) {
    forall o :: o in f ==> o in w.sockets.live && o !in w.queue
  }

  /** The map only grew. */
  ghost predicate IdsKept(w: World, w': World) {
    forall i :: i in w.ids ==> i in w'.ids && w'.ids[i] == w.ids[i]
  }

  /** The map is as it was, or has one new entry, for a listening socket under a new id. */
  ghost predicate ListenIds(w: World, w': World) {
    || w'.ids == w.ids
    || (w.nextId !in w.ids && w.nextId in w'.ids
        && var l := w'.ids[w.nextId];
        && w'.ids == w.ids[w.nextId := l] && l in w'.sockets.live && l !in w'.queue
        && w'.At(l).id == w.nextId && w'.At(l).state == LISTENING)
  }

  ghost predicate Quiet(w: World, w': World, f: set<Node>) {
    Evolves(w, w') && Kept(w, w', f)
  }

  lemma {:induction false} QuietTransitive(w: World, w': World, w'': World, f: set<Node>)
    requires Quiet(w, w', f) && Quiet(w', w'', f)
    ensures Quiet(w, w'', f)
  {
    hide TallyOf, OwnsId, Evolves;
    EvolvesTransitive(w, w', w'');
  }

  lemma {:induction false} AsideKept(w: World, w': World, f: set<Node>)
    requires Aside(w, f) && Quiet(w, w', f)
    ensures Aside(w', f)
  {
    hide TallyOf, Evolves;
  }

  lemma {:induction false} PopKeeps(w: World, f: set<Node>)
    requires InvExcept(w, f) && w.queue != [] && w.queue[0] !in f
    ensures var r := w.queue[0];
            && InvExcept(w.(queue := w.queue[1..], since := w.since[1..]), f + {r})
            && r in w.sockets.live && w.At(r).state == DISCONNECTED && TallyOf(w.posted, r) == NOTHING
            && Counts(w.At(r), NOTHING) && OwnsId(w, r) && r !in w.queue[1..]
  {
    hide TallyOf;
    var r := w.queue[0];
    assert w.queue == [r] + w.queue[1..];
    assert r in w.queue;
    assert SockOk(w, r);
  }

  /** A socket taken from the queue starts with nothing outstanding. */
  lemma {:induction false} ReuseKeeps(w: World, f: set<Node>)
    requires InvExcept(w, f) && Aside(w, f)
    ensures var (w', g) := w.ReuseSocket();
            match g
            case None => w' == w.(log := w'.log) && InvExcept(w', f)
            case Some(r) =>
              && InvExcept(w', f + {r}) && r !in f && Loose(w', r)
              && r in w.queue && w'.At(r).state == DISCONNECTED && w'.At(r).pendingByteSent == 0
  {
    hide InvExcept, TallyOf;
    if w.HeadAged() {
      var r := w.queue[0];
      SinceLength(w, f);
      assert r in w.queue;
      var w1 := w.(queue := w.queue[1..], since := w.since[1..]);
      var s := w1.At(r).(timeWaitStartTime := 0);
      PopKeeps(w, f);
      Facts(w1, r, f + {r});
      PutKeeps(w1, r, s, f + {r});
      LogKeeps(w1.Put(r, s), w.ReuseSocket().0, f + {r});
    } else {
      LogKeeps(w, w.ReuseSocket().0, f);
    }
  }

  lemma {:induction false} SinceLength(w: World, f: set<Node>)
    requires InvExcept(w, f)
    ensures |w.since| == |w.queue|
  {
  }

  lemma {:induction false} ReuseQuiet(w: World, f: set<Node>)
    requires InvExcept(w, f) && Aside(w, f)
    ensures var w' := w.ReuseSocket().0;
            Quiet(w, w', f) && w'.ids == w.ids && w'.sockets.live == w.sockets.live
  {
    hide InvExcept, TallyOf, Quiet, OwnsId;
    if w.HeadAged() {
      assert w.queue[0] in w.queue;
      PopKeeps(w, f);
      RestQuiet(w, w.ReuseSocket().0, w.queue[0], f);
    } else {
      QuietSame(w, w.ReuseSocket().0, f);
    }
  }

  /** Changing a disconnected socket that is not set aside, and the queue, disturbs nothing. */
  lemma {:induction false} RestQuiet(w: World, w': World, r: Node, f: set<Node>)
    requires r !in f && w.At(r).state == DISCONNECTED && w'.At(r).state == DISCONNECTED
    requires w'.sockets.live == w.sockets.live && forall q :: q != r ==> w'.At(q) == w.At(q)
    requires w' == w.(sockets := w'.sockets, queue := w'.queue, since := w'.since, log := w'.log)
    requires forall q :: q in w'.queue ==> q in w.queue
    ensures Quiet(w, w', f)
  {
    hide TallyOf;
  }

  /** `r` is a socket the creating thread alone can name. */
  ghost predicate Obtained(w: World, w': World, r: Node, f: set<Node>) {
    && InvExcept(w', f + {r}) && r !in f && Loose(w', r) && w'.At(r).state in {INIT, DISCONNECTED}
    && Quiet(w, w', f) && w'.ids == w.ids
    && (r in w.sockets.live ==> r in w.queue && w'.At(r).state == DISCONNECTED)
  }

  lemma {:induction false} CreateSocketQuiet(w: World, f: set<Node>)
    requires InvExcept(w, f) && Aside(w, f)
    ensures Quiet(w, w.CreateSocket(), f)
  {
    hide InvExcept, TallyOf;
    CreateSocketKeeps(w, f);
  }

  lemma {:induction false} GenerateKeeps(w: World, reuse: bool, createOk: bool, f: set<Node>)
    requires InvExcept(w, f) && Aside(w, f)
    ensures var (w', g) := w.GenerateSocket(reuse, createOk);
            match g
            case None => w' == w.(log := w'.log) && InvExcept(w', f) && Quiet(w, w', f)
            case Some(r) => Obtained(w, w', r, f)
  {
    hide InvExcept, TallyOf, Quiet;
    var (w1, g) := if reuse then w.ReuseSocket() else (w, None);
    if reuse {
      ReuseKeeps(w, f);
      ReuseQuiet(w, f);
    } else {
      QuietSame(w, w1, f);
    }
    var w' := w.GenerateSocket(reuse, createOk).0;
    match g {
      case Some(r) =>
        LogKeeps(w1, w', f + {r});
        QuietLog(w, w1, w', f);
      case None =>
        if createOk {
          var w2, r := w1.CreateSocket(), w1.sockets.Slot();
          AsideKept(w, w1, f);
          CreateSocketKeeps(w1, f);
          CreateSocketQuiet(w1, f);
          QuietTransitive(w, w1, w2, f);
          LogKeeps(w2, w', f + {r});
          QuietLog(w, w2, w', f);
          NewHasNoId(w', r);
        }
    }
  }

  lemma {:induction false} NewHasNoId(w: World, r: Node)
    requires w.At(r) == NEW_SOCKET
    ensures OwnsId(w, r)
  {
  }

  lemma {:induction false} QuietSame(w: World, w': World, f: set<Node>)
    requires w' == w.(log := w'.log)
    ensures Quiet(w, w', f)
  {
    hide TallyOf;
  }

  lemma {:induction false} QuietLog(w: World, w': World, w'': World, f: set<Node>)
    requires Quiet(w, w', f) && w'' == w'.(log := w''.log)
    ensures Quiet(w, w'', f)
  {
    hide TallyOf;
    QuietSame(w', w'', f);
    QuietTransitive(w, w', w'', f);
  }

  /** Since `w0`, the creating thread holds the loose socket `r`. */
  ghost predicate Has(w0: World, w: World, r: Node, f: set<Node>) {
    && InvExcept(w, f + {r}) && r !in f && Loose(w, r) && Aside(w0, f) && Quiet(w0, w, f)
    && w.ids == w0.ids && w.nextId == w0.nextId && w.mgr == w0.mgr && w.kind == w0.kind && w.forgets == w0.forgets
  }

  lemma {:induction false} HasSetState(w0: World, w: World, r: Node, st: SocketState, f: set<Node>)
    requires Has(w0, w, r, f) && st in {ASSOCIATED, BOUND, LISTENING}
    ensures Has(w0, w.SetState(r, st), r, f) && w.SetState(r, st).At(r).state == st
    ensures w.SetState(r, st).posted == w.posted && w.SetState(r, st).current == w.current
  {
    hide InvExcept, TallyOf, Quiet;
    var w' := w.SetState(r, st);
    SetStateKeeps(w, r, st, f + {r});
    SetStateQuiet(w, r, st, f);
    QuietTransitive(w0, w, w', f);
  }

  lemma {:induction false} SetStateQuiet(w: World, r: Node, st: SocketState, f: set<Node>)
    requires InvExcept(w, f + {r}) && Loose(w, r) && r !in f && st in {ASSOCIATED, BOUND, LISTENING}
    ensures Quiet(w, w.SetState(r, st), f)
  {
    hide InvExcept, TallyOf;
    SetStateKeeps(w, r, st, f + {r});
  }

  /** A socket that never connected is removed without being closed. */
  lemma {:induction false} HasDelete(w0: World, w: World, r: Node, f: set<Node>)
    requires Has(w0, w, r, f)
    ensures var w' := w.DeleteSocket(r, NEVER_CONNECTED);
            && InvExcept(w', f) && Quiet(w0, w', f) && r !in w'.sockets.live
            && w' == w.(sockets := w'.sockets, log := w'.log)
            && (forall q :: q in w'.sockets.live ==> q in w.sockets.live && w'.At(q) == w.At(q))
  {
    hide InvExcept, TallyOf, Quiet;
    var w1, w' := w.Section(SockLock(r)), w.DeleteSocket(r, NEVER_CONNECTED);
    assert w1.EraseSocket(r) == w';
    LogKeeps(w, w1, f + {r});
    EraseSocketKeeps(w1, r, f + {r});
    assert f + {r} - {r} == f;
    EraseQuiet(w1, r, f);
    QuietLog(w0, w, w1, f);
    QuietTransitive(w0, w1, w', f);
  }

  lemma {:induction false} EraseQuiet(w: World, r: Node, f: set<Node>)
    requires InvExcept(w, f + {r}) && Loose(w, r) && r !in f
    ensures Quiet(w, w.EraseSocket(r), f)
  {
    hide InvExcept, TallyOf;
    EraseSocketKeeps(w, r, f + {r});
  }

  lemma {:induction false} HasCreateBuffer(w0: World, w: World, r: Node, op: Operation, f: set<Node>)
    requires Has(w0, w, r, f)
    ensures var w', b := w.CreateBuffer(op), w.buffers.Slot();
            Has(w0, w', r, f) && Held(w', b) && !Held(w0, b) && w'.BufAt(b).operation == op
            && w' == w.(buffers := w'.buffers, log := w'.log)
  {
    hide InvExcept, TallyOf, Quiet;
    var w', b := w.CreateBuffer(op), w.buffers.Slot();
    CreateBufferKeeps(w, op, f + {r});
    CreateBufferQuiet(w, op, f + {r}, f);
    QuietTransitive(w0, w, w', f);
    HeldSince(w0, w, b, f);
  }

  lemma {:induction false} HeldSince(w0: World, w: World, b: Node, f: set<Node>)
    requires Quiet(w0, w, f) && !Held(w, b)
    ensures !Held(w0, b)
  {
    hide TallyOf, Held;
  }

  lemma {:induction false} CreateBufferQuiet(w: World, op: Operation, g: set<Node>, f: set<Node>)
    requires InvExcept(w, g)
    ensures Quiet(w, w.CreateBuffer(op), f)
  {
    hide InvExcept, TallyOf;
    CreateBufferKeeps(w, op, g);
  }

  /** Posting a held buffer that was not held before. */
  lemma {:induction false} PostQuiet(w0: World, w: World, b: Node, r: Node, op: Operation, f: set<Node>)
    requires Quiet(w0, w, f) && r !in f && !Held(w0, b)
    ensures Quiet(w0, w.Post(b, r, op), f)
  {
    hide TallyOf;
    TallyPosted(w.posted, Posted(b, r, op, w.BufAt(b).bufLen));
    HeldPost(w, b, r, op);
  }

  lemma {:induction false} HeldPost(w: World, b: Node, r: Node, op: Operation)
    ensures forall c :: c != b && Held(w, c) ==> Held(w.Post(b, r, op), c) && w.Post(b, r, op).BufAt(c) == w.BufAt(c)
  {
  }

  lemma {:induction false} PrepareKeeps(w0: World, w: World, r: Node, associateOk: bool, bind: BindOs, f: set<Node>)
    requires Has(w0, w, r, f) && w.At(r).state in {INIT, DISCONNECTED}
    ensures var (w', go) := w.PrepareSocket(r, associateOk, bind);
            && (go ==> Has(w0, w', r, f) && w'.At(r).state in {BOUND, DISCONNECTED})
            && (!go ==> InvExcept(w', f) && Quiet(w0, w', f) && SameIds(w0, w'))
  {
    hide InvExcept, TallyOf, Quiet, Loose;
    if w.At(r).state != DISCONNECTED {
      if !associateOk {
        HasDelete(w0, w, r, f);
      } else {
        HasSetState(w0, w, r, ASSOCIATED, f);
        var w1 := w.SetState(r, ASSOCIATED);
        match bind {
          case Bound => HasSetState(w0, w1, r, BOUND, f);
          case OptionRefused => HasLeft(w0, w1, r, f);
          case BindRefused => HasDelete(w0, w1, r, f);
        }
      }
    }
  }

  /** A socket whose options were refused stays in the list, out of use. */
  lemma {:induction false} HasLeft(w0: World, w: World, r: Node, f: set<Node>)
    requires Has(w0, w, r, f) && w.At(r).state == ASSOCIATED
    ensures InvExcept(w, f) && Quiet(w0, w, f) && SameIds(w0, w)
  {
    hide InvExcept, TallyOf, Quiet;
    Narrow(w, r, f);
  }

  ghost predicate SameIds(w0: World, w: World) {
    w.ids == w0.ids && w.nextId == w0.nextId && w.mgr == w0.mgr && w.forgets == w0.forgets
  }

  /** The result of `ConnectToNewSocket`: nil and no new entry, or the id of a live socket
      whose connection is pending. */
  ghost predicate ConnectDone(w0: World, w: World, id: Uuid, i: Uuid, f: set<Node>) {
    && (i == NIL_UUID ==> SameIds(w0, w))
    && (i != NIL_UUID ==>
          && i == (if id == NIL_UUID then w0.nextId else id)
          && i in w.ids && w.ids == w0.ids[i := w.ids[i]] && w.mgr == w0.mgr
          && w.ids[i] in w.sockets.live && w.ids[i] !in f
          && w.At(w.ids[i]).id == i && w.At(w.ids[i]).state in {BOUND, DISCONNECTED}
          && TallyOf(w.posted, w.ids[i]) == NOTHING.(connects := 1))
  }

  lemma {:induction false} HasFacts(w0: World, w: World, r: Node, f: set<Node>)
    requires Has(w0, w, r, f)
    ensures InvExcept(w, f + {r}) && r in w.sockets.live && r !in f && OwnsId(w, r) && Quiet(w0, w, f)
    ensures r !in w.queue && TallyOf(w.posted, r) == NOTHING && NIL_UUID < w.nextId
    ensures w.At(r).outstandingRecv == 0 && w.At(r).outstandingSend == 0 && w.At(r).pendingByteSent == 0
  {
    hide TallyOf, Quiet;
  }

  lemma {:induction false} FinishConnect(w0: World, w: World, r: Node, b: Node, id: Uuid, f: set<Node>)
    requires Has(w0, w, r, f) && w.At(r).state in {BOUND, DISCONNECTED}
    requires Held(w, b) && !Held(w0, b) && w.BufAt(b).operation == Operation.Connect
    requires NIL_UUID <= id < w.nextId
    requires w.forgets || (id != NIL_UUID ==> id in w.ids && w.ids[id] in f)
    ensures var w' := w.Post(b, r, Operation.Connect).Do(Publish(r)).AddSocketToMap(r, id);
            InvExcept(w', f) && Quiet(w0, w', f) && ConnectDone(w0, w', id, w'.At(r).id, f)
  {
    HasFacts(w0, w, r, f);
    hide InvExcept, TallyOf, Quiet, Loose, Has, Held, World.AddSocketToMap;
    var w1 := w.Post(b, r, Operation.Connect);
    var w2 := w1.Do(Publish(r));
    var w' := w2.AddSocketToMap(r, id);
    PostKeeps(w, b, r, Operation.Connect, f + {r});
    LogKeeps(w1, w2, f + {r});
    AddIdKeeps(w2, r, id, f + {r});
    PostQuiet(w0, w, b, r, Operation.Connect, f);
    AddIdQuiet(w0, w2, r, id, f) by {
      QuietLog(w0, w1, w2, f);
    }
    assert NOTHING.Plus(Single(Posted(b, r, Operation.Connect, w.BufAt(b).bufLen))) == NOTHING.(connects := 1);
    assert SameIds(w0, w) by { HasSame(w0, w, r, f); }
    ConnectFits(w0, w, w', r, id, f);
    Narrow(w', r, f);
  }

  /** A socket with a connection pending, registered under its id. */
  lemma {:induction false} ConnectFits(w0: World, w: World, w': World, r: Node, id: Uuid, f: set<Node>)
    requires SameIds(w0, w) && r !in f && r !in w'.queue && w.At(r).state in {BOUND, DISCONNECTED}
    requires Counts(w.At(r), NOTHING)
    requires var i := if id == NIL_UUID then w.nextId else id;
             w'.At(r) == w.At(r).(id := i) && w'.ids == w.ids[i := r] && i != NIL_UUID
    requires r in w'.sockets.live && w'.mgr == w.mgr && TallyOf(w'.posted, r) == NOTHING.(connects := 1)
    ensures SockOk(w', r) && ConnectDone(w0, w', id, w'.At(r).id, f)
  {
    hide TallyOf;
  }

  lemma {:induction false} AddIdQuiet(w0: World, w: World, r: Node, id: Uuid, f: set<Node>)
    requires Quiet(w0, w, f) && r !in f && r in w.sockets.live && r in w.sockets.mem
    requires w.At(r).state in {BOUND, DISCONNECTED, LISTENING, ACCEPTING}
    ensures Quiet(w0, w.AddSocketToMap(r, id), f)
  {
    hide TallyOf, Held;
    var w' := w.AddSocketToMap(r, id);
    assert w'.At(r).state == w.At(r).state && forall q :: q != r ==> w'.At(q) == w.At(q);
    HeldSame(w, w');
  }

  lemma {:induction false} HeldSame(w: World, w': World)
    requires w'.buffers == w.buffers && w'.posted == w.posted
    ensures forall b :: Held(w', b) <==> Held(w, b)
    ensures forall b :: w'.BufAt(b) == w.BufAt(b)
  {
  }

  lemma {:induction false} ObtainedHas(w: World, w': World, r: Node, f: set<Node>)
    requires Obtained(w, w', r, f) && Aside(w, f) && SameIds(w, w') && w'.kind == w.kind
    ensures Has(w, w', r, f)
  {
    hide InvExcept, TallyOf, Quiet, Loose;
  }

  lemma {:induction false} GenerateSame(w: World, reuse: bool, createOk: bool)
    ensures var w' := w.GenerateSocket(reuse, createOk).0;
            SameIds(w, w') && w'.kind == w.kind && w'.posted == w.posted && w'.current == w.current
            && w'.timeWait == w.timeWait
  {
  }

  lemma {:induction false} ConnectKeeps(w: World, id: Uuid, os: ConnectOs, f: set<Node>)
    requires InvExcept(w, f) && Aside(w, f)
    requires NIL_UUID <= id < w.nextId
    requires w.forgets || (id != NIL_UUID ==> id in w.ids && w.ids[id] in f)
    ensures var (w', i) := w.ConnectToNewSocket(id, os);
            InvExcept(w', f) && Quiet(w, w', f) && ConnectDone(w, w', id, i, f)
  {
    hide InvExcept, TallyOf, Quiet, Loose, Has, Held, SameIds, Obtained;
    SameIdsSame(w);
    if w.mgr == NOT_READY || w.kind != CLIENT {
      QuietSame(w, w, f);
    } else {
      var (w1, g) := w.GenerateSocket(true, os.createOk);
      GenerateKeeps(w, true, os.createOk, f);
      GenerateSame(w, true, os.createOk);
      if g.Some? {
        var r := g.value;
        ObtainedHas(w, w1, r, f);
        ObtainedState(w, w1, r, f);
        ConnectObtained(w, w1, r, id, os, f);
      }
    }
  }

  lemma {:induction false} SameIdsSame(w: World)
    ensures SameIds(w, w)
  {
  }

  lemma {:induction false} ObtainedState(w: World, w': World, r: Node, f: set<Node>)
    requires Obtained(w, w', r, f)
    ensures w'.At(r).state in {INIT, DISCONNECTED} && r !in f
  {
    hide InvExcept, TallyOf, Quiet, Loose;
  }

  /** The rest of `ConnectToNewSocket` once it has a socket. */
  lemma {:induction false} ConnectObtained(w: World, w1: World, r: Node, id: Uuid, os: ConnectOs, f: set<Node>)
    requires Has(w, w1, r, f) && w1.At(r).state in {INIT, DISCONNECTED}
    requires w.mgr != NOT_READY && w.kind == CLIENT && w.GenerateSocket(true, os.createOk) == (w1, Some(r))
    requires NIL_UUID <= id < w.nextId
    requires w.forgets || (id != NIL_UUID ==> id in w.ids && w.ids[id] in f)
    ensures var (w', i) := w.ConnectToNewSocket(id, os);
            InvExcept(w', f) && Quiet(w, w', f) && ConnectDone(w, w', id, i, f)
  {
    hide InvExcept, TallyOf, Quiet, Loose, Held;
    var (w2, go) := w1.PrepareSocket(r, os.associateOk, os.bind);
    PrepareKeeps(w, w1, r, os.associateOk, os.bind, f);
    if go {
      if !os.htonsOk {
        HasDelete(w, w2, r, f);
      } else {
        var b := w2.buffers.Slot();
        var w3 := w2.CreateBuffer(Operation.Connect);
        HasCreateBuffer(w, w2, r, Operation.Connect, f);
        if !os.connectOk {
          HasDelete(w, w3, r, f);
        } else {
          FinishConnect(w, w3, r, b, id, f);
        }
      }
    }
  }

  // ---------- accepting ----------

  lemma {:induction false} SetCurrentKeeps(w0: World, w: World, r: Node, f: set<Node>)
    requires Has(w0, w, r, f) && NoAccept(w)
    ensures Has(w0, w.(current := Some(r)), r, f)
  {
    hide TallyOf, BuffersOk, SocketsOk, Evolves, Kept;
    var w' := w.(current := Some(r));
    forall q
      ensures TallyOf(w.posted, q).accepts == 0
    {
      NoAcceptTally(w.posted, q);
    }
    assert Quiet(w0, w', f) by {
      QuietCurrent(w0, w, w', f);
    }
  }

  lemma {:induction false} QuietCurrent(w0: World, w: World, w': World, f: set<Node>)
    requires Quiet(w0, w, f) && w' == w.(current := w'.current, mgr := w'.mgr)
    ensures Quiet(w0, w', f)
  {
    hide TallyOf, Held;
    HeldSame(w, w');
  }

  lemma {:induction false} QuietSub(w: World, w': World, f: set<Node>, g: set<Node>)
    requires Quiet(w, w', f) && g <= f
    ensures Quiet(w, w', g)
  {
    hide TallyOf, Evolves;
  }

  lemma {:induction false} RetagQuiet(w0: World, w: World, r: Node, st: SocketState, f: set<Node>)
    requires Quiet(w0, w, f) && r !in f && r in w.sockets.mem
    requires w.At(r).state in {ASSOCIATED, ACCEPTING} && st == ACCEPTING
    ensures Quiet(w0, w.SetState(r, st), f)
  {
    hide TallyOf, Held;
    var w' := w.SetState(r, st);
    assert forall q :: q != r ==> w'.At(q) == w.At(q);
    HeldSame(w, w');
  }

  /** The result of `AcceptNewSocket`: one accept outstanding, to be filled by `current`. */
  ghost predicate AcceptDone(w0: World, w: World, listener: Node, ok: bool, f: set<Node>) {
    && SameIds(w0, w) && w.kind == w0.kind
    && w.At(listener) == w0.At(listener) && listener in w.sockets.live
    && (listener !in w0.queue ==> listener !in w.queue)
    && (ok ==> TallyOf(w.posted, listener) == TallyOf(w0.posted, listener).(accepts := 1)
               && AcceptTarget(w) && w.current.value !in f)
    && (!ok ==> TallyOf(w.posted, listener) == TallyOf(w0.posted, listener) && NoAccept(w))
  }

  lemma {:induction false} FinishAccept(w0: World, w: World, listener: Node, r: Node, b: Node, f: set<Node>)
    requires Has(w0, w, r, f) && w.At(r).state == ASSOCIATED && w.current == Some(r) && NoAccept(w)
    requires Held(w, b) && !Held(w0, b) && w.BufAt(b).operation == Operation.Accept
    requires listener in f && listener in w.sockets.live
    requires TallyOf(w.posted, listener).accepts == 0
    ensures var w' := w.Post(b, listener, Operation.Accept).Do(Publish(r)).SetState(r, ACCEPTING);
            && InvExcept(w', f) && Quiet(w0, w', f - {listener})
            && AcceptTarget(w') && w'.At(listener) == w.At(listener) && listener in w'.sockets.live
            && w'.queue == w.queue && w'.ids == w.ids && w'.current == Some(r)
            && TallyOf(w'.posted, listener) == TallyOf(w.posted, listener).(accepts := 1)
  {
    HasFacts(w0, w, r, f);
    hide InvExcept, TallyOf, Quiet, Loose, Has, Held;
    var w1 := w.Post(b, listener, Operation.Accept);
    var w2 := w1.Do(Publish(r));
    var w' := w2.SetState(r, ACCEPTING);
    PostKeeps(w, b, listener, Operation.Accept, f + {r});
    LogKeeps(w1, w2, f + {r});
    SetStateKeeps(w2, r, ACCEPTING, f + {r});
    QuietSub(w0, w, f, f - {listener});
    PostQuiet(w0, w, b, listener, Operation.Accept, f - {listener});
    QuietLog(w0, w1, w2, f - {listener});
    Facts(w2, r, f + {r});
    RetagQuiet(w0, w2, r, ACCEPTING, f - {listener});
    Narrow(w', r, f);
  }

  lemma {:induction false} AcceptKeeps(w: World, listener: Node, os: AcceptOs, f: set<Node>)
    requires InvExcept(w, f) && Aside(w, f) && listener in f && NoAccept(w)
    ensures var (w', ok) := w.AcceptNewSocket(listener, os);
            && InvExcept(w', f) && Quiet(w, w', if ok then f - {listener} else f)
            && AcceptDone(w, w', listener, ok, f)
  {
    hide InvExcept, TallyOf, Quiet, Loose, Has, Held, Obtained;
    NoAcceptTally(w.posted, listener);
    var (w1, g) := w.GenerateSocket(true, os.createOk);
    GenerateKeeps(w, true, os.createOk, f);
    GenerateSame(w, true, os.createOk);
    if g.Some? {
      var r := g.value;
      ObtainedHas(w, w1, r, f);
      ObtainedState(w, w1, r, f);
      AcceptObtained(w, w1, listener, r, os, f);
    }
  }

  lemma {:induction false} KeptListener(w0: World, w: World, f: set<Node>, o: Node)
    requires Quiet(w0, w, f) && Aside(w0, f) && o in f
    ensures w.At(o) == w0.At(o) && o in w.sockets.live && o !in w.queue && TallyOf(w.posted, o) == TallyOf(w0.posted, o)
  {
    hide TallyOf, Evolves;
  }

  lemma {:induction false} AcceptObtained(w: World, w1: World, listener: Node, r: Node, os: AcceptOs, f: set<Node>)
    requires Has(w, w1, r, f) && w1.At(r).state in {INIT, DISCONNECTED} && Aside(w, f)
    requires listener in f && NoAccept(w) && w1.posted == w.posted
    requires w.GenerateSocket(true, os.createOk) == (w1, Some(r))
    ensures var (w', ok) := w.AcceptNewSocket(listener, os);
            && InvExcept(w', f) && Quiet(w, w', if ok then f - {listener} else f)
            && AcceptDone(w, w', listener, ok, f)
  {
    hide InvExcept, TallyOf, Quiet, Loose, Held, World.GenerateSocket;
    NoAcceptTally(w.posted, listener);
    if !os.associateOk {
      HasDelete(w, w1, r, f);
      KeptListener(w, w1.DeleteSocket(r, NEVER_CONNECTED), f, listener);
    } else {
      var w2 := w1.SetState(r, ASSOCIATED);
      HasSetState(w, w1, r, ASSOCIATED, f);
      var w3 := w2.(current := Some(r));
      SetCurrentKeeps(w, w2, r, f);
      var b := w3.buffers.Slot();
      var w4 := w3.CreateBuffer(Operation.Accept);
      HasCreateBuffer(w, w3, r, Operation.Accept, f);
      KeptListener(w, w4, f, listener);
      if !os.acceptOk {
        HasDelete(w, w4, r, f);
        KeptListener(w, w4.DeleteSocket(r, NEVER_CONNECTED), f, listener);
      } else {
        FinishAccept(w, w4, listener, r, b, f);
      }
    }
  }

  /** While no listener exists, no accept is outstanding. */
  /** An accept in flight is on a socket set aside, or the manager is listening. */
  lemma {:induction false} AcceptMeansListening(w: World, p: Posted, f: set<Node>)
    requires InvExcept(w, f) && p in w.posted && p.op == Operation.Accept
    ensures TallyOf(w.posted, p.key).accepts > 0
    ensures p.key in f || w.mgr == SERVER_LISTENING
  {
    var i :| 0 <= i < |w.posted| && w.posted[i] == p;
    TallyCounts(w.posted, i);
    hide TallyOf, BuffersOk, QueueOk, IdsOk, PostedOk;
    assert p.key !in f ==> SockOk(w, p.key);
  }

  lemma {:induction false} ReadyMeansNoAccept(w: World, own: Option<Node>)
    requires During(w, own) && w.mgr == READY
    ensures NoAccept(w)
  {
    hide InvExcept, TallyOf;
    forall p | p in w.posted
      ensures p.op != Operation.Accept
    {
      if p.op == Operation.Accept {
        AcceptMeansListening(w, p, Owner(own));
      }
    }
  }

  lemma {:induction false} FinishListen(w0: World, w: World, r: Node, f: set<Node>)
    requires InvExcept(w, f + {r}) && r !in f && Quiet(w0, w, f) && r in w.sockets.live && r !in w.queue
    requires w.At(r).state == LISTENING && TallyOf(w.posted, r) == NOTHING.(accepts := 1)
    requires Counts(w.At(r), NOTHING) && AcceptTarget(w) && w.current.value != r && w.kind == SERVER
    ensures var w' := w.AddSocketToMap(r, NIL_UUID).(mgr := SERVER_LISTENING);
            InvExcept(w', f) && Quiet(w0, w', f)
  {
    hide TallyOf, Quiet, SocketsOk, BuffersOk, QueueOk, PostedOk;
    Facts(w, r, f + {r});
    var w1 := w.AddSocketToMap(r, NIL_UUID);
    assert NIL_UUID < w.nextId;
    AddIdKeeps(w, r, NIL_UUID, f + {r});
    AddIdQuiet(w0, w, r, NIL_UUID, f);
    QuietCurrent(w0, w1, w1.(mgr := SERVER_LISTENING), f);
  }

  lemma {:induction false} OwnerAside(w: World, own: Option<Node>)
    requires During(w, own)
    ensures Aside(w, Owner(own))
  {
    hide InvExcept, TallyOf;
  }

  lemma {:induction false} OpenKept(w: World, w': World, o: Node, k: nat, f: set<Node>)
    requires Open(w, o, k) && o in f && Quiet(w, w', f) && IdsKept(w, w')
    ensures Open(w', o, k)
  {
    EvolvesFlag(w, w');
    hide TallyOf, Evolves;
  }

  lemma {:induction false} EvolvesFlag(w: World, w': World)
    requires Evolves(w, w')
    ensures w'.forgets == w.forgets
  {
  }

  lemma {:induction false} FreshId(w: World, f: set<Node>)
    requires InvExcept(w, f)
    ensures w.nextId !in w.ids && NIL_UUID < w.nextId
  {
  }

  lemma {:induction false} DuringAfter(w: World, w': World, own: Option<Node>)
    requires During(w, own) && InvExcept(w', Owner(own)) && Quiet(w, w', Owner(own)) && IdsKept(w, w')
    ensures During(w', own) && Evolves(w, w')
  {
    hide InvExcept, Open, Evolves, IdsKept;
    if own.Some? {
      OpenKept(w, w', own.value, 0, Owner(own));
    }
  }

  lemma {:induction false} ConnectDuring(w: World, own: Option<Node>, os: ConnectOs)
    requires During(w, own)
    ensures var w' := w.ConnectToNewSocket(NIL_UUID, os).0;
            During(w', own) && Evolves(w, w')
  {
    hide InvExcept, TallyOf, Quiet, Open;
    OwnerAside(w, own);
    FreshId(w, Owner(own));
    ConnectKeeps(w, NIL_UUID, os, Owner(own));
    DuringAfter(w, w.ConnectToNewSocket(NIL_UUID, os).0, own);
  }

  lemma {:induction false} ListenDuring(w: World, own: Option<Node>, os: ListenOs)
    requires During(w, own)
    ensures var w' := w.ListenToNewSocket(os).0;
            During(w', own) && Evolves(w, w')
  {
    hide InvExcept, TallyOf, Quiet, Open, NoAccept, World.ListenToNewSocket;
    OwnerAside(w, own);
    if w.mgr == READY {
      ReadyMeansNoAccept(w, own);
    }
    ListenKeeps(w, os, Owner(own));
    DuringAfter(w, w.ListenToNewSocket(os).0, own);
  }

  /** Listening, whatever the system answers, disturbs no socket set aside, and registers the listener
      or nothing. */
  lemma {:induction false} ListenKeeps(w: World, os: ListenOs, f: set<Node>)
    requires InvExcept(w, f) && Aside(w, f) && (w.mgr == READY ==> NoAccept(w))
    ensures var w' := w.ListenToNewSocket(os).0;
            InvExcept(w', f) && Quiet(w, w', f) && ListenIds(w, w')
  {
    hide InvExcept, TallyOf, Quiet, Open, Loose, Held, Obtained;
    FreshId(w, f);
    if w.mgr != READY || w.kind != SERVER {
      QuietSame(w, w, f);
    } else {
      var (w1, g) := w.GenerateSocket(false, os.createOk);
      GenerateKeeps(w, false, os.createOk, f);
      GenerateSame(w, false, os.createOk);
      if g.Some? {
        var r := g.value;
        ObtainedHas(w, w1, r, f);
        ListenObtained(w, w1, r, os, f);
      }
    }
  }

  lemma {:induction false} ListenObtained(w: World, w1: World, r: Node, os: ListenOs, f: set<Node>)
    requires Has(w, w1, r, f) && NoAccept(w) && w1.posted == w.posted && Aside(w, f)
    requires w.mgr == READY && w.kind == SERVER && w.nextId !in w.ids
    requires w.GenerateSocket(false, os.createOk) == (w1, Some(r))
    ensures var w' := w.ListenToNewSocket(os).0;
            InvExcept(w', f) && Quiet(w, w', f) && ListenIds(w, w')
  {
    hide InvExcept, TallyOf, Quiet, Loose, Held;
    if !os.htonsOk {
      HasDelete(w, w1, r, f);
    } else if !os.associateOk {
      HasDelete(w, w1, r, f);
    } else {
      var w2 := w1.SetState(r, ASSOCIATED);
      HasSetState(w, w1, r, ASSOCIATED, f);
      if os.bind.BindRefused? {
        HasDelete(w, w2, r, f);
      } else if os.bind.OptionRefused? {
        HasLeft(w, w2, r, f);
      } else {
        var w3 := w2.SetState(r, BOUND);
        HasSetState(w, w2, r, BOUND, f);
        if !os.listenOk {
          HasDelete(w, w3, r, f);
        } else {
          HasSetState(w, w3, r, LISTENING, f);
          ListenAccept(w, w3.SetState(r, LISTENING), r, os.accept, f);
        }
      }
    }
  }

  lemma {:induction false} AsideMore(w0: World, w: World, r: Node, f: set<Node>)
    requires Has(w0, w, r, f)
    ensures Aside(w, f + {r}) && Aside(w, f)
  {
    hide InvExcept, TallyOf, Evolves, Quiet;
    AsideKept(w0, w, f);
  }

  lemma {:induction false} ListenAccepted(w0: World, w: World, w4: World, r: Node, f: set<Node>)
    requires Has(w0, w, r, f) && w.At(r).state == LISTENING && w.kind == SERVER && w0.nextId !in w0.ids
    requires InvExcept(w4, f + {r}) && AcceptDone(w, w4, r, true, f + {r}) && Quiet(w0, w4, f)
    ensures var w' := w4.AddSocketToMap(r, NIL_UUID).(mgr := SERVER_LISTENING);
            InvExcept(w', f) && Quiet(w0, w', f) && ListenIds(w0, w')
  {
    hide *;
    ListenReady(w0, w, w4, r, f);
    FinishListen(w0, w4, r, f);
    LiveInMemory(w4, r, f + {r});
    NewIdListens(w0, w4, r);
  }

  lemma {:induction false} ListenReady(w0: World, w: World, w4: World, r: Node, f: set<Node>)
    requires Has(w0, w, r, f) && w.At(r).state == LISTENING && w.kind == SERVER
    requires AcceptDone(w, w4, r, true, f + {r})
    ensures r !in f && r in w4.sockets.live && r !in w4.queue && w4.At(r).state == LISTENING
    ensures TallyOf(w4.posted, r) == NOTHING.(accepts := 1) && Counts(w4.At(r), NOTHING)
    ensures AcceptTarget(w4) && w4.current.value != r && w4.kind == SERVER
    ensures w4.ids == w0.ids && w4.nextId == w0.nextId
  {
    hide InvExcept, TallyOf, Quiet;
  }

  lemma {:induction false} LiveInMemory(w: World, r: Node, f: set<Node>)
    requires InvExcept(w, f) && r in w.sockets.live
    ensures r in w.sockets.mem
  {
  }

  lemma {:induction false} NewIdListens(w0: World, w: World, r: Node)
    requires w.ids == w0.ids && w.nextId == w0.nextId && w0.nextId !in w0.ids
    requires r in w.sockets.live && r in w.sockets.mem && r !in w.queue && w.At(r).state == LISTENING
    ensures ListenIds(w0, w.AddSocketToMap(r, NIL_UUID).(mgr := SERVER_LISTENING))
  {
  }

  lemma {:induction false} ListenRefused(w0: World, w: World, w4: World, r: Node, f: set<Node>)
    requires Has(w0, w, r, f)
    requires InvExcept(w4, f + {r}) && AcceptDone(w, w4, r, false, f + {r}) && Quiet(w0, w4, f)
    ensures var w' := w4.DeleteSocket(r, NEVER_CONNECTED);
            InvExcept(w', f) && Quiet(w0, w', f) && ListenIds(w0, w')
  {
    HasSame(w0, w, r, f);
    hide InvExcept, TallyOf, Quiet, Loose, Has;
    HasAgain(w0, w, w4, r, f);
    HasDelete(w0, w4, r, f);
  }

  /** The last part of `ListenToNewSocket`: the first accept, and the listener's registration. */
  lemma {:induction false} ListenAccept(w0: World, w: World, r: Node, os: AcceptOs, f: set<Node>)
    requires Has(w0, w, r, f) && NoAccept(w) && w.At(r).state == LISTENING && w.kind == SERVER && w0.nextId !in w0.ids
    ensures var (w4, accepting) := w.AcceptNewSocket(r, os);
            var w' := if accepting then w4.AddSocketToMap(r, NIL_UUID).(mgr := SERVER_LISTENING)
                      else w4.DeleteSocket(r, NEVER_CONNECTED);
            InvExcept(w', f) && Quiet(w0, w', f) && ListenIds(w0, w')
  {
    HasFacts(w0, w, r, f);
    hide *;
    var (w4, accepting) := w.AcceptNewSocket(r, os);
    AsideMore(w0, w, r, f);
    AcceptKeeps(w, r, os, f + {r});
    assert f + {r} - {r} == f;
    QuietSub(w, w4, if accepting then f + {r} - {r} else f + {r}, f);
    QuietTransitive(w0, w, w4, f);
    if accepting {
      ListenAccepted(w0, w, w4, r, f);
    } else {
      ListenRefused(w0, w, w4, r, f);
    }
  }

  lemma {:induction false} HasSame(w0: World, w: World, r: Node, f: set<Node>)
    requires Has(w0, w, r, f)
    ensures SameIds(w0, w) && w.kind == w0.kind && r !in f && Loose(w, r) && Aside(w0, f)
  {
    hide InvExcept, TallyOf, Quiet, Loose;
  }

  lemma {:induction false} HasAgain(w0: World, w: World, w4: World, r: Node, f: set<Node>)
    requires Has(w0, w, r, f) && InvExcept(w4, f + {r}) && Quiet(w0, w4, f) && AcceptDone(w, w4, r, false, f + {r})
    ensures Has(w0, w4, r, f)
  {
    hide InvExcept, TallyOf, Quiet;
  }

  // ---------- user calls ----------

  lemma {:induction false} OwnCloseKeeps(w: World, o: Node)
    requires During(w, Some(o))
    ensures var w' := w.ChangeSocketState(o, CLOSING);
            During(w', Some(o)) && Evolves(w, w')
  {
    hide InvExcept, TallyOf;
    OpenFacts(w, o, 0);
    ChangeSocketStateKeeps(w, o, CLOSING, {o});
    OpenLocal(w, w.ChangeSocketState(o, CLOSING), o, 0);
  }

  /** A call through a stale id is harmless unless the socket's memory was given back. */
  ghost predicate SafeCall(w: World, c: UserCall) {
    c.SendTo? && c.id in w.ids ==> w.ids[c.id] in w.sockets.mem
  }

  /** Looking up an id. */
  lemma {:induction false} LookupKeeps(w: World, own: Option<Node>)
    requires During(w, own)
    ensures During(w.Section(MapLock), own) && Evolves(w, w.Section(MapLock))
  {
    hide InvExcept, TallyOf, Held;
    LogKeeps(w, w.Section(MapLock), Owner(own));
    HeldSame(w, w.Section(MapLock));
  }

  lemma {:induction false} UserCallKeeps(w: World, own: Option<Node>, c: UserCall)
    requires During(w, own) && SafeCall(w, c)
    ensures During(w.UserCalls(own, c), own) && Evolves(w, w.UserCalls(own, c))
  {
    hide During, Evolves;
    match c {
      case SendTo(id, data, failAt) =>
        var w1 := w.Section(MapLock);
        LookupKeeps(w, own);
        if id in w.ids {
          SendDataKeeps(w1, own, w.ids[id], |data|, failAt);
          EvolvesTransitive(w, w1, w1.SendData(w.ids[id], |data|, failAt));
        }
      case SendToAll(data, failAts) => SendDataToAllKeeps(w, own, w.sockets.live, |data|, failAts);
      case ConnectNew(os) => ConnectDuring(w, own, os);
      case ListenNew(os) => ListenDuring(w, own, os);
      case OwnSend(data, failAt) =>
        if own.Some? { SendDataKeeps(w, own, own.value, |data|, failAt); } else { EvolvesSame(w); }
      case OwnClose =>
        if own.Some? { OwnCloseKeeps(w, own.value); } else { EvolvesSame(w); }
    }
  }

  ghost predicate SafeCalls(w: World, own: Node, cs: seq<UserCall>)
    decreases |cs|
  {
    cs == [] || (SafeCall(w, cs[0]) && SafeCalls(w.UserCalls(Some(own), cs[0]), own, cs[1..]))
  }

  lemma {:induction false} ReceiveDataKeeps(w: World, own: Node, cs: seq<UserCall>)
    requires During(w, Some(own)) && SafeCalls(w, own, cs)
    ensures During(w.ReceiveData(own, cs), Some(own)) && Evolves(w, w.ReceiveData(own, cs))
    decreases |cs|
  {
    hide During, Evolves;
    if cs == [] {
      EvolvesSame(w);
    } else {
      var w1 := w.UserCalls(Some(own), cs[0]);
      UserCallKeeps(w, Some(own), cs[0]);
      ReceiveDataKeeps(w1, own, cs[1..]);
      EvolvesTransitive(w, w1, w.ReceiveData(own, cs));
    }
  }
}
