/** Who may send, and what a send then posts: to one socket, through an id, and to all. */
module Admission {
  import opened SocketTypes
  import opened RecyclableList
  import opened Engine
  import opened EngineInvariant
  import opened EngineSteps
  import opened Chunking

  /** A socket admits a send if and only if it is connected and the bytes pending on it and those of the
      send are 65536 at most. */
  lemma {:induction false} AdmitsIff(w: World, r: Node, length: nat, f: set<Node>)
    requires InvExcept(w, f) && r in w.sockets.live
    ensures w.Admits(r, length) <==> w.At(r).state == CONNECTED && length + w.At(r).pendingByteSent <= 65536
  {
    Facts(w, r, f);
    hide InvExcept;
  }

  // ---------- one socket ----------

  /** The chunks of a send before the refused one. */
  function Before(length: nat, failAt: nat): seq<nat> {
    ChunkLens(length)[..Min(failAt, |ChunkLens(length)|)]
  }

  /** The socket when those chunks are in flight, failed if one was refused. */
  function Loaded(s: Socket, length: nat, failAt: nat): Socket {
    s.(outstandingSend := s.outstandingSend + |Before(length, failAt)|,
       pendingByteSent := s.pendingByteSent + Min(length, failAt * 4096),
       state := if failAt < |ChunkLens(length)| then FAILURE else s.state)
  }

  /** The lengths of the writes posted on socket `q`, in order. */
  function WritesOn(ps: seq<Posted>, q: Node): seq<nat> {
    if ps == [] then []
    else (if ps[0].key == q && ps[0].op == Operation.Write then [ps[0].len] else []) + WritesOn(ps[1..], q)
  }

  lemma {:induction false} WritesJoin(ps: seq<Posted>, qs: seq<Posted>, q: Node)
    ensures WritesOn(ps + qs, q) == WritesOn(ps, q) + WritesOn(qs, q)
  {
    if ps == [] {
      assert ps + qs == qs;
    } else {
      assert (ps + qs)[1..] == ps[1..] + qs;
      WritesJoin(ps[1..], qs, q);
    }
  }

  lemma {:induction false} WritesOfChunks(ps: seq<Posted>, r: Node, q: Node, lens: seq<nat>)
    requires |ps| == |lens| && forall j :: 0 <= j < |ps| ==> IsChunk(ps[j], r, lens[j])
    ensures WritesOn(ps, q) == if q == r then lens else []
  {
    if ps != [] {
      assert forall j :: 0 <= j < |ps| - 1 ==> ps[1..][j] == ps[j + 1] && lens[1..][j] == lens[j + 1];
      WritesOfChunks(ps[1..], r, q, lens[1..]);
      assert IsChunk(ps[0], r, lens[0]);
    }
  }

  /** What was posted since `w`. */
  function Since(w: World, w': World): seq<Posted> {
    if |w.posted| <= |w'.posted| then w'.posted[|w.posted|..] else []
  }

  ghost predicate Appends(w: World, w': World) {
    |w.posted| <= |w'.posted| && w'.posted[..|w.posted|] == w.posted
  }

  /** Fields of a socket that sending leaves alone. */
  predicate SameButSends(s: Socket, s': Socket) {
    s' == s.(outstandingSend := s'.outstandingSend, pendingByteSent := s'.pendingByteSent, state := s'.state)
  }

  lemma {:induction false} ChunkFields(w: World, r: Node, length: nat, ok: bool)
    requires r in w.sockets.mem && w.buffers.Valid()
    ensures var w0, b := w.PrepareChunk(length), w.buffers.Slot();
            var w' := if ok then w0.PostSend(r, b, true) else w0.RefuseChunk(r, b);
            && SameButSends(w.At(r), w'.At(r)) && w'.buffers.Valid() && w'.sockets.live == w.sockets.live
            && |w'.buffers.live| == |w.buffers.live| + (if ok then 1 else 0)
            && (forall q :: q in w.sockets.mem ==> q in w'.sockets.mem)
            && w'.ids == w.ids && w'.queue == w.queue && w'.mgr == w.mgr && w'.current == w.current
  {
    var w0, b := w.PrepareChunk(length), w.buffers.Slot();
    Prepared(w, length);
    Refused(w0, r, b);
    EraseKeeps(w0.buffers, b);
    WithoutMembers(w0.buffers.live, b);
    hide World.PrepareChunk, Recycler.Valid;
  }

  /** Fields that a send leaves alone. */
  ghost predicate Elsewhere(w: World, w': World) {
    && w'.ids == w.ids && w'.queue == w.queue && w'.mgr == w.mgr && w'.current == w.current
    && w'.sockets.live == w.sockets.live && (forall q :: q in w.sockets.mem ==> q in w'.sockets.mem)
  }

  lemma {:induction false} SendFields(w: World, r: Node, length: nat, failAt: nat)
    requires r in w.sockets.mem && w.buffers.Valid()
    ensures var w' := w.SendChunks(r, length, failAt);
            && SameButSends(w.At(r), w'.At(r)) && w'.buffers.Valid() && Elsewhere(w, w')
            && |w'.buffers.live| == |w.buffers.live| + |Before(length, failAt)|
    decreases length
  {
    hide World.PrepareChunk, World.PostSend, World.RefuseChunk, Recycler.Valid, Before;
    BeforeFirst(length, failAt);
    if length > 0 {
      ChunkFields(w, r, length, failAt > 0);
      if failAt > 0 {
        var w1 := w.PrepareChunk(length).PostSend(r, w.buffers.Slot(), true);
        SendFields(w1, r, length - ChunkLen(length), failAt - 1);
      }
    }
  }

  lemma {:induction false} BeforeFirst(length: nat, failAt: nat)
    ensures |Before(length, failAt)|
         == if length == 0 || failAt == 0 then 0 else 1 + |Before(length - ChunkLen(length), failAt - 1)|
  {
  }

  /** The effect of a send on a socket that admits it. */
  ghost predicate Delivered(w: World, w': World, r: Node, length: nat, failAt: nat) {
    && Appends(w, w') && |Since(w, w')| == |Before(length, failAt)|
    && (forall j :: 0 <= j < |Since(w, w')| ==> IsChunk(Since(w, w')[j], r, Before(length, failAt)[j]))
    && w'.At(r) == Loaded(w.At(r), length, failAt)
    && (forall q :: q != r ==> w'.At(q) == w.At(q))
    && Elsewhere(w, w') && |w'.buffers.live| == |w.buffers.live| + |Before(length, failAt)|
  }

  lemma {:induction false} ChunksDelivered(w: World, r: Node, length: nat, failAt: nat)
    requires r in w.sockets.mem && w.buffers.Valid()
    ensures Delivered(w, w.SendChunks(r, length, failAt), r, length, failAt)
  {
    var w' := w.SendChunks(r, length, failAt);
    SendAccounts(w, r, length, failAt);
    SendPending(w, r, length, failAt);
    SendFields(w, r, length, failAt);
    SendChunksLocal(w, r, length, failAt);
    AccountedSince(w, w', r, Before(length, failAt));
    LoadedIs(w.At(r), w'.At(r), length, failAt);
    hide *;
    DeliveredIs(w, w', r, length, failAt);
  }

  lemma {:induction false} LoadedIs(s: Socket, s': Socket, length: nat, failAt: nat)
    requires SameButSends(s, s') && s'.outstandingSend == s.outstandingSend + |Before(length, failAt)|
    requires s'.pendingByteSent == s.pendingByteSent + Min(length, failAt * 4096)
    requires s'.state == if failAt < |ChunkLens(length)| then FAILURE else s.state
    ensures s' == Loaded(s, length, failAt)
  {
  }

  lemma {:induction false} DeliveredIs(w: World, w': World, r: Node, length: nat, failAt: nat)
    requires Appends(w, w') && |Since(w, w')| == |Before(length, failAt)|
    requires forall j :: 0 <= j < |Before(length, failAt)| ==> IsChunk(Since(w, w')[j], r, Before(length, failAt)[j])
    requires w'.At(r) == Loaded(w.At(r), length, failAt) && Elsewhere(w, w')
    requires |w'.buffers.live| == |w.buffers.live| + |Before(length, failAt)|
    requires forall q :: q != r ==> w'.At(q) == w.At(q)
    ensures Delivered(w, w', r, length, failAt)
  {
    hide Appends, Since, Before, Elsewhere, Loaded, IsChunk;
  }

  lemma {:induction false} AccountedSince(w: World, w': World, r: Node, lens: seq<nat>)
    requires Accounted(w, w', r, lens)
    ensures Appends(w, w') && |Since(w, w')| == |lens|
    ensures forall j :: 0 <= j < |lens| ==> IsChunk(Since(w, w')[j], r, lens[j])
    ensures w'.At(r).outstandingSend == w.At(r).outstandingSend + |lens|
    ensures w'.At(r).outstandingRecv == w.At(r).outstandingRecv
  {
    hide Sum;
    forall j | 0 <= j < |lens|
      ensures IsChunk(Since(w, w')[j], r, lens[j])
    {
      assert Since(w, w')[j] == w'.posted[|w.posted| + j];
    }
  }

  /** A send to a live socket, in every state of the invariant: if the socket is connected and the bytes
      fit, the chunks before the refused one are posted as writes, counted and budgeted, and the socket
      fails exactly if there is a refused one; otherwise nothing happens. */
  lemma {:induction false} SendOutcome(w: World, r: Node, length: nat, failAt: nat, f: set<Node>)
    requires InvExcept(w, f) && r in w.sockets.live
    ensures var w' := w.SendData(r, length, failAt);
            if w.At(r).state == CONNECTED && length + w.At(r).pendingByteSent <= 65536 then
              Delivered(w, w', r, length, failAt)
            else w' == w
  {
    Facts(w, r, f);
    AdmitsIff(w, r, length, f);
    BuffersAreValid(w, f);
    hide InvExcept, World.SendChunks, Delivered;
    ChunksDelivered(w, r, length, failAt);
  }

  lemma {:induction false} BuffersAreValid(w: World, f: set<Node>)
    requires InvExcept(w, f)
    ensures w.buffers.Valid() && w.sockets.Valid()
  {
  }

  // ---------- through an id ----------

  /** A send through an id whose socket is live does to that socket what a direct send does; through an id
      that is not stored it does nothing. */
  lemma {:induction false} SendToOutcome(w: World, own: Option<Node>, id: Uuid, data: seq<char>, failAt: nat)
    requires During(w, own) && (id in w.ids ==> w.ids[id] in w.sockets.live)
    ensures var w' := w.UserCalls(own, SendTo(id, data, failAt));
            if && id in w.ids && w.At(w.ids[id]).state == CONNECTED
               && |data| + w.At(w.ids[id]).pendingByteSent <= 65536
            then
              Delivered(w, w', w.ids[id], |data|, failAt)
            else w' == w.Section(MapLock)
  {
    hide InvExcept, Open, Delivered, World.SendData;
    var w1 := w.Section(MapLock);
    LogKeeps(w, w1, Owner(own));
    if id in w.ids {
      Facts(w, w.ids[id], Owner(own));
      SendOutcome(w1, w.ids[id], |data|, failAt, Owner(own));
      if w.At(w.ids[id]).state == CONNECTED && |data| + w.At(w.ids[id]).pendingByteSent <= 65536 {
        DeliveredFrom(w, w1, w1.SendData(w.ids[id], |data|, failAt), w.ids[id], |data|, failAt);
      }
    }
  }

  lemma {:induction false} DeliveredFrom(w: World, w1: World, w': World, r: Node, length: nat, failAt: nat)
    requires Delivered(w1, w', r, length, failAt) && w1 == w.(log := w1.log)
    ensures Delivered(w, w', r, length, failAt)
  {
    assert forall q :: w1.At(q) == w.At(q);
  }

  /** A send to the socket whose data is being received. */
  lemma {:induction false} OwnSendOutcome(w: World, own: Node, data: seq<char>, failAt: nat)
    requires During(w, Some(own))
    ensures var w' := w.UserCalls(Some(own), OwnSend(data, failAt));
            if w.At(own).state == CONNECTED && |data| + w.At(own).pendingByteSent <= 65536 then
              Delivered(w, w', own, |data|, failAt)
            else w' == w
  {
    OpenFacts(w, own, 0);
    hide InvExcept, Delivered, Open, World.SendData;
    SendOutcome(w, own, |data|, failAt, {own});
  }

  // ---------- to all ----------

  function FailAt(q: Node, length: nat, failAts: map<Node, nat>): nat {
    if q in failAts then failAts[q] else length
  }

  /** What the call makes of socket `q`. */
  function Reached(w: World, q: Node, length: nat, failAts: map<Node, nat>): Socket {
    if w.Admits(q, length) then Loaded(w.At(q), length, FailAt(q, length, failAts)) else w.At(q)
  }

  function WritesFor(w: World, q: Node, length: nat, failAts: map<Node, nat>): seq<nat> {
    if w.Admits(q, length) then Before(length, FailAt(q, length, failAts)) else []
  }

  ghost predicate Writable(w: World, nodes: seq<Node>) {
    w.buffers.Valid() && forall q :: q in nodes ==> q in w.sockets.mem
  }

  /** Only these operations were posted: writes on listed sockets that admit. */
  ghost predicate OnlyAdmitted(w: World, ps: seq<Posted>, nodes: seq<Node>, length: nat) {
    forall p :: p in ps ==> p.op == Operation.Write && p.key in nodes && w.Admits(p.key, length)
  }

  lemma {:induction false} OneDelivered(w: World, r: Node, length: nat, failAts: map<Node, nat>)
    requires Writable(w, [r])
    ensures var w' := w.SendData(r, length, FailAt(r, length, failAts));
            && Appends(w, w') && w'.At(r) == Reached(w, r, length, failAts)
            && (forall q :: q != r ==> w'.At(q) == w.At(q))
            && WritesOn(Since(w, w'), r) == WritesFor(w, r, length, failAts)
            && (forall q :: q != r ==> WritesOn(Since(w, w'), q) == [])
            && OnlyAdmitted(w, Since(w, w'), [r], length)
            && w'.buffers.Valid() && Elsewhere(w, w')
  {
    var failAt := FailAt(r, length, failAts);
    var w' := w.SendData(r, length, failAt);
    assert r in [r];
    if w.Admits(r, length) {
      ChunksDelivered(w, r, length, failAt);
      SendFields(w, r, length, failAt);
      hide World.SendChunks, World.Admits, Recycler.Valid, Elsewhere, Loaded, Before;
      forall q
        ensures WritesOn(Since(w, w'), q) == if q == r then Before(length, failAt) else []
      {
        WritesOfChunks(Since(w, w'), r, q, Before(length, failAt));
      }
      ChunksAdmitted(w, Since(w, w'), r, length, Before(length, failAt));
    } else {
      assert Since(w, w) == [];
    }
  }

  lemma {:induction false} ChunksAdmitted(w: World, ps: seq<Posted>, r: Node, length: nat, lens: seq<nat>)
    requires |ps| == |lens| && forall j :: 0 <= j < |ps| ==> IsChunk(ps[j], r, lens[j])
    requires w.Admits(r, length)
    ensures OnlyAdmitted(w, ps, [r], length)
  {
  }

  /** Sending to all: each listed socket that admits gets the chunks before its refused one, and fails
      exactly if there is one; nothing else is posted, and no other socket changes. */
  ghost predicate AllReached(w: World, w': World, nodes: seq<Node>, length: nat, failAts: map<Node, nat>) {
    && Appends(w, w')
    && (forall q :: q in nodes ==>
          && w'.At(q) == Reached(w, q, length, failAts)
          && WritesOn(Since(w, w'), q) == WritesFor(w, q, length, failAts))
    && (forall q :: q !in nodes ==> w'.At(q) == w.At(q) && WritesOn(Since(w, w'), q) == [])
    && OnlyAdmitted(w, Since(w, w'), nodes, length)
  }

  lemma {:induction false} SendToAllOutcome(w: World, nodes: seq<Node>, length: nat, failAts: map<Node, nat>)
    requires NoDup(nodes) && Writable(w, nodes)
    ensures AllReached(w, w.SendDataToAll(nodes, length, failAts), nodes, length, failAts)
    decreases |nodes|
  {
    hide World.SendData, World.Admits, Recycler.Valid, WritesOn, Loaded, Before;
    if nodes == [] {
      NoneReached(w, length, failAts);
    } else {
      var w1 := w.SendData(nodes[0], length, FailAt(nodes[0], length, failAts));
      OneDelivered(w, nodes[0], length, failAts);
      SendToAllOutcome(w1, nodes[1..], length, failAts);
      AllFromOne(w, w1, w.SendDataToAll(nodes, length, failAts), nodes, length, failAts);
    }
  }

  lemma {:induction false} NoneReached(w: World, length: nat, failAts: map<Node, nat>)
    ensures AllReached(w, w, [], length, failAts)
  {
    assert Since(w, w) == [];
  }

  lemma {:induction false} SameAdmits(w: World, w1: World, q: Node, length: nat, failAts: map<Node, nat>)
    requires w1.At(q) == w.At(q)
    ensures w1.Admits(q, length) == w.Admits(q, length)
    ensures Reached(w1, q, length, failAts) == Reached(w, q, length, failAts)
    ensures WritesFor(w1, q, length, failAts) == WritesFor(w, q, length, failAts)
  {
  }

  lemma {:induction false} AllFromOne(w: World, w1: World, w': World, nodes: seq<Node>, length: nat,
      failAts: map<Node, nat>)
    requires NoDup(nodes) && nodes != [] && AllReached(w1, w', nodes[1..], length, failAts) && Appends(w, w1)
    requires var r := nodes[0];
             && w1.At(r) == Reached(w, r, length, failAts) && (forall q :: q != r ==> w1.At(q) == w.At(q))
             && WritesOn(Since(w, w1), r) == WritesFor(w, r, length, failAts)
             && (forall q :: q != r ==> WritesOn(Since(w, w1), q) == [])
             && OnlyAdmitted(w, Since(w, w1), [r], length)
    ensures AllReached(w, w', nodes, length, failAts)
  {
    hide World.Admits, WritesOn, Reached, WritesFor, OnlyAdmitted;
    var r := nodes[0];
    assert nodes == [r] + nodes[1..] && r !in nodes[1..];
    SinceJoins(w, w1, w');
    forall q
      ensures WritesOn(Since(w, w'), q) == WritesOn(Since(w, w1), q) + WritesOn(Since(w1, w'), q)
    {
      WritesJoin(Since(w, w1), Since(w1, w'), q);
    }
    forall q | q != r
      ensures Reached(w1, q, length, failAts) == Reached(w, q, length, failAts)
      ensures WritesFor(w1, q, length, failAts) == WritesFor(w, q, length, failAts)
    {
      SameAdmits(w, w1, q, length, failAts);
    }
    AdmittedJoin(w, w1, Since(w, w1), Since(w1, w'), nodes, length);
  }

  lemma {:induction false} SinceJoins(w: World, w1: World, w': World)
    requires Appends(w, w1) && Appends(w1, w')
    ensures Appends(w, w') && Since(w, w') == Since(w, w1) + Since(w1, w')
  {
    assert w'.posted[..|w.posted|] == w'.posted[..|w1.posted|][..|w.posted|];
  }

  lemma {:induction false} AdmittedJoin(w: World, w1: World, ps: seq<Posted>, qs: seq<Posted>, nodes: seq<Node>,
      length: nat)
    requires nodes != [] && nodes[0] !in nodes[1..] && forall q :: q != nodes[0] ==> w1.At(q) == w.At(q)
    requires OnlyAdmitted(w, ps, [nodes[0]], length) && OnlyAdmitted(w1, qs, nodes[1..], length)
    ensures OnlyAdmitted(w, ps + qs, nodes, length)
  {
    forall p | p in ps + qs
      ensures p.op == Operation.Write && p.key in nodes && w.Admits(p.key, length)
    {
      if p in ps {
        assert p.key in [nodes[0]];
      } else {
        assert p.key in nodes[1..];
      }
    }
  }

  /** The listed sockets that admit the data. */
  ghost function Takers(w: World, nodes: seq<Node>, length: nat): set<Node> {
    set q | q in nodes && w.Admits(q, length)
  }

  /** The count the call returns is how many they are. */
  lemma {:induction false} AdmittingIsCount(w: World, nodes: seq<Node>, length: nat)
    requires NoDup(nodes)
    ensures Admitting(w, nodes, length) == |Takers(w, nodes, length)|
  {
    hide World.Admits;
    if nodes != [] {
      AdmittingIsCount(w, nodes[1..], length);
      var rest := Takers(w, nodes[1..], length);
      assert nodes == [nodes[0]] + nodes[1..] && nodes[0] !in nodes[1..];
      assert Takers(w, nodes, length) == if w.Admits(nodes[0], length) then rest + {nodes[0]} else rest;
    } else {
      assert Takers(w, nodes, length) == {};
    }
  }

  /** A call that sends to all reaches every listed socket. */
  lemma {:induction false} SendToAllCall(w: World, own: Option<Node>, data: seq<char>, failAts: map<Node, nat>)
    requires During(w, own)
    ensures AllReached(w, w.UserCalls(own, SendToAll(data, failAts)), w.sockets.live, |data|, failAts)
  {
    hide Open, AllReached, World.SendDataToAll;
    ListWritable(w, Owner(own));
    SendToAllOutcome(w, w.sockets.live, |data|, failAts);
  }

  lemma {:induction false} ListWritable(w: World, f: set<Node>)
    requires InvExcept(w, f)
    ensures NoDup(w.sockets.live) && Writable(w, w.sockets.live)
  {
  }
}
