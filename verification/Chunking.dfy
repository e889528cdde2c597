/** How `SendData` cuts its input into buffers: the lengths, the bytes, and what is accounted
    when the system refuses a chunk. */
module Chunking {
  import opened SocketTypes
  import opened RecyclableList
  import opened Engine
  import opened EngineInvariant
  import opened EngineSteps

  // ---------- lengths ----------

  /** The lengths of the chunks of a send of `length` bytes. */
  function ChunkLens(length: nat): seq<nat> {
    if length == 0 then [] else [ChunkLen(length)] + ChunkLens(length - ChunkLen(length))
  }

  function Sum(ns: seq<nat>): nat { if ns == [] then 0 else ns[0] + Sum(ns[1..]) }

  function Min(a: nat, b: nat): nat { if a < b then a else b }

  /** The chunks are ceil(length / 4096) many, each of 1 to 4096 bytes, and the first k of them
      make up the first 4096 k bytes. */
  lemma {:induction false} ChunkLensCover(length: nat, k: nat)
    requires k <= |ChunkLens(length)|
    ensures |ChunkLens(length)| == (length + DEFAULT_BUFFER_SIZE - 1) / DEFAULT_BUFFER_SIZE
    ensures forall i :: 0 <= i < |ChunkLens(length)| ==> 1 <= ChunkLens(length)[i] <= DEFAULT_BUFFER_SIZE
    ensures Sum(ChunkLens(length)[..k]) == Min(length, k * DEFAULT_BUFFER_SIZE)
    ensures Sum(ChunkLens(length)) == length
  {
    var lens := ChunkLens(length);
    assert lens[..|lens|] == lens;
    if length > 0 {
      var rest := length - ChunkLen(length);
      assert lens[1..] == ChunkLens(rest);
      ChunkLensCover(rest, if k > 0 then k - 1 else 0);
      if k > 0 {
        assert lens[..k][1..] == ChunkLens(rest)[..k - 1];
      }
    }
  }

  // ---------- bytes ----------

  const NUL := '\0'

  /** `strncpy(dst, src, n)`: up to the first NUL, then NULs. */
  function StrNCpy(src: seq<char>, n: nat): (dst: seq<char>)
    requires n <= |src|
    ensures |dst| == n
  {
    if n == 0 then []
    else if src[0] == NUL then seq(n, _ => NUL)
    else [src[0]] + StrNCpy(src[1..], n - 1)
  }

  predicate NulBefore(src: seq<char>, i: nat)
    requires i <= |src|
  {
    exists j :: 0 <= j < i && src[j] == NUL
  }

  lemma {:induction false} StrNCpyAt(src: seq<char>, n: nat, i: nat)
    requires i < n <= |src|
    ensures StrNCpy(src, n)[i] == if NulBefore(src, i) then NUL else src[i]
  {
    if src[0] != NUL && i > 0 {
      StrNCpyAt(src[1..], n - 1, i - 1);
      assert NulBefore(src, i) ==> NulBefore(src[1..], i - 1) by {
        if NulBefore(src, i) {
          var j :| 0 <= j < i && src[j] == NUL;
          assert src[1..][j - 1] == NUL;
        }
      }
      assert NulBefore(src[1..], i - 1) ==> NulBefore(src, i) by {
        if NulBefore(src[1..], i - 1) {
          var j :| 0 <= j < i - 1 && src[1..][j] == NUL;
          assert src[j + 1] == NUL;
        }
      }
    }
  }

  /** The bytes handed to the system: every chunk is copied from the start of `data`. */
  function Wire(data: seq<char>, length: nat): (bytes: seq<char>)
    requires length <= |data|
    ensures |bytes| == length
    decreases length
  {
    if length == 0 then []
    else StrNCpy(data, ChunkLen(length)) + Wire(data, length - ChunkLen(length))
  }

  /** The bytes of the chunks before the refused one. */
  function Sent(data: seq<char>, length: nat, failAt: nat): seq<char>
    requires length <= |data|
    decreases length
  {
    if length == 0 || failAt == 0 then []
    else StrNCpy(data, ChunkLen(length)) + Sent(data, length - ChunkLen(length), failAt - 1)
  }

  /** A refused chunk cuts the bytes off at its start. */
  lemma {:induction false} SentIsPrefix(data: seq<char>, length: nat, failAt: nat)
    requires length <= |data|
    ensures Sent(data, length, failAt) == Wire(data, length)[..Min(length, failAt * DEFAULT_BUFFER_SIZE)]
    decreases length
  {
    if length > 0 && failAt > 0 {
      SentIsPrefix(data, length - ChunkLen(length), failAt - 1);
    }
  }

  /** The bytes that would be handed over if the chunk were copied as a block of memory and
      the pointer moved on. */
  function Advancing(data: seq<char>, length: nat): (bytes: seq<char>)
    requires length <= |data|
    decreases length
  {
    if length == 0 then []
    else data[..ChunkLen(length)] + Advancing(data[ChunkLen(length)..], length - ChunkLen(length))
  }

  /** With the pointer advanced the chunks concatenate to the input. */
  lemma {:induction false} AdvancingSendsInput(data: seq<char>, length: nat)
    requires length <= |data|
    ensures Advancing(data, length) == data[..length]
    decreases length
  {
    if length > 0 {
      var c := ChunkLen(length);
      AdvancingSendsInput(data[c..], length - c);
      assert data[..c] + data[c..][..length - c] == data[..length];
    }
  }

  /** What the i-th byte handed over is. */
  lemma {:induction false} WireAt(data: seq<char>, length: nat, i: nat)
    requires i < length <= |data|
    ensures var o := i % DEFAULT_BUFFER_SIZE;
            o < |data| && Wire(data, length)[i] == if NulBefore(data, o) then NUL else data[o]
    decreases length
  {
    var c := ChunkLen(length);
    if i < c {
      StrNCpyAt(data, c, i);
    } else {
      WireAt(data, length - c, i - c);
      assert (i - c) % DEFAULT_BUFFER_SIZE == i % DEFAULT_BUFFER_SIZE;
    }
  }

  /** The data repeats every 4096 bytes. */
  predicate Repeats(data: seq<char>, length: nat)
    requires length <= |data|
  {
    forall i :: DEFAULT_BUFFER_SIZE <= i < length ==> data[i] == data[i - DEFAULT_BUFFER_SIZE]
  }

  /** In the first chunk nothing but NULs follows a NUL. */
  predicate NulsLast(data: seq<char>, length: nat)
    requires length <= |data|
  {
    forall i, j :: 0 <= i < j < Min(length, DEFAULT_BUFFER_SIZE) && data[i] == NUL ==> data[j] == NUL
  }

  lemma {:induction false} FirstChunkRight(data: seq<char>, length: nat, i: nat)
    requires i < length <= |data| && i < DEFAULT_BUFFER_SIZE && NulsLast(data, length)
    ensures (if NulBefore(data, i) then NUL else data[i]) == data[i]
  {
  }

  lemma {:induction false} RepeatsBack(data: seq<char>, length: nat, i: nat)
    requires i < length <= |data| && Repeats(data, length)
    ensures data[i] == data[i % DEFAULT_BUFFER_SIZE]
  {
    if i >= DEFAULT_BUFFER_SIZE {
      RepeatsBack(data, length, i - DEFAULT_BUFFER_SIZE);
    }
  }

  /** The bytes handed over are the input exactly when the input repeats every 4096 bytes and
      its first chunk has no byte after a NUL. */
  lemma {:induction false} WireIsInputIff(data: seq<char>, length: nat)
    requires length <= |data|
    ensures Wire(data, length) == data[..length] <==> Repeats(data, length) && NulsLast(data, length)
  {
    var wire := Wire(data, length);
    if Repeats(data, length) && NulsLast(data, length) {
      forall i | 0 <= i < length
        ensures wire[i] == data[i]
      {
        WireAt(data, length, i);
        FirstChunkRight(data, length, i % DEFAULT_BUFFER_SIZE);
        RepeatsBack(data, length, i);
      }
    }
    if wire == data[..length] {
      forall i | 0 <= i < length
        ensures wire[i] == data[i]
      {
        assert data[..length][i] == data[i];
      }
      InputRepeats(data, length);
      InputNulsLast(data, length);
    }
  }

  lemma {:induction false} InputRepeats(data: seq<char>, length: nat)
    requires length <= |data| && forall i :: 0 <= i < length ==> Wire(data, length)[i] == data[i]
    ensures Repeats(data, length)
  {
    forall i | DEFAULT_BUFFER_SIZE <= i < length
      ensures data[i] == data[i - DEFAULT_BUFFER_SIZE]
    {
      WireAt(data, length, i);
      WireAt(data, length, i - DEFAULT_BUFFER_SIZE);
      assert (i - DEFAULT_BUFFER_SIZE) % DEFAULT_BUFFER_SIZE == i % DEFAULT_BUFFER_SIZE;
    }
  }

  lemma {:induction false} InputNulsLast(data: seq<char>, length: nat)
    requires length <= |data| && forall i :: 0 <= i < length ==> Wire(data, length)[i] == data[i]
    ensures NulsLast(data, length)
  {
    forall i, j | 0 <= i < j < Min(length, DEFAULT_BUFFER_SIZE) && data[i] == NUL
      ensures data[j] == NUL
    {
      WireAt(data, length, j);
      assert j % DEFAULT_BUFFER_SIZE == j;
    }
  }

  // ---------- accounting ----------

  predicate IsChunk(p: Posted, r: Node, len: nat) { p.key == r && p.op == Operation.Write && p.len == len }

  /** Write operations of these lengths were posted on socket `r`, and nothing else. */
  ghost predicate Accounted(w: World, w': World, r: Node, lens: seq<nat>) {
    && |w'.posted| == |w.posted| + |lens| && w'.posted[..|w.posted|] == w.posted
    && (forall j :: |w.posted| <= j < |w'.posted| ==> IsChunk(w'.posted[j], r, lens[j - |w.posted|]))
    && w'.At(r).outstandingSend == w.At(r).outstandingSend + |lens|
    && w'.At(r).pendingByteSent == w.At(r).pendingByteSent + Sum(lens)
    && w'.At(r).outstandingRecv == w.At(r).outstandingRecv
  }

  lemma {:induction false} AccountOne(w: World, w1: World, w': World, r: Node, n: nat, lens: seq<nat>)
    requires Accounted(w, w1, r, [n]) && Accounted(w1, w', r, lens)
    ensures Accounted(w, w', r, [n] + lens)
  {
    assert w'.posted[..|w.posted|] == w'.posted[..|w1.posted|][..|w.posted|];
    var all := [n] + lens;
    assert Sum(all) == n + Sum(lens) by { assert all[1..] == lens; }
    assert Sum([n]) == n by { assert [n][1..] == []; }
    forall j | |w.posted| <= j < |w'.posted|
      ensures IsChunk(w'.posted[j], r, all[j - |w.posted|])
    {
      if j == |w.posted| {
        assert w'.posted[..|w1.posted|][j] == w1.posted[j];
      }
    }
  }

  lemma {:induction false} ChunkPosted(w: World, r: Node, length: nat)
    requires r in w.sockets.mem && w.buffers.Valid()
    ensures var b := w.buffers.Slot();
            var w' := w.PrepareChunk(length).PostSend(r, b, true);
            && Accounted(w, w', r, [ChunkLen(length)]) && w'.At(r).state == w.At(r).state
            && r in w'.sockets.mem && w'.buffers.Valid()
  {
    CreateKeeps(w.buffers, NewBuffer(Operation.Write), AssignBuffer);
    assert [ChunkLen(length)][1..] == [];
  }

  lemma {:induction false} ChunkRefused(w: World, r: Node, length: nat)
    requires r in w.sockets.mem && w.buffers.Valid()
    ensures var w' := w.PrepareChunk(length).RefuseChunk(r, w.buffers.Slot());
            Accounted(w, w', r, []) && w'.At(r).state == FAILURE && w'.buffers.live == w.buffers.live
  {
    var b, w1 := w.buffers.Slot(), w.PrepareChunk(length);
    Prepared(w, length);
    Refused(w1, r, b);
    hide World.PrepareChunk, World.RefuseChunk, Recycler.Erase;
    CutLast(w1.buffers, w.buffers.live, b);
  }

  lemma {:induction false} Prepared(w: World, length: nat)
    requires w.buffers.Valid()
    ensures var w', b := w.PrepareChunk(length), w.buffers.Slot();
            && w'.buffers.Valid() && w'.buffers.live == w.buffers.live + [b]
            && w' == w.(buffers := w'.buffers, faults := w'.faults, log := w'.log)
  {
    CreateKeeps(w.buffers, NewBuffer(Operation.Write), AssignBuffer);
  }

  lemma {:induction false} Refused(w: World, r: Node, b: Node)
    requires r in w.sockets.mem && b in w.buffers.live
    ensures var w' := w.RefuseChunk(r, b);
            && w'.posted == w.posted && w'.At(r) == w.At(r).(state := FAILURE) && w'.buffers == w.buffers.Erase(b)
  {
  }

  lemma {:induction false} CutLast(l: Recycler<Buffer>, live: seq<Node>, b: Node)
    requires l.Valid() && l.live == live + [b]
    ensures l.Erase(b).live == live
  {
    EraseKeeps(l, b);
    WithoutIsCut(l.live, |live|);
    assert l.live[..|live|] + l.live[|live| + 1..] == live;
  }

  /** A send whose chunk number `failAt` is refused leaves exactly the chunks before it accounted
      and the socket failed; one that is not refused leaves all its bytes accounted. */
  lemma {:induction false} SendAccounts(w: World, r: Node, length: nat, failAt: nat)
    requires r in w.sockets.mem && w.buffers.Valid()
    ensures var lens := ChunkLens(length);
            var w' := w.SendChunks(r, length, failAt);
            && Accounted(w, w', r, lens[..Min(failAt, |lens|)])
            && w'.At(r).state == if failAt < |lens| then FAILURE else w.At(r).state
    decreases length
  {
    hide World.PrepareChunk, World.PostSend, World.RefuseChunk, Accounted;
    var lens := ChunkLens(length);
    if length == 0 {
      AccountNone(w, r);
    } else if failAt == 0 {
      ChunkRefused(w, r, length);
    } else {
      var n := ChunkLen(length);
      var w1 := w.PrepareChunk(length).PostSend(r, w.buffers.Slot(), true);
      ChunkPosted(w, r, length);
      SendAccounts(w1, r, length - n, failAt - 1);
      var rest := ChunkLens(length - n);
      AccountOne(w, w1, w.SendChunks(r, length, failAt), r, n, rest[..Min(failAt - 1, |rest|)]);
      assert [n] + rest[..Min(failAt - 1, |rest|)] == lens[..Min(failAt, |lens|)];
    }
  }

  lemma {:induction false} AccountNone(w: World, r: Node)
    ensures Accounted(w, w, r, [])
  {
  }

  /** What a send adds to the socket's budget: all its bytes, or the chunks before the refused one. */
  lemma {:induction false} SendPending(w: World, r: Node, length: nat, failAt: nat)
    requires r in w.sockets.mem && w.buffers.Valid()
    ensures w.SendChunks(r, length, failAt).At(r).pendingByteSent
         == w.At(r).pendingByteSent + Min(length, failAt * DEFAULT_BUFFER_SIZE)
  {
    var lens := ChunkLens(length);
    SendAccounts(w, r, length, failAt);
    ChunkLensCover(length, Min(failAt, |lens|));
  }

  // ---------- sending to all ----------

  /** How many of the sockets admit a send of `length` bytes. */
  function Admitting(w: World, nodes: seq<Node>, length: nat): nat {
    if nodes == [] then 0
    else (if w.Admits(nodes[0], length) then 1 else 0) + Admitting(w, nodes[1..], length)
  }

  lemma {:induction false} SendDataLocal(w: World, r: Node, length: nat, failAt: nat)
    ensures forall q :: q != r ==> w.SendData(r, length, failAt).At(q) == w.At(q)
    ensures w.SendData(r, length, failAt).sockets.live == w.sockets.live
    ensures !w.Admits(r, length) ==> w.SendData(r, length, failAt) == w
  {
    SendChunksLocal(w, r, length, failAt);
  }

  lemma {:induction false} SendChunksLocal(w: World, r: Node, length: nat, failAt: nat)
    ensures forall q :: q != r ==> w.SendChunks(r, length, failAt).At(q) == w.At(q)
    ensures w.SendChunks(r, length, failAt).sockets.live == w.sockets.live
    decreases length
  {
    hide World.PrepareChunk, World.PostSend, World.RefuseChunk;
    if length > 0 {
      var b := w.buffers.Slot();
      OneChunkLocal(w, r, b, length, failAt > 0);
      if failAt > 0 {
        SendChunksLocal(w.PrepareChunk(length).PostSend(r, b, true), r, length - ChunkLen(length), failAt - 1);
      }
    }
  }

  lemma {:induction false} OneChunkLocal(w: World, r: Node, b: Node, length: nat, ok: bool)
    ensures var w' := w.PrepareChunk(length);
            var w'' := if ok then w'.PostSend(r, b, true) else w'.RefuseChunk(r, b);
            (forall q :: q != r ==> w''.At(q) == w.At(q)) && w''.sockets.live == w.sockets.live
  {
  }

  lemma {:induction false} AdmittingSame(w: World, w': World, nodes: seq<Node>, length: nat)
    requires forall q :: q in nodes ==> w'.At(q) == w.At(q)
    ensures Admitting(w', nodes, length) == Admitting(w, nodes, length)
  {
    if nodes != [] {
      assert nodes[0] in nodes;
      AdmittingSame(w, w', nodes[1..], length);
    }
  }

  /** Sending to one of the listed sockets does not change which of the others admit. */
  lemma {:induction false} SendOneOfAll(w: World, nodes: seq<Node>, length: nat, failAt: nat)
    requires nodes != [] && NoDup(nodes)
    ensures var w1 := w.SendData(nodes[0], length, failAt);
            Admitting(w, nodes, length)
            == (if w.Admits(nodes[0], length) then 1 else 0) + Admitting(w1, nodes[1..], length)
  {
    SendDataLocal(w, nodes[0], length, failAt);
    AdmittingSame(w, w.SendData(nodes[0], length, failAt), nodes[1..], length);
  }

  /** Sending to all leaves every socket as it was that is not listed, not connected or without room. */
  lemma {:induction false} SendToAllSpares(w: World, nodes: seq<Node>, length: nat, failAts: map<Node, nat>, q: Node)
    requires NoDup(nodes) && (q !in nodes || !w.Admits(q, length))
    ensures w.SendDataToAll(nodes, length, failAts).At(q) == w.At(q)
    decreases |nodes|
  {
    if nodes != [] {
      var failAt := if nodes[0] in failAts then failAts[nodes[0]] else length;
      SendDataLocal(w, nodes[0], length, failAt);
      SendToAllSpares(w.SendData(nodes[0], length, failAt), nodes[1..], length, failAts, q);
    }
  }
}
