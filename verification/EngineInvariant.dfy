/** What every step of the engine keeps. */
module EngineInvariant {
  import opened SocketTypes
  import opened RecyclableList
  import opened TimeWait
  import opened Engine

  // ---------- the operations in flight on one socket ----------

  datatype Tally = Tally(recvs: nat, sends: nat, bytes: nat, connects: nat, disconnects: nat, accepts: nat) {
    function Plus(t: Tally): Tally {
      Tally(recvs + t.recvs, sends + t.sends, bytes + t.bytes,
            connects + t.connects, disconnects + t.disconnects, accepts + t.accepts)
    }
  }

  const NOTHING := Tally(0, 0, 0, 0, 0, 0)

  function Single(p: Posted): Tally {
    match p.op
    case Read => Tally(1, 0, 0, 0, 0, 0)
    case Write => Tally(0, 1, p.len, 0, 0, 0)
    case Connect => Tally(0, 0, 0, 1, 0, 0)
    case Disconnect => Tally(0, 0, 0, 0, 1, 0)
    case Accept => Tally(0, 0, 0, 0, 0, 1)
  }

  function Of(p: Posted, r: Node): Tally { if p.key == r then Single(p) else NOTHING }

  /** How many operations of each kind, and how many sent bytes, are posted under key `r`. */
  function TallyOf(ps: seq<Posted>, r: Node): Tally
  {
    if ps == [] then NOTHING else TallyOf(ps[..|ps| - 1], r).Plus(Of(ps[|ps| - 1], r))
  }

  lemma {:induction false} TallyOther(ps: seq<Posted>, r: Node)
    requires ps != [] && ps[|ps| - 1].key != r
    ensures TallyOf(ps, r) == TallyOf(ps[..|ps| - 1], r)
  {
    var t := TallyOf(ps[..|ps| - 1], r);
    assert t.Plus(NOTHING) == t;
  }

  lemma {:induction false} TallyAppend(ps: seq<Posted>, p: Posted, r: Node)
    ensures TallyOf(ps + [p], r) == TallyOf(ps, r).Plus(Of(p, r))
  {
    assert (ps + [p])[..|ps|] == ps;
  }

  lemma {:induction false} TallyRemove(ps: seq<Posted>, i: nat, r: Node)
    requires i < |ps|
    ensures TallyOf(ps, r) == TallyOf(ps[..i] + ps[i + 1..], r).Plus(Of(ps[i], r))
    decreases |ps|
  {
    hide Of;
    var front, last := ps[..|ps| - 1], ps[|ps| - 1];
    if i == |ps| - 1 {
      assert ps[..i] + ps[i + 1..] == front;
    } else {
      var rest := front[..i] + front[i + 1..];
      TallyRemove(front, i, r);
      assert ps[..i] + ps[i + 1..] == rest + [last];
      TallyAppend(rest, last, r);
      assert TallyOf(ps, r) == TallyOf(front, r).Plus(Of(last, r));
      assert front[i] == ps[i];
      PlusSwap(TallyOf(rest, r), Of(ps[i], r), Of(last, r));
      hide TallyOf, Tally.Plus;
    }
  }

  lemma {:induction false} PlusSwap(a: Tally, b: Tally, c: Tally)
    ensures a.Plus(b).Plus(c) == a.Plus(c).Plus(b)
  {
  }

  /** An operation in flight is counted. */
  lemma {:induction false} TallyCounts(ps: seq<Posted>, i: nat)
    requires i < |ps|
    ensures var t := TallyOf(ps, ps[i].key);
            match ps[i].op
            case Read => t.recvs >= 1
            case Write => t.sends >= 1 && t.bytes >= ps[i].len
            case Connect => t.connects >= 1
            case Disconnect => t.disconnects >= 1
            case Accept => t.accepts >= 1
  {
    TallyRemove(ps, i, ps[i].key);
  }

  lemma {:induction false} TallyNone(ps: seq<Posted>, r: Node)
    requires forall i :: 0 <= i < |ps| ==> ps[i].key != r
    ensures TallyOf(ps, r) == NOTHING
  {
    if ps != [] {
      var front, last := ps[..|ps| - 1], ps[|ps| - 1];
      TallyNone(front, r);
      TallyOther(ps, r);
    }
  }

  /** Where no send is in flight no byte is. */
  lemma {:induction false} NoSendsNoBytes(ps: seq<Posted>, r: Node)
    ensures TallyOf(ps, r).sends == 0 ==> TallyOf(ps, r).bytes == 0
  {
    if ps != [] {
      NoSendsNoBytes(ps[..|ps| - 1], r);
    }
  }

  // ---------- the invariant ----------

  ghost predicate Draining(st: SocketState) { st == CLOSING || st == FAILURE }

  /** Which operations may be in flight in each state. */
  ghost predicate OpsFit(st: SocketState, t: Tally, queued: bool) {
    match st
    case CONNECTED => t.recvs == 1 && t.connects == 0 && t.disconnects == 0 && t.accepts == 0 && !queued
    case CLOSING => t.recvs <= 1 && t.recvs + t.sends >= 1 && t.connects == 0 && t.disconnects == 0 && t.accepts == 0 &&
      !queued
    case FAILURE => t.recvs <= 1 && t.recvs + t.sends >= 1 && t.connects == 0 && t.disconnects == 0 && t.accepts == 0 &&
      !queued
    case DISCONNECTING => t == NOTHING.(disconnects := 1) && !queued
    case DISCONNECTED => if queued then t == NOTHING else t == NOTHING.(connects := 1)
    case BOUND => t == NOTHING.(connects := 1) && !queued
    case LISTENING => t.accepts <= 1 && t == NOTHING.(accepts := t.accepts) && !queued
    case ACCEPTING => t == NOTHING && !queued
    case CONNECT_FAILURE => t == NOTHING && !queued
    case ASSOCIATED => t == NOTHING && !queued
    case _ => false
  }

  ghost predicate Counts(s: Socket, t: Tally) {
    s.outstandingRecv == t.recvs && s.outstandingSend == t.sends && s.pendingByteSent == t.bytes
  }

  /** What concerns one socket: its counters, the operations in flight on it, its entry
      in the map, and, for a listening socket, the socket an outstanding accept will fill. */
  ghost predicate SockFits(l: Recycler<Socket>, posted: seq<Posted>, queue: seq<Node>, ids: map<Uuid, Node>,
                           mgr: ManagerState, current: Option<Node>, forgets: bool, r: Node)
  {
    var s, t := SocketAt(l, r), TallyOf(posted, r);
    && Counts(s, t)
    && OpsFit(s.state, t, r in queue)
    && (forgets || (s.id != NIL_UUID && s.state != CONNECT_FAILURE ==> s.id in ids && ids[s.id] == r))
    && (s.state == LISTENING ==> mgr == SERVER_LISTENING)
    && (t.accepts > 0 ==> TargetFits(l, current))
  }

  ghost predicate TargetFits(l: Recycler<Socket>, current: Option<Node>) {
    && current.Some?
    && current.value in l.live
    && SocketAt(l, current.value).state == ACCEPTING
  }

  ghost predicate AllFit(l: Recycler<Socket>, posted: seq<Posted>, queue: seq<Node>, ids: map<Uuid, Node>,
                         mgr: ManagerState, current: Option<Node>, forgets: bool, f: set<Node>)
  {
    forall r :: r in l.live && r !in f ==> SockFits(l, posted, queue, ids, mgr, current, forgets, r)
  }

  ghost predicate BuffersOk(l: Recycler<Buffer>, posted: seq<Posted>) {
    && l.Valid()
    && (forall b :: b in l.mem ==> 1 <= l.mem[b].bufLen <= DEFAULT_BUFFER_SIZE)
    && (forall p :: p in posted ==> p.buf in l.live && l.mem[p.buf] == Buffer(p.op, p.len))
  }

  /** No buffer is posted twice, and at most one accept is outstanding. */
  ghost predicate PostedOk(posted: seq<Posted>) {
    forall i, j :: 0 <= i < j < |posted| ==>
      && posted[i].buf != posted[j].buf
      && (posted[i].op == Operation.Accept ==> posted[j].op != Operation.Accept)
  }

  ghost predicate QueueOk(queue: seq<Node>, since: seq<nat>, clock: nat, l: Recycler<Socket>) {
    && NoDup(queue)
    && (forall r :: r in queue ==> r in l.live)
    && |since| == |queue|
    && (forall i :: 0 <= i < |queue| ==> SocketAt(l, queue[i]).timeWaitStartTime == Tick(since[i]))
    && (forall i, j :: 0 <= i <= j < |since| ==> since[i] <= since[j])
    && (forall i :: 0 <= i < |since| ==> since[i] <= clock)
  }

  ghost predicate SocketsOk(l: Recycler<Socket>, posted: seq<Posted>, nextId: Uuid) {
    && l.Valid()
    && (forall r :: r in l.mem ==> l.mem[r].maxPendingByteSent == DEFAULT_MAX_PENDING_BYTE_SENT)
    && (forall r :: r in l.mem ==> l.mem[r].pendingByteSent <= DEFAULT_MAX_PENDING_BYTE_SENT)
    && (forall r :: r in l.mem ==> NIL_UUID <= l.mem[r].id < nextId)
    && (forall r :: r in l.pool ==> l.mem[r].state != CONNECTED)
    && (forall p :: p in posted ==> p.key in l.live)
  }

  ghost predicate IdsOk(ids: map<Uuid, Node>, nextId: Uuid) {
    && NIL_UUID < nextId
    && (forall id :: id in ids ==> NIL_UUID < id < nextId)
  }

  ghost predicate ManagerOk(w: World) {
    && (w.mgr == SERVER_LISTENING ==> w.kind == SERVER)
    && w.faults == 0
    && MIN_TIME_WAIT_VALUE <= w.timeWait <= MAX_TIME_WAIT_VALUE
  }

  ghost predicate Core(w: World) {
    && SocketsOk(w.sockets, w.posted, w.nextId)
    && BuffersOk(w.buffers, w.posted)
    && PostedOk(w.posted)
    && QueueOk(w.queue, w.since, w.clock, w.sockets)
    && IdsOk(w.ids, w.nextId)
    && ManagerOk(w)
  }

  ghost predicate SockOk(w: World, r: Node) {
    SockFits(w.sockets, w.posted, w.queue, w.ids, w.mgr, w.current, w.forgets, r)
  }

  ghost predicate AcceptTarget(w: World) { TargetFits(w.sockets, w.current) }

  /** The invariant for every socket outside `f`. */
  ghost predicate InvExcept(w: World, f: set<Node>) {
    Core(w) && AllFit(w.sockets, w.posted, w.queue, w.ids, w.mgr, w.current, w.forgets, f)
  }

  ghost predicate Inv(w: World) { InvExcept(w, {}) }

  ghost predicate NoAccept(w: World) {
    forall p :: p in w.posted ==> p.op != Operation.Accept
  }

  ghost predicate Unposted(w: World, b: Node) {
    forall p :: p in w.posted ==> p.buf != b
  }

  // ---------- single updates ----------

  lemma {:induction false} LogKeeps(w: World, w': World, f: set<Node>)
    requires InvExcept(w, f) && w' == w.(log := w'.log)
    ensures InvExcept(w', f)
  {
  }

  /** What the invariant says of any live socket. */
  lemma {:induction false} Facts(w: World, r: Node, f: set<Node>)
    requires InvExcept(w, f) && r in w.sockets.live
    ensures w.At(r).maxPendingByteSent == DEFAULT_MAX_PENDING_BYTE_SENT && NIL_UUID <= w.At(r).id < w.nextId
    ensures w.At(r).pendingByteSent <= DEFAULT_MAX_PENDING_BYTE_SENT
    ensures r in w.sockets.mem
  {
  }

  lemma {:induction false} CreateBufferKeeps(w: World, op: Operation, f: set<Node>)
    requires InvExcept(w, f)
    ensures var w', b := w.CreateBuffer(op), w.buffers.Slot();
            && InvExcept(w', f)
            && b !in w.buffers.live && b in w'.buffers.live && Unposted(w', b)
            && w'.BufAt(b).operation == op
            && (forall c :: c in w.buffers.live ==> c in w'.buffers.live && w'.BufAt(c) == w.BufAt(c))
            && w' == w.(buffers := w'.buffers, log := w'.log)
  {
    CreateKeeps(w.buffers, NewBuffer(op), AssignBuffer);
    if w.buffers.pool != [] {
      assert w.buffers.pool[0] in w.buffers.pool;
    }
  }

  lemma {:induction false} DeleteBufferKeeps(w: World, b: Node, f: set<Node>)
    requires InvExcept(w, f) && b in w.buffers.live && Unposted(w, b)
    ensures var w' := w.DeleteBuffer(b);
            && InvExcept(w', f) && w' == w.(buffers := w'.buffers, log := w'.log)
            && (forall c :: c in w.buffers.live && c != b ==> c in w'.buffers.live && w'.BufAt(c) == w.BufAt(c))
  {
    EraseKeeps(w.buffers, b);
  }

  lemma {:induction false} PutBufKeeps(w: World, b: Node, buf: Buffer, f: set<Node>)
    requires InvExcept(w, f) && b in w.buffers.live && Unposted(w, b)
    requires 1 <= buf.bufLen <= DEFAULT_BUFFER_SIZE
    ensures var w' := w.PutBuf(b, buf);
            && InvExcept(w', f) && w' == w.(buffers := w'.buffers)
            && w'.buffers.live == w.buffers.live && w'.BufAt(b) == buf
  {
  }

  lemma {:induction false} PutKeeps(w: World, r: Node, s: Socket, f: set<Node>)
    requires InvExcept(w, f) && r in w.sockets.live && r in f
    requires s.maxPendingByteSent == DEFAULT_MAX_PENDING_BYTE_SENT && NIL_UUID <= s.id < w.nextId
    requires s.pendingByteSent <= DEFAULT_MAX_PENDING_BYTE_SENT
    requires r in w.queue ==> s.timeWaitStartTime == w.At(r).timeWaitStartTime
    requires w.At(r).state == ACCEPTING ==> s.state == ACCEPTING || NoAccept(w) || w.current != Some(r)
    ensures var w' := w.Put(r, s);
            && InvExcept(w', f) && w' == w.(sockets := w'.sockets)
            && w'.sockets.live == w.sockets.live
            && w'.At(r) == s && (forall q :: q != r ==> w'.At(q) == w.At(q))
  {
    hide TallyOf, BuffersOk, PostedOk, IdsOk, OpsFit;
    var w' := w.Put(r, s);
    assert forall q :: q != r ==> w'.At(q) == w.At(q);
    forall q | q in w'.sockets.live && q !in f
      ensures SockOk(w', q)
    {
      assert SockOk(w, q);
      if TallyOf(w.posted, q).accepts > 0 && w.current == Some(r) && NoAccept(w) {
        NoAcceptTally(w.posted, q);
      }
    }
  }

  lemma {:induction false} NoAcceptTally(ps: seq<Posted>, r: Node)
    requires forall p :: p in ps ==> p.op != Operation.Accept
    ensures TallyOf(ps, r).accepts == 0
  {
    if ps != [] {
      assert ps[|ps| - 1] in ps;
      NoAcceptTally(ps[..|ps| - 1], r);
    }
  }

  lemma {:induction false} AppendPosted(ps: seq<Posted>, p: Posted)
    requires PostedOk(ps)
    requires forall q :: q in ps ==> q.buf != p.buf && (p.op == Operation.Accept ==> q.op != Operation.Accept)
    ensures PostedOk(ps + [p])
    ensures forall q :: q in ps + [p] <==> q in ps || q == p
  {
    forall i | 0 <= i < |ps|
      ensures ps[i] in ps
    {
    }
  }

  lemma {:induction false} TallyPosted(ps: seq<Posted>, p: Posted)
    ensures TallyOf(ps + [p], p.key) == TallyOf(ps, p.key).Plus(Single(p))
    ensures forall q :: q != p.key ==> TallyOf(ps + [p], q) == TallyOf(ps, q)
  {
    TallyAppend(ps, p, p.key);
    assert (ps + [p])[..|ps|] == ps;
    forall q | q != p.key
      ensures TallyOf(ps + [p], q) == TallyOf(ps, q)
    {
      TallyOther(ps + [p], q);
    }
  }

  lemma {:induction false} PostKeeps(w: World, b: Node, r: Node, op: Operation, f: set<Node>)
    requires InvExcept(w, f) && r in w.sockets.live && r in f
    requires b in w.buffers.live && Unposted(w, b) && w.BufAt(b).operation == op
    requires op == Operation.Accept ==> NoAccept(w)
    ensures var w' := w.Post(b, r, op);
            && InvExcept(w', f) && w' == w.(posted := w'.posted)
            && TallyOf(w'.posted, r) == TallyOf(w.posted, r).Plus(Single(Posted(b, r, op, w.BufAt(b).bufLen)))
            && (forall q :: q != r ==> TallyOf(w'.posted, q) == TallyOf(w.posted, q))
  {
    var p := Posted(b, r, op, w.BufAt(b).bufLen);
    var w' := w.Post(b, r, op);
    AppendPosted(w.posted, p);
    TallyPosted(w.posted, p);
    assert SocketsOk(w'.sockets, w'.posted, w'.nextId);
    assert BuffersOk(w'.buffers, w'.posted);
    assert AllFit(w'.sockets, w'.posted, w'.queue, w'.ids, w'.mgr, w'.current, w'.forgets, f) by {
      assert forall q :: q in w.sockets.live && q !in f ==> SockOk(w, q) && q != r;
    }
  }

  lemma {:induction false} RemovePosted(ps: seq<Posted>, i: nat)
    requires PostedOk(ps) && i < |ps|
    ensures var qs := ps[..i] + ps[i + 1..];
            && PostedOk(qs)
            && (forall q :: q in qs ==>
                  q in ps && q.buf != ps[i].buf && (ps[i].op == Operation.Accept ==> q.op != Operation.Accept))
            && TallyOf(ps, ps[i].key) == TallyOf(qs, ps[i].key).Plus(Single(ps[i]))
            && (forall q :: q != ps[i].key ==> TallyOf(qs, q) == TallyOf(ps, q))
  {
    var qs := ps[..i] + ps[i + 1..];
    forall j | 0 <= j < |qs|
      ensures qs[j] == ps[if j < i then j else j + 1]
    {
    }
    TallyRemove(ps, i, ps[i].key);
    forall q | q != ps[i].key
      ensures TallyOf(qs, q) == TallyOf(ps, q)
    {
      TallyRemove(ps, i, q);
    }
  }

  lemma {:induction false} DequeueKeeps(w: World, i: nat)
    requires Inv(w) && i < |w.posted|
    ensures var w', p := w.Dequeue(i), w.posted[i];
            && InvExcept(w', {p.key}) && w' == w.(posted := w'.posted)
            && p.key in w'.sockets.live && p.buf in w'.buffers.live && Unposted(w', p.buf)
            && w'.BufAt(p.buf) == Buffer(p.op, p.len)
            && SockOk(w, p.key)
            && TallyOf(w.posted, p.key) == TallyOf(w'.posted, p.key).Plus(Single(p))
            && (forall q :: q != p.key ==> TallyOf(w'.posted, q) == TallyOf(w.posted, q))
            && (p.op == Operation.Accept ==> NoAccept(w') && AcceptTarget(w))
  {
    hide TallyOf;
    var w', p := w.Dequeue(i), w.posted[i];
    assert p in w.posted;
    RemovePosted(w.posted, i);
    assert SocketsOk(w'.sockets, w'.posted, w'.nextId);
    assert BuffersOk(w'.buffers, w'.posted);
    assert SockOk(w, p.key);
    TallyCounts(w.posted, i);
  }

  /** A socket with no operation in flight is the key of none. */
  lemma {:induction false} NotAKey(ps: seq<Posted>, r: Node)
    requires TallyOf(ps, r) == NOTHING
    ensures forall p :: p in ps ==> p.key != r
  {
    forall i | 0 <= i < |ps|
      ensures ps[i].key != r
    {
      TallyCounts(ps, i);
    }
  }

  lemma {:induction false} EraseSocketKeeps(w: World, r: Node, f: set<Node>)
    requires InvExcept(w, f) && r in w.sockets.live && r in f
    requires TallyOf(w.posted, r) == NOTHING && r !in w.queue && w.At(r).state != CONNECTED
    requires w.At(r).state == ACCEPTING ==> NoAccept(w)
    ensures var w' := w.EraseSocket(r);
            && InvExcept(w', f - {r}) && w' == w.(sockets := w'.sockets, log := w'.log)
            && (forall q :: q in w'.sockets.live <==> q in w.sockets.live && q != r)
            && (forall q :: q in w'.sockets.live ==> w'.At(q) == w.At(q))
  {
    var l, l' := w.sockets, w.EraseSocket(r).sockets;
    NotAKey(w.posted, r);
    hide TallyOf, BuffersOk, PostedOk, IdsOk, QueueOk, AllFit;
    SocketsShrink(l, w.posted, w.nextId, r);
    QueueShrinks(w.queue, w.since, w.clock, l, l', r);
    FitsShrink(w, l', r, f);
  }

  lemma {:induction false} SocketsShrink(l: Recycler<Socket>, posted: seq<Posted>, nextId: Uuid, r: Node)
    requires SocketsOk(l, posted, nextId) && r in l.live && SocketAt(l, r).state != CONNECTED
    requires forall p :: p in posted ==> p.key != r
    ensures var l' := l.Erase(r);
            && SocketsOk(l', posted, nextId)
            && (forall q :: q in l'.live <==> q in l.live && q != r)
            && (forall q :: q in l'.live ==> SocketAt(l', q) == SocketAt(l, q))
  {
    EraseKeeps(l, r);
  }

  lemma {:induction false} QueueShrinks(queue: seq<Node>, since: seq<nat>, clock: nat, l: Recycler<Socket>,
      l': Recycler<Socket>, r: Node)
    requires QueueOk(queue, since, clock, l) && r !in queue
    requires forall q :: q in l.live && q != r ==> q in l'.live && SocketAt(l', q) == SocketAt(l, q)
    ensures QueueOk(queue, since, clock, l')
  {
    assert forall i :: 0 <= i < |queue| ==> queue[i] in queue;
  }

  lemma {:induction false} FitsShrink(w: World, l': Recycler<Socket>, r: Node, f: set<Node>)
    requires AllFit(w.sockets, w.posted, w.queue, w.ids, w.mgr, w.current, w.forgets, f) && r in f
    requires forall q :: q in l'.live <==> q in w.sockets.live && q != r
    requires forall q :: q in l'.live ==> SocketAt(l', q) == SocketAt(w.sockets, q)
    requires w.At(r).state == ACCEPTING ==> NoAccept(w)
    ensures AllFit(l', w.posted, w.queue, w.ids, w.mgr, w.current, w.forgets, f - {r})
  {
    hide TallyOf, OpsFit;
    forall q | q in l'.live && q !in f - {r}
      ensures SockFits(l', w.posted, w.queue, w.ids, w.mgr, w.current, w.forgets, q)
    {
      assert SockOk(w, q);
      if w.At(r).state == ACCEPTING {
        NoAcceptTally(w.posted, q);
      }
    }
  }

  lemma {:induction false} CreateSocketKeeps(w: World, f: set<Node>)
    requires InvExcept(w, f)
    ensures var w', r := w.CreateSocket(), w.sockets.Slot();
            && InvExcept(w', f + {r}) && w' == w.(sockets := w'.sockets, log := w'.log)
            && r !in w.sockets.live
            && (forall q :: q in w'.sockets.live <==> q in w.sockets.live || q == r)
            && (forall q :: q in w.sockets.live ==> w'.At(q) == w.At(q))
            && w'.At(r) == NEW_SOCKET
            && TallyOf(w'.posted, r) == NOTHING && r !in w'.queue
  {
    var w', l, l', r := w.CreateSocket(), w.sockets, w.CreateSocket().sockets, w.sockets.Slot();
    hide TallyOf, BuffersOk, PostedOk, QueueOk, AllFit;
    SocketsGrow(l, w.posted, w.nextId);
    QueueSame(w.queue, w.since, w.clock, l, l');
    assert AllFit(l', w.posted, w.queue, w.ids, w.mgr, w.current, w.forgets, f + {r}) by {
      FitsGrow(w, l', r, f);
    }
    hide SocketsOk;
    TallyNone(w.posted, r);
  }

  lemma {:induction false} SocketsGrow(l: Recycler<Socket>, posted: seq<Posted>, nextId: Uuid)
    requires SocketsOk(l, posted, nextId) && NIL_UUID < nextId
    ensures var l', r := l.Create(NEW_SOCKET, AssignSocket), l.Slot();
            && SocketsOk(l', posted, nextId) && r !in l.live
            && (forall q :: q in l'.live <==> q in l.live || q == r)
            && (forall q :: q in l.live ==> SocketAt(l', q) == SocketAt(l, q))
            && SocketAt(l', r) == NEW_SOCKET
            && (forall i :: 0 <= i < |posted| ==> posted[i].key != r)
  {
    CreateKeeps(l, NEW_SOCKET, AssignSocket);
    if l.pool != [] {
      assert l.pool[0] in l.pool;
    }
    assert forall i :: 0 <= i < |posted| ==> posted[i] in posted;
  }

  lemma {:induction false} QueueSame(queue: seq<Node>, since: seq<nat>, clock: nat, l: Recycler<Socket>,
      l': Recycler<Socket>)
    requires QueueOk(queue, since, clock, l) && forall q :: q in l.live ==>
        q in l'.live && SocketAt(l', q) == SocketAt(l, q)
    ensures QueueOk(queue, since, clock, l') && forall q :: q in queue ==> q in l.live
  {
    assert forall i :: 0 <= i < |queue| ==> queue[i] in queue;
  }

  lemma {:induction false} FitsGrow(w: World, l': Recycler<Socket>, r: Node, f: set<Node>)
    requires AllFit(w.sockets, w.posted, w.queue, w.ids, w.mgr, w.current, w.forgets, f)
    requires forall q :: q in l'.live ==> q in w.sockets.live || q == r
    requires forall q :: q in w.sockets.live ==> q in l'.live && SocketAt(l', q) == SocketAt(w.sockets, q)
    ensures AllFit(l', w.posted, w.queue, w.ids, w.mgr, w.current, w.forgets, f + {r})
  {
    hide TallyOf, OpsFit;
    forall q | q in l'.live && q !in f + {r}
      ensures SockFits(l', w.posted, w.queue, w.ids, w.mgr, w.current, w.forgets, q)
    {
      assert SockOk(w, q);
    }
  }

  /** The map names `r` under its id; the variant that forgets ids does not promise it. */
  ghost predicate OwnsId(w: World, r: Node) {
    w.forgets || (w.At(r).id != NIL_UUID ==> w.At(r).id in w.ids && w.ids[w.At(r).id] == r)
  }

  lemma {:induction false} EraseIdKeeps(w: World, r: Node, f: set<Node>)
    requires InvExcept(w, f) && r in f && OwnsId(w, r)
    ensures InvExcept(w.(ids := w.ids - {w.At(r).id}), f)
  {
    hide TallyOf, SocketsOk, BuffersOk, PostedOk, QueueOk, OpsFit, TargetFits;
  }

  lemma {:induction false} AddIdKeeps(w: World, r: Node, id: Uuid, f: set<Node>)
    requires InvExcept(w, f) && r in f && r in w.sockets.live
    requires NIL_UUID <= id < w.nextId
    requires w.forgets || (id != NIL_UUID ==> id in w.ids && w.ids[id] in f)
    ensures var w', id' := w.AddSocketToMap(r, id), if id == NIL_UUID then w.nextId else id;
            && InvExcept(w', f)
            && w'.At(r) == w.At(r).(id := id')
            && (forall q :: q != r ==> w'.At(q) == w.At(q))
            && w'.ids == w.ids[id' := r] && w'.sockets.live == w.sockets.live
            && w' == w.(nextId := w'.nextId, sockets := w'.sockets, ids := w'.ids, log := w'.log)
  {
    hide InvExcept;
    var id' := if id == NIL_UUID then w.nextId else id;
    var w1 := w.(nextId := if id == NIL_UUID then w.nextId + 1 else w.nextId);
    NextIdKeeps(w, w1.nextId, f);
    Facts(w1, r, f);
    var w2 := w1.Put(r, w1.At(r).(id := id'));
    PutKeeps(w1, r, w1.At(r).(id := id'), f) by { NilIsLow(w, f); }
    NameKeeps(w2, r, id', f) by { NilIsLow(w, f); }
    LogKeeps(w2.(ids := w2.ids[id' := r]), w.AddSocketToMap(r, id), f);
  }

  lemma {:induction false} NilIsLow(w: World, f: set<Node>)
    requires InvExcept(w, f)
    ensures NIL_UUID < w.nextId && w.nextId !in w.ids
  {
  }

  lemma {:induction false} NextIdKeeps(w: World, next: Uuid, f: set<Node>)
    requires InvExcept(w, f) && w.nextId <= next
    ensures InvExcept(w.(nextId := next), f)
  {
    hide TallyOf, BuffersOk, PostedOk, QueueOk, OpsFit, TargetFits;
  }

  /** Registering a socket set aside, over no entry but that of another set aside. */
  lemma {:induction false} NameKeeps(w: World, r: Node, id: Uuid, f: set<Node>)
    requires InvExcept(w, f) && r in f && NIL_UUID < id < w.nextId
    requires w.forgets || id !in w.ids || w.ids[id] in f
    ensures InvExcept(w.(ids := w.ids[id := r]), f)
  {
    hide TallyOf, SocketsOk, BuffersOk, PostedOk, QueueOk, OpsFit, TargetFits;
  }
}
