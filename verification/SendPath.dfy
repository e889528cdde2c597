/** Threads that send on one socket side by side.  Every critical section and every unlocked read
    is one step: the admission test of `SendData` is made outside the lock, so other threads' steps
    may fall between the test and the posts it admits. */
module SendPath {
  import opened SocketTypes
  import opened EngineInvariant

  /** Where a thread is inside `SendData`: outside, past the test of the state, in the chunking
      loop with `left` bytes to go, or past a refused post. */
  datatype Sender = Outside | Seen(length: nat) | Sending(left: nat) | Refused {
    function Unposted(): nat { if Sending? then left else 0 }
  }

  /** The socket, the threads, and the operations posted on it and not yet accounted for. */
  datatype State = State(sock: Socket, senders: seq<Sender>, inFlight: seq<Posted>)

  /** The socket under consideration. */
  const SOCK: Node := 0

  datatype Move =
    | Begin(t: nat, length: nat)                  // line 20, the state is read
    | Check(t: nat)                               // line 23, the pending bytes are read
    | PostChunk(t: nat, buf: Node, ok: bool)      // lines 30 to 36
    | Finish(t: nat)                              // line 47
    | GiveUp(t: nat)                              // lines 37 to 43
    | PostReceive(buf: Node, len: nat)            // `PostRecv` succeeds
    | Account(i: nat)                             // the counters in `HandleRead`, `HandleWrite`
    | AccountError(i: nat)                        // the same in `HandleError`
    | Change(st: SocketState)                     // any other store to the state

  predicate CanMove(s: State, m: Move) {
    match m
    case Begin(t, _) => t < |s.senders| && s.senders[t] == Outside
    case Check(t) => t < |s.senders| && s.senders[t].Seen?
    case PostChunk(t, _, _) => t < |s.senders| && s.senders[t].Unposted() > 0
    case Finish(t) => t < |s.senders| && s.senders[t] == Sending(0)
    case GiveUp(t) => t < |s.senders| && s.senders[t] == Refused
    case PostReceive(_, _) => true
    case Account(i) => i < |s.inFlight|
    case AccountError(i) => i < |s.inFlight|
    case Change(_) => true
  }

  function At(s: State, t: nat, x: Sender): State
    requires t < |s.senders|
  {
    s.(senders := s.senders[t := x])
  }

  function Done(sock: Socket, p: Posted): Socket {
    match p.op
    case Read => sock.RecvDone()
    case Write => sock.SendDone(p.len)
    case _ => sock
  }

  function After(s: State, m: Move): State
    requires CanMove(s, m)
  {
    match m
    case Begin(t, length) => if s.sock.state == CONNECTED then At(s, t, Seen(length)) else s
    case Check(t) => At(s, t, if s.sock.HasRoom(s.senders[t].length) then Sending(s.senders[t].length) else Outside)
    case PostChunk(t, buf, ok) =>
      var n := ChunkLen(s.senders[t].left);
      if ok then
        At(s, t, Sending(s.senders[t].left - n))
          .(sock := s.sock.SendPosted(n), inFlight := s.inFlight + [Posted(buf, SOCK, Operation.Write, n)])
      else At(s, t, Refused)
    case Finish(t) => At(s, t, Outside)
    case GiveUp(t) => At(s, t, Outside).(sock := s.sock.(state := FAILURE))
    case PostReceive(buf, len) =>
      s.(sock := s.sock.RecvPosted(), inFlight := s.inFlight + [Posted(buf, SOCK, Operation.Read, len)])
    case Account(i) => s.(sock := Done(s.sock, s.inFlight[i]), inFlight := s.inFlight[..i] + s.inFlight[i + 1..])
    case AccountError(i) =>
      s.(sock := Done(s.sock, s.inFlight[i]).(state := FAILURE), inFlight := s.inFlight[..i] + s.inFlight[i + 1..])
    case Change(st) => s.(sock := s.sock.(state := st))
  }

  predicate CanRun(s: State, ms: seq<Move>)
    decreases |ms|
  {
    ms == [] || (CanMove(s, ms[0]) && CanRun(After(s, ms[0]), ms[1..]))
  }

  function RunEnd(s: State, ms: seq<Move>): State
    requires CanRun(s, ms)
    decreases |ms|
  {
    if ms == [] then s else RunEnd(After(s, ms[0]), ms[1..])
  }

  /** A connection at its beginning: nothing in flight, no thread sending. */
  function Quiet(threads: nat): State {
    State(NEW_SOCKET.(state := CONNECTED), seq(threads, _ => Outside), [])
  }

  // ---------- conservation ----------

  /** The counters and the byte budget are what is posted and not yet accounted for. */
  ghost predicate Conserved(s: State) {
    && Counts(s.sock, TallyOf(s.inFlight, SOCK))
    && (forall p :: p in s.inFlight ==> p.key == SOCK)
    && s.sock.maxPendingByteSent == DEFAULT_MAX_PENDING_BYTE_SENT
  }

  lemma {:induction false} AccountConserves(s: State, i: nat)
    requires Conserved(s) && i < |s.inFlight|
    ensures Counts(Done(s.sock, s.inFlight[i]), TallyOf(s.inFlight[..i] + s.inFlight[i + 1..], SOCK))
  {
    hide TallyOf;
    assert s.inFlight[i] in s.inFlight;
    TallyRemove(s.inFlight, i, SOCK);
  }

  lemma {:induction false} MoveConserves(s: State, m: Move)
    requires Conserved(s) && CanMove(s, m)
    ensures Conserved(After(s, m))
  {
    hide TallyOf;
    match m {
      case PostChunk(t, buf, ok) =>
        TallyAppend(s.inFlight, Posted(buf, SOCK, Operation.Write, ChunkLen(s.senders[t].left)), SOCK);
      case PostReceive(buf, len) => TallyAppend(s.inFlight, Posted(buf, SOCK, Operation.Read, len), SOCK);
      case Account(i) => AccountConserves(s, i);
      case AccountError(i) => AccountConserves(s, i);
      case _ =>
    }
  }

  /** In every interleaving the counters equal what is in flight, and none is ever negative;
      once both are zero the budget is zero and no transfer is in flight. */
  lemma {:induction false} RunsConserve(threads: nat, ms: seq<Move>)
    requires CanRun(Quiet(threads), ms)
    ensures var s := RunEnd(Quiet(threads), ms);
            && Conserved(s)
            && s.sock.outstandingRecv >= 0 && s.sock.outstandingSend >= 0 && s.sock.pendingByteSent >= 0
            && (s.sock.Idle() ==> s.sock.pendingByteSent == 0 && NoTransfer(s.inFlight))
  {
    hide TallyOf, RunEnd, CanRun;
    QuietConserves(threads);
    RunConserves(Quiet(threads), ms);
    var s := RunEnd(Quiet(threads), ms);
    if s.sock.Idle() {
      IdleMeansNothing(s);
    }
  }

  ghost predicate NoTransfer(ps: seq<Posted>) {
    forall p :: p in ps ==> p.op != Operation.Read && p.op != Operation.Write
  }

  lemma {:induction false} QuietConserves(threads: nat)
    ensures Conserved(Quiet(threads))
  {
  }

  lemma {:induction false} RunConserves(s: State, ms: seq<Move>)
    requires Conserved(s) && CanRun(s, ms)
    ensures Conserved(RunEnd(s, ms))
    decreases |ms|
  {
    hide Conserved;
    if ms != [] {
      MoveConserves(s, ms[0]);
      RunConserves(After(s, ms[0]), ms[1..]);
    }
  }

  lemma {:induction false} IdleMeansNothing(s: State)
    requires Conserved(s) && s.sock.Idle()
    ensures s.sock.pendingByteSent == 0 && NoTransfer(s.inFlight)
  {
    hide TallyOf;
    NoSendsNoBytes(s.inFlight, SOCK);
    forall p | p in s.inFlight
      ensures p.op != Operation.Read && p.op != Operation.Write
    {
      var i :| 0 <= i < |s.inFlight| && s.inFlight[i] == p;
      TallyCounts(s.inFlight, i);
    }
  }

  // ---------- the limit ----------

  /** The bytes that were admitted and are not posted yet. */
  function Unposted(senders: seq<Sender>): nat {
    if senders == [] then 0 else senders[0].Unposted() + Unposted(senders[1..])
  }

  /** Bytes pending, and bytes that will be. */
  function Load(s: State): int { s.sock.pendingByteSent + Unposted(s.senders) }

  lemma {:induction false} UnpostedUpdate(senders: seq<Sender>, t: nat, x: Sender)
    requires t < |senders|
    ensures Unposted(senders[t := x]) == Unposted(senders) - senders[t].Unposted() + x.Unposted()
  {
    var updated := senders[t := x];
    if t == 0 {
      assert updated[1..] == senders[1..];
    } else {
      UnpostedUpdate(senders[1..], t - 1, x);
      assert updated[1..] == senders[1..][t - 1 := x];
    }
  }

  /** Every thread but one has at most `max` bytes to go. */
  lemma {:induction false} UnpostedBound(senders: seq<Sender>, t: nat, max: nat)
    requires t < |senders| && forall u :: 0 <= u < |senders| ==> senders[u].Unposted() <= max
    ensures Unposted(senders) - senders[t].Unposted() <= (|senders| - 1) * max
  {
    assert (|senders| - 1) * max == (|senders| - 2) * max + max;
    if t > 0 {
      UnpostedBound(senders[1..], t - 1, max);
    } else if |senders| > 1 {
      UnpostedBound(senders[1..], 0, max);
    } else {
      assert senders[1..] == [];
    }
  }

  ghost predicate Limited(s: State) {
    && Conserved(s)
    && (forall u :: 0 <= u < |s.senders| ==> s.senders[u].Unposted() <= DEFAULT_MAX_PENDING_BYTE_SENT)
    && Load(s) <= |s.senders| * DEFAULT_MAX_PENDING_BYTE_SENT
  }

  lemma {:induction false} MoveKeepsLimit(s: State, m: Move)
    requires Limited(s) && CanMove(s, m)
    ensures Limited(After(s, m)) && |After(s, m).senders| == |s.senders|
  {
    hide *;
    LoadAfter(s, m);
    assert Conserved(After(s, m)) by {
      assert Conserved(s) by { LimitedConserves(s); }
      MoveConserves(s, m);
    }
    LimitedAfter(s, After(s, m));
  }

  lemma {:induction false} LimitedConserves(s: State)
    requires Limited(s)
    ensures Conserved(s)
  {
  }

  lemma {:induction false} LimitedAfter(s: State, s': State)
    requires Conserved(s') && |s'.senders| == |s.senders|
    requires forall u :: 0 <= u < |s'.senders| ==> s'.senders[u].Unposted() <= DEFAULT_MAX_PENDING_BYTE_SENT
    requires Load(s') <= |s.senders| * DEFAULT_MAX_PENDING_BYTE_SENT
    ensures Limited(s')
  {
  }

  lemma {:induction false} LoadAfter(s: State, m: Move)
    requires Limited(s) && CanMove(s, m)
    ensures |After(s, m).senders| == |s.senders|
    ensures forall u :: 0 <= u < |s.senders| ==> After(s, m).senders[u].Unposted() <= DEFAULT_MAX_PENDING_BYTE_SENT
    ensures Load(After(s, m)) <= |s.senders| * DEFAULT_MAX_PENDING_BYTE_SENT
  {
    hide Conserved, After, CanMove, Load, Unposted;
    if m.Check? {
      CheckLoad(s, m.t);
    } else {
      OtherLoad(s, m);
    }
  }

  /** An admitted send finds room for itself; the other threads have at most the limit each. */
  lemma {:induction false} CheckLoad(s: State, t: nat)
    requires Limited(s) && CanMove(s, Check(t))
    ensures |After(s, Check(t)).senders| == |s.senders|
    ensures Load(After(s, Check(t))) <= |s.senders| * DEFAULT_MAX_PENDING_BYTE_SENT
    ensures forall u :: 0 <= u < |s.senders| ==>
        After(s, Check(t)).senders[u].Unposted() <= DEFAULT_MAX_PENDING_BYTE_SENT
  {
    hide TallyOf, Unposted;
    UnpostedUpdate(s.senders, t, After(s, Check(t)).senders[t]);
    UnpostedBound(s.senders, t, DEFAULT_MAX_PENDING_BYTE_SENT);
  }

  /** No other move adds to the load. */
  lemma {:induction false} OtherLoad(s: State, m: Move)
    requires Limited(s) && CanMove(s, m) && !m.Check?
    ensures Load(After(s, m)) <= Load(s)
    ensures |After(s, m).senders| == |s.senders|
    ensures forall u :: 0 <= u < |s.senders| ==> After(s, m).senders[u].Unposted() <= DEFAULT_MAX_PENDING_BYTE_SENT
  {
    hide TallyOf, Unposted, Conserved, Counts;
    if m.Begin? || m.PostChunk? || m.Finish? || m.GiveUp? {
      UnpostedUpdate(s.senders, m.t, After(s, m).senders[m.t]);
    }
  }

  lemma {:induction false} RunKeepsLimit(s: State, ms: seq<Move>)
    requires Limited(s) && CanRun(s, ms)
    ensures Limited(RunEnd(s, ms)) && |RunEnd(s, ms).senders| == |s.senders|
    decreases |ms|
  {
    hide Limited;
    if ms != [] {
      MoveKeepsLimit(s, ms[0]);
      RunKeepsLimit(After(s, ms[0]), ms[1..]);
    }
  }

  lemma {:induction false} NoneUnposted(senders: seq<Sender>)
    requires forall u :: 0 <= u < |senders| ==> senders[u] == Outside
    ensures Unposted(senders) == 0
  {
    if senders != [] {
      NoneUnposted(senders[1..]);
    }
  }

  lemma {:induction false} QuietIsLimited(threads: nat)
    ensures Limited(Quiet(threads))
  {
    NoneUnposted(Quiet(threads).senders);
  }

  /** Over every interleaving of tests, posts, failures and completions, what is pending and
      what was admitted stay within the limit times the number of threads that send. */
  lemma {:induction false} OverlappingSendersBound(threads: nat, ms: seq<Move>)
    requires CanRun(Quiet(threads), ms)
    ensures 0 <= RunEnd(Quiet(threads), ms).sock.pendingByteSent <= Load(RunEnd(Quiet(threads), ms))
            <= threads * DEFAULT_MAX_PENDING_BYTE_SENT
  {
    QuietIsLimited(threads);
    RunKeepsLimit(Quiet(threads), ms);
  }

  // ---------- the bound is met ----------

  /** The first `k` threads have been admitted with as many bytes as the limit allows. */
  function Admitted(threads: nat, k: nat): State
    requires k <= threads
  {
    Quiet(threads).(senders := seq(threads, t => if t < k then Sending(DEFAULT_MAX_PENDING_BYTE_SENT) else Outside))
  }

  function AdmitAll(k: nat, threads: nat): seq<Move>
    requires k <= threads
    decreases threads - k
  {
    if k == threads then [] else [Begin(k, DEFAULT_MAX_PENDING_BYTE_SENT), Check(k)] + AdmitAll(k + 1, threads)
  }

  lemma {:induction false} AdmitAllRuns(threads: nat, k: nat)
    requires k <= threads
    ensures CanRun(Admitted(threads, k), AdmitAll(k, threads))
    ensures RunEnd(Admitted(threads, k), AdmitAll(k, threads)) == Admitted(threads, threads)
    decreases threads - k
  {
    if k < threads {
      var s, ms := Admitted(threads, k), AdmitAll(k, threads);
      var s1 := After(s, ms[0]);
      var s2 := After(s1, Check(k));
      assert s2.senders == Admitted(threads, k + 1).senders;
      assert ms[1..][0] == Check(k) && ms[1..][1..] == AdmitAll(k + 1, threads);
      AdmitAllRuns(threads, k + 1);
    }
  }

  /** The posts of one admitted send. */
  function Posts(t: nat, left: nat): seq<Move> {
    if left == 0 then [] else [PostChunk(t, 0, true)] + Posts(t, left - ChunkLen(left))
  }

  lemma {:induction false} PostsRun(s: State, t: nat, left: nat)
    requires t < |s.senders| && s.senders[t] == Sending(left)
    ensures CanRun(s, Posts(t, left))
    ensures var s' := RunEnd(s, Posts(t, left));
            && s'.senders == s.senders[t := Sending(0)]
            && s'.sock.pendingByteSent == s.sock.pendingByteSent + left
    decreases left
  {
    if left > 0 {
      var s1 := After(s, PostChunk(t, 0, true));
      PostsRun(s1, t, left - ChunkLen(left));
      assert Posts(t, left)[1..] == Posts(t, left - ChunkLen(left));
      assert s1.senders[t := Sending(0)] == s.senders[t := Sending(0)];
    } else {
      assert s.senders[t := Sending(0)] == s.senders;
    }
  }

  /** The posts of the threads from number `k` on. */
  function PostAll(k: nat, threads: nat, left: nat): seq<Move>
    requires k <= threads
    decreases threads - k
  {
    if k == threads then [] else Posts(k, left) + PostAll(k + 1, threads, left)
  }

  lemma {:induction false} PostAllRuns(s: State, k: nat, left: nat)
    requires k <= |s.senders| && forall u :: k <= u < |s.senders| ==> s.senders[u] == Sending(left)
    ensures CanRun(s, PostAll(k, |s.senders|, left))
    ensures RunEnd(s, PostAll(k, |s.senders|, left)).sock.pendingByteSent == s.sock.pendingByteSent +
        (|s.senders| - k) * left
    decreases |s.senders| - k
  {
    hide CanRun, RunEnd, Posts;
    RunNone(s);
    if k < |s.senders| {
      PostsRun(s, k, left);
      var s1 := RunEnd(s, Posts(k, left));
      PostAllRuns(s1, k + 1, left);
      RunJoin(s, Posts(k, left), PostAll(k + 1, |s.senders|, left));
      assert (|s.senders| - k) * left == left + (|s.senders| - (k + 1)) * left;
    }
  }

  lemma {:induction false} RunNone(s: State)
    ensures CanRun(s, []) && RunEnd(s, []) == s
  {
  }

  lemma {:induction false} RunJoin(s: State, ms: seq<Move>, ns: seq<Move>)
    requires CanRun(s, ms) && CanRun(RunEnd(s, ms), ns)
    ensures CanRun(s, ms + ns) && RunEnd(s, ms + ns) == RunEnd(RunEnd(s, ms), ns)
    decreases |ms|
  {
    if ms == [] {
      assert ms + ns == ns;
    } else {
      assert (ms + ns)[1..] == ms[1..] + ns;
      RunJoin(After(s, ms[0]), ms[1..], ns);
    }
  }

  /** Some interleaving of any number of threads leaves the limit times that number of bytes pending. */
  lemma {:induction false} OverlappingSendersTight(threads: nat) returns (ms: seq<Move>)
    ensures CanRun(Quiet(threads), ms)
    ensures RunEnd(Quiet(threads), ms).sock.pendingByteSent == threads * DEFAULT_MAX_PENDING_BYTE_SENT
  {
    assert Admitted(threads, 0) == Quiet(threads) by {
      assert Admitted(threads, 0).senders == Quiet(threads).senders;
    }
    AdmitAllRuns(threads, 0);
    var s := Admitted(threads, threads);
    PostAllRuns(s, 0, DEFAULT_MAX_PENDING_BYTE_SENT);
    var posts := PostAll(0, threads, DEFAULT_MAX_PENDING_BYTE_SENT);
    RunJoin(Quiet(threads), AdmitAll(0, threads), posts);
    ms := AdmitAll(0, threads) + posts;
  }

  /** The documented limit on pending bytes holds in every run exactly when at most one thread sends. */
  lemma {:induction false} DocumentedLimitIff(threads: nat)
    ensures (forall ms :: CanRun(Quiet(threads), ms) ==>
               RunEnd(Quiet(threads), ms).sock.pendingByteSent <= DEFAULT_MAX_PENDING_BYTE_SENT)
       <==> threads <= 1
  {
    if threads <= 1 {
      forall ms | CanRun(Quiet(threads), ms)
        ensures RunEnd(Quiet(threads), ms).sock.pendingByteSent <= DEFAULT_MAX_PENDING_BYTE_SENT
      {
        OverlappingSendersBound(threads, ms);
      }
    } else {
      var ms := OverlappingSendersTight(threads);
    }
  }
}
