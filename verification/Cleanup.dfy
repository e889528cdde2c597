/** How a connection ends when several threads work on it at once.  `HandleIo` accounts for an operation
    in one critical section and asks in a later one whether it was the last; `SendData` tests the state
    outside the lock and posts later.  Other threads' steps may fall in between. */
module Cleanup {
  import opened SocketTypes

  /** Where a thread is: nowhere; in `SendData` past the test of the state, or past a refused post;
      in `HandleIo` with an operation not yet accounted for, past its critical section, in a send made
      by the callback, before the closing check, or past a check that said to tear down; or in
      `HandleDisconnect`, before its critical section or before it queues the socket. */
  datatype Pc =
    | Free | Sending | SendRefused
    | GotRead | GotWrite | ReadDone | InSend | InRefused | Reposting | Refused | WriteDone | Checking | Cleaning
    | GotDisconnect | Marked
  {
    /** The thread will still ask whether the connection is over. */
    predicate Busy() {
      ReadDone? || InSend? || InRefused? || Reposting? || Refused? || WriteDone? || Checking? || Cleaning?
    }

    /** The thread has the connection's one receive. */
    predicate HasReceive() { GotRead? || ReadDone? || InSend? || InRefused? || Reposting? || Refused? }

    /** The thread is about to queue the socket for reuse. */
    predicate HasDisconnect() { GotDisconnect? || Marked? }
  }

  /** The first `workers` threads serve the port.  `reading`, `writing` and `disconnecting` count the
      operations that no worker has taken, `cleaned` the teardowns, and `released` how often the socket
      left the list; `queued` says whether the socket may be taken for another connection, and
      `failed` counts the disconnects that completed with an error. */
  datatype State = State(st: SocketState, outstandingRecv: int, outstandingSend: int, reading: nat, writing: nat,
                         disconnecting: nat, workers: nat, threads: seq<Pc>, cleaned: nat, released: nat,
                         queued: bool, failed: nat)
  {
    predicate Zero() { outstandingRecv == 0 && outstandingSend == 0 }
  }

  /** What the system lets a teardown do: park the socket, close it, or neither, because a close is still in
      progress; the disconnect tried before may have been refused. */
  datatype How = Park | Shut | Hang(refused: bool)

  datatype Move =
    | See(t: nat)                  // line 20: the state is CONNECTED
    | Post(t: nat, more: bool)     // lines 90 to 113: a write is posted
    | Refuse(t: nat)               // line 36: or refused
    | GiveUp(t: nat)               // line 39
    | Leave(t: nat)                // lines 24, 47: no room, or nothing left to send
    | TakeRead(t: nat)
    | TakeWrite(t: nat)
    | AccountRead(t: nat)          // lines 228 to 232
    | AccountWrite(t: nat)         // lines 262 to 267
    | Error(t: nat)                // lines 141 to 177
    | EmptyRead(t: nat)            // line 252
    | UserCloses(t: nat)           // `CloseSocket` in the callback
    | TestState(t: nat)            // line 240
    | Repost(t: nat, ok: bool)     // line 242
    | MarkRefused(t: nat)          // line 244
    | FinishWrite(t: nat, full: bool) // lines 268 to 270
    | Check(t: nat)                // lines 214 to 220
    | Clean(t: nat, how: How)      // line 223
    | TakeDisconnect(t: nat)
    | FailDisconnect(t: nat)       // lines 168 to 179
    | Mark(t: nat)                 // lines 316 to 321
    | Queue(t: nat)                // lines 322 to 326

  function PcOf(s: State, t: nat): Pc { if t < |s.threads| then s.threads[t] else Free }

  /** The system accepts nothing on a handle that was closed or disconnected. */
  predicate CanMove(s: State, m: Move) {
    match m
    case See(t) => t < |s.threads| && (s.threads[t].Free? || s.threads[t].ReadDone?) && s.st == CONNECTED
    case Post(t, _) => (PcOf(s, t).Sending? || PcOf(s, t).InSend?) && s.st !in {CLOSED, DISCONNECTED}
    case Refuse(t) => PcOf(s, t).Sending? || PcOf(s, t).InSend?
    case GiveUp(t) => PcOf(s, t).SendRefused? || PcOf(s, t).InRefused?
    case Leave(t) => PcOf(s, t).Sending? || PcOf(s, t).InSend?
    case TakeRead(t) => t < s.workers && t < |s.threads| && s.threads[t].Free? && s.reading > 0
    case TakeWrite(t) => t < s.workers && t < |s.threads| && s.threads[t].Free? && s.writing > 0
    case AccountRead(t) => PcOf(s, t).GotRead?
    case AccountWrite(t) => PcOf(s, t).GotWrite?
    case Error(t) => PcOf(s, t).GotRead? || PcOf(s, t).GotWrite?
    case EmptyRead(t) => PcOf(s, t).ReadDone?
    case UserCloses(t) => PcOf(s, t).ReadDone?
    case TestState(t) => PcOf(s, t).ReadDone?
    case Repost(t, ok) => PcOf(s, t).Reposting? && (ok ==> s.st !in {CLOSED, DISCONNECTED})
    case MarkRefused(t) => PcOf(s, t).Refused?
    case FinishWrite(t, _) => PcOf(s, t).WriteDone?
    case Check(t) => PcOf(s, t).Checking?
    case Clean(t, _) => PcOf(s, t).Cleaning?
    case TakeDisconnect(t) => t < s.workers && t < |s.threads| && s.threads[t].Free? && s.disconnecting > 0
    case FailDisconnect(t) => PcOf(s, t).GotDisconnect?
    case Mark(t) => PcOf(s, t).GotDisconnect?
    case Queue(t) => PcOf(s, t).Marked?
  }

  function Set(s: State, t: nat, pc: Pc): State
    requires t < |s.threads|
  {
    s.(threads := s.threads[t := pc])
  }

  /** A teardown: the socket is parked, closed and released, or kept where its close does not end; one already
      closed is released again, and one already parked or disconnected is left alone. */
  function TornDown(s: State, how: How): State {
    var s := s.(cleaned := s.cleaned + 1);
    if s.st in {DISCONNECTING, DISCONNECTED} then s
    else if s.st == CLOSED then s.(released := s.released + 1)
    else if s.st == CLOSING && how.Park? then s.(st := DISCONNECTING, disconnecting := s.disconnecting + 1)
    else if how.Hang? then s.(st := if s.st == CLOSING && how.refused then FAILURE else s.st)
    else s.(st := CLOSED, released := s.released + 1)
  }

  function After(s: State, m: Move): State
    requires CanMove(s, m)
  {
    match m
    case See(t) => Set(s, t, if s.threads[t].Free? then Sending else InSend)
    case Post(t, more) =>
      var s' := s.(outstandingSend := s.outstandingSend + 1, writing := s.writing + 1);
      if more then s' else Set(s', t, if s.threads[t].Sending? then Free else ReadDone)
    case Refuse(t) => Set(s, t, if s.threads[t].Sending? then SendRefused else InRefused)
    case GiveUp(t) => Set(s, t, if s.threads[t].SendRefused? then Free else ReadDone).(st := FAILURE)
    case Leave(t) => Set(s, t, if s.threads[t].Sending? then Free else ReadDone)
    case TakeRead(t) => Set(s, t, GotRead).(reading := s.reading - 1)
    case TakeWrite(t) => Set(s, t, GotWrite).(writing := s.writing - 1)
    case AccountRead(t) => Set(s, t, ReadDone).(outstandingRecv := s.outstandingRecv - 1)
    case AccountWrite(t) => Set(s, t, WriteDone).(outstandingSend := s.outstandingSend - 1)
    case Error(t) =>
      var s' := if s.threads[t].GotRead? then s.(st := FAILURE, outstandingRecv := s.outstandingRecv - 1)
                else s.(st := FAILURE, outstandingSend := s.outstandingSend - 1);
      Set(s', t, if s'.Zero() then Cleaning else Free)
    case EmptyRead(t) => Set(s, t, Checking).(st := CLOSING)
    case UserCloses(t) => s.(st := CLOSING)
    case TestState(t) => Set(s, t, if s.st == CONNECTED then Reposting else Checking)
    case Repost(t, ok) =>
      if ok then Set(s, t, Checking).(outstandingRecv := s.outstandingRecv + 1, reading := s.reading + 1)
      else Set(s, t, Refused)
    case MarkRefused(t) => Set(s, t, Checking).(st := FAILURE)
    case FinishWrite(t, full) => if full then Set(s, t, Checking) else Set(s, t, Checking).(st := FAILURE)
    case Check(t) => Set(s, t, if s.Zero() && s.st.Rank() > CONNECTED.Rank() then Cleaning else Free)
    case Clean(t, how) => TornDown(Set(s, t, Free), how)
    case TakeDisconnect(t) => Set(s, t, GotDisconnect).(disconnecting := s.disconnecting - 1)
    case FailDisconnect(t) =>
      Set(s, t, if s.Zero() then Cleaning else Free).(st := FAILURE, failed := s.failed + 1)
    case Mark(t) => Set(s, t, Marked).(st := DISCONNECTED)
    case Queue(t) => Set(s, t, Checking).(queued := true)
  }

  predicate CanRun(s: State, ms: seq<Move>)
    decreases |ms|
  {
    ms == [] || (CanMove(s, ms[0]) && CanRun(After(s, ms[0]), ms[1..]))
  }

  function RunEnd(s: State, ms: seq<Move>): State
    requires CanRun(s, ms)
    decreases |ms|
  {
    if ms == [] then s else RunEnd(After(s, ms[0]), ms[1..])
  }

  /** A connection that has just posted its first receive, among workers and other threads. */
  function Connected(workers: nat, others: nat): State {
    State(CONNECTED, 1, 0, 1, 0, 0, workers, seq(workers + others, _ => Free), 0, 0, false, 0)
  }

  // ---------- counting threads ----------

  datatype Count = Count(gotReads: nat, writes: nat, receives: nat, busy: nat, queuers: nat) {
    function Plus(c: Count): Count {
      Count(gotReads + c.gotReads, writes + c.writes, receives + c.receives, busy + c.busy, queuers + c.queuers)
    }
  }

  function One(pc: Pc): Count {
    Count(if pc.GotRead? then 1 else 0, if pc.GotWrite? then 1 else 0,
          if pc.HasReceive() then 1 else 0, if pc.Busy() then 1 else 0, if pc.HasDisconnect() then 1 else 0)
  }

  function CountOf(threads: seq<Pc>): Count {
    if threads == [] then Count(0, 0, 0, 0, 0) else One(threads[0]).Plus(CountOf(threads[1..]))
  }

  lemma {:induction false} CountUpdate(threads: seq<Pc>, t: nat, pc: Pc)
    requires t < |threads|
    ensures CountOf(threads).Plus(One(pc)) == CountOf(threads[t := pc]).Plus(One(threads[t]))
  {
    hide One;
    var updated := threads[t := pc];
    if t == 0 {
      assert updated[1..] == threads[1..];
    } else {
      CountUpdate(threads[1..], t - 1, pc);
      assert updated[1..] == threads[1..][t - 1 := pc];
      assert updated[0] == threads[0];
    }
  }

  lemma {:induction false} CountAllFree(threads: seq<Pc>)
    requires forall t :: 0 <= t < |threads| ==> threads[t].Free?
    ensures CountOf(threads) == Count(0, 0, 0, 0, 0)
  {
    if threads != [] {
      CountAllFree(threads[1..]);
      assert threads[0].Free? && One(threads[0]) == Count(0, 0, 0, 0, 0);
    }
  }

  // ---------- nothing is left behind ----------

  /** The counters are what is in flight; a connected socket has its one receive somewhere; and one
      that is no longer connected has an operation in flight or a thread still to ask, until it is
      torn down. */
  ghost predicate Tended(s: State) {
    var c := CountOf(s.threads);
    && s.outstandingRecv == s.reading + c.gotReads
    && s.outstandingSend == s.writing + c.writes
    && (s.st == CONNECTED ==> s.reading + c.receives == 1)
    && s.reading + c.receives <= 1
    && (s.st in {CONNECTED, DISCONNECTED} || s.st.Rank() > CONNECTED.Rank())
    && (s.cleaned == 0 ==> s.disconnecting == 0 && c.queuers == 0 && !s.queued && s.st != DISCONNECTED && s.failed == 0)
    && (s.st != CONNECTED && s.cleaned == 0 ==> s.outstandingRecv + s.outstandingSend + c.busy > 0)
    && (s.cleaned > 0 ==> s.st != CONNECTED)
    && s.released <= s.cleaned
  }

  /** While the socket is connected nobody has decided to tear it down. */
  ghost predicate Undecided(s: State) {
    s.st == CONNECTED ==> forall t :: 0 <= t < |s.threads| ==> !s.threads[t].Cleaning?
  }

  ghost predicate Attended(s: State) { Tended(s) && Undecided(s) }

  lemma {:induction false} MoveDecides(s: State, m: Move)
    requires Undecided(s) && CanMove(s, m)
    ensures Undecided(After(s, m))
  {
  }

  lemma {:induction false} MoveAttends(s: State, m: Move)
    requires Attended(s) && CanMove(s, m)
    ensures Attended(After(s, m))
  {
    ReceivesSomewhere(s.threads);
    Moved(s, m);
    MoveDecides(s, m);
    hide CountOf, Tended, Undecided, Counted, After, CanMove;
    if m.See? || m.Post? || m.Refuse? || m.Leave? {
      SenderAttends(s, m);
    } else if m.GiveUp? {
      GiveUpAttends(s, m);
    } else if Transfers(m) {
      TransferAttends(s, m);
    } else if m.TakeDisconnect? || m.FailDisconnect? || m.Mark? || m.Queue? {
      QueueAttends(s, m);
    } else if m.Clean? {
      CleanAttends(s, m);
    } else {
      FinishAttends(s, m);
    }
  }

  /** How the counts change when thread `t` goes on to `n`. */
  ghost predicate Shifts(threads: seq<Pc>, t: nat, n: Pc)
    requires t < |threads|
  {
    var c, c', o := CountOf(threads), CountOf(threads[t := n]), threads[t];
    && c'.gotReads - (if n.GotRead? then 1 else 0) == c.gotReads - (if o.GotRead? then 1 else 0)
    && c'.writes - (if n.GotWrite? then 1 else 0) == c.writes - (if o.GotWrite? then 1 else 0)
    && c'.receives - (if n.HasReceive() then 1 else 0) == c.receives - (if o.HasReceive() then 1 else 0)
    && c'.busy - (if n.Busy() then 1 else 0) == c.busy - (if o.Busy() then 1 else 0)
    && c'.queuers - (if n.HasDisconnect() then 1 else 0) == c.queuers - (if o.HasDisconnect() then 1 else 0)
    && (o.HasDisconnect() ==> c.queuers > 0)
    && (o.Busy() ==> c.busy > 0) && (o.HasReceive() ==> c.receives > 0)
  }

  ghost predicate Counted(s: State, m: Move)
    requires CanMove(s, m)
  {
    && m.t < |s.threads| && |After(s, m).threads| == |s.threads|
    && After(s, m).threads == s.threads[m.t := After(s, m).threads[m.t]]
    && Shifts(s.threads, m.t, After(s, m).threads[m.t])
  }

  lemma {:induction false} Moved(s: State, m: Move)
    requires CanMove(s, m)
    ensures Counted(s, m)
  {
    hide Shifts;
    MovesOne(s, m);
    Shifted(s.threads, m.t, After(s, m).threads[m.t]);
  }

  lemma {:induction false} MovesOne(s: State, m: Move)
    requires CanMove(s, m)
    ensures m.t < |s.threads| && |After(s, m).threads| == |s.threads|
    ensures After(s, m).threads == s.threads[m.t := After(s, m).threads[m.t]]
  {
  }

  lemma {:induction false} Shifted(threads: seq<Pc>, t: nat, n: Pc)
    requires t < |threads|
    ensures Shifts(threads, t, n)
  {
    hide CountOf;
    CountUpdate(threads, t, n);
    CountUpdate(threads, t, Free);
  }

  lemma {:induction false} ReceivesSomewhere(threads: seq<Pc>)
    ensures CountOf(threads).receives <= CountOf(threads).gotReads + CountOf(threads).busy
  {
    if threads != [] {
      ReceivesSomewhere(threads[1..]);
    }
  }

  lemma {:induction false} SenderAttends(s: State, m: Move)
    requires Tended(s) && CanMove(s, m) && (m.See? || m.Post? || m.Refuse? || m.Leave?) && Counted(s, m)
    ensures Tended(After(s, m))
  {
    hide CountOf;
  }

  lemma {:induction false} GiveUpAttends(s: State, m: Move)
    requires Tended(s) && CanMove(s, m) && m.GiveUp? && Counted(s, m)
    requires CountOf(s.threads).receives <= CountOf(s.threads).gotReads + CountOf(s.threads).busy
    ensures Tended(After(s, m))
  {
    hide CountOf;
    assert CountOf(After(s, m).threads) == CountOf(s.threads);
  }

  /** A worker takes or accounts for an operation, or a receive goes on. */
  predicate Transfers(m: Move) {
    m.TakeRead? || m.TakeWrite? || m.AccountRead? || m.AccountWrite? || m.Error? || m.Repost?
  }

  lemma {:induction false} TransferAttends(s: State, m: Move)
    requires Tended(s) && CanMove(s, m) && Transfers(m) && Counted(s, m)
    ensures Tended(After(s, m))
  {
    hide CountOf;
  }

  lemma {:induction false} QueueAttends(s: State, m: Move)
    requires Tended(s) && CanMove(s, m) && Counted(s, m)
    requires m.TakeDisconnect? || m.FailDisconnect? || m.Mark? || m.Queue?
    ensures Tended(After(s, m))
  {
    hide CountOf;
  }

  lemma {:induction false} FinishAttends(s: State, m: Move)
    requires Tended(s) && CanMove(s, m) && Counted(s, m)
    requires m.EmptyRead? || m.UserCloses? || m.TestState? || m.MarkRefused? || m.FinishWrite? || m.Check?
    ensures Tended(After(s, m))
  {
    hide CountOf;
  }

  lemma {:induction false} CleanAttends(s: State, m: Move)
    requires Tended(s) && Undecided(s) && CanMove(s, m) && Counted(s, m) && m.Clean?
    ensures Tended(After(s, m))
  {
    hide CountOf;
  }

  lemma {:induction false} RunAttends(s: State, ms: seq<Move>)
    requires Attended(s) && CanRun(s, ms)
    ensures Attended(RunEnd(s, ms))
    decreases |ms|
  {
    hide Attended;
    if ms != [] {
      MoveAttends(s, ms[0]);
      RunAttends(After(s, ms[0]), ms[1..]);
    }
  }

  /** Nothing in flight and no thread at work. */
  ghost predicate Quiescent(s: State) {
    s.reading == 0 && s.writing == 0 && forall t :: 0 <= t < |s.threads| ==> s.threads[t].Free?
  }

  lemma {:induction false} ConnectedIsAttended(workers: nat, others: nat)
    ensures Attended(Connected(workers, others))
  {
    CountAllFree(Connected(workers, others).threads);
  }

  /** However the steps of any number of workers and senders interleave, no counter goes negative, and
      when a connection has nothing left in flight it was torn down. */
  lemma {:induction false} NeverLeftBehind(workers: nat, others: nat, ms: seq<Move>)
    requires CanRun(Connected(workers, others), ms)
    ensures var s := RunEnd(Connected(workers, others), ms);
            && s.outstandingRecv >= 0 && s.outstandingSend >= 0
            && (Quiescent(s) ==> s.cleaned >= 1 && s.st != CONNECTED)
  {
    ConnectedIsAttended(workers, others);
    RunAttends(Connected(workers, others), ms);
    var s := RunEnd(Connected(workers, others), ms);
    if Quiescent(s) {
      CountAllFree(s.threads);
    }
  }

  // ---------- torn down more than once ----------

  /** After its teardown the socket is at most disconnected, marked and queued, or, where the disconnect
      failed, torn down a second time; each once. */
  ghost predicate Resting(s: State, pc: Pc) {
    && (pc.Free? || pc.HasDisconnect() || pc.Checking? || pc.Cleaning?)
    && s.disconnecting + (if pc.HasDisconnect() then 1 else 0) + (if s.queued then 1 else 0) + s.failed <= 1
    && (pc.Checking? ==> s.queued)
    && (s.queued || pc.Marked? ==> s.st == DISCONNECTED)
    && (s.queued || pc.HasDisconnect() || s.disconnecting > 0 ==> s.released == 0)
    && (pc.Cleaning? ==> s.st == FAILURE && s.failed == 1 && s.cleaned == 1 && s.released == 0)
  }

  /** With one thread: a teardown is decided only when nothing is left; what follows it is the queueing of
      the socket, or the teardown after a failed disconnect; and the state does not change under a send. */
  ghost predicate Alone(s: State) {
    && Attended(s) && |s.threads| == 1
    && s.cleaned <= 1 + s.failed && s.released <= 1
    && (var pc := s.threads[0];
        && (pc.Cleaning? ==> s.Zero())
        && (pc.Sending? || pc.SendRefused? || pc.InSend? || pc.InRefused? ==> s.st == CONNECTED)
        && (s.cleaned > 0 ==> s.Zero() && Resting(s, pc)))
  }

  lemma {:induction false} AloneCleansOnce(s: State, ms: seq<Move>)
    requires Alone(s) && CanRun(s, ms)
    ensures Alone(RunEnd(s, ms))
    decreases |ms|
  {
    hide Alone;
    if ms != [] {
      AloneMove(s, ms[0]);
      AloneCleansOnce(After(s, ms[0]), ms[1..]);
    }
  }

  lemma {:induction false} AloneMove(s: State, m: Move)
    requires Alone(s) && CanMove(s, m)
    ensures Alone(After(s, m))
  {
    hide Attended, CanMove, After;
    MoveAttends(s, m);
    MovesOne(s, m);
    if s.cleaned > 0 {
      RestingMove(s, m);
    } else if m.Clean? {
      LastMove(s, m);
    } else {
      WorkingMove(s, m);
    }
  }

  lemma {:induction false} WorkingMove(s: State, m: Move)
    requires Alone(s) && CanMove(s, m) && s.cleaned == 0 && !m.Clean? && Attended(After(s, m))
    ensures Alone(After(s, m))
  {
    hide Attended, Resting;
    Single(s);
  }

  lemma {:induction false} LastMove(s: State, m: Move)
    requires Alone(s) && CanMove(s, m) && s.cleaned == 0 && m.Clean? && Attended(After(s, m))
    ensures Alone(After(s, m))
  {
    hide Attended;
    Single(s);
  }

  /** After the teardown a lone worker has nothing to do but take the disconnect and queue the socket, or tear
      it down for good if the disconnect failed. */
  lemma {:induction false} RestingMove(s: State, m: Move)
    requires Alone(s) && CanMove(s, m) && s.cleaned > 0
    ensures m.TakeDisconnect? || m.FailDisconnect? || m.Mark? || m.Queue? || m.Check? || m.Clean?
    ensures var s' := After(s, m);
            && Resting(s', s'.threads[0]) && s'.Zero() && 0 < s'.cleaned <= 1 + s'.failed && s'.released <= 1
  {
    hide Attended;
    Single(s);
  }

  lemma {:induction false} Single(s: State)
    requires Attended(s) && |s.threads| == 1
    ensures var pc := s.threads[0];
            && s.outstandingRecv == s.reading + (if pc.GotRead? then 1 else 0)
            && s.outstandingSend == s.writing + (if pc.GotWrite? then 1 else 0)
            && (s.cleaned > 0 ==> s.st != CONNECTED) && s.released <= s.cleaned
            && (s.cleaned == 0 ==> s.disconnecting == 0 && !pc.HasDisconnect() && !s.queued && s.st != DISCONNECTED)
            && (s.cleaned == 0 ==> s.failed == 0)
            && (s.st == CONNECTED && s.reading == 0 ==> pc.HasReceive())
  {
    CountSingle(s.threads);
    hide CountOf;
  }

  lemma {:induction false} CountSingle(threads: seq<Pc>)
    requires |threads| == 1
    ensures CountOf(threads) == One(threads[0])
  {
    assert CountOf(threads[1..]) == Count(0, 0, 0, 0, 0);
  }

  /** Without workers nobody takes a completion. */
  ghost predicate NoWorkers(s: State) {
    && s.workers == 0 && s.cleaned == 0 && s.released == 0 && !s.queued
    && forall t :: 0 <= t < |s.threads| ==> s.threads[t].Free? || s.threads[t].Sending? || s.threads[t].SendRefused?
  }

  lemma {:induction false} NoWorkerNoCleaning(s: State, ms: seq<Move>)
    requires NoWorkers(s) && CanRun(s, ms)
    ensures NoWorkers(RunEnd(s, ms))
    decreases |ms|
  {
    if ms != [] {
      NoWorkerNoCleaning(After(s, ms[0]), ms[1..]);
    }
  }

  // ---------- concrete runs ----------

  lemma {:induction false} StepBack(s: State, ms: seq<Move>)
    requires ms != [] && CanMove(s, ms[0]) && CanRun(After(s, ms[0]), ms[1..])
    ensures CanRun(s, ms) && RunEnd(s, ms) == RunEnd(After(s, ms[0]), ms[1..])
  {
  }

  lemma {:induction false} RunJoin(s: State, ms: seq<Move>, ns: seq<Move>)
    requires CanRun(s, ms) && CanRun(RunEnd(s, ms), ns)
    ensures CanRun(s, ms + ns) && RunEnd(s, ms + ns) == RunEnd(RunEnd(s, ms), ns)
    decreases |ms|
  {
    hide After, CanMove;
    if ms == [] {
      assert ms + ns == ns;
    } else {
      assert (ms + ns)[1..] == ms[1..] + ns;
      RunJoin(After(s, ms[0]), ms[1..], ns);
    }
  }

  lemma {:induction false} ThreeMoves(s: State, a: Move, b: Move, c: Move)
    requires CanMove(s, a) && CanMove(After(s, a), b) && CanMove(After(After(s, a), b), c)
    ensures CanRun(s, [a, b, c]) && RunEnd(s, [a, b, c]) == After(After(After(s, a), b), c)
  {
    var s1, s2 := After(s, a), After(After(s, a), b);
    assert [a, b, c][1..] == [b, c] && [b, c][1..] == [c] && [c][1..] == [];
    StepBack(s2, [c]);
    StepBack(s1, [b, c]);
    StepBack(s, [a, b, c]);
  }

  /** A connection among the first two threads, one of them a worker, with what is in flight. */
  ghost predicate Stage(s: State, st: SocketState, recvs: int, sends: int, reading: nat, writing: nat, a: Pc, b: Pc) {
    && s.st == st && s.outstandingRecv == recvs && s.outstandingSend == sends && s.reading == reading &&
        s.writing == writing
    && |s.threads| >= 2 && s.threads[0] == a && s.threads[1] == b && s.workers >= 1
    && s.failed == 0
  }

  // A worker decides to tear down while another thread, past its test of the state, posts.
  const SEEN := [See(1), TakeRead(0), AccountRead(0)]
  const DECIDED := [EmptyRead(0), Check(0), Post(1, false)]
  const CLOSED_ONCE := [Clean(0, Shut), TakeWrite(0), Move.Error(0)]
  const CLOSED_TWICE := [Clean(0, Shut)]

  lemma {:induction false} Seen(s: State)
    requires Stage(s, CONNECTED, 1, 0, 1, 0, Free, Free)
    ensures CanRun(s, SEEN)
    ensures var s' := RunEnd(s, SEEN);
            Stage(s', CONNECTED, 0, 0, 0, 0, ReadDone, Sending) && s'.cleaned == s.cleaned && s'.released == s.released
  {
    ThreeMoves(s, SEEN[0], SEEN[1], SEEN[2]);
  }

  lemma {:induction false} Decided(s: State)
    requires Stage(s, CONNECTED, 0, 0, 0, 0, ReadDone, Sending)
    ensures CanRun(s, DECIDED)
    ensures var s' := RunEnd(s, DECIDED);
            Stage(s', CLOSING, 0, 1, 0, 1, Cleaning, Free) && s'.cleaned == s.cleaned && s'.released == s.released
  {
    ThreeMoves(s, DECIDED[0], DECIDED[1], DECIDED[2]);
  }

  lemma {:induction false} ClosedOnce(s: State)
    requires Stage(s, CLOSING, 0, 1, 0, 1, Cleaning, Free)
    ensures CanRun(s, CLOSED_ONCE)
    ensures var s' := RunEnd(s, CLOSED_ONCE);
            Stage(s', FAILURE, 0, 0, 0, 0, Cleaning, Free) && s'.cleaned == s.cleaned + 1 &&
              s'.released == s.released + 1
  {
    ThreeMoves(s, CLOSED_ONCE[0], CLOSED_ONCE[1], CLOSED_ONCE[2]);
  }

  lemma {:induction false} ClosedTwice(s: State)
    requires Stage(s, FAILURE, 0, 0, 0, 0, Cleaning, Free)
    ensures CanRun(s, CLOSED_TWICE)
    ensures RunEnd(s, CLOSED_TWICE).cleaned == s.cleaned + 1 && RunEnd(s, CLOSED_TWICE).released == s.released + 1
    ensures RunEnd(s, CLOSED_TWICE).failed == 0
  {
    assert CLOSED_TWICE[1..] == [];
    StepBack(s, CLOSED_TWICE);
  }

  /** One worker and one other thread that sends are enough to tear the connection down twice, and to
      release the socket twice. */
  lemma {:induction false} SenderInBetween(workers: nat, others: nat) returns (ms: seq<Move>)
    requires workers >= 1 && workers + others >= 2
    ensures CanRun(Connected(workers, others), ms)
    ensures var s := RunEnd(Connected(workers, others), ms); s.cleaned == 2 && s.released == 2 && s.failed == 0
  {
    hide CanRun, RunEnd;
    var s0 := Connected(workers, others);
    Seen(s0);
    var s1 := RunEnd(s0, SEEN);
    Decided(s1);
    var s2 := RunEnd(s1, DECIDED);
    ClosedOnce(s2);
    var s3 := RunEnd(s2, CLOSED_ONCE);
    ClosedTwice(s3);
    RunJoin(s2, CLOSED_ONCE, CLOSED_TWICE);
    RunJoin(s1, DECIDED, CLOSED_ONCE + CLOSED_TWICE);
    RunJoin(s0, SEEN, DECIDED + (CLOSED_ONCE + CLOSED_TWICE));
    ms := SEEN + (DECIDED + (CLOSED_ONCE + CLOSED_TWICE));
  }

  // One worker has the last read, another the last write: both account, then both ask.
  const TAKEN := [See(0), Post(0, false), TakeRead(0)]
  const ACCOUNTED := [TakeWrite(1), AccountRead(0), AccountWrite(1)]
  const ASKED := [EmptyRead(0), FinishWrite(1, true), Check(0)]
  const BOTH := [Check(1), Clean(0, Shut), Clean(1, Shut)]

  lemma {:induction false} BothTake(s: State)
    requires Stage(s, CONNECTED, 1, 0, 1, 0, Free, Free) && s.workers >= 2
    ensures CanRun(s, TAKEN)
    ensures var s' := RunEnd(s, TAKEN);
            Stage(s', CONNECTED, 1, 1, 0, 1, GotRead, Free) && s'.workers >= 2 && s'.cleaned == s.cleaned &&
              s'.released == s.released
  {
    ThreeMoves(s, TAKEN[0], TAKEN[1], TAKEN[2]);
  }

  lemma {:induction false} BothAccount(s: State)
    requires Stage(s, CONNECTED, 1, 1, 0, 1, GotRead, Free) && s.workers >= 2
    ensures CanRun(s, ACCOUNTED)
    ensures var s' := RunEnd(s, ACCOUNTED);
            Stage(s', CONNECTED, 0, 0, 0, 0, ReadDone, WriteDone) && s'.cleaned == s.cleaned &&
              s'.released == s.released
  {
    ThreeMoves(s, ACCOUNTED[0], ACCOUNTED[1], ACCOUNTED[2]);
  }

  lemma {:induction false} BothAsk(s: State)
    requires Stage(s, CONNECTED, 0, 0, 0, 0, ReadDone, WriteDone)
    ensures CanRun(s, ASKED)
    ensures var s' := RunEnd(s, ASKED);
            Stage(s', CLOSING, 0, 0, 0, 0, Cleaning, Checking) && s'.cleaned == s.cleaned && s'.released == s.released
  {
    ThreeMoves(s, ASKED[0], ASKED[1], ASKED[2]);
  }

  lemma {:induction false} BothTearDown(s: State)
    requires Stage(s, CLOSING, 0, 0, 0, 0, Cleaning, Checking)
    ensures CanRun(s, BOTH)
    ensures RunEnd(s, BOTH).cleaned == s.cleaned + 2 && RunEnd(s, BOTH).released == s.released + 2
    ensures RunEnd(s, BOTH).failed == 0
  {
    ThreeMoves(s, BOTH[0], BOTH[1], BOTH[2]);
  }

  /** Two workers, with the last read and the last write, both tear the connection down. */
  lemma {:induction false} BothClean(workers: nat, others: nat) returns (ms: seq<Move>)
    requires workers >= 2
    ensures CanRun(Connected(workers, others), ms)
    ensures var s := RunEnd(Connected(workers, others), ms); s.cleaned == 2 && s.released == 2 && s.failed == 0
  {
    hide CanRun, RunEnd;
    var s0 := Connected(workers, others);
    BothTake(s0);
    var s1 := RunEnd(s0, TAKEN);
    BothAccount(s1);
    var s2 := RunEnd(s1, ACCOUNTED);
    BothAsk(s2);
    var s3 := RunEnd(s2, ASKED);
    BothTearDown(s3);
    RunJoin(s2, ASKED, BOTH);
    RunJoin(s1, ACCOUNTED, ASKED + BOTH);
    RunJoin(s0, TAKEN, ACCOUNTED + (ASKED + BOTH));
    ms := TAKEN + (ACCOUNTED + (ASKED + BOTH));
  }

  /** Whether the threads can get in each other's way: a worker and any other thread. */
  predicate Crowded(workers: nat, others: nat) { workers >= 1 && workers + others >= 2 }

  lemma {:induction false} UncrowdedOnce(workers: nat, others: nat, ms: seq<Move>)
    requires !Crowded(workers, others) && CanRun(Connected(workers, others), ms)
    ensures var s := RunEnd(Connected(workers, others), ms); s.cleaned <= 1 + s.failed && s.released <= 1
  {
    if workers == 0 {
      NoWorkerNoCleaning(Connected(workers, others), ms);
    } else {
      ConnectedIsAttended(workers, others);
      AloneCleansOnce(Connected(workers, others), ms);
    }
  }

  /** In every run a connection is torn down at most once, and once more for a disconnect that failed, if and
      only if no worker shares the socket with another thread, be it a worker or one that sends. */
  lemma {:induction false} CleanedOnceIff(workers: nat, others: nat)
    ensures (forall ms :: CanRun(Connected(workers, others), ms) ==>
        var s := RunEnd(Connected(workers, others), ms); s.cleaned <= 1 + s.failed)
       <==> !Crowded(workers, others)
  {
    if Crowded(workers, others) {
      var ms := SenderInBetween(workers, others);
    } else {
      forall ms | CanRun(Connected(workers, others), ms)
        ensures var s := RunEnd(Connected(workers, others), ms); s.cleaned <= 1 + s.failed
      {
        UncrowdedOnce(workers, others, ms);
      }
    }
  }

  // A lone worker parks the socket, its disconnect fails, and it tears the socket down again.
  const EMPTIED := [TakeRead(0), AccountRead(0), EmptyRead(0)]
  const DROPPED := [Check(0), Clean(0, Park), TakeDisconnect(0)]
  const FAILED := [FailDisconnect(0), Clean(0, Shut)]

  /** A connection whose first worker is thread 0, with what is in flight. */
  ghost predicate Solo(s: State, st: SocketState, recvs: int, reading: nat, disconnecting: nat, a: Pc) {
    && s.st == st && s.outstandingRecv == recvs && s.outstandingSend == 0 && s.reading == reading
    && s.disconnecting == disconnecting && |s.threads| >= 1 && s.threads[0] == a && s.workers >= 1
  }

  lemma {:induction false} Emptied(s: State)
    requires Solo(s, CONNECTED, 1, 1, 0, Free)
    ensures CanRun(s, EMPTIED)
    ensures var s' := RunEnd(s, EMPTIED);
            Solo(s', CLOSING, 0, 0, 0, Checking) && s'.cleaned == s.cleaned && s'.released == s.released
  {
    ThreeMoves(s, EMPTIED[0], EMPTIED[1], EMPTIED[2]);
  }

  lemma {:induction false} Dropped(s: State)
    requires Solo(s, CLOSING, 0, 0, 0, Checking)
    ensures CanRun(s, DROPPED)
    ensures var s' := RunEnd(s, DROPPED);
            && Solo(s', DISCONNECTING, 0, 0, 0, GotDisconnect)
            && s'.cleaned == s.cleaned + 1 && s'.released == s.released
  {
    ThreeMoves(s, DROPPED[0], DROPPED[1], DROPPED[2]);
  }

  lemma {:induction false} FailedNext(s: State)
    requires Solo(s, DISCONNECTING, 0, 0, 0, GotDisconnect)
    ensures CanRun(s, FAILED)
    ensures RunEnd(s, FAILED).cleaned == s.cleaned + 1 && RunEnd(s, FAILED).released == s.released + 1
  {
    assert FAILED[1..] == [FAILED[1]] && [FAILED[1]][1..] == [];
    StepBack(After(s, FAILED[0]), [FAILED[1]]);
    StepBack(s, FAILED);
  }

  /** With any worker some run tears a connection down twice and releases its socket once: the disconnect
      fails. */
  lemma {:induction false} FailedDisconnectCleansTwice(workers: nat, others: nat) returns (ms: seq<Move>)
    requires workers >= 1
    ensures CanRun(Connected(workers, others), ms)
    ensures var s := RunEnd(Connected(workers, others), ms); s.cleaned == 2 && s.released == 1
  {
    hide CanRun, RunEnd;
    var s0 := Connected(workers, others);
    Emptied(s0);
    var s1 := RunEnd(s0, EMPTIED);
    Dropped(s1);
    FailedNext(RunEnd(s1, DROPPED));
    RunJoin(s1, DROPPED, FAILED);
    RunJoin(s0, EMPTIED, DROPPED + FAILED);
    ms := EMPTIED + (DROPPED + FAILED);
  }

  /** So no connection is torn down twice, in any run, only where no worker serves it. */
  lemma {:induction false} NeverTwiceIff(workers: nat, others: nat)
    ensures (forall ms :: CanRun(Connected(workers, others), ms) ==>
        RunEnd(Connected(workers, others), ms).cleaned <= 1)
       <==> workers == 0
  {
    if workers > 0 {
      var ms := FailedDisconnectCleansTwice(workers, others);
    } else {
      forall ms | CanRun(Connected(workers, others), ms)
        ensures RunEnd(Connected(workers, others), ms).cleaned <= 1
      {
        NoWorkerNoCleaning(Connected(workers, others), ms);
      }
    }
  }

  /** The same holds of how often the socket is released. */
  lemma {:induction false} ReleasedOnceIff(workers: nat, others: nat)
    ensures (forall ms :: CanRun(Connected(workers, others), ms) ==>
        RunEnd(Connected(workers, others), ms).released <= 1)
       <==> !Crowded(workers, others)
  {
    if Crowded(workers, others) {
      var ms := SenderInBetween(workers, others);
    } else {
      forall ms | CanRun(Connected(workers, others), ms)
        ensures RunEnd(Connected(workers, others), ms).released <= 1
      {
        UncrowdedOnce(workers, others, ms);
      }
    }
  }

  // ---------- used again ----------

  /** Whether the socket, if it waits for another connection, has nothing of this one left on it. */
  predicate CleanIfQueued(s: State) { s.queued ==> s.Zero() && s.st == DISCONNECTED && s.released == 0 }

  /** The worker has a read or a write it has not accounted for. */
  predicate Holds(pc: Pc) { pc.GotRead? || pc.GotWrite? }

  ghost predicate SomeHolds(threads: seq<Pc>) { exists t :: 0 <= t < |threads| && Holds(threads[t]) }

  ghost predicate Unaccounted(s: State) { s.reading + s.writing > 0 || SomeHolds(s.threads) }

  /** What the counters of a socket, queued or not, still hold: the reads and writes that no worker has
      accounted for. */
  lemma {:induction false} LeftOn(workers: nat, others: nat, ms: seq<Move>)
    requires CanRun(Connected(workers, others), ms)
    ensures RunEnd(Connected(workers, others), ms).Zero() <==> !Unaccounted(RunEnd(Connected(workers, others), ms))
  {
    hide *;
    ConnectedIsAttended(workers, others);
    RunAttends(Connected(workers, others), ms);
    CountersAre(RunEnd(Connected(workers, others), ms));
    HoldsIff(RunEnd(Connected(workers, others), ms).threads);
    CountsLeft(RunEnd(Connected(workers, others), ms), CountOf(RunEnd(Connected(workers, others), ms).threads));
  }

  lemma {:induction false} CountsLeft(s: State, c: Count)
    requires s.outstandingRecv == s.reading + c.gotReads && s.outstandingSend == s.writing + c.writes
    requires SomeHolds(s.threads) <==> c.gotReads + c.writes > 0
    ensures s.Zero() <==> !Unaccounted(s)
  {
    hide SomeHolds;
  }

  lemma {:induction false} HoldsIff(threads: seq<Pc>)
    ensures SomeHolds(threads) <==> CountOf(threads).gotReads + CountOf(threads).writes > 0
  {
    hide CountOf, Holds;
    if SomeHolds(threads) {
      var t :| 0 <= t < |threads| && Holds(threads[t]);
      HeldCounts(threads, t);
    } else {
      NoneHeld(threads);
    }
  }

  lemma {:induction false} HeldCounts(threads: seq<Pc>, t: nat)
    requires t < |threads| && Holds(threads[t])
    ensures CountOf(threads).gotReads + CountOf(threads).writes > 0
  {
    hide CountOf;
    CountUpdate(threads, t, Free);
  }

  lemma {:induction false} CountersAre(s: State)
    requires Attended(s)
    ensures s.outstandingRecv == s.reading + CountOf(s.threads).gotReads
    ensures s.outstandingSend == s.writing + CountOf(s.threads).writes
  {
    hide CountOf;
  }

  lemma {:induction false} NoneHeld(threads: seq<Pc>)
    requires forall t :: 0 <= t < |threads| ==> !Holds(threads[t])
    ensures CountOf(threads).gotReads == 0 && CountOf(threads).writes == 0
  {
    if threads != [] {
      NoneHeld(threads[1..]);
      assert !Holds(threads[0]);
    }
  }

  // The write posted past the decision is still in flight when the socket is queued.
  const PARKED := [Clean(0, Park), TakeDisconnect(0), Mark(0)]
  const QUEUED := [Queue(0)]

  lemma {:induction false} ParkedFirst(s: State)
    requires Stage(s, CLOSING, 0, 1, 0, 1, Cleaning, Free)
    ensures CanRun(s, PARKED)
    ensures Stage(RunEnd(s, PARKED), DISCONNECTED, 0, 1, 0, 1, Marked, Free)
  {
    ThreeMoves(s, PARKED[0], PARKED[1], PARKED[2]);
  }

  lemma {:induction false} QueuedNext(s: State)
    requires Stage(s, DISCONNECTED, 0, 1, 0, 1, Marked, Free)
    ensures CanRun(s, QUEUED)
    ensures RunEnd(s, QUEUED).queued && RunEnd(s, QUEUED).outstandingSend == 1
  {
    assert QUEUED[1..] == [];
    StepBack(s, QUEUED);
  }

  /** One worker and one other thread that sends are enough for a socket to wait for its next connection with
      a write of the last one counted on it. */
  lemma {:induction false} QueuedWithWrite(workers: nat, others: nat) returns (ms: seq<Move>)
    requires Crowded(workers, others)
    ensures CanRun(Connected(workers, others), ms)
    ensures var s := RunEnd(Connected(workers, others), ms); s.queued && s.outstandingSend == 1
  {
    hide CanRun, RunEnd;
    var s0 := Connected(workers, others);
    Seen(s0);
    var s1 := RunEnd(s0, SEEN);
    Decided(s1);
    var s2 := RunEnd(s1, DECIDED);
    ParkedFirst(s2);
    QueuedNext(RunEnd(s2, PARKED));
    RunJoin(s2, PARKED, QUEUED);
    RunJoin(s1, DECIDED, PARKED + QUEUED);
    RunJoin(s0, SEEN, DECIDED + (PARKED + QUEUED));
    ms := SEEN + (DECIDED + (PARKED + QUEUED));
  }

  lemma {:induction false} UncrowdedClean(workers: nat, others: nat, ms: seq<Move>)
    requires !Crowded(workers, others) && CanRun(Connected(workers, others), ms)
    ensures CleanIfQueued(RunEnd(Connected(workers, others), ms))
  {
    if workers == 0 {
      NoWorkerNoCleaning(Connected(workers, others), ms);
    } else {
      ConnectedIsAttended(workers, others);
      AloneCleansOnce(Connected(workers, others), ms);
    }
  }

  /** In every run a socket that waits to be used again is disconnected, listed, and has nothing pending, at
      every moment of its wait, if and only if no worker shares it with another thread. */
  lemma {:induction false} ReuseIsCleanIff(workers: nat, others: nat)
    ensures (forall ms :: CanRun(Connected(workers, others), ms) ==>
        CleanIfQueued(RunEnd(Connected(workers, others), ms)))
       <==> !Crowded(workers, others)
  {
    if Crowded(workers, others) {
      var ms := QueuedWithWrite(workers, others);
    } else {
      forall ms | CanRun(Connected(workers, others), ms)
        ensures CleanIfQueued(RunEnd(Connected(workers, others), ms))
      {
        UncrowdedClean(workers, others, ms);
      }
    }
  }
}
