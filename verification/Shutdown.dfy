/** How the workers are stopped: one End packet per thread goes into the same first-in first-out
    port as the completions, and a worker that takes one exits. */
module Shutdown {
  datatype Packet = End | Io(op: nat)

  datatype Worker = Waiting | Handling | Exited

  datatype State = State(port: seq<Packet>, workers: seq<Worker>)

  datatype Move =
    | Take(w: nat)               // `GetQueuedCompletionStatus` returns
    | Finish(w: nat)             // the handler returns
    | Arrive(op: nat)            // an operation posted earlier, or by a handler, completes

  predicate CanMove(s: State, m: Move) {
    match m
    case Take(w) => w < |s.workers| && s.workers[w].Waiting? && s.port != []
    case Finish(w) => w < |s.workers| && s.workers[w].Handling?
    case Arrive(_) => true
  }

  function After(s: State, m: Move): State
    requires CanMove(s, m)
  {
    match m
    case Take(w) => State(s.port[1..], s.workers[w := if s.port[0].End? then Exited else Handling])
    case Finish(w) => s.(workers := s.workers[w := Waiting])
    case Arrive(op) => s.(port := s.port + [Io(op)])
  }

  predicate CanRun(s: State, ms: seq<Move>)
    decreases |ms|
  {
    ms == [] || (CanMove(s, ms[0]) && CanRun(After(s, ms[0]), ms[1..]))
  }

  function RunEnd(s: State, ms: seq<Move>): State
    requires CanRun(s, ms)
    decreases |ms|
  {
    if ms == [] then s else RunEnd(After(s, ms[0]), ms[1..])
  }

  // ---------- counting ----------

  function Ends(port: seq<Packet>): nat {
    if port == [] then 0 else (if port[0].End? then 1 else 0) + Ends(port[1..])
  }

  /** The number of packets up to and including the last End. */
  function UpToLastEnd(port: seq<Packet>): nat {
    if Ends(port) == 0 then 0 else 1 + UpToLastEnd(port[1..])
  }

  function Live(workers: seq<Worker>): nat {
    if workers == [] then 0 else (if workers[0].Exited? then 0 else 1) + Live(workers[1..])
  }

  function Busy(workers: seq<Worker>): nat {
    if workers == [] then 0 else (if workers[0].Handling? then 1 else 0) + Busy(workers[1..])
  }

  /** What the workers still have to do, two moves to a packet. */
  function Measure(s: State): nat { 2 * UpToLastEnd(s.port) + Busy(s.workers) }

  /** The moves made by workers. */
  function Turns(ms: seq<Move>): nat {
    if ms == [] then 0 else (if ms[0].Arrive? then 0 else 1) + Turns(ms[1..])
  }

  lemma {:induction false} WorkersUpdate(workers: seq<Worker>, w: nat, x: Worker)
    requires w < |workers|
    ensures Live(workers[w := x]) == Live(workers) - (if workers[w].Exited? then 0 else 1) +
        (if x.Exited? then 0 else 1)
    ensures Busy(workers[w := x]) == Busy(workers) - (if workers[w].Handling? then 1 else 0) +
        (if x.Handling? then 1 else 0)
  {
    var updated := workers[w := x];
    if w == 0 {
      assert updated[1..] == workers[1..];
    } else {
      WorkersUpdate(workers[1..], w - 1, x);
      assert updated[1..] == workers[1..][w - 1 := x];
    }
  }

  lemma {:induction false} EndsAppend(port: seq<Packet>, more: seq<Packet>)
    ensures Ends(port + more) == Ends(port) + Ends(more)
  {
    if port == [] {
      assert port + more == more;
    } else {
      assert (port + more)[1..] == port[1..] + more;
      EndsAppend(port[1..], more);
    }
  }

  /** A completion put behind the last End does not delay the shutdown. */
  lemma {:induction false} ArrivalIsBehind(port: seq<Packet>, op: nat)
    ensures UpToLastEnd(port + [Io(op)]) == UpToLastEnd(port)
  {
    EndsAppend(port, [Io(op)]);
    assert Ends([Io(op)]) == 0 by { assert [Io(op)][1..] == []; }
    if Ends(port) > 0 {
      assert (port + [Io(op)])[1..] == port[1..] + [Io(op)];
      ArrivalIsBehind(port[1..], op);
    }
  }

  // ---------- the shutdown ----------

  /** As many Ends are queued as workers are alive. */
  ghost predicate Balanced(s: State) { Ends(s.port) == Live(s.workers) }

  lemma {:induction false} MoveKeepsBalance(s: State, m: Move)
    requires Balanced(s) && CanMove(s, m)
    ensures Balanced(After(s, m))
    ensures if m.Arrive? then Measure(After(s, m)) == Measure(s) else Measure(After(s, m)) < Measure(s)
  {
    match m {
      case Take(w) =>
        WorkersUpdate(s.workers, w, After(s, m).workers[w]);
        LiveSome(s.workers, w);
      case Finish(w) => WorkersUpdate(s.workers, w, Waiting);
      case Arrive(op) =>
        EndsAppend(s.port, [Io(op)]);
        assert Ends([Io(op)]) == 0 by { assert [Io(op)][1..] == []; }
        ArrivalIsBehind(s.port, op);
    }
  }

  lemma {:induction false} LiveSome(workers: seq<Worker>, w: nat)
    requires w < |workers| && !workers[w].Exited?
    ensures Live(workers) >= 1
  {
    if w > 0 {
      LiveSome(workers[1..], w - 1);
    }
  }

  lemma {:induction false} FirstLive(workers: seq<Worker>) returns (w: nat)
    requires Live(workers) >= 1
    ensures w < |workers| && !workers[w].Exited?
  {
    if !workers[0].Exited? {
      w := 0;
    } else {
      w := FirstLive(workers[1..]);
      w := w + 1;
    }
  }

  lemma {:induction false} NoneLive(workers: seq<Worker>)
    requires Live(workers) == 0
    ensures forall w :: 0 <= w < |workers| ==> workers[w].Exited?
  {
    forall w | 0 <= w < |workers|
      ensures workers[w].Exited?
    {
      if !workers[w].Exited? {
        LiveSome(workers, w);
      }
    }
  }

  ghost predicate AllExited(s: State) { forall w :: 0 <= w < |s.workers| ==> s.workers[w].Exited? }

  /** Some worker can make a move. */
  ghost predicate Working(s: State) { exists w: nat ::
    w < |s.workers| && (CanMove(s, Take(w)) || CanMove(s, Finish(w))) }

  lemma {:induction false} WorkingIff(s: State)
    requires Balanced(s)
    ensures Working(s) <==> !AllExited(s)
  {
    if Live(s.workers) >= 1 {
      var w := FirstLive(s.workers);
      assert CanMove(s, Take(w)) || CanMove(s, Finish(w));
    } else {
      NoneLive(s.workers);
    }
  }

  lemma {:induction false} RunKeepsBalance(s: State, ms: seq<Move>)
    requires Balanced(s) && CanRun(s, ms)
    ensures Balanced(RunEnd(s, ms)) && Measure(RunEnd(s, ms)) + Turns(ms) <= Measure(s)
    decreases |ms|
  {
    hide Balanced, Measure;
    if ms != [] {
      MoveKeepsBalance(s, ms[0]);
      RunKeepsBalance(After(s, ms[0]), ms[1..]);
    }
  }

  /** What `ClearThreads` adds. */
  function EndPackets(n: nat): seq<Packet> { seq(n, _ => End) }

  lemma {:induction false} EndsOfEndPackets(n: nat)
    ensures Ends(EndPackets(n)) == n
  {
    if n > 0 {
      assert EndPackets(n)[1..] == EndPackets(n - 1);
      EndsOfEndPackets(n - 1);
    }
  }

  /** After `ClearThreads`, whatever completions arrive meanwhile: the Ends still queued are as many
      as the live workers; the workers make no more moves than the measure allows; and at every
      moment either a worker can move or all have exited.  So all workers exit. */
  lemma {:induction false} AllWorkersExit(port: seq<Packet>, workers: seq<Worker>, ms: seq<Move>)
    requires Ends(port) == 0 && Live(workers) == |workers|
    requires CanRun(State(port + EndPackets(|workers|), workers), ms)
    ensures var s := RunEnd(State(port + EndPackets(|workers|), workers), ms);
            && Ends(s.port) == Live(s.workers)
            && Turns(ms) + Measure(s) <= 2 * (|port| + |workers|) + Busy(workers)
            && (Working(s) <==> !AllExited(s))
            && (Measure(s) == 0 ==> AllExited(s))
  {
    var s0 := State(port + EndPackets(|workers|), workers);
    EndsAppend(port, EndPackets(|workers|));
    EndsOfEndPackets(|workers|);
    UpToLastEndBound(s0.port);
    RunKeepsBalance(s0, ms);
    WorkingIff(RunEnd(s0, ms));
    if Measure(RunEnd(s0, ms)) == 0 {
      NoneLive(RunEnd(s0, ms).workers);
    }
  }

  lemma {:induction false} UpToLastEndBound(port: seq<Packet>)
    ensures Ends(port) <= UpToLastEnd(port) <= |port|
  {
    if port != [] {
      UpToLastEndBound(port[1..]);
    }
  }

  // ---------- in place ----------

  function FirstEnd(port: seq<Packet>): (k: nat)
    requires Ends(port) > 0
    ensures k < |port| && port[k] == End && forall i :: 0 <= i < k ==> port[i] != End
  {
    if port[0].End? then 0 else 1 + FirstEnd(port[1..])
  }

  function Completions(ops: seq<nat>): (packets: seq<Packet>)
    ensures |packets| == |ops| && End !in packets
  {
    if ops == [] then [] else [Io(ops[0])] + Completions(ops[1..])
  }

  lemma {:induction false} NoEnds(packets: seq<Packet>)
    requires End !in packets
    ensures Ends(packets) == 0
  {
    if packets != [] {
      assert packets[0] in packets;
      NoEnds(packets[1..]);
    }
  }

  class CompletionPort {
    var packets: seq<Packet>
    var threadHandles: seq<nat>

    constructor (threads: nat)
      ensures packets == [] && |threadHandles| == threads
    {
      packets, threadHandles := [], seq(threads, i => i);
    }

    /** Posts one End for each thread. */
    method ClearThreads()
      modifies this`packets
      ensures packets == old(packets) + EndPackets(|threadHandles|)
    {
      for i := 0 to |threadHandles|
        invariant packets == old(packets) + EndPackets(i)
      {
        assert EndPackets(i + 1) == EndPackets(i) + [End];
        packets := packets + [End];
      }
    }

    /** One worker's loop: it handles packets in the order they were queued, and leaves at the first
        End, however many completions each handler causes.  `causes[i]` is what arrives while the
        i-th packet is handled. */
    method IOCPWorkerThread(causes: seq<seq<nat>>) returns (handled: seq<Packet>)
      requires Ends(packets) > 0
      modifies this`packets
      ensures handled == old(packets)[..FirstEnd(old(packets))]
      ensures old(packets)[|handled| + 1..] <= packets
      ensures Ends(packets) == Ends(old(packets)) - 1
    {
      hide Progress, Ends, FirstEnd;
      var all := packets;
      ghost var arrived: seq<Packet> := [];
      handled := [];
      ProgressStarts(all);
      while packets[0] != End
        invariant Progress(all, |handled|, arrived, packets)
        invariant packets != [] && |handled| <= FirstEnd(all) < |all| && handled == all[..|handled|]
        decreases FirstEnd(all) - |handled|
      {
        var packet := packets[0];
        var more := if |handled| < |causes| then Completions(causes[|handled|]) else [];
        ProgressGoesOn(all, |handled|, arrived, packets, more);
        packets := packets[1..] + more;
        handled := handled + [packet];
        arrived := arrived + more;
      }
      ProgressEnds(all, |handled|, arrived, packets);
      packets := packets[1..];
    }
  }

  /** The worker has taken `k` packets, all before the first End, and `arrived` came meanwhile. */
  ghost predicate Progress(all: seq<Packet>, k: nat, arrived: seq<Packet>, packets: seq<Packet>) {
    Ends(all) > 0 && k <= FirstEnd(all) && Ends(arrived) == 0 && packets == all[k..] + arrived
  }

  lemma {:induction false} ProgressStarts(all: seq<Packet>)
    requires Ends(all) > 0
    ensures Progress(all, 0, [], all) && FirstEnd(all) < |all|
  {
    assert all == all[0..] + [];
  }

  lemma {:induction false} ProgressGoesOn(all: seq<Packet>, k: nat, arrived: seq<Packet>, packets: seq<Packet>,
      more: seq<Packet>)
    requires Progress(all, k, arrived, packets) && packets != [] && packets[0] != End && End !in more
    ensures k < FirstEnd(all) < |all| && packets[0] == all[k] && all[..k] + [all[k]] == all[..k + 1]
    ensures Progress(all, k + 1, arrived + more, packets[1..] + more) && packets[1..] + more != []
  {
    NoEnds(more);
    EndsAppend(arrived, more);
    assert packets[0] == all[k] && k != FirstEnd(all);
    assert packets[1..] + more == all[k + 1..] + (arrived + more);
  }

  lemma {:induction false} ProgressEnds(all: seq<Packet>, k: nat, arrived: seq<Packet>, packets: seq<Packet>)
    requires Progress(all, k, arrived, packets) && packets != [] && packets[0] == End
    ensures k == FirstEnd(all) < |all| && all[k + 1..] <= packets[1..] && Ends(packets[1..]) == Ends(all) - 1
  {
    assert packets[0] == all[k];
    assert packets[1..] == all[k + 1..] + arrived;
    EndsSplit(all, k);
    EndsAppend(all[k + 1..], arrived);
  }

  /** Up to its first End a queue holds one End. */
  lemma {:induction false} EndsSplit(port: seq<Packet>, k: nat)
    requires Ends(port) > 0 && k == FirstEnd(port)
    ensures Ends(port[k + 1..]) == Ends(port) - 1
  {
    if k > 0 {
      EndsSplit(port[1..], k - 1);
      assert port[1..][k..] == port[k + 1..];
    }
  }
}
