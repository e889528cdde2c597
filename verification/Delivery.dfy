/** How received bytes reach the user when any number of workers serve the completion port: one
    connection, the peer's stream of bytes, and the reads that carry it.  Every step a worker makes
    between two unlocked points is one move. */
module Delivery {
  import opened SocketTypes

  type Block = seq<char>

  /** A worker of the port: free, with a completed read before the callback, inside the callback,
      or past it and about to post the buffer again. */
  datatype Worker = Free | Has(block: Block) | Delivering(block: Block) | Returned

  /** `reading` counts the reads the system holds; `arrived` is the completed reads that no worker
      has taken; `taken` says how far the system has read the peer's stream. */
  datatype State = State(stream: seq<char>, taken: nat, reading: nat, arrived: seq<Block>,
                         workers: seq<Worker>, connected: bool, delivered: seq<char>)

  datatype Move =
    | Arrive(n: nat)                  // the system completes a read with n bytes
    | Dequeue(w: nat)
    | BeginReceive(w: nat)            // `ReceiveData` is called, or the read was empty
    | EndReceive(w: nat)
    | Repost(w: nat, ok: bool)        // lines 240 to 247
    | Disconnected                    // some other handler or the user changes the state

  predicate CanMove(s: State, m: Move) {
    match m
    case Arrive(n) => s.reading > 0 && n <= DEFAULT_BUFFER_SIZE && s.taken + n <= |s.stream|
    case Dequeue(w) => w < |s.workers| && s.workers[w].Free? && s.arrived != []
    case BeginReceive(w) => w < |s.workers| && s.workers[w].Has?
    case EndReceive(w) => w < |s.workers| && s.workers[w].Delivering?
    case Repost(w, _) => w < |s.workers| && s.workers[w].Returned?
    case Disconnected => true
  }

  function Set(s: State, w: nat, x: Worker): State
    requires w < |s.workers|
  {
    s.(workers := s.workers[w := x])
  }

  function After(s: State, m: Move): State
    requires CanMove(s, m)
  {
    match m
    case Arrive(n) =>
      s.(taken := s.taken + n, reading := s.reading - 1, arrived := s.arrived + [s.stream[s.taken..s.taken + n]])
    case Dequeue(w) => Set(s, w, Has(s.arrived[0])).(arrived := s.arrived[1..])
    case BeginReceive(w) =>
      var block := s.workers[w].block;
      if block == [] then Set(s, w, Free).(connected := false)
      else Set(s, w, Delivering(block)).(delivered := s.delivered + block)
    case EndReceive(w) => Set(s, w, Returned)
    case Repost(w, ok) =>
      if s.connected && ok then Set(s, w, Free).(reading := s.reading + 1)
      else Set(s, w, Free).(connected := false)
    case Disconnected => s.(connected := false)
  }

  predicate CanRun(s: State, ms: seq<Move>)
    decreases |ms|
  {
    ms == [] || (CanMove(s, ms[0]) && CanRun(After(s, ms[0]), ms[1..]))
  }

  function RunEnd(s: State, ms: seq<Move>): State
    requires CanRun(s, ms)
    decreases |ms|
  {
    if ms == [] then s else RunEnd(After(s, ms[0]), ms[1..])
  }

  /** A connection for which `posted` reads have been posted. */
  function Connected(stream: seq<char>, workers: nat, posted: nat): State {
    State(stream, 0, posted, [], seq(workers, _ => Free), true, [])
  }

  // ---------- where the read is ----------

  function Busy(workers: seq<Worker>): nat {
    if workers == [] then 0 else (if workers[0].Free? then 0 else 1) + Busy(workers[1..])
  }

  /** What busy workers have taken from the port and not given to the user. */
  function Carried(workers: seq<Worker>): seq<char> {
    if workers == [] then [] else (if workers[0].Has? then workers[0].block else []) + Carried(workers[1..])
  }

  function Concat(blocks: seq<Block>): seq<char> {
    if blocks == [] then [] else blocks[0] + Concat(blocks[1..])
  }

  lemma {:induction false} BusyUpdate(workers: seq<Worker>, w: nat, x: Worker)
    requires w < |workers|
    ensures Busy(workers[w := x]) == Busy(workers) - (if workers[w].Free? then 0 else 1) + (if x.Free? then 0 else 1)
  {
    var updated := workers[w := x];
    if w == 0 {
      assert updated[1..] == workers[1..];
    } else {
      BusyUpdate(workers[1..], w - 1, x);
      assert updated[1..] == workers[1..][w - 1 := x];
    }
  }

  lemma {:induction false} NoneCarries(workers: seq<Worker>)
    requires Busy(workers) == 0
    ensures Carried(workers) == []
  {
    if workers != [] {
      NoneCarries(workers[1..]);
    }
  }

  lemma {:induction false} OneCarries(workers: seq<Worker>, w: nat)
    requires w < |workers| && !workers[w].Free? && Busy(workers) <= 1
    ensures Carried(workers) == if workers[w].Has? then workers[w].block else []
    ensures forall u :: 0 <= u < |workers| && u != w ==> workers[u].Free?
  {
    if w == 0 {
      NoneCarries(workers[1..]);
      AllFree(workers[1..]);
      assert forall u :: 0 < u < |workers| ==> workers[u] == workers[1..][u - 1];
    } else {
      BusySome(workers[1..], w - 1);
      OneCarries(workers[1..], w - 1);
      assert forall u :: 0 < u < |workers| ==> workers[u] == workers[1..][u - 1];
    }
  }

  lemma {:induction false} BusySome(workers: seq<Worker>, w: nat)
    requires w < |workers| && !workers[w].Free?
    ensures Busy(workers) >= 1
  {
    if w > 0 {
      BusySome(workers[1..], w - 1);
    }
  }

  lemma {:induction false} AllFree(workers: seq<Worker>)
    requires Busy(workers) == 0
    ensures forall u :: 0 <= u < |workers| ==> workers[u].Free?
  {
    if workers != [] {
      AllFree(workers[1..]);
      assert forall u :: 0 < u < |workers| ==> workers[u] == workers[1..][u - 1];
    }
  }

  /** There is one read: with the system, in the port, or with a worker; and what was delivered,
      what a worker carries and what waits in the port make up what the system has read. */
  ghost predicate OneRead(s: State) {
    && s.reading + |s.arrived| + Busy(s.workers) <= 1
    && s.taken <= |s.stream|
    && s.delivered + Carried(s.workers) + Concat(s.arrived) == s.stream[..s.taken]
  }

  lemma {:induction false} MoveKeepsOneRead(s: State, m: Move)
    requires OneRead(s) && CanMove(s, m)
    ensures OneRead(After(s, m)) && After(s, m).stream == s.stream
  {
    match m {
      case Arrive(n) => ArriveKeeps(s, n);
      case Dequeue(w) => DequeueKeeps(s, w);
      case Disconnected =>
      case _ => WorkerKeeps(s, m);
    }
  }

  lemma {:induction false} ArriveKeeps(s: State, n: nat)
    requires OneRead(s) && CanMove(s, Arrive(n))
    ensures OneRead(After(s, Arrive(n)))
  {
    var block := s.stream[s.taken..s.taken + n];
    NoneCarries(s.workers);
    assert s.arrived == [] && Concat(s.arrived) == [];
    assert [block][1..] == [];
    assert Concat([block]) == block;
    assert s.stream[..s.taken] + block == s.stream[..s.taken + n];
  }

  lemma {:induction false} DequeueKeeps(s: State, w: nat)
    requires OneRead(s) && CanMove(s, Dequeue(w))
    ensures OneRead(After(s, Dequeue(w)))
  {
    var s', block := After(s, Dequeue(w)), s.arrived[0];
    BusyUpdate(s.workers, w, Has(block));
    NoneCarries(s.workers);
    OneCarries(s'.workers, w);
    assert s.arrived == [block] && s.arrived[1..] == [];
    assert Concat(s.arrived) == block + Concat(s.arrived[1..]);
  }

  lemma {:induction false} WorkerKeeps(s: State, m: Move)
    requires OneRead(s) && CanMove(s, m) && (m.BeginReceive? || m.EndReceive? || m.Repost?)
    ensures OneRead(After(s, m))
  {
    var s' := After(s, m);
    BusyUpdate(s.workers, m.w, s'.workers[m.w]);
    BusySome(s.workers, m.w);
    OneCarries(s.workers, m.w);
    if s'.workers[m.w].Free? {
      NoneCarries(s'.workers);
    } else {
      OneCarries(s'.workers, m.w);
    }
  }

  lemma {:induction false} RunKeepsOneRead(s: State, ms: seq<Move>)
    requires OneRead(s) && CanRun(s, ms)
    ensures OneRead(RunEnd(s, ms)) && RunEnd(s, ms).stream == s.stream
    decreases |ms|
  {
    hide OneRead;
    if ms != [] {
      MoveKeepsOneRead(s, ms[0]);
      RunKeepsOneRead(After(s, ms[0]), ms[1..]);
    }
  }

  lemma {:induction false} NoneBusy(workers: seq<Worker>)
    requires forall u :: 0 <= u < |workers| ==> workers[u].Free?
    ensures Busy(workers) == 0
  {
    if workers != [] {
      NoneBusy(workers[1..]);
    }
  }

  ghost predicate AtMostOneReceives(s: State) {
    forall u, v :: 0 <= u < v < |s.workers| ==> !(s.workers[u].Delivering? && s.workers[v].Delivering?)
  }

  /** However the system splits the peer's stream and whichever workers serve the port: the callback
      never overlaps itself, at most one read is with the system, and the blocks delivered so far,
      put end to end, are a prefix of the stream, short of what the system has read only by the
      block on its way. */
  lemma {:induction false} DeliveredInOrder(stream: seq<char>, workers: nat, ms: seq<Move>)
    requires CanRun(Connected(stream, workers, 1), ms)
    ensures var s := RunEnd(Connected(stream, workers, 1), ms);
            && AtMostOneReceives(s) && s.reading <= 1
            && s.delivered <= stream && s.taken <= |stream|
            && s.delivered + Carried(s.workers) + Concat(s.arrived) == stream[..s.taken]
  {
    var s0 := Connected(stream, workers, 1);
    NoneBusy(s0.workers);
    NoneCarries(s0.workers);
    RunKeepsOneRead(s0, ms);
    var s := RunEnd(s0, ms);
    forall u, v | 0 <= u < v < |s.workers|
      ensures !(s.workers[u].Delivering? && s.workers[v].Delivering?)
    {
      if !s.workers[u].Free? {
        OneCarries(s.workers, u);
      }
    }
  }

  // ---------- more than one read ----------

  /** Two reads and two workers: the second block is delivered first. */
  const OVERTAKING := [Arrive(1), Arrive(1), Dequeue(0), Dequeue(1), BeginReceive(1)]

  lemma {:induction false} SecondBlockFirst(posted: nat, workers: nat)
    requires posted >= 2 && workers >= 2
    ensures var s := Connected(['a', 'b'], workers, posted);
            CanRun(s, OVERTAKING) && RunEnd(s, OVERTAKING).delivered == ['b']
  {
    var s0 := Connected(['a', 'b'], workers, posted);
    var s1 := After(s0, Arrive(1));
    var s2 := After(s1, Arrive(1));
    assert s1.arrived == [s0.stream[0..1]] && s2.arrived == s1.arrived + [s0.stream[1..2]];
    assert s0.stream[0..1] == ['a'] && s0.stream[1..2] == ['b'];
    assert s2.arrived == [['a'], ['b']];
    var s3 := After(s2, Dequeue(0));
    assert s3.arrived == [['b']];
    var s4 := After(s3, Dequeue(1));
    assert s4.workers[1] == Has(['b']);
    var s5 := After(s4, BeginReceive(1));
    assert OVERTAKING[1..] == [Arrive(1), Dequeue(0), Dequeue(1), BeginReceive(1)];
    assert OVERTAKING[1..][1..] == [Dequeue(0), Dequeue(1), BeginReceive(1)];
    assert OVERTAKING[1..][1..][1..] == [Dequeue(1), BeginReceive(1)];
    assert OVERTAKING[1..][1..][1..][1..] == [BeginReceive(1)];
    assert OVERTAKING[1..][1..][1..][1..][1..] == [];
    assert CanRun(s5, []);
    assert CanRun(s4, [BeginReceive(1)]);
    assert CanRun(s3, [Dequeue(1), BeginReceive(1)]);
    assert CanRun(s2, [Dequeue(0), Dequeue(1), BeginReceive(1)]);
  }

  lemma {:induction false} NoReadNoDelivery(stream: seq<char>, workers: nat, ms: seq<Move>)
    requires CanRun(Connected(stream, workers, 0), ms)
    ensures RunEnd(Connected(stream, workers, 0), ms).delivered <= stream
  {
    var s0 := Connected(stream, workers, 0);
    NoneBusy(s0.workers);
    NoneCarries(s0.workers);
    RunKeepsOneRead(s0, ms);
  }

  /** With two workers or more, every run delivers in order exactly when at most one read is
      posted: the single receive in flight is what the order rests on. */
  lemma {:induction false} InOrderIff(workers: nat, posted: nat)
    requires workers >= 2
    ensures (forall stream, ms :: CanRun(Connected(stream, workers, posted), ms) ==>
               RunEnd(Connected(stream, workers, posted), ms).delivered <= stream) <==> posted <= 1
  {
    if posted <= 1 {
      forall stream, ms | CanRun(Connected(stream, workers, posted), ms)
        ensures RunEnd(Connected(stream, workers, posted), ms).delivered <= stream
      {
        if posted == 1 {
          DeliveredInOrder(stream, workers, ms);
        } else {
          NoReadNoDelivery(stream, workers, ms);
        }
      }
    } else {
      SecondBlockFirst(posted, workers);
      var late := RunEnd(Connected(['a', 'b'], workers, posted), OVERTAKING).delivered;
      assert late[0] != ['a', 'b'][0];
    }
  }
}
