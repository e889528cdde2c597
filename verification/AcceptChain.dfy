/** The chain of accepts, thread by thread.  A completed accept does not name the socket it filled;
    the handler reads it from `currentAcceptSocket`, which the handler of the accept before has
    written.  Every access to that field, to the port and to a socket's state is one move. */
module AcceptChain {
  import opened SocketTypes

  /** Where a thread is in `HandleConnection` and, inside it, in `AcceptNewSocket`.  `sock` is the
      socket it picked; it is absent for the user's thread inside `ListenToNewSocket`.  `filled` is
      the socket the system filled, which the thread cannot see. */
  datatype Pc =
    | Free
    | Dequeued(filled: Node)
    | Picked(sock: Option<Node>)
    | Generated(sock: Option<Node>, next: Node)
    | Published(sock: Option<Node>, next: Node)
    | Issued(sock: Option<Node>, next: Node)
    | Accepting(sock: Option<Node>)

  /** `outstanding` and `packets` list the sockets of the accepts the system holds, and of those
      it has completed and no worker has taken. */
  datatype State = State(current: Option<Node>, outstanding: seq<Node>, packets: seq<Node>, threads: seq<Pc>,
                         states: map<Node, SocketState>, accepted: seq<Node>, picked: seq<Node>)

  datatype Move =
    | Arrive(i: nat)                          // a peer connects
    | Refuse(i: nat)                          // the accept completes with an error
    | Dequeue(t: nat)
    | Pick(t: nat)                            // line 286
    | Generate(t: nat, next: Option<Node>)    // lines 657 to 663
    | Publish(t: nat)                         // line 664
    | Issue(t: nat, ok: bool)                 // line 667
    | StoreAccepting(t: nat)                  // line 683
    | StoreConnected(t: nat)                  // line 293

  predicate CanMove(s: State, m: Move) {
    match m
    case Arrive(i) => i < |s.outstanding|
    case Refuse(i) => i < |s.outstanding|
    case Dequeue(t) => t < |s.threads| && s.threads[t].Free? && s.packets != []
    case Pick(t) => t < |s.threads| && s.threads[t].Dequeued?
    case Generate(t, next) => t < |s.threads| && s.threads[t].Picked? && (next.Some? ==> next != s.threads[t].sock)
    case Publish(t) => t < |s.threads| && s.threads[t].Generated?
    case Issue(t, _) => t < |s.threads| && s.threads[t].Published?
    case StoreAccepting(t) => t < |s.threads| && s.threads[t].Issued?
    case StoreConnected(t) => t < |s.threads| && s.threads[t].Accepting?
  }

  function Cut<T>(s: seq<T>, i: nat): seq<T>
    requires i < |s|
  {
    s[..i] + s[i + 1..]
  }

  function Set(s: State, t: nat, pc: Pc): State
    requires t < |s.threads|
  {
    s.(threads := s.threads[t := pc])
  }

  function After(s: State, m: Move): State
    requires CanMove(s, m)
  {
    match m
    case Arrive(i) =>
      s.(outstanding := Cut(s.outstanding, i), packets := s.packets + [s.outstanding[i]],
         accepted := s.accepted + [s.outstanding[i]])
    case Refuse(i) => s.(outstanding := Cut(s.outstanding, i))
    case Dequeue(t) => Set(s, t, Dequeued(s.packets[0])).(packets := s.packets[1..])
    case Pick(t) =>
      Set(s, t, Picked(s.current)).(picked := s.picked + if s.current.Some? then [s.current.value] else [])
    case Generate(t, next) =>
      (match next
       case None => Set(s, t, Accepting(s.threads[t].sock))
       case Some(n) => Set(s, t, Generated(s.threads[t].sock, n)).(states := s.states[n := ASSOCIATED]))
    case Publish(t) => Set(s, t, Published(s.threads[t].sock, s.threads[t].next)).(current := Some(s.threads[t].next))
    case Issue(t, ok) =>
      if ok then
        Set(s, t, Issued(s.threads[t].sock, s.threads[t].next)).(outstanding := s.outstanding + [s.threads[t].next])
      else Set(s, t, Accepting(s.threads[t].sock))
    case StoreAccepting(t) =>
      Set(s, t, Accepting(s.threads[t].sock)).(states := s.states[s.threads[t].next := ACCEPTING])
    case StoreConnected(t) =>
      var sock := s.threads[t].sock;
      Set(s, t, Free).(states := if sock.Some? then s.states[sock.value := CONNECTED] else s.states)
  }

  predicate CanRun(s: State, ms: seq<Move>)
    decreases |ms|
  {
    ms == [] || (CanMove(s, ms[0]) && CanRun(After(s, ms[0]), ms[1..]))
  }

  function RunEnd(s: State, ms: seq<Move>): State
    requires CanRun(s, ms)
    decreases |ms|
  {
    if ms == [] then s else RunEnd(After(s, ms[0]), ms[1..])
  }

  /** The user's thread, number 0, is about to issue the first accept; nobody else is. */
  function Listening(threads: nat): State {
    State(None, [], [], seq(threads, t => if t == 0 then Picked(None) else Free), map[], [], [])
  }

  // ---------- one accept at a time ----------

  /** A thread between taking a completed accept and issuing the next one. */
  predicate Carries(pc: Pc) { pc.Dequeued? || pc.Picked? || pc.Generated? || pc.Published? }

  function Carriers(threads: seq<Pc>): nat {
    if threads == [] then 0 else (if Carries(threads[0]) then 1 else 0) + Carriers(threads[1..])
  }

  lemma {:induction false} CarriersUpdate(threads: seq<Pc>, t: nat, pc: Pc)
    requires t < |threads|
    ensures Carriers(threads[t := pc])
         == Carriers(threads) - (if Carries(threads[t]) then 1 else 0) + (if Carries(pc) then 1 else 0)
  {
    var updated := threads[t := pc];
    if t == 0 {
      assert updated[1..] == threads[1..];
    } else {
      CarriersUpdate(threads[1..], t - 1, pc);
      assert updated[1..] == threads[1..][t - 1 := pc];
    }
  }

  lemma {:induction false} OnlyCarrier(threads: seq<Pc>, t: nat)
    requires t < |threads| && Carries(threads[t])
    ensures Carriers(threads) >= 1
    ensures Carriers(threads) == 1 ==> forall u :: 0 <= u < |threads| && u != t ==> !Carries(threads[u])
  {
    if t > 0 {
      OnlyCarrier(threads[1..], t - 1);
      assert forall u :: 0 < u < |threads| ==> threads[u] == threads[1..][u - 1];
    } else if Carriers(threads) == 1 {
      NoCarrier(threads[1..]);
      assert forall u :: 0 < u < |threads| ==> threads[u] == threads[1..][u - 1];
    }
  }

  lemma {:induction false} NoCarrier(threads: seq<Pc>)
    ensures Carriers(threads) == 0 <==> forall u :: 0 <= u < |threads| ==> !Carries(threads[u])
  {
    if threads != [] {
      NoCarrier(threads[1..]);
      assert forall u :: 0 < u < |threads| ==> threads[u] == threads[1..][u - 1];
      assert forall u :: 0 <= u < |threads[1..]| ==> threads[1..][u] == threads[u + 1];
    }
  }

  /** Accepted connections that no handler has picked up, as the thread sees them. */
  ghost predicate Waits(s: State, rest: seq<Node>) {
    s.accepted == s.picked + rest
  }

  /** There is one accept: with the system, in the port, or with a thread; until the socket it
      fills is picked, that socket is the current one. */
  ghost predicate OneAccept(s: State) {
    && |s.outstanding| + |s.packets| + Carriers(s.threads) <= 1
    && (s.outstanding != [] ==> s.current == Some(s.outstanding[0]))
    && (s.packets != [] ==> s.current == Some(s.packets[0]))
    && (forall t :: 0 <= t < |s.threads| ==> CarrierFits(s, t))
    && (NoneDequeued(s) ==> Waits(s, s.packets))
  }

  ghost predicate CarrierFits(s: State, t: nat)
    requires t < |s.threads|
  {
    && (s.threads[t].Dequeued? ==> s.current == Some(s.threads[t].filled) && Waits(s, [s.threads[t].filled]))
    && (s.threads[t].Published? ==> s.current == Some(s.threads[t].next))
  }

  lemma {:induction false} MoveKeepsOneAccept(s: State, m: Move)
    requires OneAccept(s) && CanMove(s, m)
    ensures OneAccept(After(s, m))
  {
    match m {
      case Arrive(i) => SystemKeeps(s, m);
      case Refuse(i) => SystemKeeps(s, m);
      case Dequeue(t) => DequeueKeeps(s, t);
      case _ =>
        if Carries(s.threads[m.t]) {
          CarrierKeeps(s, m);
        } else {
          OthersKeep(s, m);
        }
    }
  }

  lemma {:induction false} SystemKeeps(s: State, m: Move)
    requires OneAccept(s) && CanMove(s, m) && (m.Arrive? || m.Refuse?)
    ensures OneAccept(After(s, m))
  {
    NoCarrier(s.threads);
    assert s.outstanding == [s.outstanding[0]] && m.i == 0 && s.packets == [];
    assert Waits(s, []);
  }

  lemma {:induction false} DequeueKeeps(s: State, t: nat)
    requires OneAccept(s) && CanMove(s, Dequeue(t))
    ensures OneAccept(After(s, Dequeue(t)))
  {
    NoCarrier(s.threads);
    CarriersUpdate(s.threads, t, Dequeued(s.packets[0]));
    assert s.packets == [s.packets[0]];
    assert After(s, Dequeue(t)).threads[t].Dequeued?;
    assert forall u :: 0 <= u < |s.threads| ==> !Carries(s.threads[u]);
  }

  lemma {:induction false} CarrierKeeps(s: State, m: Move)
    requires OneAccept(s) && CanMove(s, m) && !m.Arrive? && !m.Refuse? && !m.Dequeue? && Carries(s.threads[m.t])
    ensures OneAccept(After(s, m))
  {
    var s' := After(s, m);
    OnlyCarrier(s.threads, m.t);
    CarriersUpdate(s.threads, m.t, s'.threads[m.t]);
    assert CarrierFits(s, m.t);
    assert s'.threads[m.t].Dequeued? == false;
    assert forall u :: 0 <= u < |s.threads| && u != m.t ==> s'.threads[u] == s.threads[u] && !Carries(s.threads[u]);
    assert m.Pick? ==> s.accepted == s'.picked + [];
  }

  lemma {:induction false} OthersKeep(s: State, m: Move)
    requires OneAccept(s) && CanMove(s, m) && (m.StoreAccepting? || m.StoreConnected?)
    ensures OneAccept(After(s, m))
  {
    var s' := After(s, m);
    CarriersUpdate(s.threads, m.t, s'.threads[m.t]);
    forall u | 0 <= u < |s'.threads|
      ensures CarrierFits(s', u)
    {
      assert CarrierFits(s, u);
    }
    assert !s.threads[m.t].Dequeued?;
    if NoneDequeued(s') {
      assert NoneDequeued(s) by {
        forall t | 0 <= t < |s.threads|
          ensures !s.threads[t].Dequeued?
        {
          assert t != m.t ==> s'.threads[t] == s.threads[t];
        }
      }
    }
  }

  lemma {:induction false} RunKeepsOneAccept(s: State, ms: seq<Move>)
    requires OneAccept(s) && CanRun(s, ms)
    ensures OneAccept(RunEnd(s, ms))
    decreases |ms|
  {
    hide OneAccept;
    if ms != [] {
      MoveKeepsOneAccept(s, ms[0]);
      RunKeepsOneAccept(After(s, ms[0]), ms[1..]);
    }
  }

  lemma {:induction false} ListeningHasOne(threads: nat)
    requires threads >= 1
    ensures OneAccept(Listening(threads))
  {
    var ts := Listening(threads).threads;
    NoCarrier(ts[1..]);
  }

  /** After one `ListenToNewSocket`, in every interleaving of any number of threads: at most one
      accept is outstanding; `currentAcceptSocket` is the socket passed to it, from the call until a
      handler reads it; and the sockets picked up by handlers are the sockets the system filled,
      in order, each once, the last one at most not yet. */
  lemma {:induction false} EachAcceptedOnce(threads: nat, ms: seq<Move>)
    requires threads >= 1 && CanRun(Listening(threads), ms)
    ensures var s := RunEnd(Listening(threads), ms);
            && |s.outstanding| + |s.packets| <= 1
            && (forall a :: a in s.outstanding || a in s.packets ==> s.current == Some(a))
            && (forall t :: 0 <= t < |s.threads| && s.threads[t].Dequeued? ==> s.current == Some(s.threads[t].filled))
            && s.picked <= s.accepted && |s.accepted| <= |s.picked| + 1
            && (s.packets == [] && NoneDequeued(s) ==> s.picked == s.accepted)
  {
    hide OneAccept, RunEnd, CanRun, Listening;
    ListeningHasOne(threads);
    RunKeepsOneAccept(Listening(threads), ms);
    OneAcceptMeans(RunEnd(Listening(threads), ms));
  }

  /** No thread has taken a completed accept without having picked its socket up. */
  ghost predicate NoneDequeued(s: State) {
    forall t :: 0 <= t < |s.threads| ==> !s.threads[t].Dequeued?
  }

  lemma {:induction false} OneAcceptMeans(s: State)
    requires OneAccept(s)
    ensures |s.outstanding| + |s.packets| <= 1
    ensures forall a :: a in s.outstanding || a in s.packets ==> s.current == Some(a)
    ensures forall t :: 0 <= t < |s.threads| && s.threads[t].Dequeued? ==> s.current == Some(s.threads[t].filled)
    ensures s.picked <= s.accepted && |s.accepted| <= |s.picked| + 1
    ensures s.packets == [] && NoneDequeued(s) ==> s.picked == s.accepted
  {
    forall t | 0 <= t < |s.threads| && s.threads[t].Dequeued?
      ensures s.current == Some(s.threads[t].filled) && s.accepted == s.picked + [s.threads[t].filled]
    {
      assert CarrierFits(s, t);
    }
    assert NoneDequeued(s) ==> s.accepted == s.picked + s.packets;
  }

  // ---------- the late store ----------

  /** The move stores ACCEPTING into a socket that is connected. */
  predicate Overwrites(s: State, m: Move)
    requires CanMove(s, m)
  {
    m.StoreAccepting? && s.threads[m.t].next in s.states && s.states[s.threads[m.t].next] == CONNECTED
  }

  predicate NeverOverwrites(s: State, ms: seq<Move>)
    requires CanRun(s, ms)
    decreases |ms|
  {
    ms == [] || (!Overwrites(s, ms[0]) && NeverOverwrites(After(s, ms[0]), ms[1..]))
  }

  /** With one thread: a socket it is about to mark ACCEPTING is as it left it. */
  ghost predicate Alone(s: State) {
    && |s.threads| == 1
    && (var pc := s.threads[0];
        pc.Generated? || pc.Published? || pc.Issued? ==>
          pc.sock != Some(pc.next) && pc.next in s.states && s.states[pc.next] == ASSOCIATED)
  }

  lemma {:induction false} AloneNeverOverwrites(s: State, ms: seq<Move>)
    requires Alone(s) && CanRun(s, ms)
    ensures NeverOverwrites(s, ms)
    decreases |ms|
  {
    if ms != [] {
      assert Alone(After(s, ms[0]));
      AloneNeverOverwrites(After(s, ms[0]), ms[1..]);
    }
  }

  /** The peer connects and is served before the thread that issued the accept stores ACCEPTING. */
  const ISSUED := [Generate(0, Some(7)), Move.Publish(0), Issue(0, true)]
  const SERVED := [Arrive(0), Dequeue(1), Pick(1)]
  const STORED := [Generate(1, None), StoreConnected(1), StoreAccepting(0)]

  lemma {:induction false} ThreeMoves(s: State, a: Move, b: Move, c: Move)
    requires CanMove(s, a) && CanMove(After(s, a), b) && CanMove(After(After(s, a), b), c)
    ensures CanRun(s, [a, b, c]) && RunEnd(s, [a, b, c]) == After(After(After(s, a), b), c)
    ensures Overwrites(After(After(s, a), b), c) ==> !NeverOverwrites(s, [a, b, c])
  {
    var s1, s2 := After(s, a), After(After(s, a), b);
    assert [a, b, c][1..] == [b, c] && [b, c][1..] == [c] && [c][1..] == [];
    StepBack(s2, [c]);
    StepBack(s1, [b, c]);
    StepBack(s, [a, b, c]);
  }

  lemma {:induction false} StepBack(s: State, ms: seq<Move>)
    requires ms != [] && CanMove(s, ms[0]) && CanRun(After(s, ms[0]), ms[1..])
    ensures CanRun(s, ms) && RunEnd(s, ms) == RunEnd(After(s, ms[0]), ms[1..])
    ensures NeverOverwrites(s, ms) <==> !Overwrites(s, ms[0]) && NeverOverwrites(After(s, ms[0]), ms[1..])
  {
  }

  lemma {:induction false} RunJoin(s: State, ms: seq<Move>, ns: seq<Move>)
    requires CanRun(s, ms) && CanRun(RunEnd(s, ms), ns)
    ensures CanRun(s, ms + ns) && RunEnd(s, ms + ns) == RunEnd(RunEnd(s, ms), ns)
    ensures !NeverOverwrites(RunEnd(s, ms), ns) ==> !NeverOverwrites(s, ms + ns)
    decreases |ms|
  {
    if ms == [] {
      assert ms + ns == ns;
    } else {
      assert (ms + ns)[1..] == ms[1..] + ns;
      RunJoin(After(s, ms[0]), ms[1..], ns);
    }
  }

  lemma {:induction false} IssuedFirst(s: State)
    requires |s.threads| >= 2 && s.threads[0] == Picked(None) && s.threads[1].Free? && s.outstanding == []
    requires s.packets == []
    ensures CanRun(s, ISSUED)
    ensures var s' := RunEnd(s, ISSUED);
            && |s'.threads| >= 2 && s'.threads[0] == Issued(None, 7) && s'.threads[1].Free?
            && s'.current == Some(7) && s'.outstanding == [7] && s'.packets == [] && s'.picked == s.picked
  {
    ThreeMoves(s, ISSUED[0], ISSUED[1], ISSUED[2]);
  }

  lemma {:induction false} ServedNext(s: State)
    requires |s.threads| >= 2 && s.threads[0] == Issued(None, 7) && s.threads[1].Free?
    requires s.current == Some(7) && s.outstanding == [7] && s.packets == []
    ensures CanRun(s, SERVED)
    ensures var s' := RunEnd(s, SERVED);
            |s'.threads| >= 2 && s'.threads[0] == Issued(None, 7) && s'.threads[1] == Picked(Some(7)) &&
              s'.picked == s.picked + [7]
  {
    ThreeMoves(s, SERVED[0], SERVED[1], SERVED[2]);
  }

  lemma {:induction false} StoredLast(s: State)
    requires |s.threads| >= 2 && s.threads[0] == Issued(None, 7) && s.threads[1] == Picked(Some(7))
    ensures CanRun(s, STORED) && !NeverOverwrites(s, STORED)
    ensures var s' := RunEnd(s, STORED); s'.picked == s.picked && 7 in s'.states && s'.states[7] == ACCEPTING
  {
    ThreeMoves(s, STORED[0], STORED[1], STORED[2]);
  }

  /** With two threads a socket that was picked up and connected ends up marked ACCEPTING. */
  lemma {:induction false} LateOverwrites(threads: nat) returns (ms: seq<Move>)
    requires threads >= 2
    ensures CanRun(Listening(threads), ms) && !NeverOverwrites(Listening(threads), ms)
    ensures var s := RunEnd(Listening(threads), ms); s.picked == [7] && 7 in s.states && s.states[7] == ACCEPTING
  {
    hide CanRun, RunEnd, NeverOverwrites;
    var s := Listening(threads);
    IssuedFirst(s);
    ServedNext(RunEnd(s, ISSUED));
    StoredLast(RunEnd(RunEnd(s, ISSUED), SERVED));
    RunJoin(s, ISSUED, SERVED);
    RunJoin(s, ISSUED + SERVED, STORED);
    ms := ISSUED + SERVED + STORED;
  }

  // ---------- which runs ----------

  /** What the last store of the run into the state of socket `a` was, as far as CONNECTED goes; `was` is
      what it held before. */
  predicate LastConnects(s: State, ms: seq<Move>, a: Node, was: bool)
    requires CanRun(s, ms)
    decreases |ms|
  {
    if ms == [] then was
    else
      var now := match ms[0]
        case StoreConnected(t) => was || s.threads[t].sock == Some(a)
        case StoreAccepting(t) => was && s.threads[t].next != a
        case Generate(_, next) => was && next != Some(a)
        case _ => was;
      LastConnects(After(s, ms[0]), ms[1..], a, now)
  }

  lemma {:induction false} LastIsHeld(s: State, ms: seq<Move>, a: Node, was: bool)
    requires CanRun(s, ms) && (was <==> a in s.states && s.states[a] == CONNECTED)
    ensures var s' := RunEnd(s, ms); LastConnects(s, ms, a, was) <==> a in s'.states && s'.states[a] == CONNECTED
    decreases |ms|
  {
    if ms != [] {
      var s1 := After(s, ms[0]);
      LastIsHeld(s1, ms[1..], a, a in s1.states && s1.states[a] == CONNECTED);
    }
  }

  /** In any run, whatever nodes it uses again: the store of ACCEPTING overwrites CONNECTED if and only if a
      handler marked the socket CONNECTED after it was last generated, and no ACCEPTING was stored since. */
  lemma {:induction false} OverwritesIff(threads: nat, ms: seq<Move>, t: nat)
    requires CanRun(Listening(threads), ms) && CanMove(RunEnd(Listening(threads), ms), StoreAccepting(t))
    ensures var s := RunEnd(Listening(threads), ms);
            Overwrites(s, StoreAccepting(t)) <==> LastConnects(Listening(threads), ms, s.threads[t].next, false)
  {
    var s := RunEnd(Listening(threads), ms);
    LastIsHeld(Listening(threads), ms, s.threads[t].next, false);
  }

  predicate HasNext(pc: Pc) { pc.Generated? || pc.Published? || pc.Issued? }

  /** No socket is generated while a thread has yet to mark it ACCEPTING. */
  predicate ProperRun(s: State, ms: seq<Move>)
    requires CanRun(s, ms)
    decreases |ms|
  {
    ms == [] || (Proper(s, ms[0]) && ProperRun(After(s, ms[0]), ms[1..]))
  }

  predicate Proper(s: State, m: Move) {
    m.Generate? && m.next.Some? ==>
      forall t :: 0 <= t < |s.threads| && HasNext(s.threads[t]) ==> s.threads[t].next != m.next.value
  }

  /** Some handler marks the socket it picked up, `a`, as CONNECTED, after `a` was last generated. */
  predicate ConnectsSince(s: State, ms: seq<Move>, a: Node, was: bool)
    requires CanRun(s, ms)
    decreases |ms|
  {
    if ms == [] then was else ConnectsSince(After(s, ms[0]), ms[1..], a, Now(s, ms[0], a, was))
  }

  predicate Now(s: State, m: Move, a: Node, was: bool)
    requires CanMove(s, m)
  {
    if m.Generate? && m.next == Some(a) then false
    else was || (m.StoreConnected? && s.threads[m.t].sock == Some(a))
  }

  /** Sockets about to be accepted are known, one thread each. */
  ghost predicate Known(s: State) {
    && (forall t :: 0 <= t < |s.threads| && HasNext(s.threads[t]) ==> s.threads[t].next in s.states)
    && (forall t, u :: 0 <= t < u < |s.threads| && HasNext(s.threads[t]) && HasNext(s.threads[u]) ==>
          s.threads[t].next != s.threads[u].next)
  }

  /** While the thread that issued `a` has not stored ACCEPTING, `a` is CONNECTED just if a handler said so. */
  ghost predicate Tracks(s: State, a: Node, connected: bool) {
    && Known(s)
    && forall t :: 0 <= t < |s.threads| && HasNext(s.threads[t]) && s.threads[t].next == a ==>
         (s.states[a] == CONNECTED <==> connected)
  }

  lemma {:induction false} MoveTracks(s: State, m: Move, a: Node, connected: bool)
    requires Tracks(s, a, connected) && CanMove(s, m) && Proper(s, m)
    ensures Tracks(After(s, m), a, Now(s, m, a, connected))
  {
    MoveKnown(s, m);
  }

  lemma {:induction false} MoveKnown(s: State, m: Move)
    requires Known(s) && CanMove(s, m) && Proper(s, m)
    ensures Known(After(s, m))
  {
  }

  lemma {:induction false} RunTracks(s: State, ms: seq<Move>, a: Node, connected: bool)
    requires Tracks(s, a, connected) && CanRun(s, ms) && ProperRun(s, ms)
    ensures Tracks(RunEnd(s, ms), a, ConnectsSince(s, ms, a, connected))
    decreases |ms|
  {
    hide Tracks, Now, Proper;
    if ms != [] {
      MoveTracks(s, ms[0], a, connected);
      RunTracks(After(s, ms[0]), ms[1..], a, Now(s, ms[0], a, connected));
    }
  }

  /** In any run in which a socket is used again only after its thread has stored ACCEPTING: the store
      overwrites CONNECTED if and only if the handler that picked the socket up came first. */
  lemma {:induction false} OverwritesSinceIff(threads: nat, ms: seq<Move>, t: nat)
    requires CanRun(Listening(threads), ms) && ProperRun(Listening(threads), ms)
    requires CanMove(RunEnd(Listening(threads), ms), StoreAccepting(t))
    ensures var s := RunEnd(Listening(threads), ms);
            Overwrites(s, StoreAccepting(t)) <==> ConnectsSince(Listening(threads), ms, s.threads[t].next, false)
  {
    var s := RunEnd(Listening(threads), ms);
    RunTracks(Listening(threads), ms, s.threads[t].next, false);
  }

  /** ACCEPTING is never stored over CONNECTED, in any run, exactly when a single thread issues and
      completes the accepts; the user's thread and one worker are already too many. */
  lemma {:induction false} NeverOverwritesIff(threads: nat)
    requires threads >= 1
    ensures (forall ms :: CanRun(Listening(threads), ms) ==> NeverOverwrites(Listening(threads), ms)) <==> threads == 1
  {
    if threads == 1 {
      forall ms | CanRun(Listening(threads), ms)
        ensures NeverOverwrites(Listening(threads), ms)
      {
        AloneNeverOverwrites(Listening(threads), ms);
      }
    } else {
      var ms := LateOverwrites(threads);
    }
  }
}
