/** Threads that run handlers side by side never wait for each other in a circle.

    Each thread runs a program: the lock events of one handler, in order.  A program obeys the
    discipline of `LockDiscipline`, which every handler does (`HandlersObey`). */
module Deadlock {
  import opened SocketTypes
  import opened Engine
  import opened EngineInvariant
  import opened LockDiscipline

  /** Where a socket is, as far as retries are concerned: with a connection pending, being
      retried by a thread, taken by a thread that alone can name it, or anywhere else. */
  datatype Place = Elsewhere | Connecting | Retried(thread: nat) | Taken(thread: nat)

  datatype Thread = Thread(main: Option<Node>, done: seq<Event>, todo: seq<Event>) {
    function Held(): seq<Lock> { Follow(NOTHING_HELD, done, main).held }
    function Mine(): Option<Node> { Follow(NOTHING_HELD, done, main).mine }
  }

  datatype State = State(threads: seq<Thread>, places: map<Node, Place>) {
    function PlaceOf(n: Node): Place { if n in places then places[n] else Elsewhere }

    ghost predicate Has(u: nat, l: Lock) { u < |threads| && l in threads[u].Held() }

    /** No other thread holds the lock. */
    ghost predicate Available(t: nat, l: Lock) { forall u :: u != t ==> !Has(u, l) }
  }

  ghost predicate Obeys(program: seq<Event>, main: Option<Node>) {
    var h := Follow(NOTHING_HELD, program, main);
    h.ok && h.held == []
  }

  datatype Move =
    | Begin(t: nat, program: seq<Event>, main: Option<Node>)
    | Advance(t: nat)
    | Connected(n: Node)

  /** A thread begins a handler; a retry needs a connection that is pending on its socket, and
      takes that completion away.  A thread takes only a socket that nobody else is connecting,
      retrying or has taken. */
  ghost predicate CanMove(s: State, m: Move) {
    match m
    case Begin(t, program, main) =>
      && t < |s.threads| && s.threads[t].todo == [] && Obeys(program, main)
      && (main.Some? ==> s.PlaceOf(main.value) == Connecting)
    case Advance(t) =>
      && t < |s.threads| && s.threads[t].todo != []
      && (match s.threads[t].todo[0]
          case Enter(l) => s.Available(t, l)
          case Take(n) => s.PlaceOf(n) == Elsewhere
          case _ => true)
    case Connected(n) => s.PlaceOf(n) == Connecting
  }

  /** What thread `t` had taken or was retrying is released when its next handler begins. */
  function Released(places: map<Node, Place>, t: nat): map<Node, Place> {
    map n | n in places && places[n] != Retried(t) && places[n] != Taken(t) :: places[n]
  }

  ghost function After(s: State, m: Move): State
    requires CanMove(s, m)
  {
    match m
    case Begin(t, program, main) =>
      var places := Released(s.places, t);
      State(s.threads[t := Thread(main, [], program)],
            if main.Some? then places[main.value := Retried(t)] else places)
    case Advance(t) =>
      var th := s.threads[t];
      var e := th.todo[0];
      State(s.threads[t := Thread(th.main, th.done + [e], th.todo[1..])],
            match e
            case Take(n) => s.places[n := Taken(t)]
            case Publish(n) => s.places[n := Connecting]
            case _ => s.places)
    case Connected(n) => s.(places := s.places[n := Elsewhere])
  }

  // ---------- the discipline along a program ----------

  lemma {:induction false} FollowAppend(h: Hold, a: seq<Event>, e: Event, main: Option<Node>)
    ensures Follow(h, a + [e], main) == Next(Follow(h, a, main), e, main)
  {
    assert (a + [e])[..|a|] == a;
  }

  lemma {:induction false} FollowJoin(h: Hold, a: seq<Event>, b: seq<Event>, main: Option<Node>)
    ensures Follow(h, a + b, main) == Follow(Follow(h, a, main), b, main)
    decreases |b|
  {
    if b == [] {
      assert a + b == a;
    } else {
      var front, e := b[..|b| - 1], b[|b| - 1];
      FollowJoin(h, a, front, main);
      assert a + b == (a + front) + [e];
      FollowAppend(h, a + front, e, main);
    }
  }

  lemma {:induction false} OkBefore(h: Hold, es: seq<Event>, main: Option<Node>)
    requires Follow(h, es, main).ok
    ensures h.ok
    decreases |es|
  {
    if es != [] {
      OkBefore(h, es[..|es| - 1], main);
    }
  }

  // ---------- the invariant ----------

  ghost predicate ThreadOk(s: State, t: nat)
    requires t < |s.threads|
  {
    var th := s.threads[t];
    && Obeys(th.done + th.todo, th.main)
    && (th.todo != [] && th.main.Some? ==> s.PlaceOf(th.main.value) == Retried(t))
    && (th.todo != [] && th.Mine().Some? ==> s.PlaceOf(th.Mine().value) == Taken(t))
  }

  ghost predicate SafeState(s: State) {
    && (forall t :: 0 <= t < |s.threads| ==> ThreadOk(s, t))
    && (forall t, u, l :: t != u && s.Has(t, l) ==> !s.Has(u, l))
  }

  /** The next event of a running thread is one the discipline allows. */
  lemma {:induction false} NextOk(s: State, t: nat)
    requires t < |s.threads| && ThreadOk(s, t) && s.threads[t].todo != []
    ensures var th := s.threads[t];
            && Follow(NOTHING_HELD, th.done, th.main).ok
            && Next(Follow(NOTHING_HELD, th.done, th.main), th.todo[0], th.main).ok
            && Obeys((th.done + [th.todo[0]]) + th.todo[1..], th.main)
  {
    var th := s.threads[t];
    var e := th.todo[0];
    assert th.done + th.todo == (th.done + [e]) + th.todo[1..];
    FollowJoin(NOTHING_HELD, th.done + [e], th.todo[1..], th.main);
    OkBefore(Follow(NOTHING_HELD, th.done + [e], th.main), th.todo[1..], th.main);
    FollowAppend(NOTHING_HELD, th.done, e, th.main);
  }

  /** A thread whose program is finished holds nothing. */
  lemma {:induction false} FinishedHoldsNothing(s: State, t: nat)
    requires t < |s.threads| && ThreadOk(s, t) && s.threads[t].todo == []
    ensures s.threads[t].Held() == []
  {
    assert s.threads[t].done + s.threads[t].todo == s.threads[t].done;
  }

  lemma {:induction false} BeginKeeps(s: State, t: nat, program: seq<Event>, main: Option<Node>)
    requires SafeState(s) && CanMove(s, Begin(t, program, main))
    ensures SafeState(After(s, Begin(t, program, main)))
  {
    hide Follow, Next;
    var s' := After(s, Begin(t, program, main));
    FinishedHoldsNothing(s, t);
    NothingYet(main);
    assert [] + program == program;
    forall u | 0 <= u < |s'.threads|
      ensures ThreadOk(s', u)
    {
      if u != t {
        assert ThreadOk(s, u);
      }
    }
    forall u, v, l | u != v && s'.Has(u, l)
      ensures !s'.Has(v, l)
    {
      assert u != t;
      assert s.Has(u, l);
      if v != t {
        assert s'.Has(v, l) <==> s.Has(v, l);
      }
    }
  }

  lemma {:induction false} NothingYet(main: Option<Node>)
    ensures Follow(NOTHING_HELD, [], main) == NOTHING_HELD
  {
  }

  lemma {:induction false} HeldAfter(th: Thread, e: Event)
    requires th.todo != [] && e == th.todo[0]
    ensures var th' := Thread(th.main, th.done + [e], th.todo[1..]);
            && (e.Enter? ==> th'.Held() == th.Held() + [e.l])
            && (!e.Enter? ==> forall l :: l in th'.Held() ==> l in th.Held())
            && th'.Mine() == (match e case Take(n) => Some(n) case Publish(_) => None case _ => th.Mine())
  {
    FollowAppend(NOTHING_HELD, th.done, e, th.main);
  }

  lemma {:induction false} AdvanceExclusive(s: State, t: nat)
    requires SafeState(s) && CanMove(s, Advance(t))
    ensures var s' := After(s, Advance(t)); forall u, v, l :: u != v && s'.Has(u, l) ==> !s'.Has(v, l)
  {
    hide Follow, Next, ThreadOk, CanMove, After;
    var s' := After(s, Advance(t));
    forall u, v, l | u != v && s'.Has(u, l)
      ensures !s'.Has(v, l)
    {
      OnlyTheFreed(s, t, u, l);
      if s'.Has(v, l) {
        OnlyTheFreed(s, t, v, l);
      }
    }
  }

  /** After a thread advances, a lock is held by whoever held it, or the thread has just taken it
      and nobody held it. */
  lemma {:induction false} OnlyTheFreed(s: State, t: nat, u: nat, l: Lock)
    requires CanMove(s, Advance(t)) && After(s, Advance(t)).Has(u, l)
    ensures s.Has(u, l) || (u == t && s.Available(t, l))
  {
    hide Follow, Next;
    if u == t {
      HeldAfter(s.threads[t], s.threads[t].todo[0]);
    }
  }

  lemma {:induction false} AdvanceKeeps(s: State, t: nat)
    requires SafeState(s) && CanMove(s, Advance(t))
    ensures SafeState(After(s, Advance(t)))
  {
    var s', th := After(s, Advance(t)), s.threads[t];
    AdvanceExclusive(s, t);
    NextOk(s, t);
    HeldAfter(th, th.todo[0]);
    forall u | 0 <= u < |s'.threads|
      ensures ThreadOk(s', u)
    {
      assert ThreadOk(s, u);
      assert ThreadOk(s, t);
      PublishesItsOwn(s, t);
    }
  }

  /** A thread publishes only the socket it has taken. */
  lemma {:induction false} PublishesItsOwn(s: State, t: nat)
    requires t < |s.threads| && ThreadOk(s, t) && s.threads[t].todo != []
    ensures s.threads[t].todo[0].Publish? ==> s.threads[t].Mine() == Some(s.threads[t].todo[0].n)
  {
    NextOk(s, t);
  }

  lemma {:induction false} MoveKeeps(s: State, m: Move)
    requires SafeState(s) && CanMove(s, m)
    ensures SafeState(After(s, m))
  {
    match m {
      case Begin(t, program, main) => BeginKeeps(s, t, program, main);
      case Advance(t) => AdvanceKeeps(s, t);
      case Connected(n) =>
        assert forall u, l :: After(s, m).Has(u, l) <==> s.Has(u, l);
        forall u | 0 <= u < |s.threads|
          ensures ThreadOk(After(s, m), u)
        {
          assert ThreadOk(s, u);
        }
    }
  }

  // ---------- waiting ----------

  /** Thread `t` is about to take a lock that thread `u` holds. */
  ghost predicate WaitsFor(s: State, t: nat, u: nat) {
    && t < |s.threads| && u != t
    && s.threads[t].todo != [] && s.threads[t].todo[0].Enter?
    && s.Has(u, s.threads[t].todo[0].l)
  }

  ghost predicate Blocked(s: State, t: nat) { exists u :: WaitsFor(s, t, u) }

  /** The holder of a container's lock, and a thread that holds two locks, wait for nobody. */
  lemma {:induction false} InnermostRuns(s: State, u: nat)
    requires SafeState(s) && u < |s.threads|
    requires |s.threads[u].Held()| >= 2 || exists l :: s.Has(u, l) && l.Container()
    ensures !Blocked(s, u)
  {
    hide Follow;
    var th := s.threads[u];
    assert ThreadOk(s, u);
    if th.todo != [] && th.todo[0].Enter? {
      NextOk(s, u);
    }
  }

  /** A thread waiting under one socket's lock for another socket is retrying the former. */
  lemma {:induction false} NestedWait(s: State, u: nat)
    requires SafeState(s) && u < |s.threads|
    requires var th := s.threads[u]; th.todo != [] && th.todo[0].Enter? && th.todo[0].l.SockLock? && th.Held() != []
    ensures var th := s.threads[u];
            |th.Held()| == 1 && th.Held()[0].SockLock? && th.main == Some(th.Held()[0].sock)
            && s.PlaceOf(th.Held()[0].sock) == Retried(u) && s.PlaceOf(th.todo[0].l.sock) == Taken(u)
  {
    hide Follow;
    assert ThreadOk(s, u);
    NextOk(s, u);
  }

  /** Along any chain of waiting threads the fourth waits for nobody. */
  lemma {:induction false} ChainsEnd(s: State, t: nat, u: nat, v: nat, x: nat)
    requires SafeState(s) && WaitsFor(s, t, u) && WaitsFor(s, u, v) && WaitsFor(s, v, x)
    ensures !Blocked(s, x)
  {
    hide Follow, Next, ThreadOk;
    var l := s.threads[v].todo[0].l;
    if l.Container() || |s.threads[x].Held()| >= 2 {
      InnermostRuns(s, x);
    } else {
      // v waits for a socket's lock and itself holds a lock that u waits for
      var k := s.threads[u].todo[0].l;
      assert s.Has(v, k) && s.Has(u, s.threads[t].todo[0].l);
      NestedWait(s, v);
      assert k == s.threads[v].Held()[0];
      NestedWait(s, u);
      assert false;
    }
  }

  /** A group of threads each of which waits for a member of the group. */
  ghost predicate Deadlocked(s: State, group: set<nat>) {
    group != {} && forall t :: t in group ==> WaitsWithin(s, t, group)
  }

  ghost predicate WaitsWithin(s: State, t: nat, group: set<nat>) {
    exists u :: WaitsFor(s, t, u) && u in group
  }

  lemma {:induction false} NoneDeadlocked(s: State, group: set<nat>)
    requires SafeState(s)
    ensures !Deadlocked(s, group)
  {
    hide SafeState, WaitsFor;
    if Deadlocked(s, group) {
      var t :| t in group;
      assert WaitsWithin(s, t, group);
      var u :| WaitsFor(s, t, u) && u in group;
      assert WaitsWithin(s, u, group);
      var v :| WaitsFor(s, u, v) && v in group;
      assert WaitsWithin(s, v, group);
      var x :| WaitsFor(s, v, x) && x in group;
      assert WaitsWithin(s, x, group);
      ChainsEnd(s, t, u, v, x);
    }
  }

  // ---------- runs ----------

  ghost predicate CanRun(s: State, ms: seq<Move>)
    decreases |ms|
  {
    ms == [] || (CanMove(s, ms[0]) && CanRun(After(s, ms[0]), ms[1..]))
  }

  ghost function RunEnd(s: State, ms: seq<Move>): State
    requires CanRun(s, ms)
    decreases |ms|
  {
    if ms == [] then s else RunEnd(After(s, ms[0]), ms[1..])
  }

  function Idle(n: nat): State {
    State(seq(n, _ => Thread(None, [], [])), map[])
  }

  lemma {:induction false} IdleIsSafe(n: nat)
    ensures SafeState(Idle(n))
  {
    NothingYet(None);
    assert forall t :: 0 <= t < n ==> Idle(n).threads[t] == Thread(None, [], []);
    var none: seq<Event> := [];
    assert none + none == none;
  }

  lemma {:induction false} RunKeepsSafe(s: State, ms: seq<Move>)
    requires SafeState(s) && CanRun(s, ms)
    ensures SafeState(RunEnd(s, ms))
    decreases |ms|
  {
    hide SafeState, CanMove;
    if ms != [] {
      MoveKeeps(s, ms[0]);
      RunKeepsSafe(After(s, ms[0]), ms[1..]);
    }
  }

  /** However many threads there are and however their handlers interleave, no group of
      threads ever waits only for each other, and no more than three threads wait in a row. */
  lemma {:induction false} NeverDeadlocked(n: nat, ms: seq<Move>, group: set<nat>)
    requires CanRun(Idle(n), ms)
    ensures !Deadlocked(RunEnd(Idle(n), ms), group)
    ensures var s := RunEnd(Idle(n), ms);
            forall t, u, v, x :: WaitsFor(s, t, u) && WaitsFor(s, u, v) && WaitsFor(s, v, x) ==> !Blocked(s, x)
  {
    IdleIsSafe(n);
    RunKeepsSafe(Idle(n), ms);
    var s := RunEnd(Idle(n), ms);
    NoneDeadlocked(s, group);
    forall t, u, v, x | WaitsFor(s, t, u) && WaitsFor(s, u, v) && WaitsFor(s, v, x)
      ensures !Blocked(s, x)
    {
      ChainsEnd(s, t, u, v, x);
    }
  }

  /** What the engine's handlers do to the locks obeys the discipline, whatever the system
      answers, except in a refused receive on a connected socket. */
  lemma {:induction false} HandlersObey(w: World, l: Label)
    requires Inv(w) && w.Enabled(l) && Matched(w, l)
    ensures |w.log| <= |w.Step(l).log| && Obeys(w.Step(l).log[|w.log|..], MainOf(w, l))
  {
    hide Inv, Matched, World.Step;
    StepHolds(w, l);
  }

  /** Any step of the engine may begin on a free thread; only a retry asks that the connection it
      retries is pending. */
  lemma {:induction false} StepsBegin(s: State, t: nat, w: World, l: Label)
    requires t < |s.threads| && s.threads[t].todo == []
    requires Inv(w) && w.Enabled(l) && Matched(w, l)
    requires l.Fail? && l.addressInUse && w.posted[l.i].op == Operation.Connect ==>
        s.PlaceOf(w.posted[l.i].key) == Connecting
    ensures |w.log| <= |w.Step(l).log| && CanMove(s, Begin(t, w.Step(l).log[|w.log|..], MainOf(w, l)))
  {
    hide Inv, Matched, World.Step, Obeys;
    HandlersObey(w, l);
  }
}
