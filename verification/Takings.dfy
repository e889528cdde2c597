/** A socket taken for a connection or an accept belongs to the thread that took it: `GenerateSocket` is two
    critical sections, one of the reuse queue and one of the socket list, and those of several threads may
    follow one another in any order. */
module Takings {
  import opened SocketTypes
  import opened RecyclableList
  import opened TimeWait
  import opened Engine
  import opened EngineInvariant
  import opened EngineSteps

  /** One critical section of some thread: the head of the queue is taken if it is old enough, or a new
      socket is made. */
  datatype Take = Pop | Make

  function TakeOne(w: World, t: Take): (World, Option<Node>) {
    match t
    case Pop => w.ReuseSocket()
    case Make => (w.CreateSocket(), Some(w.sockets.Slot()))
  }

  /** The sockets handed out, one after the other. */
  function HandedOut(w: World, ts: seq<Take>): seq<Node>
    decreases |ts|
  {
    if ts == [] then []
    else
      var (w', g) := TakeOne(w, ts[0]);
      (if g.Some? then [g.value] else []) + HandedOut(w', ts[1..])
  }

  /** Sockets in other threads' hands are set aside. */
  ghost predicate InHands(w: World, f: set<Node>) { InvExcept(w, f) && Aside(w, f) }

  lemma {:induction false} PopKeepsHands(w: World, f: set<Node>)
    requires InHands(w, f)
    ensures var (w', g) := w.ReuseSocket();
            && InHands(w', if g.Some? then f + {g.value} else f) && w'.posted == w.posted
            && (g.Some? ==> g.value !in f && TallyOf(w.posted, g.value) == NOTHING)
  {
    hide InvExcept, TallyOf, Quiet;
    ReuseKeeps(w, f);
    ReuseQuiet(w, f);
    AsideKept(w, w.ReuseSocket().0, f);
  }

  lemma {:induction false} MakeKeepsHands(w: World, f: set<Node>)
    requires InHands(w, f)
    ensures var w', r := w.CreateSocket(), w.sockets.Slot();
            && InHands(w', f + {r}) && r !in f && w'.posted == w.posted && TallyOf(w.posted, r) == NOTHING
  {
    hide InvExcept, TallyOf;
    CreateSocketKeeps(w, f);
  }

  lemma {:induction false} TakeKeepsHands(w: World, t: Take, f: set<Node>)
    requires InHands(w, f)
    ensures var (w', g) := TakeOne(w, t);
            && InHands(w', if g.Some? then f + {g.value} else f) && w'.posted == w.posted
            && (g.Some? ==> g.value !in f && TallyOf(w.posted, g.value) == NOTHING)
  {
    hide InHands, TallyOf, World.ReuseSocket, World.CreateSocket;
    match t {
      case Pop => PopKeepsHands(w, f);
      case Make => MakeKeepsHands(w, f);
    }
  }

  /** However the threads take turns, no socket is handed out twice or while another thread has it, and none
      whose connection is pending. */
  lemma {:induction false} TakenOnce(w: World, ts: seq<Take>, f: set<Node>)
    requires InvExcept(w, f) && Aside(w, f)
    ensures var out := HandedOut(w, ts);
            NoDup(out) && forall r :: r in out ==> r !in f && TallyOf(w.posted, r) == NOTHING
    decreases |ts|
  {
    hide InvExcept, Aside, TallyOf, TakeOne;
    if ts != [] {
      var (w', g) := TakeOne(w, ts[0]);
      TakeKeepsHands(w, ts[0], f);
      var f' := if g.Some? then f + {g.value} else f;
      TakenOnce(w', ts[1..], f');
    }
  }
}
