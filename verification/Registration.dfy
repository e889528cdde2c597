/** When the id of a new connection is stored.  `ConnectToNewSocket` posts the connection first and registers
    its socket afterwards, so a worker may handle the completion, and all that follows it, in between.  Each
    access to the socket's id field, to the map and to the list is one move. */
module Registration {
  import opened SocketTypes

  /** The socket of the call, and the one that replaces it in a retry. */
  datatype Who = Own | Other

  /** Where the handling of the connection is: its completion not taken; connected; failed; closed with its id
      erased; failed with its id erased; in a retry, with the id it read; past the retry; out of the list. */
  datatype Phase = Waiting | Live | Failed | Erased | Unlisted | Retrying(id: Uuid) | Replaced | Gone

  /** `x` is the id the call gives out, `y` the one a retry gives out if it reads none.  `id` and `otherId`
      are the id fields of the two sockets.  `first` is false of the source; where it is true the call
      registers its socket before it posts the connection. */
  datatype State = State(first: bool, x: Uuid, y: Uuid, posted: bool, named: bool, entered: bool, phase: Phase,
                         id: Uuid, otherId: Uuid, ids: map<Uuid, Who>, listed: set<Who>)

  datatype Move =
    | Post               // line 636: the connection is posted
    | Name               // line 583
    | Register           // lines 584 to 588
    | Complete           // the connection is made
    | Fail               // line 153
    | InUse              // lines 145 to 149, up to the read of the id
    | Store(ok: bool)    // lines 576 to 588 for the replacement, or the retry stops short
    | Erase              // SocketHelperClasses.cpp, lines 48 to 54
    | Remove             // line 59 there

  predicate CanMove(s: State, m: Move) {
    match m
    case Post => !s.posted && (s.first ==> s.entered)
    case Name => !s.named && (s.first || s.posted)
    case Register => s.named && !s.entered
    case Complete => s.posted && s.phase.Waiting?
    case Fail => s.posted && s.phase.Waiting?
    case InUse => s.posted && s.phase.Waiting?
    case Store(_) => s.phase.Retrying?
    case Erase => s.phase.Live? || s.phase.Failed?
    case Remove => s.phase.Erased? || s.phase.Replaced?
  }

  function After(s: State, m: Move): State
    requires CanMove(s, m)
  {
    match m
    case Post => s.(posted := true)
    case Name => s.(named := true, id := s.x)
    case Register => s.(entered := true, ids := s.ids[s.id := Own])
    case Complete => s.(phase := Live)
    case Fail => s.(phase := Failed)
    case InUse => s.(phase := Retrying(s.id))
    case Store(ok) =>
      var id := if s.phase.id == NIL_UUID then s.y else s.phase.id;
      if ok then s.(phase := Replaced, otherId := id, ids := s.ids[id := Other], listed := s.listed + {Other})
      else s.(phase := Replaced)
    case Erase => s.(phase := if s.phase.Live? then Erased else Unlisted, ids := s.ids - {s.id})
    case Remove => s.(phase := Gone, listed := s.listed - {Own})
  }

  predicate CanRun(s: State, ms: seq<Move>)
    decreases |ms|
  {
    ms == [] || (CanMove(s, ms[0]) && CanRun(After(s, ms[0]), ms[1..]))
  }

  function RunEnd(s: State, ms: seq<Move>): State
    requires CanRun(s, ms)
    decreases |ms|
  {
    if ms == [] then s else RunEnd(After(s, ms[0]), ms[1..])
  }

  /** The call holds its socket, new or recycled; a recycled one may still carry the id of a connection
      before, and be named by it. */
  function Calling(first: bool, was: Uuid, x: Uuid, y: Uuid): State {
    State(first, x, y, false, false, false, Waiting, was, NIL_UUID, if was == NIL_UUID then map[] else map[was := Own],
          {Own})
  }

  /** Ids are never given out twice. */
  predicate Distinct(was: Uuid, x: Uuid, y: Uuid) { NIL_UUID !in {x, y} && x != y && was !in {x, y} }

  /** The id the user gets, if it is stored, names a listed socket that carries it. */
  predicate Right(s: State) {
    s.x in s.ids ==> match s.ids[s.x]
      case Own => Own in s.listed && s.id == s.x
      case Other => Other in s.listed && s.otherId == s.x
  }

  /** The worker is ahead of the call: it reads the id before it is set, or uses the map before the id is
      stored; or the retry stops short. */
  predicate Early(s: State, m: Move) {
    match m
    case InUse => !s.named
    case Store(ok) => !ok || !s.entered
    case Erase => s.phase.Live? && !s.entered
    case _ => false
  }

  predicate NoneEarly(s: State, ms: seq<Move>)
    requires CanRun(s, ms)
    decreases |ms|
  {
    ms == [] || (!Early(s, ms[0]) && NoneEarly(After(s, ms[0]), ms[1..]))
  }

  // ---------- exactly when ----------

  /** `good` tells that nothing was early so far. */
  ghost predicate Tracked(s: State, good: bool) {
    && Distinct(NIL_UUID, s.x, s.y) && (s.entered ==> s.named)
    && (if s.named then s.id == s.x else s.id !in {s.x, s.y} && s.x !in s.ids)
    && (Own in s.listed <==> !s.phase.Gone?)
    && Progress(s, good)
  }

  ghost predicate Progress(s: State, good: bool) {
    match s.phase
    case Waiting => good && (s.entered <==> s.x in s.ids) && (s.entered ==> s.ids[s.x] == Own)
    case Live => good && (s.entered <==> s.x in s.ids) && (s.entered ==> s.ids[s.x] == Own)
    case Failed => good && (s.entered <==> s.x in s.ids) && (s.entered ==> s.ids[s.x] == Own)
    case Unlisted => s.x in s.ids ==> s.named && s.ids[s.x] == Own
    case Retrying(id) =>
      && (good <==> id == s.x) && (good ==> s.named) && id != s.y
      && (s.entered <==> s.x in s.ids) && (s.entered ==> s.ids[s.x] == Own)
    case _ => Settled(s, good)
  }

  /** Once the map was used: the id names the replacement or nothing if nothing was early, and the call's own
      socket otherwise. */
  ghost predicate Settled(s: State, good: bool) {
    if good then s.entered && (s.x in s.ids ==> s.ids[s.x] == Other && Other in s.listed && s.otherId == s.x)
    else if s.entered then s.x in s.ids && s.ids[s.x] == Own
    else s.x in s.ids ==> s.ids[s.x] == Other && Other in s.listed && s.otherId == s.x
  }

  lemma {:induction false} MoveTracks(s: State, m: Move, good: bool)
    requires Tracked(s, good) && CanMove(s, m)
    ensures Tracked(After(s, m), good && !Early(s, m))
  {
  }

  lemma {:induction false} RunTracks(s: State, ms: seq<Move>, good: bool)
    requires Tracked(s, good) && CanRun(s, ms)
    ensures Tracked(RunEnd(s, ms), good && NoneEarly(s, ms))
    decreases |ms|
  {
    hide Tracked, Early, CanMove, After;
    if ms != [] {
      MoveTracks(s, ms[0], good);
      RunTracks(After(s, ms[0]), ms[1..], good && !Early(s, ms[0]));
    }
  }

  /** At every moment of every interleaving: the id the user gets is right if and only if it is not stored
      yet, or its socket is still listed, or the worker was never ahead of the call and no retry stopped
      short. */
  lemma {:induction false} RightIff(first: bool, was: Uuid, x: Uuid, y: Uuid, ms: seq<Move>)
    requires Distinct(was, x, y) && CanRun(Calling(first, was, x, y), ms)
    ensures var s := RunEnd(Calling(first, was, x, y), ms);
            Right(s) <==> !s.entered || Own in s.listed || NoneEarly(Calling(first, was, x, y), ms)
  {
    var s := Calling(first, was, x, y);
    RunTracks(s, ms, true);
  }

  // ---------- registering first ----------

  predicate NoneShort(ms: seq<Move>) { Store(false) !in ms }

  /** Whoever registers before posting is never overtaken. */
  ghost predicate Ahead(s: State) {
    s.first && (s.posted ==> s.entered) && (s.entered ==> s.named) && (!s.phase.Waiting? ==> s.posted)
  }

  lemma {:induction false} NeverEarly(s: State, ms: seq<Move>)
    requires Ahead(s) && CanRun(s, ms) && NoneShort(ms)
    ensures NoneEarly(s, ms)
    decreases |ms|
  {
    if ms != [] {
      assert ms == [ms[0]] + ms[1..];
      assert Ahead(After(s, ms[0]));
      NeverEarly(After(s, ms[0]), ms[1..]);
    }
  }

  /** The connection is made, closed and removed before its id is stored. */
  const OVERTAKEN := [Post, Complete, Erase, Remove, Name, Register]

  lemma {:induction false} StepBack(s: State, ms: seq<Move>)
    requires ms != [] && CanMove(s, ms[0]) && CanRun(After(s, ms[0]), ms[1..])
    ensures CanRun(s, ms) && RunEnd(s, ms) == RunEnd(After(s, ms[0]), ms[1..])
  {
  }

  lemma {:induction false} ThreeMoves(s: State, a: Move, b: Move, c: Move, rest: seq<Move>)
    requires CanMove(s, a) && CanMove(After(s, a), b) && CanMove(After(After(s, a), b), c)
    requires CanRun(After(After(After(s, a), b), c), rest)
    ensures CanRun(s, [a, b, c] + rest)
    ensures RunEnd(s, [a, b, c] + rest) == RunEnd(After(After(After(s, a), b), c), rest)
  {
    hide CanMove, After;
    var s1, s2 := After(s, a), After(After(s, a), b);
    assert ([a, b, c] + rest)[1..] == [b, c] + rest && ([b, c] + rest)[1..] == [c] + rest && ([c] + rest)[1..] == rest;
    StepBack(s2, [c] + rest);
    StepBack(s1, [b, c] + rest);
    StepBack(s, [a, b, c] + rest);
  }

  lemma {:induction false} Overtaken(was: Uuid, x: Uuid, y: Uuid)
    requires Distinct(was, x, y)
    ensures CanRun(Calling(false, was, x, y), OVERTAKEN)
    ensures !Right(RunEnd(Calling(false, was, x, y), OVERTAKEN))
  {
    var s := Calling(false, was, x, y);
    var s1 := After(After(After(s, Post), Complete), Erase);
    assert OVERTAKEN == [Post, Complete, Erase] + ([Remove, Name, Register] + []);
    ThreeMoves(s1, Remove, Name, Register, []);
    ThreeMoves(s, Post, Complete, Erase, [Remove, Name, Register] + []);
  }

  /** The id the user gets is right in every interleaving whose retries reach their end if and only if the
      socket is registered before its connection is posted, which the source does not do. */
  lemma {:induction false} AlwaysRightIff(first: bool, was: Uuid, x: Uuid, y: Uuid)
    requires Distinct(was, x, y)
    ensures (forall ms :: CanRun(Calling(first, was, x, y), ms) && NoneShort(ms) ==>
               Right(RunEnd(Calling(first, was, x, y), ms)))
       <==> first
  {
    if first {
      forall ms | CanRun(Calling(first, was, x, y), ms) && NoneShort(ms)
        ensures Right(RunEnd(Calling(first, was, x, y), ms))
      {
        NeverEarly(Calling(first, was, x, y), ms);
        RightIff(first, was, x, y, ms);
      }
    } else {
      Overtaken(was, x, y);
    }
  }
}
