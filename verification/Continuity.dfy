/** Sockets that are used again, and ids that survive retries. */
module Continuity {
  import opened SocketTypes
  import opened RecyclableList
  import opened TimeWait
  import opened Engine
  import opened EngineInvariant
  import opened EngineSteps
  import opened Teardown
  import opened Completions
  import opened EngineRuns
  import opened Frames
  import opened Outcasts

  // ---------- the reuse queue ----------

  /** The i-th queued socket has truly rested longer than the delay. */
  ghost predicate Rested(w: World, i: nat)
    requires Inv(w) && i < |w.queue|
  {
    w.clock - w.since[i] > w.timeWait
  }

  /** In every state the invariant allows: a socket is never taken from the queue before it has
      truly rested; and while no queued socket is older than 2^32 ms, the test of the head alone
      fails exactly when no socket in the queue has rested long enough. */
  lemma {:induction false} HeadTestIsExact(w: World)
    requires Inv(w)
    ensures w.HeadAged() ==> w.queue != [] && Rested(w, 0)
    ensures (forall i :: 0 <= i < |w.since| ==> w.clock - w.since[i] < TWO_TO_THE_32) ==>
              (w.HeadAged() <==> exists i :: 0 <= i < |w.queue| && Rested(w, i))
  {
    hide TallyOf;
    if w.queue != [] {
      AgedIff(w.clock, w.since[0], w.timeWait);
    }
  }

  /** What `ReuseSocket` hands out: the head of the queue, rested, with nothing pending,
      and no longer queued. */
  lemma {:induction false} ReusedIsClean(w: World)
    requires Inv(w) && w.ReuseSocket().1.Some?
    ensures var (w', g) := w.ReuseSocket();
            && g.value == w.queue[0] && Rested(w, 0)
            && w'.queue == w.queue[1..] && g.value !in w'.queue
            && w'.At(g.value).pendingByteSent == 0 && w'.At(g.value).Idle()
            && TallyOf(w'.posted, g.value) == NOTHING
  {
    HeadTestIsExact(w);
    hide InvExcept, TallyOf;
    ReuseKeeps(w, {});
  }

  /** The id of a disconnected socket stays in the map: once the socket is used for a new connection,
      the old id names a socket whose own id is another. */
  lemma {:induction false} OldIdBecomesAlias(w: World, os: ConnectOs)
    requires Inv(w) && !w.forgets && w.HeadAged() && Reaches(w, os) && w.At(w.queue[0]).id != NIL_UUID
    ensures var (w', id) := w.ConnectToNewSocket(NIL_UUID, os);
            var r, was := w.queue[0], w.At(w.queue[0]).id;
            && r in w'.sockets.live && w'.At(r).id == id && id in w'.ids && w'.ids[id] == r
            && was != id && was in w'.ids && w'.ids[was] == r
  {
    var r := w.queue[0];
    QueuedFacts(w);
    hide InvExcept, World.AddSocketToMap;
    var (w1, g) := w.GenerateSocket(true, os.createOk);
    var w2 := w1.CreateBuffer(Operation.Connect).Post(w1.buffers.Slot(), r, Operation.Connect).Do(Publish(r));
    NewIdNames(w2, r);
  }

  /** The map names the socket under its id. */
  predicate Registered(w: World, r: Node) { w.At(r).id in w.ids && w.ids[w.At(r).id] == r }

  lemma {:induction false} QueuedFacts(w: World)
    requires Inv(w) && w.queue != []
    ensures var r := w.queue[0];
            && r in w.sockets.live && r in w.sockets.mem && w.At(r).state == DISCONNECTED && w.At(r).id < w.nextId
            && (!w.forgets && w.At(r).id != NIL_UUID ==> Registered(w, r))
  {
    hide TallyOf;
    assert SockOk(w, w.queue[0]);
  }

  lemma {:induction false} NewIdNames(w: World, r: Node)
    requires r in w.sockets.mem
    ensures var w' := w.AddSocketToMap(r, NIL_UUID);
            && w'.At(r).id == w.nextId && w'.ids == w.ids[w.nextId := r] && w'.sockets.live == w.sockets.live
  {
  }

  // ---------- retries ----------

  /** The id names a live socket whose connection is pending. */
  ghost predicate Pending(w: World, id: Uuid) {
    && id != NIL_UUID && id in w.ids
    && w.ids[id] in w.sockets.live && w.At(w.ids[id]).id == id
    && TallyOf(w.posted, w.ids[id]).connects == 1
  }

  /** Whether `ConnectToNewSocket` reaches its end. */
  predicate Reaches(w: World, os: ConnectOs) {
    && w.mgr != NOT_READY && w.kind == CLIENT
    && (w.HeadAged() || (os.createOk && os.associateOk && os.bind.Bound?))
    && os.htonsOk && os.connectOk
  }

  lemma {:induction false} GenerateState(w: World, createOk: bool, f: set<Node>)
    requires InvExcept(w, f) && Aside(w, f)
    ensures var (w', g) := w.GenerateSocket(true, createOk);
            && (g.Some? <==> w.HeadAged() || createOk)
            && (g.Some? ==> w'.At(g.value).state == if w.HeadAged() then DISCONNECTED else INIT)
  {
    hide InvExcept, TallyOf;
    ReuseKeeps(w, f);
    if !w.HeadAged() && createOk {
      CreateSocketKeeps(w.ReuseSocket().0, f);
    }
  }

  lemma {:induction false} PrepareGoes(w: World, r: Node, associateOk: bool, bind: BindOs)
    requires r in w.sockets.mem && w.At(r).state in {INIT, DISCONNECTED}
    ensures w.PrepareSocket(r, associateOk, bind).1 <==> w.At(r).state == DISCONNECTED || (associateOk && bind.Bound?)
  {
    hide World.DeleteSocket;
  }

  lemma {:induction false} ConnectTail(w: World, r: Node, id: Uuid, os: ConnectOs)
    requires r in w.sockets.mem && NIL_UUID <= id && NIL_UUID < w.nextId
    ensures w.CreateBuffer(Operation.Connect).Post(w.buffers.Slot(), r,
        Operation.Connect).Do(Publish(r)).AddSocketToMap(r, id).At(r).id != NIL_UUID
  {
  }

  /** A connection attempt yields an id exactly when no system call refuses. */
  lemma {:induction false} ConnectsIff(w: World, id: Uuid, os: ConnectOs, f: set<Node>)
    requires InvExcept(w, f) && Aside(w, f) && NIL_UUID <= id
    ensures w.ConnectToNewSocket(id, os).1 != NIL_UUID <==> Reaches(w, os)
  {
    hide InvExcept, TallyOf, Quiet, Loose, Held, World.GenerateSocket, World.PrepareSocket, World.AddSocketToMap,
         World.DeleteSocket, World.HeadAged, Obtained;
    if w.mgr != NOT_READY && w.kind == CLIENT {
      var (w1, g) := w.GenerateSocket(true, os.createOk);
      GenerateKeeps(w, true, os.createOk, f);
      GenerateSame(w, true, os.createOk);
      GenerateState(w, os.createOk, f);
      if g.Some? {
        var r := g.value;
        ObtainedHas(w, w1, r, f);
        HasFacts(w, w1, r, f);
        Facts(w1, r, f + {r});
        PrepareGoes(w1, r, os.associateOk, os.bind);
        PrepareKeeps(w, w1, r, os.associateOk, os.bind, f);
        var (w2, go) := w1.PrepareSocket(r, os.associateOk, os.bind);
        if go {
          HasFacts(w, w2, r, f);
          Facts(w2, r, f + {r});
          ConnectTail(w2, r, id, os);
        }
      }
    }
  }

  lemma {:induction false} FinishReplaced(w: World, r: Node, b: Node, os: TeardownOs)
    requires InvExcept(w, {r}) && Settled(w, r) && w.At(r).state == RETRY_CONNECTION
    ensures var w' := w.FinishError(r, b, os);
            && w'.sockets == w.sockets.Erase(r) && w'.ids == w.ids && w'.posted == w.posted && w'.timeWait == w.timeWait
            && (forall q :: q in w'.sockets.live <==> q in w.sockets.live && q != r)
            && (forall q :: q in w'.sockets.live ==> w'.At(q) == w.At(q))
  {
    SettledFacts(w, r);
    SettledIdle(w, r);
    SocketsValid(w, {r});
    hide InvExcept, TallyOf, Settled, World.DeleteOrDisconnect;
    var w1 := w.Do(Leave(SockLock(r)));
    TeardownContract(w1, r, os);
    EraseKeeps(w.sockets, r);
  }

  lemma {:induction false} SocketsValid(w: World, f: set<Node>)
    requires InvExcept(w, f)
    ensures w.sockets.Valid()
  {
  }

  /** The state in which the retry of the i-th operation is attempted. */
  function RetryState(w: World, i: nat): World
    requires i < |w.posted|
  {
    w.Dequeue(i).Do(Enter(SockLock(w.posted[i].key))).(timeWait := Doubled(w.timeWait))
  }

  lemma {:induction false} RetryMarked(w: World, i: nat, os: ConnectOs)
    requires Inv(w) && i < |w.posted| && w.posted[i].op == Operation.Connect && w.At(w.posted[i].key).id != NIL_UUID
    requires w.forgets ==> Registered(w, w.posted[i].key)
    ensures var r, b, id := w.posted[i].key, w.posted[i].buf, w.At(w.posted[i].key).id;
            var w' := w.Dequeue(i).Do(Enter(SockLock(r))).MarkError(r, b, true, os);
            && InvExcept(w', {r}) && Settled(w', r) && w'.At(r).state == RETRY_CONNECTION
            && w'.timeWait == Doubled(w.timeWait) && id in w'.ids
            && (Reaches(RetryState(w, i), os) ==>
                  && w'.ids[id] in w'.sockets.live && w'.ids[id] != r && w'.At(w'.ids[id]).id == id
                  && TallyOf(w'.posted, w'.ids[id]).connects == 1)
            && (!Reaches(RetryState(w, i), os) ==> w'.ids[id] == r)
  {
    hide InvExcept, TallyOf, Spares, Held, Settled, World.HeadAged;
    var r, b := w.posted[i].key, w.posted[i].buf;
    ErrorAccounted(w, i);
    OnlyConnectsAre(w, i);
    var w0 := w.Dequeue(i);
    var w1 := w0.Do(Enter(SockLock(r)));
    LogKeeps(w0, w1, {r});
    HeldSame(w0, w1);
    RetryKeeps(w1, r, b, os);
    var w2 := RetryState(w, i);
    TimeWaitKeeps(w1, r);
    OwnIdRange(w1, r);
    ConnectsIff(w2, w.At(r).id, os, {r});
    ConnectTimeWait(w2, w.At(r).id, os);
    var (w3, j) := w2.ConnectToNewSocket(w.At(r).id, os);
  }

  lemma {:induction false} ConnectTimeWait(w: World, id: Uuid, os: ConnectOs)
    ensures w.ConnectToNewSocket(id, os).0.timeWait == w.timeWait
  {
    hide World.GenerateSocket, World.PrepareSocket, World.DeleteSocket, World.AddSocketToMap, World.CreateBuffer;
    GenerateSame(w, true, os.createOk);
    var (w1, g) := w.GenerateSocket(true, os.createOk);
    if g.Some? {
      PrepareTimeWait(w1, g.value, os.associateOk, os.bind);
      var w2 := w1.PrepareSocket(g.value, os.associateOk, os.bind).0;
      var w3 := w2.CreateBuffer(Operation.Connect);
      PartsTimeWait(w2, g.value, id);
      PartsTimeWait(w3, g.value, id);
      PartsTimeWait(w3.Post(w2.buffers.Slot(), g.value, Operation.Connect).Do(Publish(g.value)), g.value, id);
    }
  }

  lemma {:induction false} PartsTimeWait(w: World, r: Node, id: Uuid)
    ensures w.DeleteSocket(r, NEVER_CONNECTED).timeWait == w.timeWait
    ensures w.CreateBuffer(Operation.Connect).timeWait == w.timeWait
    ensures w.AddSocketToMap(r, id).timeWait == w.timeWait
  {
  }

  lemma {:induction false} PrepareTimeWait(w: World, r: Node, associateOk: bool, bind: BindOs)
    ensures w.PrepareSocket(r, associateOk, bind).0.timeWait == w.timeWait
  {
  }

  /** A connection that fails because its address is in use: the delay doubles, the old socket is
      removed, and the user's id names a live socket that is connecting again exactly when the
      retry reaches its end; otherwise the id keeps naming the removed socket. */
  lemma {:induction false} RetryIff(w: World, i: nat, os: ErrorOs)
    requires Inv(w) && i < |w.posted| && w.posted[i].op == Operation.Connect && w.At(w.posted[i].key).id != NIL_UUID
    requires w.forgets ==> Registered(w, w.posted[i].key)
    ensures var r, id := w.posted[i].key, w.At(w.posted[i].key).id;
            var w' := w.Dequeue(i).HandleError(r, w.posted[i].buf, true, os);
            && w'.timeWait == Doubled(w.timeWait) && r !in w'.sockets.live
            && (Pending(w', id) <==> Reaches(RetryState(w, i), os.connect))
            && (!Reaches(RetryState(w, i), os.connect) ==> id in w'.ids && w'.ids[id] == r)
  {
    hide InvExcept, TallyOf, Settled, Reaches, World.MarkError, World.FinishError, RetryState;
    var r, b := w.posted[i].key, w.posted[i].buf;
    RetryMarked(w, i, os.connect);
    FinishReplaced(w.Dequeue(i).Do(Enter(SockLock(r))).MarkError(r, b, true, os.connect), r, b, os.teardown);
  }

  /** The step either does not handle the socket the id names, or is an address-in-use failure of its
      connection whose retry reaches its end. */
  ghost predicate GoesOn(w: World, id: Uuid, l: Label)
    requires w.Enabled(l) && id in w.ids
  {
    Concerns(w, l, w.ids[id]) ==>
      l.Fail? && l.addressInUse && Reaches(RetryState(w.(clock := l.at), l.i), l.err.connect)
  }

  lemma {:induction false} PendingFacts(w: World, id: Uuid)
    requires Inv(w) && Pending(w, id)
    ensures var q := w.ids[id];
            && w.At(q).state in {BOUND, DISCONNECTED} && q !in w.queue &&
                TallyOf(w.posted, q) == NOTHING.(connects := 1)
  {
    hide TallyOf;
    assert SockOk(w, w.ids[id]);
  }

  /** The only operation of such a socket is its connection. */
  lemma {:induction false} PendingOp(w: World, id: Uuid, i: nat)
    requires Inv(w) && Pending(w, id) && i < |w.posted| && w.posted[i].key == w.ids[id]
    ensures w.posted[i].op == Operation.Connect
  {
    PendingFacts(w, id);
    TallyCounts(w.posted, i);
  }

  /** Other sockets' steps leave a live socket alone that is neither connected, queued nor accepting. */
  lemma {:induction false} ApartBy(w: World, q: Node)
    requires Inv(w) && q in w.sockets.live && q !in w.queue && w.At(q).state !in {CONNECTED, ACCEPTING}
    ensures Apart(w, q, {})
  {
    hide TallyOf;
    if w.current == Some(q) {
      forall p | p in w.posted
        ensures w.BufAt(p.buf).operation != Operation.Accept
      {
        NoAcceptFor(w, q, p);
      }
    }
  }

  lemma {:induction false} NoAcceptFor(w: World, q: Node, p: Posted)
    requires Inv(w) && p in w.posted && w.current == Some(q) && w.At(q).state != ACCEPTING
    ensures w.BufAt(p.buf).operation != Operation.Accept
  {
    var i :| 0 <= i < |w.posted| && w.posted[i] == p;
    TallyCounts(w.posted, i);
    hide TallyOf;
    assert SockOk(w, p.key);
  }

  /** A clean step that handles none of its operations leaves a pending connection, and its id, alone. */
  lemma {:induction false} PendingStays(w: World, id: Uuid, l: Label)
    requires Inv(w) && !w.forgets && Pending(w, id) && w.Enabled(l) && Clean(w, l) && !Concerns(w, l, w.ids[id])
    ensures var w' := w.Step(l);
            Inv(w') && !w'.forgets && Pending(w', id) && w'.ids[id] == w.ids[id] && w'.timeWait == DelayAfter(w, l)
  {
    var q, w' := w.ids[id], w.Step(l);
    PendingFacts(w, id);
    ApartBy(w, q);
    StepStays(w, l, q);
    StepKeeps(w, l);
    hide InvExcept, TallyOf, Clean, World.Step, World.Enabled;
    ApartLive(w', q);
    StillRegistered(w', q);
  }

  lemma {:induction false} ApartLive(w: World, q: Node)
    requires Apart(w, q, {})
    ensures q in w.sockets.live
  {
  }

  lemma {:induction false} StillRegistered(w: World, q: Node)
    requires Inv(w) && !w.forgets && q in w.sockets.live && w.At(q).id != NIL_UUID && w.At(q).state != CONNECT_FAILURE
    ensures Registered(w, q)
  {
    hide TallyOf;
    assert SockOk(w, q);
  }

  /** One retry that reaches its end: the id names the replacement, and the old socket is gone. */
  lemma {:induction false} OneRetry(w: World, id: Uuid, l: Label)
    requires Inv(w) && !w.forgets && Pending(w, id) && w.Enabled(l) && Clean(w, l)
    requires Concerns(w, l, w.ids[id]) && GoesOn(w, id, l)
    ensures var w' := w.Step(l);
            && Inv(w') && !w'.forgets && Pending(w', id) && w'.timeWait == DelayAfter(w, l)
            && w.ids[id] !in w'.sockets.live
  {
    PendingOp(w, id, l.i);
    OperationAt(w, l.i);
    hide InvExcept, TallyOf, Reaches, Clean, World.HandleError, RetryState;
    var w1 := w.(clock := l.at);
    ClockKeeps(w, l.at);
    StepKeeps(w, l);
    RetryIff(w1, l.i, l.err);
  }

  lemma {:induction false} OperationAt(w: World, i: nat)
    requires Inv(w) && i < |w.posted|
    ensures w.BufAt(w.posted[i].buf).operation == w.posted[i].op
  {
    hide TallyOf;
    assert w.posted[i] in w.posted;
  }

  lemma {:induction false} ConnectedNotPending(w: World, id: Uuid, i: nat, bytes: nat, os: IoOs)
    requires Inv(w) && Pending(w, id) && i < |w.posted| && w.posted[i].key == w.ids[id]
    requires w.posted[i].op == Operation.Connect
    requires os.connection.optionOk && os.connection.recvOk && Ends(os.connection.teardown)
    ensures !Pending(w.Dequeue(i).HandleIo(w.posted[i].key, w.posted[i].buf, bytes, os), id)
  {
    hide InvExcept, TallyOf, Spares, Fresh, Held, World.StartReceiving, World.CleanupIfLast;
    var r, b, w1 := w.posted[i].key, w.posted[i].buf, w.Dequeue(i);
    var w' := w1.HandleIo(r, b, bytes, os);
    ConnectAccounted(w, i);
    CompleteConnect(w, i, bytes, os);
    ConnectedHasNone(w', r);
    SocketsValid(w, {});
    StartOnly(w1, r, b, os.connection);
    StartKeeps(w1, r, b, os.connection);
    NoCleanupIds(w1.StartReceiving(r, b, os.connection), r, os.teardown);
  }

  lemma {:induction false} ConnectedHasNone(w: World, r: Node)
    requires Inv(w) && r in w.sockets.live && w.At(r).state == CONNECTED
    ensures TallyOf(w.posted, r).connects == 0
  {
    hide TallyOf;
    assert SockOk(w, r);
  }

  lemma {:induction false} NoCleanupIds(w: World, r: Node, os: TeardownOs)
    requires w.At(r).state == CONNECTED
    ensures w.CleanupIfLast(r, os).ids == w.ids
  {
    hide World.DeleteOrDisconnect;
  }

  lemma {:induction false} RefusedNotPending(w: World, id: Uuid, i: nat, os: ErrorOs)
    requires Inv(w) && Pending(w, id) && i < |w.posted| && w.posted[i].key == w.ids[id]
    requires w.posted[i].op == Operation.Connect
    requires Ends(os.teardown)
    ensures !Pending(w.Dequeue(i).HandleError(w.posted[i].key, w.posted[i].buf, false, os), id)
  {
    hide InvExcept, TallyOf, Settled, Spares, Held, World.DeleteOrDisconnect;
    var r, b := w.posted[i].key, w.posted[i].buf;
    ErrorAccounted(w, i);
    MarkOther(w, i, false, os);
    var w2 := w.Dequeue(i).Do(Enter(SockLock(r))).MarkError(r, b, false, os.connect);
    Facts(w.Dequeue(i), r, {r});
    assert w2.At(r) == w.At(r).(state := CONNECT_FAILURE);
    var w3 := w2.Do(Leave(SockLock(r)));
    SettledFacts(w2, r);
    SettledIdle(w2, r);
    TeardownContract(w3, r, os.teardown);
    assert id !in w3.DeleteOrDisconnect(r, os.teardown).ids;
  }

  /** A connection stays pending under its id through a clean step if and only if the step does not
      handle it, or is an address-in-use error whose retry reaches its end. */
  lemma {:induction false} PendingIff(w: World, id: Uuid, l: Label)
    requires Inv(w) && !w.forgets && Pending(w, id) && w.Enabled(l) && Clean(w, l)
    ensures Pending(w.Step(l), id) <==> GoesOn(w, id, l)
  {
    hide InvExcept, TallyOf, Reaches, RetryState, World.HandleIo, World.HandleError;
    if GoesOn(w, id, l) {
      StepGoesOn(w, id, l);
    } else {
      var w1 := w.(clock := l.at);
      ClockKeeps(w, l.at);
      PendingOp(w, id, l.i);
      match l {
        case Complete(_, i, bytes, os) => ConnectedNotPending(w1, id, i, bytes, os);
        case Fail(_, i, addressInUse, os) =>
          if addressInUse {
            RetryIff(w1, i, os);
          } else {
            RefusedNotPending(w1, id, i, os);
          }
      }
    }
  }

  // ---------- runs with retries ----------

  /** Nothing happens to the socket the id names but retries that reach their end; anything may happen
      to the others. */
  ghost predicate GoesOnAlways(w: World, id: Uuid, ls: seq<Label>)
    requires CleanRun(w, ls)
    decreases |ls|
  {
    ls == [] || (id in w.ids && GoesOn(w, id, ls[0]) && GoesOnAlways(w.Step(ls[0]), id, ls[1..]))
  }

  /** Whenever the socket the id names is retried, it is gone after the step. */
  ghost predicate ReplacedAreGone(w: World, id: Uuid, ls: seq<Label>)
    requires CleanRun(w, ls)
    decreases |ls|
  {
    ls == [] ||
    var w1 := w.Step(ls[0]);
    && (id in w.ids && Concerns(w, ls[0], w.ids[id]) ==> w.ids[id] !in w1.sockets.live)
    && ReplacedAreGone(w1, id, ls[1..])
  }

  /** How many connections fail in the run because their address is in use. */
  ghost function InUses(w: World, ls: seq<Label>): nat
    requires CleanRun(w, ls)
    decreases |ls|
  {
    if ls == [] then 0 else (if InUse(w, ls[0]) then 1 else 0) + InUses(w.Step(ls[0]), ls[1..])
  }

  lemma {:induction false} StepGoesOn(w: World, id: Uuid, l: Label)
    requires Inv(w) && !w.forgets && Pending(w, id) && w.Enabled(l) && Clean(w, l) && GoesOn(w, id, l)
    ensures var w' := w.Step(l);
            && Inv(w') && !w'.forgets && Pending(w', id) && w'.timeWait == DelayAfter(w, l)
            && (Concerns(w, l, w.ids[id]) ==> w.ids[id] !in w'.sockets.live)
  {
    hide Inv, Clean, GoesOn, World.Step, World.Enabled, DelayAfter;
    if Concerns(w, l, w.ids[id]) {
      OneRetry(w, id, l);
    } else {
      PendingStays(w, id, l);
    }
  }

  /** Through any clean run in which the user's connection meets nothing but retries that reach their end,
      whatever happens to other sockets: the id names a live socket that is connecting, each replaced
      socket is gone, and the delay is the starting one doubled for every address-in-use error of the run,
      of this connection or another, and capped. */
  lemma {:induction false} RetriesKeepTheId(w: World, id: Uuid, ls: seq<Label>)
    requires Inv(w) && !w.forgets && Pending(w, id) && CleanRun(w, ls) && GoesOnAlways(w, id, ls)
    ensures var w' := Exec(w, ls);
            && Inv(w') && Pending(w', id) && w'.timeWait == After(w.timeWait, InUses(w, ls))
            && ReplacedAreGone(w, id, ls)
    decreases |ls|
  {
    hide Inv, Pending, Clean, GoesOn, World.Step, World.Enabled, InUse;
    if ls != [] {
      PendingIn(w, id);
      StepGoesOn(w, id, ls[0]);
      RetriesKeepTheId(w.Step(ls[0]), id, ls[1..]);
      if InUse(w, ls[0]) {
        AfterFirst(w.timeWait, InUses(w, ls));
      }
    }
  }

  lemma {:induction false} PendingIn(w: World, id: Uuid)
    requires Pending(w, id)
    ensures id in w.ids
  {
  }

  lemma {:induction false} AfterFirst(v: nat, n: nat)
    requires n > 0
    ensures After(Doubled(v), n - 1) == After(v, n)
  {
    if n > 1 {
      AfterFirst(v, n - 1);
    }
  }
}
