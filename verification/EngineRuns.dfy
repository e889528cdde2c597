/** What holds over whole runs of the engine. */
module EngineRuns {
  import opened SocketTypes
  import opened RecyclableList
  import opened TimeWait
  import opened Engine
  import opened EngineInvariant
  import opened EngineSteps
  import opened Teardown
  import opened Completions

  /** The only sockets a step may make connected: the one whose connection completed, or the
      one an accept was waiting to fill. */
  ghost predicate MayConnect(w: World, l: Label, q: Node) {
    l.Complete? && l.i < |w.posted|
    && ((w.posted[l.i].op == Operation.Connect && w.posted[l.i].key == q)
        || (w.posted[l.i].op == Operation.Accept && w.current == Some(q)))
  }

  /** Whether the step handles an operation of socket `q`. */
  ghost predicate Handles(w: World, l: Label, q: Node) {
    !l.Call? && l.i < |w.posted| && w.posted[l.i].key == q
  }

  ghost predicate SameCounters(s: Socket, s': Socket) {
    s'.outstandingRecv == s.outstandingRecv && s'.outstandingSend == s.outstandingSend
  }

  /** What a step does to sockets that are draining, and which sockets it may connect. */
  ghost predicate StepEffect(w: World, w': World, l: Label) {
    && w'.forgets == w.forgets
    && (forall q :: q in w.sockets.live && Draining(w.At(q).state) ==>
          if Handles(w, l, q) then Drained(w, w', q)
          else q in w'.sockets.live && Draining(w'.At(q).state) && SameCounters(w.At(q), w'.At(q)))
    && (forall q :: q in w'.sockets.live && w'.At(q).state == CONNECTED ==>
          MayConnect(w, l, q) || (q in w.sockets.live && w.At(q).state == CONNECTED))
  }

  lemma {:induction false} EffectOfCompletion(w: World, w': World, l: Label, r: Node)
    requires StepResult(w, w', r) && !l.Call? && l.i < |w.posted| && w.posted[l.i].key == r
    requires r in w'.sockets.live && w'.At(r).state == CONNECTED ==>
               MayConnect(w, l, r) || (r in w.sockets.live && w.At(r).state == CONNECTED)
    ensures StepEffect(w, w', l)
  {
    hide Inv;
  }

  /** A handled transfer or disconnect never makes its own socket connected. */
  lemma {:induction false} OwnStaysConnected(w: World, i: nat, bytes: nat, os: IoOs)
    requires Inv(w) && i < |w.posted| && w.posted[i].op in {Operation.Read, Operation.Write}
    requires bytes <= w.posted[i].len && Ends(os.teardown)
    requires w.posted[i].op == Operation.Read && bytes > 0 ==>
        SafeCalls(CallbackState(w, i, bytes), w.posted[i].key, os.callback)
    ensures var r := w.posted[i].key;
            var w' := w.Dequeue(i).HandleIo(r, w.posted[i].buf, bytes, os);
            r in w.sockets.live && (r in w'.sockets.live && w'.At(r).state == CONNECTED ==> w.At(r).state == CONNECTED)
  {
    hide InvExcept, TallyOf, Spares, SafeCalls;
    var r := w.posted[i].key;
    DequeueKeeps(w, i);
    TransferState(w, i);
    if w.posted[i].op == Operation.Read {
      CompleteRead(w, i, bytes, os);
    } else {
      CompleteWrite(w, i, bytes, os);
    }
  }

  lemma {:induction false} TransferState(w: World, i: nat)
    requires Inv(w) && i < |w.posted| && w.posted[i].op in {Operation.Read, Operation.Write}
    ensures w.At(w.posted[i].key).state == CONNECTED || Draining(w.At(w.posted[i].key).state)
    ensures w.At(w.posted[i].key).outstandingRecv + w.At(w.posted[i].key).outstandingSend >= 1
  {
    hide InvExcept, TallyOf;
    DequeueKeeps(w, i);
  }

  lemma {:induction false} CompleteKeeps(w: World, i: nat, bytes: nat, os: IoOs)
    requires var l := Complete(w.clock, i, bytes, os);
             Inv(w) && w.Enabled(l) && Clean(w, l)
    ensures var l := Complete(w.clock, i, bytes, os);
            Inv(w.Step(l)) && StepEffect(w, w.Step(l), l)
  {
    hide InvExcept, TallyOf, SafeCalls;
    var l := Complete(w.clock, i, bytes, os);
    assert w.(clock := w.clock) == w;
    var r, w' := w.posted[i].key, w.Step(l);
    match w.posted[i].op {
      case Read =>
        CompleteRead(w, i, bytes, os);
        OwnStaysConnected(w, i, bytes, os);
        EffectOfCompletion(w, w', l, r);
      case Write =>
        CompleteWrite(w, i, bytes, os);
        OwnStaysConnected(w, i, bytes, os);
        EffectOfCompletion(w, w', l, r);
      case Connect =>
        CompleteConnect(w, i, bytes, os);
        EffectOfCompletion(w, w', l, r);
      case Disconnect =>
        CompleteDisconnect(w, i, bytes, os);
        DisconnectNotConnected(w, i, bytes, os);
        EffectOfCompletion(w, w', l, r);
      case Accept =>
        CompleteAccept(w, i, bytes, os);
    }
  }

  lemma {:induction false} DisconnectNotConnected(w: World, i: nat, bytes: nat, os: IoOs)
    requires Inv(w) && i < |w.posted| && w.posted[i].op == Operation.Disconnect
    ensures w.Dequeue(i).HandleIo(w.posted[i].key, w.posted[i].buf, bytes, os).At(w.posted[i].key).state == DISCONNECTED
  {
    hide InvExcept, TallyOf, Spares;
    var r, b := w.posted[i].key, w.posted[i].buf;
    DequeueKeeps(w, i);
    DisconnectKeeps(w, i);
    CleanupNothing(w.Dequeue(i).HandleDisconnect(r, b), r, os.teardown);
  }

  lemma {:induction false} FailKeeps(w: World, i: nat, addressInUse: bool, os: ErrorOs)
    requires var l := Fail(w.clock, i, addressInUse, os);
             Inv(w) && w.Enabled(l) && Clean(w, l)
    ensures var l := Fail(w.clock, i, addressInUse, os);
            Inv(w.Step(l)) && StepEffect(w, w.Step(l), l)
  {
    hide InvExcept, TallyOf, Spares;
    var l := Fail(w.clock, i, addressInUse, os);
    assert w.(clock := w.clock) == w;
    var r, w' := w.posted[i].key, w.Step(l);
    if w.posted[i].op == Operation.Read || w.posted[i].op == Operation.Write {
      FailTransfer(w, i, addressInUse, os);
    } else {
      assert w.posted[i].op == Operation.Disconnect || w.posted[i].op == Operation.Accept || w.posted[i].op ==
        Operation.Connect;
      FailOther(w, i, addressInUse, os);
    }
    FailNotConnected(w, i, addressInUse, os);
    EffectOfCompletion(w, w', l, r);
  }

  /** A failed operation never leaves its socket connected. */
  lemma {:induction false} FailNotConnected(w: World, i: nat, addressInUse: bool, os: ErrorOs)
    requires Inv(w) && i < |w.posted| && Ends(os.teardown)
    ensures var r, w' := w.posted[i].key, w.Dequeue(i).HandleError(w.posted[i].key, w.posted[i].buf, addressInUse, os);
            r in w'.sockets.live ==> w'.At(r).state != CONNECTED
  {
    hide InvExcept, TallyOf, Spares, Open, Settled, Held;
    var r, b := w.posted[i].key, w.posted[i].buf;
    DequeueKeeps(w, i);
    var w2 := w.Dequeue(i).Do(Enter(SockLock(r))).MarkError(r, b, addressInUse, os.connect);
    if w.posted[i].op == Operation.Read {
      RecvFailed(w, i);
      FinishOpen(w2, r, 0, b, os.teardown);
    } else if w.posted[i].op == Operation.Write {
      SendFailed(w, i);
      FinishOpen(w2, r, TallyOf(w.posted, r).recvs, b, os.teardown);
    } else {
      FailedOtherState(w, w2, i, addressInUse, os);
    }
  }

  lemma {:induction false} FailedOtherState(w: World, w2: World, i: nat, addressInUse: bool, os: ErrorOs)
    requires Inv(w) && i < |w.posted| && w.posted[i].op in {Operation.Disconnect, Operation.Accept, Operation.Connect}
    requires Ends(os.teardown)
    requires w2 == w.Dequeue(i).Do(Enter(SockLock(w.posted[i].key))).MarkError(w.posted[i].key, w.posted[i].buf,
        addressInUse, os.connect)
    ensures var r, w' := w.posted[i].key, w2.FinishError(w.posted[i].key, w.posted[i].buf, os.teardown);
            r in w'.sockets.live ==> w'.At(r).state != CONNECTED
  {
    hide InvExcept, TallyOf, Spares, Settled, Held, World.MarkError, World.FinishError;
    var r, b := w.posted[i].key, w.posted[i].buf;
    MarkOther(w, i, addressInUse, os);
    FinishSettled(w2, r, b, os.teardown);
  }

  lemma {:induction false} CallKeeps(w: World, c: UserCall)
    requires Inv(w) && SafeCall(w, c)
    ensures var l := Call(w.clock, c);
            Inv(w.Step(l)) && StepEffect(w, w.Step(l), l)
  {
    hide InvExcept, Open, Held;
    assert w.(clock := w.clock) == w;
    UserCallKeeps(w, None, c);
  }

  lemma {:induction false} Later(w: World, l: Label)
    requires Inv(w) && w.Enabled(l) && Clean(w, l)
    ensures var w1 := w.(clock := l.at);
            Inv(w1) && w1.Enabled(l) && Clean(w1, l) && w1.Step(l) == w.Step(l)
            && (StepEffect(w1, w.Step(l), l) ==> StepEffect(w, w.Step(l), l))
  {
    ClockKeeps(w, l.at);
    hide Inv, Clean, StepEffect, World.Step;
    LaterClean(w, l);
    LaterStep(w, l);
    if StepEffect(w.(clock := l.at), w.Step(l), l) {
      LaterEffect(w, w.Step(l), l);
    }
  }

  lemma {:induction false} LaterClean(w: World, l: Label)
    requires w.Enabled(l) && Clean(w, l)
    ensures var w1 := w.(clock := l.at); w1.Enabled(l) && Clean(w1, l)
  {
    hide SafeCalls, World.PutBuf, World.Put, World.Section;
    assert w.(clock := l.at).(clock := l.at) == w.(clock := l.at);
  }

  lemma {:induction false} LaterStep(w: World, l: Label)
    requires w.Enabled(l)
    ensures var w1 := w.(clock := l.at); w1.Enabled(l) && w1.Step(l) == w.Step(l)
  {
    hide World.HandleIo, World.HandleError, World.UserCalls;
  }

  lemma {:induction false} LaterEffect(w: World, w': World, l: Label)
    requires StepEffect(w.(clock := l.at), w', l)
    ensures StepEffect(w, w', l)
  {
  }

  /** Every clean step keeps the invariant, drains what is draining, and connects nothing
      but what a completion announces. */
  lemma {:induction false} StepKeeps(w: World, l: Label)
    requires Inv(w) && w.Enabled(l) && Clean(w, l)
    ensures Inv(w.Step(l)) && StepEffect(w, w.Step(l), l)
  {
    hide Inv, StepEffect, Clean, World.Step;
    var w1 := w.(clock := l.at);
    Later(w, l);
    match l {
      case Complete(_, i, bytes, os) => CompleteKeeps(w1, i, bytes, os);
      case Fail(_, i, addressInUse, os) => FailKeeps(w1, i, addressInUse, os);
      case Call(_, c) => CallClean(w1, l); CallKeeps(w1, c);
    }
  }

  lemma {:induction false} CallClean(w: World, l: Label)
    requires l.Call? && w.Enabled(l) && Clean(w, l)
    ensures SafeCall(w, l.call)
  {
  }

  // ---------- runs ----------

  ghost predicate CleanRun(w: World, ls: seq<Label>)
    decreases |ls|
  {
    ls == [] || (w.Enabled(ls[0]) && Clean(w, ls[0]) && CleanRun(w.Step(ls[0]), ls[1..]))
  }

  ghost function Exec(w: World, ls: seq<Label>): World
    requires CleanRun(w, ls)
    decreases |ls|
  {
    if ls == [] then w else Exec(w.Step(ls[0]), ls[1..])
  }

  lemma {:induction false} StartHolds(kind: ManagerType, timeWait: nat)
    requires MIN_TIME_WAIT_VALUE <= timeWait <= MAX_TIME_WAIT_VALUE
    ensures Inv(Start(kind, timeWait))
  {
  }

  lemma {:induction false} RunKeeps(w: World, ls: seq<Label>)
    requires Inv(w) && CleanRun(w, ls)
    ensures Inv(Exec(w, ls))
    decreases |ls|
  {
    hide Inv, Clean, World.Step;
    if ls != [] {
      StepKeeps(w, ls[0]);
      RunKeeps(w.Step(ls[0]), ls[1..]);
    }
  }

  /** What a user of the engine relies on, in every reachable state: the counters of every live
      socket equal the operations in flight on it; a connected socket has exactly one receive in
      flight; a closing or failed one has some operation in flight whose completion will tear it
      down; every operation in flight names a live socket and a live buffer of 1 to 4096 bytes that
      is not in the pool; a registered socket is found under its id; a socket waiting for reuse has
      nothing pending; and no socket or buffer was ever released twice or touched after its
      memory was given back. */
  ghost predicate Sound(w: World) {
    && w.faults == 0
    && (forall r :: r in w.sockets.live ==>
          var s, t := w.At(r), TallyOf(w.posted, r);
          && s.outstandingRecv == t.recvs && s.outstandingSend == t.sends && s.pendingByteSent == t.bytes
          && 0 <= s.pendingByteSent <= 65536
          && (s.state == CONNECTED ==> t.recvs == 1)
          && (s.state in {CLOSING, FAILURE} ==> s.outstandingRecv + s.outstandingSend >= 1)
          && (w.forgets || (s.id != NIL_UUID && s.state != CONNECT_FAILURE ==> s.id in w.ids && w.ids[s.id] == r)))
    && (forall p :: p in w.posted ==>
          p.key in w.sockets.live && p.buf in w.buffers.live && p.buf !in w.buffers.pool &&
            1 <= p.len <= DEFAULT_BUFFER_SIZE)
    && (forall r :: r in w.queue ==>
          r in w.sockets.live && w.At(r).state == DISCONNECTED && w.At(r).pendingByteSent == 0 && w.At(r).Idle())
  }

  lemma {:induction false} InvIsSound(w: World)
    requires Inv(w)
    ensures Sound(w)
  {
    hide TallyOf;
    forall r | r in w.queue
      ensures r in w.sockets.live && w.At(r).state == DISCONNECTED && w.At(r).pendingByteSent == 0 && w.At(r).Idle()
    {
      assert SockOk(w, r);
    }
  }

  /** Every state of every clean run of a manager is sound. */
  lemma {:induction false} RunsAreSound(kind: ManagerType, timeWait: nat, ls: seq<Label>)
    requires MIN_TIME_WAIT_VALUE <= timeWait <= MAX_TIME_WAIT_VALUE && CleanRun(Start(kind, timeWait), ls)
    ensures Sound(Exec(Start(kind, timeWait), ls))
  {
    StartHolds(kind, timeWait);
    hide Inv, CleanRun, Exec, Sound;
    RunKeeps(Start(kind, timeWait), ls);
    InvIsSound(Exec(Start(kind, timeWait), ls));
  }

  // ---------- draining ----------

  function Left(s: Socket): int { s.outstandingRecv + s.outstandingSend }

  /** How many steps of the run handle an operation of socket `q`. */
  ghost function Handlings(w: World, ls: seq<Label>, q: Node): nat
    requires CleanRun(w, ls)
    decreases |ls|
  {
    if ls == [] then 0 else (if Handles(w, ls[0], q) then 1 else 0) + Handlings(w.Step(ls[0]), ls[1..], q)
  }

  lemma {:induction false} DrainOne(w: World, l: Label, q: Node)
    requires Inv(w) && w.Enabled(l) && Clean(w, l) && q in w.sockets.live && Draining(w.At(q).state)
    requires Handles(w, l, q) ==> Left(w.At(q)) > 1
    ensures var w' := w.Step(l);
            && q in w'.sockets.live && Draining(w'.At(q).state)
            && Left(w'.At(q)) == Left(w.At(q)) - (if Handles(w, l, q) then 1 else 0)
  {
    hide Inv, Clean, World.Step, World.Enabled;
    StepKeeps(w, l);
  }

  /** Whatever else the run does, a draining socket loses one operation with each of its completions
      and errors, and stays draining while any is left. */
  lemma {:induction false} DrainsOneByOne(w: World, ls: seq<Label>, q: Node)
    requires Inv(w) && CleanRun(w, ls) && q in w.sockets.live && Draining(w.At(q).state)
    requires Handlings(w, ls, q) < Left(w.At(q))
    ensures var w' := Exec(w, ls);
            && q in w'.sockets.live && Draining(w'.At(q).state)
            && Left(w'.At(q)) == Left(w.At(q)) - Handlings(w, ls, q)
    decreases |ls|
  {
    hide Inv, Clean, World.Step, World.Enabled, Handles;
    if ls != [] {
      DrainOne(w, ls[0], q);
      StepKeeps(w, ls[0]);
      DrainsOneByOne(w.Step(ls[0]), ls[1..], q);
    }
  }

  /** The step that handles its last operation tears it down. */
  lemma {:induction false} LastTearsDown(w: World, ls: seq<Label>, l: Label, q: Node)
    requires Inv(w) && CleanRun(w, ls) && q in w.sockets.live && Draining(w.At(q).state)
    requires Handlings(w, ls, q) == Left(w.At(q)) - 1
    requires var w' := Exec(w, ls); w'.Enabled(l) && Clean(w', l) && Handles(w', l, q)
    ensures var w' := Exec(w, ls).Step(l);
            q in w'.sockets.live ==> w'.At(q).state == DISCONNECTING
  {
    hide Inv, Clean, World.Step, World.Enabled, Handles, Exec, Handlings, CleanRun;
    DrainsOneByOne(w, ls, q);
    RunKeeps(w, ls);
    StepKeeps(Exec(w, ls), l);
  }
}
