/** The order in which the handlers take and release locks. */
module LockDiscipline {
  import opened SocketTypes
  import opened RecyclableList
  import opened Engine
  import opened EngineInvariant
  import opened EngineSteps
  import opened Completions
  import opened TimeWait

  /** What a thread holds, innermost lock last, and the socket it alone can name.
      `ok` fails once the thread breaks the discipline. */
  datatype Hold = Hold(ok: bool, held: seq<Lock>, mine: Option<Node>)

  const NOTHING_HELD := Hold(true, [], None)

  /** The discipline: locks are released innermost first and never taken twice; under a
      container's lock nothing is taken; under a socket's lock only a container's lock is, or,
      when retrying the connection of socket `main`, the lock of the replacement that this
      thread has not yet handed to the system. */
  function Next(h: Hold, e: Event, main: Option<Node>): Hold {
    match e
    case Enter(l) =>
      var allowed :=
        || h.held == []
        || (|h.held| == 1 && h.held[0].SockLock? && l.Container())
        || (|h.held| == 1 && h.held[0].SockLock? && l.SockLock?
            && main == Some(h.held[0].sock) && h.mine == Some(l.sock) && l != h.held[0]);
      h.(ok := h.ok && allowed, held := h.held + [l])
    case Leave(l) =>
      if h.held != [] && h.held[|h.held| - 1] == l then h.(held := h.held[..|h.held| - 1])
      else h.(ok := false)
    case Take(n) => h.(mine := Some(n))
    case Publish(n) => h.(ok := h.ok && h.mine == Some(n), mine := None)
  }

  function Follow(h: Hold, es: seq<Event>, main: Option<Node>): Hold {
    if es == [] then h else Next(Follow(h, es[..|es| - 1], main), es[|es| - 1], main)
  }

  /** What the thread holds after the events logged since position `n`. */
  function Now(w: World, n: nat, main: Option<Node>): Hold {
    if n <= |w.log| then Follow(NOTHING_HELD, w.log[n..], main) else NOTHING_HELD.(ok := false)
  }

  ghost predicate Holding(w: World, n: nat, main: Option<Node>, hs: seq<Lock>) {
    Now(w, n, main).ok && Now(w, n, main).held == hs
  }

  /** A position at which a container's lock may be taken. */
  predicate Shallow(hs: seq<Lock>) { hs == [] || (|hs| == 1 && hs[0].SockLock?) }

  lemma {:induction false} Logged(w: World, w': World, e: Event, n: nat, main: Option<Node>)
    requires n <= |w.log| && w'.log == w.log + [e]
    ensures Now(w', n, main) == Next(Now(w, n, main), e, main)
  {
    var es := w'.log[n..];
    assert es == w.log[n..] + [e];
    assert es[..|es| - 1] == w.log[n..];
  }

  lemma {:induction false} InRange(w: World, n: nat, main: Option<Node>)
    requires Now(w, n, main).ok
    ensures n <= |w.log|
  {
  }

  /** A critical section without inner locks leaves what is held unchanged. */
  lemma {:induction false} SectionHolds(w: World, w': World, l: Lock, n: nat, main: Option<Node>, hs: seq<Lock>)
    requires Holding(w, n, main, hs) && w'.log == w.log + [Enter(l)] + [Leave(l)]
    requires hs == [] || (Shallow(hs) && l.Container())
    ensures Now(w', n, main) == Now(w, n, main)
  {
    hide Follow, Next;
    var w1 := w.(log := w.log + [Enter(l)]);
    Logged(w, w1, Enter(l), n, main);
    Logged(w1, w', Leave(l), n, main);
    EnterLeave(Now(w, n, main), l, main);
  }

  lemma {:induction false} EnterLeave(h: Hold, l: Lock, main: Option<Node>)
    requires h.ok && (h.held == [] || (Shallow(h.held) && l.Container()))
    ensures Next(Next(h, Enter(l), main), Leave(l), main) == h
  {
    assert (h.held + [l])[..|h.held|] == h.held;
  }

  lemma {:induction false} EnterHolds(w: World, w': World, l: Lock, n: nat, main: Option<Node>)
    requires Holding(w, n, main, []) && w'.log == w.log + [Enter(l)]
    ensures Holding(w', n, main, [l]) && Now(w', n, main).mine == Now(w, n, main).mine
  {
    Logged(w, w', Enter(l), n, main);
  }

  lemma {:induction false} LeaveHolds(w: World, w': World, l: Lock, n: nat, main: Option<Node>)
    requires Holding(w, n, main, [l]) && w'.log == w.log + [Leave(l)]
    ensures Holding(w', n, main, []) && Now(w', n, main).mine == Now(w, n, main).mine
  {
    Logged(w, w', Leave(l), n, main);
  }

  // ---------- single operations ----------

  lemma {:induction false} ChangeStateHolds(w: World, r: Node, st: SocketState, n: nat, main: Option<Node>)
    requires Holding(w, n, main, [])
    ensures Now(w.ChangeSocketState(r, st), n, main) == Now(w, n, main)
  {
    hide Follow;
    SectionHolds(w, w.ChangeSocketState(r, st), SockLock(r), n, main, []);
  }

  lemma {:induction false} CreateBufferHolds(w: World, op: Operation, n: nat, main: Option<Node>, hs: seq<Lock>)
    requires Holding(w, n, main, hs) && Shallow(hs)
    ensures Now(w.CreateBuffer(op), n, main) == Now(w, n, main)
  {
    hide Follow;
    SectionHolds(w, w.CreateBuffer(op), BufListLock, n, main, hs);
  }

  lemma {:induction false} DeleteBufferHolds(w: World, b: Node, n: nat, main: Option<Node>, hs: seq<Lock>)
    requires Holding(w, n, main, hs) && Shallow(hs)
    ensures Now(w.DeleteBuffer(b), n, main) == Now(w, n, main)
  {
    hide Follow;
    SectionHolds(w, w.DeleteBuffer(b), BufListLock, n, main, hs);
  }

  lemma {:induction false} EraseSocketHolds(w: World, r: Node, n: nat, main: Option<Node>, hs: seq<Lock>)
    requires Holding(w, n, main, hs) && Shallow(hs)
    ensures Now(w.EraseSocket(r), n, main) == Now(w, n, main)
  {
    hide Follow;
    SectionHolds(w, w.EraseSocket(r), SockListLock, n, main, hs);
  }

  lemma {:induction false} PostRecvHolds(w: World, r: Node, b: Node, ok: bool, n: nat, main: Option<Node>)
    requires Holding(w, n, main, [])
    ensures Now(w.PostRecv(r, b, ok), n, main) == Now(w, n, main)
  {
    hide Follow;
    SectionHolds(w, w.PostRecv(r, b, ok), SockLock(r), n, main, []);
  }

  lemma {:induction false} PostSendHolds(w: World, r: Node, b: Node, ok: bool, n: nat, main: Option<Node>)
    requires Holding(w, n, main, [])
    ensures Now(w.PostSend(r, b, ok), n, main) == Now(w, n, main)
  {
    hide Follow;
    SectionHolds(w, w.PostSend(r, b, ok), SockLock(r), n, main, []);
  }

  lemma {:induction false} AddIdHolds(w: World, r: Node, id: Uuid, n: nat, main: Option<Node>, hs: seq<Lock>)
    requires Holding(w, n, main, hs) && Shallow(hs)
    ensures Now(w.AddSocketToMap(r, id), n, main) == Now(w, n, main)
  {
    hide Follow;
    SectionHolds(w, w.AddSocketToMap(r, id), MapLock, n, main, hs);
  }

  // ---------- teardown ----------

  lemma {:induction false} CloseLog(w: World, r: Node, force: bool, os: TeardownOs)
    ensures w.Close(r, force, os).log == w.log
  {
  }

  /** The tail of a teardown releases the socket's lock once. */
  lemma {:induction false} UnregisterHolds(w: World, r: Node, n: nat, main: Option<Node>)
    requires Holding(w, n, main, [SockLock(r)])
    ensures Holding(w.Unregister(r), n, main, [])
  {
    hide Follow, Now, World.EraseSocket;
    var w1 := if w.At(r).state == RETRY_CONNECTION then w else w.(ids := w.ids - {w.At(r).id}).Section(MapLock);
    if w.At(r).state != RETRY_CONNECTION {
      SectionHolds(w, w1, MapLock, n, main, [SockLock(r)]);
    }
    var w2 := w1.Do(Leave(SockLock(r)));
    LeaveHolds(w1, w2, SockLock(r), n, main);
    EraseSocketHolds(w2, r, n, main, []);
  }

  lemma {:induction false} CloseThenUnregister(w: World, r: Node, force: bool, os: TeardownOs, n: nat,
      main: Option<Node>)
    requires Holding(w, n, main, [SockLock(r)])
    ensures Holding(w.Close(r, force, os).Unregister(r), n, main, [])
  {
    hide World.Unregister, Follow;
    CloseLog(w, r, force, os);
    UnregisterHolds(w.Close(r, force, os), r, n, main);
  }

  /** On every path, through the mutual recursion, a teardown releases the socket's lock
      exactly as often as it takes it. */
  lemma {:induction false} TeardownHolds(w: World, r: Node, os: TeardownOs, n: nat, main: Option<Node>)
    requires Holding(w, n, main, [])
    ensures Holding(w.DeleteOrDisconnect(r, os), n, main, [])
    decreases if w.At(r).state == CLOSING then 2 else 0
  {
    hide Follow, Now, World.Unregister, World.Close, World.Disconnect;
    var w1 := w.Do(Enter(SockLock(r)));
    EnterHolds(w, w1, SockLock(r), n, main);
    match w.At(r).state {
      case CLOSING =>
        var w2 := w1.Section(QueueLock);
        SectionHolds(w1, w2, QueueLock, n, main, [SockLock(r)]);
        if w.ShouldReuse() {
          DisconnectHolds(w2, r, os, n, main);
        } else {
          CloseThenUnregister(w2, r, false, os, n, main);
        }
      case CONNECTED => CloseThenUnregister(w1, r, false, os, n, main);
      case FAILURE => CloseThenUnregister(w1, r, true, os, n, main);
      case LISTENING => CloseThenUnregister(w1, r, true, os, n, main);
      case _ => UnregisterHolds(w1, r, n, main);
    }
  }

  lemma {:induction false} DisconnectHolds(w: World, r: Node, os: TeardownOs, n: nat, main: Option<Node>)
    requires Holding(w, n, main, [SockLock(r)])
    ensures Holding(w.Disconnect(r, os), n, main, [])
    decreases 1
  {
    hide Follow, Now, World.DeleteOrDisconnect;
    var b := w.buffers.Slot();
    var w1 := w.CreateBuffer(Operation.Disconnect);
    CreateBufferHolds(w, Operation.Disconnect, n, main, [SockLock(r)]);
    var w2 := if os.disconnectOk then w1.Post(b, r, Operation.Disconnect).SetState(r, DISCONNECTING)
              else w1.SetState(r, FAILURE);
    assert w2.log == w1.log;
    SameLog(w1, w2, n, main);
    if os.disconnectOk {
      var w3 := w2.Forget(r);
      ForgetHolds(w2, r, n, main);
      LeaveHolds(w3, w3.Do(Leave(SockLock(r))), SockLock(r), n, main);
    } else {
      LeaveHolds(w2, w2.Do(Leave(SockLock(r))), SockLock(r), n, main);
      TeardownHolds(w2.Do(Leave(SockLock(r))), r, os, n, main);
    }
  }

  lemma {:induction false} ForgetHolds(w: World, r: Node, n: nat, main: Option<Node>)
    requires Holding(w, n, main, [SockLock(r)])
    ensures Holding(w.Forget(r), n, main, [SockLock(r)])
  {
    hide Follow, Now;
    if w.forgets {
      SectionHolds(w, w.Forget(r), MapLock, n, main, [SockLock(r)]);
    }
  }

  lemma {:induction false} SameLog(w: World, w': World, n: nat, main: Option<Node>)
    requires w'.log == w.log
    ensures Now(w', n, main) == Now(w, n, main)
  {
  }

  // ---------- sending ----------

  lemma {:induction false} PrepareChunkHolds(w: World, length: nat, n: nat, main: Option<Node>)
    requires Holding(w, n, main, [])
    ensures Now(w.PrepareChunk(length), n, main) == Now(w, n, main)
  {
    hide Follow, Now;
    CreateBufferHolds(w, Operation.Write, n, main, []);
    SameLog(w.CreateBuffer(Operation.Write), w.PrepareChunk(length), n, main);
  }

  lemma {:induction false} SendChunksHolds(w: World, r: Node, length: nat, failAt: nat, n: nat, main: Option<Node>)
    requires Holding(w, n, main, [])
    ensures Now(w.SendChunks(r, length, failAt), n, main) == Now(w, n, main)
    decreases length
  {
    hide Follow, Now, World.PrepareChunk, World.PostSend, World.ChangeSocketState, World.DeleteBuffer;
    if length > 0 {
      var b := w.buffers.Slot();
      var w1 := w.PrepareChunk(length);
      PrepareChunkHolds(w, length, n, main);
      var w2 := w1.PostSend(r, b, failAt > 0);
      PostSendHolds(w1, r, b, failAt > 0, n, main);
      if failAt == 0 {
        ChangeStateHolds(w2, r, FAILURE, n, main);
        DeleteBufferHolds(w2.ChangeSocketState(r, FAILURE), b, n, main, []);
      } else {
        SendChunksHolds(w2, r, length - ChunkLen(length), failAt - 1, n, main);
      }
    }
  }

  lemma {:induction false} SendToAllHolds(w: World, nodes: seq<Node>, length: nat, failAts: map<Node, nat>, n: nat,
      main: Option<Node>)
    requires Holding(w, n, main, [])
    ensures Now(w.SendDataToAll(nodes, length, failAts), n, main) == Now(w, n, main)
    decreases |nodes|
  {
    hide Follow, Now, World.SendChunks;
    if nodes != [] {
      var failAt := if nodes[0] in failAts then failAts[nodes[0]] else length;
      SendChunksHolds(w, nodes[0], length, failAt, n, main);
      SendToAllHolds(w.SendData(nodes[0], length, failAt), nodes[1..], length, failAts, n, main);
    }
  }

  // ---------- creating sockets ----------

  /** A place where sockets may be created: nothing held, or the lock of the socket whose
      connection is retried. */
  predicate Creating(hs: seq<Lock>, main: Option<Node>) {
    hs == [] || (main.Some? && hs == [SockLock(main.value)])
  }

  /** After a creating operation: what is held is unchanged, and the obtained socket is its own. */
  ghost predicate Obtains(w: World, n: nat, main: Option<Node>, hs: seq<Lock>, r: Node) {
    Holding(w, n, main, hs) && Now(w, n, main).mine == Some(r)
  }

  lemma {:induction false} GenerateHolds(w: World, reuse: bool, createOk: bool, n: nat, main: Option<Node>,
      hs: seq<Lock>)
    requires Holding(w, n, main, hs) && Creating(hs, main)
    ensures var (w', g) := w.GenerateSocket(reuse, createOk);
            Holding(w', n, main, hs) && (g.Some? ==> Obtains(w', n, main, hs, g.value))
  {
    hide Follow, Now;
    var (w1, g) := if reuse then w.ReuseSocket() else (w, None);
    if reuse {
      SectionHolds(w, w1, QueueLock, n, main, hs);
    }
    if g.Some? {
      TakeHolds(w1, g.value, n, main, hs);
    } else if createOk {
      var w2 := w1.CreateSocket();
      SectionHolds(w1, w2, SockListLock, n, main, hs);
      TakeHolds(w2, w1.sockets.Slot(), n, main, hs);
    }
  }

  lemma {:induction false} TakeHolds(w: World, r: Node, n: nat, main: Option<Node>, hs: seq<Lock>)
    requires Holding(w, n, main, hs)
    ensures Obtains(w.Do(Take(r)), n, main, hs, r)
  {
    Logged(w, w.Do(Take(r)), Take(r), n, main);
  }

  lemma {:induction false} PublishHolds(w: World, r: Node, n: nat, main: Option<Node>, hs: seq<Lock>)
    requires Obtains(w, n, main, hs, r)
    ensures Holding(w.Do(Publish(r)), n, main, hs)
  {
    Logged(w, w.Do(Publish(r)), Publish(r), n, main);
  }

  /** Deleting a socket that was never handed to the system: the one place where a socket's
      lock is taken under another's. */
  lemma {:induction false} DeleteSocketHolds(w: World, r: Node, n: nat, main: Option<Node>, hs: seq<Lock>)
    requires Obtains(w, n, main, hs, r) && Creating(hs, main)
    requires hs != [] ==> main != Some(r)
    ensures Holding(w.DeleteSocket(r, NEVER_CONNECTED), n, main, hs)
  {
    hide Follow, Now, Next, World.Close;
    InRange(w, n, main);
    var s := w.At(r);
    var w1 := w.Do(Enter(SockLock(r)));
    Logged(w, w1, Enter(SockLock(r)), n, main);
    var w2 := if s.hasHandle && (s.state == CONNECTED || s.state == FAILURE)
              then w1.Close(r, s.state == FAILURE, NEVER_CONNECTED) else w1;
    CloseLog(w1, r, s.state == FAILURE, NEVER_CONNECTED);
    SameLog(w1, w2, n, main);
    var w3 := w2.Do(Leave(SockLock(r)));
    Logged(w2, w3, Leave(SockLock(r)), n, main);
    EnterLeaveNested(Now(w, n, main), r, main);
    EraseSocketHolds(w3, r, n, main, hs);
  }

  lemma {:induction false} EnterLeaveNested(h: Hold, r: Node, main: Option<Node>)
    requires h.ok && Creating(h.held, main) && h.mine == Some(r) && (h.held != [] ==> main != Some(r))
    ensures Next(Next(h, Enter(SockLock(r)), main), Leave(SockLock(r)), main) == h
  {
    assert (h.held + [SockLock(r)])[..|h.held|] == h.held;
  }

  lemma {:induction false} PrepareHolds(w: World, r: Node, associateOk: bool, bind: BindOs, n: nat,
      main: Option<Node>, hs: seq<Lock>)
    requires Obtains(w, n, main, hs, r) && Creating(hs, main) && (hs != [] ==> main != Some(r))
    ensures var (w', go) := w.PrepareSocket(r, associateOk, bind);
            Holding(w', n, main, hs) && (go ==> Obtains(w', n, main, hs, r))
  {
    hide Follow, Now, World.DeleteSocket;
    if w.At(r).state != DISCONNECTED {
      if !associateOk {
        DeleteSocketHolds(w, r, n, main, hs);
      } else {
        var w1 := w.SetState(r, ASSOCIATED);
        SameLog(w, w1, n, main);
        if bind.Bound? {
          SameLog(w1, w1.SetState(r, BOUND), n, main);
        } else if bind.BindRefused? {
          DeleteSocketHolds(w1, r, n, main, hs);
        }
      }
    }
  }

  lemma {:induction false} ConnectHolds(w: World, id: Uuid, os: ConnectOs, n: nat, main: Option<Node>, hs: seq<Lock>)
    requires Holding(w, n, main, hs) && Creating(hs, main)
    requires var g := w.GenerateSocket(true, os.createOk).1; hs != [] && g.Some? ==> main != Some(g.value)
    ensures Holding(w.ConnectToNewSocket(id, os).0, n, main, hs)
  {
    hide Follow, Now, World.GenerateSocket, World.PrepareSocket, World.DeleteSocket, World.CreateBuffer,
         World.AddSocketToMap;
    if w.mgr != NOT_READY && w.kind == CLIENT {
      var (w1, g) := w.GenerateSocket(true, os.createOk);
      GenerateHolds(w, true, os.createOk, n, main, hs);
      if g.Some? {
        var r := g.value;
        var (w2, go) := w1.PrepareSocket(r, os.associateOk, os.bind);
        PrepareHolds(w1, r, os.associateOk, os.bind, n, main, hs);
        if go {
          if !os.htonsOk {
            DeleteSocketHolds(w2, r, n, main, hs);
          } else {
            var b := w2.buffers.Slot();
            var w3 := w2.CreateBuffer(Operation.Connect);
            CreateBufferHolds(w2, Operation.Connect, n, main, hs);
            if !os.connectOk {
              DeleteSocketHolds(w3, r, n, main, hs);
            } else {
              var w4 := w3.Post(b, r, Operation.Connect);
              SameLog(w3, w4, n, main);
              PublishHolds(w4, r, n, main, hs);
              AddIdHolds(w4.Do(Publish(r)), r, id, n, main, hs);
            }
          }
        }
      }
    }
  }

  lemma {:induction false} AcceptHolds(w: World, listener: Node, os: AcceptOs, n: nat, main: Option<Node>)
    requires Holding(w, n, main, [])
    ensures Holding(w.AcceptNewSocket(listener, os).0, n, main, [])
  {
    hide Follow, Now, World.GenerateSocket, World.DeleteSocket, World.CreateBuffer;
    var (w1, g) := w.GenerateSocket(true, os.createOk);
    GenerateHolds(w, true, os.createOk, n, main, []);
    if g.Some? {
      var r := g.value;
      if !os.associateOk {
        DeleteSocketHolds(w1, r, n, main, []);
      } else {
        var w2 := w1.SetState(r, ASSOCIATED).(current := Some(r));
        SameLog(w1, w2, n, main);
        var b := w2.buffers.Slot();
        var w3 := w2.CreateBuffer(Operation.Accept);
        CreateBufferHolds(w2, Operation.Accept, n, main, []);
        if !os.acceptOk {
          DeleteSocketHolds(w3, r, n, main, []);
        } else {
          var w4 := w3.Post(b, listener, Operation.Accept);
          SameLog(w3, w4, n, main);
          PublishHolds(w4, r, n, main, []);
          SameLog(w4.Do(Publish(r)), w4.Do(Publish(r)).SetState(r, ACCEPTING), n, main);
        }
      }
    }
  }

  lemma {:induction false} ListenHolds(w: World, os: ListenOs, n: nat, main: Option<Node>)
    requires Holding(w, n, main, [])
    ensures Holding(w.ListenToNewSocket(os).0, n, main, [])
  {
    hide Follow, Now, World.GenerateSocket, World.DeleteSocket, World.AcceptNewSocket, World.AddSocketToMap;
    if w.mgr == READY && w.kind == SERVER {
      var (w1, g) := w.GenerateSocket(false, os.createOk);
      GenerateHolds(w, false, os.createOk, n, main, []);
      if g.Some? {
        var r := g.value;
        if !os.htonsOk || !os.associateOk {
          DeleteSocketHolds(w1, r, n, main, []);
        } else {
          var w2 := w1.SetState(r, ASSOCIATED);
          SameLog(w1, w2, n, main);
          if os.bind.BindRefused? {
            DeleteSocketHolds(w2, r, n, main, []);
          } else if os.bind.Bound? {
            var w3 := w2.SetState(r, BOUND);
            SameLog(w2, w3, n, main);
            if !os.listenOk {
              DeleteSocketHolds(w3, r, n, main, []);
            } else {
              ListenTail(w3, r, os, n, main);
            }
          }
        }
      }
    }
  }

  lemma {:induction false} ListenTail(w: World, r: Node, os: ListenOs, n: nat, main: Option<Node>)
    requires Holding(w, n, main, [])
    ensures var (w1, accepting) := w.SetState(r, LISTENING).AcceptNewSocket(r, os.accept);
            Holding(if accepting then w1.AddSocketToMap(r, NIL_UUID).(mgr := SERVER_LISTENING)
                    else w1.DeleteSocket(r, NEVER_CONNECTED), n, main, [])
  {
    hide Follow, Now, World.DeleteSocket, World.AcceptNewSocket, World.AddSocketToMap;
    var w0 := w.SetState(r, LISTENING);
    SameLog(w, w0, n, main);
    var (w1, accepting) := w0.AcceptNewSocket(r, os.accept);
    AcceptHolds(w0, r, os.accept, n, main);
    if accepting {
      var w2 := w1.AddSocketToMap(r, NIL_UUID);
      AddIdHolds(w1, r, NIL_UUID, n, main, []);
      SameLog(w2, w2.(mgr := SERVER_LISTENING), n, main);
    } else {
      DeleteTopHolds(w1, r, n, main);
    }
  }

  lemma {:induction false} DeleteTopHolds(w: World, r: Node, n: nat, main: Option<Node>)
    requires Holding(w, n, main, [])
    ensures Holding(w.DeleteSocket(r, NEVER_CONNECTED), n, main, [])
  {
    hide Follow, Now, World.Close, World.EraseSocket;
    var s := w.At(r);
    var w1 := w.Do(Enter(SockLock(r)));
    EnterHolds(w, w1, SockLock(r), n, main);
    var w2 := if s.hasHandle && (s.state == CONNECTED || s.state == FAILURE)
              then w1.Close(r, s.state == FAILURE, NEVER_CONNECTED) else w1;
    CloseLog(w1, r, s.state == FAILURE, NEVER_CONNECTED);
    SameLog(w1, w2, n, main);
    LeaveHolds(w2, w2.Do(Leave(SockLock(r))), SockLock(r), n, main);
    EraseSocketHolds(w2.Do(Leave(SockLock(r))), r, n, main, []);
  }

  // ---------- handlers ----------

  lemma {:induction false} UserCallHolds(w: World, own: Option<Node>, c: UserCall, n: nat, main: Option<Node>)
    requires Holding(w, n, main, [])
    ensures Holding(w.UserCalls(own, c), n, main, [])
  {
    hide Follow, Now, World.SendChunks, World.ConnectToNewSocket, World.ListenToNewSocket, World.SendDataToAll;
    match c {
      case SendTo(id, data, failAt) =>
        var w1 := w.Section(MapLock);
        SectionHolds(w, w1, MapLock, n, main, []);
        if id in w.ids {
          SendChunksHolds(w1, w.ids[id], |data|, failAt, n, main);
          SameLog(w1, w1.Fault(), n, main);
        }
      case SendToAll(data, failAts) => SendToAllHolds(w, w.sockets.live, |data|, failAts, n, main);
      case ConnectNew(os) => ConnectHolds(w, NIL_UUID, os, n, main, []);
      case ListenNew(os) => ListenHolds(w, os, n, main);
      case OwnSend(data, failAt) => if own.Some? { SendChunksHolds(w, own.value, |data|, failAt, n, main); }
      case OwnClose => if own.Some? { ChangeStateHolds(w, own.value, CLOSING, n, main); }
    }
  }

  lemma {:induction false} ReceiveDataHolds(w: World, own: Node, cs: seq<UserCall>, n: nat, main: Option<Node>)
    requires Holding(w, n, main, [])
    ensures Holding(w.ReceiveData(own, cs), n, main, [])
    decreases |cs|
  {
    hide Follow, Now, World.UserCalls;
    if cs != [] {
      UserCallHolds(w, Some(own), cs[0], n, main);
      ReceiveDataHolds(w.UserCalls(Some(own), cs[0]), own, cs[1..], n, main);
    }
  }

  /** The receive handler keeps the discipline exactly unless the next receive is refused: then
      it releases a lock it does not hold. */
  lemma {:induction false} AfterReceiveHoldsIff(w: World, r: Node, b: Node, recvOk: bool, n: nat, main: Option<Node>)
    requires Holding(w, n, main, [])
    ensures Now(w.AfterReceive(r, b, recvOk), n, main).ok <==>
              !(w.PutBuf(b, w.BufAt(b).(bufLen := DEFAULT_BUFFER_SIZE)).At(r).state == CONNECTED && !recvOk)
    ensures Now(w.AfterReceive(r, b, recvOk), n, main).ok ==> Holding(w.AfterReceive(r, b, recvOk), n, main, [])
  {
    hide Follow, Now, World.PostRecv, World.DeleteBuffer, World.ChangeSocketState;
    InRange(w, n, main);
    var w1 := w.PutBuf(b, w.BufAt(b).(bufLen := DEFAULT_BUFFER_SIZE));
    SameLog(w, w1, n, main);
    if w1.At(r).state != CONNECTED {
      DeleteBufferHolds(w1, b, n, main, []);
    } else {
      var w2 := w1.PostRecv(r, b, recvOk);
      PostRecvHolds(w1, r, b, recvOk, n, main);
      if !recvOk {
        var w3 := w2.ChangeSocketState(r, FAILURE);
        ChangeStateHolds(w2, r, FAILURE, n, main);
        var w4 := w3.Do(Leave(SockLock(r)));
        InRange(w3, n, main);
        Logged(w3, w4, Leave(SockLock(r)), n, main);
        BrokenStays(w4, b, n, main);
      }
    }
  }

  /** A broken discipline stays broken. */
  lemma {:induction false} BrokenStays(w: World, b: Node, n: nat, main: Option<Node>)
    requires n <= |w.log| && !Now(w, n, main).ok
    ensures !Now(w.DeleteBuffer(b), n, main).ok
  {
    hide Follow, Now;
    var w1 := w.(log := w.log + [Enter(BufListLock)]);
    Logged(w, w1, Enter(BufListLock), n, main);
    Logged(w1, w.DeleteBuffer(b), Leave(BufListLock), n, main);
  }

  /** The state a receive's callback leaves. */
  function Received(w: World, r: Node, b: Node, bytes: nat, calls: seq<UserCall>): World {
    w.BeforeReceive(r, b, bytes).ReceiveData(r, calls)
  }

  /** Whether the receive handler meets a refused receive on a socket that is still connected. */
  predicate Unmatched(w: World, r: Node, b: Node, bytes: nat, calls: seq<UserCall>, recvOk: bool) {
    var v := Received(w, r, b, bytes, calls);
    bytes > 0 && !recvOk && v.PutBuf(b, v.BufAt(b).(bufLen := DEFAULT_BUFFER_SIZE)).At(r).state == CONNECTED
  }

  lemma {:induction false} RecvDoneHolds(w: World, r: Node, n: nat, main: Option<Node>)
    requires Holding(w, n, main, [])
    ensures Now(w.Put(r, w.At(r).RecvDone()).Section(SockLock(r)), n, main) == Now(w, n, main)
  {
    hide Follow;
    SectionHolds(w, w.Put(r, w.At(r).RecvDone()).Section(SockLock(r)), SockLock(r), n, main, []);
  }

  lemma {:induction false} HandleReadHoldsIff(w: World, r: Node, b: Node, bytes: nat, calls: seq<UserCall>,
      recvOk: bool, n: nat, main: Option<Node>)
    requires Holding(w, n, main, [])
    ensures var w' := w.HandleRead(r, b, bytes, calls, recvOk);
            && (Now(w', n, main).ok <==> !Unmatched(w, r, b, bytes, calls, recvOk))
            && (Now(w', n, main).ok ==> Holding(w', n, main, []))
  {
    hide Follow, Now, World.ReceiveData, World.AfterReceive, World.DeleteBuffer, World.ChangeSocketState;
    var w1 := w.Put(r, w.At(r).RecvDone()).Section(SockLock(r));
    RecvDoneHolds(w, r, n, main);
    if bytes > 0 {
      var w2 := w.BeforeReceive(r, b, bytes);
      SameLog(w1, w2, n, main);
      ReceiveDataHolds(w2, r, calls, n, main);
      AfterReceiveHoldsIff(w2.ReceiveData(r, calls), r, b, recvOk, n, main);
    } else {
      ChangeStateHolds(w1, r, CLOSING, n, main);
      DeleteBufferHolds(w1.ChangeSocketState(r, CLOSING), b, n, main, []);
    }
  }

  lemma {:induction false} HandleWriteHolds(w: World, r: Node, b: Node, bytes: nat, n: nat, main: Option<Node>)
    requires Holding(w, n, main, [])
    ensures Holding(w.HandleWrite(r, b, bytes), n, main, [])
  {
    hide Follow, Now, World.DeleteBuffer, World.ChangeSocketState;
    var w1 := w.Put(r, w.At(r).SendDone(w.BufAt(b).bufLen)).Section(SockLock(r));
    SectionHolds(w, w1, SockLock(r), n, main, []);
    ChangeStateHolds(w1, r, FAILURE, n, main);
    var w2 := if bytes < w.BufAt(b).bufLen then w1.ChangeSocketState(r, FAILURE) else w1;
    DeleteBufferHolds(w2, b, n, main, []);
  }

  lemma {:induction false} HandleDisconnectHolds(w: World, r: Node, b: Node, n: nat, main: Option<Node>)
    requires Holding(w, n, main, [])
    ensures Holding(w.HandleDisconnect(r, b), n, main, [])
  {
    hide Follow, Now, World.DeleteBuffer;
    var w1 := w.Put(r, w.At(r).(state := DISCONNECTED, timeWaitStartTime := Tick(w.clock))).Section(SockLock(r));
    SectionHolds(w, w1, SockLock(r), n, main, []);
    var w2 := w1.(queue := w1.queue + [r], since := w1.since + [w1.clock]).Section(QueueLock);
    SectionHolds(w1, w2, QueueLock, n, main, []);
    DeleteBufferHolds(w2, b, n, main, []);
  }

  lemma {:induction false} StartHolds(w: World, r: Node, b: Node, os: ConnectionOs, n: nat, main: Option<Node>)
    requires Holding(w, n, main, [])
    ensures Holding(w.StartReceiving(r, b, os), n, main, [])
  {
    hide Follow, Now, World.DeleteBuffer, World.ChangeSocketState, World.PostRecv, World.DeleteOrDisconnect;
    var w1 := w.ChangeSocketState(r, CONNECTED);
    ChangeStateHolds(w, r, CONNECTED, n, main);
    var w2 := w1.PutBuf(b, w1.BufAt(b).(operation := Operation.Read));
    SameLog(w1, w2, n, main);
    var w3 := w2.PostRecv(r, b, os.recvOk);
    PostRecvHolds(w2, r, b, os.recvOk, n, main);
    if !(os.optionOk && os.recvOk) {
      var w4 := w3.ChangeSocketState(r, FAILURE);
      ChangeStateHolds(w3, r, FAILURE, n, main);
      DeleteBufferHolds(w4, b, n, main, []);
      TeardownHolds(w4.DeleteBuffer(b), r, os.teardown, n, main);
    }
  }

  lemma {:induction false} HandleConnectionHolds(w: World, r: Node, b: Node, os: ConnectionOs, n: nat,
      main: Option<Node>)
    requires Holding(w, n, main, [])
    ensures Holding(w.HandleConnection(r, b, os), n, main, [])
  {
    hide Follow, Now, World.StartReceiving, World.AcceptNewSocket, World.AddSocketToMap;
    if w.BufAt(b).operation == Operation.Connect {
      StartHolds(w, r, b, os, n, main);
    } else if w.current.None? {
      SameLog(w, w.Fault(), n, main);
    } else {
      var a := w.current.value;
      AddIdHolds(w, a, NIL_UUID, n, main, []);
      AcceptHolds(w.AddSocketToMap(a, NIL_UUID), r, os.accept, n, main);
      StartHolds(w.AddSocketToMap(a, NIL_UUID).AcceptNewSocket(r, os.accept).0, a, b, os, n, main);
    }
  }

  lemma {:induction false} CleanupHolds(w: World, r: Node, os: TeardownOs, n: nat, main: Option<Node>)
    requires Holding(w, n, main, [])
    ensures Holding(w.CleanupIfLast(r, os), n, main, [])
  {
    hide Follow, Now, World.DeleteOrDisconnect;
    SectionHolds(w, w.Section(SockLock(r)), SockLock(r), n, main, []);
    TeardownHolds(w.Section(SockLock(r)), r, os, n, main);
  }

  lemma {:induction false} HandleIoHolds(w: World, r: Node, b: Node, bytes: nat, os: IoOs, n: nat, main: Option<Node>)
    requires Holding(w, n, main, [])
    requires w.BufAt(b).operation == Operation.Read ==> !Unmatched(w, r, b, bytes, os.callback, os.recvOk)
    ensures Holding(w.HandleIo(r, b, bytes, os), n, main, [])
  {
    hide Follow, Now, Unmatched, World.HandleRead, World.HandleWrite, World.HandleDisconnect, World.HandleConnection,
         World.CleanupIfLast;
    var w1 := match w.BufAt(b).operation
      case Read => w.HandleRead(r, b, bytes, os.callback, os.recvOk)
      case Write => w.HandleWrite(r, b, bytes)
      case Disconnect => w.HandleDisconnect(r, b)
      case _ => w.HandleConnection(r, b, os.connection);
    match w.BufAt(b).operation {
      case Read => HandleReadHoldsIff(w, r, b, bytes, os.callback, os.recvOk, n, main);
      case Write => HandleWriteHolds(w, r, b, bytes, n, main);
      case Disconnect => HandleDisconnectHolds(w, r, b, n, main);
      case _ => HandleConnectionHolds(w, r, b, os.connection, n, main);
    }
    CleanupHolds(w1, r, os.teardown, n, main);
  }

  /** Whether the error makes the handler connect another socket. */
  predicate Retries(w: World, b: Node, addressInUse: bool) {
    w.BufAt(b).operation == Operation.Connect && addressInUse
  }

  /** Marking the error under the socket's lock, the retry included. */
  lemma {:induction false} MarkErrorHolds(w: World, r: Node, b: Node, addressInUse: bool, os: ConnectOs, n: nat,
      main: Option<Node>)
    requires Holding(w, n, main, [SockLock(r)])
    requires Retries(w, b, addressInUse) ==>
               var g := w.(timeWait := Doubled(w.timeWait)).GenerateSocket(true, os.createOk).1;
               main == Some(r) && g != Some(r)
    ensures Holding(w.MarkError(r, b, addressInUse, os), n, main, [SockLock(r)])
  {
    hide Follow, Now, World.ConnectToNewSocket, World.GenerateSocket;
    var w' := w.MarkError(r, b, addressInUse, os);
    if Retries(w, b, addressInUse) {
      var w1 := w.(timeWait := Doubled(w.timeWait));
      SameLog(w, w1, n, main);
      ConnectHolds(w1, w.At(r).id, os, n, main, [SockLock(r)]);
      SameLog(w1.ConnectToNewSocket(w.At(r).id, os).0, w', n, main);
    } else {
      SameLog(w, w', n, main);
    }
  }

  /** Only a retry takes a second socket's lock, and only that of the replacement; every other error
      takes the failed socket's lock alone. */
  lemma {:induction false} HandleErrorHolds(w: World, r: Node, b: Node, addressInUse: bool, os: ErrorOs, n: nat,
      main: Option<Node>)
    requires Holding(w, n, main, [])
    requires Retries(w, b, addressInUse) ==>
               var w1 := w.Do(Enter(SockLock(r)));
               main == Some(r) &&
                 w1.(timeWait := Doubled(w.timeWait)).GenerateSocket(true, os.connect.createOk).1 != Some(r)
    ensures Holding(w.HandleError(r, b, addressInUse, os), n, main, [])
  {
    hide Follow, Now, World.GenerateSocket, World.MarkError, World.DeleteOrDisconnect, World.DeleteBuffer;
    var w1 := w.Do(Enter(SockLock(r)));
    EnterHolds(w, w1, SockLock(r), n, main);
    MarkErrorHolds(w1, r, b, addressInUse, os.connect, n, main);
    var w2 := w1.MarkError(r, b, addressInUse, os.connect);
    var w3 := w2.Do(Leave(SockLock(r)));
    LeaveHolds(w2, w3, SockLock(r), n, main);
    TeardownHolds(w3, r, os.teardown, n, main);
    var w4 := if w2.At(r).Idle() then w3.DeleteOrDisconnect(r, os.teardown) else w3;
    DeleteBufferHolds(w4, b, n, main, []);
  }

  // ---------- steps ----------

  /** The socket whose connection the step retries, if it does. */
  function MainOf(w: World, l: Label): Option<Node> {
    if l.Fail? && l.addressInUse && l.i < |w.posted| &&
      w.posted[l.i].op == Operation.Connect then Some(w.posted[l.i].key)
    else None
  }

  /** A step that is not a refused receive on a connected socket. */
  ghost predicate Matched(w: World, l: Label)
    requires w.Enabled(l)
  {
    l.Complete? && w.posted[l.i].op == Operation.Read ==>
      !Unmatched(w.(clock := l.at).Dequeue(l.i), w.posted[l.i].key, w.posted[l.i].buf, l.bytes, l.io.callback,
        l.io.recvOk)
  }

  lemma {:induction false} EmptyLog(w: World, main: Option<Node>)
    ensures Holding(w, |w.log|, main, [])
  {
    assert w.log[|w.log|..] == [];
  }

  lemma {:induction false} ReplacementIsOther(w: World, i: nat, createOk: bool)
    requires Inv(w) && i < |w.posted|
    ensures var r := w.posted[i].key;
            var g := w.Dequeue(i).Do(Enter(SockLock(r))).(timeWait := Doubled(w.timeWait)).GenerateSocket(true,
              createOk).1;
            g != Some(r)
  {
    hide InvExcept, TallyOf, Quiet, Loose;
    var r := w.posted[i].key;
    DequeueKeeps(w, i);
    KeyNotQueued(w, i);
    var w1 := w.Dequeue(i).Do(Enter(SockLock(r)));
    LogKeeps(w.Dequeue(i), w1, {r});
    TimeWaitKeeps(w1, r);
    GenerateKeeps(w1.(timeWait := Doubled(w1.timeWait)), true, createOk, {r});
  }

  lemma {:induction false} KeyNotQueued(w: World, i: nat)
    requires Inv(w) && i < |w.posted|
    ensures w.posted[i].key !in w.queue
  {
    hide InvExcept, TallyOf;
    DequeueKeeps(w, i);
  }

  lemma {:induction false} OperationOf(w: World, i: nat)
    requires Inv(w) && i < |w.posted|
    ensures w.Dequeue(i).BufAt(w.posted[i].buf).operation == w.posted[i].op
  {
    hide InvExcept, TallyOf;
    DequeueKeeps(w, i);
  }

  /** Every step keeps the discipline and ends holding nothing, whatever the system answers,
      unless it is a refused receive on a connected socket. */
  lemma {:induction false} StepHolds(w: World, l: Label)
    requires Inv(w) && w.Enabled(l) && Matched(w, l)
    ensures Holding(w.Step(l), |w.log|, MainOf(w, l), [])
  {
    var w1, n := w.(clock := l.at), |w.log|;
    ClockKeeps(w, l.at);
    hide Inv, InvExcept, Follow, Now, Unmatched, World.HandleIo, World.HandleError, World.UserCalls;
    EmptyLog(w, MainOf(w, l));
    match l {
      case Complete(_, i, bytes, os) =>
        SameLog(w, w1.Dequeue(i), n, None);
        OperationOf(w1, i);
        HandleIoHolds(w1.Dequeue(i), w.posted[i].key, w.posted[i].buf, bytes, os, n, None);
      case Fail(_, i, addressInUse, os) =>
        SameLog(w, w1.Dequeue(i), n, MainOf(w, l));
        OperationOf(w1, i);
        ReplacementIsOther(w1, i, os.connect.createOk);
        HandleErrorHolds(w1.Dequeue(i), w.posted[i].key, w.posted[i].buf, addressInUse, os, n, MainOf(w, l));
      case Call(_, c) =>
        SameLog(w, w1, n, None);
        UserCallHolds(w1, None, c, n, None);
    }
  }
}
