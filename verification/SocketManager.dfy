/** The manager itself: the handlers change sockets, buffers, lists, queue and map in place.
    Every method is proved to do to the abstract `World` what the engine's function of the same
    name says; what those functions keep is proved in the other modules. */
module Manager {
  import opened SocketTypes
  import opened RecyclableList
  import opened TimeWait
  import opened Engine
  import opened Chunking
  import opened EngineInvariant
  import opened Completions
  import opened EngineRuns
  import opened Queries
  import opened Teardown
  import Admission
  import Endings

  class SocketManager {
    const kind: ManagerType
    const inUseSocketList: CriticalRecyclableList<Socket>
    const inUseBufferList: CriticalRecyclableList<Buffer>
    var state: ManagerState
    var reusableSocketQueue: seq<Node>
    var socketAccessMap: map<Uuid, Node>
    var currentAcceptSocket: Option<Node>
    var timeWaitValue: nat

    // The system's side: operations it accepted, the ids it has not given out, and true time.
    var posted: seq<Posted>
    var nextId: Uuid
    var clock: nat
    ghost var since: seq<nat>
    ghost var faults: nat
    ghost var log: seq<Event>

    ghost function Model(): World
      reads this, inUseSocketList, inUseBufferList
    {
      World(kind, state, inUseSocketList.Model(), inUseBufferList.Model(), posted, reusableSocketQueue, since,
            clock, currentAcceptSocket, socketAccessMap, nextId, timeWaitValue, faults, log, false)
    }

    ghost predicate Valid()
      reads this
    {
      && inUseSocketList.assign == AssignSocket && inUseBufferList.assign == AssignBuffer
      && inUseSocketList as object != inUseBufferList as object
    }

    /** A manager whose initialisation succeeds; the registry's answer gives the first delay. */
    constructor (t: ManagerType, answer: Registry)
      ensures Valid() && fresh(inUseSocketList) && fresh(inUseBufferList)
      ensures Model() == Start(t, InitialTimeWait(answer))
    {
      kind := t;
      var sockets := new CriticalRecyclableList<Socket>(MAX_RECYCLED_SIZE, AssignSocket);
      var buffers := new CriticalRecyclableList<Buffer>(MAX_RECYCLED_SIZE, AssignBuffer);
      inUseSocketList, inUseBufferList := sockets, buffers;
      state := NOT_READY;
      reusableSocketQueue, socketAccessMap, currentAcceptSocket, timeWaitValue := [], map[], None, 0;
      posted, nextId, clock := [], 1, 0;
      since, faults, log := [], 0, [];
      new;
      InitTimeWaitValue(answer);
      state := READY;
    }

    method InitTimeWaitValue(answer: Registry)
      modifies this`timeWaitValue
      ensures Model() == old(Model()).(timeWait := InitialTimeWait(answer))
    {
      match answer {
        case Found(v) =>
          if v < MIN_TIME_WAIT_VALUE {
            timeWaitValue := MIN_TIME_WAIT_VALUE;
          } else if v > MAX_TIME_WAIT_VALUE {
            timeWaitValue := MAX_TIME_WAIT_VALUE;
          } else {
            timeWaitValue := v;
          }
        case NotFound => timeWaitValue := DEFAULT_TIME_WAIT_VALUE;
        case Unreadable => timeWaitValue := MAX_TIME_WAIT_VALUE;
      }
    }

    // ---------- memory and locks ----------

    function At(r: Node): (s: Socket)
      reads this, inUseSocketList, inUseBufferList
      ensures s == Model().At(r)
    {
      SocketAt(inUseSocketList.Model(), r)
    }

    function BufAt(b: Node): (buf: Buffer)
      reads this, inUseSocketList, inUseBufferList
      ensures buf == Model().BufAt(b)
    {
      if b in inUseBufferList.mem then inUseBufferList.mem[b] else Buffer(Read, 0)
    }

    method EnterCriticalSection(l: Lock)
      modifies this`log
      ensures Model() == old(Model()).Do(Enter(l))
    {
      log := log + [Enter(l)];
    }

    method LeaveCriticalSection(l: Lock)
      modifies this`log
      ensures Model() == old(Model()).Do(Leave(l))
    {
      log := log + [Leave(l)];
    }

    method Note(e: Event)
      modifies this`log
      ensures Model() == old(Model()).Do(e)
    {
      log := log + [e];
    }

    method Put(r: Node, s: Socket)
      requires Valid()
      modifies this`faults, inUseSocketList`mem
      ensures Valid() && Model() == old(Model()).Put(r, s)
    {
      if r in inUseSocketList.mem {
        inUseSocketList.Write(r, s);
      } else {
        faults := faults + 1;
      }
    }

    method PutBuf(b: Node, buf: Buffer)
      requires Valid()
      modifies this`faults, inUseBufferList`mem
      ensures Valid() && Model() == old(Model()).PutBuf(b, buf)
    {
      if b in inUseBufferList.mem {
        inUseBufferList.Write(b, buf);
      } else {
        faults := faults + 1;
      }
    }

    method SetState(r: Node, st: SocketState)
      requires Valid()
      modifies this`faults, inUseSocketList`mem
      ensures Valid() && Model() == old(Model()).SetState(r, st)
    {
      Put(r, At(r).(state := st));
    }

    method ChangeSocketState(r: Node, st: SocketState)
      requires Valid()
      modifies this, inUseSocketList
      ensures Valid() && Model() == old(Model()).ChangeSocketState(r, st)
    {
      EnterCriticalSection(SockLock(r));
      SetState(r, st);
      LeaveCriticalSection(SockLock(r));
    }

    /** The system accepts an overlapped operation. */
    method Post(b: Node, key: Node, op: Operation)
      requires Valid()
      modifies this`posted
      ensures Valid() && Model() == old(Model()).Post(b, key, op)
    {
      posted := posted + [Posted(b, key, op, BufAt(b).bufLen)];
    }

    method CreateBuffer(op: Operation) returns (b: Node)
      requires Valid()
      modifies this, inUseBufferList
      ensures Valid() && Model() == old(Model()).CreateBuffer(op) && b == old(Model()).buffers.Slot()
    {
      EnterCriticalSection(BufListLock);
      b := inUseBufferList.Create(NewBuffer(op));
      LeaveCriticalSection(BufListLock);
    }

    method DeleteBuffer(b: Node)
      requires Valid()
      modifies this, inUseBufferList
      ensures Valid() && Model() == old(Model()).DeleteBuffer(b)
    {
      EnterCriticalSection(BufListLock);
      if b in inUseBufferList.list {
        inUseBufferList.Delete(b);
      } else {
        faults := faults + 1;
      }
      LeaveCriticalSection(BufListLock);
    }

    method CreateSocket() returns (r: Node)
      requires Valid()
      modifies this, inUseSocketList
      ensures Valid() && Model() == old(Model()).CreateSocket() && r == old(Model()).sockets.Slot()
    {
      EnterCriticalSection(SockListLock);
      r := inUseSocketList.Create(NEW_SOCKET);
      LeaveCriticalSection(SockListLock);
    }

    method EraseSocket(r: Node)
      requires Valid()
      modifies this, inUseSocketList
      ensures Valid() && Model() == old(Model()).EraseSocket(r)
    {
      EnterCriticalSection(SockListLock);
      if r in inUseSocketList.list {
        inUseSocketList.Delete(r);
      } else {
        faults := faults + 1;
      }
      LeaveCriticalSection(SockListLock);
    }

    // ---------- teardown ----------

    method Close(r: Node, forceClose: bool, os: TeardownOs)
      requires Valid()
      modifies this, inUseSocketList
      ensures Valid() && Model() == old(Model()).Close(r, forceClose, os)
    {
      var forceClose := forceClose;
      if !forceClose {
        if os.shutdown == InProgress {
          return;
        }
        forceClose := os.shutdown == Error;
      }
      if forceClose && os.lingerOk {
        Put(r, At(r).(abortive := true));
      }
      if os.close == InProgress {
        return;
      }
      Put(r, At(r).(hasHandle := false, state := CLOSED));
    }

    method DeleteSocket(r: Node, os: TeardownOs)
      requires Valid()
      modifies this, inUseSocketList
      ensures Valid() && Model() == old(Model()).DeleteSocket(r, os)
    {
      EnterCriticalSection(SockLock(r));
      if At(r).hasHandle && (At(r).state == CONNECTED || At(r).state == FAILURE) {
        Close(r, At(r).state == FAILURE, os);
      }
      LeaveCriticalSection(SockLock(r));
      EraseSocket(r);
    }

    method ShouldReuseSocket() returns (reuse: bool)
      requires Valid()
      modifies this`log
      ensures Valid() && Model() == old(Model()).Section(QueueLock) && reuse == old(Model()).ShouldReuse()
    {
      EnterCriticalSection(QueueLock);
      reuse := |reusableSocketQueue| < MAX_UNUSED_SOCKET;
      LeaveCriticalSection(QueueLock);
    }

    /** What ends every teardown that did not turn into a disconnect. */
    method Unregister(r: Node)
      requires Valid()
      modifies this, inUseSocketList
      ensures Valid() && Model() == old(Model()).Unregister(r)
    {
      if At(r).state != RETRY_CONNECTION {
        EnterCriticalSection(MapLock);
        socketAccessMap := socketAccessMap - {At(r).id};
        LeaveCriticalSection(MapLock);
      }
      var needDelete := At(r).state == CLOSED || At(r).state == RETRY_CONNECTION;
      LeaveCriticalSection(SockLock(r));
      if needDelete {
        EraseSocket(r);
      }
    }

    method DeleteOrDisconnect(r: Node, os: TeardownOs)
      requires Valid()
      modifies this, inUseSocketList, inUseBufferList
      ensures Valid() && Model() == old(Model()).DeleteOrDisconnect(r, os)
      decreases if At(r).state == CLOSING then 2 else 0
    {
      hide World.Close, World.Unregister, World.Disconnect;
      EnterCriticalSection(SockLock(r));
      match At(r).state {
        case CLOSING =>
          var reuse := ShouldReuseSocket();
          if reuse {
            Disconnect(r, os);
            return;
          }
          Close(r, false, os);
        case CONNECTED => Close(r, false, os);
        case FAILURE => Close(r, true, os);
        case LISTENING => Close(r, true, os);
        case _ =>
      }
      Unregister(r);
    }

    method Disconnect(r: Node, os: TeardownOs)
      requires Valid()
      modifies this, inUseSocketList, inUseBufferList
      ensures Valid() && Model() == old(Model()).Disconnect(r, os)
      decreases 1
    {
      hide World.DeleteOrDisconnect, World.CreateBuffer;
      var b := CreateBuffer(Operation.Disconnect);
      if !os.disconnectOk {
        SetState(r, FAILURE);
        LeaveCriticalSection(SockLock(r));
        DeleteOrDisconnect(r, os);
        return;
      }
      Post(b, r, Operation.Disconnect);
      SetState(r, DISCONNECTING);
      LeaveCriticalSection(SockLock(r));
    }

    // ---------- posting and sending ----------

    method PostRecv(r: Node, b: Node, ok: bool)
      requires Valid()
      modifies this, inUseSocketList
      ensures Valid() && Model() == old(Model()).PostRecv(r, b, ok)
    {
      EnterCriticalSection(SockLock(r));
      if ok {
        Post(b, r, Operation.Read);
        Put(r, At(r).RecvPosted());
      }
      LeaveCriticalSection(SockLock(r));
    }

    method PostSend(r: Node, b: Node, ok: bool)
      requires Valid()
      modifies this, inUseSocketList
      ensures Valid() && Model() == old(Model()).PostSend(r, b, ok)
    {
      EnterCriticalSection(SockLock(r));
      if ok {
        Post(b, r, Operation.Write);
        Put(r, At(r).SendPosted(BufAt(b).bufLen));
      }
      LeaveCriticalSection(SockLock(r));
    }

    /** The loop of `SendData`: chunk by chunk, each copied from the start of `data`; `wire` is
        what the system was handed. */
    method SendChunks(data: seq<char>, length: nat, r: Node, failAt: nat) returns (wire: seq<char>)
      requires Valid() && length <= |data|
      modifies this, inUseSocketList, inUseBufferList
      ensures Valid() && Model() == old(Model()).SendChunks(r, length, failAt)
      ensures wire == Wire(data, length)[..Min(length, failAt * DEFAULT_BUFFER_SIZE)]
    {
      hide World.PostSend, World.CreateBuffer, World.ChangeSocketState, World.DeleteBuffer;
      SentIsPrefix(data, length, failAt);
      var left, toFail := length, failAt;
      wire := [];
      while left > 0
        invariant Valid() && 0 <= left <= length
        invariant Model().SendChunks(r, left, toFail) == old(Model()).SendChunks(r, length, failAt)
        invariant wire + Sent(data, left, toFail) == Sent(data, length, failAt)
      {
        var b := CreateBuffer(Operation.Write);
        var currentLen := if left > DEFAULT_BUFFER_SIZE then DEFAULT_BUFFER_SIZE else left;
        var bytes := StrNCpy(data, currentLen);
        PutBuf(b, BufAt(b).(bufLen := currentLen));
        if toFail == 0 {
          PostSend(r, b, false);
          ChangeSocketState(r, FAILURE);
          DeleteBuffer(b);
          return;
        }
        PostSend(r, b, true);
        wire := wire + bytes;
        left, toFail := left - currentLen, toFail - 1;
      }
    }

    method SendData(data: seq<char>, length: nat, socket: Option<Node>, failAt: nat) returns (ok: bool, wire: seq<char>)
      requires Valid() && length <= |data|
      modifies this, inUseSocketList, inUseBufferList
      ensures Valid()
      ensures ok <==> socket.Some? && old(At(socket.value)).state == CONNECTED
                      && length + old(At(socket.value)).pendingByteSent <= old(At(socket.value)).maxPendingByteSent
      ensures ok <==> socket.Some? && old(Model()).Admits(socket.value, length)
      ensures Model() == if ok then old(Model()).SendChunks(socket.value, length, failAt) else old(Model())
      ensures Model() == if socket.Some? then old(Model()).SendData(socket.value, length, failAt) else old(Model())
      ensures wire == if ok then Wire(data, length)[..Min(length, failAt * DEFAULT_BUFFER_SIZE)] else []
    {
      hide World.SendChunks;
      if socket.None? || At(socket.value).state != CONNECTED {
        return false, [];
      }
      var r := socket.value;
      if length + At(r).pendingByteSent > At(r).maxPendingByteSent {
        return false, [];
      }
      wire := SendChunks(data, length, r, failAt);
      ok := true;
    }

    /** The number of sockets that took the data; the data goes to those only. */
    method SendDataToAll(data: seq<char>, failAts: map<Node, nat>) returns (nbSucc: nat)
      requires Valid()
      modifies this, inUseSocketList, inUseBufferList
      ensures Valid() && Model() == old(Model()).SendDataToAll(old(inUseSocketList.list), |data|, failAts)
      ensures NoDup(old(inUseSocketList.list)) ==>
                nbSucc == |Admission.Takers(old(Model()), old(inUseSocketList.list), |data|)|
    {
      hide World.SendData, World.Admits;
      nbSucc := 0;
      var nodes, i := inUseSocketList.list, 0;
      assert nodes[0..] == nodes;
      while i < |nodes|
        invariant Valid() && 0 <= i <= |nodes|
        invariant Model().SendDataToAll(nodes[i..], |data|, failAts) ==
            old(Model()).SendDataToAll(nodes, |data|, failAts)
        invariant NoDup(nodes) ==>
            nbSucc + Admitting(Model(), nodes[i..], |data|) == Admitting(old(Model()), nodes, |data|)
      {
        var failAt := if nodes[i] in failAts then failAts[nodes[i]] else |data|;
        var rest := nodes[i..];
        if NoDup(nodes) {
          SendOneOfAll(Model(), rest, |data|, failAt);
        }
        assert rest[0] == nodes[i] && rest[1..] == nodes[i + 1..];
        var ok, _ := SendData(data, |data|, Some(nodes[i]), failAt);
        nbSucc := nbSucc + if ok then 1 else 0;
        i := i + 1;
      }
      if NoDup(nodes) {
        Admission.AdmittingIsCount(old(Model()), nodes, |data|);
      }
    }

    // ---------- creating sockets ----------

    /** `UuidCreateSequential`, then the map. */
    method AddSocketToMap(r: Node, id: Uuid)
      requires Valid()
      modifies this, inUseSocketList
      ensures Valid() && Model() == old(Model()).AddSocketToMap(r, id)
    {
      var id := id;
      if id == NIL_UUID {
        id := nextId;
        nextId := nextId + 1;
      }
      Put(r, At(r).(id := id));
      EnterCriticalSection(MapLock);
      socketAccessMap := socketAccessMap[id := r];
      LeaveCriticalSection(MapLock);
    }

    method ReuseSocket() returns (reused: Option<Node>)
      requires Valid()
      modifies this, inUseSocketList
      ensures Valid() && (Model(), reused) == old(Model()).ReuseSocket()
    {
      hide World.Put;
      reused := None;
      EnterCriticalSection(QueueLock);
      if reusableSocketQueue != [] {
        var front := reusableSocketQueue[0];
        var currentTime := Tick(clock);
        if TickDifference(currentTime, At(front).timeWaitStartTime) > timeWaitValue {
          PopUnderLock(old(Model()), front, At(front).(timeWaitStartTime := 0));
          Put(front, At(front).(timeWaitStartTime := 0));
          reusableSocketQueue := reusableSocketQueue[1..];
          since := if since == [] then [] else since[1..];
          reused := Some(front);
        }
      }
      LeaveCriticalSection(QueueLock);
    }

    method GenerateSocket(reuse: bool, createOk: bool) returns (socket: Option<Node>)
      requires Valid()
      modifies this, inUseSocketList
      ensures Valid() && (Model(), socket) == old(Model()).GenerateSocket(reuse, createOk)
    {
      hide World.ReuseSocket, World.CreateSocket;
      socket := None;
      if reuse {
        socket := ReuseSocket();
      }
      if socket.None? {
        if !createOk {
          return;
        }
        var r := CreateSocket();
        socket := Some(r);
      }
      Note(Take(socket.value));
    }

    method AssociateSocketToIOCP(r: Node, ok: bool)
      requires Valid()
      modifies this, inUseSocketList
      ensures Valid() && Model() == old(Model()).AssociateSocketToIOCP(r, ok)
    {
      if !ok {
        DeleteSocket(r, NEVER_CONNECTED);
        return;
      }
      SetState(r, ASSOCIATED);
    }

    method BindSocket(r: Node, bind: BindOs) returns (ok: bool)
      requires Valid()
      modifies this, inUseSocketList
      ensures Valid() && Model() == old(Model()).BindSocket(r, bind) && ok == bind.Bound?
    {
      if bind.OptionRefused? {
        return false;
      }
      if bind.BindRefused? {
        DeleteSocket(r, NEVER_CONNECTED);
        return false;
      }
      SetState(r, BOUND);
      ok := true;
    }

    /** Association and binding of a socket that is not recycled. */
    method PrepareSocket(r: Node, associateOk: bool, bind: BindOs) returns (go: bool)
      requires Valid()
      modifies this, inUseSocketList
      ensures Valid() && (Model(), go) == old(Model()).PrepareSocket(r, associateOk, bind)
    {
      hide World.AssociateSocketToIOCP, World.BindSocket;
      go := true;
      if At(r).state != DISCONNECTED {
        AssociateSocketToIOCP(r, associateOk);
        if !associateOk {
          return false;
        }
        go := BindSocket(r, bind);
      }
    }

    method ConnectToNewSocket(id: Uuid, os: ConnectOs) returns (newId: Uuid)
      requires Valid()
      modifies this, inUseSocketList, inUseBufferList
      ensures Valid() && (Model(), newId) == old(Model()).ConnectToNewSocket(id, os)
    {
      hide World.GenerateSocket, World.PrepareSocket, World.DeleteSocket;
      hide World.CreateBuffer, World.Post, World.AddSocketToMap, World.Do;
      newId := NIL_UUID;
      if state == NOT_READY || kind != CLIENT {
        return;
      }
      var socket := GenerateSocket(true, os.createOk);
      if socket.None? {
        return;
      }
      var r := socket.value;
      var go := PrepareSocket(r, os.associateOk, os.bind);
      if !go {
        return;
      }
      if !os.htonsOk {
        DeleteSocket(r, NEVER_CONNECTED);
        return;
      }
      var connectObj := CreateBuffer(Operation.Connect);
      if !os.connectOk {
        DeleteSocket(r, NEVER_CONNECTED);
        return;
      }
      Post(connectObj, r, Operation.Connect);
      Note(Publish(r));
      AddSocketToMap(r, id);
      newId := At(r).id;
    }

    method AcceptNewSocket(listener: Node, os: AcceptOs) returns (ok: bool)
      requires Valid()
      modifies this, inUseSocketList, inUseBufferList
      ensures Valid() && (Model(), ok) == old(Model()).AcceptNewSocket(listener, os)
    {
      hide World.GenerateSocket, World.AssociateSocketToIOCP, World.DeleteSocket;
      hide World.CreateBuffer, World.Post, World.SetState, World.Do;
      ok := false;
      var socket := GenerateSocket(true, os.createOk);
      if socket.None? {
        return;
      }
      var r := socket.value;
      AssociateSocketToIOCP(r, os.associateOk);
      if !os.associateOk {
        return;
      }
      currentAcceptSocket := Some(r);
      var acceptObj := CreateBuffer(Operation.Accept);
      if !os.acceptOk {
        DeleteSocket(r, NEVER_CONNECTED);
        return;
      }
      Post(acceptObj, listener, Operation.Accept);
      Note(Publish(r));
      SetState(r, ACCEPTING);
      ok := true;
    }

    method ListenToNewSocket(os: ListenOs) returns (newId: Uuid)
      requires Valid()
      modifies this, inUseSocketList, inUseBufferList
      ensures Valid() && (Model(), newId) == old(Model()).ListenToNewSocket(os)
    {
      hide World.GenerateSocket, World.AssociateSocketToIOCP, World.BindSocket, World.DeleteSocket;
      hide World.AcceptNewSocket, World.SetState, World.AddSocketToMap;
      newId := NIL_UUID;
      if state != READY || kind != SERVER {
        return;
      }
      var socket := GenerateSocket(false, os.createOk);
      if socket.None? {
        return;
      }
      var r := socket.value;
      if !os.htonsOk {
        DeleteSocket(r, NEVER_CONNECTED);
        return;
      }
      AssociateSocketToIOCP(r, os.associateOk);
      if !os.associateOk {
        return;
      }
      var bound := BindSocket(r, os.bind);
      if !bound {
        return;
      }
      if !os.listenOk {
        DeleteSocket(r, NEVER_CONNECTED);
        return;
      }
      SetState(r, LISTENING);
      var accepting := AcceptNewSocket(r, os.accept);
      if !accepting {
        DeleteSocket(r, NEVER_CONNECTED);
        return;
      }
      AddSocketToMap(r, NIL_UUID);
      state := SERVER_LISTENING;
      newId := At(r).id;
    }

    // ---------- the user's side ----------

    /** `CriticalMap::Get`. */
    method Get(id: Uuid) returns (socket: Option<Node>)
      requires Valid()
      modifies this`log
      ensures Valid() && Model() == old(Model()).Section(MapLock)
      ensures socket == if id in socketAccessMap then Some(socketAccessMap[id]) else None
    {
      socket := None;
      EnterCriticalSection(MapLock);
      if id in socketAccessMap {
        socket := Some(socketAccessMap[id]);
      }
      LeaveCriticalSection(MapLock);
    }

    /** Reading through a pointer whose memory may be gone. */
    method Touch(r: Node) returns (there: bool)
      requires Valid()
      modifies this`faults
      ensures Valid() && there == (r in inUseSocketList.mem)
      ensures Model() == if there then old(Model()) else old(Model()).Fault()
    {
      there := r in inUseSocketList.mem;
      if !there {
        faults := faults + 1;
      }
    }

    method Perform(own: Option<Node>, c: UserCall)
      requires Valid()
      modifies this, inUseSocketList, inUseBufferList
      ensures Valid() && Model() == old(Model()).UserCalls(own, c)
    {
      hide World.SendData, World.SendDataToAll, World.ConnectToNewSocket, World.ListenToNewSocket,
           World.ChangeSocketState;
      match c {
        case SendTo(id, data, failAt) =>
          var socket := Get(id);
          if socket.Some? {
            var there := Touch(socket.value);
            if there {
              var _, _ := SendData(data, |data|, socket, failAt);
            }
          }
        case SendToAll(data, failAts) =>
          var _ := SendDataToAll(data, failAts);
        case ConnectNew(os) =>
          var _ := ConnectToNewSocket(NIL_UUID, os);
        case ListenNew(os) =>
          var _ := ListenToNewSocket(os);
        case OwnSend(data, failAt) =>
          if own.Some? {
            var _, _ := SendData(data, |data|, own, failAt);
          }
        case OwnClose =>
          if own.Some? {
            ChangeSocketState(own.value, CLOSING);
          }
      }
    }

    /** The user's callback. */
    method ReceiveData(own: Node, calls: seq<UserCall>)
      requires Valid()
      modifies this, inUseSocketList, inUseBufferList
      ensures Valid() && Model() == old(Model()).ReceiveData(own, calls)
    {
      hide World.UserCalls;
      var i := 0;
      assert calls[0..] == calls;
      while i < |calls|
        invariant Valid() && 0 <= i <= |calls|
        invariant Model().ReceiveData(own, calls[i..]) == old(Model()).ReceiveData(own, calls)
      {
        assert calls[i..][0] == calls[i] && calls[i..][1..] == calls[i + 1..];
        Perform(Some(own), calls[i]);
        i := i + 1;
      }
    }

    // ---------- completions ----------

    method HandleRead(r: Node, b: Node, bytes: nat, calls: seq<UserCall>, recvOk: bool)
      requires Valid()
      modifies this, inUseSocketList, inUseBufferList
      ensures Valid() && Model() == old(Model()).HandleRead(r, b, bytes, calls, recvOk)
    {
      hide World.ReceiveData, World.AfterReceive, World.ChangeSocketState, World.DeleteBuffer, World.Put, World.PutBuf;
      UnderLock(Model(), r, At(r).RecvDone());
      EnterCriticalSection(SockLock(r));
      Put(r, At(r).RecvDone());
      LeaveCriticalSection(SockLock(r));
      if bytes > 0 {
        PutBuf(b, BufAt(b).(bufLen := bytes));
        ReceiveData(r, calls);
        AfterReceive(r, b, recvOk);
      } else {
        ChangeSocketState(r, CLOSING);
        DeleteBuffer(b);
      }
    }

    method AfterReceive(r: Node, b: Node, recvOk: bool)
      requires Valid()
      modifies this, inUseSocketList, inUseBufferList
      ensures Valid() && Model() == old(Model()).AfterReceive(r, b, recvOk)
    {
      hide World.PostRecv, World.ChangeSocketState, World.DeleteBuffer;
      PutBuf(b, BufAt(b).(bufLen := DEFAULT_BUFFER_SIZE));
      if At(r).state != CONNECTED {
        DeleteBuffer(b);
      } else {
        PostRecv(r, b, recvOk);
        if !recvOk {
          ChangeSocketState(r, FAILURE);
          LeaveCriticalSection(SockLock(r));
          DeleteBuffer(b);
        }
      }
    }

    method HandleWrite(r: Node, b: Node, bytes: nat)
      requires Valid()
      modifies this, inUseSocketList, inUseBufferList
      ensures Valid() && Model() == old(Model()).HandleWrite(r, b, bytes)
    {
      hide World.DeleteBuffer, World.ChangeSocketState, World.Put;
      UnderLock(Model(), r, At(r).SendDone(BufAt(b).bufLen));
      EnterCriticalSection(SockLock(r));
      Put(r, At(r).SendDone(BufAt(b).bufLen));
      LeaveCriticalSection(SockLock(r));
      if bytes < BufAt(b).bufLen {
        ChangeSocketState(r, FAILURE);
      }
      DeleteBuffer(b);
    }

    method HandleConnection(r: Node, b: Node, os: ConnectionOs)
      requires Valid()
      modifies this, inUseSocketList, inUseBufferList
      ensures Valid() && Model() == old(Model()).HandleConnection(r, b, os)
    {
      hide World.AcceptNewSocket, World.AddSocketToMap, World.ChangeSocketState, World.PostRecv;
      hide World.DeleteBuffer, World.DeleteOrDisconnect;
      var sock := r;
      if BufAt(b).operation != Operation.Connect {
        if currentAcceptSocket.None? {
          faults := faults + 1;
          return;
        }
        sock := currentAcceptSocket.value;
        AddSocketToMap(sock, NIL_UUID);
        var _ := AcceptNewSocket(r, os.accept);
      }
      ChangeSocketState(sock, CONNECTED);
      PutBuf(b, BufAt(b).(operation := Operation.Read));
      PostRecv(sock, b, os.recvOk);
      if !os.optionOk || !os.recvOk {
        ChangeSocketState(sock, FAILURE);
        DeleteBuffer(b);
        DeleteOrDisconnect(sock, os.teardown);
      }
    }

    method HandleDisconnect(r: Node, b: Node)
      requires Valid()
      modifies this, inUseSocketList, inUseBufferList
      ensures Valid() && Model() == old(Model()).HandleDisconnect(r, b)
    {
      hide World.DeleteBuffer, World.Put;
      UnderLock(Model(), r, At(r).(state := DISCONNECTED, timeWaitStartTime := Tick(clock)));
      EnterCriticalSection(SockLock(r));
      Put(r, At(r).(state := DISCONNECTED, timeWaitStartTime := Tick(clock)));
      LeaveCriticalSection(SockLock(r));
      EnterCriticalSection(QueueLock);
      reusableSocketQueue := reusableSocketQueue + [r];
      since := since + [clock];
      LeaveCriticalSection(QueueLock);
      DeleteBuffer(b);
    }

    method HandleIo(r: Node, b: Node, bytes: nat, os: IoOs)
      requires Valid()
      modifies this, inUseSocketList, inUseBufferList
      ensures Valid() && Model() == old(Model()).HandleIo(r, b, bytes, os)
    {
      hide World.HandleRead, World.HandleWrite, World.HandleDisconnect, World.HandleConnection,
           World.DeleteOrDisconnect;
      match BufAt(b).operation {
        case Read => HandleRead(r, b, bytes, os.callback, os.recvOk);
        case Write => HandleWrite(r, b, bytes);
        case Disconnect => HandleDisconnect(r, b);
        case _ => HandleConnection(r, b, os.connection);
      }
      EnterCriticalSection(SockLock(r));
      var cleanupSocket := At(r).Idle() && At(r).state.Rank() > CONNECTED.Rank();
      LeaveCriticalSection(SockLock(r));
      if cleanupSocket {
        DeleteOrDisconnect(r, os.teardown);
      }
    }

    method HandleError(r: Node, b: Node, addressInUse: bool, os: ErrorOs)
      requires Valid()
      modifies this, inUseSocketList, inUseBufferList
      ensures Valid() && Model() == old(Model()).HandleError(r, b, addressInUse, os)
    {
      hide World.ConnectToNewSocket, World.DeleteOrDisconnect, World.DeleteBuffer;
      EnterCriticalSection(SockLock(r));
      match BufAt(b).operation {
        case Connect =>
          if addressInUse {
            timeWaitValue := timeWaitValue * 2 % TWO_TO_THE_32;
            if timeWaitValue > MAX_TIME_WAIT_VALUE {
              timeWaitValue := MAX_TIME_WAIT_VALUE;
            }
            var _ := ConnectToNewSocket(At(r).id, os.connect);
            Put(r, At(r).(hasHandle := false, state := RETRY_CONNECTION));
          } else {
            SetState(r, CONNECT_FAILURE);
          }
        case Read => Put(r, At(r).RecvDone().(state := FAILURE));
        case Write => Put(r, At(r).SendDone(BufAt(b).bufLen).(state := FAILURE));
        case _ => SetState(r, FAILURE);
      }
      var cleanupSocket := At(r).Idle();
      LeaveCriticalSection(SockLock(r));
      if cleanupSocket {
        DeleteOrDisconnect(r, os.teardown);
      }
      DeleteBuffer(b);
    }

    // ---------- workers ----------

    /** One turn of a worker, or one call from outside. */
    method Serve(l: Label)
      requires Valid() && Model().Enabled(l)
      modifies this, inUseSocketList, inUseBufferList
      ensures Valid() && Model() == old(Model()).Step(l)
    {
      hide World.HandleIo, World.HandleError, World.UserCalls;
      clock := l.at;
      match l {
        case Complete(_, i, bytes, os) =>
          var p := posted[i];
          posted := posted[..i] + posted[i + 1..];
          HandleIo(p.key, p.buf, bytes, os);
        case Fail(_, i, addressInUse, os) =>
          var p := posted[i];
          posted := posted[..i] + posted[i + 1..];
          HandleError(p.key, p.buf, addressInUse, os);
        case Call(_, c) => Perform(None, c);
      }
    }

    /** The loop of the workers over a run: from a state that satisfies the invariant it ends
        in one that does, and everything a user relies on holds there. */
    method ServeAll(packets: seq<Label>)
      requires Valid() && Inv(Model()) && CleanRun(Model(), packets)
      modifies this, inUseSocketList, inUseBufferList
      ensures Valid() && Model() == Exec(old(Model()), packets)
      ensures Inv(Model()) && Sound(Model())
    {
      hide Inv, Clean, Sound, World.Step, World.Enabled;
      var i := 0;
      assert packets[0..] == packets;
      while i < |packets|
        invariant Valid() && 0 <= i <= |packets|
        invariant Inv(Model()) && CleanRun(Model(), packets[i..])
        invariant Exec(Model(), packets[i..]) == Exec(old(Model()), packets)
      {
        assert packets[i..][0] == packets[i] && packets[i..][1..] == packets[i + 1..];
        StepKeeps(Model(), packets[i]);
        Serve(packets[i]);
        i := i + 1;
      }
      InvIsSound(Model());
    }

    // ---------- destruction ----------

    /** `ListElt<Socket>::ClearList`: every socket is closed if it must be, and deleted. */
    method ClearSockets(os: Node -> TeardownOs)
      requires Valid() && inUseSocketList.Model().Valid()
      modifies this, inUseSocketList
      ensures Valid() && inUseSocketList.Model().Valid() && inUseSocketList.list == []
      ensures inUseSocketList.recycleList
           == Filled(old(inUseSocketList.recycleList), old(inUseSocketList.list), inUseSocketList.maxRecycledSize)
      ensures Model().buffers == old(Model().buffers) && posted == old(posted) && faults == old(faults)
      ensures forall q :: q in old(inUseSocketList.list) && q in inUseSocketList.mem ==>
                Endings.DroppedAs(old(At(q)), At(q), os(q))
    {
      hide World.DeleteSocket, Endings.DroppedAs;
      var cap := inUseSocketList.maxRecycledSize;
      while inUseSocketList.list != []
        invariant Valid() && inUseSocketList.Model().Valid()
        invariant Filled(inUseSocketList.recycleList, inUseSocketList.list, cap)
               == Filled(old(inUseSocketList.recycleList), old(inUseSocketList.list), cap)
        invariant Model().buffers == old(Model().buffers) && posted == old(posted) && faults == old(faults)
        invariant forall q :: q in inUseSocketList.list ==> q in old(inUseSocketList.list)
        invariant forall q :: q in old(inUseSocketList.list) && q in inUseSocketList.mem ==>
                    if q in inUseSocketList.list then At(q) == old(At(q))
                    else Endings.DroppedAs(old(At(q)), At(q), os(q))
        decreases |inUseSocketList.list|
      {
        var elt := inUseSocketList.list[0];
        DeleteSocketLists(Model(), elt, os(elt));
        Endings.DeleteOutcome(Model(), elt, os(elt));
        assert elt !in inUseSocketList.list[1..];
        FillOneMore(inUseSocketList.recycleList, inUseSocketList.list, cap);
        DeleteSocket(elt, os(elt));
      }
      assert Filled(inUseSocketList.recycleList, [], cap) == inUseSocketList.recycleList;
    }

    /** The destructor, once no worker is left. */
    method Destroy(os: Node -> TeardownOs)
      requires Valid() && inUseSocketList.Model().Valid() && inUseBufferList.Model().Valid()
      modifies this, inUseSocketList, inUseBufferList
      ensures inUseSocketList.list == [] && inUseBufferList.list == [] && faults == old(faults)
      ensures |inUseSocketList.recycleList| <= inUseSocketList.maxRecycledSize
      ensures inUseBufferList.recycleList
           == Filled(old(inUseBufferList.recycleList), old(inUseBufferList.list), inUseBufferList.maxRecycledSize)
    {
      ClearSockets(os);
      assert inUseBufferList.Model() == old(inUseBufferList.Model());
      inUseBufferList.ClearList();
    }

    // ---------- queries ----------

    method IsSocketInitialising(id: Uuid) returns (initialising: bool)
      requires Valid()
      modifies this`log, this`faults
      ensures Valid() && initialising == SaysInitialising(old(Model()), id)
    {
      initialising := false;
      var socket := Get(id);
      if socket.Some? {
        var _ := Touch(socket.value);
        initialising := At(socket.value).state.Rank() <= RETRY_CONNECTION.Rank();
      }
    }

    method IsClientSocketReady(id: Uuid) returns (ready: bool)
      requires Valid()
      modifies this`log, this`faults
      ensures Valid() && ready == SaysConnected(old(Model()), id)
    {
      ready := false;
      var socket := Get(id);
      if socket.Some? {
        var _ := Touch(socket.value);
        ready := At(socket.value).state == CONNECTED;
      }
    }

    method IsServerSocketReady(id: Uuid) returns (ready: bool)
      requires Valid()
      modifies this`log, this`faults
      ensures Valid() && ready == SaysListening(old(Model()), id)
    {
      ready := false;
      var socket := Get(id);
      if socket.Some? {
        var _ := Touch(socket.value);
        ready := At(socket.value).state == LISTENING;
      }
    }
  }

  /** A store under the socket's lock. */
  lemma {:induction false} UnderLock(w: World, r: Node, s: Socket)
    ensures w.Do(Enter(SockLock(r))).Put(r, s).Do(Leave(SockLock(r))) == w.Put(r, s).Section(SockLock(r))
    ensures w.Do(Enter(SockLock(r))).At(r) == w.At(r)
  {
  }

  /** A store under the queue's lock, and the pop. */
  lemma {:induction false} PopUnderLock(w: World, r: Node, s: Socket)
    requires w.queue != []
    ensures var queue, since := w.queue[1..], if w.since == [] then [] else w.since[1..];
            w.Do(Enter(QueueLock)).Put(r, s).(queue := queue, since := since).Do(Leave(QueueLock))
            == w.(queue := queue, since := since).Put(r, s).Section(QueueLock)
    ensures w.Do(Enter(QueueLock)).Put(r, s).queue == w.queue && w.Do(Enter(QueueLock)).Put(r, s).since == w.since
  {
  }

  /** What clearing does to the lists, one socket at a time. */
  lemma {:induction false} DeleteSocketLists(w: World, r: Node, os: TeardownOs)
    requires w.sockets.Valid() && r in w.sockets.live && w.sockets.live[0] == r
    ensures var w' := w.DeleteSocket(r, os);
            && w'.sockets.Valid() && w'.sockets.live == w.sockets.live[1..]
            && w'.sockets.pool == (if |w.sockets.pool| >= w.sockets.cap then w.sockets.pool else w.sockets.pool + [r])
            && w'.buffers == w.buffers && w'.posted == w.posted && w'.faults == w.faults
  {
    hide World.Close, World.EraseSocket;
    var w1 := w.Do(Enter(SockLock(r)));
    var w2 := if w.At(r).hasHandle && (w.At(r).state == CONNECTED || w.At(r).state == FAILURE)
              then w1.Close(r, w.At(r).state == FAILURE, os) else w1;
    CloseLists(w1, r, w.At(r).state == FAILURE, os);
    EraseFrontLists(w2.Do(Leave(SockLock(r))), r);
  }

  lemma {:induction false} EraseFrontLists(w: World, r: Node)
    requires w.sockets.Valid() && r in w.sockets.live && w.sockets.live[0] == r
    ensures var w' := w.EraseSocket(r);
            && w'.sockets.Valid() && w'.sockets.live == w.sockets.live[1..]
            && w'.sockets.pool == (if |w.sockets.pool| >= w.sockets.cap then w.sockets.pool else w.sockets.pool + [r])
            && w'.buffers == w.buffers && w'.posted == w.posted && w'.faults == w.faults
  {
    EraseKeeps(w.sockets, r);
    WithoutIsCut(w.sockets.live, 0);
  }

  lemma {:induction false} CloseLists(w: World, r: Node, force: bool, os: TeardownOs)
    requires w.sockets.Valid() && r in w.sockets.live
    ensures var w' := w.Close(r, force, os);
            && w'.sockets.Valid() && w'.sockets == w.sockets.(mem := w'.sockets.mem)
            && w' == w.(sockets := w'.sockets)
  {
  }
}
