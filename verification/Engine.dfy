/** The engine as a transition system in which every public call and every handled
    completion is one step.  The functions follow the handlers branch by branch; the
    operating system's answers are arguments.  `SocketManager` performs the same
    operations in place and is proved equal to these functions. */
module Engine {
  import opened SocketTypes
  import opened RecyclableList
  import opened TimeWait

  function SocketAt(l: Recycler<Socket>, r: Node): Socket { if r in l.mem then l.mem[r] else FREED_SOCKET }

  /** The engine's state.  `since` records, beside each queued socket, the true time at
      which it was disconnected; `clock` is the true time; `faults` counts accesses to
      freed or erased elements; `log` lists what happened to the locks.  `forgets` is false of
      the source; where it is true, a posted disconnect also takes the socket's id out of the map. */
  datatype World = World(
    kind: ManagerType,
    mgr: ManagerState,
    sockets: Recycler<Socket>,
    buffers: Recycler<Buffer>,
    posted: seq<Posted>,
    queue: seq<Node>,
    since: seq<nat>,
    clock: nat,
    current: Option<Node>,
    ids: map<Uuid, Node>,
    nextId: Uuid,
    timeWait: nat,
    faults: nat,
    log: seq<Event>,
    forgets: bool)
  {
    // ---------- memory ----------

    function At(r: Node): Socket { SocketAt(sockets, r) }

    function Put(r: Node, s: Socket): World {
      if r in sockets.mem then this.(sockets := sockets.Write(r, s)) else Fault()
    }

    function BufAt(b: Node): Buffer {
      if b in buffers.mem then buffers.mem[b] else Buffer(Read, 0)
    }

    function PutBuf(b: Node, buf: Buffer): World {
      if b in buffers.mem then this.(buffers := buffers.Write(b, buf)) else Fault()
    }

    function Fault(): World { this.(faults := faults + 1) }

    function Do(e: Event): World { this.(log := log + [e]) }

    /** A critical section whose body takes no other lock. */
    function Section(l: Lock): World { Do(Enter(l)).Do(Leave(l)) }

    function SetState(r: Node, st: SocketState): World { Put(r, At(r).(state := st)) }

    function ChangeSocketState(r: Node, st: SocketState): World {
      SetState(r, st).Section(SockLock(r))
    }

    // ---------- lists ----------

    /** The new buffer is `buffers.Slot()` of the state before. */
    function CreateBuffer(op: Operation): World {
      this.(buffers := buffers.Create(NewBuffer(op), AssignBuffer)).Section(BufListLock)
    }

    function DeleteBuffer(b: Node): World {
      (if b in buffers.live then this.(buffers := buffers.Erase(b)) else Fault()).Section(BufListLock)
    }

    function CreateSocket(): World {
      this.(sockets := sockets.Create(NEW_SOCKET, AssignSocket)).Section(SockListLock)
    }

    /** `ListElt<Socket>::Delete`. */
    function EraseSocket(r: Node): World {
      (if r in sockets.live then this.(sockets := sockets.Erase(r)) else Fault()).Section(SockListLock)
    }

    // ---------- teardown (SocketHelperClasses.cpp) ----------

    /** `Socket::Close`. */
    function Close(r: Node, force: bool, os: TeardownOs): World {
      if !force && os.shutdown == InProgress then this
      else
        var forceClose := force || os.shutdown == Error;
        var w := if forceClose && os.lingerOk then Put(r, At(r).(abortive := true)) else this;
        if os.close == InProgress then w
        else w.Put(r, w.At(r).(hasHandle := false, state := CLOSED))
    }

    /** `Socket::Delete`. */
    function DeleteSocket(r: Node, os: TeardownOs): World {
      var w := Do(Enter(SockLock(r)));
      var s := At(r);
      var w := if s.hasHandle && (s.state == CONNECTED || s.state == FAILURE)
               then w.Close(r, s.state == FAILURE, os) else w;
      w.Do(Leave(SockLock(r))).EraseSocket(r)
    }

    predicate ShouldReuse() { |queue| < MAX_UNUSED_SOCKET }

    /** The tail of `DeleteOrDisconnect`: leave the map, release the lock, leave the list. */
    function Unregister(r: Node): World {
      var st := At(r).state;
      var w := if st == RETRY_CONNECTION then this
               else this.(ids := ids - {At(r).id}).Section(MapLock);
      var w := w.Do(Leave(SockLock(r)));
      if st == CLOSED || st == RETRY_CONNECTION then w.EraseSocket(r) else w
    }

    /** `Socket::DeleteOrDisconnect`. */
    function DeleteOrDisconnect(r: Node, os: TeardownOs): World
      decreases if At(r).state == CLOSING then 2 else 0
    {
      var w := Do(Enter(SockLock(r)));
      match At(r).state
      case CLOSING =>
        var w := w.Section(QueueLock);
        if ShouldReuse() then w.Disconnect(r, os) else w.Close(r, false, os).Unregister(r)
      case CONNECTED => w.Close(r, false, os).Unregister(r)
      case FAILURE => w.Close(r, true, os).Unregister(r)
      case LISTENING => w.Close(r, true, os).Unregister(r)
      case _ => w.Unregister(r)
    }

    /** `Socket::Disconnect`; entered with the socket's lock held. */
    function Disconnect(r: Node, os: TeardownOs): World
      decreases 1
    {
      var b := buffers.Slot();
      var w := CreateBuffer(Operation.Disconnect);
      if os.disconnectOk then
        w.Post(b, r, Operation.Disconnect).SetState(r, DISCONNECTING).Forget(r).Do(Leave(SockLock(r)))
      else
        w.SetState(r, FAILURE).Do(Leave(SockLock(r))).DeleteOrDisconnect(r, os)
    }

    /** The map erase that the source's successful disconnect returns without. */
    function Forget(r: Node): World {
      if forgets then this.(ids := ids - {At(r).id}).Section(MapLock) else this
    }

    // ---------- posting ----------

    /** The system accepts an overlapped operation on buffer `b`, to be reported under `key`. */
    function Post(b: Node, key: Node, op: Operation): World {
      this.(posted := posted + [Posted(b, key, op, BufAt(b).bufLen)])
    }

    function PostRecv(r: Node, b: Node, ok: bool): World {
      (if ok then Post(b, r, Operation.Read).Put(r, At(r).RecvPosted()) else this).Section(SockLock(r))
    }

    function PostSend(r: Node, b: Node, ok: bool): World {
      (if ok then Post(b, r, Operation.Write).Put(r, At(r).SendPosted(BufAt(b).bufLen)) else this)
        .Section(SockLock(r))
    }

    // ---------- sending ----------

    predicate Admits(r: Node, length: nat) {
      At(r).state == CONNECTED && At(r).HasRoom(length)
    }

    /** A new write buffer, at `buffers.Slot()`, sized for the next chunk. */
    function PrepareChunk(length: nat): World {
      var w := CreateBuffer(Operation.Write);
      w.PutBuf(buffers.Slot(), w.BufAt(buffers.Slot()).(bufLen := ChunkLen(length)))
    }

    /** A chunk the system refused: the socket fails and the buffer is dropped. */
    function RefuseChunk(r: Node, b: Node): World {
      PostSend(r, b, false).ChangeSocketState(r, FAILURE).DeleteBuffer(b)
    }

    /** The chunking loop of `SendData`. */
    function SendChunks(r: Node, length: nat, failAt: nat): World
      decreases length
    {
      if length == 0 then this
      else
        var b := buffers.Slot();
        var w := PrepareChunk(length);
        if failAt == 0 then w.RefuseChunk(r, b)
        else w.PostSend(r, b, true).SendChunks(r, length - ChunkLen(length), failAt - 1)
    }

    function SendData(r: Node, length: nat, failAt: nat): World {
      if Admits(r, length) then SendChunks(r, length, failAt) else this
    }

    /** `SendDataToAll` over the rest of the socket list. */
    function SendDataToAll(nodes: seq<Node>, length: nat, failAts: map<Node, nat>): World
      decreases |nodes|
    {
      if nodes == [] then this
      else
        var failAt := if nodes[0] in failAts then failAts[nodes[0]] else length;
        SendData(nodes[0], length, failAt).SendDataToAll(nodes[1..], length, failAts)
    }

    // ---------- creating sockets ----------

    function AddSocketToMap(r: Node, id: Uuid): World {
      var isNew := id == NIL_UUID;
      var id := if isNew then nextId else id;
      var w := this.(nextId := if isNew then nextId + 1 else nextId);
      w.Put(r, w.At(r).(id := id)).(ids := ids[id := r]).Section(MapLock)
    }

    /** Whether the head of the reuse queue has left TIME_WAIT. */
    predicate HeadAged() {
      queue != [] && Aged(Tick(clock), At(queue[0]).timeWaitStartTime, timeWait)
    }

    function ReuseSocket(): (World, Option<Node>) {
      if HeadAged() then
        var r := queue[0];
        (this.(queue := queue[1..], since := if since == [] then [] else since[1..])
          .Put(r, At(r).(timeWaitStartTime := 0)).Section(QueueLock), Some(r))
      else (Section(QueueLock), None)
    }

    function GenerateSocket(reuse: bool, createOk: bool): (World, Option<Node>) {
      var (w, reused) := if reuse then ReuseSocket() else (this, None);
      match reused
      case Some(r) => (w.Do(Take(r)), reused)
      case None =>
        if createOk then (w.CreateSocket().Do(Take(w.sockets.Slot())), Some(w.sockets.Slot()))
        else (w, None)
    }

    function AssociateSocketToIOCP(r: Node, ok: bool): World {
      if ok then SetState(r, ASSOCIATED) else DeleteSocket(r, NEVER_CONNECTED)
    }

    function BindSocket(r: Node, bind: BindOs): World {
      match bind
      case Bound => SetState(r, BOUND)
      case OptionRefused => this
      case BindRefused => DeleteSocket(r, NEVER_CONNECTED)
    }

    /** Association and binding of a socket that is not recycled; the flag tells whether to go on. */
    function PrepareSocket(r: Node, associateOk: bool, bind: BindOs): (World, bool) {
      if At(r).state == DISCONNECTED then (this, true)
      else
        var w := AssociateSocketToIOCP(r, associateOk);
        if !associateOk then (w, false) else (w.BindSocket(r, bind), bind.Bound?)
    }

    function ConnectToNewSocket(id: Uuid, os: ConnectOs): (World, Uuid) {
      if mgr == NOT_READY || kind != CLIENT then (this, NIL_UUID)
      else
        var (w, generated) := GenerateSocket(true, os.createOk);
        match generated
        case None => (w, NIL_UUID)
        case Some(r) =>
          var (w, go) := w.PrepareSocket(r, os.associateOk, os.bind);
          if !go then (w, NIL_UUID)
          else if !os.htonsOk then (w.DeleteSocket(r, NEVER_CONNECTED), NIL_UUID)
          else
            var b := w.buffers.Slot();
            var w := w.CreateBuffer(Operation.Connect);
            if !os.connectOk then (w.DeleteSocket(r, NEVER_CONNECTED), NIL_UUID)
            else
              var w := w.Post(b, r, Operation.Connect).Do(Publish(r)).AddSocketToMap(r, id);
              (w, w.At(r).id)
    }

    function AcceptNewSocket(listener: Node, os: AcceptOs): (World, bool) {
      var (w, generated) := GenerateSocket(true, os.createOk);
      match generated
      case None => (w, false)
      case Some(r) =>
        var w := w.AssociateSocketToIOCP(r, os.associateOk);
        if !os.associateOk then (w, false)
        else
          var w := w.(current := Some(r));
          var b := w.buffers.Slot();
          var w := w.CreateBuffer(Operation.Accept);
          if !os.acceptOk then (w.DeleteSocket(r, NEVER_CONNECTED), false)
          else (w.Post(b, listener, Operation.Accept).Do(Publish(r)).SetState(r, ACCEPTING), true)
    }

    function ListenToNewSocket(os: ListenOs): (World, Uuid) {
      if mgr != READY || kind != SERVER then (this, NIL_UUID)
      else
        var (w, generated) := GenerateSocket(false, os.createOk);
        match generated
        case None => (w, NIL_UUID)
        case Some(r) =>
          if !os.htonsOk then (w.DeleteSocket(r, NEVER_CONNECTED), NIL_UUID)
          else
            var w := w.AssociateSocketToIOCP(r, os.associateOk);
            if !os.associateOk then (w, NIL_UUID)
            else
              var w := w.BindSocket(r, os.bind);
              if !os.bind.Bound? then (w, NIL_UUID)
              else if !os.listenOk then (w.DeleteSocket(r, NEVER_CONNECTED), NIL_UUID)
              else
                var (w, accepting) := w.SetState(r, LISTENING).AcceptNewSocket(r, os.accept);
                if !accepting then (w.DeleteSocket(r, NEVER_CONNECTED), NIL_UUID)
                else
                  var w := w.AddSocketToMap(r, NIL_UUID).(mgr := SERVER_LISTENING);
                  (w, w.At(r).id)
    }

    // ---------- user calls ----------

    /** A call by the user; `own` is the socket whose data is being received, if any. */
    function UserCalls(own: Option<Node>, c: UserCall): World {
      match c
      case SendTo(id, data, failAt) =>
        var w := Section(MapLock);
        if id !in ids then w
        else if ids[id] !in sockets.mem then w.Fault()
        else w.SendData(ids[id], |data|, failAt)
      case SendToAll(data, failAts) => SendDataToAll(sockets.live, |data|, failAts)
      case ConnectNew(os) => ConnectToNewSocket(NIL_UUID, os).0
      case ListenNew(os) => ListenToNewSocket(os).0
      case OwnSend(data, failAt) => if own.Some? then SendData(own.value, |data|, failAt) else this
      case OwnClose => if own.Some? then ChangeSocketState(own.value, CLOSING) else this
    }

    /** `ReceiveData`: any finite sequence of calls. */
    function ReceiveData(own: Node, calls: seq<UserCall>): World
      decreases |calls|
    {
      if calls == [] then this
      else UserCalls(Some(own), calls[0]).ReceiveData(own, calls[1..])
    }

    // ---------- completions ----------

    /** The state in which `ReceiveData` is called. */
    function BeforeReceive(r: Node, b: Node, bytes: nat): World {
      var w := Put(r, At(r).RecvDone()).Section(SockLock(r));
      w.PutBuf(b, w.BufAt(b).(bufLen := bytes))
    }

    /** What follows `ReceiveData`: the buffer is posted again or dropped. */
    function AfterReceive(r: Node, b: Node, recvOk: bool): World {
      var w := PutBuf(b, BufAt(b).(bufLen := DEFAULT_BUFFER_SIZE));
      if w.At(r).state != CONNECTED then w.DeleteBuffer(b)
      else
        var w := w.PostRecv(r, b, recvOk);
        if recvOk then w
        else w.ChangeSocketState(r, FAILURE).Do(Leave(SockLock(r))).DeleteBuffer(b)
    }

    function HandleRead(r: Node, b: Node, bytes: nat, calls: seq<UserCall>, recvOk: bool): World {
      if bytes > 0 then
        BeforeReceive(r, b, bytes).ReceiveData(r, calls).AfterReceive(r, b, recvOk)
      else
        Put(r, At(r).RecvDone()).Section(SockLock(r)).ChangeSocketState(r, CLOSING).DeleteBuffer(b)
    }

    function HandleWrite(r: Node, b: Node, bytes: nat): World {
      var len := BufAt(b).bufLen;
      var w := Put(r, At(r).SendDone(len)).Section(SockLock(r));
      var w := if bytes < len then w.ChangeSocketState(r, FAILURE) else w;
      w.DeleteBuffer(b)
    }

    function HandleDisconnect(r: Node, b: Node): World {
      Put(r, At(r).(state := DISCONNECTED, timeWaitStartTime := Tick(clock))).Section(SockLock(r))
        .(queue := queue + [r], since := since + [clock]).Section(QueueLock)
        .DeleteBuffer(b)
    }

    /** The connected socket's part of `HandleConnection`. */
    function StartReceiving(r: Node, b: Node, os: ConnectionOs): World {
      var w := ChangeSocketState(r, CONNECTED);
      var w := w.PutBuf(b, w.BufAt(b).(operation := Operation.Read)).PostRecv(r, b, os.recvOk);
      if os.optionOk && os.recvOk then w
      else w.ChangeSocketState(r, FAILURE).DeleteBuffer(b).DeleteOrDisconnect(r, os.teardown)
    }

    function HandleConnection(r: Node, b: Node, os: ConnectionOs): World {
      if BufAt(b).operation == Operation.Connect then StartReceiving(r, b, os)
      else if current.None? then Fault()
      else AddSocketToMap(current.value, NIL_UUID).AcceptNewSocket(r, os.accept).0
             .StartReceiving(current.value, b, os)
    }

    /** The check that ends `HandleIo`. */
    function CleanupIfLast(r: Node, os: TeardownOs): World {
      var w := Section(SockLock(r));
      if At(r).Idle() && At(r).state.Rank() > CONNECTED.Rank() then w.DeleteOrDisconnect(r, os) else w
    }

    function HandleIo(r: Node, b: Node, bytes: nat, os: IoOs): World {
      var w := match BufAt(b).operation
        case Read => HandleRead(r, b, bytes, os.callback, os.recvOk)
        case Write => HandleWrite(r, b, bytes)
        case Disconnect => HandleDisconnect(r, b)
        case _ => HandleConnection(r, b, os.connection);
      w.CleanupIfLast(r, os.teardown)
    }

    /** The switch of `HandleError`, entered with the socket's lock held. */
    function MarkError(r: Node, b: Node, addressInUse: bool, os: ConnectOs): World {
      match BufAt(b).operation
      case Connect =>
        if addressInUse then
          var w := this.(timeWait := Doubled(timeWait)).ConnectToNewSocket(At(r).id, os).0;
          w.Put(r, w.At(r).(hasHandle := false, state := RETRY_CONNECTION))
        else SetState(r, CONNECT_FAILURE)
      case Read => Put(r, At(r).RecvDone().(state := FAILURE))
      case Write => Put(r, At(r).SendDone(BufAt(b).bufLen).(state := FAILURE))
      case _ => SetState(r, FAILURE)
    }

    /** The rest of `HandleError`: the lock is released, the socket torn down if it was the
        last operation, and the buffer dropped. */
    function FinishError(r: Node, b: Node, os: TeardownOs): World {
      var w := Do(Leave(SockLock(r)));
      var w := if At(r).Idle() then w.DeleteOrDisconnect(r, os) else w;
      w.DeleteBuffer(b)
    }

    function HandleError(r: Node, b: Node, addressInUse: bool, os: ErrorOs): World {
      Do(Enter(SockLock(r))).MarkError(r, b, addressInUse, os.connect).FinishError(r, b, os.teardown)
    }

    /** The completion of the i-th posted operation is taken from the port. */
    function Dequeue(i: nat): World
      requires i < |posted|
    {
      this.(posted := posted[..i] + posted[i + 1..])
    }

    predicate Enabled(l: Label) {
      && l.at >= clock
      && match l
         case Complete(_, i, bytes, _) => i < |posted| && bytes <= posted[i].len
         case Fail(_, i, _, _) => i < |posted|
         case Call(_, _) => true
    }

    function Step(l: Label): World
      requires Enabled(l)
    {
      var w := this.(clock := l.at);
      match l
      case Complete(_, i, bytes, os) => w.Dequeue(i).HandleIo(posted[i].key, posted[i].buf, bytes, os)
      case Fail(_, i, addressInUse, os) => w.Dequeue(i).HandleError(posted[i].key, posted[i].buf, addressInUse, os)
      case Call(_, c) => w.UserCalls(None, c)
    }
  }

  /** One step, at true time `at`: a completion, a failed completion, or a public call. */
  datatype Label =
    | Complete(at: nat, i: nat, bytes: nat, io: IoOs)
    | Fail(at: nat, i: nat, addressInUse: bool, err: ErrorOs)
    | Call(at: nat, call: UserCall)

  /** A manager whose construction succeeded. */
  function Start(kind: ManagerType, timeWait: nat): World {
    World(kind, READY, Empty(MAX_RECYCLED_SIZE), Empty(MAX_RECYCLED_SIZE), [], [], [], 0, None, map[], 1,
          timeWait, 0, [], false)
  }
}
