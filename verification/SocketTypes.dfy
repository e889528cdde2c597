/** The records the socket engine works on: sockets, buffers, locks, and the
    outcomes the operating system may report.  Addresses are numbers: a `Node`
    stands for one node of a `std::list`, and a pointer to an element is the
    number of the node that holds it. */
module SocketTypes {

  type Node = int
  type Uuid = int

  const NIL_UUID: Uuid := 0

  const DEFAULT_BUFFER_SIZE := 4096
  const DEFAULT_MAX_PENDING_BYTE_SENT := 65536
  const MAX_UNUSED_SOCKET := 30
  const MAX_RECYCLED_SIZE := 250
  const TWO_TO_THE_32 := 0x1_0000_0000

  datatype Option<+T> = None | Some(value: T)

  datatype SocketState =
    | INIT | ASSOCIATED | BOUND | RETRY_CONNECTION | DISCONNECTED | LISTENING | ACCEPTING
    | CONNECT_FAILURE | CONNECTED | CLOSING | FAILURE | DISCONNECTING | CLOSED
  {
    /** Position in the enumeration; the engine compares states with `<` and `>`. */
    function Rank(): nat {
      match this
      case INIT => 0
      case ASSOCIATED => 1
      case BOUND => 2
      case RETRY_CONNECTION => 3
      case DISCONNECTED => 4
      case LISTENING => 5
      case ACCEPTING => 6
      case CONNECT_FAILURE => 7
      case CONNECTED => 8
      case CLOSING => 9
      case FAILURE => 10
      case DISCONNECTING => 11
      case CLOSED => 12
    }
  }

  datatype Operation = Read | Write | Connect | Disconnect | Accept

  /** One socket.  `hasHandle` is `s != INVALID_SOCKET`; `abortive` records that
      lingering was switched off before the handle was closed. */
  datatype Socket = Socket(
    id: Uuid,
    hasHandle: bool,
    abortive: bool,
    state: SocketState,
    outstandingRecv: int,
    outstandingSend: int,
    pendingByteSent: int,
    maxPendingByteSent: nat,
    timeWaitStartTime: nat)
  {
    /** Accounting of a send the system accepted. */
    function SendPosted(len: nat): Socket {
      this.(outstandingSend := outstandingSend + 1, pendingByteSent := pendingByteSent + len)
    }

    /** Accounting of a send that completed or failed. */
    function SendDone(len: nat): Socket {
      this.(outstandingSend := outstandingSend - 1, pendingByteSent := pendingByteSent - len)
    }

    function RecvPosted(): Socket { this.(outstandingRecv := outstandingRecv + 1) }

    function RecvDone(): Socket { this.(outstandingRecv := outstandingRecv - 1) }

    predicate Idle() { outstandingRecv == 0 && outstandingSend == 0 }

    /** The admission test of a send of `len` bytes. */
    predicate HasRoom(len: nat) { len + pendingByteSent <= maxPendingByteSent }
  }

  /** What the constructor builds. */
  const NEW_SOCKET := Socket(NIL_UUID, true, false, INIT, 0, 0, 0, DEFAULT_MAX_PENDING_BYTE_SENT, 0)

  /** What reading through a pointer to a freed node is taken to give. */
  const FREED_SOCKET := NEW_SOCKET.(hasHandle := false, state := CLOSED)

  /** Assignment to a recycled socket keeps the old `maxPendingByteSent`. */
  function AssignSocket(target: Socket, source: Socket): Socket {
    source.(maxPendingByteSent := target.maxPendingByteSent)
  }

  datatype Buffer = Buffer(operation: Operation, bufLen: nat)

  function NewBuffer(op: Operation): Buffer { Buffer(op, DEFAULT_BUFFER_SIZE) }

  /** Assignment to a recycled buffer keeps the old `bufLen`. */
  function AssignBuffer(target: Buffer, source: Buffer): Buffer {
    source.(bufLen := target.bufLen)
  }

  function ChunkLen(length: nat): nat {
    if length > DEFAULT_BUFFER_SIZE then DEFAULT_BUFFER_SIZE else length
  }

  /** The locks of the engine. */
  datatype Lock = SockLock(sock: Node) | MapLock | QueueLock | SockListLock | BufListLock {
    predicate Container() { !SockLock? }
  }

  /** What a thread does to the locks, plus two marks: it obtained a socket that no
      other thread can name, and it handed such a socket to the system. */
  datatype Event = Enter(l: Lock) | Leave(l: Lock) | Take(n: Node) | Publish(n: Node)

  /** An overlapped operation the system accepted and whose completion has not been accounted for. */
  datatype Posted = Posted(buf: Node, key: Node, op: Operation, len: nat)

  datatype SysResult = Ok | InProgress | Error

  /** Outcomes of the calls made while a socket is torn down. */
  datatype TeardownOs = TeardownOs(disconnectOk: bool, shutdown: SysResult, lingerOk: bool, close: SysResult) {
    /** Whether `Close` runs to its end. */
    predicate Completes(force: bool) {
      (force || shutdown != InProgress) && close != InProgress
    }
  }

  /** Binding first sets two options; a refusal there leaves the socket where it is. */
  datatype BindOs = Bound | OptionRefused | BindRefused

  datatype ConnectOs = ConnectOs(createOk: bool, associateOk: bool, bind: BindOs, htonsOk: bool, connectOk: bool)

  datatype AcceptOs = AcceptOs(createOk: bool, associateOk: bool, acceptOk: bool)

  /** The outcomes for tearing down a socket that was never connected: they cannot matter. */
  const NEVER_CONNECTED := TeardownOs(true, Ok, true, Ok)

  datatype ListenOs = ListenOs(createOk: bool, htonsOk: bool, associateOk: bool, bind: BindOs, listenOk: bool,
    accept: AcceptOs)

  datatype ManagerType = CLIENT | SERVER

  datatype ManagerState = NOT_READY | READY | SERVER_LISTENING

  /** A call the user may make.  `failAt` is the index of the first chunk whose post fails;
      `OwnSend` and `OwnClose` are only made while the socket's own data is being received. */
  datatype UserCall =
    | SendTo(id: Uuid, data: seq<char>, failAt: nat)
    | SendToAll(data: seq<char>, failAts: map<Node, nat>)
    | ConnectNew(connect: ConnectOs)
    | ListenNew(listen: ListenOs)
    | OwnSend(data: seq<char>, failAt: nat)
    | OwnClose

  datatype ConnectionOs = ConnectionOs(accept: AcceptOs, optionOk: bool, recvOk: bool, teardown: TeardownOs)

  /** Outcomes of one successful completion: what the receive callback does, whether the
      next receive is accepted, and what the system answers meanwhile. */
  datatype IoOs = IoOs(callback: seq<UserCall>, recvOk: bool, connection: ConnectionOs, teardown: TeardownOs)

  datatype ErrorOs = ErrorOs(connect: ConnectOs, teardown: TeardownOs)
}
