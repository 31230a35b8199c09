/**
 The FTP data transfer as a state machine: the session's callbacks on the loop thread, the queue of
 deferred functors of its event loop, the disk pool's threads, the data connections and the table of
 open descriptors. Every answer of the environment (socket writes, disk reads, `open`, a full pool,
 the peer) is a parameter of the action, so a run is a sequence of actions.

 One loop iteration is an event phase followed by a functor phase; a functor queued during the
 functor phase waits for the next one. A call through a null pointer or an empty callback and a failed
 assertion end the run (`failed`).
 */
module Transfer {
  import opened Bytes
  import opened Sequences
  import opened Tcp
  import opened Wrappers

  type ConnId = nat
  type ServerId = nat
  type File = seq<byte>

  /** Bytes asked of each disk read. */
  const CHUNK := 65536

  datatype Xfer = Nothing | Listing | Retrieving

  /** A descriptor number, and (as history) which `open` it came from. */
  datatype Descriptor = Descriptor(num: nat, origin: nat)

  datatype OpenFile = OpenFile(origin: nat, content: File)

  datatype Job = ReadAt(fd: Option<Descriptor>, offset: nat) | Stat

  /**
   What a finished job found. `clean` and `limit` are history: whether the read happened while its
   descriptor was still the one opened for its transfer, and how much it could return at most.
   */
  datatype Outcome = Outcome(data: seq<byte>, atEof: bool, error: bool, clean: bool, limit: nat)

  /** Work in the disk pool, submitted under a transfer generation. */
  datatype Task = Task(gen: nat, job: Job, outcome: Option<Outcome>)

  datatype Functor =
    | Ready(gen: nat, outcome: Outcome)
    | Complete(conn: ConnId, bound: bool)
    | Close(conn: ConnId)
    | CloseServer
    | DeleteServer(server: ServerId)

  /**
   A data connection; `pump` says its write-complete callback is set, `file` what RETR sends on it. `sizes`
   is history: the limits of the reads whose results it took, in order.
   */
  datatype DataConn = DataConn(tcp: Conn, pump: bool, server: ServerId, file: Option<File>, sizes: seq<nat>)

  /**
   A control reply. The two 226 replies stand apart; that of a RETR records what the socket had been given
   by then and the limits of the reads that gave it.
   */
  datatype Reply = Code(n: nat) | ListComplete | TransferComplete(file: File, written: seq<byte>, sizes: seq<nat>)

  datatype Phase = Events | Functors

  /**
   The session with its loop. Servers below `earlier` were opened in an earlier iteration of the loop; `joined` are
   those that got a connection.
   */
  datatype State = State(
    xfer: Xfer, gen: nat, offset: nat, done: bool, fd: Option<Descriptor>, target: File,
    data: Option<ConnId>, active: Option<ConnId>, server: Option<ServerId>, earlier: ServerId, joined: set<ServerId>,
    conns: map<ConnId, DataConn>, nextConn: nat, nextServer: nat,
    table: map<nat, OpenFile>, nextOpen: nat,
    pool: seq<Task>, queue: seq<Functor>, mark: nat, phase: Phase,
    replies: seq<Reply>, sent: seq<Outcome>, failed: bool)

  const START := State(
    Nothing, 0, 0, false, None, [], None, None, None, 0, {}, map[], 0, 0, map[], 0, [], [], 0, Events, [], [], false)

  /** The environment's answers during one action. */
  datatype Env = Env(openOk: bool, fdNum: nat, submitOk: bool, emptyDir: bool, write: WriteResult, victim: ConnId)

  // ---------------------------------------------------------------------------------------------
  // The session's functions
  // ---------------------------------------------------------------------------------------------

  function Say(s: State, r: Reply): State { s.(replies := s.replies + [r]) }

  function Enqueue(s: State, f: Functor): State { s.(queue := s.queue + [f]) }

  function SetTcp(s: State, c: ConnId, t: Conn): State
    requires c in s.conns
  {
    s.(conns := s.conns[c := s.conns[c].(tcp := t)])
  }

  predicate DataUp(s: State) {
    s.data.Some? && s.data.value in s.conns && s.conns[s.data.value].tcp.state == Connected
  }

  /** `forceClose` on the data connection, if there is one. */
  function DropData(s: State): State {
    if s.data.Some? && s.data.value in s.conns && Open(s.conns[s.data.value].tcp) then
      var c := s.data.value;
      Enqueue(SetTcp(s, c, ForceClose(s.conns[c].tcp)), Close(c))
    else s
  }

  /** `abortTransfer`: close the descriptor and move to the next generation. */
  function Abort(s: State): State {
    s.(xfer := Nothing, done := false, offset := 0, gen := s.gen + 1, fd := None,
       table := if s.fd.Some? then s.table - {s.fd.value.num} else s.table,
       conns := if s.data.Some? && s.data.value in s.conns
                then s.conns[s.data.value := s.conns[s.data.value].(pump := false)] else s.conns)
  }

  /** `closeDataServer`. */
  function Release(s: State): State {
    var t := s.(data := None);
    if s.server.None? then t else Enqueue(t.(server := None), DeleteServer(s.server.value))
  }

  /** Give a transfer up: abort, drop the data connection and release the data server. */
  function GiveUp(s: State, code: nat): State {
    Enqueue(DropData(Abort(Say(s, Code(code)))), CloseServer)
  }

  /** `requestNextChunk`. A refused submission aborts, which also takes back the advanced offset. */
  function Request(s: State, e: Env): State {
    if s.xfer == Nothing || !DataUp(s) then s
    else if s.xfer == Listing && e.emptyDir then ChunkReady(s, s.gen, END_OF_LIST, e)
    else if e.submitOk then Submit(s)
    else GiveUp(s, 451)
  }

  const END_OF_LIST := Outcome([], true, false, true, 0)

  function Submit(s: State): State {
    if s.xfer == Listing then s.(pool := s.pool + [Task(s.gen, Stat, None)])
    else s.(pool := s.pool + [Task(s.gen, ReadAt(s.fd, s.offset), None)], offset := s.offset + CHUNK)
  }

  /** `sendChunkReady`. */
  function ChunkReady(s: State, gen: nat, o: Outcome, e: Env): State {
    if gen != s.gen || s.xfer == Nothing then s
    else if o.error then GiveUp(s, 550)
    else if o.data == [] && o.atEof then
      if s.data.None? || s.data.value !in s.conns then s.(failed := true)
      else Ended(s, s.data.value, o.limit)
    else if !DataUp(s) then s
    else SendChunk(s, o, e.write)
  }

  /** The reads of a RETR's connection, once it took the result of one that could return `limit` bytes. */
  function NoteRead(s: State, k: DataConn, limit: nat): seq<nat> {
    if s.xfer == Retrieving then k.sizes + [limit] else k.sizes
  }

  /** The end of the file: the session's `done`, and a half-close of the data connection. */
  function Ended(s: State, c: ConnId, limit: nat): State
    requires c in s.conns
  {
    var k := s.conns[c];
    s.(done := true, conns := s.conns[c := k.(tcp := Shutdown(k.tcp), sizes := NoteRead(s, k, limit))])
  }

  function SendChunk(s: State, o: Outcome, r: WriteResult): State
    requires DataUp(s)
  {
    var c := s.data.value;
    if SendCompletes(s.conns[c].tcp, o.data, r) && s.conns[c].pump then Enqueue(Sent(s, o, r), Complete(c, true))
    else Sent(s, o, r)
  }

  function Sent(s: State, o: Outcome, r: WriteResult): State
    requires DataUp(s)
  {
    var c := s.data.value;
    s.(conns := s.conns[c := SentOn(s, s.conns[c], o, r)], sent := s.sent + [o])
  }

  /** The message is dropped whole, or accepted and its read noted. */
  function SentOn(s: State, k: DataConn, o: Outcome, r: WriteResult): DataConn {
    var tcp := SendInLoop(k.tcp, o.data, r);
    k.(tcp := tcp, sizes := if tcp.accepted == k.tcp.accepted then k.sizes else NoteRead(s, k, o.limit))
  }

  /** `tryStartTransfer`, called when either side becomes ready. */
  function TryStart(s: State, e: Env): State {
    if !DataUp(s) || s.xfer == Nothing then s
    else if s.xfer == Listing then
      if e.openOk then Request(s, e) else Enqueue(DropData(Say(s, Code(550))), CloseServer)
    else if e.openOk && e.fdNum !in s.table then Request(OpenTarget(s, e.fdNum), e)
    else Enqueue(DropData(Say(s, Code(550))), CloseServer)
  }

  function OpenTarget(s: State, num: nat): State
    requires DataUp(s)
  {
    s.(fd := Some(Descriptor(num, s.nextOpen)), nextOpen := s.nextOpen + 1,
       table := s.table[num := OpenFile(s.nextOpen, s.target)], active := s.data,
       conns := s.conns[s.data.value := s.conns[s.data.value].(file := Some(s.target), sizes := [])])
  }

  /** What the active connection had given the kernel. */
  function Written(s: State): seq<byte> {
    if s.active.Some? && s.active.value in s.conns then s.conns[s.active.value].tcp.kernel else []
  }

  function ReadSizes(s: State): seq<nat> {
    if s.active.Some? && s.active.value in s.conns then s.conns[s.active.value].sizes else []
  }

  /** The reply to a data connection going down. */
  function DownReply(s: State): Reply {
    if !s.done then Code(426)
    else if s.xfer == Listing then ListComplete
    else TransferComplete(s.target, Written(s), ReadSizes(s))
  }

  /** `handleDataConnected` once the connection is down. */
  function Down(s: State): State {
    Enqueue(Abort(if s.xfer == Nothing then s else Say(s, DownReply(s))), CloseServer)
  }

  /** `handleClose` of a data connection, up to its connection callback. */
  function CloseConn(s: State, c: ConnId): State {
    if c in s.conns && Open(s.conns[c].tcp) then Down(SetTcp(s, c, HandleClose(s.conns[c].tcp))) else s
  }

  // ---------------------------------------------------------------------------------------------
  // Actions
  // ---------------------------------------------------------------------------------------------

  datatype Action =
    | Pasv
    | PasvTimeout
    | ListCommand(e: Env)
    | RetrCommand(file: File, e: Env)
    | DataConnected(to: ServerId, e: Env)
    | DataEof(conn: ConnId)
    | DataWritable(conn: ConnId, r: WriteResult)
    | DiskRead(i: nat, n: nat, error: bool, listing: seq<byte>, stray: seq<byte>)
    | DiskQueue(i: nat)
    | BeginFunctors
    | RunFunctor(e: Env)
    | EndFunctors

  function AcceptConn(s: State, to: ServerId, e: Env): State {
    if s.data.Some? then Refuse(s, to) else TryStart(Adopt(s, to), e)
  }

  /** A second data connection is closed at once. */
  function Refuse(s: State, to: ServerId): State {
    var c := s.nextConn;
    var k := DataConn(ForceClose(Establish(NEW_CONN)), false, to, None, []);
    Enqueue(s.(conns := s.conns[c := k], nextConn := c + 1, joined := s.joined + {to}), Close(c))
  }

  function Adopt(s: State, to: ServerId): State {
    var c := s.nextConn;
    s.(conns := s.conns[c := DataConn(Establish(NEW_CONN), true, to, None, [])], nextConn := c + 1, data := Some(c),
       joined := s.joined + {to})
  }

  function WritableConn(s: State, c: ConnId, r: WriteResult): State {
    if c !in s.conns then s
    else if WriteCompletes(s.conns[c].tcp, r) && s.conns[c].pump then Enqueue(Drained(s, c, r), Complete(c, false))
    else Drained(s, c, r)
  }

  function Drained(s: State, c: ConnId, r: WriteResult): State
    requires c in s.conns
  {
    SetTcp(s, c, HandleWrite(s.conns[c].tcp, r))
  }

  function Min(a: nat, b: nat): nat { if a < b then a else b }

  /** At most `n` bytes of `file` from `offset`, as one `pread` of a regular file gives them. */
  function Slice(file: File, offset: nat, n: nat): seq<byte> {
    file[Min(offset, |file|)..Min(offset + n, |file|)]
  }

  /** The number still means the file opened for the transfer. */
  predicate StillOpen(table: map<nat, OpenFile>, fd: Descriptor) {
    fd.num in table && table[fd.num].origin == fd.origin
  }

  /**
   `pread` on whatever the descriptor number means now. Once closed it may mean anything the process has
   open: the read may fail, or return any bytes at all (`stray`).
   */
  function Pread(s: State, fd: Option<Descriptor>, offset: nat, n: nat, error: bool, stray: seq<byte>): Outcome {
    var most := Min(n, CHUNK);
    if error || fd.None? then Outcome([], false, true, true, n)
    else if StillOpen(s.table, fd.value) then
      var d := Slice(s.table[fd.value.num].content, offset, most);
      Outcome(d, d == [], false, true, n)
    else
      var d := stray[..Min(most, |stray|)];
      Outcome(d, d == [], false, false, n)
  }

  function ReadTask(s: State, i: nat, n: nat, error: bool, listing: seq<byte>, stray: seq<byte>): State
    requires i < |s.pool|
  {
    var t := s.pool[i];
    var o := match t.job
      case ReadAt(fd, offset) => Pread(s, fd, offset, n, error, stray)
      case Stat => Outcome(listing, false, false, true, n);
    s.(pool := s.pool[i := t.(outcome := Some(o))])
  }

  function QueueTask(s: State, i: nat): State
    requires i < |s.pool| && s.pool[i].outcome.Some?
  {
    Enqueue(s.(pool := RemoveAt(s.pool, i)), Ready(s.pool[i].gen, s.pool[i].outcome.value))
  }

  /** Drop the functor that just ran. */
  function Pop(s: State): State
    requires s.queue != []
  {
    s.(queue := s.queue[1..], mark := if s.mark > 0 then s.mark - 1 else 0)
  }

  function RunHead(s: State, e: Env): State
    requires s.queue != []
  {
    match s.queue[0]
    case Ready(gen, o) => ChunkReady(Pop(s), gen, o, e)
    case Complete(c, bound) =>
      if !bound && (c !in s.conns || !s.conns[c].pump) then Pop(s).(failed := true)
      else if s.xfer != Nothing then Request(Pop(s), e) else Pop(s)
    case Close(c) => CloseConn(Pop(s), c)
    case CloseServer => Release(Pop(s))
    case DeleteServer(sv) => DestroyOne(s, sv, e.victim)
  }

  /** `~TcpServer` takes its connections down one by one. */
  function DestroyOne(s: State, sv: ServerId, victim: ConnId): State
    requires s.queue != []
  {
    if forall c :: c in s.conns && s.conns[c].server == sv ==> !Open(s.conns[c].tcp) then Pop(s)
    else if victim !in s.conns || s.conns[victim].server != sv || !Open(s.conns[victim].tcp) then s
    else if s.conns[victim].tcp.state == Disconnecting then s.(failed := true)
    else CloseConn(s, victim)
  }

  function Step(s: State, a: Action): State {
    if s.failed then s
    else match a
      case DiskRead(i, n, error, listing, stray) =>
        if i < |s.pool| && s.pool[i].outcome.None? then ReadTask(s, i, n, error, listing, stray) else s
      case DiskQueue(i) => if i < |s.pool| && s.pool[i].outcome.Some? then QueueTask(s, i) else s
      case BeginFunctors => if s.phase == Events then s.(phase := Functors, mark := |s.queue|) else s
      case RunFunctor(e) => if s.phase == Functors && 0 < s.mark <= |s.queue| then RunHead(s, e) else s
      case EndFunctors =>
        if s.phase == Functors && s.mark == 0 then s.(phase := Events, earlier := s.nextServer) else s
      case _ => if s.phase == Events then Event(s, a) else s
  }

  /** `cmdPasv`: a new data server, in place of the previous one if there is one. */
  function Listen(s: State): State {
    var t := if s.server.Some? then Release(s) else s;
    Say(t.(server := Some(s.nextServer), nextServer := s.nextServer + 1), Code(227))
  }

  function BeginList(s: State): State {
    Say(s.(gen := s.gen + 1, xfer := Listing), Code(150))
  }

  function BeginRetr(s: State, file: File): State {
    Say(s.(gen := s.gen + 1, xfer := Retrieving, target := file, offset := 0, done := false), Code(150))
  }

  function Event(s: State, a: Action): State {
    match a
    case Pasv => Listen(s)
    case PasvTimeout =>
      if s.server.Some? && s.xfer == Nothing && s.data.None? then Release(Say(s, Code(425))) else s
    case ListCommand(e) => if s.server.None? then Say(s, Code(425)) else TryStart(BeginList(s), e)
    case RetrCommand(file, e) => if s.server.None? then Say(s, Code(425)) else TryStart(BeginRetr(s, file), e)
    case DataConnected(to, e) => AcceptConn(s, to, e)
    case DataEof(c) => CloseConn(s, c)
    case DataWritable(c, r) => WritableConn(s, c, r)
    case _ => s
  }

  function Run(actions: seq<Action>): State {
    if actions == [] then START else Step(Run(actions[..|actions| - 1]), actions[|actions| - 1])
  }
}
