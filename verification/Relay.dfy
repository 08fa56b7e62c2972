/** The relay server as a function on values: one transition per epoll event.
    `RelayServer` proves that the imperative server makes exactly these transitions. */
module Relay {
  import opened Wire

  const MAX_CONNECTIONS := 4
  const BUFFER_SIZE := 65536
  const MAX_PACKET_SIZE := 65535
  const MARK_SIZE := 8

  /** The largest packet whose frame fits the receive buffer. */
  const PACKET_LIMIT := 65532

  type Fd = nat
  type Key = nat

  /** Connections are numbered in order of acceptance: the kernel reuses an fd, never an id. */
  type Id = nat

  /** The map key of a mark: its bytes read as an integer. */
  function KeyOf(mark: Bytes): Key {
    LeValue(mark)
  }

  // ---------- state ----------

  /** One connection. `sendBuf`, `recvBuf` (the bytes still to be processed), `mark`, `registered`
      and `armed` (EPOLLOUT requested) are the server's own; the rest is what has happened to it. */
  datatype Conn = Conn(
    id: Id, mark: Bytes, registered: bool, sendBuf: Bytes, recvBuf: Bytes, armed: bool,
    read: Bytes,             // bytes received
    handled: seq<Bytes>,     // packets given to process_packet
    forwarded: seq<Bytes>,   // payloads queued for this client
    written: Bytes)          // bytes the kernel took from send_buf
  {
    function Pending(): nat {
      |sendBuf| + |recvBuf|
    }
  }

  function NewConn(id: Id): Conn {
    Conn(id, [0, 0, 0, 0, 0, 0, 0, 0], false, [], [], false, [], [], [], [])
  }

  datatype Outcome = Registered | Rejected | TooSmall | NoTarget | Dangling | Empty | Forwarded(dst: Id)

  datatype Cause = BadLength | Refused | BufferFull | Eof | ReadError | WriteError | HungUp

  /** What the server has done so far, latest last. */
  datatype Entry = Handled(src: Id, packet: Bytes, outcome: Outcome) | Closed(conn: Conn, why: Cause)
  datatype History = Start | Then(before: History, last: Entry)

  datatype Stats = Stats(bytesIn: nat, bytesOut: nat, packetsIn: nat, packetsOut: nat,
                         dropNoTarget: nat, dropSmall: nat, writeErrors: nat)

  /** The kernel's answer to one write: it took n bytes (at most the number offered), it would
      block, or it failed. */
  datatype WriteResult = Took(n: nat) | WouldBlock | Failed

  /** `script` holds the kernel's answers to the writes to come; when it runs out, writes block. */
  datatype State = State(conns: map<Fd, Conn>, index: map<Key, Fd>, stats: Stats,
                         script: seq<WriteResult>, nextId: Id, history: History)

  function Init(script: seq<WriteResult>): State {
    State(map[], map[], Stats(0, 0, 0, 0, 0, 0, 0), script, 0, Start)
  }

  // ---------- closing and writing ----------

  function Close(s: State, fd: Fd, why: Cause): State {
    if fd !in s.conns then s
    else
      var c := s.conns[fd];
      s.(index := if c.registered then s.index - {KeyOf(c.mark)} else s.index,
         conns := s.conns - {fd},
         history := Then(s.history, Closed(c, why)))
  }

  function Arm(s: State, fd: Fd, want: bool): State
    requires fd in s.conns
  {
    s.(conns := s.conns[fd := s.conns[fd].(armed := want)])
  }

  /** The kernel took the first k bytes of the send buffer. */
  function Write(s: State, fd: Fd, k: nat): State
    requires fd in s.conns && k <= |s.conns[fd].sendBuf|
  {
    var c := s.conns[fd];
    s.(conns := s.conns[fd := c.(sendBuf := c.sendBuf[k..], written := c.written + c.sendBuf[..k])],
       stats := s.stats.(bytesOut := s.stats.bytesOut + k))
  }

  function PopScript(s: State): State
    requires s.script != []
  {
    s.(script := s.script[1..])
  }

  /** One round of the flush loop. */
  function WriteOnce(s: State, fd: Fd): State
    requires fd in s.conns
  {
    if s.script == [] then Arm(s, fd, true)
    else
      var t := PopScript(s);
      match s.script[0]
      case WouldBlock => Arm(t, fd, true)
      case Took(n) => if n > 0 then Write(t, fd, Min(n, |s.conns[fd].sendBuf|)) else Fail(t, fd)
      case Failed => Fail(t, fd)
  }

  /** The kernel takes something, so the loop goes round again. */
  predicate Progress(s: State) {
    s.script != [] && s.script[0].Took? && s.script[0].n > 0
  }

  /** flush_send_buffer: write until the buffer is empty, the kernel blocks or the write fails. */
  function Flush(s: State, fd: Fd): (r: State)
    requires fd in s.conns
    ensures r.conns.Keys <= s.conns.Keys
    ensures forall g | g in r.conns :: r.conns[g].recvBuf == s.conns[g].recvBuf
    decreases |s.conns[fd].sendBuf|
  {
    if s.conns[fd].sendBuf == [] then Arm(s, fd, false)
    else if Progress(s) then Flush(WriteOnce(s, fd), fd)
    else WriteOnce(s, fd)
  }

  function Fail(s: State, fd: Fd): State {
    Close(s.(stats := s.stats.(writeErrors := s.stats.writeErrors + 1)), fd, WriteError)
  }

  // ---------- one packet ----------

  /** What process_packet decides about a packet, and the target fd when it forwards. */
  function Decide(s: State, fd: Fd, p: Bytes): Outcome
    requires fd in s.conns
  {
    if !s.conns[fd].registered then
      if |p| != MARK_SIZE || KeyOf(p) in s.index then Rejected else Registered
    else if |p| < MARK_SIZE then TooSmall
    else
      var k := KeyOf(p[..MARK_SIZE]);
      if k !in s.index then NoTarget
      else if |p| == MARK_SIZE then Empty
      else if s.index[k] !in s.conns then Dangling
      else Forwarded(s.conns[s.index[k]].id)
  }

  /** The connection after its first buffered packet has been taken for processing. */
  function Taken(c: Conn): Conn
    requires Whole(PACKET_LIMIT, c.recvBuf)
  {
    c.(recvBuf := Tail(PACKET_LIMIT, c.recvBuf), handled := c.handled + [Head(PACKET_LIMIT, c.recvBuf)])
  }

  function Queued(c: Conn, payload: Bytes): Conn {
    c.(sendBuf := c.sendBuf + Frame(payload), forwarded := c.forwarded + [payload])
  }

  /** The sender's side of handling its first packet p with outcome o. */
  function Sender(c: Conn, p: Bytes, o: Outcome): Conn
    requires Whole(PACKET_LIMIT, c.recvBuf)
  {
    if o.Registered? then Taken(c).(mark := p, registered := true)
    else if o.Rejected? && |p| == MARK_SIZE then Taken(c).(mark := p)
    else Taken(c)
  }

  function TargetOf(s: State, p: Bytes): Fd
    requires |p| >= MARK_SIZE && KeyOf(p[..MARK_SIZE]) in s.index
  {
    s.index[KeyOf(p[..MARK_SIZE])]
  }

  /** The target's side. */
  function Deliver(conns: map<Fd, Conn>, g: Fd, payload: Bytes): map<Fd, Conn>
    requires g in conns
  {
    conns[g := Queued(conns[g], payload)]
  }

  function Tally(st: Stats, o: Outcome): Stats {
    var t := st.(packetsIn := st.packetsIn + 1);
    match o
    case TooSmall => t.(dropSmall := t.dropSmall + 1)
    case NoTarget => t.(dropNoTarget := t.dropNoTarget + 1)
    case Forwarded(_) => t.(packetsOut := t.packetsOut + 1)
    case _ => t
  }

  /** The packet at the front of fd's buffer is taken and counted; o is what will become of it. */
  function Begin(s: State, fd: Fd, o: Outcome): State
    requires fd in s.conns && Whole(PACKET_LIMIT, s.conns[fd].recvBuf)
  {
    var c := s.conns[fd];
    s.(conns := s.conns[fd := Taken(c)],
       stats := s.stats.(packetsIn := s.stats.packetsIn + 1),
       history := Then(s.history, Handled(c.id, Head(PACKET_LIMIT, c.recvBuf), o)))
  }

  /** Everything process_packet does before it flushes the target. */
  function Arrive(s: State, fd: Fd): State
    requires fd in s.conns && Whole(PACKET_LIMIT, s.conns[fd].recvBuf)
  {
    var c := s.conns[fd];
    var p := Head(PACKET_LIMIT, c.recvBuf);
    var o := Decide(s, fd, p);
    var conns := s.conns[fd := Sender(c, p, o)];
    State(if o.Forwarded? then Deliver(conns, TargetOf(s, p), p[MARK_SIZE..]) else conns,
          if o.Registered? then s.index[KeyOf(p) := fd] else s.index,
          Tally(s.stats, o), s.script, s.nextId,
          Then(s.history, Handled(c.id, p, o)))
  }

  /** process_packet on the first buffered packet of fd. */
  function Handle(s: State, fd: Fd): (r: State)
    requires fd in s.conns && Whole(PACKET_LIMIT, s.conns[fd].recvBuf)
    ensures fd in r.conns ==> |r.conns[fd].recvBuf| + LENGTH_SIZE < |s.conns[fd].recvBuf|
  {
    var p := Head(PACKET_LIMIT, s.conns[fd].recvBuf);
    if Decide(s, fd, p).Forwarded? then Flush(Arrive(s, fd), TargetOf(s, p)) else Arrive(s, fd)
  }

  /** One round of the packet loop: process_packet, and a close when it refuses the packet. */
  function Process(s: State, fd: Fd): (r: State)
    requires fd in s.conns && Whole(PACKET_LIMIT, s.conns[fd].recvBuf)
    ensures fd in r.conns ==> |r.conns[fd].recvBuf| + LENGTH_SIZE < |s.conns[fd].recvBuf|
  {
    if Decide(s, fd, Head(PACKET_LIMIT, s.conns[fd].recvBuf)).Rejected? then Close(Handle(s, fd), fd, Refused)
    else Handle(s, fd)
  }

  // ---------- events ----------

  /** The packet loop of handle_client_data. It stops when the connection is gone: a client that
      forwards to its own mark is closed by a failing flush. */
  function Drain(s: State, fd: Fd): State
    requires fd in s.conns
    decreases |s.conns[fd].recvBuf|
  {
    if Whole(PACKET_LIMIT, s.conns[fd].recvBuf) then
      var t := Process(s, fd);
      if fd in t.conns then Drain(t, fd) else t
    else if BadHeader(PACKET_LIMIT, s.conns[fd].recvBuf) then Close(s, fd, BadLength)
    else s
  }

  datatype ReadResult = Data(bytes: Bytes) | NoData | EndOfFile | Broken

  function Receive(s: State, fd: Fd, data: Bytes): State
    requires fd in s.conns
  {
    var c := s.conns[fd];
    s.(conns := s.conns[fd := c.(recvBuf := c.recvBuf + data, read := c.read + data)],
       stats := s.stats.(bytesIn := s.stats.bytesIn + |data|))
  }

  function HandleData(s: State, fd: Fd, res: ReadResult): State {
    if fd !in s.conns then s
    else if |s.conns[fd].recvBuf| >= BUFFER_SIZE then Close(s, fd, BufferFull)
    else match res
      case Data(b) => Drain(Receive(s, fd, b), fd)
      case NoData => s
      case EndOfFile => Close(s, fd, Eof)
      case Broken => Close(s, fd, ReadError)
  }

  function HandleWrite(s: State, fd: Fd): State {
    if fd in s.conns then Flush(s, fd) else s
  }

  function HandleAccept(s: State, fd: Fd, setUp: bool): State {
    if |s.conns| >= MAX_CONNECTIONS || !setUp then s
    else s.(conns := s.conns[fd := NewConn(s.nextId)], nextId := s.nextId + 1)
  }

  /** One entry of an epoll_wait result: a connection to accept (and whether making it non-blocking
      and adding it to epoll worked), or a client fd with its flags and what a read returns. */
  datatype Event =
    | Incoming(fd: Fd, setUp: bool)
    | Ready(fd: Fd, failed: bool, readable: bool, writable: bool, res: ReadResult)

  /** The first half of a client event: a hang-up closes, otherwise readable data is handled. */
  function AfterRead(s: State, e: Event): State
    requires e.Ready?
  {
    if e.failed then Close(s, e.fd, HungUp)
    else if e.readable then HandleData(s, e.fd, e.res)
    else s
  }

  function Step(s: State, e: Event): State {
    match e
    case Incoming(fd, setUp) => HandleAccept(s, fd, setUp)
    case Ready(fd, _, _, writable, _) =>
      if writable then HandleWrite(AfterRead(s, e), fd) else AfterRead(s, e)
  }

  /** What the kernel guarantees: accept returns an fd that is not open; a read returns between one
      byte and the number of bytes asked for. */
  predicate Possible(s: State, e: Event) {
    match e
    case Incoming(fd, _) => fd !in s.conns
    case Ready(fd, _, _, _, res) =>
      res.Data? && fd in s.conns ==> 0 < |res.bytes| <= BUFFER_SIZE - |s.conns[fd].recvBuf|
  }

  function Run(s: State, es: seq<Event>): State {
    if es == [] then s else Step(Run(s, es[..|es| - 1]), es[|es| - 1])
  }

  predicate PossibleRun(s: State, es: seq<Event>) {
    es == [] || (PossibleRun(s, es[..|es| - 1]) && Possible(Run(s, es[..|es| - 1]), es[|es| - 1]))
  }
}
