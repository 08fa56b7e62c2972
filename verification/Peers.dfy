/** The client's connection manager as a function on values. One `Op` is one public call, or one
    piece of a processEvents pass: a recv, a send, a removal, a retry. The pieces may come in any
    order and with calls between them, so every order in which the manager may visit its peers, and
    every call a connection callback may make, is a sequence of `Op`s. */
module Peers {
  import opened Wire
  import opened Packets
  import opened Backoff

  type PeerId = nat

  datatype Socket = Invalid | Open(handle: nat)

  /** A clock reading: a millisecond count that is not zero and far from the end of 64 bits. */
  type Time = t: int | 0 < t < 0x8000_0000_0000_0000 witness 1

  const DEFAULT_BASE: U32 := 500
  const DEFAULT_MAX: U32 := 10000

  // ---------- state ----------

  /** What has happened on the current socket of a peer. */
  datatype Epoch = Epoch(
    accepted: Bytes,        // bytes the kernel has taken, in the order it took them
    sent: seq<Bytes>,       // payloads for which sendPacket returned true
    overtook: bool,         // a direct send was taken while older bytes were waiting
    received: Bytes,        // bytes received
    garbled: bool,          // a bad length has been met
    parsed: seq<Bytes>,     // packets queued
    popped: seq<Bytes>)     // packets taken from the queue

  const Fresh := Epoch([], [], false, [], false, [], [])

  /** The last loss of the connection, and when the retries since then began. */
  datatype Loss = Loss(at: nat, base: U32, max: U32, tries: seq<nat>)

  datatype Peer = Peer(
    socket: Socket, ip: string, port: nat, connected: bool,
    auto: bool, base: U32, max: U32, attempt: U32, next: nat,
    queue: seq<Bytes>, recv: Bytes, sendBuf: Bytes,
    epoch: Epoch, loss: Loss)

  /** Events told to the callback, latest last. */
  datatype Trace = Silent | Told(before: Trace, peer: PeerId, up: bool)

  datatype Holder = Listener | Of(peer: PeerId)

  /** `open` is the kernel's view: the sockets opened and not yet closed, and for whom;
      `misclosed` records a close of a socket that was not open. */
  datatype Mgr = Mgr(
    initialized: bool, listening: Socket, nextId: PeerId,
    peers: map<PeerId, Peer>, pending: seq<PeerId>,
    trace: Trace, open: map<nat, Holder>, misclosed: bool, now: nat)

  const Init := Mgr(false, Invalid, 1, map[], [], Silent, map[], false, 0)

  // ---------- what the connection callback keeps ----------

  const INVALID_PEER: PeerId := 0

  /** g_connectedPeer after an event: the peer to send to, INVALID_PEER for none. */
  function Connected(current: PeerId, p: PeerId, up: bool): PeerId {
    if up then p else if current == p then INVALID_PEER else current
  }

  function CurrentPeer(t: Trace): PeerId {
    if t.Silent? then INVALID_PEER else Connected(CurrentPeer(t.before), t.peer, t.up)
  }

  // ---------- pieces ----------

  function Put(m: Mgr, p: PeerId, c: Peer): Mgr {
    m.(peers := m.peers[p := c])
  }

  function Tell(m: Mgr, p: PeerId, up: bool): Mgr {
    m.(trace := Told(m.trace, p, up))
  }

  function CloseSocket(m: Mgr, s: Socket): Mgr {
    if s.Invalid? then m
    else if s.handle in m.open then m.(open := m.open - {s.handle})
    else m.(misclosed := true)
  }

  function At(m: Mgr, t: Time): Mgr {
    m.(now := t)
  }

  function NewPeer(h: nat, ip: string, port: nat): Peer {
    Peer(Open(h), ip, port, true, false, DEFAULT_BASE, DEFAULT_MAX, 0, 0, [], [], [], Fresh, Loss(0, 0, 0, []))
  }

  /** connect after the socket is connected, and accept. */
  function Join(m: Mgr, ip: string, port: nat, h: nat): Mgr {
    var p := m.nextId;
    Tell(m.(peers := m.peers[p := NewPeer(h, ip, port)], nextId := p + 1, open := m.open[h := Of(p)]), p, true)
  }

  /** The connection is found dead: it is removed at the end of the pass. */
  function MarkDead(m: Mgr, p: PeerId): Mgr
    requires p in m.peers
  {
    Put(m, p, m.peers[p].(connected := false)).(pending := m.pending + [p])
  }

  /** A peer with auto-reconnect that has lost its connection. */
  function Lost(c: Peer, t: Time): Peer {
    c.(socket := Invalid, connected := false, queue := [], recv := [], sendBuf := [],
       attempt := 0, next := t + c.base, epoch := Fresh, loss := Loss(t, c.base, c.max, []))
  }

  /** What disconnect and removeDisconnected do with a peer they find. */
  function Lose(m: Mgr, p: PeerId, t: Time): Mgr
    requires p in m.peers
  {
    var c := m.peers[p];
    var m' := Tell(CloseSocket(m, c.socket), p, false);
    if c.auto then At(Put(m', p, Lost(c, t)), t) else m'.(peers := m'.peers - {p})
  }

  /** The kernel's answer to a send: it took n bytes (at most the number offered), or none. */
  datatype SendResult = Took(n: nat) | SendBlocked | SendFailed

  predicate Sendable(m: Mgr, p: PeerId, data: Bytes) {
    data != [] && p in m.peers && m.peers[p].connected
  }

  /** sendPacket: one direct send of the whole frame; what the kernel does not take is queued. */
  function Send(m: Mgr, p: PeerId, data: Bytes, res: SendResult): Mgr {
    if !Sendable(m, p, data) then m
    else
      var c := m.peers[p];
      var f := Frame(data);
      match res
      case SendFailed => MarkDead(m, p)
      case SendBlocked =>
        Put(m, p, c.(sendBuf := c.sendBuf + f, epoch := c.epoch.(sent := c.epoch.sent + [data])))
      case Took(n) =>
        var k := Min(n, |f|);
        Put(m, p, c.(sendBuf := c.sendBuf + f[k..],
                     epoch := c.epoch.(accepted := c.epoch.accepted + f[..k],
                                       sent := c.epoch.sent + [data],
                                       overtook := c.epoch.overtook || (k > 0 && c.sendBuf != []))))
  }

  /** processWrite. */
  function Flush(m: Mgr, p: PeerId, res: SendResult): Mgr {
    if p !in m.peers || m.peers[p].socket.Invalid? || m.peers[p].sendBuf == [] then m
    else
      var c := m.peers[p];
      match res
      case SendFailed => MarkDead(m, p)
      case SendBlocked => m
      case Took(n) =>
        var k := Min(n, |c.sendBuf|);
        Put(m, p, c.(sendBuf := c.sendBuf[k..], epoch := c.epoch.(accepted := c.epoch.accepted + c.sendBuf[..k])))
  }

  datatype RecvResult = Data(bytes: Bytes) | RecvBlocked | Ended

  /** One recv of processRead. */
  function Recv(m: Mgr, p: PeerId, res: RecvResult): Mgr {
    if p !in m.peers || !m.peers[p].connected then m
    else
      var c := m.peers[p];
      match res
      case RecvBlocked => m
      case Ended => MarkDead(m, p)
      case Data(b) =>
        var all := c.recv + b;
        Put(m, p, c.(queue := c.queue + Extracted(all), recv := Kept(all),
                     epoch := c.epoch.(received := c.epoch.received + b,
                                       garbled := c.epoch.garbled || Parse(MAX_PACKET_SIZE, all).bad,
                                       parsed := c.epoch.parsed + Extracted(all))))
  }

  /** select reports an exception. */
  function Except(m: Mgr, p: PeerId): Mgr {
    if p !in m.peers || !m.peers[p].connected then m else MarkDead(m, p)
  }

  /** std::sort, then std::unique and erase. */
  function InsertSorted(p: PeerId, s: seq<PeerId>): seq<PeerId> {
    if s == [] || p < s[0] then [p] + s
    else if p == s[0] then s
    else [s[0]] + InsertSorted(p, s[1..])
  }

  function SortedDistinct(s: seq<PeerId>): seq<PeerId> {
    if s == [] then [] else InsertSorted(s[0], SortedDistinct(s[1..]))
  }

  /** One round of the loop of removeDisconnected. */
  function RemoveOne(m: Mgr, p: PeerId, t: Time): Mgr {
    if p in m.peers then Lose(m, p, t) else m
  }

  /** removeDisconnected; clock(i) is the time read when the i-th distinct id is handled. */
  function RemoveEach(m: Mgr, ps: seq<PeerId>, clock: nat -> Time): Mgr {
    if ps == [] then m
    else RemoveOne(RemoveEach(m, ps[..|ps| - 1], clock), ps[|ps| - 1], clock(|ps| - 1))
  }

  function RemoveDisconnected(m: Mgr, clock: nat -> Time): Mgr {
    RemoveEach(m, SortedDistinct(m.pending), clock).(pending := [])
  }

  /** The conditions under which attemptReconnects tries to connect a peer. */
  predicate DueAt(c: Peer, t: Time) {
    c.auto && !c.connected && c.ip != "" && c.port != 0 && c.next != 0 && t >= c.next
  }

  /** The peer after a retry that begins at t. */
  function Retried(c: Peer, t: Time, res: Socket): Peer {
    var c' := c.(loss := c.loss.(tries := c.loss.tries + [t]));
    if res.Open? then c'.(socket := res, connected := true, attempt := 0, next := 0)
    else c'.(attempt := NextAttempt(c.attempt), next := t + Delay(c.base, c.max, c.attempt))
  }

  /** attemptReconnects for one peer, with the clock read at its start. */
  function Retry(m: Mgr, p: PeerId, t: Time, res: Socket): Mgr {
    if p !in m.peers || !DueAt(m.peers[p], t) then At(m, t)
    else
      var m' := At(Put(m, p, Retried(m.peers[p], t, res)), t);
      if res.Open? then Tell(m', p, true).(open := m.open[res.handle := Of(p)]) else m'
  }

  function SetAutoReconnect(m: Mgr, p: PeerId, enable: bool, base: U32, max: U32): Mgr {
    if p !in m.peers then m
    else Put(m, p, m.peers[p].(auto := enable, base := base, max := max, attempt := 0, next := 0))
  }

  function Disconnect(m: Mgr, p: PeerId, t: Time): Mgr {
    if p in m.peers then Lose(m, p, t) else m
  }

  /** The pop inside readPacket. */
  function Pop(m: Mgr, p: PeerId): Mgr {
    if p !in m.peers || m.peers[p].queue == [] then m
    else
      var c := m.peers[p];
      Put(m, p, c.(queue := c.queue[1..], epoch := c.epoch.(popped := c.epoch.popped + [c.queue[0]])))
  }

  function StopListen(m: Mgr): Mgr {
    CloseSocket(m, m.listening).(listening := Invalid)
  }

  /** The socket call fails, a later call fails, or the manager listens. */
  datatype ListenResult = NoSocket | NotBound(h: nat) | Listening(h: nat)

  function Listen(m: Mgr, res: ListenResult): Mgr {
    if !m.initialized then m
    else
      var m' := StopListen(m);
      match res
      case NoSocket => m'
      case NotBound(h) => CloseSocket(m'.(open := m'.open[h := Listener]), Open(h))
      case Listening(h) => m'.(open := m'.open[h := Listener], listening := Open(h))
  }

  /** Closing the sockets of the peers, in the order of ps. */
  function CloseAll(m: Mgr, ps: seq<PeerId>): Mgr {
    if ps == [] then m
    else
      var m' := CloseAll(m, ps[..|ps| - 1]);
      var p := ps[|ps| - 1];
      if p in m.peers then CloseSocket(m', m.peers[p].socket) else m'
  }

  /** ps lists the peers, each once: the order in which shutdown visits them. */
  ghost predicate Order(m: Mgr, ps: seq<PeerId>) {
    && (forall p :: p in ps <==> p in m.peers)
    && (forall i, j | 0 <= i < j < |ps| :: ps[i] != ps[j])
  }

  function Shutdown(m: Mgr, ps: seq<PeerId>): Mgr {
    if !m.initialized then m
    else CloseAll(StopListen(m), ps).(peers := map[], pending := [], initialized := false)
  }

  // ---------- runs ----------

  datatype Op =
    | Initialize
    | ConnectTo(ip: string, port: nat, h: nat)
    | Accept(ip: string, port: nat, h: nat)
    | SetAuto(p: PeerId, enable: bool, base: U32, max: U32)
    | Close(p: PeerId, t: Time)
    | SendTo(p: PeerId, data: Bytes, sent: SendResult)
    | RecvFrom(p: PeerId, got: RecvResult)
    | FlushTo(p: PeerId, sent: SendResult)
    | Exception(p: PeerId)
    | Remove(clock: nat -> Time)
    | RetryOne(p: PeerId, t: Time, sock: Socket)
    | PopFrom(p: PeerId)
    | ListenOn(res: ListenResult)
    | Unlisten
    | ShutDown(order: seq<PeerId>)

  function Step(m: Mgr, op: Op): Mgr {
    match op
    case Initialize => m.(initialized := true)
    case ConnectTo(ip, port, h) => if m.initialized then Join(m, ip, port, h) else m
    case Accept(ip, port, h) => if m.listening.Open? then Join(m, ip, port, h) else m
    case SetAuto(p, enable, base, max) => SetAutoReconnect(m, p, enable, base, max)
    case Close(p, t) => Disconnect(m, p, t)
    case SendTo(p, data, sent) => Send(m, p, data, sent)
    case RecvFrom(p, got) => Recv(m, p, got)
    case FlushTo(p, sent) => Flush(m, p, sent)
    case Exception(p) => Except(m, p)
    case Remove(clock) => RemoveDisconnected(m, clock)
    case RetryOne(p, t, sock) => Retry(m, p, t, sock)
    case PopFrom(p) => Pop(m, p)
    case ListenOn(res) => Listen(m, res)
    case Unlisten => StopListen(m)
    case ShutDown(order) => Shutdown(m, order)
  }

  /** What the system guarantees: a new socket has a handle that is not in use, a connected peer has an
      address, packet sizes fit 32 bits, recv returns bytes or nothing, the clock does not go back, the
      peers are visited once each; and peer ids do not run out. */
  ghost predicate Possible(m: Mgr, op: Op) {
    match op
    case ConnectTo(ip, port, h) => h !in m.open && ip != "" && port != 0 && m.nextId < U32_END
    case Accept(ip, port, h) => h !in m.open && ip != "" && port != 0 && m.nextId < U32_END
    case Close(_, t) => m.now <= t
    case SendTo(_, data, _) => |data| < U32_END
    case RecvFrom(_, got) => got.Data? ==> got.bytes != []
    case Remove(clock) => (forall i :: m.now <= clock(i)) && (forall i, j | i <= j :: clock(i) <= clock(j))
    case RetryOne(_, t, sock) => m.now <= t && (sock.Open? ==> sock.handle !in m.open)
    case ListenOn(res) => res.NoSocket? || res.h !in StopListen(m).open
    case ShutDown(order) => Order(m, order)
    case _ => true
  }

  /** How the manager asks to be called: disconnect a peer only while it is connected (or marked for
      removal without auto-reconnect), and configure auto-reconnect only while it is not waiting. */
  predicate Proper(m: Mgr, op: Op) {
    match op
    case Close(p, _) => p in m.peers ==> m.peers[p].connected || (m.peers[p].socket.Open? && !m.peers[p].auto)
    case SetAuto(p, _, _, _) => p in m.peers ==> m.peers[p].socket.Open?
    case _ => true
  }

  function RunOps(m: Mgr, ops: seq<Op>): Mgr {
    if ops == [] then m else Step(RunOps(m, ops[..|ops| - 1]), ops[|ops| - 1])
  }

  ghost predicate ProperRun(m: Mgr, ops: seq<Op>) {
    ops == [] ||
    (ProperRun(m, ops[..|ops| - 1]) &&
     Possible(RunOps(m, ops[..|ops| - 1]), ops[|ops| - 1]) &&
     Proper(RunOps(m, ops[..|ops| - 1]), ops[|ops| - 1]))
  }

  lemma RunSnoc(m: Mgr, ops: seq<Op>, op: Op)
    ensures RunOps(m, ops + [op]) == Step(RunOps(m, ops), op)
    ensures ProperRun(m, ops + [op]) <==>
            ProperRun(m, ops) && Possible(RunOps(m, ops), op) && Proper(RunOps(m, ops), op)
  {
    assert (ops + [op])[..|ops|] == ops;
  }
}
