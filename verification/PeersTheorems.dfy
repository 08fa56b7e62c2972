/** What the connection manager promises over whole runs of proper calls. */
module PeersTheorems {
  import opened Wire
  import opened Packets
  import opened Backoff
  import opened Peers
  import opened PeersInvariant

  // ---------- the life of a peer ----------

  /** Every peer is in exactly one of three phases. */
  lemma Trichotomy(ops: seq<Op>, p: PeerId)
    requires ProperRun(Init, ops) && p in RunOps(Init, ops).peers
    ensures var m := RunOps(Init, ops);
            var c, marked := m.peers[p], p in m.pending;
            && (Up(c, marked) || Dying(c, marked) || Waits(c, marked))
            && !(Up(c, marked) && Dying(c, marked))
            && !(Up(c, marked) && Waits(c, marked))
            && !(Dying(c, marked) && Waits(c, marked))
  {
    GoodRun(ops);
    assert Phase(RunOps(Init, ops).peers[p], p in Marked(RunOps(Init, ops)));
  }

  /** No peer with auto-reconnect is ever stuck: once its time has come, the next pass tries it, and
      if the connection succeeds it is up, on empty buffers. */
  lemma NeverStuck(ops: seq<Op>, p: PeerId, t: Time, h: nat)
    requires ProperRun(Init, ops) && p in RunOps(Init, ops).peers
    requires var c := RunOps(Init, ops).peers[p]; !c.connected && c.socket.Invalid? && t >= c.next
    ensures var m := RunOps(Init, ops);
            && DueAt(m.peers[p], t)
            && (var c := Retry(m, p, t, Open(h)).peers[p];
                Up(c, p in m.pending) && c.socket == Open(h) && Blank(c))
  {
    Trichotomy(ops, p);
    GoodRun(ops);
    assert Phase(RunOps(Init, ops).peers[p], p in Marked(RunOps(Init, ops)));
  }

  /** After removeDisconnected no peer is dying and nothing is pending. */
  lemma PassLeavesNoneDying(ops: seq<Op>, clock: nat -> Time, p: PeerId)
    requires ProperRun(Init, ops)
    requires p in RemoveDisconnected(RunOps(Init, ops), clock).peers
    ensures var m := RemoveDisconnected(RunOps(Init, ops), clock);
            m.pending == [] && (Up(m.peers[p], false) || Waits(m.peers[p], false))
  {
    var m := RunOps(Init, ops);
    GoodRun(ops);
    GoodRemove(m, clock);
    var m' := RemoveDisconnected(m, clock);
    assert Phase(m'.peers[p], p in Marked(m'));
  }

  // ---------- events ----------

  /** The events of one peer, in order; true for Connected. */
  function EventsOf(t: Trace, p: PeerId): seq<bool> {
    if t.Silent? then []
    else if t.peer == p then EventsOf(t.before, p) + [t.up]
    else EventsOf(t.before, p)
  }

  lemma {:induction false} TurnsOf(t: Trace, p: PeerId)
    requires Alternating(t)
    ensures forall i | 0 <= i < |EventsOf(t, p)| :: EventsOf(t, p)[i] == (i % 2 == 0)
    ensures OnLine(t, p) <==> |EventsOf(t, p)| % 2 == 1
  {
    if t.Told? {
      TurnsOf(t.before, p);
    }
  }

  /** Connected and Disconnected strictly alternate for every peer, starting with Connected, and the
      last one says whether the peer holds a socket. */
  lemma EventsAlternate(ops: seq<Op>, p: PeerId)
    requires ProperRun(Init, ops)
    ensures var m := RunOps(Init, ops);
            && (forall i | 0 <= i < |EventsOf(m.trace, p)| :: EventsOf(m.trace, p)[i] == (i % 2 == 0))
            && (p in m.peers ==> (m.peers[p].socket.Open? <==> |EventsOf(m.trace, p)| % 2 == 1))
  {
    GoodRun(ops);
    TurnsOf(RunOps(Init, ops).trace, p);
  }

  // ---------- which calls are proper ----------

  lemma LoseIs(m: Mgr, q: PeerId, t: Time)
    requires q in m.peers
    ensures var r := Lose(m, q, t);
            r.trace == Told(m.trace, q, false) && r.nextId == m.nextId
            && r.peers == if m.peers[q].auto then m.peers[q := Lost(m.peers[q], t)] else m.peers - {q}
  {
    var m' := Tell(CloseSocket(m, m.peers[q].socket), q, false);
    assert m'.peers == m.peers && m'.trace == Told(m.trace, q, false) && m'.nextId == m.nextId;
  }

  lemma OtherRemoved(m: Mgr, q: PeerId, t: Time, p: PeerId)
    requires p != q
    ensures var r := RemoveOne(m, q, t);
            && (p in r.peers <==> p in m.peers) && (p in m.peers ==> r.peers[p] == m.peers[p])
            && (OnLine(r.trace, p) <==> OnLine(m.trace, p)) && r.nextId == m.nextId
  {
    if q in m.peers {
      LoseIs(m, q, t);
    }
  }

  /** Removing other peers leaves p and what was told of it alone. */
  lemma {:induction false} OthersRemoved(m: Mgr, ps: seq<PeerId>, clock: nat -> Time, p: PeerId)
    requires p !in ps
    ensures var r := RemoveEach(m, ps, clock);
            && (p in r.peers <==> p in m.peers) && (p in m.peers ==> r.peers[p] == m.peers[p])
            && (OnLine(r.trace, p) <==> OnLine(m.trace, p)) && r.nextId == m.nextId
  {
    if ps != [] {
      var n := |ps| - 1;
      OthersRemoved(m, ps[..n], clock, p);
      OtherRemoved(RemoveEach(m, ps[..n], clock), ps[n], clock(n), p);
    }
  }

  /** A peer told disconnected that is handled by removeDisconnected is told so again. */
  lemma {:induction false} ToldAgain(m: Mgr, ps: seq<PeerId>, clock: nat -> Time, p: PeerId)
    requires p in ps && p in m.peers && !OnLine(m.trace, p)
    ensures !Alternating(RemoveEach(m, ps, clock).trace)
  {
    var n := |ps| - 1;
    assert ps == ps[..n] + [ps[n]];
    if p in ps[..n] {
      ToldAgain(m, ps[..n], clock, p);
    } else {
      OthersRemoved(m, ps[..n], clock, p);
    }
  }

  /** disconnect on a waiting peer tells Disconnected twice at once. */
  lemma WaitingToldTwice(m: Mgr, p: PeerId, t: Time)
    requires Good(m) && p in m.peers && m.peers[p].socket.Invalid?
    ensures !Alternating(Disconnect(m, p, t).trace)
  {
    assert !OnLine(m.trace, p);
  }

  /** disconnect on a dying peer with auto-reconnect leaves it marked, and the next pass tells it again. */
  lemma DyingToldTwice(m: Mgr, p: PeerId, t: Time, clock: nat -> Time)
    requires Good(m) && p in m.peers && m.peers[p].socket.Open? && !m.peers[p].connected && m.peers[p].auto
    ensures !Alternating(RemoveDisconnected(Disconnect(m, p, t), clock).trace)
  {
    assert Phase(m.peers[p], p in Marked(m));
    var m' := Disconnect(m, p, t);
    SortedDistinctOk(m'.pending);
    ToldAgain(m', SortedDistinct(m'.pending), clock, p);
  }

  lemma {:induction false} RemovedKeepsAlternating(m: Mgr, ps: seq<PeerId>, clock: nat -> Time)
    requires Alternating(RemoveEach(m, ps, clock).trace)
    ensures Alternating(m.trace)
  {
    if ps != [] {
      RemovedKeepsAlternating(m, ps[..|ps| - 1], clock);
    }
  }

  /** disconnect keeps the invariant exactly on peers that are not there, connected, or dying without
      auto-reconnect; and exactly then the events still alternate after the next removal. */
  lemma DisconnectExact(m: Mgr, p: PeerId, t: Time, clock: nat -> Time)
    requires Good(m)
    ensures Good(Disconnect(m, p, t)) <==> Proper(m, Close(p, t))
    ensures Alternating(RemoveDisconnected(Disconnect(m, p, t), clock).trace) <==> Proper(m, Close(p, t))
  {
    var m' := Disconnect(m, p, t);
    if Proper(m, Close(p, t)) {
      GoodLose(m, p, t);
      GoodRemove(m', clock);
    } else {
      if m.peers[p].socket.Invalid? {
        WaitingToldTwice(m, p, t);
        if Alternating(RemoveDisconnected(m', clock).trace) {
          RemovedKeepsAlternating(m', SortedDistinct(m'.pending), clock);
        }
      } else {
        DyingToldTwice(m, p, t, clock);
      }
      if Good(m') {
        GoodRemove(m', clock);
      }
    }
  }

  /** p holds no socket, waits for nothing, and is not going to be removed. */
  ghost predicate Stuck(m: Mgr, p: PeerId) {
    && p < m.nextId && p !in m.pending
    && (p in m.peers ==> !m.peers[p].connected && m.peers[p].socket.Invalid? && m.peers[p].next == 0)
  }

  lemma StuckSend(m: Mgr, q: PeerId, data: Bytes, res: SendResult, p: PeerId)
    requires Stuck(m, p)
    ensures Stuck(Send(m, q, data, res), p)
  {
  }

  lemma StuckClose(m: Mgr, q: PeerId, t: Time, p: PeerId)
    requires Stuck(m, p) && q != p
    ensures Stuck(Disconnect(m, q, t), p)
  {
  }

  lemma StuckListen(m: Mgr, res: ListenResult, order: seq<PeerId>, p: PeerId)
    requires Stuck(m, p)
    ensures Stuck(StopListen(m), p) && Stuck(Listen(m, res), p) && Stuck(Shutdown(m, order), p)
  {
    CloseAllFrame(StopListen(m), order);
  }

  lemma StuckCall(m: Mgr, op: Op, p: PeerId)
    requires Stuck(m, p) && Public(op) && !(op.Close? && op.p == p)
    ensures Stuck(Step(m, op), p)
  {
    match op
    case Close(q, t) => StuckClose(m, q, t, p);
    case SendTo(q, data, res) => StuckSend(m, q, data, res, p);
    case ListenOn(res) => StuckListen(m, res, [], p);
    case Unlisten => StuckListen(m, NoSocket, [], p);
    case ShutDown(order) => StuckListen(m, NoSocket, order, p);
    case _ =>
  }

  lemma StuckTraffic(m: Mgr, q: PeerId, res: SendResult, got: RecvResult, p: PeerId)
    requires Stuck(m, p)
    ensures Stuck(Flush(m, q, res), p) && Stuck(Recv(m, q, got), p) && Stuck(Except(m, q), p)
  {
  }

  lemma StuckRetry(m: Mgr, q: PeerId, t: Time, sock: Socket, p: PeerId)
    requires Stuck(m, p)
    ensures Stuck(Retry(m, q, t, sock), p)
  {
  }

  lemma StuckPiece(m: Mgr, op: Op, p: PeerId)
    requires Stuck(m, p) && !Public(op)
    ensures Stuck(Step(m, op), p)
  {
    match op
    case Accept(_, _, _) =>
    case RecvFrom(q, got) => StuckTraffic(m, q, SendBlocked, got, p);
    case FlushTo(q, res) => StuckTraffic(m, q, res, RecvBlocked, p);
    case Exception(q) => StuckTraffic(m, q, SendBlocked, RecvBlocked, p);
    case Remove(clock) =>
      SortedDistinctOk(m.pending);
      OthersRemoved(m, SortedDistinct(m.pending), clock, p);
    case RetryOne(q, t, sock) => StuckRetry(m, q, t, sock, p);
  }

  /** disconnect(p) is not among the calls. */
  ghost predicate NotClosed(ops: seq<Op>, p: PeerId) {
    forall i | 0 <= i < |ops| :: !(ops[i].Close? && ops[i].p == p)
  }

  /** A stuck peer stays so as long as nobody disconnects it. */
  lemma {:induction false} StuckRun(m: Mgr, ops: seq<Op>, p: PeerId)
    requires Stuck(m, p) && NotClosed(ops, p)
    ensures Stuck(RunOps(m, ops), p)
  {
    if ops != [] {
      var n := |ops| - 1;
      StuckRun(m, ops[..n], p);
      var b := RunOps(m, ops[..n]);
      if Public(ops[n]) {
        StuckCall(b, ops[n], p);
      } else {
        StuckPiece(b, ops[n], p);
      }
    }
  }

  /** Only disconnect wakes it: then it is due again after its base delay, and can be connected. */
  lemma DisconnectRevives(m: Mgr, p: PeerId, t: Time, t': Time, k: nat)
    requires Stuck(m, p) && p in m.peers && m.peers[p].auto && m.peers[p].ip != "" && m.peers[p].port != 0
    requires t' >= t + m.peers[p].base
    ensures var m' := Disconnect(m, p, t);
            DueAt(m'.peers[p], t') && Retry(m', p, t', Open(k)).peers[p].connected
  {
  }

  lemma SetAutoSticks(m: Mgr, p: PeerId, enable: bool, base: U32, max: U32)
    requires Good(m) && p in m.peers && m.peers[p].socket.Invalid?
    ensures Stuck(SetAutoReconnect(m, p, enable, base, max), p)
    ensures !Good(SetAutoReconnect(m, p, enable, base, max))
  {
    var m' := SetAutoReconnect(m, p, enable, base, max);
    assert Phase(m.peers[p], p in Marked(m));
    assert !Phase(m'.peers[p], p in Marked(m'));
  }

  /** setAutoReconnect keeps the invariant exactly on peers that are not there or hold a socket. On a
      waiting peer it clears the time of the next retry, and no retry happens until somebody calls
      disconnect for it. */
  lemma SetAutoExact(m: Mgr, p: PeerId, enable: bool, base: U32, max: U32)
    requires Good(m)
    ensures Good(SetAutoReconnect(m, p, enable, base, max)) <==> Proper(m, SetAuto(p, enable, base, max))
    ensures !Proper(m, SetAuto(p, enable, base, max)) ==>
              forall ops, t: Time | NotClosed(ops, p) ::
                var m' := RunOps(SetAutoReconnect(m, p, enable, base, max), ops);
                p in m'.peers ==> !DueAt(m'.peers[p], t)
  {
    var m1 := SetAutoReconnect(m, p, enable, base, max);
    if Proper(m, SetAuto(p, enable, base, max)) {
      assert Good(m1) by {
        GoodSetAuto(m, p, enable, base, max);
      }
    } else {
      SetAutoSticks(m, p, enable, base, max);
      forall ops, t: Time | NotClosed(ops, p)
        ensures p in RunOps(m1, ops).peers ==> !DueAt(RunOps(m1, ops).peers[p], t)
      {
        StuckRun(m1, ops, p);
      }
    }
  }

  /** The first peer, with auto-reconnect: initialize, connect, switch auto-reconnect on. */
  function FirstPeer(ip: string, port: nat, h: nat, base: U32, max: U32): seq<Op> {
    [Initialize] + [ConnectTo(ip, port, h)] + [SetAuto(1, true, base, max)]
  }

  lemma FirstPeerUp(ip: string, port: nat, h: nat, base: U32, max: U32)
    requires ip != "" && port != 0
    ensures var m := RunOps(Init, FirstPeer(ip, port, h, base, max));
            && ProperRun(Init, FirstPeer(ip, port, h, base, max)) && m.now == 0 && m.pending == []
            && 1 in m.peers && Up(m.peers[1], false) && m.peers[1].auto && m.peers[1].base == base
            && m.peers[1].ip == ip && m.peers[1].port == port
  {
    RunSnoc(Init, [], Initialize);
    assert [] + [Initialize] == [Initialize];
    RunSnoc(Init, [Initialize], ConnectTo(ip, port, h));
    RunSnoc(Init, [Initialize] + [ConnectTo(ip, port, h)], SetAuto(1, true, base, max));
  }

  /** Waiting peers exist: then disconnect. */
  lemma WaitingIsReached(ip: string, port: nat, h: nat, base: U32, max: U32, t: Time)
    requires ip != "" && port != 0
    ensures var ops := FirstPeer(ip, port, h, base, max) + [Close(1, t)];
            var m := RunOps(Init, ops);
            ProperRun(Init, ops) && 1 in m.peers && Waits(m.peers[1], 1 in m.pending) && m.peers[1].next == t + base
  {
    FirstPeerUp(ip, port, h, base, max);
    RunSnoc(Init, FirstPeer(ip, port, h, base, max), Close(1, t));
  }

  /** Dying peers with auto-reconnect exist: then a send that fails. */
  lemma DyingIsReached(ip: string, port: nat, h: nat, base: U32, max: U32, data: Bytes)
    requires ip != "" && port != 0 && data != [] && |data| < U32_END
    ensures var ops := FirstPeer(ip, port, h, base, max) + [SendTo(1, data, SendFailed)];
            var m := RunOps(Init, ops);
            ProperRun(Init, ops) && 1 in m.peers && Dying(m.peers[1], 1 in m.pending) && m.peers[1].auto
  {
    FirstPeerUp(ip, port, h, base, max);
    RunSnoc(Init, FirstPeer(ip, port, h, base, max), SendTo(1, data, SendFailed));
  }

  // ---------- sockets ----------

  /** Every socket ever opened is held by exactly one holder or has been closed, none was closed twice,
      and no two holders share one. */
  lemma SocketLedger(ops: seq<Op>, h: nat)
    requires ProperRun(Init, ops)
    ensures var m := RunOps(Init, ops);
            && !m.misclosed
            && (h in m.open <==> m.listening == Open(h) || exists p :: p in m.peers && m.peers[p].socket == Open(h))
            && (forall p | p in m.peers && m.peers[p].socket.Open? :: m.peers[p].socket != m.listening)
            && (forall p, q | p in m.peers && q in m.peers && m.peers[p].socket.Open?
                              && m.peers[p].socket == m.peers[q].socket :: p == q)
  {
    GoodRun(ops);
    var m := RunOps(Init, ops);
    if h in m.open && m.open[h].Of? {
      assert m.open[h].peer in m.peers;
    }
  }

  lemma NothingHeldAfterShutdown(ops: seq<Op>, order: seq<PeerId>)
    requires ProperRun(Init, ops) && Order(RunOps(Init, ops), order) && RunOps(Init, ops).initialized
    ensures var m := Shutdown(RunOps(Init, ops), order);
            m.open == map[] && !m.misclosed && m.peers == map[] && m.listening == Invalid
  {
    GoodRun(ops);
    GoodShutdown(RunOps(Init, ops), order);
  }

  /** A retry never overwrites a live socket. */
  lemma RetryOnlyWithoutSocket(ops: seq<Op>, p: PeerId, t: Time)
    requires ProperRun(Init, ops) && p in RunOps(Init, ops).peers && DueAt(RunOps(Init, ops).peers[p], t)
    ensures RunOps(Init, ops).peers[p].socket == Invalid && p !in RunOps(Init, ops).pending
  {
    GoodRun(ops);
    assert Phase(RunOps(Init, ops).peers[p], p in Marked(RunOps(Init, ops)));
  }

  // ---------- streams ----------

  /** While a connection lasts, the bytes the kernel took and the bytes waiting are those of the frames
      accepted for sending, no byte lost or added; and in order unless a direct send overtook. */
  lemma SendConservation(ops: seq<Op>, p: PeerId)
    requires ProperRun(Init, ops) && p in RunOps(Init, ops).peers
    ensures var c := RunOps(Init, ops).peers[p];
            && multiset(c.epoch.accepted + c.sendBuf) == multiset(FrameAll(c.epoch.sent))
            && (!c.epoch.overtook ==>
                  c.epoch.accepted + c.sendBuf == FrameAll(c.epoch.sent) && c.epoch.accepted <= FrameAll(c.epoch.sent))
  {
    GoodRun(ops);
  }

  /** The bytes of p so far are in order. */
  ghost predicate Ordered(m: Mgr, p: PeerId) {
    p in m.peers && m.peers[p].epoch.accepted + m.peers[p].sendBuf == FrameAll(m.peers[p].epoch.sent)
  }

  /** For one answer of the kernel: the order is kept exactly when what was taken commutes with what waited. */
  lemma SendOrderStep(m: Mgr, p: PeerId, data: Bytes, n: nat)
    requires Sendable(m, p, data) && n <= |Frame(data)| && Ordered(m, p)
    ensures var first, q := Frame(data)[..n], m.peers[p].sendBuf;
            Ordered(Send(m, p, data, Took(n)), p) <==> first + q == q + first
  {
    var c := m.peers[p];
    FrameAllSnoc(c.epoch.sent, data);
    SplitCommutes(c.epoch.accepted, c.sendBuf, Frame(data), n);
  }

  lemma SplitCommutes(a: Bytes, q: Bytes, f: Bytes, n: nat)
    requires n <= |f|
    ensures (a + f[..n]) + (q + f[n..]) == (a + q) + f <==> f[..n] + q == q + f[..n]
  {
    Commutes(a, q, f[..n], f[n..]);
    assert f[..n] + f[n..] == f;
  }

  /** All bytes are the same. */
  predicate Uniform(s: Bytes) {
    forall i, j | 0 <= i < j < |s| :: s[i] == s[j]
  }

  lemma UniformCommutes(q: Bytes, f: Bytes, n: nat)
    requires n <= |f| && (q == [] || Uniform(q + f))
    ensures f[..n] + q == q + f[..n]
  {
    if q != [] {
      var x := q[0];
      forall i | 0 <= i < |q| ensures q[i] == x {
        assert (q + f)[i] == q[i] && (q + f)[0] == x;
      }
      forall i | 0 <= i < |f| ensures f[i] == x {
        assert (q + f)[|q| + i] == f[i] && (q + f)[0] == x;
      }
    }
  }

  /** If every beginning of f commutes with q, all their bytes are the same. */
  lemma CommutesUniform(q: Bytes, f: Bytes)
    requires q != [] && f != [] && (forall n | 0 <= n <= |f| :: f[..n] + q == q + f[..n])
    ensures Uniform(q + f)
  {
    var x := q[|q| - 1];
    forall i | 0 <= i < |f| ensures f[i] == x {
      var l, r := f[..i + 1] + q, q + f[..i + 1];
      assert l == r && l[|q| + i] == x && r[|q| + i] == f[i];
    }
    assert f[..1] + q == q + f[..1];
    AllAsLast(q, f[..1]);
  }

  lemma AllAsLast(q: Bytes, f: Bytes)
    requires |f| == 1 && q != [] && f + q == q + f
    ensures forall i | 0 <= i < |q| :: q[i] == f[0]
  {
    var k := 0;
    while k < |q|
      invariant 0 <= k <= |q| && forall i | 0 <= i < k :: q[i] == f[0]
    {
      assert (q + f)[k] == q[k] && (f + q)[k] == if k == 0 then f[0] else q[k - 1];
      k := k + 1;
    }
  }

  /** The frame of a packet below 16 MB is not uniform. */
  lemma SmallNotUniform(q: Bytes, data: Bytes)
    requires 0 < |data| < 0x0101_0101
    ensures !Uniform(q + Frame(data))
  {
    var b := LeBytes(|data|, 4);
    var s := q + Frame(data);
    assert s[|q|] == b[0] && s[|q| + 1] == b[1] && s[|q| + 2] == b[2] && s[|q| + 3] == b[3];
    assert Pow256(2) == 0x1_0000 && Pow256(3) == 0x100_0000 && Pow256(4) == HEADER_RANGE;
    LeValueOfBytes(|data|, 4);
    FourBytes(b);
  }

  /** sendPacket is certain to keep the order, whatever the kernel takes, exactly when nothing is waiting
      or every waiting byte and every byte of the frame are the same; for packets below 16 MB, exactly
      when nothing is waiting. When the kernel takes nothing the order is always kept. */
  lemma SendOrderExact(m: Mgr, p: PeerId, data: Bytes)
    requires Sendable(m, p, data) && Ordered(m, p)
    ensures var q := m.peers[p].sendBuf;
            (forall n | 0 <= n <= |Frame(data)| :: Ordered(Send(m, p, data, Took(n)), p))
            <==> q == [] || Uniform(q + Frame(data))
    ensures |data| < 0x0101_0101 ==>
              ((forall n | 0 <= n <= |Frame(data)| :: Ordered(Send(m, p, data, Took(n)), p))
               <==> m.peers[p].sendBuf == [])
    ensures Ordered(Send(m, p, data, SendBlocked), p)
  {
    var q, f := m.peers[p].sendBuf, Frame(data);
    forall n | 0 <= n <= |f|
      ensures Ordered(Send(m, p, data, Took(n)), p) <==> f[..n] + q == q + f[..n]
      ensures q == [] || Uniform(q + f) ==> f[..n] + q == q + f[..n]
    {
      SendOrderStep(m, p, data, n);
      if q == [] || Uniform(q + f) {
        UniformCommutes(q, f, n);
      }
    }
    if q != [] && forall n | 0 <= n <= |f| :: Ordered(Send(m, p, data, Took(n)), p) {
      CommutesUniform(q, f);
    }
    if |data| < 0x0101_0101 {
      SmallNotUniform(q, data);
    }
    BlockedKeepsOrder(m, p, data);
  }

  lemma BlockedKeepsOrder(m: Mgr, p: PeerId, data: Bytes)
    requires Sendable(m, p, data) && Ordered(m, p)
    ensures Ordered(Send(m, p, data, SendBlocked), p)
  {
    FrameAllSnoc(m.peers[p].epoch.sent, data);
    Assoc(m.peers[p].epoch.accepted, m.peers[p].sendBuf, Frame(data));
  }

  lemma Commutes(a: Bytes, q: Bytes, x: Bytes, y: Bytes)
    ensures (a + x) + (q + y) == (a + q) + (x + y) <==> x + q == q + x
  {
    assert (a + x) + (q + y) == a + (x + q) + y;
    assert (a + q) + (x + y) == a + (q + x) + y;
    var l, r := a + (x + q) + y, a + (q + x) + y;
    assert l[|a|..|a| + |x| + |q|] == x + q;
    assert r[|a|..|a| + |x| + |q|] == q + x;
  }

  /** The frames of two packets with different first length bytes: the second frame is no prefix of both. */
  lemma FramesDiffer(d1: Bytes, d2: Bytes)
    requires |d1| == 1 && |d2| == 2
    ensures !(Frame(d2) <= FrameAll([d1, d2]))
  {
    assert FrameAll([d1, d2]) == Frame(d1) + FrameAll([d2]);
    assert Frame(d1)[0] == 1 && Frame(d2)[0] == 2;
  }

  lemma SendTwice(m: Mgr, p: PeerId, d1: Bytes, d2: Bytes)
    requires Sendable(m, p, d1) && Sendable(m, p, d2) && m.peers[p].epoch == Fresh
    ensures var c := Send(Send(m, p, d1, SendBlocked), p, d2, Took(|Frame(d2)|)).peers[p];
            c.epoch.accepted == Frame(d2) && c.epoch.sent == [d1, d2]
  {
    var f := Frame(d2);
    assert [] + f[..|f|] == f;
    assert [] + [d1] + [d2] == [d1, d2];
  }

  /** The order can be lost on a new connection: the first packet is held back, the second sent directly. */
  lemma OrderCanBeLost(m: Mgr, ip: string, port: nat, h: nat, d1: Bytes, d2: Bytes)
    requires |d1| == 1 && |d2| == 2
    ensures var m0, p := Join(m, ip, port, h), m.nextId;
            && Sendable(m0, p, d1) && Sendable(Send(m0, p, d1, SendBlocked), p, d2)
            && (var c := Send(Send(m0, p, d1, SendBlocked), p, d2, Took(|Frame(d2)|)).peers[p];
                c.epoch.accepted == Frame(d2) && c.epoch.sent == [d1, d2]
                && !(c.epoch.accepted <= FrameAll(c.epoch.sent)))
  {
    SendTwice(Join(m, ip, port, h), m.nextId, d1, d2);
    FramesDiffer(d1, d2);
  }

  /** Packets taken and packets queued are the packets of the stream, per connection, as long as no bad
      length has been received; and the code meets a bad length exactly when the stream has one. */
  lemma ReceiveConservation(ops: seq<Op>, p: PeerId)
    requires ProperRun(Init, ops) && p in RunOps(Init, ops).peers
    ensures var c := RunOps(Init, ops).peers[p];
            && c.epoch.popped + c.queue == c.epoch.parsed
            && (c.epoch.garbled <==> Parse(MAX_PACKET_SIZE, c.epoch.received).bad)
            && (!c.epoch.garbled ==> Parse(MAX_PACKET_SIZE, c.epoch.received) == Parsed(c.epoch.parsed, c.recv, false))
  {
    GoodRun(ops);
  }

  // ---------- timing ----------

  lemma {:induction false} SpacedWaits(l: Loss, k: nat)
    requires Spaced(l) && k < |l.tries|
    ensures l.tries[k] >= l.at + WaitBefore(l.base, l.max, k)
    ensures k > 0 ==> l.tries[k] >= l.tries[k - 1] + Delay(l.base, l.max, k - 1)
    decreases |l.tries|
  {
    var n := |l.tries| - 1;
    var before := l.(tries := l.tries[..n]);
    if k < n {
      SpacedWaits(before, k);
    } else if k > 0 {
      SpacedWaits(before, k - 1);
    }
  }

  /** The retries after a loss: no earlier than the base delay and all delays before allow; that is base
      times 2^k as long as the cap is not reached, and `max` more with every retry from the first, j, that
      reaches it. */
  ghost predicate Paced(l: Loss, k: nat, j: nat)
    requires k < |l.tries|
  {
    && l.tries[k] >= l.at + WaitBefore(l.base, l.max, k)
    && (k <= 1 || l.base * Pow2(k - 1) <= l.max ==> l.tries[k] >= l.at + l.base * Pow2(k))
    && (k >= 2 && l.base * Pow2(k - 1) >= l.max ==> l.tries[k] >= l.tries[k - 1] + l.max)
    && (1 <= j <= k && l.base * Pow2(j) >= l.max ==>
          l.tries[k] >= l.at + WaitBefore(l.base, l.max, j) + (k - j) * l.max)
  }

  lemma SpacedIsPaced(l: Loss, k: nat, j: nat)
    requires Spaced(l) && k < |l.tries|
    ensures Paced(l, k, j)
  {
    SpacedWaits(l, k);
    if k <= 1 || l.base * Pow2(k - 1) <= l.max {
      WaitDoubles(l.base, l.max, k);
    }
    if k >= 2 && l.base * Pow2(k - 1) >= l.max {
      CappedDelay(l.base, l.max, k - 1, k - 1);
    }
    if 1 <= j <= k && l.base * Pow2(j) >= l.max {
      WaitAtCap(l.base, l.max, j, k - j);
    }
  }

  /** In every run the retries are paced, by the clock that attemptReconnects reads before its loop. */
  lemma RetryTiming(ops: seq<Op>, p: PeerId, k: nat, j: nat)
    requires ProperRun(Init, ops) && p in RunOps(Init, ops).peers
    requires k < |RunOps(Init, ops).peers[p].loss.tries|
    ensures Paced(RunOps(Init, ops).peers[p].loss, k, j)
  {
    GoodRun(ops);
    assert Timed(RunOps(Init, ops).peers[p]);
    SpacedIsPaced(RunOps(Init, ops).peers[p].loss, k, j);
  }
}
