/** What each operation of the connection manager does to the peer it is for, said of the state before and
    after it; and what a peer has received and sent, read off the operations of a whole run. */
module PeerEffects {
  import opened Wire
  import opened Packets
  import opened Backoff
  import opened Peers
  import opened PeersInvariant
  import opened PeersTheorems

  /** p is there and connected. */
  predicate IsUp(m: Mgr, p: PeerId) {
    p in m.peers && m.peers[p].connected
  }

  /** Only peer p differs, and it is now c. */
  ghost predicate Becomes(m: Mgr, m': Mgr, p: PeerId, c: Peer) {
    m' == m.(peers := m.peers[p := c])
  }

  /** p's connection is found dead: it is as it was, but no longer connected, and up for removal. */
  ghost predicate Dies(m: Mgr, m': Mgr, p: PeerId) {
    p in m.peers && m' == m.(peers := m.peers[p := m.peers[p].(connected := false)], pending := m.pending + [p])
  }

  // ---------- receiving ----------

  /** recv: bytes are added to what has been received, the end of the stream is the end of the peer, and
      nothing to read changes nothing. A peer that is not connected is left alone. */
  lemma RecvEffect(m: Mgr, p: PeerId, got: RecvResult)
    ensures var m' := Step(m, RecvFrom(p, got));
            if !IsUp(m, p) || got.RecvBlocked? then m' == m
            else if got.Ended? then Dies(m, m', p)
            else
              var c := m.peers[p];
              && p in m'.peers && Becomes(m, m', p, m'.peers[p])
              && m'.peers[p] == c.(queue := m'.peers[p].queue, recv := m'.peers[p].recv, epoch := m'.peers[p].epoch)
              && m'.peers[p].epoch.received == c.epoch.received + got.bytes
              && m'.peers[p].epoch.sent == c.epoch.sent && m'.peers[p].epoch.popped == c.epoch.popped
              && c.queue <= m'.peers[p].queue
  {
  }

  lemma ExceptionEffect(m: Mgr, p: PeerId)
    ensures var m' := Step(m, Exception(p));
            if IsUp(m, p) then Dies(m, m', p) else m' == m
  {
  }

  // ---------- sending ----------

  /** How many of n bytes are taken. */
  function TakenOf(res: SendResult, n: nat): (k: nat)
    ensures k <= n
  {
    if res.Took? then Min(res.n, n) else 0
  }

  /** sendPacket: of the frame the kernel takes what it takes, the rest goes behind what is waiting, and the
      packet counts as sent; if send fails the peer dies. Without data or a connected peer nothing happens. */
  lemma SendEffect(m: Mgr, p: PeerId, data: Bytes, res: SendResult)
    ensures var m' := Step(m, SendTo(p, data, res));
            if data == [] || !IsUp(m, p) then m' == m
            else if res.SendFailed? then Dies(m, m', p)
            else
              var c, f, k := m.peers[p], Frame(data), TakenOf(res, |Frame(data)|);
              && p in m'.peers && Becomes(m, m', p, c.(sendBuf := m'.peers[p].sendBuf, epoch := m'.peers[p].epoch))
              && m'.peers[p].sendBuf == c.sendBuf + f[k..]
              && m'.peers[p].epoch.accepted == c.epoch.accepted + f[..k]
              && m'.peers[p].epoch.sent == c.epoch.sent + [data]
              && m'.peers[p].epoch.received == c.epoch.received
  {
    var f := Frame(data);
    assert f[0..] == f && f[..0] == [];
    if IsUp(m, p) {
      assert m.peers[p].epoch.accepted + [] == m.peers[p].epoch.accepted;
    }
  }

  /** Waiting bytes are sent as far as the kernel takes them; an error is the end of the peer. */
  lemma FlushEffect(m: Mgr, p: PeerId, res: SendResult)
    ensures var m' := Step(m, FlushTo(p, res));
            if p !in m.peers || m.peers[p].socket.Invalid? || m.peers[p].sendBuf == [] then m' == m
            else if res.SendFailed? then Dies(m, m', p)
            else
              var c, k := m.peers[p], TakenOf(res, |m.peers[p].sendBuf|);
              && p in m'.peers && Becomes(m, m', p, c.(sendBuf := c.sendBuf[k..], epoch := m'.peers[p].epoch))
              && m'.peers[p].epoch == c.epoch.(accepted := c.epoch.accepted + c.sendBuf[..k])
  {
    if p in m.peers {
      var c := m.peers[p];
      assert c.epoch.accepted + [] == c.epoch.accepted;
      assert m.peers[p := c] == m.peers;
    }
  }

  // ---------- connecting and disconnecting ----------

  /** A socket that has been connected or accepted is a new peer: on blank buffers, without auto-reconnect,
      told connected. */
  lemma JoinEffect(m: Mgr, op: Op)
    requires (op.ConnectTo? && m.initialized) || (op.Accept? && m.listening.Open?)
    ensures var m', p := Step(m, op), m.nextId;
            && m'.peers.Keys == m.peers.Keys + {p} && (forall q | q in m.peers && q != p :: m'.peers[q] == m.peers[q])
            && (var c := m'.peers[p];
                Up(c, false) && Blank(c) && !c.auto && c.socket == Open(op.h) && c.ip == op.ip && c.port == op.port)
            && m'.trace == Told(m.trace, p, true) && m'.nextId == p + 1 && m'.pending == m.pending
            && op.h in m'.open && m'.open[op.h] == Of(p)
  {
  }

  /** p's socket is closed and Disconnected told; then p waits for its first retry if it is to reconnect, and
      otherwise is gone. */
  ghost predicate Parts(m: Mgr, m': Mgr, p: PeerId, t: Time)
    requires p in m.peers
  {
    var c := m.peers[p];
    && m'.trace == Told(m.trace, p, false) && m'.pending == m.pending && m'.nextId == m.nextId
    && m'.open == (if c.socket.Open? then m.open - {c.socket.handle} else m.open) && !m'.misclosed
    && m'.peers - {p} == m.peers - {p} && (p in m'.peers <==> c.auto)
    && (c.auto ==>
          && m'.now == t && Waits(m'.peers[p], false) && m'.peers[p].next == t + c.base && m'.peers[p].auto
          && m'.peers[p].ip == c.ip && m'.peers[p].port == c.port)
  }

  /** disconnect does that; an unknown peer changes nothing. */
  lemma DisconnectEffect(m: Mgr, p: PeerId, t: Time)
    requires Sockets(m)
    ensures if p in m.peers then Parts(m, Step(m, Close(p, t)), p, t) else Step(m, Close(p, t)) == m
  {
    if p in m.peers {
      HeldIsOpen(m, p);
      LoseParts(m, p, t);
    }
  }

  lemma LoseParts(m: Mgr, p: PeerId, t: Time)
    requires p in m.peers && !m.misclosed && (m.peers[p].socket.Open? ==> m.peers[p].socket.handle in m.open)
    ensures Parts(m, Lose(m, p, t), p, t)
  {
    LoseEffect(m, p, t);
  }

  lemma HeldIsOpen(m: Mgr, p: PeerId)
    requires Sockets(m) && p in m.peers
    ensures !m.misclosed && (m.peers[p].socket.Open? ==> m.peers[p].socket.handle in m.open)
  {
  }

  lemma LoseEffect(m: Mgr, p: PeerId, t: Time)
    requires p in m.peers && !m.misclosed && (m.peers[p].socket.Open? ==> m.peers[p].socket.handle in m.open)
    ensures var m', c := Lose(m, p, t), m.peers[p];
            && m'.trace == Told(m.trace, p, false) && m'.pending == m.pending && m'.nextId == m.nextId
            && m'.open == (if c.socket.Open? then m.open - {c.socket.handle} else m.open) && !m'.misclosed
            && m'.peers == if c.auto then m.peers[p := Lost(c, t)] else m.peers - {p}
    ensures Lose(m, p, t).peers - {p} == m.peers - {p}
  {
  }

  /** attemptReconnects tries a peer exactly if it is to reconnect, has lost its connection, has an address,
      and its time has come; its next time counts the tries. */
  lemma RetryEffect(m: Mgr, p: PeerId, t: Time, sock: Socket)
    ensures var m' := Step(m, RetryOne(p, t, sock));
            && m'.now == t && m'.pending == m.pending && m'.nextId == m.nextId && m'.listening == m.listening
            && if p !in m.peers then m' == m.(now := t)
               else
                 var c := m.peers[p];
                 if !c.auto || c.connected || c.ip == "" || c.port == 0 || c.next == 0 || t < c.next
                 then m' == m.(now := t)
                 else
                   && m'.peers.Keys == m.peers.Keys && m'.peers - {p} == m.peers - {p}
                   && var c' := m'.peers[p];
                      && c'.loss.tries == c.loss.tries + [t] && c'.queue == c.queue && c'.recv == c.recv
                      && c'.sendBuf == c.sendBuf && c'.epoch == c.epoch && c'.auto
                      && if sock.Open? then
                           && c'.connected && c'.socket == sock && c'.next == 0 && c'.attempt == 0
                           && m'.trace == Told(m.trace, p, true) && m'.open == m.open[sock.handle := Of(p)]
                         else
                           && !c'.connected && c'.socket == c.socket && c'.next == t + Delay(c.base, c.max, c.attempt)
                           && c'.attempt == Min(c.attempt + 1, ATTEMPT_MAX)
                           && m'.trace == m.trace && m'.open == m.open
  {
  }

  // ---------- reading, settings, listening ----------

  lemma PopEffect(m: Mgr, p: PeerId)
    ensures var m' := Step(m, PopFrom(p));
            if p !in m.peers || m.peers[p].queue == [] then m' == m
            else
              var c := m.peers[p];
              && p in m'.peers && Becomes(m, m', p, c.(queue := c.queue[1..], epoch := m'.peers[p].epoch))
              && m'.peers[p].epoch == c.epoch.(popped := c.epoch.popped + [c.queue[0]])
  {
  }

  lemma SettingsEffect(m: Mgr, p: PeerId, enable: bool, base: U32, max: U32)
    ensures var m' := Step(m, SetAuto(p, enable, base, max));
            if p !in m.peers then m' == m
            else Becomes(m, m', p, m.peers[p].(auto := enable, base := base, max := max, attempt := 0, next := 0))
  {
  }

  /** listen: if initialized, whatever listened before is closed, and the manager listens exactly if the
      socket could be bound; a socket that could not is closed again. */
  lemma ListenEffect(m: Mgr, res: ListenResult)
    requires Sockets(m) && Possible(m, ListenOn(res))
    ensures var m' := Step(m, ListenOn(res));
            if !m.initialized then m' == m
            else
              && m'.listening == (if res.Listening? then Open(res.h) else Invalid)
              && (forall h :: h in m'.open <==>
                              (h in m.open && Open(h) != m.listening) || (res.Listening? && h == res.h))
              && m'.peers == m.peers && m'.trace == m.trace && !m'.misclosed
  {
    UnlistenEffect(m);
    if m.initialized {
      ListenOpens(m, StopListen(m), res);
    }
  }

  lemma ListenOpens(m: Mgr, u: Mgr, res: ListenResult)
    requires m.initialized && u == StopListen(m) && u.listening == Invalid && (res.NoSocket? || res.h !in u.open)
    ensures var m' := Listen(m, res);
            && m'.listening == (if res.Listening? then Open(res.h) else Invalid)
            && (forall h :: h in m'.open <==> h in u.open || (res.Listening? && h == res.h))
            && m'.peers == u.peers && m'.trace == u.trace && m'.misclosed == u.misclosed
  {
  }

  lemma UnlistenEffect(m: Mgr)
    requires Sockets(m)
    ensures var m' := Step(m, Unlisten);
            && m'.listening == Invalid && (forall h :: h in m'.open <==> h in m.open && Open(h) != m.listening)
            && m'.peers == m.peers && m'.trace == m.trace && !m'.misclosed
  {
  }

  // ---------- over a run ----------

  /** The operation gives p a new connection: connect, accept, or a retry that succeeds. */
  ghost predicate ToldUp(m: Mgr, op: Op, p: PeerId) {
    Step(m, op).trace == Told(m.trace, p, true)
  }

  function GotBy(op: Op, p: PeerId): Bytes {
    if op.RecvFrom? && op.p == p && op.got.Data? then op.got.bytes else []
  }

  function SentBy(op: Op, p: PeerId): seq<Bytes> {
    if op.SendTo? && op.p == p && op.data != [] && !op.sent.SendFailed? then [op.data] else []
  }

  /** What recv has returned for p since its last connection began. */
  ghost function ReceivedBy(ops: seq<Op>, p: PeerId): Bytes {
    if ops == [] then []
    else
      var n := |ops| - 1;
      if ToldUp(RunOps(Init, ops[..n]), ops[n], p) then [] else ReceivedBy(ops[..n], p) + GotBy(ops[n], p)
  }

  /** The packets given to sendPacket for p since then, without those for which send failed. */
  ghost function SentSince(ops: seq<Op>, p: PeerId): seq<Bytes> {
    if ops == [] then []
    else
      var n := |ops| - 1;
      if ToldUp(RunOps(Init, ops[..n]), ops[n], p) then [] else SentSince(ops[..n], p) + SentBy(ops[n], p)
  }

  /** p's connection goes on, and this has been received and sent on it. */
  ghost predicate GoesOn(m: Mgr, m': Mgr, p: PeerId, got: Bytes, sent: seq<Bytes>) {
    && IsUp(m, p) && IsUp(m', p)
    && m'.peers[p].epoch.received == m.peers[p].epoch.received + got
    && m'.peers[p].epoch.sent == m.peers[p].epoch.sent + sent
  }

  /** After the operation p's connection is new, or goes on with what the operation brings. */
  ghost predicate Continues(m: Mgr, op: Op, p: PeerId) {
    if ToldUp(m, op, p) then p in Step(m, op).peers && Step(m, op).peers[p].epoch == Fresh
    else GoesOn(m, Step(m, op), p, GotBy(op, p), SentBy(op, p))
  }

  /** p is as it was. */
  lemma StaysAsItWas(m: Mgr, m': Mgr, p: PeerId)
    requires IsUp(m, p) && p in m'.peers && m'.peers[p].connected && m'.peers[p].epoch == m.peers[p].epoch
    ensures GoesOn(m, m', p, [], [])
  {
  }

  lemma {:induction false} RemoveLeavesUp(m: Mgr, ps: seq<PeerId>, clock: nat -> Time, p: PeerId)
    requires IsUp(RemoveEach(m, ps, clock), p)
    ensures p in m.peers && m.peers[p] == RemoveEach(m, ps, clock).peers[p]
    ensures var t := RemoveEach(m, ps, clock).trace; t == m.trace || (t.Told? && !t.up)
  {
    if ps != [] {
      var n := |ps| - 1;
      var b := RemoveEach(m, ps[..n], clock);
      if ps[n] in b.peers {
        LosePeers(b, ps[n], clock(n), p);
      }
      RemoveLeavesUp(m, ps[..n], clock, p);
    }
  }

  lemma JoinGoesOn(m: Mgr, op: Op, p: PeerId)
    requires op.ConnectTo? || op.Accept?
    requires IsUp(Step(m, op), p)
    ensures Continues(m, op, p)
  {
    if (op.ConnectTo? && m.initialized) || (op.Accept? && m.listening.Open?) {
      JoinEffect(m, op);
      if p != m.nextId {
        StaysAsItWas(m, Step(m, op), p);
      }
    } else {
      StaysAsItWas(m, Step(m, op), p);
    }
  }

  /** A retry begins on blank buffers. */
  lemma DueIsBlank(m: Mgr, p: PeerId, t: Time)
    requires Life(m, Marked(m)) && p in m.peers && DueAt(m.peers[p], t)
    ensures Blank(m.peers[p]) && !m.peers[p].connected
  {
    assert Phase(m.peers[p], p in Marked(m));
  }

  lemma RetryChanges(m: Mgr, q: PeerId, t: Time, sock: Socket, p: PeerId)
    requires IsUp(Retry(m, q, t, sock), p)
    ensures var m' := Retry(m, q, t, sock);
            if q in m.peers && DueAt(m.peers[q], t) && q == p
            then m'.trace == Told(m.trace, p, true) && m'.peers[p].epoch == m.peers[p].epoch
            else m'.trace != Told(m.trace, p, true) && p in m.peers && m'.peers[p] == m.peers[p]
  {
    if q in m.peers && DueAt(m.peers[q], t) {
      RetryPeers(m, q, t, sock);
    }
  }

  lemma RetryGoesOn(m: Mgr, op: Op, p: PeerId)
    requires Life(m, Marked(m)) && op.RetryOne? && IsUp(Step(m, op), p)
    ensures Continues(m, op, p)
  {
    RetryChanges(m, op.p, op.t, op.sock, p);
    if op.p in m.peers && DueAt(m.peers[op.p], op.t) {
      DueIsBlank(m, op.p, op.t);
    }
  }

  lemma SendGoesOn(m: Mgr, op: Op, p: PeerId)
    requires op.SendTo? && IsUp(Step(m, op), p)
    ensures Continues(m, op, p)
  {
    SendEffect(m, op.p, op.data, op.sent);
  }

  lemma RecvGoesOn(m: Mgr, op: Op, p: PeerId)
    requires op.RecvFrom? && IsUp(Step(m, op), p)
    ensures Continues(m, op, p)
  {
    RecvEffect(m, op.p, op.got);
  }

  lemma FlushGoesOn(m: Mgr, op: Op, p: PeerId)
    requires op.FlushTo? && IsUp(Step(m, op), p)
    ensures Continues(m, op, p)
  {
    FlushEffect(m, op.p, op.sent);
  }

  lemma ExceptionGoesOn(m: Mgr, op: Op, p: PeerId)
    requires op.Exception? && IsUp(Step(m, op), p)
    ensures Continues(m, op, p)
  {
    ExceptionEffect(m, op.p);
  }

  lemma PopGoesOn(m: Mgr, op: Op, p: PeerId)
    requires op.PopFrom? && IsUp(Step(m, op), p)
    ensures Continues(m, op, p)
  {
    PopEffect(m, op.p);
  }

  /** The operations that move bytes. */
  lemma TrafficGoesOn(m: Mgr, op: Op, p: PeerId)
    requires op.SendTo? || op.RecvFrom? || op.FlushTo? || op.Exception? || op.PopFrom?
    requires IsUp(Step(m, op), p)
    ensures Continues(m, op, p)
  {
    if op.SendTo? {
      SendGoesOn(m, op, p);
    } else if op.RecvFrom? {
      RecvGoesOn(m, op, p);
    } else if op.FlushTo? {
      FlushGoesOn(m, op, p);
    } else if op.Exception? {
      ExceptionGoesOn(m, op, p);
    } else {
      PopGoesOn(m, op, p);
    }
  }

  lemma LossGoesOn(m: Mgr, op: Op, p: PeerId)
    requires op.Close? || op.Remove?
    requires IsUp(Step(m, op), p)
    ensures Continues(m, op, p)
  {
    match op
    case Close(q, t) =>
      if q in m.peers && q != p {
        LosePeers(m, q, t, p);
      }
    case Remove(clock) => RemoveLeavesUp(m, SortedDistinct(m.pending), clock, p);
  }

  lemma SamePeers(m: Mgr, op: Op)
    requires op.Initialize? || op.ListenOn? || op.Unlisten?
    ensures Step(m, op).peers == m.peers && Step(m, op).trace == m.trace
  {
  }

  lemma RestGoesOn(m: Mgr, op: Op, p: PeerId)
    requires op.Initialize? || op.SetAuto? || op.ListenOn? || op.Unlisten?
    requires IsUp(Step(m, op), p)
    ensures Continues(m, op, p)
  {
    if op.SetAuto? {
      SettingsEffect(m, op.p, op.enable, op.base, op.max);
    } else {
      SamePeers(m, op);
    }
    StaysAsItWas(m, Step(m, op), p);
  }

  lemma ShutDownGoesOn(m: Mgr, op: Op, p: PeerId)
    requires op.ShutDown? && IsUp(Step(m, op), p)
    ensures Continues(m, op, p)
  {
  }

  lemma OpGoesOn(m: Mgr, op: Op, p: PeerId)
    requires Good(m) && IsUp(Step(m, op), p)
    ensures Continues(m, op, p)
  {
    if op.ConnectTo? || op.Accept? {
      JoinGoesOn(m, op, p);
    } else if op.RetryOne? {
      RetryGoesOn(m, op, p);
    } else if op.SendTo? || op.RecvFrom? || op.FlushTo? || op.Exception? || op.PopFrom? {
      TrafficGoesOn(m, op, p);
    } else if op.Close? || op.Remove? {
      LossGoesOn(m, op, p);
    } else if op.ShutDown? {
      ShutDownGoesOn(m, op, p);
    } else {
      RestGoesOn(m, op, p);
    }
  }

  /** What the connection of a connected peer has received and sent is what the operations since its
      beginning brought: every byte that recv returned and every packet that was accepted, in order. */
  lemma {:induction false} EpochIsRun(ops: seq<Op>, p: PeerId)
    requires ProperRun(Init, ops) && IsUp(RunOps(Init, ops), p)
    ensures var e := RunOps(Init, ops).peers[p].epoch;
            e.received == ReceivedBy(ops, p) && e.sent == SentSince(ops, p)
  {
    if ops != [] {
      var n := |ops| - 1;
      var m := RunOps(Init, ops[..n]);
      GoodRun(ops[..n]);
      OpGoesOn(m, ops[n], p);
      if !ToldUp(m, ops[n], p) {
        EpochIsRun(ops[..n], p);
      }
    }
  }

  /** So nothing that arrives is lost: the packets taken and the packets queued are those of the bytes that
      recv has returned, and the bytes after them are kept; as long as these have no bad length. */
  lemma NothingReceivedIsLost(ops: seq<Op>, p: PeerId)
    requires ProperRun(Init, ops) && IsUp(RunOps(Init, ops), p)
    requires !Parse(MAX_PACKET_SIZE, ReceivedBy(ops, p)).bad
    ensures var c := RunOps(Init, ops).peers[p];
            Parse(MAX_PACKET_SIZE, ReceivedBy(ops, p)) == Parsed(c.epoch.popped + c.queue, c.recv, false)
  {
    EpochIsRun(ops, p);
    ReceiveConservation(ops, p);
  }

  /** Nor what is sent: the kernel has taken, or will be offered, the bytes of the frames of all packets given
      to sendPacket; in their order unless a direct send overtook. */
  lemma NothingSentIsLost(ops: seq<Op>, p: PeerId)
    requires ProperRun(Init, ops) && IsUp(RunOps(Init, ops), p)
    ensures var c := RunOps(Init, ops).peers[p];
            && multiset(c.epoch.accepted + c.sendBuf) == multiset(FrameAll(SentSince(ops, p)))
            && (!c.epoch.overtook ==> c.epoch.accepted + c.sendBuf == FrameAll(SentSince(ops, p)))
  {
    EpochIsRun(ops, p);
    SendConservation(ops, p);
  }
}
