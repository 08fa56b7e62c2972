/** The hook in the game process: packets are wrapped in envelopes on the way out, and unwrapped into
    a slot for one packet on the way in. */
module Hook {
  import opened Memory
  import opened Wire
  import opened Backoff
  import opened Peers
  import opened PeersInvariant
  import opened Passes
  import opened Reading
  import opened ClientManager

  const ID_SIZE := 8

  /** A CSteamID, 64 bits. */
  type SteamId = n: int | 0 <= n < 0x1_0000_0000_0000_0000

  function IdBytes(id: SteamId): (b: Bytes)
    ensures |b| == ID_SIZE
  {
    LeBytes(id, ID_SIZE)
  }

  // ---------- envelopes ----------

  function Envelope(dst: SteamId, src: SteamId, data: Bytes): Bytes {
    IdBytes(dst) + IdBytes(src) + data
  }

  /** What a packet from the relay says: who sent it, and what. */
  datatype Mail = Mail(from: nat, data: Bytes)

  predicate Readable(p: Bytes) {
    |p| >= ID_SIZE
  }

  function Unwrap(p: Bytes): Mail
    requires Readable(p)
  {
    Mail(LeValue(p[..ID_SIZE]), p[ID_SIZE..])
  }

  /** Unwrapping packet after packet; those too short to name a sender are thrown away. */
  function Unwrapped(ps: seq<Bytes>): seq<Mail> {
    if ps == [] then []
    else
      var n := |ps| - 1;
      if Readable(ps[n]) then Unwrapped(ps[..n]) + [Unwrap(ps[n])] else Unwrapped(ps[..n])
  }

  lemma IdRoundTrip(id: SteamId)
    ensures LeValue(IdBytes(id)) == id
  {
    assert Pow256(8) == 0x1_0000_0000_0000_0000 by {
      assert Pow256(2) == 0x1_0000;
      assert Pow256(4) == 0x1_0000_0000;
      assert Pow256(6) == 0x1_0000_0000_0000;
    }
    LeValueOfBytes(id, ID_SIZE);
  }

  /** An envelope with its first id taken off opens to its second id and its data. */
  lemma EnvelopeRoundTrip(dst: SteamId, src: SteamId, data: Bytes)
    ensures var e := Envelope(dst, src, data);
            && |e| == 2 * ID_SIZE + |data|
            && LeValue(e[..ID_SIZE]) == dst
            && Readable(e[ID_SIZE..]) && Unwrap(e[ID_SIZE..]) == Mail(src, data)
  {
    var e := Envelope(dst, src, data);
    IdRoundTrip(dst);
    IdRoundTrip(src);
    assert e[..ID_SIZE] == IdBytes(dst);
    assert e[ID_SIZE..] == IdBytes(src) + data;
    assert (IdBytes(src) + data)[..ID_SIZE] == IdBytes(src);
    assert (IdBytes(src) + data)[ID_SIZE..] == data;
  }

  lemma UnwrappedSnoc(ps: seq<Bytes>, p: Bytes)
    ensures Unwrapped(ps + [p]) == if Readable(p) then Unwrapped(ps) + [Unwrap(p)] else Unwrapped(ps)
  {
    assert (ps + [p])[..|ps|] == ps;
  }

  /** One call of SendP2PPacket. */
  datatype Outgoing = Outgoing(dst: SteamId, data: Bytes)

  function Envelopes(src: SteamId, ms: seq<Outgoing>): seq<Bytes> {
    if ms == [] then []
    else Envelopes(src, ms[..|ms| - 1]) + [Envelope(ms[|ms| - 1].dst, src, ms[|ms| - 1].data)]
  }

  lemma EnvelopesSnoc(src: SteamId, ms: seq<Outgoing>, o: Outgoing)
    ensures Envelopes(src, ms + [o]) == Envelopes(src, ms) + [Envelope(o.dst, src, o.data)]
  {
    assert (ms + [o])[..|ms|] == ms;
  }

  // ---------- the slot ----------

  datatype Slot = Empty | Full(mail: Mail)

  /** The manager and the slot; `taken` are the packets taken from the manager, `returned` the mails
      given to the game, `posted` the calls of SendP2PPacket whose envelope the manager accepted. */
  datatype State = State(m: Mgr, slot: Slot, taken: seq<Bytes>, returned: seq<Mail>, posted: seq<Outgoing>)

  function InSlot(s: Slot): seq<Mail> {
    if s.Full? then [s.mail] else []
  }

  /** The part of IsP2PPacketAvailable that fills the slot. */
  function Prefetch(h: State, order: seq<PeerId>): State {
    var f := Selected(h.m, ANY_PEER, order);
    if h.slot.Full? || !h.m.initialized || f.Nobody? || FrontOf(h.m, f.p) == [] then h
    else
      var p := FrontOf(h.m, f.p);
      State(Pop(h.m, f.p), if Readable(p) then Full(Unwrap(p)) else Empty, h.taken + [p], h.returned, h.posted)
  }

  /** ReadP2PPacket. */
  function Take(h: State): State {
    if h.slot.Full? then h.(slot := Empty, returned := h.returned + [h.slot.mail]) else h
  }

  /** SendP2PPacket, as far as it goes through the relay, by the hook of `id`. */
  function Post(h: State, id: SteamId, o: Outgoing, res: SendResult): State {
    var p, e := CurrentPeer(h.m.trace), Envelope(o.dst, id, o.data);
    if p == INVALID_PEER || !h.m.initialized then h
    else
      h.(m := Send(h.m, p, e, res),
         posted := if Sendable(h.m, p, e) && !res.SendFailed? then h.posted + [o] else h.posted)
  }

  /** No mail is lost, doubled or reordered on its way through the slot. */
  ghost predicate Conserves(h: State) {
    h.returned + InSlot(h.slot) == Unwrapped(h.taken)
  }

  lemma PrefetchConserves(h: State, order: seq<PeerId>)
    requires Conserves(h)
    ensures Conserves(Prefetch(h, order)) && Conserves(Take(h))
  {
    if Prefetch(h, order) != h {
      UnwrappedSnoc(h.taken, FrontOf(h.m, Selected(h.m, ANY_PEER, order).p));
    }
  }

  // ---------- whom to send to ----------

  lemma {:induction false} CurrentIsOnLine(t: Trace)
    ensures CurrentPeer(t) != INVALID_PEER ==> OnLine(t, CurrentPeer(t))
  {
    if t.Told? {
      CurrentIsOnLine(t.before);
    }
  }

  // ---------- runs over one connection ----------

  datatype Event = Manage(op: Op) | Look(order: seq<PeerId>) | Read | Dispatch(o: Outgoing, res: SendResult)

  /** One event at the hook of `id`. */
  function Step(h: State, id: SteamId, e: Event): State {
    match e
    case Manage(op) => h.(m := Peers.Step(h.m, op))
    case Look(order) => Prefetch(h, order)
    case Read => Take(h)
    case Dispatch(o, res) => Post(h, id, o, res)
  }

  function Run(h: State, id: SteamId, es: seq<Event>): State {
    if es == [] then h else Step(Run(h, id, es[..|es| - 1]), id, es[|es| - 1])
  }

  /** p is the only peer, on its socket k. */
  ghost predicate Sole(m: Mgr, p: PeerId, k: nat) {
    m.peers.Keys == {p} && m.peers[p].socket == Open(k)
  }

  /** The hook alone sends and takes packets; calls are proper. */
  ghost predicate Allowed(m: Mgr, e: Event) {
    match e
    case Manage(op) => !op.PopFrom? && !op.SendTo? && Possible(m, op) && Proper(m, op)
    case Dispatch(o, _) => 2 * ID_SIZE + |o.data| < U32_END
    case _ => true
  }

  /** ... and the connection lasts. */
  ghost predicate SoleRun(h: State, id: SteamId, es: seq<Event>, p: PeerId, k: nat) {
    && Sole(Run(h, id, es).m, p, k)
    && (es != [] ==>
          && SoleRun(h, id, es[..|es| - 1], p, k)
          && Allowed(Run(h, id, es[..|es| - 1]).m, es[|es| - 1]))
  }

  /** The connection is new: only the callback's greeting, the id, has been sent on it. */
  ghost predicate Begins(h: State, id: SteamId, p: PeerId) {
    && Good(h.m) && h.slot.Empty? && h.taken == [] && h.returned == [] && h.posted == []
    && p in h.m.peers && h.m.peers[p].epoch.popped == [] && h.m.peers[p].epoch.sent == [IdBytes(id)]
  }

  lemma ConnectSends(m: Mgr, ip: string, port: nat, k: nat, res: SendResult, greeting: Bytes)
    requires m.initialized && m.peers == map[] && greeting != [] && !res.SendFailed?
    ensures var m' := Connect(m, ip, port, k, res, greeting);
            && Sole(m', m.nextId, k) && CurrentPeer(m'.trace) == m.nextId
            && (var e := m'.peers[m.nextId].epoch; e.popped == [] && e.sent == [greeting] && !e.overtook)
  {
    var m1 := Join(m, ip, port, k);
    assert m1.peers.Keys == {m.nextId};
    SentOne(m1, m.nextId, greeting, res, m.nextId);
  }

  /** So it is after connect, when the callback knows its id and the kernel does not refuse the greeting. */
  lemma ConnectBegins(m: Mgr, ip: string, port: nat, k: nat, res: SendResult, id: SteamId)
    requires Good(m) && m.initialized && m.peers == map[] && Possible(m, ConnectTo(ip, port, k)) && !res.SendFailed?
    ensures var h := State(Connect(m, ip, port, k, res, IdBytes(id)), Empty, [], [], []);
            && Begins(h, id, m.nextId) && Sole(h.m, m.nextId, k)
            && CurrentPeer(h.m.trace) == m.nextId && !h.m.peers[m.nextId].epoch.overtook
  {
    ConnectSends(m, ip, port, k, res, IdBytes(id));
    assert Good(Connect(m, ip, port, k, res, IdBytes(id))) by {
      GoodJoin(m, ip, port, k);
      GoodSend(Join(m, ip, port, k), m.nextId, IdBytes(id), res);
    }
  }

  /** p has lost its socket, or has popped and sent exactly this. */
  ghost predicate Carried(m: Mgr, p: PeerId, popped: seq<Bytes>, sent: seq<Bytes>) {
    p in m.peers && m.peers[p].socket.Open? ==> m.peers[p].epoch.popped == popped && m.peers[p].epoch.sent == sent
  }

  lemma LoseCarried(m: Mgr, q: PeerId, t: Time, p: PeerId, popped: seq<Bytes>, sent: seq<Bytes>)
    requires Carried(m, p, popped, sent) && q in m.peers
    ensures Carried(Lose(m, q, t), p, popped, sent)
  {
    if p in Lose(m, q, t).peers {
      LosePeers(m, q, t, p);
    }
  }

  lemma {:induction false} RemoveCarried(m: Mgr, ps: seq<PeerId>, clock: nat -> Time, p: PeerId,
                                         popped: seq<Bytes>, sent: seq<Bytes>)
    requires Carried(m, p, popped, sent)
    ensures Carried(RemoveEach(m, ps, clock), p, popped, sent)
  {
    if ps != [] {
      var n := |ps| - 1;
      RemoveCarried(m, ps[..n], clock, p, popped, sent);
      if ps[n] in RemoveEach(m, ps[..n], clock).peers {
        LoseCarried(RemoveEach(m, ps[..n], clock), ps[n], clock(n), p, popped, sent);
      }
    }
  }

  lemma FlushCarried(m: Mgr, q: PeerId, res: SendResult, p: PeerId, popped: seq<Bytes>, sent: seq<Bytes>)
    requires Carried(m, p, popped, sent)
    ensures Carried(Flush(m, q, res), p, popped, sent)
  {
  }

  lemma RecvCarried(m: Mgr, q: PeerId, got: RecvResult, p: PeerId, popped: seq<Bytes>, sent: seq<Bytes>)
    requires Carried(m, p, popped, sent)
    ensures Carried(Recv(m, q, got), p, popped, sent) && Carried(Except(m, q), p, popped, sent)
  {
  }

  /** A peer with a socket is never reconnected. */
  lemma RetryCarried(m: Mgr, q: PeerId, t: Time, sock: Socket, p: PeerId, popped: seq<Bytes>, sent: seq<Bytes>)
    requires Carried(m, p, popped, sent) && p in m.peers && m.peers[p].next == 0
    ensures Carried(Retry(m, q, t, sock), p, popped, sent)
  {
  }

  lemma JoinCarried(m: Mgr, ip: string, port: nat, h: nat, p: PeerId, popped: seq<Bytes>, sent: seq<Bytes>)
    requires Carried(m, p, popped, sent) && p < m.nextId
    ensures Carried(Join(m, ip, port, h), p, popped, sent)
  {
  }

  lemma CallCarried(m: Mgr, op: Op, p: PeerId, popped: seq<Bytes>, sent: seq<Bytes>)
    requires Carried(m, p, popped, sent) && p < m.nextId && Public(op) && !op.PopFrom? && !op.SendTo?
    ensures Carried(Peers.Step(m, op), p, popped, sent)
  {
    match op
    case ConnectTo(ip, port, h) => JoinCarried(m, ip, port, h, p, popped, sent);
    case Close(q, t) => if q in m.peers { LoseCarried(m, q, t, p, popped, sent); }
    case _ =>
  }

  lemma PieceCarried(m: Mgr, op: Op, p: PeerId, popped: seq<Bytes>, sent: seq<Bytes>)
    requires Carried(m, p, popped, sent) && p < m.nextId && !Public(op) && p in m.peers && m.peers[p].next == 0
    ensures Carried(Peers.Step(m, op), p, popped, sent)
  {
    match op
    case Accept(ip, port, h) => JoinCarried(m, ip, port, h, p, popped, sent);
    case RecvFrom(q, got) => RecvCarried(m, q, got, p, popped, sent);
    case FlushTo(q, res) => FlushCarried(m, q, res, p, popped, sent);
    case Exception(q) => RecvCarried(m, q, RecvBlocked, p, popped, sent);
    case Remove(clock) => RemoveCarried(m, SortedDistinct(m.pending), clock, p, popped, sent);
    case RetryOne(q, t, sock) => RetryCarried(m, q, t, sock, p, popped, sent);
  }

  /** What the hook and the manager agree on while p lasts. */
  ghost predicate Tidy(h: State, id: SteamId, p: PeerId) {
    && Good(h.m) && Conserves(h)
    && p in h.m.peers && h.taken == h.m.peers[p].epoch.popped
    && h.m.peers[p].epoch.sent == [IdBytes(id)] + Envelopes(id, h.posted)
    && Sendable32(h.posted)
  }

  /** Envelopes whose size fits 32 bits. */
  ghost predicate Sendable32(ms: seq<Outgoing>) {
    forall i | 0 <= i < |ms| :: 2 * ID_SIZE + |ms[i].data| < U32_END
  }

  lemma ManageKeeps(m: Mgr, op: Op, p: PeerId)
    requires Good(m) && p in m.peers && m.peers[p].socket.Open? && Allowed(m, Manage(op))
    ensures Good(Peers.Step(m, op))
    ensures Carried(Peers.Step(m, op), p, m.peers[p].epoch.popped, m.peers[p].epoch.sent)
  {
    GoodStep(m, op);
    if Public(op) {
      CallCarried(m, op, p, m.peers[p].epoch.popped, m.peers[p].epoch.sent);
    } else {
      assert Phase(m.peers[p], p in Marked(m));
      PieceCarried(m, op, p, m.peers[p].epoch.popped, m.peers[p].epoch.sent);
    }
  }

  /** The slot is filled from the only peer there is. */
  lemma LookPops(h: State, order: seq<PeerId>, p: PeerId)
    requires h.m.peers.Keys == {p} && Prefetch(h, order) != h
    ensures h.m.peers[p].queue != []
    ensures var h' := Prefetch(h, order);
            h'.m == Pop(h.m, p) && h'.taken == h.taken + [h.m.peers[p].queue[0]] && h'.posted == h.posted
  {
    assert Selected(h.m, ANY_PEER, order).p in h.m.peers.Keys;
  }

  lemma LookKeeps(h: State, id: SteamId, order: seq<PeerId>, p: PeerId, k: nat)
    requires Tidy(h, id, p) && Sole(h.m, p, k)
    ensures Tidy(Prefetch(h, order), id, p)
  {
    PrefetchConserves(h, order);
    if Prefetch(h, order) != h {
      LookPops(h, order, p);
      GoodPop(h.m, p);
    }
  }

  lemma SentOne(m: Mgr, q: PeerId, data: Bytes, res: SendResult, p: PeerId)
    requires p in m.peers
    ensures var m' := Send(m, q, data, res);
            && p in m'.peers && m'.peers[p].epoch.popped == m.peers[p].epoch.popped
            && m'.peers[p].epoch.sent ==
               if q == p && Sendable(m, q, data) && !res.SendFailed? then m.peers[p].epoch.sent + [data]
               else m.peers[p].epoch.sent
  {
  }

  lemma PostGood(h: State, id: SteamId, o: Outgoing, res: SendResult)
    requires Good(h.m)
    ensures Good(Post(h, id, o, res).m)
  {
    GoodSend(h.m, CurrentPeer(h.m.trace), Envelope(o.dst, id, o.data), res);
  }

  /** Of the peers the hook may send to only p is there. */
  lemma PostSends(h: State, id: SteamId, o: Outgoing, res: SendResult, p: PeerId)
    requires h.m.peers.Keys == {p} && h.m.peers[p].epoch.sent == [IdBytes(id)] + Envelopes(id, h.posted)
    ensures var h' := Post(h, id, o, res);
            && p in h'.m.peers && h'.m.peers[p].epoch.popped == h.m.peers[p].epoch.popped
            && h'.m.peers[p].epoch.sent == [IdBytes(id)] + Envelopes(id, h'.posted)
  {
    var q, e := CurrentPeer(h.m.trace), Envelope(o.dst, id, o.data);
    assert q in h.m.peers.Keys ==> q == p;
    SentOne(h.m, q, e, res, p);
    EnvelopesSnoc(id, h.posted, o);
    assert [IdBytes(id)] + Envelopes(id, h.posted) + [e] == [IdBytes(id)] + (Envelopes(id, h.posted) + [e]);
  }

  lemma PostFits(h: State, id: SteamId, o: Outgoing, res: SendResult)
    requires Conserves(h) && Sendable32(h.posted) && 2 * ID_SIZE + |o.data| < U32_END
    ensures Conserves(Post(h, id, o, res)) && Sendable32(Post(h, id, o, res).posted)
    ensures Post(h, id, o, res).taken == h.taken
  {
  }

  lemma PostKeeps(h: State, id: SteamId, o: Outgoing, res: SendResult, p: PeerId, k: nat)
    requires Tidy(h, id, p) && Sole(h.m, p, k) && 2 * ID_SIZE + |o.data| < U32_END
    ensures Tidy(Post(h, id, o, res), id, p)
  {
    PostGood(h, id, o, res);
    PostSends(h, id, o, res, p);
    PostFits(h, id, o, res);
  }

  lemma StepKeeps(h: State, id: SteamId, e: Event, p: PeerId, k: nat)
    requires Tidy(h, id, p) && Sole(h.m, p, k) && Allowed(h.m, e) && Sole(Step(h, id, e).m, p, k)
    ensures Tidy(Step(h, id, e), id, p)
  {
    match e
    case Manage(op) =>
      ManageKeeps(h.m, op, p);
      assert p in Step(h, id, e).m.peers.Keys;
    case Look(order) => LookKeeps(h, id, order, p, k);
    case Read => PrefetchConserves(h, []);
    case Dispatch(o, res) => PostKeeps(h, id, o, res, p, k);
  }

  /** Over one connection the hook takes exactly the packets popped from it, in order; nothing is lost in
      the slot; and the packets accepted for sending are its id and then the envelopes of the calls. */
  lemma {:induction false} SoleUser(h: State, id: SteamId, es: seq<Event>, p: PeerId, k: nat)
    requires Begins(h, id, p) && SoleRun(h, id, es, p, k)
    ensures Tidy(Run(h, id, es), id, p)
  {
    if es == [] {
      assert [IdBytes(id)] + Envelopes(id, []) == [IdBytes(id)];
    } else {
      SoleUser(h, id, es[..|es| - 1], p, k);
      StepKeeps(Run(h, id, es[..|es| - 1]), id, es[|es| - 1], p, k);
    }
  }

  // ---------- the hook itself ----------

  /** The envelope, written piece by piece into a buffer of its size. */
  method BuildEnvelope(dst: SteamId, src: SteamId, data: Bytes) returns (packet: Bytes)
    ensures packet == Envelope(dst, src, data)
  {
    var totalSize := ID_SIZE + ID_SIZE + |data|;
    var buffer := new Byte[totalSize](_ => 0);
    CopyIn(buffer, 0, IdBytes(dst));
    CopyIn(buffer, ID_SIZE, IdBytes(src));
    CopyIn(buffer, ID_SIZE + ID_SIZE, data);
    packet := buffer[..];
  }

  /** Reading from the peer that was found, with room for its packet, takes that packet. */
  lemma SameChoice(m: Mgr, p: PeerId, size: nat, order: seq<PeerId>)
    requires m.initialized && HasPacket(m, p) && size == |FrontOf(m, p)| && Selected(m, ANY_PEER, order) == Somebody(p)
    ensures ReadPublic(m, p, size, order) ==
            if size == 0 then Answer(InvalidParam, [], 0, m) else Answer(Ok, FrontOf(m, p), p, Pop(m, p))
  {
  }

  class SteamHook {
    const manager: ConnectionManager   // with g_connectedPeer, which its callback keeps
    const localId: SteamId             // g_localSteamID, 0 when it is not known
    var hasTcpData: bool               // g_hasTcpData, g_tcpRecvBuffer, g_tcpRecvSteamID: the slot
    var tcpRecvBuffer: Bytes
    var tcpRecvSteamID: nat

    ghost var taken: seq<Bytes>
    ghost var returned: seq<Mail>
    ghost var posted: seq<Outgoing>

    ghost predicate Valid()
      reads this, manager, manager.repr
    {
      && this !in manager.repr && manager.Valid() && manager.Separate()
      && manager.greeting == if localId == 0 then [] else IdBytes(localId)
    }

    ghost function View(): State
      reads this, manager
    {
      State(manager.model, if hasTcpData then Full(Mail(tcpRecvSteamID, tcpRecvBuffer)) else Empty,
            taken, returned, posted)
    }

    constructor (manager: ConnectionManager, localId: SteamId)
      requires manager.Valid() && manager.Separate()
      requires manager.greeting == if localId == 0 then [] else IdBytes(localId)
      ensures Valid() && this.manager == manager && this.localId == localId
      ensures View() == State(manager.model, Empty, [], [], [])
    {
      this.manager, this.localId := manager, localId;
      hasTcpData, tcpRecvBuffer, tcpRecvSteamID, taken, returned, posted := false, [], 0, [], [], [];
    }

    /** P2P_SendPacket. */
    method SendPacket(p: PeerId, packet: Bytes, res: SendResult) returns (ok: bool)
      requires Valid() && p != INVALID_PEER && |packet| < U32_END
      modifies manager`connections, manager`pendingRemove, manager`model
      ensures Valid()
      ensures var m := old(manager.model); manager.model == if m.initialized then Send(m, p, packet, res) else m
      ensures var m := old(manager.model); ok == (m.initialized && Sendable(m, p, packet) && !res.SendFailed?)
    {
      ok := false;
      if manager.initialized {
        ok := manager.SendPacket(p, packet, res);
      }
    }

    ghost method Count(o: Outgoing)
      requires Valid()
      modifies this`posted
      ensures Valid() && posted == old(posted) + [o]
    {
      posted := posted + [o];
    }

    /** SendP2PPacket, as far as it goes through the relay; `res` is what send() returns. It never sends
        to a peer of which the callback was told last that it is disconnected. */
    method SendP2PPacket(o: Outgoing, res: SendResult)
      requires Valid() && 2 * ID_SIZE + |o.data| < U32_END
      modifies this`posted, manager`connections, manager`pendingRemove, manager`model
      ensures Valid() && View() == Post(old(View()), localId, o, res)
      ensures manager.model != old(manager.model) ==> OnLine(old(manager.model).trace, manager.connectedPeer)
    {
      ghost var m, posted' := Post(View(), localId, o, res).m, Post(View(), localId, o, res).posted;
      CurrentIsOnLine(manager.model.trace);
      var targetPeer := manager.connectedPeer;
      if targetPeer != INVALID_PEER {
        var sendBuffer := BuildEnvelope(o.dst, localId, o.data);
        var ok := SendPacket(targetPeer, sendBuffer, res);
        if ok {
          Count(o);
        }
      }
      assert manager.model == m && posted == posted';
    }

    method ReadFound(p: PeerId, size: nat, order: seq<PeerId>) returns (ok: bool, raw: Bytes)
      requires Valid() && Order(manager.model, order) && manager.model.initialized
      requires HasPacket(manager.model, p) && size == |FrontOf(manager.model, p)|
      requires Selected(manager.model, ANY_PEER, order) == Somebody(p)
      modifies manager, manager.repr
      ensures Valid() && manager.repr == old(manager.repr)
      ensures ok == (FrontOf(old(manager.model), p) != []) && (ok ==> raw == FrontOf(old(manager.model), p))
      ensures manager.model == if ok then Pop(old(manager.model), p) else old(manager.model)
    {
      SameChoice(manager.model, p, size, order);
      var status, data, _ := manager.ReadChecked(p, size, order);
      ok, raw := status.Ok?, data;
    }

    /** Look for a packet of any peer, and read it into a buffer of its size. */
    method NextPacket(order: seq<PeerId>) returns (ok: bool, raw: Bytes)
      requires Valid() && Order(manager.model, order)
      modifies manager, manager.repr
      ensures Valid() && manager.repr == old(manager.repr)
      ensures var m := old(manager.model);
              var f := Selected(m, ANY_PEER, order);
              && ok == (m.initialized && f.Somebody? && FrontOf(m, f.p) != [])
              && (ok ==> raw == FrontOf(m, f.p) && manager.model == Pop(m, f.p))
              && (!ok ==> manager.model == m)
    {
      ok, raw := false, [];
      ghost var f := Selected(manager.model, ANY_PEER, order);
      if manager.initialized {
        var available, size, p := manager.IsPacketAvailable(ANY_PEER, order);
        if available {
          ok, raw := ReadFound(p, size, order);
        }
      }
    }

    /** Fill the slot if it is empty and a packet waits. */
    method FillSlot(order: seq<PeerId>)
      requires Valid() && Order(manager.model, order)
      modifies this, manager, manager.repr
      ensures Valid() && View() == Prefetch(old(View()), order)
    {
      if !hasTcpData {
        var ok, raw := NextPacket(order);
        if ok {
          Put(raw);
        }
      }
    }

    method Put(raw: Bytes)
      requires !hasTcpData
      modifies this
      ensures hasTcpData == Readable(raw) && taken == old(taken) + [raw]
      ensures returned == old(returned) && posted == old(posted)
      ensures hasTcpData ==> Mail(tcpRecvSteamID, tcpRecvBuffer) == Unwrap(raw)
    {
      taken := taken + [raw];
      if |raw| >= ID_SIZE {
        tcpRecvSteamID, tcpRecvBuffer, hasTcpData := LeValue(raw[..ID_SIZE]), raw[ID_SIZE..], true;
      }
    }

    /** IsP2PPacketAvailable, as far as the relay is concerned: run the manager, then fill the slot. */
    method IsP2PPacketAvailable(s: Script, t1: Time, t2: Time, order: seq<PeerId>) returns (ok: bool, size: nat)
      requires Valid() && Fits(manager.model, s, manager.greeting, t1, t2)
      requires Order(Pass(manager.model, s, manager.greeting), order)
      modifies this, manager, manager.repr
      ensures Valid()
      ensures View() == Prefetch(old(View()).(m := Pass(old(manager.model), s, manager.greeting)), order)
      ensures ok == View().slot.Full? && (ok ==> size == |View().slot.mail.data|)
    {
      manager.ProcessEvents(s, t1, t2);
      FillSlot(order);
      ok, size := hasTcpData, |tcpRecvBuffer|;
    }

    method ReadP2PPacket() returns (ok: bool, data: Bytes, from: nat)
      requires Valid()
      modifies this
      ensures Valid() && View() == Take(old(View())) && ok == old(View()).slot.Full?
      ensures ok ==> View().returned == old(View()).returned + [Mail(from, data)]
    {
      ok, data, from := hasTcpData, tcpRecvBuffer, tcpRecvSteamID;
      if ok {
        returned := returned + [Mail(from, data)];
        hasTcpData, tcpRecvBuffer, tcpRecvSteamID := false, [], 0;
      }
    }
  }
}
