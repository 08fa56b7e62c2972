/** Reading packets out of the connection manager, and the guard that the public call puts before it. */
module Reading {
  import opened Wire
  import opened Peers

  const ANY_PEER: PeerId := INVALID_PEER

  datatype Found = Nobody | Somebody(p: PeerId)

  predicate HasPacket(m: Mgr, p: PeerId) {
    p in m.peers && m.peers[p].queue != []
  }

  function FrontOf(m: Mgr, p: PeerId): Bytes
    requires HasPacket(m, p)
  {
    m.peers[p].queue[0]
  }

  /** The first peer with a packet, in the order in which the map is iterated. */
  function FirstWith(m: Mgr, order: seq<PeerId>): (f: Found)
    ensures f.Somebody? ==> HasPacket(m, f.p) && f.p in order
  {
    if order == [] then Nobody
    else if HasPacket(m, order[0]) then Somebody(order[0])
    else FirstWith(m, order[1..])
  }

  /** The peer isPacketAvailable and readPacket choose. */
  function Selected(m: Mgr, p: PeerId, order: seq<PeerId>): (f: Found)
    ensures f.Somebody? ==> HasPacket(m, f.p) && (p != ANY_PEER ==> f.p == p)
  {
    if p == ANY_PEER then FirstWith(m, order) else if HasPacket(m, p) then Somebody(p) else Nobody
  }

  lemma {:induction false} FirstIsThere(m: Mgr, order: seq<PeerId>)
    ensures FirstWith(m, order).Nobody? <==> forall i | 0 <= i < |order| :: !HasPacket(m, order[i])
  {
    if order != [] {
      FirstIsThere(m, order[1..]);
      assert order == [order[0]] + order[1..];
    }
  }

  /** Asking for any peer finds nobody exactly when no peer has a packet, in whatever order. */
  lemma AnyFindsOne(m: Mgr, order: seq<PeerId>)
    requires Order(m, order)
    ensures Selected(m, ANY_PEER, order).Nobody? <==> forall p :: !HasPacket(m, p)
  {
    FirstIsThere(m, order);
    if FirstWith(m, order).Nobody? {
      forall p ensures !HasPacket(m, p) {
        if p in m.peers {
          assert p in order;
        }
      }
    }
  }

  /** p is the first peer, in this order, with packets waiting, and x the first of these. */
  ghost predicate FirstWaiting(m: Mgr, order: seq<PeerId>, p: PeerId, x: Bytes) {
    exists i | 0 <= i < |order| ::
      && order[i] == p && p in m.peers && m.peers[p].queue != [] && m.peers[p].queue[0] == x
      && forall j | 0 <= j < i :: order[j] in m.peers ==> m.peers[order[j]].queue == []
  }

  lemma {:induction false} FirstIsFirst(m: Mgr, order: seq<PeerId>, p: PeerId, x: Bytes)
    requires FirstWaiting(m, order, p, x)
    ensures FirstWith(m, order) == Somebody(p) && FrontOf(m, p) == x
  {
    if !HasPacket(m, order[0]) {
      var i :| 0 <= i < |order| && order[i] == p
               && forall j | 0 <= j < i :: order[j] in m.peers ==> m.peers[order[j]].queue == [];
      assert order[1..][i - 1] == p;
      FirstIsFirst(m, order[1..], p, x);
    }
  }

  // ---------- the two calls ----------

  datatype Reply = Reply(ok: bool, data: Bytes, from: PeerId, after: Mgr)

  const NoReply: (Mgr) -> Reply := m => Reply(false, [], 0, m)

  /** readPacket: the packet is taken from its queue even when the buffer is too small for it. */
  function Read(m: Mgr, p: PeerId, room: nat, order: seq<PeerId>): Reply {
    var f := Selected(m, p, order);
    if room == 0 || f.Nobody? then NoReply(m)
    else if |FrontOf(m, f.p)| > room then NoReply(Pop(m, f.p))
    else Reply(true, FrontOf(m, f.p), f.p, Pop(m, f.p))
  }

  datatype Status = Ok | NotInitialized | InvalidParam | NoPacket | BufferTooSmall

  datatype Answer = Answer(status: Status, data: Bytes, from: PeerId, after: Mgr)

  /** P2P_ReadPacket: look first, and take the packet only when it fits. */
  function ReadPublic(m: Mgr, p: PeerId, room: nat, order: seq<PeerId>): Answer {
    if !m.initialized then Answer(NotInitialized, [], 0, m)
    else if room == 0 then Answer(InvalidParam, [], 0, m)
    else
      var f := Selected(m, p, order);
      if f.Nobody? then Answer(NoPacket, [], 0, m)
      else if |FrontOf(m, f.p)| > room then Answer(BufferTooSmall, [], 0, m)
      else
        var r := Read(m, p, room, order);
        Answer(if r.ok then Ok else NoPacket, r.data, r.from, r.after)
  }

  /** All the packets waiting at a peer, as its queue is or when it is gone. */
  function QueueOf(m: Mgr, p: PeerId): seq<Bytes> {
    if p in m.peers then m.peers[p].queue else []
  }

  /** readPacket by itself loses a packet exactly when the public read would have refused, because the
      packet does not fit, and have left it in its queue. */
  lemma DiscardExact(m: Mgr, p: PeerId, room: nat, order: seq<PeerId>)
    requires m.initialized
    ensures var r, a := Read(m, p, room, order), ReadPublic(m, p, room, order);
            && (!r.ok && (exists q :: QueueOf(r.after, q) != QueueOf(m, q)) <==> a.status.BufferTooSmall?)
            && (r.ok <==> a.status.Ok?)
            && (r.ok ==> a == Answer(Ok, r.data, r.from, r.after))
  {
    var r, f := Read(m, p, room, order), Selected(m, p, order);
    if room > 0 && f.Somebody? {
      assert |QueueOf(r.after, f.p)| < |QueueOf(m, f.p)|;
    }
  }

  /** The public read loses nothing: when it answers Ok the packet returned, put back in front, gives
      the queues of before; otherwise nothing has changed. And it answers Ok exactly when there is a
      packet that fits. */
  lemma Lossless(m: Mgr, p: PeerId, room: nat, order: seq<PeerId>)
    ensures var a := ReadPublic(m, p, room, order);
            var f := Selected(m, p, order);
            && (a.status.Ok? <==> m.initialized && room > 0 && f.Somebody? && |FrontOf(m, f.p)| <= room)
            && (!a.status.Ok? ==> a.after == m)
            && (a.status.Ok? ==>
                  && a.from == f.p && |a.data| <= room
                  && (forall q :: QueueOf(m, q) ==
                                  if q == f.p then [a.data] + QueueOf(a.after, q) else QueueOf(a.after, q)))
  {
  }

  /** x is the packet that a read for p must return, and q the peer it comes from. */
  ghost predicate Due(m: Mgr, p: PeerId, order: seq<PeerId>, q: PeerId, x: Bytes) {
    if p == ANY_PEER then FirstWaiting(m, order, q, x)
    else q == p && p in m.peers && m.peers[p].queue != [] && m.peers[p].queue[0] == x
  }

  /** Some packet waits at p, or at any of the peers in this order. */
  predicate Waiting(m: Mgr, p: PeerId, order: seq<PeerId>) {
    if p == ANY_PEER then exists i | 0 <= i < |order| :: order[i] in m.peers && m.peers[order[i]].queue != []
    else p in m.peers && m.peers[p].queue != []
  }

  /** Every answer of the public read, and exactly when it is given. */
  lemma StatusExact(m: Mgr, p: PeerId, room: nat, order: seq<PeerId>)
    ensures var st := ReadPublic(m, p, room, order).status;
            && (st.NotInitialized? <==> !m.initialized)
            && (st.InvalidParam? <==> m.initialized && room == 0)
            && (st.NoPacket? <==> m.initialized && room > 0 && !Waiting(m, p, order))
  {
    FirstIsThere(m, order);
  }

  lemma PacketExact(m: Mgr, p: PeerId, room: nat, order: seq<PeerId>, q: PeerId, x: Bytes)
    requires m.initialized && room > 0 && Due(m, p, order, q, x)
    ensures var a := ReadPublic(m, p, room, order);
            && (a.status.BufferTooSmall? <==> |x| > room)
            && (a.status.Ok? <==> |x| <= room)
            && (a.status.Ok? ==> a.data == x && a.from == q && QueueOf(m, q) == [x] + QueueOf(a.after, q))
  {
    if p == ANY_PEER {
      FirstIsFirst(m, order, q, x);
    }
  }
}
