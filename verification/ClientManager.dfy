/** The client's connection manager as it is written: a map of connections whose fields, queues and
    buffers are updated in place, a list of connections to remove, and the loops over them. `Valid`
    ties all of it to a state of `Peers`; every method is proved to make that state's transition. */
module ClientManager {
  import opened Wire
  import opened Packets
  import opened Backoff
  import opened Peers
  import opened Passes
  import opened Reading

  /** struct Connection, without its two members that are objects with methods of their own. */
  datatype Connection = Connection(
    socket: Socket, remoteIP: string, remotePort: nat, connected: bool,
    autoReconnect: bool, baseDelay: U32, maxDelay: U32, attempt: U32, nextReconnectAt: nat,
    sendBuffer: Bytes)

  /** c, with this queue and these received bytes, is in state m. */
  predicate Shows(c: Connection, queue: seq<Bytes>, received: Bytes, m: Peer) {
    m == Peer(c.socket, c.remoteIP, c.remotePort, c.connected, c.autoReconnect, c.baseDelay, c.maxDelay, c.attempt,
              c.nextReconnectAt, queue, received, c.sendBuffer, m.epoch, m.loss)
  }

  /** createSendFrame: the length in four bytes, low byte first, then the data. */
  method CreateSendFrame(data: Bytes) returns (frame: Bytes)
    requires |data| < U32_END
    ensures frame == Frame(data)
  {
    var size := |data|;
    frame := [];
    frame := frame + [size % 0x100];
    frame := frame + [size / 0x100 % 0x100];
    frame := frame + [size / 0x1_0000 % 0x100];
    frame := frame + [size / 0x100_0000 % 0x100];
    LengthBytes(size);
    frame := frame + data;
  }

  /** A retry fails: the time of the next one. */
  method NextTime(now: Time, base: U32, max: U32, attempt: U32) returns (next: nat)
    ensures next == now + Delay(base, max, attempt)
    ensures next < U64_END
  {
    var delay := BackoffDelay(base, max, attempt);
    next := now + delay;
  }

  class ConnectionManager {
    var initialized: bool
    var listenSocket: Socket
    var nextPeerID: PeerId
    var connections: map<PeerId, Connection>    // m_connections,
    var queues: map<PeerId, PacketQueue>        // with the receiveQueue
    var buffers: map<PeerId, ReceiveBuffer>     // and the recvBuffer of each entry
    var pendingRemove: seq<PeerId>
    var connectedPeer: PeerId                   // g_connectedPeer, kept by the connection callback
    const greeting: Bytes                       // what the callback sends to a peer on Connected

    ghost var model: Mgr
    ghost var repr: set<object>                 // all those objects,
    ghost var owner: map<object, PeerId>        // and to whom they belong

    ghost predicate Valid()
      reads this, repr
    {
      && model == Mgr(initialized, listenSocket, nextPeerID, model.peers, pendingRemove,
                      model.trace, model.open, model.misclosed, model.now)
      && connectedPeer == CurrentPeer(model.trace)
      && |greeting| < U32_END && this !in repr
      && (forall p :: p in connections <==> p in model.peers)
      && (forall p | p in connections ::
            p < nextPeerID && p in queues && p in buffers && queues[p] in repr && buffers[p] in repr &&
            Shows(connections[p], queues[p].queue, buffers[p].buffer, model.peers[p]))
    }

    /** No two connections share a queue or a buffer: each has an owner. */
    ghost predicate Separate()
      reads this`queues, this`buffers, this`repr, this`owner
    {
      forall p | p in queues ::
        && p in buffers && queues[p] in repr && buffers[p] in repr
        && queues[p] in owner && owner[queues[p]] == p && buffers[p] in owner && owner[buffers[p]] == p
    }

    /** Only the queue and the buffer of p have changed, and they are what the model says. */
    twostate lemma OnlyInbox(p: PeerId)
      requires old(Valid()) && old(Separate()) && p in old(connections)
      requires unchanged(`connections, `queues, `buffers, `repr, `owner)
      requires unchanged(`initialized, `listenSocket, `nextPeerID, `pendingRemove, `connectedPeer)
      requires forall q: PacketQueue | q in repr && q != queues[p] :: q.queue == old(q.queue)
      requires forall b: ReceiveBuffer | b in repr && b != buffers[p] :: b.buffer == old(b.buffer)
      requires p in model.peers && model == Peers.Put(old(model), p, model.peers[p])
      requires Shows(connections[p], queues[p].queue, buffers[p].buffer, model.peers[p])
      ensures Valid()
    {
      forall q | q in connections && q != p
        ensures Shows(connections[q], queues[q].queue, buffers[q].buffer, model.peers[q])
      {
        assert owner[queues[q]] == q && owner[buffers[q]] == q;
      }
    }

    constructor (greeting: Bytes)
      requires |greeting| < U32_END
      ensures Valid() && Separate() && model == Init && connections == map[] && this.greeting == greeting
    {
      initialized, listenSocket, nextPeerID, connections, pendingRemove := false, Invalid, 1, map[], [];
      this.greeting, connectedPeer := greeting, INVALID_PEER;
      model, queues, buffers, repr, owner := Init, map[], map[], {}, map[];
    }

    /** Assign to the fields of an entry. */
    method Put(p: PeerId, c: Connection, ghost m: Peer)
      requires Valid() && p in connections && Shows(c, queues[p].queue, buffers[p].buffer, m)
      modifies this`connections, this`model
      ensures Valid() && connections == old(connections)[p := c] && model == Peers.Put(old(model), p, m)
    {
      connections, model := connections[p := c], Peers.Put(model, p, m);
    }

    ghost method Record(m: Mgr)
      requires Valid()
      requires m == model.(open := m.open, misclosed := m.misclosed, now := m.now)
      modifies this`model
      ensures Valid() && model == m
    {
      model := m;
    }

    method Initialize()
      requires Valid()
      modifies this`initialized, this`model
      ensures Valid() && model == Step(old(model), Op.Initialize)
    {
      initialized, model := true, model.(initialized := true);
    }

    // ---------- sending ----------

    /** The connection is found dead. */
    method MarkForRemoval(p: PeerId)
      requires Valid() && p in connections
      modifies this`connections, this`pendingRemove, this`model
      ensures Valid() && model == MarkDead(old(model), p)
      ensures p in connections && connections[p].socket == old(connections)[p].socket
    {
      Put(p, connections[p].(connected := false), model.peers[p].(connected := false));
      SetPending(pendingRemove + [p]);
    }

    /** `res` is what send() returns for the frame. */
    method SendPacket(p: PeerId, data: Bytes, res: SendResult) returns (ok: bool)
      requires Valid() && |data| < U32_END
      modifies this`connections, this`pendingRemove, this`model
      ensures Valid() && model == Send(old(model), p, data, res)
      ensures ok == (Sendable(old(model), p, data) && !res.SendFailed?)
    {
      ok := false;
      if |data| > 0 && p in connections && connections[p].connected {
        var frame := CreateSendFrame(data);
        ok := !res.SendFailed?;
        if ok {
          QueueRest(p, data, frame, res);
        } else {
          MarkForRemoval(p);
        }
      }
    }

    /** What the kernel did not take of a frame waits in the send buffer. */
    method QueueRest(p: PeerId, data: Bytes, frame: Bytes, res: SendResult)
      requires Valid() && Sendable(model, p, data) && frame == Frame(data) && !res.SendFailed?
      modifies this`connections, this`model
      ensures Valid() && model == Send(old(model), p, data, res)
    {
      ghost var m := Send(model, p, data, res).peers[p];
      var c := connections[p];
      var sent := if res.Took? then Min(res.n, |frame|) else 0;
      if sent < |frame| {
        c := c.(sendBuffer := c.sendBuffer + frame[sent..]);
      }
      assert frame[0..] == frame;
      assert sent == |frame| ==> c.sendBuffer + frame[sent..] == c.sendBuffer;
      Put(p, c, m);
    }

    method ProcessWrite(p: PeerId, res: SendResult)
      requires Valid() && p in connections && connections[p].socket.Open?
      modifies this`connections, this`pendingRemove, this`model
      ensures Valid() && model == Flush(old(model), p, res)
    {
      var c := connections[p];
      if |c.sendBuffer| > 0 {
        match res
        case Took(n) =>
          var sent := Min(n, |c.sendBuffer|);
          Put(p, c.(sendBuffer := c.sendBuffer[sent..]), Flush(model, p, res).peers[p]);
        case SendBlocked =>
        case SendFailed =>
          MarkForRemoval(p);
      }
    }

    // ---------- events and new connections ----------

    /** The callback is told an event and keeps in mind whom to send to. */
    method Hear(p: PeerId, up: bool)
      requires Valid()
      modifies this`connectedPeer, this`model
      ensures Valid() && model == Tell(old(model), p, up)
    {
      model := Tell(model, p, up);
      if up {
        connectedPeer := p;
      } else if connectedPeer == p {
        connectedPeer := INVALID_PEER;
      }
    }

    /** The hook's callback: it greets a peer that has connected; `sent` is what send() returns. */
    method ConnectionCallback(p: PeerId, up: bool, sent: SendResult)
      requires Valid()
      modifies this`connections, this`pendingRemove, this`connectedPeer, this`model
      ensures Valid()
      ensures model == if up then Send(Tell(old(model), p, true), p, greeting, sent) else Tell(old(model), p, false)
    {
      Hear(p, up);
      if up {
        var _ := SendPacket(p, greeting, sent);
      }
    }

    /** Put a new connection with its own empty queue and buffer into the map. */
    method Emplace(h: nat, ip: string, port: nat) returns (p: PeerId)
      requires Valid() && Separate()
      modifies this`connections, this`nextPeerID, this`model, this`queues, this`buffers, this`repr, this`owner
      ensures Valid() && Separate() && p == old(model).nextId
      ensures Tell(model, p, true) == Join(old(model), ip, port, h)
      ensures fresh(repr - old(repr))
    {
      p := nextPeerID;
      NewInbox(p);
      Insert(p, Connection(Open(h), ip, port, true, false, DEFAULT_BASE, DEFAULT_MAX, 0, 0, []), h);
    }

    /** An empty queue and an empty buffer for the next peer. */
    method NewInbox(p: PeerId)
      requires Valid() && Separate() && p == nextPeerID
      modifies this`queues, this`buffers, this`repr, this`owner
      ensures Valid() && Separate() && fresh(repr - old(repr))
      ensures p in queues && queues[p] in repr && queues[p].queue == []
      ensures p in buffers && buffers[p] in repr && buffers[p].buffer == []
    {
      var q := new PacketQueue();
      var b := new ReceiveBuffer();
      Adopt(p, q, b);
      Place(p, q, b);
    }

    ghost method Adopt(p: PeerId, q: PacketQueue, b: ReceiveBuffer)
      requires Valid() && Separate() && q !in repr && b !in repr
      modifies this`repr, this`owner
      ensures Valid() && Separate() && repr == old(repr) + {q, b}
      ensures q in owner && owner[q] == p && b in owner && owner[b] == p
    {
      repr, owner := repr + {q, b}, owner[q := p][b := p];
    }

    method Place(p: PeerId, q: PacketQueue, b: ReceiveBuffer)
      requires Valid() && Separate() && p == nextPeerID && q in repr && b in repr
      requires q in owner && owner[q] == p && b in owner && owner[b] == p
      modifies this`queues, this`buffers
      ensures Valid() && Separate() && p in queues && queues[p] == q && p in buffers && buffers[p] == b
    {
      queues, buffers := queues[p := q], buffers[p := b];
    }

    method Insert(p: PeerId, c: Connection, ghost h: nat)
      requires Valid() && p == nextPeerID && p in queues && queues[p] in repr && p in buffers && buffers[p] in repr
      requires Shows(c, queues[p].queue, buffers[p].buffer, NewPeer(h, c.remoteIP, c.remotePort))
      modifies this`connections, this`nextPeerID, this`model
      ensures Valid()
      ensures Tell(model, p, true) == Join(old(model), c.remoteIP, c.remotePort, h)
    {
      connections, nextPeerID, model :=
        connections[p := c], p + 1,
        model.(peers := model.peers[p := NewPeer(h, c.remoteIP, c.remotePort)], nextId := p + 1,
               open := model.open[h := Of(p)]);
    }

    /** A connected socket becomes a peer, and the callback is told. */
    method Admit(ip: string, port: nat, h: nat, sent: SendResult) returns (p: PeerId)
      requires Valid() && Separate()
      modifies this`connections, this`nextPeerID, this`pendingRemove, this`connectedPeer, this`model
      modifies this`queues, this`buffers, this`repr, this`owner
      ensures Valid() && Separate() && p == old(model).nextId
      ensures model == Send(Join(old(model), ip, port, h), p, greeting, sent)
      ensures fresh(repr - old(repr))
    {
      ghost var joined := Join(model, ip, port, h);
      p := Emplace(h, ip, port);
      assert Tell(model, p, true) == joined;
      ConnectionCallback(p, true, sent);
    }

    /** `sock` is what connectWithTimeout returns. */
    method Connect(ip: string, port: nat, sock: Socket, sent: SendResult) returns (ok: bool, p: PeerId)
      requires Valid() && Separate()
      modifies this
      ensures Valid() && Separate()
      ensures ok == (old(model).initialized && sock.Open?) && (ok ==> p == old(model).nextId)
      ensures model ==
              if sock.Open? then Passes.Connect(old(model), ip, port, sock.handle, sent, greeting) else old(model)
      ensures fresh(repr - old(repr))
    {
      ok, p := initialized && sock.Open?, 0;
      if ok {
        p := Admit(ip, port, sock.handle, sent);
      }
    }

    method AcceptOne(mv: Move)
      requires Valid() && Separate() && mv.TakeIn? && listenSocket.Open?
      modifies this
      ensures Valid() && Separate() && model == Make(old(model), mv, greeting)
      ensures initialized == old(initialized) && fresh(repr - old(repr))
    {
      var _ := Admit(mv.ip, mv.port, mv.h, mv.sent);
    }

    // ---------- settings and losses ----------

    method SetAutoReconnect(p: PeerId, enable: bool, base: U32, max: U32)
      requires Valid()
      modifies this`connections, this`model
      ensures Valid() && model == Peers.SetAutoReconnect(old(model), p, enable, base, max)
    {
      if p in connections {
        Put(p, connections[p].(autoReconnect := enable, baseDelay := base, maxDelay := max,
                               attempt := 0, nextReconnectAt := 0),
            model.peers[p].(auto := enable, base := base, max := max, attempt := 0, next := 0));
      }
    }

    /** Empty the queue and the buffer of an entry. */
    method EmptyBoth(p: PeerId)
      requires Valid() && Separate() && p in connections
      modifies this`model, repr
      ensures Valid() && model == Peers.Put(old(model), p, old(model).peers[p].(recv := [], queue := []))
    {
      buffers[p].Clear();
      queues[p].Clear();
      model := Peers.Put(model, p, model.peers[p].(recv := [], queue := []));
      OnlyInbox(p);
    }

    /** Forget the socket and empty the three buffers of an entry. */
    method Reset(p: PeerId)
      requires Valid() && Separate() && p in connections
      modifies this`connections, this`model, repr
      ensures Valid() && p in connections
      ensures model == Peers.Put(old(model), p, Emptied(old(model).peers[p]))
    {
      ghost var m := model.peers[p];
      PutAgain(model, p, m.(recv := [], queue := []), Emptied(m));
      EmptyBoth(p);
      assert Shows(connections[p], queues[p].queue, buffers[p].buffer, m.(recv := [], queue := []));
      Put(p, connections[p].(socket := Invalid, connected := false, sendBuffer := []), Emptied(m));
    }

    method Erase(p: PeerId)
      requires Valid() && p in connections
      modifies this`connections, this`model
      ensures Valid() && model == old(model).(peers := old(model).peers - {p})
    {
      connections, model := connections - {p}, model.(peers := model.peers - {p});
    }

    /** Close the socket of an entry, empty its buffers, tell the callback. */
    method Release(p: PeerId)
      requires Valid() && Separate() && p in connections
      modifies this`connections, this`connectedPeer, this`model, repr
      ensures Valid() && p in connections
      ensures var m := old(model); var c := m.peers[p];
              model == Tell(Peers.Put(CloseSocket(m, c.socket), p, Emptied(c)), p, false)
    {
      Record(CloseSocket(model, connections[p].socket));
      Reset(p);
      Hear(p, false);
    }

    method WaitForRetry(p: PeerId, t: Time, ghost m: Peer)
      requires Valid() && p in connections && model.peers[p] == Emptied(m)
      modifies this`connections, this`model
      ensures Valid() && model == At(Peers.Put(old(model), p, Lost(m, t)), t)
    {
      var c := connections[p];
      Put(p, c.(attempt := 0, nextReconnectAt := t + c.baseDelay), Lost(m, t));
      Record(At(model, t));
    }

    /** What disconnect and removeDisconnected do with a connection they find; t is the clock. */
    method LoseConnection(p: PeerId, t: Time)
      requires Valid() && Separate() && p in connections
      modifies this`connections, this`connectedPeer, this`model, repr
      ensures Valid() && model == Lose(old(model), p, t)
    {
      ghost var m := model.peers[p];
      LosesInSteps(model, p, t);
      Release(p);
      if connections[p].autoReconnect {
        WaitForRetry(p, t, m);
      } else {
        Erase(p);
      }
    }

    method Disconnect(p: PeerId, t: Time)
      requires Valid() && Separate()
      modifies this`connections, this`connectedPeer, this`model, repr
      ensures Valid() && model == Peers.Disconnect(old(model), p, t)
    {
      if p in connections {
        LoseConnection(p, t);
      }
    }

    method RemoveIfThere(p: PeerId, t: Time)
      requires Valid() && Separate()
      modifies this`connections, this`connectedPeer, this`model, repr
      ensures Valid() && model == RemoveOne(old(model), p, t)
    {
      if p in connections {
        LoseConnection(p, t);
      }
    }

    method RemoveAll(ids: seq<PeerId>, clock: nat -> Time)
      requires Valid() && Separate()
      modifies this`connections, this`connectedPeer, this`model, repr
      ensures Valid() && model == RemoveEach(old(model), ids, clock)
    {
      for i := 0 to |ids|
        invariant Valid() && Separate() && model == RemoveEach(old(model), ids[..i], clock)
      {
        assert ids[..i + 1][..i] == ids[..i];
        RemoveIfThere(ids[i], clock(i));
      }
      assert ids[..|ids|] == ids;
    }

    /** clock(i) is what nowMs() returns when the i-th id is handled. */
    method RemoveDisconnected(clock: nat -> Time)
      requires Valid() && Separate()
      modifies this`connections, this`pendingRemove, this`connectedPeer, this`model, repr
      ensures Valid() && model == Peers.RemoveDisconnected(old(model), clock)
    {
      var ids := SortedDistinct(pendingRemove);
      PendingUnread(model, ids, ids, clock);
      SetPending(ids);
      RemoveAll(ids, clock);
      SetPending([]);
    }

    method SetPending(ids: seq<PeerId>)
      requires Valid()
      modifies this`pendingRemove, this`model
      ensures Valid() && model == old(model).(pending := ids)
    {
      pendingRemove, model := ids, model.(pending := ids);
    }

    // ---------- listening and shutting down ----------

    method StopListen()
      requires Valid()
      modifies this`listenSocket, this`model
      ensures Valid() && model == Peers.StopListen(old(model))
    {
      listenSocket, model := Invalid, Peers.StopListen(model);
    }

    method Listen(res: ListenResult) returns (ok: bool)
      requires Valid()
      modifies this`listenSocket, this`model
      ensures Valid() && model == Peers.Listen(old(model), res) && ok == (old(model).initialized && res.Listening?)
    {
      ok := false;
      if initialized {
        StopListen();
        match res
        case NoSocket =>
        case NotBound(h) =>
          Record(CloseSocket(model.(open := model.open[h := Listener]), Open(h)));
        case Listening(h) =>
          listenSocket, model := Open(h), model.(open := model.open[h := Listener], listening := Open(h));
          ok := true;
      }
    }

    method CloseNow(s: Socket)
      requires Valid()
      modifies this`model
      ensures Valid() && model == CloseSocket(old(model), s) && model.peers == old(model).peers
    {
      Record(CloseSocket(model, s));
    }

    method CloseSockets(order: seq<PeerId>)
      requires Valid() && Order(model, order)
      modifies this`model
      ensures Valid() && model == CloseAll(old(model), order)
    {
      for i := 0 to |order|
        invariant Valid() && model == CloseAll(old(model), order[..i])
        invariant model.peers == old(model).peers
      {
        assert order[..i + 1][..i] == order[..i];
        assert order[i] in model.peers;
        CloseNow(connections[order[i]].socket);
      }
      assert order[..|order|] == order;
    }

    /** `order` is the iteration order of the map. */
    method Shutdown(order: seq<PeerId>)
      requires Valid() && Order(model, order)
      modifies this`connections, this`pendingRemove, this`initialized, this`listenSocket, this`model
      ensures Valid() && model == Peers.Shutdown(old(model), order)
    {
      if initialized {
        StopListen();
        CloseSockets(order);
        ClearAll();
      }
    }

    method ClearAll()
      requires Valid()
      modifies this`connections, this`pendingRemove, this`initialized, this`model
      ensures Valid() && model == old(model).(peers := map[], pending := [], initialized := false)
    {
      connections, pendingRemove, initialized := map[], [], false;
      model := model.(peers := map[], pending := [], initialized := false);
    }

    // ---------- receiving ----------

    /** The history of p goes on. */
    ghost method Note(p: PeerId, m: Peer)
      requires Valid() && Separate() && p in connections && m == model.peers[p].(epoch := m.epoch)
      modifies this`model
      ensures Valid() && model == Peers.Put(old(model), p, m)
    {
      model := Peers.Put(model, p, m);
      OnlyInbox(p);
    }

    /** The queue and the buffer of p after these bytes. */
    method AbsorbInto(p: PeerId, data: Bytes)
      requires Valid() && Separate() && p in connections
      modifies this`model, repr
      ensures Valid()
      ensures var c := old(model).peers[p];
              model == Peers.Put(old(model), p, c.(queue := c.queue + Extracted(c.recv + data),
                                                   recv := Kept(c.recv + data)))
    {
      Absorb(buffers[p], queues[p], data);
      model := Peers.Put(model, p, model.peers[p].(queue := queues[p].queue, recv := buffers[p].buffer));
      OnlyInbox(p);
    }

    method TakeBytes(p: PeerId, data: Bytes)
      requires Valid() && Separate() && p in connections && connections[p].connected
      modifies this`model, repr
      ensures Valid() && model == Recv(old(model), p, Data(data))
    {
      ghost var c := model.peers[p];
      ghost var c' := Recv(model, p, Data(data)).peers[p];
      PutAgain(model, p, c.(queue := c.queue + Extracted(c.recv + data), recv := Kept(c.recv + data)), c');
      AbsorbInto(p, data);
      Note(p, c');
    }

    /** One round of the loop in processRead, with what recv() returned. */
    method ReceiveOnce(p: PeerId, res: RecvResult) returns (again: bool)
      requires Valid() && Separate() && p in connections && connections[p].connected
      modifies this`connections, this`pendingRemove, this`model, repr
      ensures Valid() && model == Recv(old(model), p, res) && again == res.Data?
      ensures again ==> connections == old(connections)
      ensures p in connections && connections[p].socket == old(connections)[p].socket
    {
      again := res.Data?;
      match res
      case Data(b) =>
        TakeBytes(p, b);
      case RecvBlocked =>
      case Ended =>
        MarkForRemoval(p);
    }

    method ProcessRead(p: PeerId, got: seq<RecvResult>)
      requires Valid() && Separate() && p in connections && connections[p].connected
      modifies this`connections, this`pendingRemove, this`model, repr
      ensures Valid() && model == ReadAll(old(model), p, got)
      ensures p in connections && connections[p].socket == old(connections)[p].socket
    {
      var i, again := 0, true;
      while i < |got| && again
        invariant 0 <= i <= |got| && Valid()
        invariant p in connections && connections[p].socket == old(connections)[p].socket
        invariant again ==> connections[p].connected && ReadAll(model, p, got[i..]) == ReadAll(old(model), p, got)
        invariant !again ==> model == ReadAll(old(model), p, got)
      {
        assert got[i..][1..] == got[i + 1..];
        again := ReceiveOnce(p, got[i]);
        i := i + 1;
      }
    }

    // ---------- a pass of processEvents ----------

    /** One peer in the loop over the result of select. */
    method VisitPeer(mv: Move)
      requires Valid() && Separate() && mv.Visit? && mv.p in connections
      modifies this`connections, this`pendingRemove, this`model, repr
      ensures Valid() && model == Make(old(model), mv, greeting)
    {
      var c := connections[mv.p];
      if c.socket.Open? && c.connected {
        if mv.failed {
          MarkForRemoval(mv.p);
        } else {
          if mv.readable {
            ProcessRead(mv.p, mv.got);
          }
          if mv.writable {
            ProcessWrite(mv.p, mv.sent);
          }
        }
      }
    }

    /** One peer in the loop of attemptReconnects; mv.sock is what connectWithTimeout returns. */
    method AttemptOne(mv: Move)
      requires Valid() && mv.TryRetry? && mv.p in connections
      modifies this`connections, this`pendingRemove, this`connectedPeer, this`model
      ensures Valid() && model == Make(old(model), mv, greeting)
    {
      var c := connections[mv.p];
      if c.autoReconnect && !c.connected && c.remoteIP != "" && c.remotePort != 0
         && c.nextReconnectAt != 0 && mv.t >= c.nextReconnectAt {
        if mv.sock.Open? {
          Reconnected(mv);
        } else {
          RetryFailed(mv);
        }
      } else {
        Record(At(model, mv.t));
      }
    }

    method Reconnected(mv: Move)
      requires Valid() && mv.TryRetry? && Connects(model, mv.p, mv.t, mv.sock)
      modifies this`connections, this`pendingRemove, this`connectedPeer, this`model
      ensures Valid() && model == Make(old(model), mv, greeting)
    {
      SetUp(mv);
      ConnectionCallback(mv.p, true, mv.sent);
    }

    method SetUp(mv: Move)
      requires Valid() && mv.TryRetry? && Connects(model, mv.p, mv.t, mv.sock)
      modifies this`connections, this`model
      ensures Valid() && Tell(model, mv.p, true) == Retry(old(model), mv.p, mv.t, mv.sock)
    {
      var c := connections[mv.p];
      ghost var m := model;
      Put(mv.p, c.(socket := mv.sock, connected := true, attempt := 0, nextReconnectAt := 0),
          Retry(m, mv.p, mv.t, mv.sock).peers[mv.p]);
      Record(model.(open := m.open[mv.sock.handle := Of(mv.p)], now := mv.t));
    }

    method RetryFailed(mv: Move)
      requires Valid() && mv.TryRetry? && mv.p in connections && DueAt(model.peers[mv.p], mv.t) && mv.sock.Invalid?
      modifies this`connections, this`model
      ensures Valid() && model == Make(old(model), mv, greeting)
    {
      var c := connections[mv.p];
      ghost var m := model;
      var next := NextTime(mv.t, c.baseDelay, c.maxDelay, c.attempt);
      Put(mv.p, c.(attempt := NextAttempt(c.attempt), nextReconnectAt := next),
          Retry(m, mv.p, mv.t, mv.sock).peers[mv.p]);
      Record(At(model, mv.t));
    }

    method AttemptReconnects(tries: seq<Move>, t: Time)
      requires Valid() && Tries(model, tries, t)
      modifies this`connections, this`pendingRemove, this`connectedPeer, this`model
      ensures Valid() && model == MakeAll(old(model), tries, greeting)
    {
      for i := 0 to |tries|
        invariant Valid() && MakeAll(model, tries[i..], greeting) == MakeAll(old(model), tries, greeting)
        invariant model.peers.Keys == old(model).peers.Keys
      {
        assert tries[i..][1..] == tries[i + 1..];
        assert PeersOf(tries)[i] in PeersOf(tries);
        MakeKeeps(model, tries[i], greeting);
        AttemptOne(tries[i]);
      }
    }

    method AcceptNext(arrivals: seq<Move>, i: nat)
      requires Valid() && Separate() && i < |arrivals| && arrivals[i].TakeIn? && listenSocket.Open?
      modifies this
      ensures Valid() && Separate() && listenSocket.Open? && initialized == old(initialized)
      ensures MakeAll(model, arrivals[i + 1..], greeting) == MakeAll(old(model), arrivals[i..], greeting)
      ensures fresh(repr - old(repr))
    {
      ghost var after, all := Make(model, arrivals[i], greeting), MakeAll(model, arrivals[i..], greeting);
      assert arrivals[i..][1..] == arrivals[i + 1..];
      assert all == MakeAll(after, arrivals[i + 1..], greeting);
      MakeListens(model, arrivals[i], greeting);
      AcceptOne(arrivals[i]);
      assert model == after;
    }

    /** accept() until it fails. */
    method AcceptNewConnections(arrivals: seq<Move>)
      requires Valid() && Separate() && Arrivals(arrivals)
      modifies this
      ensures Valid() && Separate() && model == MakeAll(old(model), arrivals, greeting)
      ensures initialized == old(initialized) && fresh(repr - old(repr))
    {
      if listenSocket.Invalid? {
        NotListening(model, arrivals, greeting);
      } else {
        for i := 0 to |arrivals|
          invariant Valid() && Separate() && listenSocket.Open? && initialized == old(initialized)
          invariant MakeAll(model, arrivals[i..], greeting) == MakeAll(old(model), arrivals, greeting)
          invariant fresh(repr - old(repr))
        {
          AcceptNext(arrivals, i);
        }
      }
    }

    /** The highest handle given to select; `visits` is in the iteration order of the map. */
    method HighestHandle(visits: seq<Move>) returns (maxFd: nat)
      requires Valid() && Looks(model, visits)
      ensures forall p | Watched(model, p) :: model.peers[p].socket.handle <= maxFd
      ensures maxFd == 0 || exists p :: Watched(model, p) && model.peers[p].socket.handle == maxFd
    {
      maxFd := 0;
      ghost var order := PeersOf(visits);
      for i := 0 to |visits|
        invariant forall j | 0 <= j < i && Watched(model, order[j]) :: model.peers[order[j]].socket.handle <= maxFd
        invariant maxFd == 0 || exists p :: Watched(model, p) && model.peers[p].socket.handle == maxFd
      {
        assert order[i] in order && order[i] in connections;
        var c := connections[visits[i].p];
        assert c.socket.Open? && c.connected <==> Watched(model, order[i]);
        if c.socket.Open? && c.connected && c.socket.handle > maxFd {
          maxFd := c.socket.handle;
        }
      }
      forall p | Watched(model, p) ensures model.peers[p].socket.handle <= maxFd {
        assert p in order;
      }
    }

    method LookAtOne(mv: Move)
      requires Valid() && Separate() && mv.Visit? && mv.p in model.peers
      modifies this`connections, this`pendingRemove, this`model, repr
      ensures Valid() && Separate() && model.peers.Keys == old(model).peers.Keys
      ensures model == Make(old(model), mv, greeting)
    {
      MakeKeeps(model, mv, greeting);
      VisitPeer(mv);
    }

    method LookAtAll(visits: seq<Move>)
      requires Valid() && Separate()
      requires forall i | 0 <= i < |visits| :: visits[i].Visit? && visits[i].p in model.peers
      modifies this`connections, this`pendingRemove, this`model, repr
      ensures Valid() && model == MakeAll(old(model), visits, greeting)
    {
      for i := 0 to |visits|
        invariant Valid() && Separate() && model.peers.Keys == old(model).peers.Keys
        invariant MakeAll(model, visits[i..], greeting) == MakeAll(old(model), visits, greeting)
      {
        MakeNext(model, visits, i, greeting);
        LookAtOne(visits[i]);
      }
    }

    /** select, and what follows from its result. */
    method SelectAndLook(s: Script)
      requires Valid() && Separate() && Looks(model, s.visits)
      modifies this`connections, this`pendingRemove, this`model, repr
      ensures Valid() && model == MakeAll(old(model), Visits(old(model), s), greeting)
    {
      var maxFd := HighestHandle(s.visits);
      if maxFd > 0 && s.selected {
        LooksAtPeers(model, s.visits);
        LookAtAll(s.visits);
      }
    }

    /** The pass up to building the sets for select. */
    method BeforeSelect(s: Script, t: Time)
      requires Valid() && Separate() && Tries(model, s.before, t) && Arrivals(s.arrivals)
      modifies this
      ensures Valid() && Separate() && model == AtSelect(old(model), s, greeting)
      ensures initialized == old(initialized) && fresh(repr - old(repr))
    {
      AttemptReconnects(s.before, t);
      AcceptNewConnections(s.arrivals);
    }

    method SelectAndRemove(s: Script)
      requires Valid() && Separate() && Looks(model, s.visits)
      modifies this`connections, this`pendingRemove, this`connectedPeer, this`model, repr
      ensures Valid()
      ensures model == Peers.RemoveDisconnected(MakeAll(old(model), Visits(old(model), s), greeting), s.clock)
    {
      SelectAndLook(s);
      RemoveDisconnected(s.clock);
    }

    /** The clock shows t1 and t2 at the two attempts to reconnect. */
    method ProcessEvents(s: Script, t1: Time, t2: Time)
      requires Valid() && Separate() && Fits(model, s, greeting, t1, t2)
      modifies this, repr
      ensures Valid() && Separate() && model == Pass(old(model), s, greeting)
      ensures fresh(repr - old(repr))
    {
      if initialized {
        BeforeSelect(s, t1);
        SelectAndRemove(s);
        AttemptReconnects(s.after, t2);
      }
    }

    // ---------- reading packets ----------

    /** `order` is the iteration order of the map. */
    method IsPacketAvailable(p: PeerId, order: seq<PeerId>) returns (ok: bool, size: nat, from: PeerId)
      requires Valid() && Order(model, order)
      ensures ok == Selected(model, p, order).Somebody?
      ensures ok ==> from == Selected(model, p, order).p && size == |FrontOf(model, from)|
    {
      ok, size, from := false, 0, p;
      if p != ANY_PEER {
        if p in connections {
          ok, size := queues[p].Peek();
        }
      } else {
        ok, from := FindPacket(order);
        if ok {
          var _, n := queues[from].Peek();
          size := n;
        }
      }
    }

    method HasWaiting(p: PeerId) returns (waiting: bool)
      requires Valid() && p in model.peers
      ensures waiting == HasPacket(model, p)
    {
      var w, _ := queues[p].Peek();
      waiting := w;
    }

    /** The first connection whose queue is not empty. */
    method FindPacket(order: seq<PeerId>) returns (ok: bool, from: PeerId)
      requires Valid() && forall i | 0 <= i < |order| :: order[i] in model.peers
      ensures ok == FirstWith(model, order).Somebody? && (ok ==> from == FirstWith(model, order).p)
    {
      ok, from := false, ANY_PEER;
      for i := 0 to |order|
        invariant FirstWith(model, order) == FirstWith(model, order[i..])
      {
        assert order[i..][1..] == order[i + 1..];
        var waiting := HasWaiting(order[i]);
        if waiting {
          return true, order[i];
        }
      }
    }

    /** The connection readPacket pops from, if any; its queue may turn out to be empty. */
    method Choose(p: PeerId, order: seq<PeerId>) returns (found: bool, source: PeerId)
      requires Valid() && Order(model, order)
      ensures found ==> source in connections
      ensures Selected(model, p, order) == if found && HasPacket(model, source) then Somebody(source) else Nobody
    {
      found, source := p in connections, p;
      if p == ANY_PEER {
        found, source := FindPacket(order);
      }
    }

    method PopFront(p: PeerId) returns (data: Bytes)
      requires Valid() && Separate() && HasPacket(model, p)
      modifies this`model, repr
      ensures Valid() && model == Pop(old(model), p) && data == FrontOf(old(model), p)
    {
      ghost var c, after := Pop(model, p).peers[p], Pop(model, p);
      assert after == Peers.Put(model, p, c) && FrontOf(model, p) == queues[p].queue[0];
      var _, packet := queues[p].Pop();
      model, data := after, packet;
      OnlyInbox(p);
    }

    method PopFrom(p: PeerId) returns (ok: bool, data: Bytes)
      requires Valid() && Separate() && p in connections
      modifies this`model, repr
      ensures Valid() && model == Pop(old(model), p)
      ensures ok == HasPacket(old(model), p) && (ok ==> data == FrontOf(old(model), p))
    {
      ok := HasWaiting(p);
      data := [];
      if ok {
        data := PopFront(p);
      }
    }

    /** readPacket; `room` is the size of the caller's buffer, 0 when there is none. */
    method ReadPacket(p: PeerId, room: nat, order: seq<PeerId>) returns (ok: bool, data: Bytes, from: PeerId)
      requires Valid() && Separate() && Order(model, order)
      modifies this`model, repr
      ensures Valid() && Reply(ok, data, from, model) == Read(old(model), p, room, order)
    {
      ok, data, from := false, [], 0;
      if room > 0 {
        var found, source := Choose(p, order);
        if found {
          var popped, packet := PopFrom(source);
          if popped && |packet| <= room {
            ok, data, from := true, packet, source;
          }
        }
      }
    }

    /** P2P_ReadPacket. */
    method ReadChecked(p: PeerId, room: nat, order: seq<PeerId>) returns (status: Status, data: Bytes, from: PeerId)
      requires Valid() && Separate() && Order(model, order)
      modifies this`model, repr
      ensures Valid() && Answer(status, data, from, model) == ReadPublic(old(model), p, room, order)
    {
      data, from := [], 0;
      if !initialized {
        return NotInitialized, data, from;
      }
      if room == 0 {
        return InvalidParam, data, from;
      }
      var available, size, _ := IsPacketAvailable(p, order);
      if !available {
        return NoPacket, data, from;
      }
      if size > room {
        return BufferTooSmall, data, from;
      }
      var ok;
      ok, data, from := ReadPacket(p, room, order);
      status := if ok then Ok else NoPacket;
    }
  }

  function Emptied(m: Peer): Peer {
    m.(socket := Invalid, connected := false, queue := [], recv := [], sendBuf := [], epoch := Fresh)
  }

  lemma OneUnread(m: Mgr, pending: seq<PeerId>, p: PeerId, t: Time)
    ensures RemoveOne(m.(pending := pending), p, t) == RemoveOne(m, p, t).(pending := pending)
  {
    if p in m.peers {
      var c := m.peers[p];
      var a := Tell(CloseSocket(m.(pending := pending), c.socket), p, false);
      var b := Tell(CloseSocket(m, c.socket), p, false);
      assert a == b.(pending := pending);
      assert Lose(m, p, t) == if c.auto then At(Peers.Put(b, p, Lost(c, t)), t) else b.(peers := b.peers - {p});
    }
  }

  /** Handling the ids does not look at the list of pending ones. */
  lemma {:induction false} PendingUnread(m: Mgr, pending: seq<PeerId>, ps: seq<PeerId>, clock: nat -> Time)
    ensures RemoveEach(m.(pending := pending), ps, clock) == RemoveEach(m, ps, clock).(pending := pending)
  {
    if ps != [] {
      var n := |ps| - 1;
      PendingUnread(m, pending, ps[..n], clock);
      OneUnread(RemoveEach(m, ps[..n], clock), pending, ps[n], clock(n));
    }
  }

  lemma PutAgain(m: Mgr, p: PeerId, a: Peer, b: Peer)
    ensures Peers.Put(Peers.Put(m, p, a), p, b) == Peers.Put(m, p, b)
  {
    assert m.peers[p := a][p := b] == m.peers[p := b];
  }

  /** Losing a connection, in the order in which the code does it. */
  lemma LosesInSteps(m: Mgr, p: PeerId, t: Time)
    requires p in m.peers
    ensures var c := m.peers[p];
            var m' := Tell(Peers.Put(CloseSocket(m, c.socket), p, Emptied(c)), p, false);
            Lose(m, p, t) ==
              if c.auto then At(Peers.Put(m', p, Lost(c, t)), t) else m'.(peers := m'.peers - {p})
  {
    var c := m.peers[p];
    assert m.peers[p := Emptied(c)][p := Lost(c, t)] == m.peers[p := Lost(c, t)];
    assert m.peers[p := Emptied(c)] - {p} == m.peers - {p};
  }
}
