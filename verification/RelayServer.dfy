/** The server as it is written: two global maps, a fixed receive array per connection that is
    shifted in place, send buffers that grow and shrink, and the loops over them. `Valid` ties all
    of it to a state of `Relay`, and every method is proved to make that state's transition. */
module RelayServer {
  import opened Memory
  import opened Wire
  import opened Relay

  /** struct Connection, without its receive array. */
  datatype Connection = Connection(mark: Bytes, registered: bool, sendBuf: Bytes, recvLen: nat,
                                   armed: bool)  // the kernel's side: EPOLLOUT is requested

  /** c, with array a, is in state m, when its first `skip` received bytes are already being processed. */
  ghost predicate Shows(c: Connection, a: array<Byte>, skip: nat, m: Conn)
    reads a
  {
    && a.Length == BUFFER_SIZE && skip <= c.recvLen <= BUFFER_SIZE
    && c.mark == m.mark && c.registered == m.registered && c.sendBuf == m.sendBuf && c.armed == m.armed
    && |m.recvBuf| == c.recvLen - skip
    && (forall i | 0 <= i < |m.recvBuf| :: m.recvBuf[i] == a[skip + i])
  }

  /** The length at the front of a buffer, put together from its four bytes. */
  method ReadPacketLength(buf: array<Byte>) returns (len: nat)
    requires buf.Length >= LENGTH_SIZE
    ensures len == LeValue(buf[..LENGTH_SIZE]) && len < HEADER_RANGE
  {
    len := buf[0] as int + buf[1] as int * 0x100 + buf[2] as int * 0x1_0000 + buf[3] as int * 0x100_0000;
    FourBytes(buf[..LENGTH_SIZE]);
  }

  lemma SameCount(a: map<Fd, Connection>, b: map<Fd, Conn>)
    requires forall f :: f in a <==> f in b
    ensures |a| == |b|
  {
    assert a.Keys == b.Keys;
    assert |a| == |a.Keys| && |b| == |b.Keys|;
  }

  /** The four bytes of a length. */
  method WritePacketLength(len: nat) returns (b: Bytes)
    requires len < HEADER_RANGE
    ensures b == LeBytes(len, LENGTH_SIZE) && LeValue(b) == len
  {
    b := [len % 0x100, len / 0x100 % 0x100, len / 0x1_0000 % 0x100, len / 0x100_0000 % 0x100];
    LengthBytes(len);
    assert Pow256(2) == 0x1_0000 && Pow256(3) == 0x100_0000 && Pow256(4) == HEADER_RANGE;
    LeValueOfBytes(len, LENGTH_SIZE);
  }

  /** The guard on a packet length, with LENGTH_SIZE + packet_len computed in 32 bits. */
  predicate LengthRefused(len: nat) {
    len == 0 || len > MAX_PACKET_SIZE || (LENGTH_SIZE + len) % HEADER_RANGE > BUFFER_SIZE
  }

  /** Because the test against MAX_PACKET_SIZE comes first, the 32-bit sum never decides wrongly;
      by itself it would let exactly the four largest lengths through, whose sum wraps around. */
  lemma LengthGuard(len: nat)
    requires len < HEADER_RANGE
    ensures LengthRefused(len) <==> !(0 < len <= PACKET_LIMIT)
    ensures (LENGTH_SIZE + len) % HEADER_RANGE <= BUFFER_SIZE <==> len <= PACKET_LIMIT || len >= HEADER_RANGE - 4
  {
  }

  /** The effect of process_packet on an unregistered connection, beyond counting the packet. */
  ghost function Registering(s: State, fd: Fd, p: Bytes): State
    requires fd in s.conns
  {
    if |p| != MARK_SIZE then s
    else if KeyOf(p) in s.index then s.(conns := s.conns[fd := s.conns[fd].(mark := p)])
    else s.(conns := s.conns[fd := s.conns[fd].(mark := p, registered := true)], index := s.index[KeyOf(p) := fd])
  }

  /** The same for a registered connection. */
  ghost function Forwarding(s: State, p: Bytes): State {
    if |p| < MARK_SIZE then s.(stats := s.stats.(dropSmall := s.stats.dropSmall + 1))
    else if KeyOf(p[..MARK_SIZE]) !in s.index then s.(stats := s.stats.(dropNoTarget := s.stats.dropNoTarget + 1))
    else if |p| == MARK_SIZE || TargetOf(s, p) !in s.conns then s
    else Flush(Enqueued(s, TargetOf(s, p), p[MARK_SIZE..]), TargetOf(s, p))
  }

  ghost function Enqueued(s: State, g: Fd, payload: Bytes): State
    requires g in s.conns
  {
    s.(conns := Deliver(s.conns, g, payload), stats := s.stats.(packetsOut := s.stats.packetsOut + 1))
  }

  lemma PutTwice(m: map<Fd, Conn>, f: Fd, a: Conn, b: Conn)
    ensures m[f := a][f := b] == m[f := b]
  {
  }

  ghost predicate Refuses(s: State, fd: Fd)
    requires fd in s.conns && Whole(PACKET_LIMIT, s.conns[fd].recvBuf)
  {
    Decide(s, fd, Head(PACKET_LIMIT, s.conns[fd].recvBuf)).Rejected?
  }

  /** process_packet is: count the packet, then one of these two. */
  lemma HandleParts(s: State, fd: Fd)
    requires fd in s.conns && Whole(PACKET_LIMIT, s.conns[fd].recvBuf)
    ensures var p := Head(PACKET_LIMIT, s.conns[fd].recvBuf);
            var t := Begin(s, fd, Decide(s, fd, p));
            && Handle(s, fd) == (if s.conns[fd].registered then Forwarding(t, p) else Registering(t, fd, p))
            && (Decide(s, fd, p).Rejected? <==>
                  !s.conns[fd].registered && !(|p| == MARK_SIZE && KeyOf(p) !in t.index))
  {
    var c := s.conns[fd];
    var p := Head(PACKET_LIMIT, c.recvBuf);
    var o := Decide(s, fd, p);
    var t := Begin(s, fd, o);
    if c.registered {
      if o.Forwarded? {
        assert Arrive(s, fd) == Enqueued(t, TargetOf(s, p), p[MARK_SIZE..]);
      } else {
        assert Arrive(s, fd) == Forwarding(t, p);
      }
    } else {
      PutTwice(s.conns, fd, Taken(c), Sender(c, p, o));
      assert Arrive(s, fd) == Registering(t, fd, p);
    }
  }

  lemma TakenShows(c: Connection, a: array<Byte>, m: Conn)
    requires Shows(c, a, 0, m) && Whole(PACKET_LIMIT, m.recvBuf)
    ensures Shows(c, a, LENGTH_SIZE + |Head(PACKET_LIMIT, m.recvBuf)|, Taken(m))
  {
  }

  class Server {
    var connections: map<Fd, Connection>   // g_connections,
    var recvBufs: map<Fd, array<Byte>>     // with the recv_buf of each entry
    var markToFd: map<Key, Fd>             // g_mark_to_fd
    var stats: Stats
    var script: seq<WriteResult>           // the kernel's answers to the writes to come

    ghost var model: State
    ghost var repr: set<object>            // all those arrays,
    ghost var owner: map<array<Byte>, Fd>  // whose array it is
    ghost var skip: map<Fd, nat>           // bytes at the front of an array that are being processed

    ghost predicate Valid()
      reads this, repr
    {
      && (forall f :: f in connections <==> f in model.conns)
      && this !in repr
      && model == State(model.conns, markToFd, stats, script, model.nextId, model.history)
      && (forall f | f in connections ::
            f in recvBufs && recvBufs[f] in repr &&
            Shows(connections[f], recvBufs[f], if f in skip then skip[f] else 0, model.conns[f]))
    }

    /** No two connections share an array: each array has an owner. */
    ghost predicate Separate()
      reads this`recvBufs, this`repr, this`owner
    {
      forall f | f in recvBufs :: recvBufs[f] in repr && recvBufs[f] in owner && owner[recvBufs[f]] == f
    }

    constructor (script: seq<WriteResult>)
      ensures Valid() && Separate() && skip == map[] && model == Init(script) && connections == map[]
    {
      connections, markToFd, stats := map[], map[], Stats(0, 0, 0, 0, 0, 0, 0);
      this.script := script;
      recvBufs := map[];
      model, repr, owner, skip := Init(script), {}, map[], map[];
    }

    /** Assign to an entry of g_connections, leaving its array in place. */
    method Put(fd: Fd, c: Connection, ghost m: Conn)
      requires Valid() && fd in connections
      requires Shows(c, recvBufs[fd], if fd in skip then skip[fd] else 0, m)
      modifies this`connections, this`model
      ensures Valid() && connections == old(connections)[fd := c]
      ensures model == old(model).(conns := old(model).conns[fd := m])
    {
      connections, model := connections[fd := c], model.(conns := model.conns[fd := m]);
    }

    method SetStats(st: Stats)
      requires Valid()
      modifies this`stats, this`model
      ensures Valid() && model == old(model).(stats := st)
    {
      stats, model := st, model.(stats := st);
    }

    method Erase(fd: Fd)
      requires Valid() && fd in connections
      modifies this`connections, this`model
      ensures Valid() && connections == old(connections) - {fd}
      ensures model == old(model).(conns := old(model).conns - {fd})
    {
      connections, model := connections - {fd}, model.(conns := model.conns - {fd});
    }

    method SetIndex(index: map<Key, Fd>)
      requires Valid()
      modifies this`markToFd, this`model
      ensures Valid() && model == old(model).(index := index) && markToFd == index
    {
      markToFd, model := index, model.(index := index);
    }

    ghost method Record(e: Entry)
      requires Valid()
      modifies this`model
      ensures Valid() && model == old(model).(history := Then(old(model).history, e))
    {
      model := model.(history := Then(model.history, e));
    }

    // ---------- closing and writing ----------

    method CloseConnection(fd: Fd, ghost why: Cause)
      requires Valid()
      modifies this`connections, this`markToFd, this`model
      ensures Valid() && model == Close(old(model), fd, why)
      ensures connections == old(connections) - {fd}
    {
      if fd in connections {
        var c := connections[fd];
        ghost var m := model.conns[fd];
        if c.registered {
          SetIndex(markToFd - {KeyOf(c.mark)});
        }
        Erase(fd);
        Record(Closed(m, why));
      } else {
        assert connections - {fd} == connections;
      }
    }

    method UpdateEpollEvents(fd: Fd, wantWrite: bool)
      requires Valid() && fd in connections
      modifies this`connections, this`model
      ensures Valid() && model == Arm(old(model), fd, wantWrite)
    {
      Put(fd, connections[fd].(armed := wantWrite), model.conns[fd].(armed := wantWrite));
    }

    /** write(2): the kernel's next answer. */
    method KernelWrite() returns (sent: WriteResult)
      requires Valid()
      modifies this`script, this`model
      ensures Valid()
      ensures model == (if old(script) == [] then old(model) else PopScript(old(model)))
      ensures sent == if old(script) == [] then WouldBlock else old(script)[0]
    {
      sent := WouldBlock;
      if script != [] {
        sent, script := script[0], script[1..];
        model := PopScript(model);
      }
    }

    /** The kernel took k bytes: drop them from the send buffer. */
    method Sent(fd: Fd, k: nat)
      requires Valid() && fd in connections && k <= |connections[fd].sendBuf|
      modifies this`connections, this`stats, this`model
      ensures Valid() && model == Write(old(model), fd, k) && fd in connections
    {
      var c := connections[fd];
      ghost var m := model.conns[fd];
      SetStats(stats.(bytesOut := stats.bytesOut + k));
      Put(fd, c.(sendBuf := c.sendBuf[k..]), m.(sendBuf := m.sendBuf[k..], written := m.written + m.sendBuf[..k]));
    }

    method WriteFailed(fd: Fd)
      requires Valid() && fd in connections
      modifies this`connections, this`markToFd, this`stats, this`model
      ensures Valid() && model == Fail(old(model), fd)
      ensures connections == old(connections) - {fd}
    {
      SetStats(stats.(writeErrors := stats.writeErrors + 1));
      CloseConnection(fd, WriteError);
    }

    /** One round of the loop in flush_send_buffer: a write, and what its result asks for. */
    method FlushRound(fd: Fd) returns (again: bool)
      requires Valid() && fd in connections
      modifies this`connections, this`markToFd, this`stats, this`script, this`model
      ensures Valid() && model == WriteOnce(old(model), fd) && again == Progress(old(model))
    {
      var sent := KernelWrite();
      again := sent.Took? && sent.n > 0;
      if again {
        Sent(fd, Min(sent.n, |connections[fd].sendBuf|));
      } else if sent.WouldBlock? {
        UpdateEpollEvents(fd, true);
      } else {
        WriteFailed(fd);
      }
    }

    method FlushSendBuffer(fd: Fd)
      requires Valid() && fd in connections
      modifies this`connections, this`markToFd, this`stats, this`script, this`model
      ensures Valid() && model == Flush(old(model), fd)
    {
      var again := true;
      while again && connections[fd].sendBuf != []
        invariant Valid()
        invariant again ==> fd in connections && Flush(model, fd) == Flush(old(model), fd)
        invariant !again ==> model == Flush(old(model), fd)
        decreases again, if again then |model.conns[fd].sendBuf| else 0
      {
        again := FlushRound(fd);
      }
      if again {
        UpdateEpollEvents(fd, false);
      }
    }

    method HandleClientWrite(fd: Fd)
      requires Valid()
      modifies this`connections, this`markToFd, this`stats, this`script, this`model
      ensures Valid() && model == HandleWrite(old(model), fd)
    {
      if fd in connections {
        FlushSendBuffer(fd);
      }
    }

    // ---------- one packet ----------

    /** The first k received bytes of fd are being processed from here on. */
    ghost method TakeFront(fd: Fd, k: nat, m: Conn)
      requires Valid() && skip == map[] && fd in connections
      requires Shows(connections[fd], recvBufs[fd], k, m)
      modifies this`model, this`skip
      ensures Valid() && skip == map[fd := k]
      ensures model == old(model).(conns := old(model).conns[fd := m])
    {
      model, skip := model.(conns := model.conns[fd := m]), map[fd := k];
    }

    /** Count the packet of len bytes at the front of fd's array. */
    method BeginPacket(fd: Fd, len: nat)
      requires Valid() && skip == map[] && fd in connections
      requires Whole(PACKET_LIMIT, model.conns[fd].recvBuf) && len == |Head(PACKET_LIMIT, model.conns[fd].recvBuf)|
      modifies this`stats, this`model, this`skip
      ensures Valid() && skip == map[fd := LENGTH_SIZE + len]
      ensures var m := old(model); model == Begin(m, fd, Decide(m, fd, Head(PACKET_LIMIT, m.conns[fd].recvBuf)))
    {
      ghost var m := model.conns[fd];
      ghost var p := Head(PACKET_LIMIT, m.recvBuf);
      ghost var e := Handled(m.id, p, Decide(model, fd, p));
      TakenShows(connections[fd], recvBufs[fd], m);
      SetStats(stats.(packetsIn := stats.packetsIn + 1));
      TakeFront(fd, LENGTH_SIZE + len, Taken(m));
      Record(e);
    }

    /** process_packet, for a connection that is not registered yet. */
    method RegisterMark(fd: Fd, data: Bytes) returns (ok: bool)
      requires Valid() && fd in connections
      modifies this`connections, this`markToFd, this`model
      ensures Valid() && fd in connections
      ensures ok == (|data| == MARK_SIZE && KeyOf(data) !in old(markToFd))
      ensures model == Registering(old(model), fd, data)
    {
      ok := false;
      if |data| == MARK_SIZE {
        Put(fd, connections[fd].(mark := data), model.conns[fd].(mark := data));
        var key := KeyOf(data);
        if key !in markToFd {
          Enter(fd, key);
          PutTwice(old(model).conns, fd, old(model).conns[fd].(mark := data), model.conns[fd]);
          ok := true;
        }
      }
    }

    method Enter(fd: Fd, key: Key)
      requires Valid() && fd in connections
      modifies this`connections, this`markToFd, this`model
      ensures Valid() && fd in connections
      ensures var m := old(model);
              model == m.(conns := m.conns[fd := m.conns[fd].(registered := true)], index := m.index[key := fd])
    {
      Put(fd, connections[fd].(registered := true), model.conns[fd].(registered := true));
      SetIndex(markToFd[key := fd]);
    }

    /** Append a frame to the target's send buffer. */
    method Extend(target: Fd, payload: Bytes)
      requires Valid() && target in connections && |payload| < HEADER_RANGE
      modifies this`connections, this`model
      ensures Valid() && target in connections
      ensures model == old(model).(conns := Deliver(old(model).conns, target, payload))
    {
      var header := WritePacketLength(|payload|);
      var frame := header + payload;
      var c := connections[target];
      Put(target, c.(sendBuf := c.sendBuf + frame), Queued(model.conns[target], payload));
    }

    /** ... and count it. */
    method Append(target: Fd, payload: Bytes)
      requires Valid() && target in connections && |payload| < HEADER_RANGE
      modifies this`connections, this`stats, this`model
      ensures Valid() && target in connections
      ensures model == Enqueued(old(model), target, payload)
    {
      ghost var conns := Deliver(model.conns, target, payload);
      Extend(target, payload);
      assert model.conns == conns;
      SetStats(stats.(packetsOut := stats.packetsOut + 1));
      assert model.conns == conns;
    }

    /** process_packet, for a registered connection. */
    method ForwardData(data: Bytes)
      requires Valid() && |data| < HEADER_RANGE
      modifies this`connections, this`markToFd, this`stats, this`script, this`model
      ensures Valid() && model == Forwarding(old(model), data)
    {
      if |data| < MARK_SIZE {
        SetStats(stats.(dropSmall := stats.dropSmall + 1));
      } else {
        var targetKey := KeyOf(data[..MARK_SIZE]);
        if targetKey !in markToFd {
          SetStats(stats.(dropNoTarget := stats.dropNoTarget + 1));
        } else {
          var targetFd := markToFd[targetKey];
          if |data| > MARK_SIZE && targetFd in connections {
            Append(targetFd, data[MARK_SIZE..]);
            assert model == Enqueued(old(model), targetFd, data[MARK_SIZE..]);
            FlushSendBuffer(targetFd);
          }
        }
      }
    }

    /** The bytes process_packet is given: len of them, after the length field. */
    method PacketData(fd: Fd, len: nat) returns (data: Bytes)
      requires Valid() && skip == map[] && fd in connections
      requires Whole(PACKET_LIMIT, model.conns[fd].recvBuf) && len == |Head(PACKET_LIMIT, model.conns[fd].recvBuf)|
      ensures data == Head(PACKET_LIMIT, model.conns[fd].recvBuf)
    {
      data := recvBufs[fd][LENGTH_SIZE..LENGTH_SIZE + len];
    }

    /** Count and pick up a packet; the rest of process_packet depends on registered and data only. */
    method OpenPacket(fd: Fd, len: nat) returns (registered: bool, data: Bytes)
      requires Valid() && skip == map[] && fd in connections
      requires Whole(PACKET_LIMIT, model.conns[fd].recvBuf) && len == |Head(PACKET_LIMIT, model.conns[fd].recvBuf)|
      modifies this`stats, this`model, this`skip
      ensures Valid() && skip == map[fd := LENGTH_SIZE + len] && |data| < HEADER_RANGE
      ensures Handle(old(model), fd) == if registered then Forwarding(model, data) else Registering(model, fd, data)
      ensures Refuses(old(model), fd) <==> !registered && !(|data| == MARK_SIZE && KeyOf(data) !in markToFd)
    {
      HandleParts(model, fd);
      registered := connections[fd].registered;
      data := PacketData(fd, len);
      BeginPacket(fd, len);
    }

    method ProcessPacket(fd: Fd, len: nat) returns (ok: bool)
      requires Valid() && skip == map[] && fd in connections
      requires Whole(PACKET_LIMIT, model.conns[fd].recvBuf) && len == |Head(PACKET_LIMIT, model.conns[fd].recvBuf)|
      modifies this`connections, this`markToFd, this`stats, this`script, this`model, this`skip
      ensures Valid() && skip == map[fd := LENGTH_SIZE + len]
      ensures model == Handle(old(model), fd)
      ensures ok == !Refuses(old(model), fd)
    {
      ghost var handled, refused := Handle(model, fd), Refuses(model, fd);
      var registered, data := OpenPacket(fd, len);
      assert handled == if registered then Forwarding(model, data) else Registering(model, fd, data);
      ok := true;
      if !registered {
        ok := RegisterMark(fd, data);
      } else {
        ForwardData(data);
      }
      assert model == handled && ok == !refused;
    }

    // ---------- events ----------

    /** Move what follows the first len bytes of fd's array to its front. */
    method Consume(fd: Fd, len: nat)
      requires Valid() && Separate() && fd in connections && skip == map[fd := len]
      modifies this`connections, this`skip, repr
      ensures Valid() && skip == map[] && fd in connections
    {
      var c := connections[fd];
      var rest := if len < c.recvLen then c.recvLen - len else 0;
      if len < c.recvLen {
        Memmove(recvBufs[fd], len, rest);
      }
      assert Shows(c.(recvLen := rest), recvBufs[fd], 0, model.conns[fd]);
      connections, skip := connections[fd := c.(recvLen := rest)], map[];
    }

    /** read(2) writes behind the bytes received so far: nothing shows yet. */
    method Deposit(fd: Fd, data: Bytes)
      requires Valid() && Separate() && skip == map[] && fd in connections
      requires |data| <= BUFFER_SIZE - connections[fd].recvLen
      modifies repr
      ensures Valid()
      ensures var n := connections[fd].recvLen; forall i | 0 <= i < |data| :: recvBufs[fd][n + i] == data[i]
    {
      CopyIn(recvBufs[fd], connections[fd].recvLen, data);
    }

    /** read(2) put these bytes after those already in fd's array. */
    method StoreRead(fd: Fd, data: Bytes)
      requires Valid() && Separate() && skip == map[] && fd in connections
      requires |data| <= BUFFER_SIZE - connections[fd].recvLen
      modifies this`connections, this`model, repr
      ensures Valid() && fd in connections
      ensures var m := old(model); var c := m.conns[fd];
              model == m.(conns := m.conns[fd := c.(recvBuf := c.recvBuf + data, read := c.read + data)])
    {
      Deposit(fd, data);
      var c := connections[fd];
      ghost var m := model.conns[fd];
      Put(fd, c.(recvLen := c.recvLen + |data|), m.(recvBuf := m.recvBuf + data, read := m.read + data));
    }

    /** The length field at the front of fd's array. */
    method FrontLength(fd: Fd) returns (len: nat)
      requires Valid() && skip == map[] && fd in connections && connections[fd].recvLen >= LENGTH_SIZE
      ensures |model.conns[fd].recvBuf| == connections[fd].recvLen
      ensures len == ReadLength(model.conns[fd].recvBuf) && len < HEADER_RANGE
    {
      len := ReadPacketLength(recvBufs[fd]);
      assert recvBufs[fd][..LENGTH_SIZE] == model.conns[fd].recvBuf[..LENGTH_SIZE];
    }

    /** One round of the packet loop of handle_client_data. It ends the loop when no complete packet
        is left or the connection has been closed. */
    method PacketRound(fd: Fd) returns (again: bool)
      requires Valid() && Separate() && skip == map[] && fd in connections
      modifies this`connections, this`markToFd, this`stats, this`script, this`model, this`skip, repr
      ensures Valid() && skip == map[]
      ensures again == (Whole(PACKET_LIMIT, old(model).conns[fd].recvBuf) && fd in Process(old(model), fd).conns)
      ensures again ==> model == Process(old(model), fd)
      ensures !again ==> model == Drain(old(model), fd)
    {
      again := false;
      if connections[fd].recvLen < LENGTH_SIZE {
        assert |model.conns[fd].recvBuf| < LENGTH_SIZE;
        return;
      }
      var len := FrontLength(fd);
      LengthGuard(len);
      if LengthRefused(len) {
        CloseConnection(fd, BadLength);
        return;
      }
      var total := LENGTH_SIZE + len;
      if connections[fd].recvLen < total {
        return;
      }
      again := TakePacket(fd, len);
    }

    /** process_packet, and a close when it refuses the packet. */
    method ProcessOrClose(fd: Fd, len: nat)
      requires Valid() && skip == map[] && fd in connections
      requires Whole(PACKET_LIMIT, model.conns[fd].recvBuf) && len == |Head(PACKET_LIMIT, model.conns[fd].recvBuf)|
      modifies this`connections, this`markToFd, this`stats, this`script, this`model, this`skip
      ensures Valid() && skip == map[fd := LENGTH_SIZE + len]
      ensures model == Process(old(model), fd)
    {
      ghost var refused, handled, after := Refuses(model, fd), Handle(model, fd), Process(model, fd);
      assert after == if refused then Close(handled, fd, Refused) else handled;
      var ok := ProcessPacket(fd, len);
      assert model == handled && ok == !refused;
      if !ok {
        CloseConnection(fd, Refused);
      }
    }

    /** ... then consume the packet, unless the connection is gone. */
    method TakePacket(fd: Fd, len: nat) returns (again: bool)
      requires Valid() && Separate() && skip == map[] && fd in connections
      requires Whole(PACKET_LIMIT, model.conns[fd].recvBuf) && len == |Head(PACKET_LIMIT, model.conns[fd].recvBuf)|
      modifies this`connections, this`markToFd, this`stats, this`script, this`model, this`skip, repr
      ensures Valid() && skip == map[]
      ensures model == Process(old(model), fd) && again == (fd in model.conns)
    {
      ghost var after := Process(model, fd);
      ProcessOrClose(fd, len);
      assert model == after;
      again := FinishPacket(fd, LENGTH_SIZE + len);
    }

    method FinishPacket(fd: Fd, total: nat) returns (again: bool)
      requires Valid() && Separate() && skip == map[fd := total]
      modifies this`connections, this`skip, repr
      ensures Valid() && skip == map[] && again == (fd in model.conns)
    {
      again := fd in connections;
      if again {
        Consume(fd, total);
      } else {
        Forget(fd);
      }
    }

    /** The packet being processed went with its connection. */
    ghost method Forget(fd: Fd)
      requires Valid() && fd !in connections && skip.Keys == {fd}
      modifies this`skip
      ensures Valid() && skip == map[]
    {
      skip := map[];
    }

    method ProcessPackets(fd: Fd)
      requires Valid() && Separate() && skip == map[] && fd in connections
      modifies this`connections, this`markToFd, this`stats, this`script, this`model, this`skip, repr
      ensures Valid() && skip == map[] && model == Drain(old(model), fd)
    {
      var again := true;
      while again
        invariant Valid() && skip == map[]
        invariant again ==> fd in connections && Drain(model, fd) == Drain(old(model), fd)
        invariant !again ==> model == Drain(old(model), fd)
        decreases again, if again then |model.conns[fd].recvBuf| else 0
      {
        again := PacketRound(fd);
      }
    }

    method ReceiveData(fd: Fd, data: Bytes)
      requires Valid() && Separate() && skip == map[] && fd in connections
      requires |data| <= BUFFER_SIZE - connections[fd].recvLen
      modifies this`connections, this`markToFd, this`stats, this`script, this`model, this`skip, repr
      ensures Valid() && skip == map[] && model == Drain(Receive(old(model), fd, data), fd)
    {
      TakeIn(fd, data);
      ProcessPackets(fd);
    }

    method TakeIn(fd: Fd, data: Bytes)
      requires Valid() && Separate() && skip == map[] && fd in connections
      requires |data| <= BUFFER_SIZE - connections[fd].recvLen
      modifies this`connections, this`stats, this`model, repr
      ensures Valid() && fd in connections && model == Receive(old(model), fd, data)
    {
      StoreRead(fd, data);
      SetStats(stats.(bytesIn := stats.bytesIn + |data|));
    }

    /** handle_client_data, with what read(2) returns. */
    method HandleClientData(fd: Fd, res: ReadResult)
      requires Valid() && Separate() && skip == map[]
      requires res.Data? && fd in connections ==> 0 < |res.bytes| <= BUFFER_SIZE - connections[fd].recvLen
      modifies this`connections, this`markToFd, this`stats, this`script, this`model, this`skip, repr
      ensures Valid() && skip == map[] && model == HandleData(old(model), fd, res)
    {
      if fd in connections {
        var available := BUFFER_SIZE - connections[fd].recvLen;
        if available > 0 && res.Data? {
          ReceiveData(fd, res.bytes);
        } else if available == 0 || !res.NoData? {
          CloseConnection(fd, if available == 0 then BufferFull else if res.EndOfFile? then Eof else ReadError);
        }
      }
    }

    /** accept(2) returned fd; setUp says whether it could be made non-blocking and added to epoll. */
    method HandleNewConnection(fd: Fd, setUp: bool)
      requires Valid() && Separate() && skip == map[] && fd !in connections
      modifies this`connections, this`model, this`recvBufs, this`repr, this`owner
      ensures Valid() && Separate() && model == HandleAccept(old(model), fd, setUp)
      ensures fresh(repr - old(repr))
    {
      var room := HasRoom();
      if room && setUp {
        Admit(fd);
      }
    }

    method Admit(fd: Fd)
      requires Valid() && Separate() && skip == map[] && fd !in connections
      modifies this`connections, this`model, this`recvBufs, this`repr, this`owner
      ensures Valid() && Separate() && fresh(repr - old(repr))
      ensures |old(model).conns| < MAX_CONNECTIONS ==> model == HandleAccept(old(model), fd, true)
    {
      var c := NewConnection(fd);
      Add(fd, c);
    }

    method HasRoom() returns (room: bool)
      requires Valid()
      ensures room == (|model.conns| < MAX_CONNECTIONS)
    {
      SameCount(connections, model.conns);
      room := |connections| < MAX_CONNECTIONS;
    }

    /** Connection(client_fd), with an array of its own. */
    method NewConnection(fd: Fd) returns (c: Connection)
      requires Valid() && Separate() && fd !in connections
      modifies this`recvBufs, this`repr, this`owner
      ensures Valid() && Separate() && fd in recvBufs && recvBufs[fd] in repr
      ensures Shows(c, recvBufs[fd], 0, NewConn(model.nextId))
      ensures fresh(repr - old(repr))
    {
      var a := new Byte[BUFFER_SIZE](_ => 0);
      c := Connection([0, 0, 0, 0, 0, 0, 0, 0], false, [], 0, false);
      House(fd, a);
    }

    /** a becomes the array of fd. */
    method House(fd: Fd, a: array<Byte>)
      requires Valid() && Separate() && fd !in connections && a !in repr
      modifies this`recvBufs, this`repr, this`owner
      ensures Valid() && Separate() && fd in recvBufs && recvBufs[fd] == a
      ensures repr == old(repr) + {a}
    {
      recvBufs := recvBufs[fd := a];
      repr, owner := repr + {a}, owner[a := fd];
    }

    method Add(fd: Fd, c: Connection)
      requires Valid() && skip == map[] && fd in recvBufs && recvBufs[fd] in repr
      requires Shows(c, recvBufs[fd], 0, NewConn(model.nextId))
      modifies this`connections, this`model
      ensures Valid()
      ensures var m := old(model);
              model == m.(conns := m.conns[fd := NewConn(m.nextId)], nextId := m.nextId + 1)
    {
      connections, model :=
        connections[fd := c],
        model.(conns := model.conns[fd := NewConn(model.nextId)], nextId := model.nextId + 1);
    }

    /** One entry of the epoll_wait result, as the main loop treats it. */
    method Dispatch(e: Event)
      requires Valid() && Separate() && skip == map[] && Possible(model, e)
      modifies this, repr
      ensures Valid() && Separate() && skip == map[] && model == Step(old(model), e)
      ensures fresh(repr - old(repr))
    {
      match e
      case Incoming(fd, setUp) =>
        HandleNewConnection(fd, setUp);
      case Ready(fd, failed, readable, writable, res) =>
        if failed {
          CloseConnection(fd, HungUp);
        } else if readable {
          assert fd in connections ==> connections[fd].recvLen == |model.conns[fd].recvBuf|;
          HandleClientData(fd, res);
        }
        if writable {
          HandleClientWrite(fd);
        }
    }

    /** The main loop, over the events epoll reports. */
    method Serve(es: seq<Event>)
      requires Valid() && Separate() && skip == map[] && PossibleRun(model, es)
      modifies this, repr
      ensures Valid() && Separate() && skip == map[] && model == Run(old(model), es)
    {
      for i := 0 to |es|
        invariant Valid() && Separate() && skip == map[] && model == Run(old(model), es[..i])
        invariant fresh(repr - old(repr))
      {
        NextEvent(old(model), es, i);
        Dispatch(es[i]);
      }
      assert es[..|es|] == es;
    }
  }

  /** A possible run is possible event by event. */
  lemma {:induction false} NextEvent(s: State, es: seq<Event>, i: nat)
    requires PossibleRun(s, es) && i < |es|
    ensures Possible(Run(s, es[..i]), es[i])
    ensures Run(s, es[..i + 1]) == Step(Run(s, es[..i]), es[i])
  {
    assert es[..i + 1][..i] == es[..i];
    if i < |es| - 1 {
      NextEvent(s, es[..|es| - 1], i);
      assert es[..|es| - 1][..i] == es[..i];
    }
  }
}
