/** What every reachable state of the relay satisfies, for every kernel behaviour. */
module RelayInvariant {
  import opened Wire
  import opened Relay
  import opened Switch

  // ---------- the invariants ----------

  ghost predicate Ids(s: State) {
    && (forall f | f in s.conns :: s.conns[f].id < s.nextId && |s.conns[f].mark| == MARK_SIZE)
    && (forall f, g | f in s.conns && g in s.conns && s.conns[f].id == s.conns[g].id :: f == g)
  }

  /** Every registered connection is indexed under its own mark, ... */
  ghost predicate Owners(s: State) {
    forall f | f in s.conns && s.conns[f].registered ::
      KeyOf(s.conns[f].mark) in s.index && s.index[KeyOf(s.conns[f].mark)] == f
  }

  /** ... and nothing else is in the index. */
  ghost predicate Indexed(s: State) {
    forall k | k in s.index ::
      s.index[k] in s.conns && s.conns[s.index[k]].registered && KeyOf(s.conns[s.index[k]].mark) == k
  }

  /** The index, read through connection ids, is the directory of the history. */
  ghost predicate Mirrors(s: State) {
    && Faithful(s.history)
    && Directory(s.history).Keys == s.index.Keys
    && (forall k | k in s.index && s.index[k] in s.conns :: Directory(s.history)[k] == s.conns[s.index[k]].id)
  }

  /** The index of marks, the connections and the history agree. */
  ghost predicate Roster(s: State) {
    Ids(s) && Owners(s) && Indexed(s) && Mirrors(s)
  }

  /** A connection's buffers against the history h of the time. */
  ghost predicate StreamOk(c: Conn, h: History) {
    && c.handled == HandledBy(h, c.id)
    && c.forwarded == ForwardsTo(h, c.id)
    && c.read == FrameAll(c.handled) + c.recvBuf
    && c.written + c.sendBuf == FrameAll(c.forwarded)
    && Sized(PACKET_LIMIT, c.handled)
    && Sized(PACKET_LIMIT - MARK_SIZE, c.forwarded)
  }

  /** The same for the connections that have closed, each at its closing, and why they closed. */
  ghost predicate Closings(h: History) {
    match h
    case Start => true
    case Then(b, Handled(_, _, _)) => Closings(b)
    case Then(b, Closed(c, why)) =>
      && Closings(b)
      && StreamOk(c, b)
      && Justified(c, why, b)
  }

  /** What a connection that closes for this cause looks like: a full buffer is never the cause. */
  ghost predicate Justified(c: Conn, why: Cause, h: History) {
    match why
    case BufferFull => false
    case BadLength => BadHeader(PACKET_LIMIT, c.recvBuf)
    case Refused => h.Then? && h.last.Handled? && h.last.src == c.id && h.last.outcome == Rejected
    case WriteError => true
    case _ => Waiting(c)
  }

  /** Only ids below n occur in the history, and a closed one is not open. */
  ghost predicate IdsBelow(h: History, n: Id) {
    match h
    case Start => true
    case Then(b, Handled(src, _, o)) => IdsBelow(b, n) && src < n && (o.Forwarded? ==> o.dst < n)
    case Then(b, Closed(c, _)) => IdsBelow(b, n) && c.id < n
  }

  ghost predicate Streams(s: State) {
    && Closings(s.history)
    && IdsBelow(s.history, s.nextId)
    && (forall f | f in s.conns :: !Gone(s.history, s.conns[f].id))
    && (forall f | f in s.conns :: StreamOk(s.conns[f], s.history))
  }

  ghost function Total(conns: map<Fd, Conn>): nat
    decreases |conns|
  {
    if conns == map[] then 0
    else
      var f :| f in conns;
      conns[f].Pending() + Total(conns - {f})
  }

  /** Every byte and every packet is accounted for. */
  ghost predicate Ledger(s: State) {
    && s.stats.packetsIn == Packets(s.history)
    && s.stats.packetsOut == Count(s.history, Forwarding)
    && s.stats.dropNoTarget == Count(s.history, Untargeted)
    && s.stats.dropSmall == Count(s.history, Small)
    && s.stats.bytesIn == s.stats.bytesOut + Total(s.conns) + Discarded(s.history)
                          + MARK_SIZE * s.stats.packetsOut + Absorbed(s.history)
  }

  ghost predicate Inv(s: State) {
    Roster(s) && Streams(s) && Ledger(s) && |s.conns| <= MAX_CONNECTIONS
  }

  /** EPOLLOUT is requested exactly for the connections with bytes to send. */
  ghost predicate Armed(s: State, skip: set<Fd>) {
    forall f | f in s.conns && f !in skip :: s.conns[f].armed <==> s.conns[f].sendBuf != []
  }

  /** Nothing more can be done with what has been received. */
  predicate Waiting(c: Conn) {
    !Whole(PACKET_LIMIT, c.recvBuf) && !BadHeader(PACKET_LIMIT, c.recvBuf)
  }

  ghost predicate AllWaiting(s: State, skip: set<Fd>) {
    forall f | f in s.conns && f !in skip :: Waiting(s.conns[f])
  }

  // ---------- sums over connections ----------

  lemma {:induction false} TotalRemove(conns: map<Fd, Conn>, f: Fd)
    requires f in conns
    ensures Total(conns) == conns[f].Pending() + Total(conns - {f})
    decreases |conns|
  {
    var g :| g in conns && Total(conns) == conns[g].Pending() + Total(conns - {g});
    if g != f {
      TotalRemove(conns - {g}, f);
      TotalRemove(conns - {f}, g);
      assert conns - {g} - {f} == conns - {f} - {g};
    }
  }

  lemma TotalUpdate(conns: map<Fd, Conn>, f: Fd, c: Conn)
    ensures Total(conns[f := c]) == Total(conns - {f}) + c.Pending()
    ensures f in conns ==> Total(conns[f := c]) + conns[f].Pending() == Total(conns) + c.Pending()
    ensures f !in conns ==> Total(conns[f := c]) == Total(conns) + c.Pending()
  {
    TotalRemove(conns[f := c], f);
    assert conns[f := c] - {f} == conns - {f};
    if f in conns {
      TotalRemove(conns, f);
    } else {
      assert conns - {f} == conns;
    }
  }

  lemma SameSize(conns: map<Fd, Conn>, f: Fd, c: Conn)
    ensures |conns[f := c]| == |conns| + if f in conns then 0 else 1
    ensures |conns - {f}| == |conns| - if f in conns then 1 else 0
  {
    if f in conns {
      assert conns[f := c].Keys == conns.Keys;
      assert (conns - {f}).Keys == conns.Keys - {f};
    } else {
      assert conns[f := c].Keys == conns.Keys + {f};
      assert conns - {f} == conns;
    }
  }

  // ---------- ids never come back ----------

  lemma {:induction false} FreshId(h: History, n: Id, id: Id)
    requires IdsBelow(h, n) && id >= n
    ensures HandledBy(h, id) == [] && ForwardsTo(h, id) == [] && !Gone(h, id)
  {
    if h.Then? {
      FreshId(h.before, n, id);
    }
  }

  lemma {:induction false} IdsStayBelow(h: History, n: Id)
    requires IdsBelow(h, n)
    ensures IdsBelow(h, n + 1)
  {
    if h.Then? {
      IdsStayBelow(h.before, n);
    }
  }

  // ---------- roster ----------

  /** t differs from s in buffers, statistics and write interest, and in marks not yet registered. */
  ghost predicate SameNames(s: State, t: State) {
    && t.index == s.index && t.nextId == s.nextId && t.conns.Keys == s.conns.Keys
    && (forall f | f in s.conns :: SameName(s.conns[f], t.conns[f]))
  }

  predicate SameName(c: Conn, d: Conn) {
    && d.id == c.id && d.registered == c.registered
    && (c.registered ==> d.mark == c.mark)
    && |d.mark| == MARK_SIZE
  }

  lemma RosterSame(s: State, t: State)
    requires Roster(s) && SameNames(s, t) && t.history == s.history
    ensures Roster(t)
  {
    assert Ids(t);
    assert Owners(t);
    assert Indexed(t);
    assert Mirrors(t);
  }

  /** A packet was handled without a change of who is registered. */
  lemma RosterHandled(s: State, t: State, src: Id, p: Bytes, o: Outcome)
    requires Roster(s) && SameNames(s, t)
    requires t.history == Then(s.history, Handled(src, p, o))
    requires o == Judge(Directory(s.history), src, p) && !o.Registered?
    ensures Roster(t)
  {
    var u := t.(history := s.history);
    RosterSame(s, u);
    assert Directory(t.history) == Directory(u.history);
  }

  lemma IdsClose(s: State, fd: Fd, why: Cause)
    requires Ids(s)
    ensures Ids(Close(s, fd, why))
  {
  }

  lemma OwnersClose(s: State, fd: Fd, why: Cause)
    requires Owners(s)
    ensures Owners(Close(s, fd, why))
  {
  }

  lemma IndexedClose(s: State, fd: Fd, why: Cause)
    requires Owners(s) && Indexed(s)
    ensures Indexed(Close(s, fd, why))
  {
  }

  lemma MirrorsClose(s: State, fd: Fd, why: Cause)
    requires Roster(s)
    ensures Mirrors(Close(s, fd, why))
  {
    if fd in s.conns {
      var c := s.conns[fd];
      var t := Close(s, fd, why);
      var d := Directory(s.history);
      forall k ensures k in Directory(t.history) <==> k in t.index {
        if k in s.index && k !in t.index {
          assert d[k] == c.id;
        }
      }
    }
  }

  lemma RosterClose(s: State, fd: Fd, why: Cause)
    requires Roster(s)
    ensures Roster(Close(s, fd, why))
  {
    IdsClose(s, fd, why);
    OwnersClose(s, fd, why);
    IndexedClose(s, fd, why);
    MirrorsClose(s, fd, why);
  }

  lemma NamesAccept(s: State, fd: Fd)
    requires Ids(s) && Indexed(s) && Mirrors(s) && fd !in s.conns && |s.conns| < MAX_CONNECTIONS
    ensures Ids(HandleAccept(s, fd, true)) && Mirrors(HandleAccept(s, fd, true))
  {
  }

  lemma IndexAccept(s: State, fd: Fd)
    requires Owners(s) && Indexed(s) && fd !in s.conns && |s.conns| < MAX_CONNECTIONS
    ensures Owners(HandleAccept(s, fd, true)) && Indexed(HandleAccept(s, fd, true))
  {
  }

  lemma RosterAccept(s: State, fd: Fd)
    requires Roster(s) && fd !in s.conns && |s.conns| < MAX_CONNECTIONS
    ensures Roster(HandleAccept(s, fd, true))
  {
    NamesAccept(s, fd);
    IndexAccept(s, fd);
  }

  /** The server's decision, made on fds and its index, is the switch's decision, made on ids. */
  lemma DecideIsJudge(s: State, fd: Fd, p: Bytes)
    requires Roster(s) && fd in s.conns
    ensures Decide(s, fd, p) == Judge(Directory(s.history), s.conns[fd].id, p)
  {
    var d := Directory(s.history);
    var c := s.conns[fd];
    if c.registered {
      assert d[KeyOf(c.mark)] in d.Values;
    }
  }

  /** s, after the unregistered connection at fd has become c and registered under p. */
  ghost predicate Registers(s: State, fd: Fd, p: Bytes, c: Conn, t: State) {
    && fd in s.conns && !s.conns[fd].registered
    && |p| == MARK_SIZE && KeyOf(p) !in s.index
    && c.registered && c.mark == p && c.id == s.conns[fd].id
    && t.conns == s.conns[fd := c] && t.index == s.index[KeyOf(p) := fd] && t.nextId == s.nextId
    && t.history == Then(s.history, Handled(c.id, p, Registered))
  }

  lemma IdsRegister(s: State, fd: Fd, p: Bytes, c: Conn, t: State)
    requires Ids(s) && Registers(s, fd, p, c, t)
    ensures Ids(t)
  {
  }

  lemma OwnersRegister(s: State, fd: Fd, p: Bytes, c: Conn, t: State)
    requires Owners(s) && Registers(s, fd, p, c, t)
    ensures Owners(t)
  {
  }

  lemma IndexedRegister(s: State, fd: Fd, p: Bytes, c: Conn, t: State)
    requires Indexed(s) && Registers(s, fd, p, c, t)
    ensures Indexed(t)
  {
  }

  lemma MirrorsRegister(s: State, fd: Fd, p: Bytes, c: Conn, t: State)
    requires Mirrors(s) && Indexed(s) && Registers(s, fd, p, c, t)
    requires Judge(Directory(s.history), c.id, p) == Registered
    ensures Mirrors(t)
  {
    assert Directory(t.history) == Directory(s.history)[KeyOf(p) := c.id];
  }

  lemma RosterRegister(s: State, fd: Fd, p: Bytes, c: Conn, t: State)
    requires Roster(s) && Registers(s, fd, p, c, t)
    requires Judge(Directory(s.history), c.id, p) == Registered
    ensures Roster(t)
  {
    IdsRegister(s, fd, p, c, t);
    OwnersRegister(s, fd, p, c, t);
    IndexedRegister(s, fd, p, c, t);
    MirrorsRegister(s, fd, p, c, t);
  }

  lemma NamesUpdate(s: State, f: Fd, c: Conn, t: State)
    requires Ids(s) && f in s.conns && SameName(s.conns[f], c)
    requires t.conns == s.conns[f := c] && t.index == s.index && t.nextId == s.nextId
    ensures SameNames(s, t) && Ids(t)
  {
  }

  lemma NamesArrive(s: State, fd: Fd)
    requires Ids(s) && fd in s.conns && Whole(PACKET_LIMIT, s.conns[fd].recvBuf)
    requires !Decide(s, fd, Head(PACKET_LIMIT, s.conns[fd].recvBuf)).Registered?
    ensures SameNames(s, Arrive(s, fd))
  {
    var t := Arrive(s, fd);
    var p := Head(PACKET_LIMIT, s.conns[fd].recvBuf);
    var o := Decide(s, fd, p);
    var c := Sender(s.conns[fd], p, o);
    var u := s.(conns := s.conns[fd := c]);
    NamesUpdate(s, fd, c, u);
    if o.Forwarded? {
      var g := TargetOf(s, p);
      NamesUpdate(u, g, t.conns[g], t);
    }
  }

  lemma RosterArrive(s: State, fd: Fd)
    requires Roster(s) && fd in s.conns && Whole(PACKET_LIMIT, s.conns[fd].recvBuf)
    ensures Roster(Arrive(s, fd))
  {
    var c := s.conns[fd];
    var p := Head(PACKET_LIMIT, c.recvBuf);
    var o := Decide(s, fd, p);
    var t := Arrive(s, fd);
    DecideIsJudge(s, fd, p);
    if o == Registered {
      RosterRegister(s, fd, p, t.conns[fd], t);
    } else {
      NamesArrive(s, fd);
      RosterHandled(s, t, c.id, p, o);
    }
  }

  // ---------- streams ----------

  lemma StreamWrite(c: Conn, h: History, k: nat)
    requires StreamOk(c, h) && k <= |c.sendBuf|
    ensures StreamOk(c.(sendBuf := c.sendBuf[k..], written := c.written + c.sendBuf[..k]), h)
  {
    Assoc(c.written, c.sendBuf[..k], c.sendBuf[k..]);
    assert c.sendBuf[..k] + c.sendBuf[k..] == c.sendBuf;
  }

  lemma StreamReceive(c: Conn, h: History, data: Bytes)
    requires StreamOk(c, h)
    ensures StreamOk(c.(recvBuf := c.recvBuf + data, read := c.read + data), h)
  {
    Assoc(FrameAll(c.handled), c.recvBuf, data);
  }

  lemma StreamTaken(c: Conn, h: History, o: Outcome)
    requires StreamOk(c, h) && Whole(PACKET_LIMIT, c.recvBuf) && o != Forwarded(c.id)
    ensures StreamOk(Taken(c), Then(h, Handled(c.id, Head(PACKET_LIMIT, c.recvBuf), o)))
  {
    var p, t := Head(PACKET_LIMIT, c.recvBuf), Tail(PACKET_LIMIT, c.recvBuf);
    assert c.read == FrameAll(c.handled + [p]) + t by {
      FrontFrame(PACKET_LIMIT, c.recvBuf);
      FrameAllSnoc(c.handled, p);
      Assoc(FrameAll(c.handled), Frame(p), t);
    }
  }

  lemma StreamSender(c: Conn, h: History, o: Outcome)
    requires StreamOk(c, h) && Whole(PACKET_LIMIT, c.recvBuf) && o != Forwarded(c.id)
    ensures var p := Head(PACKET_LIMIT, c.recvBuf);
            StreamOk(Sender(c, p, o), Then(h, Handled(c.id, p, o)))
  {
    StreamTaken(c, h, o);
  }

  lemma StreamQueued(c: Conn, h: History, src: Id, p: Bytes)
    requires StreamOk(c, h) && src != c.id && MARK_SIZE < |p| <= PACKET_LIMIT
    ensures StreamOk(Queued(c, p[MARK_SIZE..]), Then(h, Handled(src, p, Forwarded(c.id))))
  {
    FrameAllSnoc(c.forwarded, p[MARK_SIZE..]);
    Assoc(c.written, c.sendBuf, Frame(p[MARK_SIZE..]));
  }

  /** A client that forwards to itself. */
  lemma StreamSelf(c: Conn, h: History)
    requires StreamOk(c, h) && Whole(PACKET_LIMIT, c.recvBuf) && |Head(PACKET_LIMIT, c.recvBuf)| > MARK_SIZE
    ensures var p := Head(PACKET_LIMIT, c.recvBuf);
            StreamOk(Queued(Taken(c), p[MARK_SIZE..]), Then(h, Handled(c.id, p, Forwarded(c.id))))
  {
    var p := Head(PACKET_LIMIT, c.recvBuf);
    StreamTaken(c, h, Empty);
    FrameAllSnoc(c.forwarded, p[MARK_SIZE..]);
    Assoc(c.written, c.sendBuf, Frame(p[MARK_SIZE..]));
  }

  lemma StreamOther(c: Conn, h: History, src: Id, p: Bytes, o: Outcome)
    requires StreamOk(c, h) && src != c.id && o != Forwarded(c.id)
    ensures StreamOk(c, Then(h, Handled(src, p, o)))
  {
  }

  /** Only the connection at f differs, and its buffers are right. */
  lemma StreamsUpdate(s: State, t: State, f: Fd, c: Conn)
    requires Streams(s) && f in s.conns && c.id == s.conns[f].id
    requires t.conns == s.conns[f := c] && t.history == s.history && t.nextId == s.nextId
    requires StreamOk(c, s.history)
    ensures Streams(t)
  {
  }

  lemma StreamsClose(s: State, fd: Fd, why: Cause)
    requires Ids(s) && Streams(s) && (fd in s.conns ==> Justified(s.conns[fd], why, s.history))
    ensures Streams(Close(s, fd, why))
  {
  }

  lemma StreamsAccept(s: State, fd: Fd)
    requires Streams(s) && fd !in s.conns && |s.conns| < MAX_CONNECTIONS
    ensures Streams(HandleAccept(s, fd, true))
  {
    var h := s.history;
    FreshId(h, s.nextId, s.nextId);
    IdsStayBelow(h, s.nextId);
    assert StreamOk(NewConn(s.nextId), h);
    var t := HandleAccept(s, fd, true);
    forall f | f in t.conns ensures !Gone(h, t.conns[f].id) && StreamOk(t.conns[f], h) {
      assert f == fd || t.conns[f] == s.conns[f];
    }
  }

  /** One connection before and after a packet of the connection at fd was handled. */
  lemma StreamArriveLocal(s: State, fd: Fd, f: Fd)
    requires Ids(s) && fd in s.conns && f in s.conns && Whole(PACKET_LIMIT, s.conns[fd].recvBuf)
    requires StreamOk(s.conns[f], s.history)
    requires !Decide(s, fd, Head(PACKET_LIMIT, s.conns[fd].recvBuf)).Forwarded?
    ensures StreamOk(Arrive(s, fd).conns[f], Arrive(s, fd).history)
  {
    var c := s.conns[fd];
    var p := Head(PACKET_LIMIT, c.recvBuf);
    var o := Decide(s, fd, p);
    if f == fd {
      StreamSender(c, s.history, o);
    } else {
      StreamOther(s.conns[f], s.history, c.id, p, o);
    }
  }

  lemma StreamArriveForwarded(s: State, fd: Fd, f: Fd)
    requires Ids(s) && fd in s.conns && f in s.conns && Whole(PACKET_LIMIT, s.conns[fd].recvBuf)
    requires StreamOk(s.conns[f], s.history)
    requires Decide(s, fd, Head(PACKET_LIMIT, s.conns[fd].recvBuf)).Forwarded?
    ensures StreamOk(Arrive(s, fd).conns[f], Arrive(s, fd).history)
  {
    var c := s.conns[fd];
    var p := Head(PACKET_LIMIT, c.recvBuf);
    var o := Decide(s, fd, p);
    var g := TargetOf(s, p);
    if f == fd && g == fd {
      StreamSelf(c, s.history);
    } else if f == fd {
      StreamTaken(c, s.history, o);
    } else if f == g {
      StreamQueued(s.conns[f], s.history, c.id, p);
    } else {
      StreamOther(s.conns[f], s.history, c.id, p, o);
    }
  }

  lemma ArriveIds(s: State, fd: Fd, f: Fd)
    requires fd in s.conns && Whole(PACKET_LIMIT, s.conns[fd].recvBuf)
    ensures Arrive(s, fd).conns.Keys == s.conns.Keys
    ensures f in s.conns ==> Arrive(s, fd).conns[f].id == s.conns[f].id
  {
  }

  lemma PastArrive(s: State, fd: Fd)
    requires Ids(s) && Streams(s) && fd in s.conns && Whole(PACKET_LIMIT, s.conns[fd].recvBuf)
    ensures Closings(Arrive(s, fd).history)
    ensures IdsBelow(Arrive(s, fd).history, s.nextId)
  {
  }

  lemma StreamsArrive(s: State, fd: Fd)
    requires Ids(s) && Streams(s) && fd in s.conns && Whole(PACKET_LIMIT, s.conns[fd].recvBuf)
    ensures Streams(Arrive(s, fd))
  {
    var t := Arrive(s, fd);
    PastArrive(s, fd);
    var o := Decide(s, fd, Head(PACKET_LIMIT, s.conns[fd].recvBuf));
    forall f | f in t.conns ensures StreamOk(t.conns[f], t.history) && !Gone(t.history, t.conns[f].id) {
      ArriveIds(s, fd, f);
      if o.Forwarded? {
        StreamArriveForwarded(s, fd, f);
      } else {
        StreamArriveLocal(s, fd, f);
      }
    }
  }

  // ---------- ledger ----------

  /** The balance of bytes, with the statistics of s and the connections and history of t. */
  lemma LedgerUpdate(s: State, t: State, f: Fd, c: Conn)
    requires Ledger(s) && f in s.conns && t.conns == s.conns[f := c] && t.history == s.history
    requires t.stats == s.stats.(bytesIn := t.stats.bytesIn, bytesOut := t.stats.bytesOut,
                                 writeErrors := t.stats.writeErrors)
    requires t.stats.bytesIn - t.stats.bytesOut - c.Pending() ==
             s.stats.bytesIn - s.stats.bytesOut - s.conns[f].Pending()
    ensures Ledger(t)
  {
    TotalUpdate(s.conns, f, c);
  }

  lemma LedgerClose(s: State, fd: Fd, why: Cause)
    requires Ledger(s)
    ensures Ledger(Close(s, fd, why))
  {
    if fd in s.conns {
      TotalRemove(s.conns, fd);
    }
  }

  lemma LedgerAccept(s: State, fd: Fd)
    requires Ledger(s) && fd !in s.conns
    ensures Ledger(HandleAccept(s, fd, true))
  {
    TotalUpdate(s.conns, fd, NewConn(s.nextId));
  }

  lemma LedgerArrive(s: State, fd: Fd)
    requires Ledger(s) && fd in s.conns && Whole(PACKET_LIMIT, s.conns[fd].recvBuf)
    requires Decide(s, fd, Head(PACKET_LIMIT, s.conns[fd].recvBuf)) != Dangling
    ensures Ledger(Arrive(s, fd))
  {
    var c := s.conns[fd];
    var p := Head(PACKET_LIMIT, c.recvBuf);
    var t := Arrive(s, fd);
    var o := Decide(s, fd, p);
    TotalUpdate(s.conns, fd, Sender(c, p, o));
    if o.Forwarded? {
      var u := s.conns[fd := Sender(c, p, o)];
      TotalUpdate(u, TargetOf(s, p), t.conns[TargetOf(s, p)]);
    }
  }

  // ---------- composing ----------

  lemma KeepsClose(s: State, fd: Fd, why: Cause)
    requires Inv(s) && (fd in s.conns ==> Justified(s.conns[fd], why, s.history))
    ensures Inv(Close(s, fd, why))
  {
    RosterClose(s, fd, why);
    StreamsClose(s, fd, why);
    LedgerClose(s, fd, why);
    if fd in s.conns {
      SameSize(s.conns, fd, s.conns[fd]);
    }
  }

  lemma KeepsArm(s: State, fd: Fd, want: bool)
    requires Inv(s) && fd in s.conns
    ensures Inv(Arm(s, fd, want))
  {
    var t := Arm(s, fd, want);
    var c := t.conns[fd];
    NamesUpdate(s, fd, c, t);
    RosterSame(s, t);
    StreamsUpdate(s, t, fd, c);
    LedgerUpdate(s, t, fd, c);
    SameSize(s.conns, fd, c);
  }

  lemma KeepsWrite(s: State, fd: Fd, k: nat)
    requires Inv(s) && fd in s.conns && k <= |s.conns[fd].sendBuf|
    ensures Inv(Write(s, fd, k))
  {
    var t := Write(s, fd, k);
    var c := t.conns[fd];
    NamesUpdate(s, fd, c, t);
    RosterSame(s, t);
    StreamWrite(s.conns[fd], s.history, k);
    StreamsUpdate(s, t, fd, c);
    LedgerUpdate(s, t, fd, c);
    SameSize(s.conns, fd, c);
  }

  lemma KeepsReceive(s: State, fd: Fd, data: Bytes)
    requires Inv(s) && fd in s.conns
    ensures Inv(Receive(s, fd, data))
  {
    var t := Receive(s, fd, data);
    var c := t.conns[fd];
    NamesUpdate(s, fd, c, t);
    RosterSame(s, t);
    StreamReceive(s.conns[fd], s.history, data);
    StreamsUpdate(s, t, fd, c);
    LedgerUpdate(s, t, fd, c);
    SameSize(s.conns, fd, c);
  }

  lemma KeepsAccept(s: State, fd: Fd, setUp: bool)
    requires Inv(s) && fd !in s.conns
    ensures Inv(HandleAccept(s, fd, setUp))
  {
    if |s.conns| < MAX_CONNECTIONS && setUp {
      RosterAccept(s, fd);
      StreamsAccept(s, fd);
      LedgerAccept(s, fd);
      SameSize(s.conns, fd, NewConn(s.nextId));
    }
  }

  lemma NeverDangling(s: State, fd: Fd, p: Bytes)
    requires Indexed(s) && fd in s.conns
    ensures Decide(s, fd, p) != Dangling
  {
  }

  lemma SizeArrive(s: State, fd: Fd)
    requires fd in s.conns && Whole(PACKET_LIMIT, s.conns[fd].recvBuf)
    ensures |Arrive(s, fd).conns| == |s.conns|
  {
    ArriveIds(s, fd, fd);
    SameKeySize(s.conns, Arrive(s, fd).conns);
  }

  lemma KeepsArrive(s: State, fd: Fd)
    requires Inv(s) && fd in s.conns && Whole(PACKET_LIMIT, s.conns[fd].recvBuf)
    ensures Inv(Arrive(s, fd))
  {
    assert Roster(Arrive(s, fd)) by {
      RosterArrive(s, fd);
    }
    assert Streams(Arrive(s, fd)) by {
      StreamsArrive(s, fd);
    }
    assert Ledger(Arrive(s, fd)) by {
      NeverDangling(s, fd, Head(PACKET_LIMIT, s.conns[fd].recvBuf));
      LedgerArrive(s, fd);
    }
    SizeArrive(s, fd);
  }

  lemma SameKeySize(a: map<Fd, Conn>, b: map<Fd, Conn>)
    requires a.Keys == b.Keys
    ensures |a| == |b|
  {
    assert |a| == |a.Keys| && |b| == |b.Keys|;
  }

  /** The script and the error count play no part in the invariant. */
  lemma KeepsScript(s: State, t: State)
    requires Inv(s) && t == s.(script := t.script, stats := s.stats.(writeErrors := t.stats.writeErrors))
    ensures Inv(t)
  {
    assert Ids(t) && Owners(t) && Indexed(t) && Mirrors(t);
    assert Streams(t);
    assert Ledger(t);
  }

  lemma KeepsFail(s: State, fd: Fd)
    requires Inv(s) && fd in s.conns
    ensures Inv(Fail(s, fd))
  {
    var t := s.(stats := s.stats.(writeErrors := s.stats.writeErrors + 1));
    assert Inv(t) by {
      KeepsScript(s, t);
    }
    assert Inv(Close(t, fd, WriteError)) by {
      KeepsClose(t, fd, WriteError);
    }
  }

  lemma KeepsWriteOnce(s: State, fd: Fd)
    requires Inv(s) && fd in s.conns
    ensures Inv(WriteOnce(s, fd))
  {
    if s.script == [] {
      KeepsArm(s, fd, true);
    } else {
      var t := PopScript(s);
      KeepsScript(s, t);
      if s.script[0].WouldBlock? {
        KeepsArm(t, fd, true);
      } else if Progress(s) {
        KeepsWrite(t, fd, Min(s.script[0].n, |s.conns[fd].sendBuf|));
      } else {
        KeepsFail(t, fd);
      }
    }
  }

  lemma {:induction false} KeepsFlush(s: State, fd: Fd)
    requires Inv(s) && fd in s.conns
    ensures Inv(Flush(s, fd))
    decreases |s.conns[fd].sendBuf|
  {
    if s.conns[fd].sendBuf == [] {
      KeepsArm(s, fd, false);
    } else {
      KeepsWriteOnce(s, fd);
      if Progress(s) {
        KeepsFlush(WriteOnce(s, fd), fd);
      }
    }
  }

  /** After a flush the write interest of the flushed connection is right, the others are untouched. */
  lemma {:induction false} FlushArms(s: State, fd: Fd)
    requires fd in s.conns
    ensures var r := Flush(s, fd);
            && (fd in r.conns ==> (r.conns[fd].armed <==> r.conns[fd].sendBuf != []))
            && (forall f | f in s.conns && f != fd :: f in r.conns && r.conns[f] == s.conns[f])
    decreases |s.conns[fd].sendBuf|
  {
    if s.conns[fd].sendBuf != [] && Progress(s) {
      FlushArms(WriteOnce(s, fd), fd);
    }
  }

  lemma KeepsProcess(s: State, fd: Fd)
    requires Inv(s) && fd in s.conns && Whole(PACKET_LIMIT, s.conns[fd].recvBuf)
    ensures Inv(Process(s, fd))
  {
    var p := Head(PACKET_LIMIT, s.conns[fd].recvBuf);
    var t := Arrive(s, fd);
    KeepsArrive(s, fd);
    if Decide(s, fd, p).Forwarded? {
      KeepsFlush(t, TargetOf(s, p));
    } else if Decide(s, fd, p).Rejected? {
      ArriveIds(s, fd, fd);
      KeepsClose(t, fd, Refused);
    }
  }

  lemma ArriveSettles(s: State, fd: Fd)
    requires fd in s.conns && Whole(PACKET_LIMIT, s.conns[fd].recvBuf)
    requires Armed(s, {}) && AllWaiting(s, {fd})
    ensures var p := Head(PACKET_LIMIT, s.conns[fd].recvBuf);
            Armed(Arrive(s, fd), if Decide(s, fd, p).Forwarded? then {TargetOf(s, p)} else {})
    ensures AllWaiting(Arrive(s, fd), {fd})
  {
  }

  lemma ProcessSettles(s: State, fd: Fd)
    requires fd in s.conns && Whole(PACKET_LIMIT, s.conns[fd].recvBuf)
    requires Armed(s, {}) && AllWaiting(s, {fd})
    ensures Armed(Process(s, fd), {}) && AllWaiting(Process(s, fd), {fd})
  {
    var p := Head(PACKET_LIMIT, s.conns[fd].recvBuf);
    ArriveSettles(s, fd);
    if Decide(s, fd, p).Forwarded? {
      FlushSettles(Arrive(s, fd), TargetOf(s, p), {fd});
    }
  }

  lemma FlushSettles(s: State, fd: Fd, skip: set<Fd>)
    requires Armed(s, {fd}) && AllWaiting(s, skip) && fd in s.conns
    ensures Armed(Flush(s, fd), {}) && AllWaiting(Flush(s, fd), skip)
  {
    FlushArms(s, fd);
  }

  lemma {:induction false} KeepsDrain(s: State, fd: Fd)
    requires Inv(s) && fd in s.conns && Armed(s, {}) && AllWaiting(s, {fd})
    ensures Inv(Drain(s, fd)) && Armed(Drain(s, fd), {}) && AllWaiting(Drain(s, fd), {})
    decreases |s.conns[fd].recvBuf|
  {
    if Whole(PACKET_LIMIT, s.conns[fd].recvBuf) {
      KeepsProcess(s, fd);
      ProcessSettles(s, fd);
      if fd in Process(s, fd).conns {
        KeepsDrain(Process(s, fd), fd);
      }
    } else if BadHeader(PACKET_LIMIT, s.conns[fd].recvBuf) {
      KeepsClose(s, fd, BadLength);
    }
  }

  /** Between events: the invariant holds, write interest is right and every receive buffer waits. */
  ghost predicate Quiet(s: State) {
    Inv(s) && Armed(s, {}) && AllWaiting(s, {})
  }

  /** The receive buffer never fills: a waiting connection has room for at least one more byte. */
  lemma RoomToRead(c: Conn)
    requires Waiting(c)
    ensures |c.recvBuf| < BUFFER_SIZE
  {
  }

  lemma QuietClose(s: State, fd: Fd, why: Cause)
    requires Quiet(s) && (why == Eof || why == ReadError || why == HungUp)
    ensures Quiet(Close(s, fd, why))
  {
    KeepsClose(s, fd, why);
  }

  lemma QuietReceive(s: State, fd: Fd, data: Bytes)
    requires Quiet(s) && fd in s.conns
    ensures Quiet(Drain(Receive(s, fd, data), fd))
  {
    KeepsReceive(s, fd, data);
    KeepsDrain(Receive(s, fd, data), fd);
  }

  lemma QuietData(s: State, fd: Fd, res: ReadResult)
    requires Quiet(s)
    ensures Quiet(HandleData(s, fd, res))
  {
    if fd in s.conns {
      RoomToRead(s.conns[fd]);
      match res
      case Data(b) => QuietReceive(s, fd, b);
      case NoData =>
      case EndOfFile => QuietClose(s, fd, Eof);
      case Broken => QuietClose(s, fd, ReadError);
    }
  }

  lemma QuietWrite(s: State, fd: Fd)
    requires Quiet(s)
    ensures Quiet(HandleWrite(s, fd))
  {
    if fd in s.conns {
      assert Inv(Flush(s, fd)) by {
        KeepsFlush(s, fd);
      }
      FlushSettles(s, fd, {});
    }
  }

  lemma AcceptSettles(s: State, fd: Fd, setUp: bool)
    requires Armed(s, {}) && AllWaiting(s, {}) && fd !in s.conns
    ensures Armed(HandleAccept(s, fd, setUp), {}) && AllWaiting(HandleAccept(s, fd, setUp), {})
  {
  }

  lemma QuietAccept(s: State, fd: Fd, setUp: bool)
    requires Quiet(s) && fd !in s.conns
    ensures Quiet(HandleAccept(s, fd, setUp))
  {
    AcceptSettles(s, fd, setUp);
    assert Inv(HandleAccept(s, fd, setUp)) by {
      KeepsAccept(s, fd, setUp);
    }
  }

  lemma QuietStep(s: State, e: Event)
    requires Quiet(s) && Possible(s, e)
    ensures Quiet(Step(s, e))
  {
    if e.Incoming? {
      QuietAccept(s, e.fd, e.setUp);
    } else {
      var t := AfterRead(s, e);
      assert Quiet(t) by {
        if e.failed {
          QuietClose(s, e.fd, HungUp);
        } else if e.readable {
          QuietData(s, e.fd, e.res);
        }
      }
      if e.writable {
        QuietWrite(t, e.fd);
      }
    }
  }

  lemma QuietInit(script: seq<WriteResult>)
    ensures Quiet(Init(script))
  {
  }

  /** Every state the relay can reach is quiet, whatever the kernel and the clients do. */
  lemma {:induction false} QuietRun(script: seq<WriteResult>, es: seq<Event>)
    requires PossibleRun(Init(script), es)
    ensures Quiet(Run(Init(script), es))
  {
    if es == [] {
      QuietInit(script);
    } else {
      var n := |es| - 1;
      QuietRun(script, es[..n]);
      QuietStep(Run(Init(script), es[..n]), es[n]);
    }
  }
}
