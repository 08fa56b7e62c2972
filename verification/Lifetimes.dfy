/** The life of a connection: it registers with its first packet or is turned away, and once it has closed
    nothing is handled for it and nothing forwarded to it. Hence what two connections exchange lies
    between the moment they meet and the moment they part, and the owners of one key take turns. */
module Lifetimes {
  import opened Wire
  import opened Relay
  import opened Switch
  import opened RelayInvariant
  import opened RelayTheorems

  predicate TurnedAway(h: History, id: Id) {
    match h
    case Start => false
    case Then(b, Handled(src, _, o)) => (src == id && o.Rejected?) || TurnedAway(b, id)
    case Then(b, Closed(_, _)) => TurnedAway(b, id)
  }

  predicate Spent(h: History, id: Id) {
    Gone(h, id) || TurnedAway(h, id)
  }

  /** Nothing is handled for a connection that has closed or been turned away, and none closes twice. */
  ghost predicate Live(h: History) {
    match h
    case Start => true
    case Then(b, Handled(src, _, _)) => Live(b) && !Spent(b, src)
    case Then(b, Closed(c, _)) => Live(b) && !Gone(b, c.id)
  }

  // ---------- after closing ----------

  lemma {:induction false} LiveBefore(e: History, h: History)
    requires Earlier(e, h) && Live(h)
    ensures Live(e)
  {
    if e != h {
      LiveBefore(e, h.before);
    }
  }

  lemma {:induction false} GoneUnowned(h: History, id: Id)
    requires Faithful(h) && Live(h) && Gone(h, id)
    ensures id !in Directory(h).Values
  {
    if Gone(h.before, id) {
      GoneUnowned(h.before, id);
    }
  }

  /** After a connection has closed it sends and gets nothing. */
  lemma {:induction false} Quieted(e: History, h: History, id: Id, other: Id)
    requires Earlier(e, h) && Gone(e, id) && Faithful(h) && Live(h)
    ensures Gone(h, id)
    ensures HandledBy(h, id) == HandledBy(e, id) && ForwardsTo(h, id) == ForwardsTo(e, id)
    ensures PairForwards(h, id, other) == PairForwards(e, id, other)
    ensures PairForwards(h, other, id) == PairForwards(e, other, id)
  {
    if e != h {
      Quieted(e, h.before, id, other);
      GoneUnowned(h.before, id);
    }
  }

  // ---------- parting ----------

  /** The last moment at which neither src nor dst had closed. */
  function Parting(h: History, src: Id, dst: Id): History {
    if Gone(h, src) || Gone(h, dst) then Parting(h.before, src, dst) else h
  }

  lemma {:induction false} UpToParting(h: History, src: Id, dst: Id)
    requires Faithful(h) && Live(h)
    ensures var l := Parting(h, src, dst);
            && Earlier(l, h) && !Gone(l, src) && !Gone(l, dst) && Faithful(l) && Live(l)
            && PairForwards(h, src, dst) == PairForwards(l, src, dst)
            && (!Gone(h, dst) ==> HandledBy(h, src) == HandledBy(l, src))
  {
    if Gone(h, src) || Gone(h, dst) {
      var b := h.before;
      UpToParting(b, src, dst);
      Moved(h, src, dst);
    }
  }

  /** One step after one of them has closed, or by its closing. */
  lemma Moved(h: History, src: Id, dst: Id)
    requires h.Then? && Faithful(h) && Live(h) && (Gone(h, src) || Gone(h, dst))
    ensures PairForwards(h, src, dst) == PairForwards(h.before, src, dst)
    ensures !Gone(h, dst) ==> HandledBy(h, src) == HandledBy(h.before, src)
  {
    var b := h.before;
    assert Earlier(b, b) && Earlier(b, h);
    if Gone(b, src) {
      Quieted(b, h, src, dst);
    }
    if Gone(b, dst) {
      Quieted(b, h, dst, src);
    }
  }

  lemma {:induction false} BeforeParting(e: History, h: History, src: Id, dst: Id)
    requires Earlier(e, h) && !Gone(e, src) && !Gone(e, dst)
    ensures Earlier(e, Parting(h, src, dst))
  {
    if Gone(h, src) || Gone(h, dst) {
      BeforeParting(e, h.before, src, dst);
    }
  }

  // ---------- the first packet ----------

  /** If id has registered it was with this key. */
  predicate RegistersAs(h: History, id: Id, k: Key) {
    match h
    case Start => true
    case Then(b, Handled(src, p, o)) => RegistersAs(b, id, k) && (src == id && o.Registered? ==> KeyOf(p) == k)
    case Then(b, Closed(_, _)) => RegistersAs(b, id, k)
  }

  lemma {:induction false} RegistersBefore(e: History, h: History, id: Id, k: Key)
    requires Earlier(e, h) && RegistersAs(h, id, k)
    ensures RegistersAs(e, id, k)
  {
    if e != h {
      RegistersBefore(e, h.before, id, k);
    }
  }

  lemma {:induction false} OwnsOnly(h: History, id: Id, k: Key, l: Key)
    requires RegistersAs(h, id, k) && l in Directory(h) && Directory(h)[l] == id
    ensures l == k
  {
    if l in Directory(h.before) && Directory(h.before)[l] == id {
      OwnsOnly(h.before, id, k, l);
    }
  }

  /** Whoever has had a packet handled, and was neither turned away nor closed, is registered. */
  lemma {:induction false} HandledOwns(h: History, id: Id)
    requires Faithful(h) && Live(h) && HandledBy(h, id) != [] && !Spent(h, id)
    ensures id in Directory(h).Values
  {
    if HandledBy(h.before, id) != [] {
      HandledOwns(h.before, id);
      StillIn(h, id);
    } else {
      assert h.last.src == id;
      if id in Directory(h.before).Values {
        OwnerWasHandled(h.before, id);
      }
      assert Directory(h) == Directory(h.before)[KeyOf(h.last.packet) := id];
      assert KeyOf(h.last.packet) in Directory(h);
    }
  }

  /** So a connection registers with its first packet or never. */
  lemma {:induction false} FirstRegisters(h: History, id: Id, p: Bytes)
    requires Faithful(h) && Live(h) && (HandledBy(h, id) != [] ==> HandledBy(h, id)[0] == p)
    ensures RegistersAs(h, id, KeyOf(p))
  {
    if h.Then? {
      FirstRegisters(h.before, id, p);
      if h.last.Handled? && h.last.src == id && HandledBy(h.before, id) != [] {
        HandledOwns(h.before, id);
      }
    }
  }

  // ---------- one owner after the other ----------

  /** id has been the owner of k. */
  ghost predicate Owned(h: History, id: Id, k: Key) {
    (k in Directory(h) && Directory(h)[k] == id) || (h.Then? && Owned(h.before, id, k))
  }

  /** An owner loses its key only by closing. */
  lemma {:induction false} OwnedOrGone(h: History, id: Id, k: Key)
    requires Faithful(h) && Owned(h, id, k)
    ensures (k in Directory(h) && Directory(h)[k] == id) || Gone(h, id)
  {
    if !(k in Directory(h) && Directory(h)[k] == id) {
      OwnedOrGone(h.before, id, k);
    }
  }

  /** x had closed at e, and nothing of y had been handled yet. */
  ghost predicate Precedes(e: History, x: Id, y: Id) {
    Gone(e, x) && HandledBy(e, y) == []
  }

  /** Of two connections that have owned one key, one had closed before the first packet of the other. */
  lemma {:induction false} OwnersTakeTurns(h: History, x: Id, y: Id, k: Key) returns (e: History)
    requires Faithful(h) && Live(h) && x != y && Owned(h, x, k) && Owned(h, y, k)
    ensures Earlier(e, h) && (Precedes(e, x, y) || Precedes(e, y, x))
  {
    var b := h.before;
    if Owned(b, x, k) && Owned(b, y, k) {
      e := OwnersTakeTurns(b, x, y, k);
    } else {
      e := b;
      var old', new' := if Owned(b, x, k) then x else y, if Owned(b, x, k) then y else x;
      OwnedOrGone(b, old', k);
      if HandledBy(b, new') != [] {
        HandledOwns(b, new');
      }
    }
  }

  /** Then everything from the one comes before everything from the other, for any third that hears both:
      at e all of the first has passed and nothing of the second. */
  lemma HeardInTurn(h: History, e: History, x: Id, y: Id, dst: Id)
    requires Faithful(h) && Live(h) && Earlier(e, h) && Precedes(e, x, y)
    ensures HandledBy(h, x) == HandledBy(e, x)
    ensures PairForwards(h, x, dst) == PairForwards(e, x, dst) && PairForwards(e, y, dst) == []
  {
    Quieted(e, h, x, dst);
    NothingWithoutPackets(e, y, dst);
  }

  lemma {:induction false} NothingWithoutPackets(h: History, src: Id, dst: Id)
    requires HandledBy(h, src) == []
    ensures PairForwards(h, src, dst) == []
  {
    if h.Then? {
      NothingWithoutPackets(h.before, src, dst);
    }
  }

  // ---------- every run is live ----------

  ghost predicate Lively(s: State) {
    && Live(s.history) && IdsBelow(s.history, s.nextId)
    && (forall f | f in s.conns :: s.conns[f].id < s.nextId && !Spent(s.history, s.conns[f].id))
    && (forall f, g | f in s.conns && g in s.conns && s.conns[f].id == s.conns[g].id :: f == g)
  }

  lemma {:induction false} FreshBelow(h: History, n: Id)
    requires IdsBelow(h, n)
    ensures !Spent(h, n)
  {
    if h.Then? {
      FreshBelow(h.before, n);
    }
  }

  lemma LivelyClose(s: State, fd: Fd, why: Cause)
    requires Lively(s)
    ensures Lively(Close(s, fd, why))
  {
  }

  /** The same connections, as far as ids go, and the same history. */
  lemma LivelySame(s: State, t: State)
    requires Lively(s) && t.history == s.history && t.nextId == s.nextId
    requires forall f | f in t.conns :: f in s.conns && t.conns[f].id == s.conns[f].id
    ensures Lively(t)
  {
  }

  /** The same connections, after a packet that was not refused. */
  lemma LivelyHandled(s: State, t: State, src: Id, p: Bytes, o: Outcome)
    requires Lively(s) && t.history == Then(s.history, Handled(src, p, o)) && t.nextId == s.nextId
    requires src < s.nextId && !Spent(s.history, src) && !o.Rejected? && (o.Forwarded? ==> o.dst < s.nextId)
    requires forall f | f in t.conns :: f in s.conns && t.conns[f].id == s.conns[f].id
    ensures Lively(t)
  {
    forall f | f in t.conns ensures !Spent(t.history, t.conns[f].id) {
      assert !Spent(s.history, s.conns[f].id);
    }
  }

  lemma LivelyArrive(s: State, fd: Fd)
    requires Lively(s) && fd in s.conns && Whole(PACKET_LIMIT, s.conns[fd].recvBuf)
    requires !Decide(s, fd, Head(PACKET_LIMIT, s.conns[fd].recvBuf)).Rejected?
    ensures Lively(Arrive(s, fd))
  {
    var t := Arrive(s, fd);
    forall f | f in t.conns ensures f in s.conns && t.conns[f].id == s.conns[f].id {
      ArriveIds(s, fd, f);
    }
    LivelyHandled(s, t, s.conns[fd].id, Head(PACKET_LIMIT, s.conns[fd].recvBuf), t.history.last.outcome);
  }

  /** A connection that is turned away is closed at once. */
  lemma LivelyRefuse(s: State, fd: Fd)
    requires Lively(s) && fd in s.conns && Whole(PACKET_LIMIT, s.conns[fd].recvBuf)
    requires Decide(s, fd, Head(PACKET_LIMIT, s.conns[fd].recvBuf)).Rejected?
    ensures Lively(Process(s, fd))
  {
    var m, t := Arrive(s, fd), Process(s, fd);
    ArriveIds(s, fd, fd);
    assert t == Close(m, fd, Refused);
    forall f | f in t.conns ensures !Spent(t.history, t.conns[f].id) {
      ArriveIds(s, fd, f);
      assert f != fd && t.conns[f] == m.conns[f] && !Spent(s.history, s.conns[f].id);
      assert !Spent(m.history, s.conns[f].id);
      assert m.conns[fd].id != s.conns[f].id;
    }
  }

  lemma LivelyWriteOnce(s: State, fd: Fd)
    requires Lively(s) && fd in s.conns
    ensures Lively(WriteOnce(s, fd))
  {
    if s.script != [] && s.script[0] != WouldBlock && !Progress(s) {
      LivelyClose(PopScript(s).(stats := s.stats.(writeErrors := s.stats.writeErrors + 1)), fd, WriteError);
    } else {
      LivelySame(s, WriteOnce(s, fd));
    }
  }

  lemma {:induction false} LivelyFlush(s: State, fd: Fd)
    requires Lively(s) && fd in s.conns
    ensures Lively(Flush(s, fd))
    decreases |s.conns[fd].sendBuf|
  {
    if s.conns[fd].sendBuf == [] {
      LivelySame(s, Flush(s, fd));
    } else {
      LivelyWriteOnce(s, fd);
      if Progress(s) {
        LivelyFlush(WriteOnce(s, fd), fd);
      }
    }
  }

  lemma LivelyProcess(s: State, fd: Fd)
    requires Lively(s) && fd in s.conns && Whole(PACKET_LIMIT, s.conns[fd].recvBuf)
    ensures Lively(Process(s, fd))
  {
    var p := Head(PACKET_LIMIT, s.conns[fd].recvBuf);
    var o := Decide(s, fd, p);
    if o.Rejected? {
      LivelyRefuse(s, fd);
    } else {
      LivelyArrive(s, fd);
      if o.Forwarded? {
        LivelyFlush(Arrive(s, fd), TargetOf(s, p));
      }
    }
  }

  lemma {:induction false} LivelyDrain(s: State, fd: Fd)
    requires Lively(s) && fd in s.conns
    ensures Lively(Drain(s, fd))
    decreases |s.conns[fd].recvBuf|
  {
    if Whole(PACKET_LIMIT, s.conns[fd].recvBuf) {
      LivelyProcess(s, fd);
      if fd in Process(s, fd).conns {
        LivelyDrain(Process(s, fd), fd);
      }
    } else if BadHeader(PACKET_LIMIT, s.conns[fd].recvBuf) {
      LivelyClose(s, fd, BadLength);
    }
  }

  lemma LivelyReceive(s: State, fd: Fd, data: Bytes)
    requires Lively(s) && fd in s.conns
    ensures Lively(Drain(Receive(s, fd, data), fd))
  {
    LivelySame(s, Receive(s, fd, data));
    LivelyDrain(Receive(s, fd, data), fd);
  }

  lemma LivelyData(s: State, fd: Fd, res: ReadResult)
    requires Lively(s)
    ensures Lively(HandleData(s, fd, res))
  {
    if fd in s.conns {
      match res
      case Data(b) => LivelyReceive(s, fd, b);
      case NoData =>
      case EndOfFile => LivelyClose(s, fd, Eof);
      case Broken => LivelyClose(s, fd, ReadError);
    }
  }

  lemma LivelyAccept(s: State, fd: Fd, setUp: bool)
    requires Lively(s)
    ensures Lively(HandleAccept(s, fd, setUp))
  {
    FreshBelow(s.history, s.nextId);
    IdsStayBelow(s.history, s.nextId);
  }

  lemma LivelyStep(s: State, e: Event)
    requires Lively(s) && Possible(s, e)
    ensures Lively(Step(s, e))
  {
    if e.Incoming? {
      LivelyAccept(s, e.fd, e.setUp);
    } else {
      var t := AfterRead(s, e);
      if e.failed {
        LivelyClose(s, e.fd, HungUp);
      } else if e.readable {
        LivelyData(s, e.fd, e.res);
      }
      if e.writable && e.fd in t.conns {
        LivelyFlush(t, e.fd);
      }
    }
  }

  /** In every run nothing is handled for a connection after it was turned away or has closed. */
  lemma {:induction false} LivelyRun(script: seq<WriteResult>, es: seq<Event>)
    requires Possibly(script, es)
    ensures Lively(After(script, es))
  {
    if es != [] {
      var n := |es| - 1;
      LivelyRun(script, es[..n]);
      LivelyStep(After(script, es[..n]), es[n]);
    }
  }
}
