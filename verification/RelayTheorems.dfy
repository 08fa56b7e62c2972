/** What the relay promises over whole runs: for every script of kernel answers and every possible
    sequence of epoll events. */
module RelayTheorems {
  import opened Wire
  import opened Relay
  import opened Switch
  import opened RelayInvariant

  ghost function After(script: seq<WriteResult>, es: seq<Event>): State {
    Run(Init(script), es)
  }

  ghost predicate Possibly(script: seq<WriteResult>, es: seq<Event>) {
    PossibleRun(Init(script), es)
  }

  /** c closed in history h for this cause, when the history was b. */
  ghost predicate ClosedAt(h: History, b: History, c: Conn, why: Cause) {
    Earlier(Then(b, Closed(c, why)), h)
  }

  lemma {:induction false} ClosingOk(h: History, b: History, c: Conn, why: Cause)
    requires Closings(h) && ClosedAt(h, b, c, why)
    ensures StreamOk(c, b) && Justified(c, why, b)
  {
    if h != Then(b, Closed(c, why)) {
      ClosingOk(h.before, b, c, why);
    }
  }

  // ---------- outgoing streams ----------

  /** Whatever part of the bytes written to a connection has arrived, a receiver finds a prefix of the
      payloads forwarded to it, never a bad header, and at most one incomplete frame at the end. */
  lemma ReceiverView(c: Conn, h: History, limit: nat, got: Bytes)
    requires StreamOk(c, h) && PACKET_LIMIT - MARK_SIZE <= limit < HEADER_RANGE && got <= c.written
    ensures var r := Parse(limit, got);
            && !r.bad
            && r.packets <= ForwardsTo(h, c.id)
            && Sized(PACKET_LIMIT - MARK_SIZE, ForwardsTo(h, c.id))
            && got == FrameAll(r.packets) + r.rest
            && Partial(r.rest, ForwardsTo(h, c.id)[|r.packets|..])
  {
    assert got <= c.written <= FrameAll(c.forwarded);
    ParsePrefix(limit, got, c.forwarded);
  }

  /** Outgoing streams, for connections open and closed. */
  lemma OutgoingStream(script: seq<WriteResult>, es: seq<Event>, limit: nat, got: Bytes)
    requires Possibly(script, es) && PACKET_LIMIT - MARK_SIZE <= limit < HEADER_RANGE
    ensures var s := After(script, es);
            forall f | f in s.conns ::
              && s.conns[f].written + s.conns[f].sendBuf == FrameAll(ForwardsTo(s.history, s.conns[f].id))
              && (got <= s.conns[f].written ==>
                    !Parse(limit, got).bad && Parse(limit, got).packets <= ForwardsTo(s.history, s.conns[f].id))
    ensures forall b, c, why | ClosedAt(After(script, es).history, b, c, why) ::
              && c.written + c.sendBuf == FrameAll(ForwardsTo(b, c.id))
              && (got <= c.written ==> !Parse(limit, got).bad && Parse(limit, got).packets <= ForwardsTo(b, c.id))
  {
    var s := After(script, es);
    QuietRun(script, es);
    forall f | f in s.conns && got <= s.conns[f].written
      ensures !Parse(limit, got).bad && Parse(limit, got).packets <= ForwardsTo(s.history, s.conns[f].id)
    {
      ReceiverView(s.conns[f], s.history, limit, got);
    }
    forall b, c, why | ClosedAt(s.history, b, c, why)
      ensures StreamOk(c, b)
      ensures got <= c.written ==> !Parse(limit, got).bad && Parse(limit, got).packets <= ForwardsTo(b, c.id)
    {
      ClosingOk(s.history, b, c, why);
      if got <= c.written {
        ReceiverView(c, b, limit, got);
      }
    }
  }

  // ---------- reassembly ----------

  lemma ParsedSoFar(c: Conn, h: History)
    requires StreamOk(c, h)
    ensures Parse(PACKET_LIMIT, c.read) ==
            Parsed(c.handled + Parse(PACKET_LIMIT, c.recvBuf).packets,
                   Parse(PACKET_LIMIT, c.recvBuf).rest, Parse(PACKET_LIMIT, c.recvBuf).bad)
  {
    ParseFrameAll(PACKET_LIMIT, c.handled);
    ParseAppend(PACKET_LIMIT, FrameAll(c.handled), c.recvBuf);
    assert [] + c.recvBuf == c.recvBuf;
  }

  /** The packets handled for an open connection, and the bytes it still holds, are those the
      reference parser finds in everything it has sent: how the bytes were cut into reads is forgotten. */
  lemma Reassembly(script: seq<WriteResult>, es: seq<Event>, f: Fd)
    requires Possibly(script, es) && f in After(script, es).conns
    ensures var c := After(script, es).conns[f];
            && Parse(PACKET_LIMIT, c.read) == Parsed(c.handled, c.recvBuf, false)
            && c.handled == HandledBy(After(script, es).history, c.id)
            && |c.recvBuf| < BUFFER_SIZE
  {
    var s := After(script, es);
    QuietRun(script, es);
    var c := s.conns[f];
    ParsedSoFar(c, s.history);
    assert c.handled + [] == c.handled;
    RoomToRead(c);
  }

  /** The same for a connection that has closed, by the cause of its closing. */
  lemma ReassemblyClosed(script: seq<WriteResult>, es: seq<Event>, b: History, c: Conn, why: Cause)
    requires Possibly(script, es) && ClosedAt(After(script, es).history, b, c, why)
    ensures c.handled == HandledBy(b, c.id)
    ensures c.handled <= Parse(PACKET_LIMIT, c.read).packets
    ensures why != BufferFull
    ensures why == BadLength ==> Parse(PACKET_LIMIT, c.read) == Parsed(c.handled, c.recvBuf, true)
    ensures why == Refused ==> c.handled != [] && b.last == Handled(c.id, c.handled[|c.handled| - 1], Rejected)
    ensures why != BadLength && why != Refused && why != WriteError ==>
              Parse(PACKET_LIMIT, c.read) == Parsed(c.handled, c.recvBuf, false)
  {
    assert StreamOk(c, b) && Justified(c, why, b) by {
      QuietRun(script, es);
      ClosingOk(After(script, es).history, b, c, why);
    }
    ParsedSoFar(c, b);
    assert c.handled + [] == c.handled;
  }

  /** Two connections that sent the same bytes, in whatever runs, have had the same packets handled. */
  lemma ChunkingForgotten(script1: seq<WriteResult>, es1: seq<Event>, f1: Fd,
                          script2: seq<WriteResult>, es2: seq<Event>, f2: Fd)
    requires Possibly(script1, es1) && f1 in After(script1, es1).conns
    requires Possibly(script2, es2) && f2 in After(script2, es2).conns
    requires After(script1, es1).conns[f1].read == After(script2, es2).conns[f2].read
    ensures After(script1, es1).conns[f1].handled == After(script2, es2).conns[f2].handled
    ensures After(script1, es1).conns[f1].recvBuf == After(script2, es2).conns[f2].recvBuf
  {
    Reassembly(script1, es1, f1);
    Reassembly(script2, es2, f2);
  }

  // ---------- order between two clients ----------

  /** The packets forwarded from one connection to another are exactly those that were deliverable. */
  lemma Fifo(script: seq<WriteResult>, es: seq<Event>, src: Id, dst: Id)
    requires Possibly(script, es)
    ensures PairForwards(After(script, es).history, src, dst) == Deliverable(After(script, es).history, src, dst)
  {
    QuietRun(script, es);
    PairFifo(After(script, es).history, src, dst);
  }

  lemma {:induction false} EarlierTrans(a: History, b: History, c: History)
    requires Earlier(a, b) && Earlier(b, c)
    ensures Earlier(a, c)
  {
    if b != c {
      EarlierTrans(a, b, c.before);
    }
  }

  lemma {:induction false} FlushGrows(s: State, fd: Fd)
    requires fd in s.conns
    ensures Earlier(s.history, Flush(s, fd).history)
    decreases |s.conns[fd].sendBuf|
  {
    if s.conns[fd].sendBuf != [] && Progress(s) {
      FlushGrows(WriteOnce(s, fd), fd);
    }
  }

  lemma ProcessGrows(s: State, fd: Fd)
    requires fd in s.conns && Whole(PACKET_LIMIT, s.conns[fd].recvBuf)
    ensures Earlier(s.history, Process(s, fd).history)
  {
    var p := Head(PACKET_LIMIT, s.conns[fd].recvBuf);
    var t := Arrive(s, fd);
    assert Earlier(s.history, t.history);
    if Decide(s, fd, p).Forwarded? {
      FlushGrows(t, TargetOf(s, p));
      EarlierTrans(s.history, t.history, Flush(t, TargetOf(s, p)).history);
    } else if Decide(s, fd, p).Rejected? {
      EarlierTrans(s.history, t.history, Close(t, fd, Refused).history);
    }
  }

  lemma {:induction false} DrainGrows(s: State, fd: Fd)
    requires fd in s.conns
    ensures Earlier(s.history, Drain(s, fd).history)
    decreases |s.conns[fd].recvBuf|
  {
    if Whole(PACKET_LIMIT, s.conns[fd].recvBuf) {
      var t := Process(s, fd);
      ProcessGrows(s, fd);
      if fd in t.conns {
        DrainGrows(t, fd);
        EarlierTrans(s.history, t.history, Drain(t, fd).history);
      }
    }
  }

  lemma StepGrows(s: State, e: Event)
    ensures Earlier(s.history, Step(s, e).history)
  {
    if e.Ready? {
      var t := AfterRead(s, e);
      assert Earlier(s.history, t.history) by {
        if !e.failed && e.readable && e.fd in s.conns && e.res.Data? && |s.conns[e.fd].recvBuf| < BUFFER_SIZE {
          DrainGrows(Receive(s, e.fd, e.res.bytes), e.fd);
        }
      }
      if e.writable && e.fd in t.conns {
        FlushGrows(t, e.fd);
        EarlierTrans(s.history, t.history, Flush(t, e.fd).history);
      }
    }
  }

  /** A run only adds to the history of its beginning. */
  lemma {:induction false} RunGrows(s: State, es: seq<Event>, n: nat)
    requires n <= |es|
    ensures Earlier(Run(s, es[..n]).history, Run(s, es).history)
  {
    if n < |es| {
      var m := |es| - 1;
      RunGrows(s, es[..m], n);
      assert es[..m][..n] == es[..n];
      StepGrows(Run(s, es[..m]), es[m]);
      EarlierTrans(Run(s, es[..n]).history, Run(s, es[..m]).history, Run(s, es).history);
    } else {
      assert es[..n] == es;
    }
  }

  lemma {:induction false} PossiblePrefix(s: State, es: seq<Event>, n: nat)
    requires PossibleRun(s, es) && n <= |es|
    ensures PossibleRun(s, es[..n])
  {
    if n < |es| {
      PossiblePrefix(s, es[..|es| - 1], n);
      assert es[..|es| - 1][..n] == es[..n];
    } else {
      assert es[..n] == es;
    }
  }

  /** If A and B are registered after n events and both still open at the end, then B has been sent,
      since then, exactly what A addressed to B's mark since then: every payload, once, in order. */
  lemma PairOrder(script: seq<WriteResult>, es: seq<Event>, n: nat, fa: Fd, fb: Fd)
    requires Possibly(script, es) && n <= |es|
    requires var s := After(script, es[..n]);
             fa in s.conns && s.conns[fa].registered && fb in s.conns && s.conns[fb].registered
    requires var s, t := After(script, es[..n]), After(script, es);
             && fa in t.conns && t.conns[fa].id == s.conns[fa].id
             && fb in t.conns && t.conns[fb].id == s.conns[fb].id
    ensures var s, t := After(script, es[..n]), After(script, es);
            var a, b := s.conns[fa].id, s.conns[fb].id;
            && t.conns[fa].handled == s.conns[fa].handled + HandledSince(s.history, t.history, a)
            && PairForwards(t.history, a, b) == PairForwards(s.history, a, b)
                 + AddressedTo(KeyOf(s.conns[fb].mark), HandledSince(s.history, t.history, a))
  {
    var s, t := After(script, es[..n]), After(script, es);
    var a, b := s.conns[fa].id, s.conns[fb].id;
    PossiblePrefix(Init(script), es, n);
    QuietRun(script, es[..n]);
    QuietRun(script, es);
    RunGrows(Init(script), es, n);
    HandledSplit(s.history, t.history, a);
    PairDelivery(s.history, t.history, a, KeyOf(s.conns[fa].mark), b, KeyOf(s.conns[fb].mark));
  }

  // ---------- the index ----------

  ghost predicate DistinctMarks(conns: map<Fd, Conn>) {
    forall f, g | f in conns && g in conns && conns[f].registered && conns[g].registered
                  && KeyOf(conns[f].mark) == KeyOf(conns[g].mark) :: f == g
  }

  /** The index one would build by looking at every connection. */
  ghost function Scan(conns: map<Fd, Conn>): map<Key, Fd>
    requires DistinctMarks(conns)
  {
    map f | f in conns && conns[f].registered :: KeyOf(conns[f].mark) := f
  }

  lemma IndexIsScan(s: State)
    requires Owners(s) && Indexed(s)
    ensures DistinctMarks(s.conns) && s.index == Scan(s.conns)
  {
    assert DistinctMarks(s.conns);
  }

  /** The index is that index; two open registered connections never have the same mark; and the
      branch for a target fd that is not open is never taken. */
  lemma IndexAgreement(script: seq<WriteResult>, es: seq<Event>)
    requires Possibly(script, es)
    ensures var s := After(script, es);
            && DistinctMarks(s.conns) && s.index == Scan(s.conns)
            && |s.conns| <= MAX_CONNECTIONS
    ensures forall f, p | f in After(script, es).conns :: Decide(After(script, es), f, p) != Dangling
  {
    var s := After(script, es);
    QuietRun(script, es);
    forall f, p | f in s.conns ensures Decide(s, f, p) != Dangling {
      NeverDangling(s, f, p);
    }
    IndexIsScan(s);
  }

  /** Refusing a registration and closing the refused connection leaves the directory as it was:
      the owner of the mark keeps it. */
  lemma RefusalKeepsOwner(s: State, fd: Fd)
    requires Ids(s) && Mirrors(s) && Indexed(s) && fd in s.conns && Whole(PACKET_LIMIT, s.conns[fd].recvBuf)
    requires Decide(s, fd, Head(PACKET_LIMIT, s.conns[fd].recvBuf)).Rejected?
    ensures Process(s, fd).index == s.index && Directory(Process(s, fd).history) == Directory(s.history)
    ensures forall f | f in s.conns && f != fd :: f in Process(s, fd).conns && Process(s, fd).conns[f] == s.conns[f]
  {
    OwnsNothing(s, fd);
    var d, id := Directory(s.history), s.conns[fd].id;
    assert Without(d, id) == d;
  }

  /** A connection that has not registered owns no key. */
  lemma OwnsNothing(s: State, fd: Fd)
    requires Ids(s) && Mirrors(s) && Indexed(s) && fd in s.conns && !s.conns[fd].registered
    ensures forall k | k in Directory(s.history) :: Directory(s.history)[k] != s.conns[fd].id
  {
    forall k | k in Directory(s.history) ensures Directory(s.history)[k] != s.conns[fd].id {
      assert s.index[k] in s.conns;
    }
  }

  // ---------- accounting ----------

  /** Every byte read is written, waiting, discarded with its connection, part of a stripped mark, or
      part of a packet that went nowhere; every packet is forwarded or has one of five other ends. */
  lemma Accounting(script: seq<WriteResult>, es: seq<Event>)
    requires Possibly(script, es)
    ensures var s := After(script, es);
            && s.stats.bytesIn == s.stats.bytesOut + Total(s.conns) + Discarded(s.history)
                                  + MARK_SIZE * s.stats.packetsOut + Absorbed(s.history)
            && s.stats.bytesOut + MARK_SIZE * s.stats.packetsOut <= s.stats.bytesIn
            && s.stats.packetsIn == s.stats.packetsOut + s.stats.dropNoTarget + s.stats.dropSmall
                                    + Count(s.history, Registering) + Count(s.history, Rejecting)
                                    + Count(s.history, EmptyPayload)
  {
    QuietRun(script, es);
    PacketsSplit(After(script, es).history);
  }

  // ---------- wake-ups ----------

  /** No lost wake-up and no busy one: after every event EPOLLOUT is requested for exactly the open
      connections with bytes to send, and every open connection can be read from. */
  lemma WakeUps(script: seq<WriteResult>, es: seq<Event>, f: Fd)
    requires Possibly(script, es) && f in After(script, es).conns
    ensures var c := After(script, es).conns[f];
            && (c.armed <==> c.sendBuf != [])
            && |c.recvBuf| < BUFFER_SIZE
            && !Whole(PACKET_LIMIT, c.recvBuf)
  {
    QuietRun(script, es);
    RoomToRead(After(script, es).conns[f]);
  }
}
