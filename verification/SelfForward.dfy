/** A client that forwards to its own mark: the one way in which a connection can be closed while its own
    packets are being handled, and exactly when it happens. */
module SelfForward {
  import opened Wire
  import opened Relay
  import opened Switch
  import opened RelayInvariant
  import opened RelayTheorems

  /** Writing n bytes with these answers fails before they are all taken and before a write blocks. */
  predicate Doomed(n: nat, script: seq<WriteResult>)
    decreases |script|
  {
    n > 0 && script != [] &&
    match script[0]
    case WouldBlock => false
    case Failed => true
    case Took(k) => k == 0 || Doomed(n - Min(k, n), script[1..])
  }

  /** A flush closes the connection exactly then. */
  lemma {:induction false} FlushCloses(s: State, fd: Fd)
    requires fd in s.conns
    ensures fd in Flush(s, fd).conns <==> !Doomed(|s.conns[fd].sendBuf|, s.script)
    decreases |s.conns[fd].sendBuf|
  {
    if s.conns[fd].sendBuf != [] && Progress(s) {
      FlushCloses(WriteOnce(s, fd), fd);
    }
  }

  /** The packet is for the mark of the client that sends it. */
  predicate ForSelf(c: Conn, p: Bytes) {
    c.registered && For(p, KeyOf(c.mark))
  }

  lemma SelfIsTarget(s: State, fd: Fd, p: Bytes)
    requires Roster(s) && fd in s.conns
    ensures ForSelf(s.conns[fd], p) <==> Decide(s, fd, p) == Forwarded(s.conns[fd].id)
    ensures ForSelf(s.conns[fd], p) ==> TargetOf(s, p) == fd
  {
    if Decide(s, fd, p) == Forwarded(s.conns[fd].id) {
      assert s.conns[TargetOf(s, p)].id == s.conns[fd].id;
    }
  }

  /** Handling a packet that is not refused closes the client it came from exactly if the packet is for its
      own mark and writing it, behind what is already waiting, fails. */
  lemma ProcessCloses(s: State, fd: Fd)
    requires Roster(s) && fd in s.conns && Whole(PACKET_LIMIT, s.conns[fd].recvBuf)
    requires !Decide(s, fd, Head(PACKET_LIMIT, s.conns[fd].recvBuf)).Rejected?
    ensures var c, p := s.conns[fd], Head(PACKET_LIMIT, s.conns[fd].recvBuf);
            fd !in Process(s, fd).conns <==>
            ForSelf(c, p) && Doomed(|c.sendBuf| + LENGTH_SIZE + |p| - MARK_SIZE, s.script)
  {
    var p, t := Head(PACKET_LIMIT, s.conns[fd].recvBuf), Arrive(s, fd);
    SelfIsTarget(s, fd, p);
    if ForSelf(s.conns[fd], p) {
      FlushCloses(t, fd);
    } else if Decide(s, fd, p).Forwarded? {
      FlushArms(t, TargetOf(s, p));
    }
  }

  // ---------- in the packet loop ----------

  /** The packet loop for fd loses its connection to a packet that it did not refuse. */
  predicate Undercut(s: State, fd: Fd)
    requires fd in s.conns
    decreases |s.conns[fd].recvBuf|
  {
    Whole(PACKET_LIMIT, s.conns[fd].recvBuf) &&
    var t := Process(s, fd);
    if fd in t.conns then Undercut(t, fd)
    else !Decide(s, fd, Head(PACKET_LIMIT, s.conns[fd].recvBuf)).Rejected?
  }

  /** Some client has forwarded to itself. */
  predicate SelfForwards(h: History) {
    h.Then? && (SelfForwards(h.before) || (h.last.Handled? && h.last.outcome == Forwarded(h.last.src)))
  }

  lemma {:induction false} SelfForwardsStays(e: History, h: History)
    requires Earlier(e, h) && SelfForwards(e)
    ensures SelfForwards(h)
  {
    if e != h {
      SelfForwardsStays(e, h.before);
    }
  }

  lemma ProcessRecords(s: State, fd: Fd)
    requires Roster(s) && fd in s.conns && Whole(PACKET_LIMIT, s.conns[fd].recvBuf)
    requires ForSelf(s.conns[fd], Head(PACKET_LIMIT, s.conns[fd].recvBuf))
    ensures SelfForwards(Process(s, fd).history)
  {
    var p := Head(PACKET_LIMIT, s.conns[fd].recvBuf);
    SelfIsTarget(s, fd, p);
    FlushGrows(Arrive(s, fd), fd);
    SelfForwardsStays(Arrive(s, fd).history, Process(s, fd).history);
  }

  lemma {:induction false} UndercutBySelf(s: State, fd: Fd)
    requires Inv(s) && fd in s.conns && Undercut(s, fd)
    ensures SelfForwards(Drain(s, fd).history)
    decreases |s.conns[fd].recvBuf|
  {
    var t := Process(s, fd);
    if fd in t.conns {
      KeepsProcess(s, fd);
      UndercutBySelf(t, fd);
    } else {
      ProcessCloses(s, fd);
      ProcessRecords(s, fd);
    }
  }

  lemma StepRecords(s: State, e: Event, data: Bytes)
    requires e.Ready? && !e.failed && e.readable && e.res == Data(data) && e.fd in s.conns
    requires |s.conns[e.fd].recvBuf| < BUFFER_SIZE && SelfForwards(Drain(Receive(s, e.fd, data), e.fd).history)
    ensures SelfForwards(Step(s, e).history)
  {
    var t := AfterRead(s, e);
    if e.writable && e.fd in t.conns {
      FlushGrows(t, e.fd);
      SelfForwardsStays(t.history, Flush(t, e.fd).history);
    }
  }

  lemma UndercutStep(s: State, e: Event, data: Bytes)
    requires Quiet(s) && e.Ready? && !e.failed && e.readable && e.res == Data(data) && e.fd in s.conns
    requires Undercut(Receive(s, e.fd, data), e.fd)
    ensures SelfForwards(Step(s, e).history)
  {
    RoomToRead(s.conns[e.fd]);
    KeepsReceive(s, e.fd, data);
    UndercutBySelf(Receive(s, e.fd, data), e.fd);
    StepRecords(s, e, data);
  }

  lemma StepInRun(s: State, es: seq<Event>, n: nat)
    requires n < |es|
    ensures Earlier(Step(Run(s, es[..n]), es[n]).history, Run(s, es).history)
  {
    RunGrows(s, es, n + 1);
    assert es[..n + 1][..n] == es[..n];
  }

  /** A packet loop that loses its own connection, at any event of a run, leaves a client's packet to
      itself in the history: where nobody sends to its own mark it never happens. */
  lemma OnlyBySelf(script: seq<WriteResult>, es: seq<Event>, n: nat, data: Bytes)
    requires Possibly(script, es) && n < |es|
    requires es[n].Ready? && !es[n].failed && es[n].readable && es[n].res == Data(data)
    requires es[n].fd in After(script, es[..n]).conns
    requires Undercut(Receive(After(script, es[..n]), es[n].fd, data), es[n].fd)
    ensures SelfForwards(After(script, es).history)
  {
    var s := After(script, es[..n]);
    PossiblePrefix(Init(script), es, n);
    QuietRun(script, es[..n]);
    UndercutStep(s, es[n], data);
    StepInRun(Init(script), es, n);
    SelfForwardsStays(Step(s, es[n]).history, After(script, es).history);
  }
}
