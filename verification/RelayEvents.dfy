/** What one epoll entry does, said of the state before and after it and of what the kernel answers: how
    many bytes are written, when a connection closes, and that every byte read is kept. */
module RelayEvents {
  import opened Wire
  import opened Relay
  import opened Switch
  import opened RelayInvariant
  import opened RelayTheorems
  import opened SelfForward

  // ---------- writing ----------

  /** How many of n bytes the kernel takes before the answers block, fail or run out. */
  function Accepted(n: nat, script: seq<WriteResult>): (k: nat)
    ensures k <= n
    decreases |script|
  {
    if n == 0 || script == [] || !script[0].Took? || script[0].n == 0 then 0
    else Min(script[0].n, n) + Accepted(n - Min(script[0].n, n), script[1..])
  }

  /** The answers left over. */
  function Unused(n: nat, script: seq<WriteResult>): seq<WriteResult>
    decreases |script|
  {
    if n == 0 || script == [] then script
    else if !script[0].Took? || script[0].n == 0 then script[1..]
    else Unused(n - Min(script[0].n, n), script[1..])
  }

  /** c after the kernel has taken the first k of its waiting bytes. */
  function Sent(c: Conn, k: nat): Conn
    requires k <= |c.sendBuf|
  {
    c.(sendBuf := c.sendBuf[k..], written := c.written + c.sendBuf[..k])
  }

  /** s and t differ only in fd: as many of its waiting bytes as the answers allow have been written, and it
      has closed exactly if one of these writes fails. */
  ghost predicate Writes(s: State, t: State, fd: Fd)
    requires fd in s.conns
  {
    var c := s.conns[fd];
    var n := |c.sendBuf|;
    var k := Accepted(n, s.script);
    && t.script == Unused(n, s.script) && t.nextId == s.nextId
    && (!Doomed(n, s.script) ==>
          && t.conns == s.conns[fd := Sent(c, k).(armed := k < n)]
          && t.index == s.index && t.history == s.history
          && t.stats == s.stats.(bytesOut := s.stats.bytesOut + k))
    && (Doomed(n, s.script) ==>
          && Leaves(s, t, fd, Sent(c, k), WriteError)
          && t.stats == s.stats.(bytesOut := s.stats.bytesOut + k, writeErrors := s.stats.writeErrors + 1))
  }

  /** In t the connection at fd, which was c at the end, has closed, its mark is free again, and the others
      are as they were in s. */
  ghost predicate Leaves(s: State, t: State, fd: Fd, c: Conn, why: Cause) {
    && t.conns == s.conns - {fd}
    && t.index == (if c.registered then s.index - {KeyOf(c.mark)} else s.index)
    && t.history == Then(s.history, Closed(c, why))
  }

  lemma SentTwice(c: Conn, i: nat, j: nat)
    requires i + j <= |c.sendBuf|
    ensures Sent(Sent(c, i), j) == Sent(c, i + j)
  {
    assert c.sendBuf[..i + j] == c.sendBuf[..i] + c.sendBuf[i..][..j];
    assert c.written + c.sendBuf[..i + j] == (c.written + c.sendBuf[..i]) + c.sendBuf[i..][..j];
    assert c.sendBuf[i..][j..] == c.sendBuf[i + j..];
  }

  /** One round of the flush loop, and the rest of the loop. */
  lemma WritesOn(s: State, t: State, fd: Fd)
    requires fd in s.conns && s.conns[fd].sendBuf != [] && Progress(s) && Writes(WriteOnce(s, fd), t, fd)
    ensures Writes(s, t, fd)
  {
    var c := s.conns[fd];
    var i := Min(s.script[0].n, |c.sendBuf|);
    var u := WriteOnce(s, fd);
    assert u.conns[fd] == Sent(c, i) && u.script == s.script[1..];
    SentTwice(c, i, Accepted(|c.sendBuf| - i, u.script));
    assert u.conns - {fd} == s.conns - {fd};
  }

  lemma CloseLeaves(s: State, fd: Fd, why: Cause)
    requires fd in s.conns
    ensures var t := Close(s, fd, why);
            && fd !in t.conns && Leaves(s, t, fd, s.conns[fd], why)
            && t.stats == s.stats && t.script == s.script && t.nextId == s.nextId
  {
  }

  /** The kernel takes nothing and asks for patience, or there is nothing to write. */
  lemma WritesLater(s: State, t: State, fd: Fd)
    requires fd in s.conns && Accepted(|s.conns[fd].sendBuf|, s.script) == 0 && !Doomed(|s.conns[fd].sendBuf|, s.script)
    requires var c := s.conns[fd];
             && t == s.(conns := s.conns[fd := c.(armed := c.sendBuf != [])], script := t.script)
             && t.script == Unused(|c.sendBuf|, s.script)
    ensures Writes(s, t, fd)
  {
    assert Sent(s.conns[fd], 0) == s.conns[fd];
  }

  lemma WriteFails(s: State, fd: Fd)
    requires fd in s.conns && s.conns[fd].sendBuf != [] && s.script != []
    requires !Progress(s) && !s.script[0].WouldBlock?
    ensures Writes(s, Flush(s, fd), fd)
  {
    var u := PopScript(s);
    var v := u.(stats := u.stats.(writeErrors := u.stats.writeErrors + 1));
    assert Sent(s.conns[fd], 0) == s.conns[fd];
    CloseLeaves(v, fd, WriteError);
    assert Flush(s, fd) == Close(v, fd, WriteError);
  }

  /** The last round of the loop. */
  lemma WritesNothing(s: State, fd: Fd)
    requires fd in s.conns && (s.conns[fd].sendBuf == [] || !Progress(s))
    ensures Writes(s, Flush(s, fd), fd)
  {
    if s.conns[fd].sendBuf == [] || s.script == [] || s.script[0].WouldBlock? {
      WritesLater(s, Flush(s, fd), fd);
    } else {
      WriteFails(s, fd);
    }
  }

  lemma {:induction false} FlushWrites(s: State, fd: Fd)
    requires fd in s.conns
    ensures Writes(s, Flush(s, fd), fd)
    decreases |s.conns[fd].sendBuf|
  {
    if s.conns[fd].sendBuf != [] && Progress(s) {
      FlushWrites(WriteOnce(s, fd), fd);
      WritesOn(s, Flush(s, fd), fd);
    } else {
      WritesNothing(s, fd);
    }
  }

  /** EPOLLOUT: what the entry would lead to without it, and then, if the connection is still open, its
      waiting bytes are written. Alone it writes them at once. */
  lemma WritableWrites(s: State, fd: Fd, failed: bool, readable: bool, res: ReadResult)
    ensures var u := Step(s, Ready(fd, failed, readable, false, res));
            var t := Step(s, Ready(fd, failed, readable, true, res));
            if fd in u.conns then Writes(u, t, fd) else t == u
    ensures fd in s.conns ==> Writes(s, Step(s, Ready(fd, false, false, true, res)), fd)
  {
    var u := Step(s, Ready(fd, failed, readable, false, res));
    if fd in u.conns {
      FlushWrites(u, fd);
    }
    if fd in s.conns {
      FlushWrites(s, fd);
    }
  }

  /** A forwarded packet is queued at its target and then written, behind what waits there. */
  lemma ForwardWrites(s: State, fd: Fd) returns (u: State)
    requires fd in s.conns && Whole(PACKET_LIMIT, s.conns[fd].recvBuf)
    requires Decide(s, fd, Head(PACKET_LIMIT, s.conns[fd].recvBuf)).Forwarded?
    ensures var p := Head(PACKET_LIMIT, s.conns[fd].recvBuf);
            var g := TargetOf(s, p);
            && g in s.conns && g in u.conns && u.conns[g].written == s.conns[g].written && u.script == s.script
            && u.conns[g].sendBuf == s.conns[g].sendBuf + Frame(p[MARK_SIZE..])
            && u.conns.Keys == s.conns.Keys
            && (forall f | f in s.conns && f != g && f != fd :: u.conns[f] == s.conns[f])
            && Writes(u, Process(s, fd), g)
  {
    u := Arrive(s, fd);
    FlushWrites(u, TargetOf(s, Head(PACKET_LIMIT, s.conns[fd].recvBuf)));
  }

  // ---------- ends ----------

  /** What one read, or a hang-up, says about the end of a connection. */
  predicate Ends(failed: bool, readable: bool, res: ReadResult) {
    failed || (readable && (res.EndOfFile? || res.Broken?))
  }

  function CauseOf(failed: bool, res: ReadResult): Cause {
    if failed then HungUp else if res.EndOfFile? then Eof else ReadError
  }

  /** A hang-up, the end of a client's stream and a failing read close its connection and free its mark,
      even if it is writable. */
  lemma EndCloses(s: State, fd: Fd, failed: bool, readable: bool, writable: bool, res: ReadResult)
    requires Quiet(s) && fd in s.conns && Ends(failed, readable, res)
    ensures var t := Step(s, Ready(fd, failed, readable, writable, res));
            && Leaves(s, t, fd, s.conns[fd], CauseOf(failed, res))
            && (s.conns[fd].registered ==> KeyOf(s.conns[fd].mark) !in t.index)
            && t.stats == s.stats && t.script == s.script && t.nextId == s.nextId
  {
    RoomToRead(s.conns[fd]);
    CloseLeaves(s, fd, CauseOf(failed, res));
    assert AfterRead(s, Ready(fd, failed, readable, writable, res)) == Close(s, fd, CauseOf(failed, res));
  }

  /** Nothing changes when there is nothing to read and nothing to write, or when the fd is not known. */
  lemma NothingHappens(s: State, fd: Fd, failed: bool, readable: bool, writable: bool, res: ReadResult)
    requires Quiet(s)
    requires fd !in s.conns || (!failed && !writable && (readable ==> res.NoData?))
    ensures Step(s, Ready(fd, failed, readable, writable, res)) == s
  {
    if fd in s.conns {
      RoomToRead(s.conns[fd]);
    }
  }

  // ---------- beginnings ----------

  predicate Untouched(c: Conn) {
    !c.registered && !c.armed && c.sendBuf == c.recvBuf == c.read == c.written == [] && c.handled == c.forwarded == []
  }

  /** A new client is taken in exactly if there is room and its socket could be set up: with an id of its
      own, nothing registered, and nothing read, waiting or written. Otherwise nothing changes. */
  lemma AcceptOpens(s: State, fd: Fd, setUp: bool)
    requires fd !in s.conns && Ids(s)
    ensures var t := Step(s, Incoming(fd, setUp));
            if setUp && |s.conns| < MAX_CONNECTIONS then
              && fd in t.conns && Untouched(t.conns[fd])
              && t == s.(conns := s.conns[fd := t.conns[fd]], nextId := t.nextId)
              && (forall f | f in s.conns :: s.conns[f].id != t.conns[fd].id) && t.conns[fd].id < t.nextId
            else t == s
  {
  }

  // ---------- every byte read is kept ----------

  /** What an epoll entry brings from the client with this id. */
  function Brings(s: State, e: Event, id: Id): Bytes {
    if e.Ready? && !e.failed && e.readable && e.res.Data? && e.fd in s.conns && s.conns[e.fd].id == id
    then e.res.bytes else []
  }

  /** All that the reads of a run have returned for this client. */
  ghost function BytesFrom(script: seq<WriteResult>, es: seq<Event>, id: Id): Bytes {
    if es == [] then []
    else
      var n := |es| - 1;
      BytesFrom(script, es[..n], id) + Brings(After(script, es[..n]), es[n], id)
  }

  ghost predicate ClosedInput(h: History, input: Id -> Bytes) {
    h.Then? ==> ClosedInput(h.before, input) && (h.last.Closed? ==> h.last.conn.read == input(h.last.conn.id))
  }

  /** Every connection, open or closed, has read this. */
  ghost predicate Input(s: State, input: Id -> Bytes) {
    && ClosedInput(s.history, input)
    && (forall f | f in s.conns :: s.conns[f].read == input(s.conns[f].id))
  }

  /** The connections of t are connections of s and have read what they had read there. */
  ghost predicate SameInput(s: State, t: State) {
    forall f | f in t.conns :: f in s.conns && t.conns[f].id == s.conns[f].id && t.conns[f].read == s.conns[f].read
  }

  lemma InputClose(s: State, fd: Fd, why: Cause, input: Id -> Bytes)
    requires Input(s, input)
    ensures Input(Close(s, fd, why), input)
  {
  }

  lemma InputSame(s: State, t: State, input: Id -> Bytes)
    requires Input(s, input) && SameInput(s, t)
    requires t.history == s.history || (t.history.Then? && t.history.before == s.history && t.history.last.Handled?)
    ensures Input(t, input)
  {
  }

  lemma InputFlush(s: State, fd: Fd, input: Id -> Bytes)
    requires Input(s, input) && fd in s.conns
    ensures Input(Flush(s, fd), input)
  {
    FlushWrites(s, fd);
    if !Doomed(|s.conns[fd].sendBuf|, s.script) {
      InputSame(s, Flush(s, fd), input);
    }
  }

  lemma ArriveInput(s: State, fd: Fd)
    requires fd in s.conns && Whole(PACKET_LIMIT, s.conns[fd].recvBuf)
    ensures SameInput(s, Arrive(s, fd))
  {
  }

  lemma InputProcess(s: State, fd: Fd, input: Id -> Bytes)
    requires Input(s, input) && fd in s.conns && Whole(PACKET_LIMIT, s.conns[fd].recvBuf)
    ensures Input(Process(s, fd), input)
  {
    var p, t := Head(PACKET_LIMIT, s.conns[fd].recvBuf), Arrive(s, fd);
    ArriveInput(s, fd);
    InputSame(s, t, input);
    if Decide(s, fd, p).Forwarded? {
      InputFlush(t, TargetOf(s, p), input);
    } else if Decide(s, fd, p).Rejected? {
      InputClose(t, fd, Refused, input);
    }
  }

  lemma {:induction false} InputDrain(s: State, fd: Fd, input: Id -> Bytes)
    requires Input(s, input) && fd in s.conns
    ensures Input(Drain(s, fd), input)
    decreases |s.conns[fd].recvBuf|
  {
    if Whole(PACKET_LIMIT, s.conns[fd].recvBuf) {
      InputProcess(s, fd, input);
      if fd in Process(s, fd).conns {
        InputDrain(Process(s, fd), fd, input);
      }
    } else if BadHeader(PACKET_LIMIT, s.conns[fd].recvBuf) {
      InputClose(s, fd, BadLength, input);
    }
  }

  lemma {:induction false} GoneInput(h: History, input: Id -> Bytes, more: Id -> Bytes, id: Id)
    requires ClosedInput(h, input) && !Gone(h, id) && forall i | i != id :: more(i) == input(i)
    ensures ClosedInput(h, more)
  {
    if h.Then? {
      GoneInput(h.before, input, more, id);
    }
  }

  lemma InputReceive(s: State, fd: Fd, data: Bytes, input: Id -> Bytes, more: Id -> Bytes)
    requires Quiet(s) && Input(s, input) && fd in s.conns
    requires var c := s.conns[fd].id; more(c) == input(c) + data && forall i | i != c :: more(i) == input(i)
    ensures Input(Drain(Receive(s, fd, data), fd), more)
  {
    GoneInput(s.history, input, more, s.conns[fd].id);
    assert Input(Receive(s, fd, data), more);
    InputDrain(Receive(s, fd, data), fd, more);
  }

  lemma InputRead(s: State, e: Event, input: Id -> Bytes, more: Id -> Bytes)
    requires Quiet(s) && Input(s, input) && e.Ready? && (forall i :: more(i) == input(i) + Brings(s, e, i))
    ensures Input(AfterRead(s, e), more)
  {
    forall i ensures input(i) + [] == input(i) {}
    if e.fd in s.conns && !e.failed && e.readable && e.res.Data? {
      RoomToRead(s.conns[e.fd]);
      InputReceive(s, e.fd, e.res.bytes, input, more);
    } else {
      SameFunction(s.history, input, more);
      if e.failed {
        InputClose(s, e.fd, HungUp, more);
      } else if e.readable && e.fd in s.conns && !e.res.NoData? {
        RoomToRead(s.conns[e.fd]);
        InputClose(s, e.fd, CauseOf(false, e.res), more);
      }
    }
  }

  lemma {:induction false} SameFunction(h: History, input: Id -> Bytes, more: Id -> Bytes)
    requires ClosedInput(h, input) && forall i :: more(i) == input(i)
    ensures ClosedInput(h, more)
  {
    if h.Then? {
      SameFunction(h.before, input, more);
    }
  }

  lemma InputStep(s: State, e: Event, input: Id -> Bytes, more: Id -> Bytes)
    requires Quiet(s) && Ids(s) && Possible(s, e) && Input(s, input) && IdsBelow(s.history, s.nextId)
    requires forall i :: more(i) == input(i) + Brings(s, e, i)
    requires forall i | i >= s.nextId :: input(i) == []
    ensures Input(Step(s, e), more)
  {
    if e.Incoming? {
      forall i ensures more(i) == input(i) {
        assert input(i) + [] == input(i);
      }
      SameFunction(s.history, input, more);
    } else {
      InputRead(s, e, input, more);
      if e.writable && e.fd in AfterRead(s, e).conns {
        InputFlush(AfterRead(s, e), e.fd, more);
      }
    }
  }

  lemma ProcessNextId(s: State, fd: Fd)
    requires fd in s.conns && Whole(PACKET_LIMIT, s.conns[fd].recvBuf)
    ensures Process(s, fd).nextId == s.nextId
  {
    if Decide(s, fd, Head(PACKET_LIMIT, s.conns[fd].recvBuf)).Forwarded? {
      FlushWrites(Arrive(s, fd), TargetOf(s, Head(PACKET_LIMIT, s.conns[fd].recvBuf)));
    }
  }

  lemma {:induction false} DrainNextId(s: State, fd: Fd)
    requires fd in s.conns
    ensures Drain(s, fd).nextId == s.nextId
    decreases |s.conns[fd].recvBuf|
  {
    if Whole(PACKET_LIMIT, s.conns[fd].recvBuf) {
      ProcessNextId(s, fd);
      if fd in Process(s, fd).conns {
        DrainNextId(Process(s, fd), fd);
      }
    }
  }

  lemma StepNextId(s: State, e: Event)
    ensures Step(s, e).nextId >= s.nextId
  {
    if e.Ready? {
      var t := AfterRead(s, e);
      if !e.failed && e.readable && e.fd in s.conns && e.res.Data? && |s.conns[e.fd].recvBuf| < BUFFER_SIZE {
        DrainNextId(Receive(s, e.fd, e.res.bytes), e.fd);
      }
      if e.writable && e.fd in t.conns {
        FlushWrites(t, e.fd);
      }
    }
  }

  lemma {:induction false} InputRun(script: seq<WriteResult>, es: seq<Event>)
    requires Possibly(script, es)
    ensures Input(After(script, es), id => BytesFrom(script, es, id))
    ensures forall i | i >= After(script, es).nextId :: BytesFrom(script, es, i) == []
  {
    if es != [] {
      var n := |es| - 1;
      var s := After(script, es[..n]);
      InputRun(script, es[..n]);
      QuietRun(script, es[..n]);
      StepNextId(s, es[n]);
      InputStep(s, es[n], id => BytesFrom(script, es[..n], id), id => BytesFrom(script, es, id));
    }
  }

  /** What a connection has read, and so by reassembly what was handled for it, is exactly what the reads of
      the run returned for it: open or closed, no byte is lost, added or attributed to another. */
  lemma BytesAreKept(script: seq<WriteResult>, es: seq<Event>)
    requires Possibly(script, es)
    ensures var s := After(script, es);
            && (forall f | f in s.conns :: s.conns[f].read == BytesFrom(script, es, s.conns[f].id))
            && (forall b, c, why | ClosedAt(s.history, b, c, why) :: c.read == BytesFrom(script, es, c.id))
  {
    var s, input := After(script, es), (id: Id) => BytesFrom(script, es, id);
    InputRun(script, es);
    forall b, c, why | ClosedAt(s.history, b, c, why) ensures c.read == BytesFrom(script, es, c.id) {
      ClosedHasRead(s.history, b, c, why, input);
    }
  }

  lemma {:induction false} ClosedHasRead(h: History, b: History, c: Conn, why: Cause, input: Id -> Bytes)
    requires ClosedInput(h, input) && ClosedAt(h, b, c, why)
    ensures c.read == input(c.id)
  {
    if h != Then(b, Closed(c, why)) {
      ClosedHasRead(h.before, b, c, why, input);
    }
  }
}
