/** A client that sends before its partner has registered: the relay drops what it sends, and the partner
    hears only the rest. One run of the relay, for all ids and data, that shows it. */
module LateRegistration {
  import opened Wire
  import opened Relay
  import opened Switch
  import opened RelayTheorems
  import H = Hook
  import E = EndToEnd

  /** The client at fd sends p, and its frame is read in one piece. */
  function Arrives(fd: Fd, p: Bytes): Event {
    Ready(fd, false, true, false, Data(Frame(p)))
  }

  predicate Idle(s: State, fd: Fd) {
    fd in s.conns && s.conns[fd].recvBuf == []
  }

  lemma RunSnoc(s: State, es: seq<Event>, e: Event)
    ensures Run(s, es + [e]) == Step(Run(s, es), e)
    ensures PossibleRun(s, es + [e]) <==> PossibleRun(s, es) && Possible(Run(s, es), e)
  {
    assert (es + [e])[..|es|] == es;
  }

  lemma NothingLeft(r: State, fd: Fd)
    requires fd in r.conns && Whole(PACKET_LIMIT, r.conns[fd].recvBuf) && Tail(PACKET_LIMIT, r.conns[fd].recvBuf) == []
    ensures fd in Process(r, fd).conns ==> Process(r, fd).conns[fd].recvBuf == []
  {
    assert Arrive(r, fd).conns[fd].recvBuf == [];
  }

  lemma DrainOne(r: State, fd: Fd)
    requires fd in r.conns && Whole(PACKET_LIMIT, r.conns[fd].recvBuf) && Tail(PACKET_LIMIT, r.conns[fd].recvBuf) == []
    ensures Drain(r, fd) == Process(r, fd)
  {
    NothingLeft(r, fd);
    var t := Process(r, fd);
    if fd in t.conns {
      assert Drain(t, fd) == t;
    }
  }

  /** An idle client's packet is processed at once. */
  lemma OnePacket(s: State, fd: Fd, p: Bytes)
    requires Idle(s, fd) && 0 < |p| <= PACKET_LIMIT
    ensures Possible(s, Arrives(fd, p))
    ensures var r := Receive(s, fd, Frame(p));
            && Whole(PACKET_LIMIT, r.conns[fd].recvBuf) && Head(PACKET_LIMIT, r.conns[fd].recvBuf) == p
            && Tail(PACKET_LIMIT, r.conns[fd].recvBuf) == []
            && Step(s, Arrives(fd, p)) == Process(r, fd)
  {
    FrameFront(PACKET_LIMIT, p, []);
    assert Frame(p) + [] == Frame(p) && [] + Frame(p) == Frame(p);
    DrainOne(Receive(s, fd, Frame(p)), fd);
  }

  /** Only the connection at fd and the history, which has grown by e, differ in what matters here. */
  ghost predicate Onward(s: State, t: State, fd: Fd, e: Entry) {
    && t.conns.Keys == s.conns.Keys && Idle(t, fd)
    && (forall g | g in s.conns && Idle(s, g) :: Idle(t, g))
    && (forall g | g in s.conns :: t.conns[g].id == s.conns[g].id)
    && (forall g | g in s.conns && g != fd ::
          t.conns[g].registered == s.conns[g].registered && t.conns[g].mark == s.conns[g].mark)
    && t.nextId == s.nextId && t.script == s.script && t.history == Then(s.history, e)
  }

  lemma Registers(s: State, fd: Fd, id: H.SteamId)
    requires Idle(s, fd) && !s.conns[fd].registered && id !in s.index
    ensures Possible(s, Arrives(fd, H.IdBytes(id)))
    ensures var t := Step(s, Arrives(fd, H.IdBytes(id)));
            && Onward(s, t, fd, Handled(s.conns[fd].id, H.IdBytes(id), Registered))
            && t.conns[fd].registered && t.conns[fd].mark == H.IdBytes(id) && t.index == s.index[id := fd]
            && t.conns[fd].read == s.conns[fd].read + Frame(H.IdBytes(id))
            && (forall g | g in s.conns && g != fd :: t.conns[g].read == s.conns[g].read)
  {
    OnePacket(s, fd, H.IdBytes(id));
    H.IdRoundTrip(id);
  }

  lemma EnvelopeKey(dst: H.SteamId, src: H.SteamId, data: Bytes)
    ensures var p := H.Envelope(dst, src, data);
            |p| == 2 * MARK_SIZE + |data| && KeyOf(p[..MARK_SIZE]) == dst
  {
    H.EnvelopeRoundTrip(dst, src, data);
  }

  lemma Drops(s: State, fd: Fd, dst: H.SteamId, src: H.SteamId, data: Bytes)
    requires Idle(s, fd) && s.conns[fd].registered && dst !in s.index && 2 * MARK_SIZE + |data| <= PACKET_LIMIT
    ensures Possible(s, Arrives(fd, H.Envelope(dst, src, data)))
    ensures var p := H.Envelope(dst, src, data);
            var t := Step(s, Arrives(fd, p));
            && Onward(s, t, fd, Handled(s.conns[fd].id, p, NoTarget)) && t.index == s.index
            && t.conns[fd].registered
  {
    EnvelopeKey(dst, src, data);
    OnePacket(s, fd, H.Envelope(dst, src, data));
  }

  /** Here the kernel takes nothing yet: the frame waits in the target's send buffer. */
  lemma Forwards(s: State, fd: Fd, dst: H.SteamId, src: H.SteamId, data: Bytes)
    requires Idle(s, fd) && s.conns[fd].registered && 2 * MARK_SIZE + |data| <= PACKET_LIMIT
    requires dst in s.index && s.index[dst] in s.conns && s.index[dst] != fd && s.script == []
    ensures Possible(s, Arrives(fd, H.Envelope(dst, src, data)))
    ensures var p := H.Envelope(dst, src, data);
            var t := Step(s, Arrives(fd, p));
            && Onward(s, t, fd, Handled(s.conns[fd].id, p, Forwarded(s.conns[s.index[dst]].id)))
            && t.conns[fd].registered
  {
    EnvelopeKey(dst, src, data);
    OnePacket(s, fd, H.Envelope(dst, src, data));
  }

  lemma Accepts(s: State, fd: Fd)
    requires fd !in s.conns && |s.conns| < MAX_CONNECTIONS
    ensures Step(s, Incoming(fd, true)) == s.(conns := s.conns[fd := NewConn(s.nextId)], nextId := s.nextId + 1)
  {
  }

  /** Both are open and registered, the one at fb under b. */
  ghost predicate BothRegistered(t: State, fa: Fd, fb: Fd, b: Key) {
    && fa in t.conns && t.conns[fa].registered
    && fb in t.conns && t.conns[fb].registered && KeyOf(t.conns[fb].mark) == b
  }

  /** A registers, sends d1, B registers, A sends d2. */
  function Story(a: H.SteamId, b: H.SteamId, d1: Bytes, d2: Bytes): seq<Event> {
    [Incoming(1, true)] + [Arrives(1, H.IdBytes(a))] + [Arrives(1, H.Envelope(b, a, d1))]
    + [Incoming(2, true)] + [Arrives(2, H.IdBytes(b))] + [Arrives(1, H.Envelope(b, a, d2))]
  }

  function Told(a: H.SteamId, b: H.SteamId, d1: Bytes, d2: Bytes): History {
    Then(Then(Then(Then(Start, Handled(0, H.IdBytes(a), Registered)), Handled(0, H.Envelope(b, a, d1), NoTarget)),
              Handled(1, H.IdBytes(b), Registered)), Handled(0, H.Envelope(b, a, d2), Forwarded(1)))
  }

  /** The first half of the story: B is not there yet. */
  lemma Alone(a: H.SteamId, b: H.SteamId, d1: Bytes)
    requires a != b && 2 * MARK_SIZE + |d1| <= PACKET_LIMIT
    ensures var es := [Incoming(1, true)] + [Arrives(1, H.IdBytes(a))] + [Arrives(1, H.Envelope(b, a, d1))];
            var s := After([], es);
            && Possibly([], es) && s.conns.Keys == {1} && Idle(s, 1) && s.conns[1].registered && s.conns[1].id == 0
            && s.index == map[a := 1] && s.nextId == 1 && s.script == []
            && s.history == Then(Then(Start, Handled(0, H.IdBytes(a), Registered)),
                                 Handled(0, H.Envelope(b, a, d1), NoTarget))
  {
    var s0 := Init([]);
    Accepts(s0, 1);
    var s1 := Step(s0, Incoming(1, true));
    RunSnoc(s0, [], Incoming(1, true));
    assert [] + [Incoming(1, true)] == [Incoming(1, true)];
    Registers(s1, 1, a);
    RunSnoc(s0, [Incoming(1, true)], Arrives(1, H.IdBytes(a)));
    var s2 := Step(s1, Arrives(1, H.IdBytes(a)));
    Drops(s2, 1, b, a, d1);
    RunSnoc(s0, [Incoming(1, true)] + [Arrives(1, H.IdBytes(a))], Arrives(1, H.Envelope(b, a, d1)));
  }

  lemma BothThere(s: State, a: H.SteamId, b: H.SteamId, d2: Bytes)
    requires a != b && 2 * MARK_SIZE + |d2| <= PACKET_LIMIT
    requires s.conns.Keys == {1} && Idle(s, 1) && s.conns[1].registered && s.conns[1].id == 0
    requires s.index == map[a := 1] && s.nextId == 1 && s.script == []
    ensures var s1 := Step(s, Incoming(2, true));
            var s2 := Step(s1, Arrives(2, H.IdBytes(b)));
            var t := Step(s2, Arrives(1, H.Envelope(b, a, d2)));
            && Possible(s, Incoming(2, true)) && Possible(s1, Arrives(2, H.IdBytes(b)))
            && Possible(s2, Arrives(1, H.Envelope(b, a, d2)))
            && BothRegistered(t, 1, 2, b) && t.conns[1].id == 0 && t.conns[2].id == 1
            && t.history == Then(Then(s.history, Handled(1, H.IdBytes(b), Registered)),
                                 Handled(0, H.Envelope(b, a, d2), Forwarded(1)))
  {
    assert |s.conns| == |s.conns.Keys| == 1;
    Accepts(s, 2);
    var s1 := Step(s, Incoming(2, true));
    Registers(s1, 2, b);
    var s2 := Step(s1, Arrives(2, H.IdBytes(b)));
    Forwards(s2, 1, b, a, d2);
    H.IdRoundTrip(b);
  }

  lemma StoryRuns(a: H.SteamId, b: H.SteamId, d1: Bytes, d2: Bytes)
    requires a != b && 2 * MARK_SIZE + |d1| <= PACKET_LIMIT && 2 * MARK_SIZE + |d2| <= PACKET_LIMIT
    ensures var es := Story(a, b, d1, d2);
            var t := After([], es);
            && Possibly([], es) && BothRegistered(t, 1, 2, b) && t.conns[1].id == 0 && t.conns[2].id == 1
            && t.history == Told(a, b, d1, d2)
  {
    var s0 := Init([]);
    var es := [Incoming(1, true)] + [Arrives(1, H.IdBytes(a))] + [Arrives(1, H.Envelope(b, a, d1))];
    Alone(a, b, d1);
    BothThere(After([], es), a, b, d2);
    RunSnoc(s0, es, Incoming(2, true));
    RunSnoc(s0, es + [Incoming(2, true)], Arrives(2, H.IdBytes(b)));
    RunSnoc(s0, es + [Incoming(2, true)] + [Arrives(2, H.IdBytes(b))], Arrives(1, H.Envelope(b, a, d2)));
  }

  lemma ToldOf(ida: Bytes, e1: Bytes, idb: Bytes, e2: Bytes)
    ensures var h := Then(Then(Then(Then(Start, Handled(0, ida, Registered)), Handled(0, e1, NoTarget)),
                               Handled(1, idb, Registered)), Handled(0, e2, Forwarded(1)));
            ForwardsTo(h, 1) == [PayloadOf(e2)] && HandledBy(h, 0) == [ida, e1, e2]
  {
    var h1 := Then(Start, Handled(0, ida, Registered));
    var h2 := Then(h1, Handled(0, e1, NoTarget));
    var h3 := Then(h2, Handled(1, idb, Registered));
    assert ForwardsTo(h1, 1) == [] && HandledBy(h1, 0) == [ida];
    assert ForwardsTo(h2, 1) == [] && HandledBy(h2, 0) == [ida, e1];
    assert ForwardsTo(h3, 1) == [] && HandledBy(h3, 0) == [ida, e1];
  }

  lemma ToldIsHeard(a: H.SteamId, b: H.SteamId, d1: Bytes, d2: Bytes)
    ensures E.Heard(a, ForwardsTo(Told(a, b, d1, d2), 1)) == [d2]
    ensures HandledBy(Told(a, b, d1, d2), 0) == [H.IdBytes(a), H.Envelope(b, a, d1), H.Envelope(b, a, d2)]
  {
    var p := H.Envelope(b, a, d2);
    ToldOf(H.IdBytes(a), H.Envelope(b, a, d1), H.IdBytes(b), p);
    H.EnvelopeRoundTrip(b, a, d2);
    E.HeardSnoc(a, [], PayloadOf(p));
    assert [] + [PayloadOf(p)] == [PayloadOf(p)] && E.Heard(a, []) == [];
  }

  lemma OneEnvelope(a: H.SteamId, o: H.Outgoing)
    ensures H.Envelopes(a, [o]) == [H.Envelope(o.dst, a, o.data)] && E.DataFor(o.dst, [o]) == [o.data]
  {
    assert [o][..0] == [];
  }

  lemma TwoEnvelopes(a: H.SteamId, o1: H.Outgoing, o2: H.Outgoing)
    requires o1.dst == o2.dst
    ensures H.Envelopes(a, [o1, o2]) == [H.Envelope(o1.dst, a, o1.data), H.Envelope(o2.dst, a, o2.data)]
    ensures E.DataFor(o1.dst, [o1, o2]) == [o1.data, o2.data]
  {
    OneEnvelope(a, o1);
    OneEnvelope(a, o2);
    E.EnvelopesAppend(a, [o1], [o2]);
    E.DataForSplit(o1.dst, [o1], [o2]);
    assert [o1] + [o2] == [o1, o2];
  }

  /** What A sends to B before B has registered is lost, and what B hears is no prefix of what A sent. */
  lemma EarlyDataIsLost(a: H.SteamId, b: H.SteamId, d1: Bytes, d2: Bytes)
    requires a != b && d1 != d2
    requires 2 * MARK_SIZE + |d1| <= PACKET_LIMIT && 2 * MARK_SIZE + |d2| <= PACKET_LIMIT
    ensures var t, ms := After([], Story(a, b, d1, d2)), [H.Outgoing(b, d1), H.Outgoing(b, d2)];
            && Possibly([], Story(a, b, d1, d2)) && BothRegistered(t, 1, 2, b)
            && HandledBy(t.history, t.conns[1].id) == [H.IdBytes(a)] + H.Envelopes(a, ms)
            && E.Heard(a, ForwardsTo(t.history, t.conns[2].id)) == [d2]
            && E.DataFor(b, ms) == [d1, d2]
            && !([d2] <= E.DataFor(b, ms))
  {
    StoryRuns(a, b, d1, d2);
    ToldIsHeard(a, b, d1, d2);
    TwoEnvelopes(a, H.Outgoing(b, d1), H.Outgoing(b, d2));
    assert [d2][0] != [d1, d2][0];
  }
}
