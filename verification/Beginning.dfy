/** Where deliveries begin: two clients that have just connected, and a relay that has read their ids. */
module Beginning {
  import opened Wire
  import opened Relay
  import opened Switch
  import opened RelayTheorems
  import opened LateRegistration
  import L = Lifetimes
  import P = Peers
  import PI = PeersInvariant
  import M = Passes
  import H = Hook
  import E = EndToEnd

  /** A connects and sends its id, then B does. */
  function Greetings(a: H.SteamId, b: H.SteamId): seq<Event> {
    [Incoming(1, true)] + [Arrives(1, H.IdBytes(a))] + [Incoming(2, true)] + [Arrives(2, H.IdBytes(b))]
  }

  function BothGreeted(a: H.SteamId, b: H.SteamId): History {
    Then(Then(Start, Handled(0, H.IdBytes(a), Registered)), Handled(1, H.IdBytes(b), Registered))
  }

  lemma OneGreets(a: H.SteamId)
    ensures var es := [Incoming(1, true)] + [Arrives(1, H.IdBytes(a))];
            var s := After([], es);
            && Possibly([], es) && s.conns.Keys == {1} && s.conns[1].id == 0 && s.conns[1].read == Frame(H.IdBytes(a))
            && s.index == map[a := 1] && s.nextId == 1 && s.history == Then(Start, Handled(0, H.IdBytes(a), Registered))
  {
    var s0 := Init([]);
    Accepts(s0, 1);
    var s1 := Step(s0, Incoming(1, true));
    RunSnoc(s0, [], Incoming(1, true));
    assert [] + [Incoming(1, true)] == [Incoming(1, true)];
    Registers(s1, 1, a);
    RunSnoc(s0, [Incoming(1, true)], Arrives(1, H.IdBytes(a)));
    assert [] + Frame(H.IdBytes(a)) == Frame(H.IdBytes(a));
  }

  lemma OtherGreets(s: State, a: H.SteamId, b: H.SteamId)
    requires a != b && s.conns.Keys == {1} && s.index == map[a := 1] && s.nextId == 1
    ensures var s1 := Step(s, Incoming(2, true));
            var t := Step(s1, Arrives(2, H.IdBytes(b)));
            && Possible(s, Incoming(2, true)) && Possible(s1, Arrives(2, H.IdBytes(b)))
            && t.conns.Keys == {1, 2} && t.conns[1].id == s.conns[1].id && t.conns[1].read == s.conns[1].read
            && t.conns[2].id == 1 && t.history == Then(s.history, Handled(1, H.IdBytes(b), Registered))
  {
    assert |s.conns| == |s.conns.Keys| == 1;
    Accepts(s, 2);
    Registers(Step(s, Incoming(2, true)), 2, b);
  }

  lemma GreetingsRun(a: H.SteamId, b: H.SteamId)
    requires a != b
    ensures var t := After([], Greetings(a, b));
            && Possibly([], Greetings(a, b)) && t.conns.Keys == {1, 2}
            && t.conns[1].id == 0 && t.conns[1].read == Frame(H.IdBytes(a)) && t.conns[2].id == 1
            && t.history == BothGreeted(a, b)
  {
    var es := [Incoming(1, true)] + [Arrives(1, H.IdBytes(a))];
    OneGreets(a);
    OtherGreets(After([], es), a, b);
    RunSnoc(Init([]), es, Incoming(2, true));
    RunSnoc(Init([]), es + [Incoming(2, true)], Arrives(2, H.IdBytes(b)));
  }

  /** The manager of a client that can connect, with a fresh handle k. */
  ghost predicate CanConnect(m: P.Mgr, ip: string, port: nat, k: nat) {
    PI.Good(m) && m.initialized && m.peers == map[] && P.Possible(m, P.ConnectTo(ip, port, k))
  }

  lemma InitializedCanConnect(ip: string, port: nat, k: nat)
    requires ip != "" && port != 0
    ensures CanConnect(P.Step(P.Init, P.Initialize), ip, port, k)
  {
    P.RunSnoc(P.Init, [], P.Initialize);
    assert [] + [P.Initialize] == [P.Initialize];
    PI.GoodRun([P.Initialize]);
  }

  /** The hook of `id` right after connect: the kernel has taken the frame of its id. */
  function Connected(m: P.Mgr, ip: string, port: nat, k: nat, id: H.SteamId): H.State {
    H.State(M.Connect(m, ip, port, k, P.Took(LENGTH_SIZE + MARK_SIZE), H.IdBytes(id)), H.Empty, [], [], [])
  }

  /** A first packet that the kernel takes in one piece. */
  lemma SentWhole(m: P.Mgr, p: P.PeerId, data: Bytes)
    requires p in m.peers && m.peers[p].connected && m.peers[p].epoch == P.Fresh && data != []
    ensures var e := P.Send(m, p, data, P.Took(|Frame(data)|)).peers[p].epoch;
            e.accepted == Frame(data) && e.received == []
  {
    var f := Frame(data);
    assert [] + f[..|f|] == f;
  }

  lemma GreetingTaken(m: P.Mgr, ip: string, port: nat, k: nat, id: H.SteamId)
    requires CanConnect(m, ip, port, k)
    ensures var h := Connected(m, ip, port, k, id);
            && H.Begins(h, id, m.nextId) && H.SoleRun(h, id, [], m.nextId, k)
            && (var e := h.m.peers[m.nextId].epoch;
                !e.overtook && e.accepted == Frame(H.IdBytes(id)) && e.received == [])
  {
    H.ConnectBegins(m, ip, port, k, P.Took(LENGTH_SIZE + MARK_SIZE), id);
    SentWhole(P.Join(m, ip, port, k), m.nextId, H.IdBytes(id));
  }

  /** So the situation that the delivery theorems start from is met, and goes on from there. */
  lemma LinkedIsReached(mA: P.Mgr, ipA: string, portA: nat, kA: nat, a: H.SteamId,
                        mB: P.Mgr, ipB: string, portB: nat, kB: nat, b: H.SteamId)
    requires a != b && CanConnect(mA, ipA, portA, kA) && CanConnect(mB, ipB, portB, kB)
    ensures var t := After([], Greetings(a, b));
            && 1 in t.conns && 2 in t.conns
            && E.Linked(Connected(mA, ipA, portA, kA, a), a, [], mA.nextId, kA, [], Greetings(a, b),
                        t.conns[1], t.history, t.conns[2], t.history,
                        Connected(mB, ipB, portB, kB, b), b, [], mB.nextId, kB)
            && BothIn(t.history, t.conns[1].id, t.conns[2].id)
  {
    var t := After([], Greetings(a, b));
    GreetingsRun(a, b);
    GreetingTaken(mA, ipA, portA, kA, a);
    GreetingTaken(mB, ipB, portB, kB, b);
    GreetedHistory(a, b);
  }

  lemma GreetedHistory(a: H.SteamId, b: H.SteamId)
    requires a != b
    ensures var h := BothGreeted(a, b);
            L.RegistersAs(h, 1, b) && E.NotForged(h, 0, 1, a) && BothIn(h, 0, 1)
  {
    H.IdRoundTrip(a);
    H.IdRoundTrip(b);
    var d := Directory(BothGreeted(a, b));
    assert Directory(BothGreeted(a, b).before) == map[][a := 0];
    assert a in d && d[a] == 0 && b in d && d[b] == 1;
  }
}
