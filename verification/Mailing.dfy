/** What the calls of the hook do: sending sends, looking takes, reading returns; and over a run alone on one
    connection the packets accepted are those of the calls. */
module Mailing {
  import opened Wire
  import opened Peers
  import opened PeersInvariant
  import opened PeerEffects
  import opened Passes
  import opened Reading
  import opened Hook
  import opened HookCalls

  // ---------- whom to send to ----------

  /** The peer that was told connected last. */
  function LastUp(t: Trace): PeerId {
    if t.Silent? then INVALID_PEER else if t.up then t.peer else LastUp(t.before)
  }

  /** The callback keeps that peer, until it is told disconnected: then it keeps none. */
  lemma {:induction false} CurrentIsLast(t: Trace)
    ensures CurrentPeer(t) == if OnLine(t, LastUp(t)) then LastUp(t) else INVALID_PEER
  {
    if t.Told? {
      CurrentIsLast(t.before);
    }
  }

  /** The hook has a peer to send to: the manager runs, and the peer told connected last is connected. */
  ghost predicate CanSend(m: Mgr) {
    && m.initialized && LastUp(m.trace) != INVALID_PEER
    && OnLine(m.trace, LastUp(m.trace)) && IsUp(m, LastUp(m.trace))
  }

  // ---------- one call ----------

  /** SendP2PPacket sends the envelope to that peer: the kernel takes what it takes of its frame and the rest
      waits. If send fails the peer dies. Without such a peer nothing changes. */
  lemma DispatchSends(h: State, id: SteamId, o: Outgoing, res: SendResult)
    ensures var h', p, e := Hook.Step(h, id, Dispatch(o, res)), LastUp(h.m.trace), Envelope(o.dst, id, o.data);
            if !CanSend(h.m) then h' == h
            else if res.SendFailed? then Dies(h.m, h'.m, p) && h' == h.(m := h'.m)
            else
              var c, f, k := h.m.peers[p], Frame(e), TakenOf(res, |Frame(e)|);
              && h' == h.(m := h'.m, posted := h.posted + [o]) && p in h'.m.peers
              && Becomes(h.m, h'.m, p, c.(sendBuf := h'.m.peers[p].sendBuf, epoch := h'.m.peers[p].epoch))
              && h'.m.peers[p].sendBuf == c.sendBuf + f[k..]
              && h'.m.peers[p].epoch.accepted == c.epoch.accepted + f[..k]
              && h'.m.peers[p].epoch.sent == c.epoch.sent + [e]
  {
    CurrentIsLast(h.m.trace);
    EnvelopeRoundTrip(o.dst, id, o.data);
    SendEffect(h.m, CurrentPeer(h.m.trace), Envelope(o.dst, id, o.data), res);
  }

  /** IsP2PPacketAvailable, after it has run the manager: with an empty slot it takes the first packet that
      waits at the first peer that has one. One that names a sender is then in the slot, opened; another is
      thrown away. */
  lemma LookTakes(h: State, id: SteamId, order: seq<PeerId>, p: PeerId, x: Bytes)
    requires h.m.initialized && h.slot.Empty? && FirstWaiting(h.m, order, p, x) && x != []
    ensures var h' := Hook.Step(h, id, Look(order));
            && p in h'.m.peers && p in h.m.peers && h.m.peers[p].queue == [x] + h'.m.peers[p].queue
            && Becomes(h.m, h'.m, p, h.m.peers[p].(queue := h'.m.peers[p].queue, epoch := h'.m.peers[p].epoch))
            && h'.taken == h.taken + [x] && h'.returned == h.returned && h'.posted == h.posted
            && h'.slot == if Readable(x) then Full(Unwrap(x)) else Empty
  {
    FirstIsFirst(h.m, order, p, x);
    PopEffect(h.m, p);
  }

  /** ReadP2PPacket returns what is in the slot, once. */
  lemma ReadReturns(h: State, id: SteamId)
    ensures var h' := Hook.Step(h, id, Read);
            if h.slot.Full? then h' == h.(slot := Empty, returned := h.returned + [h.slot.mail]) else h' == h
  {
  }

  // ---------- sending, over a run ----------

  /** The calls of SendP2PPacket among the events that send did not refuse. */
  function Calls(es: seq<Event>): seq<Outgoing> {
    if es == [] then [] else Calls(es[..|es| - 1]) + CallOf(es[|es| - 1])
  }

  function CallOf(e: Event): seq<Outgoing> {
    if e.Dispatch? && !e.res.SendFailed? then [e.o] else []
  }

  /** Those of them made while the hook had a peer to send to. */
  ghost function Mailed(h: State, id: SteamId, es: seq<Event>): seq<Outgoing> {
    if es == [] then []
    else
      var n := |es| - 1;
      Mailed(h, id, es[..n]) + if CanSend(Run(h, id, es[..n]).m) then CallOf(es[n]) else []
  }

  lemma StepPosts(h: State, id: SteamId, e: Event)
    ensures Hook.Step(h, id, e).posted == h.posted + if CanSend(h.m) then CallOf(e) else []
  {
    if e.Dispatch? {
      DispatchSends(h, id, e.o, e.res);
    }
  }

  /** These are the calls whose envelopes are sent. */
  lemma {:induction false} MailedIsPosted(h: State, id: SteamId, es: seq<Event>)
    ensures Run(h, id, es).posted == h.posted + Mailed(h, id, es)
  {
    if es != [] {
      var n := |es| - 1;
      MailedIsPosted(h, id, es[..n]);
      StepPosts(Run(h, id, es[..n]), id, es[n]);
    }
  }

  // ---------- while the peer is up ----------

  lemma RestTellsNothing(m: Mgr, op: Op)
    requires !InPass(op) && !op.ConnectTo? && !op.Close? && !op.ShutDown?
    ensures Peers.Step(m, op).trace == m.trace
  {
  }

  lemma CallTellsNothing(m: Mgr, op: Op, p: PeerId, k: nat)
    requires (op.ConnectTo? && p < m.nextId) || op.Close? || op.ShutDown?
    requires m.peers.Keys == {p} && Sole(Peers.Step(m, op), p, k)
    ensures Peers.Step(m, op).trace == m.trace
  {
    if op.ConnectTo? {
      JoinNotSole(m, op.ip, op.port, op.h, p, k);
    } else if op.Close? {
      if op.p in m.peers {
        LostNotSole(m, op.p, op.t, p, k);
      }
    } else {
      assert p in Peers.Step(m, op).peers.Keys;
    }
  }

  /** An operation after which p alone is still there, on the same socket, tells nothing. */
  lemma OpTellsNothing(m: Mgr, op: Op, p: PeerId, k: nat)
    requires Good(m) && Sole(m, p, k) && Sole(Peers.Step(m, op), p, k)
    ensures Peers.Step(m, op).trace == m.trace
  {
    if InPass(op) {
      StepSole(m, op, p, k);
    } else if op.ConnectTo? || op.Close? || op.ShutDown? {
      CallTellsNothing(m, op, p, k);
    } else {
      RestTellsNothing(m, op);
    }
  }

  lemma ManageTellsNothing(m: Mgr, op: Op, p: PeerId, k: nat)
    requires Good(m) && Sole(m, p, k) && Sole(Peers.Step(m, op), p, k)
    ensures Peers.Step(m, op).trace == m.trace && (IsUp(Peers.Step(m, op), p) ==> IsUp(m, p))
  {
    OpTellsNothing(m, op, p, k);
    if IsUp(Peers.Step(m, op), p) {
      OpGoesOn(m, op, p);
    }
  }

  lemma LookLeaves(h: State, order: seq<PeerId>, p: PeerId)
    ensures Prefetch(h, order).m.trace == h.m.trace && (IsUp(Prefetch(h, order).m, p) ==> IsUp(h.m, p))
  {
  }

  lemma DispatchLeaves(h: State, id: SteamId, o: Outgoing, res: SendResult, p: PeerId)
    ensures Post(h, id, o, res).m.trace == h.m.trace && (IsUp(Post(h, id, o, res).m, p) ==> IsUp(h.m, p))
  {
  }

  /** One event of a run alone on a connection: nothing is told, and whoever is up afterwards was up before. */
  lemma EventTellsNothing(h: State, id: SteamId, e: Event, p: PeerId, k: nat)
    requires Good(h.m) && Sole(h.m, p, k) && Sole(Hook.Step(h, id, e).m, p, k)
    ensures Hook.Step(h, id, e).m.trace == h.m.trace
    ensures IsUp(Hook.Step(h, id, e).m, p) ==> IsUp(h.m, p)
  {
    match e
    case Manage(op) => ManageTellsNothing(h.m, op, p, k);
    case Look(order) => LookLeaves(h, order, p);
    case Read =>
    case Dispatch(o, res) => DispatchLeaves(h, id, o, res, p);
  }

  /** While the peer is up nothing has been told, and it has been up all the time. */
  lemma {:induction false} UpSinceStart(h: State, id: SteamId, es: seq<Event>, p: PeerId, k: nat)
    requires Begins(h, id, p) && SoleRun(h, id, es, p, k)
    ensures Run(h, id, es).m.trace == h.m.trace && Good(Run(h, id, es).m)
    ensures IsUp(Run(h, id, es).m, p) ==> IsUp(h.m, p)
  {
    SoleUser(h, id, es, p, k);
    if es != [] {
      var n := |es| - 1;
      UpSinceStart(h, id, es[..n], p, k);
      SoleAtEnd(h, id, es, p, k);
      SoleAtEnd(h, id, es[..n], p, k);
      EventTellsNothing(Run(h, id, es[..n]), id, es[n], p, k);
    }
  }

  lemma UpCanSend(m: Mgr, t: Trace, p: PeerId)
    requires Good(m) && m.trace == t && IsUp(m, p) && LastUp(t) == p != INVALID_PEER && OnLine(t, p)
    ensures CanSend(m)
  {
  }

  /** If p was told connected last when the run began, and is up at its end, every call has been mailed. */
  lemma {:induction false} AllMailed(h: State, id: SteamId, es: seq<Event>, p: PeerId, k: nat)
    requires Begins(h, id, p) && SoleRun(h, id, es, p, k) && LastUp(h.m.trace) == p != INVALID_PEER
    requires IsUp(Run(h, id, es).m, p)
    ensures Mailed(h, id, es) == Calls(es)
  {
    if es != [] {
      var n := |es| - 1;
      var b := Run(h, id, es[..n]);
      SoleAtEnd(h, id, es, p, k);
      SoleAtEnd(h, id, es[..n], p, k);
      UpSinceStart(h, id, es[..n], p, k);
      EventTellsNothing(b, id, es[n], p, k);
      UpCanSend(b.m, h.m.trace, p);
      AllMailed(h, id, es[..n], p, k);
    }
  }

  // ---------- sequences of calls ----------

  /** The calls of SendP2PPacket in a sequence of calls that send did not refuse. */
  function SendsOf(cs: seq<HookCall>): seq<Outgoing> {
    if cs == [] then [] else SendsOf(cs[..|cs| - 1]) + SendOf(cs[|cs| - 1])
  }

  function SendOf(c: HookCall): seq<Outgoing> {
    if c.SendMail? && !c.res.SendFailed? then [c.o] else []
  }

  lemma {:induction false} CallsAppend(es: seq<Event>, fs: seq<Event>)
    ensures Calls(es + fs) == Calls(es) + Calls(fs)
  {
    if fs == [] {
      assert es + fs == es;
    } else {
      var n := |fs| - 1;
      CallsAppend(es, fs[..n]);
      FrontOfSum(es, fs);
      OutgoingAssoc(Calls(es), Calls(fs[..n]), CallOf(fs[n]));
    }
  }

  lemma FrontOfSum(es: seq<Event>, fs: seq<Event>)
    requires fs != []
    ensures (es + fs)[..|es + fs| - 1] == es + fs[..|fs| - 1] && (es + fs)[|es + fs| - 1] == fs[|fs| - 1]
  {
  }

  lemma OutgoingAssoc(a: seq<Outgoing>, b: seq<Outgoing>, c: seq<Outgoing>)
    ensures (a + b) + c == a + (b + c)
  {
  }

  lemma {:induction false} ManagedCalls(ops: seq<Op>)
    ensures Calls(Managed(ops)) == []
  {
    if ops != [] {
      var n := |ops| - 1;
      ManagedCalls(ops[..n]);
      CallsAppend(Managed(ops[..n]), [Manage(ops[n])]);
    }
  }

  lemma EventsOfCall(h: State, c: HookCall, greeting: Bytes)
    ensures Calls(EventsOf(h, c, greeting)) == SendOf(c)
  {
    match c
    case Available(s, order) =>
      ManagedCalls(PassOps(h.m, s, greeting));
      CallsAppend(Managed(PassOps(h.m, s, greeting)), [Look(order)]);
      assert [Look(order)][..0] == [];
    case ReadMail => assert [Read][..0] == [];
    case SendMail(o, res) => assert [Dispatch(o, res)][..0] == [];
  }

  lemma {:induction false} SendsAreCalls(h: State, id: SteamId, cs: seq<HookCall>, greeting: Bytes)
    ensures Calls(AllEvents(h, id, cs, greeting)) == SendsOf(cs)
  {
    if cs != [] {
      var n := |cs| - 1;
      var b := CallAll(h, id, cs[..n], greeting);
      SendsAreCalls(h, id, cs[..n], greeting);
      EventsOfCall(b, cs[n], greeting);
      CallsAppend(AllEvents(h, id, cs[..n], greeting), EventsOf(b, cs[n], greeting));
    }
  }

  // ---------- emptying the queue ----------

  /** Look and read, n times. */
  function Polls(order: seq<PeerId>, n: nat): seq<Event> {
    if n == 0 then [] else Polls(order, n - 1) + [Look(order)] + [Read]
  }

  lemma OneMoreUnwrapped(q: seq<Bytes>, n: nat)
    requires 0 < n <= |q|
    ensures q[n - 1..] != [] && q[n - 1..][0] == q[n - 1] && q[n - 1..][1..] == q[n..]
    ensures Unwrapped(q[..n]) ==
            if Readable(q[n - 1]) then Unwrapped(q[..n - 1]) + [Unwrap(q[n - 1])] else Unwrapped(q[..n - 1])
  {
    assert q[..n] == q[..n - 1] + [q[n - 1]];
    UnwrappedSnoc(q[..n - 1], q[n - 1]);
  }

  /** The slot is empty and p the only peer, with these packets waiting. */
  ghost predicate Holds(h: State, p: PeerId, queue: seq<Bytes>) {
    h.m.initialized && h.slot.Empty? && h.m.peers.Keys == {p} && h.m.peers[p].queue == queue
  }

  lemma OneLook(h: State, id: SteamId, order: seq<PeerId>, p: PeerId, queue: seq<Bytes>)
    requires Holds(h, p, queue) && queue != [] && queue[0] != []
    requires p in order && (forall q | q in order :: q == p)
    ensures var t := Hook.Step(Hook.Step(h, id, Look(order)), id, Read);
            && Holds(t, p, queue[1..])
            && t.returned == if Readable(queue[0]) then h.returned + [Unwrap(queue[0])] else h.returned
  {
    assert order[0] in order;
    LookTakes(h, id, order, p, queue[0]);
    ReadReturns(Hook.Step(h, id, Look(order)), id);
  }

  lemma OnePoll(h: State, id: SteamId, es: seq<Event>, order: seq<PeerId>, p: PeerId, queue: seq<Bytes>)
    requires Holds(Run(h, id, es), p, queue) && queue != [] && queue[0] != []
    requires p in order && (forall q | q in order :: q == p)
    ensures var b, t := Run(h, id, es), Run(h, id, es + [Look(order)] + [Read]);
            && Holds(t, p, queue[1..])
            && t.returned == if Readable(queue[0]) then b.returned + [Unwrap(queue[0])] else b.returned
  {
    HookCalls.RunSnoc(h, id, es, Look(order));
    HookCalls.RunSnoc(h, id, es + [Look(order)], Read);
    OneLook(Run(h, id, es), id, order, p, queue);
  }

  /** The first n packets have been returned. */
  ghost predicate Polled(h: State, t: State, p: PeerId, queue: seq<Bytes>, n: nat)
    requires n <= |queue|
  {
    Holds(t, p, queue[n..]) && t.returned == h.returned + Unwrapped(queue[..n])
  }

  lemma PolledOn(h: State, id: SteamId, order: seq<PeerId>, p: PeerId, queue: seq<Bytes>, n: nat)
    requires p in order && (forall q | q in order :: q == p)
    requires 0 < n <= |queue| && queue[n - 1] != [] && Polled(h, Run(h, id, Polls(order, n - 1)), p, queue, n - 1)
    ensures Polled(h, Run(h, id, Polls(order, n)), p, queue, n)
  {
    OneMoreUnwrapped(queue, n);
    OnePoll(h, id, Polls(order, n - 1), order, p, queue[n - 1..]);
  }

  /** Looking and reading as often as packets wait at the only peer returns all of them, in order. */
  lemma {:induction false} PollsReturnAll(h: State, id: SteamId, order: seq<PeerId>, p: PeerId,
                                          queue: seq<Bytes>, n: nat)
    requires Holds(h, p, queue) && p in order && (forall q | q in order :: q == p)
    requires n <= |queue| && (forall i | 0 <= i < n :: queue[i] != [])
    ensures Polled(h, Run(h, id, Polls(order, n)), p, queue, n)
  {
    if n == 0 {
      assert queue[0..] == queue && h.returned + [] == h.returned;
    } else {
      PollsReturnAll(h, id, order, p, queue, n - 1);
      PolledOn(h, id, order, p, queue, n);
    }
  }
}
