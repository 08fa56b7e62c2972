/** Sequences of calls of the hook, as runs over one connection: as long as the manager tells no event the
    connection is in place, and what is proved of such runs holds of the calls. */
module HookCalls {
  import opened Wire
  import opened Backoff
  import opened Peers
  import opened PeersInvariant
  import opened Passes
  import opened Hook

  /** IsP2PPacketAvailable, ReadP2PPacket, SendP2PPacket. */
  datatype HookCall = Available(s: Script, order: seq<PeerId>) | ReadMail | SendMail(o: Outgoing, res: SendResult)

  /** What the three methods of SteamHook make of its state. */
  ghost function CallOnce(h: State, id: SteamId, c: HookCall, greeting: Bytes): State {
    match c
    case Available(s, order) => Prefetch(h.(m := Pass(h.m, s, greeting)), order)
    case ReadMail => Take(h)
    case SendMail(o, res) => Post(h, id, o, res)
  }

  function Managed(ops: seq<Op>): seq<Event> {
    if ops == [] then [] else Managed(ops[..|ops| - 1]) + [Manage(ops[|ops| - 1])]
  }

  ghost function EventsOf(h: State, c: HookCall, greeting: Bytes): seq<Event> {
    match c
    case Available(s, order) => Managed(PassOps(h.m, s, greeting)) + [Look(order)]
    case ReadMail => [Read]
    case SendMail(o, res) => [Dispatch(o, res)]
  }

  /** The events of a poll are the operations of the pass, in their order, and a look into the slot; a read
      and a send are one event. */
  lemma EventsOfCalls(h: State, s: Script, order: seq<PeerId>, greeting: Bytes)
    ensures var es, ops := EventsOf(h, Available(s, order), greeting), PassOps(h.m, s, greeting);
            && |es| == |ops| + 1 && es[|ops|] == Look(order)
            && (forall i | 0 <= i < |ops| :: es[i] == Manage(ops[i]))
    ensures EventsOf(h, ReadMail, greeting) == [Read]
    ensures forall o, res :: EventsOf(h, SendMail(o, res), greeting) == [Dispatch(o, res)]
  {
    ManagedAre(PassOps(h.m, s, greeting));
  }

  lemma {:induction false} ManagedAre(ops: seq<Op>)
    ensures |Managed(ops)| == |ops| && forall i | 0 <= i < |ops| :: Managed(ops)[i] == Manage(ops[i])
  {
    if ops != [] {
      ManagedAre(ops[..|ops| - 1]);
    }
  }

  /** What the system guarantees during the call, and sizes that fit. */
  ghost predicate Fitting(h: State, c: HookCall, greeting: Bytes) {
    match c
    case Available(s, _) => ProperRun(h.m, PassOps(h.m, s, greeting))
    case ReadMail => true
    case SendMail(o, _) => 2 * ID_SIZE + |o.data| < U32_END
  }

  // ---------- telling nothing ----------

  function EventCount(t: Trace): nat {
    if t.Silent? then 0 else EventCount(t.before) + 1
  }

  /** The operations of a pass. */
  predicate InPass(op: Op) {
    op.RetryOne? || op.SendTo? || op.Accept? || op.RecvFrom? || op.FlushTo? || op.Exception? || op.Remove?
  }

  /** Nothing was told, and then the same peers hold the same sockets; or something was told. */
  ghost predicate Onward(m: Mgr, m': Mgr) {
    || EventCount(m'.trace) > EventCount(m.trace)
    || (&& m'.trace == m.trace && m'.peers.Keys == m.peers.Keys
        && forall p | p in m.peers :: m'.peers[p].socket == m.peers[p].socket)
  }

  lemma SendTellsNothing(m: Mgr, p: PeerId, data: Bytes, res: SendResult)
    ensures Send(m, p, data, res).trace == m.trace && Onward(m, Send(m, p, data, res))
  {
  }

  lemma RecvTellsNothing(m: Mgr, p: PeerId, got: RecvResult)
    ensures Recv(m, p, got).trace == m.trace && Onward(m, Recv(m, p, got))
  {
  }

  lemma ExceptTellsNothing(m: Mgr, p: PeerId)
    ensures Except(m, p).trace == m.trace && Onward(m, Except(m, p))
  {
  }

  lemma FlushTellsNothing(m: Mgr, p: PeerId, res: SendResult)
    ensures Flush(m, p, res).trace == m.trace && Onward(m, Flush(m, p, res))
  {
  }

  lemma {:induction false} RemoveTells(m: Mgr, ps: seq<PeerId>, clock: nat -> Time)
    ensures Onward(m, RemoveEach(m, ps, clock))
  {
    if ps != [] {
      RemoveTells(m, ps[..|ps| - 1], clock);
    }
  }

  lemma SweepTells(m: Mgr, clock: nat -> Time)
    ensures Onward(m, RemoveDisconnected(m, clock))
  {
    RemoveTells(m, SortedDistinct(m.pending), clock);
  }

  lemma RetryTells(m: Mgr, p: PeerId, t: Time, sock: Socket)
    ensures Onward(m, Retry(m, p, t, sock))
  {
  }

  lemma JoinTells(m: Mgr, ip: string, port: nat, h: nat)
    ensures Onward(m, Join(m, ip, port, h))
  {
  }

  lemma TrafficTellsNothing(m: Mgr, op: Op)
    requires op.SendTo? || op.RecvFrom? || op.FlushTo? || op.Exception?
    ensures Peers.Step(m, op).trace == m.trace && Onward(m, Peers.Step(m, op))
  {
    match op
    case SendTo(p, data, sent) => SendTellsNothing(m, p, data, sent);
    case RecvFrom(p, got) => RecvTellsNothing(m, p, got);
    case FlushTo(p, sent) => FlushTellsNothing(m, p, sent);
    case Exception(p) => ExceptTellsNothing(m, p);
  }

  lemma StepTells(m: Mgr, op: Op)
    requires InPass(op)
    ensures Onward(m, Peers.Step(m, op))
  {
    match op
    case Remove(clock) => SweepTells(m, clock);
    case RetryOne(p, t, sock) => RetryTells(m, p, t, sock);
    case Accept(ip, port, h) => JoinTells(m, ip, port, h);
    case _ => TrafficTellsNothing(m, op);
  }

  lemma {:induction false} OpsTell(m: Mgr, ops: seq<Op>)
    requires forall i | 0 <= i < |ops| :: InPass(ops[i])
    ensures Onward(m, RunOps(m, ops))
  {
    if ops != [] {
      OpsTell(m, ops[..|ops| - 1]);
      StepTells(RunOps(m, ops[..|ops| - 1]), ops[|ops| - 1]);
    }
  }

  // ---------- the greeting is only sent when something is told ----------

  predicate Unsent(ops: seq<Op>) {
    forall i | 0 <= i < |ops| :: !ops[i].SendTo?
  }

  lemma {:induction false} ReadOpsInPass(p: PeerId, got: seq<RecvResult>)
    ensures forall i | 0 <= i < |ReadOps(p, got)| :: ReadOps(p, got)[i].RecvFrom?
    decreases |got|
  {
    if got != [] {
      ReadOpsInPass(p, got[1..]);
    }
  }

  lemma OpsOfInPass(m: Mgr, mv: Move, greeting: Bytes)
    ensures forall i | 0 <= i < |OpsOf(m, mv, greeting)| :: InPass(OpsOf(m, mv, greeting)[i])
    ensures Unsent(OpsOf(m, mv, greeting)) || EventCount(Make(m, mv, greeting).trace) > EventCount(m.trace)
  {
    match mv
    case TryRetry(p, t, sock, sent) => SendTellsNothing(Retry(m, p, t, sock), p, greeting, sent);
    case TakeIn(ip, port, h, sent) => SendTellsNothing(Join(m, ip, port, h), m.nextId, greeting, sent);
    case Visit(p, _, _, got, _, _) => ReadOpsInPass(p, got);
    case Sweep(_) =>
  }

  lemma {:induction false} OpsOfAllInPass(m: Mgr, mvs: seq<Move>, greeting: Bytes)
    ensures forall i | 0 <= i < |OpsOfAll(m, mvs, greeting)| :: InPass(OpsOfAll(m, mvs, greeting)[i])
    ensures EventCount(MakeAll(m, mvs, greeting).trace) >= EventCount(m.trace)
    ensures Unsent(OpsOfAll(m, mvs, greeting)) || EventCount(MakeAll(m, mvs, greeting).trace) > EventCount(m.trace)
    decreases |mvs|
  {
    if mvs != [] {
      OpsOfInPass(m, mvs[0], greeting);
      OpsTell(m, OpsOf(m, mvs[0], greeting));
      MoveRuns(m, mvs[0], greeting);
      OpsOfAllInPass(Make(m, mvs[0], greeting), mvs[1..], greeting);
    }
  }

  // ---------- longer runs ----------

  lemma RunSnoc(h: State, id: SteamId, es: seq<Event>, e: Event)
    ensures Run(h, id, es + [e]) == Hook.Step(Run(h, id, es), id, e)
  {
    assert (es + [e])[..|es|] == es;
  }

  lemma SoleSnoc(h: State, id: SteamId, es: seq<Event>, e: Event, p: PeerId, k: nat)
    ensures Run(h, id, es + [e]) == Hook.Step(Run(h, id, es), id, e)
    ensures SoleRun(h, id, es + [e], p, k) <==>
            && SoleRun(h, id, es, p, k) && Allowed(Run(h, id, es).m, e)
            && Sole(Hook.Step(Run(h, id, es), id, e).m, p, k)
  {
    assert (es + [e])[..|es|] == es;
  }

  lemma OpExtends(h: State, id: SteamId, es: seq<Event>, op: Op, p: PeerId, k: nat)
    requires SoleRun(h, id, es, p, k) && InPass(op) && !op.SendTo?
    requires var m := Run(h, id, es).m;
             Possible(m, op) && Proper(m, op) && EventCount(Peers.Step(m, op).trace) == EventCount(m.trace)
    ensures SoleRun(h, id, es + [Manage(op)], p, k)
    ensures Run(h, id, es + [Manage(op)]) == Run(h, id, es).(m := Peers.Step(Run(h, id, es).m, op))
  {
    StepTells(Run(h, id, es).m, op);
    SoleSnoc(h, id, es, Manage(op), p, k);
  }

  lemma ManagedSnoc(es: seq<Event>, ops: seq<Op>, op: Op)
    ensures es + Managed(ops + [op]) == (es + Managed(ops)) + [Manage(op)]
  {
    assert (ops + [op])[..|ops|] == ops;
  }

  /** A run of the manager, such as a pass, seen from the hook. */
  lemma {:induction false} ManagedRun(h: State, id: SteamId, es: seq<Event>, ops: seq<Op>)
    ensures Run(h, id, es + Managed(ops)) == Run(h, id, es).(m := RunOps(Run(h, id, es).m, ops))
  {
    if ops == [] {
      assert es + Managed(ops) == es;
    } else {
      var before, op := ops[..|ops| - 1], ops[|ops| - 1];
      LastOff(ops);
      ManagedRun(h, id, es, before);
      ManagedSnoc(es, before, op);
      SoleSnoc(h, id, es + Managed(before), Manage(op), 0, 0);
    }
  }

  /** Operations of a pass that tell nothing and send nothing. */
  lemma {:induction false} OpsExtend(h: State, id: SteamId, es: seq<Event>, ops: seq<Op>, p: PeerId, k: nat)
    requires SoleRun(h, id, es, p, k) && ProperRun(Run(h, id, es).m, ops) && Unsent(ops)
    requires forall i | 0 <= i < |ops| :: InPass(ops[i])
    requires EventCount(RunOps(Run(h, id, es).m, ops).trace) == EventCount(Run(h, id, es).m.trace)
    ensures SoleRun(h, id, es + Managed(ops), p, k)
  {
    if ops == [] {
      assert es + Managed(ops) == es;
    } else {
      var before, op := ops[..|ops| - 1], ops[|ops| - 1];
      var m := Run(h, id, es).m;
      LastOff(ops);
      OpsTell(m, before);
      StepTells(RunOps(m, before), op);
      OpsExtend(h, id, es, before, p, k);
      ManagedRun(h, id, es, before);
      OpExtends(h, id, es + Managed(before), op, p, k);
      ManagedSnoc(es, before, op);
    }
  }

  // ---------- a lasting connection tells nothing ----------

  lemma {:induction false} RemoveAdds(m: Mgr, ps: seq<PeerId>, clock: nat -> Time)
    ensures RemoveEach(m, ps, clock).peers.Keys <= m.peers.Keys
  {
    if ps != [] {
      RemoveAdds(m, ps[..|ps| - 1], clock);
    }
  }

  lemma LostNotSole(m: Mgr, q: PeerId, t: Time, p: PeerId, k: nat)
    requires q in m.peers && m.peers.Keys <= {p}
    ensures !Sole(Lose(m, q, t), p, k)
  {
    assert q in m.peers.Keys;
  }

  lemma {:induction false} RemoveSole(m: Mgr, ps: seq<PeerId>, clock: nat -> Time, p: PeerId, k: nat)
    requires m.peers.Keys == {p} && Sole(RemoveEach(m, ps, clock), p, k)
    ensures RemoveEach(m, ps, clock).trace == m.trace
  {
    if ps != [] {
      var n := |ps| - 1;
      var b := RemoveEach(m, ps[..n], clock);
      RemoveAdds(m, ps[..n], clock);
      if ps[n] in b.peers {
        LostNotSole(b, ps[n], clock(n), p, k);
      }
      RemoveSole(m, ps[..n], clock, p, k);
    }
  }

  lemma NotDue(m: Mgr, p: PeerId, k: nat, t: Time)
    requires Good(m) && Sole(m, p, k)
    ensures !DueAt(m.peers[p], t)
  {
    assert Phase(m.peers[p], p in Marked(m));
  }

  lemma RetryNotDue(m: Mgr, q: PeerId, t: Time, sock: Socket, p: PeerId)
    requires m.peers.Keys == {p} && !DueAt(m.peers[p], t)
    ensures Retry(m, q, t, sock).trace == m.trace
  {
    assert q in m.peers.Keys ==> q == p;
  }

  lemma RetrySole(m: Mgr, q: PeerId, t: Time, sock: Socket, p: PeerId, k: nat)
    requires Good(m) && Sole(m, p, k)
    ensures Retry(m, q, t, sock).trace == m.trace
  {
    NotDue(m, p, k, t);
    RetryNotDue(m, q, t, sock, p);
  }

  lemma JoinNotSole(m: Mgr, ip: string, port: nat, h: nat, p: PeerId, k: nat)
    requires p < m.nextId
    ensures !Sole(Join(m, ip, port, h), p, k)
  {
    assert m.nextId in Join(m, ip, port, h).peers.Keys;
  }

  lemma AcceptSole(m: Mgr, op: Op, p: PeerId, k: nat)
    requires op.Accept? && p < m.nextId && Sole(Peers.Step(m, op), p, k)
    ensures Peers.Step(m, op).trace == m.trace
  {
    JoinNotSole(m, op.ip, op.port, op.h, p, k);
  }

  lemma SweepSole(m: Mgr, op: Op, p: PeerId, k: nat)
    requires op.Remove? && m.peers.Keys == {p} && Sole(Peers.Step(m, op), p, k)
    ensures Peers.Step(m, op).trace == m.trace
  {
    RemoveSole(m, SortedDistinct(m.pending), op.clock, p, k);
  }

  lemma StepSole(m: Mgr, op: Op, p: PeerId, k: nat)
    requires Good(m) && InPass(op) && Sole(m, p, k) && Sole(Peers.Step(m, op), p, k)
    ensures Peers.Step(m, op).trace == m.trace
  {
    if op.Remove? {
      SweepSole(m, op, p, k);
    } else if op.Accept? {
      AcceptSole(m, op, p, k);
    } else if op.RetryOne? {
      RetrySole(m, op.p, op.t, op.sock, p, k);
    } else {
      TrafficTellsNothing(m, op);
    }
  }

  lemma OpSole(h: State, id: SteamId, es: seq<Event>, p: PeerId, k: nat)
    requires Begins(h, id, p) && SoleRun(h, id, es, p, k)
    requires es != [] && es[|es| - 1].Manage? && InPass(es[|es| - 1].op)
    ensures SoleRun(h, id, es[..|es| - 1], p, k)
    ensures Run(h, id, es).m.trace == Run(h, id, es[..|es| - 1]).m.trace
  {
    SoleUser(h, id, es[..|es| - 1], p, k);
    StepSole(Run(h, id, es[..|es| - 1]).m, es[|es| - 1].op, p, k);
  }

  lemma {:induction false} OpsSole(h: State, id: SteamId, es: seq<Event>, all: seq<Event>, p: PeerId, k: nat)
    requires Begins(h, id, p) && es <= all && SoleRun(h, id, all, p, k)
    requires forall i | |es| <= i < |all| :: all[i].Manage? && InPass(all[i].op)
    ensures Run(h, id, all).m.trace == Run(h, id, es).m.trace
    decreases |all|
  {
    if |all| == |es| {
      assert all == es;
    } else {
      OpSole(h, id, all, p, k);
      OpsSole(h, id, es, all[..|all| - 1], p, k);
    }
  }

  lemma {:induction false} ManagedInPass(ops: seq<Op>)
    requires forall i | 0 <= i < |ops| :: InPass(ops[i])
    ensures forall i | 0 <= i < |Managed(ops)| :: Managed(ops)[i].Manage? && InPass(Managed(ops)[i].op)
  {
    if ops != [] {
      ManagedInPass(ops[..|ops| - 1]);
    }
  }

  lemma Beyond(es: seq<Event>, fs: seq<Event>)
    requires forall i | 0 <= i < |fs| :: fs[i].Manage? && InPass(fs[i].op)
    ensures es <= es + fs
    ensures forall i | |es| <= i < |es + fs| :: (es + fs)[i].Manage? && InPass((es + fs)[i].op)
  {
  }

  lemma ManagedSole(h: State, id: SteamId, es: seq<Event>, ops: seq<Op>, p: PeerId, k: nat)
    requires Begins(h, id, p) && SoleRun(h, id, es + Managed(ops), p, k)
    requires forall i | 0 <= i < |ops| :: InPass(ops[i])
    ensures RunOps(Run(h, id, es).m, ops).trace == Run(h, id, es).m.trace
  {
    ManagedInPass(ops);
    Beyond(es, Managed(ops));
    ManagedRun(h, id, es, ops);
    OpsSole(h, id, es, es + Managed(ops), p, k);
  }

  // ---------- calls ----------

  lemma PassInPass(m: Mgr, s: Script, greeting: Bytes)
    ensures Pass(m, s, greeting) == RunOps(m, PassOps(m, s, greeting))
    ensures forall i | 0 <= i < |PassOps(m, s, greeting)| :: InPass(PassOps(m, s, greeting)[i])
    ensures EventCount(Pass(m, s, greeting).trace) == EventCount(m.trace) ==> Unsent(PassOps(m, s, greeting))
  {
    var mvs := Moves(m, s, greeting);
    PassRuns(m, s, greeting);
    MovesRun(m, mvs, greeting);
    OpsOfAllInPass(m, mvs, greeting);
  }

  /** A pass during which the connection lasts is a pass that tells no event. */
  lemma PassExtends(h: State, id: SteamId, es: seq<Event>, s: Script, greeting: Bytes, p: PeerId, k: nat)
    requires Begins(h, id, p) && SoleRun(h, id, es, p, k)
    requires ProperRun(Run(h, id, es).m, PassOps(Run(h, id, es).m, s, greeting))
    ensures var m := Run(h, id, es).m;
            var es' := es + Managed(PassOps(m, s, greeting));
            && Run(h, id, es') == Run(h, id, es).(m := Pass(m, s, greeting))
            && (SoleRun(h, id, es', p, k) <==> EventCount(Pass(m, s, greeting).trace) == EventCount(m.trace))
  {
    var m := Run(h, id, es).m;
    var ops := PassOps(m, s, greeting);
    PassInPass(m, s, greeting);
    ManagedRun(h, id, es, ops);
    if EventCount(Pass(m, s, greeting).trace) == EventCount(m.trace) {
      OpsExtend(h, id, es, ops, p, k);
    } else if SoleRun(h, id, es + Managed(ops), p, k) {
      ManagedSole(h, id, es, ops, p, k);
    }
  }

  lemma LookTells(h: State, order: seq<PeerId>, p: PeerId, k: nat)
    ensures Prefetch(h, order).m.trace == h.m.trace
    ensures Sole(Prefetch(h, order).m, p, k) <==> Sole(h.m, p, k)
  {
  }

  lemma PostTells(h: State, id: SteamId, o: Outgoing, res: SendResult, p: PeerId, k: nat)
    ensures Post(h, id, o, res).m.trace == h.m.trace
    ensures Sole(Post(h, id, o, res).m, p, k) <==> Sole(h.m, p, k)
  {
  }

  lemma SoleAtEnd(h: State, id: SteamId, es: seq<Event>, p: PeerId, k: nat)
    requires SoleRun(h, id, es, p, k)
    ensures Sole(Run(h, id, es).m, p, k)
  {
  }

  lemma {:induction false} SolePrefix(h: State, id: SteamId, es: seq<Event>, fs: seq<Event>, p: PeerId, k: nat)
    requires SoleRun(h, id, es + fs, p, k)
    ensures SoleRun(h, id, es, p, k)
  {
    if fs == [] {
      assert es + fs == es;
    } else {
      assert (es + fs)[..|es + fs| - 1] == es + fs[..|fs| - 1];
      SolePrefix(h, id, es, fs[..|fs| - 1], p, k);
    }
  }

  lemma PollRuns(h: State, id: SteamId, es: seq<Event>, s: Script, order: seq<PeerId>, greeting: Bytes)
    ensures var h', c := Run(h, id, es), Available(s, order);
            Run(h, id, es + EventsOf(h', c, greeting)) == CallOnce(h', id, c, greeting)
  {
    var m := Run(h, id, es).m;
    var ops := PassOps(m, s, greeting);
    PassRuns(m, s, greeting);
    ManagedRun(h, id, es, ops);
    AppendLast(es, Managed(ops), Look(order));
    RunSnoc(h, id, es + Managed(ops), Look(order));
  }

  /** The events of a call lead to what the call makes. */
  lemma CallRuns(h: State, id: SteamId, es: seq<Event>, c: HookCall, greeting: Bytes)
    ensures var h' := Run(h, id, es);
            Run(h, id, es + EventsOf(h', c, greeting)) == CallOnce(h', id, c, greeting)
  {
    match c
    case Available(s, order) => PollRuns(h, id, es, s, order, greeting);
    case ReadMail => RunSnoc(h, id, es, Read);
    case SendMail(o, res) => RunSnoc(h, id, es, Dispatch(o, res));
  }

  /** With the events of call c a run over one connection goes on exactly if the call tells no event. */
  ghost predicate Extends(h: State, id: SteamId, es: seq<Event>, c: HookCall, greeting: Bytes, p: PeerId, k: nat) {
    var h' := Run(h, id, es);
    SoleRun(h, id, es + EventsOf(h', c, greeting), p, k)
    <==> EventCount(CallOnce(h', id, c, greeting).m.trace) == EventCount(h'.m.trace)
  }

  lemma PollExtends(h: State, id: SteamId, es: seq<Event>, s: Script, order: seq<PeerId>, greeting: Bytes,
                    p: PeerId, k: nat)
    requires Begins(h, id, p) && SoleRun(h, id, es, p, k)
    requires Fitting(Run(h, id, es), Available(s, order), greeting)
    ensures Extends(h, id, es, Available(s, order), greeting, p, k)
  {
    var m := Run(h, id, es).m;
    var es1 := es + Managed(PassOps(m, s, greeting));
    PassExtends(h, id, es, s, greeting, p, k);
    LookTells(Run(h, id, es1), order, p, k);
    SoleSnoc(h, id, es1, Look(order), p, k);
    if SoleRun(h, id, es1, p, k) {
      SoleAtEnd(h, id, es1, p, k);
    }
    AppendLast(es, Managed(PassOps(m, s, greeting)), Look(order));
  }

  /** A call that is one event. */
  lemma OneExtends(h: State, id: SteamId, es: seq<Event>, c: HookCall, e: Event, greeting: Bytes, p: PeerId, k: nat)
    requires SoleRun(h, id, es, p, k) && Allowed(Run(h, id, es).m, e)
    requires var h' := Run(h, id, es);
             && EventsOf(h', c, greeting) == [e] && CallOnce(h', id, c, greeting) == Hook.Step(h', id, e)
             && Hook.Step(h', id, e).m.trace == h'.m.trace && Sole(Hook.Step(h', id, e).m, p, k)
    ensures Extends(h, id, es, c, greeting, p, k)
  {
    SoleSnoc(h, id, es, e, p, k);
  }

  lemma ReadExtends(h: State, id: SteamId, es: seq<Event>, greeting: Bytes, p: PeerId, k: nat)
    requires SoleRun(h, id, es, p, k)
    ensures Extends(h, id, es, ReadMail, greeting, p, k)
  {
    SoleAtEnd(h, id, es, p, k);
    OneExtends(h, id, es, ReadMail, Read, greeting, p, k);
  }

  lemma SendExtends(h: State, id: SteamId, es: seq<Event>, o: Outgoing, res: SendResult, greeting: Bytes,
                    p: PeerId, k: nat)
    requires SoleRun(h, id, es, p, k) && 2 * ID_SIZE + |o.data| < U32_END
    ensures Extends(h, id, es, SendMail(o, res), greeting, p, k)
  {
    PostTells(Run(h, id, es), id, o, res, p, k);
    OneExtends(h, id, es, SendMail(o, res), Dispatch(o, res), greeting, p, k);
  }

  lemma CallExtends(h: State, id: SteamId, es: seq<Event>, c: HookCall, greeting: Bytes, p: PeerId, k: nat)
    requires Begins(h, id, p) && SoleRun(h, id, es, p, k) && Fitting(Run(h, id, es), c, greeting)
    ensures Extends(h, id, es, c, greeting, p, k)
  {
    match c
    case Available(s, order) => PollExtends(h, id, es, s, order, greeting, p, k);
    case ReadMail => ReadExtends(h, id, es, greeting, p, k);
    case SendMail(o, res) => SendExtends(h, id, es, o, res, greeting, p, k);
  }

  lemma CallTells(h: State, id: SteamId, c: HookCall, greeting: Bytes)
    ensures EventCount(CallOnce(h, id, c, greeting).m.trace) >= EventCount(h.m.trace)
  {
    match c
    case Available(s, order) =>
      PassInPass(h.m, s, greeting);
      OpsTell(h.m, PassOps(h.m, s, greeting));
      LookTells(h.(m := Pass(h.m, s, greeting)), order, 0, 0);
    case ReadMail =>
    case SendMail(o, res) => PostTells(h, id, o, res, 0, 0);
  }

  // ---------- sequences of calls ----------

  ghost function CallAll(h: State, id: SteamId, cs: seq<HookCall>, greeting: Bytes): State {
    if cs == [] then h else CallOnce(CallAll(h, id, cs[..|cs| - 1], greeting), id, cs[|cs| - 1], greeting)
  }

  ghost function AllEvents(h: State, id: SteamId, cs: seq<HookCall>, greeting: Bytes): seq<Event> {
    if cs == [] then []
    else
      var n := |cs| - 1;
      AllEvents(h, id, cs[..n], greeting) + EventsOf(CallAll(h, id, cs[..n], greeting), cs[n], greeting)
  }

  ghost predicate AllFit(h: State, id: SteamId, cs: seq<HookCall>, greeting: Bytes) {
    cs == [] ||
    (AllFit(h, id, cs[..|cs| - 1], greeting) &&
     Fitting(CallAll(h, id, cs[..|cs| - 1], greeting), cs[|cs| - 1], greeting))
  }

  /** The manager has told nothing during these calls. */
  ghost predicate Untold(h: State, id: SteamId, cs: seq<HookCall>, greeting: Bytes) {
    EventCount(CallAll(h, id, cs, greeting).m.trace) == EventCount(h.m.trace)
  }

  /** Every sequence of calls of the hook is a run of its events; and over its first connection, alone on
      it, exactly as long as the manager has told nothing. */
  lemma {:induction false} CallsExtend(h: State, id: SteamId, cs: seq<HookCall>, greeting: Bytes, p: PeerId, k: nat)
    requires Begins(h, id, p) && Sole(h.m, p, k) && AllFit(h, id, cs, greeting)
    ensures Run(h, id, AllEvents(h, id, cs, greeting)) == CallAll(h, id, cs, greeting)
    ensures EventCount(CallAll(h, id, cs, greeting).m.trace) >= EventCount(h.m.trace)
    ensures SoleRun(h, id, AllEvents(h, id, cs, greeting), p, k) <==> Untold(h, id, cs, greeting)
  {
    if cs != [] {
      var n := |cs| - 1;
      CallsExtend(h, id, cs[..n], greeting, p, k);
      OneMore(h, id, AllEvents(h, id, cs[..n], greeting), cs[n], greeting, p, k);
    }
  }

  lemma OneMore(h: State, id: SteamId, es: seq<Event>, c: HookCall, greeting: Bytes, p: PeerId, k: nat)
    requires Begins(h, id, p) && Fitting(Run(h, id, es), c, greeting)
    requires EventCount(Run(h, id, es).m.trace) >= EventCount(h.m.trace)
    requires SoleRun(h, id, es, p, k) <==> EventCount(Run(h, id, es).m.trace) == EventCount(h.m.trace)
    ensures var h' := Run(h, id, es);
            var es', h'' := es + EventsOf(h', c, greeting), CallOnce(h', id, c, greeting);
            && Run(h, id, es') == h'' && EventCount(h''.m.trace) >= EventCount(h.m.trace)
            && (SoleRun(h, id, es', p, k) <==> EventCount(h''.m.trace) == EventCount(h.m.trace))
  {
    var h' := Run(h, id, es);
    CallRuns(h, id, es, c, greeting);
    CallTells(h', id, c, greeting);
    if SoleRun(h, id, es, p, k) {
      CallExtends(h, id, es, c, greeting, p, k);
    } else if SoleRun(h, id, es + EventsOf(h', c, greeting), p, k) {
      SolePrefix(h, id, es, EventsOf(h', c, greeting), p, k);
    }
  }
}
