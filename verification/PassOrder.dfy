/** What a pass of processEvents does, and in which order, said of the operations it consists of: it tries
    the peers, takes in connections, looks at every connected peer, removes the dead ones, and tries again. */
module PassOrder {
  import opened Wire
  import opened Peers
  import opened PeersInvariant
  import opened PeerEffects
  import opened Passes

  /** Those of the operations that are kept, in their order. */
  function Only(ops: seq<Op>, keep: Op -> bool): seq<Op> {
    if ops == [] then []
    else Only(ops[..|ops| - 1], keep) + if keep(ops[|ops| - 1]) then [ops[|ops| - 1]] else []
  }

  /** A recv, a send of waiting bytes or an exception for p. */
  function TrafficOf(p: PeerId): Op -> bool {
    (op: Op) => (op.RecvFrom? || op.FlushTo? || op.Exception?) && op.p == p
  }

  predicate AreTries(ops: seq<Op>) {
    forall i | 0 <= i < |ops| :: ops[i].RetryOne? || ops[i].SendTo?
  }

  predicate AreAccepts(ops: seq<Op>) {
    forall i | 0 <= i < |ops| :: ops[i].Accept? || ops[i].SendTo?
  }

  predicate AreTraffic(ops: seq<Op>) {
    forall i | 0 <= i < |ops| :: ops[i].RecvFrom? || ops[i].FlushTo? || ops[i].Exception?
  }

  lemma {:induction false} OnlyAppend(a: seq<Op>, b: seq<Op>, keep: Op -> bool)
    ensures Only(a + b, keep) == Only(a, keep) + Only(b, keep)
  {
    if b == [] {
      assert a + b == a;
    } else {
      var n := |b| - 1;
      OnlyAppend(a, b[..n], keep);
      assert (a + b)[..|a + b| - 1] == a + b[..n];
      AppendKept(Only(a, keep), Only(b[..n], keep), if keep(b[n]) then [b[n]] else []);
    }
  }

  lemma AppendKept(a: seq<Op>, b: seq<Op>, c: seq<Op>)
    ensures (a + b) + c == a + (b + c)
  {
  }

  lemma {:induction false} NoneKept(ops: seq<Op>, keep: Op -> bool)
    requires forall i | 0 <= i < |ops| :: !keep(ops[i])
    ensures Only(ops, keep) == []
  {
    if ops != [] {
      NoneKept(ops[..|ops| - 1], keep);
    }
  }

  lemma {:induction false} AllKept(ops: seq<Op>, keep: Op -> bool)
    requires forall i | 0 <= i < |ops| :: keep(ops[i])
    ensures Only(ops, keep) == ops
  {
    if ops != [] {
      AllKept(ops[..|ops| - 1], keep);
    }
  }

  lemma {:induction false} OpsAppend(m: Mgr, a: seq<Move>, b: seq<Move>, greeting: Bytes)
    ensures OpsOfAll(m, a + b, greeting) == OpsOfAll(m, a, greeting) + OpsOfAll(MakeAll(m, a, greeting), b, greeting)
    decreases |a|
  {
    if a == [] {
      assert a + b == b;
    } else {
      var m' := Make(m, a[0], greeting);
      assert (a + b)[1..] == a[1..] + b;
      OpsAppend(m', a[1..], b, greeting);
      AppendKept(OpsOf(m, a[0], greeting), OpsOfAll(m', a[1..], greeting),
                 OpsOfAll(MakeAll(m, a, greeting), b, greeting));
    }
  }

  // ---------- tries and arrivals ----------

  function TriesOf(mvs: seq<Move>): seq<Op>
    requires forall i | 0 <= i < |mvs| :: mvs[i].TryRetry?
  {
    seq(|mvs|, i requires 0 <= i < |mvs| => RetryOne(mvs[i].p, mvs[i].t, mvs[i].sock))
  }

  function ArrivalsOf(mvs: seq<Move>): seq<Op>
    requires Arrivals(mvs)
  {
    seq(|mvs|, i requires 0 <= i < |mvs| => Accept(mvs[i].ip, mvs[i].port, mvs[i].h))
  }

  const IsTry: Op -> bool := (op: Op) => op.RetryOne?
  const IsAccept: Op -> bool := (op: Op) => op.Accept?

  lemma {:induction false} TriesAreMade(m: Mgr, mvs: seq<Move>, greeting: Bytes)
    requires forall i | 0 <= i < |mvs| :: mvs[i].TryRetry?
    ensures AreTries(OpsOfAll(m, mvs, greeting)) && Only(OpsOfAll(m, mvs, greeting), IsTry) == TriesOf(mvs)
    ensures MakeAll(m, mvs, greeting).listening == m.listening
    decreases |mvs|
  {
    if mvs != [] {
      var ops := OpsOf(m, mvs[0], greeting);
      TriesAreMade(Make(m, mvs[0], greeting), mvs[1..], greeting);
      OneTry(m, mvs[0], greeting);
      FirstTry(mvs);
      OnlyAppend(ops, OpsOfAll(Make(m, mvs[0], greeting), mvs[1..], greeting), IsTry);
    }
  }

  lemma OneTry(m: Mgr, mv: Move, greeting: Bytes)
    requires mv.TryRetry?
    ensures AreTries(OpsOf(m, mv, greeting))
    ensures Only(OpsOf(m, mv, greeting), IsTry) == [RetryOne(mv.p, mv.t, mv.sock)]
    ensures Make(m, mv, greeting).listening == m.listening
  {
    var op, g := RetryOne(mv.p, mv.t, mv.sock), SendTo(mv.p, greeting, mv.sent);
    FirstKept(op, g, IsTry);
    assert [op] + [g] == [op, g] && [op] + [] == [op];
    TryListens(m, mv, greeting);
  }

  lemma TryListens(m: Mgr, mv: Move, greeting: Bytes)
    requires mv.TryRetry?
    ensures Make(m, mv, greeting).listening == m.listening
  {
  }

  lemma FirstArrival(mvs: seq<Move>)
    requires Arrivals(mvs) && mvs != []
    ensures ArrivalsOf(mvs) == [Accept(mvs[0].ip, mvs[0].port, mvs[0].h)] + ArrivalsOf(mvs[1..])
  {
  }

  lemma FirstTry(mvs: seq<Move>)
    requires (forall i | 0 <= i < |mvs| :: mvs[i].TryRetry?) && mvs != []
    ensures TriesOf(mvs) == [RetryOne(mvs[0].p, mvs[0].t, mvs[0].sock)] + TriesOf(mvs[1..])
  {
  }

  lemma {:induction false} ArrivalsAreTaken(m: Mgr, mvs: seq<Move>, greeting: Bytes)
    requires Arrivals(mvs)
    ensures AreAccepts(OpsOfAll(m, mvs, greeting))
    ensures Only(OpsOfAll(m, mvs, greeting), IsAccept) == if m.listening.Open? then ArrivalsOf(mvs) else []
    decreases |mvs|
  {
    if mvs != [] {
      var ops := OpsOf(m, mvs[0], greeting);
      MakeListens(m, mvs[0], greeting);
      ArrivalsAreTaken(Make(m, mvs[0], greeting), mvs[1..], greeting);
      OneArrival(m, mvs[0], greeting);
      FirstArrival(mvs);
      OnlyAppend(ops, OpsOfAll(Make(m, mvs[0], greeting), mvs[1..], greeting), IsAccept);
    }
  }

  lemma OneArrival(m: Mgr, mv: Move, greeting: Bytes)
    requires mv.TakeIn?
    ensures AreAccepts(OpsOf(m, mv, greeting))
    ensures Only(OpsOf(m, mv, greeting), IsAccept) == if m.listening.Open? then [Accept(mv.ip, mv.port, mv.h)] else []
  {
    FirstKept(Accept(mv.ip, mv.port, mv.h), SendTo(m.nextId, greeting, mv.sent), IsAccept);
  }

  lemma FirstKept(x: Op, y: Op, keep: Op -> bool)
    requires keep(x) && !keep(y)
    ensures Only([x], keep) == [x] && Only([x, y], keep) == [x]
  {
    assert [x][..0] == [] && [x, y][..1] == [x];
  }

  // ---------- visits ----------

  /** The first n answers are those up to and with the first that is not data. */
  predicate UpToStop(got: seq<RecvResult>, n: nat) {
    && n <= |got| && (forall i | 0 <= i < n - 1 :: got[i].Data?)
    && (n < |got| ==> n > 0 && !got[n - 1].Data?)
  }

  function Recvs(p: PeerId, got: seq<RecvResult>, n: nat): seq<Op>
    requires n <= |got|
  {
    seq(n, i requires 0 <= i < n => RecvFrom(p, got[i]))
  }

  /** What a visit of a connected peer consists of: an exception; or recv after recv, until there is nothing
      more, if it is readable, and then the waiting bytes are sent if it is writable. */
  ghost predicate Looked(v: Move, ops: seq<Op>)
    requires v.Visit?
  {
    if v.failed then ops == [Exception(v.p)]
    else
      exists n: nat | UpToStop(v.got, n) ::
        ops == (if v.readable then Recvs(v.p, v.got, n) else []) + if v.writable then [FlushTo(v.p, v.sent)] else []
  }

  lemma {:induction false} ReadOpsAre(p: PeerId, got: seq<RecvResult>) returns (n: nat)
    ensures UpToStop(got, n) && ReadOps(p, got) == Recvs(p, got, n)
    decreases |got|
  {
    if got == [] {
      n := 0;
    } else if got[0].Data? {
      var k := ReadOpsAre(p, got[1..]);
      n := k + 1;
      assert Recvs(p, got, n) == [RecvFrom(p, got[0])] + Recvs(p, got[1..], k);
      forall i | 0 <= i < n - 1 ensures got[i].Data? {
        assert i > 0 ==> got[i] == got[1..][i - 1];
      }
      if n < |got| && k > 0 {
        assert got[n - 1] == got[1..][k - 1];
      }
    } else {
      n := 1;
      assert ReadOps(p, got) == [RecvFrom(p, got[0])];
    }
  }

  /** p is connected and holds a socket. */
  predicate OnSocket(m: Mgr, p: PeerId) {
    p in m.peers && m.peers[p].connected && m.peers[p].socket.Open?
  }

  lemma VisitIsLook(m: Mgr, v: Move, greeting: Bytes)
    requires v.Visit?
    ensures AreTraffic(OpsOf(m, v, greeting))
    ensures forall i | 0 <= i < |OpsOf(m, v, greeting)| :: TrafficOf(v.p)(OpsOf(m, v, greeting)[i])
    ensures if OnSocket(m, v.p) then Looked(v, OpsOf(m, v, greeting)) else OpsOf(m, v, greeting) == []
  {
    var n := ReadOpsAre(v.p, v.got);
  }

  lemma {:induction false} ReadLeaves(m: Mgr, q: PeerId, got: seq<RecvResult>, p: PeerId)
    requires p != q && p in m.peers
    ensures p in ReadAll(m, q, got).peers && ReadAll(m, q, got).peers[p] == m.peers[p]
    decreases |got|
  {
    if got != [] && got[0].Data? {
      ReadLeaves(Recv(m, q, got[0]), q, got[1..], p);
    }
  }

  lemma FlushLeaves(m: Mgr, q: PeerId, res: SendResult, p: PeerId)
    requires p != q && p in m.peers
    ensures p in Flush(m, q, res).peers && Flush(m, q, res).peers[p] == m.peers[p]
  {
  }

  lemma VisitLeaves(m: Mgr, v: Move, greeting: Bytes, p: PeerId)
    requires v.Visit? && v.p != p && p in m.peers
    ensures p in Make(m, v, greeting).peers && Make(m, v, greeting).peers[p] == m.peers[p]
  {
    ReadLeaves(m, v.p, v.got, p);
    FlushLeaves(if v.readable then ReadAll(m, v.p, v.got) else m, v.p, v.sent, p);
  }

  lemma VisitOfOther(m: Mgr, v: Move, greeting: Bytes, p: PeerId)
    requires v.Visit? && v.p != p
    ensures Only(OpsOf(m, v, greeting), TrafficOf(p)) == []
  {
    VisitIsLook(m, v, greeting);
    NoneKept(OpsOf(m, v, greeting), TrafficOf(p));
  }

  lemma {:induction false} VisitsOfOthers(m: Mgr, vs: seq<Move>, greeting: Bytes, p: PeerId)
    requires forall i | 0 <= i < |vs| :: vs[i].Visit? && vs[i].p != p
    ensures Only(OpsOfAll(m, vs, greeting), TrafficOf(p)) == []
    decreases |vs|
  {
    if vs != [] {
      var m' := Make(m, vs[0], greeting);
      VisitOfOther(m, vs[0], greeting, p);
      VisitsOfOthers(m', vs[1..], greeting, p);
      OnlyAppend(OpsOf(m, vs[0], greeting), OpsOfAll(m', vs[1..], greeting), TrafficOf(p));
    }
  }

  /** Of all visits only the one of p is traffic of p, and it finds p as it was. */
  lemma {:induction false} VisitOfOne(m: Mgr, vs: seq<Move>, greeting: Bytes, k: nat)
    requires k < |vs| && (forall i | 0 <= i < |vs| :: vs[i].Visit?) && vs[k].p in m.peers
    requires forall i | 0 <= i < |vs| && i != k :: vs[i].p != vs[k].p
    ensures var ops := Only(OpsOfAll(m, vs, greeting), TrafficOf(vs[k].p));
            if OnSocket(m, vs[k].p) then Looked(vs[k], ops) else ops == []
    decreases |vs|
  {
    var p, v, m' := vs[k].p, vs[0], Make(m, vs[0], greeting);
    OnlyAppend(OpsOf(m, v, greeting), OpsOfAll(m', vs[1..], greeting), TrafficOf(p));
    if k == 0 {
      VisitIsLook(m, v, greeting);
      AllKept(OpsOf(m, v, greeting), TrafficOf(p));
      VisitsOfOthers(m', vs[1..], greeting, p);
    } else {
      VisitOfOther(m, v, greeting, p);
      VisitLeaves(m, v, greeting, p);
      VisitOfOne(m', vs[1..], greeting, k - 1);
    }
  }

  lemma {:induction false} VisitsAreTraffic(m: Mgr, vs: seq<Move>, greeting: Bytes)
    requires forall i | 0 <= i < |vs| :: vs[i].Visit?
    ensures AreTraffic(OpsOfAll(m, vs, greeting))
    decreases |vs|
  {
    if vs != [] {
      VisitIsLook(m, vs[0], greeting);
      VisitsAreTraffic(Make(m, vs[0], greeting), vs[1..], greeting);
    }
  }

  // ---------- greetings ----------

  /** The operation tells that a peer is connected. */
  ghost predicate TellsUp(m: Mgr, op: Op) {
    var t := Step(m, op).trace;
    t.Told? && t.up && t.before == m.trace
  }

  /** Whoever is told connected is sent the greeting at once, and nothing else is sent. */
  ghost predicate Greeted(m: Mgr, ops: seq<Op>, greeting: Bytes)
    decreases |ops|
  {
    ops == [] ||
    (!ops[0].SendTo? &&
     if TellsUp(m, ops[0]) then
       && |ops| > 1 && ops[1].SendTo? && ops[1].p == Step(m, ops[0]).trace.peer && ops[1].data == greeting
       && Greeted(Step(Step(m, ops[0]), ops[1]), ops[2..], greeting)
     else Greeted(Step(m, ops[0]), ops[1..], greeting))
  }

  lemma RunFirst(m: Mgr, ops: seq<Op>)
    requires ops != []
    ensures RunOps(m, ops) == RunOps(Step(m, ops[0]), ops[1..])
  {
    RunAppend(m, [ops[0]], ops[1..]);
    RunOne(m, ops[0]);
    assert [ops[0]] + ops[1..] == ops;
  }

  lemma RunFirstTwo(m: Mgr, ops: seq<Op>)
    requires |ops| > 1
    ensures RunOps(m, ops) == RunOps(Step(Step(m, ops[0]), ops[1]), ops[2..])
  {
    RunFirst(m, ops);
    RunFirst(Step(m, ops[0]), ops[1..]);
    assert ops[1..][1..] == ops[2..];
  }

  lemma TailOfSum(a: seq<Op>, b: seq<Op>, i: nat)
    requires i <= |a|
    ensures (a + b)[i..] == a[i..] + b
  {
  }

  lemma {:induction false} GreetedAppend(m: Mgr, a: seq<Op>, b: seq<Op>, greeting: Bytes)
    requires Greeted(m, a, greeting) && Greeted(RunOps(m, a), b, greeting)
    ensures Greeted(m, a + b, greeting)
    decreases |a|
  {
    if a == [] {
      assert a + b == b;
    } else if TellsUp(m, a[0]) {
      RunFirstTwo(m, a);
      TailOfSum(a, b, 2);
      GreetedAppend(Step(Step(m, a[0]), a[1]), a[2..], b, greeting);
    } else {
      RunFirst(m, a);
      TailOfSum(a, b, 1);
      GreetedAppend(Step(m, a[0]), a[1..], b, greeting);
    }
  }

  lemma Unheard(m: Mgr, op: Op, greeting: Bytes)
    requires !op.SendTo? && !TellsUp(m, op)
    ensures Greeted(m, [op], greeting)
  {
    assert [op][1..] == [];
  }

  lemma GreetedAtOnce(m: Mgr, op: Op, p: PeerId, greeting: Bytes, sent: SendResult)
    requires !op.SendTo? && Step(m, op).trace == Told(m.trace, p, true)
    ensures Greeted(m, [op, SendTo(p, greeting, sent)], greeting)
  {
    assert [op, SendTo(p, greeting, sent)][2..] == [];
  }

  lemma {:induction false} RemoveSilent(m: Mgr, ps: seq<PeerId>, clock: nat -> Time)
    ensures var t := RemoveEach(m, ps, clock).trace; t == m.trace || (t.Told? && !t.up)
  {
    if ps != [] {
      RemoveSilent(m, ps[..|ps| - 1], clock);
    }
  }

  lemma {:induction false} UnheardAll(m: Mgr, ops: seq<Op>, greeting: Bytes)
    requires AreTraffic(ops)
    ensures Greeted(m, ops, greeting)
    decreases |ops|
  {
    if ops != [] {
      TrafficSilent(m, ops[0]);
      UnheardAll(Step(m, ops[0]), ops[1..], greeting);
    }
  }

  lemma TrafficSilent(m: Mgr, op: Op)
    requires op.RecvFrom? || op.FlushTo? || op.Exception?
    ensures !TellsUp(m, op)
  {
    match op
    case RecvFrom(p, got) => RecvEffect(m, p, got);
    case FlushTo(p, res) => FlushEffect(m, p, res);
    case Exception(p) => ExceptionEffect(m, p);
  }

  lemma TryGreets(m: Mgr, mv: Move, greeting: Bytes)
    requires mv.TryRetry?
    ensures Greeted(m, OpsOf(m, mv, greeting), greeting)
  {
    var op := RetryOne(mv.p, mv.t, mv.sock);
    if mv.p in m.peers && DueAt(m.peers[mv.p], mv.t) {
      RetryPeers(m, mv.p, mv.t, mv.sock);
    }
    if Connects(m, mv.p, mv.t, mv.sock) {
      GreetedAtOnce(m, op, mv.p, greeting, mv.sent);
      assert [op] + [SendTo(mv.p, greeting, mv.sent)] == [op, SendTo(mv.p, greeting, mv.sent)];
    } else {
      Unheard(m, op, greeting);
      assert [op] + [] == [op];
    }
  }

  lemma ArrivalGreets(m: Mgr, mv: Move, greeting: Bytes)
    requires mv.TakeIn?
    ensures Greeted(m, OpsOf(m, mv, greeting), greeting)
  {
    if m.listening.Open? {
      JoinEffect(m, Accept(mv.ip, mv.port, mv.h));
      GreetedAtOnce(m, Accept(mv.ip, mv.port, mv.h), m.nextId, greeting, mv.sent);
    }
  }

  lemma MoveGreets(m: Mgr, mv: Move, greeting: Bytes)
    ensures Greeted(m, OpsOf(m, mv, greeting), greeting)
  {
    match mv
    case TryRetry(_, _, _, _) => TryGreets(m, mv, greeting);
    case TakeIn(_, _, _, _) => ArrivalGreets(m, mv, greeting);
    case Visit(_, _, _, _, _, _) =>
      VisitIsLook(m, mv, greeting);
      UnheardAll(m, OpsOf(m, mv, greeting), greeting);
    case Sweep(clock) =>
      RemoveSilent(m, SortedDistinct(m.pending), clock);
      Unheard(m, Remove(clock), greeting);
  }

  lemma {:induction false} MovesGreet(m: Mgr, mvs: seq<Move>, greeting: Bytes)
    ensures Greeted(m, OpsOfAll(m, mvs, greeting), greeting)
    decreases |mvs|
  {
    if mvs != [] {
      var m' := Make(m, mvs[0], greeting);
      MoveGreets(m, mvs[0], greeting);
      MoveRuns(m, mvs[0], greeting);
      MovesGreet(m', mvs[1..], greeting);
      GreetedAppend(m, OpsOf(m, mvs[0], greeting), OpsOfAll(m', mvs[1..], greeting), greeting);
    }
  }

  // ---------- the whole pass ----------

  /** Some connected peer has a nonzero handle, so select is called. */
  ghost predicate Selectable(m: Mgr) {
    exists q :: OnSocket(m, q) && m.peers[q].socket.handle != 0
  }

  /** The operations for which the sets are given to select, in state u: a visit for every connected peer. */
  ghost predicate LooksAtAll(u: Mgr, s: Script, ops: seq<Op>)
    requires forall i | 0 <= i < |s.visits| :: s.visits[i].Visit?
  {
    && AreTraffic(ops)
    && (forall i | 0 <= i < |s.visits| ::
          var v := s.visits[i];
          if s.selected && Selectable(u) && OnSocket(u, v.p) then Looked(v, Only(ops, TrafficOf(v.p)))
          else Only(ops, TrafficOf(v.p)) == [])
  }

  /** A pass consists of a try of every peer, the arrivals if the manager listens, a visit of every connected
      peer if select finds any ready, the removal of the dead ones, and another try of every peer; and whoever
      is told connected is greeted at once. */
  ghost predicate InOrder(m: Mgr, s: Script, ops: seq<Op>, greeting: Bytes,
                          a: seq<Op>, b: seq<Op>, c: seq<Op>, d: seq<Op>)
    requires (forall i | 0 <= i < |s.before| :: s.before[i].TryRetry?) && Arrivals(s.arrivals)
    requires forall i | 0 <= i < |s.visits| :: s.visits[i].Visit?
    requires forall i | 0 <= i < |s.after| :: s.after[i].TryRetry?
  {
    && ops == a + b + c + [Remove(s.clock)] + d
    && AreTries(a) && Only(a, IsTry) == TriesOf(s.before)
    && AreAccepts(b) && Only(b, IsAccept) == (if m.listening.Open? then ArrivalsOf(s.arrivals) else [])
    && LooksAtAll(RunOps(m, a + b), s, c)
    && AreTries(d) && Only(d, IsTry) == TriesOf(s.after)
    && Greeted(m, ops, greeting)
  }

  lemma PassSplits(m: Mgr, s: Script, greeting: Bytes)
    requires m.initialized
    ensures var u := AtSelect(m, s, greeting);
            PassOps(m, s, greeting) ==
            OpsOfAll(m, s.before, greeting) + OpsOfAll(MakeAll(m, s.before, greeting), s.arrivals, greeting)
            + OpsOfAll(u, Visits(u, s), greeting) + [Remove(s.clock)]
            + OpsOfAll(Swept(m, s, greeting), s.after, greeting)
  {
    var u := AtSelect(m, s, greeting);
    var vs, sweep := Visits(u, s), [Sweep(s.clock)];
    var m1, m2 := MakeAll(m, s.before, greeting), MakeAll(u, vs, greeting);
    OpsAppend(m, s.before + s.arrivals + vs + sweep, s.after, greeting);
    OpsAppend(m, s.before + s.arrivals + vs, sweep, greeting);
    OpsAppend(m, s.before + s.arrivals, vs, greeting);
    OpsAppend(m, s.before, s.arrivals, greeting);
    MakeAppend(m, s.before, s.arrivals, greeting);
    MakeAppend(m, s.before + s.arrivals, vs, greeting);
    MakeAppend(m, s.before + s.arrivals + vs, sweep, greeting);
    assert sweep[1..] == [];
    assert OpsOfAll(m2, sweep, greeting) == [Remove(s.clock)];
  }

  lemma LooksHold(u: Mgr, s: Script, greeting: Bytes)
    requires Looks(u, s.visits)
    ensures LooksAtAll(u, s, OpsOfAll(u, Visits(u, s), greeting))
  {
    var vs := Visits(u, s);
    VisitsAreTraffic(u, vs, greeting);
    LooksAtPeers(u, s.visits);
    forall i | 0 <= i < |s.visits|
      ensures var v, ops := s.visits[i], Only(OpsOfAll(u, vs, greeting), TrafficOf(s.visits[i].p));
              if s.selected && Selectable(u) && OnSocket(u, v.p) then Looked(v, ops) else ops == []
    {
      if s.selected && !NoneWatched(u) {
        SelectableIs(u);
        forall j | 0 <= j < |vs| && j != i ensures vs[j].p != vs[i].p {
          assert PeersOf(vs)[j] != PeersOf(vs)[i];
        }
        VisitOfOne(u, vs, greeting, i);
      } else {
        SelectableIs(u);
        NoneKept([], TrafficOf(s.visits[i].p));
      }
    }
  }

  lemma SelectableIs(u: Mgr)
    ensures Selectable(u) <==> !NoneWatched(u)
  {
    if !NoneWatched(u) {
      var p :| Watched(u, p) && u.peers[p].socket.handle != 0;
      assert OnSocket(u, p);
    }
    if Selectable(u) {
      var q :| OnSocket(u, q) && u.peers[q].socket.handle != 0;
      assert Watched(u, q);
    }
  }

  lemma PassIs(m: Mgr, s: Script, greeting: Bytes, t1: Time, t2: Time)
    returns (a: seq<Op>, b: seq<Op>, c: seq<Op>, d: seq<Op>)
    requires m.initialized && Fits(m, s, greeting, t1, t2)
    ensures InOrder(m, s, PassOps(m, s, greeting), greeting, a, b, c, d)
    ensures RunOps(m, a + b) == AtSelect(m, s, greeting)
    ensures Pass(m, s, greeting) == RunOps(m, PassOps(m, s, greeting))
  {
    var u, m1 := AtSelect(m, s, greeting), MakeAll(m, s.before, greeting);
    a, b := OpsOfAll(m, s.before, greeting), OpsOfAll(m1, s.arrivals, greeting);
    c, d := OpsOfAll(u, Visits(u, s), greeting), OpsOfAll(Swept(m, s, greeting), s.after, greeting);
    PassSplits(m, s, greeting);
    TriesAreMade(m, s.before, greeting);
    ArrivalsAreTaken(m1, s.arrivals, greeting);
    TriesAreMade(Swept(m, s, greeting), s.after, greeting);
    AtSelectRuns(m, s, greeting);
    LooksHold(u, s, greeting);
    MovesGreet(m, Moves(m, s, greeting), greeting);
    PassRuns(m, s, greeting);
  }

  lemma AtSelectRuns(m: Mgr, s: Script, greeting: Bytes)
    ensures AtSelect(m, s, greeting) ==
            RunOps(m, OpsOfAll(m, s.before, greeting) + OpsOfAll(MakeAll(m, s.before, greeting), s.arrivals, greeting))
  {
    var m1 := MakeAll(m, s.before, greeting);
    MovesRun(m, s.before, greeting);
    MovesRun(m1, s.arrivals, greeting);
    RunAppend(m, OpsOfAll(m, s.before, greeting), OpsOfAll(m1, s.arrivals, greeting));
  }

  /** The public calls: connect tries one socket and greets the new peer, processEvents is a pass, and every
      other call is one operation. */
  lemma CallsAre(m: Mgr, c: Call, greeting: Bytes)
    ensures var ops := CallOps(m, c, greeting);
            if c.Connecting? then
              if !m.initialized then ops == []
              else
                && ops == [ConnectTo(c.ip, c.port, c.h), SendTo(m.nextId, greeting, c.sent)]
                && Greeted(m, ops, greeting)
            else if c.Events? then ops == PassOps(m, c.s, greeting) && Apply(m, c, greeting) == Pass(m, c.s, greeting)
            else ops == [c.op]
    ensures Apply(m, c, greeting) == RunOps(m, CallOps(m, c, greeting))
  {
    CallRuns(m, c, greeting);
    if c.Connecting? && m.initialized {
      JoinEffect(m, ConnectTo(c.ip, c.port, c.h));
      GreetedAtOnce(m, ConnectTo(c.ip, c.port, c.h), m.nextId, greeting, c.sent);
    }
  }

  /** Before initialize and after shutdown a pass does nothing. */
  lemma NoPass(m: Mgr, s: Script, greeting: Bytes)
    requires !m.initialized
    ensures PassOps(m, s, greeting) == [] && Pass(m, s, greeting) == m
  {
  }

  // ---------- every connected peer is looked at ----------

  lemma TryLeaves(m: Mgr, mv: Move, greeting: Bytes, p: PeerId)
    requires mv.TryRetry? && OnSocket(m, p)
    ensures p in Make(m, mv, greeting).peers && Make(m, mv, greeting).peers[p] == m.peers[p]
    ensures Make(m, mv, greeting).nextId == m.nextId
  {
    RetryTouches(m, mv.p, mv.t, mv.sock, p);
    if Connects(m, mv.p, mv.t, mv.sock) {
      SendTouches(Retry(m, mv.p, mv.t, mv.sock), mv.p, greeting, mv.sent, p);
    }
  }

  lemma ArrivalLeaves(m: Mgr, mv: Move, greeting: Bytes, p: PeerId)
    requires mv.TakeIn? && OnSocket(m, p) && p < m.nextId
    ensures p in Make(m, mv, greeting).peers && Make(m, mv, greeting).peers[p] == m.peers[p]
    ensures p < Make(m, mv, greeting).nextId
  {
    if m.listening.Open? {
      SendTouches(Join(m, mv.ip, mv.port, mv.h), m.nextId, greeting, mv.sent, p);
    }
  }

  lemma {:induction false} MovesLeave(m: Mgr, mvs: seq<Move>, greeting: Bytes, p: PeerId)
    requires (forall i | 0 <= i < |mvs| :: mvs[i].TryRetry? || mvs[i].TakeIn?) && OnSocket(m, p) && p < m.nextId
    ensures p in MakeAll(m, mvs, greeting).peers && MakeAll(m, mvs, greeting).peers[p] == m.peers[p]
    ensures p < MakeAll(m, mvs, greeting).nextId
    decreases |mvs|
  {
    if mvs != [] {
      if mvs[0].TryRetry? {
        TryLeaves(m, mvs[0], greeting, p);
      } else {
        ArrivalLeaves(m, mvs[0], greeting, p);
      }
      MovesLeave(Make(m, mvs[0], greeting), mvs[1..], greeting, p);
    }
  }

  /** Only the visits are traffic. */
  lemma TrafficIsVisits(a: seq<Op>, b: seq<Op>, c: seq<Op>, r: Op, d: seq<Op>, p: PeerId)
    requires AreTries(a) && AreAccepts(b) && r.Remove? && AreTries(d)
    ensures Only(a + b + c + [r] + d, TrafficOf(p)) == Only(c, TrafficOf(p))
  {
    NoneKept(a, TrafficOf(p));
    NoneKept(b, TrafficOf(p));
    NoneKept([r], TrafficOf(p));
    NoneKept(d, TrafficOf(p));
    OnlyAppend(a + b + c + [r], d, TrafficOf(p));
    OnlyAppend(a + b + c, [r], TrafficOf(p));
    OnlyAppend(a + b, c, TrafficOf(p));
    OnlyAppend(a, b, TrafficOf(p));
    assert [] + [] + Only(c, TrafficOf(p)) + [] + [] == Only(c, TrafficOf(p));
  }

  lemma UpAtSelect(m: Mgr, s: Script, greeting: Bytes, p: PeerId)
    requires (forall i | 0 <= i < |s.before| :: s.before[i].TryRetry?) && Arrivals(s.arrivals)
    requires OnSocket(m, p) && p < m.nextId
    ensures var u := AtSelect(m, s, greeting); p in u.peers && u.peers[p] == m.peers[p]
  {
    MovesLeave(m, s.before, greeting, p);
    MovesLeave(MakeAll(m, s.before, greeting), s.arrivals, greeting, p);
  }

  lemma VisitOf(u: Mgr, vs: seq<Move>, p: PeerId) returns (i: nat)
    requires Looks(u, vs) && p in u.peers
    ensures i < |vs| && vs[i].p == p && forall j | 0 <= j < |vs| && j != i :: vs[j].p != p
  {
    var ps := PeersOf(vs);
    assert p in ps;
    i :| 0 <= i < |ps| && ps[i] == p;
    forall j | 0 <= j < |vs| && j != i ensures vs[j].p != p {
      assert ps[j] != ps[i];
    }
  }

  /** A peer that is connected when the pass begins, on a nonzero handle, is visited once if select finds
      anything; and in the whole pass its traffic is that visit. */
  lemma ConnectedIsLookedAt(m: Mgr, s: Script, greeting: Bytes, t1: Time, t2: Time, p: PeerId) returns (i: nat)
    requires m.initialized && Fits(m, s, greeting, t1, t2) && s.selected
    requires OnSocket(m, p) && m.peers[p].socket.handle != 0 && p < m.nextId
    ensures i < |s.visits| && s.visits[i].p == p
    ensures forall j | 0 <= j < |s.visits| && j != i :: s.visits[j].p != p
    ensures Looked(s.visits[i], Only(PassOps(m, s, greeting), TrafficOf(p)))
  {
    var a, b, c, d := PassIs(m, s, greeting, t1, t2);
    UpAtSelect(m, s, greeting, p);
    i := VisitOf(AtSelect(m, s, greeting), s.visits, p);
    TrafficIsVisits(a, b, c, Remove(s.clock), d, p);
  }
}
