/** One pass of processEvents, and runs of whole calls: both are runs of the small operations of
    `Peers`, so what holds of every run of those holds of every run of the program. */
module Passes {
  import opened Wire
  import opened Peers
  import opened PeersInvariant

  // ---------- pieces of a pass ----------

  /** What one round of one of the loops of a pass meets. `sent` is the kernel's answer to the packet
      that the connection callback sends to a peer it is told is connected. */
  datatype Move =
    | TryRetry(p: PeerId, t: Time, sock: Socket, sent: SendResult)
    | TakeIn(ip: string, port: nat, h: nat, sent: SendResult)
    | Visit(p: PeerId, failed: bool, readable: bool, got: seq<RecvResult>, writable: bool, sent: SendResult)
    | Sweep(clock: nat -> Time)

  /** Only a connected peer with a socket is given to select and looked at afterwards. */
  predicate Watched(m: Mgr, p: PeerId) {
    p in m.peers && m.peers[p].socket.Open? && m.peers[p].connected
  }

  /** processRead: recv until there is nothing more, the stream ends or recv fails. */
  function ReadOps(p: PeerId, got: seq<RecvResult>): seq<Op> {
    if got == [] then []
    else [RecvFrom(p, got[0])] + if got[0].Data? then ReadOps(p, got[1..]) else []
  }

  function ReadAll(m: Mgr, p: PeerId, got: seq<RecvResult>): Mgr
    decreases |got|
  {
    if got == [] then m
    else if got[0].Data? then ReadAll(Recv(m, p, got[0]), p, got[1..])
    else Recv(m, p, got[0])
  }

  predicate Connects(m: Mgr, p: PeerId, t: Time, sock: Socket) {
    p in m.peers && DueAt(m.peers[p], t) && sock.Open?
  }

  /** The operations of one round; `greeting` is the packet the callback sends, empty for none. */
  function OpsOf(m: Mgr, mv: Move, greeting: Bytes): seq<Op> {
    match mv
    case TryRetry(p, t, sock, sent) =>
      [RetryOne(p, t, sock)] + if Connects(m, p, t, sock) then [SendTo(p, greeting, sent)] else []
    case TakeIn(ip, port, h, sent) =>
      if m.listening.Open? then [Accept(ip, port, h), SendTo(m.nextId, greeting, sent)] else []
    case Visit(p, failed, readable, got, writable, sent) =>
      if !Watched(m, p) then []
      else if failed then [Exception(p)]
      else (if readable then ReadOps(p, got) else []) + (if writable then [FlushTo(p, sent)] else [])
    case Sweep(clock) => [Remove(clock)]
  }

  /** The same round, as one change. */
  function Make(m: Mgr, mv: Move, greeting: Bytes): Mgr {
    match mv
    case TryRetry(p, t, sock, sent) =>
      if Connects(m, p, t, sock) then Send(Retry(m, p, t, sock), p, greeting, sent) else Retry(m, p, t, sock)
    case TakeIn(ip, port, h, sent) =>
      if m.listening.Open? then Send(Join(m, ip, port, h), m.nextId, greeting, sent) else m
    case Visit(p, failed, readable, got, writable, sent) =>
      if !Watched(m, p) then m
      else if failed then Except(m, p)
      else
        var m' := if readable then ReadAll(m, p, got) else m;
        if writable then Flush(m', p, sent) else m'
    case Sweep(clock) => RemoveDisconnected(m, clock)
  }

  function MakeAll(m: Mgr, mvs: seq<Move>, greeting: Bytes): Mgr
    decreases |mvs|
  {
    if mvs == [] then m else MakeAll(Make(m, mvs[0], greeting), mvs[1..], greeting)
  }

  function OpsOfAll(m: Mgr, mvs: seq<Move>, greeting: Bytes): seq<Op>
    decreases |mvs|
  {
    if mvs == [] then [] else OpsOf(m, mvs[0], greeting) + OpsOfAll(Make(m, mvs[0], greeting), mvs[1..], greeting)
  }

  // ---------- a pass ----------

  /** Everything the system answers during one pass: the peers in the order in which each loop visits
      them, and what the calls made for them return. */
  datatype Script = Script(before: seq<Move>, arrivals: seq<Move>, selected: bool, visits: seq<Move>,
                           clock: nat -> Time, after: seq<Move>)

  /** select is not called when no peer is watched (nor when all handles are zero). */
  ghost predicate NoneWatched(m: Mgr) {
    forall p | Watched(m, p) :: m.peers[p].socket.handle == 0
  }

  /** The manager when the sets for select are built. */
  function AtSelect(m: Mgr, s: Script, greeting: Bytes): Mgr {
    MakeAll(MakeAll(m, s.before, greeting), s.arrivals, greeting)
  }

  ghost function Visits(m: Mgr, s: Script): seq<Move> {
    if s.selected && !NoneWatched(m) then s.visits else []
  }

  /** The manager after removeDisconnected. */
  ghost function Swept(m: Mgr, s: Script, greeting: Bytes): Mgr {
    var m' := AtSelect(m, s, greeting);
    RemoveDisconnected(MakeAll(m', Visits(m', s), greeting), s.clock)
  }

  ghost function Pass(m: Mgr, s: Script, greeting: Bytes): Mgr {
    if m.initialized then MakeAll(Swept(m, s, greeting), s.after, greeting) else m
  }

  /** All rounds of a pass, in order. */
  ghost function Moves(m: Mgr, s: Script, greeting: Bytes): seq<Move> {
    if m.initialized
    then s.before + s.arrivals + Visits(AtSelect(m, s, greeting), s) + [Sweep(s.clock)] + s.after
    else []
  }

  ghost function PassOps(m: Mgr, s: Script, greeting: Bytes): seq<Op> {
    OpsOfAll(m, Moves(m, s, greeting), greeting)
  }

  // ---------- the loops visit the map ----------

  function PeersOf(mvs: seq<Move>): seq<PeerId>
    requires forall i | 0 <= i < |mvs| :: mvs[i].TryRetry? || mvs[i].Visit?
  {
    seq(|mvs|, i requires 0 <= i < |mvs| => mvs[i].p)
  }

  /** mvs is attemptReconnects at time t: every peer once. */
  ghost predicate Tries(m: Mgr, mvs: seq<Move>, t: Time) {
    (forall i | 0 <= i < |mvs| :: mvs[i].TryRetry? && mvs[i].t == t) && Order(m, PeersOf(mvs))
  }

  ghost predicate Arrivals(mvs: seq<Move>) {
    forall i | 0 <= i < |mvs| :: mvs[i].TakeIn?
  }

  ghost predicate Looks(m: Mgr, mvs: seq<Move>) {
    (forall i | 0 <= i < |mvs| :: mvs[i].Visit?) && Order(m, PeersOf(mvs))
  }

  /** The loops of the pass visit the peers there are, each once; t1 and t2 are the clock readings at
      the two attempts to reconnect. */
  ghost predicate Fits(m: Mgr, s: Script, greeting: Bytes, t1: Time, t2: Time) {
    && Tries(m, s.before, t1)
    && Arrivals(s.arrivals)
    && Looks(AtSelect(m, s, greeting), s.visits)
    && Tries(Swept(m, s, greeting), s.after, t2)
  }

  lemma LooksAtPeers(m: Mgr, mvs: seq<Move>)
    requires Looks(m, mvs)
    ensures forall i | 0 <= i < |mvs| :: mvs[i].p in m.peers
  {
    forall i | 0 <= i < |mvs| ensures mvs[i].p in m.peers {
      assert PeersOf(mvs)[i] in PeersOf(mvs);
    }
  }

  // ---------- a pass is a run ----------

  lemma {:induction false} RunAppend(m: Mgr, a: seq<Op>, b: seq<Op>)
    ensures RunOps(m, a + b) == RunOps(RunOps(m, a), b)
    ensures ProperRun(m, a + b) <==> ProperRun(m, a) && ProperRun(RunOps(m, a), b)
  {
    if b == [] {
      assert a + b == a;
    } else {
      var c, op := b[..|b| - 1], b[|b| - 1];
      AppendLast(a, c, op);
      assert c + [op] == b;
      RunAppend(m, a, c);
      RunSnoc(m, a + c, op);
      RunSnoc(RunOps(m, a), c, op);
    }
  }

  lemma RunOne(m: Mgr, op: Op)
    ensures RunOps(m, [op]) == Step(m, op)
  {
    assert RunOps(m, [op][..0]) == m;
  }

  lemma RunTwo(m: Mgr, a: Op, b: Op)
    ensures RunOps(m, [a, b]) == Step(Step(m, a), b)
  {
    RunAppend(m, [a], [b]);
    RunOne(m, a);
    RunOne(Step(m, a), b);
    assert [a] + [b] == [a, b];
  }

  lemma {:induction false} ReadRuns(m: Mgr, p: PeerId, got: seq<RecvResult>)
    ensures RunOps(m, ReadOps(p, got)) == ReadAll(m, p, got)
    decreases |got|
  {
    if got != [] {
      var op := RecvFrom(p, got[0]);
      RunOne(m, op);
      if got[0].Data? {
        RunAppend(m, [op], ReadOps(p, got[1..]));
        ReadRuns(Step(m, op), p, got[1..]);
      } else {
        assert ReadOps(p, got) == [op];
      }
    }
  }

  lemma VisitRuns(m: Mgr, mv: Move, greeting: Bytes)
    requires mv.Visit?
    ensures RunOps(m, OpsOf(m, mv, greeting)) == Make(m, mv, greeting)
  {
    if Watched(m, mv.p) {
      if mv.failed {
        RunOne(m, Exception(mv.p));
      } else {
        var a := if mv.readable then ReadOps(mv.p, mv.got) else [];
        var b := if mv.writable then [FlushTo(mv.p, mv.sent)] else [];
        ReadRuns(m, mv.p, mv.got);
        RunAppend(m, a, b);
        RunOne(RunOps(m, a), FlushTo(mv.p, mv.sent));
      }
    }
  }

  lemma MoveRuns(m: Mgr, mv: Move, greeting: Bytes)
    ensures RunOps(m, OpsOf(m, mv, greeting)) == Make(m, mv, greeting)
  {
    match mv
    case TryRetry(p, t, sock, sent) =>
      RunOne(m, RetryOne(p, t, sock));
      RunTwo(m, RetryOne(p, t, sock), SendTo(p, greeting, sent));
      assert [RetryOne(p, t, sock)] + [SendTo(p, greeting, sent)] == [RetryOne(p, t, sock), SendTo(p, greeting, sent)];
    case TakeIn(ip, port, h, sent) =>
      RunTwo(m, Accept(ip, port, h), SendTo(m.nextId, greeting, sent));
    case Visit(_, _, _, _, _, _) =>
      VisitRuns(m, mv, greeting);
    case Sweep(clock) =>
      RunOne(m, Remove(clock));
  }

  lemma {:induction false} MovesRun(m: Mgr, mvs: seq<Move>, greeting: Bytes)
    ensures RunOps(m, OpsOfAll(m, mvs, greeting)) == MakeAll(m, mvs, greeting)
    decreases |mvs|
  {
    if mvs != [] {
      var m' := Make(m, mvs[0], greeting);
      MoveRuns(m, mvs[0], greeting);
      RunAppend(m, OpsOf(m, mvs[0], greeting), OpsOfAll(m', mvs[1..], greeting));
      MovesRun(m', mvs[1..], greeting);
    }
  }

  lemma {:induction false} MakeAppend(m: Mgr, a: seq<Move>, b: seq<Move>, greeting: Bytes)
    ensures MakeAll(m, a + b, greeting) == MakeAll(MakeAll(m, a, greeting), b, greeting)
    decreases |a|
  {
    if a == [] {
      assert a + b == b;
    } else {
      assert (a + b)[1..] == a[1..] + b;
      MakeAppend(Make(m, a[0], greeting), a[1..], b, greeting);
    }
  }

  /** A pass makes exactly its rounds, and they are a run of the small operations. */
  lemma PassRuns(m: Mgr, s: Script, greeting: Bytes)
    ensures Pass(m, s, greeting) == RunOps(m, PassOps(m, s, greeting))
  {
    if m.initialized {
      var visits := Visits(AtSelect(m, s, greeting), s);
      var sweep := [Sweep(s.clock)];
      MovesRun(m, Moves(m, s, greeting), greeting);
      MakeAppend(m, s.before, s.arrivals, greeting);
      MakeAppend(m, s.before + s.arrivals, visits, greeting);
      MakeAppend(m, s.before + s.arrivals + visits, sweep, greeting);
      MakeAppend(m, s.before + s.arrivals + visits + sweep, s.after, greeting);
      assert sweep[1..] == [];
    }
  }

  // ---------- what a pass leaves alone ----------

  lemma {:induction false} ReadKeeps(m: Mgr, p: PeerId, got: seq<RecvResult>)
    ensures ReadAll(m, p, got).peers.Keys == m.peers.Keys
    decreases |got|
  {
    if got != [] && got[0].Data? {
      ReadKeeps(Recv(m, p, got[0]), p, got[1..]);
    }
  }

  lemma MakeNext(m: Mgr, mvs: seq<Move>, i: nat, greeting: Bytes)
    requires i < |mvs|
    ensures MakeAll(m, mvs[i..], greeting) == MakeAll(Make(m, mvs[i], greeting), mvs[i + 1..], greeting)
  {
    assert mvs[i..][1..] == mvs[i + 1..];
  }

  lemma SendKeeps(m: Mgr, p: PeerId, data: Bytes, res: SendResult)
    ensures Send(m, p, data, res).peers.Keys == m.peers.Keys
  {
  }

  lemma RetryKeeps(m: Mgr, p: PeerId, t: Time, sock: Socket)
    ensures Retry(m, p, t, sock).peers.Keys == m.peers.Keys
  {
  }

  lemma FlushKeeps(m: Mgr, p: PeerId, res: SendResult)
    ensures Flush(m, p, res).peers.Keys == m.peers.Keys
  {
  }

  /** Trying a retry adds and removes no peer, and neither does looking at one. */
  lemma MakeKeeps(m: Mgr, mv: Move, greeting: Bytes)
    requires mv.TryRetry? || mv.Visit?
    ensures Make(m, mv, greeting).peers.Keys == m.peers.Keys
  {
    if mv.Visit? {
      ReadKeeps(m, mv.p, mv.got);
      FlushKeeps(if mv.readable then ReadAll(m, mv.p, mv.got) else m, mv.p, mv.sent);
    } else {
      RetryKeeps(m, mv.p, mv.t, mv.sock);
      SendKeeps(Retry(m, mv.p, mv.t, mv.sock), mv.p, greeting, mv.sent);
    }
  }

  lemma MakeListens(m: Mgr, mv: Move, greeting: Bytes)
    requires mv.TakeIn?
    ensures Make(m, mv, greeting).listening == m.listening && Make(m, mv, greeting).initialized == m.initialized
  {
  }

  lemma {:induction false} NotListening(m: Mgr, mvs: seq<Move>, greeting: Bytes)
    requires Arrivals(mvs) && m.listening.Invalid?
    ensures MakeAll(m, mvs, greeting) == m
    decreases |mvs|
  {
    if mvs != [] {
      NotListening(m, mvs[1..], greeting);
    }
  }

  // ---------- runs of calls ----------

  /** A call of the library: connect with its callback, a pass, or one of the calls that are a single
      operation. */
  datatype Call = Connecting(ip: string, port: nat, h: nat, sent: SendResult) | Events(s: Script) | Single(op: Op)

  function Connect(m: Mgr, ip: string, port: nat, h: nat, sent: SendResult, greeting: Bytes): Mgr {
    if m.initialized then Send(Join(m, ip, port, h), m.nextId, greeting, sent) else m
  }

  ghost function Apply(m: Mgr, c: Call, greeting: Bytes): Mgr {
    match c
    case Connecting(ip, port, h, sent) => Connect(m, ip, port, h, sent, greeting)
    case Events(s) => Pass(m, s, greeting)
    case Single(op) => Step(m, op)
  }

  ghost function CallOps(m: Mgr, c: Call, greeting: Bytes): seq<Op> {
    match c
    case Connecting(ip, port, h, sent) =>
      if m.initialized then [ConnectTo(ip, port, h), SendTo(m.nextId, greeting, sent)] else []
    case Events(s) => PassOps(m, s, greeting)
    case Single(op) => [op]
  }

  ghost function RunCalls(m: Mgr, cs: seq<Call>, greeting: Bytes): Mgr {
    if cs == [] then m else Apply(RunCalls(m, cs[..|cs| - 1], greeting), cs[|cs| - 1], greeting)
  }

  ghost function AllOps(m: Mgr, cs: seq<Call>, greeting: Bytes): seq<Op> {
    if cs == [] then []
    else AllOps(m, cs[..|cs| - 1], greeting) + CallOps(RunCalls(m, cs[..|cs| - 1], greeting), cs[|cs| - 1], greeting)
  }

  lemma CallRuns(m: Mgr, c: Call, greeting: Bytes)
    ensures Apply(m, c, greeting) == RunOps(m, CallOps(m, c, greeting))
  {
    match c
    case Connecting(ip, port, h, sent) => RunTwo(m, ConnectTo(ip, port, h), SendTo(m.nextId, greeting, sent));
    case Events(s) => PassRuns(m, s, greeting);
    case Single(op) => RunOne(m, op);
  }

  /** Every sequence of calls is a run of the small operations; what the other modules prove of the
      states of such runs holds of the states between calls. */
  lemma {:induction false} CallsRun(m: Mgr, cs: seq<Call>, greeting: Bytes)
    ensures RunCalls(m, cs, greeting) == RunOps(m, AllOps(m, cs, greeting))
  {
    if cs != [] {
      var n := |cs| - 1;
      var m' := RunCalls(m, cs[..n], greeting);
      CallsRun(m, cs[..n], greeting);
      CallRuns(m', cs[n], greeting);
      RunAppend(m, AllOps(m, cs[..n], greeting), CallOps(m', cs[n], greeting));
    }
  }

  lemma CallsKeepGood(cs: seq<Call>, greeting: Bytes)
    requires ProperRun(Init, AllOps(Init, cs, greeting))
    ensures Good(RunCalls(Init, cs, greeting))
  {
    CallsRun(Init, cs, greeting);
    GoodRun(AllOps(Init, cs, greeting));
  }

  // ---------- every due peer is tried ----------

  lemma SendTouches(m: Mgr, p: PeerId, data: Bytes, res: SendResult, q: PeerId)
    requires q in m.peers
    ensures q in Send(m, p, data, res).peers
    ensures Send(m, p, data, res).peers[q].loss == m.peers[q].loss
    ensures q != p ==> Send(m, p, data, res).peers[q] == m.peers[q]
  {
  }

  lemma RetryTouches(m: Mgr, p: PeerId, t: Time, sock: Socket, q: PeerId)
    requires q in m.peers
    ensures q in Retry(m, p, t, sock).peers
    ensures q != p ==> Retry(m, p, t, sock).peers[q] == m.peers[q]
    ensures q == p && DueAt(m.peers[p], t) ==>
              Retry(m, p, t, sock).peers[q].loss.tries == m.peers[q].loss.tries + [t]
  {
  }

  lemma OthersUntouched(m: Mgr, mv: Move, greeting: Bytes, p: PeerId)
    requires mv.TryRetry? && mv.p != p && p in m.peers
    ensures p in Make(m, mv, greeting).peers && Make(m, mv, greeting).peers[p] == m.peers[p]
  {
    RetryTouches(m, mv.p, mv.t, mv.sock, p);
    SendTouches(Retry(m, mv.p, mv.t, mv.sock), mv.p, greeting, mv.sent, p);
  }

  lemma TriedNow(m: Mgr, mv: Move, greeting: Bytes)
    requires mv.TryRetry? && mv.p in m.peers && DueAt(m.peers[mv.p], mv.t)
    ensures mv.p in Make(m, mv, greeting).peers
    ensures Make(m, mv, greeting).peers[mv.p].loss.tries == m.peers[mv.p].loss.tries + [mv.t]
  {
    RetryTouches(m, mv.p, mv.t, mv.sock, mv.p);
    SendTouches(Retry(m, mv.p, mv.t, mv.sock), mv.p, greeting, mv.sent, mv.p);
  }

  lemma {:induction false} NotVisited(m: Mgr, mvs: seq<Move>, greeting: Bytes, p: PeerId)
    requires p in m.peers && forall i | 0 <= i < |mvs| :: mvs[i].TryRetry? && mvs[i].p != p
    ensures p in MakeAll(m, mvs, greeting).peers && MakeAll(m, mvs, greeting).peers[p] == m.peers[p]
    decreases |mvs|
  {
    if mvs != [] {
      OthersUntouched(m, mvs[0], greeting, p);
      NotVisited(Make(m, mvs[0], greeting), mvs[1..], greeting, p);
    }
  }

  lemma {:induction false} VisitedOnce(m: Mgr, mvs: seq<Move>, greeting: Bytes, k: nat)
    requires k < |mvs| && (forall i | 0 <= i < |mvs| :: mvs[i].TryRetry?)
    requires forall i | 0 <= i < |mvs| && i != k :: mvs[i].p != mvs[k].p
    requires mvs[k].p in m.peers && DueAt(m.peers[mvs[k].p], mvs[k].t)
    ensures var p := mvs[k].p;
            p in MakeAll(m, mvs, greeting).peers
            && MakeAll(m, mvs, greeting).peers[p].loss.tries == m.peers[p].loss.tries + [mvs[k].t]
    decreases |mvs|
  {
    if k == 0 {
      TriedNow(m, mvs[0], greeting);
      NotVisited(Make(m, mvs[0], greeting), mvs[1..], greeting, mvs[0].p);
    } else {
      OthersUntouched(m, mvs[0], greeting, mvs[k].p);
      VisitedOnce(Make(m, mvs[0], greeting), mvs[1..], greeting, k - 1);
    }
  }

  /** One attemptReconnects begins exactly one retry for every peer that is due. */
  lemma EveryDuePeerTried(m: Mgr, mvs: seq<Move>, t: Time, greeting: Bytes, p: PeerId)
    requires Tries(m, mvs, t) && p in m.peers && DueAt(m.peers[p], t)
    ensures p in MakeAll(m, mvs, greeting).peers
    ensures MakeAll(m, mvs, greeting).peers[p].loss.tries == m.peers[p].loss.tries + [t]
  {
    var ps := PeersOf(mvs);
    assert p in ps;
    var k :| 0 <= k < |ps| && ps[k] == p;
    forall i | 0 <= i < |mvs| && i != k ensures mvs[i].p != p {
      assert ps[i] != ps[k];
    }
    VisitedOnce(m, mvs, greeting, k);
  }
}
