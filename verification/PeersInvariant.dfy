/** What the connection manager keeps over every run of proper calls. */
module PeersInvariant {
  import opened Wire
  import opened Packets
  import opened Backoff
  import opened Peers

  // ---------- the life of a peer ----------

  predicate Blank(c: Peer) {
    c.queue == [] && c.recv == [] && c.sendBuf == [] && c.epoch == Fresh
  }

  predicate Up(c: Peer, marked: bool) {
    c.connected && c.socket.Open? && c.next == 0 && !marked
  }

  predicate Dying(c: Peer, marked: bool) {
    !c.connected && c.socket.Open? && c.next == 0 && marked
  }

  predicate Waits(c: Peer, marked: bool) {
    c.auto && !c.connected && c.socket.Invalid? && c.next != 0 && Blank(c) && !marked
  }

  predicate Phase(c: Peer, marked: bool) {
    && (Up(c, marked) || Dying(c, marked) || Waits(c, marked))
    && c.ip != "" && c.port != 0
  }

  /** due: the peers that removeDisconnected still has to handle. */
  ghost predicate Life(m: Mgr, due: set<PeerId>) {
    forall p | p in m.peers :: Phase(m.peers[p], p in due)
  }

  ghost function Marked(m: Mgr): set<PeerId> {
    set p | p in m.pending
  }

  // ---------- ids and events ----------

  ghost predicate Below(t: Trace, n: PeerId) {
    t.Silent? || (t.peer < n && Below(t.before, n))
  }

  ghost predicate Ids(m: Mgr) {
    && (forall p | p in m.peers :: p < m.nextId)
    && (forall p | p in m.pending :: p < m.nextId)
    && Below(m.trace, m.nextId)
  }

  /** The last event of p was Connected. */
  predicate OnLine(t: Trace, p: PeerId) {
    t.Told? && (if t.peer == p then t.up else OnLine(t.before, p))
  }

  /** For every peer Connected and Disconnected take turns, Connected first. */
  ghost predicate Alternating(t: Trace) {
    t.Told? ==> Alternating(t.before) && t.up == !OnLine(t.before, t.peer)
  }

  /** What the callback was told last about a peer is whether the peer holds a socket. (Shutdown
      forgets the peers without telling.) */
  ghost predicate Heard(m: Mgr) {
    && Alternating(m.trace)
    && (forall p | p in m.peers :: OnLine(m.trace, p) <==> m.peers[p].socket.Open?)
  }

  lemma {:induction false} BelowLine(t: Trace, n: PeerId)
    requires Below(t, n)
    ensures Below(t, n + 1) && !OnLine(t, n)
  {
    if t.Told? {
      BelowLine(t.before, n);
    }
  }

  // ---------- sockets ----------

  /** Every open socket is held by exactly the listener or the peer it was opened for, every socket
      held is open, and no socket was ever closed twice. */
  ghost predicate Sockets(m: Mgr) {
    && !m.misclosed
    && (m.listening.Open? ==> m.listening.handle in m.open && m.open[m.listening.handle] == Listener)
    && (forall p | p in m.peers && m.peers[p].socket.Open? ::
          m.peers[p].socket.handle in m.open && m.open[m.peers[p].socket.handle] == Of(p))
    && (forall h | h in m.open ::
          match m.open[h]
          case Listener => m.listening == Open(h)
          case Of(p) => p in m.peers && m.peers[p].socket == Open(h))
  }

  // ---------- streams ----------

  ghost predicate EpochOk(c: Peer) {
    var e := c.epoch;
    && multiset(e.accepted + c.sendBuf) == multiset(FrameAll(e.sent))
    && (!e.overtook ==> e.accepted + c.sendBuf == FrameAll(e.sent))
    && e.popped + c.queue == e.parsed
    && (e.garbled <==> Parse(MAX_PACKET_SIZE, e.received).bad)
    && (!e.garbled ==> Parse(MAX_PACKET_SIZE, e.received) == Parsed(e.parsed, c.recv, false))
  }

  ghost predicate Streams(m: Mgr) {
    forall p | p in m.peers :: EpochOk(m.peers[p])
  }

  // ---------- retry timing ----------

  /** When the next retry may begin. */
  function DueTime(l: Loss): nat {
    if l.tries == [] then l.at + l.base
    else l.tries[|l.tries| - 1] + Delay(l.base, l.max, |l.tries| - 1)
  }

  /** No retry began before it was due. */
  ghost predicate Spaced(l: Loss)
    decreases |l.tries|
  {
    l.tries == [] ||
    (var before := l.(tries := l.tries[..|l.tries| - 1]);
     Spaced(before) && l.tries[|l.tries| - 1] >= DueTime(before))
  }

  ghost predicate Timed(c: Peer) {
    && Spaced(c.loss)
    && (c.socket.Invalid? ==>
          && c.base == c.loss.base && c.max == c.loss.max
          && c.attempt == Min(|c.loss.tries|, ATTEMPT_MAX)
          && c.next == DueTime(c.loss))
  }

  ghost predicate Timing(m: Mgr) {
    forall p | p in m.peers :: Timed(m.peers[p])
  }

  // ---------- all together ----------

  ghost predicate Sound(m: Mgr, due: set<PeerId>) {
    Ids(m) && Life(m, due) && Heard(m) && Sockets(m) && Streams(m) && Timing(m)
  }

  /** Between operations. */
  ghost predicate Good(m: Mgr) {
    Sound(m, Marked(m)) && (!m.initialized ==> m.peers == map[] && m.listening == Invalid)
  }

  // ---------- changes inside one peer ----------

  /** c' is c with other buffers or settings: same socket, same phase. */
  predicate SamePhase(c: Peer, c': Peer) {
    && c'.socket == c.socket && c'.connected == c.connected && c'.next == c.next
    && c'.ip == c.ip && c'.port == c.port
    && c.socket.Open?
  }

  lemma SocketsPut(m: Mgr, p: PeerId, c: Peer)
    requires Sockets(m) && p in m.peers && c.socket == m.peers[p].socket
    ensures Sockets(Put(m, p, c))
  {
  }

  lemma HeardPut(m: Mgr, p: PeerId, c: Peer)
    requires Heard(m) && p in m.peers && c.socket == m.peers[p].socket
    ensures Heard(Put(m, p, c))
  {
  }

  lemma StreamsPut(m: Mgr, p: PeerId, c: Peer)
    requires Streams(m) && EpochOk(c)
    ensures Streams(Put(m, p, c))
  {
    forall q | q in Put(m, p, c).peers ensures EpochOk(Put(m, p, c).peers[q]) {
      assert q == p || q in m.peers;
    }
  }

  lemma TimingPut(m: Mgr, p: PeerId, c: Peer)
    requires Timing(m) && Timed(c)
    ensures Timing(Put(m, p, c))
  {
    forall q | q in Put(m, p, c).peers ensures Timed(Put(m, p, c).peers[q]) {
      assert q == p || q in m.peers;
    }
  }

  lemma RestPut(m: Mgr, p: PeerId, c: Peer)
    requires Ids(m) && Streams(m) && Timing(m) && p in m.peers && EpochOk(c) && Timed(c)
    ensures Ids(Put(m, p, c)) && Streams(Put(m, p, c)) && Timing(Put(m, p, c))
  {
    assert Streams(Put(m, p, c)) by {
      StreamsPut(m, p, c);
    }
    assert Timing(Put(m, p, c)) by {
      TimingPut(m, p, c);
    }
  }

  lemma LifePut(m: Mgr, due: set<PeerId>, p: PeerId, c: Peer)
    requires Life(m, due) && Phase(c, p in due)
    ensures Life(Put(m, p, c), due)
  {
  }

  lemma KeepsPut(m: Mgr, due: set<PeerId>, p: PeerId, c: Peer)
    requires Sound(m, due) && p in m.peers && c.socket == m.peers[p].socket
    requires EpochOk(c) && Timed(c) && Phase(c, p in due)
    ensures Sound(Put(m, p, c), due)
  {
    SocketsPut(m, p, c);
    HeardPut(m, p, c);
    RestPut(m, p, c);
    LifePut(m, due, p, c);
  }

  lemma HeardMarkDead(m: Mgr, p: PeerId)
    requires Heard(m) && Ids(m) && p in m.peers
    ensures Heard(MarkDead(m, p)) && Ids(MarkDead(m, p))
  {
  }

  lemma SocketsMarkDead(m: Mgr, p: PeerId)
    requires Sockets(m) && p in m.peers
    ensures Sockets(MarkDead(m, p))
  {
  }

  lemma StreamsMarkDead(m: Mgr, p: PeerId)
    requires Streams(m) && p in m.peers
    ensures Streams(MarkDead(m, p))
  {
    forall q | q in MarkDead(m, p).peers ensures EpochOk(MarkDead(m, p).peers[q]) {
      assert EpochOk(m.peers[q]);
    }
  }

  lemma TimingMarkDead(m: Mgr, p: PeerId)
    requires Timing(m) && p in m.peers
    ensures Timing(MarkDead(m, p))
  {
    forall q | q in MarkDead(m, p).peers ensures Timed(MarkDead(m, p).peers[q]) {
      assert Timed(m.peers[q]);
    }
  }

  lemma KeepsMarkDead(m: Mgr, p: PeerId)
    requires Good(m) && p in m.peers && m.peers[p].socket.Open?
    ensures Good(MarkDead(m, p))
  {
    HeardMarkDead(m, p);
    SocketsMarkDead(m, p);
    StreamsMarkDead(m, p);
    TimingMarkDead(m, p);
    LifeMarkDead(m, p);
  }

  lemma LifeMarkDead(m: Mgr, p: PeerId)
    requires Life(m, Marked(m)) && p in m.peers && m.peers[p].socket.Open?
    ensures Life(MarkDead(m, p), Marked(MarkDead(m, p)))
  {
    var m' := MarkDead(m, p);
    assert forall q :: q in Marked(m') <==> q in Marked(m) || q == p;
  }

  // ---------- sending ----------

  lemma SplitBytes(a: Bytes, b: Bytes, f: Bytes, n: nat)
    requires n <= |f|
    ensures multiset((a + f[..n]) + (b + f[n..])) == multiset(a + b) + multiset(f)
    ensures n == 0 || b == [] ==> (a + f[..n]) + (b + f[n..]) == (a + b) + f
  {
    var x, y := f[..n], f[n..];
    assert f == x + y;
    SameBytes(a, b, x, y);
    if n == 0 || b == [] {
      assert (a + x) + (b + y) == (a + b) + (x + y);
    }
  }

  lemma SameBytes(a: Bytes, b: Bytes, x: Bytes, y: Bytes)
    ensures multiset((a + x) + (b + y)) == multiset(a + b) + multiset(x + y)
  {
  }

  lemma EpochSend(c: Peer, data: Bytes, n: nat)
    requires EpochOk(c) && n <= |Frame(data)|
    ensures var f := Frame(data);
            EpochOk(c.(sendBuf := c.sendBuf + f[n..],
                       epoch := c.epoch.(accepted := c.epoch.accepted + f[..n],
                                         sent := c.epoch.sent + [data],
                                         overtook := c.epoch.overtook || (n > 0 && c.sendBuf != []))))
  {
    SplitBytes(c.epoch.accepted, c.sendBuf, Frame(data), n);
    FrameAllSnoc(c.epoch.sent, data);
  }

  lemma EpochQueue(c: Peer, data: Bytes)
    requires EpochOk(c)
    ensures EpochOk(c.(sendBuf := c.sendBuf + Frame(data), epoch := c.epoch.(sent := c.epoch.sent + [data])))
  {
    FrameAllSnoc(c.epoch.sent, data);
    Assoc(c.epoch.accepted, c.sendBuf, Frame(data));
  }

  lemma EpochFlush(c: Peer, n: nat)
    requires EpochOk(c) && n <= |c.sendBuf|
    ensures EpochOk(c.(sendBuf := c.sendBuf[n..], epoch := c.epoch.(accepted := c.epoch.accepted + c.sendBuf[..n])))
  {
    Assoc(c.epoch.accepted, c.sendBuf[..n], c.sendBuf[n..]);
    assert c.sendBuf[..n] + c.sendBuf[n..] == c.sendBuf;
  }

  lemma EpochRecv(c: Peer, b: Bytes)
    requires EpochOk(c)
    ensures var all := c.recv + b;
            EpochOk(c.(queue := c.queue + Extracted(all), recv := Kept(all),
                       epoch := c.epoch.(received := c.epoch.received + b,
                                         garbled := c.epoch.garbled || Parse(MAX_PACKET_SIZE, all).bad,
                                         parsed := c.epoch.parsed + Extracted(all))))
  {
    ParseAppend(MAX_PACKET_SIZE, c.epoch.received, b);
    assert c.epoch.popped + (c.queue + Extracted(c.recv + b)) == c.epoch.parsed + Extracted(c.recv + b);
  }

  lemma GoodPut(m: Mgr, p: PeerId, c: Peer)
    requires Good(m) && p in m.peers && SamePhase(m.peers[p], c) && EpochOk(c) && Timed(c)
    ensures Good(Put(m, p, c))
  {
    assert Phase(m.peers[p], p in Marked(m));
    KeepsPut(m, Marked(m), p, c);
  }

  lemma GoodSend(m: Mgr, p: PeerId, data: Bytes, res: SendResult)
    requires Good(m)
    ensures Good(Send(m, p, data, res))
  {
    if Sendable(m, p, data) {
      var c := m.peers[p];
      match res
      case SendFailed => KeepsMarkDead(m, p);
      case SendBlocked =>
        EpochQueue(c, data);
        GoodPut(m, p, Send(m, p, data, res).peers[p]);
      case Took(n) =>
        EpochSend(c, data, Min(n, |Frame(data)|));
        GoodPut(m, p, Send(m, p, data, res).peers[p]);
    }
  }

  lemma GoodFlushed(m: Mgr, p: PeerId, n: nat)
    requires Good(m) && p in m.peers && m.peers[p].socket.Open? && m.peers[p].sendBuf != []
    ensures Good(Flush(m, p, Took(n)))
  {
    var c, k := m.peers[p], Min(n, |m.peers[p].sendBuf|);
    EpochFlush(c, k);
    GoodPut(m, p, c.(sendBuf := c.sendBuf[k..], epoch := c.epoch.(accepted := c.epoch.accepted + c.sendBuf[..k])));
  }

  lemma GoodFlush(m: Mgr, p: PeerId, res: SendResult)
    requires Good(m)
    ensures Good(Flush(m, p, res))
  {
    var m' := Flush(m, p, res);
    if p in m.peers && m.peers[p].socket.Open? && m.peers[p].sendBuf != [] {
      match res
      case SendFailed =>
        assert m' == MarkDead(m, p);
        KeepsMarkDead(m, p);
      case SendBlocked =>
        assert m' == m;
      case Took(n) => GoodFlushed(m, p, n);
    } else {
      assert m' == m;
    }
  }

  lemma GoodRecv(m: Mgr, p: PeerId, res: RecvResult)
    requires Good(m)
    ensures Good(Recv(m, p, res))
  {
    if p in m.peers && m.peers[p].connected {
      match res
      case RecvBlocked =>
      case Ended => KeepsMarkDead(m, p);
      case Data(b) =>
        EpochRecv(m.peers[p], b);
        GoodPut(m, p, Recv(m, p, res).peers[p]);
    }
  }

  lemma EpochPop(c: Peer)
    requires EpochOk(c) && c.queue != []
    ensures EpochOk(c.(queue := c.queue[1..], epoch := c.epoch.(popped := c.epoch.popped + [c.queue[0]])))
  {
    assert c.epoch.popped + [c.queue[0]] + c.queue[1..] == c.epoch.popped + c.queue;
  }

  lemma GoodPop(m: Mgr, p: PeerId)
    requires Good(m)
    ensures Good(Pop(m, p))
  {
    if p in m.peers && m.peers[p].queue != [] {
      EpochPop(m.peers[p]);
      GoodPut(m, p, Pop(m, p).peers[p]);
    }
  }

  lemma GoodSetAuto(m: Mgr, p: PeerId, enable: bool, base: U32, max: U32)
    requires Good(m) && (p in m.peers ==> m.peers[p].socket.Open?)
    ensures Good(SetAutoReconnect(m, p, enable, base, max))
  {
    if p in m.peers {
      GoodPut(m, p, SetAutoReconnect(m, p, enable, base, max).peers[p]);
    }
  }

  // ---------- losing a peer ----------

  lemma HeardLose(m: Mgr, p: PeerId, t: Time)
    requires Heard(m) && p in m.peers && m.peers[p].socket.Open?
    ensures Heard(Lose(m, p, t))
  {
  }

  lemma SocketsLoseFor(m: Mgr, p: PeerId, t: Time, auto: bool)
    requires Sockets(m) && p in m.peers && m.peers[p].auto == auto
    ensures Sockets(Lose(m, p, t))
  {
  }

  lemma SocketsLose(m: Mgr, p: PeerId, t: Time)
    requires Sockets(m) && p in m.peers
    ensures Sockets(Lose(m, p, t))
  {
    if m.peers[p].auto {
      SocketsLoseFor(m, p, t, true);
    } else {
      SocketsLoseFor(m, p, t, false);
    }
  }

  lemma LifeLose(m: Mgr, due: set<PeerId>, p: PeerId, t: Time)
    requires Life(m, due) && p in m.peers && m.peers[p].socket.Open?
    ensures Life(Lose(m, p, t), due - {p})
  {
  }

  lemma TimingLose(m: Mgr, p: PeerId, t: Time)
    requires Timing(m) && p in m.peers
    ensures Timing(Lose(m, p, t))
  {
  }

  lemma LosePeers(m: Mgr, p: PeerId, t: Time, q: PeerId)
    requires p in m.peers && q in Lose(m, p, t).peers
    ensures q in m.peers && Lose(m, p, t).peers[q] == if q == p then Lost(m.peers[p], t) else m.peers[q]
  {
  }

  lemma StreamsLose(m: Mgr, p: PeerId, t: Time)
    requires Streams(m) && p in m.peers
    ensures Streams(Lose(m, p, t))
  {
    BlankOk(Lost(m.peers[p], t));
    forall q | q in Lose(m, p, t).peers ensures EpochOk(Lose(m, p, t).peers[q]) {
      LosePeers(m, p, t, q);
    }
  }

  lemma BlankOk(c: Peer)
    requires Blank(c)
    ensures EpochOk(c)
  {
  }

  /** p is lost: it waits with empty buffers, or it is gone. */
  lemma KeepsLose(m: Mgr, due: set<PeerId>, p: PeerId, t: Time)
    requires Sound(m, due) && p in m.peers && m.peers[p].socket.Open?
    ensures Sound(Lose(m, p, t), due - {p})
  {
    HeardLose(m, p, t);
    SocketsLose(m, p, t);
    LifeLose(m, due, p, t);
    TimingLose(m, p, t);
    StreamsLose(m, p, t);
  }

  lemma {:induction false} InsertElements(p: PeerId, s: seq<PeerId>)
    ensures forall q :: q in InsertSorted(p, s) <==> q == p || q in s
  {
    if s != [] && p > s[0] {
      InsertElements(p, s[1..]);
      assert s == [s[0]] + s[1..];
    }
  }

  ghost predicate Increasing(s: seq<PeerId>) {
    forall i, j | 0 <= i < j < |s| :: s[i] < s[j]
  }

  lemma {:induction false} InsertIncreasing(p: PeerId, s: seq<PeerId>)
    requires Increasing(s)
    ensures Increasing(InsertSorted(p, s))
  {
    if s != [] && p > s[0] {
      var t := InsertSorted(p, s[1..]);
      InsertIncreasing(p, s[1..]);
      InsertElements(p, s[1..]);
      forall j | 0 <= j < |t| ensures s[0] < t[j] {
        assert t[j] in t;
      }
    }
  }

  /** Sorting and removing duplicates keeps every id, once. */
  lemma {:induction false} SortedDistinctOk(s: seq<PeerId>)
    ensures Increasing(SortedDistinct(s))
    ensures forall q :: q in SortedDistinct(s) <==> q in s
  {
    if s != [] {
      SortedDistinctOk(s[1..]);
      InsertIncreasing(s[0], SortedDistinct(s[1..]));
      InsertElements(s[0], SortedDistinct(s[1..]));
    }
  }

  ghost function Elements(s: seq<PeerId>): set<PeerId> {
    set p | p in s
  }

  lemma {:induction false} RemoveEachFrame(m: Mgr, ps: seq<PeerId>, clock: nat -> Time)
    ensures var r := RemoveEach(m, ps, clock);
            r.initialized == m.initialized && r.listening == m.listening && r.peers.Keys <= m.peers.Keys
  {
    if ps != [] {
      RemoveEachFrame(m, ps[..|ps| - 1], clock);
    }
  }

  lemma KeepsRemoveOne(m: Mgr, due: set<PeerId>, p: PeerId, t: Time)
    requires Sound(m, due) && p in due
    ensures Sound(RemoveOne(m, p, t), due - {p})
  {
    if p in m.peers {
      KeepsLose(m, due, p, t);
    } else {
      LifeForget(m, due, p);
    }
  }

  /** Each marked peer is handled once, although it may be in the list several times. */
  lemma {:induction false} KeepsRemoveEach(m: Mgr, due: set<PeerId>, ps: seq<PeerId>, clock: nat -> Time)
    requires Sound(m, due) && Increasing(ps) && Elements(ps) <= due
    ensures Sound(RemoveEach(m, ps, clock), due - Elements(ps))
  {
    if ps == [] {
      assert due - Elements(ps) == due;
    } else {
      var n := |ps| - 1;
      LastElement(ps);
      KeepsRemoveEach(m, due, ps[..n], clock);
      var rest := due - Elements(ps[..n]);
      KeepsRemoveOne(RemoveEach(m, ps[..n], clock), rest, ps[n], clock(n));
      assert rest - {ps[n]} == due - Elements(ps);
    }
  }

  lemma LastElement(ps: seq<PeerId>)
    requires ps != [] && Increasing(ps)
    ensures Elements(ps) == Elements(ps[..|ps| - 1]) + {ps[|ps| - 1]} && ps[|ps| - 1] !in Elements(ps[..|ps| - 1])
  {
    assert ps == ps[..|ps| - 1] + [ps[|ps| - 1]];
  }

  lemma LifeForget(m: Mgr, due: set<PeerId>, p: PeerId)
    requires Life(m, due) && p !in m.peers
    ensures Life(m, due - {p})
  {
  }

  lemma GoodRemove(m: Mgr, clock: nat -> Time)
    requires Good(m)
    ensures Good(RemoveDisconnected(m, clock))
  {
    var ps := SortedDistinct(m.pending);
    SortedDistinctOk(m.pending);
    assert Elements(ps) == Marked(m);
    KeepsRemoveEach(m, Marked(m), ps, clock);
    RemoveEachFrame(m, ps, clock);
    var r := RemoveEach(m, ps, clock);
    assert Marked(m) - Elements(ps) == {};
    GoodClear(r, RemoveDisconnected(m, clock));
  }

  lemma GoodClear(r: Mgr, m': Mgr)
    requires Sound(r, {}) && m' == r.(pending := [])
    requires !r.initialized ==> r.peers == map[] && r.listening == Invalid
    ensures Good(m')
  {
    assert Marked(m') == {};
    assert Heard(m');
    assert Sockets(m');
  }

  // ---------- new connections ----------

  lemma HeardJoin(m: Mgr, ip: string, port: nat, h: nat)
    requires Heard(m) && Ids(m)
    ensures Heard(Join(m, ip, port, h)) && Ids(Join(m, ip, port, h))
  {
    BelowLine(m.trace, m.nextId);
  }

  lemma SocketsJoin(m: Mgr, ip: string, port: nat, h: nat)
    requires Sockets(m) && m.nextId !in m.peers && h !in m.open
    ensures Sockets(Join(m, ip, port, h))
  {
  }

  lemma GoodJoin(m: Mgr, ip: string, port: nat, h: nat)
    requires Good(m) && m.initialized && h !in m.open && ip != "" && port != 0
    ensures Good(Join(m, ip, port, h))
  {
    var m' := Join(m, ip, port, h);
    var c := NewPeer(h, ip, port);
    assert m.nextId !in m.peers && m.nextId !in Marked(m);
    HeardJoin(m, ip, port, h);
    SocketsJoin(m, ip, port, h);
    LifePut(m, Marked(m), m.nextId, c);
    assert Marked(m') == Marked(m);
    assert Timed(c);
    BlankOk(c);
    assert Streams(m') && Timing(m');
  }

  // ---------- retries ----------

  lemma SocketsRetry(m: Mgr, p: PeerId, t: Time, h: nat)
    requires Sockets(m) && p in m.peers && DueAt(m.peers[p], t) && m.peers[p].socket.Invalid? && h !in m.open
    ensures Sockets(Retry(m, p, t, Open(h)))
  {
  }

  lemma HeardRetry(m: Mgr, p: PeerId, t: Time, h: nat)
    requires Heard(m) && p in m.peers && DueAt(m.peers[p], t) && m.peers[p].socket.Invalid?
    ensures Heard(Retry(m, p, t, Open(h)))
  {
  }

  /** The saturated counter gives the delay of the true retry number. */
  lemma SaturatedDelay(base: U32, max: U32, n: nat)
    ensures Delay(base, max, Min(n, ATTEMPT_MAX)) == Delay(base, max, n)
  {
    if n >= ATTEMPT_MAX {
      SaturationUnseen(base, max, n);
      SaturationUnseen(base, max, ATTEMPT_MAX);
    }
  }

  lemma TimedRetried(c: Peer, t: Time, res: Socket)
    requires Timed(c) && c.socket.Invalid? && t >= c.next
    ensures Timed(Retried(c, t, res))
  {
    var l := c.loss;
    var n := |l.tries|;
    assert (l.tries + [t])[..n] == l.tries;
    SaturatedDelay(c.base, c.max, n);
  }

  lemma RetryPeers(m: Mgr, p: PeerId, t: Time, res: Socket)
    requires p in m.peers && DueAt(m.peers[p], t)
    ensures Retry(m, p, t, res).peers == m.peers[p := Retried(m.peers[p], t, res)]
    ensures Retry(m, p, t, res).pending == m.pending && Retry(m, p, t, res).nextId == m.nextId
    ensures Retry(m, p, t, res).trace == if res.Open? then Told(m.trace, p, true) else m.trace
  {
  }

  lemma LifeRetry(m: Mgr, p: PeerId, t: Time, res: Socket)
    requires Life(m, Marked(m)) && p in m.peers && DueAt(m.peers[p], t)
    ensures Life(Retry(m, p, t, res), Marked(Retry(m, p, t, res)))
  {
    RetryPeers(m, p, t, res);
    assert Marked(Retry(m, p, t, res)) == Marked(m);
    LifePut(m, Marked(m), p, Retried(m.peers[p], t, res));
  }

  lemma RestRetry(m: Mgr, p: PeerId, t: Time, res: Socket)
    requires Ids(m) && Streams(m) && Timing(m) && p in m.peers && DueAt(m.peers[p], t)
    requires m.peers[p].socket.Invalid?
    ensures Ids(Retry(m, p, t, res)) && Streams(Retry(m, p, t, res)) && Timing(Retry(m, p, t, res))
  {
    var c := Retried(m.peers[p], t, res);
    RetryPeers(m, p, t, res);
    TimedRetried(m.peers[p], t, res);
    assert EpochOk(c);
    RestPut(m, p, c);
  }

  lemma GoodRetry(m: Mgr, p: PeerId, t: Time, res: Socket)
    requires Good(m) && (res.Open? ==> res.handle !in m.open)
    ensures Good(Retry(m, p, t, res))
  {
    var m' := Retry(m, p, t, res);
    if p in m.peers && DueAt(m.peers[p], t) {
      assert Waits(m.peers[p], false);
      RestRetry(m, p, t, res);
      LifeRetry(m, p, t, res);
      if res.Open? {
        SocketsRetry(m, p, t, res.handle);
        HeardRetry(m, p, t, res.handle);
      } else {
        SocketsPut(m, p, m'.peers[p]);
        HeardPut(m, p, m'.peers[p]);
      }
    } else {
      GoodClock(m, m');
    }
  }

  lemma GoodClock(m: Mgr, m': Mgr)
    requires Good(m) && m' == m.(now := m'.now)
    ensures Good(m')
  {
    assert Marked(m') == Marked(m);
    assert Heard(m');
    assert Sockets(m');
  }

  // ---------- listening and shutting down ----------

  lemma SocketsStop(m: Mgr)
    requires Sockets(m)
    ensures Sockets(StopListen(m))
  {
  }

  lemma SocketsListen(m: Mgr, res: ListenResult)
    requires Sockets(m) && (res.NoSocket? || res.h !in StopListen(m).open)
    ensures Sockets(Listen(m, res))
  {
    SocketsStop(m);
    var m' := StopListen(m);
    if m.initialized && res.NotBound? {
      assert Listen(m, res).open == m'.open;
    }
  }

  lemma GoodListening(m: Mgr, m': Mgr)
    requires Good(m) && Sockets(m')
    requires m' == m.(listening := m'.listening, open := m'.open, misclosed := m'.misclosed)
    requires !m.initialized ==> m'.listening == Invalid
    ensures Good(m')
  {
    assert Marked(m') == Marked(m);
    assert Heard(m');
  }

  /** After the sockets of ps are closed, the peers not in ps still hold theirs. */
  ghost predicate Closing(m: Mgr, ps: seq<PeerId>) {
    && !m.misclosed
    && m.listening == Invalid
    && (forall p | p in m.peers && p !in ps && m.peers[p].socket.Open? ::
          m.peers[p].socket.handle in m.open && m.open[m.peers[p].socket.handle] == Of(p))
    && (forall h | h in m.open ::
          && m.open[h].Of? && m.open[h].peer in m.peers && m.open[h].peer !in ps
          && m.peers[m.open[h].peer].socket == Open(h))
  }

  lemma {:induction false} ClosesAll(m: Mgr, ps: seq<PeerId>)
    requires Closing(m, []) && (forall p | p in ps :: p in m.peers)
    requires forall i, j | 0 <= i < j < |ps| :: ps[i] != ps[j]
    ensures Closing(CloseAll(m, ps), ps) && CloseAll(m, ps).peers == m.peers
  {
    if ps != [] {
      var n := |ps| - 1;
      ClosesAll(m, ps[..n]);
      assert ps == ps[..n] + [ps[n]];
      ClosesNext(CloseAll(m, ps[..n]), ps[..n], ps[n]);
    }
  }

  lemma ClosesNext(m: Mgr, ps: seq<PeerId>, p: PeerId)
    requires Closing(m, ps) && p in m.peers && p !in ps
    ensures Closing(CloseSocket(m, m.peers[p].socket), ps + [p])
  {
  }

  lemma GoodShutdown(m: Mgr, ps: seq<PeerId>)
    requires Good(m) && Order(m, ps)
    ensures Good(Shutdown(m, ps))
    ensures m.initialized ==> Shutdown(m, ps).open == map[]
  {
    if m.initialized {
      var m1 := StopListen(m);
      SocketsStop(m);
      assert Closing(m1, []);
      ClosesAll(m1, ps);
      var m2 := CloseAll(m1, ps);
      assert m2.open == map[] by {
        assert forall h :: h !in m2.open;
      }
      CloseAllFrame(m1, ps);
      GoodEmpty(m, Shutdown(m, ps));
    }
  }

  lemma {:induction false} CloseAllFrame(m: Mgr, ps: seq<PeerId>)
    ensures CloseAll(m, ps) == m.(open := CloseAll(m, ps).open, misclosed := CloseAll(m, ps).misclosed)
  {
    if ps != [] {
      CloseAllFrame(m, ps[..|ps| - 1]);
    }
  }

  lemma GoodEmpty(m: Mgr, m': Mgr)
    requires Good(m) && m'.peers == map[] && m'.pending == [] && m'.open == map[] && m'.listening == Invalid
    requires m'.trace == m.trace && m'.nextId == m.nextId && !m'.misclosed
    ensures Good(m')
  {
  }

  // ---------- every run ----------

  lemma GoodStart(m: Mgr)
    requires Good(m)
    ensures Good(m.(initialized := true))
  {
    var m' := m.(initialized := true);
    assert Marked(m') == Marked(m);
    assert Heard(m');
    assert Sockets(m');
  }

  lemma GoodLose(m: Mgr, p: PeerId, t: Time)
    requires Good(m) && (p in m.peers ==> m.peers[p].connected || (m.peers[p].socket.Open? && !m.peers[p].auto))
    ensures Good(Disconnect(m, p, t))
  {
    if p in m.peers {
      assert Phase(m.peers[p], p in Marked(m));
      assert Sound(Lose(m, p, t), Marked(m) - {p}) by {
        KeepsLose(m, Marked(m), p, t);
      }
      LifeMarkGone(Lose(m, p, t), Marked(m), p);
      LoseFrame(m, p, t);
    }
  }

  lemma LoseFrame(m: Mgr, p: PeerId, t: Time)
    requires p in m.peers
    ensures Marked(Lose(m, p, t)) == Marked(m)
    ensures Lose(m, p, t).initialized == m.initialized && Lose(m, p, t).listening == m.listening
  {
  }

  /** A peer that is gone, or was not marked, may count as marked or not. */
  lemma LifeMarkGone(m: Mgr, due: set<PeerId>, p: PeerId)
    requires Life(m, due - {p}) && (p in m.peers ==> p !in due)
    ensures Life(m, due)
  {
    assert forall q | q in m.peers :: q in due <==> q in due - {p};
  }

  lemma GoodListen(m: Mgr, res: ListenResult)
    requires Good(m) && (res.NoSocket? || res.h !in StopListen(m).open)
    ensures Good(Listen(m, res)) && Good(StopListen(m))
  {
    SocketsListen(m, res);
    SocketsStop(m);
    GoodListening(m, Listen(m, res));
    GoodListening(m, StopListen(m));
  }

  lemma GoodExcept(m: Mgr, p: PeerId)
    requires Good(m)
    ensures Good(Except(m, p))
  {
    if p in m.peers && m.peers[p].connected {
      KeepsMarkDead(m, p);
    }
  }

  /** A public call. */
  predicate Public(op: Op) {
    op.Initialize? || op.ConnectTo? || op.SetAuto? || op.Close? || op.SendTo? || op.PopFrom? || op.ListenOn?
    || op.Unlisten? || op.ShutDown?
  }

  lemma GoodCall(m: Mgr, op: Op)
    requires Good(m) && Possible(m, op) && Proper(m, op) && Public(op)
    ensures Good(Step(m, op))
  {
    match op
    case Initialize => GoodStart(m);
    case ConnectTo(ip, port, h) => if m.initialized { GoodJoin(m, ip, port, h); }
    case SetAuto(p, enable, base, max) => GoodSetAuto(m, p, enable, base, max);
    case Close(p, t) => GoodLose(m, p, t);
    case SendTo(p, data, sent) => GoodSend(m, p, data, sent);
    case PopFrom(p) => GoodPop(m, p);
    case ListenOn(res) => GoodListen(m, res);
    case Unlisten => GoodListen(m, NoSocket);
    case ShutDown(order) => GoodShutdown(m, order);
  }

  lemma GoodPiece(m: Mgr, op: Op)
    requires Good(m) && Possible(m, op) && !Public(op)
    ensures Good(Step(m, op))
  {
    match op
    case Accept(ip, port, h) => if m.listening.Open? { GoodJoin(m, ip, port, h); }
    case RecvFrom(p, got) => GoodRecv(m, p, got);
    case FlushTo(p, sent) => GoodFlush(m, p, sent);
    case Exception(p) => GoodExcept(m, p);
    case Remove(clock) => GoodRemove(m, clock);
    case RetryOne(p, t, sock) => GoodRetry(m, p, t, sock);
  }

  lemma GoodStep(m: Mgr, op: Op)
    requires Good(m) && Possible(m, op) && Proper(m, op)
    ensures Good(Step(m, op))
  {
    if Public(op) {
      GoodCall(m, op);
    } else {
      GoodPiece(m, op);
    }
  }

  lemma {:induction false} GoodRun(ops: seq<Op>)
    requires ProperRun(Init, ops)
    ensures Good(RunOps(Init, ops))
  {
    if ops != [] {
      GoodRun(ops[..|ops| - 1]);
      GoodStep(RunOps(Init, ops[..|ops| - 1]), ops[|ops| - 1]);
    }
  }
}
