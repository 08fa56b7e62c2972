/** From one game to the other: hook, client, relay, client, hook. */
module EndToEnd {
  import opened Wire
  import opened Packets
  import opened Switch
  import R = Relay
  import opened RelayInvariant
  import opened RelayTheorems
  import opened Lifetimes
  import P = Peers
  import PI = PeersInvariant
  import opened Hook
  import opened HookCalls
  import opened Mailing
  import opened PeerEffects

  // ---------- what is sent and what is heard ----------

  /** The data among them for dst, in order. */
  function DataFor(dst: SteamId, ms: seq<Outgoing>): seq<Bytes> {
    if ms == [] then []
    else
      var n := |ms| - 1;
      if ms[n].dst == dst then DataFor(dst, ms[..n]) + [ms[n].data] else DataFor(dst, ms[..n])
  }

  /** The data among the mails that name src as their sender, in order. */
  function DataFrom(src: SteamId, mails: seq<Mail>): seq<Bytes> {
    if mails == [] then []
    else
      var n := |mails| - 1;
      if mails[n].from == src then DataFrom(src, mails[..n]) + [mails[n].data] else DataFrom(src, mails[..n])
  }

  /** What a hook that reads these packets hears from src. */
  function Heard(src: SteamId, ps: seq<Bytes>): seq<Bytes> {
    DataFrom(src, Unwrapped(ps))
  }

  lemma {:induction false} DataFromGrows(src: SteamId, xs: seq<Mail>, ys: seq<Mail>)
    requires xs <= ys
    ensures DataFrom(src, xs) <= DataFrom(src, ys)
  {
    if xs != ys {
      DataFromGrows(src, xs, ys[..|ys| - 1]);
    }
  }

  lemma {:induction false} UnwrappedGrows(xs: seq<Bytes>, ys: seq<Bytes>)
    requires xs <= ys
    ensures Unwrapped(xs) <= Unwrapped(ys)
  {
    if xs != ys {
      UnwrappedGrows(xs, ys[..|ys| - 1]);
    }
  }

  lemma HeardGrows(src: SteamId, xs: seq<Bytes>, ys: seq<Bytes>)
    requires xs <= ys
    ensures Heard(src, xs) <= Heard(src, ys)
  {
    UnwrappedGrows(xs, ys);
    DataFromGrows(src, Unwrapped(xs), Unwrapped(ys));
  }

  lemma HeardSnoc(src: SteamId, ps: seq<Bytes>, p: Bytes)
    ensures Heard(src, ps + [p]) ==
            if Readable(p) && Unwrap(p).from == src then Heard(src, ps) + [Unwrap(p).data] else Heard(src, ps)
  {
    UnwrappedSnoc(ps, p);
    if Readable(p) {
      assert (Unwrapped(ps) + [Unwrap(p)])[..|Unwrapped(ps)|] == Unwrapped(ps);
    }
  }

  /** What the switch passes on of src's envelopes to the owner of dst is heard as the data for dst. */
  lemma {:induction false} EnvelopesHeard(src: SteamId, dst: SteamId, ms: seq<Outgoing>)
    ensures Heard(src, AddressedTo(dst, Envelopes(src, ms))) == DataFor(dst, ms)
  {
    if ms != [] {
      var n := |ms| - 1;
      var es, e := Envelopes(src, ms[..n]), Envelope(ms[n].dst, src, ms[n].data);
      EnvelopesHeard(src, dst, ms[..n]);
      EnvelopeRoundTrip(ms[n].dst, src, ms[n].data);
      assert (es + [e])[..|es|] == es;
      HeardSnoc(src, AddressedTo(dst, es), PayloadOf(e));
    }
  }

  // ---------- who may be heard ----------

  /** Nobody else's packet to dst names a as its sender. */
  ghost predicate NotForged(h: R.History, src: R.Id, dst: R.Id, a: SteamId) {
    match h
    case Start => true
    case Then(b, Handled(s, p, o)) =>
      && NotForged(b, src, dst, a)
      && (s != src && o == R.Forwarded(dst) && Readable(PayloadOf(p)) ==> Unwrap(PayloadOf(p)).from != a)
    case Then(b, Closed(_, _)) => NotForged(b, src, dst, a)
  }

  /** Then what dst hears from a is what src sent it. */
  lemma {:induction false} OnlyFromSource(h: R.History, src: R.Id, dst: R.Id, a: SteamId)
    requires NotForged(h, src, dst, a)
    ensures Heard(a, ForwardsTo(h, dst)) == Heard(a, PairForwards(h, src, dst))
  {
    if h.Then? {
      OnlyFromSource(h.before, src, dst, a);
      if h.last.Handled? && h.last.outcome == R.Forwarded(dst) {
        HeardSnoc(a, ForwardsTo(h.before, dst), PayloadOf(h.last.packet));
        HeardSnoc(a, PairForwards(h.before, src, dst), PayloadOf(h.last.packet));
      }
    }
  }

  // ---------- the two ends ----------

  lemma {:induction false} EnvelopesSized(a: SteamId, ms: seq<Outgoing>)
    requires Sendable32(ms)
    ensures Sized(HEADER_RANGE - 1, Envelopes(a, ms))
  {
    if ms != [] {
      EnvelopesSized(a, ms[..|ms| - 1]);
      EnvelopeRoundTrip(ms[|ms| - 1].dst, a, ms[|ms| - 1].data);
    }
  }

  lemma SentSized(a: SteamId, ms: seq<Outgoing>)
    requires Sendable32(ms)
    ensures Sized(HEADER_RANGE - 1, [IdBytes(a)] + Envelopes(a, ms))
  {
    EnvelopesSized(a, ms);
  }

  lemma TidyEpoch(r: State, id: SteamId, p: P.PeerId)
    requires Tidy(r, id, p)
    ensures PI.EpochOk(r.m.peers[p])
  {
  }

  lemma SentBytes(c: P.Peer, a: SteamId, ms: seq<Outgoing>, read: Bytes)
    requires PI.EpochOk(c) && !c.epoch.overtook && Sendable32(ms) && c.epoch.sent == [IdBytes(a)] + Envelopes(a, ms)
    requires read <= c.epoch.accepted
    ensures read <= FrameAll([IdBytes(a)] + Envelopes(a, ms))
    ensures c.sendBuf == [] && read == c.epoch.accepted ==> read == FrameAll([IdBytes(a)] + Envelopes(a, ms))
  {
    assert c.sendBuf == [] ==> c.epoch.accepted + c.sendBuf == c.epoch.accepted;
  }

  lemma MailedFromStart(h: State, a: SteamId, es: seq<Event>, p: P.PeerId)
    requires Begins(h, a, p)
    ensures Run(h, a, es).posted == Mailed(h, a, es)
  {
    MailedIsPosted(h, a, es);
    assert [] + Mailed(h, a, es) == Mailed(h, a, es);
  }

  /** Whatever part of its bytes the relay has read, in whatever pieces: the packets are a prefix of the
      id and the envelopes of the calls of the hook of `a`. The relay meets a bad length exactly at the
      header of a packet that is too long for it; if it has read everything and met none, they are all. */
  lemma SenderEnd(h: State, a: SteamId, es: seq<Event>, p: P.PeerId, k: nat, read: Bytes)
    requires Begins(h, a, p) && SoleRun(h, a, es, p, k)
    requires var r := Run(h, a, es); p in r.m.peers && !r.m.peers[p].epoch.overtook
    requires read <= Run(h, a, es).m.peers[p].epoch.accepted
    ensures var r := Run(h, a, es);
            var ps, got := [IdBytes(a)] + Envelopes(a, Mailed(h, a, es)), Parse(R.PACKET_LIMIT, read);
            && got.packets <= ps
            && (got.bad <==> |got.packets| < |ps| && |ps[|got.packets|]| > R.PACKET_LIMIT && |got.rest| >= LENGTH_SIZE)
            && (read == r.m.peers[p].epoch.accepted && r.m.peers[p].sendBuf == [] && !got.bad ==> got.packets == ps)
  {
    var r := Run(h, a, es);
    SoleUser(h, a, es, p, k);
    MailedFromStart(h, a, es, p);
    TidyEpoch(r, a, p);
    SentBytes(r.m.peers[p], a, r.posted, read);
    SentSized(a, r.posted);
    LongPackets(R.PACKET_LIMIT, read, [IdBytes(a)] + Envelopes(a, r.posted));
  }

  /** The client has everything written for it, has popped it all, and the hook's slot is empty. */
  ghost predicate Drained(c: R.Conn, r: State, p: P.PeerId)
    requires p in r.m.peers
  {
    && c.sendBuf == [] && r.m.peers[p].epoch.received == c.written
    && r.m.peers[p].queue == [] && r.slot.Empty?
  }

  lemma ReceivedPart(c: R.Conn, hist: R.History, r: State, e: P.Epoch, a: SteamId)
    requires StreamOk(c, hist) && Conserves(r) && r.taken <= e.parsed && e.received <= c.written
    requires e.garbled <==> Parse(MAX_PACKET_SIZE, e.received).bad
    requires !e.garbled ==> e.parsed == Parse(MAX_PACKET_SIZE, e.received).packets
    ensures DataFrom(a, r.returned) <= Heard(a, ForwardsTo(hist, c.id))
  {
    ReceiverView(c, hist, MAX_PACKET_SIZE, e.received);
    HeardGrows(a, r.taken, ForwardsTo(hist, c.id));
    DataFromGrows(a, r.returned, Unwrapped(r.taken));
  }

  lemma ReceivedAll(c: R.Conn, hist: R.History, r: State, e: P.Epoch, a: SteamId)
    requires StreamOk(c, hist) && Conserves(r) && r.taken == e.parsed && e.received == c.written
    requires c.sendBuf == [] && r.slot.Empty?
    requires e.garbled <==> Parse(MAX_PACKET_SIZE, e.received).bad
    requires !e.garbled ==> e.parsed == Parse(MAX_PACKET_SIZE, e.received).packets
    ensures DataFrom(a, r.returned) == Heard(a, ForwardsTo(hist, c.id))
  {
    assert c.written + c.sendBuf == c.written;
    ParseFrameAll(MAX_PACKET_SIZE, c.forwarded);
    assert r.returned + [] == r.returned;
  }

  lemma ReceivedBytes(c: R.Conn, hist: R.History, r: State, p: P.PeerId, a: SteamId)
    requires StreamOk(c, hist) && p in r.m.peers && PI.EpochOk(r.m.peers[p])
    requires Conserves(r) && r.taken == r.m.peers[p].epoch.popped && r.m.peers[p].epoch.received <= c.written
    ensures DataFrom(a, r.returned) <= Heard(a, ForwardsTo(hist, c.id))
    ensures Drained(c, r, p) ==> DataFrom(a, r.returned) == Heard(a, ForwardsTo(hist, c.id))
  {
    var e := r.m.peers[p].epoch;
    assert r.taken + r.m.peers[p].queue == e.parsed;
    ReceivedPart(c, hist, r, e, a);
    if Drained(c, r, p) {
      assert r.taken + [] == r.taken;
      ReceivedAll(c, hist, r, e, a);
    }
  }

  /** Whatever part of the bytes written for it has reached a client whose hook is its only reader: what
      the hook has returned is a prefix of what the relay forwarded; all of it when nothing is on its way. */
  lemma ReceiverEnd(c: R.Conn, hist: R.History, h: State, b: SteamId, es: seq<Event>, p: P.PeerId, k: nat, a: SteamId)
    requires StreamOk(c, hist)
    requires Begins(h, b, p) && SoleRun(h, b, es, p, k)
    requires var r := Run(h, b, es); p in r.m.peers && r.m.peers[p].epoch.received <= c.written
    ensures var r := Run(h, b, es);
            && DataFrom(a, r.returned) <= Heard(a, ForwardsTo(hist, c.id))
            && (Drained(c, r, p) ==> DataFrom(a, r.returned) == Heard(a, ForwardsTo(hist, c.id)))
  {
    var r := Run(h, b, es);
    SoleUser(h, b, es, p, k);
    TidyEpoch(r, b, p);
    ReceivedBytes(c, hist, r, p, a);
  }

  // ---------- the relay ----------

  lemma PrefixTail(x: Bytes, j: nat, before: seq<Bytes>, since: seq<Bytes>, ys: seq<Bytes>)
    requires before + since <= [x] + ys && |before| == j + 1
    ensures j + |since| <= |ys| && since == ys[j..j + |since|]
  {
    assert since == (before + since)[j + 1..];
    assert ys[j..j + |since|] == ([x] + ys)[j + 1..j + 1 + |since|];
  }

  lemma {:induction false} EnvelopesAppend(a: SteamId, xs: seq<Outgoing>, ys: seq<Outgoing>)
    ensures Envelopes(a, xs + ys) == Envelopes(a, xs) + Envelopes(a, ys)
  {
    if ys == [] {
      assert xs + ys == xs;
    } else {
      var zs, o := ys[..|ys| - 1], ys[|ys| - 1];
      EnvelopesAppend(a, xs, zs);
      EnvelopesSnoc(a, xs + zs, o);
      EnvelopesSnoc(a, zs, o);
      LastOff(ys);
      AppendLast(xs, zs, o);
      AppendLast(Envelopes(a, xs), Envelopes(a, zs), Envelope(o.dst, a, o.data));
    }
  }

  lemma {:induction false} EnvelopeCount(a: SteamId, ms: seq<Outgoing>)
    ensures |Envelopes(a, ms)| == |ms|
  {
    if ms != [] {
      EnvelopeCount(a, ms[..|ms| - 1]);
    }
  }

  lemma TakeDrop(x: seq<Bytes>, y: seq<Bytes>, z: seq<Bytes>)
    ensures (x + y + z)[|x|..|x| + |y|] == y
  {
  }

  lemma Cut(ms: seq<Outgoing>, j: nat, k: nat)
    requires j <= k <= |ms|
    ensures ms == ms[..j] + ms[j..k] + ms[k..]
  {
  }

  lemma EnvelopesBetween(a: SteamId, ms: seq<Outgoing>, j: nat, k: nat)
    requires j <= k <= |ms|
    ensures |Envelopes(a, ms)| == |ms| && Envelopes(a, ms)[j..k] == Envelopes(a, ms[j..k])
  {
    var x, y, z := ms[..j], ms[j..k], ms[k..];
    Cut(ms, j, k);
    EnvelopesAppend(a, x + y, z);
    EnvelopesAppend(a, x, y);
    EnvelopeCount(a, ms);
    EnvelopeCount(a, x);
    EnvelopeCount(a, y);
    TakeDrop(Envelopes(a, x), Envelopes(a, y), Envelopes(a, z));
  }

  /** A's data for B are those of one part and those of the next. */
  lemma {:induction false} DataForSplit(b: SteamId, xs: seq<Outgoing>, ys: seq<Outgoing>)
    ensures DataFor(b, xs + ys) == DataFor(b, xs) + DataFor(b, ys)
  {
    if ys == [] {
      assert xs + ys == xs;
    } else {
      var zs, o := ys[..|ys| - 1], ys[|ys| - 1];
      DataForSplit(b, xs, zs);
      assert (xs + ys)[..|xs + ys| - 1] == xs + zs;
    }
  }

  /** e and l are the moments of h between which src and dst could exchange packets: both had become
      registered, and neither had closed. Of src one packet, its id, and j envelopes had been handled at
      e, and k at l. If they never met j and k are 0. */
  ghost predicate Together(h: R.History, e: R.History, src: R.Id, dst: R.Id, j: nat, k: nat) {
    var l := Parting(h, src, dst);
    if BothIn(l, src, dst) then Meet(l, e, src, dst) && |HandledBy(e, src)| == j + 1 && |HandledBy(l, src)| == k + 1
    else j == 0 && k == 0
  }

  /** The relay's part, of any history: what is forwarded to dst is heard from src as exactly the data for
      b in the envelopes between these moments, whether the two are still open or have closed. */
  lemma RelayPart(h: R.History, src: R.Id, dst: R.Id, a: SteamId, b: SteamId, ms: seq<Outgoing>)
    returns (e: R.History, j: nat, k: nat)
    requires Faithful(h) && Live(h) && RegistersAs(h, dst, b) && NotForged(h, src, dst, a)
    requires HandledBy(h, src) <= [IdBytes(a)] + Envelopes(a, ms)
    ensures Together(h, e, src, dst, j, k) && j <= k <= |ms|
    ensures Heard(a, ForwardsTo(h, dst)) == DataFor(b, ms[j..k])
  {
    var l := Parting(h, src, dst);
    UpToParting(h, src, dst);
    OnlyFromSource(h, src, dst, a);
    if BothIn(l, src, dst) {
      RegistersBefore(l, h, dst, b);
      HandledSplit(l, h, src);
      e, j, k := WhileTogether(l, src, dst, a, b, ms);
    } else {
      e, j, k := l, 0, 0;
      NothingBefore(l, src, dst);
      assert ms[0..0] == [];
    }
  }

  lemma WhileTogether(l: R.History, src: R.Id, dst: R.Id, a: SteamId, b: SteamId, ms: seq<Outgoing>)
    returns (e: R.History, j: nat, k: nat)
    requires Faithful(l) && !Gone(l, src) && !Gone(l, dst) && BothIn(l, src, dst) && RegistersAs(l, dst, b)
    requires HandledBy(l, src) <= [IdBytes(a)] + Envelopes(a, ms)
    ensures Meet(l, e, src, dst) && |HandledBy(e, src)| == j + 1 && |HandledBy(l, src)| == k + 1
    ensures j <= k <= |ms| && Heard(a, PairForwards(l, src, dst)) == DataFor(b, ms[j..k])
  {
    e := Meeting(l, src, dst);
    OwnerWasHandled(e, src);
    var key :| key in Directory(l) && Directory(l)[key] == dst;
    OwnsOnly(l, dst, b, key);
    var since := HandledSince(e, l, src);
    HandledSplit(e, l, src);
    PairSinceMeeting(l, e, src, dst, b);
    j, k := |HandledBy(e, src)| - 1, |HandledBy(e, src)| - 1 + |since|;
    EnvelopeCount(a, ms);
    PrefixTail(IdBytes(a), j, HandledBy(e, src), since, Envelopes(a, ms));
    EnvelopesBetween(a, ms, j, k);
    EnvelopesHeard(a, b, ms[j..k]);
  }

  // ---------- connections open and closed ----------

  /** c is a connection of the relay as it is, and h the history; or as it was at its closing. */
  ghost predicate Was(t: R.State, c: R.Conn, h: R.History) {
    (h == t.history && exists f :: f in t.conns && t.conns[f] == c) || (exists why :: ClosedAt(t.history, h, c, why))
  }

  /** Its buffers are those of the whole history: nothing happens to it after it has closed. */
  lemma WasAlways(script: seq<R.WriteResult>, es: seq<R.Event>, c: R.Conn, h: R.History)
    requires Possibly(script, es) && Was(After(script, es), c, h)
    ensures StreamOk(c, h) && StreamOk(c, After(script, es).history)
    ensures Faithful(After(script, es).history) && Live(After(script, es).history)
  {
    var t := After(script, es);
    QuietRun(script, es);
    LivelyRun(script, es);
    if why :| ClosedAt(t.history, h, c, why) {
      ClosingOk(t.history, h, c, why);
      Quieted(R.Then(h, R.Closed(c, why)), t.history, c.id, c.id);
    }
  }

  lemma HandledIsParsed(c: R.Conn, h: R.History)
    requires StreamOk(c, h)
    ensures c.handled <= Parse(R.PACKET_LIMIT, c.read).packets
  {
    ParsedSoFar(c, h);
  }

  // ---------- the whole way ----------

  /** A run of the relay, a client at rA and a client at rB: its connection cA has read part of what A's
      client sent, and of what is written to cB part has reached B's client. The two connections may have
      closed since. */
  ghost predicate Between(rA: State, a: SteamId, pA: P.PeerId, script: seq<R.WriteResult>, es: seq<R.Event>,
                          cA: R.Conn, oldA: R.History, cB: R.Conn, oldB: R.History,
                          rB: State, b: SteamId, pB: P.PeerId)
  {
    var t := After(script, es);
    && Possibly(script, es) && Was(t, cA, oldA) && Was(t, cB, oldB) && RegistersAs(t.history, cB.id, b)
    && pA in rA.m.peers && !rA.m.peers[pA].epoch.overtook && cA.read <= rA.m.peers[pA].epoch.accepted
    && pB in rB.m.peers && rB.m.peers[pB].epoch.received <= cB.written
    && NotForged(t.history, cA.id, cB.id, a)
  }

  /** ... and the clients are those of two hooks, each alone on its connection to the relay. */
  ghost predicate Linked(hA: State, a: SteamId, esA: seq<Event>, pA: P.PeerId, kA: nat,
                         script: seq<R.WriteResult>, es: seq<R.Event>,
                         cA: R.Conn, oldA: R.History, cB: R.Conn, oldB: R.History,
                         hB: State, b: SteamId, esB: seq<Event>, pB: P.PeerId, kB: nat)
  {
    && Begins(hA, a, pA) && SoleRun(hA, a, esA, pA, kA)
    && Begins(hB, b, pB) && SoleRun(hB, b, esB, pB, kB)
    && Between(Run(hA, a, esA), a, pA, script, es, cA, oldA, cB, oldB, Run(hB, b, esB), b, pB)
  }

  /** What the relay has handled of A's packets. */
  lemma SenderSide(hA: State, a: SteamId, esA: seq<Event>, pA: P.PeerId, kA: nat,
                   script: seq<R.WriteResult>, es: seq<R.Event>,
                   cA: R.Conn, oldA: R.History, cB: R.Conn, oldB: R.History,
                   hB: State, b: SteamId, esB: seq<Event>, pB: P.PeerId, kB: nat)
    requires Linked(hA, a, esA, pA, kA, script, es, cA, oldA, cB, oldB, hB, b, esB, pB, kB)
    ensures HandledBy(After(script, es).history, cA.id) == cA.handled
    ensures cA.handled <= [IdBytes(a)] + Envelopes(a, Mailed(hA, a, esA))
  {
    WasAlways(script, es, cA, oldA);
    HandledIsParsed(cA, oldA);
    SenderEnd(hA, a, esA, pA, kA, cA.read);
  }

  /** What B's hook has heard of what the relay has forwarded. */
  lemma ReceiverSide(hA: State, a: SteamId, esA: seq<Event>, pA: P.PeerId, kA: nat,
                     script: seq<R.WriteResult>, es: seq<R.Event>,
                     cA: R.Conn, oldA: R.History, cB: R.Conn, oldB: R.History,
                     hB: State, b: SteamId, esB: seq<Event>, pB: P.PeerId, kB: nat)
    requires Linked(hA, a, esA, pA, kA, script, es, cA, oldA, cB, oldB, hB, b, esB, pB, kB)
    ensures var all, rB := Heard(a, ForwardsTo(After(script, es).history, cB.id)), Run(hB, b, esB);
            && DataFrom(a, rB.returned) <= all
            && (Drained(cB, rB, pB) ==> DataFrom(a, rB.returned) == all)
  {
    WasAlways(script, es, cB, oldB);
    ReceiverEnd(cB, After(script, es).history, hB, b, esB, pB, kB, a);
  }

  lemma RelaySide(hA: State, a: SteamId, esA: seq<Event>, pA: P.PeerId, kA: nat,
                  script: seq<R.WriteResult>, es: seq<R.Event>,
                  cA: R.Conn, oldA: R.History, cB: R.Conn, oldB: R.History,
                  hB: State, b: SteamId, esB: seq<Event>, pB: P.PeerId, kB: nat)
    returns (e: R.History, j: nat, k: nat)
    requires Linked(hA, a, esA, pA, kA, script, es, cA, oldA, cB, oldB, hB, b, esB, pB, kB)
    ensures var h, ms := After(script, es).history, Mailed(hA, a, esA);
            && Together(h, e, cA.id, cB.id, j, k) && j <= k <= |ms|
            && Heard(a, ForwardsTo(h, cB.id)) == DataFor(b, ms[j..k])
  {
    WasAlways(script, es, cA, oldA);
    SenderSide(hA, a, esA, pA, kA, script, es, cA, oldA, cB, oldB, hB, b, esB, pB, kB);
    e, j, k := RelayPart(After(script, es).history, cA.id, cB.id, a, b, Mailed(hA, a, esA));
  }

  lemma MissingExactly(b: SteamId, ms: seq<Outgoing>, j: nat, k: nat, got: seq<Bytes>)
    requires j <= k <= |ms| && got <= DataFor(b, ms[j..k])
    ensures DataFor(b, ms[..j]) == [] ==> got <= DataFor(b, ms)
    ensures got == DataFor(b, ms[j..k]) ==>
              (got == DataFor(b, ms) <==> DataFor(b, ms[..j]) == [] && DataFor(b, ms[k..]) == [])
  {
    var x, y, z := DataFor(b, ms[..j]), DataFor(b, ms[j..k]), DataFor(b, ms[k..]);
    Cut(ms, j, k);
    DataForSplit(b, ms[..j] + ms[j..k], ms[k..]);
    DataForSplit(b, ms[..j], ms[j..k]);
    assert DataFor(b, ms) == x + y + z;
    if x == [] {
      assert x + y + z == y + z;
    }
    if x == [] && z == [] {
      assert y + z == y;
    }
  }

  /** Delivery: whatever the sockets, the kernels and the other clients do, and whether the two are still
      connected or have left, the data that B's hook has returned as coming from A are a prefix of the data
      for B in the envelopes that the relay handled while A and B were both registered and open; and all of
      those once B's hook has drained what was written for it. Nothing is missing exactly if neither the
      envelopes before nor those after that time were for B. */
  lemma Delivery(hA: State, a: SteamId, esA: seq<Event>, pA: P.PeerId, kA: nat,
                 script: seq<R.WriteResult>, es: seq<R.Event>,
                 cA: R.Conn, oldA: R.History, cB: R.Conn, oldB: R.History,
                 hB: State, b: SteamId, esB: seq<Event>, pB: P.PeerId, kB: nat)
    returns (e: R.History, j: nat, k: nat)
    requires Linked(hA, a, esA, pA, kA, script, es, cA, oldA, cB, oldB, hB, b, esB, pB, kB)
    ensures var ms, rB := Mailed(hA, a, esA), Run(hB, b, esB);
            var got := DataFrom(a, rB.returned);
            && Together(After(script, es).history, e, cA.id, cB.id, j, k) && j <= k <= |ms|
            && got <= DataFor(b, ms[j..k])
            && (Drained(cB, rB, pB) ==>
                  && got == DataFor(b, ms[j..k])
                  && (got == DataFor(b, ms) <==> DataFor(b, ms[..j]) == [] && DataFor(b, ms[k..]) == []))
            && (DataFor(b, ms[..j]) == [] ==> got <= DataFor(b, ms))
            && (LastUp(hA.m.trace) == pA != P.INVALID_PEER && IsUp(Run(hA, a, esA).m, pA) ==> ms == Calls(esA))
  {
    e, j, k := RelaySide(hA, a, esA, pA, kA, script, es, cA, oldA, cB, oldB, hB, b, esB, pB, kB);
    ReceiverSide(hA, a, esA, pA, kA, script, es, cA, oldA, cB, oldB, hB, b, esB, pB, kB);
    if LastUp(hA.m.trace) == pA != P.INVALID_PEER && IsUp(Run(hA, a, esA).m, pA) {
      AllMailed(hA, a, esA, pA, kA);
    }
    MissingExactly(b, Mailed(hA, a, esA), j, k, DataFrom(a, Run(hB, b, esB).returned));
  }

  /** The same for sequences of calls of the two hooks, during which their managers tell no event. */
  lemma DeliveryOfCalls(hA: State, a: SteamId, csA: seq<HookCall>, gA: Bytes, pA: P.PeerId, kA: nat,
                        script: seq<R.WriteResult>, es: seq<R.Event>,
                        cA: R.Conn, oldA: R.History, cB: R.Conn, oldB: R.History,
                        hB: State, b: SteamId, csB: seq<HookCall>, gB: Bytes, pB: P.PeerId, kB: nat)
    returns (e: R.History, j: nat, k: nat)
    requires Begins(hA, a, pA) && Sole(hA.m, pA, kA) && AllFit(hA, a, csA, gA) && Untold(hA, a, csA, gA)
    requires Begins(hB, b, pB) && Sole(hB.m, pB, kB) && AllFit(hB, b, csB, gB) && Untold(hB, b, csB, gB)
    requires Between(CallAll(hA, a, csA, gA), a, pA, script, es, cA, oldA, cB, oldB, CallAll(hB, b, csB, gB), b, pB)
    ensures var ms, rB := Mailed(hA, a, AllEvents(hA, a, csA, gA)), CallAll(hB, b, csB, gB);
            && Together(After(script, es).history, e, cA.id, cB.id, j, k) && j <= k <= |ms|
            && DataFrom(a, rB.returned) <= DataFor(b, ms[j..k])
            && (Drained(cB, rB, pB) ==> DataFrom(a, rB.returned) == DataFor(b, ms[j..k]))
            && (LastUp(hA.m.trace) == pA != P.INVALID_PEER && IsUp(CallAll(hA, a, csA, gA).m, pA) ==>
                  ms == SendsOf(csA))
  {
    CallsExtend(hA, a, csA, gA, pA, kA);
    CallsExtend(hB, b, csB, gB, pB, kB);
    var esA, esB := AllEvents(hA, a, csA, gA), AllEvents(hB, b, csB, gB);
    e, j, k := Delivery(hA, a, esA, pA, kA, script, es, cA, oldA, cB, oldB, hB, b, esB, pB, kB);
    SendsAreCalls(hA, a, csA, gA);
  }

  /** Everything is heard from the start if at some moment both were registered and of A's packets only
      the registration had been handled. */
  lemma DeliveryFromTheStart(hA: State, a: SteamId, esA: seq<Event>, pA: P.PeerId, kA: nat,
                             script: seq<R.WriteResult>, es: seq<R.Event>,
                             cA: R.Conn, oldA: R.History, cB: R.Conn, oldB: R.History,
                             hB: State, b: SteamId, esB: seq<Event>, pB: P.PeerId, kB: nat, e0: R.History)
    requires Linked(hA, a, esA, pA, kA, script, es, cA, oldA, cB, oldB, hB, b, esB, pB, kB)
    requires Earlier(e0, After(script, es).history) && BothIn(e0, cA.id, cB.id) && |HandledBy(e0, cA.id)| == 1
    ensures DataFrom(a, Run(hB, b, esB).returned) <= DataFor(b, Mailed(hA, a, esA))
  {
    var h := After(script, es).history;
    var e, j, k := Delivery(hA, a, esA, pA, kA, script, es, cA, oldA, cB, oldB, hB, b, esB, pB, kB);
    WasAlways(script, es, cA, oldA);
    StartsAtZero(h, e, e0, cA.id, cB.id, j, k);
    assert Mailed(hA, a, esA)[..0] == [];
  }

  lemma StartsAtZero(h: R.History, e: R.History, e0: R.History, src: R.Id, dst: R.Id, j: nat, k: nat)
    requires Faithful(h) && Live(h) && Together(h, e, src, dst, j, k)
    requires Earlier(e0, h) && BothIn(e0, src, dst) && |HandledBy(e0, src)| == 1
    ensures j == 0
  {
    var l := Parting(h, src, dst);
    UpToParting(h, src, dst);
    FaithfulBefore(e0, h);
    LiveBefore(e0, h);
    if Gone(e0, src) {
      GoneUnowned(e0, src);
    } else if Gone(e0, dst) {
      GoneUnowned(e0, dst);
    } else {
      BeforeParting(e0, h, src, dst);
      BothStay(e0, l, src, dst);
      MeetIsFirst(l, e, e0, src, dst);
      HandledSplit(e, e0, src);
    }
  }

  /** The relay has read all of A's bytes, met no bad length, and handled every packet in them. */
  ghost predicate AllHandled(rA: State, pA: P.PeerId, cA: R.Conn)
    requires pA in rA.m.peers
  {
    && rA.m.peers[pA].sendBuf == [] && cA.read == rA.m.peers[pA].epoch.accepted
    && Parse(R.PACKET_LIMIT, cA.read) == Parsed(cA.handled, cA.recvBuf, false)
  }

  lemma EndsWithTheLast(h: R.History, e: R.History, src: R.Id, dst: R.Id, j: nat, k: nat, n: nat)
    requires Faithful(h) && Live(h) && Together(h, e, src, dst, j, k) && |HandledBy(h, src)| == n + 1
    requires !Gone(h, dst) && BothIn(Parting(h, src, dst), src, dst)
    ensures k == n
  {
    UpToParting(h, src, dst);
  }

  lemma UpToTheLast(ms: seq<Outgoing>, j: nat)
    requires j <= |ms|
    ensures ms[j..|ms|] == ms[j..]
  {
  }

  lemma HandledToTheEnd(hA: State, a: SteamId, esA: seq<Event>, pA: P.PeerId, kA: nat,
                        script: seq<R.WriteResult>, es: seq<R.Event>,
                        cA: R.Conn, oldA: R.History, cB: R.Conn, oldB: R.History,
                        hB: State, b: SteamId, esB: seq<Event>, pB: P.PeerId, kB: nat)
    requires Linked(hA, a, esA, pA, kA, script, es, cA, oldA, cB, oldB, hB, b, esB, pB, kB)
    requires AllHandled(Run(hA, a, esA), pA, cA)
    ensures |HandledBy(After(script, es).history, cA.id)| == |Mailed(hA, a, esA)| + 1
  {
    SenderSide(hA, a, esA, pA, kA, script, es, cA, oldA, cB, oldB, hB, b, esB, pB, kB);
    SenderEnd(hA, a, esA, pA, kA, cA.read);
    EnvelopeCount(a, Mailed(hA, a, esA));
  }

  /** All of A's envelopes from the meeting on count if the relay has handled everything from A, and B is
      still connected to it. */
  lemma DeliveryToTheEnd(hA: State, a: SteamId, esA: seq<Event>, pA: P.PeerId, kA: nat,
                         script: seq<R.WriteResult>, es: seq<R.Event>,
                         cA: R.Conn, oldA: R.History, cB: R.Conn, oldB: R.History,
                         hB: State, b: SteamId, esB: seq<Event>, pB: P.PeerId, kB: nat)
    returns (e: R.History, j: nat, k: nat)
    requires Linked(hA, a, esA, pA, kA, script, es, cA, oldA, cB, oldB, hB, b, esB, pB, kB)
    requires AllHandled(Run(hA, a, esA), pA, cA)
    requires var h := After(script, es).history; !Gone(h, cB.id) && BothIn(Parting(h, cA.id, cB.id), cA.id, cB.id)
    ensures var ms, rB := Mailed(hA, a, esA), Run(hB, b, esB);
            && Together(After(script, es).history, e, cA.id, cB.id, j, k) && j <= k == |ms|
            && DataFrom(a, rB.returned) <= DataFor(b, ms[j..])
            && (Drained(cB, rB, pB) ==> DataFrom(a, rB.returned) == DataFor(b, ms[j..]))
  {
    e, j, k := Delivery(hA, a, esA, pA, kA, script, es, cA, oldA, cB, oldB, hB, b, esB, pB, kB);
    WasAlways(script, es, cA, oldA);
    HandledToTheEnd(hA, a, esA, pA, kA, script, es, cA, oldA, cB, oldB, hB, b, esB, pB, kB);
    var ms := Mailed(hA, a, esA);
    EndsWithTheLast(After(script, es).history, e, cA.id, cB.id, j, k, |ms|);
    UpToTheLast(ms, j);
  }

  // ---------- envelopes that are too long ----------

  lemma NoneTooLong(limit: nat, handled: seq<Bytes>, ps: seq<Bytes>)
    requires Sized(limit, handled) && handled <= ps
    ensures forall i | 0 <= i < |ps| && |ps[i]| > limit :: |handled| <= i
  {
    forall i | 0 <= i < |handled| ensures |ps[i]| <= limit {
      assert handled[i] == ps[i];
    }
  }

  /** Nothing limits what the hook accepts, but the relay closes a client whose envelope exceeds its limit,
      as soon as the header is complete; and it handles nothing from that envelope on. */
  lemma TooLongEndsIt(hA: State, a: SteamId, esA: seq<Event>, pA: P.PeerId, kA: nat,
                      script: seq<R.WriteResult>, es: seq<R.Event>,
                      cA: R.Conn, oldA: R.History, cB: R.Conn, oldB: R.History,
                      hB: State, b: SteamId, esB: seq<Event>, pB: P.PeerId, kB: nat)
    requires Linked(hA, a, esA, pA, kA, script, es, cA, oldA, cB, oldB, hB, b, esB, pB, kB)
    ensures var t, ps := After(script, es), [IdBytes(a)] + Envelopes(a, Mailed(hA, a, esA));
            var n := |cA.handled|;
            && (forall i | 0 <= i < |ps| && |ps[i]| > R.PACKET_LIMIT :: n <= i)
            && ((exists f :: f in t.conns && t.conns[f] == cA) && n < |ps| && |ps[n]| > R.PACKET_LIMIT ==>
                  |cA.recvBuf| < LENGTH_SIZE)
            && (ClosedAt(t.history, oldA, cA, R.BadLength) ==> n < |ps| && |ps[n]| > R.PACKET_LIMIT)
  {
    var t, ps := After(script, es), [IdBytes(a)] + Envelopes(a, Mailed(hA, a, esA));
    SenderSide(hA, a, esA, pA, kA, script, es, cA, oldA, cB, oldB, hB, b, esB, pB, kB);
    SenderEnd(hA, a, esA, pA, kA, cA.read);
    WasAlways(script, es, cA, oldA);
    NoneTooLong(R.PACKET_LIMIT, cA.handled, ps);
    if f :| f in t.conns && t.conns[f] == cA {
      Reassembly(script, es, f);
    }
    if ClosedAt(t.history, oldA, cA, R.BadLength) {
      ReassemblyClosed(script, es, oldA, cA, R.BadLength);
    }
  }

  // ---------- under which key B is known ----------

  /** A client whose bytes reach the relay in order registers under its id or not at all. */
  lemma RegistersUnderItsId(h: State, b: SteamId, es: seq<Event>, p: P.PeerId, k: nat,
                            script: seq<R.WriteResult>, events: seq<R.Event>, c: R.Conn, old': R.History)
    requires Begins(h, b, p) && SoleRun(h, b, es, p, k)
    requires var r := Run(h, b, es);
             p in r.m.peers && !r.m.peers[p].epoch.overtook && c.read <= r.m.peers[p].epoch.accepted
    requires Possibly(script, events) && Was(After(script, events), c, old')
    ensures RegistersAs(After(script, events).history, c.id, b)
  {
    WasAlways(script, events, c, old');
    HandledIsParsed(c, old');
    SenderEnd(h, b, es, p, k, c.read);
    IdRoundTrip(b);
    FirstRegisters(After(script, events).history, c.id, IdBytes(b));
  }
}
