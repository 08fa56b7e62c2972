/** The relay seen as a switch of whole packets: what a history of handled packets and closed
    connections says about who is registered and who must get what. No fds, buffers or partial
    writes appear here; this is the reference the server's states are compared with. */
module Switch {
  import opened Wire
  import opened Relay

  /** Who owns each key: the last to register under it that has not closed. */
  function Directory(h: History): map<Key, Id> {
    match h
    case Start => map[]
    case Then(b, Handled(src, p, Registered)) => Directory(b)[KeyOf(p) := src]
    case Then(b, Closed(c, _)) => Without(Directory(b), c.id)
    case Then(b, _) => Directory(b)
  }

  function Without(d: map<Key, Id>, id: Id): map<Key, Id> {
    map k | k in d && d[k] != id :: d[k]
  }

  /** What must become of packet p from src when d is the directory. */
  function Judge(d: map<Key, Id>, src: Id, p: Bytes): Outcome {
    if src !in d.Values then
      if |p| == MARK_SIZE && KeyOf(p) !in d then Registered else Rejected
    else if |p| < MARK_SIZE then TooSmall
    else
      var k := KeyOf(p[..MARK_SIZE]);
      if k !in d then NoTarget
      else if |p| == MARK_SIZE then Empty
      else Forwarded(d[k])
  }

  /** Every packet was judged by the directory of its moment. */
  ghost predicate Faithful(h: History) {
    match h
    case Start => true
    case Then(b, Handled(src, p, o)) => Faithful(b) && o == Judge(Directory(b), src, p)
    case Then(b, Closed(_, _)) => Faithful(b)
  }

  /** The packets handled for one connection, in order. */
  function HandledBy(h: History, id: Id): seq<Bytes> {
    match h
    case Start => []
    case Then(b, Handled(src, p, _)) => if src == id then HandledBy(b, id) + [p] else HandledBy(b, id)
    case Then(b, Closed(_, _)) => HandledBy(b, id)
  }

  function PayloadOf(p: Bytes): Bytes {
    if |p| < MARK_SIZE then [] else p[MARK_SIZE..]
  }

  /** The payloads forwarded to one connection, in order. */
  function ForwardsTo(h: History, dst: Id): seq<Bytes> {
    match h
    case Start => []
    case Then(b, Handled(_, p, o)) =>
      if o == Forwarded(dst) then ForwardsTo(b, dst) + [PayloadOf(p)] else ForwardsTo(b, dst)
    case Then(b, Closed(_, _)) => ForwardsTo(b, dst)
  }

  /** Those of them that came from src. */
  function PairForwards(h: History, src: Id, dst: Id): seq<Bytes> {
    match h
    case Start => []
    case Then(b, Handled(a, p, o)) =>
      if a == src && o == Forwarded(dst) then PairForwards(b, src, dst) + [PayloadOf(p)] else PairForwards(b, src, dst)
    case Then(b, Closed(_, _)) => PairForwards(b, src, dst)
  }

  predicate Gone(h: History, id: Id) {
    match h
    case Start => false
    case Then(b, Closed(c, _)) => c.id == id || Gone(b, id)
    case Then(b, Handled(_, _, _)) => Gone(b, id)
  }

  // ---------- first-in first-out ----------

  /** p carries a payload for the owner of key k. */
  predicate For(p: Bytes, k: Key) {
    |p| > MARK_SIZE && KeyOf(p[..MARK_SIZE]) == k
  }

  /** src's packets that named a key dst owned when they were handled, src itself being registered. */
  function Deliverable(h: History, src: Id, dst: Id): seq<Bytes> {
    match h
    case Start => []
    case Then(b, Closed(_, _)) => Deliverable(b, src, dst)
    case Then(b, Handled(a, p, _)) =>
      var d := Directory(b);
      if a == src && src in d.Values && exists k :: k in d && d[k] == dst && For(p, k)
      then Deliverable(b, src, dst) + [PayloadOf(p)]
      else Deliverable(b, src, dst)
  }

  /** Nothing deliverable is lost, duplicated or reordered, and nothing else is sent. */
  lemma {:induction false} PairFifo(h: History, src: Id, dst: Id)
    requires Faithful(h)
    ensures PairForwards(h, src, dst) == Deliverable(h, src, dst)
  {
    if h.Then? {
      PairFifo(h.before, src, dst);
    }
  }

  lemma {:induction false} DirectoryInjective(h: History, k: Key, l: Key)
    requires Faithful(h)
    requires k in Directory(h) && l in Directory(h) && Directory(h)[k] == Directory(h)[l]
    ensures k == l
  {
    var d := Directory(h.before);
    if k in d && l in d && d[k] == d[l] {
      DirectoryInjective(h.before, k, l);
    } else if k in d {
      assert d[k] in d.Values;
    } else if l in d {
      assert d[l] in d.Values;
    }
  }

  ghost predicate Earlier(e: History, h: History) {
    e == h || (h.Then? && Earlier(e, h.before))
  }

  /** A registration holds until its connection closes: nobody can take the key over. */
  lemma {:induction false} RegistrationHolds(e: History, h: History, k: Key, id: Id)
    requires Earlier(e, h) && Faithful(h) && !Gone(h, id)
    requires k in Directory(e) && Directory(e)[k] == id
    ensures k in Directory(h) && Directory(h)[k] == id
  {
    if e != h {
      RegistrationHolds(e, h.before, k, id);
    }
  }

  /** The packets of a connection handled after e. */
  function HandledSince(e: History, h: History, id: Id): seq<Bytes> {
    if h == e || h.Start? then []
    else
      var before := HandledSince(e, h.before, id);
      if h.last.Handled? && h.last.src == id then before + [h.last.packet] else before
  }

  lemma {:induction false} HandledSplit(e: History, h: History, id: Id)
    requires Earlier(e, h)
    ensures HandledBy(h, id) == HandledBy(e, id) + HandledSince(e, h, id)
  {
    if e != h {
      HandledSplit(e, h.before, id);
    }
  }

  /** The payloads of those packets in ps that name key k. */
  function AddressedTo(k: Key, ps: seq<Bytes>): seq<Bytes> {
    if ps == [] then []
    else
      var n := |ps| - 1;
      if For(ps[n], k) then AddressedTo(k, ps[..n]) + [PayloadOf(ps[n])] else AddressedTo(k, ps[..n])
  }

  /** From the moment both ends are registered, dst gets exactly what src addresses to it. */
  lemma {:induction false} PairDelivery(e: History, h: History, src: Id, j: Key, dst: Id, k: Key)
    requires Earlier(e, h) && Faithful(h) && !Gone(h, src) && !Gone(h, dst)
    requires j in Directory(e) && Directory(e)[j] == src
    requires k in Directory(e) && Directory(e)[k] == dst
    ensures PairForwards(h, src, dst) == PairForwards(e, src, dst) + AddressedTo(k, HandledSince(e, h, src))
  {
    if e != h {
      var b := h.before;
      PairDelivery(e, b, src, j, dst, k);
      if h.last.Handled? && h.last.src == src {
        var p := h.last.packet;
        RegistrationHolds(e, b, j, src);
        RegistrationHolds(e, b, k, dst);
        var d := Directory(b);
        assert d[j] in d.Values;
        if h.last.outcome == Forwarded(dst) {
          DirectoryInjective(b, KeyOf(p[..MARK_SIZE]), k);
        }
        var since := HandledSince(e, b, src);
        assert (since + [p])[..|since|] == since;
      }
    }
  }

  // ---------- meeting ----------

  ghost predicate BothIn(h: History, src: Id, dst: Id) {
    src in Directory(h).Values && dst in Directory(h).Values
  }

  /** e is the moment of h at which src and dst had both become registered. */
  ghost predicate Meet(h: History, e: History, src: Id, dst: Id) {
    Earlier(e, h) && e.Then? && BothIn(e, src, dst) && !BothIn(e.before, src, dst)
  }

  lemma StillIn(h: History, id: Id)
    requires h.Then? && Faithful(h) && !Gone(h, id) && id in Directory(h.before).Values
    ensures id in Directory(h).Values
  {
    var k :| k in Directory(h.before) && Directory(h.before)[k] == id;
    RegistrationHolds(h.before, h, k, id);
  }

  /** Nothing passes between two connections before both are registered. */
  lemma {:induction false} NothingBefore(h: History, src: Id, dst: Id)
    requires Faithful(h) && !Gone(h, src) && !Gone(h, dst) && !BothIn(h, src, dst)
    ensures PairForwards(h, src, dst) == []
  {
    if h.Then? {
      if BothIn(h.before, src, dst) {
        StillIn(h, src);
        StillIn(h, dst);
      }
      NothingBefore(h.before, src, dst);
    }
  }

  /** Two connections that are open and registered have met, and until then nothing had passed. */
  lemma {:induction false} Meeting(h: History, src: Id, dst: Id) returns (e: History)
    requires Faithful(h) && !Gone(h, src) && !Gone(h, dst) && BothIn(h, src, dst)
    ensures Meet(h, e, src, dst) && PairForwards(e, src, dst) == []
  {
    if BothIn(h.before, src, dst) {
      e := Meeting(h.before, src, dst);
    } else {
      e := h;
      NothingBefore(h.before, src, dst);
    }
  }

  lemma {:induction false} FaithfulBefore(e: History, h: History)
    requires Earlier(e, h) && Faithful(h)
    ensures Faithful(e)
  {
    if e != h {
      FaithfulBefore(e, h.before);
    }
  }

  /** They meet only once: any moment with both registered comes after. */
  lemma {:induction false} MeetIsFirst(h: History, e: History, e0: History, src: Id, dst: Id)
    requires Faithful(h) && !Gone(h, src) && !Gone(h, dst)
    requires Meet(h, e, src, dst) && Earlier(e0, h) && BothIn(e0, src, dst)
    ensures Earlier(e, e0)
  {
    if e0 == h {
    } else if e == h {
      BothStay(e0, h.before, src, dst);
    } else {
      MeetIsFirst(h.before, e, e0, src, dst);
    }
  }

  lemma {:induction false} BothStay(e: History, h: History, src: Id, dst: Id)
    requires Faithful(h) && !Gone(h, src) && !Gone(h, dst) && Earlier(e, h) && BothIn(e, src, dst)
    ensures BothIn(h, src, dst)
  {
    if e != h {
      BothStay(e, h.before, src, dst);
      StillIn(h, src);
      StillIn(h, dst);
    }
  }

  /** From the moment they meet dst gets exactly what src addresses to its key, and before it nothing. */
  lemma PairSinceMeeting(h: History, e: History, src: Id, dst: Id, k: Key)
    requires Faithful(h) && !Gone(h, src) && !Gone(h, dst) && Meet(h, e, src, dst)
    requires PairForwards(e, src, dst) == [] && k in Directory(h) && Directory(h)[k] == dst
    ensures PairForwards(h, src, dst) == AddressedTo(k, HandledSince(e, h, src))
  {
    var j :| j in Directory(e) && Directory(e)[j] == src;
    var l :| l in Directory(e) && Directory(e)[l] == dst;
    RegistrationHolds(e, h, l, dst);
    DirectoryInjective(h, k, l);
    PairDelivery(e, h, src, j, dst, l);
    assert [] + AddressedTo(k, HandledSince(e, h, src)) == AddressedTo(k, HandledSince(e, h, src));
  }

  /** A registered connection has had a packet handled. */
  lemma {:induction false} OwnerWasHandled(h: History, id: Id)
    requires id in Directory(h).Values
    ensures HandledBy(h, id) != []
  {
    if id in Directory(h.before).Values {
      OwnerWasHandled(h.before, id);
    }
  }

  // ---------- counting ----------

  datatype Kind = Registering | Rejecting | Small | Untargeted | Dangle | EmptyPayload | Forwarding

  function KindOf(o: Outcome): Kind {
    match o
    case Registered => Registering
    case Rejected => Rejecting
    case TooSmall => Small
    case NoTarget => Untargeted
    case Dangling => Dangle
    case Empty => EmptyPayload
    case Forwarded(_) => Forwarding
  }

  function Packets(h: History): nat {
    match h
    case Start => 0
    case Then(b, e) => Packets(b) + if e.Handled? then 1 else 0
  }

  function Count(h: History, kind: Kind): nat {
    match h
    case Start => 0
    case Then(b, e) => Count(b, kind) + if e.Handled? && KindOf(e.outcome) == kind then 1 else 0
  }

  lemma {:induction false} PacketsSplit(h: History)
    requires Faithful(h)
    ensures Packets(h) == Count(h, Forwarding) + Count(h, Registering) + Count(h, Rejecting)
                          + Count(h, Untargeted) + Count(h, Small) + Count(h, EmptyPayload)
    ensures Count(h, Dangle) == 0
  {
    if h.Then? {
      PacketsSplit(h.before);
    }
  }

  /** Bytes that came in as packets and went nowhere. */
  function Absorbed(h: History): nat {
    match h
    case Start => 0
    case Then(b, e) =>
      Absorbed(b) + if e.Handled? && !e.outcome.Forwarded? then LENGTH_SIZE + |e.packet| else 0
  }

  /** Bytes still in the two buffers of a connection when it closed. */
  function Discarded(h: History): nat {
    match h
    case Start => 0
    case Then(b, e) => Discarded(b) + if e.Closed? then e.conn.Pending() else 0
  }
}
