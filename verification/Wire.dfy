/** The wire format shared by both programs: a 4-byte little-endian length, then that many bytes.
    `Frame` prints one packet, `Parse` is the reference parser every receiving loop is proved against. */
module Wire {

  type Byte = b: int | 0 <= b < 256
  type Bytes = seq<Byte>

  const LENGTH_SIZE := 4

  function Min(a: nat, b: nat): nat {
    if a < b then a else b
  }

  lemma AppendLast<T>(a: seq<T>, b: seq<T>, x: T)
    ensures a + (b + [x]) == (a + b) + [x]
  {
  }

  lemma LastOff<T>(s: seq<T>)
    requires s != []
    ensures s == s[..|s| - 1] + [s[|s| - 1]]
  {
  }

  /** 256 to the power k: the number of values k bytes can hold. */
  function Pow256(k: nat): (p: nat)
    ensures p > 0
  {
    if k == 0 then 1 else 256 * Pow256(k - 1)
  }

  // ---------- little-endian numbers ----------

  function LeValue(s: Bytes): nat {
    if s == [] then 0 else s[0] + 256 * LeValue(s[1..])
  }

  /** The low k bytes of n; higher ones are cut off, as a cast to a k-byte integer does. */
  function LeBytes(n: nat, k: nat): (s: Bytes)
    ensures |s| == k
  {
    if k == 0 then [] else [n % 256] + LeBytes(n / 256, k - 1)
  }

  lemma {:induction false} LeValueOfBytes(n: nat, k: nat)
    requires n < Pow256(k)
    ensures LeValue(LeBytes(n, k)) == n
  {
    if k > 0 {
      LeValueOfBytes(n / 256, k - 1);
      assert LeBytes(n, k)[1..] == LeBytes(n / 256, k - 1);
    }
  }

  lemma {:induction false} LeBytesOfValue(s: Bytes)
    ensures LeBytes(LeValue(s), |s|) == s
  {
    if s != [] {
      var high := LeValue(s[1..]);
      LowByte(s[0], high);
      LeBytesOfValue(s[1..]);
      assert LeBytes(s[0] + 256 * high, |s|) == [s[0]] + LeBytes(high, |s| - 1);
    }
  }

  lemma LowByte(low: Byte, high: nat)
    ensures (low + 256 * high) % 256 == low && (low + 256 * high) / 256 == high
  {
  }

  /** The shifted form in which both programs read the four length bytes. */
  lemma FourBytes(s: Bytes)
    requires |s| == 4
    ensures LeValue(s) == s[0] as int + s[1] as int * 0x100 + s[2] as int * 0x1_0000 + s[3] as int * 0x100_0000
    ensures LeValue(s) < 0x1_0000_0000
  {
    assert LeValue(s) == s[0] + 256 * LeValue(s[1..]);
    assert LeValue(s[1..]) == s[1] + 256 * LeValue(s[2..]) by {
      assert s[1..][1..] == s[2..];
    }
    assert LeValue(s[2..]) == s[2] + 256 * LeValue(s[3..]) by {
      assert s[2..][1..] == s[3..];
    }
    assert LeValue(s[3..]) == s[3] by {
      assert s[3..][1..] == [];
    }
  }

  /** The shifted form in which both programs write them. */
  lemma LengthBytes(n: nat)
    ensures LeBytes(n, 4) == [n % 0x100, n / 0x100 % 0x100, n / 0x1_0000 % 0x100, n / 0x100_0000 % 0x100]
  {
    assert LeBytes(n, 4) == [n % 256] + LeBytes(n / 256, 3);
    assert LeBytes(n / 256, 3) == [n / 256 % 256] + LeBytes(n / 256 / 256, 2);
    assert LeBytes(n / 256 / 256, 2) == [n / 256 / 256 % 256] + LeBytes(n / 256 / 256 / 256, 1);
    assert LeBytes(n / 256 / 256 / 256, 1) == [n / 256 / 256 / 256 % 256] + LeBytes(n / 256 / 256 / 256 / 256, 0);
    assert n / 256 / 256 == n / 0x1_0000;
    assert n / 0x1_0000 / 256 == n / 0x100_0000;
  }

  // ---------- printer and parser ----------

  function Frame(p: Bytes): Bytes {
    LeBytes(|p|, LENGTH_SIZE) + p
  }

  function FrameAll(ps: seq<Bytes>): Bytes {
    if ps == [] then [] else Frame(ps[0]) + FrameAll(ps[1..])
  }

  function ReadLength(s: Bytes): nat
    requires |s| >= LENGTH_SIZE
  {
    LeValue(s[..LENGTH_SIZE])
  }

  /** The stream starts with a length no packet may have. */
  predicate BadHeader(limit: nat, s: Bytes) {
    |s| >= LENGTH_SIZE && !(0 < ReadLength(s) <= limit)
  }

  /** The stream starts with a complete packet. */
  predicate Whole(limit: nat, s: Bytes) {
    |s| >= LENGTH_SIZE && 0 < ReadLength(s) <= limit && |s| >= LENGTH_SIZE + ReadLength(s)
  }

  function Head(limit: nat, s: Bytes): (p: Bytes)
    requires Whole(limit, s)
    ensures 0 < |p| <= limit
  {
    s[LENGTH_SIZE..LENGTH_SIZE + ReadLength(s)]
  }

  function Tail(limit: nat, s: Bytes): (t: Bytes)
    requires Whole(limit, s)
    ensures |t| == |s| - LENGTH_SIZE - |Head(limit, s)|
  {
    s[LENGTH_SIZE + ReadLength(s)..]
  }

  /** What a receiver holds after reading a stream: the packets, the bytes not consumed, and
      whether those start with a bad length. */
  datatype Parsed = Parsed(packets: seq<Bytes>, rest: Bytes, bad: bool)

  function Parse(limit: nat, s: Bytes): Parsed
    decreases |s|
  {
    if Whole(limit, s) then
      var t := Parse(limit, Tail(limit, s));
      Parsed([Head(limit, s)] + t.packets, t.rest, t.bad)
    else
      Parsed([], s, BadHeader(limit, s))
  }

  ghost predicate Sized(limit: nat, ps: seq<Bytes>) {
    forall i | 0 <= i < |ps| :: 0 < |ps[i]| <= limit
  }

  /** Lengths that fit the 4-byte header. */
  const HEADER_RANGE := 0x1_0000_0000

  lemma FrameFront(limit: nat, p: Bytes, t: Bytes)
    requires 0 < |p| <= limit && |p| < HEADER_RANGE
    ensures Whole(limit, Frame(p) + t)
    ensures Head(limit, Frame(p) + t) == p && Tail(limit, Frame(p) + t) == t
  {
    assert Pow256(4) == HEADER_RANGE by {
      assert Pow256(2) == 0x1_0000;
      assert Pow256(3) == 0x100_0000;
    }
    LeValueOfBytes(|p|, 4);
    assert (Frame(p) + t)[..4] == LeBytes(|p|, 4);
  }

  lemma ParseFrame(limit: nat, p: Bytes, t: Bytes)
    requires 0 < |p| <= limit && |p| < HEADER_RANGE
    ensures Parse(limit, Frame(p) + t) ==
            Parsed([p] + Parse(limit, t).packets, Parse(limit, t).rest, Parse(limit, t).bad)
  {
    FrameFront(limit, p, t);
  }

  /** The parser reads back exactly what the printer wrote. */
  lemma {:induction false} ParseFrameAll(limit: nat, ps: seq<Bytes>)
    requires Sized(limit, ps) && limit < HEADER_RANGE
    ensures Parse(limit, FrameAll(ps)) == Parsed(ps, [], false)
  {
    if ps != [] {
      ParseFrameAll(limit, ps[1..]);
      ParseFrame(limit, ps[0], FrameAll(ps[1..]));
    }
  }

  lemma Assoc(a: Bytes, b: Bytes, c: Bytes)
    ensures a + (b + c) == a + b + c
  {
  }

  lemma FrameAllCons(p: Bytes, ps: seq<Bytes>)
    ensures FrameAll([p] + ps) == Frame(p) + FrameAll(ps)
  {
    assert ([p] + ps)[1..] == ps;
  }

  lemma {:induction false} FrameAllAppend(ps: seq<Bytes>, qs: seq<Bytes>)
    ensures FrameAll(ps + qs) == FrameAll(ps) + FrameAll(qs)
  {
    if ps == [] {
      assert ps + qs == qs;
    } else {
      FrameAllAppend(ps[1..], qs);
      Assoc(Frame(ps[0]), FrameAll(ps[1..]), FrameAll(qs));
      assert ps + qs == [ps[0]] + (ps[1..] + qs);
      FrameAllCons(ps[0], ps[1..] + qs);
    }
  }

  lemma FrameAllSnoc(ps: seq<Bytes>, p: Bytes)
    ensures FrameAll(ps + [p]) == FrameAll(ps) + Frame(p)
  {
    FrameAllAppend(ps, [p]);
    assert FrameAll([p]) == Frame(p) + FrameAll([]);
  }

  /** A complete packet at the front of a stream is the frame of its payload. */
  lemma FrontFrame(limit: nat, s: Bytes)
    requires Whole(limit, s)
    ensures s == Frame(Head(limit, s)) + Tail(limit, s)
  {
    LeBytesOfValue(s[..LENGTH_SIZE]);
  }

  /** The parser loses and invents nothing: its packets, re-framed, and its rest are the stream. */
  lemma {:induction false} ParseStream(limit: nat, s: Bytes)
    ensures s == FrameAll(Parse(limit, s).packets) + Parse(limit, s).rest
    decreases |s|
  {
    if Whole(limit, s) {
      var p, t := Head(limit, s), Tail(limit, s);
      ParseStream(limit, t);
      FrontFrame(limit, s);
      FrameAllCons(p, Parse(limit, t).packets);
      Assoc(Frame(p), FrameAll(Parse(limit, t).packets), Parse(limit, t).rest);
    }
  }

  /** The rest holds no complete packet, and it starts with a bad length exactly when the parser says so. */
  lemma {:induction false} ParseRest(limit: nat, s: Bytes)
    ensures Sized(limit, Parse(limit, s).packets)
    ensures !Whole(limit, Parse(limit, s).rest)
    ensures Parse(limit, s).bad <==> BadHeader(limit, Parse(limit, s).rest)
    decreases |s|
  {
    if Whole(limit, s) {
      ParseRest(limit, Tail(limit, s));
    }
  }

  lemma WholeAppend(limit: nat, a: Bytes, b: Bytes)
    ensures BadHeader(limit, a) ==> BadHeader(limit, a + b)
    ensures Whole(limit, a) ==>
              && Whole(limit, a + b)
              && Head(limit, a + b) == Head(limit, a)
              && Tail(limit, a + b) == Tail(limit, a) + b
  {
    if |a| >= LENGTH_SIZE {
      assert (a + b)[..LENGTH_SIZE] == a[..LENGTH_SIZE];
    }
  }

  /** Reading may be cut anywhere: parsing a, then going on with what is left, is parsing a + b. */
  lemma {:induction false} ParseAppend(limit: nat, a: Bytes, b: Bytes)
    ensures var r := Parse(limit, a);
            var t := Parse(limit, r.rest + b);
            Parse(limit, a + b) == Parsed(r.packets + t.packets, t.rest, t.bad)
    ensures Parse(limit, a).bad ==>
              Parse(limit, a + b) == Parsed(Parse(limit, a).packets, Parse(limit, a).rest + b, true)
    decreases |a|
  {
    WholeAppend(limit, a, b);
    if Whole(limit, a) {
      ParseAppend(limit, Tail(limit, a), b);
    }
  }

  /** The packets found in a prefix of a framed list are a prefix of the list. */
  lemma PrefixPackets(limit: nat, s: Bytes, ps: seq<Bytes>)
    requires Sized(limit, ps) && limit < HEADER_RANGE
    requires s <= FrameAll(ps)
    ensures !Parse(limit, s).bad && Parse(limit, s).packets <= ps
  {
    var t := FrameAll(ps)[|s|..];
    assert s + t == FrameAll(ps);
    ParseFrameAll(limit, ps);
    ParseAppend(limit, s, t);
  }

  lemma FirstLength(s: Bytes, p: Bytes, more: Bytes)
    requires 0 < |p| < HEADER_RANGE && s <= Frame(p) + more && |s| >= LENGTH_SIZE
    ensures ReadLength(s) == |p|
  {
    assert Pow256(4) == HEADER_RANGE by {
      assert Pow256(2) == 0x1_0000;
      assert Pow256(3) == 0x100_0000;
    }
    LeValueOfBytes(|p|, 4);
    assert s[..LENGTH_SIZE] == (Frame(p) + more)[..LENGTH_SIZE] == LeBytes(|p|, 4);
  }

  /** The same for packets of any size: the parser stops at the header of the first that is too long,
      and at nothing else. */
  lemma {:induction false} LongPackets(limit: nat, s: Bytes, ps: seq<Bytes>)
    requires Sized(HEADER_RANGE - 1, ps) && limit < HEADER_RANGE && s <= FrameAll(ps)
    ensures var r := Parse(limit, s);
            && r.packets <= ps
            && (r.bad <==> |r.packets| < |ps| && |ps[|r.packets|]| > limit && |r.rest| >= LENGTH_SIZE)
            && (s == FrameAll(ps) && !r.bad ==> r.packets == ps)
  {
    if ps != [] {
      var p, more := ps[0], FrameAll(ps[1..]);
      if |p| <= limit && |s| >= |Frame(p)| {
        var t := s[|Frame(p)|..];
        assert s == Frame(p) + t;
        PrefixAfter(Frame(p), t, more);
        LongPackets(limit, t, ps[1..]);
        ParseFrame(limit, p, t);
        assert ps == [p] + ps[1..];
      } else if |s| >= LENGTH_SIZE {
        FirstLength(s, p, more);
      }
    }
  }

  /** For every prefix of well-formed frames the parser has exactly the packets that are complete
      and keeps exactly the incomplete remainder. */
  lemma ParsePrefix(limit: nat, s: Bytes, ps: seq<Bytes>)
    requires Sized(limit, ps) && limit < HEADER_RANGE
    requires s <= FrameAll(ps)
    ensures !Parse(limit, s).bad && Parse(limit, s).packets <= ps
    ensures s == FrameAll(Parse(limit, s).packets) + Parse(limit, s).rest
    ensures Partial(Parse(limit, s).rest, ps[|Parse(limit, s).packets|..])
  {
    PrefixPackets(limit, s, ps);
    ParseStream(limit, s);
    ParseRest(limit, s);
    var got := Parse(limit, s).packets;
    SplitFrames(got, ps);
    Remainder(limit, FrameAll(got), Parse(limit, s).rest, s, ps[|got|..]);
  }

  lemma SplitFrames(got: seq<Bytes>, ps: seq<Bytes>)
    requires got <= ps
    ensures FrameAll(ps) == FrameAll(got) + FrameAll(ps[|got|..])
  {
    FrameAllAppend(got, ps[|got|..]);
    assert got + ps[|got|..] == ps;
  }

  /** rest is an incomplete first frame of more. */
  predicate Partial(rest: Bytes, more: seq<Bytes>) {
    if more == [] then rest == [] else rest < Frame(more[0])
  }

  lemma Remainder(limit: nat, front: Bytes, rest: Bytes, s: Bytes, more: seq<Bytes>)
    requires limit < HEADER_RANGE && !Whole(limit, rest)
    requires more != [] ==> 0 < |more[0]| <= limit
    requires s == front + rest && s <= front + FrameAll(more)
    ensures Partial(rest, more)
  {
    PrefixAfter(front, rest, FrameAll(more));
    if more != [] {
      RestIsPartial(limit, rest, more[0], FrameAll(more[1..]));
    }
  }

  lemma PrefixAfter(front: Bytes, a: Bytes, b: Bytes)
    requires front + a <= front + b
    ensures a <= b
  {
    assert a == (front + a)[|front|..];
    assert b == (front + b)[|front|..];
  }

  lemma RestIsPartial(limit: nat, rest: Bytes, p: Bytes, more: Bytes)
    requires 0 < |p| <= limit && limit < HEADER_RANGE
    requires rest <= Frame(p) + more
    requires !Whole(limit, rest)
    ensures rest < Frame(p)
  {
    var f := Frame(p);
    if |rest| >= |f| {
      assert rest == f + rest[|f|..];
      FrameFront(limit, p, rest[|f|..]);
      assert false;
    }
  }
}
