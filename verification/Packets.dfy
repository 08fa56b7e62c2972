/** The client's receiving end: the byte buffer that cuts a stream into packets, and the queue of
    complete packets. */
module Packets {
  import opened Wire

  const HEADER_SIZE := 4
  const MAX_PACKET_SIZE := 1024 * 1024

  // ---------- specification ----------

  /** What is left in the buffer when no packet can be parsed any more: a bad length empties it. */
  function Kept(buffer: Bytes): Bytes {
    var r := Parse(MAX_PACKET_SIZE, buffer);
    if r.bad then [] else r.rest
  }

  function Extracted(buffer: Bytes): seq<Bytes> {
    Parse(MAX_PACKET_SIZE, buffer).packets
  }

  datatype Fed = Fed(packets: seq<Bytes>, kept: Bytes)

  /** Receiving chunk after chunk: append, then parse as long as possible. */
  function Feed(chunks: seq<Bytes>): Fed {
    if chunks == [] then Fed([], [])
    else
      var n := |chunks| - 1;
      var f := Feed(chunks[..n]);
      var b := f.kept + chunks[n];
      Fed(f.packets + Extracted(b), Kept(b))
  }

  function Concat(chunks: seq<Bytes>): Bytes {
    if chunks == [] then [] else Concat(chunks[..|chunks| - 1]) + chunks[|chunks| - 1]
  }

  // ---------- chunking ----------

  /** A stream without a bad length, or whose bad length is its very end, may be cut anywhere. */
  predicate Steady(s: Bytes) {
    var r := Parse(MAX_PACKET_SIZE, s);
    !r.bad || |r.rest| == HEADER_SIZE
  }

  /** A steady stream has no bad length before its last byte. */
  lemma SteadyPrefix(a: Bytes, b: Bytes)
    requires Steady(a + b) && b != []
    ensures !Parse(MAX_PACKET_SIZE, a).bad
  {
    ParseAppend(MAX_PACKET_SIZE, a, b);
    ParseRest(MAX_PACKET_SIZE, a);
  }

  lemma {:induction false} FeedIsParse(chunks: seq<Bytes>)
    requires Steady(Concat(chunks)) && (forall i | 0 <= i < |chunks| :: chunks[i] != [])
    ensures Feed(chunks) == Fed(Extracted(Concat(chunks)), Kept(Concat(chunks)))
  {
    if chunks != [] {
      var n := |chunks| - 1;
      var a, b := Concat(chunks[..n]), chunks[n];
      SteadyPrefix(a, b);
      FeedIsParse(chunks[..n]);
      ParseAppend(MAX_PACKET_SIZE, a, b);
    }
  }

  /** A stream with a bad length before its end is read differently when its last byte comes alone. */
  lemma UnsteadyDiffers(s: Bytes)
    requires !Steady(s)
    ensures s != [] && s[..|s| - 1] != []
    ensures Concat([s[..|s| - 1], [s[|s| - 1]]]) == s
    ensures Feed([s]).kept == [] && Feed([s[..|s| - 1], [s[|s| - 1]]]).kept == [s[|s| - 1]]
  {
    ParseRest(MAX_PACKET_SIZE, s);
    BadBeforeLast(s);
    FeedTwo(s[..|s| - 1], s[|s| - 1]);
    assert s[..|s| - 1] + [s[|s| - 1]] == s;
    FeedSnoc([], s);
  }

  lemma FeedTwo(a: Bytes, b: Byte)
    requires Parse(MAX_PACKET_SIZE, a).bad
    ensures a != [] && Feed([a, [b]]).kept == [b] && Concat([a, [b]]) == a + [b]
  {
    FeedSnoc([], a);
    FeedSnoc([a], [b]);
    assert [a] + [[b]] == [a, [b]];
    assert [] + [b] == [b];
  }

  lemma FeedSnoc(cs: seq<Bytes>, c: Bytes)
    ensures Feed(cs + [c]) == Fed(Feed(cs).packets + Extracted(Feed(cs).kept + c), Kept(Feed(cs).kept + c))
    ensures Concat(cs + [c]) == Concat(cs) + c
    ensures cs == [] ==> cs + [c] == [c] && Feed(cs).kept + c == c && Concat(cs) + c == c
  {
    assert (cs + [c])[..|cs|] == cs;
  }

  lemma {:induction false} BadBeforeLast(s: Bytes)
    requires Parse(MAX_PACKET_SIZE, s).bad && |Parse(MAX_PACKET_SIZE, s).rest| > HEADER_SIZE
    ensures s != [] && Parse(MAX_PACKET_SIZE, s[..|s| - 1]).bad
    decreases |s|
  {
    var a := s[..|s| - 1];
    if Whole(MAX_PACKET_SIZE, s) {
      var t := Tail(MAX_PACKET_SIZE, s);
      BadBeforeLast(t);
      assert a[..4] == s[..4];
      assert Tail(MAX_PACKET_SIZE, a) == t[..|t| - 1];
    } else {
      assert a[..4] == s[..4];
    }
  }

  /** Chunking does not matter exactly for the steady streams. */
  lemma ChunkingExact(s: Bytes)
    ensures Steady(s) <==>
            forall cs, ds | Cuts(cs, s) && Cuts(ds, s) :: Feed(cs) == Feed(ds)
  {
    if Steady(s) {
      forall cs, ds | Cuts(cs, s) && Cuts(ds, s) ensures Feed(cs) == Feed(ds) {
        FeedIsParse(cs);
        FeedIsParse(ds);
      }
    } else {
      UnsteadyDiffers(s);
      var cs, ds := [s], [s[..|s| - 1], [s[|s| - 1]]];
      FeedSnoc([], s);
      assert Cuts(cs, s) && Cuts(ds, s);
    }
  }

  /** cs is s cut into non-empty pieces. */
  ghost predicate Cuts(cs: seq<Bytes>, s: Bytes) {
    Concat(cs) == s && forall i | 0 <= i < |cs| :: cs[i] != []
  }

  /** Whatever part of a sequence of frames has arrived, in whatever pieces: exactly the complete
      packets have been extracted and exactly the incomplete frame is kept. */
  lemma FeedFrames(ps: seq<Bytes>, cs: seq<Bytes>, got: Bytes)
    requires Sized(MAX_PACKET_SIZE, ps) && got <= FrameAll(ps) && Cuts(cs, got)
    ensures Feed(cs).packets <= ps
    ensures got == FrameAll(Feed(cs).packets) + Feed(cs).kept
    ensures Partial(Feed(cs).kept, ps[|Feed(cs).packets|..])
  {
    ParsePrefix(MAX_PACKET_SIZE, got, ps);
    FeedIsParse(cs);
  }

  // ---------- the classes ----------

  class PacketQueue {
    var queue: seq<Bytes>

    constructor ()
      ensures queue == []
    {
      queue := [];
    }

    method Push(packet: Bytes)
      modifies this
      ensures queue == old(queue) + [packet]
    {
      queue := queue + [packet];
    }

    method Pop() returns (ok: bool, packet: Bytes)
      modifies this
      ensures ok == (old(queue) != [])
      ensures ok ==> [packet] + queue == old(queue)
      ensures !ok ==> queue == old(queue)
    {
      ok, packet := queue != [], [];
      if ok {
        packet, queue := queue[0], queue[1..];
      }
    }

    method Peek() returns (ok: bool, size: nat)
      ensures ok == (queue != []) && (ok ==> size == |queue[0]|)
    {
      ok, size := queue != [], 0;
      if ok {
        size := |queue[0]|;
      }
    }

    method Clear()
      modifies this
      ensures queue == []
    {
      queue := [];
    }
  }

  class ReceiveBuffer {
    var buffer: Bytes

    constructor ()
      ensures buffer == []
    {
      buffer := [];
    }

    method Append(data: Bytes)
      modifies this
      ensures buffer == old(buffer) + data
    {
      buffer := buffer + data;
    }

    /** Cut one packet off the front; a length that no packet may have empties the buffer. */
    method TryParsePacket() returns (ok: bool, packet: Bytes)
      modifies this
      ensures ok == Whole(MAX_PACKET_SIZE, old(buffer))
      ensures ok ==> packet == Head(MAX_PACKET_SIZE, old(buffer)) && buffer == Tail(MAX_PACKET_SIZE, old(buffer))
      ensures !ok ==> buffer == if BadHeader(MAX_PACKET_SIZE, old(buffer)) then [] else old(buffer)
    {
      ok, packet := false, [];
      if |buffer| < HEADER_SIZE {
        return;
      }
      var packetSize := buffer[0] as int;
      packetSize := packetSize + buffer[1] as int * 0x100;
      packetSize := packetSize + buffer[2] as int * 0x1_0000;
      packetSize := packetSize + buffer[3] as int * 0x100_0000;
      FourBytes(buffer[..HEADER_SIZE]);
      if packetSize == 0 || packetSize > MAX_PACKET_SIZE {
        buffer := [];
        return;
      }
      var totalSize := HEADER_SIZE + packetSize;
      if |buffer| < totalSize {
        return;
      }
      packet := buffer[HEADER_SIZE..totalSize];
      buffer := buffer[totalSize..];
      ok := true;
    }

    method Clear()
      modifies this
      ensures buffer == []
    {
      buffer := [];
    }
  }

  /** What processRead does with the bytes of one recv: append, then parse and queue packets. */
  method Absorb(rb: ReceiveBuffer, q: PacketQueue, data: Bytes)
    modifies rb, q
    ensures q.queue == old(q.queue) + Extracted(old(rb.buffer) + data)
    ensures rb.buffer == Kept(old(rb.buffer) + data)
  {
    rb.Append(data);
    ghost var all := rb.buffer;
    var ok, packet := rb.TryParsePacket();
    ghost var rest := all;
    while ok
      invariant ok == Whole(MAX_PACKET_SIZE, rest)
      invariant ok ==> packet == Head(MAX_PACKET_SIZE, rest) && rb.buffer == Tail(MAX_PACKET_SIZE, rest)
      invariant !ok ==> rb.buffer == if BadHeader(MAX_PACKET_SIZE, rest) then [] else rest
      invariant old(q.queue) + Extracted(all) == q.queue + Extracted(rest)
      invariant Kept(all) == Kept(rest)
      decreases |rest|
    {
      q.Push(packet);
      rest := rb.buffer;
      ok, packet := rb.TryParsePacket();
    }
  }
}
