/** Framing is a round trip, and a broken stream never yields a broken message. */
module FramingLaws {
  import opened FramingSpec

  // ---------------------------------------------------------------- integers and headers

  lemma {:induction false} BytesRoundTrip(n: nat, k: nat)
    requires n < Bound(k)
    ensures FromBytes(ToBytes(n, k)) == n
    decreases k
  {
    if k > 0 {
      BytesRoundTrip(n / 256, k - 1);
      assert ToBytes(n, k)[1..] == ToBytes(n / 256, k - 1);
    }
  }

  lemma {:induction false} IntegerRoundTrip(s: seq<Byte>)
    ensures ToBytes(FromBytes(s), |s|) == s
  {
    if s != [] {
      IntegerRoundTrip(s[1..]);
      assert s == [s[0]] + s[1..];
    }
  }

  /** Packing and unpacking a header are inverse to each other. */
  lemma {:induction false} HeaderRoundTrip(h: MessageHeader, s: seq<Byte>)
    requires |s| == HEADER_SIZE
    ensures ParseHeader(HeaderBytes(h)) == h
    ensures HeaderBytes(ParseHeader(s)) == s
  {
    BytesRoundTrip(h.kind, 1);
    BytesRoundTrip(h.length, 4);
    BytesRoundTrip(h.timestamp, 8);
    var r := HeaderBytes(h);
    assert r[..1] == ToBytes(h.kind, 1) && r[1..5] == ToBytes(h.length, 4);
    assert r[5..13] == ToBytes(h.timestamp, 8) && r[13..] == h.token;
    IntegerRoundTrip(s[..1]);
    IntegerRoundTrip(s[1..5]);
    IntegerRoundTrip(s[5..13]);
    assert s == s[..1] + s[1..5] + s[5..13] + s[13..];
  }

  /** What four bytes mean, the low one first. */
  function Word(a: int, b: int, c: int, d: int): int {
    a + 0x100 * b + 0x1_0000 * c + 0x100_0000 * d
  }

  lemma {:induction false} FourMore(s: seq<Byte>)
    requires |s| >= 4
    ensures FromBytes(s) == Word(s[0], s[1], s[2], s[3]) + 0x1_0000_0000 * FromBytes(s[4..])
  {
    var a, b, c := s[1..], s[2..], s[3..];
    assert a[1..] == b && b[1..] == c && c[1..] == s[4..];
    var x, y, z: int := FromBytes(c), FromBytes(b), FromBytes(a);
    var s0: int, s1: int, s2: int, s3: int := s[0], s[1], s[2], s[3];
    assert x == s3 + 256 * FromBytes(s[4..]) && y == s2 + 256 * x && z == s1 + 256 * y;
  }

  /** Where the fields lie among the 77 bytes: kind, length and timestamp with the low bytes first, then the token. */
  lemma {:induction false} HeaderLayout(h: MessageHeader)
    ensures var r := HeaderBytes(h);
            && r[0] == h.kind && h.length == Word(r[1], r[2], r[3], r[4])
            && h.timestamp == Word(r[5], r[6], r[7], r[8]) + 0x1_0000_0000 * Word(r[9], r[10], r[11], r[12])
            && r[13..] == h.token
  {
    var r := HeaderBytes(h);
    HeaderRoundTrip(h, r);
    hide HeaderBytes;
    assert r[..1] == [r[0]] && [r[0]][1..] == [];
    FourMore(r[1..5]);
    FourMore(r[5..13]);
    FourMore(r[5..13][4..]);
    assert r[1..5][4..] == [] && r[5..13][4..][4..] == [];
  }

  // ---------------------------------------------------------------- one message

  lemma {:induction false} ReceiveFrame(m: Message, rest: seq<Byte>)
    requires WellFormed(m)
    ensures Receive(Frame(m) + rest) == Got(m, rest)
  {
    var s := Frame(m) + rest;
    assert s[..HEADER_SIZE] == HeaderBytes(m.header);
    HeaderRoundTrip(m.header, s[..HEADER_SIZE]);
    var end := HEADER_SIZE + m.header.length;
    assert s[HEADER_SIZE..end] == m.payload && s[end..] == rest;
  }

  /** A message survives the trip, whatever follows it, exactly when its header tells the truth about its
      payload and the payload is not too long. */
  lemma {:induction false} SurvivesIffWellFormed(m: Message)
    requires Sendable(m)
    ensures WellFormed(m) <==> forall rest: seq<Byte> :: Receive(Frame(m) + rest) == Got(m, rest)
    ensures WellFormed(m) <==> m.header.length == |m.payload| && |m.payload| <= 4096
  {
    if WellFormed(m) {
      forall rest: seq<Byte> ensures Receive(Frame(m) + rest) == Got(m, rest) {
        ReceiveFrame(m, rest);
      }
    } else {
      var s := Frame(m) + [];
      assert s[..HEADER_SIZE] == HeaderBytes(m.header);
      HeaderRoundTrip(m.header, s[..HEADER_SIZE]);
      assert Receive(s) != Got(m, []);
    }
  }

  /** Whatever is delivered is well-formed, and its frame is what stood at the head of the stream. */
  lemma {:induction false} ReceivedIsFramed(s: seq<Byte>)
    requires Receive(s).Got?
    ensures WellFormed(Receive(s).message)
    ensures s == Frame(Receive(s).message) + Receive(s).rest
  {
    hide ParseHeader, HeaderBytes, Bound;
    var m, rest := Receive(s).message, Receive(s).rest;
    var end := HEADER_SIZE + m.header.length;
    HeaderRoundTrip(m.header, s[..HEADER_SIZE]);
    assert Frame(m) == s[..HEADER_SIZE] + m.payload;
    assert s[..end] == s[..HEADER_SIZE] + s[HEADER_SIZE..end];
    assert s == s[..end] + s[end..];
  }

  // ---------------------------------------------------------------- whole streams

  ghost predicate AllWellFormed(messages: seq<Message>) {
    forall m <- messages :: WellFormed(m)
  }

  lemma {:induction false} ReceiveStep(m: Message, rest: seq<Byte>)
    requires WellFormed(m)
    ensures ReceiveAll(Frame(m) + rest) == [m] + ReceiveAll(rest)
    ensures Consumed(Frame(m) + rest) == |Frame(m)| + Consumed(rest)
  {
    ReceiveFrame(m, rest);
  }

  /** Sent messages followed by anything: the reader delivers them and then goes on with the remainder. */
  lemma {:induction false} ReadsPast(messages: seq<Message>, rest: seq<Byte>)
    requires AllWellFormed(messages)
    ensures ReceiveAll(Stream(messages) + rest) == messages + ReceiveAll(rest)
    ensures Consumed(Stream(messages) + rest) == |Stream(messages)| + Consumed(rest)
  {
    hide Receive, ReceiveAll, Consumed, Frame, WellFormed;
    if messages == [] {
      assert Stream(messages) + rest == rest;
      assert messages + ReceiveAll(rest) == ReceiveAll(rest);
    } else {
      var tail := messages[1..];
      ReadsPast(tail, rest);
      ReceiveStep(messages[0], Stream(tail) + rest);
      assert Stream(messages) + rest == Frame(messages[0]) + (Stream(tail) + rest);
      assert messages + ReceiveAll(rest) == [messages[0]] + (tail + ReceiveAll(rest));
    }
  }

  /** The reader delivers exactly what was sent and takes exactly the bytes that were sent. */
  lemma {:induction false} StreamRoundTrip(messages: seq<Message>)
    requires AllWellFormed(messages)
    ensures ReceiveAll(Stream(messages)) == messages
    ensures Consumed(Stream(messages)) == |Stream(messages)|
  {
    ReadsPast(messages, []);
    assert Stream(messages) + [] == Stream(messages);
    assert messages + [] == messages;
  }

  lemma {:induction false} StreamCons(m: Message, tail: seq<Message>)
    requires WellFormed(m) && AllWellFormed(tail)
    ensures AllWellFormed([m] + tail)
    ensures Stream([m] + tail) == Frame(m) + Stream(tail)
  {
    assert ([m] + tail)[1..] == tail;
  }

  lemma {:induction false} StreamSnoc(messages: seq<Message>, m: Message)
    requires AllWellFormed(messages) && WellFormed(m)
    ensures AllWellFormed(messages + [m])
    ensures Stream(messages + [m]) == Stream(messages) + Frame(m)
  {
    hide WellFormed, Frame;
    if messages == [] {
      assert messages + [m] == [m] + [];
      StreamCons(m, []);
    } else {
      var first, tail := messages[0], messages[1..];
      StreamSnoc(tail, m);
      StreamCons(first, tail + [m]);
      assert messages + [m] == [first] + (tail + [m]);
    }
  }

  /** A stream cut after any k bytes delivers exactly the messages that lie wholly within those bytes;
      nothing is left untaken. */
  lemma {:induction false} CutStream(messages: seq<Message>, k: nat) returns (n: nat)
    requires AllWellFormed(messages) && k <= |Stream(messages)|
    ensures n <= |messages| && |Stream(messages[..n])| <= k
    ensures n < |messages| ==> k < |Stream(messages[..n + 1])|
    ensures ReceiveAll(Stream(messages)[..k]) == messages[..n]
    ensures Consumed(Stream(messages)[..k]) == k
    decreases messages, 0
  {
    assert Receive([]) == Closed;
    hide Receive, Frame, WellFormed;
    if messages == [] {
      n := 0;
    } else {
      var m, tail := messages[0], messages[1..];
      assert messages == [m] + tail;
      StreamCons(m, tail);
      if k < |Frame(m)| {
        n := 0;
        CutFrame(m, k);
        assert Stream(messages)[..k] == Frame(m)[..k];
        StreamCons(m, []);
        assert messages[..1] == [m] + [];
      } else {
        n := CutLater(m, tail, k);
      }
    }
  }

  lemma {:induction false} CutLater(m: Message, tail: seq<Message>, k: nat) returns (n: nat)
    requires WellFormed(m) && AllWellFormed(tail)
    requires Stream([m] + tail) == Frame(m) + Stream(tail)
    requires |Frame(m)| <= k <= |Stream([m] + tail)|
    ensures n <= |tail| + 1 && |Stream(([m] + tail)[..n])| <= k
    ensures n < |tail| + 1 ==> k < |Stream(([m] + tail)[..n + 1])|
    ensures ReceiveAll(Stream([m] + tail)[..k]) == ([m] + tail)[..n]
    ensures Consumed(Stream([m] + tail)[..k]) == k
    decreases tail
  {
    hide Receive, ReceiveAll, Consumed, Frame, WellFormed, Stream;
    var j := CutStream(tail, k - |Frame(m)|);
    n := j + 1;
    ReceiveStep(m, Stream(tail)[..k - |Frame(m)|]);
    assert Stream([m] + tail)[..k] == Frame(m) + Stream(tail)[..k - |Frame(m)|];
    assert ([m] + tail)[..n] == [m] + tail[..j];
    StreamCons(m, tail[..j]);
    if j < |tail| {
      assert ([m] + tail)[..n + 1] == [m] + tail[..j + 1];
      StreamCons(m, tail[..j + 1]);
    }
  }

  /** A proper prefix of a frame reads as a closed connection. */
  lemma {:induction false} CutFrame(m: Message, k: nat)
    requires WellFormed(m) && k < |Frame(m)|
    ensures Receive(Frame(m)[..k]) == Closed
  {
    var s := Frame(m)[..k];
    if k >= HEADER_SIZE {
      assert s[..HEADER_SIZE] == HeaderBytes(m.header);
      HeaderRoundTrip(m.header, s[..HEADER_SIZE]);
    }
  }

  /** An oversized message ends the conversation: what came before it is delivered, nothing after it is,
      and its payload is never taken. */
  lemma {:induction false} OversizeEnds(before: seq<Message>, big: Message, after: seq<Byte>)
    requires AllWellFormed(before) && Sendable(big) && big.header.length > MAX_MESSAGE_SIZE
    ensures ReceiveAll(Stream(before) + Frame(big) + after) == before
    ensures Consumed(Stream(before) + Frame(big) + after) == |Stream(before)| + HEADER_SIZE
  {
    var rest := Frame(big) + after;
    OversizeRefused(big, after);
    hide Receive, Frame, Stream, Bound;
    ReadsPast(before, rest);
    assert Stream(before) + Frame(big) + after == Stream(before) + rest;
    assert before + [] == before;
  }

  lemma {:induction false} OversizeRefused(big: Message, after: seq<Byte>)
    requires Sendable(big) && big.header.length > MAX_MESSAGE_SIZE
    ensures Receive(Frame(big) + after) == TooLarge
  {
    hide ParseHeader, Bound;
    var s := Frame(big) + after;
    assert s[..HEADER_SIZE] == HeaderBytes(big.header);
    HeaderRoundTrip(big.header, s[..HEADER_SIZE]);
    hide HeaderBytes;
  }

  /** Any byte stream at all: the frames of the delivered messages are a prefix of it, so no byte is
      delivered twice, out of order or without having been sent. */
  lemma {:induction false} DeliversPrefix(s: seq<Byte>)
    ensures AllWellFormed(ReceiveAll(s))
    ensures Stream(ReceiveAll(s)) <= s
    ensures |Stream(ReceiveAll(s))| <= Consumed(s) <= |s|
    decreases |s|
  {
    if Receive(s).Got? {
      ReceivedIsFramed(s);
      var m, rest := Receive(s).message, Receive(s).rest;
      DeliversPrefix(rest);
      assert ReceiveAll(s)[1..] == ReceiveAll(rest);
      assert Frame(m) + Stream(ReceiveAll(rest)) <= Frame(m) + rest;
    }
  }
}
