/** The wire format of one message and what a reader of the byte stream makes of it.
    (common/include/protocol.h, server/src/client_connection.cpp) */
module FramingSpec {

  const MAX_MESSAGE_SIZE := 4096
  const HEADER_SIZE := 77

  type Byte = b: int | 0 <= b < 256

  /** The number of values that k bytes can hold. */
  function Bound(k: nat): (r: nat)
    ensures r > 0
  {
    if k == 0 then 1 else 256 * Bound(k - 1)
  }

  datatype HeaderFields = Header(kind: nat, length: nat, timestamp: nat, token: seq<Byte>)

  /** The widths of the C struct, which has no padding: uint8_t, uint32_t, uint64_t, char[64]. */
  type MessageHeader = h: HeaderFields |
    h.kind < Bound(1) && h.length < Bound(4) && h.timestamp < Bound(8) && |h.token| == 64
    witness Header(0, 0, 0, seq(64, _ => 0))

  datatype Message = Message(header: MessageHeader, payload: seq<Byte>)

  // ---------------------------------------------------------------- little-endian integers

  function ToBytes(n: nat, k: nat): (r: seq<Byte>)
    requires n < Bound(k)
    ensures |r| == k
    decreases k
  {
    if k == 0 then [] else [n % 256] + ToBytes(n / 256, k - 1)
  }

  function FromBytes(s: seq<Byte>): (r: nat)
    ensures r < Bound(|s|)
  {
    if s == [] then 0 else s[0] + 256 * FromBytes(s[1..])
  }

  // ---------------------------------------------------------------- headers

  function HeaderBytes(h: MessageHeader): (r: seq<Byte>)
    ensures |r| == HEADER_SIZE
  {
    ToBytes(h.kind, 1) + ToBytes(h.length, 4) + ToBytes(h.timestamp, 8) + h.token
  }

  function ParseHeader(s: seq<Byte>): MessageHeader
    requires |s| == HEADER_SIZE
  {
    Header(FromBytes(s[..1]), FromBytes(s[1..5]), FromBytes(s[5..13]), s[13..])
  }

  // ---------------------------------------------------------------- messages

  /** The sender copies header.length bytes out of the payload, so a non-empty payload must hold that many. */
  predicate Sendable(m: Message) {
    m.payload == [] || m.header.length <= |m.payload|
  }

  /** The bytes that sending a message puts on the wire. */
  function Frame(m: Message): seq<Byte>
    requires Sendable(m)
  {
    HeaderBytes(m.header) + if m.header.length > 0 && m.payload != [] then m.payload[..m.header.length] else []
  }

  predicate WellFormed(m: Message): (r: bool)
    ensures r ==> Sendable(m)
  {
    m.header.length == |m.payload| <= MAX_MESSAGE_SIZE
  }

  function Stream(messages: seq<Message>): seq<Byte>
    requires forall m <- messages :: Sendable(m)
  {
    if messages == [] then [] else Frame(messages[0]) + Stream(messages[1..])
  }

  datatype Reception =
    | Got(message: Message, rest: seq<Byte>)
    | TooLarge
    | Closed

  /** Reading one message from the bytes that arrive before the connection ends. */
  function Receive(s: seq<Byte>): Reception {
    if |s| < HEADER_SIZE then Closed
    else
      var header := ParseHeader(s[..HEADER_SIZE]);
      var end := HEADER_SIZE + header.length;
      if header.length > MAX_MESSAGE_SIZE then TooLarge
      else if |s| < end then Closed
      else Got(Message(header, s[HEADER_SIZE..end]), s[end..])
  }

  /** Reading until the connection ends. */
  function ReceiveAll(s: seq<Byte>): seq<Message>
    decreases |s|
  {
    match Receive(s)
    case Got(m, rest) => [m] + ReceiveAll(rest)
    case _ => []
  }

  /** How many bytes are taken off the wire while doing so. */
  function Consumed(s: seq<Byte>): nat
    decreases |s|
  {
    match Receive(s)
    case Got(m, rest) => |s| - |rest| + Consumed(rest)
    case TooLarge => HEADER_SIZE
    case Closed => |s|
  }
}
