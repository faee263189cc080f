/** A client's end of a TCP connection. (server/src/client_connection.cpp) */
module Connections {
  import opened FramingSpec
  import opened FramingLaws

  datatype Errno = None | Interrupted | BadDescriptor | Other

  /** The operating system's side: send() and recv() move any positive part of what is asked for, and may be
      interrupted finitely often, fail, or report the end of the stream. */
  class Socket {
    var pending: seq<Byte>
    var interrupts: nat
    var accepted: seq<Byte>
    ghost var delivered: seq<Byte>
    ghost var broken: bool

    /** `incoming` is everything the peer will send before it closes its end. */
    constructor (incoming: seq<Byte>, interrupts: nat)
      ensures pending == incoming && delivered == [] && accepted == [] && !broken
    {
      pending, this.interrupts := incoming, interrupts;
      delivered, accepted, broken := [], [], false;
    }

    method Send(data: seq<Byte>) returns (sent: int, errno: Errno)
      requires data != []
      modifies this`accepted, this`interrupts
      ensures sent <= |data|
      ensures accepted == old(accepted) + if sent > 0 then data[..sent] else []
      ensures sent < 0 <==> errno != None
      ensures errno == Interrupted ==> interrupts < old(interrupts)
      ensures errno != Interrupted ==> interrupts == old(interrupts)
    {
      sent, errno := -1, Other;
      if {
        case true =>
          sent :| 0 <= sent <= |data|;
          errno := None;
          accepted := accepted + data[..sent];
        case interrupts > 0 =>
          errno, interrupts := Interrupted, interrupts - 1;
        case true =>
          errno := BadDescriptor;
        case true =>
      }
    }

    method Recv(buffer: array<Byte>, start: nat) returns (received: int, errno: Errno)
      requires start < buffer.Length
      modifies buffer, this`pending, this`delivered, this`interrupts, this`broken
      ensures received <= buffer.Length - start
      ensures buffer[..start] == old(buffer[..start])
      ensures received > 0 ==> delivered == old(delivered) + buffer[start..start + received]
      ensures received <= 0 ==> delivered == old(delivered)
      ensures delivered + pending == old(delivered + pending)
      ensures received == 0 ==> pending == []
      ensures received < 0 <==> errno != None
      ensures broken == (old(broken) || (received < 0 && errno != Interrupted))
      ensures errno == Interrupted ==> interrupts < old(interrupts)
      ensures errno != Interrupted ==> interrupts == old(interrupts)
    {
      received, errno := -1, Other;
      if {
        case pending == [] =>
          received, errno := 0, None;
        case pending != [] =>
          received :| 0 < received <= buffer.Length - start && received <= |pending|;
          errno := None;
          forall i | 0 <= i < received { buffer[start + i] := pending[i]; }
          assert buffer[start..start + received] == pending[..received];
          assert pending == pending[..received] + pending[received..];
          delivered := delivered + pending[..received];
          pending := pending[received..];
        case interrupts > 0 =>
          errno, interrupts := Interrupted, interrupts - 1;
        case true =>
          broken := true;
      }
    }
  }

  class ClientConnection {
    const socket: Socket
    var fd: int
    var connected: bool
    var bytesSent: nat
    var bytesReceived: nat

    /** The counters are exactly the numbers of bytes handed to and taken from the socket. */
    ghost predicate Valid()
      reads this, socket
    {
      && bytesSent == |socket.accepted|
      && bytesReceived == |socket.delivered|
    }

    constructor (fd: int, socket: Socket)
      requires socket.accepted == [] && socket.delivered == []
      ensures Valid() && this.socket == socket && this.fd == fd
      ensures connected && bytesSent == 0 && bytesReceived == 0
    {
      this.socket, this.fd, connected := socket, fd, true;
      bytesSent, bytesReceived := 0, 0;
    }

    method Disconnect()
      modifies this`connected, this`fd
      ensures !connected
      ensures fd == if old(connected) && old(fd) >= 0 then -1 else old(fd)
    {
      if connected {
        connected := false;
        if fd >= 0 {
          fd := -1;
        }
      }
    }

    /** All of the data goes out, or a prefix of it does; any failure but a bad descriptor closes the connection. */
    method SendData(data: seq<Byte>) returns (ok: bool)
      requires Valid()
      modifies this`connected, this`fd, this`bytesSent, socket`accepted, socket`interrupts
      ensures Valid()
      ensures old(socket.accepted) <= socket.accepted <= old(socket.accepted) + data
      ensures ok ==> socket.accepted == old(socket.accepted) + data && connected && fd == old(fd)
      ensures ok ==> old(connected) && old(fd) >= 0
      ensures connected ==> old(connected)
    {
      if !connected || fd < 0 {
        return false;
      }
      var total := 0;
      while total < |data|
        invariant 0 <= total <= |data|
        invariant socket.accepted == old(socket.accepted) + data[..total]
        invariant Valid() && connected && fd == old(fd)
        decreases |data| - total, socket.interrupts
      {
        var sent, errno := socket.Send(data[total..]);
        if sent < 0 {
          if errno == Interrupted {
            continue;
          }
          if errno == BadDescriptor {
            return false;
          }
          Disconnect();
          return false;
        }
        if sent == 0 {
          Disconnect();
          return false;
        }
        assert data[..total] + data[total..][..sent] == data[..total + sent];
        total := total + sent;
        bytesSent := bytesSent + sent;
      }
      ok := true;
    }

    /** The buffer is filled with the next bytes of the stream, or the connection is closed. */
    method ReceiveData(buffer: array<Byte>) returns (ok: bool)
      requires Valid()
      modifies this`connected, this`fd, this`bytesReceived, buffer
      modifies socket`pending, socket`delivered, socket`interrupts, socket`broken
      ensures Valid()
      ensures old(socket.delivered) <= socket.delivered
      ensures socket.delivered + socket.pending == old(socket.delivered + socket.pending)
      ensures ok ==> socket.delivered == old(socket.delivered) + buffer[..]
      ensures ok ==> connected && fd == old(fd) && socket.broken == old(socket.broken)
      ensures ok ==> old(connected) && old(fd) >= 0
      ensures !ok && old(connected) && old(fd) >= 0 ==>
        !connected && |socket.delivered| < |old(socket.delivered)| + buffer.Length &&
        (socket.broken || socket.pending == [])
    {
      if !connected || fd < 0 {
        return false;
      }
      var total := 0;
      while total < buffer.Length
        invariant 0 <= total <= buffer.Length
        invariant socket.delivered == old(socket.delivered) + buffer[..total]
        invariant socket.delivered + socket.pending == old(socket.delivered + socket.pending)
        invariant Valid() && connected && fd == old(fd) && socket.broken == old(socket.broken)
        decreases buffer.Length - total, socket.interrupts
      {
        var received, errno := socket.Recv(buffer, total);
        if received < 0 {
          if errno == Interrupted {
            continue;
          }
          Disconnect();
          return false;
        }
        if received == 0 {
          Disconnect();
          return false;
        }
        assert buffer[..total] + buffer[total..total + received] == buffer[..total + received];
        total := total + received;
        bytesReceived := bytesReceived + received;
      }
      assert buffer[..total] == buffer[..];
      ok := true;
    }

    /** On success exactly the frame of the message was sent. */
    method SendMessage(m: Message) returns (ok: bool)
      requires Valid() && Sendable(m)
      modifies this`connected, this`fd, this`bytesSent, socket`accepted, socket`interrupts
      ensures Valid()
      ensures old(socket.accepted) <= socket.accepted <= old(socket.accepted) + Frame(m)
      ensures ok ==> socket.accepted == old(socket.accepted) + Frame(m)
      ensures !old(connected) ==> !ok && socket.accepted == old(socket.accepted)
    {
      if !connected {
        return false;
      }
      ghost var was, head, body := socket.accepted, HeaderBytes(m.header), FrameParts(m);
      hide HeaderBytes, Frame;
      Regroup(was, head, body);
      ok := SendData(HeaderBytes(m.header));
      PrefixOfMore(socket.accepted, was + head, body);
      if !ok {
        return false;
      }
      if m.header.length > 0 && m.payload != [] {
        ok := SendData(m.payload[..m.header.length]);
        if !ok {
          return false;
        }
      }
      ok := true;
    }

    /** On success the message is the one that a reader of the remaining stream gets first. Otherwise the bytes
        that were taken hold no message, and unless the socket failed neither does the remaining stream. */
    method ReceiveMessage() returns (ok: bool, message: Message)
      requires Valid()
      modifies this`connected, this`fd, this`bytesReceived
      modifies socket`pending, socket`delivered, socket`interrupts, socket`broken
      ensures Valid()
      ensures old(socket.delivered) <= socket.delivered
      ensures socket.delivered + socket.pending == old(socket.delivered + socket.pending)
      ensures ok ==> Receive(old(socket.pending)) == Got(message, socket.pending)
      ensures ok ==> connected && fd == old(fd) && socket.broken == old(socket.broken)
      ensures !ok && old(connected) && old(fd) >= 0 ==>
        !connected && NothingIn(socket.delivered[|old(socket.delivered)|..]) &&
        (socket.broken || NothingIn(old(socket.pending)))
    {
      message := Message(Header(0, 0, 0, seq(64, _ => 0)), []);
      if !connected {
        return false, message;
      }
      ghost var before, s := socket.delivered, socket.pending;
      var raw := new Byte[HEADER_SIZE];
      ok := ReceiveData(raw);
      Remaining(before, s, socket.delivered, socket.pending);
      if !ok {
        return false, message;
      }
      ghost var head := raw[..];
      var header := ParseHeader(raw[..]);
      HeaderDecides(head, socket.pending);
      if header.length > MAX_MESSAGE_SIZE {
        Disconnect();
        HeaderDecides(head, []);
        assert socket.delivered[|before|..] == head + [];
        return false, message;
      }
      var payload := new Byte[header.length];
      if header.length > 0 {
        ghost var middle, t := socket.delivered, socket.pending;
        ok := ReceiveData(payload);
        Remaining(middle, t, socket.delivered, socket.pending);
        if !ok {
          ghost var part := socket.delivered[|middle|..];
          HeaderDecides(head, part);
          Regroup(before, head, part);
          assert socket.delivered == before + (head + part);
          return false, message;
        }
        assert t[..header.length] == payload[..] && t[header.length..] == socket.pending;
      }
      message := Message(header, payload[..]);
    }
  }

  /** A stream that starts with no complete, acceptable message. */
  ghost predicate NothingIn(s: seq<Byte>) {
    !Receive(s).Got?
  }

  ghost function FrameParts(m: Message): (body: seq<Byte>)
    requires Sendable(m)
    ensures Frame(m) == HeaderBytes(m.header) + body
    ensures body == if m.header.length > 0 && m.payload != [] then m.payload[..m.header.length] else []
  {
    Frame(m)[HEADER_SIZE..]
  }

  /** What is taken off a stream and what is left of it make up the stream. */
  lemma {:induction false} Remaining(before: seq<Byte>, s: seq<Byte>, after: seq<Byte>, rest: seq<Byte>)
    requires before <= after && after + rest == before + s
    ensures s == after[|before|..] + rest
  {
    assert (before + s)[|before|..] == s;
  }

  lemma {:induction false} HeaderDecides(head: seq<Byte>, rest: seq<Byte>)
    requires |head| == HEADER_SIZE
    ensures var length := ParseHeader(head).length;
      Receive(head + rest) ==
      if length > MAX_MESSAGE_SIZE then TooLarge
      else if |rest| < length then Closed
      else Got(Message(ParseHeader(head), rest[..length]), rest[length..])
  {
    hide ParseHeader;
    var s, length := head + rest, ParseHeader(head).length;
    assert s[..HEADER_SIZE] == head;
    if length <= |rest| {
      assert s[HEADER_SIZE..HEADER_SIZE + length] == rest[..length];
      assert s[HEADER_SIZE + length..] == rest[length..];
    }
  }
  /** The server's loop over one connection. (server/src/server.cpp)
      It delivers the messages of the bytes it took; unless the server stops or the socket fails, these are the
      messages of the whole stream. */
  method HandleClient(client: ClientConnection) returns (received: seq<Message>, stopped: bool)
    requires client.Valid() && client.connected && client.fd >= 0 && !client.socket.broken
    modifies client`connected, client`fd, client`bytesReceived
    modifies client.socket`pending, client.socket`delivered, client.socket`interrupts, client.socket`broken
    ensures client.Valid() && !client.connected
    ensures old(client.socket.delivered) <= client.socket.delivered
    ensures client.socket.delivered + client.socket.pending == old(client.socket.delivered + client.socket.pending)
    ensures received == ReceiveAll(client.socket.delivered[|old(client.socket.delivered)|..])
    ensures !stopped && !client.socket.broken ==> received == ReceiveAll(old(client.socket.pending))
  {
    var socket := client.socket;
    ghost var before, s := socket.delivered, socket.pending;
    received, stopped := [], false;
    assert AllTaken(received, before, s, before, s);
    hide Receive, ReceiveAll, Stream, AllWellFormed, NothingIn, Consumed;
    while true
      invariant client.Valid() && client.connected && client.fd >= 0 && !socket.broken
      invariant before <= socket.delivered && socket.delivered + socket.pending == before + s
      invariant AllTaken(received, before, s, socket.delivered, socket.pending)
      decreases |socket.pending|
    {
      var running: bool := *;
      if !running {
        stopped := true;
        NoneTaken(received, before, [], socket.delivered);
        break;
      }
      ghost var middle, t := socket.delivered, socket.pending;
      var ok, message := client.ReceiveMessage();
      Remaining(middle, t, socket.delivered, socket.pending);
      if !ok {
        ghost var part := socket.delivered[|middle|..];
        NoneTaken(received, before, part, socket.delivered);
        if NothingIn(t) {
          NoMore(received, t);
        }
        break;
      }
      OneMore(received, message, before, s, middle, t, socket.delivered, socket.pending);
      received := received + [message];
    }
    client.Disconnect();
  }

  method SendAll(sender: ClientConnection, messages: seq<Message>) returns (sent: bool)
    requires sender.Valid() && sender.socket.accepted == [] && AllWellFormed(messages)
    modifies sender`connected, sender`fd, sender`bytesSent, sender.socket`accepted, sender.socket`interrupts
    ensures sender.Valid()
    ensures sent ==> sender.socket.accepted == Stream(messages)
  {
    hide Frame, WellFormed;
    sent := true;
    var i := 0;
    while i < |messages| && sent
      invariant 0 <= i <= |messages| && sender.Valid() && AllWellFormed(messages[..i])
      invariant sent ==> sender.socket.accepted == Stream(messages[..i])
    {
      assert messages[..i + 1] == messages[..i] + [messages[i]];
      StreamSnoc(messages[..i], messages[i]);
      sent := sender.SendMessage(messages[i]);
      i := i + 1;
    }
    if sent { assert messages[..i] == messages; }
  }

  /** One side sends a list of messages and then closes; the other side reads until the end. When nothing fails,
      whatever the chunks and interrupts were, it receives exactly the list, and both counters agree. When only
      the reading fails or stops, it has received the first of the messages. */
  method Transmit(sender: ClientConnection, messages: seq<Message>, interrupts: nat, fd: int)
    returns (sent: bool, received: seq<Message>, stopped: bool, receiver: ClientConnection)
    requires sender.Valid() && sender.socket.accepted == [] && AllWellFormed(messages) && fd >= 0
    modifies sender`connected, sender`fd, sender`bytesSent, sender.socket`accepted, sender.socket`interrupts
    ensures sender.Valid() && receiver.Valid() && fresh(receiver) && fresh(receiver.socket)
    ensures sent && !stopped && !receiver.socket.broken ==>
              received == messages && sender.bytesSent == receiver.bytesReceived
    ensures sent ==> received <= messages
    ensures receiver.bytesReceived <= sender.bytesSent
  {
    hide ReceiveAll, Stream, AllWellFormed;
    sent := SendAll(sender, messages);
    var wire := sender.socket.accepted;
    var socket := new Socket(wire, interrupts);
    receiver := new ClientConnection(fd, socket);
    received, stopped := HandleClient(receiver);
    assert socket.delivered[0..] == socket.delivered;
    if sent {
      Transmitted(messages, socket.delivered, socket.pending);
    }
  }

  /** What can be read off the first part of a stream of messages. */
  lemma {:induction false} Transmitted(messages: seq<Message>, taken: seq<Byte>, rest: seq<Byte>)
    requires AllWellFormed(messages) && taken + rest == Stream(messages)
    ensures ReceiveAll(taken) <= messages
    ensures ReceiveAll(taken) == messages ==> |taken| == |Stream(messages)|
    ensures ReceiveAll(Stream(messages)) == messages
  {
    var n := CutStream(messages, |taken|);
    assert Stream(messages)[..|taken|] == taken;
    StreamRoundTrip(messages);
    DeliversPrefix(taken);
  }

  /** The messages read so far are well-formed, and their frames are exactly the bytes taken so far. */
  ghost predicate AllTaken(received: seq<Message>, before: seq<Byte>, s: seq<Byte>,
                           now: seq<Byte>, rest: seq<Byte>) {
    && AllWellFormed(received)
    && now == before + Stream(received)
    && s == Stream(received) + rest
  }

  lemma {:induction false} OneMore(received: seq<Message>, m: Message, before: seq<Byte>, s: seq<Byte>,
                                   middle: seq<Byte>, t: seq<Byte>, now: seq<Byte>, rest: seq<Byte>)
    requires AllTaken(received, before, s, middle, t) && Receive(t) == Got(m, rest)
    requires now + rest == middle + t
    ensures AllTaken(received + [m], before, s, now, rest)
  {
    ReceivedIsFramed(t);
    StreamSnoc(received, m);
    hide Receive, Frame, WellFormed, Stream, AllWellFormed;
    TakenNow(middle, Frame(m), now, rest);
    Regroup(before, Stream(received), Frame(m));
    Regroup(Stream(received), Frame(m), rest);
  }

  lemma {:induction false} PrefixOfMore(x: seq<Byte>, y: seq<Byte>, z: seq<Byte>)
    requires x <= y
    ensures x <= y + z
  {
  }

  lemma {:induction false} Regroup(x: seq<Byte>, y: seq<Byte>, z: seq<Byte>)
    ensures (x + y) + z == x + (y + z)
  {
  }

  lemma {:induction false} TakenNow(middle: seq<Byte>, taken: seq<Byte>, now: seq<Byte>, rest: seq<Byte>)
    requires now + rest == middle + (taken + rest)
    ensures now == middle + taken
  {
    assert middle + (taken + rest) == (middle + taken) + rest;
    assert |now| == |middle + taken|;
    assert now == (now + rest)[..|now|];
    assert middle + taken == ((middle + taken) + rest)[..|now|];
  }

  lemma {:induction false} NoMore(received: seq<Message>, rest: seq<Byte>)
    requires AllWellFormed(received) && NothingIn(rest)
    ensures ReceiveAll(Stream(received) + rest) == received
  {
    ReadsPast(received, rest);
    assert received + [] == received;
  }

  lemma {:induction false} NoneTaken(received: seq<Message>, before: seq<Byte>, rest: seq<Byte>, now: seq<Byte>)
    requires AllWellFormed(received) && NothingIn(rest)
    requires now == before + Stream(received) + rest
    ensures ReceiveAll(now[|before|..]) == received
  {
    NoMore(received, rest);
    Regroup(before, Stream(received), rest);
  }
}
