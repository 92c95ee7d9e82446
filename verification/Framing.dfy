/**
 Control messages on the TCP stream: a 4-byte big-endian length and a body. Both
 ends reassemble them from whatever pieces `recv` returns.
 */
module Framing {
  import opened Common
  import opened Bytes

  const MAX_MESSAGE: nat := 65_536

  predicate Sendable(body: seq<byte>) {
    |body| <= MAX_MESSAGE
  }

  function Frame(body: seq<byte>): seq<byte> {
    BigEndian(|body|, 4) + body
  }

  function Frames(bodies: seq<seq<byte>>): seq<byte> {
    if bodies == [] then [] else Frame(bodies[0]) + Frames(bodies[1..])
  }

  /** The message at the start of a stream, if it is complete and not too long. */
  function First(stream: seq<byte>): (body: Option<seq<byte>>)
    ensures body.Some? ==> 4 + |body.value| <= |stream|
  {
    if |stream| < 4 then None
    else
      var length := Number(stream[..4]);
      if length > MAX_MESSAGE || |stream| < 4 + length then None else Some(stream[4..4 + length])
  }

  /** The complete messages at the start of a stream, up to the first that is incomplete or too long. */
  function Parse(stream: seq<byte>): seq<seq<byte>>
    decreases |stream|
  {
    match First(stream)
    case None => []
    case Some(body) => [body] + Parse(stream[4 + |body|..])
  }

  lemma Parts(header: seq<byte>, body: seq<byte>, rest: seq<byte>)
    requires |header| == 4
    ensures var stream := header + body + rest;
            && stream[..4] == header && stream[4..] == body + rest
            && stream[4..4 + |body|] == body && stream[4 + |body|..] == rest
  {
  }

  lemma FirstOfFrame(body: seq<byte>, rest: seq<byte>)
    requires Sendable(body)
    ensures First(Frame(body) + rest) == Some(body) && (Frame(body) + rest)[4 + |body|..] == rest
  {
    Ranges();
    NumberOfBigEndian(|body|, 4);
    Parts(BigEndian(|body|, 4), body, rest);
  }

  /** Parsing inverts framing, for any list of messages. */
  lemma {:induction false} ParseInvertsFrames(bodies: seq<seq<byte>>, rest: seq<byte>)
    requires forall i :: 0 <= i < |bodies| ==> Sendable(bodies[i])
    ensures Parse(Frames(bodies) + rest) == bodies + Parse(rest)
  {
    if bodies == [] {
      assert Frames(bodies) + rest == rest;
    } else {
      var body, tail := bodies[0], Frames(bodies[1..]) + rest;
      FirstOfFrame(body, tail);
      ParseInvertsFrames(bodies[1..], rest);
      Regroup(Frame(body), Frames(bodies[1..]), rest);
      Regroup([body], bodies[1..], Parse(rest));
      assert [body] + bodies[1..] == bodies;
    }
  }

  /** A stream cut inside a frame delivers exactly the messages before the cut. */
  lemma TruncatedStream(bodies: seq<seq<byte>>, next: seq<byte>, cut: nat)
    requires forall i :: 0 <= i < |bodies| ==> Sendable(bodies[i])
    requires Sendable(next) && cut < |Frame(next)|
    ensures Parse(Frames(bodies) + Frame(next)[..cut]) == bodies
  {
    ParseInvertsFrames(bodies, Frame(next)[..cut]);
    CutFrameHasNoFirst(next, cut);
  }

  lemma CutFrameHasNoFirst(next: seq<byte>, cut: nat)
    requires Sendable(next) && cut < |Frame(next)|
    ensures First(Frame(next)[..cut]) == None
  {
    Ranges();
    NumberOfBigEndian(|next|, 4);
    if cut >= 4 {
      assert Frame(next)[..cut][..4] == BigEndian(|next|, 4);
    }
  }

  /** A message of more than 65536 bytes ends the delivery, complete or not; one of 65536 bytes does not. */
  lemma TooLongEndsDelivery(body: seq<byte>, rest: seq<byte>)
    requires |body| < 0x1_0000_0000
    ensures |body| > 65536 ==> Parse(Frame(body) + rest) == []
    ensures |body| <= 65536 ==> Parse(Frame(body) + rest) == [body] + Parse(rest)
  {
    Ranges();
    NumberOfBigEndian(|body|, 4);
    Parts(BigEndian(|body|, 4), body, rest);
  }

  // ---- The socket ---------------------------------------------------------------------

  datatype Received = Data(bytes: seq<byte>) | Retry | Closed

  function Joined(chunks: seq<seq<byte>>): seq<byte> {
    if chunks == [] then [] else chunks[0] + Joined(chunks[1..])
  }

  /** The bytes that arrive before the first call times out. */
  function Prompt(chunks: seq<seq<byte>>): seq<byte> {
    if chunks == [] || chunks[0] == [] then [] else chunks[0] + Prompt(chunks[1..])
  }

  /** Some call times out. */
  predicate TimesOut(chunks: seq<seq<byte>>) {
    chunks != [] && (chunks[0] == [] || TimesOut(chunks[1..]))
  }

  /** On a socket without deadlines everything arrives promptly. */
  lemma {:induction false} PromptIsJoined(chunks: seq<seq<byte>>)
    requires !TimesOut(chunks)
    ensures Prompt(chunks) == Joined(chunks)
  {
    if chunks != [] {
      PromptIsJoined(chunks[1..]);
    }
  }

  /** The first timed-out call cuts the prompt bytes off, whatever comes after it. */
  lemma {:induction false} TimeoutCuts(before: seq<seq<byte>>, later: seq<seq<byte>>)
    requires !TimesOut(before)
    ensures Prompt(before + [[]] + later) == Joined(before) && TimesOut(before + [[]] + later)
  {
    var all := before + [[]] + later;
    if before != [] {
      TimeoutCuts(before[1..], later);
      assert all[0] == before[0] && all[1..] == before[1..] + [[]] + later;
    }
  }

  /** How many calls of `recv` are left at most. */
  function Work(chunks: seq<seq<byte>>): nat {
    if chunks == [] then 0 else |chunks[0]| + 1 + Work(chunks[1..])
  }

  /** A connection whose bytes arrive in the given pieces; an empty piece is a timed-out call. */
  class Socket {
    var chunks: seq<seq<byte>>

    constructor (chunks: seq<seq<byte>>)
      ensures this.chunks == chunks
    {
      this.chunks := chunks;
    }

    /** `recv`: at most `max` bytes of the oldest piece, or a timeout, or the end of the connection. */
    method Recv(max: nat) returns (r: Received)
      requires max > 0
      modifies this
      ensures match r
              case Data(bytes) =>
                && 0 < |bytes| <= max && Joined(old(chunks)) == bytes + Joined(chunks)
                && Prompt(old(chunks)) == bytes + Prompt(chunks) && TimesOut(chunks) == TimesOut(old(chunks))
              case Retry =>
                Joined(old(chunks)) == Joined(chunks) && Prompt(old(chunks)) == [] && TimesOut(old(chunks))
              case Closed => old(chunks) == [] && chunks == []
      ensures !r.Closed? ==> Work(chunks) + (if r.Data? then |r.bytes| else 1) <= Work(old(chunks))
    {
      if chunks == [] {
        return Closed;
      }
      var piece := chunks[0];
      if piece == [] {
        chunks := chunks[1..];
        return Retry;
      }
      if |piece| <= max {
        chunks := chunks[1..];
        return Data(piece);
      }
      chunks := [piece[max..]] + chunks[1..];
      assert chunks[1..] == old(chunks)[1..];
      assert piece == piece[..max] + piece[max..];
      return Data(piece[..max]);
    }

    /** The client's loops: as many calls as it takes, timed-out ones included; fewer bytes only at the end. */
    method RecvAll(buf: array<byte>) returns (n: nat)
      modifies this, buf
      ensures var stream := Joined(old(chunks));
              n == Min(buf.Length, |stream|) && buf[..n] == stream[..n] && Joined(chunks) == stream[n..]
      ensures Work(chunks) + n <= Work(old(chunks))
    {
      n := 0;
      ghost var stream := Joined(chunks);
      while n < buf.Length
        invariant n <= buf.Length && n <= |stream|
        invariant buf[..n] == stream[..n] && Joined(chunks) == stream[n..]
        invariant Work(chunks) + n <= Work(old(chunks))
        decreases Work(chunks)
      {
        var r := Recv(buf.Length - n);
        if r.Retry? {
          continue;
        }
        if r.Closed? {
          break;
        }
        Put(buf, n, r.bytes);
        assert stream[..n + |r.bytes|] == stream[..n] + r.bytes;
        n := n + |r.bytes|;
      }
    }

    /** `io.ReadFull`: as many calls as it takes, but a timeout is an error. */
    method ReadFull(buf: array<byte>) returns (n: nat, timedOut: bool)
      modifies this, buf
      ensures var stream := Prompt(old(chunks));
              && n == Min(buf.Length, |stream|) && buf[..n] == stream[..n]
              && (n == buf.Length ==> Prompt(chunks) == stream[n..])
      ensures timedOut == (n < buf.Length && TimesOut(old(chunks)))
      ensures n == buf.Length ==> TimesOut(chunks) == TimesOut(old(chunks)) && Work(chunks) + n <= Work(old(chunks))
    {
      n, timedOut := 0, false;
      ghost var stream := Prompt(chunks);
      while n < buf.Length
        invariant n <= buf.Length && n <= |stream|
        invariant buf[..n] == stream[..n] && Prompt(chunks) == stream[n..]
        invariant TimesOut(chunks) == TimesOut(old(chunks)) && Work(chunks) + n <= Work(old(chunks))
        decreases Work(chunks)
      {
        var r := Recv(buf.Length - n);
        if r.Retry? {
          return n, true;
        }
        if r.Closed? {
          return n, false;
        }
        Put(buf, n, r.bytes);
        assert stream[..n + |r.bytes|] == stream[..n] + r.bytes;
        n := n + |r.bytes|;
      }
    }
  }

  lemma SliceOfSlice(s: seq<byte>, n: nat)
    requires 4 + n <= |s|
    ensures s[4..][..n] == s[4..4 + n] && s[4..][n..] == s[4 + n..]
  {
  }

  // ---- C++ client -----------------------------------------------------------------------

  /** The buffer `sendTCPMessage` hands to `send`. */
  method CppFrame(host: Host, body: seq<byte>) returns (buffer: array<byte>)
    ensures fresh(buffer) && buffer[..] == Frame(body)
  {
    buffer := new byte[4 + |body|];
    SwapThenCopy(host, |body|, 4);
    Put(buffer, 0, InMemory(host, NetworkOrder(host, |body|, 4), 4));
    assert buffer[..4] == BigEndian(|body|, 4);
    Put(buffer, 4, body);
    assert buffer[..] == buffer[..4 + |body|];
  }

  /** One turn of the read loop: header, length check, body. */
  method CppReadOne(host: Host, socket: Socket) returns (msg: Option<seq<byte>>)
    modifies socket
    ensures var stream := Joined(old(socket.chunks));
            && msg == First(stream)
            && (msg.Some? ==> Joined(socket.chunks) == stream[4 + |msg.value|..])
    ensures msg.Some? ==> Work(socket.chunks) < Work(old(socket.chunks))
  {
    ghost var stream := Joined(socket.chunks);
    var header := new byte[4];
    var headerRead := socket.RecvAll(header);
    if headerRead < 4 {
      return None;
    }
    var lenNetwork := FromMemory(host, header[..4]);
    CopyThenSwap(host, header[..4]);
    var length := NetworkOrder(host, lenNetwork, 4);
    if length > MAX_MESSAGE {
      return None;
    }
    var buffer := new byte[length];
    var totalRead := socket.RecvAll(buffer);
    if totalRead < length {
      return None;
    }
    SliceOfSlice(stream, length);
    return Some(buffer[..length]);
  }

  /** The read loop delivers exactly the messages of the stream, however it is cut into pieces. */
  method CppReadLoop(host: Host, socket: Socket) returns (delivered: seq<seq<byte>>)
    modifies socket
    ensures delivered == Parse(Joined(old(socket.chunks)))
  {
    delivered := [];
    var tcpRunning := true;
    ghost var stream := Joined(socket.chunks);
    while tcpRunning
      invariant delivered + (if tcpRunning then Parse(Joined(socket.chunks)) else []) == Parse(stream)
      decreases tcpRunning, Work(socket.chunks)
    {
      var msg := CppReadOne(host, socket);
      if msg.None? {
        tcpRunning := false;
      } else {
        Regroup(delivered, [msg.value], Parse(Joined(socket.chunks)));
        delivered := delivered + [msg.value];
      }
    }
  }

  // ---- Go server --------------------------------------------------------------------------

  method EncodeTCPMessage(jsonPayload: seq<byte>) returns (msg: array<byte>)
    ensures fresh(msg) && msg[..] == Frame(jsonPayload)
  {
    msg := new byte[4 + |jsonPayload|];
    Put(msg, 0, BigEndian(|jsonPayload|, 4));
    Put(msg, 4, jsonPayload);
    assert msg[..] == msg[..4 + |jsonPayload|];
  }

  datatype ReadError = EOF | UnexpectedEOF | Timeout | MessageTooLarge

  /** What `io.ReadFull` reports for `n` of `wanted` bytes. */
  function ReadFullError(n: nat, wanted: nat, timedOut: bool): Option<ReadError> {
    if n == wanted then None else if timedOut then Some(Timeout) else if n == 0 then Some(EOF) else Some(UnexpectedEOF)
  }

  /** EOF only at a boundary, an unexpected EOF inside, and a timeout before either. */
  lemma ReadFullErrors(n: nat, wanted: nat)
    requires n < wanted
    ensures ReadFullError(n, wanted, true) == Some(Timeout)
    ensures ReadFullError(0, wanted, false) == Some(EOF) && ReadFullError(wanted, wanted, false) == None
    ensures n > 0 ==> ReadFullError(n, wanted, false) == Some(UnexpectedEOF)
  {
  }

  method ReadTCPMessage(socket: Socket) returns (msg: Result<seq<byte>, ReadError>)
    modifies socket
    ensures var stream, late := Prompt(old(socket.chunks)), TimesOut(old(socket.chunks));
            if |stream| < 4 then msg == Err(ReadFullError(|stream|, 4, late).value)
            else
              var length := Number(stream[..4]);
              if length > MAX_MESSAGE then msg == Err(MessageTooLarge)
              else if |stream| < 4 + length then msg == Err(ReadFullError(|stream| - 4, length, late).value)
              else msg == Ok(stream[4..4 + length]) && Prompt(socket.chunks) == stream[4 + length..]
    ensures First(Prompt(old(socket.chunks))) == if msg.Ok? then Some(msg.value) else None
    ensures msg.Ok? ==> Work(socket.chunks) < Work(old(socket.chunks))
  {
    ghost var stream := Prompt(socket.chunks);
    var lenBuf := new byte[4];
    var n, timedOut := socket.ReadFull(lenBuf);
    if n < 4 {
      return Err(ReadFullError(n, 4, timedOut).value);
    }
    var msgLen := Number(lenBuf[..4]);
    if msgLen > MAX_MESSAGE {
      return Err(MessageTooLarge);
    }
    var body := new byte[msgLen];
    n, timedOut := socket.ReadFull(body);
    if n < msgLen {
      return Err(ReadFullError(n, msgLen, timedOut).value);
    }
    SliceOfSlice(stream, msgLen);
    return Ok(body[..msgLen]);
  }

  /**
   The server's read loop: message after message until the first error. Its
   sockets have no read deadline, so nothing times out on them.
   */
  method GoReadLoop(socket: Socket) returns (delivered: seq<seq<byte>>)
    modifies socket
    ensures delivered == Parse(Prompt(old(socket.chunks)))
    ensures !TimesOut(old(socket.chunks)) ==> delivered == Parse(Joined(old(socket.chunks)))
  {
    ghost var chunks := socket.chunks;
    delivered := ReadUntilError(socket);
    if !TimesOut(chunks) {
      PromptIsJoined(chunks);
    }
  }

  method ReadUntilError(socket: Socket) returns (delivered: seq<seq<byte>>)
    modifies socket
    ensures delivered == Parse(Prompt(old(socket.chunks)))
  {
    delivered := [];
    ghost var stream := Prompt(socket.chunks);
    var open := true;
    while open
      invariant delivered + (if open then Parse(Prompt(socket.chunks)) else []) == Parse(stream)
      decreases open, Work(socket.chunks)
    {
      var msg := ReadTCPMessage(socket);
      if msg.Err? {
        open := false;
      } else {
        Regroup(delivered, [msg.value], Parse(Prompt(socket.chunks)));
        delivered := delivered + [msg.value];
      }
    }
  }
}
