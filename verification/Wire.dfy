/**
 The UDP packet in its two implementations: Go on the server, C++ on the
 client. Both are proved against one layout: version, type, sequence number (4
 bytes), timestamp (8), channel mask, codec, payload length (2), payload.
 */
module Wire {
  import opened Common
  import opened Bytes

  const PROTOCOL_VERSION: byte := 1
  const HEADER_SIZE: nat := 18
  const MAX_PAYLOAD_SIZE: nat := 4096

  /** The channel mask of the stereo mix. */
  const STEREO_MIX: byte := 0xFF

  datatype Packet = Packet(
    version: byte, kind: byte, seqNum: nat, timestampUs: int, channelMask: byte, codec: byte, payload: seq<byte>)

  /** The fields fit their types: uint32 and int64. */
  predicate Typed(p: Packet) {
    p.seqNum < 0x1_0000_0000 && Int64(p.timestampUs)
  }

  /** The 18 bytes before the payload, declaring a payload of `length` bytes. */
  function Header(p: Packet, length: nat): (bytes: seq<byte>)
    requires Typed(p)
    ensures |bytes| == HEADER_SIZE
  {
    [p.version, p.kind] + BigEndian(p.seqNum, 4) + BigEndian(ToUnsigned(p.timestampUs), 8)
    + [p.channelMask, p.codec] + BigEndian(length, 2)
  }

  /** The layout. */
  function Encode(p: Packet): (bytes: seq<byte>)
    requires Typed(p)
    ensures |bytes| == HEADER_SIZE + |p.payload|
  {
    Header(p, |p.payload|) + p.payload
  }

  datatype WireError = PacketTooShort | BadVersion | PayloadTooLarge | PayloadMismatch | BufferTooSmall

  /** The length field of a header. */
  function DeclaredLength(data: seq<byte>): nat
    requires |data| >= HEADER_SIZE
  {
    Number(data[16..18])
  }

  /** The packet a header and the bytes behind it describe. */
  function Fields(data: seq<byte>): (p: Packet)
    requires |data| >= HEADER_SIZE && HEADER_SIZE + DeclaredLength(data) <= |data|
    ensures Typed(p)
  {
    BigEndianOfNumber(data[2..6]);
    BigEndianOfNumber(data[6..14]);
    Ranges();
    Packet(data[0], data[1], Number(data[2..6]), ToSigned(Number(data[6..14])), data[14], data[15],
           data[HEADER_SIZE..HEADER_SIZE + DeclaredLength(data)])
  }

  /** What Go's `Unmarshal` makes of a datagram. */
  function GoParse(data: seq<byte>): Result<Packet, WireError> {
    if |data| < HEADER_SIZE then Err(PacketTooShort)
    else if data[0] != PROTOCOL_VERSION then Err(BadVersion)
    else if DeclaredLength(data) > MAX_PAYLOAD_SIZE then Err(PayloadTooLarge)
    else if |data| < HEADER_SIZE + DeclaredLength(data) then Err(PayloadMismatch)
    else Ok(Fields(data))
  }

  /** What C++'s `deserialize` makes of it: no limit on the payload. */
  function CppParse(data: seq<byte>): Option<Packet> {
    if |data| < HEADER_SIZE then None
    else if data[0] != PROTOCOL_VERSION then None
    else if HEADER_SIZE + DeclaredLength(data) > |data| then None
    else Some(Fields(data))
  }

  // ---- Agreement --------------------------------------------------------------------

  lemma HeaderParts(p: Packet, length: nat)
    requires Typed(p)
    ensures var h := Header(p, length);
            && h[0] == p.version && h[1] == p.kind && h[14] == p.channelMask && h[15] == p.codec
            && h[2..6] == BigEndian(p.seqNum, 4) && h[6..14] == BigEndian(ToUnsigned(p.timestampUs), 8)
            && h[16..18] == BigEndian(length, 2)
  {
    FiveParts([p.version, p.kind], BigEndian(p.seqNum, 4), BigEndian(ToUnsigned(p.timestampUs), 8),
              [p.channelMask, p.codec], BigEndian(length, 2));
  }

  lemma FiveParts(a: seq<byte>, b: seq<byte>, c: seq<byte>, d: seq<byte>, e: seq<byte>)
    requires |a| == |d| == |e| == 2 && |b| == 4 && |c| == 8
    ensures var h := a + b + c + d + e;
            h[..2] == a && h[2..6] == b && h[6..14] == c && h[14..16] == d && h[16..18] == e
  {
  }

  lemma EncodedParts(p: Packet, rest: seq<byte>)
    requires Typed(p)
    ensures var data, h := Encode(p) + rest, Header(p, |p.payload|);
            && data[0] == h[0] && data[1] == h[1] && data[14] == h[14] && data[15] == h[15]
            && data[2..6] == h[2..6] && data[6..14] == h[6..14] && data[16..18] == h[16..18]
            && data[18..18 + |p.payload|] == p.payload
  {
    var data, h := Encode(p) + rest, Header(p, |p.payload|);
    assert data[..18] == h;
    assert data[2..6] == data[..18][2..6] && data[6..14] == data[..18][6..14] && data[16..18] == data[..18][16..18];
  }

  /** The layout is uniquely decodable, whatever follows it in the buffer. */
  lemma FieldsOfEncoded(p: Packet, rest: seq<byte>)
    requires Typed(p) && |p.payload| < 0x1_0000
    ensures DeclaredLength(Encode(p) + rest) == |p.payload| && Fields(Encode(p) + rest) == p
  {
    EncodedParts(p, rest);
    HeaderParts(p, |p.payload|);
    Ranges();
    NumberOfBigEndian(p.seqNum, 4);
    NumberOfBigEndian(ToUnsigned(p.timestampUs), 8);
    NumberOfBigEndian(|p.payload|, 2);
  }

  /** Both parsers invert the layout for packets of the current version, negative timestamps included. */
  lemma ParsersInvertEncode(p: Packet, rest: seq<byte>)
    requires Typed(p) && p.version == PROTOCOL_VERSION && |p.payload| < 0x1_0000
    ensures CppParse(Encode(p) + rest) == Some(p)
    ensures GoParse(Encode(p) + rest) == if |p.payload| <= MAX_PAYLOAD_SIZE then Ok(p) else Err(PayloadTooLarge)
  {
    FieldsOfEncoded(p, rest);
    EncodedParts(p, rest);
    HeaderParts(p, |p.payload|);
  }

  /** A datagram that describes a packet starts with that packet's encoding. */
  lemma EncodeInvertsFields(data: seq<byte>)
    requires |data| >= HEADER_SIZE && HEADER_SIZE + DeclaredLength(data) <= |data|
    ensures Encode(Fields(data)) == data[..HEADER_SIZE + DeclaredLength(data)]
  {
    BigEndianOfNumber(data[2..6]);
    BigEndianOfNumber(data[6..14]);
    BigEndianOfNumber(data[16..18]);
    var n := HEADER_SIZE + DeclaredLength(data);
    assert data[..n] == data[..2] + data[2..6] + data[6..14] + data[14..16] + data[16..18] + data[18..n];
    assert data[..2] == [data[0], data[1]] && data[14..16] == [data[14], data[15]];
  }

  /** Go accepts exactly what C++ accepts with a payload within the limit, and with the same fields. */
  lemma GoAcceptsIffCppWithinLimit(data: seq<byte>)
    ensures GoParse(data).Ok? <==> CppParse(data).Some? && |CppParse(data).value.payload| <= MAX_PAYLOAD_SIZE
    ensures GoParse(data).Ok? ==> CppParse(data) == Some(GoParse(data).value)
  {
  }

  /** Whatever Go accepts re-marshals to a prefix of itself. */
  lemma AcceptedReencodes(data: seq<byte>)
    requires GoParse(data).Ok?
    ensures var p := GoParse(data).value;
            Typed(p) && |p.payload| <= MAX_PAYLOAD_SIZE && Encode(p) == data[..HEADER_SIZE + |p.payload|]
  {
    EncodeInvertsFields(data);
  }

  /** Why Go refuses a datagram, the first reason counting. */
  lemma GoRefuses(data: seq<byte>)
    ensures GoParse(data) == Err(PacketTooShort) <==> |data| < 18
    ensures GoParse(data) == Err(BadVersion) <==> |data| >= 18 && data[0] != 1
    ensures |data| >= 18 && data[0] == 1 ==>
              var length := Number(data[16..18]);
              && (GoParse(data) == Err(PayloadTooLarge) <==> length > 4096)
              && (GoParse(data) == Err(PayloadMismatch) <==> length <= 4096 && |data| < 18 + length)
  {
  }

  // ---- Go -----------------------------------------------------------------------------

  class GoPacket {
    var version: byte
    var kind: byte
    var seqNum: nat
    var timestampUs: int
    var channelMask: byte
    var codec: byte
    var payload: seq<byte>

    function View(): Packet
      reads this
    {
      Packet(version, kind, seqNum, timestampUs, channelMask, codec, payload)
    }

    constructor (p: Packet)
      ensures View() == p
    {
      version, kind, seqNum, timestampUs := p.version, p.kind, p.seqNum, p.timestampUs;
      channelMask, codec, payload := p.channelMask, p.codec, p.payload;
    }

    method Marshal() returns (buf: Result<array<byte>, WireError>)
      requires Typed(View())
      ensures if |payload| > MAX_PAYLOAD_SIZE then buf == Err(PayloadTooLarge)
              else buf.Ok? && fresh(buf.value) && buf.value[..] == Encode(View())
    {
      if |payload| > MAX_PAYLOAD_SIZE {
        return Err(PayloadTooLarge);
      }
      var bytes := new byte[HEADER_SIZE + |payload|];
      WriteTo(bytes);
      return Ok(bytes);
    }

    method MarshalInto(buf: array<byte>) returns (written: Result<nat, WireError>)
      requires Typed(View())
      modifies buf
      ensures var needed := HEADER_SIZE + |payload|;
              if buf.Length < needed then written == Err(BufferTooSmall) && buf[..] == old(buf[..])
              else if |payload| > MAX_PAYLOAD_SIZE then written == Err(PayloadTooLarge) && buf[..] == old(buf[..])
              else written == Ok(needed) && buf[..needed] == Encode(View()) && buf[needed..] == old(buf[needed..])
    {
      var needed := HEADER_SIZE + |payload|;
      if buf.Length < needed {
        return Err(BufferTooSmall);
      }
      if |payload| > MAX_PAYLOAD_SIZE {
        return Err(PayloadTooLarge);
      }
      WriteTo(buf);
      return Ok(needed);
    }

    /** The field-by-field writes both entry points share. */
    method WriteTo(buf: array<byte>)
      requires Typed(View()) && |payload| <= MAX_PAYLOAD_SIZE && HEADER_SIZE + |payload| <= buf.Length
      modifies buf
      ensures buf[..HEADER_SIZE + |payload|] == Encode(View())
      ensures forall k :: HEADER_SIZE + |payload| <= k < buf.Length ==> buf[k] == old(buf[k])
    {
      buf[0] := version;
      buf[1] := kind;
      assert buf[..2] == [version, kind];
      Put(buf, 2, BigEndian(seqNum, 4));
      Put(buf, 6, BigEndian(ToUnsigned(timestampUs), 8));
      ghost var header := buf[..14];
      buf[14] := channelMask;
      buf[15] := codec;
      assert buf[..16] == header + [channelMask, codec];
      Put(buf, 16, BigEndian(|payload|, 2));
      Put(buf, HEADER_SIZE, payload);
    }

    method Unmarshal(data: seq<byte>) returns (err: Option<WireError>)
      modifies this
      ensures match GoParse(data)
              case Ok(p) => err == None && View() == p
              case Err(e) => err == Some(e) && View() == old(View())
    {
      if |data| < HEADER_SIZE {
        return Some(PacketTooShort);
      }
      var ver := data[0];
      if ver != PROTOCOL_VERSION {
        return Some(BadVersion);
      }
      var payloadLen := Number(data[16..18]);
      if payloadLen > MAX_PAYLOAD_SIZE {
        return Some(PayloadTooLarge);
      }
      if |data| < HEADER_SIZE + payloadLen {
        return Some(PayloadMismatch);
      }
      var p := Fields(data);
      version := ver;
      kind := data[1];
      seqNum := Number(data[2..6]);
      timestampUs := p.timestampUs;
      channelMask := data[14];
      codec := data[15];
      payload := data[HEADER_SIZE..HEADER_SIZE + payloadLen];
      return None;
    }
  }

  // ---- C++ ----------------------------------------------------------------------------

  function Zeros(n: nat): (z: seq<byte>)
    ensures |z| == n && forall i :: 0 <= i < n ==> z[i] == 0
  {
    seq(n, _ => 0)
  }

  lemma SplitAt(s: seq<byte>, n: nat)
    requires n <= |s|
    ensures s == s[..n] + s[n..]
  {
  }

  lemma DeclaredIsLength(n: nat)
    ensures n < 0x1_0000 ==> n % 0x1_0000 == n
  {
  }

  class CppPacket {
    const host: Host
    var version: byte
    var kind: byte
    var seqNum: nat
    var timestampUs: int
    var channelMask: byte
    var codecFlag: byte
    var payloadData: Option<seq<byte>>
    var payloadSize: nat

    /** The payload as sent: a null pointer leaves the buffer's zeros. */
    function Payload(): seq<byte>
      reads this
    {
      if payloadData.Some? && |payloadData.value| == payloadSize then payloadData.value else Zeros(payloadSize)
    }

    function View(): Packet
      reads this
    {
      Packet(version, kind, seqNum, timestampUs, channelMask, codecFlag, Payload())
    }

    predicate Valid()
      reads this
    {
      Typed(View()) && (payloadData.Some? ==> |payloadData.value| == payloadSize)
    }

    constructor (host: Host, p: Packet)
      requires Typed(p)
      ensures Valid() && View() == p && this.host == host
    {
      this.host := host;
      version, kind, seqNum, timestampUs := p.version, p.kind, p.seqNum, p.timestampUs;
      channelMask, codecFlag, payloadData, payloadSize := p.channelMask, p.codec, Some(p.payload), |p.payload|;
    }

    /**
     On either byte order the bytes are the header and the payload. The length
     field keeps 16 bits, so this is the layout for payloads below 65536 bytes.
     */
    method Serialize() returns (buffer: array<byte>)
      requires Valid()
      ensures fresh(buffer) && buffer[..] == Header(View(), payloadSize % 0x1_0000) + Payload()
      ensures payloadSize < 0x1_0000 ==> buffer[..] == Encode(View())
    {
      buffer := new byte[HEADER_SIZE + payloadSize](_ => 0);
      var declared := payloadSize % 0x1_0000;
      SerializeHeader(buffer, declared);
      SerializePayload(buffer);
      SplitAt(buffer[..], HEADER_SIZE);
      DeclaredIsLength(payloadSize);
    }

    method SerializePayload(buffer: array<byte>)
      requires Valid() && buffer.Length == HEADER_SIZE + payloadSize
      requires forall k :: HEADER_SIZE <= k < buffer.Length ==> buffer[k] == 0
      modifies buffer
      ensures buffer[..HEADER_SIZE] == old(buffer[..HEADER_SIZE]) && buffer[HEADER_SIZE..] == Payload()
    {
      if payloadSize > 0 && payloadData.Some? {
        Put(buffer, HEADER_SIZE, payloadData.value);
        assert buffer[..HEADER_SIZE] == buffer[..HEADER_SIZE + payloadSize][..HEADER_SIZE];
        assert buffer[HEADER_SIZE..] == buffer[..HEADER_SIZE + payloadSize][HEADER_SIZE..];
      }
    }

    method SerializeHeader(buffer: array<byte>, declared: nat)
      requires Valid() && buffer.Length == HEADER_SIZE + payloadSize
      modifies buffer
      ensures buffer[..HEADER_SIZE] == Header(View(), declared)
      ensures forall k :: HEADER_SIZE <= k < buffer.Length ==> buffer[k] == old(buffer[k])
    {
      buffer[0] := version;
      buffer[1] := kind;
      assert buffer[..2] == [version, kind];
      CopyNumber(buffer, 2, seqNum, 4);
      CopyNumber(buffer, 6, ToUnsigned(timestampUs), 8);
      ghost var header := buffer[..14];
      buffer[14] := channelMask;
      buffer[15] := codecFlag;
      assert buffer[..16] == header + [channelMask, codecFlag];
      CopyNumber(buffer, 16, declared, 2);
    }

    /** `htobe` into a local, then `memcpy` of the local. */
    method CopyNumber(buffer: array<byte>, at: nat, n: nat, size: nat)
      requires at + size <= buffer.Length
      modifies buffer
      ensures buffer[..at + size] == old(buffer[..at]) + BigEndian(n, size)
      ensures forall k :: at + size <= k < buffer.Length ==> buffer[k] == old(buffer[k])
    {
      SwapThenCopy(host, n, size);
      var network := NetworkOrder(host, n, size);
      Put(buffer, at, InMemory(host, network, size));
    }

    /** `memcpy` into a local, then `betoh` of the local. */
    method ReadNumber(data: seq<byte>, at: nat, size: nat) returns (n: nat)
      requires at + size <= |data|
      ensures n == Number(data[at..at + size])
    {
      CopyThenSwap(host, data[at..at + size]);
      n := NetworkOrder(host, FromMemory(host, data[at..at + size]), size);
    }

    /** Accepts exactly what `CppParse` accepts; a rejected datagram may leave some fields set. */
    method Deserialize(data: seq<byte>) returns (ok: bool)
      modifies this
      ensures ok == CppParse(data).Some?
      ensures ok ==> Valid() && View() == CppParse(data).value
    {
      if |data| < HEADER_SIZE {
        return false;
      }
      version := data[0];
      if version != PROTOCOL_VERSION {
        return false;
      }
      DeserializeHeader(data);
      var payloadLen := ReadNumber(data, 16, 2);
      if HEADER_SIZE + payloadLen > |data| {
        return false;
      }
      payloadData := Some(data[HEADER_SIZE..HEADER_SIZE + payloadLen]);
      payloadSize := payloadLen;
      return true;
    }

    /** The fields between the version and the length. */
    method DeserializeHeader(data: seq<byte>)
      requires |data| >= HEADER_SIZE
      modifies this`kind, this`seqNum, this`timestampUs, this`channelMask, this`codecFlag
      ensures kind == data[1] && channelMask == data[14] && codecFlag == data[15]
      ensures seqNum == Number(data[2..6]) < 0x1_0000_0000
      ensures Number(data[6..14]) < 0x1_0000_0000_0000_0000 && timestampUs == ToSigned(Number(data[6..14]))
    {
      BigEndianOfNumber(data[2..6]);
      BigEndianOfNumber(data[6..14]);
      Ranges();
      kind := data[1];
      seqNum := ReadNumber(data, 2, 4);
      var network := ReadNumber(data, 6, 8);
      timestampUs := ToSigned(network);
      channelMask := data[14];
      codecFlag := data[15];
    }
  }
}
