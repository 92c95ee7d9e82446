/** Unsigned numbers as byte strings, most significant byte first, and their in-memory forms. */
module Bytes {

  type byte = n: int | 0 <= n < 256 witness 0

  /** 256 to the power of `size`. */
  function Range(size: nat): nat {
    if size == 0 then 1 else 256 * Range(size - 1)
  }

  /** `n` in `size` bytes, most significant first. */
  function BigEndian(n: nat, size: nat): (bytes: seq<byte>)
    ensures |bytes| == size
    decreases size
  {
    if size == 0 then [] else BigEndian(n / 256, size - 1) + [n % 256]
  }

  function Number(bytes: seq<byte>): nat {
    if bytes == [] then 0 else Number(bytes[..|bytes| - 1]) * 256 + bytes[|bytes| - 1]
  }

  lemma {:induction false} NumberOfBigEndian(n: nat, size: nat)
    requires n < Range(size)
    ensures Number(BigEndian(n, size)) == n
    decreases size
  {
    if size > 0 {
      NumberOfBigEndian(n / 256, size - 1);
      assert BigEndian(n, size)[..size - 1] == BigEndian(n / 256, size - 1);
    }
  }

  lemma {:induction false} BigEndianOfNumber(bytes: seq<byte>)
    ensures BigEndian(Number(bytes), |bytes|) == bytes
    ensures Number(bytes) < Range(|bytes|)
    decreases |bytes|
  {
    if bytes != [] {
      BigEndianOfNumber(bytes[..|bytes| - 1]);
    }
  }

  lemma Ranges()
    ensures Range(2) == 0x1_0000 && Range(4) == 0x1_0000_0000 && Range(8) == 0x1_0000_0000_0000_0000
  {
    assert Range(3) == 0x100_0000;
    assert Range(5) == 0x100_0000_0000;
    assert Range(7) == 0x100_0000_0000_0000;
  }

  lemma OneByte(b: byte)
    ensures BigEndian(b, 1) == [b] && Number([b]) == b
  {
    assert b / 256 == 0 && b % 256 == b;
    assert BigEndian(b / 256, 0) == [];
    assert [b][..0] == [];
  }

  lemma HighAndLow(n: nat, high: byte, low: byte)
    requires n == 256 * high + low
    ensures n / 256 == high && n % 256 == low
  {
  }

  /** The most significant byte comes first. */
  lemma MostSignificantFirst(high: byte, low: byte)
    ensures BigEndian(256 * high + low, 2) == [high, low] && Number([high, low]) == 256 * high + low
  {
    var n := 256 * high + low;
    HighAndLow(n, high, low);
    OneByte(high);
    assert BigEndian(n, 2) == BigEndian(high, 1) + [low];
    assert [high, low][..1] == [high];
  }

  /** The byte orders a client can be built for. */
  datatype Host = LittleHost | BigHost

  function Reversed(bytes: seq<byte>): (r: seq<byte>)
    ensures |r| == |bytes|
  {
    seq(|bytes|, i requires 0 <= i < |bytes| => bytes[|bytes| - 1 - i])
  }

  lemma ReversedTwice(bytes: seq<byte>)
    ensures Reversed(Reversed(bytes)) == bytes
  {
  }

  /** The bytes of a number in the memory of a host. */
  function InMemory(host: Host, n: nat, size: nat): seq<byte> {
    if host.BigHost? then BigEndian(n, size) else Reversed(BigEndian(n, size))
  }

  /** The number a host reads from memory. */
  function FromMemory(host: Host, bytes: seq<byte>): nat {
    if host.BigHost? then Number(bytes) else Number(Reversed(bytes))
  }

  /** `htobe` and `betoh`: swap the bytes on a little-endian host, do nothing on a big-endian one. */
  function NetworkOrder(host: Host, n: nat, size: nat): nat {
    if host.BigHost? then n else Number(Reversed(BigEndian(n, size)))
  }

  /** Swapping and copying from memory yields the network form on every host. */
  lemma SwapThenCopy(host: Host, n: nat, size: nat)
    ensures InMemory(host, NetworkOrder(host, n, size), size) == BigEndian(n, size)
  {
    var network := BigEndian(n, size);
    BigEndianOfNumber(Reversed(network));
    ReversedTwice(network);
  }

  /** Copying to memory and swapping reads the network form on every host. */
  lemma CopyThenSwap(host: Host, bytes: seq<byte>)
    ensures NetworkOrder(host, FromMemory(host, bytes), |bytes|) == Number(bytes)
  {
    BigEndianOfNumber(Reversed(bytes));
    ReversedTwice(bytes);
  }

  // ---- Two's complement -----------------------------------------------------------

  predicate Int64(n: int) {
    -0x8000_0000_0000_0000 <= n < 0x8000_0000_0000_0000
  }

  /** `uint64(n)`. */
  function ToUnsigned(n: int): nat
    requires Int64(n)
  {
    if n < 0 then n + 0x1_0000_0000_0000_0000 else n
  }

  /** `int64(n)`. */
  function ToSigned(n: nat): (s: int)
    requires n < 0x1_0000_0000_0000_0000
    ensures Int64(s) && ToUnsigned(s) == n
  {
    if n >= 0x8000_0000_0000_0000 then n - 0x1_0000_0000_0000_0000 else n
  }

  /** Minus one is all ones. */
  lemma NegativesWrap(n: int)
    requires 0 < n <= 0x8000_0000_0000_0000
    ensures ToUnsigned(-n) == 0x1_0000_0000_0000_0000 - n && ToSigned(0x1_0000_0000_0000_0000 - n) == -n
  {
  }

  // ---- Buffers ------------------------------------------------------------------------

  /** `copy(buf[at:], bytes)` and `memcpy(buf + at, bytes)`. */
  method Put(buf: array<byte>, at: nat, bytes: seq<byte>)
    requires at + |bytes| <= buf.Length
    modifies buf
    ensures buf[..at + |bytes|] == old(buf[..at]) + bytes
    ensures forall k :: at + |bytes| <= k < buf.Length ==> buf[k] == old(buf[k])
  {
    forall i | 0 <= i < |bytes| {
      buf[at + i] := bytes[i];
    }
  }
}
