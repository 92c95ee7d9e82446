/** The 128-slot ring and its two free-running 64-bit counters. */
module Ring {
  import opened Common
  import opened Playback

  datatype Slot = Slot(pcm: seq<Sample>, captureTimestampUs: int, valid: bool)

  function Stored(slot: Slot): Frame {
    Frame(slot.pcm, slot.captureTimestampUs)
  }

  predicate Counter(n: int) {
    0 <= n < 0x1_0000_0000_0000_0000
  }

  /** `n + 1` in size_t arithmetic. */
  function Next(n: nat): nat {
    if n >= 0xFFFF_FFFF_FFFF_FFFF then 0 else n + 1
  }

  /** `head - tail` in size_t arithmetic. */
  function Occupancy(head: nat, tail: nat): nat
    requires Counter(head) && Counter(tail)
  {
    if tail <= head then head - tail else head + 0x1_0000_0000_0000_0000 - tail
  }

  /** `n & RING_MASK`. */
  function Index(n: nat): nat {
    n % 128
  }

  /** The frames of `n` consecutive slots, oldest first. */
  function Window(ring: seq<Slot>, tail: nat, n: nat): (frames: seq<Frame>)
    requires |ring| == RING_CAPACITY
    ensures |frames| == n
    ensures forall i :: 0 <= i < n ==> frames[i] == Stored(ring[Index(tail + i)])
  {
    seq(n, i requires 0 <= i < n => Stored(ring[Index(tail + i)]))
  }

  lemma CounterStep(head: nat, tail: nat)
    requires Counter(head) && Counter(tail) && Occupancy(head, tail) <= RING_CAPACITY
    ensures Counter(Next(head)) && Occupancy(Next(head), tail) == Occupancy(head, tail) + 1
    ensures Occupancy(head, tail) > 0 ==> Occupancy(head, Next(tail)) == Occupancy(head, tail) - 1
    ensures Index(tail + Occupancy(head, tail)) == Index(head)
    ensures Occupancy(head, tail) == 0 <==> head == tail
  {
  }

  /** Releasing the oldest slot shifts the window by one frame, across counter wrap-around. */
  lemma WindowRetire(ring: seq<Slot>, tail: nat, n: nat)
    requires |ring| == RING_CAPACITY && n > 0 && Counter(tail)
    ensures Window(ring, tail, n)[0] == Stored(ring[Index(tail)])
    ensures Window(ring, tail, n)[1..] == Window(ring, Next(tail), n - 1)
  {
    forall i | 0 <= i < n - 1
      ensures Window(ring, tail, n)[1..][i] == Window(ring, Next(tail), n - 1)[i]
    {
      NextSlot(tail, i);
    }
  }

  lemma NextSlot(tail: nat, i: nat)
    requires Counter(tail)
    ensures Index(tail + (i + 1)) == Index(Next(tail) + i)
  {
  }

  /** Writing the slot behind the newest frame leaves every readable frame alone. */
  lemma WindowWrite(ring: seq<Slot>, tail: nat, n: nat, slot: Slot)
    requires |ring| == RING_CAPACITY && n < RING_CAPACITY
    ensures var ring' := ring[Index(tail + n) := slot];
            Window(ring', tail, n) == Window(ring, tail, n) &&
            Window(ring', tail, n + 1) == Window(ring, tail, n) + [Stored(slot)]
  {
    var ring' := ring[Index(tail + n) := slot];
    forall i | 0 <= i < n
      ensures Window(ring', tail, n)[i] == Window(ring, tail, n)[i] == Window(ring', tail, n + 1)[i]
    {
      SlotsDiffer(tail, i, n);
    }
  }

  /** Two slots that store the same frame are the same to a reader. */
  lemma WindowSame(ring: seq<Slot>, ring': seq<Slot>, tail: nat, n: nat)
    requires |ring| == |ring'| == RING_CAPACITY
    requires forall k :: 0 <= k < RING_CAPACITY ==> Stored(ring[k]) == Stored(ring'[k])
    ensures Window(ring, tail, n) == Window(ring', tail, n)
  {
  }
}
