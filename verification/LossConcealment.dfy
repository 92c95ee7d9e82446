/**
 Loss concealment on the client: a gap in the sequence numbers is filled with
 at most ten frames whose timestamps are counted back from the next packet.
 */
module LossConcealment {
  import opened Bytes
  import opened Common
  import AudioPipeline
  import Numbering
  import StreamManager
  import Wire

  const UINT32: int := 0x1_0000_0000
  const MAX_CONCEALED: nat := 10

  /** The rates the decoder can be built with. */
  predicate SupportedRate(sampleRate: nat) {
    sampleRate in {48_000, 24_000, 16_000, 12_000, 8_000}
  }

  /** 10 ms, computed from the decoder's frame size. */
  function FrameDurationUs(sampleRate: nat): int
    requires SupportedRate(sampleRate)
  {
    sampleRate / 100 * 1_000_000 / sampleRate
  }

  lemma FrameDurationIsTenMs(sampleRate: nat)
    requires SupportedRate(sampleRate)
    ensures FrameDurationUs(sampleRate) == AudioPipeline.FRAME_US
  {
  }

  /** A frame handed to the jitter buffer. */
  datatype Pushed = Pushed(samples: nat, timestampUs: int)

  /** The number of frames concealed before packet `seqNum`, in uint32 arithmetic. */
  function Lost(last: int, seqNum: int): (n: nat)
    requires 0 <= last < UINT32 && 0 <= seqNum < UINT32
    ensures n <= MAX_CONCEALED
  {
    if last != 0 && seqNum > (last + 1) % UINT32 then Min((seqNum - last - 1) % UINT32, MAX_CONCEALED) else 0
  }

  /** The frames concealed before a packet whose timestamp is `ts`; a failed decode pushes nothing. */
  function Fills(lost: nat, ts: int, missing: seq<int>, n: nat): seq<Pushed>
    requires n <= lost <= |missing|
  {
    if n == 0 then []
    else
      var before := Fills(lost, ts, missing, n - 1);
      if missing[n - 1] > 0
      then before + [Pushed(missing[n - 1], ts - (lost - n + 1) * AudioPipeline.FRAME_US)]
      else before
  }

  /** Everything pushed for one packet. */
  function Handled(last: int, seqNum: int, ts: int, missing: seq<int>, decoded: int): seq<Pushed>
    requires 0 <= last < UINT32 && 0 <= seqNum < UINT32 && |missing| == MAX_CONCEALED
  {
    Fills(Lost(last, seqNum), ts, missing, Lost(last, seqNum)) + if decoded > 0 then [Pushed(decoded, ts)] else []
  }

  class PacketHandler {
    const sampleRate: nat
    var lastSeqNum: int

    predicate Valid()
      reads this
    {
      SupportedRate(sampleRate) && 0 <= lastSeqNum < UINT32
    }

    constructor (sampleRate: nat)
      requires SupportedRate(sampleRate)
      ensures Valid() && lastSeqNum == 0
    {
      this.sampleRate, lastSeqNum := sampleRate, 0;
    }

    /**
     Handles one audio packet. `missing` and `decoded` are what the decoder
     answers: sample counts, not positive when it fails.
     */
    method HandleAudio(seqNum: int, timestampUs: int, missing: seq<int>, decoded: int) returns (pushes: seq<Pushed>)
      requires Valid() && 0 <= seqNum < UINT32 && |missing| == MAX_CONCEALED
      modifies this
      ensures Valid() && lastSeqNum == seqNum
      ensures pushes == Handled(old(lastSeqNum), seqNum, timestampUs, missing, decoded)
    {
      pushes := [];
      if lastSeqNum != 0 && seqNum > (lastSeqNum + 1) % UINT32 {
        var lostPackets: nat := (seqNum - lastSeqNum - 1) % UINT32;
        if lostPackets > MAX_CONCEALED {
          lostPackets := MAX_CONCEALED;
        }
        FrameDurationIsTenMs(sampleRate);
        var i := 1;
        while i <= lostPackets
          invariant 1 <= i <= lostPackets + 1
          invariant pushes == Fills(lostPackets, timestampUs, missing, i - 1)
        {
          if missing[i - 1] > 0 {
            var interpolatedTs := timestampUs - (lostPackets - i + 1) * FrameDurationUs(sampleRate);
            pushes := pushes + [Pushed(missing[i - 1], interpolatedTs)];
          }
          i := i + 1;
        }
      }
      lastSeqNum := seqNum;
      if decoded > 0 {
        pushes := pushes + [Pushed(decoded, timestampUs)];
      }
    }
  }

  // ---- Whole deliveries ---------------------------------------------------------

  /** The sequence numbers received, in any order, lost or doubled at will, of frames stamped by the server. */
  predicate Delivered(received: seq<int>, stamps: seq<int>) {
    && |stamps| <= UINT32
    && forall j :: 0 <= j < |received| ==> 0 < received[j] < |stamps|
  }

  predicate Increasing(received: seq<int>) {
    forall i, j :: 0 <= i < j < |received| ==> received[i] < received[j]
  }

  /** Delivered in order, and without wrap-around. */
  predicate InOrder(received: seq<int>, stamps: seq<int>) {
    Delivered(received, stamps) && Increasing(received)
  }

  /** What the decoder answers when nothing fails: 10 ms frames, say; see `SizesDoNotMatter`. */
  function Answers(): seq<int> {
    seq(MAX_CONCEALED, _ => 480)
  }

  function TimesOf(pushes: seq<Pushed>): (times: seq<int>)
    ensures |times| == |pushes|
  {
    seq(|pushes|, i requires 0 <= i < |pushes| => pushes[i].timestampUs)
  }

  /** The timestamps handed to the jitter buffer for the packets received, every decode succeeding. */
  function Timeline(received: seq<int>, stamps: seq<int>): seq<int>
    requires Delivered(received, stamps)
    decreases |received|
  {
    if received == [] then []
    else
      var k := |received| - 1;
      var last := if k == 0 then 0 else received[k - 1];
      Timeline(received[..k], stamps) +
      TimesOf(Handled(last, received[k], stamps[received[k]], Answers(), 480))
  }

  /** The timestamps pushed are the same for all decoder answers that are not failures. */
  lemma SizesDoNotMatter(last: int, seqNum: int, ts: int, missing: seq<int>, decoded: int)
    requires 0 <= last < UINT32 && 0 <= seqNum < UINT32 && |missing| == MAX_CONCEALED
    requires decoded > 0 && forall i :: 0 <= i < |missing| ==> missing[i] > 0
    ensures TimesOf(Handled(last, seqNum, ts, missing, decoded)) == TimesOf(Handled(last, seqNum, ts, Answers(), 480))
  {
    FillTimes(Lost(last, seqNum), ts, missing, Lost(last, seqNum));
    FillTimes(Lost(last, seqNum), ts, Answers(), Lost(last, seqNum));
  }

  /** The pushes for one packet after a gap, by distance to the packet. */
  lemma {:induction false} FillTimes(lost: nat, ts: int, missing: seq<int>, n: nat)
    requires n <= lost <= |missing| && forall i :: 0 <= i < |missing| ==> missing[i] > 0
    ensures var fills := Fills(lost, ts, missing, n);
            |fills| == n && forall i :: 0 <= i < n ==> fills[i].timestampUs == ts - (lost - i) * AudioPipeline.FRAME_US
  {
    if n > 0 {
      FillTimes(lost, ts, missing, n - 1);
    }
  }

  lemma PacketTimes(last: nat, seqNum: nat, ts: int)
    requires last < seqNum < UINT32
    ensures var times := TimesOf(Handled(last, seqNum, ts, Answers(), 480));
            var lost := if last == 0 then 0 else Min(seqNum - last - 1, MAX_CONCEALED);
            |times| == lost + 1 && forall i :: 0 <= i <= lost ==> times[i] == ts - (lost - i) * AudioPipeline.FRAME_US
  {
    FillTimes(Lost(last, seqNum), ts, Answers(), Lost(last, seqNum));
  }

  /** No run of losses is longer than what gets concealed. */
  predicate ShortGaps(received: seq<int>) {
    forall j :: 0 <= j < |received| - 1 ==> received[j + 1] - received[j] <= MAX_CONCEALED + 1
  }

  /** Neighbouring timestamps are 10 ms apart, give or take one slew. */
  predicate Spaced(stamps: seq<int>, s: nat)
    requires s + 1 < |stamps|
  {
    Abs(stamps[s + 1] - stamps[s] - AudioPipeline.FRAME_US) <= AudioPipeline.SLEW_US
  }

  predicate AllSpaced(stamps: seq<int>) {
    forall s :: 0 <= s < |stamps| - 1 ==> Spaced(stamps, s)
  }

  /** Across every gap the server's timestamps are 10 ms apart, give or take one slew; otherwise they increase. */
  predicate NoSnapInGaps(received: seq<int>, stamps: seq<int>)
    requires InOrder(received, stamps)
  {
    forall j :: 0 <= j < |received| - 1 ==> GapOk(stamps, received[j], received[j + 1])
  }

  predicate GapOk(stamps: seq<int>, a: nat, b: nat)
    requires a < b < |stamps|
  {
    if b == a + 1 then stamps[a] < stamps[b]
    else forall s :: a <= s < b ==> Spaced(stamps, s)
  }

  lemma {:induction false} GapSpan(stamps: seq<int>, a: nat, s: nat, b: nat)
    requires a <= s <= b < |stamps| && a + 1 < b && GapOk(stamps, a, b)
    ensures Abs(stamps[b] - stamps[s] - (b - s) * AudioPipeline.FRAME_US) <= AudioPipeline.SLEW_US * (b - s)
    decreases b - s
  {
    if s < b {
      GapSpan(stamps, a, s + 1, b);
      assert Spaced(stamps, s);
    }
  }

  /** The number of frames a complete timeline has. */
  function Extent(received: seq<int>): int
    requires received != []
  {
    received[|received| - 1] - received[0] + 1
  }

  /** One entry per sequence number, if and only if no loss run exceeds ten frames. */
  lemma {:induction false} OneEntryPerSeqNum(received: seq<int>, stamps: seq<int>)
    requires InOrder(received, stamps) && received != []
    ensures |Timeline(received, stamps)| <= Extent(received)
    ensures |Timeline(received, stamps)| == Extent(received) <==> ShortGaps(received)
    decreases |received|
  {
    var k := |received| - 1;
    PacketTimes(if k == 0 then 0 else received[k - 1], received[k], stamps[received[k]]);
    if k > 0 {
      OneEntryPerSeqNum(received[..k], stamps);
      ShortGapsSnoc(received);
    } else {
      assert Timeline(received[..0], stamps) == [];
    }
  }

  /**
   Eleven losses in a row leave a hole: after numbers 1 and 13 the timeline has
   twelve entries for thirteen numbers, and the one behind the first packet's
   already stands for number 3.
   */
  lemma ElevenLossesLeaveAHole(stamps: seq<int>)
    requires 13 < |stamps| <= UINT32
    ensures var times := Timeline([1, 13], stamps);
            && |times| == 12 && Extent([1, 13]) == 13
            && times[0] == stamps[1] && times[1] == stamps[13] - (13 - 3) * AudioPipeline.FRAME_US
  {
    PacketTimes(0, 1, stamps[1]);
    PacketTimes(1, 13, stamps[13]);
    assert [1, 13][..1] == [1] && [1][..0] == [];
    assert Timeline([1], stamps) == Timeline([], stamps) + TimesOf(Handled(0, 1, stamps[1], Answers(), 480));
  }

  lemma ShortGapsSnoc(received: seq<int>)
    requires |received| > 1
    ensures var k := |received| - 1;
            ShortGaps(received) <==> ShortGaps(received[..k]) && received[k] - received[k - 1] <= MAX_CONCEALED + 1
  {
    var k := |received| - 1;
    assert received[k] == received[(k - 1) + 1];
    if ShortGaps(received[..k]) && received[k] - received[k - 1] <= MAX_CONCEALED + 1 {
      forall j | 0 <= j < k
        ensures received[j + 1] - received[j] <= MAX_CONCEALED + 1
      {
        if j < k - 1 {
          assert received[..k][j + 1] - received[..k][j] <= MAX_CONCEALED + 1;
        }
      }
    }
  }

  // ---- Late packets and failing decodes -------------------------------------------

  /** A packet that is late, doubled or the next one conceals nothing: only its own frame is pushed. */
  lemma LatePacketConcealsNothing(last: int, seqNum: int, ts: int, missing: seq<int>, decoded: int)
    requires 0 <= last < UINT32 - 1 && 0 <= seqNum <= last + 1 && seqNum < UINT32 && |missing| == MAX_CONCEALED
    ensures Handled(last, seqNum, ts, missing, decoded) == if decoded > 0 then [Pushed(decoded, ts)] else []
  {
  }

  /** The first packet of all, and any packet after number zero, conceals nothing either. */
  lemma FirstPacketConcealsNothing(seqNum: int, ts: int, missing: seq<int>, decoded: int)
    requires 0 <= seqNum < UINT32 && |missing| == MAX_CONCEALED
    ensures Handled(0, seqNum, ts, missing, decoded) == if decoded > 0 then [Pushed(decoded, ts)] else []
  {
  }

  /** After the largest number, the ones that wrapped around to the packet are concealed. */
  lemma WrapConceals(seqNum: int, ts: int)
    requires 0 < seqNum < UINT32
    ensures |Handled(UINT32 - 1, seqNum, ts, Answers(), 480)| == Min(seqNum, 10) + 1
  {
    FillTimes(Lost(UINT32 - 1, seqNum), ts, Answers(), Lost(UINT32 - 1, seqNum));
  }

  /** The decodes that succeed, in order. */
  function Succeeding(answers: seq<int>): seq<int>
    decreases |answers|
  {
    if answers == [] then []
    else
      var a := answers[|answers| - 1];
      Succeeding(answers[..|answers| - 1]) + if a > 0 then [a] else []
  }

  function SizesOf(pushes: seq<Pushed>): (sizes: seq<int>)
    ensures |sizes| == |pushes|
  {
    seq(|pushes|, i requires 0 <= i < |pushes| => pushes[i].samples)
  }

  /**
   A failing decode pushes nothing, and leaves the others where they belong: what
   is pushed before a packet are the decodes that succeed, each in its place of
   the gap, at most ten places long.
   */
  lemma {:induction false} FillsAreDecodes(lost: nat, ts: int, missing: seq<int>, n: nat)
    requires n <= lost <= |missing|
    ensures SizesOf(Fills(lost, ts, missing, n)) == Succeeding(missing[..n])
    ensures forall p :: p in Fills(lost, ts, missing, n) ==> InPlace(p, lost, ts, missing, n)
  {
    if n > 0 {
      FillsAreDecodes(lost, ts, missing, n - 1);
      assert missing[..n][..n - 1] == missing[..n - 1];
      forall p | p in Fills(lost, ts, missing, n)
        ensures InPlace(p, lost, ts, missing, n)
      {
        if p in Fills(lost, ts, missing, n - 1) {
          var i :| 0 <= i < n - 1 && AtPlace(p, lost, ts, missing, i);
          assert AtPlace(p, lost, ts, missing, i);
        } else {
          assert AtPlace(p, lost, ts, missing, n - 1);
        }
      }
    }
  }

  /** The frame pushed for place `i` of a gap of `lost`: its own decode, `lost - i` frames before the packet. */
  predicate AtPlace(p: Pushed, lost: nat, ts: int, missing: seq<int>, i: nat)
    requires i < |missing|
  {
    p.samples == missing[i] && p.timestampUs == ts - (lost - i) * 10_000
  }

  predicate InPlace(p: Pushed, lost: nat, ts: int, missing: seq<int>, n: nat)
    requires n <= |missing|
  {
    exists i :: 0 <= i < n && AtPlace(p, lost, ts, missing, i)
  }

  // ---- Any delivery ---------------------------------------------------------------

  /** An entry of the timeline: the sequence number it stands for, and the packet it was pushed with. */
  datatype Entry = Entry(number: int, packet: int)

  /** The entries one packet adds after packet `last`: those concealed, and its own. */
  function Added(last: int, seqNum: int): (entries: seq<Entry>)
    requires 0 <= last < UINT32 && 0 <= seqNum < UINT32
    ensures |entries| == Lost(last, seqNum) + 1
  {
    var lost := Lost(last, seqNum);
    seq(lost + 1, i requires 0 <= i <= lost => Entry(seqNum - lost + i, seqNum))
  }

  function Entries(received: seq<int>): seq<Entry>
    requires forall j :: 0 <= j < |received| ==> 0 < received[j] < UINT32
    decreases |received|
  {
    if received == [] then []
    else
      var k := |received| - 1;
      Entries(received[..k]) + Added(if k == 0 then 0 else received[k - 1], received[k])
  }

  /** The timestamp of an entry is that of its packet, counted back by 10 ms for each number in between. */
  predicate Dates(time: int, entry: Entry, stamps: seq<int>) {
    && 0 < entry.packet < |stamps|
    && time == stamps[entry.packet] - (entry.packet - entry.number) * AudioPipeline.FRAME_US
  }

  predicate AllDate(times: seq<int>, entries: seq<Entry>, stamps: seq<int>) {
    |times| == |entries| && forall i :: 0 <= i < |times| ==> Dates(times[i], entries[i], stamps)
  }

  lemma AddedDate(last: int, seqNum: int, stamps: seq<int>)
    requires 0 <= last < UINT32 && 0 < seqNum < |stamps| <= UINT32
    ensures AllDate(TimesOf(Handled(last, seqNum, stamps[seqNum], Answers(), 480)), Added(last, seqNum), stamps)
  {
    var lost := Lost(last, seqNum);
    FillTimes(lost, stamps[seqNum], Answers(), lost);
  }

  lemma {:induction false} TimelineIsEntries(received: seq<int>, stamps: seq<int>)
    requires Delivered(received, stamps)
    ensures AllDate(Timeline(received, stamps), Entries(received), stamps)
    decreases |received|
  {
    if received != [] {
      var k := |received| - 1;
      var last := if k == 0 then 0 else received[k - 1];
      TimelineIsEntries(received[..k], stamps);
      AddedDate(last, received[k], stamps);
      var pushed := TimesOf(Handled(last, received[k], stamps[received[k]], Answers(), 480));
      BothDate(Timeline(received[..k], stamps), Entries(received[..k]), pushed, Added(last, received[k]), stamps);
    }
  }

  lemma BothDate(a: seq<int>, b: seq<Entry>, c: seq<int>, d: seq<Entry>, stamps: seq<int>)
    requires AllDate(a, b, stamps) && AllDate(c, d, stamps)
    ensures AllDate(a + c, b + d, stamps)
  {
  }

  /** The packet received before packet `k`, or zero. */
  function Previous(received: seq<int>, k: nat): int
    requires k < |received|
  {
    if k == 0 then 0 else received[k - 1]
  }

  /** An entry is its packet's own, or stands for a number strictly between that packet's and the one before. */
  predicate Between(entry: Entry, received: seq<int>, k: nat)
    requires k < |received|
  {
    entry.packet == received[k] &&
    (entry.number == entry.packet || 0 < Previous(received, k) < entry.number < entry.packet)
  }

  lemma AddedBetween(last: int, seqNum: int)
    requires 0 <= last < UINT32 - 1 && 0 < seqNum < UINT32
    ensures forall i :: 0 <= i < |Added(last, seqNum)| - 1 ==> 0 < last < Added(last, seqNum)[i].number < seqNum
    ensures Added(last, seqNum)[|Added(last, seqNum)| - 1] == Entry(seqNum, seqNum)
  {
    LostLiesInGap(last, seqNum);
  }

  /** As many numbers are concealed as there are between the packets, or ten of them. */
  lemma LostLiesInGap(last: int, seqNum: int)
    requires 0 <= last < UINT32 - 1 && 0 < seqNum < UINT32
    ensures Lost(last, seqNum) == if 0 < last < seqNum then Min(seqNum - last - 1, 10) else 0
  {
  }

  /** In any delivery, without the largest number, what is concealed lies in the gap that the packet opened. */
  lemma {:induction false} ConcealedLiesInGaps(received: seq<int>, i: nat) returns (k: nat)
    requires forall j :: 0 <= j < |received| ==> 0 < received[j] < UINT32 - 1
    requires i < |Entries(received)|
    ensures k < |received| && Between(Entries(received)[i], received, k)
    decreases |received|
  {
    var n := |received| - 1;
    var before := Entries(received[..n]);
    if i < |before| {
      k := ConcealedLiesInGaps(received[..n], i);
    } else {
      k := n;
      AddedBetween(Previous(received, n), received[n]);
    }
  }

  /** The numbers from `a` to `b`, each once and in order. */
  predicate Consecutive(entries: seq<Entry>, a: int, b: int) {
    |entries| == b - a + 1 && forall i :: 0 <= i < |entries| ==> entries[i].number == a + i
  }

  /**
   For any delivery, reordered and doubled packets included: the timeline has one
   entry for each number from the first packet's to the last one's, in order,
   exactly when the packets came in order and no loss run exceeds ten.
   */
  lemma {:induction false} OneEntryPerNumberIff(received: seq<int>)
    requires received != [] && forall j :: 0 <= j < |received| ==> 0 < received[j] < UINT32
    ensures Consecutive(Entries(received), received[0], received[|received| - 1])
            <==> Increasing(received) && ShortGaps(received)
    decreases |received|
  {
    var k := |received| - 1;
    if k == 0 {
      assert Entries(received[..0]) == [];
    } else {
      OneEntryPerNumberIff(received[..k]);
      IncreasingSnoc(received);
      ShortGapsSnoc(received);
      LastEntry(received[..k]);
      AddedContinues(Entries(received[..k]), received[0], received[k - 1], received[k]);
    }
  }

  lemma IncreasingSnoc(received: seq<int>)
    requires |received| > 1
    ensures var k := |received| - 1;
            Increasing(received) <==> Increasing(received[..k]) && received[k - 1] < received[k]
  {
    var k := |received| - 1;
    if Increasing(received[..k]) && received[k - 1] < received[k] {
      forall i, j | 0 <= i < j < |received|
        ensures received[i] < received[j]
      {
        assert i < k - 1 ==> received[..k][i] < received[..k][k - 1];
        assert j < k ==> received[..k][i] < received[..k][j];
      }
    }
  }

  /** The last entry of a timeline is the last packet's own. */
  lemma LastEntry(received: seq<int>)
    requires received != [] && forall j :: 0 <= j < |received| ==> 0 < received[j] < UINT32
    ensures var entries, last := Entries(received), received[|received| - 1];
            entries != [] && entries[|entries| - 1] == Entry(last, last)
  {
  }

  /** One packet continues the numbers exactly when it is ahead by eleven at most. */
  lemma AddedContinues(entries: seq<Entry>, first: int, last: int, seqNum: int)
    requires 0 < last < UINT32 && 0 < seqNum < UINT32
    requires entries != [] && entries[|entries| - 1] == Entry(last, last)
    ensures Consecutive(entries + Added(last, seqNum), first, seqNum)
            <==> Consecutive(entries, first, last) && last < seqNum && seqNum - last <= MAX_CONCEALED + 1
  {
    var all, added, n := entries + Added(last, seqNum), Added(last, seqNum), |entries|;
    assert all[n - 1] == entries[n - 1] && all[n] == added[0];
    if Consecutive(all, first, seqNum) {
      assert forall i :: 0 <= i < n ==> entries[i] == all[i];
      assert added[0].number == last + 1;
    }
  }

  /** How many frames before the next packet received the frame numbered `s` comes. */
  function Ahead(received: seq<int>, s: int): int
    requires received != []
    decreases |received|
  {
    var k := |received| - 1;
    if k > 0 && s <= received[k - 1] then Ahead(received[..k], s) else received[k] - s
  }

  /** A pushed timestamp is within 20 us per frame ahead, of ten at most, of what the server stamped that frame with. */
  predicate CloseTo(time: int, stamp: int, ahead: int) {
    0 <= ahead <= MAX_CONCEALED && Abs(time - stamp) <= AudioPipeline.SLEW_US * ahead
  }

  /**
   Entry `i` stands for sequence number first + i: the server's own timestamp
   for every packet received, and for every packet lost within 20 us of it per
   frame to the next packet received; and the entries strictly increase.
   */
  predicate Rebuilt(times: seq<int>, received: seq<int>, stamps: seq<int>)
    requires InOrder(received, stamps) && received != []
  {
    && |times| == Extent(received)
    && (forall i :: 0 <= i < |times| ==> CloseTo(times[i], stamps[received[0] + i], Ahead(received, received[0] + i)))
    && (forall j :: 0 <= j < |received| ==> times[received[j] - received[0]] == stamps[received[j]])
    && (forall i, j :: 0 <= i < j < |times| ==> times[i] < times[j])
  }

  /** Concealment rebuilds the server's timeline over any delivery with short gaps and no snap inside one. */
  lemma {:induction false} TimelineRebuilt(received: seq<int>, stamps: seq<int>)
    requires InOrder(received, stamps) && received != [] && ShortGaps(received) && NoSnapInGaps(received, stamps)
    ensures Rebuilt(Timeline(received, stamps), received, stamps)
    decreases |received|
  {
    var k := |received| - 1;
    if k == 0 {
      PacketTimes(0, received[0], stamps[received[0]]);
      assert Timeline(received[..0], stamps) == [];
    } else {
      ShortGapsSnoc(received);
      NoSnapPrefix(received, stamps);
      TimelineRebuilt(received[..k], stamps);
      GapTimes(received[k - 1], received[k], stamps);
      Extends(Timeline(received[..k], stamps),
              TimesOf(Handled(received[k - 1], received[k], stamps[received[k]], Answers(), 480)), received, stamps);
    }
  }

  lemma NoSnapPrefix(received: seq<int>, stamps: seq<int>)
    requires InOrder(received, stamps) && |received| > 1 && NoSnapInGaps(received, stamps)
    ensures var k := |received| - 1;
            NoSnapInGaps(received[..k], stamps) && GapOk(stamps, received[k - 1], received[k])
  {
    var k := |received| - 1;
    assert GapOk(stamps, received[k - 1], received[(k - 1) + 1]);
    forall j | 0 <= j < k - 1
      ensures GapOk(stamps, received[..k][j], received[..k][j + 1])
    {
      assert GapOk(stamps, received[j], received[j + 1]);
    }
  }

  /** A rebuilt timeline followed by the times of the next packet is rebuilt. */
  lemma Extends(times: seq<int>, more: seq<int>, received: seq<int>, stamps: seq<int>)
    requires InOrder(received, stamps) && |received| > 1
    requires Rebuilt(times, received[..|received| - 1], stamps)
    requires var a, b := received[|received| - 2], received[|received| - 1];
             Bridges(more, a, b, stamps)
    ensures Rebuilt(times + more, received, stamps)
  {
    var k := |received| - 1;
    var first, a, b := received[0], received[k - 1], received[k];
    assert received[..k][k - 1] == a && times[a - first] == stamps[a];
    var all := times + more;
    forall i | 0 <= i < |all|
      ensures CloseTo(all[i], stamps[first + i], Ahead(received, first + i))
    {
      if i >= |times| {
        assert CloseTo(more[i - |times|], stamps[a + 1 + (i - |times|)], b - a - 1 - (i - |times|));
      } else {
        assert received[..k][0] == first && received[..k][..k] == received[..k];
      }
    }
    forall j | 0 <= j < |received|
      ensures all[received[j] - first] == stamps[received[j]]
    {
      if j < k {
        assert received[..k][j] == received[j];
      }
    }
    forall i, j | 0 <= i < j < |all|
      ensures all[i] < all[j]
    {
      if i < |times| <= j {
        assert times[i] <= times[|times| - 1] < more[0] <= more[j - |times|];
      }
    }
  }

  /** The times pushed for packet `b` after packet `a`: close, ending in b's own, increasing, and later than a's. */
  predicate Bridges(times: seq<int>, a: int, b: int, stamps: seq<int>)
    requires 0 < a < b < |stamps|
  {
    && |times| == b - a && times[b - a - 1] == stamps[b] && stamps[a] < times[0]
    && (forall i :: 0 <= i < b - a ==> CloseTo(times[i], stamps[a + 1 + i], b - a - 1 - i))
    && (forall i, j :: 0 <= i < j < b - a ==> times[i] < times[j])
  }

  /** What one packet adds to the timeline after a gap of at most ten losses. */
  lemma GapTimes(a: nat, b: nat, stamps: seq<int>)
    requires 0 < a < b < |stamps| <= UINT32 && b - a <= MAX_CONCEALED + 1 && GapOk(stamps, a, b)
    ensures Bridges(TimesOf(Handled(a, b, stamps[b], Answers(), 480)), a, b, stamps)
  {
    PacketTimes(a, b, stamps[b]);
    if a + 1 < b {
      GapSpan(stamps, a, a, b);
      var times := TimesOf(Handled(a, b, stamps[b], Answers(), 480));
      forall i | 0 <= i < b - a
        ensures CloseTo(times[i], stamps[a + 1 + i], b - a - 1 - i)
      {
        GapSpan(stamps, a, a + 1 + i, b);
      }
    }
  }

  // ---- From the capture loop to the jitter buffer --------------------------------

  /** What concealment makes of a delivery in order and with short gaps is the timeline of these stamps. */
  predicate Rebuilds(received: seq<int>, stamps: seq<int>) {
    InOrder(received, stamps) && received != [] && ShortGaps(received) ==>
      Rebuilt(Timeline(received, stamps), received, stamps)
  }

  predicate Logged(log: seq<StreamManager.Frame>, sent: seq<nat>) {
    forall k :: 0 <= k < |sent| ==> sent[k] < |log|
  }

  /** The timestamp and the number a client reads from a datagram; a datagram it refuses has none. */
  function StampOf(datagram: seq<byte>): int {
    match Wire.CppParse(datagram)
    case Some(p) => p.timestampUs
    case None => 0
  }

  function NumberOf(datagram: seq<byte>): int {
    match Wire.CppParse(datagram)
    case Some(p) => p.seqNum
    case None => 0
  }

  /** The timestamps that a client reads from its datagrams. */
  predicate ReadFrom(times: seq<int>, log: seq<StreamManager.Frame>, sent: seq<nat>)
    requires Logged(log, sent)
  {
    && |times| == |sent|
    && forall k {:trigger StreamManager.Datagram(log, sent, k)} :: 0 <= k < |sent| ==>
         times[k] == StampOf(StreamManager.Datagram(log, sent, k))
  }

  /** Each is that of the frame as queued, under a number that counts from one. */
  lemma ReadFromDatagram(log: seq<StreamManager.Frame>, sent: seq<nat>, k: nat)
    requires k < |sent| && Logged(log, sent)
    ensures StampOf(StreamManager.Datagram(log, sent, k)) == log[sent[k]].captureUs
    ensures NumberOf(StreamManager.Datagram(log, sent, k)) == (k + 1) % UINT32
  {
    StreamManager.DatagramShowsFrame(log, sent, k);
  }

  function WithPlaceZero(times: seq<int>): (stamps: seq<int>)
    requires times != []
    ensures |stamps| == |times| + 1 && forall k :: 0 <= k < |times| ==> stamps[k + 1] == times[k]
  {
    [times[0] - AudioPipeline.FRAME_US] + times
  }

  /** A client's timestamps by sequence number; the first number is 1, and place 0 is unused. */
  function ByNumber(times: seq<int>): (stamps: seq<int>)
    ensures |stamps| == |times| + 1
  {
    if times == [] then [0] else WithPlaceZero(times)
  }

  /**
   From the capture loop to the jitter buffer. A client is sent every frame of
   its channel from some capture on, one for each capture, and none is dropped
   before the queue; the wall clock is steady. Then what concealment makes of any
   delivery with short gaps, from the timestamps read from the datagrams, is the
   timeline of the loop.
   */
  lemma TimelineFollowsPipeline(p: AudioPipeline.Pipeline, inputs: seq<AudioPipeline.Read>,
                                log: seq<StreamManager.Frame>, sent: seq<nat>, mask: byte, skipped: nat,
                                times: seq<int>, received: seq<int>)
    requires AudioPipeline.FullFrames(inputs) && AudioPipeline.Steady(AudioPipeline.Nows(inputs), 20)
    requires Numbering.OneEach(mask, inputs) && Numbering.NothingDropped(log, p, inputs)
    requires Numbering.ServedThroughout(log, sent, mask, skipped)
    requires Logged(log, sent) && ReadFrom(times, log, sent)
    ensures skipped + |sent| <= |AudioPipeline.Nows(inputs)|
    ensures times == AudioPipeline.Stamps(p, AudioPipeline.Nows(inputs))[skipped..skipped + |sent|]
    ensures Rebuilds(received, ByNumber(times))
  {
    Numbering.NumbersFollowCaptures(p, inputs, log, sent, mask, skipped);
    TimesAreCaptures(AudioPipeline.Stamps(p, AudioPipeline.Nows(inputs)), log, sent, skipped, times);
    SteadyRebuilds(p, AudioPipeline.Nows(inputs), skipped, times, received);
  }

  lemma TimesAreCaptures(captures: seq<int>, log: seq<StreamManager.Frame>, sent: seq<nat>, skipped: nat,
                         times: seq<int>)
    requires Numbering.Follows(log, sent, captures, skipped) && Logged(log, sent) && ReadFrom(times, log, sent)
    ensures times == captures[skipped..skipped + |sent|]
  {
    forall k | 0 <= k < |sent|
      ensures times[k] == captures[skipped + k]
    {
      ReadFromDatagram(log, sent, k);
    }
  }

  lemma SteadyRebuilds(p: AudioPipeline.Pipeline, nows: seq<int>, skipped: nat, times: seq<int>, received: seq<int>)
    requires AudioPipeline.Steady(nows, 20) && skipped + |times| <= |nows|
    requires times == AudioPipeline.Stamps(p, nows)[skipped..skipped + |times|]
    ensures Rebuilds(received, ByNumber(times))
  {
    SteadySpaced(p, nows);
    SliceRebuilds(AudioPipeline.Stamps(p, nows), skipped, times, received);
  }

  lemma SliceRebuilds(captures: seq<int>, skipped: nat, times: seq<int>, received: seq<int>)
    requires AllSpaced(captures) && skipped + |times| <= |captures| && times == captures[skipped..skipped + |times|]
    ensures Rebuilds(received, ByNumber(times))
  {
    SliceSpaced(captures, skipped, skipped + |times|);
    SpacedTimesRebuild(times, received);
  }

  lemma SpacedTimesRebuild(times: seq<int>, received: seq<int>)
    requires AllSpaced(times)
    ensures Rebuilds(received, ByNumber(times))
  {
    if times == [] {
      OneStampSpaced();
    } else {
      SpacedBehind(times);
    }
    SpacedRebuilds(received, ByNumber(times));
  }

  lemma SteadySpaced(p: AudioPipeline.Pipeline, nows: seq<int>)
    requires AudioPipeline.Steady(nows, 20)
    ensures AllSpaced(AudioPipeline.Stamps(p, nows))
  {
    forall s | 0 <= s < |nows| - 1
      ensures Spaced(AudioPipeline.Stamps(p, nows), s)
    {
      AudioPipeline.SteadyStamps(p, nows, s);
    }
  }

  lemma OneStampSpaced()
    ensures AllSpaced([0])
  {
  }

  lemma SliceSpaced(stamps: seq<int>, from: nat, to: nat)
    requires from <= to <= |stamps| && AllSpaced(stamps)
    ensures AllSpaced(stamps[from..to])
  {
    forall s | 0 <= s < to - from - 1
      ensures Spaced(stamps[from..to], s)
    {
      assert Spaced(stamps, from + s);
    }
  }

  lemma SpacedBehind(times: seq<int>)
    requires times != [] && AllSpaced(times)
    ensures AllSpaced(WithPlaceZero(times))
  {
    var stamps := WithPlaceZero(times);
    forall s | 0 <= s < |times|
      ensures Spaced(stamps, s)
    {
      if s > 0 {
        assert Spaced(times, s - 1);
      }
    }
  }

  lemma SpacedRebuilds(received: seq<int>, stamps: seq<int>)
    requires AllSpaced(stamps)
    ensures Rebuilds(received, stamps)
  {
    if InOrder(received, stamps) && received != [] && ShortGaps(received) {
      SteadyHasNoSnap(received, stamps);
      TimelineRebuilt(received, stamps);
    }
  }

  lemma SteadyHasNoSnap(received: seq<int>, stamps: seq<int>)
    requires InOrder(received, stamps)
    requires AllSpaced(stamps)
    ensures NoSnapInGaps(received, stamps)
  {
    forall j | 0 <= j < |received| - 1
      ensures GapOk(stamps, received[j], received[j + 1])
    {
      assert Spaced(stamps, received[j]);
    }
  }
}
