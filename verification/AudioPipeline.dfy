/**
 Capture timestamps on the server: counted in samples from one anchor, slewed
 by 20 us per frame towards the wall clock, and snapped to it beyond 100 ms.
 The encoder accepts 48 kHz only, and reads 10 ms frames of 480 sample groups.
 */
module AudioPipeline {
  import opened Bytes
  import opened Common

  const FRAME_SAMPLES: nat := 480
  const FRAME_US: int := 10_000
  const SNAP_US: int := 100_000
  const SLEW_THRESHOLD_US: int := 5_000
  const SLEW_US: int := 20

  /** The anchor and the number of sample groups processed since. */
  datatype Pipeline = Pipeline(startUs: int, total: nat) {
    /** The timestamp before the wall clock is consulted. */
    function Raw(): int {
      startUs + total * 1_000_000 / 48_000
    }

    /** How far the wall clock is ahead of it. */
    function Delta(nowUs: int): int {
      nowUs - Raw()
    }

    predicate Snaps(nowUs: int) {
      Delta(nowUs) > SNAP_US || Delta(nowUs) < -SNAP_US
    }

    /** The timestamp a frame is sent with. */
    function Stamp(nowUs: int): int {
      if Snaps(nowUs) then Raw() + Delta(nowUs) else Raw()
    }

    /** What is added to the anchor for the frames to come. */
    function Shift(nowUs: int): int {
      var d := Delta(nowUs);
      if Snaps(nowUs) then d
      else if d > SLEW_THRESHOLD_US then SLEW_US
      else if d < -SLEW_THRESHOLD_US then -SLEW_US
      else 0
    }

    function Next(nowUs: int, samples: nat): Pipeline {
      Pipeline(startUs + Shift(nowUs), total + samples)
    }
  }

  // ---- The loop ---------------------------------------------------------------

  /** One encoder's share of a frame: its channel, and whether encoding succeeded. */
  datatype Encoding = Encoding(channel: byte, ok: bool)

  /**
   What one turn of the capture loop reads. In stereo mode a frame has one
   encoding, in surround mode one per channel; none when demuxing fails.
   */
  datatype Read = Failed | Nothing | Captured(samples: nat, nowUs: int, encodings: seq<Encoding>)

  function Advance(p: Pipeline, r: Read): Pipeline {
    match r
    case Captured(samples, nowUs, _) => p.Next(nowUs, samples)
    case _ => p
  }

  function Process(p: Pipeline, inputs: seq<Read>): Pipeline
    decreases |inputs|
  {
    if inputs == [] then p else Advance(Process(p, inputs[..|inputs| - 1]), inputs[|inputs| - 1])
  }

  /** A frame handed to the stream manager. */
  datatype Stamped = Stamped(channel: byte, captureUs: int)

  /** What one captured frame hands over: its encoded channels, all under one timestamp. */
  function Outgoing(encodings: seq<Encoding>, captureUs: int): seq<Stamped>
    decreases |encodings|
  {
    if encodings == [] then []
    else
      var before, e := encodings[..|encodings| - 1], encodings[|encodings| - 1];
      Outgoing(before, captureUs) + if e.ok then [Stamped(e.channel, captureUs)] else []
  }

  /** The frames handed to the stream, in order. */
  function Sent(p: Pipeline, inputs: seq<Read>): seq<Stamped>
    decreases |inputs|
  {
    if inputs == [] then []
    else
      var before, r := inputs[..|inputs| - 1], inputs[|inputs| - 1];
      Sent(p, before) + if r.Captured? then Outgoing(r.encodings, Process(p, before).Stamp(r.nowUs)) else []
  }

  class AudioPipeline {
    var pipelineStartUs: int
    var totalSamplesProcessed: nat

    function View(): Pipeline
      reads this
    {
      Pipeline(pipelineStartUs, totalSamplesProcessed)
    }

    constructor (nowUs: int)
      ensures View() == Pipeline(nowUs, 0)
    {
      pipelineStartUs, totalSamplesProcessed := nowUs, 0;
    }

    method StampFrame(samples: nat, nowUs: int) returns (captureTs: int)
      modifies this
      ensures captureTs == old(View()).Stamp(nowUs) && View() == old(View()).Next(nowUs, samples)
    {
      captureTs := pipelineStartUs + totalSamplesProcessed * 1_000_000 / 48_000;
      var deltaUs := nowUs - captureTs;
      if deltaUs > SNAP_US || deltaUs < -SNAP_US {
        pipelineStartUs := pipelineStartUs + deltaUs;
        captureTs := captureTs + deltaUs;
      } else if deltaUs > SLEW_THRESHOLD_US {
        pipelineStartUs := pipelineStartUs + SLEW_US;
      } else if deltaUs < -SLEW_THRESHOLD_US {
        pipelineStartUs := pipelineStartUs - SLEW_US;
      }
      totalSamplesProcessed := totalSamplesProcessed + samples;
    }

    /** Runs the loop over the outcomes of its reads until the context is done. */
    method Run(inputs: seq<Read>) returns (sent: seq<Stamped>)
      modifies this
      ensures View() == Process(old(View()), inputs) && sent == Sent(old(View()), inputs)
    {
      sent := [];
      for k := 0 to |inputs|
        invariant View() == Process(old(View()), inputs[..k]) && sent == Sent(old(View()), inputs[..k])
      {
        assert inputs[..k + 1][..k] == inputs[..k];
        match inputs[k] {
          case Failed =>
          case Nothing =>
          case Captured(samples, nowUs, encodings) =>
            var captureTs := StampFrame(samples, nowUs);
            var frames := SendEncoded(encodings, captureTs);
            sent := sent + frames;
        }
      }
      assert inputs[..|inputs|] == inputs;
    }

    /** The loop over the encoders: one that fails is passed over. */
    method SendEncoded(encodings: seq<Encoding>, captureTs: int) returns (frames: seq<Stamped>)
      ensures frames == Outgoing(encodings, captureTs)
    {
      frames := [];
      for k := 0 to |encodings|
        invariant frames == Outgoing(encodings[..k], captureTs)
      {
        assert encodings[..k + 1][..k] == encodings[..k];
        if encodings[k].ok {
          frames := frames + [Stamped(encodings[k].channel, captureTs)];
        }
      }
      assert encodings[..|encodings|] == encodings;
    }
  }

  // ---- What holds of every frame ------------------------------------------------

  /** Every frame is stamped within 100 ms of the wall clock, whatever was read before. */
  lemma StampNearWallClock(p: Pipeline, nowUs: int)
    ensures Abs(nowUs - p.Stamp(nowUs)) <= SNAP_US
  {
  }

  /** A frame of 480 sample groups moves the raw timestamp by exactly 10 ms and the shift. */
  lemma FrameAdvances(p: Pipeline, nowUs: int)
    ensures p.Next(nowUs, FRAME_SAMPLES).Raw() == p.Raw() + p.Shift(nowUs) + FRAME_US
  {
    assert (p.total + 480) * 1_000_000 == p.total * 1_000_000 + 10_000 * 48_000;
  }

  /** Counted from the anchor, 10 ms for every 480 sample groups. */
  lemma RawCountsFromAnchor(startUs: int, frames: nat)
    ensures Pipeline(startUs, frames * 480).Raw() == startUs + frames * 10_000
  {
    assert frames * 480 * 1_000_000 == frames * 10_000 * 48_000;
  }

  /** Beyond 100 ms the frame is stamped with the wall clock, and within it with the count. */
  lemma StampOrSnap(p: Pipeline, nowUs: int)
    ensures p.Stamp(nowUs) == if -100_000 <= nowUs - p.Raw() <= 100_000 then p.Raw() else nowUs
  {
  }

  /** The frames to come are moved onto the wall clock by a snap, and 20 us towards it beyond 5 ms. */
  lemma ShiftTowardsClock(p: Pipeline, nowUs: int, samples: nat)
    ensures var ahead := nowUs - p.Raw();
            p.Next(nowUs, samples).startUs - p.startUs
            == if ahead > 100_000 || ahead < -100_000 then ahead
               else if ahead > 5_000 then 20 else if ahead < -5_000 then -20 else 0
    ensures p.Next(nowUs, samples).total == p.total + samples
  {
  }

  /** Consecutive timestamps differ by 10 ms, give or take one slew, unless the later frame snaps. */
  lemma ConsecutiveStamps(p: Pipeline, nowUs: int, laterUs: int)
    ensures var q := p.Next(nowUs, FRAME_SAMPLES);
            q.Snaps(laterUs) || q.Stamp(laterUs) - p.Stamp(nowUs) in {FRAME_US - SLEW_US, FRAME_US, FRAME_US + SLEW_US}
  {
    FrameAdvances(p, nowUs);
  }

  // ---- The control loop over whole runs -----------------------------------------

  /** The pipeline before frame `k`, when frame `i` is read at wall-clock time `nows[i]`. */
  function Before(p: Pipeline, nows: seq<int>, k: nat): Pipeline
    requires k <= |nows|
  {
    if k == 0 then p else Before(p, nows, k - 1).Next(nows[k - 1], FRAME_SAMPLES)
  }

  function DeltaAt(p: Pipeline, nows: seq<int>, k: nat): int
    requires k < |nows|
  {
    Before(p, nows, k).Delta(nows[k])
  }

  /** The wall clock advances by 10 ms per frame, give or take `tolerance`. */
  predicate Steady(nows: seq<int>, tolerance: nat) {
    forall k :: 0 <= k < |nows| - 1 ==> Abs(nows[k + 1] - nows[k] - FRAME_US) <= tolerance
  }

  lemma DeltaStep(p: Pipeline, nows: seq<int>, k: nat)
    requires k + 1 < |nows|
    ensures DeltaAt(p, nows, k + 1) ==
            DeltaAt(p, nows, k) + (nows[k + 1] - nows[k] - FRAME_US) - Before(p, nows, k).Shift(nows[k])
  {
    FrameAdvances(Before(p, nows, k), nows[k]);
  }

  /** With a steady clock only the first frame can snap. */
  lemma SteadyClockNeverSnaps(p: Pipeline, nows: seq<int>, k: nat)
    requires Steady(nows, 20) && k < |nows| && (k == 0 ==> Abs(DeltaAt(p, nows, 0)) <= SNAP_US)
    ensures Abs(DeltaAt(p, nows, k)) <= SNAP_US && !Before(p, nows, k).Snaps(nows[k])
  {
    if k > 0 {
      DeltaStep(p, nows, k - 1);
      assert Abs(nows[(k - 1) + 1] - nows[k - 1] - FRAME_US) <= 20;
    }
  }

  lemma SmallDeltaStays(p: Pipeline, nows: seq<int>, k: nat)
    requires Steady(nows, 20) && k + 1 < |nows| && Abs(DeltaAt(p, nows, k)) <= SLEW_THRESHOLD_US + SLEW_US
    ensures Abs(DeltaAt(p, nows, k + 1)) <= SLEW_THRESHOLD_US + SLEW_US
  {
    DeltaStep(p, nows, k);
    assert Abs(nows[k + 1] - nows[k] - FRAME_US) <= 20;
  }

  /** Once within 5020 us of the wall clock, always within 5020 us. */
  lemma {:induction false} SmallDeltaIsAbsorbing(p: Pipeline, nows: seq<int>, j: nat, k: nat)
    requires Steady(nows, 20) && j <= k < |nows| && Abs(DeltaAt(p, nows, j)) <= SLEW_THRESHOLD_US + SLEW_US
    ensures Abs(DeltaAt(p, nows, k)) <= SLEW_THRESHOLD_US + SLEW_US
    decreases k - j
  {
    if j < k {
      SmallDeltaStays(p, nows, j);
      SmallDeltaIsAbsorbing(p, nows, j + 1, k);
    }
  }

  /** With a clock one microsecond steadier, that range is reached after |delta| - 5000 frames. */
  lemma {:induction false} SmallDeltaIsReached(p: Pipeline, nows: seq<int>, k: nat)
    requires Steady(nows, 19) && k < |nows| && Abs(DeltaAt(p, nows, 0)) <= SNAP_US
    ensures k >= Abs(DeltaAt(p, nows, 0)) - SLEW_THRESHOLD_US ==>
              Abs(DeltaAt(p, nows, k)) <= SLEW_THRESHOLD_US + SLEW_US
    ensures Abs(DeltaAt(p, nows, k)) <= Max(SLEW_THRESHOLD_US + SLEW_US, Abs(DeltaAt(p, nows, 0)) - k)
  {
    if k > 0 {
      SmallDeltaIsReached(p, nows, k - 1);
      DeltaStep(p, nows, k - 1);
      assert Abs(nows[k - 1 + 1] - nows[k - 1] - FRAME_US) <= 19;
    }
  }

  /** The timestamps of the frames read at `nows`. */
  function Stamps(p: Pipeline, nows: seq<int>): (stamps: seq<int>)
    ensures |stamps| == |nows|
  {
    seq(|nows|, k requires 0 <= k < |nows| => Before(p, nows, k).Stamp(nows[k]))
  }

  /** So the timestamps of a steady run are 10 ms apart, give or take one slew, throughout. */
  lemma SteadyStamps(p: Pipeline, nows: seq<int>, k: nat)
    requires Steady(nows, 20) && k + 1 < |nows|
    ensures Abs(Stamps(p, nows)[k + 1] - Stamps(p, nows)[k] - FRAME_US) <= SLEW_US
  {
    SteadyClockNeverSnaps(p, nows, k + 1);
    ConsecutiveStamps(Before(p, nows, k), nows[k], nows[k + 1]);
  }

  /** And they are within 5020 us of the wall clock once |delta| - 5000 frames of a steadier clock have passed. */
  lemma SettledStamps(p: Pipeline, nows: seq<int>, k: nat)
    requires Steady(nows, 19) && k < |nows| && Abs(DeltaAt(p, nows, 0)) <= SNAP_US
    requires k >= Abs(DeltaAt(p, nows, 0)) - SLEW_THRESHOLD_US
    ensures Abs(nows[k] - Stamps(p, nows)[k]) <= SLEW_THRESHOLD_US + SLEW_US
  {
    SmallDeltaIsReached(p, nows, k);
  }

  // ---- What the loop sends ------------------------------------------------------------

  /** When the frames were read; failed and empty reads in between leave no trace. */
  function Nows(inputs: seq<Read>): seq<int>
    decreases |inputs|
  {
    if inputs == [] then []
    else
      var r := inputs[|inputs| - 1];
      Nows(inputs[..|inputs| - 1]) + if r.Captured? then [r.nowUs] else []
  }

  /** Every frame read has 480 sample groups. */
  predicate FullFrames(inputs: seq<Read>) {
    forall k :: 0 <= k < |inputs| ==> inputs[k].Captured? ==> inputs[k].samples == FRAME_SAMPLES
  }

  lemma {:induction false} BeforePrefix(p: Pipeline, nows: seq<int>, more: seq<int>, k: nat)
    requires k <= |nows|
    ensures Before(p, nows + more, k) == Before(p, nows, k)
  {
    if k > 0 {
      BeforePrefix(p, nows, more, k - 1);
    }
  }

  lemma StampsSnoc(p: Pipeline, nows: seq<int>, nowUs: int)
    ensures Stamps(p, nows + [nowUs]) == Stamps(p, nows) + [Before(p, nows, |nows|).Stamp(nowUs)]
  {
    var n, longer := |nows|, Stamps(p, nows + [nowUs]);
    forall k | 0 <= k < n
      ensures longer[k] == Stamps(p, nows)[k]
    {
      BeforePrefix(p, nows, [nowUs], k);
    }
    BeforePrefix(p, nows, [nowUs], n);
    OneLonger(longer, Stamps(p, nows), Before(p, nows, n).Stamp(nowUs));
  }

  lemma OneLonger(longer: seq<int>, s: seq<int>, last: int)
    requires |longer| == |s| + 1 && longer[|s|] == last && forall k :: 0 <= k < |s| ==> longer[k] == s[k]
    ensures longer == s + [last]
  {
  }

  /** The state of the loop depends on when its frames were read, and on nothing else. */
  lemma {:induction false} ProcessIsBefore(p: Pipeline, inputs: seq<Read>)
    requires FullFrames(inputs)
    ensures Process(p, inputs) == Before(p, Nows(inputs), |Nows(inputs)|)
    decreases |inputs|
  {
    if inputs != [] {
      var before, r := inputs[..|inputs| - 1], inputs[|inputs| - 1];
      ProcessIsBefore(p, before);
      if r.Captured? {
        BeforePrefix(p, Nows(before), [r.nowUs], |Nows(before)|);
      } else {
        assert Nows(inputs) == Nows(before);
      }
    }
  }
}
