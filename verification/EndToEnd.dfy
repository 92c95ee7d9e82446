/**
 How far apart two speakers can be: clock error and playback accuracy composed.
 First for any two interleaved jitter buffers and any clock offsets, then for
 two whole clients, whose offsets come over their control channels.
 */
module EndToEnd {
  import opened Common
  import opened Playback
  import ClockSync
  import Device
  import SpscRing

  /**
   Position `pos` of the buffer of a client's `n`-th call, written by the copy
   `e` after `past`; the client's clock runs `trueOffset` behind the server's.
   */
  datatype Sound = Sound(fmt: Format, n: nat, pos: nat, past: Trace, e: Event, trueOffset: real) {
    ghost predicate In(trace: Trace) {
      Sounds(trace, n, pos, past, e)
    }

    /** The sample of the frame that sounds. */
    function Index(): nat
      requires e.Copy? && e.at <= pos
    {
      e.from + (pos - e.at)
    }

    /** The server instant at which the position is due at the converter. */
    function DueAt(): real
      requires e.Copy?
    {
      e.args.localPlayoutUs as real + ExactSpan(fmt, pos) + trueOffset
    }

    function Captured(): real
      requires e.Copy? && e.at <= pos
    {
      CapturedAt(fmt, e.frame, Index())
    }

    function FrameDuration(): real
      requires e.Copy?
    {
      ExactSpan(fmt, |e.frame.pcm|)
    }

    /** Twice the error of the offset the pull used. */
    function DoubleClockError(): real
      requires e.Copy?
    {
      ClockSync.DoubleError(e.args.clockOffsetUs, trueOffset)
    }
  }

  // ---- Any two jitter buffers -----------------------------------------------

  /**
   What sounds at a position of the `n`-th call's buffer is a sample captured one
   global delay before that position is due, give or take.
   */
  lemma OneSpeaker(h: Sound, actions: seq<SpscRing.Action>)
    requires h.In(SpscRing.Run(h.fmt, actions).trace)
    ensures var s := SpscRing.Run(h.fmt, actions);
            && h.Index() < |h.e.frame.pcm| && h.pos < |SpscRing.Buffer(s.reader, h.n)|
            && SpscRing.Buffer(s.reader, h.n)[h.pos] == h.e.frame.pcm[h.Index()]
            && h.n < |Calls(s.trace)| && Calls(s.trace)[h.n] == h.e.args
    ensures var clockError := h.e.args.clockOffsetUs as real - h.trueOffset;
            var error := h.Captured() - (h.DueAt() - h.e.args.delayUs as real) - clockError;
            -(2.0 * h.FrameDuration() + 1.0) < error <= 2.0 * h.FrameDuration()
  {
    SpscRing.EverySoundIsInItsBuffer(h.fmt, actions, h.n, h.pos, h.past, h.e);
    SpscRing.EverySoundOnTime(h.fmt, actions, h.n, h.pos, h.past, h.e);
    Rearranged(h);
  }

  lemma Rearranged(h: Sound)
    requires h.e.Copy? && h.e.at <= h.pos && OnTime(h.fmt, h.e, h.pos - h.e.at)
    ensures var clockError := h.e.args.clockOffsetUs as real - h.trueOffset;
            var error := h.Captured() - (h.DueAt() - h.e.args.delayUs as real) - clockError;
            -(2.0 * h.FrameDuration() + 1.0) < error <= 2.0 * h.FrameDuration()
  {
  }

  /**
   Two clients, any interleavings of their threads: samples due at the same
   server instant were captured within the sum of both frame durations, twice
   each, one microsecond, the clock errors and the difference of the delays.
   */
  lemma TwoSpeakers(h1: Sound, h2: Sound, actions1: seq<SpscRing.Action>, actions2: seq<SpscRing.Action>)
    requires h1.In(SpscRing.Run(h1.fmt, actions1).trace) && h2.In(SpscRing.Run(h2.fmt, actions2).trace)
    requires h1.DueAt() == h2.DueAt()
    ensures 2.0 * AbsReal(h1.Captured() - h2.Captured()) <
            4.0 * h1.FrameDuration() + 4.0 * h2.FrameDuration() + 2.0
            + h1.DoubleClockError() + h2.DoubleClockError()
            + 2.0 * AbsReal(h1.e.args.delayUs as real - h2.e.args.delayUs as real)
  {
    OneSpeaker(h1, actions1);
    OneSpeaker(h2, actions2);
  }

  // ---- Two whole clients ------------------------------------------------------

  /** The sound belongs to a call of a client's run, and its true offset is that of the call. */
  ghost predicate PlayedBy(h: Sound, initial: real, actions: seq<Device.Action>) {
    var s := Device.Run(h.fmt, initial, actions);
    && h.In(Device.RingOf(h.fmt, s).trace)
    && h.n < |s.calls| && s.calls[h.n].trueOffset == h.trueOffset && s.calls[h.n].check.Some?
  }

  /** The last check of the offset that the call used. */
  ghost function CheckOf(h: Sound, initial: real, actions: seq<Device.Action>): Device.Check
    requires PlayedBy(h, initial, actions)
  {
    Device.Run(h.fmt, initial, actions).calls[h.n].check.value
  }

  /** How far the client's clock has drifted since. */
  ghost function DriftOf(h: Sound, initial: real, actions: seq<Device.Action>): real
    requires PlayedBy(h, initial, actions)
  {
    Device.Drifted(CheckOf(h, initial, actions), h.trueOffset)
  }

  /** Every sound of a client's run belongs to one of its calls, whose offset was checked. */
  lemma EverySoundHasACall(h: Sound, initial: real, actions: seq<Device.Action>)
    requires h.In(Device.RingOf(h.fmt, Device.Run(h.fmt, initial, actions)).trace)
    ensures var s := Device.Run(h.fmt, initial, actions);
            && h.n < |s.calls| && s.calls[h.n].args == h.e.args
            && PlayedBy(h.(trueOffset := s.calls[h.n].trueOffset), initial, actions)
  {
    var s := Device.Run(h.fmt, initial, actions);
    SpscRing.EverySoundIsInItsBuffer(h.fmt, s.pushesAndPulls, h.n, h.pos, h.past, h.e);
    Device.CallsUseCheckedOffsets(h.fmt, initial, actions, h.n);
  }

  lemma ClockErrorOf(h: Sound, initial: real, actions: seq<Device.Action>)
    requires PlayedBy(h, initial, actions)
    ensures h.DoubleClockError()
         <= Device.Checked(CheckOf(h, initial, actions).basis) + 2.0 * DriftOf(h, initial, actions)
  {
    var s := Device.Run(h.fmt, initial, actions);
    SpscRing.EverySoundIsInItsBuffer(h.fmt, s.pushesAndPulls, h.n, h.pos, h.past, h.e);
    Device.CallsUseCheckedOffsets(h.fmt, initial, actions, h.n);
  }

  /**
   Two clients under one global delay, each with its own control channel, clock
   and interleaving: samples due at the same server instant were captured within
   twice both frame durations, one microsecond, and for each client half of what
   its offset was checked to, and its drift since then.
   */
  lemma InSync(h1: Sound, h2: Sound, initial1: real, initial2: real,
               actions1: seq<Device.Action>, actions2: seq<Device.Action>)
    requires PlayedBy(h1, initial1, actions1) && PlayedBy(h2, initial2, actions2) && h1.DueAt() == h2.DueAt()
    requires h1.e.args.delayUs == h2.e.args.delayUs
    ensures 2.0 * AbsReal(h1.Captured() - h2.Captured()) <
            4.0 * h1.FrameDuration() + 4.0 * h2.FrameDuration() + 2.0
            + Device.Checked(CheckOf(h1, initial1, actions1).basis) + 2.0 * DriftOf(h1, initial1, actions1)
            + Device.Checked(CheckOf(h2, initial2, actions2).basis) + 2.0 * DriftOf(h2, initial2, actions2)
  {
    TwoSpeakers(h1, h2, Device.Run(h1.fmt, initial1, actions1).pushesAndPulls,
                Device.Run(h2.fmt, initial2, actions2).pushesAndPulls);
    ClockErrorOf(h1, initial1, actions1);
    ClockErrorOf(h2, initial2, actions2);
  }

  /** The offset in use is that of a handshake, and the clock has not drifted since. */
  ghost predicate FreshFrom(h: Sound, initial: real, actions: seq<Device.Action>,
                            probes: seq<ClockSync.Probe>, best: nat)
    requires PlayedBy(h, initial, actions)
  {
    best < |probes| && CheckOf(h, initial, actions).basis == Device.Handshaken(probes, best)
    && DriftOf(h, initial, actions) == 0.0
  }

  /** Fresh from their handshakes, each client adds half the smallest round trip it saw and half a microsecond. */
  lemma InSyncAfterHandshake(h1: Sound, h2: Sound, initial1: real, initial2: real,
                             actions1: seq<Device.Action>, actions2: seq<Device.Action>,
                             probes1: seq<ClockSync.Probe>, best1: nat, probes2: seq<ClockSync.Probe>, best2: nat)
    requires PlayedBy(h1, initial1, actions1) && PlayedBy(h2, initial2, actions2) && h1.DueAt() == h2.DueAt()
    requires h1.e.args.delayUs == h2.e.args.delayUs
    requires FreshFrom(h1, initial1, actions1, probes1, best1) && FreshFrom(h2, initial2, actions2, probes2, best2)
    ensures 2.0 * AbsReal(h1.Captured() - h2.Captured()) <
            4.0 * h1.FrameDuration() + 4.0 * h2.FrameDuration() + 2.0
            + (probes1[best1].Rtt() as real + 1.0) + (probes2[best2].Rtt() as real + 1.0)
  {
    InSync(h1, h2, initial1, initial2, actions1, actions2);
  }

  /**
   For as long as the clients run, and at every call: with round trips of at most
   `maxRtt` the bound only adds the dead band of each client and its drift since
   the last check of the offset it uses.
   */
  lemma InSyncForever(h1: Sound, h2: Sound, initial1: real, initial2: real,
                      actions1: seq<Device.Action>, actions2: seq<Device.Action>, maxRtt: nat)
    requires PlayedBy(h1, initial1, actions1) && PlayedBy(h2, initial2, actions2) && h1.DueAt() == h2.DueAt()
    requires h1.e.args.delayUs == h2.e.args.delayUs
    requires Device.RoundTripsWithin(actions1, maxRtt) && Device.RoundTripsWithin(actions2, maxRtt)
    ensures AbsReal(h1.Captured() - h2.Captured()) <
            2.0 * h1.FrameDuration() + 2.0 * h2.FrameDuration() + 1002.0 + maxRtt as real
            + DriftOf(h1, initial1, actions1) + DriftOf(h2, initial2, actions2)
  {
    InSync(h1, h2, initial1, initial2, actions1, actions2);
    Device.ChecksStayShort(h1.fmt, initial1, actions1, maxRtt);
    Device.ChecksStayShort(h2.fmt, initial2, actions2, maxRtt);
  }
}
