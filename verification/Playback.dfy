/**
 The jitter buffer seen from outside: a queue of timestamped frames, a read
 cursor into the oldest one, and the timeline rule that decides for the oldest
 frame whether it is skipped, held back or copied. Everything a buffer does is
 a trace of events; `Replay` says which traces are possible. The sequential
 class and the interleaved machine are both proved to produce such traces, so
 what is proved about traces here holds of both.
 */
module Playback {
  import opened Arithmetic
  import opened Common

  type Sample = real

  const SILENCE: Sample := 0.0
  const RING_CAPACITY: nat := 128
  const MAX_TRANSIT_SAMPLES: nat := 200
  const MAX_TRANSIT_US: int := 2_000_000

  datatype Format = Format(sampleRate: pos, channels: pos)

  datatype Frame = Frame(pcm: seq<Sample>, captureTimestampUs: int)

  /** The arguments of one audio callback; `delayUs` is the global delay it loads. */
  datatype PullArgs = PullArgs(numFrames: nat, localPlayoutUs: int, clockOffsetUs: int, delayUs: int) {
    function Target(): int {
      localPlayoutUs + clockOffsetUs - delayUs
    }
  }

  /** Duration of interleaved samples in whole microseconds, as the buffer computes it. */
  function SpanUs(fmt: Format, samples: nat): nat {
    Quotient(Quotient(samples, fmt.channels) * 1_000_000, fmt.sampleRate)
  }

  /** The same duration without rounding. */
  function ExactSpan(fmt: Format, samples: nat): real {
    Quotient(samples, fmt.channels) as real * 1_000_000.0 / fmt.sampleRate as real
  }

  /** Durations are whole groups, times a million, divided by the rate, rounding down twice. */
  lemma SpanIs(fmt: Format, samples: nat)
    ensures SpanUs(fmt, samples) == samples / fmt.channels * 1_000_000 / fmt.sampleRate
  {
    QuotientIs(samples, fmt.channels);
    QuotientIs(Quotient(samples, fmt.channels) * 1_000_000, fmt.sampleRate);
  }

  datatype Verdict = TooOld | TooEarly | Due

  /** The timeline rule for the oldest frame after `written` samples of a pull. */
  function JudgeSlot(fmt: Format, size: nat, timestampUs: int, args: PullArgs, written: nat): Verdict {
    var currentTargetUs := args.Target() + SpanUs(fmt, written);
    var frameDurationUs := SpanUs(fmt, size);
    if timestampUs < currentTargetUs - frameDurationUs * 2 then TooOld
    else if timestampUs > currentTargetUs + frameDurationUs then TooEarly
    else Due
  }

  function Judge(fmt: Format, frame: Frame, args: PullArgs, written: nat): Verdict {
    JudgeSlot(fmt, |frame.pcm|, frame.captureTimestampUs, args, written)
  }

  datatype Event =
    | Accept(frame: Frame, transitUs: int)
    | Reject(frame: Frame)
    | Begin(args: PullArgs)
    | Skip(frame: Frame, from: nat)
    | Copy(frame: Frame, from: nat, count: nat, at: nat, args: PullArgs)
    | Finish(silence: nat)

  /** A history of events, newest last. */
  datatype Trace = Fresh | After(past: Trace, last: Event)

  /** `Active(args, written)` is a pull that has written that many samples. */
  datatype Pull = Idle | Active(args: PullArgs, written: nat)

  datatype Player = Player(queue: seq<Frame>, cursor: nat, pull: Pull)

  const START := Player([], 0, Idle)

  function Needed(fmt: Format, args: PullArgs): nat {
    Product(args.numFrames, fmt.channels)
  }

  lemma NeededIs(fmt: Format, args: PullArgs)
    ensures Needed(fmt, args) == args.numFrames * fmt.channels
  {
    ProductIs(args.numFrames, fmt.channels);
  }

  predicate Aligned(fmt: Format, samples: nat) {
    Remainder(samples, fmt.channels) == 0
  }

  /** Whether the running pull looks at the oldest frame, and what the rule says of it. */
  predicate Judges(fmt: Format, p: Player, v: Verdict) {
    p.pull.Active? && p.pull.written < Needed(fmt, p.pull.args) && p.queue != [] &&
    Judge(fmt, p.queue[0], p.pull.args, p.pull.written) == v
  }

  predicate Enabled(fmt: Format, p: Player, e: Event) {
    match e
    case Accept(frame, _) => |p.queue| < RING_CAPACITY && Aligned(fmt, |frame.pcm|)
    case Reject(_) => |p.queue| == RING_CAPACITY
    case Begin(_) => p.pull.Idle?
    case Skip(frame, from) => Judges(fmt, p, TooOld) && frame == p.queue[0] && from == p.cursor
    case Copy(frame, from, count, at, args) =>
      && Judges(fmt, p, Due) && frame == p.queue[0] && from == p.cursor <= |frame.pcm|
      && args == p.pull.args && at == p.pull.written
      && count == Min(|frame.pcm| - from, Needed(fmt, args) - at)
    case Finish(silence) =>
      && p.pull.Active? && silence == Needed(fmt, p.pull.args) - p.pull.written
      && (silence == 0 || p.queue == [] || Judges(fmt, p, TooEarly))
  }

  function Apply(fmt: Format, p: Player, e: Event): Player
    requires Enabled(fmt, p, e)
  {
    match e
    case Accept(frame, _) => p.(queue := p.queue + [frame])
    case Reject(_) => p
    case Begin(args) => p.(pull := Active(args, 0))
    case Skip(_, _) => p.(queue := p.queue[1..], cursor := 0)
    case Copy(frame, from, count, at, args) =>
      var written := Active(args, at + count);
      if from + count < |frame.pcm| then p.(cursor := from + count, pull := written)
      else Player(p.queue[1..], 0, written)
    case Finish(_) => p.(pull := Idle)
  }

  /** The player after a trace of events, or `None` when no buffer can behave so. */
  function Replay(fmt: Format, trace: Trace): Option<Player> {
    match trace
    case Fresh => Some(START)
    case After(past, e) =>
      var before := Replay(fmt, past);
      if before.Some? && Enabled(fmt, before.value, e) then Some(Apply(fmt, before.value, e)) else None
  }

  predicate Occurs(trace: Trace, e: Event) {
    trace.After? && (trace.last == e || Occurs(trace.past, e))
  }

  // ---- Positions stay on sample-group boundaries -------------------------

  /** The cursor and the write position stay on sample-group boundaries and inside their buffers. */
  predicate WellPlaced(fmt: Format, p: Player) {
    && Aligned(fmt, p.cursor)
    && (p.cursor == 0 || (p.queue != [] && p.cursor < |p.queue[0].pcm|))
    && (forall i :: 0 <= i < |p.queue| ==> Aligned(fmt, |p.queue[i].pcm|))
    && (p.pull.Active? ==> Aligned(fmt, p.pull.written) && p.pull.written <= Needed(fmt, p.pull.args))
  }

  lemma StepWellPlaced(fmt: Format, p: Player, e: Event)
    requires WellPlaced(fmt, p) && Enabled(fmt, p, e)
    ensures WellPlaced(fmt, Apply(fmt, p, e))
  {
    if e.Copy? {
      CopyAligned(fmt, |e.frame.pcm|, e.from, e.at, e.count, e.args);
    }
  }

  lemma CopyAligned(fmt: Format, size: nat, from: nat, at: nat, count: nat, args: PullArgs)
    requires Aligned(fmt, size) && Aligned(fmt, from) && Aligned(fmt, at)
    requires from <= size && at <= Needed(fmt, args) && count == Min(size - from, Needed(fmt, args) - at)
    ensures Aligned(fmt, from + count) && Aligned(fmt, at + count)
  {
    WholeBlocks(args.numFrames, fmt.channels);
    BlocksAdd(size, from, fmt.channels);
    BlocksAdd(Needed(fmt, args), at, fmt.channels);
    BlocksAdd(from, count, fmt.channels);
    BlocksAdd(at, count, fmt.channels);
  }

  /** In every run, reads and writes never split the channels of one sample group. */
  lemma {:induction false} StaysWellPlaced(fmt: Format, trace: Trace)
    requires Replay(fmt, trace).Some?
    ensures WellPlaced(fmt, Replay(fmt, trace).value)
  {
    if trace.After? {
      StaysWellPlaced(fmt, trace.past);
      StepWellPlaced(fmt, Replay(fmt, trace.past).value, trace.last);
    }
  }

  // ---- Queue discipline -------------------------------------------------

  /** Frames taken in, in order. */
  function Accepted(trace: Trace): seq<Frame> {
    match trace
    case Fresh => []
    case After(past, e) => if e.Accept? then Accepted(past) + [e.frame] else Accepted(past)
  }

  predicate Retires(e: Event) {
    e.Skip? || (e.Copy? && e.from + e.count >= |e.frame.pcm|)
  }

  /** Frames that have left the buffer, in order: skipped, or copied to their end. */
  function Retired(trace: Trace): seq<Frame> {
    match trace
    case Fresh => []
    case After(past, e) => if Retires(e) then Retired(past) + [e.frame] else Retired(past)
  }

  /** The frames consumed are a prefix of the frames accepted, and the queue is the rest. */
  lemma {:induction false} ConsumedIsPrefixOfAccepted(fmt: Format, trace: Trace)
    requires Replay(fmt, trace).Some?
    ensures Accepted(trace) == Retired(trace) + Replay(fmt, trace).value.queue
    ensures |Replay(fmt, trace).value.queue| <= RING_CAPACITY
  {
    if trace.After? {
      ConsumedIsPrefixOfAccepted(fmt, trace.past);
      var done, q := Retired(trace.past), Replay(fmt, trace.past).value.queue;
      if Retires(trace.last) {
        assert done + q == done + [q[0]] + q[1..];
      }
    }
  }

  /** A frame is refused only while 128 frames are queued. */
  lemma {:induction false} RefusedOnlyWhenFull(fmt: Format, trace: Trace, past: Trace, e: Event)
    requires Replay(fmt, trace).Some? && Begins(After(past, e), trace) && e.Reject?
    ensures Replay(fmt, past).Some? && |Replay(fmt, past).value.queue| == 128
  {
    if trace != After(past, e) {
      RefusedOnlyWhenFull(fmt, trace.past, past, e);
    }
  }

  // ---- Sample conservation ---------------------------------------------

  function Flat(frames: seq<Frame>): seq<Sample> {
    if frames == [] then [] else frames[0].pcm + Flat(frames[1..])
  }

  lemma {:induction false} FlatSnoc(frames: seq<Frame>, frame: Frame)
    ensures Flat(frames + [frame]) == Flat(frames) + frame.pcm
  {
    if frames == [] {
      assert frames + [frame] == [frame];
    } else {
      FlatSnoc(frames[1..], frame);
      assert (frames + [frame])[1..] == frames[1..] + [frame];
    }
  }

  /** The samples an event takes out of the buffer: copied out, or thrown away with a skipped frame. */
  function Taken(e: Event): seq<Sample> {
    match e
    case Copy(frame, from, count, _, _) =>
      if from + count <= |frame.pcm| then frame.pcm[from..from + count] else []
    case Skip(frame, from) => if from <= |frame.pcm| then frame.pcm[from..] else []
    case _ => []
  }

  function Dispatched(trace: Trace): seq<Sample> {
    match trace
    case Fresh => []
    case After(past, e) => Dispatched(past) + Taken(e)
  }

  /** The samples still to be played: the oldest frame beyond the cursor and the frames behind it. */
  function Remaining(p: Player): seq<Sample> {
    if p.queue == [] then [] else Unread(p.queue[0], p.cursor) + Flat(p.queue[1..])
  }

  function Unread(frame: Frame, cursor: nat): seq<Sample> {
    if cursor <= |frame.pcm| then frame.pcm[cursor..] else []
  }

  /**
   Every sample accepted is, in order and exactly once, copied out, dropped with
   a frame that was too old, or still buffered beyond the read cursor.
   */
  lemma {:induction false} SamplesConserved(fmt: Format, trace: Trace)
    requires Replay(fmt, trace).Some?
    ensures Flat(Accepted(trace)) == Dispatched(trace) + Remaining(Replay(fmt, trace).value)
  {
    if trace.After? {
      SamplesConserved(fmt, trace.past);
      StaysWellPlaced(fmt, trace.past);
      var p, e := Replay(fmt, trace.past).value, trace.last;
      if e.Accept? {
        FlatSnoc(Accepted(trace.past), e.frame);
        RemainingAfterAccept(p, e.frame);
        Regroup(Dispatched(trace.past), Remaining(p), e.frame.pcm);
      } else {
        StepRemaining(fmt, p, e);
        Regroup(Dispatched(trace.past), Taken(e), Remaining(Apply(fmt, p, e)));
      }
    }
  }

  lemma RemainingAfterAccept(p: Player, frame: Frame)
    requires p.queue == [] ==> p.cursor == 0
    ensures Remaining(p.(queue := p.queue + [frame])) == Remaining(p) + frame.pcm
  {
    if p.queue == [] {
      assert (p.queue + [frame])[1..] == [];
      assert Unread(frame, 0) + Flat([]) == frame.pcm;
    } else {
      FlatSnoc(p.queue[1..], frame);
      assert (p.queue + [frame])[1..] == p.queue[1..] + [frame];
      Regroup(Unread(p.queue[0], p.cursor), Flat(p.queue[1..]), frame.pcm);
    }
  }

  /** Reading on inside the oldest frame. */
  lemma RemainingInside(p: Player, p': Player)
    requires p.queue != [] && p'.queue == p.queue && p.cursor <= p'.cursor <= |p.queue[0].pcm|
    ensures Remaining(p) == p.queue[0].pcm[p.cursor..p'.cursor] + Remaining(p')
  {
    var pcm := p.queue[0].pcm;
    SplitRest(pcm, p.cursor, p'.cursor);
    Regroup(pcm[p.cursor..p'.cursor], pcm[p'.cursor..], Flat(p.queue[1..]));
  }

  /** Done with the oldest frame. */
  lemma RemainingBehind(p: Player, p': Player)
    requires p.queue != [] && p.cursor <= |p.queue[0].pcm| && p'.queue == p.queue[1..] && p'.cursor == 0
    ensures Remaining(p) == p.queue[0].pcm[p.cursor..] + Remaining(p')
  {
    assert Remaining(p') == Flat(p'.queue);
  }

  lemma StepRemaining(fmt: Format, p: Player, e: Event)
    requires WellPlaced(fmt, p) && Enabled(fmt, p, e) && !e.Accept?
    ensures Remaining(p) == Taken(e) + Remaining(Apply(fmt, p, e))
  {
    var p' := Apply(fmt, p, e);
    if e.Copy? && e.from + e.count < |e.frame.pcm| {
      RemainingInside(p, p');
    } else if e.Skip? || e.Copy? {
      assert Taken(e) == e.frame.pcm[e.from..];
      RemainingBehind(p, p');
    } else {
      assert p'.queue == p.queue && p'.cursor == p.cursor && Taken(e) == [];
    }
  }

  lemma SplitRest(pcm: seq<Sample>, from: nat, to: nat)
    requires from <= to <= |pcm|
    ensures pcm[from..] == pcm[from..to] + pcm[to..]
  {
  }

  // ---- What the callbacks hear -----------------------------------------

  function Silence(n: nat): (s: seq<Sample>)
    ensures |s| == n && forall i :: 0 <= i < n ==> s[i] == SILENCE
  {
    seq(n, _ => SILENCE)
  }

  /** The samples an event puts into the callback's buffer. */
  function Written(e: Event): seq<Sample> {
    match e
    case Copy(_, _, _, _, _) => Taken(e)
    case Finish(silence) => Silence(silence)
    case _ => []
  }

  /** The buffers handed back by finished pulls, and what the running one has written. */
  datatype Heard = Heard(outputs: seq<seq<Sample>>, current: seq<Sample>)

  function Hear(h: Heard, e: Event): Heard {
    match e
    case Begin(_) => h.(current := [])
    case Copy(_, _, _, _, _) => h.(current := h.current + Written(e))
    case Finish(_) => Heard(h.outputs + [h.current + Written(e)], [])
    case _ => h
  }

  function Audible(trace: Trace): Heard {
    match trace
    case Fresh => Heard([], [])
    case After(past, e) => Hear(Audible(past), e)
  }

  /** The buffer sizes asked for by the finished pulls, and by the running one. */
  datatype Request = Request(done: seq<nat>, current: nat)

  function Requested(fmt: Format, trace: Trace): Request {
    match trace
    case Fresh => Request([], 0)
    case After(past, e) =>
      var r := Requested(fmt, past);
      match e
      case Begin(args) => r.(current := Needed(fmt, args))
      case Finish(_) => Request(r.done + [r.current], 0)
      case _ => r
  }

  /** Every finished pull filled exactly the buffer it was given, however it ended. */
  lemma {:induction false} OutputsFillRequests(fmt: Format, trace: Trace)
    requires Replay(fmt, trace).Some?
    ensures var h, r, p := Audible(trace), Requested(fmt, trace), Replay(fmt, trace).value;
            && |h.outputs| == |r.done|
            && (forall i :: 0 <= i < |h.outputs| ==> |h.outputs[i]| == r.done[i])
            && (p.pull.Active? ==> |h.current| == p.pull.written && r.current == Needed(fmt, p.pull.args))
  {
    if trace.After? {
      OutputsFillRequests(fmt, trace.past);
    }
  }

  // ---- What an output consists of -------------------------------------------

  /** `prefix` is an initial part of the history. */
  predicate Begins(prefix: Trace, trace: Trace) {
    prefix == trace || (trace.After? && Begins(prefix, trace.past))
  }

  /** The samples copied out, in order. */
  function Played(trace: Trace): seq<Sample> {
    match trace
    case Fresh => []
    case After(past, e) => if e.Copy? then Played(past) + Taken(e) else Played(past)
  }

  /** For each finished pull, how much it had written when its copy loop ended. */
  function CutPoints(trace: Trace): seq<nat> {
    match trace
    case Fresh => []
    case After(past, e) => if e.Finish? then CutPoints(past) + [|Audible(past).current|] else CutPoints(past)
  }

  /** The arguments of the pulls begun, in order. */
  function Calls(trace: Trace): seq<PullArgs> {
    match trace
    case Fresh => []
    case After(past, e) => if e.Begin? then Calls(past) + [e.args] else Calls(past)
  }

  predicate SilentBehind(output: seq<Sample>, cut: nat) {
    cut <= |output| && output[cut..] == Silence(|output| - cut)
  }

  /** The outputs in front of their cuts, one after the other. */
  function Voiced(outputs: seq<seq<Sample>>, cuts: seq<nat>): seq<Sample>
    requires |outputs| == |cuts|
    decreases |outputs|
  {
    if outputs == [] then []
    else
      var k := |outputs| - 1;
      Voiced(outputs[..k], cuts[..k]) + if cuts[k] <= |outputs[k]| then outputs[k][..cuts[k]] else []
  }

  /** Every output is samples up to its cut and zeros behind it, and the samples are exactly those copied, in order. */
  predicate Shaped(h: Heard, cuts: seq<nat>, played: seq<Sample>) {
    && |cuts| == |h.outputs|
    && (forall n :: 0 <= n < |cuts| ==> SilentBehind(h.outputs[n], cuts[n]))
    && Voiced(h.outputs, cuts) + h.current == played
  }

  /** The calls answered are the calls begun, the running one excepted. */
  predicate CallsMatch(trace: Trace, p: Player) {
    var calls, h := Calls(trace), Audible(trace);
    if p.pull.Active? then
      && |calls| == |h.outputs| + 1 && calls[|h.outputs|] == p.pull.args && |h.current| == p.pull.written
    else |calls| == |h.outputs| && h.current == []
  }

  lemma {:induction false} CallsAreAnswered(fmt: Format, trace: Trace)
    requires Replay(fmt, trace).Some?
    ensures CallsMatch(trace, Replay(fmt, trace).value)
  {
    if trace.After? {
      CallsAreAnswered(fmt, trace.past);
    }
  }

  /** In every run each output is a run of buffered samples, followed by zeros only. */
  lemma {:induction false} OutputsPlayThenFallSilent(fmt: Format, trace: Trace)
    requires Replay(fmt, trace).Some?
    ensures Shaped(Audible(trace), CutPoints(trace), Played(trace))
  {
    if trace.After? {
      OutputsPlayThenFallSilent(fmt, trace.past);
      CallsAreAnswered(fmt, trace.past);
      var h, cuts, e := Audible(trace.past), CutPoints(trace.past), trace.last;
      if e.Copy? {
        Regroup(Voiced(h.outputs, cuts), h.current, Taken(e));
      } else if e.Finish? {
        FinishKeepsShape(h, cuts, e.silence);
      } else {
        assert Hear(h, e) == h;
      }
    }
  }

  lemma FinishKeepsShape(h: Heard, cuts: seq<nat>, silence: nat)
    requires |cuts| == |h.outputs| && forall n :: 0 <= n < |cuts| ==> SilentBehind(h.outputs[n], cuts[n])
    ensures var outputs, all := h.outputs + [h.current + Silence(silence)], cuts + [|h.current|];
            && (forall n :: 0 <= n < |all| ==> SilentBehind(outputs[n], all[n]))
            && Voiced(outputs, all) + [] == Voiced(h.outputs, cuts) + h.current
  {
    var outputs, all := h.outputs + [h.current + Silence(silence)], cuts + [|h.current|];
    assert outputs[..|cuts|] == h.outputs && all[..|cuts|] == cuts;
    assert (h.current + Silence(silence))[|h.current|..] == Silence(silence);
    assert (h.current + Silence(silence))[..|h.current|] == h.current;
  }

  /** The buffer of the `n`-th call: handed back, or being filled. */
  function Output(h: Heard, n: nat): seq<Sample> {
    if n < |h.outputs| then h.outputs[n] else if n == |h.outputs| then h.current else []
  }

  /** How much of the `n`-th buffer is samples and not silence. */
  function Cut(trace: Trace, n: nat): nat {
    if n < |CutPoints(trace)| then CutPoints(trace)[n] else |Output(Audible(trace), n)|
  }

  /** Position `pos` of the `n`-th buffer was written by the copy `e`, which happened after `past`. */
  predicate Sounds(trace: Trace, n: nat, pos: nat, past: Trace, e: Event) {
    && Begins(After(past, e), trace) && e.Copy?
    && n == |Audible(past).outputs| && e.at <= pos < e.at + e.count
  }

  lemma {:induction false} BeginsMeansOccurs(trace: Trace, past: Trace, e: Event)
    requires Begins(After(past, e), trace)
    ensures Occurs(trace, e)
  {
    if trace != After(past, e) {
      BeginsMeansOccurs(trace.past, past, e);
    }
  }

  /** The `n`-th call was made with `args`, and at `pos` its buffer has a sample, not silence. */
  predicate HeardAt(trace: Trace, n: nat, pos: nat, sample: Sample, args: PullArgs) {
    var output := Output(Audible(trace), n);
    && pos < Cut(trace, n) <= |output| && output[pos] == sample
    && n < |Calls(trace)| && Calls(trace)[n] == args
  }

  lemma HeardStays(fmt: Format, past: Trace, e: Event, n: nat, pos: nat, sample: Sample, args: PullArgs)
    requires Replay(fmt, After(past, e)).Some? && HeardAt(past, n, pos, sample, args)
    ensures HeardAt(After(past, e), n, pos, sample, args)
  {
    CallsAreAnswered(fmt, past);
    OutputsPlayThenFallSilent(fmt, past);
  }

  lemma HeardFirst(fmt: Format, past: Trace, e: Event, pos: nat)
    requires Replay(fmt, After(past, e)).Some? && e.Copy? && e.at <= pos < e.at + e.count
    ensures e.from + (pos - e.at) < |e.frame.pcm|
    ensures HeardAt(After(past, e), |Audible(past).outputs|, pos, e.frame.pcm[e.from + (pos - e.at)], e.args)
  {
    CallsAreAnswered(fmt, past);
    OutputsPlayThenFallSilent(fmt, past);
    TakenAt(e, pos - e.at);
    assert |Audible(past).current| == e.at && |CutPoints(past)| == |Audible(past).outputs|;
    assert Audible(After(past, e)).current == Audible(past).current + Taken(e);
  }

  lemma TakenAt(e: Event, i: nat)
    requires e.Copy? && e.from + e.count <= |e.frame.pcm| && i < e.count
    ensures |Taken(e)| == e.count && Taken(e)[i] == e.frame.pcm[e.from + i]
  {
  }

  /** What a copy has written stays where it was written, in the buffer of its own call. */
  lemma {:induction false} CopyIsHeard(fmt: Format, trace: Trace, n: nat, pos: nat, past: Trace, e: Event)
    requires Replay(fmt, trace).Some? && Sounds(trace, n, pos, past, e)
    ensures e.from + (pos - e.at) < |e.frame.pcm|
    ensures HeardAt(trace, n, pos, e.frame.pcm[e.from + (pos - e.at)], e.args)
  {
    if trace == After(past, e) {
      HeardFirst(fmt, past, e, pos);
    } else {
      CopyIsHeard(fmt, trace.past, n, pos, past, e);
      HeardStays(fmt, trace.past, trace.last, n, pos, e.frame.pcm[e.from + (pos - e.at)], e.args);
    }
  }

  /** Every position in front of the cut was written by a copy. */
  lemma {:induction false} SoundsWereCopied(fmt: Format, trace: Trace, n: nat, pos: nat) returns (past: Trace, e: Event)
    requires Replay(fmt, trace).Some? && pos < Cut(trace, n)
    ensures Sounds(trace, n, pos, past, e)
  {
    CallsAreAnswered(fmt, trace.past);
    OutputsPlayThenFallSilent(fmt, trace.past);
    if trace.last.Copy? && n == |Audible(trace.past).outputs| && pos >= |Audible(trace.past).current| {
      past, e := trace.past, trace.last;
    } else {
      past, e := SoundsWereCopied(fmt, trace.past, n, pos);
    }
  }

  /** For each sample that left the buffer, whether it was copied out. */
  function Kept(trace: Trace): seq<bool> {
    match trace
    case Fresh => []
    case After(past, e) => Kept(past) + Marks(|Taken(e)|, e.Copy?)
  }

  function Marks(n: nat, kept: bool): (marks: seq<bool>)
    ensures |marks| == n && forall i :: 0 <= i < n ==> marks[i] == kept
  {
    seq(n, _ => kept)
  }

  function Filter(samples: seq<Sample>, kept: seq<bool>): seq<Sample>
    requires |samples| == |kept|
    decreases |samples|
  {
    if samples == [] then []
    else
      var k := |samples| - 1;
      Filter(samples[..k], kept[..k]) + if kept[k] then [samples[k]] else []
  }

  lemma {:induction false} FilterAll(before: seq<Sample>, kept: seq<bool>, more: seq<Sample>, keep: bool)
    requires |before| == |kept|
    ensures Filter(before + more, kept + Marks(|more|, keep)) == Filter(before, kept) + if keep then more else []
    decreases |more|
  {
    var k := |more| - 1;
    if more == [] {
      assert before + more == before && kept + Marks(0, keep) == kept;
    } else {
      FilterAll(before, kept, more[..k], keep);
      assert (before + more)[..|before| + k] == before + more[..k];
      assert (kept + Marks(k + 1, keep))[..|before| + k] == kept + Marks(k, keep);
      assert more == more[..k] + [more[k]];
    }
  }

  lemma {:induction false} PlayedIsKept(trace: Trace)
    ensures |Kept(trace)| == |Dispatched(trace)| && Played(trace) == Filter(Dispatched(trace), Kept(trace))
  {
    if trace.After? {
      PlayedIsKept(trace.past);
      FilterAll(Dispatched(trace.past), Kept(trace.past), Taken(trace.last), trace.last.Copy?);
    }
  }

  /**
   What becomes of the accepted samples, in any run: of those that have left the
   buffer the kept ones are, in order and exactly once, what the outputs consist
   of in front of their cuts, and the others are still unread.
   */
  lemma OutputsAreAcceptedSamples(fmt: Format, trace: Trace)
    requires Replay(fmt, trace).Some?
    ensures var accepted, kept, h := Flat(Accepted(trace)), Kept(trace), Audible(trace);
            && |kept| <= |accepted| && |CutPoints(trace)| == |h.outputs|
            && Voiced(h.outputs, CutPoints(trace)) + h.current == Filter(accepted[..|kept|], kept)
            && Remaining(Replay(fmt, trace).value) == accepted[|kept|..]
  {
    SamplesConserved(fmt, trace);
    PlayedIsKept(trace);
    OutputsPlayThenFallSilent(fmt, trace);
  }

  /** Samples leave the buffer unheard only with a frame that the timeline rule calls too old. */
  lemma {:induction false} OnlyOldFramesAreSkipped(fmt: Format, trace: Trace, past: Trace, e: Event)
    requires Replay(fmt, trace).Some? && Begins(After(past, e), trace) && e.Skip?
    ensures Replay(fmt, past).Some?
    ensures var p := Replay(fmt, past).value;
            Judges(fmt, p, TooOld) && e.frame == p.queue[0] && Taken(e) == Unread(e.frame, p.cursor)
  {
    if trace != After(past, e) {
      OnlyOldFramesAreSkipped(fmt, trace.past, past, e);
    }
  }

  // ---- One pull, undisturbed ----------------------------------------------

  /** What a running pull does next, on its own: one turn of its loop. */
  function NextEvent(fmt: Format, p: Player): Event
    requires p.pull.Active? && WellPlaced(fmt, p)
  {
    var Active(args, written) := p.pull;
    var missing := Needed(fmt, args) - written;
    if missing == 0 || p.queue == [] then Finish(missing)
    else
      match Judge(fmt, p.queue[0], args, written)
      case TooOld => Skip(p.queue[0], p.cursor)
      case TooEarly => Finish(missing)
      case Due => Copy(p.queue[0], p.cursor, Min(|p.queue[0].pcm| - p.cursor, missing), written, args)
  }

  lemma NextEventEnabled(fmt: Format, p: Player)
    requires p.pull.Active? && WellPlaced(fmt, p)
    ensures Enabled(fmt, p, NextEvent(fmt, p)) && WellPlaced(fmt, Apply(fmt, p, NextEvent(fmt, p)))
  {
    StepWellPlaced(fmt, p, NextEvent(fmt, p));
  }

  /** The player after one turn. */
  function AfterNext(fmt: Format, p: Player): (p': Player)
    requires p.pull.Active? && WellPlaced(fmt, p)
    ensures WellPlaced(fmt, p')
    ensures !NextEvent(fmt, p).Finish? ==>
              p'.pull.Active? && p'.pull.args == p.pull.args &&
              p'.pull.written == p.pull.written + |Written(NextEvent(fmt, p))| &&
              (|p'.queue| < |p.queue| || (p'.queue == p.queue && p.pull.written < p'.pull.written))
  {
    NextEventEnabled(fmt, p);
    Apply(fmt, p, NextEvent(fmt, p))
  }

  /** What a copy writes, and where it leaves the player. */
  lemma NextCopy(fmt: Format, p: Player)
    requires p.pull.Active? && WellPlaced(fmt, p) && NextEvent(fmt, p).Copy?
    ensures p.queue != [] && p.cursor <= |p.queue[0].pcm|
    ensures var e, pcm := NextEvent(fmt, p), p.queue[0].pcm;
            var written, to := Active(p.pull.args, p.pull.written + e.count), p.cursor + e.count;
            && e.count == Min(|pcm| - p.cursor, Needed(fmt, p.pull.args) - p.pull.written)
            && to <= |pcm| && Written(e) == pcm[p.cursor..to]
            && AfterNext(fmt, p)
               == if to < |pcm| then Player(p.queue, to, written) else Player(p.queue[1..], 0, written)
  {
  }

  /** How a pull ends: the events it adds, the player it leaves, and what it still writes. */
  datatype Outcome = Outcome(trace: Trace, player: Player, sound: seq<Sample>)

  /**
   A whole pull on a buffer nobody pushes into. It terminates because every
   turn either retires a frame, an empty one included, or fills the buffer.
   */
  function Drain(fmt: Format, trace: Trace, p: Player): Outcome
    requires p.pull.Active? && WellPlaced(fmt, p)
    decreases |p.queue|, if p.pull.Active? then Needed(fmt, p.pull.args) - p.pull.written else 0
  {
    var e, p' := NextEvent(fmt, p), AfterNext(fmt, p);
    if e.Finish? then Outcome(After(trace, e), p', Written(e))
    else
      var rest := Drain(fmt, After(trace, e), p');
      rest.(sound := Written(e) + rest.sound)
  }

  /** What is `done`, and what the pull will still write, is the whole output. */
  ghost predicate Completes(fmt: Format, trace: Trace, p: Player, done: seq<Sample>, end: Outcome)
    requires p.pull.Active? && WellPlaced(fmt, p)
  {
    var rest := Drain(fmt, trace, p);
    rest.player == end.player && done + rest.sound == end.sound
  }

  lemma TurnCompletes(fmt: Format, trace: Trace, p: Player, done: seq<Sample>, end: Outcome)
    requires p.pull.Active? && WellPlaced(fmt, p) && Completes(fmt, trace, p, done, end)
    ensures var e := NextEvent(fmt, p);
            if e.Finish? then
              p.(pull := Idle) == end.player && done + Silence(Needed(fmt, p.pull.args) - p.pull.written) == end.sound
            else Completes(fmt, After(trace, e), AfterNext(fmt, p), done + Written(e), end)
  {
    var e := NextEvent(fmt, p);
    if !e.Finish? {
      Regroup(done, Written(e), Drain(fmt, After(trace, e), AfterNext(fmt, p)).sound);
    }
  }

  /** What a pull leaves behind is a possible history, and its last output is what it wrote. */
  lemma {:induction false} DrainReplays(fmt: Format, trace: Trace, p: Player)
    requires p.pull.Active? && WellPlaced(fmt, p) && Replay(fmt, trace) == Some(p)
    ensures var end, h := Drain(fmt, trace, p), Audible(trace);
            && Replay(fmt, end.trace) == Some(end.player) && end.player.pull.Idle?
            && Transits(end.trace) == Transits(trace)
            && Audible(end.trace) == Heard(h.outputs + [h.current + end.sound], [])
    decreases |p.queue|, if p.pull.Active? then Needed(fmt, p.pull.args) - p.pull.written else 0
  {
    NextEventEnabled(fmt, p);
    var e, p' := NextEvent(fmt, p), AfterNext(fmt, p);
    if !e.Finish? {
      DrainReplays(fmt, After(trace, e), p');
      Regroup(Audible(trace).current, Written(e), Drain(fmt, After(trace, e), p').sound);
      assert Audible(trace).current + [] == Audible(trace).current;
    }
  }

  // ---- Playback accuracy -----------------------------------------------

  /** The capture instant of sample `i` of a frame, from its timestamp and the sample rate. */
  function CapturedAt(fmt: Format, frame: Frame, i: nat): real {
    frame.captureTimestampUs as real + ExactSpan(fmt, i)
  }

  /** The capture instant a pull wants at position `i` of its output. */
  function WantedAt(fmt: Format, args: PullArgs, i: nat): real {
    args.Target() as real + ExactSpan(fmt, i)
  }

  lemma SpanRounds(fmt: Format, samples: nat)
    ensures SpanUs(fmt, samples) as real <= ExactSpan(fmt, samples) < SpanUs(fmt, samples) as real + 1.0
  {
    QuotientFloors(Quotient(samples, fmt.channels) * 1_000_000, fmt.sampleRate);
  }

  lemma SpanAdds(fmt: Format, a: nat, b: nat)
    requires Aligned(fmt, a)
    ensures ExactSpan(fmt, a + b) == ExactSpan(fmt, a) + ExactSpan(fmt, b)
    ensures ExactSpan(fmt, b) >= 0.0
  {
    BlocksAdd(a, b, fmt.channels);
    var x, y, r := Quotient(a, fmt.channels) as real, Quotient(b, fmt.channels) as real, fmt.sampleRate as real;
    assert (x + y) * 1_000_000.0 / r == x * 1_000_000.0 / r + y * 1_000_000.0 / r;
  }

  lemma SpanMonotone(fmt: Format, a: nat, b: nat)
    requires a <= b
    ensures ExactSpan(fmt, a) <= ExactSpan(fmt, b)
  {
    QuotientMonotone(a, b, fmt.channels);
    var x, y, r := Quotient(a, fmt.channels) as real, Quotient(b, fmt.channels) as real, fmt.sampleRate as real;
    assert (y - x) * 1_000_000.0 / r >= 0.0;
  }

  /** The deviation of a copied sample from the timeline: never more than two frame durations and 1 us. */
  ghost predicate OnTime(fmt: Format, e: Event, i: nat)
    requires e.Copy?
  {
    var error := CapturedAt(fmt, e.frame, e.from + i) - WantedAt(fmt, e.args, e.at + i);
    var frameDuration := ExactSpan(fmt, |e.frame.pcm|);
    -(2.0 * frameDuration + 1.0) < error <= 2.0 * frameDuration
  }

  /** Every sample a possible trace copies out is on time, across frames read in parts by several pulls. */
  lemma {:induction false} CopiesAreOnTime(fmt: Format, trace: Trace, e: Event, i: nat)
    requires Replay(fmt, trace).Some? && Occurs(trace, e) && e.Copy? && i < e.count
    ensures OnTime(fmt, e, i)
  {
    if trace.last == e {
      StaysWellPlaced(fmt, trace.past);
      DueIsOnTime(fmt, e, i);
    } else {
      CopiesAreOnTime(fmt, trace.past, e, i);
    }
  }

  lemma SoundsAreOnTime(fmt: Format, trace: Trace, n: nat, pos: nat, past: Trace, e: Event)
    requires Replay(fmt, trace).Some? && Sounds(trace, n, pos, past, e)
    ensures OnTime(fmt, e, pos - e.at)
  {
    BeginsMeansOccurs(trace, past, e);
    CopiesAreOnTime(fmt, trace, e, pos - e.at);
  }

  lemma DueIsOnTime(fmt: Format, e: Event, i: nat)
    requires e.Copy? && Aligned(fmt, e.from) && Aligned(fmt, e.at) && e.from <= |e.frame.pcm|
    requires Judge(fmt, e.frame, e.args, e.at) == Due
    ensures OnTime(fmt, e, i)
  {
    SpanRounds(fmt, e.at);
    SpanRounds(fmt, |e.frame.pcm|);
    SpanAdds(fmt, e.from, i);
    SpanAdds(fmt, e.at, i);
    SpanMonotone(fmt, e.from, |e.frame.pcm|);
    SpanMonotone(fmt, 0, e.from);
    DueLeaves(e.frame.captureTimestampUs, e.args.Target(), SpanUs(fmt, e.at), SpanUs(fmt, |e.frame.pcm|),
              ExactSpan(fmt, e.at), ExactSpan(fmt, |e.frame.pcm|), ExactSpan(fmt, e.from));
  }

  /** The rounded rule leaves this much in exact durations. */
  lemma DueLeaves(timestampUs: int, targetUs: int, atUs: nat, frameUs: nat, at: real, frame: real, from: real)
    requires timestampUs >= targetUs + atUs - frameUs * 2 && timestampUs <= targetUs + atUs + frameUs
    requires atUs as real <= at < atUs as real + 1.0 && frameUs as real <= frame && 0.0 <= from <= frame
    ensures -(2.0 * frame + 1.0) < timestampUs as real + from - (targetUs as real + at) <= 2.0 * frame
  {
  }

  // ---- Transit window ---------------------------------------------------

  /** The plausible transit times of the accepted frames, in order. */
  function Transits(trace: Trace): seq<int> {
    match trace
    case Fresh => []
    case After(past, e) =>
      if e.Accept? && 0 <= e.transitUs < MAX_TRANSIT_US then Transits(past) + [e.transitUs] else Transits(past)
  }

  /** They are the non-negative ones below two seconds, of accepted frames only. */
  lemma {:induction false} TransitsArePlausible(trace: Trace, transitUs: int)
    ensures transitUs in Transits(trace) <==>
            0 <= transitUs < 2_000_000 && exists frame :: Occurs(trace, Accept(frame, transitUs))
  {
    if trace.After? {
      TransitsArePlausible(trace.past, transitUs);
      if exists frame :: Occurs(trace.past, Accept(frame, transitUs)) {
        var frame :| Occurs(trace.past, Accept(frame, transitUs));
        assert Occurs(trace, Accept(frame, transitUs));
      } else if trace.last.Accept? && trace.last.transitUs == transitUs {
        assert Occurs(trace, Accept(trace.last.frame, transitUs));
      }
    }
  }
}
