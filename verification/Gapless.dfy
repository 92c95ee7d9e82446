/**
 When playback has no gaps: equal frames that follow on from each other, calls
 whose targets follow on from each other, and a lead within one frame of the
 target. Then nothing is skipped and nothing padded, in any interleaving.
 */
module Gapless {
  import opened Playback
  import SpscRing

  /** Frames of `size` samples and `durationUs`, the first one captured at `firstUs`. */
  datatype Stream = Stream(size: nat, durationUs: nat, firstUs: int)

  /** A frame is whole sample groups, and lasts a whole number of microseconds. */
  predicate Regular(fmt: Format, st: Stream) {
    st.size > 0 && Aligned(fmt, st.size) && ExactSpan(fmt, st.size) == st.durationUs as real
  }

  /** The timestamp of the frame behind the given ones. */
  function NextUs(st: Stream, frames: seq<Frame>): int {
    if frames == [] then st.firstUs else frames[|frames| - 1].captureTimestampUs + st.durationUs
  }

  /** The target the next output sample must have, so that the calls follow on from each other. */
  function Due(fmt: Format, startUs: int, trace: Trace): real {
    match trace
    case Fresh => startUs as real
    case After(past, e) =>
      if e.Finish? then Due(fmt, startUs, past) + ExactSpan(fmt, Requested(fmt, past).current)
      else Due(fmt, startUs, past)
  }

  /**
   Accepted frames continue the stream, calls begin where the last one ended, and
   no call finds the buffer empty before it is full.
   */
  predicate Continuous(fmt: Format, st: Stream, startUs: int, trace: Trace) {
    match trace
    case Fresh => true
    case After(past, e) =>
      && Continuous(fmt, st, startUs, past)
      && (e.Accept? ==> |e.frame.pcm| == st.size && e.frame.captureTimestampUs == NextUs(st, Accepted(past)))
      && (e.Begin? ==> e.args.Target() as real == Due(fmt, startUs, past))
      && (e.Finish? && e.silence > 0 ==> Replay(fmt, past).Some? && Replay(fmt, past).value.queue != [])
  }

  /** How far the stream is ahead of the calls; it may be one frame early or late. */
  predicate InTime(st: Stream, startUs: int) {
    st.firstUs - startUs < st.durationUs && startUs - st.firstUs <= st.durationUs
  }

  // ---- What a continuous run keeps --------------------------------------------------------

  /** The queued frames follow on from each other, up to `endUs`. */
  predicate Chained(st: Stream, queue: seq<Frame>, endUs: int) {
    && (forall i :: 0 <= i < |queue| ==> |queue[i].pcm| == st.size)
    && (forall i :: 0 <= i < |queue| - 1 ==> Adjoin(st, queue, i))
    && (queue != [] ==> queue[|queue| - 1].captureTimestampUs + st.durationUs == endUs)
  }

  predicate Adjoin(st: Stream, queue: seq<Frame>, i: nat)
    requires i + 1 < |queue|
  {
    queue[i].captureTimestampUs + st.durationUs == queue[i + 1].captureTimestampUs
  }

  /** The capture instant of the next sample to be read. */
  function Head(fmt: Format, p: Player, endUs: int): real {
    if p.queue == [] then endUs as real else p.queue[0].captureTimestampUs as real + ExactSpan(fmt, p.cursor)
  }

  /** The target of the next sample to be written. */
  function Wanted(fmt: Format, p: Player, due: real): real {
    if p.pull.Active? then p.pull.args.Target() as real + ExactSpan(fmt, p.pull.written) else due
  }

  /** The stream stays as far ahead of the calls as it was. */
  predicate Level(fmt: Format, st: Stream, startUs: int, p: Player, endUs: int, due: real) {
    && WellPlaced(fmt, p) && Chained(st, p.queue, endUs)
    && Head(fmt, p, endUs) - Wanted(fmt, p, due) == (st.firstUs - startUs) as real
    && (p.pull.Active? ==> p.pull.args.Target() as real == due)
  }

  /** A stream in time is never too old and never too early. */
  lemma AlwaysDue(fmt: Format, st: Stream, startUs: int, p: Player, endUs: int, due: real)
    requires Regular(fmt, st) && InTime(st, startUs) && Level(fmt, st, startUs, p, endUs, due)
    ensures !Judges(fmt, p, TooOld) && !Judges(fmt, p, TooEarly)
  {
    if p.pull.Active? && p.queue != [] {
      SpanRounds(fmt, p.pull.written);
      SpanRounds(fmt, st.size);
      SpanMonotone(fmt, p.cursor, st.size);
      SpanMonotone(fmt, 0, p.cursor);
      assert SpanUs(fmt, st.size) == st.durationUs;
      assert |p.queue[0].pcm| == st.size;
    }
  }

  lemma AcceptKeepsLevel(fmt: Format, st: Stream, startUs: int, p: Player, frame: Frame, endUs: int, due: real)
    requires Regular(fmt, st) && Level(fmt, st, startUs, p, endUs, due)
    requires |frame.pcm| == st.size && frame.captureTimestampUs == endUs
    ensures Level(fmt, st, startUs, p.(queue := p.queue + [frame]), endUs + st.durationUs, due)
  {
    var q := p.queue + [frame];
    SpanZero(fmt);
    forall i | 0 <= i < |q| - 1
      ensures Adjoin(st, q, i)
    {
      assert i < |p.queue| - 1 ==> Adjoin(st, p.queue, i);
    }
  }

  lemma SpanZero(fmt: Format)
    ensures ExactSpan(fmt, 0) == 0.0
  {
  }

  lemma CopyKeepsLevel(fmt: Format, st: Stream, startUs: int, p: Player, e: Event, endUs: int, due: real)
    requires Regular(fmt, st) && Level(fmt, st, startUs, p, endUs, due) && e.Copy? && Enabled(fmt, p, e)
    ensures Level(fmt, st, startUs, Apply(fmt, p, e), endUs, due)
  {
    var p' := Apply(fmt, p, e);
    StepWellPlaced(fmt, p, e);
    SpanAdds(fmt, e.from, e.count);
    SpanAdds(fmt, e.at, e.count);
    if e.from + e.count >= st.size {
      SpanZero(fmt);
      RestChained(st, p.queue, endUs);
    }
  }

  lemma RestChained(st: Stream, queue: seq<Frame>, endUs: int)
    requires queue != [] && Chained(st, queue, endUs)
    ensures Chained(st, queue[1..], endUs)
    ensures (if |queue| == 1 then endUs else queue[1].captureTimestampUs) == queue[0].captureTimestampUs + st.durationUs
  {
    forall i | 0 <= i < |queue[1..]| - 1
      ensures Adjoin(st, queue[1..], i)
    {
      assert Adjoin(st, queue, i + 1);
    }
    assert |queue| > 1 ==> Adjoin(st, queue, 0);
  }

  /** All that left the buffer was played, and every finished pull was full. */
  predicate Full(fmt: Format, trace: Trace) {
    var h := Audible(trace);
    && Dispatched(trace) == Played(trace) && |CutPoints(trace)| == |h.outputs|
    && forall n :: 0 <= n < |h.outputs| ==> CutPoints(trace)[n] == |h.outputs[n]|
  }

  /** The request of the running pull is that of its arguments. */
  lemma RequestOfPull(fmt: Format, trace: Trace)
    requires Replay(fmt, trace).Some?
    ensures var p := Replay(fmt, trace).value;
            p.pull.Active? ==> Requested(fmt, trace).current == Needed(fmt, p.pull.args)
  {
    OutputsFillRequests(fmt, trace);
  }

  lemma {:induction false} ContinuousRun(fmt: Format, st: Stream, startUs: int, trace: Trace)
    requires Regular(fmt, st) && InTime(st, startUs)
    requires Replay(fmt, trace).Some? && Continuous(fmt, st, startUs, trace)
    ensures Level(fmt, st, startUs, Replay(fmt, trace).value, NextUs(st, Accepted(trace)), Due(fmt, startUs, trace))
    ensures Full(fmt, trace)
  {
    if trace.Fresh? {
      SpanZero(fmt);
    } else {
      ContinuousRun(fmt, st, startUs, trace.past);
      EventKeepsLevel(fmt, st, startUs, trace.past, trace.last);
      EventKeepsFull(fmt, st, startUs, trace.past, trace.last);
    }
  }

  lemma EventKeepsLevel(fmt: Format, st: Stream, startUs: int, past: Trace, e: Event)
    requires Regular(fmt, st) && InTime(st, startUs)
    requires Replay(fmt, After(past, e)).Some? && Continuous(fmt, st, startUs, After(past, e))
    requires Level(fmt, st, startUs, Replay(fmt, past).value, NextUs(st, Accepted(past)), Due(fmt, startUs, past))
    ensures var now := After(past, e);
            Level(fmt, st, startUs, Replay(fmt, now).value, NextUs(st, Accepted(now)), Due(fmt, startUs, now))
  {
    var p, endUs, due := Replay(fmt, past).value, NextUs(st, Accepted(past)), Due(fmt, startUs, past);
    AlwaysDue(fmt, st, startUs, p, endUs, due);
    match e
    case Accept(frame, _) => AcceptKeepsLevel(fmt, st, startUs, p, frame, endUs, due);
    case Copy(_, _, _, _, _) => CopyKeepsLevel(fmt, st, startUs, p, e, endUs, due);
    case Begin(_) => SpanZero(fmt); StepWellPlaced(fmt, p, e);
    case Finish(_) => RequestOfPull(fmt, past);
    case Reject(_) =>
    case Skip(_, _) =>
  }

  lemma EventKeepsFull(fmt: Format, st: Stream, startUs: int, past: Trace, e: Event)
    requires Regular(fmt, st) && InTime(st, startUs) && Full(fmt, past)
    requires Replay(fmt, After(past, e)).Some? && Continuous(fmt, st, startUs, After(past, e))
    requires Level(fmt, st, startUs, Replay(fmt, past).value, NextUs(st, Accepted(past)), Due(fmt, startUs, past))
    ensures Full(fmt, After(past, e)) && !e.Skip? && (e.Finish? ==> e.silence == 0)
  {
    AlwaysDue(fmt, st, startUs, Replay(fmt, past).value, NextUs(st, Accepted(past)), Due(fmt, startUs, past));
    CallsAreAnswered(fmt, past);
  }

  // ---- Gapless playback -------------------------------------------------------------------

  /** Buffers played one after the other. */
  function Joined(outputs: seq<seq<Sample>>): seq<Sample>
    decreases |outputs|
  {
    if outputs == [] then [] else Joined(outputs[..|outputs| - 1]) + outputs[|outputs| - 1]
  }

  lemma {:induction false} FullIsJoined(outputs: seq<seq<Sample>>, cuts: seq<nat>)
    requires |outputs| == |cuts| && forall n :: 0 <= n < |cuts| ==> cuts[n] == |outputs[n]|
    ensures Voiced(outputs, cuts) == Joined(outputs)
    decreases |outputs|
  {
    if outputs != [] {
      var k := |outputs| - 1;
      FullIsJoined(outputs[..k], cuts[..k]);
      assert outputs[k][..cuts[k]] == outputs[k];
    }
  }

  /**
   A stream within one frame of its calls is played without a gap: the outputs,
   what the running call has copied and what is still unread are together, sample
   by sample, the accepted frames.
   */
  lemma GaplessPlayback(fmt: Format, st: Stream, startUs: int, trace: Trace)
    requires Regular(fmt, st) && InTime(st, startUs)
    requires Replay(fmt, trace).Some? && Continuous(fmt, st, startUs, trace)
    ensures var h := Audible(trace);
            Joined(h.outputs) + h.current + Remaining(Replay(fmt, trace).value) == Flat(Accepted(trace))
  {
    ContinuousRun(fmt, st, startUs, trace);
    OutputsPlayThenFallSilent(fmt, trace);
    SamplesConserved(fmt, trace);
    FullIsJoined(Audible(trace).outputs, CutPoints(trace));
  }

  /** Under the two threads of a client, in any interleaving. */
  lemma GaplessInterleaving(fmt: Format, st: Stream, startUs: int, actions: seq<SpscRing.Action>)
    requires Regular(fmt, st) && InTime(st, startUs)
    requires Continuous(fmt, st, startUs, SpscRing.Run(fmt, actions).trace)
    ensures var s := SpscRing.Run(fmt, actions);
            && Replay(fmt, s.trace).Some?
            && Joined(SpscRing.HandedBack(s.reader)) + Audible(s.trace).current
               + Remaining(Replay(fmt, s.trace).value) == Flat(Accepted(s.trace))
  {
    SpscRing.RunKeeps(fmt, actions);
    var s := SpscRing.Run(fmt, actions);
    GaplessPlayback(fmt, st, startUs, s.trace);
    SpscRing.InvHeard(fmt, s, Replay(fmt, s.trace).value);
  }

  /** In such a run nothing is ever skipped, and no buffer padded. */
  lemma {:induction false} NothingSkippedOrPadded(fmt: Format, st: Stream, startUs: int, trace: Trace, e: Event)
    requires Regular(fmt, st) && InTime(st, startUs)
    requires Replay(fmt, trace).Some? && Continuous(fmt, st, startUs, trace) && Occurs(trace, e)
    ensures !e.Skip? && (e.Finish? ==> e.silence == 0)
  {
    ContinuousRun(fmt, st, startUs, trace.past);
    if trace.last == e {
      EventKeepsFull(fmt, st, startUs, trace.past, e);
    } else {
      NothingSkippedOrPadded(fmt, st, startUs, trace.past, e);
    }
  }

  // ---- A stream that is late ------------------------------------------------------------------

  /**
   Behind one frame the cursor decides: at the start of a call the rest of the
   oldest frame is skipped exactly when more of it was read than the lead leaves of
   two frames. So with a lead in [-2F, -F) a frame read in one piece is played, and
   one that was cut beyond lead + 2F loses its rest.
   */
  lemma LateCutIsSkipped(fmt: Format, st: Stream, p: Player, lead: real)
    requires Regular(fmt, st) && p.pull.Active? && p.pull.written == 0 && Needed(fmt, p.pull.args) > 0
    requires p.queue != [] && |p.queue[0].pcm| == st.size
    requires lead == Head(fmt, p, 0) - p.pull.args.Target() as real
    ensures Judges(fmt, p, TooOld) <==> ExactSpan(fmt, p.cursor) > lead + 2.0 * st.durationUs as real
  {
    SpanRounds(fmt, st.size);
    SpanRounds(fmt, 0);
    SpanZero(fmt);
  }

  /**
   Ahead of it the cursor decides, too: at the start of a call the oldest frame is
   held back, and the whole buffer padded, exactly when its own start is more than
   one frame ahead of the target.
   */
  lemma EarlyFrameIsHeld(fmt: Format, st: Stream, p: Player, lead: real)
    requires Regular(fmt, st) && p.pull.Active? && p.pull.written == 0 && Needed(fmt, p.pull.args) > 0
    requires p.queue != [] && |p.queue[0].pcm| == st.size
    requires lead == Head(fmt, p, 0) - p.pull.args.Target() as real
    ensures Judges(fmt, p, TooEarly) <==> lead - ExactSpan(fmt, p.cursor) > st.durationUs as real
  {
    SpanRounds(fmt, st.size);
    SpanRounds(fmt, 0);
    SpanZero(fmt);
  }
}
