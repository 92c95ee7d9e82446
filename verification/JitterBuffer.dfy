/**
 The client's jitter buffer as the sequential object its two threads share:
 `Push` for the network thread, `Pull` for the audio callback.
 */
module JitterBuffer {
  import opened Arithmetic
  import opened Common
  import opened Playback
  import opened Ring
  import Percentile

  class JitterBuffer {
    const fmt: Format
    const ring: array<Slot>
    var head: nat
    var tail: nat
    var frameReadOffset: nat
    var globalDelayUs: int
    var transitTimes: seq<int>

    /** Everything that happened to this buffer, oldest first. */
    ghost var history: Trace

    /** The readable frames, oldest first. */
    ghost function Contents(): seq<Frame>
      reads this, ring
      requires ring.Length == RING_CAPACITY && Counter(head) && Counter(tail)
    {
      Window(ring[..], tail, Occupancy(head, tail))
    }

    /** The buffer is what its history makes of an empty one. */
    ghost predicate Valid()
      reads this, ring
    {
      && ring.Length == RING_CAPACITY
      && Counter(head) && Counter(tail)
      && Replay(fmt, history) == Some(Player(Contents(), frameReadOffset, Idle))
      && transitTimes == LastN(MAX_TRANSIT_SAMPLES, Transits(history))
    }

    constructor (sampleRate: pos, channels: pos)
      ensures Valid() && fresh(ring) && fmt == Format(sampleRate, channels)
      ensures history == Fresh && Contents() == [] && globalDelayUs == 30_000
    {
      fmt := Format(sampleRate, channels);
      ring := new Slot[RING_CAPACITY](_ => Slot([], 0, false));
      head, tail, frameReadOffset := 0, 0, 0;
      globalDelayUs := 30_000;
      transitTimes := [];
      history := Fresh;
    }

    /** Takes a frame in, or drops it when all 128 slots hold unread frames. */
    method Push(pcm: seq<Sample>, numFrames: nat, captureTimestampUs: int, localRecvUs: int, clockOffsetUs: int)
      requires Valid() && Product(numFrames, fmt.channels) <= |pcm|
      modifies this`head, this`transitTimes, this`history, ring
      ensures Valid()
      ensures var frame := Frame(pcm[..Product(numFrames, fmt.channels)], captureTimestampUs);
              var transitUs := localRecvUs - (captureTimestampUs - clockOffsetUs);
              if old(|Contents()|) == RING_CAPACITY
              then history == After(old(history), Reject(frame)) && Contents() == old(Contents())
              else history == After(old(history), Accept(frame, transitUs)) && Contents() == old(Contents()) + [frame]
    {
      WholeBlocks(numFrames, fmt.channels);
      ConsumedIsPrefixOfAccepted(fmt, history);
      var sampleCount := Product(numFrames, fmt.channels);
      ghost var frame := Frame(pcm[..sampleCount], captureTimestampUs);
      if Occupancy(head, tail) >= RING_CAPACITY {
        history := After(history, Reject(frame));
        return;
      }
      Store(Slot(pcm[..sampleCount], captureTimestampUs, true));
      var serverCaptureInLocalUs := captureTimestampUs - clockOffsetUs;
      var transitUs := localRecvUs - serverCaptureInLocalUs;
      WindowSlides(history, Accept(frame, transitUs));
      NoteTransit(transitUs);
      history := After(history, Accept(frame, transitUs));
    }

    /** Writes the slot at the head and publishes it. */
    method Store(slot: Slot)
      requires ring.Length == RING_CAPACITY && Counter(head) && Counter(tail) && |Contents()| < RING_CAPACITY
      modifies this`head, ring
      ensures Counter(head) && Contents() == old(Contents()) + [Stored(slot)]
    {
      CounterStep(head, tail);
      WindowWrite(ring[..], tail, Occupancy(head, tail), slot);
      ring[Index(head)] := slot;
      assert ring[..] == old(ring[..])[Index(head) := slot];
      head := Next(head);
    }

    /** Keeps the newest 200 plausible transit times. */
    method NoteTransit(transitUs: int)
      modifies this`transitTimes
      ensures transitTimes == Slide(old(transitTimes), transitUs)
    {
      if 0 <= transitUs < MAX_TRANSIT_US {
        transitTimes := transitTimes + [transitUs];
        if |transitTimes| > MAX_TRANSIT_SAMPLES {
          transitTimes := transitTimes[1..];
        }
      }
    }

    /** Hands the oldest slot back to the producer; a fully copied frame is also marked invalid. */
    method Release(consumed: bool)
      requires ring.Length == RING_CAPACITY && Counter(head) && Counter(tail) && 0 < |Contents()| <= RING_CAPACITY
      modifies this`tail, this`frameReadOffset, ring
      ensures Counter(tail) && frameReadOffset == 0 && Contents() == old(Contents())[1..]
    {
      CounterStep(head, tail);
      WindowRetire(ring[..], tail, Occupancy(head, tail));
      if consumed {
        ring[Index(tail)] := ring[Index(tail)].(valid := false);
      }
      tail := Next(tail);
      frameReadOffset := 0;
      WindowSame(old(ring[..]), ring[..], tail, Occupancy(head, tail));
    }

    /** Between two turns of the copy loop: the player is this buffer with a pull running. */
    ghost predicate Serving(p: Player)
      reads this, ring
    {
      && ring.Length == RING_CAPACITY && Counter(head) && Counter(tail)
      && p.queue == Contents() && p.cursor == frameReadOffset && p.pull.Active?
      && WellPlaced(fmt, p) && |p.queue| <= RING_CAPACITY
    }

    /** Fills the callback's buffer: due samples first, silence behind them. */
    method Pull(outPcm: array<Sample>, numFrames: nat, localPlayoutUs: int, clockOffsetUs: int) returns (written: nat)
      requires Valid() && outPcm.Length == Product(numFrames, fmt.channels)
      modifies this`tail, this`frameReadOffset, this`history, ring, outPcm
      ensures Valid() && written == numFrames
      ensures var args := PullArgs(numFrames, localPlayoutUs, clockOffsetUs, globalDelayUs);
              var start := Player(old(Contents()), old(frameReadOffset), Active(args, 0));
              WellPlaced(fmt, start) &&
              var end := Drain(fmt, After(old(history), Begin(args)), start);
              && history == end.trace
              && Contents() == end.player.queue && frameReadOffset == end.player.cursor
              && outPcm[..] == end.sound
              && Audible(history).outputs == Audible(old(history)).outputs + [outPcm[..]]
    {
      ghost var args := PullArgs(numFrames, localPlayoutUs, clockOffsetUs, globalDelayUs);
      ghost var start := Player(Contents(), frameReadOffset, Active(args, 0));
      PullReplays(fmt, history, Player(Contents(), frameReadOffset, Idle), args);
      ghost var end := Drain(fmt, After(history, Begin(args)), start);
      history := end.trace;
      var samplesNeeded := Product(numFrames, fmt.channels);
      var serverPlayoutUs := localPlayoutUs + clockOffsetUs;
      var targetCaptureUs := serverPlayoutUs - globalDelayUs;
      var outOffset := CopyDue(outPcm, samplesNeeded, targetCaptureUs, start, After(old(history), Begin(args)));
      if outOffset < samplesNeeded {
        CopySamples(outPcm, outOffset, Silence(samplesNeeded - outOffset));
      }
      written := numFrames;
    }

    /** The oldest slot holds the oldest frame. */
    lemma Front(p: Player)
      requires Serving(p) && p.queue != []
      ensures head != tail && Stored(ring[Index(tail)]) == p.queue[0] && 0 < |Contents()| <= RING_CAPACITY
    {
      CounterStep(head, tail);
      WindowRetire(ring[..], tail, Occupancy(head, tail));
    }

    /** Copies from the oldest frame, which is due, and releases it when it is used up. */
    method CopyFront(outPcm: array<Sample>, outOffset: nat, samplesNeeded: nat, ghost p: Player) returns (toCopy: nat)
      requires Serving(p) && NextEvent(fmt, p).Copy? && samplesNeeded == outPcm.Length
      requires p.pull.written == outOffset && Needed(fmt, p.pull.args) == samplesNeeded
      modifies this`tail, this`frameReadOffset, ring, outPcm
      ensures toCopy == NextEvent(fmt, p).count
      ensures Serving(AfterNext(fmt, p))
      ensures outPcm[..outOffset + toCopy] == old(outPcm[..outOffset]) + Written(NextEvent(fmt, p))
    {
      Front(p);
      NextCopy(fmt, p);
      var frame := ring[Index(tail)];
      var available := |frame.pcm| - frameReadOffset;
      toCopy := Min(available, samplesNeeded - outOffset);
      CopySamples(outPcm, outOffset, frame.pcm[frameReadOffset..frameReadOffset + toCopy]);
      frameReadOffset := frameReadOffset + toCopy;
      if frameReadOffset >= |frame.pcm| {
        Release(true);
      }
    }

    /** One turn of the copy loop: skips, holds or copies the oldest frame. */
    method Turn(outPcm: array<Sample>, outOffset: nat, samplesNeeded: nat, targetCaptureUs: int, ghost p: Player)
      returns (more: bool, outOffset': nat)
      requires Serving(p) && outOffset < samplesNeeded == outPcm.Length
      requires p.pull.written == outOffset && Needed(fmt, p.pull.args) == samplesNeeded
      requires p.pull.args.Target() == targetCaptureUs
      modifies this`tail, this`frameReadOffset, ring, outPcm
      ensures var e := NextEvent(fmt, p);
              && more == !e.Finish?
              && outOffset' == outOffset + (if more then |Written(e)| else 0)
              && Serving(if more then AfterNext(fmt, p) else p)
              && outPcm[..outOffset'] == old(outPcm[..outOffset]) + (if more then Written(e) else [])
    {
      CounterStep(head, tail);
      NextEventEnabled(fmt, p);
      if tail == head {
        return false, outOffset;
      }
      Front(p);
      var frame := ring[Index(tail)];
      var currentTargetUs := targetCaptureUs + SpanUs(fmt, outOffset);
      var frameDurationUs := SpanUs(fmt, |frame.pcm|);
      if frame.captureTimestampUs < currentTargetUs - frameDurationUs * 2 {
        Release(false);
        return true, outOffset;
      }
      if frame.captureTimestampUs > currentTargetUs + frameDurationUs {
        return false, outOffset;
      }
      var toCopy := CopyFront(outPcm, outOffset, samplesNeeded, p);
      return true, outOffset + toCopy;
    }

    /** The copy loop: everything that is due, up to the end of the buffer. */
    method CopyDue(outPcm: array<Sample>, samplesNeeded: nat, targetCaptureUs: int,
                   ghost start: Player, ghost history0: Trace)
      returns (outOffset: nat)
      requires Serving(start) && Needed(fmt, start.pull.args) == samplesNeeded == outPcm.Length
      requires start.pull.args.Target() == targetCaptureUs && start.pull.written == 0
      modifies this`tail, this`frameReadOffset, ring, outPcm
      ensures var end := Drain(fmt, history0, start);
              && Counter(tail) && end.player.queue == Contents() && end.player.cursor == frameReadOffset
              && outOffset <= samplesNeeded
              && outPcm[..outOffset] + Silence(samplesNeeded - outOffset) == end.sound
    {
      outOffset := 0;
      var more := true;
      ghost var p, trace, end := start, history0, Drain(fmt, history0, start);
      assert [] + end.sound == end.sound;
      while more && outOffset < samplesNeeded
        invariant outOffset <= samplesNeeded
        invariant more ==> Serving(p) && p.pull == Active(start.pull.args, outOffset)
        invariant more ==> Completes(fmt, trace, p, outPcm[..outOffset], end)
        invariant !more ==> Ended(outPcm[..outOffset], samplesNeeded, end)
        decreases more, |p.queue|, samplesNeeded - outOffset
      {
        more, outOffset, p, trace := CopyNext(outPcm, outOffset, samplesNeeded, targetCaptureUs, p, trace, end);
      }
      if more {
        TurnCompletes(fmt, trace, p, outPcm[..outOffset], end);
      }
    }

    /** The pull is over but for the padding. */
    ghost predicate Ended(done: seq<Sample>, samplesNeeded: nat, end: Outcome)
      requires |done| <= samplesNeeded
      reads this, ring
    {
      && ring.Length == RING_CAPACITY && Counter(head) && Counter(tail)
      && end.player.queue == Contents() && end.player.cursor == frameReadOffset
      && done + Silence(samplesNeeded - |done|) == end.sound
    }

    /** One turn, and what it leaves to be done. */
    method CopyNext(outPcm: array<Sample>, outOffset: nat, samplesNeeded: nat, targetCaptureUs: int,
                    ghost p: Player, ghost trace: Trace, ghost end: Outcome)
      returns (more: bool, outOffset': nat, ghost p': Player, ghost trace': Trace)
      requires Serving(p) && outOffset < samplesNeeded == outPcm.Length
      requires p.pull.written == outOffset && Needed(fmt, p.pull.args) == samplesNeeded
      requires p.pull.args.Target() == targetCaptureUs && Completes(fmt, trace, p, outPcm[..outOffset], end)
      modifies this`tail, this`frameReadOffset, ring, outPcm
      ensures outOffset' <= samplesNeeded
      ensures more ==>
                && Serving(p') && p'.pull == Active(p.pull.args, outOffset')
                && Completes(fmt, trace', p', outPcm[..outOffset'], end)
                && (|p'.queue| < |p.queue| || (p'.queue == p.queue && outOffset < outOffset'))
      ensures !more ==> Ended(outPcm[..outOffset'], samplesNeeded, end)
    {
      TurnCompletes(fmt, trace, p, outPcm[..outOffset], end);
      p', trace' := AfterNext(fmt, p), After(trace, NextEvent(fmt, p));
      more, outOffset' := Turn(outPcm, outOffset, samplesNeeded, targetCaptureUs, p);
    }

    /** Stores the delay the server broadcast, in whole microseconds. */
    method SetGlobalDelayMs(delayMs: real)
      requires Valid()
      modifies this`globalDelayUs
      ensures Valid() && globalDelayUs == Truncate(delayMs * 1000.0)
    {
      globalDelayUs := Truncate(delayMs * 1000.0);
    }

    /** The 95th percentile of the transit window, in milliseconds. */
    method GetP95JitterMs() returns (p95Ms: real)
      requires Valid()
      ensures transitTimes == [] ==> p95Ms == 0.0
      ensures transitTimes != [] ==>
                exists p95Us :: Percentile.IsP95(transitTimes, p95Us) && p95Ms == p95Us as real / 1000.0
    {
      if transitTimes == [] {
        return 0.0;
      }
      var sorted := Percentile.Sort(transitTimes);
      var idx := |sorted| * 95 / 100;
      if idx >= |sorted| {
        idx := |sorted| - 1;
      }
      Percentile.IndexIsP95(transitTimes, sorted);
      p95Ms := sorted[idx] as real / 1000.0;
    }
  }

  /** The window after one more measurement. */
  function Slide(window: seq<int>, transitUs: int): seq<int> {
    if !(0 <= transitUs < MAX_TRANSIT_US) then window
    else
      var longer := window + [transitUs];
      if |longer| > MAX_TRANSIT_SAMPLES then longer[1..] else longer
  }

  /** What an arriving frame does to the window of transit times. */
  lemma WindowSlides(trace: Trace, e: Event)
    requires e.Accept?
    ensures LastN(200, Transits(After(trace, e))) == Slide(LastN(200, Transits(trace)), e.transitUs)
  {
    LastNSlides(MAX_TRANSIT_SAMPLES, Transits(trace), e.transitUs);
  }

  /** `memcpy` and `std::fill`: overwrites the samples from `at` on. */
  method CopySamples(dst: array<Sample>, at: nat, src: seq<Sample>)
    requires at + |src| <= dst.Length
    modifies dst
    ensures dst[..at + |src|] == old(dst[..at]) + src
  {
    forall i | 0 <= i < |src| {
      dst[at + i] := src[i];
    }
  }

  /** A pull on an idle player finds it well placed, and continues its history. */
  lemma PullReplays(fmt: Format, history: Trace, p: Player, args: PullArgs)
    requires p.pull.Idle? && Replay(fmt, history) == Some(p)
    ensures WellPlaced(fmt, p.(pull := Active(args, 0))) && |p.queue| <= RING_CAPACITY
    ensures var end := Drain(fmt, After(history, Begin(args)), p.(pull := Active(args, 0)));
            && Replay(fmt, end.trace) == Some(end.player) && end.player.pull.Idle?
            && Transits(end.trace) == Transits(history)
            && Audible(end.trace).outputs == Audible(history).outputs + [end.sound]
  {
    var trace := After(history, Begin(args));
    StaysWellPlaced(fmt, trace);
    ConsumedIsPrefixOfAccepted(fmt, trace);
    DrainReplays(fmt, trace, p.(pull := Active(args, 0)));
    var end := Drain(fmt, trace, p.(pull := Active(args, 0)));
    assert [] + end.sound == end.sound;
  }
}
