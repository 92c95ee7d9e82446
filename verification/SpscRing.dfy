/**
 The jitter buffer under its two threads: `push` and `pull` as interleaved
 atomic steps over one ring. Each load and store of a counter, each slot write
 and each sample copied is one step; a run is any sequence of actions, so any
 interleaving and any staleness of a loaded counter is a run.
 */
module SpscRing {
  import opened Common
  import opened Playback
  import opened Ring

  /** The network thread inside `push`. */
  datatype Producer =
    | Resting
    | LoadedHead(frame: Frame, transitUs: int, h: nat)
    | LoadedTail(frame: Frame, transitUs: int, h: nat, t: nat)
    | Sizing(frame: Frame, transitUs: int, h: nat)
    | Filling(frame: Frame, transitUs: int, h: nat, k: nat)
    | Stamping(frame: Frame, transitUs: int, h: nat)
    | Marking(frame: Frame, transitUs: int, h: nat)
    | Publishing(frame: Frame, transitUs: int, h: nat)

  /** The audio thread inside `pull`. */
  datatype Consumer =
    | Quiet
    | Top(args: PullArgs)
    | GotTail(args: PullArgs, t: nat)
    | Measuring(args: PullArgs, t: nat)
    | Judging(args: PullArgs, t: nat, size: nat)
    | Dropping(args: PullArgs, t: nat)
    | Copying(args: PullArgs, t: nat, size: nat, count: nat, k: nat)
    | Clearing(args: PullArgs, t: nat, count: nat)
    | Freeing(args: PullArgs, t: nat, count: nat)
    | Padding(silence: nat)

  /** What belongs to the audio thread: its cursor, its output buffer, and the outputs handed back so far. */
  datatype Reader = Reader(at: Consumer, cursor: nat, out: seq<Sample>, outputs: seq<seq<Sample>>)

  /** The shared ring and counters, the two threads, and the trace of events, which nobody reads. */
  datatype State = State(ring: seq<Slot>, head: nat, tail: nat, producer: Producer, reader: Reader, trace: Trace)

  /** Which thread moves, and the arguments it is called with when it starts a call. */
  datatype Action =
    | Network(frame: Frame, transitUs: int)
    | Audio(args: PullArgs)

  function Init(): State {
    State(seq(RING_CAPACITY, _ => Slot([], 0, false)), 0, 0, Resting, Reader(Quiet, 0, [], []), Fresh)
  }

  /** `vector::resize`: keeps a prefix, fills up with zeros. */
  function Resized(pcm: seq<Sample>, n: nat): (r: seq<Sample>)
    ensures |r| == n
  {
    if n <= |pcm| then pcm[..n] else pcm + Silence(n - |pcm|)
  }

  function WriteSlot(s: State, h: nat, slot: Slot): State
    requires |s.ring| == RING_CAPACITY
  {
    s.(ring := s.ring[Index(h) := slot])
  }

  /** One step of the network thread. Frames are whole sample groups, as `numFrames * channels` makes them. */
  function ProducerStep(fmt: Format, s: State, frame: Frame, transitUs: int): State
    requires |s.ring| == RING_CAPACITY && Counter(s.head) && Counter(s.tail)
  {
    match s.producer
    case Resting =>
      if Aligned(fmt, |frame.pcm|) then s.(producer := LoadedHead(frame, transitUs, s.head)) else s
    case LoadedHead(f, x, h) =>
      var s' := s.(producer := LoadedTail(f, x, h, s.tail));
      if Counter(h) && Occupancy(h, s.tail) >= RING_CAPACITY then s'.(trace := After(s.trace, Reject(f))) else s'
    case LoadedTail(f, x, h, t) =>
      if Counter(h) && Counter(t) && Occupancy(h, t) >= RING_CAPACITY then s.(producer := Resting)
      else s.(producer := Sizing(f, x, h))
    case Sizing(f, x, h) =>
      var slot := s.ring[Index(h)];
      WriteSlot(s, h, slot.(pcm := Resized(slot.pcm, |f.pcm|))).(producer := Filling(f, x, h, 0))
    case Filling(f, x, h, k) =>
      var slot := s.ring[Index(h)];
      if k >= |f.pcm| || k >= |slot.pcm| then s.(producer := Stamping(f, x, h))
      else WriteSlot(s, h, slot.(pcm := slot.pcm[k := f.pcm[k]])).(producer := Filling(f, x, h, k + 1))
    case Stamping(f, x, h) =>
      WriteSlot(s, h, s.ring[Index(h)].(captureTimestampUs := f.captureTimestampUs)).(producer := Marking(f, x, h))
    case Marking(f, x, h) =>
      WriteSlot(s, h, s.ring[Index(h)].(valid := true)).(producer := Publishing(f, x, h))
    case Publishing(f, x, h) =>
      s.(head := Next(h), producer := Resting, trace := After(s.trace, Accept(f, x)))
  }

  /** One step of the audio thread. */
  function ConsumerStep(fmt: Format, s: State, callArgs: PullArgs): State
    requires |s.ring| == RING_CAPACITY
  {
    var r := s.reader;
    match r.at
    case Quiet =>
      s.(reader := r.(at := Top(callArgs), out := []), trace := After(s.trace, Begin(callArgs)))
    case Top(args) =>
      if |r.out| < Needed(fmt, args) then s.(reader := r.(at := GotTail(args, s.tail))) else Ending(fmt, s, args)
    case GotTail(args, t) =>
      if t == s.head then Ending(fmt, s, args) else s.(reader := r.(at := Measuring(args, t)))
    case Measuring(args, t) =>
      s.(reader := r.(at := Judging(args, t, |s.ring[Index(t)].pcm|)))
    case Judging(args, t, size) =>
      (match JudgeSlot(fmt, size, s.ring[Index(t)].captureTimestampUs, args, |r.out|)
       case TooOld => s.(reader := r.(at := Dropping(args, t)))
       case TooEarly => Ending(fmt, s, args)
       case Due =>
         var count := Max(0, Min(size - r.cursor, Needed(fmt, args) - |r.out|));
         s.(reader := r.(at := Copying(args, t, size, count, 0))))
    case Dropping(args, t) =>
      s.(tail := Next(t), reader := r.(at := Top(args), cursor := 0),
         trace := After(s.trace, Skip(Stored(s.ring[Index(t)]), r.cursor)))
    case Copying(args, t, size, count, k) =>
      var pcm := s.ring[Index(t)].pcm;
      if k < count && r.cursor + k < |pcm| then
        s.(reader := r.(at := Copying(args, t, size, count, k + 1), out := r.out + [pcm[r.cursor + k]]))
      else if r.cursor + count >= size then s.(reader := r.(at := Clearing(args, t, count)))
      else
        s.(reader := r.(at := Top(args), cursor := r.cursor + count),
           trace := After(s.trace, Copied(s, args, t, count)))
    case Clearing(args, t, count) =>
      WriteSlot(s, t, s.ring[Index(t)].(valid := false)).(reader := r.(at := Freeing(args, t, count)))
    case Freeing(args, t, count) =>
      s.(tail := Next(t), reader := r.(at := Top(args), cursor := 0),
         trace := After(s.trace, Copied(s, args, t, count)))
    case Padding(silence) =>
      s.(reader := Reader(Quiet, r.cursor, [], r.outputs + [r.out + Silence(silence)]))
  }

  /** Leaves the copy loop; the rest of the buffer will be silence. */
  function Ending(fmt: Format, s: State, args: PullArgs): State {
    var silence := Max(0, Needed(fmt, args) - |s.reader.out|);
    s.(reader := s.reader.(at := Padding(silence)), trace := After(s.trace, Finish(silence)))
  }

  function Copied(s: State, args: PullArgs, t: nat, count: nat): Event
    requires |s.ring| == RING_CAPACITY
  {
    Copy(Stored(s.ring[Index(t)]), s.reader.cursor, count, Max(0, |s.reader.out| - count), args)
  }

  function Step(fmt: Format, s: State, a: Action): (s': State)
    requires |s.ring| == RING_CAPACITY && Counter(s.head) && Counter(s.tail)
    ensures |s'.ring| == RING_CAPACITY && Counter(s'.head) && Counter(s'.tail)
  {
    match a
    case Network(frame, transitUs) => ProducerStep(fmt, s, frame, transitUs)
    case Audio(args) => ConsumerStep(fmt, s, args)
  }

  // ---- The invariant ------------------------------------------------------

  /** The slot at the head holds the first part of the arriving frame. */
  predicate ProducerOk(fmt: Format, producer: Producer, head: nat, slot: Slot, queued: nat) {
    match producer
    case Resting => true
    case LoadedHead(f, _, h) => h == head && Aligned(fmt, |f.pcm|)
    case LoadedTail(f, _, h, t) =>
      && h == head && Aligned(fmt, |f.pcm|) && Counter(h) && Counter(t)
      && (Occupancy(h, t) < RING_CAPACITY ==> queued <= Occupancy(h, t))
    case Sizing(f, _, h) => h == head && Aligned(fmt, |f.pcm|) && queued < RING_CAPACITY
    case Filling(f, _, h, k) =>
      && h == head && Aligned(fmt, |f.pcm|) && queued < RING_CAPACITY
      && k <= |f.pcm| == |slot.pcm| && slot.pcm[..k] == f.pcm[..k]
    case Stamping(f, _, h) =>
      h == head && Aligned(fmt, |f.pcm|) && queued < RING_CAPACITY && slot.pcm == f.pcm
    case Marking(f, _, h) =>
      h == head && Aligned(fmt, |f.pcm|) && queued < RING_CAPACITY && Stored(slot) == f
    case Publishing(f, _, h) =>
      h == head && Aligned(fmt, |f.pcm|) && queued < RING_CAPACITY && Stored(slot) == f
  }

  /** The consumer is where the pull of the traced player is. */
  predicate ConsumerOk(fmt: Format, r: Reader, tail: nat, heard: Heard, p: Player) {
    r.cursor == p.cursor &&
    match r.at
    case Quiet => p.pull.Idle? && heard.outputs == r.outputs
    case Padding(silence) => p.pull.Idle? && heard.outputs == r.outputs + [r.out + Silence(silence)]
    case Top(args) => Between(r, heard, p, args)
    case GotTail(args, t) => Between(r, heard, p, args) && t == tail && |r.out| < Needed(fmt, args)
    case Measuring(args, t) =>
      Between(r, heard, p, args) && t == tail && |r.out| < Needed(fmt, args) && p.queue != []
    case Judging(args, t, size) =>
      && Between(r, heard, p, args) && t == tail && |r.out| < Needed(fmt, args)
      && p.queue != [] && size == |p.queue[0].pcm|
    case Dropping(args, t) => Between(r, heard, p, args) && t == tail && Judges(fmt, p, TooOld)
    case Copying(args, t, size, count, k) =>
      t == tail && CopyOk(fmt, r, heard, p, args, count, k) && size == |p.queue[0].pcm|
    case Clearing(args, t, count) =>
      t == tail && CopyOk(fmt, r, heard, p, args, count, count) && p.cursor + count == |p.queue[0].pcm|
    case Freeing(args, t, count) =>
      t == tail && CopyOk(fmt, r, heard, p, args, count, count) && p.cursor + count == |p.queue[0].pcm|
  }

  predicate Between(r: Reader, heard: Heard, p: Player, args: PullArgs) {
    p.pull == Active(args, |r.out|) && heard == Heard(r.outputs, r.out)
  }

  /** `k` of `count` samples of the oldest frame have been copied, untorn. */
  predicate CopyOk(fmt: Format, r: Reader, heard: Heard, p: Player, args: PullArgs, count: nat, k: nat) {
    && Judges(fmt, p, Due) && p.pull.args == args && p.cursor <= |p.queue[0].pcm|
    && count == Min(|p.queue[0].pcm| - p.cursor, Needed(fmt, args) - p.pull.written)
    && k <= count && |r.out| == p.pull.written + k
    && heard.outputs == r.outputs && r.out == heard.current + p.queue[0].pcm[p.cursor..p.cursor + k]
  }

  /** The ring between the counters holds exactly the queue of the traced player. */
  predicate RingOk(s: State, p: Player) {
    && |s.ring| == RING_CAPACITY && Counter(s.head) && Counter(s.tail)
    && Occupancy(s.head, s.tail) == |p.queue| <= RING_CAPACITY
    && Window(s.ring, s.tail, |p.queue|) == p.queue
  }

  /** The trace leads to a player whose queue is in the ring. */
  predicate Backed(fmt: Format, s: State, p: Player) {
    Replay(fmt, s.trace) == Some(p) && RingOk(s, p) && WellPlaced(fmt, p)
  }

  predicate WriterOk(fmt: Format, s: State, p: Player)
    requires |s.ring| == RING_CAPACITY
  {
    ProducerOk(fmt, s.producer, s.head, s.ring[Index(s.head)], |p.queue|)
  }

  predicate ReaderOk(fmt: Format, s: State, p: Player) {
    ConsumerOk(fmt, s.reader, s.tail, Audible(s.trace), p)
  }

  predicate Inv(fmt: Format, s: State) {
    Replay(fmt, s.trace).Some? &&
    var p := Replay(fmt, s.trace).value;
    Backed(fmt, s, p) && WriterOk(fmt, s, p) && ReaderOk(fmt, s, p)
  }

  // ---- Producer steps -------------------------------------------------------

  /** Rewriting the slot at the head, while it is not readable, disturbs nobody. */
  lemma HeadWriteInvisible(s: State, p: Player, slot: Slot)
    requires RingOk(s, p) && |p.queue| < RING_CAPACITY
    ensures RingOk(WriteSlot(s, s.head, slot), p)
    ensures Window(s.ring[Index(s.head) := slot], s.tail, |p.queue| + 1) == p.queue + [Stored(slot)]
  {
    CounterStep(s.head, s.tail);
    WindowWrite(s.ring, s.tail, |p.queue|, slot);
  }

  /** The tail is loaded while the head is the producer's own: fullness is decided here, exactly. */
  lemma ProducerLoads(fmt: Format, s: State, p: Player, frame: Frame, transitUs: int)
    requires Backed(fmt, s, p) && WriterOk(fmt, s, p)
    requires s.producer.Resting? || s.producer.LoadedHead? || s.producer.LoadedTail?
    ensures var s' := ProducerStep(fmt, s, frame, transitUs);
            Backed(fmt, s', p) && WriterOk(fmt, s', p) && Audible(s'.trace) == Audible(s.trace)
  {
  }

  lemma ProducerWrites(fmt: Format, s: State, p: Player, frame: Frame, transitUs: int)
    requires Backed(fmt, s, p) && WriterOk(fmt, s, p)
    requires s.producer.Sizing? || s.producer.Filling? || s.producer.Stamping? || s.producer.Marking?
    ensures var s' := ProducerStep(fmt, s, frame, transitUs);
            Backed(fmt, s', p) && WriterOk(fmt, s', p) && s'.trace == s.trace
  {
    var s' := ProducerStep(fmt, s, frame, transitUs);
    assert s'.ring == s.ring[Index(s.head) := s'.ring[Index(s.head)]];
    HeadWriteInvisible(s, p, s'.ring[Index(s.head)]);
  }

  lemma ProducerPublishes(fmt: Format, s: State, p: Player, frame: Frame, transitUs: int)
    requires Backed(fmt, s, p) && WriterOk(fmt, s, p) && s.producer.Publishing?
    ensures var s', f := ProducerStep(fmt, s, frame, transitUs), s.producer.frame;
            && Backed(fmt, s', p.(queue := p.queue + [f])) && WriterOk(fmt, s', p.(queue := p.queue + [f]))
            && Audible(s'.trace) == Audible(s.trace)
  {
    var s', f := ProducerStep(fmt, s, frame, transitUs), s.producer.frame;
    HeadWriteInvisible(s, p, s.ring[Index(s.head)]);
    assert s.ring[Index(s.head) := s.ring[Index(s.head)]] == s.ring;
    CounterStep(s.head, s.tail);
    StepWellPlaced(fmt, p, Accept(f, s.producer.transitUs));
  }

  /** A frame arriving behind the queue changes nothing for a pull in progress. */
  lemma ReaderUndisturbed(fmt: Format, r: Reader, tail: nat, heard: Heard, p: Player, arrived: seq<Frame>)
    requires ConsumerOk(fmt, r, tail, heard, p)
    ensures ConsumerOk(fmt, r, tail, heard, p.(queue := p.queue + arrived))
  {
    assert p.queue != [] ==> (p.queue + arrived)[0] == p.queue[0];
  }

  lemma ProducerKeeps(fmt: Format, s: State, frame: Frame, transitUs: int)
    requires Inv(fmt, s)
    ensures Inv(fmt, ProducerStep(fmt, s, frame, transitUs))
  {
    var p := Replay(fmt, s.trace).value;
    if s.producer.Publishing? {
      ProducerPublishes(fmt, s, p, frame, transitUs);
      ReaderUndisturbed(fmt, s.reader, s.tail, Audible(s.trace), p, [s.producer.frame]);
    } else if s.producer.Resting? || s.producer.LoadedHead? || s.producer.LoadedTail? {
      ProducerLoads(fmt, s, p, frame, transitUs);
    } else {
      ProducerWrites(fmt, s, p, frame, transitUs);
    }
  }

  // ---- Consumer steps -------------------------------------------------------

  lemma OldestSlot(s: State, p: Player)
    requires RingOk(s, p) && p.queue != []
    ensures Stored(s.ring[Index(s.tail)]) == p.queue[0]
    ensures RingOk(s.(tail := Next(s.tail)), p.(queue := p.queue[1..]))
  {
    CounterStep(s.head, s.tail);
    WindowRetire(s.ring, s.tail, |p.queue|);
  }

  /** The traced player after a step: one event further if the step recorded one. */
  function Moved(fmt: Format, s: State, s': State, p: Player): Player {
    if s'.trace != s.trace && s'.trace.After? && Enabled(fmt, p, s'.trace.last) then Apply(fmt, p, s'.trace.last) else p
  }

  predicate Served(fmt: Format, s: State, s': State, p: Player) {
    Backed(fmt, s', Moved(fmt, s, s', p)) && ReaderOk(fmt, s', Moved(fmt, s, s', p))
  }

  lemma ConsumerLooks(fmt: Format, s: State, p: Player, args: PullArgs)
    requires Backed(fmt, s, p) && ReaderOk(fmt, s, p)
    requires s.reader.at.Top? || s.reader.at.GotTail?
    ensures Served(fmt, s, ConsumerStep(fmt, s, args), p)
  {
    CounterStep(s.head, s.tail);
  }

  /** A callback begins, or is handed its buffer. */
  lemma ConsumerEnters(fmt: Format, s: State, p: Player, args: PullArgs)
    requires Backed(fmt, s, p) && ReaderOk(fmt, s, p)
    requires s.reader.at.Quiet? || s.reader.at.Padding?
    ensures Served(fmt, s, ConsumerStep(fmt, s, args), p)
  {
    if s.reader.at.Padding? {
      ReaderMoves(fmt, s, p, ConsumerStep(fmt, s, args).reader);
    }
  }

  lemma ConsumerMeasures(fmt: Format, s: State, p: Player, args: PullArgs)
    requires Backed(fmt, s, p) && ReaderOk(fmt, s, p) && s.reader.at.Measuring?
    ensures Served(fmt, s, ConsumerStep(fmt, s, args), p)
  {
    OldestSlot(s, p);
  }

  lemma ConsumerJudges(fmt: Format, s: State, p: Player, args: PullArgs)
    requires Backed(fmt, s, p) && ReaderOk(fmt, s, p) && s.reader.at.Judging?
    ensures Served(fmt, s, ConsumerStep(fmt, s, args), p)
  {
    var Judging(a, t, size) := s.reader.at;
    OldestSlot(s, p);
    var v := Judge(fmt, p.queue[0], a, |s.reader.out|);
    assert JudgeSlot(fmt, size, s.ring[Index(t)].captureTimestampUs, a, |s.reader.out|) == v;
    if v.TooEarly? {
      HoldingEnds(fmt, s, p, a);
    } else {
      ReaderMoves(fmt, s, p, ConsumerStep(fmt, s, args).reader);
    }
  }

  /** A frame that is too early ends the pull. */
  lemma HoldingEnds(fmt: Format, s: State, p: Player, a: PullArgs)
    requires Backed(fmt, s, p) && ReaderOk(fmt, s, p) && s.reader.at.Judging? && s.reader.at.args == a
    requires Judge(fmt, p.queue[0], a, |s.reader.out|) == TooEarly
    ensures Served(fmt, s, Ending(fmt, s, a), p)
  {
    assert Enabled(fmt, p, Finish(Needed(fmt, a) - |s.reader.out|));
  }

  lemma SliceGrows(done: seq<Sample>, pcm: seq<Sample>, from: nat, k: nat)
    requires from + k < |pcm|
    ensures done + pcm[from..from + k] + [pcm[from + k]] == done + pcm[from..from + k + 1]
  {
    assert pcm[from..from + k] + [pcm[from + k]] == pcm[from..from + k + 1];
  }

  /** One more sample is copied, and it is the right one. */
  lemma CopyGrows(fmt: Format, r: Reader, heard: Heard, p: Player, args: PullArgs, count: nat, k: nat)
    requires CopyOk(fmt, r, heard, p, args, count, k) && k < count
    ensures CopyOk(fmt, r.(out := r.out + [p.queue[0].pcm[p.cursor + k]]), heard, p, args, count, k + 1)
  {
    SliceGrows(heard.current, p.queue[0].pcm, p.cursor, k);
  }

  /** The reader with one more sample of `pcm` copied. */
  function OneMoreCopied(r: Reader, pcm: seq<Sample>): Reader
    requires r.at.Copying? && r.cursor + r.at.k < |pcm|
  {
    r.(at := r.at.(k := r.at.k + 1), out := r.out + [pcm[r.cursor + r.at.k]])
  }

  lemma ReaderCopies(fmt: Format, r: Reader, tail: nat, heard: Heard, p: Player)
    requires ConsumerOk(fmt, r, tail, heard, p) && r.at.Copying? && r.at.k < r.at.count
    ensures r.at.t == tail && p.queue != [] && r.cursor + r.at.k < |p.queue[0].pcm|
    ensures ConsumerOk(fmt, OneMoreCopied(r, p.queue[0].pcm), tail, heard, p)
  {
    CopyGrows(fmt, r, heard, p, r.at.args, r.at.count, r.at.k);
  }

  lemma ConsumerCopiesOne(fmt: Format, s: State, p: Player, args: PullArgs)
    requires Backed(fmt, s, p) && ReaderOk(fmt, s, p)
    requires s.reader.at.Copying? && s.reader.at.k < s.reader.at.count
    ensures Served(fmt, s, ConsumerStep(fmt, s, args), p)
  {
    ReaderCopies(fmt, s.reader, s.tail, Audible(s.trace), p);
    OldestSlot(s, p);
    CopyStep(fmt, s, p.queue[0].pcm, args);
    ReaderMoves(fmt, s, p, OneMoreCopied(s.reader, p.queue[0].pcm));
  }

  lemma ReaderMoves(fmt: Format, s: State, p: Player, r: Reader)
    requires Backed(fmt, s, p) && ConsumerOk(fmt, r, s.tail, Audible(s.trace), p)
    ensures Served(fmt, s, s.(reader := r), p)
  {
  }

  /** The step that copies one sample does nothing else. */
  lemma CopyStep(fmt: Format, s: State, pcm: seq<Sample>, args: PullArgs)
    requires |s.ring| == RING_CAPACITY && s.reader.at.Copying? && s.ring[Index(s.reader.at.t)].pcm == pcm
    requires s.reader.at.k < s.reader.at.count && s.reader.cursor + s.reader.at.k < |pcm|
    ensures ConsumerStep(fmt, s, args) == s.(reader := OneMoreCopied(s.reader, pcm))
  {
  }

  /** The event recorded at the end of a copy. */
  lemma CopiedIs(fmt: Format, s: State, p: Player, args: PullArgs, count: nat)
    requires RingOk(s, p) && s.reader.cursor == p.cursor
    requires CopyOk(fmt, s.reader, Audible(s.trace), p, args, count, count)
    ensures var e := Copied(s, args, s.tail, count);
            && e == Copy(p.queue[0], p.cursor, count, p.pull.written, args) && Enabled(fmt, p, e)
            && s.reader.out == Audible(After(s.trace, e)).current
  {
    OldestSlot(s, p);
  }

  lemma ConsumerReachesEnd(fmt: Format, s: State, p: Player, args: PullArgs)
    requires Backed(fmt, s, p) && ReaderOk(fmt, s, p) && s.reader.at.Copying? && s.reader.at.k >= s.reader.at.count
    requires s.reader.cursor + s.reader.at.count >= s.reader.at.size
    ensures Served(fmt, s, ConsumerStep(fmt, s, args), p)
  {
    var Copying(a, t, size, count, k) := s.reader.at;
    assert ConsumerStep(fmt, s, args) == s.(reader := s.reader.(at := Clearing(a, t, count)));
  }

  lemma ConsumerEndsInside(fmt: Format, s: State, p: Player, args: PullArgs)
    requires Backed(fmt, s, p) && ReaderOk(fmt, s, p) && s.reader.at.Copying? && s.reader.at.k >= s.reader.at.count
    requires s.reader.cursor + s.reader.at.count < s.reader.at.size
    ensures Served(fmt, s, ConsumerStep(fmt, s, args), p)
  {
    var Copying(a, t, size, count, k) := s.reader.at;
    CopiedIs(fmt, s, p, a, count);
    var e := Copied(s, a, t, count);
    CopyLeavesFrame(fmt, s, p, e);
    var s' := s.(reader := s.reader.(at := Top(a), cursor := p.cursor + count), trace := After(s.trace, e));
    assert ConsumerStep(fmt, s, args) == s';
    assert ReaderOk(fmt, s', Apply(fmt, p, e));
  }

  lemma CopyLeavesFrame(fmt: Format, s: State, p: Player, e: Event)
    requires Backed(fmt, s, p) && e.Copy? && Enabled(fmt, p, e) && e.from + e.count < |e.frame.pcm|
    ensures Backed(fmt, s.(trace := After(s.trace, e)), Apply(fmt, p, e))
    ensures Audible(After(s.trace, e)) == Hear(Audible(s.trace), e)
  {
    StepWellPlaced(fmt, p, e);
  }

  lemma ConsumerClears(fmt: Format, s: State, p: Player, args: PullArgs)
    requires Backed(fmt, s, p) && ReaderOk(fmt, s, p) && s.reader.at.Clearing?
    ensures Served(fmt, s, ConsumerStep(fmt, s, args), p)
  {
    WindowSame(s.ring, ConsumerStep(fmt, s, args).ring, s.tail, |p.queue|);
  }

  lemma ConsumerReleases(fmt: Format, s: State, p: Player, args: PullArgs)
    requires Backed(fmt, s, p) && ReaderOk(fmt, s, p)
    requires s.reader.at.Dropping? || s.reader.at.Freeing?
    ensures Served(fmt, s, ConsumerStep(fmt, s, args), p)
  {
    OldestSlot(s, p);
    if s.reader.at.Freeing? {
      CopiedIs(fmt, s, p, s.reader.at.args, s.reader.at.count);
    }
    StepWellPlaced(fmt, p, ConsumerStep(fmt, s, args).trace.last);
  }

  /** The audio thread never touches what the network thread is writing. */
  lemma WriterUndisturbed(fmt: Format, s: State, s': State, p: Player, p': Player)
    requires |s.ring| == |s'.ring| == RING_CAPACITY && WriterOk(fmt, s, p)
    requires s'.producer == s.producer && s'.head == s.head && |p'.queue| <= |p.queue|
    requires Stored(s'.ring[Index(s.head)]) == Stored(s.ring[Index(s.head)])
    ensures WriterOk(fmt, s', p')
  {
  }

  lemma ConsumerServes(fmt: Format, s: State, p: Player, args: PullArgs)
    requires Backed(fmt, s, p) && ReaderOk(fmt, s, p)
    ensures Served(fmt, s, ConsumerStep(fmt, s, args), p)
  {
    var at := s.reader.at;
    if at.Measuring? {
      ConsumerMeasures(fmt, s, p, args);
    } else if at.Judging? {
      ConsumerJudges(fmt, s, p, args);
    } else if at.Copying? {
      if at.k < at.count {
        ConsumerCopiesOne(fmt, s, p, args);
      } else if s.reader.cursor + at.count >= at.size {
        ConsumerReachesEnd(fmt, s, p, args);
      } else {
        ConsumerEndsInside(fmt, s, p, args);
      }
    } else if at.Clearing? {
      ConsumerClears(fmt, s, p, args);
    } else if at.Dropping? || at.Freeing? {
      ConsumerReleases(fmt, s, p, args);
    } else if at.Top? || at.GotTail? {
      ConsumerLooks(fmt, s, p, args);
    } else {
      ConsumerEnters(fmt, s, p, args);
    }
  }

  /** The audio thread leaves the producer, the head and every stored frame alone. */
  lemma ConsumerFrame(fmt: Format, s: State, args: PullArgs)
    requires |s.ring| == RING_CAPACITY
    ensures var s' := ConsumerStep(fmt, s, args);
            && s'.producer == s.producer && s'.head == s.head && |s'.ring| == RING_CAPACITY
            && forall i :: 0 <= i < RING_CAPACITY ==> Stored(s'.ring[i]) == Stored(s.ring[i])
  {
  }

  lemma ConsumerKeeps(fmt: Format, s: State, args: PullArgs)
    requires Inv(fmt, s)
    ensures Inv(fmt, ConsumerStep(fmt, s, args))
  {
    var p, s' := Replay(fmt, s.trace).value, ConsumerStep(fmt, s, args);
    ConsumerServes(fmt, s, p, args);
    ConsumerFrame(fmt, s, args);
    QueueShrinks(fmt, s, p, args);
    WriterUndisturbed(fmt, s, s', p, Moved(fmt, s, s', p));
  }

  lemma QueueShrinks(fmt: Format, s: State, p: Player, args: PullArgs)
    requires |s.ring| == RING_CAPACITY
    ensures |Moved(fmt, s, ConsumerStep(fmt, s, args), p).queue| <= |p.queue|
  {
  }

  // ---- Every run --------------------------------------------------------------

  /** The state after any sequence of steps of the two threads. */
  function Run(fmt: Format, actions: seq<Action>): (s: State)
    ensures |s.ring| == RING_CAPACITY && Counter(s.head) && Counter(s.tail)
    decreases |actions|
  {
    if actions == [] then Init() else Step(fmt, Run(fmt, actions[..|actions| - 1]), actions[|actions| - 1])
  }

  lemma InitOk(fmt: Format)
    ensures Inv(fmt, Init())
  {
    assert Window(Init().ring, 0, 0) == [];
  }

  lemma StepKeeps(fmt: Format, s: State, a: Action)
    requires Inv(fmt, s)
    ensures Inv(fmt, Step(fmt, s, a))
  {
    match a
    case Network(frame, transitUs) => ProducerKeeps(fmt, s, frame, transitUs);
    case Audio(args) => ConsumerKeeps(fmt, s, args);
  }

  /** The invariant holds after every sequence of steps. */
  lemma {:induction false} RunKeeps(fmt: Format, actions: seq<Action>)
    ensures Inv(fmt, Run(fmt, actions))
    decreases |actions|
  {
    if actions == [] {
      InitOk(fmt);
    } else {
      RunKeeps(fmt, actions[..|actions| - 1]);
      StepKeeps(fmt, Run(fmt, actions[..|actions| - 1]), actions[|actions| - 1]);
    }
  }

  lemma RunReplays(fmt: Format, actions: seq<Action>)
    ensures Replay(fmt, Run(fmt, actions).trace).Some?
  {
    RunKeeps(fmt, actions);
  }

  predicate Writing(s: State) {
    s.producer.Sizing? || s.producer.Filling? || s.producer.Stamping? || s.producer.Marking? || s.producer.Publishing?
  }

  /** The slot of the `i`-th oldest frame. */
  function ReadableSlot(s: State, i: nat): nat {
    Index(s.tail + i)
  }

  /** The readable slots hold `queue`, and the slot being written is none of them. */
  predicate Intact(s: State, queue: seq<Frame>) {
    && |s.ring| == RING_CAPACITY
    && (forall i :: 0 <= i < |queue| ==> Stored(s.ring[ReadableSlot(s, i)]) == queue[i])
    && (Writing(s) ==> forall i :: 0 <= i < |queue| ==> ReadableSlot(s, i) != Index(s.producer.h))
  }

  lemma InvIntact(fmt: Format, s: State, p: Player)
    requires Backed(fmt, s, p) && WriterOk(fmt, s, p)
    ensures Intact(s, p.queue)
  {
    var n := |p.queue|;
    CounterStep(s.head, s.tail);
    forall i | 0 <= i < n
      ensures Stored(s.ring[ReadableSlot(s, i)]) == p.queue[i]
      ensures n < RING_CAPACITY ==> ReadableSlot(s, i) != Index(s.head)
    {
      assert Window(s.ring, s.tail, n)[i] == p.queue[i];
      if n < RING_CAPACITY {
        SlotsDiffer(s.tail, i, n);
      }
    }
  }

  /**
   In every interleaving the trace of events is one a sequential buffer can
   have, so the frames consumed are a prefix of the frames accepted; and the
   counters are as far apart as there are accepted frames not yet consumed, at
   most 128.
   */
  lemma EveryInterleaving(fmt: Format, actions: seq<Action>)
    ensures var s := Run(fmt, actions);
            && Replay(fmt, s.trace).Some?
            && var queue := Replay(fmt, s.trace).value.queue;
            && Accepted(s.trace) == Retired(s.trace) + queue
            && Occupancy(s.head, s.tail) == |queue| <= 128
  {
    RunKeeps(fmt, actions);
    var s := Run(fmt, actions);
    ConsumedIsPrefixOfAccepted(fmt, s.trace);
    CounterStep(s.head, s.tail);
  }

  /**
   In every interleaving the slots between the counters hold exactly those
   frames, complete; and the slot being written is none of theirs.
   */
  lemma EveryReadableSlot(fmt: Format, actions: seq<Action>)
    ensures var s := Run(fmt, actions);
            Replay(fmt, s.trace).Some? && Intact(s, Replay(fmt, s.trace).value.queue)
  {
    RunKeeps(fmt, actions);
    InvIntact(fmt, Run(fmt, actions), Replay(fmt, Run(fmt, actions).trace).value);
  }

  /** What the callbacks have been given, with the output being padded counted as given. */
  function HandedBack(r: Reader): seq<seq<Sample>> {
    if r.at.Padding? then r.outputs + [r.out + Silence(r.at.silence)] else r.outputs
  }

  /** The buffer of the `n`-th call as the audio thread sees it. */
  function Buffer(r: Reader, n: nat): seq<Sample> {
    if n < |HandedBack(r)| then HandedBack(r)[n] else if n == |HandedBack(r)| && Serves(r).Some? then r.out else []
  }

  lemma InvHeard(fmt: Format, s: State, p: Player)
    requires ReaderOk(fmt, s, p)
    ensures Audible(s.trace).outputs == HandedBack(s.reader)
    ensures p.pull.Active? ==> Serves(s.reader).Some? && Audible(s.trace).current <= s.reader.out
  {
  }

  /**
   In every interleaving each output has the size its call asked for, and is a
   run of samples up to its cut followed by zeros only; the outputs in front of
   their cuts and what the running call has copied are the samples copied out,
   in order.
   */
  lemma EveryOutput(fmt: Format, actions: seq<Action>)
    ensures var s := Run(fmt, actions);
            var outputs, cuts, sizes := HandedBack(s.reader), CutPoints(s.trace), Requested(fmt, s.trace).done;
            && |outputs| == |cuts| == |sizes|
            && (forall n :: 0 <= n < |outputs| ==> |outputs[n]| == sizes[n] && SilentBehind(outputs[n], cuts[n]))
            && Voiced(outputs, cuts) + Audible(s.trace).current == Played(s.trace)
  {
    var s := Run(fmt, actions);
    RunKeeps(fmt, actions);
    OutputsFillRequests(fmt, s.trace);
    OutputsPlayThenFallSilent(fmt, s.trace);
    InvHeard(fmt, s, Replay(fmt, s.trace).value);
  }

  /**
   Nothing is torn, lost, doubled or reordered: in every interleaving the outputs
   in front of their cuts, and what the running call has copied, are the accepted
   samples that were kept, in order and once each; the accepted samples behind
   those that left the buffer are the ones still unread.
   */
  lemma EverySample(fmt: Format, actions: seq<Action>)
    ensures var s := Run(fmt, actions);
            var accepted, kept := Flat(Accepted(s.trace)), Kept(s.trace);
            && Replay(fmt, s.trace).Some? && |kept| <= |accepted| && |CutPoints(s.trace)| == |HandedBack(s.reader)|
            && Voiced(HandedBack(s.reader), CutPoints(s.trace)) + Audible(s.trace).current
               == Filter(accepted[..|kept|], kept)
            && Remaining(Replay(fmt, s.trace).value) == accepted[|kept|..]
  {
    var s := Run(fmt, actions);
    RunKeeps(fmt, actions);
    OutputsAreAcceptedSamples(fmt, s.trace);
    InvHeard(fmt, s, Replay(fmt, s.trace).value);
  }

  /** In every interleaving, the samples that were not kept went with a frame that was too old. */
  lemma EverySkipIsTooOld(fmt: Format, actions: seq<Action>, past: Trace, e: Event)
    requires Begins(After(past, e), Run(fmt, actions).trace) && e.Skip?
    ensures Replay(fmt, past).Some? && Judges(fmt, Replay(fmt, past).value, TooOld)
    ensures e.frame == Replay(fmt, past).value.queue[0]
  {
    RunReplays(fmt, actions);
    OnlyOldFramesAreSkipped(fmt, Run(fmt, actions).trace, past, e);
  }

  /**
   In every interleaving, position `pos` of the `n`-th call's buffer holds the
   sample a copy put there, and the copy served this call.
   */
  lemma EverySoundIsInItsBuffer(fmt: Format, actions: seq<Action>, n: nat, pos: nat, past: Trace, e: Event)
    requires Sounds(Run(fmt, actions).trace, n, pos, past, e)
    ensures var buffer, calls := Buffer(Run(fmt, actions).reader, n), Calls(Run(fmt, actions).trace);
            var at := e.from + (pos - e.at);
            && at < |e.frame.pcm| && pos < |buffer| && buffer[pos] == e.frame.pcm[at]
            && n < |calls| && calls[n] == e.args
  {
    var trace := Run(fmt, actions).trace;
    RunKeeps(fmt, actions);
    CopyIsHeard(fmt, trace, n, pos, past, e);
    OutputIsInBuffer(fmt, Run(fmt, actions), Replay(fmt, trace).value, n);
  }

  /** In every interleaving, that sample is on time for its call and its position. */
  lemma EverySoundOnTime(fmt: Format, actions: seq<Action>, n: nat, pos: nat, past: Trace, e: Event)
    requires Sounds(Run(fmt, actions).trace, n, pos, past, e)
    ensures OnTime(fmt, e, pos - e.at)
  {
    RunReplays(fmt, actions);
    SoundsAreOnTime(fmt, Run(fmt, actions).trace, n, pos, past, e);
  }

  /** The audio thread's buffer holds what the trace has written into it, and perhaps the piece being copied. */
  lemma OutputIsInBuffer(fmt: Format, s: State, p: Player, n: nat)
    requires Replay(fmt, s.trace) == Some(p) && ReaderOk(fmt, s, p)
    ensures Output(Audible(s.trace), n) <= Buffer(s.reader, n)
  {
    CallsAreAnswered(fmt, s.trace);
    InvHeard(fmt, s, p);
  }

  /** In every interleaving, each position in front of a cut was written by a copy. */
  lemma EverySoundWasCopied(fmt: Format, actions: seq<Action>, n: nat, pos: nat) returns (past: Trace, e: Event)
    requires pos < Cut(Run(fmt, actions).trace, n)
    ensures Sounds(Run(fmt, actions).trace, n, pos, past, e)
  {
    RunReplays(fmt, actions);
    past, e := SoundsWereCopied(fmt, Run(fmt, actions).trace, n, pos);
  }

  /**
   A push that finds 128 frames between the tail it loads and its head is refused
   there and returns in its next step; any other push goes on to write its frame,
   whatever the audio thread does in between.
   */
  lemma FullPushIsRefused(fmt: Format, s: State, frame: Frame, transitUs: int)
    requires |s.ring| == RING_CAPACITY && Counter(s.head) && Counter(s.tail)
    ensures s.producer.LoadedHead? && Counter(s.producer.h) ==>
              var s', f := ProducerStep(fmt, s, frame, transitUs), s.producer.frame;
              && s'.producer == LoadedTail(f, s.producer.transitUs, s.producer.h, s.tail)
              && s'.trace == if Occupancy(s.producer.h, s.tail) >= 128 then After(s.trace, Reject(f)) else s.trace
    ensures s.producer.LoadedTail? && Counter(s.producer.h) && Counter(s.producer.t) ==>
              var s' := ProducerStep(fmt, s, frame, transitUs);
              s'.producer == if Occupancy(s.producer.h, s.producer.t) >= 128 then Resting
                             else Sizing(s.producer.frame, s.producer.transitUs, s.producer.h)
  {
  }

  /** In every interleaving a frame is refused only while 128 accepted frames are unread. */
  lemma EveryRefusalIsFull(fmt: Format, actions: seq<Action>, past: Trace, e: Event)
    requires Begins(After(past, e), Run(fmt, actions).trace) && e.Reject?
    ensures Replay(fmt, past).Some? && |Replay(fmt, past).value.queue| == 128
  {
    RunReplays(fmt, actions);
    RefusedOnlyWhenFull(fmt, Run(fmt, actions).trace, past, e);
  }

  // ---- Progress -----------------------------------------------------------------------

  /** How many of its own steps a push is away from its return, at most. */
  function PushLeft(at: Producer): nat {
    match at
    case Resting => 0
    case LoadedHead(f, _, _) => |f.pcm| + 7
    case LoadedTail(f, _, _, _) => |f.pcm| + 6
    case Sizing(f, _, _) => |f.pcm| + 5
    case Filling(f, _, _, k) => 4 + if k < |f.pcm| then |f.pcm| - k else 0
    case Stamping(_, _, _) => 3
    case Marking(_, _, _) => 2
    case Publishing(_, _, _) => 1
  }

  /** A push is wait-free: its own steps bring it nearer to its return, and the audio thread's change nothing. */
  lemma PushAdvances(fmt: Format, s: State, a: Action)
    requires |s.ring| == RING_CAPACITY && Counter(s.head) && Counter(s.tail)
    ensures a.Network? && !s.producer.Resting? ==> PushLeft(Step(fmt, s, a).producer) < PushLeft(s.producer)
    ensures a.Audio? ==> Step(fmt, s, a).producer == s.producer
  {
  }

  /** `n` steps of the network thread with the audio thread at rest. */
  function Pushing(fmt: Format, s: State, frame: Frame, transitUs: int, n: nat): State
    requires |s.ring| == RING_CAPACITY && Counter(s.head) && Counter(s.tail)
    decreases n
  {
    if n == 0 then s else Pushing(fmt, Step(fmt, s, Network(frame, transitUs)), frame, transitUs, n - 1)
  }

  /** The copy loop writes one sample a step and leaves the slot holding the frame's samples. */
  lemma {:induction false} FillingEnds(fmt: Format, s: State, frame: Frame, x: int, k: nat)
    requires |s.ring| == RING_CAPACITY && Counter(s.head) && Counter(s.tail)
    requires k <= |frame.pcm| && s.producer == Filling(frame, x, s.head, k)
    requires var slot := s.ring[Index(s.head)]; |slot.pcm| == |frame.pcm| && slot.pcm[..k] == frame.pcm[..k]
    ensures var slot := s.ring[Index(s.head)].(pcm := frame.pcm);
            Pushing(fmt, s, frame, x, |frame.pcm| - k + 1)
            == WriteSlot(s, s.head, slot).(producer := Stamping(frame, x, s.head))
    decreases |frame.pcm| - k
  {
    var s', slot := Step(fmt, s, Network(frame, x)), s.ring[Index(s.head)];
    if k < |frame.pcm| {
      assert s'.ring[Index(s.head)].pcm[..k + 1] == slot.pcm[..k] + [frame.pcm[k]];
      assert frame.pcm[..k + 1] == frame.pcm[..k] + [frame.pcm[k]];
      FillingEnds(fmt, s', frame, x, k + 1);
      assert WriteSlot(s', s.head, s'.ring[Index(s.head)].(pcm := frame.pcm)).ring
          == WriteSlot(s, s.head, slot.(pcm := frame.pcm)).ring;
    } else {
      assert slot.pcm == slot.pcm[..k] == frame.pcm[..k] == frame.pcm;
      assert s.ring[Index(s.head) := slot] == s.ring;
      assert Pushing(fmt, s', frame, x, 0) == s';
    }
  }

  /** The steps in front of the copy loop: both loads, the test for a full ring, and the resize. */
  lemma PushEnters(fmt: Format, s: State, frame: Frame, x: int, n: nat)
    requires |s.ring| == RING_CAPACITY && Counter(s.head) && Counter(s.tail)
    requires s.producer.Resting? && Aligned(fmt, |frame.pcm|) && Occupancy(s.head, s.tail) < RING_CAPACITY
    ensures var slot := s.ring[Index(s.head)];
            var sized := WriteSlot(s, s.head, slot.(pcm := Resized(slot.pcm, |frame.pcm|)));
            Pushing(fmt, s, frame, x, n + 4)
            == Pushing(fmt, sized.(producer := Filling(frame, x, s.head, 0)), frame, x, n)
  {
    var a := Network(frame, x);
    var s1 := Step(fmt, s, a);
    var s2 := Step(fmt, s1, a);
    var s3 := Step(fmt, s2, a);
    assert s3 == s.(producer := Sizing(frame, x, s.head));
    assert Pushing(fmt, s, frame, x, n + 4) == Pushing(fmt, s1, frame, x, n + 3);
    assert Pushing(fmt, s1, frame, x, n + 3) == Pushing(fmt, s2, frame, x, n + 2);
    assert Pushing(fmt, s2, frame, x, n + 2) == Pushing(fmt, s3, frame, x, n + 1);
  }

  /** The steps behind it: the timestamp, the mark, and the store that publishes the frame. */
  lemma PushLeaves(fmt: Format, s: State, frame: Frame, x: int)
    requires |s.ring| == RING_CAPACITY && Counter(s.head) && Counter(s.tail)
    requires s.producer == Stamping(frame, x, s.head) && s.ring[Index(s.head)].pcm == frame.pcm
    ensures Pushing(fmt, s, frame, x, 3)
            == WriteSlot(s, s.head, Slot(frame.pcm, frame.captureTimestampUs, true)).(
                 head := Next(s.head), producer := Resting, trace := After(s.trace, Accept(frame, x)))
  {
    var a := Network(frame, x);
    var s1 := Step(fmt, s, a);
    var s2 := Step(fmt, s1, a);
    var s3 := Step(fmt, s2, a);
    assert s2.ring == s.ring[Index(s.head) := Slot(frame.pcm, frame.captureTimestampUs, true)];
    assert Pushing(fmt, s, frame, x, 3) == Pushing(fmt, s1, frame, x, 2);
    assert Pushing(fmt, s1, frame, x, 2) == Pushing(fmt, s2, frame, x, 1);
    assert Pushing(fmt, s2, frame, x, 1) == Pushing(fmt, s3, frame, x, 0);
  }

  lemma {:induction false} PushingAdds(fmt: Format, s: State, frame: Frame, x: int, m: nat, n: nat)
    requires |s.ring| == RING_CAPACITY && Counter(s.head) && Counter(s.tail)
    ensures var s' := Pushing(fmt, s, frame, x, m);
            && |s'.ring| == RING_CAPACITY && Counter(s'.head) && Counter(s'.tail)
            && Pushing(fmt, s, frame, x, m + n) == Pushing(fmt, s', frame, x, n)
    decreases m
  {
    if m > 0 {
      PushingAdds(fmt, Step(fmt, s, Network(frame, x)), frame, x, m - 1, n);
    }
  }

  /**
   A push that finds room and is not interrupted stores the frame, its timestamp
   and the mark in the slot at the head, publishes it, is remembered as accepted,
   and returns, after as many steps as the frame has samples and eight more.
   */
  lemma PushCompletes(fmt: Format, s: State, frame: Frame, x: int)
    requires |s.ring| == RING_CAPACITY && Counter(s.head) && Counter(s.tail)
    requires s.producer.Resting? && Aligned(fmt, |frame.pcm|) && Occupancy(s.head, s.tail) < RING_CAPACITY
    ensures Pushing(fmt, s, frame, x, |frame.pcm| + 8)
            == s.(ring := s.ring[Index(s.head) := Slot(frame.pcm, frame.captureTimestampUs, true)],
                  head := Next(s.head), trace := After(s.trace, Accept(frame, x)))
  {
    var slot := s.ring[Index(s.head)];
    var sized := WriteSlot(s, s.head, slot.(pcm := Resized(slot.pcm, |frame.pcm|)));
    var filling := sized.(producer := Filling(frame, x, s.head, 0));
    PushEnters(fmt, s, frame, x, |frame.pcm| + 4);
    PushingAdds(fmt, filling, frame, x, |frame.pcm| + 1, 3);
    FillingEnds(fmt, filling, frame, x, 0);
    var filled := Pushing(fmt, filling, frame, x, |frame.pcm| + 1);
    PushLeaves(fmt, filled, frame, x);
    assert Pushing(fmt, filled, frame, x, 3).ring
        == s.ring[Index(s.head) := Slot(frame.pcm, frame.captureTimestampUs, true)];
  }

  /** The call a pull in progress serves. */
  function Serves(r: Reader): Option<PullArgs> {
    match r.at
    case Quiet => None
    case Padding(_) => None
    case Top(args) => Some(args)
    case GotTail(args, _) => Some(args)
    case Measuring(args, _) => Some(args)
    case Judging(args, _, _) => Some(args)
    case Dropping(args, _) => Some(args)
    case Copying(args, _, _, _, _) => Some(args)
    case Clearing(args, _, _) => Some(args)
    case Freeing(args, _, _) => Some(args)
  }

  function SamplesLeft(fmt: Format, r: Reader): nat {
    if Serves(r).Some? && |r.out| < Needed(fmt, Serves(r).value) then Needed(fmt, Serves(r).value) - |r.out| else 0
  }

  /** How far the reader is from the end of a turn; with its buffer full it is about to leave the loop. */
  function Rank(fmt: Format, r: Reader): nat {
    match r.at
    case Top(_) => if SamplesLeft(fmt, r) > 0 then 7 else 0
    case GotTail(_, _) => 6
    case Measuring(_, _) => 5
    case Judging(_, _, _) => 4
    case Copying(_, _, _, _, _) => 3
    case Clearing(_, _, _) => 2
    case Dropping(_, _) => 1
    case Freeing(_, _, _) => 1
    case Quiet => 0
    case Padding(_) => 0
  }

  /** Fewer frames left, or as many and fewer samples to fill, or as many and a later place in the turn. */
  predicate Nearer(fmt: Format, s: State, s': State)
    requires Counter(s.head) && Counter(s.tail) && Counter(s'.head) && Counter(s'.tail)
  {
    var frames, frames' := Occupancy(s.head, s.tail), Occupancy(s'.head, s'.tail);
    var samples, samples' := SamplesLeft(fmt, s.reader), SamplesLeft(fmt, s'.reader);
    frames' < frames
    || (frames' == frames && samples' < samples)
    || (frames' == frames && samples' == samples && Rank(fmt, s'.reader) < Rank(fmt, s.reader))
  }

  /**
   Every step of a pull, empty frames included, ends its loop or comes nearer to
   that; only frames published in between can put the end off.
   */
  lemma PullAdvances(fmt: Format, s: State, args: PullArgs)
    requires Inv(fmt, s) && Serves(s.reader).Some?
    ensures var s' := ConsumerStep(fmt, s, args);
            s'.reader.at.Padding? || (Counter(s'.head) && Counter(s'.tail) && Nearer(fmt, s, s'))
  {
    if s.reader.at.Dropping? || s.reader.at.Freeing? {
      ReleaseAdvances(fmt, s, args);
    } else if s.reader.at.Copying? {
      CopyAdvances(fmt, s, Replay(fmt, s.trace).value, args);
    } else {
      LookAdvances(fmt, s, args);
    }
  }

  lemma CopyAdvances(fmt: Format, s: State, p: Player, args: PullArgs)
    requires RingOk(s, p) && ReaderOk(fmt, s, p) && s.reader.at.Copying?
    ensures var s' := ConsumerStep(fmt, s, args);
            Counter(s'.head) && Counter(s'.tail) && Nearer(fmt, s, s')
  {
    OldestSlot(s, p);
  }

  lemma LookAdvances(fmt: Format, s: State, args: PullArgs)
    requires |s.ring| == RING_CAPACITY && Counter(s.head) && Counter(s.tail)
    requires s.reader.at.Top? || s.reader.at.GotTail? || s.reader.at.Measuring?
             || s.reader.at.Judging? || s.reader.at.Clearing?
    ensures var s' := ConsumerStep(fmt, s, args);
            s'.reader.at.Padding? || (Counter(s'.head) && Counter(s'.tail) && Nearer(fmt, s, s'))
  {
  }

  lemma ReleaseAdvances(fmt: Format, s: State, args: PullArgs)
    requires Inv(fmt, s) && (s.reader.at.Dropping? || s.reader.at.Freeing?)
    ensures var s' := ConsumerStep(fmt, s, args);
            Counter(s'.head) && Counter(s'.tail) && Occupancy(s'.head, s'.tail) < Occupancy(s.head, s.tail)
  {
    CounterStep(s.head, s.tail);
  }
}
