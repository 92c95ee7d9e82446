/**
 One client as a whole: the control channel that brings its clock offset, the
 network thread that pushes frames and the audio thread that answers callbacks,
 all interleaved, while its clock drifts against the server's. `readAudio` tests
 the audio gate in one step and begins the pull, with the offset applied by then,
 in a later one.
 */
module Device {
  import opened Common
  import opened Playback
  import opened Ring
  import Clock = ClockSync
  import Link = OffsetAgreement
  import SpscRing

  /** What an offset was checked against: the rounds of a handshake, or one periodic reply. */
  datatype Basis = Handshaken(probes: seq<Clock.Probe>, best: nat) | Replied(probe: Clock.Probe)

  /** A check of an offset, and the true offset when it was made. */
  datatype Check = Check(basis: Basis, at: real)

  /** A callback answered by a pull: the true offset by then, and the last check of the offset the pull uses. */
  datatype Call = Call(args: PullArgs, trueOffset: real, check: Option<Check>)

  /** A buffer handed back to the audio device: filled behind a closed gate, or by a pull. */
  datatype Answer = Gated(buffer: seq<Sample>) | Pulled(buffer: seq<Sample>)

  /**
   The ring is given by what its threads did. `passed`: the gate was found open.
   `trueOffset`: how far the client's clock truly is behind the server's.
   `checks`: the last check of every offset the server ever stored.
   */
  datatype State = State(
    pushesAndPulls: seq<SpscRing.Action>, link: Link.State, passed: bool,
    trueOffset: real, checks: map<int, Check>, calls: seq<Call>, answers: seq<Answer>)

  datatype Action =
    | Handshake(probes: seq<Clock.Probe>, best: nat)
    | Reply(probe: Clock.Probe)
    | Control(a: Link.Action)      // an offset is written, a message sent or handled, or the client reconnects
    | Drift(byUs: real)
    | Push(frame: Frame, transitUs: int)
    | Callback(numFrames: nat, localPlayoutUs: int, delayUs: int)

  ghost predicate Enabled(s: State, a: Action) {
    match a
    case Handshake(probes, best) =>
      && Clock.IsBest(probes, best) && Link.Enabled(s.link, Link.StoreFirst(probes[best].Offset()))
      && forall i :: 0 <= i < |probes| ==> Clock.Genuine(probes[i], s.trueOffset)
    case Reply(probe) => Link.Enabled(s.link, Link.Reply(probe)) && Clock.Genuine(probe, s.trueOffset)
    case Control(c) => !c.StoreFirst? && !c.Reply? && Link.Enabled(s.link, c)
    case _ => true
  }

  function RingOf(fmt: Format, s: State): SpscRing.State {
    SpscRing.Run(fmt, s.pushesAndPulls)
  }

  /** The buffer a step of the audio thread hands back, if it ends a pull. */
  function HandedOver(r: SpscRing.Reader): seq<Answer> {
    if r.at.Padding? then [Pulled(r.out + Silence(r.at.silence))] else []
  }

  /** One step of the audio thread. */
  function CallbackStep(fmt: Format, s: State, args: PullArgs): State {
    var r, longer := RingOf(fmt, s).reader, s.pushesAndPulls + [SpscRing.Audio(args)];
    if !r.at.Quiet? then s.(pushesAndPulls := longer, answers := s.answers + HandedOver(r))
    else if s.passed then
      var check := if args.clockOffsetUs in s.checks then Some(s.checks[args.clockOffsetUs]) else None;
      s.(pushesAndPulls := longer, passed := false, calls := s.calls + [Call(args, s.trueOffset, check)])
    else if s.link.client.handshakeComplete then s.(passed := true)
    else s.(answers := s.answers + [Gated(Silence(Needed(fmt, args)))])
  }

  /** The server stores an offset, or keeps it: either way it has been checked. */
  function Checking(s: State, link: Link.State, basis: Basis): State
    requires link.stored.Some?
  {
    s.(link := link, checks := s.checks[link.stored.value := Check(basis, s.trueOffset)])
  }

  ghost function Apply(fmt: Format, s: State, a: Action): State
    requires Enabled(s, a) && Link.Paired(s.link)
  {
    match a
    case Handshake(probes, best) =>
      Checking(s, Link.Apply(s.link, Link.StoreFirst(probes[best].Offset())), Handshaken(probes, best))
    case Reply(probe) => Checking(s, Link.Apply(s.link, Link.Reply(probe)), Replied(probe))
    case Control(c) => s.(link := Link.Apply(s.link, c))
    case Drift(byUs) => s.(trueOffset := s.trueOffset + byUs)
    case Push(frame, transitUs) => s.(pushesAndPulls := s.pushesAndPulls + [SpscRing.Network(frame, transitUs)])
    case Callback(numFrames, localPlayoutUs, delayUs) =>
      CallbackStep(fmt, s, PullArgs(numFrames, localPlayoutUs, s.link.client.offsetUs, delayUs))
  }

  function Init(trueOffset: real): State {
    State([], Link.Init(), false, trueOffset, map[], [], [])
  }

  /** Any run: what is not enabled does not happen. */
  ghost function Run(fmt: Format, trueOffset: real, actions: seq<Action>): (s: State)
    ensures Link.Paired(s.link)
    decreases |actions|
  {
    if actions == [] then Init(trueOffset)
    else
      var s, a := Run(fmt, trueOffset, actions[..|actions| - 1]), actions[|actions| - 1];
      if Enabled(s, a) then Apply(fmt, s, a) else s
  }

  // ---- What every run keeps --------------------------------------------------------------

  /** Twice the error an offset can have at the moment it is checked. */
  function Checked(b: Basis): real {
    match b
    case Handshaken(probes, best) => if best < |probes| then probes[best].Rtt() as real + 1.0 else 0.0
    case Replied(probe) => 1001.0 + probe.Rtt() as real
  }

  /** How far the clocks have drifted apart from a check to a later true offset. */
  function Drifted(check: Check, trueOffset: real): real {
    AbsReal(trueOffset - check.at)
  }

  /** Every offset the server stored was as good as its last check says, when that was made. */
  predicate ChecksHold(checks: map<int, Check>) {
    forall o :: o in checks ==> Clock.DoubleError(o, checks[o].at) <= Checked(checks[o].basis)
  }

  /** The offsets stored, in flight or in use are all among those that were checked. */
  predicate AllChecked(s: State) {
    && (s.link.stored.Some? ==> s.link.stored.value in s.checks)
    && (forall o :: o in s.link.sent ==> o in s.checks)
    && (s.passed ==> s.link.client.offsetUs in s.checks)
  }

  /** The pull's offset is as good as its last check and the drift since then allow. */
  predicate Kept(call: Call) {
    call.check.Some? &&
    Clock.DoubleError(call.args.clockOffsetUs, call.trueOffset)
    <= Checked(call.check.value.basis) + 2.0 * Drifted(call.check.value, call.trueOffset)
  }

  /** The calls are the pulls begun in the ring, and their offsets are good. */
  predicate CallsKept(fmt: Format, s: State) {
    var begun := Calls(RingOf(fmt, s).trace);
    && |begun| == |s.calls|
    && forall n :: 0 <= n < |begun| ==> begun[n] == s.calls[n].args && Kept(s.calls[n])
  }

  /** The buffers filled by pulls, in order. */
  function PulledOnly(answers: seq<Answer>): seq<seq<Sample>>
    decreases |answers|
  {
    if answers == [] then []
    else
      var a := answers[|answers| - 1];
      PulledOnly(answers[..|answers| - 1]) + if a.Pulled? then [a.buffer] else []
  }

  predicate Zeros(answer: Answer) {
    answer.buffer == Silence(|answer.buffer|)
  }

  /** The answers are the outputs of the ring, with buffers of zeros in between. */
  predicate AnswersKept(fmt: Format, s: State) {
    && PulledOnly(s.answers) == RingOf(fmt, s).reader.outputs
    && forall n :: 0 <= n < |s.answers| ==> s.answers[n].Gated? ==> Zeros(s.answers[n])
  }

  predicate Good(fmt: Format, s: State) {
    Link.Agreed(s.link) && ChecksHold(s.checks) && AllChecked(s) && CallsKept(fmt, s) && AnswersKept(fmt, s)
  }

  // ---- Steps of the ring -------------------------------------------------------------------

  lemma RingGrows(fmt: Format, done: seq<SpscRing.Action>, a: SpscRing.Action)
    ensures SpscRing.Run(fmt, done + [a]) == SpscRing.Step(fmt, SpscRing.Run(fmt, done), a)
  {
    assert (done + [a])[..|done|] == done;
  }

  /** Only a step of the resting audio thread begins a pull. */
  function Begun(r: SpscRing.State, a: SpscRing.Action): seq<PullArgs> {
    if a.Audio? && r.reader.at.Quiet? then [a.args] else []
  }

  /** And only the step that pads a buffer hands one back. */
  function Ended(r: SpscRing.State, a: SpscRing.Action): seq<Answer> {
    if a.Audio? then HandedOver(r.reader) else []
  }

  lemma StepCalls(fmt: Format, r: SpscRing.State, a: SpscRing.Action)
    requires |r.ring| == RING_CAPACITY && Counter(r.head) && Counter(r.tail)
    ensures Calls(SpscRing.Step(fmt, r, a).trace) == Calls(r.trace) + Begun(r, a)
  {
  }

  lemma StepOutputs(fmt: Format, r: SpscRing.State, a: SpscRing.Action)
    requires |r.ring| == RING_CAPACITY && Counter(r.head) && Counter(r.tail)
    ensures SpscRing.Step(fmt, r, a).reader.outputs == r.reader.outputs + PulledOnly(Ended(r, a))
  {
    var ended := Ended(r, a);
    assert ended != [] ==> ended[..0] == [];
  }

  lemma RingSteps(fmt: Format, done: seq<SpscRing.Action>, a: SpscRing.Action)
    ensures var r, r' := SpscRing.Run(fmt, done), SpscRing.Run(fmt, done + [a]);
            && Calls(r'.trace) == Calls(r.trace) + Begun(r, a)
            && r'.reader.outputs == r.reader.outputs + PulledOnly(Ended(r, a))
  {
    RingGrows(fmt, done, a);
    StepCalls(fmt, SpscRing.Run(fmt, done), a);
    StepOutputs(fmt, SpscRing.Run(fmt, done), a);
  }

  lemma {:induction false} PulledSplits(a: seq<Answer>, b: seq<Answer>)
    ensures PulledOnly(a + b) == PulledOnly(a) + PulledOnly(b)
    decreases |b|
  {
    if b == [] {
      assert a + b == a;
    } else {
      PulledSplits(a, b[..|b| - 1]);
      FrontOfJoin(a, b);
    }
  }

  // ---- Steps of the client -----------------------------------------------------------------

  /** An offset is off by what it was at its check, and by the drift since. */
  lemma DriftAdds(offsetUs: int, check: Check, trueOffset: real)
    requires Clock.DoubleError(offsetUs, check.at) <= Checked(check.basis)
    ensures Clock.DoubleError(offsetUs, trueOffset) <= Checked(check.basis) + 2.0 * Drifted(check, trueOffset)
  {
  }

  lemma PullBegins(fmt: Format, s: State, args: PullArgs)
    requires Good(fmt, s) && s.passed && RingOf(fmt, s).reader.at.Quiet? && args.clockOffsetUs == s.link.client.offsetUs
    ensures Good(fmt, CallbackStep(fmt, s, args))
  {
    RingSteps(fmt, s.pushesAndPulls, SpscRing.Audio(args));
    DriftAdds(args.clockOffsetUs, s.checks[args.clockOffsetUs], s.trueOffset);
  }

  lemma PullGoesOn(fmt: Format, s: State, args: PullArgs)
    requires Good(fmt, s) && !RingOf(fmt, s).reader.at.Quiet?
    ensures Good(fmt, CallbackStep(fmt, s, args))
  {
    RingSteps(fmt, s.pushesAndPulls, SpscRing.Audio(args));
    PulledSplits(s.answers, HandedOver(RingOf(fmt, s).reader));
  }

  lemma GateTested(fmt: Format, s: State, args: PullArgs)
    requires Good(fmt, s) && RingOf(fmt, s).reader.at.Quiet? && !s.passed
    ensures Good(fmt, CallbackStep(fmt, s, args))
  {
    var zeros := [Gated(Silence(Needed(fmt, args)))];
    assert zeros[..0] == [] && Zeros(zeros[0]);
    PulledSplits(s.answers, zeros);
  }

  lemma CallbackKeeps(fmt: Format, s: State, args: PullArgs)
    requires Good(fmt, s) && args.clockOffsetUs == s.link.client.offsetUs
    ensures Good(fmt, CallbackStep(fmt, s, args))
  {
    if !RingOf(fmt, s).reader.at.Quiet? {
      PullGoesOn(fmt, s, args);
    } else if s.passed {
      PullBegins(fmt, s, args);
    } else {
      GateTested(fmt, s, args);
    }
  }

  lemma HandshakeKeeps(fmt: Format, s: State, probes: seq<Clock.Probe>, best: nat)
    requires Good(fmt, s) && Enabled(s, Handshake(probes, best)) && Link.Paired(s.link)
    ensures Good(fmt, Apply(fmt, s, Handshake(probes, best)))
  {
    Link.StepKeepsAgreed(s.link, Link.StoreFirst(probes[best].Offset()));
    Clock.HandshakeError(probes, best, best, s.trueOffset);
  }

  lemma ReplyKeeps(fmt: Format, s: State, probe: Clock.Probe)
    requires Good(fmt, s) && Enabled(s, Reply(probe)) && Link.Paired(s.link)
    ensures Good(fmt, Apply(fmt, s, Reply(probe)))
  {
    Link.StepKeepsAgreed(s.link, Link.Reply(probe));
    Clock.ReplyError(s.link.stored.value, probe, s.trueOffset);
  }

  lemma ControlKeeps(fmt: Format, s: State, c: Link.Action)
    requires Good(fmt, s) && Enabled(s, Control(c)) && Link.Paired(s.link)
    ensures Good(fmt, Apply(fmt, s, Control(c)))
  {
    Link.StepKeepsAgreed(s.link, c);
    if c.Deliver? {
      Link.DeliveredOffset(s.link);
    }
  }

  lemma PushKeeps(fmt: Format, s: State, frame: Frame, transitUs: int)
    requires Good(fmt, s) && Link.Paired(s.link)
    ensures Good(fmt, Apply(fmt, s, Push(frame, transitUs)))
  {
    RingSteps(fmt, s.pushesAndPulls, SpscRing.Network(frame, transitUs));
  }

  lemma StepKeeps(fmt: Format, s: State, a: Action)
    requires Good(fmt, s) && Enabled(s, a) && Link.Paired(s.link)
    ensures Good(fmt, Apply(fmt, s, a))
  {
    match a
    case Handshake(probes, best) => HandshakeKeeps(fmt, s, probes, best);
    case Reply(probe) => ReplyKeeps(fmt, s, probe);
    case Control(c) => ControlKeeps(fmt, s, c);
    case Push(frame, transitUs) => PushKeeps(fmt, s, frame, transitUs);
    case Callback(numFrames, localPlayoutUs, delayUs) =>
      CallbackKeeps(fmt, s, PullArgs(numFrames, localPlayoutUs, s.link.client.offsetUs, delayUs));
    case Drift(_) =>
  }

  lemma {:induction false} EveryRun(fmt: Format, trueOffset: real, actions: seq<Action>)
    ensures Good(fmt, Run(fmt, trueOffset, actions))
    decreases |actions|
  {
    if actions != [] {
      EveryRun(fmt, trueOffset, actions[..|actions| - 1]);
      var s, a := Run(fmt, trueOffset, actions[..|actions| - 1]), actions[|actions| - 1];
      if Enabled(s, a) {
        StepKeeps(fmt, s, a);
      }
    }
  }

  /**
   The pulls of a client are the calls of its run, and each, also while a correction
   is being written, was lost or is in flight, used an offset that the server had
   stored and that is wrong by no more than its last check and the drift since allow.
   */
  lemma CallsUseCheckedOffsets(fmt: Format, trueOffset: real, actions: seq<Action>, n: nat)
    requires n < |Calls(RingOf(fmt, Run(fmt, trueOffset, actions)).trace)|
    ensures var s := Run(fmt, trueOffset, actions);
            n < |s.calls| && Calls(RingOf(fmt, s).trace)[n] == s.calls[n].args && Kept(s.calls[n])
  {
    EveryRun(fmt, trueOffset, actions);
  }

  /**
   What the audio device is given, in any run: the outputs of the ring, in order,
   and in between, behind the closed gate, buffers of zeros.
   */
  lemma AnswersAreOutputsOrZeros(fmt: Format, trueOffset: real, actions: seq<Action>)
    ensures var s := Run(fmt, trueOffset, actions);
            && PulledOnly(s.answers) == RingOf(fmt, s).reader.outputs
            && forall n :: 0 <= n < |s.answers| ==> s.answers[n].Gated? ==> Zeros(s.answers[n])
  {
    EveryRun(fmt, trueOffset, actions);
  }

  /** A pull begins with the arguments of its callback, the offset applied and the delay loaded. */
  lemma CallTakesItsArguments(fmt: Format, s: State, numFrames: nat, localPlayoutUs: int, delayUs: int)
    requires s.passed && RingOf(fmt, s).reader.at.Quiet? && Link.Paired(s.link)
    ensures var t := Apply(fmt, s, Callback(numFrames, localPlayoutUs, delayUs));
            && |t.calls| == |s.calls| + 1
            && t.calls[|s.calls|].args == PullArgs(numFrames, localPlayoutUs, s.link.client.offsetUs, delayUs)
            && t.calls[|s.calls|].trueOffset == s.trueOffset && t.answers == s.answers && !t.passed
  {
  }

  /** A packet's frame reaches the ring, and a callback in progress goes on there. */
  lemma ThreadsMoveTheRing(fmt: Format, s: State, a: Action)
    requires Enabled(s, a) && Link.Paired(s.link)
    ensures a.Push? ==>
              RingOf(fmt, Apply(fmt, s, a))
              == SpscRing.Step(fmt, RingOf(fmt, s), SpscRing.Network(a.frame, a.transitUs))
    ensures a.Callback? && !RingOf(fmt, s).reader.at.Quiet? ==>
              var args := PullArgs(a.numFrames, a.localPlayoutUs, s.link.client.offsetUs, a.delayUs);
              RingOf(fmt, Apply(fmt, s, a)) == SpscRing.Step(fmt, RingOf(fmt, s), SpscRing.Audio(args))
    ensures !a.Push? && !a.Callback? ==> RingOf(fmt, Apply(fmt, s, a)) == RingOf(fmt, s)
  {
    if a.Push? {
      RingGrows(fmt, s.pushesAndPulls, SpscRing.Network(a.frame, a.transitUs));
    } else if a.Callback? {
      var args := PullArgs(a.numFrames, a.localPlayoutUs, s.link.client.offsetUs, a.delayUs);
      RingGrows(fmt, s.pushesAndPulls, SpscRing.Audio(args));
    }
  }

  /** Behind a closed gate a callback is answered at once, with as many zeros as it asks for. */
  lemma ClosedGateAnswers(fmt: Format, s: State, numFrames: nat, localPlayoutUs: int, delayUs: int)
    requires !s.passed && RingOf(fmt, s).reader.at.Quiet? && Link.Paired(s.link) && !s.link.client.handshakeComplete
    ensures var t, n := Apply(fmt, s, Callback(numFrames, localPlayoutUs, delayUs)), numFrames * fmt.channels;
            |t.answers| == |s.answers| + 1 && t.answers[|s.answers|] == Gated(Silence(n)) && t.calls == s.calls
  {
    NeededIs(fmt, PullArgs(numFrames, localPlayoutUs, s.link.client.offsetUs, delayUs));
  }

  // ---- The audio gate ------------------------------------------------------------------------

  /** The client has handled no offset since it started: its gate was closed after every step. */
  ghost predicate ClosedThroughout(fmt: Format, trueOffset: real, actions: seq<Action>)
    decreases |actions|
  {
    && !Run(fmt, trueOffset, actions).link.client.handshakeComplete
    && (actions != [] ==> ClosedThroughout(fmt, trueOffset, actions[..|actions| - 1]))
  }

  function Callbacks(actions: seq<Action>): nat {
    if actions == [] then 0
    else Callbacks(actions[..|actions| - 1]) + if actions[|actions| - 1].Callback? then 1 else 0
  }

  /** One buffer of zeros for each of `answered` callbacks, and nothing pulled. */
  predicate Silent(fmt: Format, s: State, answered: nat) {
    && |s.answers| == answered && (forall n :: 0 <= n < answered ==> Zeros(s.answers[n]))
    && s.calls == [] && !s.passed && RingOf(fmt, s).reader.at.Quiet?
  }

  /** Until an offset of its connection is applied, a client answers every callback with zeros and pulls nothing. */
  lemma {:induction false} SilentUntilOffset(fmt: Format, trueOffset: real, actions: seq<Action>)
    requires ClosedThroughout(fmt, trueOffset, actions)
    ensures Silent(fmt, Run(fmt, trueOffset, actions), Callbacks(actions))
    decreases |actions|
  {
    if actions != [] {
      var before, a := actions[..|actions| - 1], actions[|actions| - 1];
      SilentUntilOffset(fmt, trueOffset, before);
      SilentStep(fmt, Run(fmt, trueOffset, before), a, Callbacks(before));
    }
  }

  lemma SilentStep(fmt: Format, s: State, a: Action, answered: nat)
    requires Silent(fmt, s, answered) && !s.link.client.handshakeComplete && Link.Paired(s.link)
    ensures Enabled(s, a) ==> Silent(fmt, Apply(fmt, s, a), answered + if a.Callback? then 1 else 0)
    ensures a.Callback? ==> Enabled(s, a)
  {
    if a.Push? {
      PushLeavesReader(fmt, s.pushesAndPulls, a.frame, a.transitUs);
    }
  }

  lemma PushLeavesReader(fmt: Format, done: seq<SpscRing.Action>, frame: Frame, transitUs: int)
    ensures SpscRing.Run(fmt, done + [SpscRing.Network(frame, transitUs)]).reader == SpscRing.Run(fmt, done).reader
  {
    RingGrows(fmt, done, SpscRing.Network(frame, transitUs));
  }

  /** An open gate means an offset that the server wrote on the client's present connection. */
  lemma OpenGateMeansOffset(fmt: Format, trueOffset: real, actions: seq<Action>)
    requires Run(fmt, trueOffset, actions).link.client.handshakeComplete
    ensures Link.Opened(Run(fmt, trueOffset, actions).link)
  {
    EveryRun(fmt, trueOffset, actions);
  }

  // ---- Round trips -----------------------------------------------------------------------------

  /** Every round trip that an offset was checked with took at most `maxRtt`. */
  predicate RoundTripsWithin(actions: seq<Action>, maxRtt: nat) {
    forall k :: 0 <= k < |actions| ==>
      match actions[k]
      case Handshake(probes, best) => best < |probes| ==> probes[best].Rtt() <= maxRtt
      case Reply(probe) => probe.Rtt() <= maxRtt
      case _ => true
  }

  predicate Short(check: Check, maxRtt: nat) {
    Checked(check.basis) <= 1001.0 + maxRtt as real
  }

  predicate Within(s: State, maxRtt: nat) {
    && (forall o :: o in s.checks ==> Short(s.checks[o], maxRtt))
    && forall n :: 0 <= n < |s.calls| ==> s.calls[n].check.Some? ==> Short(s.calls[n].check.value, maxRtt)
  }

  /** However long it runs, the check behind a call is as good as the dead band and one round trip. */
  lemma {:induction false} ChecksStayShort(fmt: Format, trueOffset: real, actions: seq<Action>, maxRtt: nat)
    requires RoundTripsWithin(actions, maxRtt)
    ensures Within(Run(fmt, trueOffset, actions), maxRtt)
    decreases |actions|
  {
    if actions != [] {
      var before, a := actions[..|actions| - 1], actions[|actions| - 1];
      ChecksStayShort(fmt, trueOffset, before, maxRtt);
      if Enabled(Run(fmt, trueOffset, before), a) {
        StepStaysShort(fmt, Run(fmt, trueOffset, before), actions, maxRtt);
      }
    }
  }

  lemma StepStaysShort(fmt: Format, s: State, actions: seq<Action>, maxRtt: nat)
    requires actions != [] && RoundTripsWithin(actions, maxRtt) && Within(s, maxRtt) && Link.Paired(s.link)
    requires Enabled(s, actions[|actions| - 1])
    ensures Within(Apply(fmt, s, actions[|actions| - 1]), maxRtt)
  {
  }
}
