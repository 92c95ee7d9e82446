/**
 The clock offset on its way from the server's registry to the client's audio
 callback: stored, encoded, carried over a FIFO control channel among other
 messages, decoded and applied. Reconnections are part of every run; the
 client keeps its last offset over them, but closes the audio gate.
 */
module OffsetAgreement {
  import opened Common
  import opened ClockSync
  import opened JsonText
  import opened Playback
  import Buffers = JitterBuffer
  import Arithmetic

  const CLOCK_OFFSET := "CLOCK_OFFSET"
  const JOIN_REJECT := "JOIN_REJECT"

  // ---- The client -------------------------------------------------------------------------

  /** What the control messages set: the offset, and the gate of the audio callback. */
  datatype Client = Client(offsetUs: int, handshakeComplete: bool)

  /** A message of the control channel. An offset outside int64 is undefined in C++; nothing is applied here. */
  function Handle(c: Client, json: string): Client {
    var msgType := ExtractString(json, TYPE_KEY);
    if msgType == CLOCK_OFFSET then
      var offset := ExtractInt(json, OFFSET_KEY);
      if offset.Some? then Client(offset.value, true) else c
    else if msgType == JOIN_REJECT then c.(handshakeComplete := false)
    else c
  }

  /** The client after everything in the channel has arrived. */
  function HandleAll(c: Client, channel: seq<string>): Client
    decreases |channel|
  {
    if channel == [] then c else HandleAll(Handle(c, channel[0]), channel[1..])
  }

  class Engine {
    const jitterBuffer: Buffers.JitterBuffer
    var offsetUs: int
    var handshakeComplete: bool

    function View(): Client
      reads this
    {
      Client(offsetUs, handshakeComplete)
    }

    constructor (jitterBuffer: Buffers.JitterBuffer)
      ensures this.jitterBuffer == jitterBuffer && View() == Client(0, false)
    {
      this.jitterBuffer := jitterBuffer;
      offsetUs, handshakeComplete := 0, false;
    }

    method HandleTCPMessage(jsonMsg: string)
      modifies this
      ensures View() == Handle(old(View()), jsonMsg)
    {
      var msgType := ExtractJsonString(jsonMsg, TYPE_KEY);
      if msgType == CLOCK_OFFSET {
        var offset := ExtractJsonInt(jsonMsg, OFFSET_KEY);
        if offset.Some? {
          offsetUs := offset.value;
          handshakeComplete := true;
        }
      } else if msgType == JOIN_REJECT {
        Stop();
      }
    }

    method Stop()
      modifies this
      ensures View() == old(View()).(handshakeComplete := false)
    {
      handshakeComplete := false;
    }

    /**
     Behind a closed gate: silence, and the buffer is left alone. Behind an open
     one: a pull with the applied offset.
     */
    method ReadAudio(outPcm: array<Sample>, numFrames: nat, playoutTimestampUs: int)
      requires jitterBuffer.Valid() && outPcm.Length == Arithmetic.Product(numFrames, jitterBuffer.fmt.channels)
      modifies jitterBuffer`tail, jitterBuffer`frameReadOffset, jitterBuffer`history, jitterBuffer.ring, outPcm
      ensures jitterBuffer.Valid()
      ensures !handshakeComplete ==>
                outPcm[..] == Silence(outPcm.Length) && jitterBuffer.history == old(jitterBuffer.history)
      ensures handshakeComplete ==>
                var args := PullArgs(numFrames, playoutTimestampUs, offsetUs, jitterBuffer.globalDelayUs);
                var start := Player(old(jitterBuffer.Contents()), old(jitterBuffer.frameReadOffset), Active(args, 0));
                && WellPlaced(jitterBuffer.fmt, start)
                && jitterBuffer.history
                   == Drain(jitterBuffer.fmt, After(old(jitterBuffer.history), Begin(args)), start).trace
                && Audible(jitterBuffer.history).outputs == Audible(old(jitterBuffer.history)).outputs + [outPcm[..]]
    {
      if !handshakeComplete {
        Buffers.CopySamples(outPcm, 0, Silence(outPcm.Length));
        return;
      }
      var _ := jitterBuffer.Pull(outPcm, numFrames, playoutTimestampUs, offsetUs);
    }
  }

  // ---- The protocol -----------------------------------------------------------------------

  /** Where the handler of the connection stands with offsets. */
  datatype Place = Measuring | Writing | Serving | Gone

  /**
   One connection: the server's record, the handler, whether its last offset
   message could not be written, the offsets written so far, the control
   channel towards the client, and the client.
   */
  datatype State = State(
    stored: Option<int>, place: Place, failed: bool, sent: seq<int>, channel: seq<string>, client: Client)

  datatype Action =
    | StoreFirst(offsetUs: int)   // the handshake's result
    | Write(ok: bool)             // the offset message for what is stored
    | Reply(probe: Probe)         // a periodic reply is processed
    | Send(json: string)          // any other message to the client
    | Deliver                     // the client handles the oldest message
    | Reconnect                   // the client stops, and starts over with a new handler

  predicate Enabled(s: State, a: Action) {
    match a
    case StoreFirst(offsetUs) => s.place == Measuring && Abs(offsetUs) <= INT64_MAX
    case Write(_) => s.place == Writing
    case Reply(probe) => s.place == Serving && Abs(probe.Offset()) <= INT64_MAX
    case Send(json) => ExtractString(json, TYPE_KEY) != CLOCK_OFFSET && ExtractString(json, TYPE_KEY) != JOIN_REJECT
    case Deliver => s.channel != []
    case Reconnect => true
  }

  /** The first failed offset message ends the handler, a later one is only logged. */
  function WriteStep(s: State, ok: bool): State
    requires s.stored.Some?
  {
    if ok then s.(place := Serving, failed := false, sent := s.sent + [s.stored.value],
                  channel := s.channel + [OffsetMessage(s.stored.value)])
    else s.(place := if s.sent == [] then Gone else Serving, failed := true)
  }

  function ReplyStep(s: State, probe: Probe): State
    requires s.stored.Some?
  {
    var offsetUs := Corrected(s.stored.value, probe);
    if Abs(probe.Offset() - s.stored.value) > DRIFT_CORRECTION_THRESHOLD_US then
      s.(stored := Some(offsetUs), place := Writing)
    else s
  }

  /** Until the handshake is over nothing is stored, and afterwards something is. */
  predicate Paired(s: State) {
    s.stored.None? <==> s.place == Measuring
  }

  function Apply(s: State, a: Action): State
    requires Enabled(s, a) && Paired(s)
  {
    match a
    case StoreFirst(offsetUs) => s.(stored := Some(offsetUs), place := Writing)
    case Write(ok) => WriteStep(s, ok)
    case Reply(probe) => ReplyStep(s, probe)
    case Send(json) => s.(channel := s.channel + [json])
    case Deliver => s.(client := Handle(s.client, s.channel[0]), channel := s.channel[1..])
    case Reconnect => State(None, Measuring, false, [], [], s.client.(handshakeComplete := false))
  }

  function Init(): State {
    State(None, Measuring, false, [], [], Client(0, false))
  }

  /** Any run: what is not enabled does not happen. */
  function Run(actions: seq<Action>): (s: State)
    ensures Paired(s)
  {
    if actions == [] then Init()
    else
      var s, a := Run(actions[..|actions| - 1]), actions[|actions| - 1];
      if Enabled(s, a) then Apply(s, a) else s
  }

  // ---- What every run keeps -----------------------------------------------------------------

  /** The message is one of the offsets written on this connection, or none of the client's business here. */
  predicate Known(sent: seq<int>, json: string) {
    (ExtractString(json, TYPE_KEY) != CLOCK_OFFSET && ExtractString(json, TYPE_KEY) != JOIN_REJECT)
    || exists o :: o in sent && Abs(o) <= INT64_MAX && json == OffsetMessage(o)
  }

  /** The client once the channel is empty: it has the offset written last, if there is one. */
  function Settled(s: State): Client {
    if s.sent == [] then Client(s.client.offsetUs, false) else Client(s.sent[|s.sent| - 1], true)
  }

  predicate Agreed(s: State) {
    && HandleAll(s.client, s.channel) == Settled(s)
    && (s.stored.Some? && s.place != Writing && !s.failed ==> s.sent != [] && s.stored.value == s.sent[|s.sent| - 1])
    && (s.stored.Some? ==> Abs(s.stored.value) <= INT64_MAX)
    && (s.client.handshakeComplete ==> s.client.offsetUs in s.sent)
    && (s.place == Measuring ==> s.sent == [])
    && forall i :: 0 <= i < |s.channel| ==> Known(s.sent, s.channel[i])
  }

  lemma {:induction false} HandleAllSnoc(c: Client, channel: seq<string>, json: string)
    ensures HandleAll(c, channel + [json]) == Handle(HandleAll(c, channel), json)
    decreases |channel|
  {
    if channel != [] {
      HandleAllSnoc(Handle(c, channel[0]), channel[1..], json);
      assert (channel + [json])[1..] == channel[1..] + [json];
    }
  }

  lemma HandleOffset(c: Client, offsetUs: int)
    requires Abs(offsetUs) <= INT64_MAX
    ensures Handle(c, OffsetMessage(offsetUs)) == Client(offsetUs, true)
  {
    OffsetMessageReadBack(offsetUs);
  }

  lemma KnownGrows(sent: seq<int>, more: int, channel: seq<string>)
    requires forall i :: 0 <= i < |channel| ==> Known(sent, channel[i])
    ensures forall i :: 0 <= i < |channel| ==> Known(sent + [more], channel[i])
  {
  }

  lemma WriteKeepsAgreed(s: State, ok: bool)
    requires s.stored.Some? && Agreed(s)
    ensures Agreed(WriteStep(s, ok))
  {
    if ok {
      var o := s.stored.value;
      HandleAllSnoc(s.client, s.channel, OffsetMessage(o));
      HandleOffset(HandleAll(s.client, s.channel), o);
      KnownGrows(s.sent, o, s.channel);
      assert o in s.sent + [o];
    }
  }

  /** Handling one message leaves the client alone, or applies an offset written on this connection. */
  lemma DeliveredOffset(s: State)
    requires Agreed(s) && s.channel != []
    ensures var c := Handle(s.client, s.channel[0]);
            c == s.client || (c.handshakeComplete && c.offsetUs in s.sent)
  {
    assert Known(s.sent, s.channel[0]);
    if o :| o in s.sent && Abs(o) <= INT64_MAX && s.channel[0] == OffsetMessage(o) {
      HandleOffset(s.client, o);
    }
  }

  lemma DeliverKeepsAgreed(s: State)
    requires s.channel != [] && Agreed(s)
    ensures Agreed(s.(client := Handle(s.client, s.channel[0]), channel := s.channel[1..]))
  {
    DeliveredOffset(s);
  }

  lemma ReplyKeepsAgreed(s: State, probe: Probe)
    requires s.stored.Some? && s.place == Serving && Abs(probe.Offset()) <= INT64_MAX && Agreed(s)
    ensures Agreed(ReplyStep(s, probe))
  {
  }

  lemma SendKeepsAgreed(s: State, json: string)
    requires Enabled(s, Send(json)) && Agreed(s)
    ensures Agreed(s.(channel := s.channel + [json]))
  {
    HandleAllSnoc(s.client, s.channel, json);
  }

  lemma StepKeepsAgreed(s: State, a: Action)
    requires Enabled(s, a) && Paired(s) && Agreed(s)
    ensures Agreed(Apply(s, a))
  {
    match a
    case Write(ok) => WriteKeepsAgreed(s, ok);
    case Send(json) => SendKeepsAgreed(s, json);
    case Deliver => DeliverKeepsAgreed(s);
    case Reply(probe) => ReplyKeepsAgreed(s, probe);
    case StoreFirst(_) =>
    case Reconnect =>
  }

  lemma {:induction false} EveryRun(actions: seq<Action>)
    ensures Agreed(Run(actions))
  {
    if actions != [] {
      EveryRun(actions[..|actions| - 1]);
      var s, a := Run(actions[..|actions| - 1]), actions[|actions| - 1];
      if Enabled(s, a) {
        StepKeepsAgreed(s, a);
      }
    }
  }

  // ---- Agreement -----------------------------------------------------------------------------

  /** The offset in the newest offset message of the channel. */
  function LastOffset(channel: seq<string>): Option<int>
    decreases |channel|
  {
    if channel == [] then None
    else
      var json := channel[|channel| - 1];
      if ExtractString(json, TYPE_KEY) == CLOCK_OFFSET then ExtractInt(json, OFFSET_KEY)
      else LastOffset(channel[..|channel| - 1])
  }

  lemma {:induction false} LastOffsetWins(c: Client, channel: seq<string>, sent: seq<int>)
    requires forall i :: 0 <= i < |channel| ==> Known(sent, channel[i])
    ensures HandleAll(c, channel).offsetUs
         == if LastOffset(channel).Some? then LastOffset(channel).value else c.offsetUs
    decreases |channel|
  {
    if channel != [] {
      var older, json := channel[..|channel| - 1], channel[|channel| - 1];
      assert older + [json] == channel && Known(sent, json);
      LastOffsetWins(c, older, sent);
      HandleAllSnoc(c, older, json);
      NewestWins(HandleAll(c, older), sent, json);
    }
  }

  lemma NewestWins(c: Client, sent: seq<int>, json: string)
    requires Known(sent, json)
    ensures if ExtractString(json, TYPE_KEY) == CLOCK_OFFSET then
              ExtractInt(json, OFFSET_KEY) == Some(Handle(c, json).offsetUs)
            else Handle(c, json).offsetUs == c.offsetUs
  {
    if o :| o in sent && Abs(o) <= INT64_MAX && json == OffsetMessage(o) {
      OffsetMessageReadBack(o);
    }
  }

  lemma AgreedOffsets(s: State)
    requires Agreed(s) && s.stored.Some? && s.place != Writing && !s.failed
    ensures s.stored.value == if LastOffset(s.channel).Some? then LastOffset(s.channel).value else s.client.offsetUs
  {
    LastOffsetWins(s.client, s.channel, s.sent);
  }

  /**
   In every run, unless an offset is between its storing and its writing, or
   could not be written, the server's offset is the newest one in flight to the
   client, or the one the client applied if none is in flight.
   */
  lemma OffsetsAgree(actions: seq<Action>)
    requires var s := Run(actions); s.stored.Some? && s.place != Writing && !s.failed
    ensures var s := Run(actions);
            s.stored.value == if LastOffset(s.channel).Some? then LastOffset(s.channel).value else s.client.offsetUs
  {
    EveryRun(actions);
    AgreedOffsets(Run(actions));
  }

  /** The client has applied an offset that the server wrote on this connection. */
  predicate Opened(s: State) {
    s.client.offsetUs in s.sent && s.stored.Some?
  }

  /**
   In every run the gate of the audio callback is open only if the client
   applied an offset that the server wrote on this very connection; an offset
   kept from an earlier connection never opens it.
   */
  lemma OpenGateMeansOffset(actions: seq<Action>)
    requires Run(actions).client.handshakeComplete
    ensures Opened(Run(actions))
  {
    EveryRun(actions);
  }

  /**
   A written offset goes to the end of the channel; an unwritten one changes
   nothing there, and ends the handler if it was the first.
   */
  lemma WriteOutcome(s: State, ok: bool)
    requires s.stored.Some?
    ensures var t := WriteStep(s, ok);
            && t.stored == s.stored && t.client == s.client && t.failed == !ok
            && (ok ==> t.place == Serving && t.channel == s.channel + [OffsetMessage(s.stored.value)]
                       && t.sent == s.sent + [s.stored.value])
            && (!ok ==> t.channel == s.channel && t.sent == s.sent && (t.place == Gone <==> s.sent == []))
            && (t.place == Gone || t.place == Serving)
  {
  }

  /** A periodic reply stores what the dead band makes of it, and asks for a message exactly if that is new. */
  lemma ReplyOutcome(s: State, probe: Probe)
    requires s.stored.Some? && s.place == Serving
    ensures var t := ReplyStep(s, probe);
            && t.stored == Some(Corrected(s.stored.value, probe))
            && (t.place == Writing <==> t.stored != s.stored) && (t.place != Writing ==> t == s)
            && t.channel == s.channel && t.client == s.client && t.sent == s.sent && t.failed == s.failed
  {
  }

  /** Whenever the stored offset changes, the handler's next step is to write it to the client. */
  lemma ChangedOffsetIsWritten(s: State, a: Action)
    requires Enabled(s, a) && Paired(s)
    ensures var t := Apply(s, a);
            t.stored.Some? && t.stored != s.stored ==>
              && t.place == Writing
              && WriteStep(t, true).channel == t.channel + [OffsetMessage(t.stored.value)]
              && WriteStep(t, true).sent == t.sent + [t.stored.value]
  {
  }

  /** A rejected client falls silent and keeps its offset; other messages than offsets leave both alone. */
  lemma RejectionClosesTheGate(c: Client, json: string)
    ensures ExtractString(json, TYPE_KEY) == "JOIN_REJECT" ==> Handle(c, json) == Client(c.offsetUs, false)
    ensures (ExtractString(json, TYPE_KEY) != "JOIN_REJECT" && ExtractString(json, TYPE_KEY) != "CLOCK_OFFSET")
            ==> Handle(c, json) == c
  {
  }

  /** A correction that is stored but not written leaves server and client apart by more than the dead band. */
  lemma UnwrittenCorrectionSplits(s: State, probe: Probe)
    requires Agreed(s) && s.place == Serving && s.stored.Some? && !s.failed
    requires ReplyStep(s, probe).place == Writing
    ensures var t := WriteStep(ReplyStep(s, probe), false);
            Abs(t.stored.value - HandleAll(t.client, t.channel).offsetUs) > DRIFT_CORRECTION_THRESHOLD_US
  {
  }
}
