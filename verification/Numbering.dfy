/**
 From captured frames to sequence numbers: which of the frames that the capture
 loop hands over get a number of a given client, and when there is one number
 per captured frame.
 */
module Numbering {
  import opened AudioPipeline
  import opened Bytes
  import opened Common
  import opened StreamManager
  import opened Wire

  /** The timestamps of the frames that a channel assignment lets through, in order. */
  function For(mask: byte, sent: seq<Stamped>): seq<int>
    decreases |sent|
  {
    if sent == [] then []
    else
      var f := sent[|sent| - 1];
      For(mask, sent[..|sent| - 1]) + if Matches(f.channel, mask) then [f.captureUs] else []
  }

  lemma {:induction false} ForSplits(mask: byte, a: seq<Stamped>, b: seq<Stamped>)
    ensures For(mask, a + b) == For(mask, a) + For(mask, b)
    decreases |b|
  {
    if b == [] {
      assert a + b == a;
    } else {
      ForSplits(mask, a, b[..|b| - 1]);
      assert (a + b)[..|a + b| - 1] == a + b[..|b| - 1];
    }
  }

  function Repeated(t: int, n: nat): (r: seq<int>)
    ensures |r| == n && forall i :: 0 <= i < n ==> r[i] == t
  {
    seq(n, _ => t)
  }

  /** How many frames of one capture a client gets. */
  function Copies(mask: byte, encodings: seq<Encoding>): nat
    decreases |encodings|
  {
    if encodings == [] then 0
    else
      var e := encodings[|encodings| - 1];
      Copies(mask, encodings[..|encodings| - 1]) + if e.ok && Matches(e.channel, mask) then 1 else 0
  }

  lemma {:induction false} OutgoingFor(mask: byte, encodings: seq<Encoding>, t: int)
    ensures For(mask, Outgoing(encodings, t)) == Repeated(t, Copies(mask, encodings))
    decreases |encodings|
  {
    if encodings != [] {
      var before, e := encodings[..|encodings| - 1], encodings[|encodings| - 1];
      OutgoingFor(mask, before, t);
      var last := if e.ok then [Stamped(e.channel, t)] else [];
      ForSplits(mask, Outgoing(before, t), last);
      assert e.ok ==> For(mask, last[..0]) == [];
    }
  }

  /** Every captured frame has exactly one encoding for the client. */
  predicate OneEach(mask: byte, inputs: seq<Read>) {
    forall k :: 0 <= k < |inputs| ==> inputs[k].Captured? ==> Copies(mask, inputs[k].encodings) == 1
  }

  /** What one more read adds for a client, and to the timestamps of the captures. */
  lemma OneMoreRead(p: Pipeline, inputs: seq<Read>, mask: byte)
    requires inputs != [] && FullFrames(inputs)
    ensures var before, r := inputs[..|inputs| - 1], inputs[|inputs| - 1];
            if r.Captured? then
              var t := Process(p, before).Stamp(r.nowUs);
              && For(mask, Sent(p, inputs)) == For(mask, Sent(p, before)) + Repeated(t, Copies(mask, r.encodings))
              && Stamps(p, Nows(inputs)) == Stamps(p, Nows(before)) + [t]
              && Nows(inputs) == Nows(before) + [r.nowUs]
            else
              For(mask, Sent(p, inputs)) == For(mask, Sent(p, before)) && Nows(inputs) == Nows(before)
  {
    var before, r := inputs[..|inputs| - 1], inputs[|inputs| - 1];
    if r.Captured? {
      var t := Process(p, before).Stamp(r.nowUs);
      ForSplits(mask, Sent(p, before), Outgoing(r.encodings, t));
      OutgoingFor(mask, r.encodings, t);
      ProcessIsBefore(p, before);
      StampsSnoc(p, Nows(before), r.nowUs);
    } else {
      assert Sent(p, inputs) == Sent(p, before) && Nows(inputs) == Nows(before);
    }
  }

  /** With one encoding each, the client's timestamps are those of the captures. */
  lemma {:induction false} SentIsStamps(p: Pipeline, inputs: seq<Read>, mask: byte)
    requires FullFrames(inputs) && OneEach(mask, inputs)
    ensures For(mask, Sent(p, inputs)) == Stamps(p, Nows(inputs))
    decreases |inputs|
  {
    if inputs != [] {
      SentIsStamps(p, inputs[..|inputs| - 1], mask);
      OneMoreRead(p, inputs, mask);
    }
  }

  /** What a client is sent under a steady clock is 10 ms apart, give or take one slew, throughout. */
  lemma SteadySent(p: Pipeline, inputs: seq<Read>, mask: byte, stamps: seq<int>, k: nat)
    requires FullFrames(inputs) && OneEach(mask, inputs) && Steady(Nows(inputs), 20)
    requires stamps == For(mask, Sent(p, inputs)) && k + 1 < |stamps|
    ensures Abs(stamps[k + 1] - stamps[k] - FRAME_US) <= SLEW_US
  {
    SentIsStamps(p, inputs, mask);
    SteadyStamps(p, Nows(inputs), k);
  }

  /** And it is within 5020 us of the wall clock after |delta| - 5000 frames of a clock one microsecond steadier. */
  lemma SettledSent(p: Pipeline, inputs: seq<Read>, mask: byte, nows: seq<int>, stamps: seq<int>, k: nat)
    requires FullFrames(inputs) && OneEach(mask, inputs) && nows == Nows(inputs) && stamps == For(mask, Sent(p, inputs))
    requires Steady(nows, 19) && k < |nows| && Abs(DeltaAt(p, nows, 0)) <= SNAP_US
    requires k >= Abs(DeltaAt(p, nows, 0)) - SLEW_THRESHOLD_US
    ensures |stamps| == |nows| && Abs(nows[k] - stamps[k]) <= SLEW_THRESHOLD_US + SLEW_US
  {
    SentIsStamps(p, inputs, mask);
    SettledStamps(p, nows, k);
  }

  // ---- When there is one number per captured frame ------------------------------------

  predicate Increasing(s: seq<int>) {
    forall i, j :: 0 <= i < j < |s| ==> s[i] < s[j]
  }

  predicate Up(s: seq<int>, k: nat)
    requires k + 1 < |s|
  {
    s[k] < s[k + 1]
  }

  lemma {:induction false} UpIncreases(s: seq<int>, i: nat, j: nat)
    requires i < j < |s| && forall k :: 0 <= k < |s| - 1 ==> Up(s, k)
    ensures s[i] < s[j]
    decreases j - i
  {
    assert Up(s, i);
    if i + 1 < j {
      UpIncreases(s, i + 1, j);
    }
  }

  lemma SteadyIncreases(p: Pipeline, nows: seq<int>)
    requires Steady(nows, 20)
    ensures Increasing(Stamps(p, nows))
  {
    var stamps := Stamps(p, nows);
    forall k | 0 <= k < |nows| - 1
      ensures Up(stamps, k)
    {
      SteadyStamps(p, nows, k);
    }
    forall i, j | 0 <= i < j < |nows|
      ensures stamps[i] < stamps[j]
    {
      UpIncreases(stamps, i, j);
    }
  }

  lemma {:induction false} SentAreStamps(p: Pipeline, inputs: seq<Read>, mask: byte, t: int)
    requires FullFrames(inputs) && t in For(mask, Sent(p, inputs))
    ensures t in Stamps(p, Nows(inputs))
    decreases |inputs|
  {
    OneMoreRead(p, inputs, mask);
    if t in For(mask, Sent(p, inputs[..|inputs| - 1])) {
      SentAreStamps(p, inputs[..|inputs| - 1], mask, t);
    }
  }

  /**
   Under a steady clock a client's timestamps are those of the captures exactly
   when each capture has one encoding for it. A client on the stereo mix under
   surround capture, which gets every channel, is thus out.
   */
  lemma {:induction false} OneNumberPerFrameIff(p: Pipeline, inputs: seq<Read>, mask: byte)
    requires FullFrames(inputs) && Steady(Nows(inputs), 20)
    ensures For(mask, Sent(p, inputs)) == Stamps(p, Nows(inputs)) <==> OneEach(mask, inputs)
    decreases |inputs|
  {
    if OneEach(mask, inputs) {
      SentIsStamps(p, inputs, mask);
    } else {
      OtherwiseDifferent(p, inputs, mask);
    }
  }

  /** How many channels of a capture got encoded. */
  function Encoded(encodings: seq<Encoding>): nat
    decreases |encodings|
  {
    if encodings == [] then 0
    else Encoded(encodings[..|encodings| - 1]) + if encodings[|encodings| - 1].ok then 1 else 0
  }

  /** A client on the stereo mix gets every channel that was encoded. */
  lemma {:induction false} StereoMixGetsAll(encodings: seq<Encoding>)
    ensures Copies(STEREO_MIX, encodings) == Encoded(encodings)
    decreases |encodings|
  {
    if encodings != [] {
      StereoMixGetsAll(encodings[..|encodings| - 1]);
    }
  }

  /**
   So under surround capture its numbers do not follow the captures: one capture
   with two channels encoded is enough.
   */
  lemma StereoMixUnderSurround(p: Pipeline, inputs: seq<Read>, k: nat)
    requires FullFrames(inputs) && Steady(Nows(inputs), 20)
    requires k < |inputs| && inputs[k].Captured? && Encoded(inputs[k].encodings) >= 2
    ensures !OneEach(STEREO_MIX, inputs) && For(STEREO_MIX, Sent(p, inputs)) != Stamps(p, Nows(inputs))
  {
    StereoMixGetsAll(inputs[k].encodings);
    OneNumberPerFrameIff(p, inputs, STEREO_MIX);
  }

  /** One capture of a front left and a front right channel: the client gets two numbers under one timestamp. */
  lemma TwoChannelsTwoNumbers(p: Pipeline, nowUs: int)
    ensures var capture := Captured(FRAME_SAMPLES, nowUs, [Encoding(0, true), Encoding(1, true)]);
            For(STEREO_MIX, Sent(p, [capture])) == [p.Stamp(nowUs), p.Stamp(nowUs)]
  {
    var encodings := [Encoding(0, true)] + [Encoding(1, true)];
    var capture := Captured(FRAME_SAMPLES, nowUs, [Encoding(0, true), Encoding(1, true)]);
    assert encodings == capture.encodings && encodings[..1] == [Encoding(0, true)] && encodings[..1][..0] == [];
    StereoMixGetsAll(encodings);
    assert Encoded(encodings[..1]) == 1;
    assert [capture][..0] == [];
    OneMoreRead(p, [capture], STEREO_MIX);
  }

  /** The channels of a surround layout: all different, and none of them the mix. */
  predicate Layout(encodings: seq<Encoding>) {
    && (forall k :: 0 <= k < |encodings| ==> encodings[k].channel != 0xFF)
    && forall i, j :: 0 <= i < j < |encodings| ==> encodings[i].channel != encodings[j].channel
  }

  /** Under surround capture a client on one channel gets that channel's frame, if it was encoded, and no other. */
  lemma {:induction false} OneChannelOneCopy(mask: byte, encodings: seq<Encoding>)
    requires mask != 0xFF && Layout(encodings)
    ensures Copies(mask, encodings) == if Encoding(mask, true) in encodings then 1 else 0
    decreases |encodings|
  {
    if encodings != [] {
      var k := |encodings| - 1;
      OneChannelOneCopy(mask, encodings[..k]);
      OwnChannelOnly(encodings[k].channel, mask);
      assert encodings == encodings[..k] + [encodings[k]];
    }
  }

  lemma {:induction false} OtherwiseDifferent(p: Pipeline, inputs: seq<Read>, mask: byte)
    requires FullFrames(inputs) && Steady(Nows(inputs), 20) && !OneEach(mask, inputs)
    ensures For(mask, Sent(p, inputs)) != Stamps(p, Nows(inputs))
    decreases |inputs|
  {
    var before, r := inputs[..|inputs| - 1], inputs[|inputs| - 1];
    if r.Captured? && Copies(mask, r.encodings) != 1 {
      NotOneCopy(p, inputs, mask);
    } else {
      OneMoreRead(p, inputs, mask);
      SteadyFront(Nows(before), Nows(inputs));
      OtherwiseDifferent(p, before, mask);
      if r.Captured? {
        SameEnd(For(mask, Sent(p, before)), Stamps(p, Nows(before)), Process(p, before).Stamp(r.nowUs));
      }
    }
  }

  lemma SameEnd(a: seq<int>, b: seq<int>, t: int)
    requires a != b
    ensures a + Repeated(t, 1) != b + [t]
  {
    var longer := a + Repeated(t, 1);
    assert longer[..|a|] == a && (b + [t])[..|b|] == b;
  }

  lemma SteadyFront(front: seq<int>, nows: seq<int>)
    requires Steady(nows, 20) && front <= nows
    ensures Steady(front, 20)
  {
    forall k | 0 <= k < |front| - 1
      ensures Abs(front[k + 1] - front[k] - FRAME_US) <= 20
    {
      assert Abs(nows[k + 1] - nows[k] - FRAME_US) <= 20;
    }
  }

  lemma NotOneCopy(p: Pipeline, inputs: seq<Read>, mask: byte)
    requires FullFrames(inputs) && Steady(Nows(inputs), 20) && inputs != []
    requires inputs[|inputs| - 1].Captured? && Copies(mask, inputs[|inputs| - 1].encodings) != 1
    ensures For(mask, Sent(p, inputs)) != Stamps(p, Nows(inputs))
  {
    var before, r := inputs[..|inputs| - 1], inputs[|inputs| - 1];
    OneMoreRead(p, inputs, mask);
    SteadyIncreases(p, Nows(inputs));
    forall t | t in For(mask, Sent(p, before))
      ensures t in Stamps(p, Nows(before))
    {
      SentAreStamps(p, before, mask, t);
    }
    NotRepeatedOnce(For(mask, Sent(p, before)), Stamps(p, Nows(before)), Process(p, before).Stamp(r.nowUs),
                    Copies(mask, r.encodings));
  }

  lemma NotRepeatedOnce(some: seq<int>, all: seq<int>, t: int, n: nat)
    requires Increasing(all + [t]) && (forall x :: x in some ==> x in all) && n != 1
    ensures some + Repeated(t, n) != all + [t]
  {
    var k, longer := |all|, some + Repeated(t, n);
    TopIsNew(all, t);
    if n == 0 {
      assert longer == some && (all + [t])[k] == t;
    } else if |longer| == k + 1 {
      assert longer[k - 1] == t && (all + [t])[k - 1] == all[k - 1];
    }
  }

  lemma TopIsNew(all: seq<int>, t: int)
    requires Increasing(all + [t])
    ensures t !in all
  {
    forall i | 0 <= i < |all|
      ensures all[i] != t
    {
      assert (all + [t])[i] < (all + [t])[|all|];
    }
  }

  // ---- The stream manager's log ----------------------------------------------------------

  function Tags(log: seq<StreamManager.Frame>): seq<Stamped> {
    seq(|log|, k requires 0 <= k < |log| => Stamped(log[k].channel, log[k].captureUs))
  }

  /** The places in the log of the frames that a channel assignment lets through. */
  function Wanted(log: seq<StreamManager.Frame>, mask: byte): seq<nat>
    decreases |log|
  {
    if log == [] then []
    else
      var k := |log| - 1;
      Wanted(log[..k], mask) + if Matches(log[k].channel, mask) then [k] else []
  }

  lemma {:induction false} WantedStamps(log: seq<StreamManager.Frame>, mask: byte)
    ensures var wanted, stamps := Wanted(log, mask), For(mask, Tags(log));
            && |wanted| == |stamps|
            && forall k :: 0 <= k < |wanted| ==> wanted[k] < |log| && log[wanted[k]].captureUs == stamps[k]
    decreases |log|
  {
    if log != [] {
      WantedStamps(log[..|log| - 1], mask);
      assert Tags(log)[..|log| - 1] == Tags(log[..|log| - 1]);
    }
  }

  /** After the first `skipped` frames, a client was sent every frame its assignment lets through, and no other. */
  predicate ServedThroughout(log: seq<StreamManager.Frame>, sent: seq<nat>, mask: byte, skipped: nat) {
    skipped + |sent| <= |Wanted(log, mask)| && sent == Wanted(log, mask)[skipped..skipped + |sent|]
  }

  /** The same, as far as the first `done` frames are concerned. */
  predicate ServedUpTo(log: seq<StreamManager.Frame>, sent: seq<nat>, mask: byte, skipped: nat, done: nat)
    requires done <= |log|
  {
    var wanted := Wanted(log[..done], mask);
    skipped <= |wanted| && sent == wanted[skipped..]
  }

  /** Being sent the next frame exactly if it matches, as `DoSendAudio` promises, keeps a client served throughout. */
  lemma OneMoreFrame(log: seq<StreamManager.Frame>, sent: seq<nat>, mask: byte, skipped: nat, done: nat)
    requires done < |log| && ServedUpTo(log, sent, mask, skipped, done)
    ensures var sent' := if Matches(log[done].channel, mask) then sent + [done] else sent;
            ServedUpTo(log, sent', mask, skipped, done + 1)
    ensures done + 1 == |log| && !Matches(log[done].channel, mask) ==> ServedThroughout(log, sent, mask, skipped)
    ensures done + 1 == |log| && Matches(log[done].channel, mask) ==>
              ServedThroughout(log, sent + [done], mask, skipped)
  {
    assert log[..done + 1][..done] == log[..done];
    assert log[..|log|] == log;
  }

  /** No frame of the capture loop was dropped on its way into the queue. */
  predicate NothingDropped(log: seq<StreamManager.Frame>, p: Pipeline, inputs: seq<Read>) {
    Tags(log) == Sent(p, inputs)
  }

  /** Sequence number k + 1 of a client carries the timestamp of capture skipped + k. */
  predicate Follows(log: seq<StreamManager.Frame>, sent: seq<nat>, captures: seq<int>, skipped: nat) {
    && skipped + |sent| <= |captures|
    && forall k :: 0 <= k < |sent| ==> sent[k] < |log| && log[sent[k]].captureUs == captures[skipped + k]
  }

  /** With one encoding for each capture, nothing dropped and nothing missed, the numbers follow the captures. */
  lemma NumbersFollowCaptures(p: Pipeline, inputs: seq<Read>, log: seq<StreamManager.Frame>, sent: seq<nat>,
                              mask: byte, skipped: nat)
    requires FullFrames(inputs) && OneEach(mask, inputs)
    requires NothingDropped(log, p, inputs) && ServedThroughout(log, sent, mask, skipped)
    ensures Follows(log, sent, Stamps(p, Nows(inputs)), skipped)
  {
    SentIsStamps(p, inputs, mask);
    WantedStamps(log, mask);
  }
}
