/**
 Clock synchronisation: offset estimation from four timestamps, the choice of
 the round with the smallest round-trip time, and drift correction with a
 500 us dead band. Offsets are server time minus client time.
 */
module ClockSync {
  import opened Common

  const INITIAL_PROBE_ROUNDS: nat := 8
  const DRIFT_CORRECTION_THRESHOLD_US: nat := 500

  /** The four timestamps of one probe and its reply. */
  datatype Probe = Probe(serverSendTs: int, clientRecvTs: int, clientSendTs: int, serverRecvTs: int) {
    function Rtt(): int {
      (serverRecvTs - serverSendTs) - (clientSendTs - clientRecvTs)
    }

    function Offset(): int {
      Halve((serverSendTs - clientRecvTs) + (serverRecvTs - clientSendTs))
    }
  }

  // ---- Estimation error ---------------------------------------------------

  /**
   A probe answered over paths with non-negative delays while the server's
   clock read `trueOffset` more than the client's.
   */
  predicate Genuine(p: Probe, trueOffset: real) {
    && p.serverSendTs as real <= p.clientRecvTs as real + trueOffset
    && p.clientSendTs as real + trueOffset <= p.serverRecvTs as real
  }

  /** Twice the distance between an offset and the true one. */
  function DoubleError(offsetUs: int, trueOffset: real): real {
    var e := 2.0 * (offsetUs as real - trueOffset);
    if e < 0.0 then -e else e
  }

  /** The estimate is off by at most half the round trip, and half a microsecond of rounding. */
  lemma EstimateError(p: Probe, trueOffset: real)
    requires Genuine(p, trueOffset)
    ensures DoubleError(p.Offset(), trueOffset) <= p.Rtt() as real + 1.0
  {
    var sum := (p.serverSendTs - p.clientRecvTs) + (p.serverRecvTs - p.clientSendTs);
    assert -1 <= 2 * p.Offset() - sum <= 1;
  }

  /** The round trip is what the two paths took, whatever the clocks say. */
  lemma RttIsPathDelays(p: Probe, offset: real)
    ensures p.Rtt() as real == (p.clientRecvTs as real + offset - p.serverSendTs as real)
                             + (p.serverRecvTs as real - (p.clientSendTs as real + offset))
  {
  }

  /** How long the client takes to answer makes no difference to the round trip. */
  lemma TurnaroundDoesNotCount(p: Probe, later: int)
    ensures p.(clientSendTs := p.clientSendTs + later, serverRecvTs := p.serverRecvTs + later).Rtt() == p.Rtt()
  {
  }

  /** The offset is the mean of what the two paths suggest, rounded towards zero to a whole microsecond. */
  lemma OffsetIsMean(p: Probe)
    ensures var there, back := p.serverSendTs - p.clientRecvTs, p.serverRecvTs - p.clientSendTs;
            && Abs(2 * p.Offset()) <= Abs(there + back) <= Abs(2 * p.Offset()) + 1
            && (p.Offset() > 0 ==> there + back > 0) && (p.Offset() < 0 ==> there + back < 0)
  {
  }

  /** `k` is the earliest of the rounds with the smallest round trip. */
  predicate IsBest(probes: seq<Probe>, k: nat) {
    && k < |probes|
    && (forall j :: 0 <= j < |probes| ==> probes[k].Rtt() <= probes[j].Rtt())
    && (forall j :: 0 <= j < k ==> probes[k].Rtt() < probes[j].Rtt())
  }

  lemma BestIsUnique(probes: seq<Probe>, k: nat, l: nat)
    requires IsBest(probes, k) && IsBest(probes, l)
    ensures k == l
  {
    assert probes[k].Rtt() == probes[l].Rtt();
  }

  /** After the handshake the stored offset is as good as every single round promises. */
  lemma HandshakeError(probes: seq<Probe>, k: nat, j: nat, trueOffset: real)
    requires IsBest(probes, k) && j < |probes|
    requires forall i :: 0 <= i < |probes| ==> Genuine(probes[i], trueOffset)
    ensures DoubleError(probes[k].Offset(), trueOffset) <= probes[j].Rtt() as real + 1.0
  {
    EstimateError(probes[k], trueOffset);
  }

  /** The offset kept after a periodic reply: small differences are left alone. */
  function Corrected(storedUs: int, p: Probe): int {
    if Abs(p.Offset() - storedUs) > DRIFT_CORRECTION_THRESHOLD_US then p.Offset() else storedUs
  }

  /** The record moves exactly when the estimate is more than 500 us away from it, and then to the estimate. */
  lemma MovesBeyondDeadBand(storedUs: int, p: Probe)
    ensures Corrected(storedUs, p) != storedUs <==> p.Offset() < storedUs - 500 || p.Offset() > storedUs + 500
    ensures Corrected(storedUs, p) != storedUs ==> Corrected(storedUs, p) == p.Offset()
  {
  }

  /** Corrected or not, a reply leaves an error of the dead band and the round trip at most. */
  lemma ReplyError(storedUs: int, p: Probe, trueOffset: real)
    requires Genuine(p, trueOffset)
    ensures DoubleError(Corrected(storedUs, p), trueOffset) <= 1000.0 + p.Rtt() as real + 1.0
  {
    EstimateError(p, trueOffset);
  }

  // ---- Error over whole runs ----------------------------------------------

  /** What happens to one client's clock: it drifts, or a periodic reply is processed. */
  datatype Moment = Drift(byUs: real) | Reply(probe: Probe)

  /** Stored offset, true offset, and the drift since the last reply. */
  datatype Track = Track(storedUs: int, trueOffset: real, sinceSync: real)

  function Advance(t: Track, m: Moment): Track {
    match m
    case Drift(byUs) => Track(t.storedUs, t.trueOffset + byUs, t.sinceSync + if byUs < 0.0 then -byUs else byUs)
    case Reply(probe) => Track(Corrected(t.storedUs, probe), t.trueOffset, 0.0)
  }

  function Follow(t: Track, run: seq<Moment>): Track
    decreases |run|
  {
    if run == [] then t else Advance(Follow(t, run[..|run| - 1]), run[|run| - 1])
  }

  /** Every reply of the run is genuine when processed and took at most `maxRtt`. */
  predicate Plausible(t: Track, run: seq<Moment>, maxRtt: int)
    decreases |run|
  {
    run == [] ||
    (Plausible(t, run[..|run| - 1], maxRtt) &&
     var m := run[|run| - 1];
     m.Reply? ==> Genuine(m.probe, Follow(t, run[..|run| - 1]).trueOffset) && m.probe.Rtt() <= maxRtt)
  }

  /**
   However long it runs: with round trips of at most `maxRtt`, the doubled error
   never exceeds 1001 us plus `maxRtt` plus twice the drift since the last reply.
   */
  lemma {:induction false} ErrorStaysBounded(t: Track, run: seq<Moment>, maxRtt: int)
    requires Plausible(t, run, maxRtt)
    requires DoubleError(t.storedUs, t.trueOffset) <= 1001.0 + maxRtt as real + 2.0 * t.sinceSync
    ensures var now := Follow(t, run);
            DoubleError(now.storedUs, now.trueOffset) <= 1001.0 + maxRtt as real + 2.0 * now.sinceSync
    decreases |run|
  {
    if run != [] {
      ErrorStaysBounded(t, run[..|run| - 1], maxRtt);
      var before, m := Follow(t, run[..|run| - 1]), run[|run| - 1];
      if m.Reply? {
        ReplyError(before.storedUs, m.probe, before.trueOffset);
      }
    }
  }

  // ---- The registry ---------------------------------------------------------

  datatype SyncError = SendProbe(round: nat) | ReadReply(round: nat) | SendOffset | UnknownClient

  /** How one round of the exchange went on the wire. */
  datatype Round = WriteFailed | ReadFailed | Answered(probe: Probe)

  /** The value of a client's clock record. */
  datatype Reading = Reading(offsetUs: int, rttUs: int, lastSyncTime: int)

  class ClientClock {
    var offsetUs: int
    var rttUs: int
    var lastSyncTime: int

    constructor (offsetUs: int, rttUs: int, lastSyncTime: int)
      ensures this.offsetUs == offsetUs && this.rttUs == rttUs && this.lastSyncTime == lastSyncTime
    {
      this.offsetUs, this.rttUs, this.lastSyncTime := offsetUs, rttUs, lastSyncTime;
    }
  }

  class ClockRegistry {
    var clients: map<string, ClientClock>

    /** Every client has a record of its own. */
    ghost predicate Valid()
      reads this
    {
      forall a, b :: a in clients && b in clients && clients[a] == clients[b] ==> a == b
    }

    /** The records as values. */
    ghost function View(): map<string, Reading>
      reads this, clients.Values
    {
      map id | id in clients :: Reading(clients[id].offsetUs, clients[id].rttUs, clients[id].lastSyncTime)
    }

    constructor ()
      ensures Valid() && View() == map[]
    {
      clients := map[];
    }

    /**
     Eight rounds, then the offset of the best one is stored and sent. A round
     that fails ends the handshake with nothing stored; a failing offset message
     ends it with the offset stored.
     */
    method InitialHandshake(clientID: string, rounds: seq<Round>, offsetWritten: bool, now: int)
      returns (err: Option<SyncError>, sent: Option<int>)
      requires Valid() && |rounds| == INITIAL_PROBE_ROUNDS
      modifies this
      ensures Valid() && fresh(clients.Values - old(clients.Values))
      ensures (exists i :: 0 <= i < |rounds| && !rounds[i].Answered?) ==>
                && View() == old(View()) && sent == None
                && exists i :: 0 <= i < |rounds| && (forall j :: 0 <= j < i ==> rounds[j].Answered?) &&
                     err == Some(if rounds[i].WriteFailed? then SendProbe(i) else ReadReply(i)) && !rounds[i].Answered?
      ensures (forall i :: 0 <= i < |rounds| ==> rounds[i].Answered?) ==>
                var probes := seq(|rounds|, i requires 0 <= i < |rounds| => rounds[i].probe);
                exists k: nat :: IsBest(probes, k)
                  && View() == old(View())[clientID := Reading(probes[k].Offset(), probes[k].Rtt(), now)]
                  && sent == (if offsetWritten then Some(probes[k].Offset()) else None)
                  && err == (if offsetWritten then None else Some(SendOffset))
    {
      var results: seq<Probe> := [];
      var round := 0;
      while round < INITIAL_PROBE_ROUNDS
        invariant round <= INITIAL_PROBE_ROUNDS
        invariant |results| == round
        invariant forall i :: 0 <= i < round ==> rounds[i].Answered? && results[i] == rounds[i].probe
      {
        if rounds[round].WriteFailed? {
          return Some(SendProbe(round)), None;
        }
        if rounds[round].ReadFailed? {
          return Some(ReadReply(round)), None;
        }
        results := results + [rounds[round].probe];
        round := round + 1;
      }
      var best := PickBest(results);
      var cc := new ClientClock(results[best].Offset(), results[best].Rtt(), now);
      clients := clients[clientID := cc];
      assert results == seq(|rounds|, i requires 0 <= i < |rounds| => rounds[i].probe);
      if !offsetWritten {
        return Some(SendOffset), None;
      }
      return None, Some(results[best].Offset());
    }

    /** Processes a periodic reply; a correction is stored and sent to the client. */
    method ProcessPeriodicReply(clientID: string, reply: Probe, offsetWritten: bool, now: int)
      returns (err: Option<SyncError>, sent: Option<int>)
      requires Valid()
      modifies clients.Values
      ensures Valid() && clients == old(clients)
      ensures clientID !in clients ==> err == Some(UnknownClient) && sent == None && View() == old(View())
      ensures clientID in clients ==>
                var before := old(View())[clientID];
                var offsetUs := Corrected(before.offsetUs, reply);
                var corrects := Abs(reply.Offset() - before.offsetUs) > DRIFT_CORRECTION_THRESHOLD_US;
                var rttUs := if corrects then reply.Rtt() else before.rttUs;
                && View() == old(View())[clientID := Reading(offsetUs, rttUs, now)]
                && sent == (if corrects && offsetWritten then Some(offsetUs) else None)
                && err == (if corrects && !offsetWritten then Some(SendOffset) else None)
    {
      if clientID !in clients {
        return Some(UnknownClient), None;
      }
      var cc := clients[clientID];
      var newOffset := reply.Offset();
      var delta := Abs(newOffset - cc.offsetUs);
      if delta > DRIFT_CORRECTION_THRESHOLD_US {
        cc.offsetUs := newOffset;
        cc.rttUs := reply.Rtt();
        cc.lastSyncTime := now;
        if !offsetWritten {
          return Some(SendOffset), None;
        }
        return None, Some(newOffset);
      }
      cc.lastSyncTime := now;
      return None, None;
    }

    method RemoveClient(clientID: string)
      requires Valid()
      modifies this
      ensures Valid() && View() == old(View()) - {clientID}
    {
      clients := clients - {clientID};
    }
  }

  /** The loop over the rounds that keeps the first of the smallest. */
  method PickBest(results: seq<Probe>) returns (best: nat)
    requires results != []
    ensures IsBest(results, best)
  {
    best := 0;
    var bestRTT := results[0].Rtt();
    for i := 1 to |results|
      invariant best < i && bestRTT == results[best].Rtt()
      invariant forall j :: 0 <= j < i ==> results[best].Rtt() <= results[j].Rtt()
      invariant forall j :: 0 <= j < best ==> results[best].Rtt() < results[j].Rtt()
    {
      var rtt := results[i].Rtt();
      if rtt < bestRTT {
        bestRTT := rtt;
        best := i;
      }
    }
  }
}
