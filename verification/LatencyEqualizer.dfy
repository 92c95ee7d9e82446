/**
 The global playback delay: the largest reported jitter plus headroom, clamped,
 with an instant rise, a slow fall and a half-millisecond dead band. Delays and
 reports are milliseconds.
 */
module LatencyEqualizer {
  import opened Common

  const DEFAULT_HEADROOM_MS := 20.0
  const MIN_GLOBAL_DELAY_MS := 20.0
  const MAX_GLOBAL_DELAY_MS := 500.0
  const REBROADCAST_THRESHOLD_MS := 10.0
  const IOS_BG_JITTER_THRESHOLD_MS := 30.0
  const IOS_BG_FRAME_MS := 40
  const NORMAL_FRAME_MS := 10

  type ClientId = string

  /** `v` is the largest report, or zero when none is positive. */
  ghost predicate IsMaxP95(reports: map<ClientId, real>, v: real) {
    && v >= 0.0
    && (forall id :: id in reports ==> reports[id] <= v)
    && (v == 0.0 || exists id :: id in reports && reports[id] == v)
  }

  /** The largest report; the order in which a map is visited does not matter. */
  ghost function MaxP95(reports: map<ClientId, real>): (v: real)
    ensures IsMaxP95(reports, v)
    decreases |reports|
  {
    if reports == map[] then 0.0
    else
      var id :| id in reports;
      var rest := MaxP95(reports - {id});
      assert forall other :: other in reports ==> other == id || other in reports - {id};
      if reports[id] > rest then reports[id] else rest
  }

  function Clamp(ms: real): real {
    if ms < MIN_GLOBAL_DELAY_MS then MIN_GLOBAL_DELAY_MS
    else if ms > MAX_GLOBAL_DELAY_MS then MAX_GLOBAL_DELAY_MS
    else ms
  }

  ghost function Target(reports: map<ClientId, real>, headroom: real): (t: real)
    ensures MIN_GLOBAL_DELAY_MS <= t <= MAX_GLOBAL_DELAY_MS
  {
    Clamp(MaxP95(reports) + headroom)
  }

  /**
   The target is the least delay between 20 and 500 ms that leaves room for every
   report, and for no report at all, with the headroom on top; 500 ms if that is
   not enough.
   */
  lemma TargetIsLeast(reports: map<ClientId, real>, headroom: real)
    ensures var t := Target(reports, headroom);
            && 20.0 <= t <= 500.0
            && (t == 500.0 || (headroom <= t && forall id :: id in reports ==> reports[id] + headroom <= t))
            && (t == 20.0 || t <= headroom || exists id :: id in reports && t <= reports[id] + headroom)
  {
    var v := MaxP95(reports);
    if v != 0.0 {
      var id :| id in reports && reports[id] == v;
      assert Target(reports, headroom) == 20.0 || Target(reports, headroom) <= reports[id] + headroom;
    }
  }

  /** One recalculation towards `target`: up at once, down by at most 2 ms, not at all below half a millisecond. */
  function Settle(delay: real, target: real): real {
    var next := if target < delay && delay - target > 2.0 then delay - 2.0 else target;
    if AbsReal(next - delay) < 0.5 then delay else next
  }

  // ---- Convergence ----------------------------------------------------------

  function Repeat(delay: real, target: real, n: nat): real
    decreases n
  {
    if n == 0 then delay else Repeat(Settle(delay, target), target, n - 1)
  }

  /** A delay is left alone exactly when it is within half a millisecond of the target. */
  lemma SettledIff(delay: real, target: real)
    ensures Settle(delay, target) == delay <==> AbsReal(delay - target) < 0.5
  {
  }

  lemma {:induction false} SettledStays(delay: real, target: real, n: nat)
    requires AbsReal(delay - target) < 0.5
    ensures Repeat(delay, target, n) == delay
    decreases n
  {
    if n > 0 {
      SettledStays(delay, target, n - 1);
    }
  }

  /**
   From above, the delay falls without ever passing the target, and is within
   half a millisecond of it after half the distance in steps, rounded up.
   */
  lemma {:induction false} FallsToTarget(delay: real, target: real, n: nat)
    requires delay >= target
    ensures target <= Repeat(delay, target, n) <= delay
    ensures 2.0 * n as real >= delay - target ==> Repeat(delay, target, n) < target + 0.5
    decreases n
  {
    if n > 0 {
      FallsToTarget(Settle(delay, target), target, n - 1);
      if delay - target < 0.5 {
        SettledStays(delay, target, n);
      }
    }
  }

  /** From below, one step reaches the target, unless the delay is within half a millisecond already. */
  lemma RisesAtOnce(delay: real, target: real, n: nat)
    requires delay < target && n > 0
    ensures Repeat(delay, target, n) == if target - delay < 0.5 then delay else target
  {
    SettledStays(Settle(delay, target), target, n - 1);
  }

  // ---- The equalizer as a value ----------------------------------------------

  datatype Equalizer = Equalizer(reports: map<ClientId, real>, globalDelay: real, headroom: real)

  ghost function Recalculated(e: Equalizer): Equalizer {
    if e.reports == map[] then e else e.(globalDelay := Settle(e.globalDelay, Target(e.reports, e.headroom)))
  }

  /** Whether a report is new or differs enough from the client's last one. */
  predicate Significant(e: Equalizer, id: ClientId, p95Ms: real) {
    id in e.reports ==> AbsReal(p95Ms - e.reports[id]) >= REBROADCAST_THRESHOLD_MS
  }

  ghost function Reported(e: Equalizer, id: ClientId, p95Ms: real): Equalizer {
    var e' := e.(reports := e.reports[id := p95Ms]);
    if Significant(e, id, p95Ms) then Recalculated(e') else e'
  }

  ghost function Removed(e: Equalizer, id: ClientId): Equalizer {
    Recalculated(e.(reports := e.reports - {id}))
  }

  ghost function WithHeadroom(e: Equalizer, ms: real): Equalizer {
    Recalculated(e.(headroom := ms))
  }

  /** The threshold from both sides: 10 ms of change raise the delay from 30 to 40 ms, a tenth less leaves it alone. */
  lemma TenMillisecondsCount()
    ensures var e := Equalizer(map["a" := 10.0], 30.0, 20.0);
            && Reported(e, "a", 20.0).globalDelay == 40.0
            && Reported(e, "a", 19.9).globalDelay == 30.0
            && Reported(e, "a", 0.1).globalDelay == 30.0
            && Reported(e, "a", 0.0).globalDelay == 28.0
  {
    var e := Equalizer(map["a" := 10.0], 30.0, 20.0);
    var high, low := map["a" := 20.0], map["a" := 0.0];
    assert e.reports["a" := 20.0] == high && e.reports["a" := 0.0] == low;
    assert "a" in high && "a" in low && MaxP95(high) == 20.0 && MaxP95(low) == 0.0;
  }

  /** A report replaces the client's last one, and no other. */
  lemma ReportIsStored(e: Equalizer, id: ClientId, p95Ms: real)
    ensures var e' := Reported(e, id, p95Ms);
            && id in e'.reports && e'.reports[id] == p95Ms && e'.headroom == e.headroom
            && forall other :: other != id ==>
                 (other in e'.reports <==> other in e.reports)
                 && (other in e.reports ==> e'.reports[other] == e.reports[other])
  {
  }

  /** A client that left has no report, and the others keep theirs. */
  lemma RemovedIsGone(e: Equalizer, id: ClientId)
    ensures var e' := Removed(e, id);
            && id !in e'.reports && e'.headroom == e.headroom
            && forall other :: other != id ==>
                 (other in e'.reports <==> other in e.reports)
                 && (other in e.reports ==> e'.reports[other] == e.reports[other])
  {
  }

  /** The headroom is what was set, the reports are left alone, and the delay covers each of them with the headroom. */
  lemma HeadroomIsSet(e: Equalizer, ms: real)
    requires InRange(e.globalDelay)
    ensures var e' := WithHeadroom(e, ms);
            && e'.headroom == ms && e'.reports == e.reports
            && forall id :: id in e.reports ==> e'.globalDelay > Clamp(e.reports[id] + ms) - 0.5
  {
    RecalculationIsSafe(e.(headroom := ms));
  }

  predicate InRange(ms: real) {
    MIN_GLOBAL_DELAY_MS <= ms <= MAX_GLOBAL_DELAY_MS
  }

  /** A recalculation keeps the delay in range, lowers it by at most 2 ms, and ends above target minus 0.5 ms. */
  lemma RecalculationIsSafe(e: Equalizer)
    requires InRange(e.globalDelay)
    ensures var e' := Recalculated(e);
            && InRange(e'.globalDelay) && e'.globalDelay >= e.globalDelay - 2.0
            && (e.reports != map[] ==> e'.globalDelay > Target(e.reports, e.headroom) - 0.5)
  {
  }

  function Sum(steps: seq<real>): real
    decreases |steps|
  {
    if steps == [] then 0.0 else Sum(steps[..|steps| - 1]) + steps[|steps| - 1]
  }

  /** One client reports again and again, each time by a step more than before. */
  ghost function Creep(e: Equalizer, id: ClientId, steps: seq<real>): (e': Equalizer)
    requires id in e.reports
    ensures id in e'.reports
    decreases |steps|
  {
    if steps == [] then e
    else
      var e' := Creep(e, id, steps[..|steps| - 1]);
      Reported(e', id, e'.reports[id] + steps[|steps| - 1])
  }

  /**
   Reports that change by less than the threshold each time are stored but
   never acted on, so their sum is unbounded while the delay stays put.
   */
  lemma {:induction false} CreepGoesUnnoticed(e: Equalizer, id: ClientId, steps: seq<real>)
    requires id in e.reports
    requires forall i :: 0 <= i < |steps| ==> AbsReal(steps[i]) < REBROADCAST_THRESHOLD_MS
    ensures Creep(e, id, steps) == e.(reports := e.reports[id := e.reports[id] + Sum(steps)])
    decreases |steps|
  {
    if steps == [] {
      assert e.reports[id := e.reports[id]] == e.reports;
    } else {
      CreepGoesUnnoticed(e, id, steps[..|steps| - 1]);
    }
  }

  /** So the delay need not cover the current reports: after two of them it can be 9 ms short. */
  lemma DelayMayLagBehindReports()
    ensures var e := Reported(Reported(Equalizer(map[], 20.0, 20.0), "a", 10.0), "a", 19.0);
            e.globalDelay == 30.0 && Target(e.reports, e.headroom) == 39.0
  {
    var first := map["a" := 10.0];
    var second := first["a" := 19.0];
    assert map[]["a" := 10.0] == first;
    assert "a" in first && "a" in second;
    assert MaxP95(first) == 10.0 && MaxP95(second) == 19.0;
  }

  /** The delay exceeds the target of the current reports minus half a millisecond. */
  ghost predicate Covers(e: Equalizer) {
    e.reports != map[] ==> e.globalDelay > Target(e.reports, e.headroom) - 0.5
  }

  /**
   When a report leaves the delay covering the reports: exactly when it is acted
   on, or small enough by itself. The other clients' reports do not matter.
   */
  lemma ReportIsCoveredIff(e: Equalizer, id: ClientId, p95Ms: real)
    requires InRange(e.globalDelay) && Covers(e)
    ensures Covers(Reported(e, id, p95Ms)) <==>
              Significant(e, id, p95Ms) ||
              e.globalDelay > Clamp((if p95Ms < 0.0 then 0.0 else p95Ms) + e.headroom) - 0.5
  {
    if Significant(e, id, p95Ms) {
      RecalculationIsSafe(e.(reports := e.reports[id := p95Ms]));
    } else {
      OneReportChanges(e.reports, id, p95Ms);
    }
  }

  /** Replacing one report: the largest one is the new one, or no larger than before. */
  lemma OneReportChanges(reports: map<ClientId, real>, id: ClientId, p95Ms: real)
    ensures var after := MaxP95(reports[id := p95Ms]);
            p95Ms <= after && 0.0 <= after && (after == p95Ms || after <= MaxP95(reports))
  {
    var after, changed := MaxP95(reports[id := p95Ms]), reports[id := p95Ms];
    assert changed[id] == p95Ms;
    if after != 0.0 {
      var k :| k in changed && changed[k] == after;
      assert k == id || k in reports;
    }
  }

  // ---- The equalizer as the server runs it ------------------------------------

  datatype FrameSize = FrameSize(id: ClientId, frameMs: int)

  class LatencyEqualizer {
    var reports: map<ClientId, real>
    var globalDelay: real
    var headroom: real

    /** The values handed to broadcaster goroutines, in the order they were spawned. */
    var spawned: seq<real>

    /** The frame-size changes asked for. */
    var frameSizes: seq<FrameSize>

    function View(): Equalizer
      reads this
    {
      Equalizer(reports, globalDelay, headroom)
    }

    /** A changed delay, and only that, is broadcast. */
    twostate predicate Announces()
      reads this
    {
      spawned == old(spawned) + if globalDelay != old(globalDelay) then [globalDelay] else []
    }

    constructor ()
      ensures View() == Equalizer(map[], MIN_GLOBAL_DELAY_MS, DEFAULT_HEADROOM_MS)
      ensures spawned == [] && frameSizes == []
    {
      reports := map[];
      globalDelay, headroom := MIN_GLOBAL_DELAY_MS, DEFAULT_HEADROOM_MS;
      spawned, frameSizes := [], [];
    }

    method ReportJitter(clientID: ClientId, p95Ms: real)
      modifies this
      ensures View() == Reported(old(View()), clientID, p95Ms) && Announces()
      ensures frameSizes == old(frameSizes) +
                if !Significant(old(View()), clientID, p95Ms) then []
                else if p95Ms > 30.0 then [FrameSize(clientID, 40)]
                else if clientID in old(reports) && old(reports)[clientID] > 30.0 then [FrameSize(clientID, 10)]
                else []
    {
      var exists' := clientID in reports;
      var previous := if exists' then reports[clientID] else 0.0;
      reports := reports[clientID := p95Ms];
      if exists' && AbsReal(p95Ms - previous) < REBROADCAST_THRESHOLD_MS {
        return;
      }
      Recalculate();
      if p95Ms > IOS_BG_JITTER_THRESHOLD_MS {
        frameSizes := frameSizes + [FrameSize(clientID, IOS_BG_FRAME_MS)];
      } else if exists' && previous > IOS_BG_JITTER_THRESHOLD_MS && p95Ms <= IOS_BG_JITTER_THRESHOLD_MS {
        frameSizes := frameSizes + [FrameSize(clientID, NORMAL_FRAME_MS)];
      }
    }

    method Recalculate()
      modifies this`globalDelay, this`spawned
      ensures View() == Recalculated(old(View())) && Announces()
    {
      if reports == map[] {
        return;
      }
      var maxP95 := LargestReport();
      var newDelay := maxP95 + headroom;
      if newDelay < MIN_GLOBAL_DELAY_MS {
        newDelay := MIN_GLOBAL_DELAY_MS;
      }
      if newDelay > MAX_GLOBAL_DELAY_MS {
        newDelay := MAX_GLOBAL_DELAY_MS;
      }
      if newDelay < globalDelay {
        if globalDelay - newDelay > 2.0 {
          newDelay := globalDelay - 2.0;
        }
      }
      if AbsReal(newDelay - globalDelay) < 0.5 {
        return;
      }
      globalDelay := newDelay;
      spawned := spawned + [newDelay];
    }

    /** The loop over the reports, in whatever order the map yields them. */
    method LargestReport() returns (maxP95: real)
      ensures maxP95 == MaxP95(reports)
    {
      maxP95 := 0.0;
      var unseen := reports.Keys;
      while unseen != {}
        invariant unseen <= reports.Keys && maxP95 >= 0.0
        invariant forall id :: id in reports && id !in unseen ==> reports[id] <= maxP95
        invariant maxP95 == 0.0 || exists id :: id in reports && reports[id] == maxP95
        decreases unseen
      {
        var id :| id in unseen;
        unseen := unseen - {id};
        if reports[id] > maxP95 {
          maxP95 := reports[id];
        }
      }
    }

    method RemoveClient(clientID: ClientId)
      modifies this
      ensures View() == Removed(old(View()), clientID) && Announces() && frameSizes == old(frameSizes)
    {
      reports := reports - {clientID};
      Recalculate();
    }

    method SetHeadroom(ms: real)
      modifies this
      ensures View() == WithHeadroom(old(View()), ms) && Announces() && frameSizes == old(frameSizes)
    {
      headroom := ms;
      Recalculate();
    }
  }

  // ---- Every run of the server and its clients --------------------------------

  const DEFAULT_CLIENT_DELAY_US := 30_000

  function Micros(delayMs: real): int {
    Truncate(delayMs * 1000.0)
  }

  /**
   `said` are the values ever handed to a broadcaster or read for a joining
   client. Goroutines are unordered and messages can be dropped, so any of them
   can reach any client at any later time, any number of times or never.
   `basis` is the equalizer at its last recalculation over some report.
   */
  datatype Swarm = Swarm(
    server: Equalizer, held: set<real>, said: set<real>, clients: map<ClientId, int>, basis: Option<Equalizer>)

  datatype Move =
    | Report(id: ClientId, p95Ms: real)
    | Remove(id: ClientId)
    | Headroom(ms: real)
    | Join(id: ClientId)
    | ReadForJoin
    | Deliver(id: ClientId, delayMs: real)

  function Empty(): Swarm {
    var e := Equalizer(map[], MIN_GLOBAL_DELAY_MS, DEFAULT_HEADROOM_MS);
    Swarm(e, {e.globalDelay}, {}, map[], None)
  }

  ghost function Serve(s: Swarm, e: Equalizer, recalculated: bool): Swarm {
    s.(server := e, held := s.held + {e.globalDelay},
       said := if e.globalDelay != s.server.globalDelay then s.said + {e.globalDelay} else s.said,
       basis := if recalculated && e.reports != map[] then Some(e) else s.basis)
  }

  ghost function Play(s: Swarm, m: Move): Swarm {
    match m
    case Report(id, p95Ms) => Serve(s, Reported(s.server, id, p95Ms), Significant(s.server, id, p95Ms))
    case Remove(id) => Serve(s, Removed(s.server, id), true)
    case Headroom(ms) => Serve(s, WithHeadroom(s.server, ms), true)
    case Join(id) => s.(clients := s.clients[id := DEFAULT_CLIENT_DELAY_US])
    case ReadForJoin => s.(said := s.said + {s.server.globalDelay})
    case Deliver(id, delayMs) =>
      if id in s.clients && delayMs in s.said then s.(clients := s.clients[id := Micros(delayMs)]) else s
  }

  ghost function Plays(moves: seq<Move>): Swarm
    decreases |moves|
  {
    if moves == [] then Empty() else Play(Plays(moves[..|moves| - 1]), moves[|moves| - 1])
  }

  ghost predicate Safe(s: Swarm) {
    && s.server.globalDelay in s.held
    && (forall ms :: ms in s.held ==> InRange(ms))
    && s.said <= s.held
    && (forall id :: id in s.clients ==>
          s.clients[id] == DEFAULT_CLIENT_DELAY_US || exists ms :: ms in s.held && s.clients[id] == Micros(ms))
    && (s.basis.Some? ==> s.server.globalDelay == s.basis.value.globalDelay
                          && s.server.globalDelay > Target(s.basis.value.reports, s.basis.value.headroom) - 0.5)
  }

  /**
   Over any run of reports, removals and headroom changes, with broadcasts
   reordered or dropped at will: the delay stays in [20, 500], exceeds the
   target of the reports at the last recalculation minus half a millisecond,
   and every client holds the 30 ms default or a value the server once held.
   */
  lemma {:induction false} EveryRunIsSafe(moves: seq<Move>)
    ensures Safe(Plays(moves))
    decreases |moves|
  {
    if moves != [] {
      EveryRunIsSafe(moves[..|moves| - 1]);
      StepIsSafe(Plays(moves[..|moves| - 1]), moves[|moves| - 1]);
    }
  }

  lemma StepIsSafe(s: Swarm, m: Move)
    requires Safe(s)
    ensures Safe(Play(s, m)) && Play(s, m).server.globalDelay >= s.server.globalDelay - 2.0
  {
    match m {
      case Report(id, p95Ms) => RecalculationIsSafe(s.server.(reports := s.server.reports[id := p95Ms]));
      case Remove(id) => RecalculationIsSafe(s.server.(reports := s.server.reports - {id}));
      case Headroom(ms) => RecalculationIsSafe(s.server.(headroom := ms));
      case _ =>
    }
  }

  /** Every delay a client ever applies lies between 20 and 500 ms. */
  lemma ClientDelaysInRange(moves: seq<Move>, id: ClientId)
    requires id in Plays(moves).clients
    ensures 20_000 <= Plays(moves).clients[id] <= 500_000
  {
    EveryRunIsSafe(moves);
  }

  // ---- Convergence over runs ------------------------------------------------------

  lemma PlaysOneMore(before: seq<Move>, more: seq<Move>)
    requires more != []
    ensures Plays(before + more) == Play(Plays(before + more[..|more| - 1]), more[|more| - 1])
  {
    PlaysUnfolds(before + more);
    FrontOfJoin(before, more);
  }

  lemma PlaysUnfolds(moves: seq<Move>)
    requires moves != []
    ensures Plays(moves) == Play(Plays(moves[..|moves| - 1]), moves[|moves| - 1])
  {
  }

  /** Reports and headroom stay what they are after `before`. */
  ghost predicate SettingsStay(before: seq<Move>, more: seq<Move>)
    decreases |more|
  {
    more == [] ||
    (SettingsStay(before, more[..|more| - 1]) &&
     var e, now := Plays(before).server, Plays(before + more).server;
     now.reports == e.reports && now.headroom == e.headroom)
  }

  /** How often a run with fixed settings recalculates: at each removal and each setting of the headroom. */
  function Recalculations(more: seq<Move>): nat
    decreases |more|
  {
    if more == [] then 0
    else
      var m := more[|more| - 1];
      Recalculations(more[..|more| - 1]) + if m.Remove? || m.Headroom? then 1 else 0
  }

  lemma {:induction false} RepeatSnoc(delay: real, target: real, n: nat)
    ensures Repeat(delay, target, n + 1) == Settle(Repeat(delay, target, n), target)
    decreases n
  {
    if n > 0 {
      RepeatSnoc(Settle(delay, target), target, n - 1);
    }
  }

  /** One move that leaves reports and headroom alone: a step towards their target, or none. */
  lemma MoveSettles(s: Swarm, m: Move)
    requires s.server.reports != map[]
    requires Play(s, m).server.reports == s.server.reports && Play(s, m).server.headroom == s.server.headroom
    ensures var target := Target(s.server.reports, s.server.headroom);
            Play(s, m).server.globalDelay
            == if m.Remove? || m.Headroom? then Settle(s.server.globalDelay, target) else s.server.globalDelay
  {
    if m.Report? {
      assert s.server.reports[m.id := m.p95Ms][m.id] == m.p95Ms;
    }
  }

  /** With fixed settings the delay is that of repeated recalculation, in any run. */
  lemma {:induction false} FixedSettingsRepeat(before: seq<Move>, more: seq<Move>)
    requires SettingsStay(before, more) && Plays(before).server.reports != map[]
    ensures var e := Plays(before).server;
            Plays(before + more).server.globalDelay
            == Repeat(e.globalDelay, Target(e.reports, e.headroom), Recalculations(more))
    decreases |more|
  {
    var e := Plays(before).server;
    if more == [] {
      assert before + more == before;
    } else {
      var shorter := more[..|more| - 1];
      FixedSettingsRepeat(before, shorter);
      SettingsKept(before, shorter);
      PlaysOneMore(before, more);
      MoveSettles(Plays(before + shorter), more[|more| - 1]);
      RepeatSnoc(e.globalDelay, Target(e.reports, e.headroom), Recalculations(shorter));
    }
  }

  lemma SettingsKept(before: seq<Move>, more: seq<Move>)
    requires SettingsStay(before, more)
    ensures Plays(before + more).server.reports == Plays(before).server.reports
    ensures Plays(before + more).server.headroom == Plays(before).server.headroom
  {
    if more == [] {
      assert before + more == before;
    }
  }

  /**
   So the delay of a run with fixed settings converges as far as it recalculates:
   from above it is never below the target, and within half a millisecond after
   half the distance in recalculations; from below the first one is enough.
   */
  lemma RunsConverge(before: seq<Move>, more: seq<Move>)
    requires SettingsStay(before, more) && Plays(before).server.reports != map[]
    ensures var e, now := Plays(before).server, Plays(before + more).server.globalDelay;
            var target, n := Target(e.reports, e.headroom), Recalculations(more);
            && (e.globalDelay >= target ==> target <= now <= e.globalDelay)
            && (e.globalDelay >= target && 2.0 * n as real >= e.globalDelay - target ==> now < target + 0.5)
            && (e.globalDelay < target && n > 0 ==>
                  now == if target - e.globalDelay < 0.5 then e.globalDelay else target)
  {
    var e := Plays(before).server;
    var target, n := Target(e.reports, e.headroom), Recalculations(more);
    FixedSettingsRepeat(before, more);
    if e.globalDelay >= target {
      FallsToTarget(e.globalDelay, target, n);
    } else if n > 0 {
      RisesAtOnce(e.globalDelay, target, n);
    }
  }

  /** No move of the run recalculates: reports are small changes, and the rest concerns clients only. */
  ghost predicate Unnoticed(before: seq<Move>, more: seq<Move>)
    decreases |more|
  {
    more == [] ||
    (Unnoticed(before, more[..|more| - 1]) &&
     var m := more[|more| - 1];
     && !m.Remove? && !m.Headroom?
     && (m.Report? ==> !Significant(Plays(before + more[..|more| - 1]).server, m.id, m.p95Ms)))
  }

  /** Then the delay stands still, however far the reports have moved away from it, and however long it goes on. */
  lemma {:induction false} UnnoticedRunsStandStill(before: seq<Move>, more: seq<Move>)
    requires Unnoticed(before, more)
    ensures Plays(before + more).server.globalDelay == Plays(before).server.globalDelay
    decreases |more|
  {
    if more == [] {
      assert before + more == before;
    } else {
      UnnoticedRunsStandStill(before, more[..|more| - 1]);
      PlaysOneMore(before, more);
    }
  }

  /** A client that reports the same value `n` times. */
  function Periodic(id: ClientId, p95Ms: real, n: nat): seq<Move> {
    if n == 0 then [] else Periodic(id, p95Ms, n - 1) + [Report(id, p95Ms)]
  }

  lemma PeriodicEnds(id: ClientId, p95Ms: real, n: nat)
    requires n > 0
    ensures var more := Periodic(id, p95Ms, n);
            more != [] && more[..|more| - 1] == Periodic(id, p95Ms, n - 1) && more[|more| - 1] == Report(id, p95Ms)
  {
  }

  lemma {:induction false} EqualReportsKeepServer(before: seq<Move>, id: ClientId, p95Ms: real, n: nat)
    requires id in Plays(before).server.reports && Plays(before).server.reports[id] == p95Ms
    ensures Plays(before + Periodic(id, p95Ms, n)).server == Plays(before).server
  {
    if n == 0 {
      assert before + Periodic(id, p95Ms, 0) == before;
    } else {
      EqualReportsKeepServer(before, id, p95Ms, n - 1);
      PeriodicEnds(id, p95Ms, n);
      PlaysOneMore(before, Periodic(id, p95Ms, n));
      SameReport(Plays(before + Periodic(id, p95Ms, n - 1)), id, p95Ms);
    }
  }

  /** Equal reports recalculate nothing, so no delay ever comes down by reports alone. */
  lemma {:induction false} EqualReportsAreUnnoticed(before: seq<Move>, id: ClientId, p95Ms: real, n: nat)
    requires id in Plays(before).server.reports && Plays(before).server.reports[id] == p95Ms
    ensures Unnoticed(before, Periodic(id, p95Ms, n))
  {
    if n > 0 {
      EqualReportsAreUnnoticed(before, id, p95Ms, n - 1);
      EqualReportIsUnnoticed(before, id, p95Ms, n - 1);
    }
  }

  lemma EqualReportIsUnnoticed(before: seq<Move>, id: ClientId, p95Ms: real, n: nat)
    requires id in Plays(before).server.reports && Plays(before).server.reports[id] == p95Ms
    requires Unnoticed(before, Periodic(id, p95Ms, n))
    ensures Unnoticed(before, Periodic(id, p95Ms, n + 1))
  {
    var more := Periodic(id, p95Ms, n);
    EqualReportsKeepServer(before, id, p95Ms, n);
    assert !Significant(Plays(before).server, id, p95Ms);
    UnnoticedSnoc(before, more, Report(id, p95Ms));
  }

  lemma UnnoticedSnoc(before: seq<Move>, more: seq<Move>, m: Move)
    requires Unnoticed(before, more) && m.Report? && !Significant(Plays(before + more).server, m.id, m.p95Ms)
    ensures Unnoticed(before, more + [m])
  {
    var longer := more + [m];
    assert longer[..|longer| - 1] == more && longer[|longer| - 1] == m;
  }

  lemma SameReport(s: Swarm, id: ClientId, p95Ms: real)
    requires id in s.server.reports && s.server.reports[id] == p95Ms
    ensures !Significant(s.server, id, p95Ms) && Play(s, Report(id, p95Ms)).server == s.server
  {
    assert s.server.reports[id := p95Ms] == s.server.reports;
  }

  /** After one spike the delay comes down by 2 ms, once, and stays at 498 ms while the client reports zero for ever. */
  lemma SpikeStays(n: nat)
    ensures var spike := [Report("a", 480.0)] + [Report("a", 0.0)];
            var e := Plays(spike + Periodic("a", 0.0, n)).server;
            e.globalDelay == 498.0 && Target(e.reports, e.headroom) == 20.0
  {
    var spike := [Report("a", 480.0)] + [Report("a", 0.0)];
    AfterSpike();
    EqualReportsKeepServer(spike, "a", 0.0, n);
  }

  lemma AfterSpike()
    ensures var e := Plays([Report("a", 480.0)] + [Report("a", 0.0)]).server;
            e == Equalizer(map["a" := 0.0], 498.0, 20.0) && Target(e.reports, e.headroom) == 20.0
  {
    var high, low := map["a" := 480.0], map["a" := 0.0];
    assert map[]["a" := 480.0] == high && high["a" := 0.0] == low;
    assert "a" in high && "a" in low && MaxP95(high) == 480.0 && MaxP95(low) == 0.0;
    assert [] + [Report("a", 480.0)] == [Report("a", 480.0)];
    PlaysOneMore([], [Report("a", 480.0)]);
    assert Plays([Report("a", 480.0)]).server == Equalizer(high, 500.0, 20.0);
    PlaysOneMore([Report("a", 480.0)], [Report("a", 0.0)]);
    assert [Report("a", 480.0)] + [] == [Report("a", 480.0)];
  }

  // ---- Clients that left ------------------------------------------------------------

  /** The run contains no report of this client. */
  predicate NoReportOf(more: seq<Move>, id: ClientId) {
    forall k :: 0 <= k < |more| ==> !(more[k].Report? && more[k].id == id)
  }

  lemma MoveAddsNoReport(s: Swarm, m: Move, id: ClientId)
    requires id !in s.server.reports && !(m.Report? && m.id == id)
    ensures id !in Play(s, m).server.reports
  {
  }

  /** A client that left stays without a report until it reports again, so it does not hold the delay up. */
  lemma {:induction false} RemovedStaysGone(before: seq<Move>, id: ClientId, more: seq<Move>)
    requires NoReportOf(more, id)
    ensures id !in Plays(before + [Remove(id)] + more).server.reports
    decreases |more|
  {
    var left := before + [Remove(id)];
    if more == [] {
      assert left + more == left;
      PlaysOneMore(before, [Remove(id)]);
      assert before + [] == before;
    } else {
      RemovedStaysGone(before, id, more[..|more| - 1]);
      PlaysOneMore(left, more);
      MoveAddsNoReport(Plays(left + more[..|more| - 1]), more[|more| - 1], id);
    }
  }

  /** The input: after the louder of two clients leaves, the delay starts to fall at once. */
  lemma LouderClientLeaves()
    ensures var e := Removed(Equalizer(map["a" := 480.0, "b" := 0.0], 500.0, 20.0), "a");
            e.reports == map["b" := 0.0] && e.globalDelay == 498.0
  {
    var left := map["b" := 0.0];
    assert map["a" := 480.0, "b" := 0.0] - {"a"} == left;
    assert "b" in left && MaxP95(left) == 0.0;
  }

  // ---- What a move does -----------------------------------------------------------------

  /** Without reports a recalculation changes nothing. */
  lemma NoReportsNoChange(e: Equalizer)
    requires e.reports == map[]
    ensures Recalculated(e) == e
  {
  }

  /** A changed delay, and only that, is handed to a broadcaster; a joining client is told the current one. */
  lemma ChangesAreSaid(s: Swarm, m: Move)
    ensures var t := Play(s, m);
            && (t.server.globalDelay != s.server.globalDelay ==> t.said == s.said + {t.server.globalDelay})
            && (t.server.globalDelay == s.server.globalDelay && !m.ReadForJoin? ==> t.said == s.said)
            && (m.ReadForJoin? ==> t.said == s.said + {s.server.globalDelay} && t.server == s.server)
  {
  }

  /** A client starts at 30 ms, and a message that arrives sets its delay in microseconds; nothing else does. */
  lemma ClientsAreToldDelays(s: Swarm, m: Move, id: ClientId)
    ensures var t := Play(s, m);
            && (m == Join(id) ==> id in t.clients && t.clients[id] == 30_000)
            && (m.Deliver? && m.id == id && id in s.clients && m.delayMs in s.said ==>
                  id in t.clients && t.clients[id] == Truncate(m.delayMs * 1000.0))
            && (m != Join(id) && !(m.Deliver? && m.id == id) ==>
                  (id in t.clients <==> id in s.clients) && (id in s.clients ==> t.clients[id] == s.clients[id]))
  {
  }

  /** The basis is what the last recalculation over some report saw. */
  lemma BasisIsLast(s: Swarm, m: Move)
    ensures var t := Play(s, m);
            var recalculates := m.Remove? || m.Headroom? || (m.Report? && Significant(s.server, m.id, m.p95Ms));
            t.basis == if recalculates && t.server.reports != map[] then Some(t.server) else s.basis
  {
  }

  /** Reports, removals and headroom changes reach the equalizer, each for its own client; nothing else does. */
  lemma MovesReachTheServer(s: Swarm, m: Move, id: ClientId)
    ensures var e, t := s.server, Play(s, m).server;
            && t.headroom == (if m.Headroom? then m.ms else e.headroom)
            && (id in t.reports <==> (m.Report? && m.id == id) || (id in e.reports && !(m.Remove? && m.id == id)))
            && (id in t.reports ==> t.reports[id] == if m.Report? && m.id == id then m.p95Ms else e.reports[id])
            && (!m.Report? && !m.Remove? && !m.Headroom? ==> t == e)
  {
  }
}
