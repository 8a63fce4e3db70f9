/** The drain stops in every run exactly when the timings are paced, and validated configuration
    always is. */
module DrainCondition {
  import opened DisplayTypes
  import opened DisplaySpec
  import opened EngineSpec
  import opened TimerDrain
  import opened EngineRuns
  import opened EngineRefines

  /** The engine after at most `i` entries have fired. */
  function Fired(e: Engine, limit: Instant, clock: nat -> Instant, n: nat, i: nat, gate: Gate): Engine
    decreases i
  {
    if i == 0 || !Due(e.timers, limit) then e
    else Fired(FireAt(e, Next(e.timers), clock(n), gate), limit, clock, n + 1, i - 1, gate)
  }

  ghost predicate Stops(e: Engine, limit: Instant, clock: nat -> Instant, gate: Gate) {
    exists i: nat :: !Due(Fired(e, limit, clock, 0, i, gate).timers, limit)
  }

  lemma {:induction false} PacedStops(e: Engine, limit: Instant, clock: nat -> Instant, n: nat, gate: Gate)
      returns (i: nat)
    requires AllPaced(e)
    ensures !Due(Fired(e, limit, clock, n, i, gate).timers, limit)
    decreases OneOffs(e.timers), Unsettled(e, gate), Paused(e), Load(e.timers, limit)
  {
    hide FireAt, AllPaced, OneOffs, Unsettled, Paused, Load;
    i := 0;
    if Due(e.timers, limit) {
      var k := Next(e.timers);
      FireShrinks(e, k, clock(n), gate, limit);
      var j := PacedStops(FireAt(e, k, clock(n), gate), limit, clock, n + 1, gate);
      i := j + 1;
    }
  }

  /** A lone tick due now on a settled, owned, unpaused display. */
  predicate Spinning(e: Engine, d: DisplayId, limit: Instant, gate: Gate) {
    && d in e.machines && d in e.lastOwned && e.lastOwned[d] == gate(d)
    && e.timers == [Timer(limit, DisplayTick(d))]
    && e.machines[d].overlays == Overlays(false, None)
  }

  predicate RetriesAtOnce(m: Machine) { m.phase.Waking? && m.cfg.timings.wakeRetryInterval == 0 }

  /** Grace that ends, finds no ladder, and starts again without delay. */
  predicate RegracesAtOnce(m: Machine, limit: Instant) {
    && m.phase == Grace(limit) && m.graceFrozen.None? && m.owned && m.zone == Some(false) && !m.inputWakeHold
    && m.cfg.timings.gracePeriod == 0 && m.cfg.ladder == []
    && m.cmds.lastWake.None? && HoldoffOver(m.cfg, limit)
  }

  predicate HoldoffOver(c: Config, now: Instant) { Since(now, c.startedAt) >= c.timings.startupHoldoff }

  lemma RetrySpins(m: Machine, now: Instant)
    requires RetriesAtOnce(m) && m.overlays == Overlays(false, None)
    ensures var o := Step(m, Tick, now);
            RetriesAtOnce(o.m) && o.m.overlays == m.overlays && o.m.cfg == m.cfg &&
            |o.fx| == 3 && o.fx[0].LogTransition? && o.fx[1].IssueWake? && o.fx[2] == ScheduleTickAt(now)
  {
  }

  lemma RegraceSpins(m: Machine, now: Instant)
    requires RegracesAtOnce(m, now) && m.overlays == Overlays(false, None)
    ensures var o := Step(m, Tick, now);
            RegracesAtOnce(o.m, now) && o.m.overlays == m.overlays && o.m.cfg == m.cfg &&
            |o.fx| == 3 && o.fx[0].LogTransition? && o.fx[1].LogTransition? && o.fx[2] == ScheduleTickAt(now)
  {
  }

  lemma LastScheduled(d: DisplayId, fx: seq<Effect>, at: Instant)
    requires |fx| == 3 && fx[2] == ScheduleTickAt(at)
    requires fx[0].LogTransition? && (fx[1].LogTransition? || fx[1].IssueWake?)
    ensures Scheduled(d, fx) == [Timer(at, DisplayTick(d))]
  {
    var b, c := fx[1..], fx[2..];
    assert b[1..] == c && c[1..] == [];
    assert Scheduled(d, c) == [Timer(at, DisplayTick(d))] + Scheduled(d, c[1..]);
    assert Scheduled(d, b) == Scheduled(d, c);
  }

  lemma SpinStep(e: Engine, d: DisplayId, limit: Instant, wall: Instant, gate: Gate)
    requires Spinning(e, d, limit, gate) && (RetriesAtOnce(e.machines[d]) || RegracesAtOnce(e.machines[d], limit))
    ensures Due(e.timers, limit)
    ensures var f := FireAt(e, Next(e.timers), wall, gate);
            Spinning(f, d, limit, gate) && (RetriesAtOnce(f.machines[d]) || RegracesAtOnce(f.machines[d], limit))
  {
    hide Step, RetriesAtOnce, RegracesAtOnce, Scheduled;
    var m := e.machines[d];
    if RetriesAtOnce(m) {
      RetrySpins(m, limit);
    } else {
      RegraceSpins(m, limit);
    }
    LastScheduled(d, Step(m, Tick, limit).fx, limit);
    assert Next(e.timers) == 0 && Without(e.timers, 0) == [];
  }

  lemma {:induction false} SpinsForever(e: Engine, d: DisplayId, limit: Instant, clock: nat -> Instant, n: nat, i: nat,
                                        gate: Gate)
    requires Spinning(e, d, limit, gate) && (RetriesAtOnce(e.machines[d]) || RegracesAtOnce(e.machines[d], limit))
    ensures Due(Fired(e, limit, clock, n, i, gate).timers, limit)
    decreases i
  {
    hide FireAt, Spinning, RetriesAtOnce, RegracesAtOnce;
    SpinStep(e, d, limit, clock(n), gate);
    if i > 0 {
      SpinsForever(FireAt(e, Next(e.timers), clock(n), gate), d, limit, clock, n + 1, i - 1, gate);
    }
  }

  predicate Spins(m: Machine, limit: Instant) { RetriesAtOnce(m) || RegracesAtOnce(m, limit) }

  // ── Runs into the spin ──────────────────────────────────────────────────

  /** What a display looks like in an engine about to be driven into the spin. */
  predicate Poised(e: Engine, d: DisplayId, c: Config) {
    && d in e.machines && d in e.lastOwned && e.lastOwned[d] && e.machines[d].owned
    && e.machines[d].cfg == c && e.machines[d].overlays == Overlays(false, None)
    && !e.machines[d].inputWakeHold && !e.machines[d].pendingWake && e.machines[d].cmds.lastWake.None?
    && e.timers == []
  }

  function Always(): Gate { (d: DisplayId) => true }

  lemma FedQuietly(e: Engine, d: DisplayId, input: Input, now: Instant)
    requires d in e.lastOwned && e.lastOwned[d]
    ensures StepOne(e, d, input, now, Always()) == StepMachine(e, d, input, now)
  {
    hide StepMachine;
  }

  lemma NewPoised(cfg: EngineConfig, displays: Panels, zones: Zones, t0: Instant, d: DisplayId)
    requires d in displays
    ensures var e := NewEngine(cfg, displays, zones, t0, Always());
            && Poised(e, d, New(displays[d].0, displays[d].1, t0).cfg) && e.machines[d].phase.Active?
            && e.machines[d].stage.current.None? && e.cfg == cfg && e.zones == zones &&
                 e.holds.Keys == cfg.holdTimes.Keys
            && e.machines[d].cmds.gen == 0 && e.machines[d].graceFrozen.None?
  {
    hide Step;
    FirstFeedSilent(displays[d].0, displays[d].1, t0, true);
  }

  /** ForceBlank, its success, ForceWake: Waking, with the retry due at once. */
  function RetryRun(d: DisplayId, t0: Instant): seq<Moment> {
    [Moment(Control(d, ForceBlank), t0, Always()), Moment(Answer(d, BlankResult(1, true)), t0, Always()),
     Moment(Control(d, ForceWake), t0, Always())]
  }

  lemma StepForced(e: Engine, d: DisplayId, c: Config, now: Instant)
    requires Poised(e, d, c) && e.machines[d].phase.Active?
    ensures var f := StepMachine(e, d, ForceBlank, now);
            && Poised(f, d, c) && f.machines[d].phase.Blanking? && f.machines[d].cmds.gen == e.machines[d].cmds.gen + 1
            && f.machines[d].cmds.lastBlankGen == Some(f.machines[d].cmds.gen)
            && f.machines[d].stage.current == e.machines[d].stage.current
  {
    hide StepGrace, StepBlanking, StepBlanked, StepWaking, StepRenderPending, StepStaged;
    NothingScheduled(d, Step(e.machines[d], ForceBlank, now).fx);
  }

  lemma StepDarkened(e: Engine, d: DisplayId, c: Config, now: Instant)
    requires Poised(e, d, c) && e.machines[d].phase.Blanking? &&
             e.machines[d].cmds.lastBlankGen == Some(e.machines[d].cmds.gen)
    requires e.machines[d].stage.current.None?
    ensures var f := StepMachine(e, d, BlankResult(e.machines[d].cmds.gen, true), now);
            Poised(f, d, c) && f.machines[d].phase.Blanked?
  {
    hide StepActive, StepGrace, StepBlanked, StepWaking, StepRenderPending, StepStaged, EnterActive, EnterGrace;
    NothingScheduled(d, Step(e.machines[d], BlankResult(e.machines[d].cmds.gen, true), now).fx);
  }

  lemma StepWoken(e: Engine, d: DisplayId, c: Config, now: Instant)
    requires Poised(e, d, c) && e.machines[d].phase.Blanked? && c.timings.wakeRetryInterval == 0
    ensures var f := StepMachine(e, d, ForceWake, now); Spinning(f, d, now, Always()) && RetriesAtOnce(f.machines[d])
  {
    hide StepActive, StepGrace, StepBlanking, StepWaking, StepRenderPending, StepStaged;
    LastScheduled(d, Step(e.machines[d], ForceWake, now).fx, now);
  }

  lemma RunOf3(w: Watched, run: seq<Moment>)
    requires |run| == 3
    ensures After(w, run, 1) == Play(w, run[0])
    ensures After(w, run, 2) == Play(After(w, run, 1), run[1])
    ensures After(w, run, 3) == Play(After(w, run, 2), run[2])
  {
    hide Play;
  }

  lemma RetryReached(cfg: EngineConfig, displays: Panels, zones: Zones, t0: Instant, d: DisplayId)
    requires d in displays && displays[d].0.wakeRetryInterval == 0
    ensures var w := Fresh(cfg, displays, zones, t0, Always());
            var run := RetryRun(d, t0);
            var e := After(w, run, |run|).e;
            AllowedRun(w, run) && Spinning(e, d, t0, Always()) && Spins(e.machines[d], t0)
  {
    hide Step, New, NewEngine, StepMachine, StepOne, RetriesAtOnce;
    var w := Fresh(cfg, displays, zones, t0, Always());
    var run := RetryRun(d, t0);
    var c := New(displays[d].0, displays[d].1, t0).cfg;
    ConfigOfNew(displays[d].0, displays[d].1, t0);
    NewPoised(cfg, displays, zones, t0, d);
    RunOf3(w, run);
    FedQuietly(w.e, d, ForceBlank, t0);
    StepForced(w.e, d, c, t0);
    var w1 := After(w, run, 1);
    StepDarkened(w1.e, d, c, t0);
    var w2 := After(w, run, 2);
    FedQuietly(w2.e, d, ForceWake, t0);
    StepWoken(w2.e, d, c, t0);
  }

  lemma ConfigOfNew(timings: Timings, ladder: seq<LadderStage>, t0: Instant)
    ensures var c := New(timings, ladder, t0).cfg; c.timings == timings && c.ladder == ladder && c.startedAt == t0
  {
  }

  /** One rule on one zone, which any report leaves vacant. */
  function VacantConfig(d: DisplayId): EngineConfig {
    EngineConfig([Rule(0, [d], 0)], map[],
                 (z: Zones, s: Sensor, state: SensorState) => (Zones(z.sensors, map[0 := false]), [0]))
  }

  /** The zone clears once the startup holdoff is over. */
  function ClearRun(holdoff: Duration, t0: Instant): seq<Moment> {
    [Moment(Report(0, Absent), t0 + holdoff, Always())]
  }

  lemma ZoneCleared(e: Engine, d: DisplayId, wall: Instant)
    requires e.cfg == VacantConfig(d) && e.holds == map[] && d in e.lastOwned && e.lastOwned[d]
    ensures var z := e.(zones := Zones(e.zones.sensors, map[0 := false]),
                        delivered := e.delivered + [Delivery(0, Absent, wall)]);
            HandlePresence(e, 0, Absent, wall, Always()) == StepMachine(z, d, ZonePresent(false), wall)
  {
    hide StepMachine;
    var z := e.(zones := Zones(e.zones.sensors, map[0 := false]),
                delivered := e.delivered + [Delivery(0, Absent, wall)]);
    assert e.cfg.rules[..0] == [];
    assert Targets(e.cfg.rules, 0) == [d];
    assert !EffectivePresence(z, d);
    assert Fan(z, [d], wall, Always()) == FanOne(z, d, wall, Always());
    assert FanZones(z, [0], wall, Always()) == Fan(z, [d], wall, Always());
    FedQuietly(z, d, ZonePresent(false), wall);
  }

  lemma StepCleared(e: Engine, d: DisplayId, c: Config, now: Instant)
    requires Poised(e, d, c) && e.machines[d].phase.Active? && HoldoffOver(c, now)
    requires c.ladder == [] && c.timings.gracePeriod == 0
    ensures var f := StepMachine(e, d, ZonePresent(false), now);
            Spinning(f, d, now, Always()) && RegracesAtOnce(f.machines[d], now)
  {
    hide StepGrace, StepBlanking, StepBlanked, StepWaking, StepRenderPending, StepStaged;
    var fx := Step(e.machines[d], ZonePresent(false), now).fx;
    assert |fx| == 2 && fx[1] == ScheduleTickAt(now);
    assert fx[1..][1..] == [];
    assert Scheduled(d, fx[1..]) == [Timer(now, DisplayTick(d))];
  }

  lemma ClearReached(displays: Panels, zones: Zones, t0: Instant, d: DisplayId)
    requires d in displays && displays[d].1 == [] && displays[d].0.gracePeriod == 0
    ensures var w := Fresh(VacantConfig(d), displays, zones, t0, Always());
            var run := ClearRun(displays[d].0.startupHoldoff, t0);
            var limit := t0 + displays[d].0.startupHoldoff;
            var e := After(w, run, |run|).e;
            AllowedRun(w, run) && Spinning(e, d, limit, Always()) && Spins(e.machines[d], limit)
  {
    hide Step, New, NewEngine, StepMachine, HandlePresence, RegracesAtOnce;
    var w := Fresh(VacantConfig(d), displays, zones, t0, Always());
    var run := ClearRun(displays[d].0.startupHoldoff, t0);
    var limit := t0 + displays[d].0.startupHoldoff;
    ConfigOfNew(displays[d].0, displays[d].1, t0);
    NewPoised(VacantConfig(d), displays, zones, t0, d);
    ZoneCleared(w.e, d, limit);
    var z := w.e.(zones := Zones(w.e.zones.sensors, map[0 := false]),
                  delivered := w.e.delivered + [Delivery(0, Absent, limit)]);
    StepCleared(z, d, New(displays[d].0, displays[d].1, t0).cfg, limit);
    assert After(w, run, 1) == Play(After(w, run, 0), run[0]);
  }

  // ── Exactly ─────────────────────────────────────────────────────────────

  /** After every run from `new`, under every wall clock and gate, draining stops. */
  ghost predicate AlwaysStops(displays: Panels, t0: Instant) {
    forall cfg: EngineConfig, zones: Zones, first: Gate, run: seq<Moment>, limit: Instant, clock: nat -> Instant,
      gate: Gate ::
      AllowedRun(Fresh(cfg, displays, zones, t0, first), run) ==>
        Stops(After(Fresh(cfg, displays, zones, t0, first), run, |run|).e, limit, clock, gate)
  }

  lemma PacedThroughout(cfg: EngineConfig, displays: Panels, zones: Zones, t0: Instant, first: Gate, run: seq<Moment>)
    requires forall d :: d in displays ==> PacedBy(displays[d].0, displays[d].1)
    ensures AllPaced(After(Fresh(cfg, displays, zones, t0, first), run, |run|).e)
  {
    hide Play, NewEngine, Leads, New, D.NewAgenda, After, TicksFor, StagesFor, SentTo, Unasked;
    var e := After(Fresh(cfg, displays, zones, t0, first), run, |run|).e;
    assert forall k :: 0 <= k < |run| ==> Unasked(run[k], Nothing) by { NothingAsked(); }
    forall d | d in e.machines ensures Paced(e.machines[d].cfg) {
      var ds := ToldRun(cfg, displays, zones, t0, first, run, |run|, d, Nothing);
      ConfigKept(displays[d].0, displays[d].1, t0, ds, BooksOf(e, None, d));
    }
  }

  lemma ConfigKept(timings: Timings, ladder: seq<LadderStage>, t0: Instant, ds: seq<D.Arrival>, b: Books)
    requires Leads(D.NewAgenda(timings, ladder, t0), ds, b, Nothing)
    ensures b.m.cfg.timings == timings && b.m.cfg.ladder == ladder
  {
    hide Leads, D.AgendaAt, D.AllDeliverable, Runs.At, Runs.Sturdy, New;
    LeadsDeliverably(D.NewAgenda(timings, ladder, t0), ds, b, Nothing);
    Runs.SturdyThroughout(timings, ladder, t0, D.Contents(ds), |ds|);
    ConfigOfNew(timings, ladder, t0);
  }

  lemma UnpacedSpins(displays: Panels, t0: Instant, d: DisplayId, clock: nat -> Instant)
      returns (cfg: EngineConfig, run: seq<Moment>, limit: Instant)
    requires d in displays && !PacedBy(displays[d].0, displays[d].1)
    ensures var w := Fresh(cfg, displays, Zones(map[], map[]), t0, Always());
            AllowedRun(w, run) && !Stops(After(w, run, |run|).e, limit, clock, Always())
  {
    hide Play, NewEngine, Spinning, Spins, RetryRun, ClearRun, Fired;
    cfg := VacantConfig(d);
    if displays[d].0.wakeRetryInterval == 0 {
      RetryReached(cfg, displays, Zones(map[], map[]), t0, d);
      run, limit := RetryRun(d, t0), t0;
    } else {
      ClearReached(displays, Zones(map[], map[]), t0, d);
      run, limit := ClearRun(displays[d].0.startupHoldoff, t0), t0 + displays[d].0.startupHoldoff;
    }
    NeverStops(After(Fresh(cfg, displays, Zones(map[], map[]), t0, Always()), run, |run|).e, d, limit, clock, Always());
  }

  lemma NeverStops(e: Engine, d: DisplayId, limit: Instant, clock: nat -> Instant, gate: Gate)
    requires Spinning(e, d, limit, gate) && Spins(e.machines[d], limit)
    ensures !Stops(e, limit, clock, gate)
  {
    hide Fired, Spinning, RetriesAtOnce, RegracesAtOnce;
    forall i: nat ensures Due(Fired(e, limit, clock, 0, i, gate).timers, limit) {
      SpinsForever(e, d, limit, clock, 0, i, gate);
    }
  }

  /** After every engine run from `new` draining stops, whatever is due, if and only if every
      display retries wakes after a positive interval and has a ladder or a positive grace period. */
  lemma StopsExactlyWhenPaced(displays: Panels, t0: Instant)
    ensures AlwaysStops(displays, t0) <==> forall d :: d in displays ==> PacedBy(displays[d].0, displays[d].1)
  {
    hide Fired, AllPaced, NewEngine, Play;
    if forall d :: d in displays ==> PacedBy(displays[d].0, displays[d].1) {
      forall cfg: EngineConfig, zones: Zones, first: Gate, run: seq<Moment>, limit: Instant, clock: nat -> Instant,
        gate: Gate
        | AllowedRun(Fresh(cfg, displays, zones, t0, first), run)
        ensures Stops(After(Fresh(cfg, displays, zones, t0, first), run, |run|).e, limit, clock, gate)
      {
        PacedThroughout(cfg, displays, zones, t0, first, run);
        var i := PacedStops(After(Fresh(cfg, displays, zones, t0, first), run, |run|).e, limit, clock, 0, gate);
      }
    } else {
      var d :| d in displays && !PacedBy(displays[d].0, displays[d].1);
      var clock := (n: nat) => t0;
      var cfg, run, limit := UnpacedSpins(displays, t0, d, clock);
    }
  }

  // ── Validated configuration ─────────────────────────────────────────────

  const SECOND: Duration := 1_000_000_000

  /** An empty ladder is desugared to one controller rung. */
  function NormalizedLadder(ladder: seq<LadderStage>, mode: Option<BlankMode>): (r: seq<LadderStage>)
    ensures r != [] && (ladder != [] ==> r == ladder)
  {
    if ladder != [] then ladder else [LadderStage(Controller(if mode.Some? then mode.value else PowerOff), None)]
  }

  /** Validation refuses a retry interval of less than a whole second. */
  predicate ValidTimings(timings: Timings) { timings.wakeRetryInterval / SECOND != 0 }

  ghost predicate Validated(timings: Timings, ladder: seq<LadderStage>) {
    ValidTimings(timings) && exists raw: seq<LadderStage>, mode: Option<BlankMode> ::
      ladder == NormalizedLadder(raw, mode)
  }

  /** Under validated configuration the drain stops after every run. */
  lemma ValidatedAlwaysStops(displays: Panels, t0: Instant)
    requires forall d :: d in displays ==> Validated(displays[d].0, displays[d].1)
    ensures AlwaysStops(displays, t0)
  {
    hide AlwaysStops, NormalizedLadder;
    StopsExactlyWhenPaced(displays, t0);
  }
}
