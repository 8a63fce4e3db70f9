/** Draining the timer wheel stops: a measure every fired entry shrinks, in whatever order
    due entries are popped, and the exact condition on the display timings it needs. */
module TimerDrain {
  import opened DisplayTypes
  import opened DisplaySpec
  import opened EngineSpec
  import opened EngineFrames
  import Runs = DisplayRuns

  /** Retries take time, and an empty ladder does not re-enter a grace period of zero. */
  predicate PacedBy(timings: Timings, ladder: seq<LadderStage>) {
    timings.wakeRetryInterval > 0 && (ladder != [] || timings.gracePeriod > 0)
  }

  predicate Paced(c: Config) { PacedBy(c.timings, c.ladder) }

  predicate AllPaced(e: Engine) { forall d :: d in e.machines ==> Paced(e.machines[d].cfg) }

  // ── The measure ─────────────────────────────────────────────────────────

  /** Entries that are consumed without replacement: everything but display ticks. */
  function OneOffs(ts: seq<Timer>): nat {
    if ts == [] then 0 else (if ts[0].entry.DisplayTick? then 0 else 1) + OneOffs(ts[1..])
  }

  /** How far the display ticks due by `limit` are from it. */
  function Load(ts: seq<Timer>, limit: Instant): nat {
    if ts == [] then 0
    else (if ts[0].entry.DisplayTick? && ts[0].at <= limit then limit - ts[0].at + 1 else 0) + Load(ts[1..], limit)
  }

  /** Displays whose next feed changes the ownership cache. */
  function Unsettled(e: Engine, gate: Gate): set<DisplayId> {
    set d | d in e.machines && !(d in e.lastOwned && e.lastOwned[d] == gate(d))
  }

  function Paused(e: Engine): set<DisplayId> {
    set d | d in e.machines && e.machines[d].overlays.paused.Some?
  }

  lemma {:induction false} OneOffsConcat(a: seq<Timer>, b: seq<Timer>)
    ensures OneOffs(a + b) == OneOffs(a) + OneOffs(b)
  {
    if a == [] {
      assert a + b == b;
    } else {
      assert (a + b)[1..] == a[1..] + b;
      OneOffsConcat(a[1..], b);
    }
  }

  lemma {:induction false} LoadConcat(a: seq<Timer>, b: seq<Timer>, limit: Instant)
    ensures Load(a + b, limit) == Load(a, limit) + Load(b, limit)
  {
    if a == [] {
      assert a + b == b;
    } else {
      assert (a + b)[1..] == a[1..] + b;
      LoadConcat(a[1..], b, limit);
    }
  }

  lemma Split(ts: seq<Timer>, k: nat)
    requires k < |ts|
    ensures ts == ts[..k] + ([ts[k]] + ts[k + 1..])
  {
  }

  lemma OneOffsWithout(ts: seq<Timer>, k: nat)
    requires k < |ts|
    ensures OneOffs(ts) == OneOffs(Without(ts, k)) + (if ts[k].entry.DisplayTick? then 0 else 1)
  {
    Split(ts, k);
    OneOffsConcat(ts[..k], [ts[k]] + ts[k + 1..]);
    OneOffsConcat(ts[..k], ts[k + 1..]);
    assert ([ts[k]] + ts[k + 1..])[1..] == ts[k + 1..];
  }

  lemma LoadWithout(ts: seq<Timer>, k: nat, limit: Instant)
    requires k < |ts| && ts[k].entry.DisplayTick? && ts[k].at <= limit
    ensures Load(ts, limit) == Load(Without(ts, k), limit) + (limit - ts[k].at + 1)
  {
    Split(ts, k);
    LoadConcat(ts[..k], [ts[k]] + ts[k + 1..], limit);
    LoadConcat(ts[..k], ts[k + 1..], limit);
    assert ([ts[k]] + ts[k + 1..])[1..] == ts[k + 1..];
  }

  // ── What one batch of effects adds ──────────────────────────────────────

  lemma {:induction false} NoOneOffs(d: DisplayId, fx: seq<Effect>)
    requires NoStageTicks(fx)
    ensures OneOffs(Scheduled(d, fx)) == 0
  {
    if fx != [] {
      assert NoStageTicks(fx[1..]);
      NoOneOffs(d, fx[1..]);
      if fx[0].ScheduleTickAt? {
        OneOffsConcat([Timer(fx[0].at, DisplayTick(d))], Scheduled(d, fx[1..]));
      }
    }
  }

  /** At most one tick is scheduled, and it is strictly later than `now`. */
  predicate OneLater(fx: seq<Effect>, now: Instant) {
    && (forall k :: 0 <= k < |fx| && fx[k].ScheduleTickAt? ==> now < fx[k].at)
    && (forall j, k :: 0 <= j < k < |fx| && fx[j].ScheduleTickAt? ==> !fx[k].ScheduleTickAt?)
    && NoStageTicks(fx)
  }

  lemma {:induction false} NothingScheduled(d: DisplayId, fx: seq<Effect>)
    requires forall k :: 0 <= k < |fx| ==> !fx[k].ScheduleTickAt? && !fx[k].ScheduleStageTickAt?
    ensures Scheduled(d, fx) == []
  {
    if fx != [] {
      assert forall k :: 0 <= k < |fx[1..]| ==> fx[1..][k] == fx[k + 1];
      NothingScheduled(d, fx[1..]);
    }
  }

  lemma {:induction false} OneLaterLoad(d: DisplayId, fx: seq<Effect>, now: Instant, limit: Instant)
    requires OneLater(fx, now) && now <= limit
    ensures Load(Scheduled(d, fx), limit) <= limit - now
  {
    if fx != [] {
      assert forall k :: 0 <= k < |fx[1..]| ==> fx[1..][k] == fx[k + 1];
      if fx[0].ScheduleTickAt? {
        NothingScheduled(d, fx[1..]);
      } else {
        OneLaterLoad(d, fx[1..], now, limit);
      }
    }
  }

  lemma ActiveScheduling(m: Machine, now: Instant, cause: Cause)
    requires Paced(m.cfg) && (OverlayOn(m) || m.cfg.timings.gracePeriod > 0)
    ensures OneLater(EnterActive(m, now, cause).fx, now)
  {
  }

  lemma LadderScheduling(m: Machine, now: Instant, cause: Cause)
    requires Paced(m.cfg)
    ensures OneLater(EnterLadder(m, 0, now, cause).fx, now)
  {
    hide EnterActive;
    if m.cfg.ladder == [] {
      ActiveScheduling(m, now, cause);
    }
  }

  lemma GraceTickScheduling(m: Machine, now: Instant)
    requires m.phase.Grace? && Paced(m.cfg) && !PauseDue(m, now)
    ensures OneLater(GraceTick(m, now).fx, now)
  {
    hide EnterLadder, GateOpensAt;
    Runs.GateFuture(m, now);
    LadderScheduling(m, now, CGraceExpired);
  }

  /** A tick that does not end a pause schedules at most one tick, strictly later. */
  lemma TickScheduling(m: Machine, now: Instant)
    requires Paced(m.cfg) && !PauseDue(m, now)
    ensures OneLater(Step(m, Tick, now).fx, now)
  {
    hide GraceTick, EnterLadder, EnterActive, TeardownToActive;
    if m.phase.Grace? {
      GraceTickScheduling(m, now);
    }
  }

  lemma PauseEnds(m: Machine, now: Instant)
    requires PauseDue(m, now)
    ensures Step(m, Tick, now).m.overlays.paused.None?
  {
    hide EnterLadder, EnterActive, TeardownToActive;
    EntriesQuiet();
    LadderQuiet();
  }

  // ── What every engine operation keeps ───────────────────────────────────

  /** Same displays with the same configuration, and no entry added that is not a display tick. */
  ghost predicate Sparing(e: Engine, f: Engine) {
    && f.cfg == e.cfg
    && f.machines.Keys == e.machines.Keys
    && (forall d :: d in e.machines ==> f.machines[d].cfg == e.machines[d].cfg)
    && OneOffs(f.timers) == OneOffs(e.timers)
  }

  lemma StepSparing(e: Engine, d: DisplayId, input: Input, now: Instant)
    requires Timed(input)
    ensures Sparing(e, StepMachine(e, d, input, now))
  {
    hide Step, OneOffs;
    if d in e.machines {
      StepKeeps(e.machines[d], input, now);
      var fx := Step(e.machines[d], input, now).fx;
      NoOneOffs(d, fx);
      OneOffsConcat(e.timers, Scheduled(d, fx));
    }
  }

  lemma FeedSparing(e: Engine, d: DisplayId, now: Instant, gate: Gate)
    ensures Sparing(e, FeedOwnership(e, d, now, gate))
  {
    hide StepMachine, OneOffs;
    StepSparing(e.(lastOwned := e.lastOwned[d := gate(d)]), d, OwnershipChanged(gate(d)), now);
  }

  lemma StepOneSparing(e: Engine, d: DisplayId, input: Input, now: Instant, gate: Gate)
    requires Timed(input)
    ensures Sparing(e, StepOne(e, d, input, now, gate))
  {
    hide StepMachine, FeedOwnership, OneOffs;
    FeedSparing(e, d, now, gate);
    StepSparing(FeedOwnership(e, d, now, gate), d, input, now);
  }

  lemma ClearSparing(e: Engine, d: DisplayId)
    ensures Sparing(e, ClearInputHold(e, d))
  {
  }

  lemma FanOneSparing(e: Engine, d: DisplayId, wall: Instant, gate: Gate)
    ensures Sparing(e, FanOne(e, d, wall, gate))
  {
    hide StepOne, ClearInputHold, EffectivePresence, OneOffs;
    ClearSparing(e, d);
    var present := EffectivePresence(e, d);
    StepOneSparing(if present then ClearInputHold(e, d) else e, d, ZonePresent(present), wall, gate);
  }

  lemma {:induction false} FanSparing(e: Engine, ds: seq<DisplayId>, wall: Instant, gate: Gate)
    ensures Sparing(e, Fan(e, ds, wall, gate))
    decreases |ds|
  {
    hide FanOne, OneOffs;
    if ds != [] {
      FanSparing(e, ds[..|ds| - 1], wall, gate);
      FanOneSparing(Fan(e, ds[..|ds| - 1], wall, gate), ds[|ds| - 1], wall, gate);
    }
  }

  lemma {:induction false} FanZonesSparing(e: Engine, zones: seq<Zone>, wall: Instant, gate: Gate)
    ensures Sparing(e, FanZones(e, zones, wall, gate))
    decreases |zones|
  {
    hide Fan, OneOffs;
    if zones != [] {
      FanZonesSparing(e, zones[..|zones| - 1], wall, gate);
      FanSparing(FanZones(e, zones[..|zones| - 1], wall, gate), Targets(e.cfg.rules, zones[|zones| - 1]), wall, gate);
    }
  }

  lemma DeliverSparing(e: Engine, s: Sensor, state: SensorState, wall: Instant, gate: Gate)
    ensures Sparing(e, Deliver(e, s, state, wall, gate))
  {
    hide FanZones, OneOffs;
    var (zones, changed) := e.cfg.fuse(e.zones, s, state);
    FanZonesSparing(e.(zones := zones, delivered := e.delivered + [Delivery(s, state, wall)]), changed, wall, gate);
  }

  lemma HoldExpirySparing(e: Engine, s: Sensor, now: Instant, wall: Instant, gate: Gate)
    ensures Sparing(e, FireHoldExpiry(e, s, now, wall, gate))
  {
    hide Deliver, OneOffs;
    if s in e.holds {
      DeliverSparing(e.(holds := e.holds[s := Hold(None, false)]), s, Absent, wall, gate);
    }
  }

  lemma InputWakeExpirySparing(e: Engine, d: DisplayId, now: Instant, gate: Gate)
    ensures Sparing(e, FireInputWakeExpiry(e, d, now, gate))
  {
    hide StepMachine, FeedOwnership, ClearInputHold, EffectiveInputHold, OneOffs;
    ClearSparing(e, d);
    FeedSparing(ClearInputHold(e, d), d, now, gate);
    StepSparing(FeedOwnership(ClearInputHold(e, d), d, now, gate), d, ZonePresent(false), now);
  }

  lemma EntrySparing(e: Engine, entry: TimerEntry, now: Instant, wall: Instant, gate: Gate)
    ensures Sparing(e, FireEntry(e, entry, now, wall, gate))
  {
    hide Sparing, StepOne, FireHoldExpiry, FireInputWakeExpiry;
    match entry
    case DisplayTick(d) => StepOneSparing(e, d, Tick, now, gate);
    case DisplayStageTick(d, gen) => StepOneSparing(e, d, StageTick(gen), now, gate);
    case HoldExpiry(s) => HoldExpirySparing(e, s, now, wall, gate);
    case InputWakeHoldExpiry(d) => InputWakeExpirySparing(e, d, now, gate);
  }

  // ── The ticks ───────────────────────────────────────────────────────────

  /** A feed either changes nothing the measure sees, or settles its display for good. */
  lemma FeedSettles(e: Engine, d: DisplayId, now: Instant, gate: Gate)
    ensures var f := FeedOwnership(e, d, now, gate);
            (f.timers == e.timers && f.machines == e.machines && Unsettled(f, gate) == Unsettled(e, gate)) ||
            Unsettled(f, gate) < Unsettled(e, gate)
  {
    hide Step;
    var f := FeedOwnership(e, d, now, gate);
    if d in Unsettled(e, gate) && !(!gate(d) && Suppressed(e, d, now)) {
      assert d !in Unsettled(f, gate);
      assert Unsettled(f, gate) <= Unsettled(e, gate);
    } else {
      assert Unsettled(f, gate) == Unsettled(e, gate);
    }
  }

  lemma TickStepShrinks(e: Engine, d: DisplayId, now: Instant, gate: Gate, limit: Instant)
    requires AllPaced(e) && now <= limit
    ensures var f := StepMachine(e, d, Tick, now);
            Unsettled(f, gate) == Unsettled(e, gate) &&
            (Paused(f) < Paused(e) ||
              (Paused(f) == Paused(e) && Load(f.timers, limit) <= Load(e.timers, limit) + (limit - now)))
  {
    hide Step, Load, Scheduled;
    var f := StepMachine(e, d, Tick, now);
    if d in e.machines {
      var m := e.machines[d];
      var o := Step(m, Tick, now);
      StepKeeps(m, Tick, now);
      assert Unsettled(f, gate) == Unsettled(e, gate);
      assert Paused(f) <= Paused(e);
      if m.overlays.paused.Some? && o.m.overlays.paused.None? {
        assert d in Paused(e) && d !in Paused(f);
      } else {
        assert Paused(f) == Paused(e);
        PauseKeptScheduling(m, now);
        OneLaterLoad(d, o.fx, now, limit);
        LoadConcat(e.timers, Scheduled(d, o.fx), limit);
      }
    }
  }

  lemma PauseKeptScheduling(m: Machine, now: Instant)
    requires Paced(m.cfg) && !(m.overlays.paused.Some? && Step(m, Tick, now).m.overlays.paused.None?)
    ensures OneLater(Step(m, Tick, now).fx, now)
  {
    hide Step, OneLater;
    if PauseDue(m, now) {
      PauseEnds(m, now);
    } else {
      TickScheduling(m, now);
    }
  }

  /** The measure, compared lexicographically. */
  predicate Shrinks(e: Engine, f: Engine, gate: Gate, limit: Instant) {
    || OneOffs(f.timers) < OneOffs(e.timers)
    || (OneOffs(f.timers) == OneOffs(e.timers) &&
        (|| Unsettled(f, gate) < Unsettled(e, gate)
         || (Unsettled(f, gate) == Unsettled(e, gate) &&
             (|| Paused(f) < Paused(e)
              || (Paused(f) == Paused(e) && Load(f.timers, limit) < Load(e.timers, limit))))))
  }

  lemma TickShrinks(e: Engine, k: nat, wall: Instant, gate: Gate, limit: Instant)
    requires AllPaced(e) && k < |e.timers| && e.timers[k].at <= limit && e.timers[k].entry.DisplayTick?
    ensures Shrinks(e, FireAt(e, k, wall, gate), gate, limit)
  {
    hide StepMachine, FeedOwnership, OneOffs, Load;
    var d, now := e.timers[k].entry.display, e.timers[k].at;
    var r := e.(timers := Without(e.timers, k));
    var f := FeedOwnership(r, d, now, gate);
    var g := StepMachine(f, d, Tick, now);
    OneOffsWithout(e.timers, k);
    LoadWithout(e.timers, k, limit);
    assert Unsettled(r, gate) == Unsettled(e, gate) && Paused(r) == Paused(e);
    FeedSparing(r, d, now, gate);
    FeedSettles(r, d, now, gate);
    StepSparing(f, d, Tick, now);
    assert AllPaced(f);
    TickStepShrinks(f, d, now, gate, limit);
    assert f.machines == r.machines ==> Paused(f) == Paused(r);
  }

  lemma OneOffShrinks(e: Engine, k: nat, wall: Instant, gate: Gate, limit: Instant)
    requires k < |e.timers| && !e.timers[k].entry.DisplayTick?
    ensures Shrinks(e, FireAt(e, k, wall, gate), gate, limit)
  {
    hide FireEntry, OneOffs;
    OneOffsWithout(e.timers, k);
    EntrySparing(e.(timers := Without(e.timers, k)), e.timers[k].entry, e.timers[k].at, wall, gate);
  }

  lemma FireKeepsPace(e: Engine, k: nat, wall: Instant, gate: Gate)
    requires k < |e.timers| && AllPaced(e)
    ensures AllPaced(FireAt(e, k, wall, gate))
  {
    hide FireEntry, OneOffs;
    EntrySparing(e.(timers := Without(e.timers, k)), e.timers[k].entry, e.timers[k].at, wall, gate);
  }

  /** Whichever due entry is popped, the measure shrinks. */
  lemma FireShrinks(e: Engine, k: nat, wall: Instant, gate: Gate, limit: Instant)
    requires AllPaced(e) && k < |e.timers| && e.timers[k].at <= limit
    ensures Shrinks(e, FireAt(e, k, wall, gate), gate, limit) && AllPaced(FireAt(e, k, wall, gate))
  {
    hide FireAt, Shrinks, AllPaced;
    FireKeepsPace(e, k, wall, gate);
    if e.timers[k].entry.DisplayTick? {
      TickShrinks(e, k, wall, gate, limit);
    } else {
      OneOffShrinks(e, k, wall, gate, limit);
    }
  }

  /** Fire due entries until none is left; `clock(n)` is what the wall clock reads at the
      n-th one. */
  function Drain(e: Engine, limit: Instant, clock: nat -> Instant, n: nat, gate: Gate): Engine
    requires AllPaced(e)
    decreases OneOffs(e.timers), Unsettled(e, gate), Paused(e), Load(e.timers, limit)
  {
    if !Due(e.timers, limit) then e
    else
      var k := Next(e.timers);
      FireShrinks(e, k, clock(n), gate, limit);
      Drain(FireAt(e, k, clock(n), gate), limit, clock, n + 1, gate)
  }

  /** Nothing due is left behind. */
  lemma {:induction false} DrainEmptiesWheel(e: Engine, limit: Instant, clock: nat -> Instant, n: nat, gate: Gate)
    requires AllPaced(e)
    ensures AllPaced(Drain(e, limit, clock, n, gate))
    ensures forall t :: t in Drain(e, limit, clock, n, gate).timers ==> t.at > limit
    decreases OneOffs(e.timers), Unsettled(e, gate), Paused(e), Load(e.timers, limit)
  {
    hide FireAt, AllPaced, OneOffs, Unsettled, Paused, Load;
    if Due(e.timers, limit) {
      var k := Next(e.timers);
      FireShrinks(e, k, clock(n), gate, limit);
      DrainEmptiesWheel(FireAt(e, k, clock(n), gate), limit, clock, n + 1, gate);
    }
  }
}
