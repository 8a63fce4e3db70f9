/** No timer darkens a panel the gate withholds. */
module EngineDarkness {
  import opened DisplayTypes
  import opened DisplaySpec
  import opened EngineSpec
  import opened EngineRuns
  import opened PresentRooms
  import Coord = CoordSpec
  import History = CoordHistory

  /** No panel is blanked and no overlay raised between `e` and `f`. */
  predicate NoneDarkened(e: Engine, f: Engine) {
    e.outbox <= f.outbox && forall i :: |e.outbox| <= i < |f.outbox| ==> !Dims(f.outbox[i].effect)
  }

  lemma {:induction false} CommandedFrom(d: DisplayId, fx: seq<Effect>)
    ensures forall s :: s in Commanded(d, fx) ==> s.display == d && s.effect in fx
  {
    if fx != [] {
      CommandedFrom(d, fx[1..]);
    }
  }

  /** A step darkens only its own display, and only when the machine may darken. */
  lemma StepDarkens(e: Engine, d: DisplayId, input: Input, now: Instant, i: nat)
    ensures var f := StepMachine(e, d, input, now);
            e.outbox <= f.outbox && (|e.outbox| <= i < |f.outbox| && Dims(f.outbox[i].effect) ==>
              f.outbox[i].display == d && d in e.machines && MayDarken(e.machines[d], input))
  {
    hide Step, MayDarken, Dims;
    if d in e.machines {
      var o := Step(e.machines[d], input, now);
      var f := StepMachine(e, d, input, now);
      CommandedFrom(d, o.fx);
      DarkensOnlyBy(e.machines[d], input, now);
      if |e.outbox| <= i < |f.outbox| {
        assert f.outbox[i] in Commanded(d, o.fx);
      }
    }
  }

  lemma StepNoneDarkened(e: Engine, d: DisplayId, input: Input, now: Instant)
    requires input.ZonePresent? || input.OwnershipChanged?
    ensures NoneDarkened(e, StepMachine(e, d, input, now))
  {
    hide StepMachine;
    var f := StepMachine(e, d, input, now);
    StepDarkens(e, d, input, now, 0);
    forall i | |e.outbox| <= i < |f.outbox| ensures !Dims(f.outbox[i].effect) {
      StepDarkens(e, d, input, now, i);
    }
  }

  lemma FeedNoneDarkened(e: Engine, d: DisplayId, now: Instant, gate: Gate)
    ensures NoneDarkened(e, FeedOwnership(e, d, now, gate))
  {
    hide StepMachine;
    StepNoneDarkened(e.(lastOwned := e.lastOwned[d := gate(d)]), d, OwnershipChanged(gate(d)), now);
  }

  lemma ZoneNoneDarkened(e: Engine, d: DisplayId, present: bool, now: Instant, gate: Gate)
    ensures NoneDarkened(e, StepOne(e, d, ZonePresent(present), now, gate))
  {
    hide StepMachine, FeedOwnership;
    FeedNoneDarkened(e, d, now, gate);
    var f := FeedOwnership(e, d, now, gate);
    StepNoneDarkened(f, d, ZonePresent(present), now);
    Joined(e, f, StepOne(e, d, ZonePresent(present), now, gate));
  }

  lemma Joined(e: Engine, f: Engine, g: Engine)
    requires NoneDarkened(e, f) && NoneDarkened(f, g)
    ensures NoneDarkened(e, g)
  {
  }

  lemma FanOneNoneDarkened(e: Engine, d: DisplayId, wall: Instant, gate: Gate)
    ensures NoneDarkened(e, FanOne(e, d, wall, gate))
  {
    hide StepOne, EffectivePresence;
    var present := EffectivePresence(e, d);
    ZoneNoneDarkened(if present then ClearInputHold(e, d) else e, d, present, wall, gate);
  }

  lemma {:induction false} FanNoneDarkened(e: Engine, ds: seq<DisplayId>, wall: Instant, gate: Gate)
    ensures NoneDarkened(e, Fan(e, ds, wall, gate))
    decreases |ds|
  {
    hide FanOne;
    if ds != [] {
      var f := Fan(e, ds[..|ds| - 1], wall, gate);
      FanNoneDarkened(e, ds[..|ds| - 1], wall, gate);
      FanOneNoneDarkened(f, ds[|ds| - 1], wall, gate);
      Joined(e, f, Fan(e, ds, wall, gate));
    }
  }

  lemma {:induction false} FanZonesNoneDarkened(e: Engine, zones: seq<Zone>, wall: Instant, gate: Gate)
    ensures NoneDarkened(e, FanZones(e, zones, wall, gate))
    decreases |zones|
  {
    hide Fan, Targets;
    if zones != [] {
      var f := FanZones(e, zones[..|zones| - 1], wall, gate);
      FanZonesNoneDarkened(e, zones[..|zones| - 1], wall, gate);
      FanNoneDarkened(f, Targets(e.cfg.rules, zones[|zones| - 1]), wall, gate);
      Joined(e, f, FanZones(e, zones, wall, gate));
    }
  }

  lemma DeliverNoneDarkened(e: Engine, s: Sensor, state: SensorState, wall: Instant, gate: Gate)
    ensures NoneDarkened(e, Deliver(e, s, state, wall, gate))
  {
    hide FanZones;
    var (zones, changed) := e.cfg.fuse(e.zones, s, state);
    FanZonesNoneDarkened(e.(zones := zones, delivered := e.delivered + [Delivery(s, state, wall)]), changed, wall,
                         gate);
  }

  lemma HoldExpiryNoneDarkened(e: Engine, s: Sensor, now: Instant, wall: Instant, gate: Gate)
    ensures NoneDarkened(e, FireHoldExpiry(e, s, now, wall, gate))
  {
    hide Deliver;
    if s in e.holds {
      DeliverNoneDarkened(e.(holds := e.holds[s := Hold(None, false)]), s, Absent, wall, gate);
    }
  }

  lemma InputWakeNoneDarkened(e: Engine, d: DisplayId, now: Instant, gate: Gate)
    ensures NoneDarkened(e, FireInputWakeExpiry(e, d, now, gate))
  {
    hide StepMachine, FeedOwnership, EffectiveInputHold;
    var f := FeedOwnership(ClearInputHold(e, d), d, now, gate);
    FeedNoneDarkened(ClearInputHold(e, d), d, now, gate);
    StepNoneDarkened(f, d, ZonePresent(false), now);
    if d in e.inputHolds && e.inputHolds[d] <= now {
      Joined(e, f, StepMachine(f, d, ZonePresent(false), now));
    }
  }

  // ── Ticks ───────────────────────────────────────────────────────────────

  /** After a feed the cache says owned only if the gate does, or a claim suppresses the loss. */
  lemma FeedVerdict(e: Engine, d: DisplayId, now: Instant, gate: Gate)
    ensures var f := FeedOwnership(e, d, now, gate);
            d in f.lastOwned && (f.lastOwned[d] ==> gate(d) || Suppressed(e, d, now))
  {
    hide Step;
  }

  lemma TickDarkens(e: Engine, d: DisplayId, input: Input, now: Instant, gate: Gate, i: nat)
    requires Synced(e) && (input.Tick? || input.StageTick?)
    ensures var f := StepOne(e, d, input, now, gate);
            e.outbox <= f.outbox && (|e.outbox| <= i < |f.outbox| && Dims(f.outbox[i].effect) ==>
              f.outbox[i].display == d && (gate(d) || Suppressed(e, d, now)))
  {
    hide StepMachine, FeedOwnership;
    var f := FeedOwnership(e, d, now, gate);
    FeedNoneDarkened(e, d, now, gate);
    FeedDisplays(e, d, now, gate);
    FeedVerdict(e, d, now, gate);
    StepDarkens(f, d, input, now, i);
  }

  /** A popped entry blanks a panel or raises an overlay only where the gate grants ownership or
      a claim suppression is in force at the entry's deadline. */
  lemma TimersDarkenOnlyOwned(e: Engine, k: nat, wall: Instant, gate: Gate, i: nat)
    requires Synced(e) && k < |e.timers|
    ensures var f := FireAt(e, k, wall, gate);
            |e.outbox| <= i < |f.outbox| && Dims(f.outbox[i].effect) ==>
              gate(f.outbox[i].display) || Suppressed(e, f.outbox[i].display, e.timers[k].at)
  {
    hide StepOne, FireHoldExpiry, FireInputWakeExpiry, Without;
    var t := e.timers[k];
    var r := e.(timers := Without(e.timers, k));
    match t.entry
    case DisplayTick(d) => TickDarkens(r, d, Tick, t.at, gate, i);
    case DisplayStageTick(d, gen) => TickDarkens(r, d, StageTick(gen), t.at, gate, i);
    case HoldExpiry(s) => HoldExpiryNoneDarkened(r, s, t.at, wall, gate);
    case InputWakeHoldExpiry(d) => InputWakeNoneDarkened(r, d, t.at, gate);
  }

  // ── The coordination gate ───────────────────────────────────────────────

  /** A shared display's polls so far. */
  datatype Shared = Shared(setup: History.Setup, polls: seq<History.Poll>)
  {
    function Record(): Coord.Record { History.RecordAt(setup, polls, |polls|) }
  }

  /** `CoordinationGate::owns`: displays without a record are private and owned. */
  function CoordinationGate(shared: map<DisplayId, Shared>): Gate {
    (d: DisplayId) => d !in shared || shared[d].Record().owned
  }

  /** In every run, under the coordination gate: a popped entry darkens only displays that are
      private, or whose record is owned and uncontested, or under an armed claim suppression. */
  lemma NoTimerDarkensUnowned(cfg: EngineConfig, displays: Panels, zones: Zones,
                              t0: Instant, gate: Gate, run: seq<Moment>, n: nat, shared: map<DisplayId, Shared>,
                              k: nat, wall: Instant, i: nat)
    requires n <= |run| && AllowedRun(Fresh(cfg, displays, zones, t0, gate), run)
    requires k < |After(Fresh(cfg, displays, zones, t0, gate), run, n).e.timers|
    ensures var e := After(Fresh(cfg, displays, zones, t0, gate), run, n).e;
            var f := FireAt(e, k, wall, CoordinationGate(shared));
            |e.outbox| <= i < |f.outbox| && Dims(f.outbox[i].effect) ==>
              var d := f.outbox[i].display;
              || d !in shared
              || (shared[d].Record().owned && !shared[d].Record().flap.contested)
              || Suppressed(e, d, e.timers[k].at)
  {
    hide FireAt, NewEngine, Play, Allowed, Dims, History.RecordAt;
    SoundThroughout(cfg, displays, zones, t0, gate, run, n);
    var e := After(Fresh(cfg, displays, zones, t0, gate), run, n).e;
    TimersDarkenOnlyOwned(e, k, wall, CoordinationGate(shared), i);
    var f := FireAt(e, k, wall, CoordinationGate(shared));
    if |e.outbox| <= i < |f.outbox| && f.outbox[i].display in shared {
      var h := shared[f.outbox[i].display];
      History.OutcomesReplayOwnership(h.setup, h.polls, |h.polls|);
    }
  }
}
