/** End to end: a panel is dark only while every zone that drives it is known vacant. */
module EngineVacancy {
  import opened DisplayTypes
  import opened DisplaySpec
  import opened EngineSpec
  import opened EngineFrames
  import opened EngineRuns
  import opened EngineRefines

  /** What the machine was last told, if anything, is what the zones say now. */
  predicate ToldAt(e: Engine, d: DisplayId) {
    d in e.machines && e.machines[d].zone.Some? ==> e.machines[d].zone.value == EffectivePresence(e, d)
  }

  predicate Told(e: Engine) { forall d :: d in e.machines ==> ToldAt(e, d) }

  /** The zone engine reports every zone whose level it changes. */
  ghost predicate Faithful(fuse: Fusion) {
    forall z: Zones, s: Sensor, state: SensorState, zone: Zone ::
      Unreported(fuse(z, s, state), zone) ==> SameLevel(z, fuse(z, s, state).0, zone)
  }

  predicate Unreported(r: (Zones, seq<Zone>), zone: Zone) { zone !in r.1 }

  predicate SameLevel(a: Zones, b: Zones, zone: Zone) { Occupied(a, zone) == Occupied(b, zone) }

  /** Same zones and configuration: the same effective presence. */
  ghost predicate SameView(e: Engine, f: Engine) { f.zones == e.zones && f.cfg == e.cfg }

  lemma ViewDecides(e: Engine, f: Engine, d: DisplayId)
    requires SameView(e, f)
    ensures EffectivePresence(f, d) == EffectivePresence(e, d)
  {
  }

  /** No machine was told anything. */
  ghost predicate Untold(e: Engine, f: Engine) {
    && SameView(e, f)
    && f.machines.Keys == e.machines.Keys
    && forall d :: d in e.machines ==> f.machines[d].zone == e.machines[d].zone
  }

  lemma UntoldKeeps(e: Engine, f: Engine, d: DisplayId)
    requires Untold(e, f)
    ensures ToldAt(e, d) ==> ToldAt(f, d)
  {
    hide EffectivePresence;
    ViewDecides(e, f, d);
  }

  lemma StepUntold(e: Engine, d: DisplayId, input: Input, now: Instant)
    requires !input.ZonePresent?
    ensures Untold(e, StepMachine(e, d, input, now))
  {
    hide Step;
    if d in e.machines {
      StepKeeps(e.machines[d], input, now);
    }
  }

  lemma FeedUntold(e: Engine, d: DisplayId, now: Instant, gate: Gate)
    ensures Untold(e, FeedOwnership(e, d, now, gate))
  {
    hide StepMachine;
    StepUntold(e.(lastOwned := e.lastOwned[d := gate(d)]), d, OwnershipChanged(gate(d)), now);
  }

  lemma StepOneUntold(e: Engine, d: DisplayId, input: Input, now: Instant, gate: Gate)
    requires !input.ZonePresent?
    ensures Untold(e, StepOne(e, d, input, now, gate))
  {
    hide StepMachine, FeedOwnership;
    FeedUntold(e, d, now, gate);
    StepUntold(FeedOwnership(e, d, now, gate), d, input, now);
  }

  lemma FlagUntold(e: Engine, d: DisplayId, active: bool)
    ensures Untold(e, SetHoldFlag(e, d, active))
  {
  }

  /** `d` is told `present` and nobody else anything. */
  ghost predicate Tells(e: Engine, f: Engine, d: DisplayId, present: bool) {
    && SameView(e, f)
    && f.machines.Keys == e.machines.Keys
    && (d in e.machines ==> f.machines[d].zone == Some(present))
    && forall q :: q in e.machines && q != d ==> f.machines[q].zone == e.machines[q].zone
  }

  lemma ZoneTells(e: Engine, d: DisplayId, present: bool, now: Instant)
    ensures Tells(e, StepMachine(e, d, ZonePresent(present), now), d, present)
  {
    hide Step;
    if d in e.machines {
      StepKeeps(e.machines[d], ZonePresent(present), now);
    }
  }

  lemma FanOneTells(e: Engine, d: DisplayId, wall: Instant, gate: Gate)
    ensures Tells(e, FanOne(e, d, wall, gate), d, EffectivePresence(e, d))
  {
    hide StepMachine, FeedOwnership, EffectivePresence, SetHoldFlag;
    var present := EffectivePresence(e, d);
    FlagUntold(e.(inputHolds := e.inputHolds - {d}), d, false);
    var c := if present then ClearInputHold(e, d) else e;
    FeedUntold(c, d, wall, gate);
    ZoneTells(FeedOwnership(c, d, wall, gate), d, present, wall);
  }

  lemma TellsTruth(e: Engine, f: Engine, d: DisplayId, q: DisplayId)
    requires Tells(e, f, d, EffectivePresence(e, d))
    ensures q == d || ToldAt(e, q) ==> ToldAt(f, q)
  {
    hide EffectivePresence;
    ViewDecides(e, f, q);
  }

  lemma {:induction false} FanTells(e: Engine, ds: seq<DisplayId>, wall: Instant, gate: Gate, q: DisplayId)
    ensures q in ds || ToldAt(e, q) ==> ToldAt(Fan(e, ds, wall, gate), q)
    decreases |ds|
  {
    hide FanOne, ToldAt, EffectivePresence;
    if ds != [] {
      var last := |ds| - 1;
      assert q in ds ==> q in ds[..last] || q == ds[last];
      var f := Fan(e, ds[..last], wall, gate);
      FanTells(e, ds[..last], wall, gate, q);
      FanOneTells(f, ds[last], wall, gate);
      TellsTruth(f, FanOne(f, ds[last], wall, gate), ds[last], q);
    }
  }

  predicate Drives(rules: seq<Rule>, zones: seq<Zone>, q: DisplayId) {
    exists r :: r in rules && r.zone in zones && q in r.displays
  }

  lemma {:induction false} TargetsDriven(rules: seq<Rule>, zone: Zone, r: Rule, q: DisplayId)
    requires r in rules && r.zone == zone && q in r.displays
    ensures q in Targets(rules, zone)
    decreases |rules|
  {
    var last := |rules| - 1;
    if r != rules[last] {
      TargetsDriven(rules[..last], zone, r, q);
    }
  }

  lemma {:induction false} FanZonesTells(e: Engine, zones: seq<Zone>, wall: Instant, gate: Gate, q: DisplayId)
    ensures FanZones(e, zones, wall, gate).cfg == e.cfg
    ensures Drives(e.cfg.rules, zones, q) || ToldAt(e, q) ==> ToldAt(FanZones(e, zones, wall, gate), q)
    decreases |zones|
  {
    hide Fan, ToldAt, Targets, Synced, FlagsMatch;
    FanZonesDisplays(e, zones, wall, gate);
    if zones != [] {
      var last := |zones| - 1;
      var f := FanZones(e, zones[..last], wall, gate);
      FanZonesDisplays(e, zones[..last], wall, gate);
      FanZonesTells(e, zones[..last], wall, gate, q);
      FanTells(f, Targets(e.cfg.rules, zones[last]), wall, gate, q);
      LastZoneDrives(e.cfg.rules, zones, q);
    }
  }

  lemma LastZoneDrives(rules: seq<Rule>, zones: seq<Zone>, q: DisplayId)
    requires zones != []
    ensures Drives(rules, zones, q) ==>
              Drives(rules, zones[..|zones| - 1], q) || q in Targets(rules, zones[|zones| - 1])
  {
    hide Targets;
    var last := |zones| - 1;
    if Drives(rules, zones, q) {
      var r :| r in rules && r.zone in zones && q in r.displays;
      assert r.zone in zones[..last] || r.zone == zones[last];
      if r.zone == zones[last] {
        TargetsDriven(rules, zones[last], r, q);
      }
    }
  }

  /** Displays none of whose zones changed still know the truth. */
  lemma UndrivenStillTold(e: Engine, zones: Zones, changed: seq<Zone>, r: Engine, q: DisplayId)
    requires r.zones == zones && r.cfg == e.cfg && r.machines == e.machines && ToldAt(e, q)
    requires forall zone: Zone :: zone !in changed ==> SameLevel(e.zones, zones, zone)
    ensures Drives(e.cfg.rules, changed, q) || ToldAt(r, q)
  {
    hide Occupied;
    if !Drives(e.cfg.rules, changed, q) {
      forall rule | rule in e.cfg.rules && q in rule.displays
        ensures Occupied(e.zones, rule.zone) == Occupied(zones, rule.zone)
      {
        assert rule.zone !in changed;
        assert SameLevel(e.zones, zones, rule.zone);
      }
    }
  }

  lemma DeliverTells(e: Engine, s: Sensor, state: SensorState, wall: Instant, gate: Gate)
    requires Told(e) && Faithful(e.cfg.fuse)
    ensures var f := Deliver(e, s, state, wall, gate); Told(f) && f.cfg == e.cfg
  {
    hide FanZones, ToldAt, Drives;
    var (zones, changed) := e.cfg.fuse(e.zones, s, state);
    var r := e.(zones := zones, delivered := e.delivered + [Delivery(s, state, wall)]);
    forall zone: Zone | zone !in changed ensures SameLevel(e.zones, zones, zone) {
      assert Unreported(e.cfg.fuse(e.zones, s, state), zone);
    }
    var f := FanZones(r, changed, wall, gate);
    FanZonesTells(r, changed, wall, gate, 0);
    FanZonesKeys(r, changed, wall, gate);
    forall q | q in f.machines ensures ToldAt(f, q) {
      UndrivenStillTold(e, zones, changed, r, q);
      FanZonesTells(r, changed, wall, gate, q);
    }
  }

  lemma FanKeys(e: Engine, ds: seq<DisplayId>, wall: Instant, gate: Gate)
    ensures Fan(e, ds, wall, gate).machines.Keys == e.machines.Keys
    decreases |ds|
  {
    hide FanOne, EffectivePresence;
    if ds != [] {
      FanKeys(e, ds[..|ds| - 1], wall, gate);
      FanOneTells(Fan(e, ds[..|ds| - 1], wall, gate), ds[|ds| - 1], wall, gate);
    }
  }

  lemma {:induction false} FanZonesKeys(e: Engine, zones: seq<Zone>, wall: Instant, gate: Gate)
    ensures FanZones(e, zones, wall, gate).machines.Keys == e.machines.Keys
    decreases |zones|
  {
    hide Fan, Targets;
    if zones != [] {
      var f := FanZones(e, zones[..|zones| - 1], wall, gate);
      FanZonesKeys(e, zones[..|zones| - 1], wall, gate);
      FanKeys(f, Targets(e.cfg.rules, zones[|zones| - 1]), wall, gate);
    }
  }

  lemma UntoldAll(e: Engine, f: Engine)
    requires Told(e) && Untold(e, f)
    ensures Told(f) && f.cfg == e.cfg
  {
    hide ToldAt;
    forall d | d in f.machines ensures ToldAt(f, d) {
      UntoldKeeps(e, f, d);
    }
  }

  lemma PresenceTells(e: Engine, s: Sensor, state: SensorState, wall: Instant, gate: Gate)
    requires Told(e) && Faithful(e.cfg.fuse)
    ensures var f := HandlePresence(e, s, state, wall, gate); Told(f) && f.cfg == e.cfg
  {
    hide Deliver, Told, Faithful;
    var f := HoldFilter(e, s, state, wall).e;
    UntoldAll(e, f);
    DeliverTells(f, s, state, wall, gate);
  }

  lemma WakeUntold(e: Engine, d: DisplayId, wall: Instant, gate: Gate)
    ensures Untold(e, InputWakeControl(e, d, wall, gate))
  {
    hide StepOne, EffectiveInputHold, SetHoldFlag;
    var hold := EffectiveInputHold(e.cfg.rules, e.zones, d);
    if hold.Some? {
      var until := wall + hold.value;
      FlagUntold(e.(inputHolds := e.inputHolds[d := until],
                    timers := e.timers + [Timer(until, InputWakeHoldExpiry(d))]), d, true);
    }
    StepOneUntold(ArmInputWake(e, d, wall), d, InputWake, wall, gate);
  }

  /** The expiry of an input-wake hold tells absence only where every driving zone is vacant. */
  lemma InputWakeTells(e: Engine, d: DisplayId, now: Instant, gate: Gate)
    requires Told(e)
    ensures var f := FireInputWakeExpiry(e, d, now, gate); Told(f) && f.cfg == e.cfg
  {
    hide StepMachine, FeedOwnership, SetHoldFlag, Told, ToldAt;
    var c := ClearInputHold(e, d);
    FlagUntold(e.(inputHolds := e.inputHolds - {d}), d, false);
    FeedUntold(c, d, now, gate);
    var f := FeedOwnership(c, d, now, gate);
    UntoldAll(e, f);
    ZoneTells(f, d, false, now);
    if EffectiveInputHold(f.cfg.rules, f.zones, d).Some? {
      assert !EffectivePresence(f, d);
      TellsTruthAll(f, StepMachine(f, d, ZonePresent(false), now), d);
    }
  }

  lemma TellsTruthAll(e: Engine, f: Engine, d: DisplayId)
    requires Told(e) && Tells(e, f, d, EffectivePresence(e, d))
    ensures Told(f) && f.cfg == e.cfg
  {
    hide ToldAt, EffectivePresence;
    forall q | q in f.machines ensures ToldAt(f, q) {
      TellsTruth(e, f, d, q);
    }
  }

  lemma HoldExpiryTells(e: Engine, s: Sensor, now: Instant, wall: Instant, gate: Gate)
    requires Told(e) && Faithful(e.cfg.fuse)
    ensures var f := FireHoldExpiry(e, s, now, wall, gate); Told(f) && f.cfg == e.cfg
  {
    hide HandlePresence, Told, Faithful;
    if s in e.holds {
      var c := e.(holds := e.holds[s := Hold(None, false)]);
      UntoldAll(e, c);
      PresenceTells(c, s, Absent, wall, gate);
    }
  }

  lemma FireTells(e: Engine, k: nat, wall: Instant, gate: Gate)
    requires Told(e) && Faithful(e.cfg.fuse) && k < |e.timers|
    ensures var f := FireAt(e, k, wall, gate); Told(f) && f.cfg == e.cfg
  {
    hide StepOne, FireHoldExpiry, FireInputWakeExpiry, Told, Faithful;
    var t := e.timers[k];
    var r := e.(timers := Without(e.timers, k));
    UntoldAll(e, r);
    match t.entry
    case DisplayTick(d) => StepOneUntold(r, d, Tick, t.at, gate); UntoldAll(r, StepOne(r, d, Tick, t.at, gate));
    case DisplayStageTick(d, gen) =>
      StepOneUntold(r, d, StageTick(gen), t.at, gate);
      UntoldAll(r, StepOne(r, d, StageTick(gen), t.at, gate));
    case HoldExpiry(s) => HoldExpiryTells(r, s, t.at, wall, gate);
    case InputWakeHoldExpiry(d) => InputWakeTells(r, d, t.at, gate);
  }

  /** Zone levels reach the machines only through sensor reports. */
  predicate Genuine(m: Moment) { m.event.Control? || m.event.Answer? ==> !m.event.input.ZonePresent? }

  lemma MomentTells(w: Watched, m: Moment)
    requires Told(w.e) && Faithful(w.e.cfg.fuse) && Genuine(m)
    ensures var f := Play(w, m).e; Told(f) && f.cfg == w.e.cfg
  {
    hide HandlePresence, StepOne, InputWakeControl, FeedOwnership, StepMachine, FireAt, Told, Faithful;
    match m.event
    case Report(s, state) => PresenceTells(w.e, s, state, m.wall, m.gate);
    case Control(d, input) =>
      StepOneUntold(w.e, d, input, m.wall, m.gate);
      UntoldAll(w.e, StepOne(w.e, d, input, m.wall, m.gate));
    case WakeByInput(d) =>
      WakeUntold(w.e, d, m.wall, m.gate);
      UntoldAll(w.e, InputWakeControl(w.e, d, m.wall, m.gate));
    case Poll(d) =>
      FeedUntold(w.e, d, m.wall, m.gate);
      UntoldAll(w.e, FeedOwnership(w.e, d, m.wall, m.gate));
    case SetSuppression(d, until) => UntoldAll(w.e, SetClaim(w.e, d, until));
    case Answer(d, input) =>
      StepUntold(w.e, d, input, m.wall);
      UntoldAll(w.e, StepMachine(w.e, d, input, m.wall));
    case Fire(limit) =>
      if Due(w.e.timers, limit) {
        FireTells(w.e, Next(w.e.timers), m.wall, m.gate);
      }
  }

  lemma ToldInitially(cfg: EngineConfig, displays: Panels, zones: Zones, t0: Instant, gate: Gate)
    ensures Told(NewEngine(cfg, displays, zones, t0, gate))
  {
    hide Step, New, EffectivePresence;
    forall d | d in displays
      ensures Step(New(displays[d].0, displays[d].1, t0), OwnershipChanged(gate(d)), t0).m.zone.None?
    {
      StepKeeps(New(displays[d].0, displays[d].1, t0), OwnershipChanged(gate(d)), t0);
      NewUntold(displays[d].0, displays[d].1, t0);
    }
  }

  lemma NewUntold(timings: Timings, ladder: seq<LadderStage>, now: Instant)
    ensures New(timings, ladder, now).zone.None?
  {
  }

  /** In every run: what each machine was last told is what the zones that drive it say now. */
  lemma {:induction false} ToldThroughout(cfg: EngineConfig, displays: Panels, zones: Zones,
                                          t0: Instant, gate: Gate, run: seq<Moment>, i: nat)
    requires i <= |run| && Faithful(cfg.fuse) && forall k :: 0 <= k < |run| ==> Genuine(run[k])
    ensures var e := After(Fresh(cfg, displays, zones, t0, gate), run, i).e; Told(e) && e.cfg == cfg
  {
    hide Play, Told, Genuine, Faithful, Step, New;
    if i == 0 {
      ToldInitially(cfg, displays, zones, t0, gate);
    } else {
      var w := After(Fresh(cfg, displays, zones, t0, gate), run, i - 1);
      ToldThroughout(cfg, displays, zones, t0, gate, run, i - 1);
      MomentTells(w, run[i - 1]);
    }
  }

  predicate KnownVacant(e: Engine, d: DisplayId) {
    forall r :: r in e.cfg.rules && d in r.displays ==> r.zone in e.zones.levels && !e.zones.levels[r.zone]
  }

  /** In every engine run in which nobody asks for a blank: a display is dark, or counting down
      to it, only while every zone driving it is known vacant; a blank in flight may also have
      its wake already pending. */
  lemma DarkOnlyOverVacantZones(cfg: EngineConfig, displays: Panels, zones: Zones,
                                t0: Instant, gate: Gate, run: seq<Moment>, i: nat, d: DisplayId)
    requires i <= |run| && Faithful(cfg.fuse)
    requires forall k :: 0 <= k < |run| ==> Unasked(run[k], AnyBlanks) && Genuine(run[k])
    requires d in After(Fresh(cfg, displays, zones, t0, gate), run, i).e.machines
    ensures var e := After(Fresh(cfg, displays, zones, t0, gate), run, i).e;
            var m := e.machines[d];
            && (m.phase.Grace? || m.phase.Blanked? || InLadderRender(m.phase) ==> KnownVacant(e, d))
            && (m.phase.Blanking? ==> KnownVacant(e, d) || m.pendingWake)
  {
    hide Play, NewEngine, Unasked, Genuine, Faithful, KnownVacant, ToldAt;
    ToldThroughout(cfg, displays, zones, t0, gate, run, i);
    EngineNeverDarkensPresentRooms(cfg, displays, zones, t0, gate, run, i, d);
    ToldAbsent(After(Fresh(cfg, displays, zones, t0, gate), run, i).e, d);
  }

  lemma ToldAbsent(e: Engine, d: DisplayId)
    requires d in e.machines && ToldAt(e, d)
    ensures e.machines[d].zone == Some(false) ==> KnownVacant(e, d)
  {
  }
}
