/** The rules engine as the object the daemon drives: its maps and its timer wheel, updated in
    place.  Every method computes exactly its counterpart in `EngineSpec`. */
module Engine {
  import opened DisplayTypes
  import opened DisplaySpec
  import opened EngineSpec
  import opened TimerDrain

  class RulesEngine {
    const cfg: EngineConfig
    var machines: map<DisplayId, Machine>
    var lastOwned: map<DisplayId, bool>
    var holds: map<Sensor, Hold>
    var inputWakeHolds: map<DisplayId, Instant>
    var claimSuppression: map<DisplayId, Instant>
    var zones: Zones
    var timers: seq<Timer>
    var outbox: seq<Sent>
    ghost var delivered: seq<Delivery>

    ghost function State(): EngineSpec.Engine
      reads this
    {
      EngineSpec.Engine(cfg, machines, lastOwned, holds, inputWakeHolds, claimSuppression, zones, timers, outbox,
                        delivered)
    }

    constructor (initial: EngineSpec.Engine)
      ensures State() == initial
    {
      cfg := initial.cfg;
      machines := initial.machines;
      lastOwned := initial.lastOwned;
      holds := initial.holds;
      inputWakeHolds := initial.inputHolds;
      claimSuppression := initial.suppression;
      zones := initial.zones;
      timers := initial.timers;
      outbox := initial.outbox;
      delivered := initial.delivered;
    }

    method ProcessEffect(d: DisplayId, fx: Effect)
      modifies this`timers, this`outbox
      ensures timers == old(timers) + Scheduled(d, [fx])
      ensures outbox == old(outbox) + Commanded(d, [fx])
    {
      match fx {
        case ScheduleTickAt(at) => timers := timers + [Timer(at, DisplayTick(d))];
        case ScheduleStageTickAt(gen, at) => timers := timers + [Timer(at, DisplayStageTick(d, gen))];
        case LogTransition(_, _, _) =>
        case _ => outbox := outbox + [Sent(d, fx)];
      }
    }

    /** Steps a machine, then runs its effects in order.  Displays without a machine are ignored. */
    method StepMachine(d: DisplayId, input: Input, now: Instant)
      modifies this
      ensures State() == EngineSpec.StepMachine(old(State()), d, input, now)
    {
      hide Step, Scheduled, Commanded;
      if d !in machines {
        return;
      }
      var o := Step(machines[d], input, now);
      machines := machines[d := o.m];
      NothingYet(d, o.fx);
      label stepped:
      for i := 0 to |o.fx|
        invariant timers == old@stepped(timers) + Scheduled(d, o.fx[..i])
        invariant outbox == old@stepped(outbox) + Commanded(d, o.fx[..i])
        invariant machines == old@stepped(machines) && lastOwned == old@stepped(lastOwned) &&
                  holds == old@stepped(holds)
        invariant inputWakeHolds == old@stepped(inputWakeHolds) && claimSuppression == old@stepped(claimSuppression)
        invariant zones == old@stepped(zones) && delivered == old@stepped(delivered)
      {
        PrefixGrows(d, o.fx, i);
        ProcessEffect(d, o.fx[i]);
      }
      assert o.fx[..|o.fx|] == o.fx;
    }

    method FeedOwnership(d: DisplayId, now: Instant, gate: Gate)
      modifies this
      ensures State() == EngineSpec.FeedOwnership(old(State()), d, now, gate)
    {
      hide EngineSpec.StepMachine;
      var owns := gate(d);
      if d in lastOwned && lastOwned[d] == owns {
        return;
      }
      if !owns && d in claimSuppression && now < claimSuppression[d] {
        lastOwned := lastOwned[d := true];
        return;
      }
      lastOwned := lastOwned[d := owns];
      StepMachine(d, OwnershipChanged(owns), now);
    }

    method StepOne(d: DisplayId, input: Input, now: Instant, gate: Gate)
      modifies this
      ensures State() == EngineSpec.StepOne(old(State()), d, input, now, gate)
    {
      hide EngineSpec.StepMachine, EngineSpec.FeedOwnership;
      FeedOwnership(d, now, gate);
      StepMachine(d, input, now);
    }

    /** Any driving zone occupied or unknown. */
    method EffectiveZonePresence(d: DisplayId) returns (present: bool)
      ensures present == EffectivePresence(State(), d)
    {
      for i := 0 to |cfg.rules|
        invariant forall j :: 0 <= j < i ==> !(d in cfg.rules[j].displays && Occupied(zones, cfg.rules[j].zone))
      {
        if d in cfg.rules[i].displays && Occupied(zones, cfg.rules[i].zone) {
          return true;
        }
      }
      return false;
    }

    method SetInputWakeHold(d: DisplayId, active: bool)
      modifies this`machines
      ensures State() == SetHoldFlag(old(State()), d, active)
    {
      if d in machines {
        machines := machines[d := machines[d].(inputWakeHold := active)];
      }
    }

    method FanToDisplay(d: DisplayId, wall: Instant, gate: Gate)
      modifies this
      ensures State() == FanOne(old(State()), d, wall, gate)
    {
      hide EngineSpec.StepOne, EffectivePresence;
      var present := EffectiveZonePresence(d);
      if present {
        inputWakeHolds := inputWakeHolds - {d};
        SetInputWakeHold(d, false);
      }
      StepOne(d, ZonePresent(present), wall, gate);
    }

    method FanToDisplays(ds: seq<DisplayId>, wall: Instant, gate: Gate)
      modifies this
      ensures State() == Fan(old(State()), ds, wall, gate)
    {
      hide FanOne;
      for j := 0 to |ds|
        invariant State() == Fan(old(State()), ds[..j], wall, gate)
      {
        assert ds[..j + 1] == ds[..j] + [ds[j]];
        FanGrows(old(State()), ds[..j], ds[j], wall, gate);
        FanToDisplay(ds[j], wall, gate);
      }
      assert ds[..|ds|] == ds;
    }

    /** Every display of every rule on the zone, in rule order. */
    method FanZoneChangeToDisplays(zone: Zone, wall: Instant, gate: Gate)
      modifies this
      ensures State() == Fan(old(State()), Targets(cfg.rules, zone), wall, gate)
    {
      hide Fan, Targets;
      NoTargets(old(State()), zone, wall, gate);
      for i := 0 to |cfg.rules|
        invariant State() == Fan(old(State()), Targets(cfg.rules[..i], zone), wall, gate)
      {
        TargetsGrow(cfg.rules, zone, i);
        if cfg.rules[i].zone == zone {
          FanConcat(old(State()), Targets(cfg.rules[..i], zone), cfg.rules[i].displays, wall, gate);
          FanToDisplays(cfg.rules[i].displays, wall, gate);
        }
      }
      assert cfg.rules[..|cfg.rules|] == cfg.rules;
    }

    /** Swallow, arm or pass through. */
    method ApplyHoldFilter(s: Sensor, state: SensorState, wall: Instant) returns (passes: bool)
      modifies this`holds, this`timers
      ensures Filtered(State(), passes) == HoldFilter(old(State()), s, state, wall)
    {
      if s !in holds {
        return true;
      }
      var hold := holds[s];
      match state {
        case Present =>
          if s !in cfg.holdTimes {
            return false;
          }
          var deadline := wall + cfg.holdTimes[s];
          holds := holds[s := Hold(Some(deadline), false)];
          timers := timers + [Timer(deadline, HoldExpiry(s))];
          return true;
        case Absent =>
          if hold.armedUntil.Some? {
            holds := holds[s := hold.(pendingAbsent := true)];
            return false;
          }
          return true;
        case Unavailable =>
          holds := holds[s := hold.(pendingAbsent := false)];
          return true;
      }
    }

    method HandlePresenceEvent(s: Sensor, state: SensorState, wall: Instant, gate: Gate)
      modifies this
      ensures State() == HandlePresence(old(State()), s, state, wall, gate)
    {
      hide HoldFilter, Fan, Targets;
      var passes := ApplyHoldFilter(s, state, wall);
      if !passes {
        return;
      }
      ghost var filtered := State();
      var (fused, changed) := cfg.fuse(zones, s, state);
      zones := fused;
      delivered := delivered + [Delivery(s, state, wall)];
      ghost var start := State();
      for i := 0 to |changed|
        invariant State() == FanZones(start, changed[..i], wall, gate)
      {
        FanZonesGrow(start, changed, i, wall, gate);
        FanZonesKeepConfig(start, changed[..i], wall, gate);
        FanZoneChangeToDisplays(changed[i], wall, gate);
      }
      assert changed[..|changed|] == changed;
    }

    method EffectiveInputWakeHold(d: DisplayId) returns (hold: Option<Duration>)
      ensures hold == EffectiveInputHold(cfg.rules, zones, d)
    {
      hold := None;
      for i := 0 to |cfg.rules|
        invariant hold == ShortestHold(cfg.rules[..i], d)
        invariant forall j :: 0 <= j < i ==> !(d in cfg.rules[j].displays && Occupied(zones, cfg.rules[j].zone))
      {
        var rule := cfg.rules[i];
        assert cfg.rules[..i + 1][..i] == cfg.rules[..i];
        if d in rule.displays {
          if Occupied(zones, rule.zone) {
            return None;
          }
          if hold.None? || rule.inputWakeHold < hold.value {
            hold := Some(rule.inputWakeHold);
          }
        }
      }
      assert cfg.rules[..|cfg.rules|] == cfg.rules;
    }

    /** The InputWake control: arms the hold when every driving zone is vacant, then steps. */
    method HandleInputWake(d: DisplayId, wall: Instant, gate: Gate)
      modifies this
      ensures State() == InputWakeControl(old(State()), d, wall, gate)
    {
      hide EngineSpec.StepOne, EffectiveInputHold;
      var hold := EffectiveInputWakeHold(d);
      if hold.Some? && hold.value > 0 {
        var deadline := wall + hold.value;
        inputWakeHolds := inputWakeHolds[d := deadline];
        timers := timers + [Timer(deadline, InputWakeHoldExpiry(d))];
        SetInputWakeHold(d, true);
      }
      StepOne(d, InputWake, wall, gate);
    }

    method FireHoldExpiry(s: Sensor, now: Instant, wall: Instant, gate: Gate)
      modifies this
      ensures State() == EngineSpec.FireHoldExpiry(old(State()), s, now, wall, gate)
    {
      hide HandlePresence;
      if s !in holds {
        return;
      }
      var hold := holds[s];
      if hold.armedUntil.None? {
        holds := holds[s := hold.(pendingAbsent := false)];
        return;
      }
      if now < hold.armedUntil.value {
        return;
      }
      holds := holds[s := Hold(None, false)];
      if hold.pendingAbsent {
        HandlePresenceEvent(s, Absent, wall, gate);
      }
    }

    method FireInputWakeHoldExpiry(d: DisplayId, now: Instant, gate: Gate)
      modifies this
      ensures State() == FireInputWakeExpiry(old(State()), d, now, gate)
    {
      hide EngineSpec.StepMachine, EngineSpec.FeedOwnership, EffectiveInputHold;
      if d !in inputWakeHolds || inputWakeHolds[d] > now {
        return;
      }
      inputWakeHolds := inputWakeHolds - {d};
      SetInputWakeHold(d, false);
      FeedOwnership(d, now, gate);
      var hold := EffectiveInputWakeHold(d);
      if hold.Some? {
        StepMachine(d, ZonePresent(false), now);
      }
    }

    /** Pops entries until none is due.  The wall clock is read anew at each; the gate's
        verdicts hold still.  Paced timings are exactly what makes it stop. */
    method FireDueTimers(now: Instant, clock: nat -> Instant, gate: Gate)
      requires AllPaced(State())
      modifies this
      ensures State() == Drain(old(State()), now, clock, 0, gate)
      ensures forall t :: t in timers ==> t.at > now
    {
      hide EngineSpec.StepOne, EngineSpec.FireHoldExpiry, FireInputWakeExpiry, OneOffs, Unsettled, Paused, Load;
      var n := 0;
      while Due(timers, now)
        invariant AllPaced(State())
        invariant Drain(State(), now, clock, n, gate) == Drain(old(State()), now, clock, 0, gate)
        decreases OneOffs(timers), Unsettled(State(), gate), Paused(State()), Load(timers, now)
      {
        var k := Next(timers);
        FireShrinks(State(), k, clock(n), gate, now);
        var t := timers[k];
        timers := Without(timers, k);
        match t.entry {
          case DisplayTick(d) => StepOne(d, Tick, t.at, gate);
          case DisplayStageTick(d, gen) => StepOne(d, StageTick(gen), t.at, gate);
          case HoldExpiry(s) => FireHoldExpiry(s, t.at, clock(n), gate);
          case InputWakeHoldExpiry(d) => FireInputWakeHoldExpiry(d, t.at, gate);
        }
        n := n + 1;
      }
      DrainEmptiesWheel(old(State()), now, clock, 0, gate);
    }
  }

  // ── Loops against the recursive specification ───────────────────────────

  lemma {:induction false} ScheduledConcat(d: DisplayId, a: seq<Effect>, b: seq<Effect>)
    ensures Scheduled(d, a + b) == Scheduled(d, a) + Scheduled(d, b)
  {
    if a == [] {
      assert a + b == b;
    } else {
      assert (a + b)[1..] == a[1..] + b;
      ScheduledConcat(d, a[1..], b);
    }
  }

  lemma {:induction false} CommandedConcat(d: DisplayId, a: seq<Effect>, b: seq<Effect>)
    ensures Commanded(d, a + b) == Commanded(d, a) + Commanded(d, b)
  {
    hide Command;
    if a == [] {
      assert a + b == b;
    } else {
      assert (a + b)[1..] == a[1..] + b;
      CommandedConcat(d, a[1..], b);
    }
  }

  lemma NothingYet(d: DisplayId, fx: seq<Effect>)
    ensures Scheduled(d, fx[..0]) == [] && Commanded(d, fx[..0]) == []
  {
  }

  lemma PrefixGrows(d: DisplayId, fx: seq<Effect>, i: nat)
    requires i < |fx|
    ensures Scheduled(d, fx[..i + 1]) == Scheduled(d, fx[..i]) + Scheduled(d, [fx[i]])
    ensures Commanded(d, fx[..i + 1]) == Commanded(d, fx[..i]) + Commanded(d, [fx[i]])
  {
    assert fx[..i + 1] == fx[..i] + [fx[i]];
    ScheduledConcat(d, fx[..i], [fx[i]]);
    CommandedConcat(d, fx[..i], [fx[i]]);
  }

  lemma TargetsGrow(rules: seq<Rule>, zone: Zone, i: nat)
    requires i < |rules|
    ensures Targets(rules[..i + 1], zone) ==
            if rules[i].zone == zone then Targets(rules[..i], zone) + rules[i].displays else Targets(rules[..i], zone)
  {
    assert rules[..i + 1][..i] == rules[..i];
  }

  lemma FanGrows(e: EngineSpec.Engine, ds: seq<DisplayId>, d: DisplayId, wall: Instant, gate: Gate)
    ensures Fan(e, ds + [d], wall, gate) == FanOne(Fan(e, ds, wall, gate), d, wall, gate)
  {
    assert (ds + [d])[..|ds|] == ds;
  }

  lemma {:induction false} FanConcat(e: EngineSpec.Engine, a: seq<DisplayId>, b: seq<DisplayId>, wall: Instant,
                                     gate: Gate)
    ensures Fan(e, a + b, wall, gate) == Fan(Fan(e, a, wall, gate), b, wall, gate)
    decreases |b|
  {
    hide FanOne;
    if b == [] {
      assert a + b == a;
    } else {
      var last := |b| - 1;
      FanConcat(e, a, b[..last], wall, gate);
      assert a + b == (a + b[..last]) + [b[last]];
      FanGrows(e, a + b[..last], b[last], wall, gate);
    }
  }

  lemma NoTargets(e: EngineSpec.Engine, zone: Zone, wall: Instant, gate: Gate)
    ensures Fan(e, Targets([], zone), wall, gate) == e
  {
  }

  lemma FanZonesGrow(e: EngineSpec.Engine, zones: seq<Zone>, i: nat, wall: Instant, gate: Gate)
    requires i < |zones|
    ensures var f := FanZones(e, zones[..i], wall, gate);
            FanZones(e, zones[..i + 1], wall, gate) == Fan(f, Targets(f.cfg.rules, zones[i]), wall, gate)
  {
    hide Fan, Targets;
    assert zones[..i + 1][..i] == zones[..i];
    FanZonesKeepConfig(e, zones[..i], wall, gate);
  }

  lemma FanZonesKeepConfig(e: EngineSpec.Engine, zones: seq<Zone>, wall: Instant, gate: Gate)
    ensures FanZones(e, zones, wall, gate).cfg == e.cfg
  {
    hide FanZones, OneOffs;
    FanZonesSparing(e, zones, wall, gate);
  }
}
