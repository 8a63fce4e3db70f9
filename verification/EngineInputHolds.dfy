/** The input-wake hold: as long as the shortest of the rules that drive the display, only while
    every zone that drives it is vacant, and at its end the vacancy held back takes effect. */
module EngineInputHolds {
  import opened DisplayTypes
  import opened DisplaySpec
  import opened EngineSpec
  import opened EngineRuns
  import opened EngineRefines
  import opened EngineInputs

  predicate Drives(r: Rule, d: DisplayId) { d in r.displays }

  /** Some rule drives the display, and every zone that does is known vacant. */
  ghost predicate DrivenVacant(rules: seq<Rule>, z: Zones, d: DisplayId) {
    && (exists r :: r in rules && Drives(r, d))
    && forall r :: r in rules && Drives(r, d) ==> r.zone in z.levels && !z.levels[r.zone]
  }

  /** The hold of some rule that drives the display, and no such rule's is shorter. */
  ghost predicate Shortest(rules: seq<Rule>, d: DisplayId, h: Duration) {
    && (exists r :: r in rules && Drives(r, d) && r.inputWakeHold == h)
    && forall r :: r in rules && Drives(r, d) ==> h <= r.inputWakeHold
  }

  lemma {:induction false} ShortestIsLeast(rules: seq<Rule>, d: DisplayId)
    ensures ShortestHold(rules, d).None? <==> forall r :: r in rules ==> !Drives(r, d)
    ensures ShortestHold(rules, d).Some? ==> Shortest(rules, d, ShortestHold(rules, d).value)
    decreases |rules|
  {
    if rules != [] {
      var (front, last) := (rules[..|rules| - 1], rules[|rules| - 1]);
      ShortestIsLeast(front, d);
      assert forall r :: r in rules <==> r in front || r == last;
      if d in last.displays {
        assert Drives(last, d);
      }
    }
  }

  /** The hold in effect is the shortest of the driving rules', and there is one exactly while every
      driving zone is known vacant. */
  lemma HoldExactlyWhileVacant(rules: seq<Rule>, z: Zones, d: DisplayId)
    ensures EffectiveInputHold(rules, z, d).Some? <==> DrivenVacant(rules, z, d)
    ensures EffectiveInputHold(rules, z, d).Some? ==> Shortest(rules, d, EffectiveInputHold(rules, z, d).value)
  {
    hide ShortestHold;
    ShortestIsLeast(rules, d);
    if r :| r in rules && d in r.displays && Occupied(z, r.zone) {
      assert Drives(r, d);
    }
    if forall r :: r in rules && d in r.displays ==> !Occupied(z, r.zone) {
      assert forall r :: r in rules && Drives(r, d) ==> r.zone in z.levels && !z.levels[r.zone];
    }
  }

  /** Woken by input over vacant zones, a display is held back from them for the shortest driving hold,
      and its end is on the wheel; otherwise nothing is held. */
  lemma InputArmsShortest(e: Engine, d: DisplayId, wall: Instant, gate: Gate, h: Duration)
    requires Shortest(e.cfg.rules, d, h)
    ensures var f := InputWakeControl(e, d, wall, gate);
            if DrivenVacant(e.cfg.rules, e.zones, d) && h > 0 then
              && f.inputHolds == e.inputHolds[d := wall + h]
              && Timer(wall + h, InputWakeHoldExpiry(d)) in f.timers
              && (d in e.machines ==> d in f.machines && f.machines[d].inputWakeHold)
            else f.inputHolds == e.inputHolds
  {
    hide StepOne, EffectiveInputHold;
    HoldExactlyWhileVacant(e.cfg.rules, e.zones, d);
    var a := ArmInputWake(e, d, wall);
    StepOneDisplays(a, d, InputWake, wall, gate);
    FlagStays(a, d, InputWake, wall, gate);
    InputKeepsHolds(a, d, wall, gate);
    if DrivenVacant(e.cfg.rules, e.zones, d) {
      SameShortest(e.cfg.rules, d, h, EffectiveInputHold(e.cfg.rules, e.zones, d).value);
      if h > 0 {
        assert a.timers[|e.timers|] == Timer(wall + h, InputWakeHoldExpiry(d));
        assert StepOne(a, d, InputWake, wall, gate).timers[|e.timers|] == a.timers[|e.timers|];
      }
    }
  }

  /** The wake itself arrives, its verdict settled: the display steps by it, held back or not. */
  lemma InputWakeArrives(e: Engine, d: DisplayId, wall: Instant, gate: Gate)
    requires d in e.machines && Settled(e, d, gate)
    ensures var a := ArmInputWake(e, d, wall);
            && a.machines.Keys == e.machines.Keys && a.outbox == e.outbox
            && (forall q :: q in e.machines && q != d ==> a.machines[q] == e.machines[q])
            && a.machines[d] == e.machines[d].(inputWakeHold := a.machines[d].inputWakeHold)
            && Took(a, InputWakeControl(e, d, wall, gate), d, InputWake, wall)
  {
    hide EffectiveInputHold, StepOne, Took;
    SettledTakes(ArmInputWake(e, d, wall), d, InputWake, wall, gate);
  }

  lemma SameShortest(rules: seq<Rule>, d: DisplayId, h: Duration, k: Duration)
    requires Shortest(rules, d, h) && Shortest(rules, d, k)
    ensures h == k
  {
  }

  lemma StepFlag(e: Engine, d: DisplayId, input: Input, now: Instant)
    ensures var f := StepMachine(e, d, input, now);
            && f.machines.Keys == e.machines.Keys && f.inputHolds == e.inputHolds
            && (d in e.machines ==> f.machines[d].inputWakeHold == e.machines[d].inputWakeHold)
  {
    hide Step, Scheduled, Commanded;
    if d in e.machines {
      Frames.StepKeeps(e.machines[d], input, now);
    }
  }

  lemma FlagStays(e: Engine, d: DisplayId, input: Input, now: Instant, gate: Gate)
    ensures var f := StepOne(e, d, input, now, gate);
            d in e.machines ==> d in f.machines && f.machines[d].inputWakeHold == e.machines[d].inputWakeHold
  {
    hide StepMachine;
    StepFlag(e.(lastOwned := e.lastOwned[d := gate(d)]), d, OwnershipChanged(gate(d)), now);
    StepFlag(FeedOwnership(e, d, now, gate), d, input, now);
  }

  lemma InputKeepsHolds(e: Engine, d: DisplayId, wall: Instant, gate: Gate)
    ensures var f := StepOne(e, d, InputWake, wall, gate); f.inputHolds == e.inputHolds
  {
    hide Step;
  }

  // ── Its end ─────────────────────────────────────────────────────────────

  /** What a display that is Active when its hold ends over vacant zones is left with: a full countdown
      to the dark, ticked at its end, or frozen if an overlay is on. */
  predicate CountsDown(m: Machine, now: Instant, ts: seq<Timer>, d: DisplayId) {
    && m.phase == Grace(now + m.cfg.timings.gracePeriod) && m.zone == Some(false) && !m.inputWakeHold
    && (if OverlayOn(m) then m.graceFrozen == Some(m.cfg.timings.gracePeriod)
        else m.graceFrozen.None? && Timer(now + m.cfg.timings.gracePeriod, DisplayTick(d)) in ts)
  }

  lemma VacancyCounts(e: Engine, d: DisplayId, now: Instant)
    requires d in e.machines && e.machines[d].phase.Active? && !e.machines[d].inputWakeHold
    ensures var f := StepMachine(e, d, ZonePresent(false), now); CountsDown(f.machines[d], now, f.timers, d)
  {
    hide StepGrace, StepBlanking, StepBlanked, StepWaking, StepRenderPending, StepStaged, Commanded;
    var o := Step(e.machines[d], ZonePresent(false), now);
    if !OverlayOn(e.machines[d]) {
      assert o.fx[1] == ScheduleTickAt(now + o.m.cfg.timings.gracePeriod);
      TickScheduled(d, o.fx, 1);
    }
  }

  lemma {:induction false} TickScheduled(d: DisplayId, fx: seq<Effect>, k: nat)
    requires k < |fx| && fx[k].ScheduleTickAt?
    ensures Timer(fx[k].at, DisplayTick(d)) in Scheduled(d, fx)
  {
    if k > 0 {
      TickScheduled(d, fx[1..], k - 1);
    }
  }

  /** What the end of a hold comes to, `now`: the hold lifted; and for a display whose verdict is
      settled, over vacant zones, if it was kept Active, its countdown started - and otherwise nothing. */
  ghost predicate Ended(e: Engine, f: Engine, d: DisplayId, now: Instant, gate: Gate) {
    && f.inputHolds == e.inputHolds - {d} && f.machines.Keys == e.machines.Keys
    && (d in e.machines ==>
          && !f.machines[d].inputWakeHold
          && (Settled(e, d, gate) && !DrivenVacant(e.cfg.rules, e.zones, d) ==>
                f.machines[d] == e.machines[d].(inputWakeHold := false))
          && (Settled(e, d, gate) && DrivenVacant(e.cfg.rules, e.zones, d) && e.machines[d].phase.Active? ==>
                CountsDown(f.machines[d], now, f.timers, d)))
  }

  lemma EndOfHold(e: Engine, d: DisplayId, now: Instant, gate: Gate)
    requires d in e.inputHolds && e.inputHolds[d] <= now
    ensures Ended(e, FireInputWakeExpiry(e, d, now, gate), d, now, gate)
  {
    hide StepMachine, EffectiveInputHold, CountsDown, DrivenVacant;
    HoldExactlyWhileVacant(e.cfg.rules, e.zones, d);
    var c := ClearInputHold(e, d);
    var f := FeedOwnership(c, d, now, gate);
    StepFlag(c.(lastOwned := c.lastOwned[d := gate(d)]), d, OwnershipChanged(gate(d)), now);
    FeedView(c, d, now, gate);
    StepFlag(f, d, ZonePresent(false), now);
    if d in c.machines && c.machines[d].phase.Active? {
      VacancyCounts(c, d, now);
    }
  }

  lemma FeedView(e: Engine, d: DisplayId, now: Instant, gate: Gate)
    ensures var f := FeedOwnership(e, d, now, gate); f.cfg == e.cfg && f.zones == e.zones
  {
    hide Step;
  }

  /** Firing the end of a hold that has run out ends it.  An entry before the deadline, or after the
      hold was lifted, does nothing. */
  lemma HoldEndCountsDown(e: Engine, k: nat, wall: Instant, gate: Gate)
    requires k < |e.timers| && e.timers[k].entry.InputWakeHoldExpiry?
    ensures var (d, at) := (e.timers[k].entry.display, e.timers[k].at);
            var (r, f) := (e.(timers := Without(e.timers, k)), FireAt(e, k, wall, gate));
            if d in e.inputHolds && e.inputHolds[d] <= at then Ended(r, f, d, at, gate) else f == r
  {
    hide Without, FireInputWakeExpiry, Ended;
    var (d, at) := (e.timers[k].entry.display, e.timers[k].at);
    var r := e.(timers := Without(e.timers, k));
    if d in e.inputHolds && e.inputHolds[d] <= at {
      EndOfHold(r, d, at, gate);
    } else {
      StaleEnd(r, d, at, gate);
    }
  }

  lemma StaleEnd(e: Engine, d: DisplayId, now: Instant, gate: Gate)
    requires d !in e.inputHolds || e.inputHolds[d] > now
    ensures FireInputWakeExpiry(e, d, now, gate) == e
  {
  }
}
