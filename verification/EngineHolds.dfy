/** The sensor hold filter is sound and loses nothing. */
module EngineHolds {
  import opened DisplayTypes
  import opened EngineSpec
  import opened EngineRuns
  import opened TimerDrain

  /** Deliveries of `s` as absent between `e` and `f`, made at `wall`. */
  predicate DeliversAbsence(e: Engine, f: Engine, s: Sensor) {
    |e.delivered| <= |f.delivered| &&
    exists i :: |e.delivered| <= i < |f.delivered| && f.delivered[i].sensor == s && f.delivered[i].state == Absent
  }

  // ── Soundness ───────────────────────────────────────────────────────────

  predicate AtMostOneDelivery(e: Engine, f: Engine, wall: Instant) {
    f.delivered == e.delivered ||
    (|f.delivered| == |e.delivered| + 1 && e.delivered <= f.delivered && f.delivered[|e.delivered|].at == wall)
  }

  lemma PresenceDelivers(e: Engine, s: Sensor, state: SensorState, wall: Instant, gate: Gate)
    ensures var f := HandlePresence(e, s, state, wall, gate);
            && AtMostOneDelivery(e, f, wall)
            && (f.delivered != e.delivered ==>
                  f.delivered[|e.delivered|] == Delivery(s, state, wall) &&
                  (state.Absent? && s in e.holds ==> e.holds[s].armedUntil.None?))
            && (state.Absent? && (s !in e.holds || e.holds[s].armedUntil.None?) ==>
                 f.delivered == e.delivered + [Delivery(s, state, wall)])
            && (forall q :: q in e.holds && q != s ==> q in f.holds && f.holds[q] == e.holds[q])
  {
    hide Deliver, Linked;
    DeliverShape(HoldFilter(e, s, state, wall).e, s, state, wall, gate);
  }

  /** Of all reports only an absence under an armed hold is kept from the zones: it stays pending under
      the hold's deadline.  A presence arms the hold anew and an outage lifts what is pending, and both
      go through. */
  lemma OnlyHeldAbsencesAreKept(e: Engine, s: Sensor, state: SensorState, wall: Instant, gate: Gate)
    requires s in e.holds ==> s in e.cfg.holdTimes
    ensures var f := HandlePresence(e, s, state, wall, gate);
            var held := s in e.holds && e.holds[s].armedUntil.Some?;
            && f.delivered == e.delivered + (if state.Absent? && held then [] else [Delivery(s, state, wall)])
            && (s in e.holds ==>
                  && s in f.holds
                  && match state
                     case Present =>
                       && f.holds[s] == Hold(Some(wall + e.cfg.holdTimes[s]), false)
                       && Timer(wall + e.cfg.holdTimes[s], HoldExpiry(s)) in f.timers
                     case Absent => f.holds[s] == Hold(e.holds[s].armedUntil, held || e.holds[s].pendingAbsent)
                     case Unavailable => f.holds[s] == Hold(e.holds[s].armedUntil, false))
  {
    hide Deliver, Linked;
    var g := HoldFilter(e, s, state, wall).e;
    DeliverShape(g, s, state, wall, gate);
    if state.Present? && s in e.holds {
      assert g.timers[|e.timers|] == Timer(wall + e.cfg.holdTimes[s], HoldExpiry(s));
      assert Deliver(g, s, state, wall, gate).timers[|e.timers|] == g.timers[|e.timers|];
    }
  }

  lemma DisplayFireDelivers(e: Engine, k: nat, wall: Instant, gate: Gate)
    requires k < |e.timers| && !e.timers[k].entry.HoldExpiry?
    ensures var f := FireAt(e, k, wall, gate); f.delivered == e.delivered && f.holds == e.holds
  {
    hide StepOne, StepMachine, FeedOwnership, ClearInputHold, EffectiveInputHold, Without, Synced, FlagsMatch;
    var t := e.timers[k];
    var r := e.(timers := Without(e.timers, k));
    match t.entry
    case DisplayTick(d) => StepOneDisplays(r, d, Tick, t.at, gate);
    case DisplayStageTick(d, gen) => StepOneDisplays(r, d, StageTick(gen), t.at, gate);
    case InputWakeHoldExpiry(d) =>
      ClearDisplays(r, d);
      FeedDisplays(ClearInputHold(r, d), d, t.at, gate);
      StepDisplays(FeedOwnership(ClearInputHold(r, d), d, t.at, gate), d, ZonePresent(false), t.at);
  }

  /** A sensor's entry, once its hold has run out, disarms it and delivers what it swallowed. */
  lemma HoldFireDelivers(e: Engine, k: nat, wall: Instant, gate: Gate)
    requires k < |e.timers| && e.timers[k].entry.HoldExpiry?
    ensures var f := FireAt(e, k, wall, gate);
            var (s, at) := (e.timers[k].entry.sensor, e.timers[k].at);
            && AtMostOneDelivery(e, f, wall)
            && (forall q :: q in e.holds && q != s ==> q in f.holds && f.holds[q] == e.holds[q])
            && (f.delivered != e.delivered ==>
                  f.delivered[|e.delivered|] == Delivery(s, Absent, wall) && s in e.holds && e.holds[s].pendingAbsent &&
                  (e.holds[s].armedUntil.Some? ==> e.holds[s].armedUntil.value <= at))
            && (s in e.holds && e.holds[s].armedUntil.Some? && e.holds[s].armedUntil.value <= at &&
                 e.holds[s].pendingAbsent ==>
                  f.delivered == e.delivered + [Delivery(s, Absent, wall)])
            && (s in e.holds && e.holds[s].armedUntil.Some? && at < e.holds[s].armedUntil.value ==> f.holds == e.holds)
  {
    hide HandlePresence, Without;
    var r := e.(timers := Without(e.timers, k));
    var s := e.timers[k].entry.sensor;
    if s in r.holds {
      PresenceDelivers(r.(holds := r.holds[s := Hold(None, false)]), s, Absent, wall, gate);
    }
  }

  /** What reached zone fusion in this moment as absent did so a full hold time after the last
      presence. */
  predicate DueAbsences(w: Watched, m: Moment) {
    var f := PlayEngine(w.e, m);
    forall i ::
      |w.e.delivered| <= i < |f.delivered| && f.delivered[i].state.Absent? && f.delivered[i].sensor in w.e.holds ==>
      var s := f.delivered[i].sensor;
      && s in w.e.cfg.holdTimes && f.delivered[i].at == m.wall
      && (s in w.lastPresent ==> w.lastPresent[s] + w.e.cfg.holdTimes[s] <= m.wall)
  }

  lemma FireDue(w: Watched, m: Moment)
    requires Sound(w) && Allowed(w, m) && m.event.Fire?
    ensures DueAbsences(w, m)
  {
    hide FireAt, Synced, FlagsMatch;
    if Due(w.e.timers, m.event.limit) {
      var k := Next(w.e.timers);
      if w.e.timers[k].entry.HoldExpiry? {
        HoldFireDelivers(w.e, k, m.wall, m.gate);
      } else {
        DisplayFireDelivers(w.e, k, m.wall, m.gate);
      }
    }
  }

  lemma QuietMoment(w: Watched, m: Moment)
    requires Allowed(w, m) && !m.event.Fire? && !m.event.Report?
    ensures PlayEngine(w.e, m).delivered == w.e.delivered
  {
    hide StepOne, StepMachine, FeedOwnership, EffectiveInputHold, Synced, FlagsMatch;
    match m.event
    case Control(d, input) => StepOneDisplays(w.e, d, input, m.wall, m.gate);
    case WakeByInput(d) => StepOneDisplays(ArmInputWake(w.e, d, m.wall), d, InputWake, m.wall, m.gate);
    case Poll(d) => FeedDisplays(w.e, d, m.wall, m.gate);
    case SetSuppression(_, _) =>
    case Answer(d, input) => StepDisplays(w.e, d, input, m.wall);
  }

  /** In every run, a sensor with a hold time reaches the zones as absent only that long after
      it last reported present. */
  lemma AbsenceOnlyAfterHold(cfg: EngineConfig, displays: Panels, zones: Zones,
                             t0: Instant, gate: Gate, run: seq<Moment>, n: nat)
    requires n < |run| && AllowedRun(Fresh(cfg, displays, zones, t0, gate), run)
    ensures DueAbsences(After(Fresh(cfg, displays, zones, t0, gate), run, n), run[n])
  {
    hide Play, NewEngine, PlayEngine, Allowed, Sound, DueAbsences;
    SoundThroughout(cfg, displays, zones, t0, gate, run, n);
    AbsenceDue(After(Fresh(cfg, displays, zones, t0, gate), run, n), run[n]);
  }

  lemma AbsenceDue(w: Watched, m: Moment)
    requires Sound(w) && Allowed(w, m)
    ensures DueAbsences(w, m)
  {
    hide HandlePresence, FireAt, Linked;
    if m.event.Fire? {
      FireDue(w, m);
    } else if m.event.Report? {
      PresenceDelivers(w.e, m.event.sensor, m.event.state, m.wall, m.gate);
    } else {
      QuietMoment(w, m);
    }
  }

  // ── Nothing swallowed is lost ───────────────────────────────────────────

  predicate Swallowed(e: Engine, s: Sensor, limit: Instant) {
    s in e.holds && e.holds[s].pendingAbsent && e.holds[s].armedUntil.Some? && e.holds[s].armedUntil.value <= limit
  }

  /** One fired entry either leaves a swallowed absence waiting or delivers it. */
  lemma FireWaitsOrDelivers(e: Engine, k: nat, wall: Instant, gate: Gate, s: Sensor, limit: Instant)
    requires k < |e.timers| && Swallowed(e, s, limit) && e.timers[k].at <= limit
    ensures var f := FireAt(e, k, wall, gate);
            e.delivered <= f.delivered && (Swallowed(f, s, limit) || DeliversAbsence(e, f, s))
  {
    hide FireAt;
    if e.timers[k].entry.HoldExpiry? {
      HoldFireDelivers(e, k, wall, gate);
    } else {
      DisplayFireDelivers(e, k, wall, gate);
    }
  }

  /** Draining to `limit` delivers every absence whose hold ends by then. */
  lemma {:induction false} DrainDeliversSwallowed(e: Engine, limit: Instant, clock: nat -> Instant, n: nat, gate: Gate,
                                                  s: Sensor)
    requires AllPaced(e) && Linked(e) && Swallowed(e, s, limit)
    ensures DeliversAbsence(e, Drain(e, limit, clock, n, gate), s)
    decreases OneOffs(e.timers), Unsettled(e, gate), Paused(e), Load(e.timers, limit)
  {
    hide FireAt, AllPaced, OneOffs, Unsettled, Paused, Load, Linked, Swallowed, DeliversAbsence;
    SwallowedIsDue(e, s, limit);
    var k := Next(e.timers);
    var f := FireAt(e, k, clock(n), gate);
    FireShrinks(e, k, clock(n), gate, limit);
    FireLinked(e, k, clock(n), gate);
    FireWaitsOrDelivers(e, k, clock(n), gate, s, limit);
    DrainExtends(f, limit, clock, n + 1, gate);
    if Swallowed(f, s, limit) {
      DrainDeliversSwallowed(f, limit, clock, n + 1, gate, s);
      DeliveredLater(e, f, Drain(f, limit, clock, n + 1, gate), s);
    } else {
      DeliveredEarlier(e, f, Drain(f, limit, clock, n + 1, gate), s);
    }
  }

  lemma DeliveredLater(e: Engine, f: Engine, g: Engine, s: Sensor)
    requires e.delivered <= f.delivered && DeliversAbsence(f, g, s)
    ensures DeliversAbsence(e, g, s)
  {
  }

  lemma DeliveredEarlier(e: Engine, f: Engine, g: Engine, s: Sensor)
    requires f.delivered <= g.delivered && DeliversAbsence(e, f, s)
    ensures DeliversAbsence(e, g, s)
  {
  }

  lemma SwallowedIsDue(e: Engine, s: Sensor, limit: Instant)
    requires Linked(e) && Swallowed(e, s, limit)
    ensures Due(e.timers, limit)
  {
    hide Synced, FlagsMatch, InputHoldsBacked;
    var t := Timer(e.holds[s].armedUntil.value, HoldExpiry(s));
    assert t in e.timers;
    var j :| 0 <= j < |e.timers| && e.timers[j] == t;
    assert NoLater(e.timers[Next(e.timers)], e.timers[j]);
  }

  lemma FireExtends(e: Engine, k: nat, wall: Instant, gate: Gate)
    requires k < |e.timers|
    ensures e.delivered <= FireAt(e, k, wall, gate).delivered
  {
    hide FireAt;
    if e.timers[k].entry.HoldExpiry? {
      HoldFireDelivers(e, k, wall, gate);
    } else {
      DisplayFireDelivers(e, k, wall, gate);
    }
  }

  lemma {:induction false} DrainExtends(e: Engine, limit: Instant, clock: nat -> Instant, n: nat, gate: Gate)
    requires AllPaced(e)
    ensures e.delivered <= Drain(e, limit, clock, n, gate).delivered
    decreases OneOffs(e.timers), Unsettled(e, gate), Paused(e), Load(e.timers, limit)
  {
    hide FireAt, AllPaced, OneOffs, Unsettled, Paused, Load;
    if Due(e.timers, limit) {
      var k := Next(e.timers);
      FireShrinks(e, k, clock(n), gate, limit);
      FireExtends(e, k, clock(n), gate);
      DrainExtends(FireAt(e, k, clock(n), gate), limit, clock, n + 1, gate);
    }
  }

  lemma {:induction false} DrainLinked(e: Engine, limit: Instant, clock: nat -> Instant, n: nat, gate: Gate)
    requires AllPaced(e) && Linked(e)
    ensures Linked(Drain(e, limit, clock, n, gate))
    decreases OneOffs(e.timers), Unsettled(e, gate), Paused(e), Load(e.timers, limit)
  {
    hide FireAt, AllPaced, OneOffs, Unsettled, Paused, Load, Linked;
    if Due(e.timers, limit) {
      var k := Next(e.timers);
      FireShrinks(e, k, clock(n), gate, limit);
      FireLinked(e, k, clock(n), gate);
      DrainLinked(FireAt(e, k, clock(n), gate), limit, clock, n + 1, gate);
    }
  }

  /** After a drain no hold that should have ended is still in force, of either kind. */
  lemma DrainEndsDueHolds(e: Engine, limit: Instant, clock: nat -> Instant, gate: Gate)
    requires AllPaced(e) && Linked(e)
    ensures var f := Drain(e, limit, clock, 0, gate);
            && (forall s :: s in f.holds && f.holds[s].armedUntil.Some? ==> limit < f.holds[s].armedUntil.value)
            && (forall d :: d in f.inputHolds ==> limit < f.inputHolds[d])
            && (forall d :: d in f.machines && f.machines[d].inputWakeHold ==> d in f.inputHolds)
  {
    hide Drain, AllPaced, Synced;
    DrainLinked(e, limit, clock, 0, gate);
    DrainEmptiesWheel(e, limit, clock, 0, gate);
  }

  // ── From the swallow to the delivery, whatever happens between ──────────

  /** No later report of `s` but absences. */
  predicate OnlyAbsences(run: seq<Moment>, s: Sensor) {
    forall i :: 0 <= i < |run| && run[i].event.Report? && run[i].event.sensor == s ==> run[i].event.state.Absent?
  }

  predicate WaitsOrDelivered(e: Engine, f: Engine, s: Sensor) {
    && e.delivered <= f.delivered
    && (DeliversAbsence(e, f, s) || (s in e.holds && s in f.holds && f.holds[s] == e.holds[s]))
  }

  lemma ReportWaits(e: Engine, q: Sensor, state: SensorState, wall: Instant, gate: Gate, s: Sensor)
    requires s in e.holds && e.holds[s].pendingAbsent && e.holds[s].armedUntil.Some? && (q == s ==> state.Absent?)
    ensures WaitsOrDelivered(e, HandlePresence(e, q, state, wall, gate), s)
  {
    hide Deliver, Linked;
    DeliverShape(HoldFilter(e, q, state, wall).e, q, state, wall, gate);
  }

  lemma QuietHolds(w: Watched, m: Moment)
    requires Allowed(w, m) && !m.event.Fire? && !m.event.Report?
    ensures PlayEngine(w.e, m).holds == w.e.holds
  {
    hide StepOne, StepMachine, FeedOwnership, EffectiveInputHold, Synced, FlagsMatch;
    match m.event
    case Control(d, input) => StepOneDisplays(w.e, d, input, m.wall, m.gate);
    case WakeByInput(d) => StepOneDisplays(ArmInputWake(w.e, d, m.wall), d, InputWake, m.wall, m.gate);
    case Poll(d) => FeedDisplays(w.e, d, m.wall, m.gate);
    case SetSuppression(_, _) =>
    case Answer(d, input) => StepDisplays(w.e, d, input, m.wall);
  }

  lemma FireWaits(e: Engine, k: nat, wall: Instant, gate: Gate, s: Sensor)
    requires k < |e.timers| && s in e.holds && e.holds[s].pendingAbsent && e.holds[s].armedUntil.Some?
    ensures WaitsOrDelivered(e, FireAt(e, k, wall, gate), s)
  {
    hide FireAt;
    if e.timers[k].entry.HoldExpiry? {
      HoldFireDelivers(e, k, wall, gate);
    } else {
      DisplayFireDelivers(e, k, wall, gate);
    }
  }

  lemma MomentWaits(w: Watched, m: Moment, s: Sensor)
    requires Allowed(w, m) && s in w.e.holds && w.e.holds[s].pendingAbsent && w.e.holds[s].armedUntil.Some?
    requires m.event.Report? && m.event.sensor == s ==> m.event.state.Absent?
    ensures WaitsOrDelivered(w.e, PlayEngine(w.e, m), s)
  {
    hide FireAt, HandlePresence;
    if m.event.Report? {
      ReportWaits(w.e, m.event.sensor, m.event.state, m.wall, m.gate, s);
    } else if m.event.Fire? {
      if Due(w.e.timers, m.event.limit) {
        FireWaits(w.e, Next(w.e.timers), m.wall, m.gate, s);
      }
    } else {
      QuietMoment(w, m);
      QuietHolds(w, m);
    }
  }

  lemma MomentExtends(w: Watched, m: Moment)
    requires Allowed(w, m)
    ensures w.e.delivered <= PlayEngine(w.e, m).delivered
  {
    hide FireAt, HandlePresence;
    if m.event.Report? {
      PresenceDelivers(w.e, m.event.sensor, m.event.state, m.wall, m.gate);
    } else if m.event.Fire? {
      if Due(w.e.timers, m.event.limit) {
        FireExtends(w.e, Next(w.e.timers), m.wall, m.gate);
      }
    } else {
      QuietMoment(w, m);
    }
  }

  /** A swallowed absence stays pending under its original deadline, across any run without a
      later presence or outage of its sensor, until it is delivered. */
  lemma {:induction false} SwallowedUntilDelivered(w: Watched, run: seq<Moment>, i: nat, s: Sensor)
    requires i <= |run| && AllowedRun(w, run) && OnlyAbsences(run, s)
    requires s in w.e.holds && w.e.holds[s].pendingAbsent && w.e.holds[s].armedUntil.Some?
    ensures WaitsOrDelivered(w.e, After(w, run, i).e, s)
  {
    hide PlayEngine, Allowed, DeliversAbsence;
    if i > 0 {
      SwallowedUntilDelivered(w, run, i - 1, s);
      var v := After(w, run, i - 1);
      MomentExtends(v, run[i - 1]);
      if DeliversAbsence(w.e, v.e, s) {
        DeliveredEarlier(w.e, v.e, After(w, run, i).e, s);
      } else {
        MomentWaits(v, run[i - 1], s);
        if DeliversAbsence(v.e, After(w, run, i).e, s) {
          DeliveredLater(w.e, v.e, After(w, run, i).e, s);
        }
      }
    }
  }
}
