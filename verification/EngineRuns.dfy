/** Runs of the rules engine: sensor reports, operator controls, command answers, ownership
    polls and fired timers in any order, each with its own wall-clock reading and its own
    gate verdicts. */
module EngineRuns {
  import opened DisplayTypes
  import opened DisplaySpec
  import opened EngineSpec
  import opened EngineFrames

  datatype EngineEvent =
    | Report(sensor: Sensor, state: SensorState)
    | Control(display: DisplayId, input: Input)
    | WakeByInput(display: DisplayId)
    | Poll(display: DisplayId)
    | SetSuppression(display: DisplayId, until: Option<Instant>)
    | Answer(display: DisplayId, input: Input)
    | Fire(limit: Instant)

  datatype Moment = Moment(event: EngineEvent, wall: Instant, gate: Gate)

  function SetClaim(e: Engine, d: DisplayId, until: Option<Instant>): Engine {
    e.(suppression := if until.Some? then e.suppression[d := until.value] else e.suppression - {d})
  }

  function PlayEngine(e: Engine, m: Moment): Engine {
    match m.event
    case Report(s, state) => HandlePresence(e, s, state, m.wall, m.gate)
    case Control(d, input) => StepOne(e, d, input, m.wall, m.gate)
    case WakeByInput(d) => InputWakeControl(e, d, m.wall, m.gate)
    case Poll(d) => FeedOwnership(e, d, m.wall, m.gate)
    case SetSuppression(d, until) => SetClaim(e, d, until)
    case Answer(d, input) => StepMachine(e, d, input, m.wall)
    case Fire(limit) => if Due(e.timers, limit) then FireAt(e, Next(e.timers), m.wall, m.gate) else e
  }

  /** An engine, the last time each sensor reported presence, and the clock. */
  datatype Watched = Watched(e: Engine, lastPresent: map<Sensor, Instant>, clock: Instant)

  function Play(w: Watched, m: Moment): Watched {
    Watched(PlayEngine(w.e, m),
            if m.event.Report? && m.event.state.Present? then w.lastPresent[m.event.sensor := m.wall]
            else w.lastPresent,
            m.wall)
  }

  /** The clock does not run backwards, timers fire no earlier than their deadline, and
      ownership reaches a machine only through the gate. */
  predicate Allowed(w: Watched, m: Moment) {
    && w.clock <= m.wall
    && (m.event.Fire? ==> m.event.limit <= m.wall)
    && (m.event.Control? || m.event.Answer? ==> !m.event.input.OwnershipChanged?)
  }

  function After(w: Watched, run: seq<Moment>, i: nat): Watched
    requires i <= |run|
  {
    if i == 0 then w else Play(After(w, run, i - 1), run[i - 1])
  }

  ghost predicate AllowedRun(w: Watched, run: seq<Moment>) {
    forall i :: 0 <= i < |run| ==> Allowed(After(w, run, i), run[i])
  }

  // ── The invariant ───────────────────────────────────────────────────────

  /** The ownership cache is what each machine believes. */
  predicate Synced(e: Engine) {
    forall d :: d in e.machines ==> d in e.lastOwned && e.lastOwned[d] == e.machines[d].owned
  }

  /** A machine's hold flag is set exactly while the engine holds a deadline for it. */
  predicate FlagsMatch(e: Engine) {
    forall d :: d in e.machines ==> (e.machines[d].inputWakeHold <==> d in e.inputHolds)
  }

  predicate InputHoldsBacked(e: Engine) {
    forall d :: d in e.inputHolds ==> Timer(e.inputHolds[d], InputWakeHoldExpiry(d)) in e.timers
  }

  /** Every armed sensor hold has its wheel entry, and only armed holds swallow. */
  predicate HoldsBacked(e: Engine) {
    forall s :: s in e.holds ==>
      && (e.holds[s].armedUntil.Some? ==> Timer(e.holds[s].armedUntil.value, HoldExpiry(s)) in e.timers)
      && (e.holds[s].pendingAbsent ==> e.holds[s].armedUntil.Some?)
  }

  /** A hold is armed until its hold time after the last presence; once disarmed, that time
      has passed. */
  predicate HoldsTimed(w: Watched) {
    forall s :: s in w.e.holds ==>
      && s in w.e.cfg.holdTimes
      && (w.e.holds[s].armedUntil.Some? ==>
            s in w.lastPresent && w.e.holds[s].armedUntil.value == w.lastPresent[s] + w.e.cfg.holdTimes[s])
      && (w.e.holds[s].armedUntil.None? && s in w.lastPresent ==> w.lastPresent[s] + w.e.cfg.holdTimes[s] <= w.clock)
  }

  predicate Linked(e: Engine) { Synced(e) && FlagsMatch(e) && InputHoldsBacked(e) && HoldsBacked(e) }

  predicate Sound(w: Watched) { Linked(w.e) && HoldsTimed(w) }

  // ── What stepping displays may touch ────────────────────────────────────

  ghost predicate Displays(e: Engine, f: Engine) {
    && f.cfg == e.cfg && f.holds == e.holds && f.suppression == e.suppression && f.zones == e.zones
    && f.delivered == e.delivered
    && e.timers <= f.timers
    && e.outbox <= f.outbox
    && f.inputHolds.Keys <= e.inputHolds.Keys
    && (forall d :: d in f.inputHolds ==> f.inputHolds[d] == e.inputHolds[d])
    && (Synced(e) ==> Synced(f))
    && (FlagsMatch(e) ==> FlagsMatch(f))
  }

  lemma StepDisplays(e: Engine, d: DisplayId, input: Input, now: Instant)
    requires !input.OwnershipChanged?
    ensures Displays(e, StepMachine(e, d, input, now))
  {
    hide Step;
    if d in e.machines {
      StepKeeps(e.machines[d], input, now);
    }
  }

  /** A verdict written to the cache and fed at once leaves cache and machine agreeing. */
  lemma FedDisplays(e: Engine, d: DisplayId, owns: bool, now: Instant)
    ensures Displays(e, StepMachine(e.(lastOwned := e.lastOwned[d := owns]), d, OwnershipChanged(owns), now))
  {
    hide Step, Scheduled, Commanded;
    if d in e.machines {
      StepKeeps(e.machines[d], OwnershipChanged(owns), now);
    }
  }

  lemma FeedDisplays(e: Engine, d: DisplayId, now: Instant, gate: Gate)
    ensures Displays(e, FeedOwnership(e, d, now, gate))
  {
    hide StepMachine;
    FedDisplays(e, d, gate(d), now);
  }

  lemma StepOneDisplays(e: Engine, d: DisplayId, input: Input, now: Instant, gate: Gate)
    requires !input.OwnershipChanged?
    ensures Displays(e, StepOne(e, d, input, now, gate))
  {
    hide StepMachine, FeedOwnership, Synced, FlagsMatch;
    FeedDisplays(e, d, now, gate);
    StepDisplays(FeedOwnership(e, d, now, gate), d, input, now);
  }

  lemma ClearDisplays(e: Engine, d: DisplayId)
    ensures Displays(e, ClearInputHold(e, d))
  {
  }

  lemma FanOneDisplays(e: Engine, d: DisplayId, wall: Instant, gate: Gate)
    ensures Displays(e, FanOne(e, d, wall, gate))
  {
    hide StepOne, ClearInputHold, EffectivePresence, Synced, FlagsMatch;
    ClearDisplays(e, d);
    var present := EffectivePresence(e, d);
    StepOneDisplays(if present then ClearInputHold(e, d) else e, d, ZonePresent(present), wall, gate);
  }

  lemma {:induction false} FanDisplays(e: Engine, ds: seq<DisplayId>, wall: Instant, gate: Gate)
    ensures Displays(e, Fan(e, ds, wall, gate))
    decreases |ds|
  {
    hide FanOne, Synced, FlagsMatch;
    if ds != [] {
      FanDisplays(e, ds[..|ds| - 1], wall, gate);
      FanOneDisplays(Fan(e, ds[..|ds| - 1], wall, gate), ds[|ds| - 1], wall, gate);
    }
  }

  lemma {:induction false} FanZonesDisplays(e: Engine, zones: seq<Zone>, wall: Instant, gate: Gate)
    ensures Displays(e, FanZones(e, zones, wall, gate))
    decreases |zones|
  {
    hide Fan, Synced, FlagsMatch;
    if zones != [] {
      FanZonesDisplays(e, zones[..|zones| - 1], wall, gate);
      FanDisplays(FanZones(e, zones[..|zones| - 1], wall, gate), Targets(e.cfg.rules, zones[|zones| - 1]), wall, gate);
    }
  }

  // ── The invariant is kept ───────────────────────────────────────────────

  lemma KeptInPrefix(ts: seq<Timer>, more: seq<Timer>, t: Timer)
    requires t in ts && ts <= more
    ensures t in more
  {
  }

  lemma LinkedDisplays(e: Engine, f: Engine)
    requires Linked(e) && Displays(e, f)
    ensures Linked(f)
  {
    hide Synced, FlagsMatch;
    forall d | d in f.inputHolds ensures Timer(f.inputHolds[d], InputWakeHoldExpiry(d)) in f.timers {
      KeptInPrefix(e.timers, f.timers, Timer(e.inputHolds[d], InputWakeHoldExpiry(d)));
    }
    forall s | s in f.holds && f.holds[s].armedUntil.Some?
      ensures Timer(f.holds[s].armedUntil.value, HoldExpiry(s)) in f.timers
    {
      KeptInPrefix(e.timers, f.timers, Timer(e.holds[s].armedUntil.value, HoldExpiry(s)));
    }
  }

  /** Delivering to zone fusion changes only zones, the delivery log and displays. */
  lemma DeliverShape(e: Engine, s: Sensor, state: SensorState, wall: Instant, gate: Gate)
    ensures var f := Deliver(e, s, state, wall, gate);
            && f.cfg == e.cfg && f.holds == e.holds && f.delivered == e.delivered + [Delivery(s, state, wall)]
            && e.timers <= f.timers && e.outbox <= f.outbox && f.suppression == e.suppression
            && (Linked(e) ==> Linked(f))
  {
    hide FanZones, Linked;
    var (zones, changed) := e.cfg.fuse(e.zones, s, state);
    var r := e.(zones := zones, delivered := e.delivered + [Delivery(s, state, wall)]);
    FanZonesDisplays(r, changed, wall, gate);
    LinkedRezoned(e, r);
    if Linked(e) {
      LinkedDisplays(r, Deliver(e, s, state, wall, gate));
    }
  }

  lemma LinkedRezoned(e: Engine, r: Engine)
    requires r == e.(zones := r.zones, delivered := r.delivered)
    ensures Linked(e) ==> Linked(r)
  {
  }

  lemma FilterKeeps(e: Engine, s: Sensor, state: SensorState, wall: Instant)
    requires Linked(e)
    ensures Linked(HoldFilter(e, s, state, wall).e)
  {
    var f := HoldFilter(e, s, state, wall).e;
    assert Synced(f) && FlagsMatch(f) && InputHoldsBacked(f);
    assert HoldsBacked(f);
  }

  lemma FilterTimed(w: Watched, s: Sensor, state: SensorState, wall: Instant)
    requires HoldsTimed(w) && w.clock <= wall
    ensures HoldsTimed(Watched(HoldFilter(w.e, s, state, wall).e,
                               if state.Present? then w.lastPresent[s := wall] else w.lastPresent, wall))
  {
  }

  lemma PresenceLinked(e: Engine, s: Sensor, state: SensorState, wall: Instant, gate: Gate)
    requires Linked(e)
    ensures Linked(HandlePresence(e, s, state, wall, gate))
  {
    hide HoldFilter, Deliver, Linked;
    FilterKeeps(e, s, state, wall);
    DeliverShape(HoldFilter(e, s, state, wall).e, s, state, wall, gate);
  }

  lemma PresenceTimed(w: Watched, s: Sensor, state: SensorState, wall: Instant, gate: Gate)
    requires HoldsTimed(w) && w.clock <= wall
    ensures HoldsTimed(Watched(HandlePresence(w.e, s, state, wall, gate),
                               if state.Present? then w.lastPresent[s := wall] else w.lastPresent, wall))
  {
    hide HoldFilter, Deliver, Linked;
    FilterTimed(w, s, state, wall);
    DeliverShape(HoldFilter(w.e, s, state, wall).e, s, state, wall, gate);
  }

  /** Display-side operations keep everything. */
  lemma DisplaysSound(w: Watched, f: Engine, wall: Instant)
    requires Sound(w) && Displays(w.e, f) && w.clock <= wall
    ensures Sound(Watched(f, w.lastPresent, wall))
  {
    hide Linked;
    LinkedDisplays(w.e, f);
  }

  lemma ArmLinked(e: Engine, d: DisplayId, wall: Instant)
    requires Linked(e)
    ensures Linked(ArmInputWake(e, d, wall))
  {
    hide EffectiveInputHold;
    var f := ArmInputWake(e, d, wall);
    assert Synced(f) && FlagsMatch(f);
    assert InputHoldsBacked(f) && HoldsBacked(f);
  }

  lemma ArmShape(e: Engine, d: DisplayId, wall: Instant)
    ensures var f := ArmInputWake(e, d, wall); f.holds == e.holds && f.cfg == e.cfg && e.timers <= f.timers
  {
    hide EffectiveInputHold;
  }

  lemma WakeSound(w: Watched, d: DisplayId, wall: Instant, gate: Gate)
    requires Sound(w) && w.clock <= wall
    ensures Sound(Watched(InputWakeControl(w.e, d, wall, gate), w.lastPresent, wall))
  {
    hide ArmInputWake, StepOne, Linked;
    ArmLinked(w.e, d, wall);
    ArmShape(w.e, d, wall);
    var a := ArmInputWake(w.e, d, wall);
    StepOneDisplays(a, d, InputWake, wall, gate);
    DisplaysSound(Watched(a, w.lastPresent, w.clock), StepOne(a, d, InputWake, wall, gate), wall);
  }

  // ── Firing a timer keeps it ─────────────────────────────────────────────

  lemma OthersStay(ts: seq<Timer>, k: nat, t: Timer)
    requires k < |ts| && t in ts && t != ts[k]
    ensures t in Without(ts, k)
  {
    var i :| 0 <= i < |ts| && ts[i] == t;
    if i < k {
      assert Without(ts, k)[i] == t;
    } else {
      assert Without(ts, k)[i - 1] == t;
    }
  }

  /** What the invariant still promises once entry `k` is off the wheel: everything except
      the backing of the one hold that entry backs. */
  predicate LinkedBut(e: Engine, t: Timer) {
    && Synced(e) && FlagsMatch(e)
    && (forall d :: d in e.inputHolds && Timer(e.inputHolds[d], InputWakeHoldExpiry(d)) != t ==>
          Timer(e.inputHolds[d], InputWakeHoldExpiry(d)) in e.timers)
    && (forall s :: s in e.holds ==>
          && (e.holds[s].armedUntil.Some? && Timer(e.holds[s].armedUntil.value, HoldExpiry(s)) != t ==>
                Timer(e.holds[s].armedUntil.value, HoldExpiry(s)) in e.timers)
          && (e.holds[s].pendingAbsent ==> e.holds[s].armedUntil.Some?))
  }

  lemma PoppedLinkedBut(e: Engine, k: nat)
    requires Linked(e) && k < |e.timers|
    ensures LinkedBut(e.(timers := Without(e.timers, k)), e.timers[k])
  {
    hide Without;
    var r := e.(timers := Without(e.timers, k));
    assert Synced(r) && FlagsMatch(r);
    forall d | d in r.inputHolds && Timer(r.inputHolds[d], InputWakeHoldExpiry(d)) != e.timers[k]
      ensures Timer(r.inputHolds[d], InputWakeHoldExpiry(d)) in r.timers
    {
      OthersStay(e.timers, k, Timer(r.inputHolds[d], InputWakeHoldExpiry(d)));
    }
    forall s | s in r.holds && r.holds[s].armedUntil.Some? &&
      Timer(r.holds[s].armedUntil.value, HoldExpiry(s)) != e.timers[k]
      ensures Timer(r.holds[s].armedUntil.value, HoldExpiry(s)) in r.timers
    {
      OthersStay(e.timers, k, Timer(r.holds[s].armedUntil.value, HoldExpiry(s)));
    }
  }

  /** A display's tick backs no hold. */
  lemma TickBacksNothing(e: Engine, t: Timer)
    requires LinkedBut(e, t) && (t.entry.DisplayTick? || t.entry.DisplayStageTick?)
    ensures Linked(e)
  {
    hide Synced, FlagsMatch;
  }

  /** An input-wake entry: clearing the hold it backs leaves nothing unbacked. */
  lemma ClearedLinked(e: Engine, d: DisplayId, at: Instant)
    requires LinkedBut(e, Timer(at, InputWakeHoldExpiry(d)))
    ensures d !in e.inputHolds || e.inputHolds[d] > at ==> Linked(e)
    ensures Linked(ClearInputHold(e, d))
  {
    if d !in e.inputHolds || e.inputHolds[d] > at {
      assert InputHoldsBacked(e) && HoldsBacked(e);
    }
    var f := ClearInputHold(e, d);
    assert Synced(f) && FlagsMatch(f);
    assert InputHoldsBacked(f) && HoldsBacked(f);
  }

  lemma DisarmedLinked(e: Engine, s: Sensor, at: Instant)
    requires LinkedBut(e, Timer(at, HoldExpiry(s)))
    ensures s !in e.holds || (e.holds[s].armedUntil.Some? && at < e.holds[s].armedUntil.value) ==> Linked(e)
    ensures s in e.holds ==> Linked(e.(holds := e.holds[s := Hold(None, false)]))
  {
    if s !in e.holds || (e.holds[s].armedUntil.Some? && at < e.holds[s].armedUntil.value) {
      assert InputHoldsBacked(e) && HoldsBacked(e);
    }
    if s in e.holds {
      var f := e.(holds := e.holds[s := Hold(None, false)]);
      assert Synced(f) && FlagsMatch(f);
      assert InputHoldsBacked(f) && HoldsBacked(f);
    }
  }

  lemma TickFireLinked(e: Engine, k: nat, wall: Instant, gate: Gate)
    requires Linked(e) && k < |e.timers| && (e.timers[k].entry.DisplayTick? || e.timers[k].entry.DisplayStageTick?)
    ensures var f := FireAt(e, k, wall, gate); Linked(f) && f.holds == e.holds && f.cfg == e.cfg
  {
    hide StepOne, Linked, LinkedBut, Without;
    var t := e.timers[k];
    var r := e.(timers := Without(e.timers, k));
    PoppedLinkedBut(e, k);
    TickBacksNothing(r, t);
    var input := if t.entry.DisplayTick? then Tick else StageTick(t.entry.gen);
    StepOneDisplays(r, t.entry.display, input, t.at, gate);
    LinkedDisplays(r, FireAt(e, k, wall, gate));
  }

  lemma InputWakeFireLinked(e: Engine, k: nat, wall: Instant, gate: Gate)
    requires Linked(e) && k < |e.timers| && e.timers[k].entry.InputWakeHoldExpiry?
    ensures var f := FireAt(e, k, wall, gate); Linked(f) && f.holds == e.holds && f.cfg == e.cfg
  {
    hide StepMachine, FeedOwnership, Linked, LinkedBut, Without, ClearInputHold, EffectiveInputHold, Synced, FlagsMatch;
    var d, at := e.timers[k].entry.display, e.timers[k].at;
    var r := e.(timers := Without(e.timers, k));
    PoppedLinkedBut(e, k);
    ClearedLinked(r, d, at);
    var c := ClearInputHold(r, d);
    ClearDisplays(r, d);
    FeedDisplays(c, d, at, gate);
    var f := FeedOwnership(c, d, at, gate);
    StepDisplays(f, d, ZonePresent(false), at);
    LinkedDisplays(c, f);
    LinkedDisplays(f, StepMachine(f, d, ZonePresent(false), at));
  }

  lemma HoldFireLinked(e: Engine, k: nat, wall: Instant, gate: Gate)
    requires Linked(e) && k < |e.timers| && e.timers[k].entry.HoldExpiry?
    ensures Linked(FireAt(e, k, wall, gate))
  {
    hide HandlePresence, Linked, LinkedBut, Without;
    var s, at := e.timers[k].entry.sensor, e.timers[k].at;
    var r := e.(timers := Without(e.timers, k));
    PoppedLinkedBut(e, k);
    DisarmedLinked(r, s, at);
    if s in r.holds {
      PresenceLinked(r.(holds := r.holds[s := Hold(None, false)]), s, Absent, wall, gate);
    }
  }

  lemma HoldFireTimed(w: Watched, k: nat, wall: Instant, gate: Gate)
    requires HoldsTimed(w) && HoldsBacked(w.e) && w.clock <= wall
    requires k < |w.e.timers| && w.e.timers[k].entry.HoldExpiry? && w.e.timers[k].at <= wall
    ensures HoldsTimed(Watched(FireAt(w.e, k, wall, gate), w.lastPresent, wall))
  {
    hide HandlePresence, HoldsBacked, Without;
    var s, at := w.e.timers[k].entry.sensor, w.e.timers[k].at;
    var r := w.e.(timers := Without(w.e.timers, k));
    if s in r.holds && !(r.holds[s].armedUntil.Some? && at < r.holds[s].armedUntil.value) {
      var c := r.(holds := r.holds[s := Hold(None, false)]);
      assert HoldsTimed(Watched(c, w.lastPresent, wall));
      PresenceTimed(Watched(c, w.lastPresent, wall), s, Absent, wall, gate);
    }
  }

  lemma SoundKept(w: Watched, m: Moment)
    requires Sound(w) && Allowed(w, m)
    ensures Sound(Play(w, m))
  {
    hide Sound, HandlePresence, StepOne, InputWakeControl, FeedOwnership, StepMachine, FireAt;
    match m.event
    case Report(s, state) => ReportSound(w, s, state, m.wall, m.gate);
    case Control(d, input) =>
      StepOneDisplays(w.e, d, input, m.wall, m.gate);
      DisplaysSound(w, StepOne(w.e, d, input, m.wall, m.gate), m.wall);
    case WakeByInput(d) => WakeSound(w, d, m.wall, m.gate);
    case Poll(d) =>
      FeedDisplays(w.e, d, m.wall, m.gate);
      DisplaysSound(w, FeedOwnership(w.e, d, m.wall, m.gate), m.wall);
    case SetSuppression(d, until) => ClaimSound(w, d, until, m.wall);
    case Answer(d, input) =>
      StepDisplays(w.e, d, input, m.wall);
      DisplaysSound(w, StepMachine(w.e, d, input, m.wall), m.wall);
    case Fire(limit) => FireSound(w, limit, m.wall, m.gate);
  }

  lemma ClaimSound(w: Watched, d: DisplayId, until: Option<Instant>, wall: Instant)
    requires Sound(w) && w.clock <= wall
    ensures Sound(Watched(SetClaim(w.e, d, until), w.lastPresent, wall))
  {
  }

  lemma ReportSound(w: Watched, s: Sensor, state: SensorState, wall: Instant, gate: Gate)
    requires Sound(w) && w.clock <= wall
    ensures Sound(Watched(HandlePresence(w.e, s, state, wall, gate),
                          if state.Present? then w.lastPresent[s := wall] else w.lastPresent, wall))
  {
    hide HandlePresence, Linked, HoldsTimed;
    PresenceLinked(w.e, s, state, wall, gate);
    PresenceTimed(w, s, state, wall, gate);
  }

  /** Firing any entry keeps caches, flags and holds backed. */
  lemma FireLinked(e: Engine, k: nat, wall: Instant, gate: Gate)
    requires Linked(e) && k < |e.timers|
    ensures Linked(FireAt(e, k, wall, gate))
  {
    hide FireAt, Linked;
    match e.timers[k].entry
    case HoldExpiry(_) => HoldFireLinked(e, k, wall, gate);
    case InputWakeHoldExpiry(_) => InputWakeFireLinked(e, k, wall, gate);
    case _ => TickFireLinked(e, k, wall, gate);
  }

  lemma FireTimed(w: Watched, k: nat, wall: Instant, gate: Gate)
    requires Sound(w) && w.clock <= wall && k < |w.e.timers| && w.e.timers[k].at <= wall
    ensures HoldsTimed(Watched(FireAt(w.e, k, wall, gate), w.lastPresent, wall))
  {
    hide FireAt, Synced, FlagsMatch, InputHoldsBacked, HoldsBacked;
    match w.e.timers[k].entry
    case HoldExpiry(_) => HoldFireTimed(w, k, wall, gate);
    case InputWakeHoldExpiry(_) => InputWakeFireLinked(w.e, k, wall, gate);
    case _ => TickFireLinked(w.e, k, wall, gate);
  }

  lemma FireSound(w: Watched, limit: Instant, wall: Instant, gate: Gate)
    requires Sound(w) && w.clock <= wall && limit <= wall
    ensures Sound(Watched(if Due(w.e.timers, limit) then FireAt(w.e, Next(w.e.timers), wall, gate)
            else w.e, w.lastPresent, wall))
  {
    hide FireAt, Linked;
    if Due(w.e.timers, limit) {
      FireLinked(w.e, Next(w.e.timers), wall, gate);
      FireTimed(w, Next(w.e.timers), wall, gate);
    }
  }

  // ── From the start ──────────────────────────────────────────────────────

  /** The displays of a configuration. */
  type Panels = map<DisplayId, (Timings, seq<LadderStage>)>

  /** `RulesEngine::new`: every machine is fed the gate's verdict, and the effects of that
      feed are dropped. */
  function NewEngine(cfg: EngineConfig, displays: Panels, zones: Zones, now: Instant, gate: Gate): Engine {
    Engine(cfg,
           map d | d in displays :: Step(New(displays[d].0, displays[d].1, now), OwnershipChanged(gate(d)), now).m,
           map d | d in displays :: gate(d),
           map s | s in cfg.holdTimes :: Hold(None, false),
           map[], map[], zones, [], [], [])
  }

  /** The engine at the start of a run. */
  function Fresh(cfg: EngineConfig, displays: Panels, zones: Zones, t0: Instant, gate: Gate): Watched {
    Watched(NewEngine(cfg, displays, zones, t0, gate), map[], t0)
  }

  /** Nothing is lost by dropping them: there are none. */
  lemma FirstFeedSilent(timings: Timings, ladder: seq<LadderStage>, now: Instant, owns: bool)
    ensures var o := Step(New(timings, ladder, now), OwnershipChanged(owns), now);
            o.fx == [] && o.m == New(timings, ladder, now).(owned := owns)
  {
  }

  lemma SoundInitially(cfg: EngineConfig, displays: Panels, zones: Zones, now: Instant, gate: Gate)
    ensures Sound(Fresh(cfg, displays, zones, now, gate))
  {
    hide Step, New;
    forall d | d in displays
      ensures var o := Step(New(displays[d].0, displays[d].1, now), OwnershipChanged(gate(d)), now);
              o.m.owned == gate(d) && !o.m.inputWakeHold
    {
      FirstFeedSilent(displays[d].0, displays[d].1, now, gate(d));
      NewUnheld(displays[d].0, displays[d].1, now);
    }
  }

  lemma NewUnheld(timings: Timings, ladder: seq<LadderStage>, now: Instant)
    ensures !New(timings, ladder, now).inputWakeHold
  {
  }

  /** In every run: the ownership cache is what the machine believes, a hold flag is set exactly
      while a deadline backed by a wheel entry exists, and every armed sensor hold is backed by
      a wheel entry its hold time after the last presence. */
  lemma {:induction false} SoundThroughout(cfg: EngineConfig, displays: Panels, zones: Zones,
                                           t0: Instant, gate: Gate, run: seq<Moment>, i: nat)
    requires i <= |run|
    requires AllowedRun(Fresh(cfg, displays, zones, t0, gate), run)
    ensures Sound(After(Fresh(cfg, displays, zones, t0, gate), run, i))
  {
    hide Sound, Play, NewEngine, Allowed;
    var w := Fresh(cfg, displays, zones, t0, gate);
    SoundInitially(cfg, displays, zones, t0, gate);
    if i > 0 {
      SoundThroughout(cfg, displays, zones, t0, gate, run, i - 1);
      SoundKept(After(w, run, i - 1), run[i - 1]);
    }
  }
}
