/** The rules engine's synchronous skeleton as functions on one value: sensor hold filter,
    ownership feed, input-wake hold, timer wheel.  `Engine` proves that the in-place methods
    compute exactly this.  The wall clock and the gate's verdicts are parameters; zone fusion
    is an arbitrary function. */
module EngineSpec {
  import opened DisplayTypes
  import opened DisplaySpec

  type Sensor = nat
  type Zone = nat
  type Gate = DisplayId -> bool

  datatype SensorState = Present | Absent | Unavailable

  datatype TimerEntry =
    | DisplayTick(display: DisplayId)
    | DisplayStageTick(display: DisplayId, gen: nat)
    | HoldExpiry(sensor: Sensor)
    | InputWakeHoldExpiry(display: DisplayId)

  datatype Timer = Timer(at: Instant, entry: TimerEntry)

  /** Deadline of an armed hold, and whether an absence was swallowed meanwhile. */
  datatype Hold = Hold(armedUntil: Option<Instant>, pendingAbsent: bool)

  datatype Rule = Rule(zone: Zone, displays: seq<DisplayId>, inputWakeHold: Duration)

  /** The zone engine's state: a zone without a level is unknown. */
  datatype Zones = Zones(sensors: map<Sensor, SensorState>, levels: map<Zone, bool>)

  /** The zone engine: the new state and the zones whose level changed. */
  type Fusion = (Zones, Sensor, SensorState) -> (Zones, seq<Zone>)

  datatype EngineConfig = EngineConfig(rules: seq<Rule>, holdTimes: map<Sensor, Duration>, fuse: Fusion)

  /** A command handed to a display's executor or render sink. */
  datatype Sent = Sent(display: DisplayId, effect: Effect)

  /** A sensor state handed to zone fusion. */
  datatype Delivery = Delivery(sensor: Sensor, state: SensorState, at: Instant)

  datatype Engine = Engine(
    cfg: EngineConfig,
    machines: map<DisplayId, Machine>,
    lastOwned: map<DisplayId, bool>,
    holds: map<Sensor, Hold>,
    inputHolds: map<DisplayId, Instant>,
    suppression: map<DisplayId, Instant>,
    zones: Zones,
    timers: seq<Timer>,
    outbox: seq<Sent>,
    delivered: seq<Delivery>)

  // ── Effects ─────────────────────────────────────────────────────────────

  function Scheduled(d: DisplayId, fx: seq<Effect>): seq<Timer> {
    if fx == [] then []
    else match fx[0]
      case ScheduleTickAt(at) => [Timer(at, DisplayTick(d))] + Scheduled(d, fx[1..])
      case ScheduleStageTickAt(gen, at) => [Timer(at, DisplayStageTick(d, gen))] + Scheduled(d, fx[1..])
      case _ => Scheduled(d, fx[1..])
  }

  predicate Command(fx: Effect) { fx.IssueBlank? || fx.IssueWake? || fx.ShowRender? || fx.TeardownRender? }

  function Commanded(d: DisplayId, fx: seq<Effect>): seq<Sent> {
    if fx == [] then []
    else if Command(fx[0]) then [Sent(d, fx[0])] + Commanded(d, fx[1..])
    else Commanded(d, fx[1..])
  }

  function StepMachine(e: Engine, d: DisplayId, input: Input, now: Instant): Engine {
    if d !in e.machines then e
    else
      var o := Step(e.machines[d], input, now);
      e.(machines := e.machines[d := o.m], timers := e.timers + Scheduled(d, o.fx),
         outbox := e.outbox + Commanded(d, o.fx))
  }

  // ── Ownership ───────────────────────────────────────────────────────────

  predicate Suppressed(e: Engine, d: DisplayId, now: Instant) { d in e.suppression && now < e.suppression[d] }

  function FeedOwnership(e: Engine, d: DisplayId, now: Instant, gate: Gate): Engine {
    if d in e.lastOwned && e.lastOwned[d] == gate(d) then e
    else if !gate(d) && Suppressed(e, d, now) then e.(lastOwned := e.lastOwned[d := true])
    else StepMachine(e.(lastOwned := e.lastOwned[d := gate(d)]), d, OwnershipChanged(gate(d)), now)
  }

  function StepOne(e: Engine, d: DisplayId, input: Input, now: Instant, gate: Gate): Engine {
    StepMachine(FeedOwnership(e, d, now, gate), d, input, now)
  }

  // ── Presence ────────────────────────────────────────────────────────────

  /** Unknown counts as present. */
  predicate Occupied(z: Zones, zone: Zone) { zone !in z.levels || z.levels[zone] }

  predicate EffectivePresence(e: Engine, d: DisplayId) {
    exists r :: r in e.cfg.rules && d in r.displays && Occupied(e.zones, r.zone)
  }

  function SetHoldFlag(e: Engine, d: DisplayId, active: bool): Engine {
    if d !in e.machines then e
    else e.(machines := e.machines[d := e.machines[d].(inputWakeHold := active)])
  }

  function ClearInputHold(e: Engine, d: DisplayId): Engine {
    SetHoldFlag(e.(inputHolds := e.inputHolds - {d}), d, false)
  }

  function FanOne(e: Engine, d: DisplayId, wall: Instant, gate: Gate): Engine {
    var present := EffectivePresence(e, d);
    StepOne(if present then ClearInputHold(e, d) else e, d, ZonePresent(present), wall, gate)
  }

  function Fan(e: Engine, ds: seq<DisplayId>, wall: Instant, gate: Gate): Engine
    decreases |ds|
  {
    if ds == [] then e else FanOne(Fan(e, ds[..|ds| - 1], wall, gate), ds[|ds| - 1], wall, gate)
  }

  /** The displays a zone drives, rule by rule. */
  function Targets(rules: seq<Rule>, zone: Zone): seq<DisplayId>
    decreases |rules|
  {
    if rules == [] then []
    else
      var last := rules[|rules| - 1];
      Targets(rules[..|rules| - 1], zone) + if last.zone == zone then last.displays else []
  }

  function FanZones(e: Engine, zones: seq<Zone>, wall: Instant, gate: Gate): Engine
    decreases |zones|
  {
    if zones == [] then e
    else Fan(FanZones(e, zones[..|zones| - 1], wall, gate), Targets(e.cfg.rules, zones[|zones| - 1]), wall, gate)
  }

  // ── Hold filter ─────────────────────────────────────────────────────────

  datatype Filtered = Filtered(e: Engine, passes: bool)

  function HoldFilter(e: Engine, s: Sensor, state: SensorState, wall: Instant): Filtered {
    if s !in e.holds then Filtered(e, true)
    else match state
      case Present =>
        if s !in e.cfg.holdTimes then Filtered(e, false)
        else
          var until := wall + e.cfg.holdTimes[s];
          Filtered(e.(holds := e.holds[s := Hold(Some(until), false)],
                      timers := e.timers + [Timer(until, HoldExpiry(s))]), true)
      case Absent =>
        if e.holds[s].armedUntil.Some? then
          Filtered(e.(holds := e.holds[s := e.holds[s].(pendingAbsent := true)]), false)
        else Filtered(e, true)
      case Unavailable => Filtered(e.(holds := e.holds[s := e.holds[s].(pendingAbsent := false)]), true)
  }

  function Deliver(e: Engine, s: Sensor, state: SensorState, wall: Instant, gate: Gate): Engine {
    var (zones, changed) := e.cfg.fuse(e.zones, s, state);
    FanZones(e.(zones := zones, delivered := e.delivered + [Delivery(s, state, wall)]), changed, wall, gate)
  }

  function HandlePresence(e: Engine, s: Sensor, state: SensorState, wall: Instant, gate: Gate): Engine {
    var f := HoldFilter(e, s, state, wall);
    if f.passes then Deliver(f.e, s, state, wall, gate) else f.e
  }

  // ── Input-wake hold ─────────────────────────────────────────────────────

  /** The shortest hold of the rules driving `d`; None when no rule drives it or a driving
      zone is occupied or unknown. */
  function EffectiveInputHold(rules: seq<Rule>, z: Zones, d: DisplayId): Option<Duration>
    decreases |rules|
  {
    if exists r :: r in rules && d in r.displays && Occupied(z, r.zone) then None
    else ShortestHold(rules, d)
  }

  function ShortestHold(rules: seq<Rule>, d: DisplayId): Option<Duration>
    decreases |rules|
  {
    if rules == [] then None
    else
      var last := rules[|rules| - 1];
      var before := ShortestHold(rules[..|rules| - 1], d);
      if d !in last.displays then before
      else if before.Some? && before.value <= last.inputWakeHold then before
      else Some(last.inputWakeHold)
  }

  function ArmInputWake(e: Engine, d: DisplayId, wall: Instant): Engine {
    var hold := EffectiveInputHold(e.cfg.rules, e.zones, d);
    if hold.None? || hold.value == 0 then e
    else
      var until := wall + hold.value;
      SetHoldFlag(e.(inputHolds := e.inputHolds[d := until],
                     timers := e.timers + [Timer(until, InputWakeHoldExpiry(d))]), d, true)
  }

  function InputWakeControl(e: Engine, d: DisplayId, wall: Instant, gate: Gate): Engine {
    StepOne(ArmInputWake(e, d, wall), d, InputWake, wall, gate)
  }

  // ── Timer wheel ─────────────────────────────────────────────────────────

  function FireHoldExpiry(e: Engine, s: Sensor, now: Instant, wall: Instant, gate: Gate): Engine {
    if s !in e.holds then e
    else
      var h := e.holds[s];
      if h.armedUntil.None? then e.(holds := e.holds[s := Hold(None, false)])
      else if now < h.armedUntil.value then e
      else
        var c := e.(holds := e.holds[s := Hold(None, false)]);
        if h.pendingAbsent then HandlePresence(c, s, Absent, wall, gate) else c
  }

  function FireInputWakeExpiry(e: Engine, d: DisplayId, now: Instant, gate: Gate): Engine {
    if d !in e.inputHolds || e.inputHolds[d] > now then e
    else
      var f := FeedOwnership(ClearInputHold(e, d), d, now, gate);
      if EffectiveInputHold(f.cfg.rules, f.zones, d).Some? then StepMachine(f, d, ZonePresent(false), now) else f
  }

  function FireEntry(e: Engine, entry: TimerEntry, now: Instant, wall: Instant, gate: Gate): Engine {
    match entry
    case DisplayTick(d) => StepOne(e, d, Tick, now, gate)
    case DisplayStageTick(d, gen) => StepOne(e, d, StageTick(gen), now, gate)
    case HoldExpiry(s) => FireHoldExpiry(e, s, now, wall, gate)
    case InputWakeHoldExpiry(d) => FireInputWakeExpiry(e, d, now, gate)
  }

  function Without(ts: seq<Timer>, k: nat): seq<Timer>
    requires k < |ts|
  {
    ts[..k] + ts[k + 1..]
  }

  /** Pop entry `k` and act on it; its deadline, not the present, is the `now` it sees. */
  function FireAt(e: Engine, k: nat, wall: Instant, gate: Gate): Engine
    requires k < |e.timers|
  {
    FireEntry(e.(timers := Without(e.timers, k)), e.timers[k].entry, e.timers[k].at, wall, gate)
  }

  // ── Order of the wheel ──────────────────────────────────────────────────

  function Kind(t: TimerEntry): nat {
    match t
    case DisplayTick(_) => 0
    case DisplayStageTick(_, _) => 1
    case HoldExpiry(_) => 2
    case InputWakeHoldExpiry(_) => 3
  }

  function Subject(t: TimerEntry): nat {
    match t
    case DisplayTick(d) => d
    case DisplayStageTick(d, _) => d
    case HoldExpiry(s) => s
    case InputWakeHoldExpiry(d) => d
  }

  /** Deadline first, then the entry: its kind, its display or sensor, its generation. */
  predicate NoLater(a: Timer, b: Timer) {
    || a.at < b.at
    || (a.at == b.at &&
        (|| Kind(a.entry) < Kind(b.entry)
         || (Kind(a.entry) == Kind(b.entry) &&
             (|| Subject(a.entry) < Subject(b.entry)
              || (Subject(a.entry) == Subject(b.entry) &&
                  (a.entry.DisplayStageTick? && b.entry.DisplayStageTick? ==> a.entry.gen <= b.entry.gen))))))
  }

  /** Index of the entry the wheel pops next. */
  function Next(ts: seq<Timer>): (k: nat)
    requires ts != []
    ensures k < |ts|
    ensures forall j :: 0 <= j < |ts| ==> NoLater(ts[k], ts[j])
    decreases |ts|
  {
    var last := |ts| - 1;
    if last == 0 then 0
    else
      var k := Next(ts[..last]);
      assert forall j :: 0 <= j < last ==> ts[..last][j] == ts[j];
      if NoLater(ts[k], ts[last]) then k else last
  }

  predicate Due(ts: seq<Timer>, now: Instant) { ts != [] && ts[Next(ts)].at <= now }
}
