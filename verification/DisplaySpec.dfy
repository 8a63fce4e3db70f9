/** The transition function of one display, helper by helper.  `DisplayMachine` proves
    that the in-place methods compute exactly this; the other modules prove what it means. */
module DisplaySpec {
  import opened DisplayTypes

  function PrimaryBlankMode(ladder: seq<LadderStage>): BlankMode {
    if ladder == [] then PowerOff
    else if ladder[0].kind.Controller? then ladder[0].kind.mode
    else PrimaryBlankMode(ladder[1..])
  }

  function New(timings: Timings, ladder: seq<LadderStage>, now: Instant): Machine {
    Machine(Config(now, PrimaryBlankMode(ladder), ladder, timings), Active, Overlays(false, None),
            Commands(0, None, None, None, None), Stage(0, None, None, None), true, false, false, None, None)
  }

  function Restore(timings: Timings, ladder: seq<LadderStage>, phase: Phase, cmdGen: nat, now: Instant): Out {
    var m := New(timings, ladder, now).(phase := phase, cmds := Commands(cmdGen, None, None, None, None));
    match phase
    case Waking => Out(m, [ScheduleTickAt(now + timings.wakeRetryInterval)])
    case Grace(until) => Out(m, [ScheduleTickAt(until)])
    case _ => Out(m, [])
  }

  // ── Private helpers ─────────────────────────────────────────────────────

  function FreezeGrace(m: Machine, until: Instant, now: Instant): Machine {
    if m.graceFrozen.None? then m.(graceFrozen := Some(Since(until, now))) else m
  }

  function UnfreezeGrace(m: Machine, now: Instant): Out {
    if m.graceFrozen.None? || OverlayOn(m) then Out(m, [])
    else
      var until := now + m.graceFrozen.value;
      Out(m.(graceFrozen := None, phase := Grace(until)), [ScheduleTickAt(until)])
  }

  predicate PauseDue(m: Machine, now: Instant) {
    m.overlays.paused.Some? && m.overlays.paused.value.until.Some? && now >= m.overlays.paused.value.until.value
  }

  function AutoResume(m: Machine, now: Instant): Out {
    if PauseDue(m, now) then UnfreezeGrace(m.(overlays := m.overlays.(paused := None)), now) else Out(m, [])
  }

  function EnterGrace(m: Machine, now: Instant, cause: Cause): (o: Out)
    ensures o.m.phase.Grace?
  {
    var until := now + m.cfg.timings.gracePeriod;
    var log := LogTransition(NameOf(m.phase), NGrace, cause);
    if OverlayOn(m) then
      Out(m.(phase := Grace(until), graceFrozen := Some(m.cfg.timings.gracePeriod)), [log])
    else
      Out(m.(phase := Grace(until), graceFrozen := None), [log, ScheduleTickAt(until)])
  }

  function EnterActive(m: Machine, now: Instant, cause: Cause): (o: Out)
    ensures o.m.phase.Active? || o.m.phase.Grace?
  {
    var a := m.(graceFrozen := None, stage := Stage(m.stage.gen, None, None, None), phase := Active);
    var log := LogTransition(NameOf(m.phase), NActive, cause);
    if m.zone == Some(false) && !m.inputWakeHold then
      var o := EnterGrace(a, now, CDeferredZoneClear);
      Out(o.m, [log] + o.fx)
    else
      Out(a, [log])
  }

  function StartBlankMode(m: Machine, prefix: seq<Effect>, mode: BlankMode): Out {
    var gen := m.cmds.gen + 1;
    Out(m.(cmds := m.cmds.(gen := gen, lastBlankGen := Some(gen)), phase := Blanking), prefix + [IssueBlank(gen, mode)])
  }

  function StartBlank(m: Machine, prefix: seq<Effect>): Out {
    StartBlankMode(m, prefix, m.cfg.blankMode)
  }

  function StartWake(m: Machine, prefix: seq<Effect>, now: Instant): Out {
    var gen := m.cmds.gen + 1;
    Out(m.(cmds := m.cmds.(gen := gen, lastWakeGen := Some(gen)), phase := Waking),
        prefix + [IssueWake(gen), ScheduleTickAt(now + m.cfg.timings.wakeRetryInterval)])
  }

  // ── Ladder stage helpers ────────────────────────────────────────────────

  predicate OnRenderRung(m: Machine) {
    m.stage.current.Some? && m.stage.current.value < |m.cfg.ladder| &&
      m.cfg.ladder[m.stage.current.value].kind.IsRender()
  }

  function EnterLadder(m: Machine, idx: nat, now: Instant, cause: Cause): (o: Out)
    ensures !o.m.phase.Waking? && !o.m.phase.Blanked? && !o.m.phase.Staged?
  {
    if idx >= |m.cfg.ladder| then EnterActive(m, now, cause)
    else
      var kind := m.cfg.ladder[idx].kind;
      var gen := m.stage.gen + 1;
      var s := m.(stage := m.stage.(gen := gen, current := Some(idx)));
      if kind.IsRender() then
        Out(s.(phase := RenderPending(idx, gen)),
            [LogTransition(NameOf(m.phase), NRenderPending, cause), ShowRender(gen, idx, kind)])
      else
        var log := LogTransition(NameOf(m.phase), NBlanking, cause);
        StartBlankMode(s, if OnRenderRung(m) then [TeardownRender(m.stage.gen), log] else [log], kind.mode)
  }

  function NextRung(m: Machine): nat {
    if m.stage.current.Some? then m.stage.current.value + 1 else 0
  }

  function AdvanceStage(m: Machine, now: Instant, cause: Cause): Out {
    EnterLadder(m, NextRung(m), now, cause)
  }

  /** First controller rung at or after `start`, or the ladder's length. */
  function NextController(ladder: seq<LadderStage>, start: nat): (idx: nat)
    ensures start <= |ladder| ==> start <= idx <= |ladder|
    ensures start <= idx < |ladder| ==> ladder[idx].kind.Controller?
    ensures forall k :: start <= k < idx && k < |ladder| ==> ladder[k].kind.IsRender()
    decreases |ladder| - start
  {
    if start >= |ladder| then |ladder|
    else if ladder[start].kind.Controller? then start
    else NextController(ladder, start + 1)
  }

  function TeardownToActive(m: Machine, now: Instant, cause: Cause): (o: Out)
    ensures o.m.phase.Active? || o.m.phase.Grace?
  {
    var o := EnterActive(m, now, cause);
    Out(o.m, [TeardownRender(m.stage.gen)] + o.fx)
  }

  function AdvanceToController(m: Machine, now: Instant, cause: Cause): Out {
    var idx := NextController(m.cfg.ladder, NextRung(m));
    if idx < |m.cfg.ladder| then EnterLadder(m, idx, now, cause) else TeardownToActive(m, now, cause)
  }

  function DwellOf(m: Machine): Option<Duration> {
    if m.stage.current.Some? && m.stage.current.value < |m.cfg.ladder| then m.cfg.ladder[m.stage.current.value].dwell
    else None
  }

  /** Arm a stage tick for the current rung: the dwell, or at most `limit` of it. */
  function ArmStageTick(m: Machine, limit: Option<Duration>, now: Instant): Out {
    if m.stage.current.None? then Out(m, [])
    else match DwellOf(m)
      case None => Out(m.(stage := m.stage.(deadline := None)), [])
      case Some(dwell) =>
        var wait := if limit.Some? && limit.value < dwell then limit.value else dwell;
        var gen := m.stage.gen + 1;
        Out(m.(stage := m.stage.(gen := gen, deadline := Some(now + wait))), [ScheduleStageTickAt(gen, now + wait)])
  }

  function ScheduleStageTick(m: Machine, now: Instant): Out { ArmStageTick(m, None, now) }

  function RearmStageTick(m: Machine, now: Instant): Out {
    var remaining := if m.stage.frozen.Some? then m.stage.frozen.value else 0;
    ArmStageTick(m.(stage := m.stage.(frozen := None)), Some(remaining), now)
  }

  function FreezeDwell(m: Machine, now: Instant): Machine {
    var remaining := if m.stage.deadline.Some? then Since(m.stage.deadline.value, now) else 0;
    if m.stage.frozen.None? then m.(stage := m.stage.(frozen := Some(remaining))) else m
  }

  predicate StageTickAccepted(m: Machine, gen: nat) {
    gen == m.stage.gen && m.stage.frozen.None? && !m.overlays.inhibited && m.owned
  }

  function GainOwnership(m0: Machine, now: Instant): Out {
    var from := NameOf(m0.phase);
    var m := m0.(owned := true);
    var log := LogTransition(from, NWaking, COwnershipAcquired);
    if m.phase.Grace? then
      Out(m, if m.zone == Some(false) then [ScheduleTickAt(m.phase.until)] else [])
    else if m.zone != Some(true) && !OverlayOn(m) then Out(m, [])
    else match m.phase
      case Blanking => Out(m.(pendingWake := true), [])
      case Waking => Out(m, [])
      case RenderPending(_, _) | Staged(_, _) =>
        var t := TeardownToActive(m, now, COwnershipAcquired);
        var w := StartWake(t.m, [log], now);
        Out(w.m, t.fx + w.fx)
      case Active | Blanked => StartWake(m, [log], now)
  }

  // ── Inputs handled alike in several phases ──────────────────────────────

  function RecordPause(m: Machine, until: Option<Instant>): Out {
    Out(m.(overlays := m.overlays.(paused := Some(PauseState(until)))),
        if until.Some? then [ScheduleTickAt(until.value)] else [])
  }

  function LogTo(m: Machine, to: PhaseName, cause: Cause): Effect { LogTransition(NameOf(m.phase), to, cause) }

  // ── The step, phase by phase ────────────────────────────────────────────

  function StepActive(m: Machine, input: Input, now: Instant): Out {
    match input
    case ZonePresent(present) =>
      var z := m.(zone := Some(present));
      if present then Out(z, []) else EnterGrace(z, now, CZoneClear)
    case Tick => AutoResume(m, now)
    case InhibitorChanged(on) => Out(m.(overlays := m.overlays.(inhibited := on)), [])
    case Pause(until) => RecordPause(m, until)
    case Resume => Out(m.(overlays := m.overlays.(paused := None)), [])
    case ForceBlank => StartBlank(m, [LogTo(m, NBlanking, CForceBlank)])
    case SoftBlank => EnterLadder(m, 0, now, CSoftBlank)
    case OwnershipChanged(owns) => if owns then GainOwnership(m, now) else Out(m.(owned := false), [])
    case BlankResult(_, _) | WakeResult(_, _) | ForceWake | InputWake | StageTick(_) | RenderResult(_, _) => Out(m, [])
  }

  /** The later of the closed blank gates (startup holdoff, minimum wake time). */
  function GateOpensAt(m: Machine, now: Instant): Option<Instant> {
    var holdoffEnd := m.cfg.startedAt + m.cfg.timings.startupHoldoff;
    var holdoffClosed := Since(now, m.cfg.startedAt) < m.cfg.timings.startupHoldoff;
    var wakeClosed := m.cmds.lastWake.Some? && Since(now, m.cmds.lastWake.value) < m.cfg.timings.minWakeTime;
    if !wakeClosed then (if holdoffClosed then Some(holdoffEnd) else None)
    else
      var wakeEnd := m.cmds.lastWake.value + m.cfg.timings.minWakeTime;
      if holdoffClosed && holdoffEnd >= wakeEnd then Some(holdoffEnd) else Some(wakeEnd)
  }

  function GraceTick(m: Machine, now: Instant): Out
    requires m.phase.Grace?
  {
    var until := m.phase.until;
    var r := AutoResume(m, now);
    if m.graceFrozen.Some? then r
    else if OverlayOn(r.m) then Out(FreezeGrace(r.m, until, now), r.fx)
    else if now < until then r
    else match GateOpensAt(r.m, now)
      case Some(at) => Out(r.m, r.fx + [ScheduleTickAt(at)])
      case None =>
        if !r.m.owned then r
        else
          var o := EnterLadder(r.m, 0, now, CGraceExpired);
          Out(o.m, r.fx + o.fx)
  }

  function StepGrace(m: Machine, input: Input, now: Instant): Out
    requires m.phase.Grace?
  {
    match input
    case ZonePresent(present) =>
      var z := m.(zone := Some(present));
      if present then EnterActive(z, now, CPresenceDuringGrace) else Out(z, [])
    case Tick => GraceTick(m, now)
    case InhibitorChanged(on) =>
      var i := m.(overlays := m.overlays.(inhibited := on));
      if on then Out(FreezeGrace(i, m.phase.until, now), []) else UnfreezeGrace(i, now)
    case Pause(until) =>
      var p := RecordPause(m, until);
      if m.overlays.paused.None? then Out(FreezeGrace(p.m, m.phase.until, now), p.fx) else p
    case Resume => UnfreezeGrace(m.(overlays := m.overlays.(paused := None)), now)
    case ForceBlank => StartBlank(m.(graceFrozen := None), [LogTo(m, NBlanking, CForceBlank)])
    case SoftBlank => EnterLadder(m.(graceFrozen := None), 0, now, CSoftBlank)
    case ForceWake => EnterActive(m, now, CForceWake)
    case InputWake => EnterActive(m, now, CInputWake)
    case OwnershipChanged(owns) => if owns then GainOwnership(m, now) else Out(m.(owned := false), [])
    case BlankResult(_, _) | WakeResult(_, _) | StageTick(_) | RenderResult(_, _) => Out(m, [])
  }

  function BlankDone(m: Machine, ok: bool, now: Instant): Out {
    if ok then
      var b := m.(cmds := m.cmds.(lastBlank := Some(now)));
      if m.pendingWake then
        StartWake(b.(pendingWake := false), [LogTo(m, NWaking, CPresenceDuringBlank)], now)
      else
        var s := ScheduleStageTick(b.(phase := Blanked), now);
        Out(s.m, [LogTo(m, NBlanked, CBlankSucceeded)] + s.fx)
    else
      var f := m.(pendingWake := false);
      if m.zone == Some(false) then EnterGrace(f, now, CBlankFailedRegrace)
      else EnterActive(f, now, CBlankFailed)
  }

  function StepBlanking(m: Machine, input: Input, now: Instant): Out {
    match input
    case ZonePresent(present) =>
      Out(m.(zone := Some(present), pendingWake := m.pendingWake || present), [])
    case Tick => AutoResume(m, now)
    case InhibitorChanged(on) => Out(m.(overlays := m.overlays.(inhibited := on)), [])
    case Pause(until) => RecordPause(m, until)
    case Resume => Out(m.(overlays := m.overlays.(paused := None)), [])
    case BlankResult(gen, ok) => if Some(gen) != m.cmds.lastBlankGen then Out(m, []) else BlankDone(m, ok, now)
    case ForceWake | InputWake => Out(m.(pendingWake := true), [])
    case OwnershipChanged(owns) => if owns then GainOwnership(m, now) else Out(m.(owned := false), [])
    case WakeResult(_, _) | ForceBlank | SoftBlank | StageTick(_) | RenderResult(_, _) => Out(m, [])
  }

  function StepBlanked(m: Machine, input: Input, now: Instant): Out {
    match input
    case ZonePresent(present) =>
      var z := m.(zone := Some(present));
      if present then StartWake(z, [LogTo(m, NWaking, CPresenceDetected)], now) else Out(z, [])
    case Tick => AutoResume(m, now)
    case InhibitorChanged(on) => Out(m.(overlays := m.overlays.(inhibited := on)), [])
    case Pause(until) => RecordPause(m, until)
    case Resume => Out(m.(overlays := m.overlays.(paused := None)), [])
    case ForceWake => StartWake(m, [LogTo(m, NWaking, CForceWake)], now)
    case InputWake => StartWake(m, [LogTo(m, NWaking, CInputWake)], now)
    case StageTick(gen) => if StageTickAccepted(m, gen) then AdvanceStage(m, now, CStageTick) else Out(m, [])
    case OwnershipChanged(owns) =>
      if owns then GainOwnership(m, now) else EnterActive(m.(owned := false), now, COwnershipYielded)
    case BlankResult(_, _) | WakeResult(_, _) | ForceBlank | SoftBlank | RenderResult(_, _) => Out(m, [])
  }

  function StepWaking(m: Machine, input: Input, now: Instant): Out {
    match input
    case ZonePresent(present) => Out(m.(zone := Some(present)), [])
    case Tick =>
      var r := AutoResume(m, now);
      StartWake(r.m, r.fx + [LogTo(m, NWaking, CWakeRetryScheduled)], now)
    case InhibitorChanged(on) => Out(m.(overlays := m.overlays.(inhibited := on)), [])
    case Pause(until) => RecordPause(m, until)
    case Resume => Out(m.(overlays := m.overlays.(paused := None)), [])
    case WakeResult(gen, ok) =>
      if Some(gen) != m.cmds.lastWakeGen then Out(m, [])
      else if ok then EnterActive(m.(cmds := m.cmds.(lastWake := Some(now))), now, CWakeCompleted)
      else StartWake(m, [LogTo(m, NWaking, CWakeRetry)], now)
    case ForceBlank => StartBlank(m, [LogTo(m, NBlanking, CForceBlank)])
    case ForceWake | InputWake => StartWake(m, [], now)
    case OwnershipChanged(owns) => if owns then GainOwnership(m, now) else Out(m.(owned := false), [])
    case BlankResult(_, _) | SoftBlank | StageTick(_) | RenderResult(_, _) => Out(m, [])
  }

  /** ForceBlank over a live or pending surface. */
  function ForceBlankOverRender(m: Machine): Out {
    StartBlank(m.(stage := m.stage.(current := None)), [TeardownRender(m.stage.gen), LogTo(m, NBlanking, CForceBlank)])
  }

  /** SoftBlank over a live or pending surface. */
  function SoftBlankOverRender(m: Machine, now: Instant): Out {
    var o := EnterLadder(m.(stage := m.stage.(current := None)), 0, now, CSoftBlank);
    Out(o.m, [TeardownRender(m.stage.gen), LogTo(m, NEnteringLadder, CSoftBlank)] + o.fx)
  }

  function RenderDone(m: Machine, ok: bool, now: Instant): Out
    requires m.phase.RenderPending?
  {
    if ok then
      var s := ScheduleStageTick(m.(phase := Staged(m.phase.idx, m.phase.pendingGen)), now);
      Out(s.m, [LogTo(m, NStaged, CRenderSucceeded)] + s.fx)
    else AdvanceToController(m, now, CRenderFailed)
  }

  function StepRenderPending(m: Machine, input: Input, now: Instant): Out
    requires m.phase.RenderPending?
  {
    match input
    case ZonePresent(present) =>
      var z := m.(zone := Some(present));
      if present then TeardownToActive(z, now, CPresenceDetected) else Out(z, [])
    case Tick => AutoResume(m, now)
    case InhibitorChanged(on) => Out(m.(overlays := m.overlays.(inhibited := on)), [])
    case Pause(until) => RecordPause(m, until)
    case Resume => Out(m.(overlays := m.overlays.(paused := None)), [])
    case RenderResult(gen, ok) =>
      if gen != m.phase.pendingGen then Out(m, []) else RenderDone(m, ok, now)
    case InputWake => TeardownToActive(m, now, CInputWake)
    case ForceWake => TeardownToActive(m, now, CForceWake)
    case ForceBlank => ForceBlankOverRender(m)
    case SoftBlank => SoftBlankOverRender(m, now)
    case OwnershipChanged(owns) =>
      if owns then GainOwnership(m, now) else TeardownToActive(m.(owned := false), now, COwnershipYielded)
    case BlankResult(_, _) | WakeResult(_, _) | StageTick(_) => Out(m, [])
  }

  function StepStaged(m: Machine, input: Input, now: Instant): Out {
    match input
    case ZonePresent(present) =>
      var z := m.(zone := Some(present));
      if present then TeardownToActive(z, now, CPresenceDetected) else Out(z, [])
    case Tick => AutoResume(m, now)
    case InhibitorChanged(on) =>
      var i := m.(overlays := m.overlays.(inhibited := on));
      if on then Out(FreezeDwell(i, now), []) else RearmStageTick(i, now)
    case Pause(until) =>
      var p := RecordPause(m, until);
      if m.overlays.paused.None? then Out(FreezeDwell(p.m, now), p.fx) else p
    case Resume =>
      var r := m.(overlays := m.overlays.(paused := None));
      if m.overlays.inhibited then Out(r, []) else RearmStageTick(r, now)
    case StageTick(gen) => if StageTickAccepted(m, gen) then AdvanceStage(m, now, CStageTick) else Out(m, [])
    case InputWake => TeardownToActive(m, now, CInputWake)
    case ForceWake => TeardownToActive(m, now, CForceWake)
    case ForceBlank => ForceBlankOverRender(m)
    case SoftBlank => SoftBlankOverRender(m, now)
    case OwnershipChanged(owns) =>
      if owns then GainOwnership(m, now) else TeardownToActive(m.(owned := false), now, COwnershipYielded)
    case BlankResult(_, _) | WakeResult(_, _) | RenderResult(_, _) => Out(m, [])
  }

  function Step(m: Machine, input: Input, now: Instant): Out {
    match m.phase
    case Active => StepActive(m, input, now)
    case Grace(_) => StepGrace(m, input, now)
    case Blanking => StepBlanking(m, input, now)
    case Blanked => StepBlanked(m, input, now)
    case Waking => StepWaking(m, input, now)
    case RenderPending(_, _) => StepRenderPending(m, input, now)
    case Staged(_, _) => StepStaged(m, input, now)
  }
}
