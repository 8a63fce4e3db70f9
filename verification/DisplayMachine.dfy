/** `DisplayStateMachine`: one display's mutable state, driven by `Step`.  Every method is
    proved to compute the transition function of `DisplaySpec` in place. */
module DisplayMachine {
  import opened DisplayTypes
  import Spec = DisplaySpec

  class DisplayStateMachine {
    var phase: Phase
    var inhibited: bool
    var paused: Option<PauseState>
    var cmdGen: nat
    var lastBlankGen: Option<nat>
    var lastWakeGen: Option<nat>
    var lastWake: Option<Instant>
    var lastBlank: Option<Instant>
    const startedAt: Instant
    const blankMode: BlankMode
    const ladder: seq<LadderStage>
    var stageGen: nat
    var currentStage: Option<nat>
    var stageFrozen: Option<Duration>
    var stageDeadline: Option<Instant>
    var owned: bool
    const timings: Timings
    var pendingWake: bool
    var inputWakeHold: bool
    var zone: Option<bool>
    var graceFrozen: Option<Duration>

    /** The abstract value of the object. */
    ghost function State(): Machine
      reads this
    {
      Machine(Config(startedAt, blankMode, ladder, timings), phase, Overlays(inhibited, paused),
              Commands(cmdGen, lastBlankGen, lastWakeGen, lastWake, lastBlank),
              Stage(stageGen, currentStage, stageFrozen, stageDeadline),
              owned, pendingWake, inputWakeHold, zone, graceFrozen)
    }

    constructor (timings: Timings, ladder: seq<LadderStage>, now: Instant)
      ensures State() == Spec.New(timings, ladder, now)
    {
      phase, inhibited, paused, cmdGen := Active, false, None, 0;
      lastBlankGen, lastWakeGen, lastWake, lastBlank := None, None, None, None;
      startedAt, this.ladder, this.timings := now, ladder, timings;
      stageGen, currentStage, stageFrozen, stageDeadline := 0, None, None, None;
      owned, pendingWake, inputWakeHold, zone, graceFrozen := true, false, false, None, None;
      var mode := FirstControllerMode(ladder);
      blankMode := mode;
    }

    static method FirstControllerMode(ladder: seq<LadderStage>) returns (mode: BlankMode)
      ensures mode == Spec.PrimaryBlankMode(ladder)
    {
      for i := 0 to |ladder|
        invariant Spec.PrimaryBlankMode(ladder) == Spec.PrimaryBlankMode(ladder[i..])
      {
        if ladder[i].kind.Controller? {
          return ladder[i].kind.mode;
        }
      }
      return PowerOff;
    }

    method SetInputWakeHoldActive(active: bool)
      modifies this
      ensures State() == old(State()).(inputWakeHold := active)
    {
      inputWakeHold := active;
    }

    // ── Private helpers ───────────────────────────────────────────────────

    method FreezeGrace(until: Instant, now: Instant)
      modifies this
      ensures State() == Spec.FreezeGrace(old(State()), until, now)
    {
      if graceFrozen.None? {
        graceFrozen := Some(Since(until, now));
      }
    }

    method UnfreezeGrace(now: Instant) returns (fx: seq<Effect>)
      modifies this
      ensures Out(State(), fx) == Spec.UnfreezeGrace(old(State()), now)
    {
      if graceFrozen.None? || inhibited || paused.Some? {
        return [];
      }
      var until := now + graceFrozen.value;
      graceFrozen := None;
      phase := Grace(until);
      fx := [ScheduleTickAt(until)];
    }

    method MaybeAutoResume(now: Instant) returns (fx: seq<Effect>)
      modifies this
      ensures Out(State(), fx) == Spec.AutoResume(old(State()), now)
    {
      if paused.Some? && paused.value.until.Some? && now >= paused.value.until.value {
        paused := None;
        fx := UnfreezeGrace(now);
      } else {
        fx := [];
      }
    }

    method EnterActive(now: Instant, cause: Cause) returns (fx: seq<Effect>)
      modifies this
      ensures Out(State(), fx) == Spec.EnterActive(old(State()), now, cause)
    {
      graceFrozen, stageFrozen, stageDeadline, currentStage := None, None, None, None;
      fx := [LogTransition(NameOf(phase), NActive, cause)];
      phase := Active;
      if zone == Some(false) && !inputWakeHold {
        var g := EnterGrace(now, CDeferredZoneClear);
        fx := fx + g;
      }
    }

    method EnterGrace(now: Instant, cause: Cause) returns (fx: seq<Effect>)
      modifies this
      ensures Out(State(), fx) == Spec.EnterGrace(old(State()), now, cause)
    {
      fx := [LogTransition(NameOf(phase), NGrace, cause)];
      var until := now + timings.gracePeriod;
      phase := Grace(until);
      if inhibited || paused.Some? {
        graceFrozen := Some(timings.gracePeriod);
      } else {
        graceFrozen := None;
        fx := fx + [ScheduleTickAt(until)];
      }
    }

    method StartBlankForMode(prefix: seq<Effect>, mode: BlankMode) returns (fx: seq<Effect>)
      modifies this
      ensures Out(State(), fx) == Spec.StartBlankMode(old(State()), prefix, mode)
    {
      cmdGen := cmdGen + 1;
      lastBlankGen := Some(cmdGen);
      phase := Blanking;
      fx := prefix + [IssueBlank(cmdGen, mode)];
    }

    method StartWake(prefix: seq<Effect>, now: Instant) returns (fx: seq<Effect>)
      modifies this
      ensures Out(State(), fx) == Spec.StartWake(old(State()), prefix, now)
    {
      cmdGen := cmdGen + 1;
      lastWakeGen := Some(cmdGen);
      phase := Waking;
      fx := prefix + [IssueWake(cmdGen), ScheduleTickAt(now + timings.wakeRetryInterval)];
    }

    // ── Ladder stage helpers ──────────────────────────────────────────────

    method EnterLadderStage(idx: nat, now: Instant, cause: Cause) returns (fx: seq<Effect>)
      modifies this
      ensures Out(State(), fx) == Spec.EnterLadder(old(State()), idx, now, cause)
    {
      if idx >= |ladder| {
        fx := EnterActive(now, cause);
        return;
      }
      var prevWasRender := currentStage.Some? && currentStage.value < |ladder| &&
        ladder[currentStage.value].kind.IsRender();
      var prevStageGen := stageGen;
      stageGen := stageGen + 1;
      currentStage := Some(idx);
      var kind := ladder[idx].kind;
      var log := LogTransition(NameOf(phase), if kind.IsRender() then NRenderPending else NBlanking, cause);
      if kind.IsRender() {
        phase := RenderPending(idx, stageGen);
        fx := [log, ShowRender(stageGen, idx, kind)];
      } else if prevWasRender {
        fx := StartBlankForMode([TeardownRender(prevStageGen), log], kind.mode);
      } else {
        fx := StartBlankForMode([log], kind.mode);
      }
    }

    method AdvanceStage(now: Instant, cause: Cause) returns (fx: seq<Effect>)
      modifies this
      ensures Out(State(), fx) == Spec.AdvanceStage(old(State()), now, cause)
    {
      var next := if currentStage.Some? then currentStage.value + 1 else 0;
      fx := EnterLadderStage(next, now, cause);
    }

    method TeardownRenderToActive(now: Instant, cause: Cause) returns (fx: seq<Effect>)
      modifies this
      ensures Out(State(), fx) == Spec.TeardownToActive(old(State()), now, cause)
    {
      var gen := stageGen;
      var a := EnterActive(now, cause);
      fx := [TeardownRender(gen)] + a;
    }

    method AdvanceToNextController(now: Instant, cause: Cause) returns (fx: seq<Effect>)
      modifies this
      ensures Out(State(), fx) == Spec.AdvanceToController(old(State()), now, cause)
    {
      var idx := if currentStage.Some? then currentStage.value + 1 else 0;
      while idx < |ladder|
        invariant State() == old(State())
        invariant Spec.NextController(ladder, idx) == Spec.NextController(ladder, Spec.NextRung(State()))
      {
        if !ladder[idx].kind.IsRender() {
          fx := EnterLadderStage(idx, now, cause);
          return;
        }
        idx := idx + 1;
      }
      fx := TeardownRenderToActive(now, cause);
    }

    method ScheduleStageTick(now: Instant) returns (fx: seq<Effect>)
      modifies this
      ensures Out(State(), fx) == Spec.ScheduleStageTick(old(State()), now)
    {
      if currentStage.None? {
        return [];
      }
      if currentStage.value >= |ladder| || ladder[currentStage.value].dwell.None? {
        stageDeadline := None;
        return [];
      }
      stageGen := stageGen + 1;
      var at := now + ladder[currentStage.value].dwell.value;
      stageDeadline := Some(at);
      fx := [ScheduleStageTickAt(stageGen, at)];
    }

    method RearmStageTick(now: Instant) returns (fx: seq<Effect>)
      modifies this
      ensures Out(State(), fx) == Spec.RearmStageTick(old(State()), now)
    {
      var remaining := if stageFrozen.Some? then stageFrozen.value else 0;
      stageFrozen := None;
      if currentStage.None? {
        return [];
      }
      if currentStage.value >= |ladder| || ladder[currentStage.value].dwell.None? {
        stageDeadline := None;
        return [];
      }
      var dwell := ladder[currentStage.value].dwell.value;
      stageGen := stageGen + 1;
      var at := now + if remaining < dwell then remaining else dwell;
      stageDeadline := Some(at);
      fx := [ScheduleStageTickAt(stageGen, at)];
    }

    method FreezeDwell(now: Instant)
      modifies this
      ensures State() == Spec.FreezeDwell(old(State()), now)
    {
      if stageFrozen.None? {
        stageFrozen := Some(if stageDeadline.Some? then Since(stageDeadline.value, now) else 0);
      }
    }

    method ReconcileOwnershipGain(now: Instant) returns (fx: seq<Effect>)
      modifies this
      ensures Out(State(), fx) == Spec.GainOwnership(old(State()), now)
    {
      var from := NameOf(phase);
      owned := true;
      if phase.Grace? {
        fx := if zone == Some(false) then [ScheduleTickAt(phase.until)] else [];
        return;
      }
      if zone != Some(true) && !inhibited && paused.None? {
        return [];
      }
      var log := LogTransition(from, NWaking, COwnershipAcquired);
      match phase {
        case Blanking =>
          pendingWake := true;
          fx := [];
        case Waking =>
          fx := [];
        case RenderPending(_, _) | Staged(_, _) =>
          fx := TeardownRenderToActive(now, COwnershipAcquired);
          var w := StartWake([log], now);
          fx := fx + w;
        case Active | Blanked =>
          fx := StartWake([log], now);
      }
    }

    method RecordPause(until: Option<Instant>) returns (fx: seq<Effect>)
      modifies this
      ensures Out(State(), fx) == Spec.RecordPause(old(State()), until)
    {
      paused := Some(PauseState(until));
      fx := if until.Some? then [ScheduleTickAt(until.value)] else [];
    }

    // ── The step ──────────────────────────────────────────────────────────

    method StepActive(input: Input, now: Instant) returns (fx: seq<Effect>)
      modifies this
      ensures Out(State(), fx) == Spec.StepActive(old(State()), input, now)
    {
      fx := [];
      match input {
        case ZonePresent(present) =>
          zone := Some(present);
          if !present {
            fx := EnterGrace(now, CZoneClear);
          }
        case Tick => fx := MaybeAutoResume(now);
        case InhibitorChanged(on) => inhibited := on;
        case Pause(until) => fx := RecordPause(until);
        case Resume => paused := None;
        case ForceBlank => fx := StartBlankForMode([LogTransition(NameOf(phase), NBlanking, CForceBlank)], blankMode);
        case SoftBlank => fx := EnterLadderStage(0, now, CSoftBlank);
        case OwnershipChanged(owns) =>
          if owns { fx := ReconcileOwnershipGain(now); } else { owned := false; }
        case BlankResult(_, _) | WakeResult(_, _) | ForceWake | InputWake | StageTick(_) | RenderResult(_, _) =>
      }
    }

    method GraceTick(now: Instant) returns (fx: seq<Effect>)
      requires phase.Grace?
      modifies this
      ensures Out(State(), fx) == Spec.GraceTick(old(State()), now)
    {
      var until := phase.until;
      var wasFrozen := graceFrozen.Some?;
      fx := MaybeAutoResume(now);
      if wasFrozen && graceFrozen.None? {
        return;
      }
      if graceFrozen.Some? {
        return;
      }
      if inhibited || paused.Some? {
        FreezeGrace(until, now);
        return;
      }
      if now < until {
        return;
      }
      var blocked := false;
      var rescheduleAt := now;
      if Since(now, startedAt) < timings.startupHoldoff {
        blocked := true;
        if startedAt + timings.startupHoldoff > rescheduleAt {
          rescheduleAt := startedAt + timings.startupHoldoff;
        }
      }
      if lastWake.Some? && Since(now, lastWake.value) < timings.minWakeTime {
        blocked := true;
        if lastWake.value + timings.minWakeTime > rescheduleAt {
          rescheduleAt := lastWake.value + timings.minWakeTime;
        }
      }
      if blocked {
        fx := fx + [ScheduleTickAt(rescheduleAt)];
        return;
      }
      if !owned {
        return;
      }
      var l := EnterLadderStage(0, now, CGraceExpired);
      fx := fx + l;
    }

    method StepGrace(input: Input, now: Instant) returns (fx: seq<Effect>)
      requires phase.Grace?
      modifies this
      ensures Out(State(), fx) == Spec.StepGrace(old(State()), input, now)
    {
      hide Spec.EnterLadder, Spec.GraceTick, Spec.GainOwnership, Spec.UnfreezeGrace;
      fx := [];
      match input {
        case ZonePresent(present) =>
          zone := Some(present);
          if present {
            fx := EnterActive(now, CPresenceDuringGrace);
          }
        case Tick => fx := GraceTick(now);
        case InhibitorChanged(on) =>
          inhibited := on;
          if on { FreezeGrace(phase.until, now); } else { fx := UnfreezeGrace(now); }
        case Pause(until) =>
          var wasPaused := paused.Some?;
          fx := RecordPause(until);
          if !wasPaused {
            FreezeGrace(phase.until, now);
          }
        case Resume =>
          paused := None;
          fx := UnfreezeGrace(now);
        case ForceBlank =>
          graceFrozen := None;
          fx := StartBlankForMode([LogTransition(NameOf(phase), NBlanking, CForceBlank)], blankMode);
        case SoftBlank =>
          graceFrozen := None;
          fx := EnterLadderStage(0, now, CSoftBlank);
        case ForceWake =>
          graceFrozen := None;
          fx := EnterActive(now, CForceWake);
        case InputWake =>
          graceFrozen := None;
          fx := EnterActive(now, CInputWake);
        case OwnershipChanged(owns) =>
          if owns { fx := ReconcileOwnershipGain(now); } else { owned := false; }
        case BlankResult(_, _) | WakeResult(_, _) | StageTick(_) | RenderResult(_, _) =>
      }
    }

    method BlankDone(ok: bool, now: Instant) returns (fx: seq<Effect>)
      requires phase.Blanking?
      modifies this
      ensures Out(State(), fx) == Spec.BlankDone(old(State()), ok, now)
    {
      if ok {
        lastBlank := Some(now);
        if pendingWake {
          pendingWake := false;
          fx := StartWake([LogTransition(NBlanking, NWaking, CPresenceDuringBlank)], now);
        } else {
          phase := Blanked;
          var s := ScheduleStageTick(now);
          fx := [LogTransition(NBlanking, NBlanked, CBlankSucceeded)] + s;
        }
      } else {
        pendingWake := false;
        if zone == Some(false) {
          fx := EnterGrace(now, CBlankFailedRegrace);
        } else {
          fx := EnterActive(now, CBlankFailed);
        }
      }
    }

    method StepBlanking(input: Input, now: Instant) returns (fx: seq<Effect>)
      requires phase.Blanking?
      modifies this
      ensures Out(State(), fx) == Spec.StepBlanking(old(State()), input, now)
    {
      fx := [];
      match input {
        case ZonePresent(present) =>
          zone := Some(present);
          if present {
            pendingWake := true;
          }
        case Tick => fx := MaybeAutoResume(now);
        case InhibitorChanged(on) => inhibited := on;
        case Pause(until) => fx := RecordPause(until);
        case Resume => paused := None;
        case BlankResult(gen, ok) =>
          if Some(gen) == lastBlankGen {
            fx := BlankDone(ok, now);
          }
        case ForceWake | InputWake => pendingWake := true;
        case OwnershipChanged(owns) =>
          if owns { fx := ReconcileOwnershipGain(now); } else { owned := false; }
        case WakeResult(_, _) | ForceBlank | SoftBlank | StageTick(_) | RenderResult(_, _) =>
      }
    }

    method OnStageTick(gen: nat, now: Instant) returns (fx: seq<Effect>)
      modifies this
      ensures Out(State(), fx) ==
              if Spec.StageTickAccepted(old(State()), gen) then Spec.AdvanceStage(old(State()), now, CStageTick)
              else Out(old(State()), [])
    {
      if gen != stageGen {
        fx := [];
      } else if stageFrozen.Some? || inhibited || !owned {
        fx := [];
      } else {
        fx := AdvanceStage(now, CStageTick);
      }
    }

    method StepBlanked(input: Input, now: Instant) returns (fx: seq<Effect>)
      modifies this
      ensures Out(State(), fx) == Spec.StepBlanked(old(State()), input, now)
    {
      hide Spec.EnterActive, Spec.GainOwnership, Spec.AutoResume, Spec.AdvanceStage;
      fx := [];
      match input {
        case ZonePresent(present) =>
          zone := Some(present);
          if present {
            fx := StartWake([LogTransition(NameOf(phase), NWaking, CPresenceDetected)], now);
          }
        case Tick => fx := MaybeAutoResume(now);
        case InhibitorChanged(on) => inhibited := on;
        case Pause(until) => fx := RecordPause(until);
        case Resume => paused := None;
        case ForceWake => fx := StartWake([LogTransition(NameOf(phase), NWaking, CForceWake)], now);
        case InputWake => fx := StartWake([LogTransition(NameOf(phase), NWaking, CInputWake)], now);
        case StageTick(gen) => fx := OnStageTick(gen, now);
        case OwnershipChanged(owns) =>
          if owns {
            fx := ReconcileOwnershipGain(now);
          } else {
            owned := false;
            fx := EnterActive(now, COwnershipYielded);
          }
        case BlankResult(_, _) | WakeResult(_, _) | ForceBlank | SoftBlank | RenderResult(_, _) =>
      }
    }

    method StepWaking(input: Input, now: Instant) returns (fx: seq<Effect>)
      requires phase.Waking?
      modifies this
      ensures Out(State(), fx) == Spec.StepWaking(old(State()), input, now)
    {
      hide Spec.EnterActive, Spec.GainOwnership, Spec.AutoResume;
      fx := [];
      match input {
        case ZonePresent(present) => zone := Some(present);
        case Tick =>
          fx := MaybeAutoResume(now);
          var w := StartWake([], now);
          fx := fx + [LogTransition(NWaking, NWaking, CWakeRetryScheduled)] + w;
        case InhibitorChanged(on) => inhibited := on;
        case Pause(until) => fx := RecordPause(until);
        case Resume => paused := None;
        case WakeResult(gen, ok) =>
          if Some(gen) == lastWakeGen {
            if ok {
              lastWake := Some(now);
              fx := EnterActive(now, CWakeCompleted);
            } else {
              fx := StartWake([LogTransition(NWaking, NWaking, CWakeRetry)], now);
            }
          }
        case ForceBlank => fx := StartBlankForMode([LogTransition(NWaking, NBlanking, CForceBlank)], blankMode);
        case ForceWake | InputWake => fx := StartWake([], now);
        case OwnershipChanged(owns) =>
          if owns { fx := ReconcileOwnershipGain(now); } else { owned := false; }
        case BlankResult(_, _) | SoftBlank | StageTick(_) | RenderResult(_, _) =>
      }
    }

    method ForceBlankOverRender() returns (fx: seq<Effect>)
      modifies this
      ensures Out(State(), fx) == Spec.ForceBlankOverRender(old(State()))
    {
      fx := [TeardownRender(stageGen)];
      currentStage := None;
      fx := fx + [LogTransition(NameOf(phase), NBlanking, CForceBlank)];
      var b := StartBlankForMode([], blankMode);
      fx := fx + b;
    }

    method SoftBlankOverRender(now: Instant) returns (fx: seq<Effect>)
      modifies this
      ensures Out(State(), fx) == Spec.SoftBlankOverRender(old(State()), now)
    {
      fx := [TeardownRender(stageGen)];
      currentStage := None;
      fx := fx + [LogTransition(NameOf(phase), NEnteringLadder, CSoftBlank)];
      var l := EnterLadderStage(0, now, CSoftBlank);
      fx := fx + l;
    }

    method RenderDone(ok: bool, now: Instant) returns (fx: seq<Effect>)
      requires phase.RenderPending?
      modifies this
      ensures Out(State(), fx) == Spec.RenderDone(old(State()), ok, now)
    {
      hide Spec.AdvanceToController, Spec.ScheduleStageTick;
      if ok {
        phase := Staged(phase.idx, phase.pendingGen);
        var s := ScheduleStageTick(now);
        fx := [LogTransition(NRenderPending, NStaged, CRenderSucceeded)] + s;
      } else {
        fx := AdvanceToNextController(now, CRenderFailed);
      }
    }

    method StepRenderPending(input: Input, now: Instant) returns (fx: seq<Effect>)
      requires phase.RenderPending?
      modifies this
      ensures Out(State(), fx) == Spec.StepRenderPending(old(State()), input, now)
    {
      hide Spec.TeardownToActive, Spec.RenderDone, Spec.GainOwnership, Spec.AutoResume,
           Spec.ForceBlankOverRender, Spec.SoftBlankOverRender;
      fx := [];
      match input {
        case ZonePresent(present) =>
          zone := Some(present);
          if present {
            fx := TeardownRenderToActive(now, CPresenceDetected);
          }
        case Tick => fx := MaybeAutoResume(now);
        case InhibitorChanged(on) => inhibited := on;
        case Pause(until) => fx := RecordPause(until);
        case Resume => paused := None;
        case RenderResult(gen, ok) =>
          if gen == phase.pendingGen { fx := RenderDone(ok, now); }
        case InputWake => fx := TeardownRenderToActive(now, CInputWake);
        case ForceWake => fx := TeardownRenderToActive(now, CForceWake);
        case ForceBlank => fx := ForceBlankOverRender();
        case SoftBlank => fx := SoftBlankOverRender(now);
        case OwnershipChanged(owns) =>
          if owns {
            fx := ReconcileOwnershipGain(now);
          } else {
            owned := false;
            fx := TeardownRenderToActive(now, COwnershipYielded);
          }
        case BlankResult(_, _) | WakeResult(_, _) | StageTick(_) =>
      }
    }

    method StepStaged(input: Input, now: Instant) returns (fx: seq<Effect>)
      modifies this
      ensures Out(State(), fx) == Spec.StepStaged(old(State()), input, now)
    {
      hide Spec.TeardownToActive, Spec.AdvanceStage, Spec.GainOwnership, Spec.AutoResume, Spec.FreezeDwell,
           Spec.RearmStageTick, Spec.ForceBlankOverRender, Spec.SoftBlankOverRender;
      fx := [];
      match input {
        case ZonePresent(present) =>
          zone := Some(present);
          if present {
            fx := TeardownRenderToActive(now, CPresenceDetected);
          }
        case Tick => fx := MaybeAutoResume(now);
        case InhibitorChanged(on) =>
          inhibited := on;
          if on { FreezeDwell(now); } else { fx := RearmStageTick(now); }
        case Pause(until) =>
          var wasPaused := paused.Some?;
          fx := RecordPause(until);
          if !wasPaused {
            FreezeDwell(now);
          }
        case Resume =>
          paused := None;
          if !inhibited {
            fx := RearmStageTick(now);
          }
        case StageTick(gen) => fx := OnStageTick(gen, now);
        case InputWake => fx := TeardownRenderToActive(now, CInputWake);
        case ForceWake => fx := TeardownRenderToActive(now, CForceWake);
        case ForceBlank => fx := ForceBlankOverRender();
        case SoftBlank => fx := SoftBlankOverRender(now);
        case OwnershipChanged(owns) =>
          if owns {
            fx := ReconcileOwnershipGain(now);
          } else {
            owned := false;
            fx := TeardownRenderToActive(now, COwnershipYielded);
          }
        case BlankResult(_, _) | WakeResult(_, _) | RenderResult(_, _) =>
      }
    }

    method Step(input: Input, now: Instant) returns (fx: seq<Effect>)
      modifies this
      ensures Out(State(), fx) == Spec.Step(old(State()), input, now)
    {
      match phase {
        case Active => fx := StepActive(input, now);
        case Grace(_) => fx := StepGrace(input, now);
        case Blanking => fx := StepBlanking(input, now);
        case Blanked => fx := StepBlanked(input, now);
        case Waking => fx := StepWaking(input, now);
        case RenderPending(_, _) => fx := StepRenderPending(input, now);
        case Staged(_, _) => fx := StepStaged(input, now);
      }
    }
  }
}
