/** What each rung commands: which rung every input enters, the blank mode or the surface that goes
    out with it, and the dwell that is armed on it. */
module LadderCommands {
  import opened DisplayTypes
  import opened DisplaySpec
  import opened DisplayRuns
  import opened StageTicks

  // ── The mode of a forced blank ──────────────────────────────────────────

  /** The primary mode is that of the first controller rung, and power-off without one. */
  lemma {:induction false} PrimaryIsFirstController(ladder: seq<LadderStage>)
    ensures if exists k :: 0 <= k < |ladder| && ladder[k].kind.Controller? then
              exists k :: 0 <= k < |ladder| && ladder[k].kind == Controller(PrimaryBlankMode(ladder)) &&
                forall j :: 0 <= j < k ==> ladder[j].kind.IsRender()
            else PrimaryBlankMode(ladder) == PowerOff
  {
    if ladder != [] && !ladder[0].kind.Controller? {
      var rest := ladder[1..];
      PrimaryIsFirstController(rest);
      if exists k :: 0 <= k < |ladder| && ladder[k].kind.Controller? {
        var j :| 0 <= j < |ladder| && ladder[j].kind.Controller?;
        assert rest[j - 1].kind.Controller?;
        var k :| 0 <= k < |rest| && rest[k].kind == Controller(PrimaryBlankMode(rest)) &&
                 forall j :: 0 <= j < k ==> rest[j].kind.IsRender();
        assert ladder[k + 1] == rest[k];
        forall j | 0 <= j < k + 1 ensures ladder[j].kind.IsRender() {
          if j > 0 {
            assert ladder[j] == rest[j - 1];
          }
        }
      } else {
        assert forall k :: 0 <= k < |rest| ==> rest[k] == ladder[k + 1];
      }
    }
  }

  // ── What a step commands ────────────────────────────────────────────────

  /** A blank goes out under the newest command generation, in the mode of the controller rung just
      entered, or by force in the primary mode. */
  predicate BlankFits(m: Machine, input: Input, n: Machine, x: Effect)
    requires x.IssueBlank?
  {
    && n.phase.Blanking? && n.cmds.lastBlankGen == Some(x.gen) && n.cmds.gen == x.gen
    && (if input.ForceBlank? then x.mode == m.cfg.blankMode
        else
          && n.stage.current.Some? && n.stage.current.value < |m.cfg.ladder|
          && m.cfg.ladder[n.stage.current.value].kind == Controller(x.mode))
  }

  /** A surface goes up for the render rung just entered, under the rung's generation. */
  predicate ShowFits(m: Machine, n: Machine, x: Effect)
    requires x.ShowRender?
  {
    && n.phase == RenderPending(x.idx, x.gen) && n.stage.current == Some(x.idx) && n.stage.gen == x.gen
    && x.idx < |m.cfg.ladder| && m.cfg.ladder[x.idx].kind == x.kind && x.kind.IsRender()
  }

  /** A surface comes down under the generation then current. */
  predicate TeardownFits(m: Machine, x: Effect)
    requires x.TeardownRender?
  {
    x.gen == m.stage.gen
  }

  predicate EffectFits(m: Machine, input: Input, n: Machine, x: Effect) {
    && (x.IssueBlank? ==> BlankFits(m, input, n, x))
    && (x.ShowRender? ==> ShowFits(m, n, x))
    && (x.TeardownRender? ==> TeardownFits(m, x))
  }

  predicate Fits(m: Machine, input: Input, o: Out) {
    forall k :: 0 <= k < |o.fx| ==> EffectFits(m, input, o.m, o.fx[k])
  }

  /** Where the input leads when it enters a rung. */
  predicate RungFits(m: Machine, input: Input, rung: nat) {
    match input
    case Tick => rung == 0
    case SoftBlank => rung == 0
    case StageTick(_) => rung == if m.stage.current.Some? then m.stage.current.value + 1 else 0
    case RenderResult(_, ok) =>
      && !ok && m.stage.current.Some? && m.stage.current.value < rung < |m.cfg.ladder|
      && m.cfg.ladder[rung].kind.Controller?
      && forall k :: m.stage.current.value < k < rung ==> m.cfg.ladder[k].kind.IsRender()
    case _ => false
  }

  /** A rung entered is the one the input leads to, and its command goes out. */
  predicate Goes(m: Machine, input: Input, o: Out) {
    Arrives(m, o) ==>
      var rung := o.m.stage.current.value;
      && rung < |m.cfg.ladder| && RungFits(m, input, rung)
      && (match m.cfg.ladder[rung].kind
          case Controller(mode) =>
            o.m.phase.Blanking? && o.fx != [] && o.fx[|o.fx| - 1] == IssueBlank(m.cmds.gen + 1, mode)
          case _ =>
            && o.m.phase == RenderPending(rung, m.stage.gen + 1) && o.fx != []
            && o.fx[|o.fx| - 1] == ShowRender(m.stage.gen + 1, rung, m.cfg.ladder[rung].kind))
  }

  /** Nothing commanded and no rung entered. */
  predicate Commandless(m: Machine, o: Out) {
    && o.m.cmds == m.cmds && o.m.stage.gen == m.stage.gen
    && forall k :: 0 <= k < |o.fx| ==> !o.fx[k].IssueBlank? && !o.fx[k].ShowRender? && !o.fx[k].TeardownRender?
  }

  lemma ActiveFits(m: Machine, a: Machine, input: Input, now: Instant, cause: Cause)
    requires a.stage.gen == m.stage.gen
    ensures var o := EnterActive(a, now, cause); Fits(m, input, o) && Goes(m, input, o)
    ensures var t := TeardownToActive(a, now, cause); Fits(m, input, t) && Goes(m, input, t)
  {
    hide BlankFits, ShowFits, RungFits;
  }

  /** A rung entered from `a`, a copy of `m` up to overlays, phase and rung. */
  lemma LadderFits(m: Machine, a: Machine, idx: nat, input: Input, now: Instant, cause: Cause)
    requires a.cfg == m.cfg && a.cmds == m.cmds && a.stage.gen == m.stage.gen && !input.ForceBlank?
    requires idx < |m.cfg.ladder| ==> RungFits(m, input, idx)
    ensures var o := EnterLadder(a, idx, now, cause); Fits(m, input, o) && Goes(m, input, o)
  {
    hide EnterLadder, Fits, Goes, RungFits;
    if idx >= |m.cfg.ladder| {
      PastTheTop(a, idx, now, cause);
      ActiveFits(m, a, input, now, cause);
    } else {
      RungCommands(m, a, idx, input, now, cause);
      RungEntered(m, a, idx, input, now, cause);
    }
  }

  lemma PastTheTop(a: Machine, idx: nat, now: Instant, cause: Cause)
    requires idx >= |a.cfg.ladder|
    ensures EnterLadder(a, idx, now, cause) == EnterActive(a, now, cause)
  {
    hide EnterActive;
  }

  lemma RungCommands(m: Machine, a: Machine, idx: nat, input: Input, now: Instant, cause: Cause)
    requires a.cfg == m.cfg && a.stage.gen == m.stage.gen && !input.ForceBlank? && idx < |m.cfg.ladder|
    ensures Fits(m, input, EnterLadder(a, idx, now, cause))
  {
    hide EnterLadder, EffectFits;
    var o := EnterLadder(a, idx, now, cause);
    PlainFits(m, input, o.m);
    RungBatch(a, idx, now, cause);
    match m.cfg.ladder[idx].kind
    case Controller(mode) => BlankOfRung(m, a, idx, mode, input, now, cause);
    case _ => ShowOfRung(m, a, idx, input, now, cause);
  }

  /** What goes out when a rung is entered. */
  lemma RungBatch(a: Machine, idx: nat, now: Instant, cause: Cause)
    requires idx < |a.cfg.ladder|
    ensures var (fx, log) := (EnterLadder(a, idx, now, cause).fx, LogTransition(NameOf(a.phase), NBlanking, cause));
            match a.cfg.ladder[idx].kind
            case Controller(mode) =>
              var blank := IssueBlank(a.cmds.gen + 1, mode);
              fx == (if OnRenderRung(a) then [TeardownRender(a.stage.gen), log, blank] else [log, blank])
            case kind =>
              fx == [LogTransition(NameOf(a.phase), NRenderPending, cause), ShowRender(a.stage.gen + 1, idx, kind)]
  {
    hide EnterActive, OnRenderRung, NameOf;
  }

  lemma PlainFits(m: Machine, input: Input, n: Machine)
    ensures EffectFits(m, input, n, TeardownRender(m.stage.gen))
    ensures forall from: PhaseName, to: PhaseName, cause: Cause ::
              EffectFits(m, input, n, LogTransition(from, to, cause))
  {
  }

  lemma BlankOfRung(m: Machine, a: Machine, idx: nat, mode: BlankMode, input: Input, now: Instant, cause: Cause)
    requires a.cfg == m.cfg && !input.ForceBlank? && idx < |m.cfg.ladder| && m.cfg.ladder[idx].kind == Controller(mode)
    ensures EffectFits(m, input, EnterLadder(a, idx, now, cause).m, IssueBlank(a.cmds.gen + 1, mode))
  {
    hide EnterActive, NameOf, OnRenderRung;
  }

  lemma ShowOfRung(m: Machine, a: Machine, idx: nat, input: Input, now: Instant, cause: Cause)
    requires a.cfg == m.cfg && idx < |m.cfg.ladder| && m.cfg.ladder[idx].kind.IsRender()
    ensures var show := ShowRender(a.stage.gen + 1, idx, m.cfg.ladder[idx].kind);
            EffectFits(m, input, EnterLadder(a, idx, now, cause).m, show)
  {
    hide EnterActive, NameOf, OnRenderRung;
  }

  lemma RungEntered(m: Machine, a: Machine, idx: nat, input: Input, now: Instant, cause: Cause)
    requires a.cfg == m.cfg && a.cmds == m.cmds && a.stage.gen == m.stage.gen
    requires idx < |m.cfg.ladder| && RungFits(m, input, idx)
    ensures Goes(m, input, EnterLadder(a, idx, now, cause))
  {
    hide EnterActive, NameOf, OnRenderRung, RungFits;
  }

  lemma JoinedFits(m: Machine, input: Input, prefix: seq<Effect>, o: Out)
    requires Fits(m, input, o) && Goes(m, input, o)
    requires forall k :: 0 <= k < |prefix| ==> EffectFits(m, input, o.m, prefix[k])
    ensures var p := Out(o.m, prefix + o.fx); Fits(m, input, p) && Goes(m, input, p)
  {
    hide EffectFits, RungFits;
    var p := Out(o.m, prefix + o.fx);
    forall k | 0 <= k < |p.fx| ensures p.fx[k] == if k < |prefix| then prefix[k] else o.fx[k - |prefix|] {
    }
    if Arrives(m, o) {
      assert o.fx != [] && p.fx[|p.fx| - 1] == o.fx[|o.fx| - 1];
    }
  }

  lemma GainFits(m: Machine, now: Instant)
    requires Sturdy(m)
    ensures var o := GainOwnership(m, now); Fits(m, OwnershipChanged(true), o) && Goes(m, OwnershipChanged(true), o)
  {
    hide EnterActive, TeardownToActive;
    ActiveFits(m, m.(owned := true), OwnershipChanged(true), now, COwnershipAcquired);
  }

  lemma FitsWhenLit(m: Machine, input: Input, now: Instant)
    requires Sturdy(m) && (m.phase.Active? || m.phase.Waking?)
    ensures Fits(m, input, Step(m, input, now)) && Goes(m, input, Step(m, input, now))
  {
    hide StepGrace, StepBlanking, StepBlanked, StepRenderPending, StepStaged;
    hide EnterActive, EnterLadder, TeardownToActive, GainOwnership;
    match input
    case SoftBlank => LadderFits(m, m, 0, input, now, CSoftBlank);
    case OwnershipChanged(_) => GainFits(m, now);
    case WakeResult(_, _) => ActiveFits(m, m.(cmds := m.cmds.(lastWake := Some(now))), input, now, CWakeCompleted);
    case _ =>
  }

  lemma FitsOnGraceTick(m: Machine, now: Instant)
    requires m.phase.Grace?
    ensures var o := GraceTick(m, now); Fits(m, Tick, o) && Goes(m, Tick, o)
  {
    hide EnterLadder, GateOpensAt, Goes, Fits;
    var r := AutoResume(m, now);
    LadderFits(m, r.m, 0, Tick, now, CGraceExpired);
    JoinedFits(m, Tick, r.fx, EnterLadder(r.m, 0, now, CGraceExpired));
    QuietFits(m, Tick, r);
    QuietFits(m, Tick, Out(FreezeGrace(r.m, m.phase.until, now), r.fx));
    if GateOpensAt(r.m, now).Some? {
      QuietFits(m, Tick, Out(r.m, r.fx + [ScheduleTickAt(GateOpensAt(r.m, now).value)]));
    }
  }

  lemma QuietFits(m: Machine, input: Input, o: Out)
    requires Commandless(m, o)
    ensures Fits(m, input, o) && Goes(m, input, o)
  {
  }

  lemma FitsInGrace(m: Machine, input: Input, now: Instant)
    requires Sturdy(m) && m.phase.Grace?
    ensures Fits(m, input, StepGrace(m, input, now)) && Goes(m, input, StepGrace(m, input, now))
  {
    hide EnterActive, EnterLadder, TeardownToActive, GainOwnership, GraceTick;
    match input
    case ZonePresent(_) => ActiveFits(m, m.(zone := Some(true)), input, now, CPresenceDuringGrace);
    case ForceWake => ActiveFits(m, m, input, now, CForceWake);
    case InputWake => ActiveFits(m, m, input, now, CInputWake);
    case SoftBlank => LadderFits(m, m.(graceFrozen := None), 0, input, now, CSoftBlank);
    case OwnershipChanged(_) => GainFits(m, now);
    case Tick => FitsOnGraceTick(m, now);
    case _ =>
  }

  lemma FitsBlankDone(m: Machine, gen: nat, ok: bool, now: Instant)
    requires m.phase.Blanking?
    ensures var o := BlankDone(m, ok, now); Fits(m, BlankResult(gen, ok), o) && Goes(m, BlankResult(gen, ok), o)
  {
    hide EnterActive, RungFits, BlankFits, ShowFits;
    ActiveFits(m, m.(pendingWake := false), BlankResult(gen, ok), now, CBlankFailed);
  }

  lemma FitsBlanking(m: Machine, input: Input, now: Instant)
    requires Sturdy(m) && m.phase.Blanking?
    ensures Fits(m, input, StepBlanking(m, input, now)) && Goes(m, input, StepBlanking(m, input, now))
  {
    hide BlankDone, GainOwnership, RungFits, BlankFits, ShowFits;
    match input
    case BlankResult(gen, ok) => FitsBlankDone(m, gen, ok, now);
    case OwnershipChanged(_) => GainFits(m, now);
    case _ =>
  }

  lemma FitsBlanked(m: Machine, input: Input, now: Instant)
    requires Sturdy(m) && m.phase.Blanked?
    ensures Fits(m, input, StepBlanked(m, input, now)) && Goes(m, input, StepBlanked(m, input, now))
  {
    hide EnterActive, EnterLadder, TeardownToActive, GainOwnership, BlankFits, ShowFits;
    match input
    case StageTick(_) => LadderFits(m, m, NextRung(m), input, now, CStageTick);
    case OwnershipChanged(_) =>
      GainFits(m, now);
      ActiveFits(m, m.(owned := false), input, now, COwnershipYielded);
    case _ =>
  }

  lemma SoftFits(m: Machine, now: Instant)
    ensures var o := SoftBlankOverRender(m, now); Fits(m, SoftBlank, o) && Goes(m, SoftBlank, o)
  {
    hide EnterLadder;
    var bare := m.(stage := m.stage.(current := None));
    LadderFits(m, bare, 0, SoftBlank, now, CSoftBlank);
    JoinedFits(m, SoftBlank, [TeardownRender(m.stage.gen), LogTo(m, NEnteringLadder, CSoftBlank)],
               EnterLadder(bare, 0, now, CSoftBlank));
  }

  lemma RenderDoneFits(m: Machine, gen: nat, ok: bool, now: Instant)
    requires Sturdy(m) && m.phase.RenderPending?
    ensures var o := RenderDone(m, ok, now); Fits(m, RenderResult(gen, ok), o) && Goes(m, RenderResult(gen, ok), o)
  {
    hide EnterActive, EnterLadder, TeardownToActive, Countdown;
    hide BlankFits, ShowFits, TeardownFits;
    var input := RenderResult(gen, ok);
    ActiveFits(m, m, input, now, CRenderFailed);
    if !ok {
      LadderFits(m, m, NextController(m.cfg.ladder, NextRung(m)), input, now, CRenderFailed);
    }
  }

  lemma FitsPending(m: Machine, input: Input, now: Instant)
    requires Sturdy(m) && m.phase.RenderPending?
    ensures var o := StepRenderPending(m, input, now); Fits(m, input, o) && Goes(m, input, o)
  {
    hide EnterActive, TeardownToActive, GainOwnership, SoftBlankOverRender, RenderDone;
    match input
    case ZonePresent(p) => ActiveFits(m, m.(zone := Some(p)), input, now, CPresenceDetected);
    case InputWake => ActiveFits(m, m, input, now, CInputWake);
    case ForceWake => ActiveFits(m, m, input, now, CForceWake);
    case RenderResult(gen, ok) => RenderDoneFits(m, gen, ok, now);
    case SoftBlank => SoftFits(m, now);
    case OwnershipChanged(_) =>
      GainFits(m, now);
      ActiveFits(m, m.(owned := false), input, now, COwnershipYielded);
    case _ =>
  }

  lemma FitsStaged(m: Machine, input: Input, now: Instant)
    requires Sturdy(m) && m.phase.Staged?
    ensures var o := StepStaged(m, input, now); Fits(m, input, o) && Goes(m, input, o)
  {
    hide EnterActive, EnterLadder, TeardownToActive, GainOwnership, SoftBlankOverRender;
    match input
    case ZonePresent(p) => ActiveFits(m, m.(zone := Some(p)), input, now, CPresenceDetected);
    case InputWake => ActiveFits(m, m, input, now, CInputWake);
    case ForceWake => ActiveFits(m, m, input, now, CForceWake);
    case StageTick(_) => LadderFits(m, m, NextRung(m), input, now, CStageTick);
    case SoftBlank => SoftFits(m, now);
    case OwnershipChanged(_) =>
      GainFits(m, now);
      ActiveFits(m, m.(owned := false), input, now, COwnershipYielded);
    case _ =>
  }

  /** In every state of every run: a blank goes out exactly in the mode of the controller rung just
      entered, or by force in the primary mode; a surface goes up exactly for the render rung just
      entered; and the rung entered is rung 0 on a tick or a soft blank, the next one on a stage tick,
      the first controller above on a failed render. */
  lemma EveryCommandFits(m: Machine, input: Input, now: Instant)
    requires Sturdy(m)
    ensures Fits(m, input, Step(m, input, now)) && Goes(m, input, Step(m, input, now))
  {
    hide Fits, Goes, Sturdy;
    hide StepActive, StepGrace, StepBlanking, StepBlanked, StepWaking, StepRenderPending, StepStaged;
    match m.phase
    case Grace(_) => FitsInGrace(m, input, now);
    case Blanking => FitsBlanking(m, input, now);
    case Blanked => FitsBlanked(m, input, now);
    case RenderPending(_, _) => FitsPending(m, input, now);
    case Staged(_, _) => FitsStaged(m, input, now);
    case _ => FitsWhenLit(m, input, now);
  }

  // ── The dwell ───────────────────────────────────────────────────────────

  /** Whether the input ends a freeze, so that only what was left of the dwell is armed again. */
  predicate Rearms(input: Input) { input.Resume? || input.InhibitorChanged? }

  /** What was left of the dwell when it was frozen, nothing if it was not. */
  function Left(m: Machine): Duration { if m.stage.frozen.Some? then m.stage.frozen.value else 0 }

  function Shorter(a: Duration, b: Duration): Duration { if a <= b then a else b }

  /** How long the step's stage tick waits, where it arms one. */
  predicate WaitFits(m: Machine, input: Input, now: Instant, o: Out) {
    ArmsTick(m, o) ==>
      var dwell := m.cfg.ladder[m.stage.current.value].dwell.value;
      var wait := if Rearms(input) then Shorter(Left(m), dwell) else dwell;
      && (input.RenderResult? || input.BlankResult? || Rearms(input))
      && ScheduleStageTickAt(m.stage.gen + 1, now + wait) in o.fx
      && o.m.stage.deadline == Some(now + wait)
  }

  lemma ArmedWait(m: Machine, limit: Option<Duration>, now: Instant)
    requires m.stage.current.Some? && DwellOf(m).Some?
    ensures var o := ArmStageTick(m, limit, now);
            var dwell := m.cfg.ladder[m.stage.current.value].dwell.value;
            var wait := if limit.Some? then Shorter(limit.value, dwell) else dwell;
            o.fx == [ScheduleStageTickAt(m.stage.gen + 1, now + wait)] && o.m.stage.deadline == Some(now + wait)
  {
  }

  lemma UnarmedWait(m: Machine, limit: Option<Duration>, now: Instant)
    requires m.stage.current.None? || DwellOf(m).None?
    ensures ArmStageTick(m, limit, now).fx == [] && ArmStageTick(m, limit, now).m.stage.gen == m.stage.gen
  {
  }

  lemma WaitOfBlank(m: Machine, gen: nat, ok: bool, now: Instant)
    requires m.phase.Blanking?
    ensures WaitFits(m, BlankResult(gen, ok), now, BlankDone(m, ok, now))
  {
    hide EnterActive, ArmStageTick;
    var b := m.(cmds := m.cmds.(lastBlank := Some(now)), phase := Blanked);
    if m.stage.current.Some? && DwellOf(m).Some? {
      ArmedWait(b, None, now);
    } else {
      UnarmedWait(b, None, now);
    }
    ActiveMove(m.(pendingWake := false), now, CBlankFailed);
  }

  lemma WaitOfRender(m: Machine, gen: nat, now: Instant)
    requires m.phase.RenderPending?
    ensures WaitFits(m, RenderResult(gen, true), now, RenderDone(m, true, now))
  {
    hide ArmStageTick;
    var s := m.(phase := Staged(m.phase.idx, m.phase.pendingGen));
    if m.stage.current.Some? && DwellOf(m).Some? {
      ArmedWait(s, None, now);
    } else {
      UnarmedWait(s, None, now);
    }
  }

  lemma WaitOfRearm(m: Machine, thawed: Machine, input: Input, now: Instant)
    requires Rearms(input) && thawed.cfg == m.cfg && thawed.stage == m.stage
    ensures WaitFits(m, input, now, RearmStageTick(thawed, now))
  {
    hide ArmStageTick;
    var t := thawed.(stage := m.stage.(frozen := None));
    if m.stage.current.Some? && DwellOf(m).Some? {
      ArmedWait(t, Some(Left(m)), now);
    } else {
      UnarmedWait(t, Some(Left(m)), now);
    }
  }

  lemma OnlyThreeArm(m: Machine, input: Input, now: Instant)
    requires Sturdy(m) && ArmsTick(m, Step(m, input, now))
    ensures || (m.phase.Blanking? && input.BlankResult? && Some(input.gen) == m.cmds.lastBlankGen)
            || (m.phase.RenderPending? && input.RenderResult? && input.ok && input.gen == m.phase.pendingGen)
            || (m.phase.Staged? && Rearms(input))
  {
    hide StepActive, StepGrace, StepWaking, EnterActive, EnterLadder, TeardownToActive, ArmStageTick, BlankDone;
    NoArmElsewhere(m, input, now);
  }

  lemma NoArmElsewhere(m: Machine, input: Input, now: Instant)
    requires Sturdy(m)
    ensures m.phase.Active? || m.phase.Grace? || m.phase.Waking? ==> !ArmsTick(m, Step(m, input, now))
  {
  }

  /** In every state of every run: a stage tick is armed only by the answer that puts the rung up or by
      a release or a resume, and waits the rung's whole dwell, or after a freeze what was left of it
      if that is shorter. */
  lemma EveryTickWaits(m: Machine, input: Input, now: Instant)
    requires Sturdy(m)
    ensures WaitFits(m, input, now, Step(m, input, now))
  {
    hide StepActive, StepGrace, StepBlanked, StepWaking, BlankDone, RenderDone, RearmStageTick;
    hide Sturdy, WaitFits, ArmsTick;
    if ArmsTick(m, Step(m, input, now)) {
      OnlyThreeArm(m, input, now);
      match m.phase
      case Blanking => WaitOfBlank(m, input.gen, input.ok, now);
      case RenderPending(_, _) => WaitOfRender(m, input.gen, now);
      case Staged(_, _) =>
        if input == InhibitorChanged(true) || (input.Resume? && m.overlays.inhibited) {
          QuietStaged(m, input, now);
        } else {
          WaitOfRearm(m, m.(overlays := m.overlays.(paused := None)), input, now);
          WaitOfRearm(m, m.(overlays := m.overlays.(inhibited := false)), input, now);
        }
    } else {
      Unarmed(m, input, now);
    }
  }

  lemma Unarmed(m: Machine, input: Input, now: Instant)
    requires !ArmsTick(m, Step(m, input, now))
    ensures WaitFits(m, input, now, Step(m, input, now))
  {
    hide Step;
  }

  lemma QuietStaged(m: Machine, input: Input, now: Instant)
    requires m.phase.Staged? && (input == InhibitorChanged(true) || (input.Resume? && m.overlays.inhibited))
    ensures !ArmsTick(m, Step(m, input, now))
  {
    hide StepActive, StepGrace, StepBlanking, StepBlanked, StepWaking, StepRenderPending;
  }

  /** Neither a release nor a resume. */
  predicate Holds(e: Event) { e.Feed? ==> !e.input.Resume? && e.input != InhibitorChanged(false) }

  predicate StaysAt(m: Machine, es: seq<Event>, k: nat)
    requires k < |es|
  {
    Holds(es[k]) && At(m, es, k + 1).phase.Staged?
  }

  predicate StaysStaged(m: Machine, es: seq<Event>, i: nat)
    requires i <= |es|
  {
    forall k :: 0 <= k < i ==> StaysAt(m, es, k)
  }

  lemma FrozenStays(m: Machine, e: Event)
    requires Sturdy(m) && m.phase.Staged? && m.stage.frozen.Some? && Apply(m, e).m.phase.Staged? && Holds(e)
    ensures Apply(m, e).m.stage == m.stage && Apply(m, e).m.cfg == m.cfg
  {
    hide StepActive, StepGrace, StepBlanking, StepBlanked, StepWaking, StepRenderPending, Placed;
    hide EnterActive, EnterLadder, TeardownToActive, GainOwnership;
    LeadsAwake();
    if e.Feed? {
      GainStays(m, e.now);
    }
  }

  lemma GainStays(m: Machine, now: Instant)
    requires m.phase.Staged?
    ensures var n := GainOwnership(m, now).m; n.phase.Staged? ==> n.stage == m.stage && n.cfg == m.cfg
  {
    hide EnterActive, TeardownToActive;
  }

  lemma {:induction false} FrozenThroughout(m: Machine, es: seq<Event>, i: nat)
    requires Sturdy(m) && m.phase.Staged? && m.stage.frozen.Some? && i <= |es|
    requires StaysStaged(m, es, i)
    ensures At(m, es, i).stage == m.stage && At(m, es, i).cfg == m.cfg && Sturdy(At(m, es, i))
    ensures At(m, es, i).phase.Staged?
  {
    hide Apply, Sturdy;
    if i > 0 {
      FrozenThroughout(m, es, i - 1);
      assert StaysAt(m, es, i - 1);
      SturdyKept(At(m, es, i - 1), es[i - 1]);
      FrozenStays(At(m, es, i - 1), es[i - 1]);
    }
  }

  /** A pause postpones the dwell by exactly its length: on a staged rung whose tick is armed for `at`,
      paused at `from` and - whatever comes between, no release and no earlier resume, while the rung
      lasts - resumed at `until`, the tick is armed again for `at` plus the time between. */
  lemma PausePostponesDwell(m: Machine, pause: Option<Instant>, from: Instant, es: seq<Event>, until: Instant)
    requires Sturdy(m) && m.phase.Staged? && m.overlays.paused.None? && m.stage.frozen.None?
    requires m.stage.deadline.Some? && DwellOf(m).Some?
    requires from <= m.stage.deadline.value <= from + DwellOf(m).value
    requires var n := Step(m, Pause(pause), from).m;
             StaysStaged(n, es, |es|) && !At(n, es, |es|).overlays.inhibited
    ensures var n := At(Step(m, Pause(pause), from).m, es, |es|);
            var at := m.stage.deadline.value + (until - from);
            && Step(n, Resume, until).fx == [ScheduleStageTickAt(m.stage.gen + 1, at)]
            && Step(n, Resume, until).m.stage.deadline == Some(at)
  {
    hide Sturdy, At, StaysStaged, ArmStageTick;
    hide StepActive, StepGrace, StepBlanking, StepBlanked, StepWaking, StepRenderPending;
    var p := Step(m, Pause(pause), from).m;
    SturdyKept(m, Feed(Pause(pause), from));
    FrozenThroughout(p, es, |es|);
    var n := At(p, es, |es|);
    var thawed := n.(overlays := n.overlays.(paused := None), stage := n.stage.(frozen := None));
    ArmedWait(thawed, Some(m.stage.deadline.value - from), until);
  }

  /** An inhibitor postpones it the same way, from its engagement to its release, as long as nothing
      resumes and no other inhibitor release comes between. */
  lemma InhibitionPostponesDwell(m: Machine, from: Instant, es: seq<Event>, until: Instant)
    requires Sturdy(m) && m.phase.Staged? && m.stage.frozen.None?
    requires m.stage.deadline.Some? && DwellOf(m).Some?
    requires from <= m.stage.deadline.value <= from + DwellOf(m).value
    requires StaysStaged(Step(m, InhibitorChanged(true), from).m, es, |es|)
    ensures var n := At(Step(m, InhibitorChanged(true), from).m, es, |es|);
            var o := Step(n, InhibitorChanged(false), until);
            var at := m.stage.deadline.value + (until - from);
            o.fx == [ScheduleStageTickAt(m.stage.gen + 1, at)] && o.m.stage.deadline == Some(at)
  {
    hide Sturdy, At, StaysStaged, ArmStageTick;
    hide StepActive, StepGrace, StepBlanking, StepBlanked, StepWaking, StepRenderPending;
    var p := Step(m, InhibitorChanged(true), from).m;
    SturdyKept(m, Feed(InhibitorChanged(true), from));
    FrozenThroughout(p, es, |es|);
    var n := At(p, es, |es|);
    var thawed := n.(overlays := n.overlays.(inhibited := false), stage := n.stage.(frozen := None));
    ArmedWait(thawed, Some(m.stage.deadline.value - from), until);
  }
}
