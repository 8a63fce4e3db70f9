/** Command generations over whole runs: commands are numbered 1, 2, 3, ... in the order they
    are issued, and only the newest one's result is ever listened to. */
module CommandGenerations {
  import opened DisplayTypes
  import opened DisplaySpec
  import opened DisplayRuns

  predicate IsCommand(e: Effect) { e.IssueBlank? || e.IssueWake? }

  /** Generations of the commands of a batch, in order. */
  function Issued(fx: seq<Effect>): seq<nat> {
    if fx == [] then []
    else (if IsCommand(fx[0]) then [fx[0].gen] else []) + Issued(fx[1..])
  }

  predicate Quiet(fx: seq<Effect>) { forall k :: 0 <= k < |fx| ==> !IsCommand(fx[k]) }

  lemma {:induction false} QuietIssuesNothing(fx: seq<Effect>)
    requires Quiet(fx)
    ensures Issued(fx) == []
  {
    if fx != [] {
      QuietIssuesNothing(fx[1..]);
    }
  }

  lemma {:induction false} IssuedConcat(a: seq<Effect>, b: seq<Effect>)
    ensures Issued(a + b) == Issued(a) + Issued(b)
  {
    if a == [] {
      assert a + b == b;
    } else {
      IssuedConcat(a[1..], b);
      assert (a + b)[1..] == a[1..] + b;
    }
  }

  lemma SoleCommand(prefix: seq<Effect>, c: Effect, tail: seq<Effect>)
    requires Quiet(prefix) && IsCommand(c) && Quiet(tail)
    ensures Issued(prefix + [c] + tail) == [c.gen]
  {
    QuietIssuesNothing(prefix);
    QuietIssuesNothing(tail);
    IssuedConcat(prefix, [c]);
    IssuedConcat(prefix + [c], tail);
    assert [c][1..] == [];
  }

  /** The batch issues nothing and the counter stands, or issues the next generation. */
  predicate Numbered(m: Machine, o: Out) {
    || (Issued(o.fx) == [] && o.m.cmds.gen == m.cmds.gen)
    || (Issued(o.fx) == [m.cmds.gen + 1] && o.m.cmds.gen == m.cmds.gen + 1)
  }

  lemma NumberedQuiet(m: Machine, o: Out)
    requires Quiet(o.fx) && o.m.cmds.gen == m.cmds.gen
    ensures Numbered(m, o)
  {
    QuietIssuesNothing(o.fx);
  }

  lemma QuietActive(m: Machine, now: Instant, cause: Cause)
    ensures var o := EnterActive(m, now, cause); Quiet(o.fx) && o.m.cmds == m.cmds
    ensures var t := TeardownToActive(m, now, cause); Quiet(t.fx) && t.m.cmds == m.cmds
  {
  }

  lemma NumberedWake(m: Machine, a: Machine, prefix: seq<Effect>, now: Instant)
    requires Quiet(prefix) && a.cmds.gen == m.cmds.gen
    ensures Numbered(m, StartWake(a, prefix, now))
  {
    var c := IssueWake(m.cmds.gen + 1);
    var tail := [ScheduleTickAt(now + a.cfg.timings.wakeRetryInterval)];
    SoleCommand(prefix, c, tail);
    assert StartWake(a, prefix, now).fx == prefix + [c] + tail;
  }

  lemma NumberedBlank(m: Machine, a: Machine, prefix: seq<Effect>, mode: BlankMode)
    requires Quiet(prefix) && a.cmds.gen == m.cmds.gen
    ensures Numbered(m, StartBlankMode(a, prefix, mode))
  {
    SoleCommand(prefix, IssueBlank(m.cmds.gen + 1, mode), []);
    assert StartBlankMode(a, prefix, mode).fx == prefix + [IssueBlank(m.cmds.gen + 1, mode)] + [];
  }

  /** Entering a rung, after any batch of non-commands. */
  lemma NumberedLadder(m: Machine, a: Machine, prefix: seq<Effect>, idx: nat, now: Instant, cause: Cause)
    requires Quiet(prefix) && a.cmds.gen == m.cmds.gen
    ensures var o := EnterLadder(a, idx, now, cause); Numbered(m, Out(o.m, prefix + o.fx)) && Numbered(m, o)
  {
    hide EnterActive, StartBlankMode, Numbered;
    QuietActive(a, now, cause);
    var o := EnterLadder(a, idx, now, cause);
    if idx < |a.cfg.ladder| && a.cfg.ladder[idx].kind.Controller? {
      var kind := a.cfg.ladder[idx].kind;
      var log := LogTransition(NameOf(a.phase), NBlanking, cause);
      var head := if OnRenderRung(a) then [TeardownRender(a.stage.gen), log] else [log];
      var s := a.(stage := a.stage.(gen := a.stage.gen + 1, current := Some(idx)));
      NumberedBlank(m, s, head, kind.mode);
      NumberedBlank(m, s, prefix + head, kind.mode);
      BlankPrefix(s, prefix, head, kind.mode);
    } else {
      NumberedQuiet(m, o);
      NumberedQuiet(m, Out(o.m, prefix + o.fx));
    }
  }

  lemma BlankPrefix(s: Machine, a: seq<Effect>, b: seq<Effect>, mode: BlankMode)
    ensures var o := StartBlankMode(s, b, mode);
            StartBlankMode(s, a + b, mode) == Out(o.m, a + o.fx)
  {
    assert a + b + [IssueBlank(s.cmds.gen + 1, mode)] == a + (b + [IssueBlank(s.cmds.gen + 1, mode)]);
  }

  lemma NumberedGain(m: Machine, now: Instant)
    ensures Numbered(m, GainOwnership(m, now))
  {
    hide StartWake, EnterActive, TeardownToActive, Numbered;
    var n := m.(owned := true);
    var log := LogTransition(NameOf(m.phase), NWaking, COwnershipAcquired);
    var o := GainOwnership(m, now);
    if m.phase.Active? || m.phase.Blanked? || InLadderRender(m.phase) {
      QuietActive(n, now, COwnershipAcquired);
      var t := TeardownToActive(n, now, COwnershipAcquired);
      NumberedWake(m, n, [log], now);
      NumberedWake(m, t.m, t.fx + [log], now);
      WakePrefix(t.m, t.fx, [log], now);
    }
    if Quiet(o.fx) && o.m.cmds.gen == m.cmds.gen {
      NumberedQuiet(m, o);
    }
  }

  lemma WakePrefix(s: Machine, a: seq<Effect>, b: seq<Effect>, now: Instant)
    ensures var o := StartWake(s, b, now); StartWake(s, a + b, now) == Out(o.m, a + o.fx)
  {
    var tail := [IssueWake(s.cmds.gen + 1), ScheduleTickAt(now + s.cfg.timings.wakeRetryInterval)];
    assert a + b + tail == a + (b + tail);
  }

  lemma QuietArm(m: Machine, limit: Option<Duration>, now: Instant)
    ensures var o := ArmStageTick(m, limit, now); Quiet(o.fx) && o.m.cmds == m.cmds
  {
  }

  lemma NumberedFromActive(m: Machine, input: Input, now: Instant)
    requires m.phase.Active?
    ensures Numbered(m, StepActive(m, input, now))
  {
    hide StartBlankMode, EnterLadder, GainOwnership, Numbered;
    match input
    case ForceBlank => NumberedBlank(m, m, [LogTo(m, NBlanking, CForceBlank)], m.cfg.blankMode);
    case SoftBlank => NumberedLadder(m, m, [], 0, now, CSoftBlank);
    case OwnershipChanged(owns) =>
      if owns { NumberedGain(m, now); } else { NumberedQuiet(m, Out(m.(owned := false), [])); }
    case _ => NumberedQuiet(m, StepActive(m, input, now));
  }

  lemma NumberedFromGrace(m: Machine, input: Input, now: Instant)
    requires m.phase.Grace?
    ensures Numbered(m, StepGrace(m, input, now))
  {
    hide StartBlankMode, EnterActive, EnterLadder, GainOwnership, Numbered;
    match input
    case ZonePresent(p) =>
      QuietActive(m.(zone := Some(p)), now, CPresenceDuringGrace);
      NumberedQuiet(m, StepGrace(m, input, now));
    case Tick =>
      var r := AutoResume(m, now);
      NumberedLadder(m, r.m, r.fx, 0, now, CGraceExpired);
      if Quiet(GraceTick(m, now).fx) && GraceTick(m, now).m.cmds.gen == m.cmds.gen {
        NumberedQuiet(m, GraceTick(m, now));
      }
    case ForceBlank => NumberedBlank(m, m.(graceFrozen := None), [LogTo(m, NBlanking, CForceBlank)], m.cfg.blankMode);
    case SoftBlank => NumberedLadder(m, m.(graceFrozen := None), [], 0, now, CSoftBlank);
    case ForceWake =>
      QuietActive(m, now, CForceWake);
      NumberedQuiet(m, StepGrace(m, input, now));
    case InputWake =>
      QuietActive(m, now, CInputWake);
      NumberedQuiet(m, StepGrace(m, input, now));
    case OwnershipChanged(owns) =>
      if owns { NumberedGain(m, now); } else { NumberedQuiet(m, Out(m.(owned := false), [])); }
    case _ => NumberedQuiet(m, StepGrace(m, input, now));
  }

  lemma NumberedFromBlank(m: Machine, input: Input, now: Instant)
    requires m.phase.Blanking? || m.phase.Blanked?
    ensures Numbered(m, Step(m, input, now))
  {
    hide StepActive, StepGrace, StepWaking, StepRenderPending, StepStaged;
    hide StartWake, EnterActive, EnterLadder, GainOwnership, ArmStageTick, Numbered;
    var o := Step(m, input, now);
    match input
    case ZonePresent(p) =>
      NumberedWake(m, m.(zone := Some(p)), [LogTo(m, NWaking, CPresenceDetected)], now);
      if Quiet(o.fx) && o.m.cmds.gen == m.cmds.gen { NumberedQuiet(m, o); }
    case BlankResult(_, ok) =>
      var b := m.(cmds := m.cmds.(lastBlank := Some(now)));
      NumberedWake(m, b.(pendingWake := false), [LogTo(m, NWaking, CPresenceDuringBlank)], now);
      QuietArm(b.(phase := Blanked), None, now);
      QuietActive(m.(pendingWake := false), now, CBlankFailed);
      if Quiet(o.fx) && o.m.cmds.gen == m.cmds.gen { NumberedQuiet(m, o); }
    case ForceWake =>
      NumberedWake(m, m, [LogTo(m, NWaking, CForceWake)], now);
      if Quiet(o.fx) && o.m.cmds.gen == m.cmds.gen { NumberedQuiet(m, o); }
    case InputWake =>
      NumberedWake(m, m, [LogTo(m, NWaking, CInputWake)], now);
      if Quiet(o.fx) && o.m.cmds.gen == m.cmds.gen { NumberedQuiet(m, o); }
    case StageTick(_) =>
      NumberedLadder(m, m, [], NextRung(m), now, CStageTick);
      if Quiet(o.fx) && o.m.cmds.gen == m.cmds.gen { NumberedQuiet(m, o); }
    case OwnershipChanged(owns) =>
      NumberedGain(m, now);
      QuietActive(m.(owned := false), now, COwnershipYielded);
      if Quiet(o.fx) && o.m.cmds.gen == m.cmds.gen { NumberedQuiet(m, o); }
    case _ => NumberedQuiet(m, o);
  }

  lemma NumberedFromWaking(m: Machine, input: Input, now: Instant)
    requires m.phase.Waking?
    ensures Numbered(m, StepWaking(m, input, now))
  {
    hide StartWake, StartBlankMode, EnterActive, GainOwnership, Numbered;
    match input
    case Tick =>
      var r := AutoResume(m, now);
      NumberedWake(m, r.m, r.fx + [LogTo(m, NWaking, CWakeRetryScheduled)], now);
    case WakeResult(gen, ok) =>
      NumberedWake(m, m, [LogTo(m, NWaking, CWakeRetry)], now);
      QuietActive(m.(cmds := m.cmds.(lastWake := Some(now))), now, CWakeCompleted);
      NumberedQuiet(m, Out(m, []));
      NumberedQuiet(m, EnterActive(m.(cmds := m.cmds.(lastWake := Some(now))), now, CWakeCompleted));
    case ForceBlank => NumberedBlank(m, m, [LogTo(m, NBlanking, CForceBlank)], m.cfg.blankMode);
    case ForceWake | InputWake => NumberedWake(m, m, [], now);
    case OwnershipChanged(owns) =>
      if owns { NumberedGain(m, now); } else { NumberedQuiet(m, Out(m.(owned := false), [])); }
    case _ => NumberedQuiet(m, StepWaking(m, input, now));
  }

  lemma NumberedFromRender(m: Machine, input: Input, now: Instant)
    requires InLadderRender(m.phase)
    ensures Numbered(m, Step(m, input, now))
  {
    hide StepActive, StepGrace, StepBlanking, StepBlanked, StepWaking;
    hide StartWake, StartBlankMode, EnterActive, TeardownToActive, EnterLadder, GainOwnership, ArmStageTick, Numbered;
    var o := Step(m, input, now);
    match input
    case ZonePresent(p) =>
      QuietActive(m.(zone := Some(p)), now, CPresenceDetected);
      NumberedQuiet(m, o);
    case InhibitorChanged(on) =>
      var i := m.(overlays := m.overlays.(inhibited := on));
      var left := if i.stage.frozen.Some? then i.stage.frozen.value else 0;
      QuietArm(i.(stage := i.stage.(frozen := None)), Some(left), now);
      NumberedQuiet(m, o);
    case Resume =>
      var i := m.(overlays := m.overlays.(paused := None));
      var left := if i.stage.frozen.Some? then i.stage.frozen.value else 0;
      QuietArm(i.(stage := i.stage.(frozen := None)), Some(left), now);
      NumberedQuiet(m, o);
    case InputWake =>
      QuietActive(m, now, CInputWake);
      NumberedQuiet(m, o);
    case ForceWake =>
      QuietActive(m, now, CForceWake);
      NumberedQuiet(m, o);
    case OwnershipChanged(owns) =>
      NumberedGain(m, now);
      QuietActive(m.(owned := false), now, COwnershipYielded);
      if !owns { NumberedQuiet(m, o); }
    case ForceBlank =>
      NumberedBlank(m, m.(stage := m.stage.(current := None)),
                    [TeardownRender(m.stage.gen), LogTo(m, NBlanking, CForceBlank)], m.cfg.blankMode);
    case SoftBlank =>
      NumberedLadder(m, m.(stage := m.stage.(current := None)),
                     [TeardownRender(m.stage.gen), LogTo(m, NEnteringLadder, CSoftBlank)], 0, now, CSoftBlank);
    case RenderResult(gen, ok) =>
      NumberedLadder(m, m, [], NextController(m.cfg.ladder, NextRung(m)), now, CRenderFailed);
      QuietActive(m, now, CRenderFailed);
      if m.phase.RenderPending? {
        QuietArm(m.(phase := Staged(m.phase.idx, m.phase.pendingGen)), None, now);
      }
      if Quiet(o.fx) && o.m.cmds.gen == m.cmds.gen { NumberedQuiet(m, o); }
    case StageTick(_) =>
      NumberedLadder(m, m, [], NextRung(m), now, CStageTick);
      if Quiet(o.fx) && o.m.cmds.gen == m.cmds.gen { NumberedQuiet(m, o); }
    case _ => NumberedQuiet(m, o);
  }

  lemma EveryStepNumbers(m: Machine, e: Event)
    ensures Numbered(m, Apply(m, e))
  {
    hide Numbered, StepActive, StepGrace, StepBlanking, StepBlanked, StepWaking, StepRenderPending, StepStaged;
    if e.SetHold? {
      NumberedQuiet(m, Apply(m, e));
    } else {
      match m.phase
      case Active => NumberedFromActive(m, e.input, e.now);
      case Grace(_) => NumberedFromGrace(m, e.input, e.now);
      case Blanking | Blanked => NumberedFromBlank(m, e.input, e.now);
      case Waking => NumberedFromWaking(m, e.input, e.now);
      case RenderPending(_, _) | Staged(_, _) => NumberedFromRender(m, e.input, e.now);
    }
  }

  // ── Whole runs ──────────────────────────────────────────────────────────

  /** Generations of all commands issued before event `i`, in order. */
  function Log(m0: Machine, es: seq<Event>, i: nat): seq<nat>
    requires i <= |es|
  {
    if i == 0 then [] else Log(m0, es, i - 1) + Issued(Apply(At(m0, es, i - 1), es[i - 1]).fx)
  }

  /** In every run from `new`, the k-th command issued carries generation k. */
  lemma {:induction false} CommandsCountUp(timings: Timings, ladder: seq<LadderStage>, t0: Instant, es: seq<Event>,
                                           i: nat)
    requires i <= |es|
    ensures var log := Log(New(timings, ladder, t0), es, i);
            && |log| == At(New(timings, ladder, t0), es, i).cmds.gen
            && forall k :: 0 <= k < |log| ==> log[k] == k + 1
  {
    hide Apply, Issued;
    if i > 0 {
      CommandsCountUp(timings, ladder, t0, es, i - 1);
      EveryStepNumbers(At(New(timings, ladder, t0), es, i - 1), es[i - 1]);
    }
  }

  predicate CommandResult(input: Input) { input.BlankResult? || input.WakeResult? }

  /** A command result moves the machine at all only if it answers the newest command and
      that command is the one the phase awaits. */
  lemma OnlyTheNewestAnswerCounts(m: Machine, input: Input, now: Instant)
    requires Sturdy(m) && CommandResult(input)
    requires input.gen != m.cmds.gen || (if input.BlankResult? then !m.phase.Blanking? else !m.phase.Waking?)
    ensures Step(m, input, now) == Out(m, [])
  {
  }

  lemma TheNewestAnswerMoves(m: Machine, ok: bool, now: Instant)
    requires Sturdy(m) && (m.phase.Blanking? || m.phase.Waking?)
    ensures var input := if m.phase.Blanking? then BlankResult(m.cmds.gen, ok) else WakeResult(m.cmds.gen, ok);
            var o := Step(m, input, now);
            o.fx != [] && (o.m.phase != m.phase || o.m.cmds.gen == m.cmds.gen + 1)
  {
    hide StepActive, StepGrace, StepBlanked, StepRenderPending, StepStaged;
  }

  /** Over every run: after any prefix, a result for any but the newest command issued so far
      (whose generation is the number of commands issued) leaves the machine as it is. */
  lemma OldResultsNeverCount(timings: Timings, ladder: seq<LadderStage>, t0: Instant, es: seq<Event>, i: nat)
    requires i < |es|
    requires es[i].Feed? && CommandResult(es[i].input)
    requires es[i].input.gen != |Log(New(timings, ladder, t0), es, i)|
    ensures At(New(timings, ladder, t0), es, i + 1) == At(New(timings, ladder, t0), es, i)
  {
    hide Step, Sturdy;
    var m := At(New(timings, ladder, t0), es, i);
    CommandsCountUp(timings, ladder, t0, es, i);
    SturdyThroughout(timings, ladder, t0, es, i);
    OnlyTheNewestAnswerCounts(m, es[i].input, es[i].now);
  }
}
