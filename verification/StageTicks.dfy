/** Stage ticks over whole runs: their generations only grow, each arming advances the ladder
    at most once, and it advances only the rung visit that armed it. */
module StageTicks {
  import opened DisplayTypes
  import opened DisplaySpec
  import opened DisplayRuns

  /** Generations of the stage ticks a batch schedules. */
  function Armed(fx: seq<Effect>): set<nat> {
    set k | 0 <= k < |fx| && fx[k].ScheduleStageTickAt? :: fx[k].gen
  }

  predicate NoArm(fx: seq<Effect>) { forall k :: 0 <= k < |fx| ==> !fx[k].ScheduleStageTickAt? }

  // ── The three ways a step touches the stage ─────────────────────────────

  predicate DarkUnstaged(m: Machine) { (m.phase.Blanking? || m.phase.Blanked?) && m.stage.current.None? }

  predicate LeavesStage(m: Machine, input: Input, o: Out) {
    && NoArm(o.fx) && o.m.stage.gen == m.stage.gen
    && (o.m.stage.current == m.stage.current || o.m.stage.current.None?)
    && (DarkUnstaged(o.m) ==> DarkUnstaged(m) || input.ForceBlank?)
  }

  predicate EntersRung(m: Machine, o: Out) {
    && NoArm(o.fx) && o.m.stage.gen == m.stage.gen + 1 && o.m.stage.current.Some?
    && (o.m.phase.RenderPending? || o.m.phase.Blanking?)
  }

  predicate ArmsTick(m: Machine, o: Out) {
    && Armed(o.fx) == {m.stage.gen + 1} && o.m.stage.gen == m.stage.gen + 1
    && o.m.stage.current == m.stage.current && DwellOf(m).Some?
    && (o.m.phase.Staged? || o.m.phase.Blanked?)
  }

  predicate StageMove(m: Machine, input: Input, o: Out) {
    LeavesStage(m, input, o) || EntersRung(m, o) || ArmsTick(m, o)
  }

  lemma ArmsIfAny(m: Machine, limit: Option<Duration>, now: Instant, prefix: seq<Effect>)
    requires NoArm(prefix) && |prefix| <= 1
    ensures var o := ArmStageTick(m, limit, now);
            var fx := prefix + o.fx;
            if m.stage.current.Some? && DwellOf(m).Some?
            then Armed(fx) == {m.stage.gen + 1} && o.m.stage.gen == m.stage.gen + 1
            else NoArm(fx) && o.m.stage.gen == m.stage.gen
  {
    var o := ArmStageTick(m, limit, now);
    var fx := prefix + o.fx;
    if m.stage.current.Some? && DwellOf(m).Some? {
      assert fx[|prefix|].gen == m.stage.gen + 1;
    }
  }

  lemma ActiveMove(m: Machine, now: Instant, cause: Cause)
    ensures var o := EnterActive(m, now, cause);
            NoArm(o.fx) && o.m.stage.gen == m.stage.gen && o.m.stage.current.None?
    ensures var t := TeardownToActive(m, now, cause);
            NoArm(t.fx) && t.m.stage.gen == m.stage.gen && t.m.stage.current.None?
  {
  }

  lemma LadderMove(m: Machine, idx: nat, now: Instant, cause: Cause)
    ensures var o := EnterLadder(m, idx, now, cause);
            if idx < |m.cfg.ladder| then EntersRung(m, o) && o.m.stage.current == Some(idx)
            else NoArm(o.fx) && o.m.stage.gen == m.stage.gen && o.m.stage.current.None? && !o.m.phase.Blanking?
  {
    hide EnterActive;
    ActiveMove(m, now, cause);
  }

  lemma MoveFromActive(m: Machine, input: Input, now: Instant)
    requires Sturdy(m) && m.phase.Active?
    ensures StageMove(m, input, StepActive(m, input, now))
  {
    hide EnterActive, EnterLadder;
    LadderMove(m, 0, now, CSoftBlank);
  }

  lemma MoveFromWaking(m: Machine, input: Input, now: Instant)
    requires m.phase.Waking?
    ensures StageMove(m, input, StepWaking(m, input, now))
  {
    hide EnterActive;
    ActiveMove(m.(cmds := m.cmds.(lastWake := Some(now))), now, CWakeCompleted);
  }

  lemma MoveOnGraceTick(m: Machine, now: Instant)
    requires m.phase.Grace?
    ensures StageMove(m, Tick, GraceTick(m, now))
  {
    hide EnterLadder, GateOpensAt;
    LadderMove(AutoResume(m, now).m, 0, now, CGraceExpired);
  }

  lemma MoveInGrace(m: Machine, input: Input, now: Instant)
    requires Sturdy(m) && m.phase.Grace?
    ensures StageMove(m, input, StepGrace(m, input, now))
  {
    hide EnterActive, EnterLadder, GraceTick;
    match input
    case ZonePresent(_) => ActiveMove(m.(zone := Some(true)), now, CPresenceDuringGrace);
    case ForceWake => ActiveMove(m, now, CForceWake);
    case InputWake => ActiveMove(m, now, CInputWake);
    case SoftBlank => LadderMove(m.(graceFrozen := None), 0, now, CSoftBlank);
    case Tick => MoveOnGraceTick(m, now);
    case _ =>
  }

  lemma MoveBlankDone(m: Machine, gen: nat, ok: bool, now: Instant)
    requires Sturdy(m) && m.phase.Blanking?
    ensures StageMove(m, BlankResult(gen, ok), BlankDone(m, ok, now))
  {
    hide EnterActive, ArmStageTick;
    ActiveMove(m.(pendingWake := false), now, CBlankFailed);
    var b := m.(cmds := m.cmds.(lastBlank := Some(now)), phase := Blanked);
    ArmsIfAny(b, None, now, [LogTo(m, NBlanked, CBlankSucceeded)]);
    ArmKeepsRung(b, None, now);
  }

  lemma MoveBlanking(m: Machine, input: Input, now: Instant)
    requires Sturdy(m) && m.phase.Blanking?
    ensures StageMove(m, input, StepBlanking(m, input, now))
  {
    hide EnterActive, BlankDone;
    if input.BlankResult? {
      MoveBlankDone(m, input.gen, input.ok, now);
    }
  }

  lemma MoveBlanked(m: Machine, input: Input, now: Instant)
    requires Sturdy(m) && m.phase.Blanked?
    ensures StageMove(m, input, StepBlanked(m, input, now))
  {
    hide EnterActive, EnterLadder;
    ActiveMove(m.(owned := false), now, COwnershipYielded);
    LadderMove(m, NextRung(m), now, CStageTick);
  }

  lemma ArmKeepsRung(m: Machine, limit: Option<Duration>, now: Instant)
    ensures var n := ArmStageTick(m, limit, now).m; n.stage.current == m.stage.current && n.phase == m.phase
  {
  }

  lemma RearmMove(m: Machine, input: Input, now: Instant)
    requires Sturdy(m) && m.phase.Staged?
    ensures StageMove(m, input, RearmStageTick(m, now))
  {
    hide ArmStageTick;
    var thawed := m.(stage := m.stage.(frozen := None));
    var left := Some(if m.stage.frozen.Some? then m.stage.frozen.value else 0);
    ArmsIfAny(thawed, left, now, []);
    ArmKeepsRung(thawed, left, now);
    assert [] + ArmStageTick(thawed, left, now).fx == ArmStageTick(thawed, left, now).fx;
  }

  lemma GainMoveOnRender(m: Machine, now: Instant)
    requires InLadderRender(m.phase)
    ensures LeavesStage(m, OwnershipChanged(true), GainOwnership(m, now))
  {
    hide EnterActive, TeardownToActive;
    ActiveMove(m.(owned := true), now, COwnershipAcquired);
  }

  lemma SoftMoveOnRender(m: Machine, now: Instant)
    ensures StageMove(m, SoftBlank, SoftBlankOverRender(m, now))
  {
    hide EnterActive, EnterLadder;
    LadderMove(m.(stage := m.stage.(current := None)), 0, now, CSoftBlank);
  }

  lemma MoveOnRenderDone(m: Machine, gen: nat, ok: bool, now: Instant)
    requires Sturdy(m) && m.phase.RenderPending?
    ensures StageMove(m, RenderResult(gen, ok), StepRenderPending(m, RenderResult(gen, ok), now))
  {
    hide EnterActive, EnterLadder, TeardownToActive, ArmStageTick;
    ActiveMove(m, now, CRenderFailed);
    LadderMove(m, NextController(m.cfg.ladder, NextRung(m)), now, CRenderFailed);
    var s := m.(phase := Staged(m.phase.idx, m.phase.pendingGen));
    ArmsIfAny(s, None, now, [LogTo(m, NStaged, CRenderSucceeded)]);
    ArmKeepsRung(s, None, now);
  }

  lemma MovePending(m: Machine, input: Input, now: Instant)
    requires Sturdy(m) && m.phase.RenderPending?
    ensures StageMove(m, input, StepRenderPending(m, input, now))
  {
    hide EnterActive, EnterLadder, TeardownToActive, AdvanceToController, ScheduleStageTick, GainOwnership,
         SoftBlankOverRender;
    match input
    case ZonePresent(p) => ActiveMove(m.(zone := Some(p)), now, CPresenceDetected);
    case InputWake => ActiveMove(m, now, CInputWake);
    case ForceWake => ActiveMove(m, now, CForceWake);
    case OwnershipChanged(owns) =>
      GainMoveOnRender(m, now);
      ActiveMove(m.(owned := false), now, COwnershipYielded);
    case SoftBlank => SoftMoveOnRender(m, now);
    case RenderResult(gen, ok) => MoveOnRenderDone(m, gen, ok, now);
    case _ =>
  }

  lemma MoveStaged(m: Machine, input: Input, now: Instant)
    requires Sturdy(m) && m.phase.Staged?
    ensures StageMove(m, input, Step(m, input, now))
  {
    hide StepActive, StepGrace, StepBlanking, StepBlanked, StepWaking, StepRenderPending;
    hide EnterActive, EnterLadder, TeardownToActive, RearmStageTick, GainOwnership, SoftBlankOverRender;
    match input
    case ZonePresent(p) => ActiveMove(m.(zone := Some(p)), now, CPresenceDetected);
    case InputWake => ActiveMove(m, now, CInputWake);
    case ForceWake => ActiveMove(m, now, CForceWake);
    case OwnershipChanged(owns) =>
      GainMoveOnRender(m, now);
      ActiveMove(m.(owned := false), now, COwnershipYielded);
    case SoftBlank => SoftMoveOnRender(m, now);
    case StageTick(_) => LadderMove(m, NextRung(m), now, CStageTick);
    case Resume => RearmMove(m.(overlays := m.overlays.(paused := None)), input, now);
    case InhibitorChanged(on) => RearmMove(m.(overlays := m.overlays.(inhibited := on)), input, now);
    case _ =>
  }

  /** Every input leaves the stage alone, enters one rung, or arms one fresh tick. */
  lemma EveryStepMoves(m: Machine, input: Input, now: Instant)
    requires Sturdy(m)
    ensures StageMove(m, input, Step(m, input, now))
  {
    hide StepActive, StepGrace, StepBlanking, StepBlanked, StepWaking, StepRenderPending, StepStaged, Sturdy, StageMove;
    match m.phase
    case Active => MoveFromActive(m, input, now);
    case Waking => MoveFromWaking(m, input, now);
    case Grace(_) => MoveInGrace(m, input, now);
    case Blanking => MoveBlanking(m, input, now);
    case Blanked => MoveBlanked(m, input, now);
    case RenderPending(_, _) => MovePending(m, input, now);
    case Staged(_, _) => MoveStaged(m, input, now);
  }

  // ── Scheduled ticks ─────────────────────────────────────────────────────

  /** The rung entry that armed each stage tick ever scheduled, the number of rung entries,
      and whether the last way into the dark was an operator's ForceBlank. */
  datatype Wheel = Wheel(m: Machine, armedIn: map<nat, nat>, entries: nat, forced: bool)

  /** Only a stage tick that was scheduled arrives, at any later time and any number of times. */
  predicate Admissible(w: Wheel, e: Event) {
    e.Feed? && e.input.StageTick? ==> e.input.gen in w.armedIn
  }

  predicate Arrives(m: Machine, o: Out) {
    o.m.stage.gen > m.stage.gen && o.m.stage.current.Some? && (o.m.phase.RenderPending? || o.m.phase.Blanking?)
  }

  function Turn(w: Wheel, e: Event): Wheel {
    var o := Apply(w.m, e);
    var armed := Armed(o.fx);
    Wheel(o.m,
          w.armedIn + (map g | g in armed :: w.entries),
          if Arrives(w.m, o) then w.entries + 1 else w.entries,
          if Arrives(w.m, o) then false else w.forced || (e.Feed? && e.input.ForceBlank?))
  }

  predicate WheelTrue(w: Wheel) {
    && (forall g :: g in w.armedIn ==> g <= w.m.stage.gen && w.armedIn[g] <= w.entries)
    && (w.m.stage.gen in w.armedIn && w.m.stage.current.Some? ==>
          w.armedIn[w.m.stage.gen] == w.entries && DwellOf(w.m).Some?)
    && (DarkUnstaged(w.m) ==> w.forced)
  }

  lemma WheelTurns(w: Wheel, e: Event)
    requires Sturdy(w.m) && WheelTrue(w)
    ensures WheelTrue(Turn(w, e))
    ensures Armed(Apply(w.m, e).fx) !! w.armedIn.Keys
  {
    hide Step, Sturdy;
    SturdyKept(w.m, e);
    var o := Apply(w.m, e);
    if e.Feed? {
      EveryStepMoves(w.m, e.input, e.now);
    }
    if !ArmsTick(w.m, o) {
      assert Armed(o.fx) == {};
    }
  }

  /** The newest tick armed, its dwell running, nothing inhibiting, the panel owned. */
  predicate Accepts(m: Machine, gen: nat) {
    && (m.phase.Staged? || m.phase.Blanked?)
    && gen == m.stage.gen && m.stage.frozen.None? && !m.overlays.inhibited && m.owned
  }

  /** A scheduled stage tick does something exactly when it is the newest armed, its dwell is not
      frozen, nothing inhibits and the panel is owned: it then enters the next rung, or leaves the
      ladder past its end - and it was armed in the very rung visit it ends, or, with no rung set,
      the panel was blanked by force and the ladder restarts at rung 0. */
  lemma TickAdvancesItsOwnVisit(w: Wheel, gen: nat, now: Instant)
    requires Sturdy(w.m) && WheelTrue(w) && gen in w.armedIn
    ensures var o := Step(w.m, StageTick(gen), now);
            && (!Accepts(w.m, gen) ==> o == Out(w.m, []))
            && (Arrives(w.m, o) <==> Accepts(w.m, gen) && NextRung(w.m) < |w.m.cfg.ladder|)
            && (Arrives(w.m, o) ==> o.m.stage.current == Some(NextRung(w.m)))
            && (Accepts(w.m, gen) && !Arrives(w.m, o) ==>
                 (o.m.phase.Active? || o.m.phase.Grace?) && o.m.stage.current.None?)
            && (Accepts(w.m, gen) && w.m.stage.current.Some? ==> w.armedIn[gen] == w.entries)
            && (Accepts(w.m, gen) && w.m.stage.current.None? ==> w.m.phase.Blanked? && w.forced)
  {
    hide EnterLadder, Countdown;
    if Accepts(w.m, gen) {
      hide StepActive, StepGrace, StepBlanking, StepWaking, StepRenderPending;
      LadderMove(w.m, NextRung(w.m), now, CStageTick);
      PastTheEnd(w.m, now);
    } else {
      IgnoredElsewhere(w.m, gen, now);
    }
  }

  lemma PastTheEnd(m: Machine, now: Instant)
    ensures NextRung(m) >= |m.cfg.ladder| ==>
              var n := EnterLadder(m, NextRung(m), now, CStageTick).m;
              (n.phase.Active? || n.phase.Grace?) && n.stage.current.None?
  {
    hide EnterActive;
    LeadsAwake();
  }

  lemma IgnoredElsewhere(m: Machine, gen: nat, now: Instant)
    requires !Accepts(m, gen)
    ensures Step(m, StageTick(gen), now) == Out(m, [])
  {
  }

  function WheelAt(w: Wheel, es: seq<Event>, i: nat): Wheel
    requires i <= |es|
  {
    if i == 0 then w else Turn(WheelAt(w, es, i - 1), es[i - 1])
  }

  predicate OnlyScheduled(w: Wheel, es: seq<Event>) {
    forall i :: 0 <= i < |es| ==> Admissible(WheelAt(w, es, i), es[i])
  }

  function NewWheel(timings: Timings, ladder: seq<LadderStage>, t0: Instant): Wheel {
    Wheel(New(timings, ladder, t0), map[], 0, false)
  }

  lemma {:induction false} WheelThroughout(timings: Timings, ladder: seq<LadderStage>, t0: Instant, es: seq<Event>,
                                           i: nat)
    requires i <= |es|
    ensures var w := WheelAt(NewWheel(timings, ladder, t0), es, i);
            WheelTrue(w) && Sturdy(w.m) && w.m == At(New(timings, ladder, t0), es, i) && w.m.cfg.ladder == ladder
  {
    hide Apply, Sturdy;
    SturdyThroughout(timings, ladder, t0, es, i);
    if i > 0 {
      WheelThroughout(timings, ladder, t0, es, i - 1);
      WheelTurns(WheelAt(NewWheel(timings, ladder, t0), es, i - 1), es[i - 1]);
    }
  }

  /** In every run from `new` stage generations never decrease, and a tick armed later carries a
      greater one than every tick armed before. */
  lemma {:induction false} GenerationsGrow(timings: Timings, ladder: seq<LadderStage>, t0: Instant, es: seq<Event>,
                                           i: nat, j: nat)
    requires i <= j <= |es|
    ensures var w := NewWheel(timings, ladder, t0);
            && WheelAt(w, es, i).m.stage.gen <= WheelAt(w, es, j).m.stage.gen
            && WheelAt(w, es, i).armedIn.Keys <= WheelAt(w, es, j).armedIn.Keys
            && (j < |es| ==>
                  forall g, h ::
                    g in WheelAt(w, es, i).armedIn && h in Armed(Apply(WheelAt(w, es, j).m, es[j]).fx) ==> g < h)
  {
    hide Step, Sturdy;
    if i < j {
      GenerationsGrow(timings, ladder, t0, es, i, j - 1);
      WheelThroughout(timings, ladder, t0, es, j - 1);
      var w := WheelAt(NewWheel(timings, ladder, t0), es, j - 1);
      if es[j - 1].Feed? {
        EveryStepMoves(w.m, es[j - 1].input, es[j - 1].now);
      }
    }
    if j < |es| {
      WheelThroughout(timings, ladder, t0, es, j);
      ArmsAbove(WheelAt(NewWheel(timings, ladder, t0), es, j), es[j]);
    }
  }

  lemma ArmsAbove(w: Wheel, e: Event)
    requires Sturdy(w.m) && WheelTrue(w)
    ensures forall g, h :: g in w.armedIn && h in Armed(Apply(w.m, e).fx) ==> g <= w.m.stage.gen < h
  {
    hide Step, Sturdy;
    if e.Feed? {
      EveryStepMoves(w.m, e.input, e.now);
    }
  }

  /** In every run from `new`, on any ladder and whatever stage ticks arrive: a tick that advanced
      the ladder never advances it again, however often it is delivered. */
  lemma EachTickAdvancesOnce(timings: Timings, ladder: seq<LadderStage>, t0: Instant, es: seq<Event>, i: nat, j: nat)
    requires i < j < |es|
    requires es[i].Feed? && es[i].input.StageTick? && es[j].Feed? && es[j].input == es[i].input
    requires var m := At(New(timings, ladder, t0), es, i); Arrives(m, Apply(m, es[i]))
    ensures var m := At(New(timings, ladder, t0), es, j); !Arrives(m, Apply(m, es[j]))
  {
    hide Apply, Sturdy, Arrives, WheelTrue, New, Turn;
    var w0 := NewWheel(timings, ladder, t0);
    WheelThroughout(timings, ladder, t0, es, i);
    WheelThroughout(timings, ladder, t0, es, i + 1);
    WheelThroughout(timings, ladder, t0, es, j);
    GenerationsGrow(timings, ladder, t0, es, i + 1, j);
    AdvancePassesGen(At(w0.m, es, i), es[i]);
    AdvancePassesGen(At(w0.m, es, j), es[j]);
  }

  lemma ScheduledAt(w: Wheel, es: seq<Event>, i: nat)
    requires i < |es| && OnlyScheduled(w, es)
    ensures Admissible(WheelAt(w, es, i), es[i])
  {
    hide WheelAt;
  }

  /** An advance takes the current generation and leaves it behind. */
  lemma AdvancePassesGen(m: Machine, e: Event)
    requires e.Feed? && e.input.StageTick?
    ensures Arrives(m, Apply(m, e)) ==> e.input.gen == m.stage.gen < Apply(m, e).m.stage.gen
  {
    hide EnterLadder;
    if !Accepts(m, e.input.gen) {
      IgnoredElsewhere(m, e.input.gen, e.now);
    }
  }
}
