/** Every rung of a validated ladder can be reached, even under a countdown the leak left behind,
    so the ladder condition of the overlay theorem is exact: a validated ladder orphans an overlay
    in some run if and only if one of its render rungs has a dwell. */
module LadderReach {
  import opened DisplayTypes
  import opened DisplaySpec
  import opened DisplayRuns
  import opened StageTicks
  import opened Surfaces

  /** What configuration validation demands: non-empty, a dwell on every rung but the last. */
  predicate Validated(ladder: seq<LadderStage>) {
    ladder != [] && forall i :: 0 <= i < |ladder| - 1 ==> ladder[i].dwell.Some?
  }

  /** A run in which only scheduled stage ticks arrive and no step so far orphans a surface. */
  predicate Clean(timings: Timings, ladder: seq<LadderStage>, t0: Instant, es: seq<Event>) {
    && OnlyScheduled(NewWheel(timings, ladder, t0), es)
    && NeverOrphans(New(timings, ladder, t0), es, |es|)
  }

  // ── Extending a run ─────────────────────────────────────────────────────

  lemma {:induction false} SamePast(w: Wheel, es: seq<Event>, e: Event, i: nat)
    requires i <= |es|
    ensures WheelAt(w, es + [e], i) == WheelAt(w, es, i)
  {
    hide Turn;
    if i > 0 {
      SamePast(w, es, e, i - 1);
      assert (es + [e])[i - 1] == es[i - 1];
    }
  }

  lemma LastTurn(w: Wheel, es: seq<Event>, e: Event)
    ensures WheelAt(w, es + [e], |es| + 1) == Turn(WheelAt(w, es, |es|), e)
    ensures At(w.m, es + [e], |es| + 1) == Apply(At(w.m, es, |es|), e).m
  {
    hide Turn, Apply;
    SamePast(w, es, e, |es|);
    SamePrefix(w.m, es, e, |es|);
  }

  lemma ExtendScheduled(w: Wheel, es: seq<Event>, e: Event)
    requires OnlyScheduled(w, es) && Admissible(WheelAt(w, es, |es|), e)
    ensures OnlyScheduled(w, es + [e])
  {
    hide Admissible, WheelAt;
    forall i | 0 <= i < |es| + 1 ensures Admissible(WheelAt(w, es + [e], i), (es + [e])[i]) {
      SamePast(w, es, e, i);
    }
  }

  lemma ExtendUnorphaned(m0: Machine, es: seq<Event>, e: Event)
    requires NeverOrphans(m0, es, |es|) && !Orphans(At(m0, es, |es|), e)
    ensures NeverOrphans(m0, es + [e], |es| + 1)
  {
    hide Orphans, At;
    forall i | 0 <= i < |es| + 1 ensures !Orphans(At(m0, es + [e], i), (es + [e])[i]) {
      SamePrefix(m0, es, e, i);
    }
  }

  lemma Extend(timings: Timings, ladder: seq<LadderStage>, t0: Instant, es: seq<Event>, e: Event)
    requires Clean(timings, ladder, t0, es)
    requires var w := WheelAt(NewWheel(timings, ladder, t0), es, |es|); Admissible(w, e) && !Orphans(w.m, e)
    ensures Clean(timings, ladder, t0, es + [e])
    ensures WheelAt(NewWheel(timings, ladder, t0), es + [e], |es| + 1)
            == Turn(WheelAt(NewWheel(timings, ladder, t0), es, |es|), e)
  {
    hide Turn, Apply, Admissible, Orphans, New, At, WheelAt, OnlyScheduled, NeverOrphans, WheelTrue, Sturdy;
    var w0 := NewWheel(timings, ladder, t0);
    WheelThroughout(timings, ladder, t0, es, |es|);
    LastTurn(w0, es, e);
    ExtendScheduled(w0, es, e);
    ExtendUnorphaned(w0.m, es, e);
  }

  /** Inputs that neither arrive unscheduled nor orphan anything. */
  predicate Plain(w: Wheel, input: Input) {
    !input.Tick? && (input.StageTick? ==> input.gen in w.armedIn && NextRung(w.m) < |w.m.cfg.ladder|)
  }

  lemma PlainInputs(w: Wheel, input: Input, now: Instant)
    requires Plain(w, input)
    ensures Admissible(w, Feed(input, now)) && !Orphans(w.m, Feed(input, now))
  {
  }

  /** The wheel after a clean run. */
  ghost predicate Leads(timings: Timings, ladder: seq<LadderStage>, t0: Instant, es: seq<Event>, w: Wheel) {
    && Clean(timings, ladder, t0, es)
    && WheelAt(NewWheel(timings, ladder, t0), es, |es|) == w
  }

  lemma Goes(timings: Timings, ladder: seq<LadderStage>, t0: Instant, es: seq<Event>, w: Wheel, input: Input)
    requires Leads(timings, ladder, t0, es, w) && Plain(w, input)
    ensures Leads(timings, ladder, t0, es + [Feed(input, t0)], Turn(w, Feed(input, t0)))
  {
    hide Clean, Turn, Plain, Admissible, Orphans, WheelAt, New;
    PlainInputs(w, input, t0);
    Extend(timings, ladder, t0, es, Feed(input, t0));
  }

  // ── Climbing ────────────────────────────────────────────────────────────

  predicate Ready(m: Machine, k: nat) {
    && m.stage.current == Some(k) && k < |m.cfg.ladder| && m.stage.frozen.None?
    && !m.overlays.inhibited && m.owned && !m.pendingWake && !m.inputWakeHold
  }

  /** On rung `k`, its result outstanding. */
  predicate Mounting(w: Wheel, k: nat) {
    && Ready(w.m, k)
    && (w.m.phase == RenderPending(k, w.m.stage.gen) ||
         (w.m.phase.Blanking? && w.m.cmds.lastBlankGen == Some(w.m.cmds.gen)))
    && (w.m.phase.RenderPending? <==> w.m.cfg.ladder[k].kind.IsRender())
  }

  /** On rung `k`, its stage tick armed. */
  predicate Perched(w: Wheel, k: nat) {
    && Ready(w.m, k)
    && (w.m.phase.Staged? || w.m.phase.Blanked?)
    && (w.m.phase.Staged? <==> w.m.cfg.ladder[k].kind.IsRender())
    && w.m.stage.gen in w.armedIn
  }

  /** Climbing leaves configuration, overlays and the frozen countdown alone. */
  predicate SameBut(m: Machine, n: Machine) {
    n.cfg == m.cfg && n.overlays == m.overlays && n.graceFrozen == m.graceFrozen
  }

  function Success(m: Machine): Input {
    if m.phase.RenderPending? then RenderResult(m.stage.gen, true) else BlankResult(m.cmds.gen, true)
  }

  lemma MountThenPerch(w: Wheel, k: nat, now: Instant)
    requires Mounting(w, k) && w.m.cfg.ladder[k].dwell.Some?
    ensures Plain(w, Success(w.m))
    ensures var v := Turn(w, Feed(Success(w.m), now)); Perched(v, k) && SameBut(w.m, v.m)
  {
    hide StepActive, StepGrace, StepBlanked, StepWaking, StepStaged, StartWake, EnterActive, EnterLadder;
    var o := Step(w.m, Success(w.m), now);
    assert o.fx[1].ScheduleStageTickAt? && o.fx[1].gen == o.m.stage.gen;
    assert o.m.stage.gen in Armed(o.fx);
  }

  lemma PerchThenMount(w: Wheel, k: nat, now: Instant)
    requires Perched(w, k) && k + 1 < |w.m.cfg.ladder|
    ensures Plain(w, StageTick(w.m.stage.gen))
    ensures var v := Turn(w, Feed(StageTick(w.m.stage.gen), now)); Mounting(v, k + 1) && SameBut(w.m, v.m)
  {
    hide StepActive, StepGrace, StepBlanking, StepWaking, StepRenderPending, EnterActive;
  }

  /** The rung's own result arrives. */
  lemma Land(timings: Timings, ladder: seq<LadderStage>, t0: Instant, es: seq<Event>, w: Wheel, k: nat)
    returns (fs: seq<Event>, v: Wheel)
    requires Leads(timings, ladder, t0, es, w) && Mounting(w, k) && w.m.cfg.ladder[k].dwell.Some?
    ensures Leads(timings, ladder, t0, fs, v) && Perched(v, k) && SameBut(w.m, v.m)
  {
    hide Leads, Turn, Mounting, Perched, Plain;
    MountThenPerch(w, k, t0);
    Goes(timings, ladder, t0, es, w, Success(w.m));
    fs, v := es + [Feed(Success(w.m), t0)], Turn(w, Feed(Success(w.m), t0));
  }

  /** From rung `k` to rung `j`, one result and one scheduled stage tick a rung. */
  lemma {:induction false} ClimbOn(timings: Timings, ladder: seq<LadderStage>, t0: Instant, es: seq<Event>, w: Wheel,
                                   k: nat, j: nat)
    returns (fs: seq<Event>, v: Wheel)
    requires Leads(timings, ladder, t0, es, w) && Mounting(w, k) && w.m.cfg.ladder == ladder
    requires k <= j < |ladder| && Validated(ladder)
    ensures Leads(timings, ladder, t0, fs, v) && Mounting(v, j) && SameBut(w.m, v.m)
    decreases j - k
  {
    hide Leads, Turn, Mounting, Perched, Plain;
    if k == j {
      fs, v := es, w;
    } else {
      var gs, u := Land(timings, ladder, t0, es, w, k);
      PerchThenMount(u, k, t0);
      Goes(timings, ladder, t0, gs, u, StageTick(u.m.stage.gen));
      fs, v := ClimbOn(timings, ladder, t0, gs + [Feed(StageTick(u.m.stage.gen), t0)],
                       Turn(u, Feed(StageTick(u.m.stage.gen), t0)), k + 1, j);
    }
  }

  lemma FromNothing(timings: Timings, ladder: seq<LadderStage>, t0: Instant)
    ensures Leads(timings, ladder, t0, [], NewWheel(timings, ladder, t0))
  {
  }

  lemma FirstMount(timings: Timings, ladder: seq<LadderStage>, t0: Instant)
    requires ladder != []
    ensures var w0 := NewWheel(timings, ladder, t0);
            var w := Turn(w0, Feed(SoftBlank, t0));
            Plain(w0, SoftBlank) && Mounting(w, 0) && w.m.cfg.ladder == ladder
  {
  }

  /** On every validated ladder a clean run from `new` reaches every rung. */
  lemma Climb(timings: Timings, ladder: seq<LadderStage>, t0: Instant, k: nat) returns (es: seq<Event>, w: Wheel)
    requires Validated(ladder) && k < |ladder|
    ensures Leads(timings, ladder, t0, es, w) && Mounting(w, k) && w.m.cfg.ladder == ladder
  {
    hide Leads, Turn, Mounting, Plain, New;
    FromNothing(timings, ladder, t0);
    FirstMount(timings, ladder, t0);
    Goes(timings, ladder, t0, [], NewWheel(timings, ladder, t0), SoftBlank);
    es, w := ClimbOn(timings, ladder, t0, [] + [Feed(SoftBlank, t0)],
                     Turn(NewWheel(timings, ladder, t0), Feed(SoftBlank, t0)), 0, k);
  }

  // ── Into the leak and back onto the ladder ──────────────────────────────

  /** A staged rung in an absent room, its tick armed. */
  lemma Absent(w: Wheel, k: nat, now: Instant)
    requires Perched(w, k) && w.m.phase.Staged?
    ensures var v := Turn(w, Feed(ZonePresent(false), now));
            Plain(w, ZonePresent(false)) && v.m == w.m.(zone := Some(false)) && v.armedIn == w.armedIn
  {
    hide StepActive, StepGrace, StepBlanking, StepBlanked, StepWaking, StepRenderPending, EnterActive, EnterLadder;
    assert Armed([]) == {};
  }

  lemma Paused(w: Wheel, end: Instant, now: Instant)
    requires w.m.phase.Staged?
    ensures var v := Turn(w, Feed(Pause(Some(end)), now));
            && Plain(w, Pause(Some(end)))
            && v.m == w.m.(overlays := w.m.overlays.(paused := Some(PauseState(Some(end)))), stage := v.m.stage)
            && v.m.stage.gen == w.m.stage.gen && v.armedIn == w.armedIn
  {
    hide StepActive, StepGrace, StepBlanking, StepBlanked, StepWaking, StepRenderPending, EnterActive, EnterLadder;
    assert Armed([ScheduleTickAt(end)]) == {};
  }

  /** Waking with a frozen countdown, the last stage tick still armed. */
  predicate LeakedOver(w: Wheel, end: Instant) {
    && w.m.phase.Waking? && w.m.graceFrozen.Some? && w.m.owned && !w.m.pendingWake && !w.m.inputWakeHold
    && w.m.overlays == Overlays(false, Some(PauseState(Some(end))))
    && w.m.stage.current.None? && w.m.stage.frozen.None? && w.m.stage.gen in w.armedIn
  }

  lemma Leaks(w: Wheel, end: Instant, now: Instant)
    requires w.m.phase.Staged? && w.m.zone == Some(false) &&
             w.m.overlays == Overlays(false, Some(PauseState(Some(end))))
    requires !w.m.inputWakeHold && !w.m.pendingWake && w.m.stage.gen in w.armedIn
    ensures var v := Turn(w, Feed(OwnershipChanged(true), now));
            Plain(w, OwnershipChanged(true)) && LeakedOver(v, end) && v.m.cfg == w.m.cfg
  {
    hide StepActive, StepGrace, StepBlanking, StepBlanked, StepWaking, StepRenderPending;
  }

  lemma Forced(w: Wheel, end: Instant, now: Instant)
    requires LeakedOver(w, end)
    ensures var v := Turn(w, Feed(ForceBlank, now));
            && Plain(w, ForceBlank)
            && v.m == w.m.(phase := Blanking, cmds := v.m.cmds) && v.m.cmds.lastBlankGen == Some(v.m.cmds.gen)
            && w.armedIn.Keys <= v.armedIn.Keys
  {
    hide StepActive, StepGrace, StepBlanking, StepBlanked, StepRenderPending, StepStaged;
  }

  lemma Darkened(w: Wheel, now: Instant)
    requires w.m.phase.Blanking? && w.m.cmds.lastBlankGen == Some(w.m.cmds.gen) && !w.m.pendingWake &&
             w.m.stage.current.None?
    ensures var v := Turn(w, Feed(BlankResult(w.m.cmds.gen, true), now));
            && Plain(w, BlankResult(w.m.cmds.gen, true))
            && v.m == w.m.(phase := Blanked, cmds := v.m.cmds) && w.armedIn.Keys <= v.armedIn.Keys
  {
    hide StepActive, StepGrace, StepBlanked, StepWaking, StepRenderPending, StepStaged;
  }

  lemma Restarts(w: Wheel, now: Instant)
    requires w.m.phase.Blanked? && w.m.stage.current.None? && w.m.stage.frozen.None? && !w.m.overlays.inhibited &&
             w.m.owned
    requires !w.m.pendingWake && !w.m.inputWakeHold && w.m.stage.gen in w.armedIn && w.m.cfg.ladder != []
    ensures var v := Turn(w, Feed(StageTick(w.m.stage.gen), now));
            Plain(w, StageTick(w.m.stage.gen)) && Mounting(v, 0) && SameBut(w.m, v.m)
  {
    hide StepActive, StepGrace, StepBlanking, StepWaking, StepRenderPending, StepStaged, EnterActive;
  }

  /** From a perched render rung back to rung 0, now under a frozen countdown and a pause. */
  lemma Relapse(timings: Timings, ladder: seq<LadderStage>, t0: Instant, es: seq<Event>, w: Wheel, k: nat)
    returns (fs: seq<Event>, v: Wheel)
    requires Leads(timings, ladder, t0, es, w) && Perched(w, k) && w.m.cfg.ladder == ladder && ladder != [] &&
             w.m.phase.Staged?
    ensures Leads(timings, ladder, t0, fs, v) && Mounting(v, 0) && v.m.cfg.ladder == ladder
    ensures v.m.graceFrozen.Some? && v.m.overlays == Overlays(false, Some(PauseState(Some(t0))))
  {
    hide Leads, Turn, Mounting, Plain;
    Absent(w, k, t0);
    Goes(timings, ladder, t0, es, w, ZonePresent(false));
    var w1 := Turn(w, Feed(ZonePresent(false), t0));
    var es1 := es + [Feed(ZonePresent(false), t0)];
    Paused(w1, t0, t0);
    Goes(timings, ladder, t0, es1, w1, Pause(Some(t0)));
    var w2 := Turn(w1, Feed(Pause(Some(t0)), t0));
    var es2 := es1 + [Feed(Pause(Some(t0)), t0)];
    Leaks(w2, t0, t0);
    Goes(timings, ladder, t0, es2, w2, OwnershipChanged(true));
    fs, v := Rise(timings, ladder, t0, es2 + [Feed(OwnershipChanged(true), t0)],
                  Turn(w2, Feed(OwnershipChanged(true), t0)));
  }

  lemma Rise(timings: Timings, ladder: seq<LadderStage>, t0: Instant, es: seq<Event>, w: Wheel)
    returns (fs: seq<Event>, v: Wheel)
    requires Leads(timings, ladder, t0, es, w) && LeakedOver(w, t0) && w.m.cfg.ladder == ladder && ladder != []
    ensures Leads(timings, ladder, t0, fs, v) && Mounting(v, 0) && v.m.cfg.ladder == ladder
    ensures v.m.graceFrozen.Some? && v.m.overlays == Overlays(false, Some(PauseState(Some(t0))))
  {
    hide Leads, Turn, Mounting, Plain;
    Forced(w, t0, t0);
    Goes(timings, ladder, t0, es, w, ForceBlank);
    var w1 := Turn(w, Feed(ForceBlank, t0));
    var es1 := es + [Feed(ForceBlank, t0)];
    var done := BlankResult(w1.m.cmds.gen, true);
    Darkened(w1, t0);
    Goes(timings, ladder, t0, es1, w1, done);
    var w2 := Turn(w1, Feed(done, t0));
    var es2 := es1 + [Feed(done, t0)];
    var tick := StageTick(w2.m.stage.gen);
    Restarts(w2, t0);
    Goes(timings, ladder, t0, es2, w2, tick);
    fs, v := es2 + [Feed(tick, t0)], Turn(w2, Feed(tick, t0));
  }

  // ── The slip ────────────────────────────────────────────────────────────

  predicate RenderAt(ladder: seq<LadderStage>, k: nat) { k < |ladder| && ladder[k].kind.IsRender() }

  predicate TimedRenderAt(ladder: seq<LadderStage>, k: nat) { RenderAt(ladder, k) && ladder[k].dwell.Some? }

  /** Some render rung has a dwell. */
  predicate TimedRender(ladder: seq<LadderStage>) { exists k: nat :: k < |ladder| && TimedRenderAt(ladder, k) }

  lemma MountedSlips(w: Wheel, k: nat, now: Instant)
    requires Mounting(w, k) && w.m.cfg.ladder[k].kind.IsRender() && w.m.graceFrozen.Some?
    requires w.m.overlays == Overlays(false, Some(PauseState(Some(now))))
    ensures SlipsOff(w.m, Feed(Tick, now)) && Admissible(w, Feed(Tick, now))
  {
  }

  /** A run that orphans an overlay: up to a timed render rung, into the leak, dark by force, back
      to that rung on the tick it left armed, and the pause runs out. */
  lemma OrphaningRun(timings: Timings, ladder: seq<LadderStage>, t0: Instant, k: nat) returns (es: seq<Event>)
    requires Validated(ladder) && TimedRenderAt(ladder, k)
    ensures OnlyScheduled(NewWheel(timings, ladder, t0), es)
    ensures SurfaceUp(New(timings, ladder, t0), es, |es|) &&
            !InLadderRender(At(New(timings, ladder, t0), es, |es|).phase)
  {
    hide Leads, Turn, Mounting, Plain, New, At, WheelAt, OnlyScheduled, SurfaceUp, SlipsOff, Admissible;
    var es0, w0 := Climb(timings, ladder, t0, k);
    var es1, w1 := Land(timings, ladder, t0, es0, w0, k);
    var es2, w2 := Relapse(timings, ladder, t0, es1, w1, k);
    var es3, w3 := ClimbOn(timings, ladder, t0, es2, w2, 0, k);
    MountedSlips(w3, k, t0);
    es := SlipAtEnd(timings, ladder, t0, es3, w3);
  }

  lemma SlipAtEnd(timings: Timings, ladder: seq<LadderStage>, t0: Instant, fs: seq<Event>, w: Wheel)
      returns (es: seq<Event>)
    requires Leads(timings, ladder, t0, fs, w) && SlipsOff(w.m, Feed(Tick, t0)) && Admissible(w, Feed(Tick, t0))
    ensures OnlyScheduled(NewWheel(timings, ladder, t0), es)
    ensures SurfaceUp(New(timings, ladder, t0), es, |es|) &&
            !InLadderRender(At(New(timings, ladder, t0), es, |es|).phase)
  {
    hide Turn, New, At, WheelAt, OnlyScheduled, SurfaceUp, SlipsOff, Admissible, NeverOrphans, Brink;
    var m0 := New(timings, ladder, t0);
    var e := Feed(Tick, t0);
    es := fs + [e];
    WheelThroughout(timings, ladder, t0, fs, |fs|);
    SurfaceFollowsPhase(timings, ladder, t0, fs, |fs|);
    ExtendScheduled(NewWheel(timings, ladder, t0), fs, e);
    SamePrefix(m0, fs, e, |fs|);
    SameSurface(m0, fs, e, |fs|);
    assert es[|fs|] == e;
    OrphanShows(m0, es, |fs|);
  }

  lemma {:induction false} SameSurface(m0: Machine, es: seq<Event>, e: Event, i: nat)
    requires i <= |es|
    ensures SurfaceUp(m0, es + [e], i) == SurfaceUp(m0, es, i)
  {
    hide Apply, UpAfter, At;
    if i > 0 {
      SameSurface(m0, es, e, i - 1);
      SamePrefix(m0, es, e, i - 1);
      assert (es + [e])[i - 1] == es[i - 1];
    }
  }

  // ── Without a timed render rung ─────────────────────────────────────────

  /** A countdown frozen outside Grace. */
  predicate Stale(m: Machine) { m.graceFrozen.Some? && !m.phase.Grace? }

  /** A stale countdown is never over a surface, and no stage tick can lead back to one. */
  predicate Harmless(w: Wheel) {
    Stale(w.m) ==> !InLadderRender(w.m.phase) && w.m.stage.current.None? && w.m.stage.gen !in w.armedIn
  }

  predicate StaleMove(m: Machine, n: Machine) {
    Stale(n) ==>
      && !InLadderRender(n.phase) && n.stage.current.None? && n.stage.gen == m.stage.gen
      && (Stale(m) || InLadderRender(m.phase))
  }

  lemma StaleFromLit(m: Machine, input: Input, now: Instant)
    requires Countdown(m) && (m.phase.Active? || m.phase.Waking?)
    requires Stale(m) ==> m.stage.current.None?
    ensures StaleMove(m, Step(m, input, now).m)
  {
    hide StepGrace, StepBlanking, StepBlanked, StepRenderPending, StepStaged, EnterActive, TeardownToActive;
    LeadsAwake();
  }

  lemma StaleFromGrace(m: Machine, input: Input, now: Instant)
    requires Countdown(m) && m.phase.Grace?
    ensures StaleMove(m, StepGrace(m, input, now).m)
  {
    hide EnterActive, TeardownToActive, EnterLadder;
    LeadsAwake();
    LadderUnfrozen(m.(graceFrozen := None), 0, now, CSoftBlank);
    if m.graceFrozen.None? {
      LadderUnfrozen(m, 0, now, CGraceExpired);
    }
  }

  lemma LadderUnfrozen(m: Machine, idx: nat, now: Instant, cause: Cause)
    requires m.graceFrozen.None?
    ensures !Stale(EnterLadder(m, idx, now, cause).m)
  {
    hide EnterActive, OnRenderRung, NameOf;
    LeadsAwake();
  }

  lemma StaleFromBlanking(m: Machine, input: Input, now: Instant)
    requires Countdown(m) && m.phase.Blanking? && (Stale(m) ==> m.stage.current.None?)
    ensures StaleMove(m, StepBlanking(m, input, now).m)
  {
    hide EnterActive, TeardownToActive;
    LeadsAwake();
  }

  lemma StaleFromBlanked(m: Machine, input: Input, now: Instant)
    requires Countdown(m) && m.phase.Blanked? && (Stale(m) ==> m.stage.current.None?)
    requires Stale(m) && input.StageTick? ==> !StageTickAccepted(m, input.gen)
    ensures StaleMove(m, StepBlanked(m, input, now).m)
  {
    hide EnterActive, TeardownToActive, EnterLadder;
    LeadsAwake();
    if !Stale(m) {
      LadderUnfrozen(m, NextRung(m), now, CStageTick);
    }
  }

  lemma StaleFromPending(m: Machine, input: Input, now: Instant)
    requires m.phase.RenderPending? && !Stale(m)
    ensures StaleMove(m, StepRenderPending(m, input, now).m)
  {
    hide EnterActive, TeardownToActive, EnterLadder;
    LeadsAwake();
    LadderUnfrozen(m, NextController(m.cfg.ladder, NextRung(m)), now, CRenderFailed);
    LadderUnfrozen(m.(stage := m.stage.(current := None)), 0, now, CSoftBlank);
  }

  lemma StaleFromStaged(m: Machine, input: Input, now: Instant)
    requires m.phase.Staged? && !Stale(m)
    ensures StaleMove(m, StepStaged(m, input, now).m)
  {
    hide EnterActive, TeardownToActive, EnterLadder;
    LeadsAwake();
    LadderUnfrozen(m, NextRung(m), now, CStageTick);
    LadderUnfrozen(m.(stage := m.stage.(current := None)), 0, now, CSoftBlank);
  }

  lemma EveryStaleMove(w: Wheel, e: Event)
    requires Coherent(w.m) && Harmless(w) && Admissible(w, e)
    ensures StaleMove(w.m, Apply(w.m, e).m)
  {
    hide StepActive, StepGrace, StepBlanking, StepBlanked, StepWaking, StepRenderPending, StepStaged, Placed;
    if e.Feed? {
      match w.m.phase
      case Active | Waking => StaleFromLit(w.m, e.input, e.now);
      case Grace(_) => StaleFromGrace(w.m, e.input, e.now);
      case Blanking => StaleFromBlanking(w.m, e.input, e.now);
      case Blanked => StaleFromBlanked(w.m, e.input, e.now);
      case RenderPending(_, _) => StaleFromPending(w.m, e.input, e.now);
      case Staged(_, _) => StaleFromStaged(w.m, e.input, e.now);
    }
  }

  lemma HarmlessKept(w: Wheel, e: Event)
    requires Coherent(w.m) && WheelTrue(w) && Harmless(w) && Admissible(w, e) && !TimedRender(w.m.cfg.ladder)
    ensures !Orphans(w.m, e) && Harmless(Turn(w, e))
  {
    hide Apply, Sturdy;
    EveryStaleMove(w, e);
    UntimedUnarmed(w);
    NothingOrphans(w, e);
    if e.Feed? {
      FeedMoves(w.m, e);
    }
    SameGenArmsNothing(w, e);
  }

  lemma FeedMoves(m: Machine, e: Event)
    requires Sturdy(m) && e.Feed?
    ensures StageMove(m, e.input, Apply(m, e))
  {
    hide Step, Sturdy, StageMove;
    EveryStepMoves(m, e.input, e.now);
  }

  /** Over an untimed render rung no stage tick is armed. */
  lemma UntimedUnarmed(w: Wheel)
    requires Coherent(w.m) && WheelTrue(w) && !TimedRender(w.m.cfg.ladder)
    ensures InLadderRender(w.m.phase) ==> w.m.stage.gen !in w.armedIn
  {
    hide Sturdy;
    if InLadderRender(w.m.phase) {
      assert !TimedRenderAt(w.m.cfg.ladder, w.m.stage.current.value);
    }
  }

  lemma NothingOrphans(w: Wheel, e: Event)
    requires Harmless(w) && Admissible(w, e) && (InLadderRender(w.m.phase) ==> w.m.stage.gen !in w.armedIn)
    ensures !Orphans(w.m, e)
  {
  }

  lemma SameGenArmsNothing(w: Wheel, e: Event)
    requires e.Feed? ==> StageMove(w.m, e.input, Apply(w.m, e))
    ensures Apply(w.m, e).m.stage.gen == w.m.stage.gen ==> Turn(w, e).armedIn == w.armedIn
  {
    hide Step;
    var o := Apply(w.m, e);
    if o.m.stage.gen == w.m.stage.gen {
      assert NoArm(o.fx);
      assert Armed(o.fx) == {};
    }
  }

  lemma {:induction false} UntimedNeverOrphans(timings: Timings, ladder: seq<LadderStage>, t0: Instant, es: seq<Event>,
                                               n: nat)
    requires n <= |es| && !TimedRender(ladder) && OnlyScheduled(NewWheel(timings, ladder, t0), es)
    ensures NeverOrphans(New(timings, ladder, t0), es, n) && Harmless(WheelAt(NewWheel(timings, ladder, t0), es, n))
  {
    hide Turn, OnlyScheduled, TimedRender, Orphans, At, New, Harmless, Admissible, WheelTrue, Coherent, Sturdy;
    var w0 := NewWheel(timings, ladder, t0);
    if n > 0 {
      var w := WheelAt(w0, es, n - 1);
      UntimedNeverOrphans(timings, ladder, t0, es, n - 1);
      WheelThroughout(timings, ladder, t0, es, n - 1);
      SurfaceFollowsPhase(timings, ladder, t0, es, n - 1);
      ScheduledAt(w0, es, n - 1);
      HarmlessKept(w, es[n - 1]);
    } else {
      FreshIsHarmless(timings, ladder, t0);
    }
  }

  lemma FreshIsHarmless(timings: Timings, ladder: seq<LadderStage>, t0: Instant)
    ensures Harmless(NewWheel(timings, ladder, t0))
  {
  }

  // ── Exactly ─────────────────────────────────────────────────────────────

  /** Some run, fed only scheduled stage ticks, has a surface up with no render rung current, or
      none up with one current. */
  ghost predicate CanOrphan(timings: Timings, ladder: seq<LadderStage>, t0: Instant) {
    exists es: seq<Event> :: OnlyScheduled(NewWheel(timings, ladder, t0), es) &&
      !SurfaceTrue(New(timings, ladder, t0), es, |es|)
  }

  /** For every validated ladder and all timings: an overlay can be orphaned if and only if some
      render rung has a dwell. */
  lemma OrphansExactlyWhen(timings: Timings, ladder: seq<LadderStage>, t0: Instant)
    requires Validated(ladder)
    ensures CanOrphan(timings, ladder, t0) <==> TimedRender(ladder)
  {
    hide OnlyScheduled, SurfaceUp, At, New, TimedRenderAt, Coherent, Harmless, NeverOrphans;
    if TimedRender(ladder) {
      var k: nat :| k < |ladder| && TimedRenderAt(ladder, k);
      var es := OrphaningRun(timings, ladder, t0, k);
      assert !SurfaceTrue(New(timings, ladder, t0), es, |es|);
    } else {
      forall es: seq<Event> | OnlyScheduled(NewWheel(timings, ladder, t0), es)
        ensures SurfaceTrue(New(timings, ladder, t0), es, |es|)
      {
        UntimedNeverOrphans(timings, ladder, t0, es, |es|);
        SurfaceFollowsPhase(timings, ladder, t0, es, |es|);
      }
    }
  }
}
