/** Over whole runs: a render overlay is up exactly while the machine is on a render rung, and a
    hardware blank never fires under one - exactly unless one of two steps is taken. */
module Surfaces {
  import opened DisplayTypes
  import opened DisplaySpec
  import opened DisplayRuns
  import opened StageTicks

  predicate Renders(e: Effect) { e.ShowRender? || e.TeardownRender? }

  predicate Silent(fx: seq<Effect>) { forall k :: 0 <= k < |fx| ==> !Renders(fx[k]) }

  predicate LastRender(fx: seq<Effect>, k: int) {
    0 <= k < |fx| && Renders(fx[k]) && forall j :: k < j < |fx| ==> !Renders(fx[j])
  }

  ghost predicate EndsShown(fx: seq<Effect>) { exists k :: LastRender(fx, k) && fx[k].ShowRender? }

  ghost predicate EndsDown(fx: seq<Effect>) { exists k :: LastRender(fx, k) && fx[k].TeardownRender? }

  /** Whether a surface is up after a batch of effects: what its last render effect says. */
  ghost predicate UpAfter(up: bool, fx: seq<Effect>) { EndsShown(fx) || (up && !EndsDown(fx)) }

  /** Every IssueBlank of the batch comes after a TeardownRender of the same batch. */
  predicate TornDownFirst(fx: seq<Effect>) {
    forall k :: 0 <= k < |fx| && fx[k].IssueBlank? ==> exists j :: 0 <= j < k && fx[j].TeardownRender?
  }

  /** The last rung is not a render rung with a dwell. */
  predicate OverlaySafe(ladder: seq<LadderStage>) {
    ladder != [] ==> !(ladder[|ladder| - 1].kind.IsRender() && ladder[|ladder| - 1].dwell.Some?)
  }

  // ── Batches of the helpers ──────────────────────────────────────────────

  lemma SilentActive(m: Machine, now: Instant, cause: Cause)
    ensures Silent(EnterActive(m, now, cause).fx)
  {
  }

  lemma DownTeardown(m: Machine, now: Instant, cause: Cause)
    ensures EndsDown(TeardownToActive(m, now, cause).fx) && !EndsShown(TeardownToActive(m, now, cause).fx)
    ensures TornDownFirst(TeardownToActive(m, now, cause).fx)
  {
    hide EnterActive;
    SilentActive(m, now, cause);
    assert LastRender(TeardownToActive(m, now, cause).fx, 0);
  }

  lemma LadderBatch(m: Machine, idx: nat, now: Instant, cause: Cause)
    requires idx < |m.cfg.ladder|
    ensures var o := EnterLadder(m, idx, now, cause);
            if m.cfg.ladder[idx].kind.IsRender() then EndsShown(o.fx) && o.m.phase.RenderPending?
            else
              && o.m.phase.Blanking?
              && (if OnRenderRung(m) then EndsDown(o.fx) && !EndsShown(o.fx) && TornDownFirst(o.fx) else Silent(o.fx))
  {
    var o := EnterLadder(m, idx, now, cause);
    if m.cfg.ladder[idx].kind.IsRender() {
      assert LastRender(o.fx, 1);
    } else if OnRenderRung(m) {
      assert LastRender(o.fx, 0);
    }
  }

  lemma LastOfConcat(a: seq<Effect>, b: seq<Effect>)
    ensures Silent(b) ==> (EndsShown(a + b) <==> EndsShown(a)) && (EndsDown(a + b) <==> EndsDown(a))
    ensures !Silent(b) ==> (EndsShown(a + b) <==> EndsShown(b)) && (EndsDown(a + b) <==> EndsDown(b))
  {
    var c := a + b;
    forall k | 0 <= k < |b| ensures LastRender(c, |a| + k) <==> LastRender(b, k) {
      assert c[|a| + k] == b[k];
      if LastRender(c, |a| + k) {
        forall j | k < j < |b| ensures !Renders(b[j]) { assert c[|a| + j] == b[j]; }
      }
    }
    if Silent(b) {
      forall k | 0 <= k < |a| ensures LastRender(c, k) <==> LastRender(a, k) {
        assert c[k] == a[k];
        if LastRender(c, k) {
          forall j | k < j < |a| ensures !Renders(a[j]) { assert c[j] == a[j]; }
        }
      }
      assert forall k :: |a| <= k < |c| ==> c[k] == b[k - |a|];
    } else {
      var q := LastRenderIndex(b);
      assert Renders(c[|a| + q]);
      assert forall k :: LastRender(c, k) ==> k == |a| + q;
    }
  }

  lemma LastRenderIndex(b: seq<Effect>) returns (q: nat)
    requires !Silent(b)
    ensures LastRender(b, q)
  {
    q := |b| - 1;
    while !Renders(b[q])
      invariant 0 <= q < |b|
      invariant forall j :: q < j < |b| ==> !Renders(b[j])
      decreases q
    {
      if q == 0 {
        assert Silent(b);
      }
      q := q - 1;
    }
  }

  lemma ShownHasLast(fx: seq<Effect>)
    ensures Silent(fx) ==> !EndsShown(fx) && !EndsDown(fx)
  {
  }

  // ── One step ────────────────────────────────────────────────────────────

  /** The batch leaves a surface up exactly if it leaves the machine on a render rung, and a
      blank issued from a render rung follows the teardown. */
  ghost predicate Fits(m: Machine, o: Out) {
    && (UpAfter(InLadderRender(m.phase), o.fx) <==> InLadderRender(o.m.phase))
    && (InLadderRender(m.phase) ==> TornDownFirst(o.fx))
  }

  lemma FitsFromActive(m: Machine, a: Machine, now: Instant, cause: Cause)
    requires !InLadderRender(m.phase)
    ensures Fits(m, EnterActive(a, now, cause))
  {
    hide EnterActive;
    SilentActive(a, now, cause);
    ShownHasLast(EnterActive(a, now, cause).fx);
  }

  lemma FitsLadder(m: Machine, l: Machine, idx: nat, now: Instant, cause: Cause)
    requires !InLadderRender(m.phase) && !OnRenderRung(l)
    ensures Fits(m, EnterLadder(l, idx, now, cause))
  {
    hide EnterActive, EnterLadder, EndsShown, EndsDown;
    if idx < |l.cfg.ladder| {
      LadderBatch(l, idx, now, cause);
      ShownHasLast(EnterLadder(l, idx, now, cause).fx);
    } else {
      FitsFromActive(m, l, now, cause);
      OffLadder(l, idx, now, cause);
    }
  }

  lemma OffLadder(l: Machine, idx: nat, now: Instant, cause: Cause)
    requires idx >= |l.cfg.ladder|
    ensures EnterLadder(l, idx, now, cause) == EnterActive(l, now, cause)
  {
    hide EnterActive;
  }

  lemma FitsAwake(m: Machine, input: Input, now: Instant)
    requires Coherent(m) && (m.phase.Active? || m.phase.Waking?)
    ensures Fits(m, Step(m, input, now))
  {
    hide StepGrace, StepBlanking, StepBlanked, StepRenderPending, StepStaged, EnterActive, EnterLadder;
    match input
    case WakeResult(_, _) => FitsFromActive(m, m.(cmds := m.cmds.(lastWake := Some(now))), now, CWakeCompleted);
    case SoftBlank => FitsLadder(m, m, 0, now, CSoftBlank);
    case _ =>
  }

  lemma FitsInGrace(m: Machine, input: Input, now: Instant)
    requires Coherent(m) && m.phase.Grace?
    ensures Fits(m, Step(m, input, now))
  {
    hide StepActive, StepBlanking, StepBlanked, StepWaking, StepRenderPending, StepStaged, EnterActive, EnterLadder;
    match input
    case ZonePresent(_) => FitsFromActive(m, m.(zone := Some(true)), now, CPresenceDuringGrace);
    case ForceWake => FitsFromActive(m, m, now, CForceWake);
    case InputWake => FitsFromActive(m, m, now, CInputWake);
    case SoftBlank => FitsLadder(m, m.(graceFrozen := None), 0, now, CSoftBlank);
    case Tick =>
      FitsLadder(m, m, 0, now, CGraceExpired);
      assert [] + EnterLadder(m, 0, now, CGraceExpired).fx == EnterLadder(m, 0, now, CGraceExpired).fx;
    case _ =>
  }

  lemma FitsBlanking(m: Machine, input: Input, now: Instant)
    requires Coherent(m) && m.phase.Blanking?
    ensures Fits(m, StepBlanking(m, input, now))
  {
    hide EnterActive, Sturdy;
    match input
    case BlankResult(_, _) => FitsFromActive(m, m.(pendingWake := false), now, CBlankFailed);
    case _ =>
  }

  lemma FitsBlanked(m: Machine, input: Input, now: Instant)
    requires Coherent(m) && m.phase.Blanked?
    ensures Fits(m, StepBlanked(m, input, now))
  {
    hide EnterActive, EnterLadder, Sturdy;
    match input
    case OwnershipChanged(_) => FitsFromActive(m, m.(owned := false), now, COwnershipYielded);
    case StageTick(_) => FitsLadder(m, m, NextRung(m), now, CStageTick);
    case _ =>
  }

  lemma FitsTeardown(m: Machine, t: Machine, now: Instant, cause: Cause)
    ensures Fits(m, TeardownToActive(t, now, cause))
  {
    hide EnterActive, TeardownToActive, EndsShown, EndsDown, TornDownFirst;
    DownTeardown(t, now, cause);
  }

  lemma FitsNextRung(m: Machine, idx: nat, now: Instant, cause: Cause)
    requires InLadderRender(m.phase) && OnRenderRung(m) && idx < |m.cfg.ladder|
    ensures Fits(m, EnterLadder(m, idx, now, cause))
  {
    LadderBatch(m, idx, now, cause);
    var o := EnterLadder(m, idx, now, cause);
    if o.m.phase.RenderPending? {
      assert LastRender(o.fx, 1);
    }
  }

  lemma FitsSoft(m: Machine, now: Instant)
    requires InLadderRender(m.phase)
    ensures Fits(m, SoftBlankOverRender(m, now))
  {
    hide EnterActive, EnterLadder, EndsShown, EndsDown;
    var bare := m.(stage := m.stage.(current := None));
    var head := [TeardownRender(m.stage.gen), LogTo(m, NEnteringLadder, CSoftBlank)];
    var l := EnterLadder(bare, 0, now, CSoftBlank);
    HeadDown(head);
    LastOfConcat(head, l.fx);
    assert (head + l.fx)[0].TeardownRender?;
    if 0 < |bare.cfg.ladder| {
      LadderBatch(bare, 0, now, CSoftBlank);
      if Silent(l.fx) { ShownHasLast(l.fx); }
    } else {
      OffLadder(bare, 0, now, CSoftBlank);
      SilentActive(bare, now, CSoftBlank);
    }
  }

  lemma HeadDown(head: seq<Effect>)
    requires |head| == 2 && head[0].TeardownRender? && !Renders(head[1])
    ensures EndsDown(head) && !EndsShown(head)
  {
    assert LastRender(head, 0);
  }

  lemma FitsForce(m: Machine)
    ensures Fits(m, ForceBlankOverRender(m))
  {
    assert LastRender(ForceBlankOverRender(m).fx, 0);
  }

  lemma FitsGain(m: Machine, now: Instant)
    requires InLadderRender(m.phase)
    ensures Fits(m, GainOwnership(m, now))
  {
    hide EnterActive, TeardownToActive, EndsShown, EndsDown;
    var t := TeardownToActive(m.(owned := true), now, COwnershipAcquired);
    DownTeardown(m.(owned := true), now, COwnershipAcquired);
    var w := StartWake(t.m, [LogTransition(NameOf(m.phase), NWaking, COwnershipAcquired)], now);
    LastOfConcat(t.fx, w.fx);
    assert (t.fx + w.fx)[..|t.fx|] == t.fx;
    ShownHasLast([]);
  }

  /** A thawing countdown pulls the machine off a surface. */
  predicate SlipsOff(m: Machine, e: Event) { Slips(m, e) && InLadderRender(m.phase) }

  lemma FitsPending(m: Machine, input: Input, now: Instant)
    requires Coherent(m) && m.phase.RenderPending? && !SlipsOff(m, Feed(input, now))
    ensures Fits(m, Step(m, input, now))
  {
    hide StepActive, StepGrace, StepBlanking, StepBlanked, StepWaking, StepStaged;
    hide EnterActive, EnterLadder, TeardownToActive, GainOwnership, SoftBlankOverRender, ForceBlankOverRender;
    match input
    case ZonePresent(p) => FitsTeardown(m, m.(zone := Some(p)), now, CPresenceDetected);
    case InputWake => FitsTeardown(m, m, now, CInputWake);
    case ForceWake => FitsTeardown(m, m, now, CForceWake);
    case OwnershipChanged(_) =>
      FitsGain(m, now);
      FitsTeardown(m, m.(owned := false), now, COwnershipYielded);
    case ForceBlank => FitsForce(m);
    case SoftBlank => FitsSoft(m, now);
    case RenderResult(_, ok) =>
      var idx := NextController(m.cfg.ladder, NextRung(m));
      if idx < |m.cfg.ladder| {
        FitsNextRung(m, idx, now, CRenderFailed);
      }
      FitsTeardown(m, m, now, CRenderFailed);
    case _ =>
  }

  /** The stage tick that ends the last rung while it is a render rung. */
  predicate Brink(m: Machine, e: Event) {
    && e.Feed? && e.input.StageTick? && m.phase.Staged?
    && StageTickAccepted(m, e.input.gen) && NextRung(m) == |m.cfg.ladder|
  }

  lemma FitsStaged(m: Machine, input: Input, now: Instant)
    requires Coherent(m) && m.phase.Staged? && !Brink(m, Feed(input, now)) && !SlipsOff(m, Feed(input, now))
    ensures Fits(m, Step(m, input, now))
  {
    hide StepActive, StepGrace, StepBlanking, StepBlanked, StepWaking, StepRenderPending;
    hide EnterActive, EnterLadder, TeardownToActive, GainOwnership, SoftBlankOverRender, ForceBlankOverRender;
    match input
    case ZonePresent(p) => FitsTeardown(m, m.(zone := Some(p)), now, CPresenceDetected);
    case InputWake => FitsTeardown(m, m, now, CInputWake);
    case ForceWake => FitsTeardown(m, m, now, CForceWake);
    case OwnershipChanged(_) =>
      FitsGain(m, now);
      FitsTeardown(m, m.(owned := false), now, COwnershipYielded);
    case ForceBlank => FitsForce(m);
    case SoftBlank => FitsSoft(m, now);
    case StageTick(gen) =>
      if StageTickAccepted(m, gen) {
        FitsNextRung(m, NextRung(m), now, CStageTick);
      }
    case _ =>
  }

  lemma EveryStepFits(m: Machine, e: Event)
    requires Coherent(m) && !Brink(m, e) && !SlipsOff(m, e)
    ensures Fits(m, Apply(m, e))
  {
    hide StepActive, StepGrace, StepBlanking, StepBlanked, StepWaking, StepRenderPending, StepStaged, Coherent, Fits,
         Brink, SlipsOff;
    if e.Feed? {
      match m.phase
      case Active | Waking => FitsAwake(m, e.input, e.now);
      case Grace(_) => FitsInGrace(m, e.input, e.now);
      case Blanking => FitsBlanking(m, e.input, e.now);
      case Blanked => FitsBlanked(m, e.input, e.now);
      case RenderPending(_, _) => FitsPending(m, e.input, e.now);
      case Staged(_, _) => FitsStaged(m, e.input, e.now);
    } else {
      FitsHold(m, e);
    }
  }

  /** Of all inputs in all coherent states, exactly two leave a surface up off the ladder: the
      stage tick past a last render rung, and the tick that thaws a countdown over a surface. */
  lemma FitsExactlyOffBrinkAndSlip(m: Machine, e: Event)
    requires Coherent(m)
    ensures Fits(m, Apply(m, e)) <==> !Brink(m, e) && !SlipsOff(m, e)
  {
    hide Coherent, Fits, Apply, Brink, SlipsOff;
    if Brink(m, e) {
      BrinkOrphans(m, e);
    } else if SlipsOff(m, e) {
      SlipOrphans(m, e);
    } else {
      EveryStepFits(m, e);
    }
  }

  lemma BrinkOrphans(m: Machine, e: Event)
    requires Brink(m, e)
    ensures var o := Apply(m, e); Silent(o.fx) && InLadderRender(m.phase) && !InLadderRender(o.m.phase) && !Fits(m, o)
  {
    hide StepActive, StepGrace, StepBlanking, StepBlanked, StepWaking, StepRenderPending, EnterActive;
    OffLadder(m, NextRung(m), e.now, CStageTick);
    SilentActive(m, e.now, CStageTick);
    ShownHasLast(Apply(m, e).fx);
  }

  lemma SlipOrphans(m: Machine, e: Event)
    requires SlipsOff(m, e)
    ensures var o := Apply(m, e); Silent(o.fx) && InLadderRender(m.phase) && !InLadderRender(o.m.phase) && !Fits(m, o)
  {
    hide StepActive, StepGrace, StepBlanking, StepBlanked, StepWaking;
    ShownHasLast(Apply(m, e).fx);
  }

  /** On a safe ladder no scheduled tick leads there. */
  lemma SafeLadderHasNoBrink(w: Wheel, e: Event)
    requires Coherent(w.m) && WheelTrue(w) && Admissible(w, e) && OverlaySafe(w.m.cfg.ladder)
    ensures !Brink(w.m, e)
  {
  }

  lemma FitsHold(m: Machine, e: Event)
    requires e.SetHold?
    ensures Fits(m, Apply(m, e))
  {
  }

  // ── Whole runs ──────────────────────────────────────────────────────────

  /** Whether a surface is up before event `i`, judged from the effects emitted alone. */
  ghost predicate SurfaceUp(m0: Machine, es: seq<Event>, i: nat)
    requires i <= |es|
  {
    i > 0 && UpAfter(SurfaceUp(m0, es, i - 1), Apply(At(m0, es, i - 1), es[i - 1]).fx)
  }

  /** A surface is up exactly in the phases that have one. */
  ghost predicate SurfaceTrue(m0: Machine, es: seq<Event>, i: nat)
    requires i <= |es|
  {
    SurfaceUp(m0, es, i) <==> InLadderRender(At(m0, es, i).phase)
  }

  predicate Orphans(m: Machine, e: Event) { Brink(m, e) || SlipsOff(m, e) }

  predicate NeverOrphans(m0: Machine, es: seq<Event>, n: nat)
    requires n <= |es|
  {
    forall i :: 0 <= i < n ==> !Orphans(At(m0, es, i), es[i])
  }

  lemma NextUp(m0: Machine, es: seq<Event>, i: nat)
    requires i < |es|
    ensures SurfaceUp(m0, es, i + 1) == UpAfter(SurfaceUp(m0, es, i), Apply(At(m0, es, i), es[i]).fx)
    ensures At(m0, es, i + 1) == Apply(At(m0, es, i), es[i]).m
  {
    hide Apply, UpAfter;
  }

  lemma {:induction false} SurfaceFollowsPhase(timings: Timings, ladder: seq<LadderStage>, t0: Instant, es: seq<Event>,
                                               i: nat)
    requires i <= |es| && NeverOrphans(New(timings, ladder, t0), es, i)
    ensures SurfaceTrue(New(timings, ladder, t0), es, i) && Coherent(At(New(timings, ladder, t0), es, i))
    ensures At(New(timings, ladder, t0), es, i).cfg.ladder == ladder
  {
    hide Apply, Brink, SlipsOff, TornDownFirst, Coherent, UpAfter, SurfaceUp, At;
    var m0 := New(timings, ladder, t0);
    if i > 0 {
      SurfaceFollowsPhase(timings, ladder, t0, es, i - 1);
      NextUp(m0, es, i - 1);
      KeepsFitting(At(m0, es, i - 1), es[i - 1]);
    } else {
      StartsDown(timings, ladder, t0, es);
    }
  }

  lemma StartsDown(timings: Timings, ladder: seq<LadderStage>, t0: Instant, es: seq<Event>)
    ensures var m0 := New(timings, ladder, t0);
            At(m0, es, 0) == m0 && !SurfaceUp(m0, es, 0) && m0.phase.Active? && Coherent(m0)
    ensures New(timings, ladder, t0).cfg.ladder == ladder
  {
  }

  lemma KeepsFitting(m: Machine, e: Event)
    requires Coherent(m) && !Orphans(m, e)
    ensures Fits(m, Apply(m, e)) && Coherent(Apply(m, e).m) && Apply(m, e).m.cfg == m.cfg
  {
    hide Apply, Coherent, Fits, Brink, Slips;
    EveryStepFits(m, e);
    CoherentKept(m, e);
  }

  /** A step that orphans shows at once. */
  lemma OrphanShows(m0: Machine, es: seq<Event>, i: nat)
    requires i < |es| && SurfaceTrue(m0, es, i) && Orphans(At(m0, es, i), es[i])
    ensures SurfaceUp(m0, es, i + 1) && !InLadderRender(At(m0, es, i + 1).phase) && !SurfaceTrue(m0, es, i + 1)
  {
    hide Apply, At, SurfaceUp, Brink, SlipsOff;
    var m := At(m0, es, i);
    NextUp(m0, es, i);
    if Brink(m, es[i]) {
      BrinkOrphans(m, es[i]);
    } else {
      SlipOrphans(m, es[i]);
    }
    ShownHasLast(Apply(m, es[i]).fx);
  }

  /** Over every run from `new`, on any ladder and with any inputs: the last render effect emitted
      is a ShowRender exactly in RenderPending and Staged at every point, if and only if no
      accepted stage tick ends a last render rung and no countdown thaws over a surface. */
  lemma OverlayExactlyUnlessOrphaned(timings: Timings, ladder: seq<LadderStage>, t0: Instant, es: seq<Event>)
    ensures var m0 := New(timings, ladder, t0);
            (forall i :: 0 <= i <= |es| ==> SurfaceTrue(m0, es, i)) <==> NeverOrphans(m0, es, |es|)
  {
    hide Apply, At, SurfaceTrue, Orphans, New, Coherent;
    var m0 := New(timings, ladder, t0);
    if NeverOrphans(m0, es, |es|) {
      forall i | 0 <= i <= |es| ensures SurfaceTrue(m0, es, i) {
        SurfaceFollowsPhase(timings, ladder, t0, es, i);
      }
    } else {
      var i :| 0 <= i < |es| && Orphans(At(m0, es, i), es[i]);
      if SurfaceTrue(m0, es, i) {
        OrphanShows(m0, es, i);
        assert !SurfaceTrue(m0, es, i + 1) && 0 <= i + 1 <= |es|;
      } else {
        assert !SurfaceTrue(m0, es, i) && 0 <= i <= |es|;
      }
    }
  }

  lemma SafeAvoidsBrink(timings: Timings, ladder: seq<LadderStage>, t0: Instant, es: seq<Event>, i: nat)
    requires i < |es| && OverlaySafe(ladder) && OnlyScheduled(NewWheel(timings, ladder, t0), es)
    requires NeverOrphans(New(timings, ladder, t0), es, i)
    ensures !Brink(At(New(timings, ladder, t0), es, i), es[i])
  {
    hide Apply, Coherent, OnlyScheduled, OverlaySafe, WheelTrue, Brink, Admissible, At, SurfaceTrue, Orphans;
    WheelThroughout(timings, ladder, t0, es, i);
    SurfaceFollowsPhase(timings, ladder, t0, es, i);
    ScheduledAt(NewWheel(timings, ladder, t0), es, i);
    SafeLadderHasNoBrink(WheelAt(NewWheel(timings, ladder, t0), es, i), es[i]);
  }

  predicate NeverSlipsOff(m0: Machine, es: seq<Event>, n: nat)
    requires n <= |es|
  {
    forall i :: 0 <= i < n ==> !SlipsOff(At(m0, es, i), es[i])
  }

  lemma {:induction false} SafeNeverOrphans(timings: Timings, ladder: seq<LadderStage>, t0: Instant, es: seq<Event>,
                                            n: nat)
    requires n <= |es| && OverlaySafe(ladder) && OnlyScheduled(NewWheel(timings, ladder, t0), es)
    requires NeverSlipsOff(New(timings, ladder, t0), es, n)
    ensures NeverOrphans(New(timings, ladder, t0), es, n)
  {
    hide Apply, OnlyScheduled, OverlaySafe, Brink, SlipsOff, At, New;
    if n > 0 {
      SafeNeverOrphans(timings, ladder, t0, es, n - 1);
      SafeAvoidsBrink(timings, ladder, t0, es, n - 1);
    }
  }

  /** In every run from `new` on a ladder whose last rung is not a render rung with a dwell, where
      only scheduled stage ticks arrive, up to the first countdown that thaws over a surface: the
      last render effect emitted is a ShowRender exactly in RenderPending and Staged, exactly when
      the current rung is a render rung, and a hardware blank issued from a render rung comes
      after the teardown. */
  lemma NoOrphanedOverlay(timings: Timings, ladder: seq<LadderStage>, t0: Instant, es: seq<Event>, i: nat)
    requires i <= |es| && OverlaySafe(ladder) && OnlyScheduled(NewWheel(timings, ladder, t0), es)
    requires NeverSlipsOff(New(timings, ladder, t0), es, i)
    ensures var m := At(New(timings, ladder, t0), es, i);
            && (SurfaceUp(New(timings, ladder, t0), es, i) <==> InLadderRender(m.phase))
            && (OnRenderRung(m) <==> InLadderRender(m.phase))
    ensures var m := At(New(timings, ladder, t0), es, i);
            i < |es| && InLadderRender(m.phase) ==> TornDownFirst(Apply(m, es[i]).fx)
  {
    hide Apply, OnlyScheduled, OverlaySafe, Brink, SlipsOff, TornDownFirst, UpAfter, At, SurfaceUp, New, Sturdy;
    SafeNeverOrphans(timings, ladder, t0, es, i);
    SurfaceFollowsPhase(timings, ladder, t0, es, i);
    if i < |es| && InLadderRender(At(New(timings, ladder, t0), es, i).phase) {
      TornDownOrSilent(At(New(timings, ladder, t0), es, i), es[i]);
    }
  }

  lemma TornDownOrSilent(m: Machine, e: Event)
    requires Coherent(m) && InLadderRender(m.phase)
    ensures TornDownFirst(Apply(m, e).fx)
  {
    hide Apply, Coherent, Brink, SlipsOff;
    if Brink(m, e) {
      BrinkBlanksNothing(m, e);
    } else if SlipsOff(m, e) {
      SlipBlanksNothing(m, e);
    } else {
      EveryStepFits(m, e);
    }
  }

  lemma BrinkBlanksNothing(m: Machine, e: Event)
    requires Brink(m, e)
    ensures TornDownFirst(Apply(m, e).fx)
  {
    hide StepActive, StepGrace, StepBlanking, StepBlanked, StepWaking, StepRenderPending;
    OffLadder(m, NextRung(m), e.now, CStageTick);
  }

  lemma SlipBlanksNothing(m: Machine, e: Event)
    requires SlipsOff(m, e)
    ensures TornDownFirst(Apply(m, e).fx)
  {
    hide StepActive, StepGrace, StepBlanking, StepBlanked, StepWaking;
  }
}
