/** Where the code does not do what its comments say: each gap with the run or the state that
    shows it, and what follows from it. */
module KnownGaps {
  import opened DisplayTypes
  import opened DisplaySpec
  import opened DisplayRuns
  import opened StageTicks
  import opened Deadlines
  import PresentRooms
  import Reach = LadderReach
  import Surfaces

  // ── The frozen-countdown leak ───────────────────────────────────────────

  /** An unowned panel, staged by an operator in an absent room, paused until `end`, regains
      ownership: the machine wakes with a frozen Grace countdown left behind. */
  function LeakingRun(end: Instant, now: Instant): seq<Event> {
    [Feed(OwnershipChanged(false), now), Feed(ZonePresent(false), now), Feed(SoftBlank, now),
     Feed(Pause(Some(end)), now), Feed(OwnershipChanged(true), now)]
  }

  lemma LeakReached(timings: Timings, ladder: seq<LadderStage>, t0: Instant, end: Instant, now: Instant)
    requires ladder != [] && ladder[0].kind.IsRender()
    ensures var m := Fold(New(timings, ladder, t0), LeakingRun(end, now));
            && m.phase.Waking? && m.graceFrozen == Some(timings.gracePeriod) && !FrozenPlaced(m.(phase := Blanking))
            && m.overlays == Overlays(false, Some(PauseState(Some(end)))) && m.zone == Some(false) && m.owned
            && m.cfg == New(timings, ladder, t0).cfg && m.cmds.lastWake.None?
  {
    var es := LeakingRun(end, now);
    var m1 := Apply(New(timings, ladder, t0), es[0]).m;
    var m2 := Apply(m1, es[1]).m;
    var m3 := Apply(m2, es[2]).m;
    var m4 := Apply(m3, es[3]).m;
    var m5 := Apply(m4, es[4]).m;
    assert m2.phase.Grace?;
    assert m3.phase.RenderPending?;
    assert m5.phase.Waking?;
    assert Fold(m4, es[4..]) == Fold(m5, es[5..]);
    assert Fold(m3, es[3..]) == Fold(m4, es[4..]);
    assert Fold(m2, es[2..]) == Fold(m3, es[3..]);
    assert Fold(m1, es[1..]) == Fold(m2, es[2..]);
  }

  /** What the leak can cost: forced dark, seen occupied, ticked when the pause ends. */
  function ForcedRun(end: Instant, now: Instant): seq<Event> {
    [Feed(ForceBlank, now), Feed(ZonePresent(true), now), Feed(Tick, end)]
  }

  lemma ForcedLeak(m: Machine, end: Instant, now: Instant)
    requires m.phase.Waking? && m.graceFrozen == Some(m.cfg.timings.gracePeriod) && m.owned
    requires m.overlays == Overlays(false, Some(PauseState(Some(end)))) && m.cmds.lastWake.None?
    ensures var n := Fold(m, ForcedRun(end, now));
            && n.phase == Grace(end + m.cfg.timings.gracePeriod) && n.graceFrozen.None?
            && n.zone == Some(true) && n.overlays == Overlays(false, None) && n.owned && n.pendingWake
            && n.cfg == m.cfg && n.cmds.lastWake.None?
  {
    var es := ForcedRun(end, now);
    var m1 := Apply(m, es[0]).m;
    var m2 := Apply(m1, es[1]).m;
    var m3 := Apply(m2, es[2]).m;
    assert Fold(m2, es[2..]) == Fold(m3, es[3..]);
    assert Fold(m1, es[1..]) == Fold(m2, es[2..]);
  }

  /** The two together end with an overlay raised in a room whose last report is presence,
      no operator having asked for it since, in every configuration with a render rung first. */
  lemma PresentRoomDarkened(timings: Timings, ladder: seq<LadderStage>, t0: Instant, end: Instant, now: Instant)
    requires ladder != [] && ladder[0].kind.IsRender()
    requires Since(end + timings.gracePeriod, t0) >= timings.startupHoldoff
    ensures var m := Fold(New(timings, ladder, t0), LeakingRun(end, now) + ForcedRun(end, now));
            m.zone == Some(true) && PresentRooms.Darkens(Apply(m, Feed(Tick, end + timings.gracePeriod)).fx)
  {
    hide Fold, Apply, New;
    LeakReached(timings, ladder, t0, end, now);
    var leaked := Fold(New(timings, ladder, t0), LeakingRun(end, now));
    FoldConcat(New(timings, ladder, t0), LeakingRun(end, now), ForcedRun(end, now));
    NewConfig(timings, ladder, t0);
    ForcedLeak(leaked, end, now);
    ExpiryDarkens(Fold(leaked, ForcedRun(end, now)), end + timings.gracePeriod);
  }

  lemma NewConfig(timings: Timings, ladder: seq<LadderStage>, t0: Instant)
    ensures var c := New(timings, ladder, t0).cfg; c.timings == timings && c.ladder == ladder && c.startedAt == t0
  {
  }

  lemma ExpiryDarkens(m: Machine, now: Instant)
    requires m.phase.Grace? && m.graceFrozen.None? && m.overlays == Overlays(false, None) && m.owned
    requires m.phase.until <= now && m.cmds.lastWake.None? &&
             Since(now, m.cfg.startedAt) >= m.cfg.timings.startupHoldoff
    requires m.cfg.ladder != [] && m.cfg.ladder[0].kind.IsRender()
    ensures PresentRooms.Darkens(Apply(m, Feed(Tick, now)).fx)
  {
    var fx := Apply(m, Feed(Tick, now)).fx;
    assert fx[1].ShowRender?;
  }

  /** What else it can cost: on every validated ladder with a render rung that has a dwell - also
      where the last rung is safe - a run from `new`, fed only scheduled stage ticks, that leaves
      the overlay up in Grace; and no such run avoids the forced leak. */
  lemma ForcedLeakOrphans(timings: Timings, ladder: seq<LadderStage>, t0: Instant) returns (es: seq<Event>)
    requires Reach.Validated(ladder) && Reach.TimedRender(ladder)
    ensures OnlyScheduled(NewWheel(timings, ladder, t0), es)
    ensures Surfaces.SurfaceUp(New(timings, ladder, t0), es, |es|) &&
            !InLadderRender(At(New(timings, ladder, t0), es, |es|).phase)
    ensures Surfaces.OverlaySafe(ladder) ==> !LeakNeverForced(New(timings, ladder, t0), es)
  {
    hide OnlyScheduled, LeakNeverForced, At, New, Surfaces.SurfaceUp, Surfaces.OverlaySafe, Reach.TimedRenderAt;
    var k: nat :| k < |ladder| && Reach.TimedRenderAt(ladder, k);
    es := Reach.OrphaningRun(timings, ladder, t0, k);
    if Surfaces.OverlaySafe(ladder) && LeakNeverForced(New(timings, ladder, t0), es) {
      UnforcedNeverSlipsOff(timings, ladder, t0, es);
      Surfaces.NoOrphanedOverlay(timings, ladder, t0, es, |es|);
    }
  }

  lemma UnforcedNeverSlipsOff(timings: Timings, ladder: seq<LadderStage>, t0: Instant, es: seq<Event>)
    requires LeakNeverForced(New(timings, ladder, t0), es)
    ensures Surfaces.NeverSlipsOff(New(timings, ladder, t0), es, |es|)
  {
    hide LeakNeverForced, At, New, Core, Slips;
    forall i | 0 <= i < |es| ensures !Surfaces.SlipsOff(At(New(timings, ladder, t0), es, i), es[i]) {
      CoreThroughout(timings, ladder, t0, es, i);
      CoreNeverSlips(At(New(timings, ladder, t0), es, i), es[i]);
    }
  }

  // ── A countdown without a tick ──────────────────────────────────────────

  /** The leaking run, the forced run with the pause's own tick, then ownership lost over the end
      of the revived countdown and regained. */
  function ForgettingRun(grace: Duration, end: Instant, now: Instant): seq<Arrival> {
    [Other(Feed(OwnershipChanged(false), now)), Other(Feed(ZonePresent(false), now)), Other(Feed(SoftBlank, now)),
     Other(Feed(Pause(Some(end)), now)), Other(Feed(OwnershipChanged(true), now)),
     Other(Feed(ForceBlank, now)), Other(Feed(ZonePresent(true), now)), Due(end, end),
     Other(Feed(OwnershipChanged(false), end)), Due(end + grace, end + grace),
     Other(Feed(OwnershipChanged(true), end + grace))]
  }

  /** Arrival by arrival. */
  predicate Forgetful(ds: seq<Arrival>, grace: Duration, end: Instant, now: Instant) {
    && |ds| == 11
    && ds[0] == Other(Feed(OwnershipChanged(false), now)) && ds[1] == Other(Feed(ZonePresent(false), now))
    && ds[2] == Other(Feed(SoftBlank, now)) && ds[3] == Other(Feed(Pause(Some(end)), now))
    && ds[4] == Other(Feed(OwnershipChanged(true), now)) && ds[5] == Other(Feed(ForceBlank, now))
    && ds[6] == Other(Feed(ZonePresent(true), now)) && ds[7] == Due(end, end)
    && ds[8] == Other(Feed(OwnershipChanged(false), end)) && ds[9] == Due(end + grace, end + grace)
    && ds[10] == Other(Feed(OwnershipChanged(true), end + grace))
  }

  lemma RunShape(grace: Duration, end: Instant, now: Instant)
    ensures Forgetful(ForgettingRun(grace, end, now), grace, end, now)
  {
  }

  lemma OneTick(fx: seq<Effect>, k: nat)
    requires k < |fx| && fx[k].ScheduleTickAt? && forall j :: 0 <= j < |fx| && j != k ==> !fx[j].ScheduleTickAt?
    ensures TicksOf(fx) == multiset{fx[k].at}
    decreases k
  {
    if k > 0 {
      OneTick(fx[1..], k - 1);
    } else {
      NoTick(fx[1..]);
    }
  }

  lemma NoTick(fx: seq<Effect>)
    requires forall j :: 0 <= j < |fx| ==> !fx[j].ScheduleTickAt?
    ensures TicksOf(fx) == multiset{}
  {
    if fx != [] {
      NoTick(fx[1..]);
    }
  }

  /** A delivery, seen through the step it causes. */
  lemma Posts(a: Agenda, input: Input, now: Instant)
    ensures var b := Deliver(a, Other(Feed(input, now)));
            b.m == Step(a.m, input, now).m && b.due == a.due + TicksOf(Step(a.m, input, now).fx)
    ensures var b := Deliver(a, Due(now, now));
            b.m == Step(a.m, Tick, now).m && b.due == a.due - multiset{now} + TicksOf(Step(a.m, Tick, now).fx)
  {
    hide Step, TicksOf, IssuesWake;
  }

  lemma ClearedStep(m: Machine, now: Instant)
    requires m.phase.Active? && m.overlays == Overlays(false, None)
    ensures var o := Step(m, ZonePresent(false), now);
            && o.m == m.(zone := Some(false), phase := Grace(now + m.cfg.timings.gracePeriod), graceFrozen := None)
            && TicksOf(o.fx) == multiset{now + m.cfg.timings.gracePeriod}
  {
    hide StepGrace, StepBlanking, StepBlanked, StepWaking, StepRenderPending, StepStaged;
    OneTick(Step(m, ZonePresent(false), now).fx, 1);
  }

  lemma SoftStep(m: Machine, now: Instant)
    requires m.phase.Grace? && m.cfg.ladder != [] && m.cfg.ladder[0].kind.IsRender()
    ensures var o := Step(m, SoftBlank, now);
            o.m == m.(phase := o.m.phase, stage := o.m.stage, graceFrozen := None) && o.m.phase.RenderPending? &&
              TicksOf(o.fx) == multiset{}
  {
    hide StepActive, StepBlanking, StepBlanked, StepWaking, StepRenderPending, StepStaged, EnterActive;
    NoTick(Step(m, SoftBlank, now).fx);
  }

  lemma PauseStep(m: Machine, end: Instant, now: Instant)
    requires m.phase.RenderPending?
    ensures var o := Step(m, Pause(Some(end)), now);
            o.m == m.(overlays := m.overlays.(paused := Some(PauseState(Some(end))))) && TicksOf(o.fx) == multiset{end}
  {
    hide StepActive, StepGrace, StepBlanking, StepBlanked, StepWaking, StepStaged;
    OneTick(Step(m, Pause(Some(end)), now).fx, 0);
  }

  lemma LeakStepTaken(m: Machine, now: Instant)
    requires m.phase.RenderPending? && m.zone == Some(false) && m.overlays.paused.Some? && !m.inputWakeHold
    ensures var o := Step(m, OwnershipChanged(true), now);
            && o.m == m.(owned := true, phase := Waking, graceFrozen := Some(m.cfg.timings.gracePeriod),
                         stage := o.m.stage, cmds := o.m.cmds)
            && o.m.cmds.lastWake == m.cmds.lastWake
            && TicksOf(o.fx) == multiset{now + m.cfg.timings.wakeRetryInterval}
  {
    hide StepActive, StepGrace, StepBlanking, StepBlanked, StepWaking, StepStaged;
    var o := Step(m, OwnershipChanged(true), now);
    assert |o.fx| == 6 && o.fx[5].ScheduleTickAt?;
    OneTick(o.fx, 5);
  }

  lemma ForceStep(m: Machine, now: Instant)
    requires m.phase.Waking?
    ensures var o := Step(m, ForceBlank, now);
            o.m == m.(phase := Blanking, cmds := o.m.cmds) && o.m.cmds.lastWake == m.cmds.lastWake &&
              TicksOf(o.fx) == multiset{}
  {
    hide StepActive, StepGrace, StepBlanking, StepBlanked, StepRenderPending, StepStaged;
    NoTick(Step(m, ForceBlank, now).fx);
  }

  lemma SeenStep(m: Machine, now: Instant)
    requires m.phase.Blanking?
    ensures var o := Step(m, ZonePresent(true), now);
            o.m == m.(zone := Some(true), pendingWake := true) && TicksOf(o.fx) == multiset{}
  {
    hide StepActive, StepGrace, StepBlanked, StepWaking, StepRenderPending, StepStaged;
    NoTick(Step(m, ZonePresent(true), now).fx);
  }

  lemma SlipStep(m: Machine, now: Instant)
    requires m.phase.Blanking? && Slips(m, Feed(Tick, now))
    ensures var o := Step(m, Tick, now);
            var until := now + m.graceFrozen.value;
            && o.m == m.(phase := Grace(until), graceFrozen := None, overlays := Overlays(false, None))
            && TicksOf(o.fx) == multiset{until}
  {
    hide StepActive, StepGrace, StepBlanked, StepWaking, StepRenderPending, StepStaged;
    OneTick(Step(m, Tick, now).fx, 0);
  }

  lemma LoseStep(m: Machine, now: Instant)
    requires m.phase.Grace?
    ensures var o := Step(m, OwnershipChanged(false), now); o.m == m.(owned := false) && TicksOf(o.fx) == multiset{}
  {
    hide StepActive, StepBlanking, StepBlanked, StepWaking, StepRenderPending, StepStaged, EnterActive, EnterLadder;
    NoTick([]);
  }

  lemma LapseStep(m: Machine, now: Instant)
    requires Live(m) && !m.owned && m.overlays == Overlays(false, None) && GateOpensAt(m, now).None?
    ensures var o := Step(m, Tick, now); o.m == m && TicksOf(o.fx) == multiset{}
  {
    hide StepActive, StepBlanking, StepBlanked, StepWaking, StepRenderPending, StepStaged, EnterActive, EnterLadder,
         GateOpensAt;
    NoTick([]);
  }

  lemma RegainStep(m: Machine, now: Instant)
    requires Live(m) && !m.owned && m.zone == Some(true)
    ensures var o := Step(m, OwnershipChanged(true), now); o.m == m.(owned := true) && TicksOf(o.fx) == multiset{}
  {
    hide Step;
    UnclaimedGain(m, OwnershipChanged(true), now);
    NoTick([]);
  }

  /** Delivery by delivery, what is left on the agenda: soft blank, pause, the leaking gain... */
  lemma ToWaking(z: Agenda, ds: seq<Arrival>, end: Instant, now: Instant) returns (b: Agenda)
    requires |ds| > 5 && ds[2] == Other(Feed(SoftBlank, now)) && ds[3] == Other(Feed(Pause(Some(end)), now))
    requires ds[4] == Other(Feed(OwnershipChanged(true), now))
    requires var a := AgendaAt(z, ds, 2);
             && a.m.phase.Grace? && a.m.zone == Some(false) && a.m.overlays == Overlays(false, None) &&
                  !a.m.inputWakeHold
             && a.m.cfg.ladder != [] && a.m.cfg.ladder[0].kind.IsRender()
    ensures b == AgendaAt(z, ds, 5)
    ensures var a := AgendaAt(z, ds, 2);
            && b.m.phase.Waking? && b.m.graceFrozen == Some(a.m.cfg.timings.gracePeriod) && b.m.owned &&
                 b.m.cfg == a.m.cfg
            && b.m.overlays == Overlays(false, Some(PauseState(Some(end)))) && b.m.cmds.lastWake == a.m.cmds.lastWake
            && b.due == a.due + multiset{end} + multiset{now + a.m.cfg.timings.wakeRetryInterval}
  {
    hide Step, Deliver, TicksOf, AgendaAt;
    var a := AgendaAt(z, ds, 2);
    SoftStep(a.m, now);
    Posts(a, SoftBlank, now);
    var a3 := Following(z, ds, 2);
    PauseStep(a3.m, end, now);
    Posts(a3, Pause(Some(end)), now);
    var a4 := Following(z, ds, 3);
    LeakStepTaken(a4.m, now);
    Posts(a4, OwnershipChanged(true), now);
    b := Following(z, ds, 4);
  }

  /** ...the forced blank, presence... */
  lemma ToSeen(z: Agenda, ds: seq<Arrival>, now: Instant) returns (b: Agenda)
    requires |ds| > 7 && ds[5] == Other(Feed(ForceBlank, now)) && ds[6] == Other(Feed(ZonePresent(true), now))
    requires AgendaAt(z, ds, 5).m.phase.Waking?
    ensures b == AgendaAt(z, ds, 7) && b.due == AgendaAt(z, ds, 5).due
    ensures var a := AgendaAt(z, ds, 5);
            && b.m == a.m.(phase := Blanking, cmds := b.m.cmds, zone := Some(true), pendingWake := true)
            && b.m.cmds.lastWake == a.m.cmds.lastWake
  {
    hide Step, Deliver, TicksOf, AgendaAt;
    var a := AgendaAt(z, ds, 5);
    ForceStep(a.m, now);
    Posts(a, ForceBlank, now);
    var a6 := Following(z, ds, 5);
    SeenStep(a6.m, now);
    Posts(a6, ZonePresent(true), now);
    b := Following(z, ds, 6);
  }

  /** ...the end of the pause... */
  lemma ToRevival(z: Agenda, ds: seq<Arrival>, end: Instant) returns (b: Agenda)
    requires |ds| > 8 && ds[7] == Due(end, end)
    requires var a := AgendaAt(z, ds, 7);
             a.m.phase.Blanking? && a.m.graceFrozen.Some? &&
               a.m.overlays == Overlays(false, Some(PauseState(Some(end))))
    ensures b == AgendaAt(z, ds, 8)
    ensures var a := AgendaAt(z, ds, 7);
            var until := end + a.m.graceFrozen.value;
            && b.m == a.m.(phase := Grace(until), graceFrozen := None, overlays := Overlays(false, None))
            && b.due == a.due - multiset{end} + multiset{until}
  {
    hide Step, Deliver, TicksOf, AgendaAt;
    var a := AgendaAt(z, ds, 7);
    SlipStep(a.m, end);
    Posts(a, Tick, end);
    b := Following(z, ds, 7);
  }

  /** ...ownership lost, the countdown's own tick, ownership regained. */
  lemma ToForgotten(z: Agenda, ds: seq<Arrival>, end: Instant, until: Instant) returns (b: Agenda)
    requires |ds| > 10 && ds[8] == Other(Feed(OwnershipChanged(false), end)) && ds[9] == Due(until, until)
    requires ds[10] == Other(Feed(OwnershipChanged(true), until))
    requires var a := AgendaAt(z, ds, 8);
             && Live(a.m) && a.m.phase.until == until && a.m.zone == Some(true) && a.m.overlays == Overlays(false, None)
             && GateOpensAt(a.m, until).None?
    ensures b == AgendaAt(z, ds, 11) && AgendaAt(z, ds, 9).due == AgendaAt(z, ds, 8).due
    ensures Live(b.m) && b.m.owned && b.m.phase.until == until && b.due == AgendaAt(z, ds, 8).due - multiset{until}
  {
    hide Step, Deliver, TicksOf, AgendaAt, GateOpensAt;
    var a := AgendaAt(z, ds, 8);
    LoseStep(a.m, end);
    Posts(a, OwnershipChanged(false), end);
    var a9 := Following(z, ds, 8);
    SameGates(a.m, until);
    LapseStep(a9.m, until);
    Posts(a9, Tick, until);
    var a10 := Following(z, ds, 9);
    RegainStep(a10.m, until);
    Posts(a10, OwnershipChanged(true), until);
    b := Following(z, ds, 10);
  }

  lemma SameGates(m: Machine, now: Instant)
    ensures GateOpensAt(m.(owned := false), now) == GateOpensAt(m, now)
  {
  }

  lemma OpenGates(m: Machine, now: Instant)
    requires m.cmds.lastWake.None? && Since(now, m.cfg.startedAt) >= m.cfg.timings.startupHoldoff
    ensures GateOpensAt(m, now).None?
  {
  }

  /** Outstanding after the leak: the first countdown's end, the pause's end and the retry. */
  predicate ThreeLeft(due: multiset<Instant>, g: Instant, end: Instant, r: Instant) {
    due == multiset{} + multiset{g} + multiset{end} + multiset{r}
  }

  lemma PutAndTaken(due: multiset<Instant>, g: Instant, end: Instant, r: Instant, until: Instant)
    requires ThreeLeft(due, g, end, r) && g < until && r < until
    ensures end in due && until in due - multiset{end} + multiset{until}
    ensures !Covered(due - multiset{end} + multiset{until} - multiset{until}, until)
  {
    assert due - multiset{end} + multiset{until} - multiset{until} == multiset{g, r};
  }

  lemma RunDeliverable(a: Agenda, ds: seq<Arrival>, grace: Duration, end: Instant, now: Instant)
    requires Forgetful(ds, grace, end, now)
    requires end in AgendaAt(a, ds, 7).due && end + grace in AgendaAt(a, ds, 9).due
    ensures AllDeliverable(a, ds)
  {
    hide AgendaAt;
    forall i | 0 <= i < 11 ensures Deliverable(AgendaAt(a, ds, i), ds[i]) {
      assert ds[i].Due? ==> i == 7 || i == 9;
    }
  }

  lemma FromLeakToForgotten(z: Agenda, ds: seq<Arrival>, grace: Duration, end: Instant, now: Instant, until: Instant)
    requires Forgetful(ds, grace, end, now) && until == end + grace
    requires var a := AgendaAt(z, ds, 5);
             && a.m.phase.Waking? && a.m.graceFrozen == Some(grace) && a.m.cmds.lastWake.None?
             && a.m.overlays == Overlays(false, Some(PauseState(Some(end))))
             && Since(until, a.m.cfg.startedAt) >= a.m.cfg.timings.startupHoldoff
    ensures AgendaAt(z, ds, 7).due == AgendaAt(z, ds, 5).due
    ensures AgendaAt(z, ds, 9).due == AgendaAt(z, ds, 5).due - multiset{end} + multiset{until}
    ensures var b := AgendaAt(z, ds, 11);
            && Live(b.m) && b.m.owned && b.m.phase.until == until
            && b.due == AgendaAt(z, ds, 5).due - multiset{end} + multiset{until} - multiset{until}
  {
    hide AgendaAt, GateOpensAt;
    var a7 := ToSeen(z, ds, now);
    var a8 := ToRevival(z, ds, end);
    OpenGates(a8.m, until);
    var a11 := ToForgotten(z, ds, end, until);
  }

  /** A machine fresh from `new`, with nothing outstanding. */
  predicate Unused(a: Agenda) {
    && a.m.phase.Active? && a.m.overlays == Overlays(false, None) && !a.m.inputWakeHold
    && a.m.cmds.lastWake.None? && a.due == multiset{}
  }

  lemma LeakedAgenda(a: Agenda, ds: seq<Arrival>, grace: Duration, end: Instant, now: Instant)
    requires Unused(a) && a.m.cfg.ladder != [] && a.m.cfg.ladder[0].kind.IsRender() && Forgetful(ds, grace, end, now)
    ensures var b := AgendaAt(a, ds, 5);
            var t := a.m.cfg.timings;
            && b.m.phase.Waking? && b.m.graceFrozen == Some(t.gracePeriod) && b.m.cfg == a.m.cfg &&
                 b.m.cmds.lastWake.None?
            && b.m.overlays == Overlays(false, Some(PauseState(Some(end))))
            && ThreeLeft(b.due, now + t.gracePeriod, end, now + t.wakeRetryInterval)
  {
    hide AgendaAt;
    var a2 := ToCleared(a, ds, now);
    var a5 := ToWaking(a, ds, end, now);
  }

  lemma ToCleared(a: Agenda, ds: seq<Arrival>, now: Instant) returns (b: Agenda)
    requires a.m.phase.Active? && a.m.overlays == Overlays(false, None)
    requires |ds| > 2 && ds[0] == Other(Feed(OwnershipChanged(false), now)) &&
             ds[1] == Other(Feed(ZonePresent(false), now))
    ensures b == AgendaAt(a, ds, 2)
    ensures var grace := Grace(now + a.m.cfg.timings.gracePeriod);
            b.m == a.m.(owned := false, zone := Some(false), phase := grace, graceFrozen := None) &&
            b.due == a.due + multiset{now + a.m.cfg.timings.gracePeriod}
  {
    hide Step, Deliver, TicksOf, AgendaAt;
    assert AgendaAt(a, ds, 0) == a by { Zeroth(a, ds); }
    ActiveLoses(a.m, now);
    Posts(a, OwnershipChanged(false), now);
    var a1 := Following(a, ds, 0);
    ClearedStep(a1.m, now);
    Posts(a1, ZonePresent(false), now);
    b := Following(a, ds, 1);
  }

  lemma Zeroth(a: Agenda, ds: seq<Arrival>)
    ensures AgendaAt(a, ds, 0) == a
  {
  }

  lemma ActiveLoses(m: Machine, now: Instant)
    requires m.phase.Active?
    ensures var o := Step(m, OwnershipChanged(false), now); o.m == m.(owned := false) && TicksOf(o.fx) == multiset{}
  {
    hide StepGrace, StepBlanking, StepBlanked, StepWaking, StepRenderPending, StepStaged;
    NoTick([]);
  }

  lemma Following(a: Agenda, ds: seq<Arrival>, i: nat) returns (b: Agenda)
    requires i < |ds|
    ensures b == AgendaAt(a, ds, i + 1) == Deliver(AgendaAt(a, ds, i), ds[i])
  {
    NextAgenda(a, ds, i);
    b := AgendaAt(a, ds, i + 1);
  }

  /** The two ticks delivered are outstanding, and in the end none is left. */
  lemma NoneLeft(a: Agenda, ds: seq<Arrival>, end: Instant, now: Instant)
    requires var t := a.m.cfg.timings;
             && Unused(a) && a.m.cfg.ladder != [] && a.m.cfg.ladder[0].kind.IsRender()
             && Forgetful(ds, t.gracePeriod, end, now) && now + t.wakeRetryInterval < end
             && Since(end + t.gracePeriod, a.m.cfg.startedAt) >= t.startupHoldoff
    ensures |ds| == 11
    ensures end in AgendaAt(a, ds, 7).due && end + a.m.cfg.timings.gracePeriod in AgendaAt(a, ds, 9).due
    ensures !GraceOwed(AgendaAt(a, ds, 11))
  {
    hide *;
    var t := a.m.cfg.timings;
    assert |ds| == 11 by { Eleven(ds, t.gracePeriod, end, now); }
    LeakedAgenda(a, ds, t.gracePeriod, end, now);
    FromLeakToForgotten(a, ds, t.gracePeriod, end, now, end + t.gracePeriod);
    PutAndTaken(AgendaAt(a, ds, 5).due, now + t.gracePeriod, end, now + t.wakeRetryInterval, end + t.gracePeriod);
    OwesNothingLeft(AgendaAt(a, ds, 11), end + t.gracePeriod);
  }

  lemma OwesNothingLeft(b: Agenda, until: Instant)
    requires Live(b.m) && b.m.owned && b.m.phase.until == until && !Covered(b.due, until)
    ensures !GraceOwed(b)
  {
    hide Covered;
  }

  lemma Eleven(ds: seq<Arrival>, grace: Duration, end: Instant, now: Instant)
    requires Forgetful(ds, grace, end, now)
    ensures |ds| == 11
  {
  }

  /** In every configuration with a render rung first, a run from `new` that delivers only
      scheduled ticks ends with a running owned countdown and no tick left to end it. */
  lemma ForcedLeakForgets(timings: Timings, ladder: seq<LadderStage>, t0: Instant, end: Instant, now: Instant)
    requires ladder != [] && ladder[0].kind.IsRender() && now + timings.wakeRetryInterval < end
    requires Since(end + timings.gracePeriod, t0) >= timings.startupHoldoff
    ensures var a := NewAgenda(timings, ladder, t0);
            var ds := ForgettingRun(timings.gracePeriod, end, now);
            AllDeliverable(a, ds) && !GraceOwed(AgendaAt(a, ds, |ds|))
  {
    hide New, AgendaAt, ForgettingRun, GraceOwed, AllDeliverable, Forgetful, Unused;
    var a := NewAgenda(timings, ladder, t0);
    var ds := ForgettingRun(timings.gracePeriod, end, now);
    RunShape(timings.gracePeriod, end, now);
    NewConfig(timings, ladder, t0);
    FreshAgenda(timings, ladder, t0);
    NoneLeft(a, ds, end, now);
    RunDeliverable(a, ds, timings.gracePeriod, end, now);
  }

  lemma FreshAgenda(timings: Timings, ladder: seq<LadderStage>, t0: Instant)
    ensures Unused(NewAgenda(timings, ladder, t0))
  {
  }

  // ── Restored phases ─────────────────────────────────────────────────────

  /** Restored into Blanking, no run of any inputs ever leaves it. */
  lemma {:induction false} RestoredBlankingWedges(timings: Timings, ladder: seq<LadderStage>, cmdGen: nat, t0: Instant,
                                                  es: seq<Event>, i: nat)
    requires i <= |es|
    ensures var m := At(Restore(timings, ladder, Blanking, cmdGen, t0).m, es, i);
            m.phase.Blanking? && m.cmds.lastBlankGen.None? && m.graceFrozen.None?
  {
    hide Apply;
    if i > 0 {
      RestoredBlankingWedges(timings, ladder, cmdGen, t0, es, i - 1);
      UnawaitedBlanking(At(Restore(timings, ladder, Blanking, cmdGen, t0).m, es, i - 1), es[i - 1]);
    }
  }

  lemma UnawaitedBlanking(m: Machine, e: Event)
    requires m.phase.Blanking? && m.cmds.lastBlankGen.None? && m.graceFrozen.None?
    ensures var n := Apply(m, e).m; n.phase.Blanking? && n.cmds.lastBlankGen.None? && n.graceFrozen.None?
  {
    hide StepActive, StepGrace, StepBlanked, StepWaking, StepRenderPending, StepStaged;
  }

  /** Restored into Grace, the first tick at its end darkens the panel without any report of
      absence, exactly when the startup holdoff is over. */
  lemma RestoredGraceAssumesAbsence(timings: Timings, ladder: seq<LadderStage>, cmdGen: nat, t0: Instant,
                                    until: Instant, now: Instant)
    requires ladder != [] && until <= now
    ensures var m := Restore(timings, ladder, Grace(until), cmdGen, t0).m;
            && m.zone.None?
            && (PresentRooms.Darkens(Step(m, Tick, now).fx) <==> Since(now, t0) >= timings.startupHoldoff)
  {
    hide StepActive, StepBlanking, StepBlanked, StepWaking, StepRenderPending, StepStaged;
    var m := Restore(timings, ladder, Grace(until), cmdGen, t0).m;
    if Since(now, t0) >= timings.startupHoldoff {
      assert PresentRooms.Dims(Step(m, Tick, now).fx[1]);
    }
  }

  /** Restored into Waking, a machine waits for its retry: no answer counts, old or new, and the tick
      it scheduled sends a wake numbered after every command of its former life, and the next retry. */
  lemma RestoredWakingRetries(timings: Timings, ladder: seq<LadderStage>, cmdGen: nat, t0: Instant, gen: nat, ok: bool,
                              now: Instant)
    ensures var r := Restore(timings, ladder, Waking, cmdGen, t0);
            var retry := t0 + timings.wakeRetryInterval;
            var o := Step(r.m, Tick, retry);
            && r.fx == [ScheduleTickAt(retry)]
            && Step(r.m, WakeResult(gen, ok), now) == Out(r.m, [])
            && o.m.phase.Waking? && o.m.cmds.gen == cmdGen + 1 && o.m.cmds.lastWakeGen == Some(cmdGen + 1)
            && IssueWake(cmdGen + 1) in o.fx && ScheduleTickAt(retry + timings.wakeRetryInterval) in o.fx
  {
    hide StepActive, StepGrace, StepBlanking, StepBlanked, StepRenderPending, StepStaged, PrimaryBlankMode;
    var r := Restore(timings, ladder, Waking, cmdGen, t0);
    var o := Step(r.m, Tick, t0 + timings.wakeRetryInterval);
    assert o.fx[1] == IssueWake(cmdGen + 1);
  }

  /** Restored into Grace, a machine is ticked at the countdown's end, and darkens under a number after
      every command of its former life. */
  lemma RestoredGraceIsTicked(timings: Timings, ladder: seq<LadderStage>, cmdGen: nat, t0: Instant, until: Instant)
    requires ladder != [] && ladder[0].kind.Controller? && until >= t0 + timings.startupHoldoff
    ensures var r := Restore(timings, ladder, Grace(until), cmdGen, t0);
            && r.fx == [ScheduleTickAt(until)]
            && Step(r.m, Tick, until).m.phase.Blanking? && Step(r.m, Tick, until).m.cmds.gen == cmdGen + 1
  {
    hide StepActive, StepBlanking, StepBlanked, StepWaking, StepRenderPending, StepStaged, PrimaryBlankMode;
  }

  // ── Ladder timing ───────────────────────────────────────────────────────

  /** A stage tick armed before a ForceBlank still counts after it, and restarts the ladder. */
  lemma OldTickAfterForceBlank(m: Machine, now: Instant, later: Instant)
    requires Core(m) && m.phase.Staged? && StageTickAccepted(m, m.stage.gen) && m.cfg.ladder != []
    ensures var b := Step(Step(m, ForceBlank, now).m, BlankResult(m.cmds.gen + 1, true), now).m;
            var o := Step(b, StageTick(m.stage.gen), later);
            b.phase.Blanked? && Arrives(b, o) && o.m.stage.current == Some(0)
  {
    hide StepActive, StepGrace, StepWaking, StepRenderPending;
    var f := Step(m, ForceBlank, now).m;
    assert f.phase.Blanking?;
  }

  /** Neither released nor resumed. */
  predicate Unreleased(es: seq<Event>) {
    forall k :: 0 <= k < |es| && es[k].Feed? ==> !es[k].input.Resume? && es[k].input != InhibitorChanged(false)
  }

  lemma FrozenDwellStays(m: Machine, e: Event)
    requires m.phase.Staged? && m.stage.frozen.Some? && Apply(m, e).m.phase.Staged?
    requires e.Feed? ==> !e.input.Resume? && e.input != InhibitorChanged(false)
    ensures Apply(m, e).m.stage.frozen.Some?
  {
    hide StepActive, StepGrace, StepBlanking, StepBlanked, StepWaking, StepRenderPending, EnterActive, EnterLadder;
    LeadsAwake();
  }

  /** In every run that neither releases an inhibitor nor resumes, for as long as the rung lasts,
      no stage tick is accepted again. */
  lemma {:induction false} DwellStaysFrozen(m: Machine, es: seq<Event>, i: nat, gen: nat, now: Instant)
    requires m.phase.Staged? && m.stage.frozen.Some? && Unreleased(es) && i <= |es|
    requires forall j :: 0 <= j <= i ==> At(m, es, j).phase.Staged?
    ensures At(m, es, i).stage.frozen.Some? && Step(At(m, es, i), StageTick(gen), now) == Out(At(m, es, i), [])
  {
    hide Apply;
    if i > 0 {
      DwellStaysFrozen(m, es, i - 1, gen, now);
      assert At(m, es, i).phase.Staged?;
      FrozenDwellStays(At(m, es, i - 1), es[i - 1]);
    }
    IgnoredElsewhere(At(m, es, i), gen, now);
  }

  /** A pause that runs out by itself on a staged rung leaves the dwell frozen: the tick only
      clears the pause, and in every run after it that neither releases an inhibitor nor resumes,
      for as long as the rung lasts, no stage tick is accepted again. */
  lemma AutoResumeLeavesDwellFrozen(m: Machine, now: Instant, es: seq<Event>, i: nat, gen: nat, later: Instant)
    requires Core(m) && m.phase.Staged? && m.stage.frozen.Some? && PauseDue(m, now)
    requires Unreleased(es) && i <= |es| && forall j :: 0 <= j <= i ==> At(Step(m, Tick, now).m, es, j).phase.Staged?
    ensures var o := Step(m, Tick, now);
            && o.m == m.(overlays := m.overlays.(paused := None)) && o.fx == []
            && Step(At(o.m, es, i), StageTick(gen), later) == Out(At(o.m, es, i), [])
  {
    hide StepActive, StepGrace, StepBlanking, StepBlanked, StepWaking, StepRenderPending, Apply;
    DwellStaysFrozen(Step(m, Tick, now).m, es, i, gen, later);
  }

  /** Resume with no pause in force cuts the running dwell short: it re-arms it with nothing
      left. */
  lemma IdleResumeEndsDwell(m: Machine, now: Instant)
    requires Core(m) && m.phase.Staged? && !OverlayOn(m) && m.stage.frozen.None? && DwellOf(m).Some?
    ensures Step(m, Resume, now).fx == [ScheduleStageTickAt(m.stage.gen + 1, now)]
  {
    hide StepActive, StepGrace, StepBlanking, StepBlanked, StepWaking, StepRenderPending;
  }

  /** Releasing the inhibitor restarts the dwell even while a pause is in force. */
  lemma ReleaseIgnoresPause(m: Machine, now: Instant)
    requires Core(m) && m.phase.Staged? && m.overlays.paused.Some? && DwellOf(m).Some?
    ensures var o := Step(m, InhibitorChanged(false), now);
            o.m.overlays.paused.Some? && o.m.stage.frozen.None? && Armed(o.fx) == {m.stage.gen + 1}
  {
    hide StepActive, StepGrace, StepBlanking, StepBlanked, StepWaking, StepRenderPending, RearmStageTick;
    var i := m.(overlays := m.overlays.(inhibited := false));
    RearmShape(i, now);
  }

  lemma RearmShape(m: Machine, now: Instant)
    requires m.stage.current.Some? && DwellOf(m).Some?
    ensures var o := RearmStageTick(m, now);
            Armed(o.fx) == {m.stage.gen + 1} && o.m.stage.frozen.None? && o.m.overlays == m.overlays
  {
    var o := RearmStageTick(m, now);
    assert o.fx[0].ScheduleStageTickAt?;
  }

  /** The current rung outlives the dark: it is still set in Waking after a presence, and in
      Grace after a failed blank, though it is described as None there. */
  lemma StageLingers(m: Machine, now: Instant)
    requires Core(m) && m.stage.current.Some?
    ensures m.phase.Blanked? ==>
              var w := Step(m, ZonePresent(true), now).m; w.phase.Waking? && w.stage.current == m.stage.current
    ensures m.phase.Blanking? && m.zone == Some(false) ==>
              var g := Step(m, BlankResult(m.cmds.gen, false), now).m;
              g.phase.Grace? && g.stage.current == m.stage.current
  {
    hide EnterActive, EnterLadder;
  }
}
