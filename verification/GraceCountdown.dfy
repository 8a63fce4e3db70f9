/** The Grace countdown over whole runs: it is frozen exactly while an overlay is on, it
    conserves unfrozen time, and a panel leaves Grace for the ladder exactly when that time,
    the ownership gate and the two blank gates allow it. */
module GraceCountdown {
  import opened DisplayTypes
  import opened DisplaySpec
  import opened DisplayRuns

  // ── Where the frozen countdown lives ────────────────────────────────────

  predicate FrozenExactly(m: Machine) {
    m.graceFrozen.Some? <==> m.phase.Grace? && OverlayOn(m)
  }

  /** Ownership gained over a render surface, in an absent zone, under an overlay. */
  predicate LeakStep(m: Machine, e: Event) {
    && e.Feed? && e.input == OwnershipChanged(true)
    && InLadderRender(m.phase) && m.zone == Some(false) && OverlayOn(m) && !m.inputWakeHold
  }

  lemma LeakShape(m: Machine, now: Instant)
    requires InLadderRender(m.phase)
    ensures var o := GainOwnership(m, now).m;
            o.graceFrozen.Some? ==>
              LeakStep(m, Feed(OwnershipChanged(true), now)) || (o.phase == m.phase && m.graceFrozen.Some?)
    ensures LeakStep(m, Feed(OwnershipChanged(true), now)) ==>
              var o := GainOwnership(m, now).m; o.phase.Waking? && o.graceFrozen == Some(m.cfg.timings.gracePeriod)
  {
  }

  lemma RenderWakesByGain(m: Machine, e: Event)
    requires InLadderRender(m.phase) && Apply(m, e).m.phase.Waking?
    ensures e.Feed? && e.input == OwnershipChanged(true)
  {
    hide StepActive, StepGrace, StepBlanking, StepBlanked, StepWaking, EnterLadder, EnterActive, TeardownToActive,
         GainOwnership;
  }

  lemma GainApplied(m: Machine, now: Instant)
    requires InLadderRender(m.phase)
    ensures Apply(m, Feed(OwnershipChanged(true), now)) == GainOwnership(m, now)
  {
    hide GainOwnership;
  }

  /** The frozen-countdown assertion of `step` fails after exactly one kind of input. */
  lemma LeaksExactlyWhen(m: Machine, e: Event)
    requires Core(m) && FrozenExactly(m)
    ensures FrozenExactly(Apply(m, e).m) <==> !LeakStep(m, e)
  {
    hide Apply;
    assert !ForcedOverLeak(m, e);
    CoreKept(m, e);
    if InLadderRender(m.phase) && Apply(m, e).m.phase.Waking? {
      RenderWakesByGain(m, e);
      GainApplied(m, e.now);
      LeakShape(m, e.now);
    }
    if LeakStep(m, e) {
      GainApplied(m, e.now);
      LeakShape(m, e.now);
    }
  }

  lemma {:induction false} ExactBefore(timings: Timings, ladder: seq<LadderStage>, t0: Instant, es: seq<Event>, n: nat)
    requires n <= |es|
    requires var m0 := New(timings, ladder, t0);
             forall i :: 0 <= i < n ==> !LeakStep(At(m0, es, i), es[i])
    ensures var m := At(New(timings, ladder, t0), es, n); Core(m) && FrozenExactly(m)
  {
    hide Apply, LeakStep;
    CoreInitially(timings, ladder, t0);
    if n > 0 {
      ExactBefore(timings, ladder, t0, es, n - 1);
      var m := At(New(timings, ladder, t0), es, n - 1);
      LeaksExactlyWhen(m, es[n - 1]);
      CoreKept(m, es[n - 1]);
    }
  }

  /** Over every run: the countdown is frozen exactly in Grace under an overlay, at every
      point, if and only if no input of the run is a leaking ownership gain. */
  lemma FrozenExactlyThroughout(timings: Timings, ladder: seq<LadderStage>, t0: Instant, es: seq<Event>)
    ensures var m0 := New(timings, ladder, t0);
            (forall i :: 0 <= i <= |es| ==> FrozenExactly(At(m0, es, i))) <==>
            (forall i :: 0 <= i < |es| ==> !LeakStep(At(m0, es, i), es[i]))
  {
    hide Apply, LeakStep, Core, FrozenExactly, New;
    var m0 := New(timings, ladder, t0);
    if forall i :: 0 <= i < |es| ==> !LeakStep(At(m0, es, i), es[i]) {
      forall i | 0 <= i <= |es| ensures FrozenExactly(At(m0, es, i)) {
        ExactBefore(timings, ladder, t0, es, i);
      }
    } else {
      var i := FirstLeak(m0, es, 0);
      ExactBefore(timings, ladder, t0, es, i);
      LeaksExactlyWhen(At(m0, es, i), es[i]);
      assert At(m0, es, i + 1) == Apply(At(m0, es, i), es[i]).m;
      assert !FrozenExactly(At(m0, es, i + 1));
      assert 0 <= i + 1 <= |es|;
    }
  }

  lemma FirstLeak(m0: Machine, es: seq<Event>, from: nat) returns (i: nat)
    requires from <= |es|
    requires forall k :: 0 <= k < from ==> !LeakStep(At(m0, es, k), es[k])
    requires exists k :: 0 <= k < |es| && LeakStep(At(m0, es, k), es[k])
    ensures i < |es| && LeakStep(At(m0, es, i), es[i])
    ensures forall k :: 0 <= k < i ==> !LeakStep(At(m0, es, k), es[k])
    decreases |es| - from
  {
    hide Apply, LeakStep;
    if LeakStep(At(m0, es, from), es[from]) {
      i := from;
    } else {
      i := FirstLeak(m0, es, from + 1);
    }
  }

  // ── Unfrozen time is conserved ──────────────────────────────────────────

  /** A machine watched by a stopwatch: the instant of its last input and the unfrozen time
      spent so far in the current Grace visit. */
  datatype Watch = Watch(m: Machine, at: Instant, spent: Duration)

  predicate StartsVisit(fx: seq<Effect>) {
    exists k :: 0 <= k < |fx| && fx[k].LogTransition? && fx[k].to.NGrace?
  }

  function SpentBy(w: Watch, now: Instant): Duration {
    w.spent + if Live(w.m) then Since(now, w.at) else 0
  }

  function After(w: Watch, o: Out, now: Instant): Watch {
    Watch(o.m, now, if !w.m.phase.Grace? || !o.m.phase.Grace? || StartsVisit(o.fx) then 0 else SpentBy(w, now))
  }

  function Observe(w: Watch, e: Event): Watch {
    match e
    case SetHold(_) => w.(m := Apply(w.m, e).m)
    case Feed(_, now) => After(w, Apply(w.m, e), now)
  }

  function Remaining(m: Machine, now: Instant): Duration
    requires m.phase.Grace?
  {
    if m.graceFrozen.Some? then m.graceFrozen.value else Since(m.phase.until, now)
  }

  /** What is left of the countdown is the grace period minus the time already spent. */
  predicate Conserved(w: Watch) {
    w.m.phase.Grace? ==> Remaining(w.m, w.at) == Since(w.m.cfg.timings.gracePeriod, w.spent)
  }

  predicate FreshGrace(o: Out, now: Instant) {
    o.m.phase.Grace? ==> StartsVisit(o.fx) && Remaining(o.m, now) == o.m.cfg.timings.gracePeriod
  }

  predicate Whole(o: Out, now: Instant) {
    o.m.phase.Grace? ==> Remaining(o.m, now) == o.m.cfg.timings.gracePeriod
  }

  lemma FreshActive(m: Machine, now: Instant, cause: Cause)
    ensures FreshGrace(EnterActive(m, now, cause), now)
    ensures FreshGrace(TeardownToActive(m, now, cause), now)
  {
    var a := EnterActive(m, now, cause);
    if a.m.phase.Grace? {
      assert a.fx[1].to.NGrace?;
      assert TeardownToActive(m, now, cause).fx[2] == a.fx[1];
    }
  }

  lemma FreshLadder(m: Machine, idx: nat, now: Instant, cause: Cause)
    ensures FreshGrace(EnterLadder(m, idx, now, cause), now)
  {
    hide EnterActive;
    FreshActive(m, now, cause);
  }

  lemma FreshGraceEntered(m: Machine, now: Instant, cause: Cause)
    ensures FreshGrace(EnterGrace(m, now, cause), now)
  {
    assert EnterGrace(m, now, cause).fx[0].to.NGrace?;
  }

  lemma FreshFromLit(m: Machine, input: Input, now: Instant)
    requires Sturdy(m) && (m.phase.Active? || m.phase.Waking?)
    ensures Whole(Step(m, input, now), now)
  {
    hide StepGrace, StepBlanking, StepBlanked, StepRenderPending, StepStaged, EnterActive, EnterLadder, EnterGrace,
         TeardownToActive, Placed;
    match input
    case ZonePresent(_) => FreshGraceEntered(m.(zone := Some(false)), now, CZoneClear);
    case WakeResult(_, _) => FreshActive(m.(cmds := m.cmds.(lastWake := Some(now))), now, CWakeCompleted);
    case SoftBlank => FreshLadder(m, 0, now, CSoftBlank);
    case _ =>
  }

  lemma FreshFromDark(m: Machine, input: Input, now: Instant)
    requires Sturdy(m) && (m.phase.Blanking? || m.phase.Blanked?)
    ensures Whole(Step(m, input, now), now)
  {
    hide StepActive, StepGrace, StepWaking, StepRenderPending, StepStaged, EnterActive, EnterLadder, EnterGrace,
         TeardownToActive, Placed;
    match input
    case BlankResult(_, _) =>
      FreshGraceEntered(m.(pendingWake := false), now, CBlankFailedRegrace);
      FreshActive(m.(pendingWake := false), now, CBlankFailed);
    case OwnershipChanged(_) => FreshActive(m.(owned := false), now, COwnershipYielded);
    case StageTick(_) => FreshLadder(m, NextRung(m), now, CStageTick);
    case _ =>
  }

  lemma FreshPrefixed(prefix: seq<Effect>, o: Out, now: Instant)
    requires FreshGrace(o, now)
    ensures FreshGrace(Out(o.m, prefix + o.fx), now)
  {
    if o.m.phase.Grace? {
      var k :| 0 <= k < |o.fx| && o.fx[k].LogTransition? && o.fx[k].to.NGrace?;
      assert (prefix + o.fx)[|prefix| + k] == o.fx[k];
    }
  }

  lemma FreshSoftBlank(m: Machine, now: Instant)
    ensures FreshGrace(SoftBlankOverRender(m, now), now)
  {
    hide EnterLadder;
    var bare := m.(stage := m.stage.(current := None));
    FreshLadder(bare, 0, now, CSoftBlank);
    FreshPrefixed([TeardownRender(bare.stage.gen), LogTo(bare, NEnteringLadder, CSoftBlank)],
                  EnterLadder(bare, 0, now, CSoftBlank), now);
  }

  lemma FreshFromPending(m: Machine, input: Input, now: Instant)
    requires Sturdy(m) && m.phase.RenderPending?
    ensures Whole(StepRenderPending(m, input, now), now)
  {
    hide EnterActive, EnterLadder, TeardownToActive, SoftBlankOverRender;
    var z := if input.ZonePresent? then m.(zone := Some(input.present))
             else if input.OwnershipChanged? then m.(owned := input.owns) else m;
    FreshActive(z, now, CPresenceDetected);
    FreshActive(z, now, CInputWake);
    FreshActive(z, now, CForceWake);
    FreshActive(z, now, COwnershipYielded);
    FreshActive(m, now, CRenderFailed);
    FreshLadder(m, NextController(m.cfg.ladder, NextRung(m)), now, CRenderFailed);
    FreshSoftBlank(m, now);
  }

  lemma FreshFromStaged(m: Machine, input: Input, now: Instant)
    requires Sturdy(m) && m.phase.Staged?
    ensures Whole(StepStaged(m, input, now), now)
  {
    hide EnterActive, EnterLadder, TeardownToActive, SoftBlankOverRender;
    var z := if input.ZonePresent? then m.(zone := Some(input.present))
             else if input.OwnershipChanged? then m.(owned := input.owns) else m;
    FreshActive(z, now, CPresenceDetected);
    FreshActive(z, now, CInputWake);
    FreshActive(z, now, CForceWake);
    FreshActive(z, now, COwnershipYielded);
    FreshLadder(m, NextRung(m), now, CStageTick);
    FreshSoftBlank(m, now);
  }

  lemma FreshFromRender(m: Machine, input: Input, now: Instant)
    requires Sturdy(m) && InLadderRender(m.phase)
    ensures Whole(Step(m, input, now), now)
  {
    hide StepActive, StepGrace, StepBlanking, StepBlanked, StepWaking, StepRenderPending, StepStaged;
    if m.phase.Staged? {
      FreshFromStaged(m, input, now);
    } else {
      FreshFromPending(m, input, now);
    }
  }

  lemma CountdownOnTick(w: Watch, now: Instant)
    requires Sturdy(w.m) && w.m.phase.Grace? && Conserved(w) && w.at <= now
    ensures Conserved(After(w, GraceTick(w.m, now), now))
  {
    hide EnterLadder;
    FreshLadder(w.m, 0, now, CGraceExpired);
    FreshPrefixed([], EnterLadder(w.m, 0, now, CGraceExpired), now);
  }

  lemma CountdownInGrace(w: Watch, input: Input, now: Instant)
    requires Sturdy(w.m) && w.m.phase.Grace? && Conserved(w) && w.at <= now
    ensures Conserved(Observe(w, Feed(input, now)))
  {
    hide StepActive, StepBlanking, StepBlanked, StepWaking, StepRenderPending, StepStaged, EnterActive, EnterLadder,
         GraceTick, Placed;
    match input
    case ZonePresent(_) => FreshActive(w.m.(zone := Some(true)), now, CPresenceDuringGrace);
    case ForceWake => FreshActive(w.m, now, CForceWake);
    case InputWake => FreshActive(w.m, now, CInputWake);
    case SoftBlank => FreshLadder(w.m.(graceFrozen := None), 0, now, CSoftBlank);
    case Tick => CountdownOnTick(w, now);
    case _ =>
  }

  /** Unfrozen time is conserved by every input at a later instant. */
  lemma ConservedKept(w: Watch, e: Event)
    requires Sturdy(w.m) && Conserved(w) && (e.Feed? ==> w.at <= e.now)
    ensures Conserved(Observe(w, e))
  {
    hide Step, Sturdy;
    if e.Feed? {
      if w.m.phase.Grace? {
        CountdownInGrace(w, e.input, e.now);
      } else if InLadderRender(w.m.phase) {
        FreshFromRender(w.m, e.input, e.now);
      } else if w.m.phase.Blanking? || w.m.phase.Blanked? {
        FreshFromDark(w.m, e.input, e.now);
      } else {
        FreshFromLit(w.m, e.input, e.now);
      }
    }
  }

  predicate GatesOpen(m: Machine, now: Instant) {
    && Since(now, m.cfg.startedAt) >= m.cfg.timings.startupHoldoff
    && (m.cmds.lastWake.Some? ==> Since(now, m.cmds.lastWake.value) >= m.cfg.timings.minWakeTime)
  }

  predicate MayExpire(w: Watch, now: Instant) {
    && Live(w.m) && !OverlayOn(w.m)
    && SpentBy(w, now) >= w.m.cfg.timings.gracePeriod
    && w.m.owned && GatesOpen(w.m, now)
  }

  /** Without an operator's blank, a panel goes from Grace into the ladder exactly on a tick
      after a full grace period of unfrozen time, with no overlay on, owned, gates open. */
  lemma DarkensExactlyWhenExpired(w: Watch, input: Input, now: Instant)
    requires Sturdy(w.m) && w.m.phase.Grace? && Conserved(w) && w.at <= now
    requires !input.ForceBlank? && !input.SoftBlank? && w.m.cfg.ladder != []
    ensures var p := Step(w.m, input, now).m.phase;
            (p.RenderPending? || p.Blanking?) <==> input.Tick? && MayExpire(w, now)
  {
    hide StepActive, StepBlanking, StepBlanked, StepWaking, StepRenderPending, StepStaged, EnterActive;
  }

  function WatchAt(w: Watch, es: seq<Event>, i: nat): Watch
    requires i <= |es|
  {
    if i == 0 then w else Observe(WatchAt(w, es, i - 1), es[i - 1])
  }

  predicate ClockNeverDecreases(w: Watch, es: seq<Event>) {
    forall i :: 0 <= i < |es| && es[i].Feed? ==> WatchAt(w, es, i).at <= es[i].now
  }

  function NewWatch(timings: Timings, ladder: seq<LadderStage>, t0: Instant): Watch {
    Watch(New(timings, ladder, t0), t0, 0)
  }

  lemma {:induction false} ConservedThroughout(timings: Timings, ladder: seq<LadderStage>, t0: Instant, es: seq<Event>,
                                               i: nat)
    requires i <= |es| && ClockNeverDecreases(NewWatch(timings, ladder, t0), es)
    ensures var w := WatchAt(NewWatch(timings, ladder, t0), es, i);
            Conserved(w) && Sturdy(w.m) && w.m == At(New(timings, ladder, t0), es, i)
  {
    hide Apply, Sturdy, Conserved;
    SturdyThroughout(timings, ladder, t0, es, i);
    if i == 0 {
      NewConserved(timings, ladder, t0);
    } else {
      ConservedThroughout(timings, ladder, t0, es, i - 1);
      ConservedKept(WatchAt(NewWatch(timings, ladder, t0), es, i - 1), es[i - 1]);
    }
  }

  lemma NewConserved(timings: Timings, ladder: seq<LadderStage>, t0: Instant)
    ensures Conserved(NewWatch(timings, ladder, t0))
  {
  }

  // ── Countdowns in a zone not reported absent ────────────────────────────

  predicate PresentGrace(m: Machine) { m.phase.Grace? && m.zone != Some(false) }

  /** A tick that thaws a leaked countdown in a zone not reported absent. */
  predicate Intrudes(m: Machine, e: Event) { Slips(m, e) && m.zone != Some(false) }

  predicate ReportsAbsence(e: Event) { e.Feed? && e.input == ZonePresent(false) }

  lemma SlipLands(m: Machine, e: Event)
    requires Sturdy(m) && Slips(m, e)
    ensures var n := Apply(m, e).m; n.phase.Grace? && n.zone == m.zone
  {
    hide StepGrace, StepWaking, EnterLadder, EnterActive, TeardownToActive, GainOwnership, Placed;
  }

  lemma OnlyReportsMoveTheZone(m: Machine, input: Input, now: Instant)
    requires m.phase.Grace? && Step(m, input, now).m.phase.Grace?
    ensures var n := Step(m, input, now).m;
            && (n.zone == Some(false) <==> m.zone == Some(false) || input == ZonePresent(false))
  {
    hide StepActive, StepBlanking, StepBlanked, StepWaking, StepRenderPending, StepStaged, EnterLadder;
    if input.SoftBlank? {
      EntryIsAbsent(m.(graceFrozen := None), 0, now, CSoftBlank);
    }
    EntryIsAbsent(AutoResume(m, now).m, 0, now, CGraceExpired);
  }

  lemma EntryIsAbsent(m: Machine, idx: nat, now: Instant, cause: Cause)
    ensures var n := EnterLadder(m, idx, now, cause).m; n.zone == m.zone && (n.phase.Grace? ==> n.zone == Some(false))
  {
    hide EnterActive, NameOf;
    LeadsAwake();
  }

  lemma AbsentFromLit(m: Machine, input: Input, now: Instant)
    requires Sturdy(m) && (m.phase.Active? || m.phase.Waking?)
    ensures AbsentInGrace(Step(m, input, now).m)
  {
    hide StepGrace, StepBlanking, StepBlanked, StepRenderPending, StepStaged;
    hide EnterLadder, EnterActive, TeardownToActive, Placed;
    LeadsAwake();
    EntryIsAbsent(m, 0, now, CSoftBlank);
  }

  lemma AbsentFromDark(m: Machine, input: Input, now: Instant)
    requires Sturdy(m) && (m.phase.Blanking? || m.phase.Blanked?) && !Slips(m, Feed(input, now))
    ensures AbsentInGrace(Step(m, input, now).m)
  {
    hide StepActive, StepGrace, StepWaking, StepRenderPending, StepStaged;
    hide EnterLadder, EnterActive, TeardownToActive, Placed;
    LeadsAwake();
    EntryIsAbsent(m, NextRung(m), now, CStageTick);
  }

  lemma AbsentFromPending(m: Machine, input: Input, now: Instant)
    requires m.phase.RenderPending? && !Slips(m, Feed(input, now))
    ensures AbsentInGrace(StepRenderPending(m, input, now).m)
  {
    hide EnterLadder, EnterActive, TeardownToActive, GainOwnership;
    LeadsAwake();
    match input
    case SoftBlank => EntryIsAbsent(m.(stage := m.stage.(current := None)), 0, now, CSoftBlank);
    case RenderResult(_, _) => EntryIsAbsent(m, NextController(m.cfg.ladder, NextRung(m)), now, CRenderFailed);
    case OwnershipChanged(_) => GainNeverGraces(m, now);
    case _ =>
  }

  lemma AbsentFromStaged(m: Machine, input: Input, now: Instant)
    requires m.phase.Staged? && !Slips(m, Feed(input, now))
    ensures AbsentInGrace(StepStaged(m, input, now).m)
  {
    hide EnterLadder, EnterActive, TeardownToActive, GainOwnership;
    LeadsAwake();
    match input
    case SoftBlank => EntryIsAbsent(m.(stage := m.stage.(current := None)), 0, now, CSoftBlank);
    case StageTick(_) => EntryIsAbsent(m, NextRung(m), now, CStageTick);
    case OwnershipChanged(_) => GainNeverGraces(m, now);
    case _ =>
  }

  lemma GainNeverGraces(m: Machine, now: Instant)
    requires InLadderRender(m.phase)
    ensures !GainOwnership(m, now).m.phase.Grace?
  {
    hide EnterActive, TeardownToActive;
  }

  lemma GraceEnteredAbsent(m: Machine, input: Input, now: Instant)
    requires Sturdy(m) && !m.phase.Grace? && !Slips(m, Feed(input, now))
    ensures AbsentInGrace(Step(m, input, now).m)
  {
    hide Sturdy, Slips, StepActive, StepGrace, StepBlanking, StepBlanked, StepWaking, StepRenderPending, StepStaged;
    match m.phase
    case RenderPending(_, _) => AbsentFromPending(m, input, now);
    case Staged(_, _) => AbsentFromStaged(m, input, now);
    case Blanking | Blanked => AbsentFromDark(m, input, now);
    case _ => AbsentFromLit(m, input, now);
  }

  /** A countdown runs in a zone not reported absent exactly when the step thaws it there, or
      leaves it there unreported. */
  lemma PresentGraceExactlyWhen(m: Machine, e: Event)
    requires Sturdy(m)
    ensures var n := Apply(m, e).m;
            PresentGrace(n) <==> Intrudes(m, e) || (PresentGrace(m) && n.phase.Grace? && !ReportsAbsence(e))
  {
    hide Step, Sturdy;
    if e.Feed? {
      if m.phase.Grace? {
        if Apply(m, e).m.phase.Grace? {
          OnlyReportsMoveTheZone(m, e.input, e.now);
        }
      } else if Slips(m, e) {
        SlipLands(m, e);
      } else {
        GraceEnteredAbsent(m, e.input, e.now);
      }
    }
  }

  /** Before event `i` the machine is in the Grace that event `j` intruded into, its zone not
      reported absent since. */
  predicate IntrudedAt(m0: Machine, es: seq<Event>, j: nat, i: nat) {
    && j < i <= |es| && Intrudes(At(m0, es, j), es[j])
    && (forall k :: j < k <= i ==> At(m0, es, k).phase.Grace?)
    && (forall k :: j < k < i ==> !ReportsAbsence(es[k]))
  }

  lemma {:induction false} FromIntrusion(timings: Timings, ladder: seq<LadderStage>, t0: Instant, es: seq<Event>,
                                         j: nat, i: nat)
    requires IntrudedAt(New(timings, ladder, t0), es, j, i)
    ensures PresentGrace(At(New(timings, ladder, t0), es, i))
    decreases i
  {
    hide Apply, Intrudes, ReportsAbsence, Sturdy, New;
    if j + 1 < i {
      FromIntrusion(timings, ladder, t0, es, j, i - 1);
    }
    SturdyThroughout(timings, ladder, t0, es, i - 1);
    PresentGraceExactlyWhen(At(New(timings, ladder, t0), es, i - 1), es[i - 1]);
  }

  lemma {:induction false} ToIntrusion(timings: Timings, ladder: seq<LadderStage>, t0: Instant, es: seq<Event>, i: nat)
      returns (j: nat)
    requires i <= |es| && PresentGrace(At(New(timings, ladder, t0), es, i))
    ensures IntrudedAt(New(timings, ladder, t0), es, j, i)
  {
    hide Apply, Intrudes, ReportsAbsence, Sturdy;
    if i > 0 {
      var m := At(New(timings, ladder, t0), es, i - 1);
      SturdyThroughout(timings, ladder, t0, es, i - 1);
      PresentGraceExactlyWhen(m, es[i - 1]);
      if Intrudes(m, es[i - 1]) {
        j := i - 1;
      } else {
        j := ToIntrusion(timings, ladder, t0, es, i - 1);
      }
    }
  }

  /** At every point of every run: a countdown runs in a zone not reported absent if and only if a
      tick thawed the leaked countdown in such a zone, and since then the machine has stayed in
      Grace without a report of absence. */
  lemma PresentGraceExactlyAfterIntrusion(timings: Timings, ladder: seq<LadderStage>, t0: Instant, es: seq<Event>,
                                          i: nat)
    requires i <= |es|
    ensures var m0 := New(timings, ladder, t0);
            PresentGrace(At(m0, es, i)) <==> exists j: nat :: IntrudedAt(m0, es, j, i)
  {
    hide IntrudedAt, PresentGrace, New;
    var m0 := New(timings, ladder, t0);
    if PresentGrace(At(m0, es, i)) {
      var j := ToIntrusion(timings, ladder, t0, es, i);
    }
    if exists j: nat :: IntrudedAt(m0, es, j, i) {
      var j: nat :| IntrudedAt(m0, es, j, i);
      FromIntrusion(timings, ladder, t0, es, j, i);
    }
  }

  /** Every run with a clock that never decreases: each ladder entry from Grace that no operator
      asked for follows a full grace period of unfrozen time in that visit, no overlay on, owned,
      gates open - and in an absent zone, if and only if no tick intruded into this Grace. */
  lemma NoEarlyBlank(timings: Timings, ladder: seq<LadderStage>, t0: Instant, es: seq<Event>, i: nat)
    requires i < |es| && ladder != [] && ClockNeverDecreases(NewWatch(timings, ladder, t0), es)
    requires es[i].Feed? && !es[i].input.ForceBlank? && !es[i].input.SoftBlank?
    ensures var w := WatchAt(NewWatch(timings, ladder, t0), es, i);
            var p := Observe(w, es[i]).m.phase;
            w.m.phase.Grace? && (p.RenderPending? || p.Blanking?) ==>
              && es[i].input.Tick? && MayExpire(w, es[i].now)
              && (w.m.zone == Some(false) <==> !exists j: nat :: IntrudedAt(New(timings, ladder, t0), es, j, i))
  {
    hide Step, Sturdy, Conserved, MayExpire, IntrudedAt;
    ConservedThroughout(timings, ladder, t0, es, i);
    SturdyThroughout(timings, ladder, t0, es, i);
    LadderOf(timings, ladder, t0);
    PresentGraceExactlyAfterIntrusion(timings, ladder, t0, es, i);
    var w := WatchAt(NewWatch(timings, ladder, t0), es, i);
    if w.m.phase.Grace? {
      DarkensExactlyWhenExpired(w, es[i].input, es[i].now);
    }
  }

  lemma LadderOf(timings: Timings, ladder: seq<LadderStage>, t0: Instant)
    ensures New(timings, ladder, t0).cfg.ladder == ladder
  {
  }
}
