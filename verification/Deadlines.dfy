/** Over whole runs: a machine that waits for an instant always has a scheduled tick, still
    undelivered, that will reach it. */
module Deadlines {
  import opened DisplayTypes
  import opened DisplaySpec
  import opened DisplayRuns

  // ── One step ────────────────────────────────────────────────────────────

  predicate IssuesWake(fx: seq<Effect>) { exists k :: 0 <= k < |fx| && fx[k].IssueWake? }

  /** A tick is scheduled at `at` or later. */
  predicate Schedules(fx: seq<Effect>, at: Instant) {
    exists k :: 0 <= k < |fx| && fx[k].ScheduleTickAt? && at <= fx[k].at
  }

  predicate TimedPause(m: Machine) { m.overlays.paused.Some? && m.overlays.paused.value.until.Some? }

  function PauseEnd(m: Machine): Instant
    requires TimedPause(m)
  {
    m.overlays.paused.value.until.value
  }

  predicate WakeDriven(m: Machine, input: Input, now: Instant, o: Out) {
    && (o.m.phase.Waking? ==>
          if IssuesWake(o.fx) then ScheduleTickAt(now + m.cfg.timings.wakeRetryInterval) in o.fx
          else m.phase.Waking? && !input.Tick?)
  }

  predicate GraceDriven(m: Machine, input: Input, now: Instant, o: Out) {
    Live(o.m) && o.m.owned ==>
      || Schedules(o.fx, o.m.phase.until)
      || (Live(m) && m.owned && o.m.phase == m.phase && (input.Tick? ==> now < m.phase.until))
  }

  predicate PauseDriven(m: Machine, input: Input, now: Instant, o: Out) {
    TimedPause(o.m) ==>
      || Schedules(o.fx, PauseEnd(o.m))
      || (o.m.overlays.paused == m.overlays.paused && (input.Tick? ==> now < PauseEnd(o.m)))
  }

  predicate Driven(m: Machine, input: Input, now: Instant, o: Out) {
    WakeDriven(m, input, now, o) && GraceDriven(m, input, now, o) && PauseDriven(m, input, now, o)
  }

  /** Ownership regained in a running countdown whose zone is not reported absent: the one gain
      that does not schedule its end. */
  predicate Unclaimed(m: Machine, input: Input) {
    input == OwnershipChanged(true) && Live(m) && !m.owned && m.zone != Some(false)
  }

  /** What `enter_active` leaves behind drives itself, whatever input led there. */
  lemma ActiveDrives(m: Machine, a: Machine, input: Input, now: Instant, cause: Cause)
    requires a.overlays == m.overlays && (TimedPause(m) && input.Tick? ==> now < PauseEnd(m))
    ensures Driven(m, input, now, EnterActive(a, now, cause))
    ensures Driven(m, input, now, TeardownToActive(a, now, cause))
  {
    var o := EnterActive(a, now, cause);
    if Live(o.m) {
      assert o.fx[2].at == o.m.phase.until;
      assert TeardownToActive(a, now, cause).fx[3] == o.fx[2];
    }
  }

  lemma WakeDrives(m: Machine, a: Machine, prefix: seq<Effect>, input: Input, now: Instant)
    requires a.overlays == m.overlays && a.cfg == m.cfg && (TimedPause(m) && input.Tick? ==> now < PauseEnd(m))
    ensures Driven(m, input, now, StartWake(a, prefix, now))
  {
    var fx := StartWake(a, prefix, now).fx;
    assert fx[|prefix|].IssueWake?;
    assert fx[|prefix| + 1] == ScheduleTickAt(now + m.cfg.timings.wakeRetryInterval);
  }

  lemma LadderDrives(m: Machine, a: Machine, input: Input, now: Instant, cause: Cause, idx: nat)
    requires a.overlays == m.overlays && (TimedPause(m) && input.Tick? ==> now < PauseEnd(m))
    ensures Driven(m, input, now, EnterLadder(a, idx, now, cause))
  {
    hide EnterActive;
    ActiveDrives(m, a, input, now, cause);
  }

  lemma PauseDrives(m: Machine, until: Option<Instant>)
    ensures until.Some? ==> Schedules(RecordPause(m, until).fx, until.value)
  {
    if until.Some? {
      assert RecordPause(m, until).fx[0].at == until.value;
    }
  }

  lemma DrivenActive(m: Machine, input: Input, now: Instant)
    requires Sturdy(m) && m.phase.Active?
    ensures Driven(m, input, now, StepActive(m, input, now))
  {
    hide EnterLadder, GainOwnership, StartWake;
    match input
    case ZonePresent(p) =>
      if !p && !OverlayOn(m) {
        assert EnterGrace(m.(zone := Some(false)), now, CZoneClear).fx[1].ScheduleTickAt?;
      }
    case Pause(until) => PauseDrives(m, until);
    case SoftBlank => LadderDrives(m, m, input, now, CSoftBlank, 0);
    case OwnershipChanged(owns) => if owns { GainDrives(m, now); }
    case _ =>
  }

  lemma GainDrives(m: Machine, now: Instant)
    requires Sturdy(m) && !Unclaimed(m, OwnershipChanged(true))
    ensures Driven(m, OwnershipChanged(true), now, GainOwnership(m, now))
  {
    hide StartWake, EnterActive, TeardownToActive;
    var input := OwnershipChanged(true);
    var log := LogTransition(NameOf(m.phase), NWaking, COwnershipAcquired);
    match m.phase
    case Grace(until) => if m.zone == Some(false) { assert GainOwnership(m, now).fx[0].at == until; }
    case RenderPending(_, _) | Staged(_, _) =>
      var t := TeardownToActive(m.(owned := true), now, COwnershipAcquired);
      TornShape(m.(owned := true), now, COwnershipAcquired);
      WakeAfter(m, t, log, input, now);
    case Active | Blanked => WakeDrives(m, m.(owned := true), [log], input, now);
    case _ =>
  }

  lemma TornShape(m: Machine, now: Instant, cause: Cause)
    ensures var t := TeardownToActive(m, now, cause);
            t.m.overlays == m.overlays && t.m.cfg == m.cfg && !IssuesWake(t.fx)
  {
  }

  lemma WakeAfter(m: Machine, t: Out, log: Effect, input: Input, now: Instant)
    requires t.m.overlays == m.overlays && t.m.cfg == m.cfg && log.LogTransition? && !input.Tick?
    ensures var w := StartWake(t.m, [log], now); Driven(m, input, now, Out(w.m, t.fx + w.fx))
  {
    var fx := t.fx + StartWake(t.m, [log], now).fx;
    assert fx[|t.fx| + 1].IssueWake?;
    assert fx[|t.fx| + 2] == ScheduleTickAt(now + m.cfg.timings.wakeRetryInterval);
  }

  lemma ResumeDrives(m: Machine, input: Input, now: Instant)
    requires Sturdy(m) && input.Tick? && !m.phase.Grace? && !m.phase.Waking?
    ensures Driven(m, input, now, AutoResume(m, now))
  {
    var o := AutoResume(m, now);
    if o.fx != [] {
      assert o.fx[0].at == o.m.phase.until;
    }
  }

  lemma DrivenGraceTick(m: Machine, now: Instant)
    requires Sturdy(m) && m.phase.Grace?
    ensures Driven(m, Tick, now, GraceTick(m, now))
  {
    hide EnterLadder, GateOpensAt;
    var o := GraceTick(m, now);
    GateFuture(m, now);
    if m.graceFrozen.Some? {
      if Live(o.m) {
        assert o.fx[0].at == o.m.phase.until;
      }
    } else if now >= m.phase.until {
      if GateOpensAt(m, now).Some? {
        assert o.fx[0].at > now;
      } else if m.owned {
        LadderDrives(m, m, Tick, now, CGraceExpired, 0);
        assert [] + EnterLadder(m, 0, now, CGraceExpired).fx == EnterLadder(m, 0, now, CGraceExpired).fx;
      }
    }
  }

  lemma DrivenGrace(m: Machine, input: Input, now: Instant)
    requires Sturdy(m) && m.phase.Grace? && !Unclaimed(m, input)
    ensures Driven(m, input, now, StepGrace(m, input, now))
  {
    hide EnterLadder, EnterActive, GainOwnership, GraceTick;
    match input
    case ZonePresent(_) => ActiveDrives(m, m.(zone := Some(true)), input, now, CPresenceDuringGrace);
    case Tick => DrivenGraceTick(m, now);
    case InhibitorChanged(on) =>
      var o := StepGrace(m, input, now);
      if o.fx != [] { assert o.fx[0].at == o.m.phase.until; }
    case Pause(until) => PauseDrives(m, until);
    case Resume =>
      var o := StepGrace(m, input, now);
      if o.fx != [] { assert o.fx[0].at == o.m.phase.until; }
    case SoftBlank => LadderDrives(m, m.(graceFrozen := None), input, now, CSoftBlank, 0);
    case ForceWake => ActiveDrives(m, m, input, now, CForceWake);
    case InputWake => ActiveDrives(m, m, input, now, CInputWake);
    case OwnershipChanged(owns) => if owns { GainDrives(m, now); }
    case _ =>
  }

  lemma DrivenBlanking(m: Machine, input: Input, now: Instant)
    requires Sturdy(m) && m.phase.Blanking?
    ensures Driven(m, input, now, StepBlanking(m, input, now))
  {
    hide EnterActive, GainOwnership, StartWake;
    match input
    case Pause(until) => PauseDrives(m, until);
    case BlankResult(_, _) =>
      var b := m.(cmds := m.cmds.(lastBlank := Some(now)), pendingWake := false);
      WakeDrives(m, b, [LogTo(m, NWaking, CPresenceDuringBlank)], input, now);
      ActiveDrives(m, m.(pendingWake := false), input, now, CBlankFailed);
      if !OverlayOn(m) {
        assert EnterGrace(m.(pendingWake := false), now, CBlankFailedRegrace).fx[1].ScheduleTickAt?;
      }
    case OwnershipChanged(owns) => if owns { GainDrives(m, now); }
    case Tick => ResumeDrives(m, input, now);
    case _ =>
  }

  lemma DrivenBlanked(m: Machine, input: Input, now: Instant)
    requires Sturdy(m) && m.phase.Blanked?
    ensures Driven(m, input, now, StepBlanked(m, input, now))
  {
    hide EnterActive, EnterLadder, GainOwnership, StartWake;
    match input
    case ZonePresent(_) => WakeDrives(m, m.(zone := Some(true)), [LogTo(m, NWaking, CPresenceDetected)], input, now);
    case Pause(until) => PauseDrives(m, until);
    case ForceWake => WakeDrives(m, m, [LogTo(m, NWaking, CForceWake)], input, now);
    case InputWake => WakeDrives(m, m, [LogTo(m, NWaking, CInputWake)], input, now);
    case StageTick(_) => LadderDrives(m, m, input, now, CStageTick, NextRung(m));
    case OwnershipChanged(owns) =>
      if owns { GainDrives(m, now); } else { ActiveDrives(m, m.(owned := false), input, now, COwnershipYielded); }
    case Tick => ResumeDrives(m, input, now);
    case _ =>
  }

  lemma DrivenWaking(m: Machine, input: Input, now: Instant)
    requires Sturdy(m) && m.phase.Waking?
    ensures Driven(m, input, now, StepWaking(m, input, now))
  {
    hide EnterActive, GainOwnership;
    match input
    case Tick =>
      var r := AutoResume(m, now);
      var head := r.fx + [LogTo(m, NWaking, CWakeRetryScheduled)];
      var fx := StartWake(r.m, head, now).fx;
      assert fx[|head|].IssueWake?;
      assert fx[|head| + 1] == ScheduleTickAt(now + m.cfg.timings.wakeRetryInterval);
    case Pause(until) => PauseDrives(m, until);
    case WakeResult(_, _) =>
      ActiveDrives(m, m.(cmds := m.cmds.(lastWake := Some(now))), input, now, CWakeCompleted);
      WakeDrives(m, m, [LogTo(m, NWaking, CWakeRetry)], input, now);
    case ForceWake | InputWake => WakeDrives(m, m, [], input, now);
    case OwnershipChanged(owns) => if owns { GainDrives(m, now); }
    case _ =>
  }

  lemma SoftDrives(m: Machine, now: Instant)
    ensures Driven(m, SoftBlank, now, SoftBlankOverRender(m, now))
  {
    hide EnterLadder;
    var l := EnterLadder(m.(stage := m.stage.(current := None)), 0, now, CSoftBlank);
    LadderDrives(m, m.(stage := m.stage.(current := None)), SoftBlank, now, CSoftBlank, 0);
    Prefixed(m, SoftBlank, now, [TeardownRender(m.stage.gen), LogTo(m, NEnteringLadder, CSoftBlank)], l);
  }

  lemma Prefixed(m: Machine, input: Input, now: Instant, prefix: seq<Effect>, o: Out)
    requires Driven(m, input, now, o) && !o.m.phase.Waking?
    ensures Driven(m, input, now, Out(o.m, prefix + o.fx))
  {
    forall at | Schedules(o.fx, at) ensures Schedules(prefix + o.fx, at) {
      var k :| 0 <= k < |o.fx| && o.fx[k].ScheduleTickAt? && at <= o.fx[k].at;
      assert (prefix + o.fx)[|prefix| + k] == o.fx[k];
    }
  }

  lemma DrivenPending(m: Machine, input: Input, now: Instant)
    requires Sturdy(m) && m.phase.RenderPending?
    ensures Driven(m, input, now, StepRenderPending(m, input, now))
  {
    hide EnterActive, EnterLadder, TeardownToActive, GainOwnership, SoftBlankOverRender, AutoResume;
    match input
    case ZonePresent(p) => ActiveDrives(m, m.(zone := Some(p)), input, now, CPresenceDetected);
    case Tick => ResumeDrives(m, input, now);
    case Pause(until) => PauseDrives(m, until);
    case InputWake => ActiveDrives(m, m, input, now, CInputWake);
    case ForceWake => ActiveDrives(m, m, input, now, CForceWake);
    case OwnershipChanged(_) =>
      GainDrives(m, now);
      ActiveDrives(m, m.(owned := false), input, now, COwnershipYielded);
    case SoftBlank => SoftDrives(m, now);
    case RenderResult(_, _) =>
      LadderDrives(m, m, input, now, CRenderFailed, NextController(m.cfg.ladder, NextRung(m)));
      ActiveDrives(m, m, input, now, CRenderFailed);
    case _ =>
  }

  lemma DrivenStaged(m: Machine, input: Input, now: Instant)
    requires Sturdy(m) && m.phase.Staged?
    ensures Driven(m, input, now, StepStaged(m, input, now))
  {
    hide EnterActive, EnterLadder, TeardownToActive, GainOwnership, SoftBlankOverRender, AutoResume;
    match input
    case ZonePresent(p) => ActiveDrives(m, m.(zone := Some(p)), input, now, CPresenceDetected);
    case Tick => ResumeDrives(m, input, now);
    case Pause(until) => PauseDrives(m, until);
    case InputWake => ActiveDrives(m, m, input, now, CInputWake);
    case ForceWake => ActiveDrives(m, m, input, now, CForceWake);
    case OwnershipChanged(_) =>
      GainDrives(m, now);
      ActiveDrives(m, m.(owned := false), input, now, COwnershipYielded);
    case SoftBlank => SoftDrives(m, now);
    case StageTick(_) => LadderDrives(m, m, input, now, CStageTick, NextRung(m));
    case _ =>
  }

  lemma EveryStepDrives(m: Machine, input: Input, now: Instant)
    requires Sturdy(m) && !Unclaimed(m, input)
    ensures Driven(m, input, now, Step(m, input, now))
  {
    hide Sturdy, Driven, StepActive, StepGrace, StepBlanking, StepBlanked, StepWaking, StepRenderPending, StepStaged;
    match m.phase
    case Active => DrivenActive(m, input, now);
    case Grace(_) => DrivenGrace(m, input, now);
    case Blanking => DrivenBlanking(m, input, now);
    case Blanked => DrivenBlanked(m, input, now);
    case Waking => DrivenWaking(m, input, now);
    case RenderPending(_, _) => DrivenPending(m, input, now);
    case Staged(_, _) => DrivenStaged(m, input, now);
  }

  lemma UnclaimedGain(m: Machine, input: Input, now: Instant)
    requires Unclaimed(m, input)
    ensures Step(m, input, now) == Out(m.(owned := true), [])
  {
    hide StepActive, StepBlanking, StepBlanked, StepWaking, StepRenderPending, StepStaged;
  }

  /** Every step that leaves a wait behind schedules its tick, or keeps one that has not yet been
      reached - the wait of a running countdown exactly unless ownership is regained in it
      unclaimed. */
  lemma DrivesExactlyUnlessUnclaimed(m: Machine, input: Input, now: Instant)
    requires Sturdy(m)
    ensures var o := Step(m, input, now);
            && WakeDriven(m, input, now, o) && PauseDriven(m, input, now, o)
            && (GraceDriven(m, input, now, o) <==> !Unclaimed(m, input))
  {
    hide Step, Sturdy;
    if Unclaimed(m, input) {
      UnclaimedGain(m, input, now);
    } else {
      EveryStepDrives(m, input, now);
    }
  }

  // ── Whole runs ──────────────────────────────────────────────────────────

  /** What reaches the machine: a scheduled tick or stage tick, delivered at or after its deadline,
      or any event that uses up none. */
  datatype Arrival = Due(at: Instant, now: Instant) | StageDue(gen: nat, at: Instant, now: Instant) | Other(e: Event)

  function Content(d: Arrival): Event {
    match d
    case Due(_, now) => Feed(Tick, now)
    case StageDue(gen, _, now) => Feed(StageTick(gen), now)
    case Other(e) => e
  }

  function TicksOf(fx: seq<Effect>): multiset<Instant> {
    if fx == [] then multiset{}
    else TicksOf(fx[1..]) + if fx[0].ScheduleTickAt? then multiset{fx[0].at} else multiset{}
  }

  lemma {:induction false} ScheduledInBag(fx: seq<Effect>, k: nat)
    requires k < |fx| && fx[k].ScheduleTickAt?
    ensures fx[k].at in TicksOf(fx)
  {
    if k > 0 {
      ScheduledInBag(fx[1..], k - 1);
    }
  }

  /** A machine, its scheduled and undelivered ticks, and the instant of the last IssueWake. */
  datatype Agenda = Agenda(m: Machine, due: multiset<Instant>, wokeAt: Option<Instant>)

  /** A tick still to be delivered, no earlier than its deadline. */
  predicate Deliverable(a: Agenda, d: Arrival) { d.Due? ==> d.at in a.due && d.at <= d.now }

  function Deliver(a: Agenda, d: Arrival): Agenda {
    var e := Content(d);
    var o := Apply(a.m, e);
    Agenda(o.m,
           a.due - (if d.Due? then multiset{d.at} else multiset{}) + TicksOf(o.fx),
           if e.Feed? && IssuesWake(o.fx) then Some(e.now) else a.wokeAt)
  }

  /** Some undelivered tick lies at `at` or later. */
  ghost predicate Covered(due: multiset<Instant>, at: Instant) { exists t :: t in due && at <= t }

  ghost predicate WakeOwed(a: Agenda) {
    a.m.phase.Waking? ==> a.wokeAt.Some? && a.wokeAt.value + a.m.cfg.timings.wakeRetryInterval in a.due
  }

  ghost predicate PauseOwed(a: Agenda) { TimedPause(a.m) ==> Covered(a.due, PauseEnd(a.m)) }

  ghost predicate GraceOwed(a: Agenda) { Live(a.m) && a.m.owned ==> Covered(a.due, a.m.phase.until) }

  /** Ownership regained unclaimed, with no tick left at or after the countdown's end. */
  ghost predicate Forgets(a: Agenda, d: Arrival) {
    var e := Content(d);
    e.Feed? && Unclaimed(a.m, e.input) && !Covered(a.due, a.m.phase.until)
  }

  lemma CoverKept(a: Agenda, d: Arrival, at: Instant, fx: seq<Effect>)
    requires Deliverable(a, d)
    requires Schedules(fx, at) || (Covered(a.due, at) && (d.Due? ==> d.now < at))
    ensures Covered(a.due - (if d.Due? then multiset{d.at} else multiset{}) + TicksOf(fx), at)
  {
    var due := a.due - (if d.Due? then multiset{d.at} else multiset{}) + TicksOf(fx);
    if Schedules(fx, at) {
      var k :| 0 <= k < |fx| && fx[k].ScheduleTickAt? && at <= fx[k].at;
      ScheduledInBag(fx, k);
      assert fx[k].at in due;
    } else {
      var t :| t in a.due && at <= t;
      assert t in due;
    }
  }

  lemma WakeKept(a: Agenda, d: Arrival)
    requires WakeOwed(a) && Deliverable(a, d) && Content(d).Feed?
    requires WakeDriven(a.m, Content(d).input, Content(d).now, Apply(a.m, Content(d)))
    requires Apply(a.m, Content(d)).m.cfg == a.m.cfg
    ensures WakeOwed(Deliver(a, d))
  {
    hide Step;
    var e := Content(d);
    var o := Apply(a.m, e);
    if o.m.phase.Waking? && IssuesWake(o.fx) {
      var k :| 0 <= k < |o.fx| && o.fx[k] == ScheduleTickAt(e.now + a.m.cfg.timings.wakeRetryInterval);
      ScheduledInBag(o.fx, k);
    }
  }

  lemma HoldOwesNothing(a: Agenda, d: Arrival)
    requires !Content(d).Feed?
    ensures var b := Deliver(a, d);
            (WakeOwed(a) ==> WakeOwed(b)) && (PauseOwed(a) ==> PauseOwed(b)) && (GraceOwed(a) ==> GraceOwed(b))
  {
    hide Covered;
    NoTicks();
    assert Deliver(a, d).due == a.due;
  }

  /** Whatever arrives, the wake and the pause stay covered. */
  lemma WakeAndPauseKept(a: Agenda, d: Arrival)
    requires Sturdy(a.m) && WakeOwed(a) && PauseOwed(a) && Deliverable(a, d)
    ensures var b := Deliver(a, d); Sturdy(b.m) && WakeOwed(b) && PauseOwed(b)
  {
    hide Step, Sturdy, Schedules, Covered, IssuesWake, TicksOf;
    var e := Content(d);
    var o := Apply(a.m, e);
    SturdyKept(a.m, e);
    if e.Feed? {
      DrivesExactlyUnlessUnclaimed(a.m, e.input, e.now);
      WakeKept(a, d);
      if TimedPause(o.m) {
        CoverKept(a, d, PauseEnd(o.m), o.fx);
      }
    } else {
      HoldOwesNothing(a, d);
    }
  }

  /** A running owned countdown stays covered exactly unless the arrival forgets it. */
  lemma GraceKeptExactly(a: Agenda, d: Arrival)
    requires Sturdy(a.m) && GraceOwed(a) && Deliverable(a, d)
    ensures GraceOwed(Deliver(a, d)) <==> !Forgets(a, d)
  {
    hide Step, Sturdy, Schedules, Covered, IssuesWake, TicksOf;
    var e := Content(d);
    var o := Apply(a.m, e);
    if !e.Feed? {
      HoldOwesNothing(a, d);
    } else if Unclaimed(a.m, e.input) {
      UnclaimedGain(a.m, e.input, e.now);
      NoTicks();
      assert Deliver(a, d).due == a.due;
    } else {
      EveryStepDrives(a.m, e.input, e.now);
      if Live(o.m) && o.m.owned {
        CoverKept(a, d, o.m.phase.until, o.fx);
      }
    }
  }

  lemma NoTicks()
    ensures TicksOf([]) == multiset{} && !IssuesWake([])
  {
  }

  function AgendaAt(a: Agenda, ds: seq<Arrival>, i: nat): Agenda
    requires i <= |ds|
  {
    if i == 0 then a else Deliver(AgendaAt(a, ds, i - 1), ds[i - 1])
  }

  predicate AllDeliverable(a: Agenda, ds: seq<Arrival>) {
    forall i :: 0 <= i < |ds| ==> Deliverable(AgendaAt(a, ds, i), ds[i])
  }

  function NewAgenda(timings: Timings, ladder: seq<LadderStage>, t0: Instant): Agenda {
    Agenda(New(timings, ladder, t0), multiset{}, None)
  }

  lemma NothingOwed(timings: Timings, ladder: seq<LadderStage>, t0: Instant)
    ensures var a := NewAgenda(timings, ladder, t0); WakeOwed(a) && PauseOwed(a) && GraceOwed(a)
  {
  }

  lemma DeliverableAt(a: Agenda, ds: seq<Arrival>, i: nat)
    requires i < |ds| && AllDeliverable(a, ds)
    ensures Deliverable(AgendaAt(a, ds, i), ds[i])
  {
    hide AgendaAt;
  }

  /** In every run from `new` in which scheduled ticks come at or after their deadline, whatever
      else is fed: Waking has a tick outstanding exactly one retry interval after the last IssueWake, and a
      timed pause has one at or after its end. */
  lemma {:induction false} WakesAndPausesRemembered(timings: Timings, ladder: seq<LadderStage>, t0: Instant,
                                                    ds: seq<Arrival>, i: nat)
    requires i <= |ds| && AllDeliverable(NewAgenda(timings, ladder, t0), ds)
    ensures var a := AgendaAt(NewAgenda(timings, ladder, t0), ds, i); Sturdy(a.m) && WakeOwed(a) && PauseOwed(a)
  {
    hide Apply, Sturdy, AllDeliverable, WakeOwed, PauseOwed, Deliver, Deliverable, New;
    if i == 0 {
      SturdyInitially(timings, ladder, t0);
      NothingOwed(timings, ladder, t0);
    } else {
      WakesAndPausesRemembered(timings, ladder, t0, ds, i - 1);
      DeliverableAt(NewAgenda(timings, ladder, t0), ds, i - 1);
      WakeAndPauseKept(AgendaAt(NewAgenda(timings, ladder, t0), ds, i - 1), ds[i - 1]);
    }
  }

  lemma {:induction false} GraceOwedUntilForgotten(timings: Timings, ladder: seq<LadderStage>, t0: Instant,
                                                   ds: seq<Arrival>, i: nat)
    requires i <= |ds| && AllDeliverable(NewAgenda(timings, ladder, t0), ds)
    requires forall k :: 0 <= k < i ==> !Forgets(AgendaAt(NewAgenda(timings, ladder, t0), ds, k), ds[k])
    ensures GraceOwed(AgendaAt(NewAgenda(timings, ladder, t0), ds, i))
  {
    hide Apply, Sturdy, AllDeliverable, WakeOwed, PauseOwed, GraceOwed, Deliver, Deliverable, New, Forgets;
    if i == 0 {
      NothingOwed(timings, ladder, t0);
    } else {
      var a := AgendaAt(NewAgenda(timings, ladder, t0), ds, i - 1);
      GraceOwedUntilForgotten(timings, ladder, t0, ds, i - 1);
      WakesAndPausesRemembered(timings, ladder, t0, ds, i - 1);
      DeliverableAt(NewAgenda(timings, ladder, t0), ds, i - 1);
      GraceKeptExactly(a, ds[i - 1]);
    }
  }

  /** In every such run a running owned countdown always has a tick outstanding at or after its
      end, if and only if ownership is never regained in one, its zone not reported absent,
      after its last such tick is gone. */
  lemma NoDeadlineForgotten(timings: Timings, ladder: seq<LadderStage>, t0: Instant, ds: seq<Arrival>)
    requires AllDeliverable(NewAgenda(timings, ladder, t0), ds)
    ensures var a := NewAgenda(timings, ladder, t0);
            (forall i :: 0 <= i <= |ds| ==> GraceOwed(AgendaAt(a, ds, i))) <==>
            (forall i :: 0 <= i < |ds| ==> !Forgets(AgendaAt(a, ds, i), ds[i]))
  {
    hide Apply, Sturdy, AllDeliverable, WakeOwed, PauseOwed, GraceOwed, Deliver, Deliverable, New, Forgets, AgendaAt;
    var a := NewAgenda(timings, ladder, t0);
    if forall i :: 0 <= i < |ds| ==> !Forgets(AgendaAt(a, ds, i), ds[i]) {
      forall i | 0 <= i <= |ds| ensures GraceOwed(AgendaAt(a, ds, i)) {
        GraceOwedUntilForgotten(timings, ladder, t0, ds, i);
      }
    } else {
      var i :| 0 <= i < |ds| && Forgets(AgendaAt(a, ds, i), ds[i]);
      var k := Unowed(timings, ladder, t0, ds, i);
      assert !GraceOwed(AgendaAt(a, ds, k));
    }
  }

  /** Where an arrival forgets, the countdown is uncovered, right before it or right after it. */
  lemma Unowed(timings: Timings, ladder: seq<LadderStage>, t0: Instant, ds: seq<Arrival>, i: nat) returns (k: nat)
    requires i < |ds| && AllDeliverable(NewAgenda(timings, ladder, t0), ds)
    requires Forgets(AgendaAt(NewAgenda(timings, ladder, t0), ds, i), ds[i])
    ensures k <= |ds| && !GraceOwed(AgendaAt(NewAgenda(timings, ladder, t0), ds, k))
  {
    hide *;
    var a := AgendaAt(NewAgenda(timings, ladder, t0), ds, i);
    WakesAndPausesRemembered(timings, ladder, t0, ds, i);
    DeliverableAt(NewAgenda(timings, ladder, t0), ds, i);
    NextAgenda(NewAgenda(timings, ladder, t0), ds, i);
    if GraceOwed(a) {
      GraceKeptExactly(a, ds[i]);
      k := i + 1;
    } else {
      k := i;
    }
  }

  lemma NextAgenda(a: Agenda, ds: seq<Arrival>, i: nat)
    requires i < |ds|
    ensures AgendaAt(a, ds, i + 1) == Deliver(AgendaAt(a, ds, i), ds[i])
  {
    hide Deliver;
  }

  // ── Which countdowns are forgotten ──────────────────────────────────────

  /** The arrival leaves the countdown running, owned, and unscheduled. */
  predicate LeavesIt(a: Agenda, d: Arrival) {
    var o := Apply(a.m, Content(d));
    Live(a.m) && Live(o.m) && o.m.owned && o.m.phase == a.m.phase && !Schedules(o.fx, a.m.phase.until)
  }

  lemma {:induction false} BagIsScheduled(fx: seq<Effect>, at: Instant)
    requires at in TicksOf(fx)
    ensures exists k :: 0 <= k < |fx| && fx[k].ScheduleTickAt? && fx[k].at == at
  {
    if !(fx[0].ScheduleTickAt? && fx[0].at == at) {
      BagIsScheduled(fx[1..], at);
      var k :| 0 <= k < |fx[1..]| && fx[1..][k].ScheduleTickAt? && fx[1..][k].at == at;
      assert fx[k + 1] == fx[1..][k];
    }
  }

  /** A step that schedules nothing that late covers nothing. */
  lemma StaysLost(a: Agenda, d: Arrival)
    requires LeavesIt(a, d) && !Covered(a.due, a.m.phase.until)
    ensures !GraceOwed(Deliver(a, d))
  {
    hide Step, TicksOf;
    var o := Apply(a.m, Content(d));
    if Covered(Deliver(a, d).due, a.m.phase.until) {
      var t :| t in Deliver(a, d).due && a.m.phase.until <= t;
      if t !in a.due {
        BagIsScheduled(o.fx, t);
      }
    }
  }

  lemma ForgetsLoses(a: Agenda, d: Arrival)
    requires Forgets(a, d)
    ensures LeavesIt(a, d) && !GraceOwed(Deliver(a, d))
  {
    hide Step, TicksOf, Covered;
    UnclaimedGain(a.m, Content(d).input, Content(d).now);
    StaysLost(a, d);
  }

  lemma WhereLost(a: Agenda, d: Arrival)
    requires Sturdy(a.m) && Deliverable(a, d) && !GraceOwed(Deliver(a, d))
    ensures Forgets(a, d) || (!GraceOwed(a) && LeavesIt(a, d))
  {
    hide Step, Sturdy, Schedules, Covered, TicksOf;
    var e := Content(d);
    var o := Apply(a.m, e);
    if !e.Feed? {
      NoTicks();
      assert Deliver(a, d).due == a.due;
      NothingScheduled(a.m.phase.until);
    } else if Unclaimed(a.m, e.input) {
      UnclaimedGain(a.m, e.input, e.now);
      NoTicks();
      assert Deliver(a, d).due == a.due;
    } else {
      EveryStepDrives(a.m, e.input, e.now);
      if Schedules(o.fx, o.m.phase.until) || Covered(a.due, o.m.phase.until) {
        CoverKept(a, d, o.m.phase.until, o.fx);
      }
    }
  }

  lemma NothingScheduled(at: Instant)
    ensures !Schedules([], at)
  {
  }

  /** Before arrival `i` the countdown that arrival `j` forgot still runs, owned, and no step since
      has scheduled a tick at or after its end. */
  ghost predicate ForgottenSince(a0: Agenda, ds: seq<Arrival>, j: nat, i: nat) {
    && j < i <= |ds| && Forgets(AgendaAt(a0, ds, j), ds[j])
    && forall k :: j <= k < i ==> LeavesIt(AgendaAt(a0, ds, k), ds[k])
  }

  lemma {:induction false} FromForgetting(a0: Agenda, ds: seq<Arrival>, j: nat, i: nat)
    requires ForgottenSince(a0, ds, j, i)
    ensures !GraceOwed(AgendaAt(a0, ds, i))
    decreases i
  {
    hide Forgets, LeavesIt, GraceOwed, Deliver;
    if j + 1 < i {
      FromForgetting(a0, ds, j, i - 1);
      StillLost(AgendaAt(a0, ds, i - 1), ds[i - 1]);
    } else {
      ForgetsLoses(AgendaAt(a0, ds, j), ds[j]);
    }
  }

  lemma StillLost(a: Agenda, d: Arrival)
    requires !GraceOwed(a) && LeavesIt(a, d)
    ensures !GraceOwed(Deliver(a, d))
  {
    hide Covered, LeavesIt, Deliver;
    StaysLost(a, d);
  }

  lemma {:induction false} ToForgetting(timings: Timings, ladder: seq<LadderStage>, t0: Instant, ds: seq<Arrival>,
                                        i: nat) returns (j: nat)
    requires i <= |ds| && AllDeliverable(NewAgenda(timings, ladder, t0), ds)
    requires !GraceOwed(AgendaAt(NewAgenda(timings, ladder, t0), ds, i))
    ensures ForgottenSince(NewAgenda(timings, ladder, t0), ds, j, i)
  {
    hide Forgets, LeavesIt, GraceOwed, Deliver, Deliverable, AllDeliverable, WakeOwed, PauseOwed, Sturdy, New;
    if i == 0 {
      NothingOwed(timings, ladder, t0);
    } else {
      var a := AgendaAt(NewAgenda(timings, ladder, t0), ds, i - 1);
      WakesAndPausesRemembered(timings, ladder, t0, ds, i - 1);
      DeliverableAt(NewAgenda(timings, ladder, t0), ds, i - 1);
      WhereLost(a, ds[i - 1]);
      if Forgets(a, ds[i - 1]) {
        ForgetsLoses(a, ds[i - 1]);
        j := i - 1;
      } else {
        j := ToForgetting(timings, ladder, t0, ds, i - 1);
      }
    }
  }

  /** At every point of every such run: a running owned countdown has no tick left at or after its
      end, if and only if ownership was regained unclaimed in this very countdown, and it has run
      on, owned and without such a tick being scheduled, since. */
  lemma LostExactlySinceForgotten(timings: Timings, ladder: seq<LadderStage>, t0: Instant, ds: seq<Arrival>, i: nat)
    requires i <= |ds| && AllDeliverable(NewAgenda(timings, ladder, t0), ds)
    ensures var a0 := NewAgenda(timings, ladder, t0);
            !GraceOwed(AgendaAt(a0, ds, i)) <==> exists j: nat :: ForgottenSince(a0, ds, j, i)
  {
    hide ForgottenSince, GraceOwed, NewAgenda, AllDeliverable;
    var a0 := NewAgenda(timings, ladder, t0);
    if !GraceOwed(AgendaAt(a0, ds, i)) {
      var j := ToForgetting(timings, ladder, t0, ds, i);
    }
    if exists j: nat :: ForgottenSince(a0, ds, j, i) {
      var j: nat :| ForgottenSince(a0, ds, j, i);
      FromForgetting(a0, ds, j, i);
    }
  }

  // ── Runs in which nothing forces the leak ───────────────────────────────

  function Contents(ds: seq<Arrival>): seq<Event> { seq(|ds|, i requires 0 <= i < |ds| => Content(ds[i])) }

  lemma {:induction false} AgendaIsRun(a: Agenda, ds: seq<Arrival>, i: nat)
    requires i <= |ds|
    ensures AgendaAt(a, ds, i).m == At(a.m, Contents(ds), i)
  {
    hide Deliver, Content, Apply;
    if i > 0 {
      AgendaIsRun(a, ds, i - 1);
      DeliversContent(AgendaAt(a, ds, i - 1), ds[i - 1]);
    }
  }

  lemma DeliversContent(a: Agenda, d: Arrival)
    ensures Deliver(a, d).m == Apply(a.m, Content(d)).m
  {
    hide Apply, TicksOf, IssuesWake;
  }

  /** No invariant state forgets: it takes ForceBlank over the leak first. */
  lemma CoreNeverForgets(a: Agenda, d: Arrival)
    requires Core(a.m)
    ensures !Forgets(a, d)
  {
    hide Covered;
  }

  /** Where ForceBlank never reaches the leak, no deadline is ever forgotten. */
  lemma RemembersUnlessForced(timings: Timings, ladder: seq<LadderStage>, t0: Instant, ds: seq<Arrival>, i: nat)
    requires i <= |ds| && AllDeliverable(NewAgenda(timings, ladder, t0), ds)
    requires LeakNeverForced(New(timings, ladder, t0), Contents(ds))
    ensures GraceOwed(AgendaAt(NewAgenda(timings, ladder, t0), ds, i))
  {
    hide AgendaAt, At, New, Core, Forgets, GraceOwed, AllDeliverable, LeakNeverForced;
    forall k | 0 <= k < i ensures !Forgets(AgendaAt(NewAgenda(timings, ladder, t0), ds, k), ds[k]) {
      AgendaIsRun(NewAgenda(timings, ladder, t0), ds, k);
      CoreThroughout(timings, ladder, t0, Contents(ds), k);
      CoreNeverForgets(AgendaAt(NewAgenda(timings, ladder, t0), ds, k), ds[k]);
    }
    GraceOwedUntilForgotten(timings, ladder, t0, ds, i);
  }
}
