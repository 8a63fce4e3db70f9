/** Over whole runs: a panel is dark, or on its way there, only while the room is reported
    absent or an operator asked for it - exactly unless an unbidden countdown expires - and only
    an owned panel is darkened. */
module PresentRooms {
  import opened DisplayTypes
  import opened DisplaySpec
  import opened DisplayRuns

  predicate Dims(e: Effect) { e.IssueBlank? || e.ShowRender? }

  predicate Darkens(fx: seq<Effect>) { exists k :: 0 <= k < |fx| && Dims(fx[k]) }

  predicate Operator(e: Event) { e.Feed? && (e.input.ForceBlank? || e.input.SoftBlank?) }

  /** A machine, and whether an operator blank came since presence was last reported and
      since ownership last changed. */
  datatype Audit = Audit(m: Machine, sincePresence: bool, sinceOwnership: bool)

  function Witness(a: Audit, e: Event): Audit {
    Audit(Apply(a.m, e).m,
          Operator(e) || (a.sincePresence && !(e.Feed? && e.input == ZonePresent(true))),
          Operator(e) || (a.sinceOwnership && !(e.Feed? && e.input.OwnershipChanged?)))
  }

  predicate Explained(a: Audit) {
    var p := a.m.phase;
    && (p.RenderPending? || p.Staged? || p.Blanked? ==> a.m.zone == Some(false) || a.sincePresence)
    && (p.Blanking? ==> a.m.zone == Some(false) || a.m.pendingWake || a.sincePresence)
    && (InLadderRender(p) ==> a.m.owned || a.sinceOwnership)
  }

  /** The tick that takes a running countdown to the ladder though neither a reported absence nor
      an operator explains it; a first controller rung is explained by a wake already pending. */
  predicate Unbidden(a: Audit, e: Event) {
    && e.Feed? && e.input.Tick?
    && Live(a.m) && a.m.phase.until <= e.now && GateOpensAt(a.m, e.now).None? && a.m.owned
    && a.m.zone != Some(false) && !a.sincePresence
    && a.m.cfg.ladder != [] && (a.m.cfg.ladder[0].kind.IsRender() || !a.m.pendingWake)
  }

  predicate Lit(p: Phase) { p.Active? || p.Grace? || p.Waking? }

  lemma LitStays(m: Machine, input: Input, now: Instant)
    requires Lit(m.phase) && !input.ForceBlank? && !input.SoftBlank? && !(m.phase.Grace? && input.Tick?)
    ensures Lit(Step(m, input, now).m.phase)
  {
    hide StepBlanking, StepBlanked, StepRenderPending, StepStaged, EnterLadder, EnterActive, TeardownToActive,
         GraceTick;
  }

  /** A rung is entered with the zone, the owner and the pending wake unchanged. */
  lemma LadderEntered(m: Machine, idx: nat, now: Instant, cause: Cause)
    ensures var n := EnterLadder(m, idx, now, cause).m;
            && n.zone == m.zone && n.owned == m.owned && n.pendingWake == m.pendingWake
            && (n.phase.RenderPending? <==> idx < |m.cfg.ladder| && m.cfg.ladder[idx].kind.IsRender())
            && (n.phase.Blanking? <==> idx < |m.cfg.ladder| && !m.cfg.ladder[idx].kind.IsRender())
  {
    hide EnterActive, NameOf;
    LeadsAwake();
  }

  lemma ExplainedOnTick(a: Audit, now: Instant)
    requires Sturdy(a.m) && a.m.phase.Grace?
    ensures Explained(Witness(a, Feed(Tick, now))) <==> !Unbidden(a, Feed(Tick, now))
  {
    hide EnterLadder, GateOpensAt, Placed;
    hide StepActive, StepBlanking, StepBlanked, StepWaking, StepRenderPending, StepStaged;
    LadderEntered(a.m, 0, now, CGraceExpired);
  }

  lemma ExplainedBlanking(a: Audit, e: Event)
    requires Explained(a) && a.m.phase.Blanking? && e.Feed? && !Operator(e)
    ensures Explained(Witness(a, e))
  {
    hide StepActive, StepGrace, StepBlanked, StepWaking, StepRenderPending, StepStaged, TeardownToActive, EnterActive;
  }

  lemma ExplainedBlanked(a: Audit, e: Event)
    requires Explained(a) && a.m.phase.Blanked? && e.Feed? && !Operator(e)
    ensures Explained(Witness(a, e))
  {
    hide StepActive, StepGrace, StepBlanking, StepWaking, StepRenderPending, StepStaged, EnterActive, EnterLadder;
    LadderEntered(a.m, NextRung(a.m), e.now, CStageTick);
  }

  lemma ExplainedPending(a: Audit, e: Event)
    requires Explained(a) && a.m.phase.RenderPending? && e.Feed? && !Operator(e)
    ensures Explained(Witness(a, e))
  {
    hide StepActive, StepGrace, StepBlanking, StepBlanked, StepWaking, StepStaged;
    hide EnterActive, TeardownToActive, EnterLadder, GainOwnership;
    match e.input
    case RenderResult(_, _) => LadderEntered(a.m, NextController(a.m.cfg.ladder, NextRung(a.m)), e.now, CRenderFailed);
    case OwnershipChanged(_) => GainedKeeps(a.m, e.now);
    case _ =>
  }

  lemma ExplainedStaged(a: Audit, e: Event)
    requires Explained(a) && a.m.phase.Staged? && e.Feed? && !Operator(e)
    ensures Explained(Witness(a, e))
  {
    hide StepActive, StepGrace, StepBlanking, StepBlanked, StepWaking, StepRenderPending;
    hide EnterActive, TeardownToActive, EnterLadder, GainOwnership;
    match e.input
    case StageTick(_) => LadderEntered(a.m, NextRung(a.m), e.now, CStageTick);
    case OwnershipChanged(_) => GainedKeeps(a.m, e.now);
    case _ =>
  }

  lemma GainedKeeps(m: Machine, now: Instant)
    requires InLadderRender(m.phase)
    ensures var n := GainOwnership(m, now).m; n.owned && (n.phase.Waking? || (n.phase == m.phase && n.zone == m.zone))
  {
    hide EnterActive, TeardownToActive;
    LeadsAwake();
  }

  /** Every step but an unbidden tick keeps dark phases explained. */
  lemma ExplainedExactlyUnlessUnbidden(a: Audit, e: Event)
    requires Sturdy(a.m) && Explained(a)
    ensures Explained(Witness(a, e)) <==> !Unbidden(a, e)
  {
    hide Sturdy, Step;
    if e.Feed? && !Operator(e) {
      match a.m.phase
      case Grace(_) => if e.input.Tick? { ExplainedOnTick(a, e.now); } else { LitStays(a.m, e.input, e.now); }
      case RenderPending(_, _) => ExplainedPending(a, e);
      case Staged(_, _) => ExplainedStaged(a, e);
      case Blanking => ExplainedBlanking(a, e);
      case Blanked => ExplainedBlanked(a, e);
      case Active | Waking => LitStays(a.m, e.input, e.now);
    }
  }

  lemma QuietActive(m: Machine, now: Instant, cause: Cause)
    ensures !Darkens(EnterActive(m, now, cause).fx) && !Darkens(TeardownToActive(m, now, cause).fx)
  {
  }

  predicate MayDarken(m: Machine, input: Input) {
    || input.ForceBlank? || input.SoftBlank?
    || (m.owned && (input.Tick? || input.StageTick?))
    || (m.phase.RenderPending? && input.RenderResult? && !input.ok)
  }

  lemma DarkensAwake(m: Machine, input: Input, now: Instant)
    requires m.phase.Active? || m.phase.Waking? || m.phase.Grace?
    ensures Darkens(Step(m, input, now).fx) ==> MayDarken(m, input)
  {
    hide StepBlanking, StepBlanked, StepRenderPending, StepStaged, EnterActive, EnterLadder, TeardownToActive;
    QuietActive(m.(zone := Some(true)), now, CPresenceDuringGrace);
    QuietActive(m, now, CForceWake);
    QuietActive(m, now, CInputWake);
    QuietActive(m.(cmds := m.cmds.(lastWake := Some(now))), now, CWakeCompleted);
  }

  lemma DarkensBlank(m: Machine, input: Input, now: Instant)
    requires m.phase.Blanking? || m.phase.Blanked?
    ensures Darkens(Step(m, input, now).fx) ==> MayDarken(m, input)
  {
    hide StepActive, StepGrace, StepWaking, StepRenderPending, StepStaged, EnterActive, EnterLadder, TeardownToActive;
    QuietActive(m.(pendingWake := false), now, CBlankFailed);
    QuietActive(m.(owned := false), now, COwnershipYielded);
  }

  lemma DarkensOnRender(m: Machine, input: Input, now: Instant)
    requires InLadderRender(m.phase)
    ensures Darkens(Step(m, input, now).fx) ==> MayDarken(m, input)
  {
    hide StepActive, StepGrace, StepBlanking, StepBlanked, StepWaking, EnterActive, EnterLadder, TeardownToActive;
    var z := if input.ZonePresent? then m.(zone := Some(input.present))
             else if input.OwnershipChanged? then m.(owned := input.owns) else m;
    QuietActive(z, now, CPresenceDetected);
    QuietActive(z, now, CInputWake);
    QuietActive(z, now, CForceWake);
    QuietActive(z, now, COwnershipYielded);
    QuietActive(z, now, COwnershipAcquired);
  }

  /** Of every input in every state, only an operator blank, a tick on an owned panel, or a
      failed render can blank the panel or raise an overlay. */
  lemma DarkensOnlyBy(m: Machine, input: Input, now: Instant)
    ensures Darkens(Step(m, input, now).fx) ==> MayDarken(m, input)
  {
    hide Step, Darkens, MayDarken;
    if InLadderRender(m.phase) {
      DarkensOnRender(m, input, now);
    } else if m.phase.Blanking? || m.phase.Blanked? {
      DarkensBlank(m, input, now);
    } else {
      DarkensAwake(m, input, now);
    }
  }

  function AuditAt(a: Audit, es: seq<Event>, i: nat): Audit
    requires i <= |es|
  {
    if i == 0 then a else Witness(AuditAt(a, es, i - 1), es[i - 1])
  }

  function NewAudit(timings: Timings, ladder: seq<LadderStage>, t0: Instant): Audit {
    Audit(New(timings, ladder, t0), false, false)
  }

  lemma {:induction false} AuditsTheRun(timings: Timings, ladder: seq<LadderStage>, t0: Instant, es: seq<Event>, i: nat)
    requires i <= |es|
    ensures AuditAt(NewAudit(timings, ladder, t0), es, i).m == At(New(timings, ladder, t0), es, i)
  {
    hide Apply;
    if i > 0 {
      AuditsTheRun(timings, ladder, t0, es, i - 1);
    }
  }

  lemma AuditedStep(timings: Timings, ladder: seq<LadderStage>, t0: Instant, es: seq<Event>, i: nat)
    requires i < |es|
    ensures var a := AuditAt(NewAudit(timings, ladder, t0), es, i);
            && AuditAt(NewAudit(timings, ladder, t0), es, i + 1) == Witness(a, es[i])
            && (Explained(a) ==> (Explained(Witness(a, es[i])) <==> !Unbidden(a, es[i])))
  {
    hide Apply, Sturdy, Explained, Unbidden, Witness, New;
    var a := AuditAt(NewAudit(timings, ladder, t0), es, i);
    AuditsTheRun(timings, ladder, t0, es, i);
    SturdyThroughout(timings, ladder, t0, es, i);
    if Explained(a) {
      ExplainedExactlyUnlessUnbidden(a, es[i]);
    }
  }

  lemma {:induction false} ExplainedUntilUnbidden(timings: Timings, ladder: seq<LadderStage>, t0: Instant,
                                                  es: seq<Event>, i: nat)
    requires i <= |es|
    requires forall k :: 0 <= k < i ==> !Unbidden(AuditAt(NewAudit(timings, ladder, t0), es, k), es[k])
    ensures Explained(AuditAt(NewAudit(timings, ladder, t0), es, i))
  {
    hide Apply, Unbidden, Witness;
    if i > 0 {
      ExplainedUntilUnbidden(timings, ladder, t0, es, i - 1);
      AuditedStep(timings, ladder, t0, es, i - 1);
    }
  }

  /** Over every run: dark phases are explained at every point, if and only if no tick of the run
      takes an unexplained countdown to the ladder. */
  lemma DarkExplainedExactlyUnlessUnbidden(timings: Timings, ladder: seq<LadderStage>, t0: Instant, es: seq<Event>)
    ensures var a0 := NewAudit(timings, ladder, t0);
            (forall i :: 0 <= i <= |es| ==> Explained(AuditAt(a0, es, i))) <==>
            (forall i :: 0 <= i < |es| ==> !Unbidden(AuditAt(a0, es, i), es[i]))
  {
    hide Apply, Unbidden, Witness, Explained, AuditAt;
    var a0 := NewAudit(timings, ladder, t0);
    if forall i :: 0 <= i < |es| ==> !Unbidden(AuditAt(a0, es, i), es[i]) {
      forall i | 0 <= i <= |es| ensures Explained(AuditAt(a0, es, i)) {
        ExplainedUntilUnbidden(timings, ladder, t0, es, i);
      }
    } else {
      var i :| 0 <= i < |es| && Unbidden(AuditAt(a0, es, i), es[i]);
      var k := UnexplainedNear(timings, ladder, t0, es, i);
      assert !Explained(AuditAt(a0, es, k));
    }
  }

  lemma UnexplainedNear(timings: Timings, ladder: seq<LadderStage>, t0: Instant, es: seq<Event>, i: nat)
      returns (k: nat)
    requires i < |es| && Unbidden(AuditAt(NewAudit(timings, ladder, t0), es, i), es[i])
    ensures k <= |es| && !Explained(AuditAt(NewAudit(timings, ladder, t0), es, k))
  {
    hide Apply, Unbidden, Witness, Explained, AuditAt;
    AuditedStep(timings, ladder, t0, es, i);
    k := if Explained(AuditAt(NewAudit(timings, ladder, t0), es, i)) then i + 1 else i;
  }

  // ── Runs without an operator's blank ────────────────────────────────────

  lemma {:induction false} NoOperatorNoExcuse(timings: Timings, ladder: seq<LadderStage>, t0: Instant, es: seq<Event>,
                                              i: nat)
    requires i <= |es| && forall k :: 0 <= k < |es| ==> !Operator(es[k])
    ensures var a := AuditAt(NewAudit(timings, ladder, t0), es, i); !a.sincePresence && !a.sinceOwnership
  {
    hide Apply;
    if i > 0 {
      NoOperatorNoExcuse(timings, ladder, t0, es, i - 1);
    }
  }

  /** Without an operator nothing forces the leak, and no tick is unbidden. */
  lemma NothingUnbidden(timings: Timings, ladder: seq<LadderStage>, t0: Instant, es: seq<Event>, i: nat)
    requires i <= |es| && forall k :: 0 <= k < |es| ==> !Operator(es[k])
    ensures Core(At(New(timings, ladder, t0), es, i))
    ensures i < |es| ==> !Unbidden(AuditAt(NewAudit(timings, ladder, t0), es, i), es[i])
  {
    hide At, AuditAt, New, Sturdy, GateOpensAt, StageCoherent;
    CoreThroughout(timings, ladder, t0, es, i);
    AuditsTheRun(timings, ladder, t0, es, i);
  }

  /** In every run without ForceBlank and SoftBlank, every dark phase is backed by a reported
      absence, a blank in flight also by a wake already pending, and every IssueBlank or
      ShowRender is emitted while the panel is owned. */
  lemma PresentRoomsNeverDark(timings: Timings, ladder: seq<LadderStage>, t0: Instant, es: seq<Event>, i: nat)
    requires i <= |es| && forall k :: 0 <= k < |es| ==> !Operator(es[k])
    ensures var m := At(New(timings, ladder, t0), es, i);
            && (m.phase.Grace? || m.phase.Blanked? || InLadderRender(m.phase) ==> m.zone == Some(false))
            && (m.phase.Blanking? ==> m.zone == Some(false) || m.pendingWake)
            && (i < |es| && Darkens(Apply(m, es[i]).fx) ==> m.owned)
  {
    hide Step, Darkens, Sturdy, StageCoherent, Unbidden, Operator, At, AuditAt, New;
    forall k | 0 <= k < i ensures !Unbidden(AuditAt(NewAudit(timings, ladder, t0), es, k), es[k]) {
      NothingUnbidden(timings, ladder, t0, es, k);
    }
    ExplainedUntilUnbidden(timings, ladder, t0, es, i);
    NothingUnbidden(timings, ladder, t0, es, i);
    AuditsTheRun(timings, ladder, t0, es, i);
    NoOperatorNoExcuse(timings, ladder, t0, es, i);
    OwnedWhenDarkening(timings, ladder, t0, es, i);
  }

  lemma OwnedWhenDarkening(timings: Timings, ladder: seq<LadderStage>, t0: Instant, es: seq<Event>, i: nat)
    requires i < |es| ==> !Operator(es[i])
    requires i <= |es| && Explained(AuditAt(NewAudit(timings, ladder, t0), es, i))
    requires !AuditAt(NewAudit(timings, ladder, t0), es, i).sinceOwnership
    ensures var m := At(New(timings, ladder, t0), es, i); i < |es| && Darkens(Apply(m, es[i]).fx) ==> m.owned
  {
    hide Step, Darkens, AuditAt, At, New;
    AuditsTheRun(timings, ladder, t0, es, i);
    var m := At(New(timings, ladder, t0), es, i);
    if i < |es| && es[i].Feed? {
      DarkensOnlyBy(m, es[i].input, es[i].now);
    } else if i < |es| {
      HoldIsQuiet(m, es[i]);
    }
  }

  lemma HoldIsQuiet(m: Machine, e: Event)
    requires e.SetHold?
    ensures !Darkens(Apply(m, e).fx)
  {
  }
}
