/** What each input asks for and gets, whatever the phase: presence and wake requests light the panel,
    blank requests darken it, a lost panel is let go and a regained one reclaimed, answers move only
    what waits for them, and overlays command nothing. */
module Requests {
  import opened DisplayTypes
  import opened DisplaySpec
  import opened DisplayRuns
  import Stages = StageTicks

  // ── Where a panel may be left ───────────────────────────────────────────

  /** A whole grace period from now, frozen if an overlay is on. */
  predicate CountsAnew(n: Machine, now: Instant) {
    && n.phase == Grace(now + n.cfg.timings.gracePeriod)
    && n.graceFrozen == if OverlayOn(n) then Some(n.cfg.timings.gracePeriod) else None
  }

  /** Lit, off the ladder; in a zone reported absent and not held back, counting anew. */
  predicate Relit(n: Machine, now: Instant) {
    n.stage.current.None? && if n.zone == Some(false) && !n.inputWakeHold then CountsAnew(n, now) else n.phase.Active?
  }

  /** A fresh wake command sent and awaited. */
  predicate Wakes(m: Machine, n: Machine) {
    n.phase.Waking? && n.cmds.gen == m.cmds.gen + 1 && n.cmds.lastWakeGen == Some(n.cmds.gen)
  }

  /** A fresh blank command sent and awaited. */
  predicate Blanks(m: Machine, n: Machine) {
    n.phase.Blanking? && n.cmds.gen == m.cmds.gen + 1 && n.cmds.lastBlankGen == Some(n.cmds.gen)
  }

  /** Nothing moved: phase, commands, ladder and pending wake as before. */
  predicate Still(m: Machine, n: Machine) {
    && n.phase == m.phase && n.cmds == m.cmds && n.stage == m.stage
    && n.pendingWake == m.pendingWake && n.graceFrozen == m.graceFrozen
  }

  /** Nothing moved but that a wake is now pending. */
  predicate Pends(m: Machine, n: Machine) { n.phase.Blanking? && n.pendingWake && Still(m.(pendingWake := true), n) }

  /** On rung `k`, its surface or its blank under way; past the end, lit. */
  predicate OnRung(m: Machine, n: Machine, k: nat, now: Instant) {
    if k >= |m.cfg.ladder| then Relit(n, now)
    else
      && n.stage.current == Some(k) && n.stage.gen == m.stage.gen + 1
      && if m.cfg.ladder[k].kind.IsRender() then n.phase == RenderPending(k, n.stage.gen) && n.cmds == m.cmds
         else Blanks(m, n)
  }

  // ── What each input gets ────────────────────────────────────────────────

  predicate PresenceObeyed(m: Machine, now: Instant, n: Machine) {
    match m.phase
    case Grace(_) | RenderPending(_, _) | Staged(_, _) => n.phase.Active? && n.stage.current.None?
    case Blanking => Pends(m, n)
    case Blanked => Wakes(m, n)
    case Active | Waking => Still(m, n)
  }

  predicate AbsenceObeyed(m: Machine, now: Instant, n: Machine) {
    if m.phase.Active? then CountsAnew(n, now) else Still(m, n)
  }

  predicate WakeObeyed(m: Machine, now: Instant, n: Machine) {
    match m.phase
    case Grace(_) | RenderPending(_, _) | Staged(_, _) => Relit(n, now)
    case Blanking => Pends(m, n)
    case Blanked | Waking => Wakes(m, n)
    case Active => Still(m, n)
  }

  predicate ForceObeyed(m: Machine, n: Machine) {
    if m.phase.Blanking? || m.phase.Blanked? then Still(m, n)
    else Blanks(m, n) && (InLadderRender(m.phase) ==> n.stage.current.None?) && (m.phase.Grace? ==> n.graceFrozen.None?)
  }

  predicate SoftObeyed(m: Machine, now: Instant, n: Machine) {
    if m.phase.Blanking? || m.phase.Blanked? || m.phase.Waking? then Still(m, n) else OnRung(m, n, 0, now)
  }

  predicate LossObeyed(m: Machine, now: Instant, n: Machine) {
    if m.phase.Blanked? || InLadderRender(m.phase) then Relit(n, now) else Still(m, n)
  }

  /** Someone is there, or an overlay says that nothing may darken now. */
  predicate Wanted(m: Machine) { m.zone == Some(true) || OverlayOn(m) }

  predicate GainObeyed(m: Machine, n: Machine) {
    if m.phase.Grace? || m.phase.Waking? || !Wanted(m) then Still(m, n)
    else if m.phase.Blanking? then Pends(m, n)
    else Wakes(m, n)
  }

  predicate BlankAnswered(m: Machine, gen: nat, ok: bool, now: Instant, n: Machine) {
    if !m.phase.Blanking? || m.cmds.lastBlankGen != Some(gen) then Still(m, n)
    else
      && !n.pendingWake
      && (if ok && m.pendingWake then Wakes(m, n)
          else if ok then n.phase.Blanked? && n.cmds.gen == m.cmds.gen && n.stage.current == m.stage.current
          else if m.zone == Some(false) then CountsAnew(n, now)
          else n.phase.Active?)
  }

  predicate WakeAnswered(m: Machine, gen: nat, ok: bool, now: Instant, n: Machine) {
    if !m.phase.Waking? || m.cmds.lastWakeGen != Some(gen) then Still(m, n)
    else if ok then Relit(n, now)
    else Wakes(m, n)
  }

  /** The least controller rung above `k`, or the end of the ladder. */
  predicate FirstAbove(ladder: seq<LadderStage>, k: nat, c: nat) {
    && k < c <= |ladder|
    && (c < |ladder| ==> ladder[c].kind.Controller?)
    && forall j :: k < j < c ==> ladder[j].kind.IsRender()
  }

  ghost predicate RenderAnswered(m: Machine, gen: nat, ok: bool, now: Instant, n: Machine) {
    if !m.phase.RenderPending? || gen != m.phase.pendingGen then Still(m, n)
    else if ok then n.phase == Staged(m.phase.idx, gen) && n.cmds == m.cmds && n.stage.current == m.stage.current
    else exists c: nat :: FirstAbove(m.cfg.ladder, m.phase.idx, c) && OnRung(m, n, c, now)
  }

  predicate StageObeyed(m: Machine, gen: nat, now: Instant, n: Machine) {
    if !Stages.Accepts(m, gen) then Still(m, n)
    else OnRung(m, n, if m.stage.current.Some? then m.stage.current.value + 1 else 0, now)
  }

  /** Overlays command nothing, and only Grace is frozen or thawed by them: frozen with what is left,
      thawed to run from now. */
  predicate OverlayObeyed(m: Machine, now: Instant, n: Machine) {
    && n.cmds == m.cmds && n.pendingWake == m.pendingWake && n.stage.current == m.stage.current
    && (match m.phase
        case Grace(until) =>
          if OverlayOn(n) then
            && n.phase == m.phase
            && n.graceFrozen == if m.graceFrozen.Some? then m.graceFrozen else Some(Since(until, now))
          else
            && n.graceFrozen.None?
            && n.phase == if m.graceFrozen.Some? then Grace(now + m.graceFrozen.value) else m.phase
        case _ => n.phase == m.phase && n.graceFrozen == m.graceFrozen)
  }

  /** The instant has come for a running countdown, and nothing forbids. */
  predicate Expires(m: Machine, now: Instant) {
    m.phase.Grace? && m.graceFrozen.None? && m.phase.until <= now && GateOpensAt(m, now).None? && m.owned
  }

  predicate TickObeyed(m: Machine, now: Instant, n: Machine) {
    if m.phase.Waking? then Wakes(m, n)
    else if Slips(m, Feed(Tick, now)) then
      n.phase == Grace(now + m.graceFrozen.value) && n.graceFrozen.None? && n.cmds == m.cmds
    else if Expires(m, now) then OnRung(m, n, 0, now)
    else OverlayObeyed(m, now, n)
  }

  ghost predicate Obeyed(m: Machine, input: Input, now: Instant, n: Machine) {
    match input
    case ZonePresent(present) => if present then PresenceObeyed(m, now, n) else AbsenceObeyed(m, now, n)
    case ForceWake | InputWake => WakeObeyed(m, now, n)
    case ForceBlank => ForceObeyed(m, n)
    case SoftBlank => SoftObeyed(m, now, n)
    case OwnershipChanged(owns) => if owns then GainObeyed(m, n) else LossObeyed(m, now, n)
    case BlankResult(gen, ok) => BlankAnswered(m, gen, ok, now, n)
    case WakeResult(gen, ok) => WakeAnswered(m, gen, ok, now, n)
    case RenderResult(gen, ok) => RenderAnswered(m, gen, ok, now, n)
    case StageTick(gen) => StageObeyed(m, gen, now, n)
    case InhibitorChanged(_) | Pause(_) | Resume => OverlayObeyed(m, now, n)
    case Tick => TickObeyed(m, now, n)
  }

  // ── Phase by phase ──────────────────────────────────────────────────────

  lemma EntriesRelight()
    ensures forall m: Machine, now: Instant, cause: Cause :: Relit(EnterActive(m, now, cause).m, now)
    ensures forall m: Machine, now: Instant, cause: Cause :: Relit(TeardownToActive(m, now, cause).m, now)
  {
  }

  lemma RungReached(m: Machine, a: Machine, k: nat, now: Instant, cause: Cause)
    requires a.cfg == m.cfg && a.cmds == m.cmds && a.stage.gen == m.stage.gen
    ensures OnRung(m, EnterLadder(a, k, now, cause).m, k, now)
  {
    hide EnterActive, NameOf, OnRenderRung;
    EntriesRelight();
  }

  lemma ObeyedActive(m: Machine, input: Input, now: Instant)
    requires Sturdy(m) && m.phase.Active?
    ensures Obeyed(m, input, now, StepActive(m, input, now).m)
  {
    hide EnterLadder, EnterActive, TeardownToActive, OnRung;
    EntriesRelight();
    LeadsAwake();
    RungReached(m, m, 0, now, CSoftBlank);
  }

  lemma ObeyedGraceTick(m: Machine, now: Instant)
    requires Sturdy(m) && m.phase.Grace?
    ensures TickObeyed(m, now, GraceTick(m, now).m)
  {
    hide EnterLadder, GateOpensAt, OnRung, Placed;
    RungReached(m, m, 0, now, CGraceExpired);
  }

  lemma ObeyedGrace(m: Machine, input: Input, now: Instant)
    requires Sturdy(m) && m.phase.Grace?
    ensures Obeyed(m, input, now, StepGrace(m, input, now).m)
  {
    hide EnterLadder, EnterActive, TeardownToActive, OnRung, GraceTick, Placed;
    EntriesRelight();
    LeadsAwake();
    ObeyedGraceTick(m, now);
    RungReached(m, m.(graceFrozen := None), 0, now, CSoftBlank);
  }

  lemma ObeyedBlanking(m: Machine, input: Input, now: Instant)
    requires Sturdy(m) && m.phase.Blanking?
    ensures Obeyed(m, input, now, StepBlanking(m, input, now).m)
  {
    hide EnterActive, TeardownToActive, OnRung, Placed;
    EntriesRelight();
    LeadsAwake();
  }

  lemma ObeyedBlanked(m: Machine, input: Input, now: Instant)
    requires Sturdy(m) && m.phase.Blanked?
    ensures Obeyed(m, input, now, StepBlanked(m, input, now).m)
  {
    hide EnterLadder, EnterActive, TeardownToActive, OnRung, Placed;
    EntriesRelight();
    LeadsAwake();
    RungReached(m, m, NextRung(m), now, CStageTick);
  }

  lemma ObeyedWaking(m: Machine, input: Input, now: Instant)
    requires Sturdy(m) && m.phase.Waking?
    ensures Obeyed(m, input, now, StepWaking(m, input, now).m)
  {
    hide EnterLadder, EnterActive, TeardownToActive, OnRung, Placed;
    EntriesRelight();
    LeadsAwake();
  }

  lemma GainOnRender(m: Machine, now: Instant)
    requires InLadderRender(m.phase)
    ensures GainObeyed(m, GainOwnership(m, now).m)
  {
    hide EnterActive, TeardownToActive;
    LeadsAwake();
  }

  lemma SoftOnRender(m: Machine, now: Instant)
    requires InLadderRender(m.phase)
    ensures SoftObeyed(m, now, SoftBlankOverRender(m, now).m)
  {
    hide EnterLadder, OnRung;
    RungReached(m, m.(stage := m.stage.(current := None)), 0, now, CSoftBlank);
  }

  lemma FailedRender(m: Machine, now: Instant)
    requires Sturdy(m) && m.phase.RenderPending?
    ensures var n := RenderDone(m, false, now).m;
            exists c: nat :: FirstAbove(m.cfg.ladder, m.phase.idx, c) && OnRung(m, n, c, now)
  {
    hide EnterLadder, EnterActive, TeardownToActive, Countdown;
    EntriesRelight();
    var c := NextController(m.cfg.ladder, NextRung(m));
    RungReached(m, m, c, now, CRenderFailed);
    assert FirstAbove(m.cfg.ladder, m.phase.idx, c);
  }

  lemma ObeyedPending(m: Machine, input: Input, now: Instant)
    requires Sturdy(m) && m.phase.RenderPending?
    ensures Obeyed(m, input, now, StepRenderPending(m, input, now).m)
  {
    hide EnterLadder, EnterActive, TeardownToActive, GainOwnership, SoftBlankOverRender, OnRung, AdvanceToController;
    hide FirstAbove;
    EntriesRelight();
    LeadsAwake();
    match input
    case OwnershipChanged(_) => GainOnRender(m, now);
    case SoftBlank => SoftOnRender(m, now);
    case RenderResult(_, _) => FailedRender(m, now);
    case _ =>
  }

  lemma ObeyedStaged(m: Machine, input: Input, now: Instant)
    requires Sturdy(m) && m.phase.Staged?
    ensures Obeyed(m, input, now, StepStaged(m, input, now).m)
  {
    hide EnterLadder, EnterActive, TeardownToActive, GainOwnership, SoftBlankOverRender, OnRung;
    EntriesRelight();
    LeadsAwake();
    match input
    case OwnershipChanged(_) => GainOnRender(m, now);
    case SoftBlank => SoftOnRender(m, now);
    case StageTick(_) => RungReached(m, m, NextRung(m), now, CStageTick);
    case _ =>
  }

  /** In every state of every run, every input gets exactly what it asks for. */
  lemma EveryInputObeyed(m: Machine, input: Input, now: Instant)
    requires Sturdy(m)
    ensures Obeyed(m, input, now, Step(m, input, now).m)
  {
    hide Obeyed, Sturdy, StepActive, StepGrace, StepBlanking, StepBlanked, StepWaking, StepRenderPending, StepStaged;
    match m.phase
    case Active => ObeyedActive(m, input, now);
    case Grace(_) => ObeyedGrace(m, input, now);
    case Blanking => ObeyedBlanking(m, input, now);
    case Blanked => ObeyedBlanked(m, input, now);
    case Waking => ObeyedWaking(m, input, now);
    case RenderPending(_, _) => ObeyedPending(m, input, now);
    case Staged(_, _) => ObeyedStaged(m, input, now);
  }
}
