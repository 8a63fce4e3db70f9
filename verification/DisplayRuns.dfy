/** Runs of one display: arbitrary sequences of inputs and hold-flag writes, and the invariant
    every run keeps unless an operator forces a blank over a leaked frozen countdown. */
module DisplayRuns {
  import opened DisplayTypes
  import opened DisplaySpec

  /** One call on the machine: an input, or the engine writing the input-wake hold flag. */
  datatype Event = Feed(input: Input, now: Instant) | SetHold(active: bool)

  function Apply(m: Machine, e: Event): Out {
    match e
    case Feed(input, now) => Step(m, input, now)
    case SetHold(active) => Out(m.(inputWakeHold := active), [])
  }

  /** The machine before event `i` (after the whole run when `i` is its length). */
  function At(m0: Machine, es: seq<Event>, i: nat): Machine
    requires i <= |es|
  {
    if i == 0 then m0 else Apply(At(m0, es, i - 1), es[i - 1]).m
  }

  /** What comes later does not change what was before. */
  lemma {:induction false} SamePrefix(m0: Machine, es: seq<Event>, e: Event, i: nat)
    requires i <= |es|
    ensures At(m0, es + [e], i) == At(m0, es, i)
  {
    hide Apply;
    if i > 0 {
      SamePrefix(m0, es, e, i - 1);
      assert (es + [e])[i - 1] == es[i - 1];
    }
  }

  /** The machine after a run. */
  function Fold(m: Machine, es: seq<Event>): Machine
    decreases |es|
  {
    if es == [] then m else Fold(Apply(m, es[0]).m, es[1..])
  }

  lemma {:induction false} FoldConcat(m: Machine, a: seq<Event>, b: seq<Event>)
    ensures Fold(m, a + b) == Fold(Fold(m, a), b)
    decreases |a|
  {
    hide Apply;
    if a == [] {
      assert a + b == b;
    } else {
      assert (a + b)[1..] == a[1..] + b;
      FoldConcat(Apply(m, a[0]).m, a[1..], b);
    }
  }

  /** ForceBlank reaching a Waking machine that still holds a frozen Grace countdown. */
  predicate ForcedOverLeak(m: Machine, e: Event) {
    e.Feed? && e.input.ForceBlank? && m.phase.Waking? && m.graceFrozen.Some?
  }

  predicate LeakNeverForced(m0: Machine, es: seq<Event>) {
    forall i :: 0 <= i < |es| ==> !ForcedOverLeak(At(m0, es, i), es[i])
  }

  /** A countdown frozen outside Grace thaws when a timed pause ends: whatever the phase, the
      machine falls into Grace. */
  predicate Slips(m: Machine, e: Event) {
    && e.Feed? && e.input.Tick? && m.graceFrozen.Some? && !m.phase.Grace? && !m.phase.Waking?
    && PauseDue(m, e.now) && !m.overlays.inhibited
  }

  /** A Grace countdown that is running. */
  predicate Live(m: Machine) { m.phase.Grace? && m.graceFrozen.None? }

  /** A closed blank gate opens strictly later. */
  lemma GateFuture(m: Machine, now: Instant)
    ensures GateOpensAt(m, now).Some? ==> GateOpensAt(m, now).value > now
  {
  }

  // ── What not even a forced leak breaks ──────────────────────────────────

  /** The command awaited is the newest one issued. */
  predicate AwaitsNewest(m: Machine) {
    && (m.phase.Blanking? ==> m.cmds.lastBlankGen == Some(m.cmds.gen))
    && (m.phase.Waking? ==> m.cmds.lastWakeGen == Some(m.cmds.gen))
  }

  /** The phase agrees with the rung. */
  predicate Placed(m: Machine) {
    && AwaitsNewest(m)
    && (m.stage.current.Some? ==> m.stage.current.value < |m.cfg.ladder|)
    && (m.phase.Active? ==> m.stage.current.None?)
    && (m.phase.RenderPending? ==> m.stage.current == Some(m.phase.idx) && m.phase.pendingGen == m.stage.gen)
    && (m.phase.Staged? ==> m.stage.current == Some(m.phase.idx) && m.phase.surfaceGen <= m.stage.gen)
  }

  /** The countdown is frozen in Grace exactly under an overlay, never in Active, and where it
      is frozen outside Grace it is whole. */
  predicate Countdown(m: Machine) {
    && (m.phase.Active? ==> m.graceFrozen.None?)
    && (m.phase.Grace? ==> (m.graceFrozen.Some? <==> OverlayOn(m)))
    && (m.graceFrozen.Some? && !m.phase.Grace? ==> m.graceFrozen == Some(m.cfg.timings.gracePeriod))
  }

  /** The part of the invariant that holds in every run without exception. */
  predicate Sturdy(m: Machine) { Placed(m) && Countdown(m) }

  /** Where EnterActive and TeardownToActive lead. */
  predicate Awake(m: Machine, n: Machine) {
    && n == m.(phase := n.phase, stage := Stage(m.stage.gen, None, None, None), graceFrozen := n.graceFrozen)
    && (n.phase.Active? || n.phase.Grace?)
    && (n.phase.Active? ==> n.graceFrozen.None?)
    && (n.phase.Grace? ==>
          && m.zone == Some(false)
          && n.graceFrozen == if OverlayOn(m) then Some(m.cfg.timings.gracePeriod) else None)
  }

  lemma LeadsAwake()
    ensures forall m: Machine, now: Instant, cause: Cause :: Awake(m, EnterActive(m, now, cause).m)
    ensures forall m: Machine, now: Instant, cause: Cause :: Awake(m, TeardownToActive(m, now, cause).m)
  {
  }

  lemma PlacedActive(m: Machine, input: Input, now: Instant)
    requires Placed(m) && m.phase.Active?
    ensures var n := StepActive(m, input, now).m; Placed(n) && n.cfg == m.cfg
  {
    hide EnterActive, TeardownToActive;
    LeadsAwake();
  }

  lemma PlacedLadder(m: Machine, idx: nat, now: Instant, cause: Cause)
    ensures var n := EnterLadder(m, idx, now, cause).m; Placed(n) && n.cfg == m.cfg
  {
    hide EnterActive, TeardownToActive;
    LeadsAwake();
  }

  lemma PlacedGraceTick(m: Machine, now: Instant)
    requires Placed(m) && m.phase.Grace?
    ensures var n := GraceTick(m, now).m; Placed(n) && n.cfg == m.cfg
  {
    hide EnterLadder, GateOpensAt;
    PlacedLadder(AutoResume(m, now).m, 0, now, CGraceExpired);
  }

  lemma PlacedGrace(m: Machine, input: Input, now: Instant)
    requires Placed(m) && m.phase.Grace?
    ensures var n := StepGrace(m, input, now).m; Placed(n) && n.cfg == m.cfg
  {
    hide EnterActive, TeardownToActive, EnterLadder, GraceTick;
    LeadsAwake();
    PlacedGraceTick(m, now);
    PlacedLadder(m.(graceFrozen := None), 0, now, CSoftBlank);
  }

  lemma PlacedBlanking(m: Machine, input: Input, now: Instant)
    requires Placed(m) && m.phase.Blanking?
    ensures var n := StepBlanking(m, input, now).m; Placed(n) && n.cfg == m.cfg
  {
    hide EnterActive, TeardownToActive;
    LeadsAwake();
  }

  lemma PlacedBlanked(m: Machine, input: Input, now: Instant)
    requires Placed(m) && m.phase.Blanked?
    ensures var n := StepBlanked(m, input, now).m; Placed(n) && n.cfg == m.cfg
  {
    hide EnterActive, TeardownToActive;
    LeadsAwake();
  }

  lemma PlacedWaking(m: Machine, input: Input, now: Instant)
    requires Placed(m) && m.phase.Waking?
    ensures var n := StepWaking(m, input, now).m; Placed(n) && n.cfg == m.cfg
  {
    hide EnterActive, TeardownToActive;
    LeadsAwake();
  }

  lemma PlacedRenderPending(m: Machine, input: Input, now: Instant)
    requires Placed(m) && m.phase.RenderPending?
    ensures var n := StepRenderPending(m, input, now).m; Placed(n) && n.cfg == m.cfg
  {
    hide EnterActive, TeardownToActive, EnterLadder, GainOwnership;
    LeadsAwake();
    match input
    case RenderResult(_, _) => PlacedLadder(m, NextController(m.cfg.ladder, NextRung(m)), now, CRenderFailed);
    case SoftBlank => PlacedLadder(m.(stage := m.stage.(current := None)), 0, now, CSoftBlank);
    case OwnershipChanged(_) => PlacedGain(m, now);
    case _ =>
  }

  lemma PlacedStaged(m: Machine, input: Input, now: Instant)
    requires Placed(m) && m.phase.Staged?
    ensures var n := StepStaged(m, input, now).m; Placed(n) && n.cfg == m.cfg
  {
    hide Placed, EnterActive, TeardownToActive, EnterLadder, GainOwnership;
    if input.StageTick? {
      PlacedLadder(m, NextRung(m), now, CStageTick);
    } else if input.SoftBlank? {
      PlacedLadder(m.(stage := m.stage.(current := None)), 0, now, CSoftBlank);
    } else if input == OwnershipChanged(true) {
      PlacedGain(m, now);
    } else {
      PlacedOnStage(m, input, now);
    }
  }

  lemma PlacedOnStage(m: Machine, input: Input, now: Instant)
    requires Placed(m) && m.phase.Staged? && !input.StageTick? && !input.SoftBlank? && input != OwnershipChanged(true)
    ensures var n := StepStaged(m, input, now).m; Placed(n) && n.cfg == m.cfg
  {
    hide EnterActive, TeardownToActive;
    LeadsAwake();
  }

  lemma PlacedGain(m: Machine, now: Instant)
    requires InLadderRender(m.phase) && Placed(m)
    ensures var n := GainOwnership(m, now).m; Placed(n) && n.cfg == m.cfg
  {
    hide EnterActive, TeardownToActive;
    LeadsAwake();
  }

  lemma CountsActive(m: Machine, input: Input, now: Instant)
    requires Countdown(m) && m.phase.Active?
    ensures Countdown(StepActive(m, input, now).m)
  {
    hide EnterActive, TeardownToActive;
    LeadsAwake();
  }

  lemma CountsBlanking(m: Machine, input: Input, now: Instant)
    requires Countdown(m) && m.phase.Blanking?
    ensures Countdown(StepBlanking(m, input, now).m)
  {
    hide EnterActive, TeardownToActive;
    LeadsAwake();
  }

  lemma CountsBlanked(m: Machine, input: Input, now: Instant)
    requires Countdown(m) && m.phase.Blanked?
    ensures Countdown(StepBlanked(m, input, now).m)
  {
    hide EnterActive, TeardownToActive;
    LeadsAwake();
  }

  lemma CountsWaking(m: Machine, input: Input, now: Instant)
    requires Countdown(m) && m.phase.Waking?
    ensures Countdown(StepWaking(m, input, now).m)
  {
    hide EnterActive, TeardownToActive;
    LeadsAwake();
  }

  lemma CountsRenderPending(m: Machine, input: Input, now: Instant)
    requires Countdown(m) && m.phase.RenderPending?
    ensures Countdown(StepRenderPending(m, input, now).m)
  {
    hide EnterActive, TeardownToActive, EnterLadder, GainOwnership;
    LeadsAwake();
    match input
    case RenderResult(_, _) => CountsLadder(m, NextController(m.cfg.ladder, NextRung(m)), now, CRenderFailed);
    case SoftBlank => CountsLadder(m.(stage := m.stage.(current := None)), 0, now, CSoftBlank);
    case OwnershipChanged(_) => CountsGain(m, now);
    case _ =>
  }

  lemma CountsStaged(m: Machine, input: Input, now: Instant)
    requires Countdown(m) && m.phase.Staged?
    ensures Countdown(StepStaged(m, input, now).m)
  {
    hide EnterActive, TeardownToActive, EnterLadder, GainOwnership;
    LeadsAwake();
    match input
    case StageTick(_) => CountsLadder(m, NextRung(m), now, CStageTick);
    case SoftBlank => CountsLadder(m.(stage := m.stage.(current := None)), 0, now, CSoftBlank);
    case OwnershipChanged(_) => CountsGain(m, now);
    case _ =>
  }

  lemma CountsLadder(m: Machine, idx: nat, now: Instant, cause: Cause)
    requires m.graceFrozen.Some? ==> m.graceFrozen == Some(m.cfg.timings.gracePeriod)
    ensures Countdown(EnterLadder(m, idx, now, cause).m)
  {
    hide EnterActive, OnRenderRung, NameOf;
    if idx >= |m.cfg.ladder| {
      CountsActiveEntry(m, now, cause);
    }
  }

  lemma CountsActiveEntry(m: Machine, now: Instant, cause: Cause)
    ensures Countdown(EnterActive(m, now, cause).m)
  {
    hide EnterActive;
    LeadsAwake();
  }

  lemma CountsGain(m: Machine, now: Instant)
    requires InLadderRender(m.phase) && Countdown(m)
    ensures Countdown(GainOwnership(m, now).m)
  {
    hide EnterActive, TeardownToActive;
    LeadsAwake();
  }

  lemma CountsGraceTick(m: Machine, now: Instant)
    requires Countdown(m) && m.phase.Grace?
    ensures Countdown(GraceTick(m, now).m)
  {
    hide EnterLadder, GateOpensAt;
    if m.graceFrozen.None? {
      CountsLadder(m, 0, now, CGraceExpired);
    }
  }

  lemma CountsGrace(m: Machine, input: Input, now: Instant)
    requires Countdown(m) && m.phase.Grace?
    ensures Countdown(StepGrace(m, input, now).m)
  {
    hide EnterActive, TeardownToActive, EnterLadder, GraceTick;
    LeadsAwake();
    CountsGraceTick(m, now);
    CountsLadder(m.(graceFrozen := None), 0, now, CSoftBlank);
  }

  lemma SturdyKept(m: Machine, e: Event)
    requires Sturdy(m)
    ensures var n := Apply(m, e).m; Sturdy(n) && n.cfg == m.cfg
  {
    hide StepActive, StepGrace, StepBlanking, StepBlanked, StepWaking, StepRenderPending, StepStaged;
    if e.Feed? {
      match m.phase
      case Active => PlacedActive(m, e.input, e.now); CountsActive(m, e.input, e.now);
      case Grace(_) => PlacedGrace(m, e.input, e.now); CountsGrace(m, e.input, e.now);
      case Blanking => PlacedBlanking(m, e.input, e.now); CountsBlanking(m, e.input, e.now);
      case Blanked => PlacedBlanked(m, e.input, e.now); CountsBlanked(m, e.input, e.now);
      case Waking => PlacedWaking(m, e.input, e.now); CountsWaking(m, e.input, e.now);
      case RenderPending(_, _) => PlacedRenderPending(m, e.input, e.now); CountsRenderPending(m, e.input, e.now);
      case Staged(_, _) => PlacedStaged(m, e.input, e.now); CountsStaged(m, e.input, e.now);
    }
  }

  /** In every run from `new`, whatever its inputs: the command awaited is the newest, the phase
      agrees with the rung, and the countdown is frozen in Grace exactly under an overlay. */
  lemma {:induction false} SturdyThroughout(timings: Timings, ladder: seq<LadderStage>, t0: Instant, es: seq<Event>,
                                            i: nat)
    requires i <= |es|
    ensures Sturdy(At(New(timings, ladder, t0), es, i)) &&
            At(New(timings, ladder, t0), es, i).cfg == New(timings, ladder, t0).cfg
  {
    hide Apply, Sturdy;
    if i > 0 {
      SturdyThroughout(timings, ladder, t0, es, i - 1);
      SturdyKept(At(New(timings, ladder, t0), es, i - 1), es[i - 1]);
    } else {
      SturdyInitially(timings, ladder, t0);
    }
  }

  lemma SturdyInitially(timings: Timings, ladder: seq<LadderStage>, now: Instant)
    ensures Sturdy(New(timings, ladder, now))
  {
  }

  // ── The invariant ───────────────────────────────────────────────────────

  /** A frozen countdown sits in Grace, or is the leak left behind in Waking. */
  predicate FrozenPlaced(m: Machine) {
    m.graceFrozen.Some? ==> m.phase.Grace? || m.phase.Waking?
  }

  predicate AbsentInGrace(m: Machine) { m.phase.Grace? ==> m.zone == Some(false) }

  /** A render rung is current exactly in the phases that have a surface up or pending. */
  predicate StageCoherent(m: Machine) { OnRenderRung(m) <==> InLadderRender(m.phase) }

  predicate Flags(m: Machine) {
    && FrozenPlaced(m)
    && AbsentInGrace(m)
    && (m.pendingWake ==> m.phase.Blanking?)
  }

  /** A leak found in Waking was already there, or was made on leaving a render rung. */
  predicate LeakOrigin(m: Machine, n: Machine) {
    n.phase.Waking? && n.graceFrozen.Some? ==> InLadderRender(m.phase) || (m.phase.Waking? && m.graceFrozen.Some?)
  }

  predicate Coherent(m: Machine) { Sturdy(m) && StageCoherent(m) }

  predicate Core(m: Machine) { Coherent(m) && Flags(m) }

  lemma CoreInitially(timings: Timings, ladder: seq<LadderStage>, now: Instant)
    ensures Core(New(timings, ladder, now))
  {
  }

  lemma FlagsActive(m: Machine, input: Input, now: Instant)
    requires Core(m) && m.phase.Active?
    ensures var n := StepActive(m, input, now).m; Flags(n) && n.cfg == m.cfg && LeakOrigin(m, n)
  {
  }

  lemma FlagsGrace(m: Machine, input: Input, now: Instant)
    requires Core(m) && m.phase.Grace?
    ensures var n := StepGrace(m, input, now).m; Flags(n) && n.cfg == m.cfg && LeakOrigin(m, n)
  {
  }

  lemma FlagsBlanking(m: Machine, input: Input, now: Instant)
    requires Core(m) && m.phase.Blanking?
    ensures var n := StepBlanking(m, input, now).m; Flags(n) && n.cfg == m.cfg && LeakOrigin(m, n)
  {
  }

  lemma FlagsBlanked(m: Machine, input: Input, now: Instant)
    requires Core(m) && m.phase.Blanked?
    ensures var n := StepBlanked(m, input, now).m; Flags(n) && n.cfg == m.cfg && LeakOrigin(m, n)
  {
  }

  lemma FlagsWaking(m: Machine, input: Input, now: Instant)
    requires Core(m) && m.phase.Waking?
    requires !(input.ForceBlank? && m.graceFrozen.Some?)
    ensures var n := StepWaking(m, input, now).m; Flags(n) && n.cfg == m.cfg && LeakOrigin(m, n)
  {
  }

  lemma FlagsRenderPending(m: Machine, input: Input, now: Instant)
    requires Core(m) && m.phase.RenderPending?
    ensures var n := StepRenderPending(m, input, now).m; Flags(n) && n.cfg == m.cfg && LeakOrigin(m, n)
  {
    hide EnterActive, TeardownToActive;
    LeadsAwake();
  }

  lemma FlagsStaged(m: Machine, input: Input, now: Instant)
    requires Core(m) && m.phase.Staged?
    ensures var n := StepStaged(m, input, now).m; Flags(n) && n.cfg == m.cfg && LeakOrigin(m, n)
  {
    hide EnterActive, TeardownToActive;
    LeadsAwake();
  }

  lemma RungActive(m: Machine, input: Input, now: Instant)
    requires Coherent(m) && m.phase.Active?
    ensures StageCoherent(StepActive(m, input, now).m)
  {
  }

  lemma RungEntry(m: Machine, now: Instant, cause: Cause)
    ensures StageCoherent(EnterActive(m, now, cause).m)
  {
    hide EnterActive;
    LeadsAwake();
  }

  lemma RungLadder(m: Machine, idx: nat, now: Instant, cause: Cause)
    ensures StageCoherent(EnterLadder(m, idx, now, cause).m)
  {
    hide EnterActive, NameOf;
    if idx >= |m.cfg.ladder| {
      RungEntry(m, now, cause);
    }
  }

  lemma RungGraceTick(m: Machine, now: Instant)
    requires Coherent(m) && m.phase.Grace?
    ensures StageCoherent(GraceTick(m, now).m)
  {
    hide EnterLadder, GateOpensAt, Countdown;
    RungLadder(AutoResume(m, now).m, 0, now, CGraceExpired);
  }

  lemma RungGrace(m: Machine, input: Input, now: Instant)
    requires Coherent(m) && m.phase.Grace?
    ensures StageCoherent(StepGrace(m, input, now).m)
  {
    hide EnterActive, EnterLadder, GraceTick, Countdown;
    LeadsAwake();
    RungGraceTick(m, now);
    RungLadder(m.(graceFrozen := None), 0, now, CSoftBlank);
  }

  lemma RungBlanking(m: Machine, input: Input, now: Instant)
    requires Coherent(m) && m.phase.Blanking?
    ensures StageCoherent(StepBlanking(m, input, now).m)
  {
  }

  lemma RungBlanked(m: Machine, input: Input, now: Instant)
    requires Coherent(m) && m.phase.Blanked?
    ensures StageCoherent(StepBlanked(m, input, now).m)
  {
  }

  lemma RungWaking(m: Machine, input: Input, now: Instant)
    requires Coherent(m) && m.phase.Waking?
    ensures StageCoherent(StepWaking(m, input, now).m)
  {
  }

  lemma RungGain(m: Machine, now: Instant)
    requires InLadderRender(m.phase) && StageCoherent(m)
    ensures StageCoherent(GainOwnership(m, now).m)
  {
    hide EnterActive, TeardownToActive;
    LeadsAwake();
  }

  lemma RungRenderPending(m: Machine, input: Input, now: Instant)
    requires Coherent(m) && m.phase.RenderPending? && !Slips(m, Feed(input, now))
    ensures StageCoherent(StepRenderPending(m, input, now).m)
  {
    hide EnterActive, TeardownToActive, EnterLadder, GainOwnership, Countdown;
    LeadsAwake();
    match input
    case RenderResult(_, _) => RungLadder(m, NextController(m.cfg.ladder, NextRung(m)), now, CRenderFailed);
    case SoftBlank => RungLadder(m.(stage := m.stage.(current := None)), 0, now, CSoftBlank);
    case OwnershipChanged(_) => RungGain(m, now);
    case _ =>
  }

  lemma RungStaged(m: Machine, input: Input, now: Instant)
    requires Coherent(m) && m.phase.Staged? && !Slips(m, Feed(input, now))
    ensures StageCoherent(StepStaged(m, input, now).m)
  {
    hide EnterActive, TeardownToActive, EnterLadder, GainOwnership, Countdown;
    LeadsAwake();
    match input
    case StageTick(_) => RungLadder(m, NextRung(m), now, CStageTick);
    case SoftBlank => RungLadder(m.(stage := m.stage.(current := None)), 0, now, CSoftBlank);
    case OwnershipChanged(_) => RungGain(m, now);
    case _ =>
  }

  /** The slip off a surface is the only step that parts phase and rung. */
  lemma CoherentKept(m: Machine, e: Event)
    requires Coherent(m) && !(Slips(m, e) && InLadderRender(m.phase))
    ensures var n := Apply(m, e).m; Coherent(n) && n.cfg == m.cfg
  {
    hide Slips, StepActive, StepGrace, StepBlanking, StepBlanked, StepWaking, StepRenderPending, StepStaged;
    SturdyKept(m, e);
    if e.Feed? {
      match m.phase
      case Active => RungActive(m, e.input, e.now);
      case Grace(_) => RungGrace(m, e.input, e.now);
      case Blanking => RungBlanking(m, e.input, e.now);
      case Blanked => RungBlanked(m, e.input, e.now);
      case Waking => RungWaking(m, e.input, e.now);
      case RenderPending(_, _) => RungRenderPending(m, e.input, e.now);
      case Staged(_, _) => RungStaged(m, e.input, e.now);
    }
  }

  lemma CoreKept(m: Machine, e: Event)
    requires Core(m) && !ForcedOverLeak(m, e)
    ensures var n := Apply(m, e).m; Core(n) && n.cfg == m.cfg && LeakOrigin(m, n)
  {
    hide StepActive, StepGrace, StepBlanking, StepBlanked, StepWaking, StepRenderPending, StepStaged;
    CoreNeverSlips(m, e);
    CoherentKept(m, e);
    if e.Feed? {
      match m.phase
      case Active => FlagsActive(m, e.input, e.now);
      case Grace(_) => FlagsGrace(m, e.input, e.now);
      case Blanking => FlagsBlanking(m, e.input, e.now);
      case Blanked => FlagsBlanked(m, e.input, e.now);
      case Waking => FlagsWaking(m, e.input, e.now);
      case RenderPending(_, _) => FlagsRenderPending(m, e.input, e.now);
      case Staged(_, _) => FlagsStaged(m, e.input, e.now);
    }
  }

  /** The one guard that breaks it: among invariant states, a step displaces a frozen
      countdown exactly when it is ForceBlank over the leak. */
  lemma DisplacedExactlyWhenForced(m: Machine, e: Event)
    requires Core(m)
    ensures Core(Apply(m, e).m) <==> !ForcedOverLeak(m, e)
  {
    hide StepActive, StepGrace, StepBlanking, StepBlanked, StepRenderPending, StepStaged;
    if !ForcedOverLeak(m, e) {
      CoreKept(m, e);
    }
  }

  lemma {:induction false} CoreThroughout(timings: Timings, ladder: seq<LadderStage>, t0: Instant, es: seq<Event>,
                                          i: nat)
    requires LeakNeverForced(New(timings, ladder, t0), es) && i <= |es|
    ensures Core(At(New(timings, ladder, t0), es, i)) &&
            At(New(timings, ladder, t0), es, i).cfg == New(timings, ladder, t0).cfg
  {
    hide Apply, Core;
    CoreInitially(timings, ladder, t0);
    if i > 0 {
      CoreThroughout(timings, ladder, t0, es, i - 1);
      CoreKept(At(New(timings, ladder, t0), es, i - 1), es[i - 1]);
    }
  }

  /** No invariant state can slip: the leak sits in Waking. */
  lemma CoreNeverSlips(m: Machine, e: Event)
    requires Core(m)
    ensures !Slips(m, e)
  {
  }
}
