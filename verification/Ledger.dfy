/** Every field that remembers an input says what the history of inputs says: the zone level, the
    verdict on ownership, the overlays, and when the last wake and the last blank were confirmed. */
module Ledger {
  import opened DisplayTypes
  import opened DisplaySpec
  import opened DisplayRuns
  import Frames = EngineFrames

  // ── One step ────────────────────────────────────────────────────────────

  /** The latest instruction on each overlay; a tick at or after its end ends a timed pause. */
  function OverlaysAfter(v: Overlays, input: Input, now: Instant): Overlays {
    match input
    case InhibitorChanged(on) => v.(inhibited := on)
    case Pause(until) => v.(paused := Some(PauseState(until)))
    case Resume => v.(paused := None)
    case Tick =>
      if v.paused.Some? && v.paused.value.until.Some? && v.paused.value.until.value <= now then v.(paused := None)
      else v
    case _ => v
  }

  /** A success answering the wake command awaited. */
  predicate ConfirmsWake(m: Machine, input: Input) {
    m.phase.Waking? && input.WakeResult? && input.ok && m.cmds.lastWakeGen == Some(input.gen)
  }

  predicate ConfirmsBlank(m: Machine, input: Input) {
    m.phase.Blanking? && input.BlankResult? && input.ok && m.cmds.lastBlankGen == Some(input.gen)
  }

  predicate NamesWake(before: Option<nat>, after: Option<nat>, fx: seq<Effect>) {
    && (forall k :: 0 <= k < |fx| && fx[k].IssueWake? ==> after == Some(fx[k].gen))
    && (after != before ==> exists k :: 0 <= k < |fx| && fx[k].IssueWake?)
  }

  predicate NamesBlank(before: Option<nat>, after: Option<nat>, fx: seq<Effect>) {
    && (forall k :: 0 <= k < |fx| && fx[k].IssueBlank? ==> after == Some(fx[k].gen))
    && (after != before ==> exists k :: 0 <= k < |fx| && fx[k].IssueBlank?)
  }

  /** The newest command of each kind is the one the effects name, if they name any. */
  predicate NamesNewest(m: Machine, o: Out) {
    && NamesWake(m.cmds.lastWakeGen, o.m.cmds.lastWakeGen, o.fx)
    && NamesBlank(m.cmds.lastBlankGen, o.m.cmds.lastBlankGen, o.fx)
  }

  predicate Recorded(m: Machine, input: Input, now: Instant, o: Out) {
    && o.m.overlays == OverlaysAfter(m.overlays, input, now)
    && o.m.cmds.lastWake == (if ConfirmsWake(m, input) then Some(now) else m.cmds.lastWake)
    && o.m.cmds.lastBlank == (if ConfirmsBlank(m, input) then Some(now) else m.cmds.lastBlank)
    && NamesNewest(m, o)
  }

  /** Nothing commanded, nothing recorded. */
  predicate Uncommanding(m: Machine, o: Out) {
    && o.m.cmds == m.cmds && o.m.overlays == m.overlays
    && forall k :: 0 <= k < |o.fx| ==> !o.fx[k].IssueWake? && !o.fx[k].IssueBlank?
  }

  lemma EntriesCommandNothing()
    ensures forall m: Machine, now: Instant, cause: Cause :: Uncommanding(m, EnterActive(m, now, cause))
    ensures forall m: Machine, now: Instant, cause: Cause :: Uncommanding(m, TeardownToActive(m, now, cause))
    ensures forall m: Machine, now: Instant, cause: Cause :: Uncommanding(m, EnterGrace(m, now, cause))
  {
  }

  lemma ArmingCommandsNothing()
    ensures forall m: Machine, limit: Option<Duration>, now: Instant :: Uncommanding(m, ArmStageTick(m, limit, now))
  {
  }

  /** Entering a rung commands at most a blank. */
  predicate Entered(m: Machine, o: Out) {
    && o.m.overlays == m.overlays && o.m.cmds.lastWake == m.cmds.lastWake && o.m.cmds.lastBlank == m.cmds.lastBlank
    && NamesNewest(m, o)
  }

  lemma LadderEntered()
    ensures forall m: Machine, idx: nat, now: Instant, cause: Cause :: Entered(m, EnterLadder(m, idx, now, cause))
  {
    hide EnterActive, TeardownToActive, EnterGrace;
    EntriesCommandNothing();
    forall m: Machine, idx: nat, now: Instant, cause: Cause ensures Entered(m, EnterLadder(m, idx, now, cause)) {
      var o := EnterLadder(m, idx, now, cause);
      if idx < |m.cfg.ladder| && !m.cfg.ladder[idx].kind.IsRender() {
        assert o.fx[|o.fx| - 1] == IssueBlank(m.cmds.gen + 1, m.cfg.ladder[idx].kind.mode);
      }
    }
  }

  lemma WakeStarted(m: Machine, prefix: seq<Effect>, now: Instant)
    requires forall k :: 0 <= k < |prefix| ==> !prefix[k].IssueWake? && !prefix[k].IssueBlank?
    ensures Entered(m, StartWake(m, prefix, now))
  {
    assert StartWake(m, prefix, now).fx[|prefix|] == IssueWake(m.cmds.gen + 1);
  }

  lemma BlankStarted(m: Machine, prefix: seq<Effect>)
    requires forall k :: 0 <= k < |prefix| ==> !prefix[k].IssueWake? && !prefix[k].IssueBlank?
    ensures Entered(m, StartBlank(m, prefix))
  {
    assert StartBlank(m, prefix).fx[|prefix|] == IssueBlank(m.cmds.gen + 1, m.cfg.blankMode);
  }

  lemma GainRecorded(m: Machine, now: Instant)
    ensures Recorded(m, OwnershipChanged(true), now, GainOwnership(m, now))
  {
    hide StartWake, EnterActive, TeardownToActive;
    EntriesCommandNothing();
    var n := m.(owned := true);
    var log := LogTransition(NameOf(m.phase), NWaking, COwnershipAcquired);
    WakeStarted(n, [log], now);
    if InLadderRender(m.phase) {
      var t := TeardownToActive(n, now, COwnershipAcquired);
      WakeStarted(t.m, [log], now);
      Joined(t, StartWake(t.m, [log], now));
    }
  }

  lemma Joined(t: Out, w: Out)
    requires NamesNewest(t.m, w) && forall k :: 0 <= k < |t.fx| ==> !t.fx[k].IssueWake? && !t.fx[k].IssueBlank?
    ensures NamesNewest(t.m, Out(w.m, t.fx + w.fx))
  {
    hide NamesWake, NamesBlank;
    JoinedWake(t.m.cmds.lastWakeGen, w.m.cmds.lastWakeGen, t.fx, w.fx);
    JoinedBlank(t.m.cmds.lastBlankGen, w.m.cmds.lastBlankGen, t.fx, w.fx);
  }

  lemma JoinedWake(before: Option<nat>, after: Option<nat>, a: seq<Effect>, b: seq<Effect>)
    requires NamesWake(before, after, b) && forall k :: 0 <= k < |a| ==> !a[k].IssueWake?
    ensures NamesWake(before, after, a + b)
  {
    if after != before {
      var k :| 0 <= k < |b| && b[k].IssueWake?;
      assert (a + b)[|a| + k].IssueWake?;
    }
  }

  lemma JoinedBlank(before: Option<nat>, after: Option<nat>, a: seq<Effect>, b: seq<Effect>)
    requires NamesBlank(before, after, b) && forall k :: 0 <= k < |a| ==> !a[k].IssueBlank?
    ensures NamesBlank(before, after, a + b)
  {
    if after != before {
      var k :| 0 <= k < |b| && b[k].IssueBlank?;
      assert (a + b)[|a| + k].IssueBlank?;
    }
  }

  lemma RecordedActive(m: Machine, input: Input, now: Instant)
    requires m.phase.Active?
    ensures Recorded(m, input, now, StepActive(m, input, now))
  {
    hide EnterActive, EnterGrace, TeardownToActive, EnterLadder, GainOwnership, StartBlank;
    EntriesCommandNothing();
    LadderEntered();
    GainRecorded(m, now);
    BlankStarted(m, [LogTo(m, NBlanking, CForceBlank)]);
  }

  lemma RecordedGraceTick(m: Machine, now: Instant)
    requires m.phase.Grace?
    ensures Recorded(m, Tick, now, GraceTick(m, now))
  {
    hide EnterLadder, GateOpensAt;
    LadderEntered();
    var r := AutoResume(m, now);
    Joined(r, EnterLadder(r.m, 0, now, CGraceExpired));
  }

  lemma RecordedGrace(m: Machine, input: Input, now: Instant)
    requires m.phase.Grace?
    ensures Recorded(m, input, now, StepGrace(m, input, now))
  {
    hide EnterActive, EnterGrace, TeardownToActive, EnterLadder, GainOwnership, GraceTick, StartBlank;
    EntriesCommandNothing();
    match input
    case Tick => RecordedGraceTick(m, now);
    case OwnershipChanged(_) => GainRecorded(m, now);
    case SoftBlank => LadderEntered();
    case ForceBlank => BlankStarted(m.(graceFrozen := None), [LogTo(m, NBlanking, CForceBlank)]);
    case _ =>
  }

  lemma RecordedBlankDone(m: Machine, gen: nat, ok: bool, now: Instant)
    requires m.phase.Blanking? && m.cmds.lastBlankGen == Some(gen)
    ensures Recorded(m, BlankResult(gen, ok), now, BlankDone(m, ok, now))
  {
    hide EnterActive, EnterGrace, StartWake, ArmStageTick;
    EntriesCommandNothing();
    ArmingCommandsNothing();
    WakeStarted(m.(cmds := m.cmds.(lastBlank := Some(now)), pendingWake := false),
                [LogTo(m, NWaking, CPresenceDuringBlank)], now);
  }

  lemma RecordedBlanking(m: Machine, input: Input, now: Instant)
    requires m.phase.Blanking?
    ensures Recorded(m, input, now, StepBlanking(m, input, now))
  {
    hide EnterActive, EnterGrace, TeardownToActive, EnterLadder, GainOwnership, BlankDone;
    match input
    case BlankResult(gen, ok) => if m.cmds.lastBlankGen == Some(gen) { RecordedBlankDone(m, gen, ok, now); }
    case OwnershipChanged(_) => GainRecorded(m, now);
    case _ =>
  }

  lemma RecordedBlanked(m: Machine, input: Input, now: Instant)
    requires m.phase.Blanked?
    ensures Recorded(m, input, now, StepBlanked(m, input, now))
  {
    hide EnterActive, EnterGrace, TeardownToActive, EnterLadder, GainOwnership, StartWake;
    EntriesCommandNothing();
    match input
    case ZonePresent(_) => WakeStarted(m.(zone := Some(true)), [LogTo(m, NWaking, CPresenceDetected)], now);
    case ForceWake => WakeStarted(m, [LogTo(m, NWaking, CForceWake)], now);
    case InputWake => WakeStarted(m, [LogTo(m, NWaking, CInputWake)], now);
    case StageTick(_) => LadderEntered();
    case OwnershipChanged(_) => GainRecorded(m, now);
    case _ =>
  }

  lemma RecordedWaking(m: Machine, input: Input, now: Instant)
    requires m.phase.Waking?
    ensures Recorded(m, input, now, StepWaking(m, input, now))
  {
    hide EnterActive, EnterGrace, TeardownToActive, EnterLadder, GainOwnership, StartWake, StartBlank;
    EntriesCommandNothing();
    match input
    case Tick =>
      var r := AutoResume(m, now);
      WakeStarted(r.m, r.fx + [LogTo(m, NWaking, CWakeRetryScheduled)], now);
    case WakeResult(_, _) => WakeStarted(m, [LogTo(m, NWaking, CWakeRetry)], now);
    case ForceWake | InputWake => WakeStarted(m, [], now);
    case ForceBlank => BlankStarted(m, [LogTo(m, NBlanking, CForceBlank)]);
    case OwnershipChanged(_) => GainRecorded(m, now);
    case _ =>
  }

  lemma SoftRecorded(m: Machine, now: Instant)
    requires InLadderRender(m.phase)
    ensures Recorded(m, SoftBlank, now, SoftBlankOverRender(m, now))
  {
    hide EnterLadder;
    LadderEntered();
    var bare := m.(stage := m.stage.(current := None));
    Joined(Out(bare, [TeardownRender(m.stage.gen), LogTo(m, NEnteringLadder, CSoftBlank)]),
           EnterLadder(bare, 0, now, CSoftBlank));
  }

  lemma ForceRecorded(m: Machine, now: Instant)
    requires InLadderRender(m.phase)
    ensures Recorded(m, ForceBlank, now, ForceBlankOverRender(m))
  {
    hide StartBlank;
    var bare := m.(stage := m.stage.(current := None));
    BlankStarted(bare, [TeardownRender(m.stage.gen), LogTo(m, NBlanking, CForceBlank)]);
  }

  lemma RecordedPending(m: Machine, input: Input, now: Instant)
    requires m.phase.RenderPending?
    ensures Recorded(m, input, now, StepRenderPending(m, input, now))
  {
    hide EnterActive, EnterGrace, TeardownToActive, EnterLadder, GainOwnership, ArmStageTick;
    hide SoftBlankOverRender, ForceBlankOverRender;
    EntriesCommandNothing();
    match input
    case SoftBlank => SoftRecorded(m, now);
    case ForceBlank => ForceRecorded(m, now);
    case RenderResult(_, _) => LadderEntered(); ArmingCommandsNothing();
    case OwnershipChanged(_) => GainRecorded(m, now);
    case _ =>
  }

  lemma OverlayOnStaged(m: Machine, input: Input, now: Instant)
    requires m.phase.Staged? && (input.InhibitorChanged? || input.Resume? || input.Pause? || input.Tick?)
    ensures Recorded(m, input, now, StepStaged(m, input, now))
  {
    hide EnterActive, TeardownToActive, EnterLadder, GainOwnership, ArmStageTick;
    ArmingCommandsNothing();
  }

  lemma RecordedStaged(m: Machine, input: Input, now: Instant)
    requires m.phase.Staged?
    ensures Recorded(m, input, now, StepStaged(m, input, now))
  {
    hide EnterActive, EnterGrace, TeardownToActive, EnterLadder, GainOwnership, RearmStageTick, FreezeDwell, AutoResume;
    hide SoftBlankOverRender, ForceBlankOverRender;
    EntriesCommandNothing();
    match input
    case SoftBlank => SoftRecorded(m, now);
    case ForceBlank => ForceRecorded(m, now);
    case StageTick(_) => LadderEntered();
    case InhibitorChanged(_) | Resume | Pause(_) | Tick => OverlayOnStaged(m, input, now);
    case OwnershipChanged(_) => GainRecorded(m, now);
    case _ =>
  }

  /** Whatever the phase, a step records exactly what its input tells. */
  lemma EveryStepRecords(m: Machine, input: Input, now: Instant)
    ensures Recorded(m, input, now, Step(m, input, now))
  {
    hide Recorded, StepActive, StepGrace, StepBlanking, StepBlanked, StepWaking, StepRenderPending, StepStaged;
    match m.phase
    case Active => RecordedActive(m, input, now);
    case Grace(_) => RecordedGrace(m, input, now);
    case Blanking => RecordedBlanking(m, input, now);
    case Blanked => RecordedBlanked(m, input, now);
    case Waking => RecordedWaking(m, input, now);
    case RenderPending(_, _) => RecordedPending(m, input, now);
    case Staged(_, _) => RecordedStaged(m, input, now);
  }

  // ── Whole runs: what was told ───────────────────────────────────────────

  predicate ReportsZone(e: Event) { e.Feed? && e.input.ZonePresent? }

  predicate TellsOwner(e: Event) { e.Feed? && e.input.OwnershipChanged? }

  function ZoneTold(es: seq<Event>, i: nat): Option<bool>
    requires i <= |es|
  {
    if i == 0 then None
    else if ReportsZone(es[i - 1]) then Some(es[i - 1].input.present)
    else ZoneTold(es, i - 1)
  }

  function OwnerTold(es: seq<Event>, i: nat): bool
    requires i <= |es|
  {
    if i == 0 then true
    else if TellsOwner(es[i - 1]) then es[i - 1].input.owns
    else OwnerTold(es, i - 1)
  }

  function HoldTold(es: seq<Event>, i: nat): bool
    requires i <= |es|
  {
    if i == 0 then false
    else if es[i - 1].SetHold? then es[i - 1].active
    else HoldTold(es, i - 1)
  }

  function OverlaysTold(es: seq<Event>, i: nat): Overlays
    requires i <= |es|
  {
    if i == 0 then Overlays(false, None)
    else if es[i - 1].Feed? then OverlaysAfter(OverlaysTold(es, i - 1), es[i - 1].input, es[i - 1].now)
    else OverlaysTold(es, i - 1)
  }

  lemma StepTold(m: Machine, e: Event)
    ensures var n := Apply(m, e).m;
            && n.cfg == m.cfg
            && n.zone == (if ReportsZone(e) then Some(e.input.present) else m.zone)
            && n.owned == (if TellsOwner(e) then e.input.owns else m.owned)
            && n.inputWakeHold == (if e.SetHold? then e.active else m.inputWakeHold)
            && n.overlays == (if e.Feed? then OverlaysAfter(m.overlays, e.input, e.now) else m.overlays)
  {
    hide Step, OverlaysAfter, NamesNewest, ConfirmsWake, ConfirmsBlank;
    if e.Feed? {
      EveryStepRecords(m, e.input, e.now);
      Frames.StepKeeps(m, e.input, e.now);
    }
  }

  /** At every point of every run: the zone level is the last report, ownership the last verdict,
      the overlays what the inputs since made of them, the hold flag its last write. */
  lemma {:induction false} FieldsAreHistory(timings: Timings, ladder: seq<LadderStage>, t0: Instant, es: seq<Event>,
                                            i: nat)
    requires i <= |es|
    ensures var m := At(New(timings, ladder, t0), es, i);
            && m.cfg.timings == timings && m.cfg.ladder == ladder && m.cfg.startedAt == t0
            && m.zone == ZoneTold(es, i)
            && m.owned == OwnerTold(es, i)
            && m.overlays == OverlaysTold(es, i)
            && m.inputWakeHold == HoldTold(es, i)
  {
    hide Apply, OverlaysAfter;
    if i > 0 {
      FieldsAreHistory(timings, ladder, t0, es, i - 1);
      StepTold(At(New(timings, ladder, t0), es, i - 1), es[i - 1]);
    }
  }

  // ── Whole runs: what was confirmed ──────────────────────────────────────

  /** Generation of the last IssueWake of a batch. */
  function LastWakeOf(fx: seq<Effect>): Option<nat> {
    if fx == [] then None
    else if fx[|fx| - 1].IssueWake? then Some(fx[|fx| - 1].gen)
    else LastWakeOf(fx[..|fx| - 1])
  }

  function LastBlankOf(fx: seq<Effect>): Option<nat> {
    if fx == [] then None
    else if fx[|fx| - 1].IssueBlank? then Some(fx[|fx| - 1].gen)
    else LastBlankOf(fx[..|fx| - 1])
  }

  lemma {:induction false} LastOfBatch(fx: seq<Effect>)
    ensures LastWakeOf(fx).Some? ==> exists k :: 0 <= k < |fx| && fx[k] == IssueWake(LastWakeOf(fx).value)
    ensures LastWakeOf(fx).None? ==> forall k :: 0 <= k < |fx| ==> !fx[k].IssueWake?
    ensures LastBlankOf(fx).Some? ==>
              exists k :: 0 <= k < |fx| && fx[k].IssueBlank? && fx[k].gen == LastBlankOf(fx).value
    ensures LastBlankOf(fx).None? ==> forall k :: 0 <= k < |fx| ==> !fx[k].IssueBlank?
  {
    if fx != [] {
      var front := fx[..|fx| - 1];
      LastOfBatch(front);
      assert forall k :: 0 <= k < |front| ==> front[k] == fx[k];
    }
  }

  /** The wake command issued last before event `i`, read off the effects of the run. */
  function NewestWake(m0: Machine, es: seq<Event>, i: nat): Option<nat>
    requires i <= |es|
  {
    if i == 0 then None
    else
      var last := LastWakeOf(Apply(At(m0, es, i - 1), es[i - 1]).fx);
      if last.Some? then last else NewestWake(m0, es, i - 1)
  }

  function NewestBlank(m0: Machine, es: seq<Event>, i: nat): Option<nat>
    requires i <= |es|
  {
    if i == 0 then None
    else
      var last := LastBlankOf(Apply(At(m0, es, i - 1), es[i - 1]).fx);
      if last.Some? then last else NewestBlank(m0, es, i - 1)
  }

  /** Event `k` answers, in Waking, the wake command issued last: the panel is lit. */
  predicate LitAt(m0: Machine, es: seq<Event>, k: nat) {
    && k < |es| && At(m0, es, k).phase.Waking?
    && es[k].Feed? && es[k].input.WakeResult? && es[k].input.ok && Some(es[k].input.gen) == NewestWake(m0, es, k)
  }

  /** Event `k` answers, in Blanking, the blank command issued last: the panel is dark. */
  predicate DarkAt(m0: Machine, es: seq<Event>, k: nat) {
    && k < |es| && At(m0, es, k).phase.Blanking?
    && es[k].Feed? && es[k].input.BlankResult? && es[k].input.ok && Some(es[k].input.gen) == NewestBlank(m0, es, k)
  }

  predicate LastLit(m0: Machine, es: seq<Event>, k: nat, i: nat) {
    k < i <= |es| && es[k].Feed? && LitAt(m0, es, k) && forall j :: k < j < i ==> !LitAt(m0, es, j)
  }

  predicate LastDark(m0: Machine, es: seq<Event>, k: nat, i: nat) {
    k < i <= |es| && es[k].Feed? && DarkAt(m0, es, k) && forall j :: k < j < i ==> !DarkAt(m0, es, j)
  }

  ghost predicate WakeDated(m0: Machine, es: seq<Event>, i: nat)
    requires i <= |es|
  {
    var w := At(m0, es, i).cmds.lastWake;
    && (w.None? ==> forall k: nat :: k < i ==> !LitAt(m0, es, k))
    && (w.Some? ==> exists k: nat :: LastLit(m0, es, k, i) && es[k].now == w.value)
  }

  ghost predicate BlankDated(m0: Machine, es: seq<Event>, i: nat)
    requires i <= |es|
  {
    var b := At(m0, es, i).cmds.lastBlank;
    && (b.None? ==> forall k: nat :: k < i ==> !DarkAt(m0, es, k))
    && (b.Some? ==> exists k: nat :: LastDark(m0, es, k, i) && es[k].now == b.value)
  }

  /** The generation awaited is the one the run issued last. */
  lemma {:induction false} NewestIsAwaited(timings: Timings, ladder: seq<LadderStage>, t0: Instant, es: seq<Event>,
                                           i: nat)
    requires i <= |es|
    ensures var m0 := New(timings, ladder, t0);
            && At(m0, es, i).cmds.lastWakeGen == NewestWake(m0, es, i)
            && At(m0, es, i).cmds.lastBlankGen == NewestBlank(m0, es, i)
  {
    hide Step, LastWakeOf, LastBlankOf, OverlaysAfter;
    if i > 0 {
      var m := At(New(timings, ladder, t0), es, i - 1);
      NewestIsAwaited(timings, ladder, t0, es, i - 1);
      LastOfBatch(Apply(m, es[i - 1]).fx);
      if es[i - 1].Feed? {
        EveryStepRecords(m, es[i - 1].input, es[i - 1].now);
      }
    }
  }

  lemma LitIsConfirmed(timings: Timings, ladder: seq<LadderStage>, t0: Instant, es: seq<Event>, k: nat)
    requires k < |es|
    ensures var m0 := New(timings, ladder, t0);
            && (LitAt(m0, es, k) <==> es[k].Feed? && ConfirmsWake(At(m0, es, k), es[k].input))
            && (DarkAt(m0, es, k) <==> es[k].Feed? && ConfirmsBlank(At(m0, es, k), es[k].input))
  {
    hide At, New, NewestWake, NewestBlank;
    NewestIsAwaited(timings, ladder, t0, es, k);
  }

  lemma ConfirmationRecorded(m: Machine, e: Event)
    ensures var n := Apply(m, e).m;
            && n.cmds.lastWake == (if e.Feed? && ConfirmsWake(m, e.input) then Some(e.now) else m.cmds.lastWake)
            && n.cmds.lastBlank == (if e.Feed? && ConfirmsBlank(m, e.input) then Some(e.now) else m.cmds.lastBlank)
  {
    hide Step, OverlaysAfter, NamesNewest, ConfirmsWake, ConfirmsBlank;
    if e.Feed? {
      EveryStepRecords(m, e.input, e.now);
    }
  }

  /** At every point of every run: the last wake and the last blank on record are the instants of
      the last events that confirmed the newest wake in Waking and the newest blank in Blanking,
      and there is none on record exactly while there was none. */
  lemma {:induction false} ConfirmationsAreDated(timings: Timings, ladder: seq<LadderStage>, t0: Instant,
                                                 es: seq<Event>, i: nat)
    requires i <= |es|
    ensures WakeDated(New(timings, ladder, t0), es, i) && BlankDated(New(timings, ladder, t0), es, i)
  {
    hide Apply, ConfirmsWake, ConfirmsBlank, LitAt, DarkAt;
    if i > 0 {
      var m0 := New(timings, ladder, t0);
      ConfirmationsAreDated(timings, ladder, t0, es, i - 1);
      LitIsConfirmed(timings, ladder, t0, es, i - 1);
      ConfirmationRecorded(At(m0, es, i - 1), es[i - 1]);
      DatesAdvance(m0, es, i);
    }
  }

  lemma DatesAdvance(m0: Machine, es: seq<Event>, i: nat)
    requires 0 < i <= |es| && WakeDated(m0, es, i - 1) && BlankDated(m0, es, i - 1)
    requires var m, n := At(m0, es, i - 1), At(m0, es, i);
             && (LitAt(m0, es, i - 1) ==> es[i - 1].Feed?) && (DarkAt(m0, es, i - 1) ==> es[i - 1].Feed?)
             && n.cmds.lastWake == (if LitAt(m0, es, i - 1) then Some(es[i - 1].now) else m.cmds.lastWake)
             && n.cmds.lastBlank == (if DarkAt(m0, es, i - 1) then Some(es[i - 1].now) else m.cmds.lastBlank)
    ensures WakeDated(m0, es, i) && BlankDated(m0, es, i)
  {
    hide At, LitAt, DarkAt;
    if LitAt(m0, es, i - 1) {
      assert LastLit(m0, es, i - 1, i);
    } else if At(m0, es, i - 1).cmds.lastWake.Some? {
      var k: nat :| LastLit(m0, es, k, i - 1) && es[k].now == At(m0, es, i - 1).cmds.lastWake.value;
      assert LastLit(m0, es, k, i);
    }
    if DarkAt(m0, es, i - 1) {
      assert LastDark(m0, es, i - 1, i);
    } else if At(m0, es, i - 1).cmds.lastBlank.Some? {
      var k: nat :| LastDark(m0, es, k, i - 1) && es[k].now == At(m0, es, i - 1).cmds.lastBlank.value;
      assert LastDark(m0, es, k, i);
    }
  }
}
