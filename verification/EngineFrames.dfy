/** What one step of a machine leaves alone and what it may schedule. */
module EngineFrames {
  import opened DisplayTypes
  import opened DisplaySpec

  /** The inputs a timer entry can end up feeding. */
  predicate Timed(input: Input) {
    input.Tick? || input.StageTick? || input.ZonePresent? || input.OwnershipChanged?
  }

  predicate Kept(m: Machine, input: Input, n: Machine) {
    && n.cfg == m.cfg
    && n.inputWakeHold == m.inputWakeHold
    && n.zone == (if input.ZonePresent? then Some(input.present) else m.zone)
    && n.owned == (if input.OwnershipChanged? then input.owns else m.owned)
    && (Timed(input) ==> n.overlays.paused == m.overlays.paused || n.overlays.paused.None?)
  }

  predicate NoStageTicks(fx: seq<Effect>) { forall k :: 0 <= k < |fx| ==> !fx[k].ScheduleStageTickAt? }

  /** Same configuration, hold flag, ownership and pause, and no stage tick armed. */
  predicate Quiet(m: Machine, o: Out) {
    && o.m.cfg == m.cfg && o.m.inputWakeHold == m.inputWakeHold && o.m.owned == m.owned
    && o.m.overlays == m.overlays && o.m.zone == m.zone
    && NoStageTicks(o.fx)
  }

  lemma EntriesQuiet()
    ensures forall m: Machine, now: Instant, cause: Cause :: Quiet(m, EnterActive(m, now, cause))
    ensures forall m: Machine, now: Instant, cause: Cause :: Quiet(m, EnterGrace(m, now, cause))
    ensures forall m: Machine, now: Instant, cause: Cause :: Quiet(m, TeardownToActive(m, now, cause))
  {
  }

  lemma LadderQuiet()
    ensures forall m: Machine, idx: nat, now: Instant, cause: Cause :: Quiet(m, EnterLadder(m, idx, now, cause))
  {
    hide EnterActive;
    EntriesQuiet();
  }

  lemma AutoResumeKeeps()
    ensures forall m: Machine, now: Instant ::
              Kept(m, Tick, AutoResume(m, now).m) && NoStageTicks(AutoResume(m, now).fx)
  {
  }

  predicate Fine(m: Machine, input: Input, o: Out) { Kept(m, input, o.m) && (Timed(input) ==> NoStageTicks(o.fx)) }

  lemma KeptActive(m: Machine, input: Input, now: Instant)
    ensures Fine(m, input, StepActive(m, input, now))
  {
    hide EnterActive, EnterGrace, TeardownToActive, EnterLadder, AutoResume;
    EntriesQuiet();
    LadderQuiet();
    AutoResumeKeeps();
  }

  lemma KeptGrace(m: Machine, input: Input, now: Instant)
    requires m.phase.Grace?
    ensures Fine(m, input, StepGrace(m, input, now))
  {
    hide EnterActive, EnterGrace, TeardownToActive, EnterLadder, AutoResume;
    EntriesQuiet();
    LadderQuiet();
    AutoResumeKeeps();
  }

  lemma KeptBlanking(m: Machine, input: Input, now: Instant)
    requires m.phase.Blanking?
    ensures Fine(m, input, StepBlanking(m, input, now))
  {
    hide EnterActive, EnterGrace, TeardownToActive, EnterLadder, AutoResume;
    EntriesQuiet();
    LadderQuiet();
    AutoResumeKeeps();
  }

  lemma KeptBlanked(m: Machine, input: Input, now: Instant)
    requires m.phase.Blanked?
    ensures Fine(m, input, StepBlanked(m, input, now))
  {
    hide EnterActive, EnterGrace, TeardownToActive, EnterLadder, AutoResume;
    EntriesQuiet();
    LadderQuiet();
    AutoResumeKeeps();
  }

  lemma KeptWaking(m: Machine, input: Input, now: Instant)
    requires m.phase.Waking?
    ensures Fine(m, input, StepWaking(m, input, now))
  {
    hide EnterActive, EnterGrace, TeardownToActive, EnterLadder, AutoResume;
    EntriesQuiet();
    LadderQuiet();
    AutoResumeKeeps();
  }

  lemma KeptPending(m: Machine, input: Input, now: Instant)
    requires m.phase.RenderPending?
    ensures Fine(m, input, StepRenderPending(m, input, now))
  {
    hide EnterActive, EnterGrace, TeardownToActive, EnterLadder, AutoResume;
    EntriesQuiet();
    LadderQuiet();
    AutoResumeKeeps();
  }

  lemma GainKeeps(m: Machine, now: Instant)
    requires InLadderRender(m.phase)
    ensures Fine(m, OwnershipChanged(true), GainOwnership(m, now))
  {
    hide EnterActive, TeardownToActive;
    EntriesQuiet();
  }

  lemma RearmKeeps()
    ensures forall m: Machine, now: Instant :: RearmStageTick(m, now).m == m.(stage := RearmStageTick(m, now).m.stage)
  {
  }

  lemma KeptStaged(m: Machine, input: Input, now: Instant)
    requires m.phase.Staged?
    ensures Fine(m, input, StepStaged(m, input, now))
  {
    hide EnterActive, TeardownToActive, EnterLadder, AutoResume, GainOwnership, RearmStageTick;
    EntriesQuiet();
    LadderQuiet();
    AutoResumeKeeps();
    RearmKeeps();
    GainKeeps(m, now);
  }

  /** A step never touches the configuration or the hold flag, only reports touch the zone level
      and only ownership inputs ownership, and nothing the wheel can feed starts a pause or arms
      a stage tick. */
  lemma StepKeeps(m: Machine, input: Input, now: Instant)
    ensures Fine(m, input, Step(m, input, now))
  {
    hide Fine, StepActive, StepGrace, StepBlanking, StepBlanked, StepWaking, StepRenderPending, StepStaged;
    match m.phase
    case Active => KeptActive(m, input, now);
    case Grace(_) => KeptGrace(m, input, now);
    case Blanking => KeptBlanking(m, input, now);
    case Blanked => KeptBlanked(m, input, now);
    case Waking => KeptWaking(m, input, now);
    case RenderPending(_, _) => KeptPending(m, input, now);
    case Staged(_, _) => KeptStaged(m, input, now);
  }
}
