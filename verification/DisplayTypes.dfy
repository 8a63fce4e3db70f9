/** Entities of the per-display blank/wake lifecycle: phases, inputs, effects and the
    machine record.  Instants are integers (nanoseconds), durations are naturals. */
module DisplayTypes {

  datatype Option<+T> = None | Some(value: T)

  type DisplayId = nat

  type Instant = int
  type Duration = nat

  datatype Phase =
    | Active
    | Grace(until: Instant)
    | Blanking
    | Blanked
    | Waking
    | RenderPending(idx: nat, pendingGen: nat)
    | Staged(idx: nat, surfaceGen: nat)

  datatype PhaseName =
    | NActive | NGrace | NBlanking | NBlanked | NWaking | NRenderPending | NStaged
    | NEnteringLadder

  /** Cause strings of the transition log. */
  datatype Cause =
    | CZoneClear | CForceBlank | CSoftBlank | CPresenceDuringGrace | CGraceExpired
    | CForceWake | CInputWake | CPresenceDuringBlank | CBlankSucceeded
    | CBlankFailedRegrace | CBlankFailed | CPresenceDetected | CStageTick
    | COwnershipYielded | COwnershipAcquired | CWakeRetryScheduled | CWakeCompleted
    | CWakeRetry | CRenderSucceeded | CRenderFailed | CDeferredZoneClear

  datatype BlankMode = PowerOff | ScreenOffAudioOn | BrightnessZero

  datatype StageKind = Controller(mode: BlankMode) | RenderBlack | RenderScreensaver
  {
    predicate IsRender() { !Controller? }
  }

  datatype LadderStage = LadderStage(kind: StageKind, dwell: Option<Duration>)

  datatype PauseState = PauseState(until: Option<Instant>)

  datatype Input =
    | ZonePresent(present: bool)
    | Tick
    | InhibitorChanged(inhibited: bool)
    | Pause(until: Option<Instant>)
    | Resume
    | BlankResult(gen: nat, ok: bool)
    | WakeResult(gen: nat, ok: bool)
    | ForceBlank
    | ForceWake
    | SoftBlank
    | StageTick(gen: nat)
    | RenderResult(gen: nat, ok: bool)
    | InputWake
    | OwnershipChanged(owns: bool)

  datatype Effect =
    | IssueBlank(gen: nat, mode: BlankMode)
    | IssueWake(gen: nat)
    | ScheduleTickAt(at: Instant)
    | LogTransition(from: PhaseName, to: PhaseName, cause: Cause)
    | ShowRender(gen: nat, idx: nat, kind: StageKind)
    | TeardownRender(gen: nat)
    | ScheduleStageTickAt(gen: nat, at: Instant)

  datatype Timings = Timings(
    gracePeriod: Duration,
    minWakeTime: Duration,
    startupHoldoff: Duration,
    wakeRetryInterval: Duration)

  /** What never changes after construction. */
  datatype Config = Config(startedAt: Instant, blankMode: BlankMode, ladder: seq<LadderStage>, timings: Timings)

  datatype Overlays = Overlays(inhibited: bool, paused: Option<PauseState>)

  /** Command generations, and when the last wake and blank succeeded. */
  datatype Commands = Commands(
    gen: nat,
    lastBlankGen: Option<nat>,
    lastWakeGen: Option<nat>,
    lastWake: Option<Instant>,
    lastBlank: Option<Instant>)

  /** Ladder position: stage generation, rung, frozen dwell and armed deadline. */
  datatype Stage = Stage(gen: nat, current: Option<nat>, frozen: Option<Duration>, deadline: Option<Instant>)

  /** The fields of `DisplayStateMachine`, as one value. */
  datatype Machine = Machine(
    cfg: Config,
    phase: Phase,
    overlays: Overlays,
    cmds: Commands,
    stage: Stage,
    owned: bool,
    pendingWake: bool,
    inputWakeHold: bool,
    zone: Option<bool>,
    graceFrozen: Option<Duration>)

  datatype Out = Out(m: Machine, fx: seq<Effect>)

  function NameOf(p: Phase): PhaseName {
    match p
    case Active => NActive
    case Grace(_) => NGrace
    case Blanking => NBlanking
    case Blanked => NBlanked
    case Waking => NWaking
    case RenderPending(_, _) => NRenderPending
    case Staged(_, _) => NStaged
  }

  /** `Instant - Instant` saturates at zero. */
  function Since(later: Instant, earlier: Instant): Duration {
    if later <= earlier then 0 else later - earlier
  }

  predicate OverlayOn(m: Machine) { m.overlays.inhibited || m.overlays.paused.Some? }

  predicate InLadderRender(p: Phase) { p.RenderPending? || p.Staged? }
}
