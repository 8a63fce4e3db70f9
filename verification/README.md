# When a panel goes dark, and when it must light up again

A Dafny model of the part of `dormant-core` that decides when a display is blanked and when
it is woken, with proofs of what that decision keeps over whole runs.

`dafny verify dfyconfig.toml` checks everything.

## What is modelled

| part | files | form |
|---|---|---|
| one display's state machine | `DisplayTypes`, `DisplaySpec`, `DisplayMachine` | a class whose methods change the machine in place, each against a function on its state |
| its runs | `DisplayRuns`, `Requests`, `Ledger`, `TransitionLog`, `GraceCountdown`, `WakeTimes`, `PresentRooms`, `StageTicks`, `LadderCommands`, `Surfaces`, `LadderReach`, `Deadlines`, `WakePaths`, `CommandGenerations`, `KnownGaps` | arbitrary input sequences, with ghost records of armed ticks, outstanding ticks, surfaces shown and time spent |
| ownership coordination | `CoordSpec`, `Coordination`, `CoordHistory`, `CoordCodes`, `CoordReports` | a class for the record and one for the shared map; rules stated on the observation history |
| the rules engine's synchronous skeleton | `EngineSpec`, `Engine`, `EngineFrames`, `EngineRuns`, `EngineHolds`, `EngineDarkness`, `EngineRefines`, `EngineCommands`, `EngineInputs`, `EngineInputHolds`, `EngineDeadlines`, `EngineVacancy`, `TimerDrain`, `DrainCondition` | a class over maps and a timer wheel; runs of engine events with a wall clock and a gate |
| the operation registry | `Operations` | a class over the operation table; every interleaving of calls |
| panel grids | `Sums`, `Resampling`, `AreaResampler`, `LumaGrids`, `Pictures` | methods with the source's loops over exact reals |

Conventions. An instant is an integer; the difference of two instants saturates at zero
(`crates/dormant-core/src/state_machine.rs:1327-1332`). Timers hand the machine their deadline
as `now` (`crates/dormant-core/src/rules.rs:2721-2735`), so a clock that never decreases is a
hypothesis only where a property needs it. What the engine reads from outside - the wall clock,
the gate's verdicts, zone fusion, command and render answers - is a parameter, arbitrary at
every event.

## Where the code and its comments disagree

The model follows the code. Each point has a lemma.

- The assertion at the end of `step` on the frozen Grace countdown fails after one kind of
  input: an ownership gain over a render surface in an absent zone under an overlay. The
  countdown then leaks into Waking (`KnownGaps.LeakReached`); the assertion holds over a run
  if and only if no such gain occurs (`GraceCountdown.FrozenExactlyThroughout`).
- ForceBlank over that leak is the only input that breaks the machine's full invariant
  (`DisplayRuns.DisplacedExactlyWhenForced`). What it costs is stated exactly: a tick that thaws
  the leaked countdown pulls the machine off a blank in flight (`WakePaths.RunWalksExactly`) or off
  a surface (`Surfaces.OverlayExactlyUnlessOrphaned`), the revived countdown may run in an occupied
  room (`GraceCountdown.PresentGraceExactlyAfterIntrusion`) and darken it
  (`PresentRooms.DarkExplainedExactlyUnlessUnbidden`), and ownership regained in it may find no
  tick left (`Deadlines.LostExactlySinceForgotten`). Runs from `new` show each: an occupied room
  darkened (`KnownGaps.PresentRoomDarkened`), an overlay orphaned
  (`KnownGaps.ForcedLeakOrphans`), a countdown without a tick (`KnownGaps.ForcedLeakForgets`).
- Configuration validation calls the terminal dwell ignored
  (`crates/dormant-core/src/config/validate.rs:2211-2213`). The machine does not ignore it: with
  a render rung last, its dwell orphans the overlay (`Surfaces.FitsExactlyOffBrinkAndSlip`). With
  the forced leak any render rung that has a dwell can, and no other
  (`LadderReach.OrphansExactlyWhen`).
- A machine restored into Blanking never leaves it (`KnownGaps.RestoredBlankingWedges`), and one
  restored into Grace darkens without a report of absence (`KnownGaps.RestoredGraceAssumesAbsence`).
- The dwell of a staged rung is frozen and re-armed irregularly
  (`KnownGaps.AutoResumeLeavesDwellFrozen`, `KnownGaps.IdleResumeEndsDwell`,
  `KnownGaps.ReleaseIgnoresPause`), and `current_stage` stays set in Waking and Grace
  (`KnownGaps.StageLingers`).
- Dropping one of two leases on one operation id frees the id for a conflicting operation of
  whatever kind (`Operations.SharedDropAdmitsConflict`, `Operations.ConflictReached`).

## Model

| member | source | states |
|---|---|---|
| DisplayMachine.DisplayStateMachine.constructor | crates/dormant-core/src/state_machine.rs:319-351 | A new machine is Active, owned, knows no zone level and has the primary blank mode of its ladder. |
| DisplayMachine.DisplayStateMachine.Step | crates/dormant-core/src/state_machine.rs:414-1195 | One call leaves exactly the state, and returns exactly the effects, that the transition function gives for the old state, the input and the instant. |
| DisplayMachine.DisplayStateMachine.StepGrace | crates/dormant-core/src/state_machine.rs:486-650 | Grace in place: freeze and unfreeze on overlays, the three gates on its tick, cancel on presence. |
| DisplayMachine.DisplayStateMachine.StepBlanking | crates/dormant-core/src/state_machine.rs:651-760 | Blanking in place: only the awaited result counts, presence is remembered as a pending wake, a failure goes back to Grace or Active. |
| DisplayMachine.DisplayStateMachine.StepRenderPending | crates/dormant-core/src/state_machine.rs:950-1064 | A pending surface in place: its own result only, fall through to the next controller rung on failure, teardown on every way out. |
| DisplayMachine.DisplayStateMachine.StepStaged | crates/dormant-core/src/state_machine.rs:1065-1182 | A live surface in place, including the dwell's freeze and re-arm rules as the code has them. |
| DisplayMachine.DisplayStateMachine.ReconcileOwnershipGain | crates/dormant-core/src/state_machine.rs:1276-1324 | Regained ownership in every phase: re-armed countdown, pending wake, wake, or teardown then wake. |
| DisplayMachine.DisplayStateMachine.EnterLadderStage | crates/dormant-core/src/state_machine.rs:1477-1530 | Entering a rung in place: the generation grows, a surface is torn down before the hardware blank, past the end means Active. |
| DisplayMachine.DisplayStateMachine.AdvanceToNextController | crates/dormant-core/src/state_machine.rs:1548-1565 | The first controller rung after the current one, or teardown to Active. |
| DisplayMachine.DisplayStateMachine.EnterActive | crates/dormant-core/src/state_machine.rs:1365-1387 | Clears the frozen countdown and the stage, and chains into Grace when the zone is absent and no hold is active. |
| DisplayMachine.DisplayStateMachine.EnterGrace | crates/dormant-core/src/state_machine.rs:1391-1417 | Starts a countdown, frozen at its full length if an overlay is already on. |
| DisplayMachine.DisplayStateMachine.RearmStageTick | crates/dormant-core/src/state_machine.rs:1592-1608 | Re-arms at most what was left of the dwell, zero when nothing was recorded. |
| DisplaySpec.NextController | crates/dormant-core/src/state_machine.rs:1548-1557 | Returns the first controller rung at or after the start: everything skipped is a render rung. |
| DisplayRuns.SturdyThroughout | crates/dormant-core/src/state_machine.rs:414-1195 | In every run from `new`, without exception: Blanking and Waking await the newest command, RenderPending and Staged agree with the current rung and its generation, and the countdown is frozen in Grace exactly under an overlay, never in Active, and whole wherever else it is frozen. |
| DisplayRuns.CoherentKept | crates/dormant-core/src/state_machine.rs:1336-1360 | The tick that ends a timed pause over a surface under a frozen countdown is the only step that parts the phase from the current rung. |
| DisplayRuns.CoreKept | crates/dormant-core/src/state_machine.rs:414-1195 | Every input keeps the full invariant (besides the above: a frozen countdown only in Grace or as the leak in Waking, Grace only in an absent zone, pending wake only in Blanking, a render rung current exactly in RenderPending and Staged) unless it is ForceBlank over the leak. |
| DisplayRuns.DisplacedExactlyWhenForced | crates/dormant-core/src/state_machine.rs:923-929 | If and only if: from an invariant state a step breaks the invariant exactly when it is ForceBlank on a Waking machine that still holds a frozen countdown. |
| DisplayRuns.CoreThroughout | crates/dormant-core/src/state_machine.rs:414-1195 | The invariant at every point of every run from `new` that avoids that one step. |
| Requests.EveryInputObeyed | crates/dormant-core/src/state_machine.rs:414-1195 | In every state of every run, input by input and whatever the phase: presence and wake requests light the panel, leave a wake pending over a blank in flight or send a fresh wake; blank requests send a blank or enter rung 0; a lost panel is let go, a regained one someone wants is reclaimed; answers move only what awaits them; overlays command nothing, and only a countdown is frozen, with what is left, and thawed. |
| TransitionLog.EveryStepLogs | crates/dormant-core/src/state_machine.rs:414-1195 | What a step logs begins with the phase it found and ends with the phase it left, and a step that logs nothing changed no phase, the thaw outside Grace apart. |
| Ledger.EveryStepRecords | crates/dormant-core/src/state_machine.rs:414-1195 | In every state whatsoever a step records exactly what its input tells: the overlays, the instant of a confirmed wake or blank, and as newest command of each kind the one its effects name. |
| Ledger.FieldsAreHistory | crates/dormant-core/src/state_machine.rs:414-1195 | At every point of every run from `new`: the zone level is the last report, ownership the last verdict, the overlays what pauses, resumes, inhibitors and expired pauses have made of them, the hold flag its last write. |
| Ledger.NewestIsAwaited | crates/dormant-core/src/state_machine.rs:1440-1454 | At every point of every run: the wake and blank generations awaited are those of the last IssueWake and IssueBlank among the run's effects. |
| Ledger.ConfirmationsAreDated | crates/dormant-core/src/state_machine.rs:904-908 | At every point of every run: the last wake on record is the instant of the last event that was a successful answer, in Waking, to the wake issued last, found on the run, and there is none before the first; the last blank likewise. |
| GraceCountdown.LeaksExactlyWhen | crates/dormant-core/src/state_machine.rs:1303-1313 | Step level: `frozen exactly in Grace under an overlay` is lost exactly on an ownership gain over a render surface in an absent zone under an overlay. |
| GraceCountdown.FrozenExactlyThroughout | crates/dormant-core/src/state_machine.rs:1185-1192 | Over every run from `new`, no hypotheses: the countdown is frozen exactly in Grace under an overlay at every point, if and only if no input of the run is that ownership gain. |
| GraceCountdown.ConservedKept | crates/dormant-core/src/state_machine.rs:1327-1360 | Every input at a later instant keeps, in every state of every run: time left on the countdown plus unfrozen time spent in this Grace visit is the grace period. |
| GraceCountdown.DarkensExactlyWhenExpired | crates/dormant-core/src/state_machine.rs:498-573 | From Grace, without an operator's blank, the ladder is entered exactly on a tick after a full grace period of unfrozen time, no overlay on, owned, holdoff and minimum wake time over. |
| GraceCountdown.PresentGraceExactlyWhen | crates/dormant-core/src/state_machine.rs:1336-1360 | If and only if, in every state of every run: a step leaves a countdown running in a zone not reported absent exactly when it is the tick that thaws the leaked countdown in such a zone, or finds one running and leaves it there without a report of absence. |
| GraceCountdown.PresentGraceExactlyAfterIntrusion | crates/dormant-core/src/state_machine.rs:1336-1360 | At every point of every run from `new`: such a countdown runs if and only if that tick came and the machine has stayed in Grace without a report of absence since. |
| GraceCountdown.NoEarlyBlank | crates/dormant-core/src/state_machine.rs:498-600 | The same over every run from `new` with a clock that never decreases, no other hypothesis; and the zone is reported absent too, if and only if no such tick led into this countdown. |
| WakeTimes.GatesReopen | crates/dormant-core/src/state_machine.rs:524-556 | The blank gates are closed exactly while startup holdoff or minimum wake time lasts, and the instant they reopen is the first at which both are open. |
| WakeTimes.ClosedGatesPostpone | crates/dormant-core/src/state_machine.rs:524-567 | An expired countdown under a closed gate changes nothing and is ticked again at exactly that instant. |
| WakeTimes.MinimumWakeKept | crates/dormant-core/src/state_machine.rs:541-556 | On every run whose clock never decreases, no tick emits IssueBlank or ShowRender from Grace less than the minimum wake time after any event that confirmed a wake. |
| WakeTimes.HoldoffKept | crates/dormant-core/src/state_machine.rs:527-539 | Nor less than the startup holdoff after the start. |
| WakeTimes.DarkensExactlyWhenTheRunAllows | crates/dormant-core/src/state_machine.rs:498-573 | Over every run whose clock never decreases: without an operator's blank Grace is left for the ladder exactly on a tick at which the run itself shows a full grace period of unfrozen time, no overlay told, ownership told, holdoff over and minimum wake time since the last confirmed wake. |
| PresentRooms.ExplainedExactlyUnlessUnbidden | crates/dormant-core/src/state_machine.rs:653-724 | If and only if, in every state of every run: a step keeps a dark phase explained by a reported absence or an operator's blank since the last presence (a blank in flight also by a wake already pending) unless it is the tick at which a running owned countdown in a zone not reported absent expires with the gates open, unasked for, into a render rung or with no wake pending. |
| PresentRooms.DarkExplainedExactlyUnlessUnbidden | crates/dormant-core/src/state_machine.rs:498-573 | Over every run from `new`, with any inputs: dark phases are explained at every point if and only if no tick is that one. |
| PresentRooms.DarkensOnlyBy | crates/dormant-core/src/state_machine.rs:419-1182 | In every state whatsoever, IssueBlank or ShowRender is emitted only on an operator's blank, on a tick or stage tick while owned, or on a failed render. |
| PresentRooms.PresentRoomsNeverDark | crates/dormant-core/src/state_machine.rs:419-1182 | In every run without ForceBlank and SoftBlank: Grace, RenderPending, Staged and Blanked imply the last report was absence, Blanking that or a pending wake, and every IssueBlank and ShowRender is emitted while owned. |
| StageTicks.EveryStepMoves | crates/dormant-core/src/state_machine.rs:1477-1608 | Every input leaves the stage alone, enters one rung under a fresh generation, or arms exactly one tick under a fresh generation. |
| StageTicks.WheelTurns | crates/dormant-core/src/state_machine.rs:1568-1608 | Every input keeps the record of which rung visit armed which tick true, and arms only generations never armed before. |
| StageTicks.TickAdvancesItsOwnVisit | crates/dormant-core/src/state_machine.rs:838-847 | On any ladder, a scheduled stage tick does something if and only if it is the newest armed, not frozen, not inhibited and the panel owned; it enters the next rung, or leaves the ladder past its end, and was armed in the visit it ends, or no rung is set after a ForceBlank and the ladder restarts at rung 0. |
| StageTicks.GenerationsGrow | crates/dormant-core/src/state_machine.rs:1568-1608 | In every run from `new` stage generations never decrease, and a tick armed later carries a greater one than every tick armed before. |
| StageTicks.EachTickAdvancesOnce | crates/dormant-core/src/state_machine.rs:1126-1135 | In every run from `new`, on any ladder and whatever stage ticks arrive, a tick that advanced the ladder never advances it again. |
| LadderCommands.PrimaryIsFirstController | crates/dormant-core/src/state_machine.rs:304-314 | The primary blank mode is that of the first controller rung, and power-off without one. |
| LadderCommands.EveryCommandFits | crates/dormant-core/src/state_machine.rs:1455-1565 | In every state of every run: a blank goes out in the mode of the controller rung entered, or by force in the primary mode, under the newest generation; a surface goes up with the index, kind and generation of the render rung entered; a tick or soft blank enters rung 0, a stage tick the next one, a failed render the first controller above. |
| LadderCommands.EveryTickWaits | crates/dormant-core/src/state_machine.rs:1568-1608 | In every state of every run: a stage tick is armed only by the answer that puts the rung up or by a release or resume; it waits the rung's whole dwell, or after a freeze what was left if that is shorter. |
| LadderCommands.PausePostponesDwell | crates/dormant-core/src/state_machine.rs:1096-1124 | Paused on a staged rung and resumed, whatever comes between while the rung lasts, release and resume apart, the dwell's tick is armed again later by exactly the length of the pause. |
| LadderCommands.InhibitionPostponesDwell | crates/dormant-core/src/state_machine.rs:1078-1095 | The same for an inhibitor, from engagement to release. |
| Surfaces.FitsExactlyOffBrinkAndSlip | crates/dormant-core/src/state_machine.rs:953-1182 | If and only if: a step's effects leave a surface up exactly when it leaves the machine on a render rung, with teardown before any blank, unless it is the accepted stage tick past a last render rung or the tick that thaws a countdown over a surface. |
| Surfaces.OverlayExactlyUnlessOrphaned | crates/dormant-core/src/state_machine.rs:953-1182 | Over every run from `new`, on any ladder and with any inputs: the last render effect emitted is a ShowRender exactly in RenderPending and Staged at every point, if and only if no step is one of those two. |
| Surfaces.SafeLadderHasNoBrink | crates/dormant-core/src/state_machine.rs:1538-1544 | On a ladder whose last rung is not a render rung with a dwell, no scheduled tick is that one. |
| Surfaces.NoOrphanedOverlay | crates/dormant-core/src/state_machine.rs:953-1182 | In every run on such a ladder, where only scheduled stage ticks arrive, up to the first countdown that thaws over a surface: that, and the current rung is a render rung exactly then, and teardown precedes IssueBlank on every move off a render rung. |
| LadderReach.Climb | crates/dormant-core/src/state_machine.rs:1538-1544 | On every validated ladder every rung is reached by some run from `new` in which only scheduled ticks arrive and nothing is orphaned. |
| LadderReach.OrphaningRun | crates/dormant-core/src/state_machine.rs:1303-1313 | On every validated ladder with a render rung that has a dwell: a run from `new`, fed only scheduled stage ticks, that ends with the overlay up off the ladder. |
| LadderReach.UntimedNeverOrphans | crates/dormant-core/src/state_machine.rs:1568-1608 | Without such a rung no run fed only scheduled stage ticks orphans an overlay, forced leaks included. |
| LadderReach.OrphansExactlyWhen | crates/dormant-core/src/config/validate.rs:2211-2218 | For every validated ladder and all timings: an overlay can be orphaned by a run fed only scheduled stage ticks if and only if some render rung, the last one included, has a dwell. |
| Deadlines.DrivesExactlyUnlessUnclaimed | crates/dormant-core/src/state_machine.rs:1276-1451 | In every state of every run, a step that leaves a wake or a timed pause behind schedules its tick or keeps one not yet reached; so does one that leaves a running owned countdown, if and only if it is not ownership regained in one whose zone is not reported absent. |
| Deadlines.WakesAndPausesRemembered | crates/dormant-core/src/state_machine.rs:865-876 | In every run from `new` in which scheduled ticks come at or after their deadline, whatever else is fed: Waking always has an outstanding tick at the last IssueWake plus the retry interval, and a timed pause one at or after its deadline. |
| Deadlines.GraceKeptExactly | crates/dormant-core/src/state_machine.rs:1282-1292 | A running owned countdown keeps its outstanding tick across any arrival, if and only if that is not ownership regained in one, zone not reported absent, with no tick left at or after its end. |
| Deadlines.NoDeadlineForgotten | crates/dormant-core/src/state_machine.rs:498-573 | Over every such run: a running owned countdown always has an outstanding tick at or after its end, if and only if no arrival is of that kind. |
| Deadlines.LostExactlySinceForgotten | crates/dormant-core/src/state_machine.rs:1282-1292 | At every point of every such run: a running owned countdown has no such tick if and only if an arrival of that kind came in this very countdown, and it has run on, owned and without such a tick being scheduled, since. |
| Deadlines.RemembersUnlessForced | crates/dormant-core/src/state_machine.rs:923-929 | Where ForceBlank never reaches the leak, no running owned countdown is ever without its tick. |
| WakePaths.WalksExactlyUnlessSlips | crates/dormant-core/src/state_machine.rs:414-1195 | From presence on, in every state of every run, one step of the machine is one step of a three-state reference automaton that has no overlays, holds, ladders or ownership - if and only if it is not the tick that thaws a countdown over a blank in flight. |
| WakePaths.RunWalksExactly | crates/dormant-core/src/state_machine.rs:9-17 | Over whole runs: phases and wake effects are what the automaton predicts from the inputs other than overlays, holds and ownership losses, if and only if no step is that tick. |
| WakePaths.MutedStandsStill | crates/dormant-core/src/state_machine.rs:9-17 | Overlay inputs, stale stage ticks and hold writes are no step of it. |
| WakePaths.OverlaysCannotTouchTheWakePath | crates/dormant-core/src/state_machine.rs:9-17 | Two runs, from any reachable states: start states that differ in overlays, holds, frozen values, ownership, gates and last zone level, and suffixes that differ in inhibitor, pause and resume inputs, show the same phases and the same IssueWake and TeardownRender effects after presence, exactly as long as neither takes that tick, which none does unless it starts from a blank over a frozen countdown. |
| WakePaths.RecoversFromEveryRun | crates/dormant-core/src/state_machine.rs:682-724 | At every point of every run from `new`, whatever its inputs: after presence, n failed answers and then one success (two when a blank is in flight) leave the panel Active, n+3 steps at most. |
| CommandGenerations.EveryStepNumbers | crates/dormant-core/src/state_machine.rs:1422-1463 | Every step in any state issues no command and leaves the counter, or issues exactly the next generation. |
| CommandGenerations.CommandsCountUp | crates/dormant-core/src/state_machine.rs:1422-1463 | In every run from `new` the k-th command issued carries generation k. |
| CommandGenerations.OnlyTheNewestAnswerCounts | crates/dormant-core/src/state_machine.rs:682-686 | A command result that is not for the newest command, or not the kind the phase awaits, changes nothing at all. |
| CommandGenerations.TheNewestAnswerMoves | crates/dormant-core/src/state_machine.rs:901-921 | The awaited result always moves the machine. |
| CommandGenerations.OldResultsNeverCount | crates/dormant-core/src/state_machine.rs:682-686 | In every run from `new`, a result whose generation is not the number of commands issued so far leaves the machine as it is. |
| KnownGaps.LeakReached | crates/dormant-core/src/state_machine.rs:1303-1313 | In every configuration with a render rung first, a five-input run reaches Waking with a frozen countdown, against the assertion at the end of `step`. |
| KnownGaps.PresentRoomDarkened | crates/dormant-core/src/state_machine.rs:923-929 | Extending it by ForceBlank, presence and two ticks raises an overlay in a room last reported present. |
| KnownGaps.ForcedLeakOrphans | crates/dormant-core/src/state_machine.rs:923-929 | On every validated ladder with a timed render rung, also where the last rung is safe, a run from `new` fed only scheduled stage ticks orphans the overlay; on a safe ladder it takes the forced leak. |
| KnownGaps.ForcedLeakForgets | crates/dormant-core/src/state_machine.rs:1282-1292 | In every configuration with a render rung first, a run from `new` that delivers only scheduled ticks ends with a running owned countdown and no tick left at or after its end. |
| KnownGaps.RestoredBlankingWedges | crates/dormant-core/src/state_machine.rs:399-402 | Restored into Blanking, no run of any inputs ever leaves it. |
| KnownGaps.RestoredGraceAssumesAbsence | crates/dormant-core/src/state_machine.rs:394-398 | Restored into Grace, the tick at its end darkens the panel with no zone level known, exactly when the startup holdoff is over. |
| KnownGaps.RestoredWakingRetries | crates/dormant-core/src/state_machine.rs:355-407 | Restored into Waking, no answer counts, and the retry it schedules sends a wake numbered after every command of the former life, and the next retry. |
| KnownGaps.RestoredGraceIsTicked | crates/dormant-core/src/state_machine.rs:355-407 | Restored into Grace, the countdown's end is ticked, and the blank is numbered after every command of the former life. |
| KnownGaps.OldTickAfterForceBlank | crates/dormant-core/src/state_machine.rs:1141-1152 | A stage tick armed before ForceBlank is accepted after it and restarts the ladder at rung 0. |
| KnownGaps.AutoResumeLeavesDwellFrozen | crates/dormant-core/src/state_machine.rs:1350-1360 | A pause that runs out by itself on a staged rung leaves the dwell frozen: in every run after it without a release or a resume, for as long as the rung lasts, no stage tick is accepted. |
| KnownGaps.IdleResumeEndsDwell | crates/dormant-core/src/state_machine.rs:1117-1124 | Resume with no pause in force re-arms the dwell with nothing left. |
| KnownGaps.ReleaseIgnoresPause | crates/dormant-core/src/state_machine.rs:1090-1093 | Releasing the inhibitor re-arms the dwell although a pause is in force. |
| KnownGaps.StageLingers | crates/dormant-core/src/state_machine.rs:264-267 | The current rung is still set in Waking after a presence and in Grace after a failed blank, against its comment. |
| Coordination.CoordRecord.RecordObservationAt | crates/dormant-core/src/coordination.rs:427-539 | One observation in place leaves the record and returns the outcome of the specification. |
| Coordination.CoordRecord.TrimTransitions | crates/dormant-core/src/coordination.rs:195-225 | The pruning loop drops exactly the leading transitions older than the window. |
| Coordination.CoordRecord.RecordContestedObservation | crates/dormant-core/src/coordination.rs:267-298 | A read while contested, in place. |
| Coordination.CoordRecord.MarkOwned | crates/dormant-core/src/coordination.rs:573-591 | A verified write makes the record owned and clears debounce, sighting and limiter. |
| Coordination.CoordinationHandle.ReconcileShared | crates/dormant-core/src/coordination.rs:594-603 | Survivors keep their records, additions are seeded owned, the rest are dropped. |
| Coordination.CoordinationHandle.Owns | crates/dormant-core/src/coordination.rs:653-662 | The gate: a display without a record is owned, otherwise the record decides. |
| CoordHistory.DebounceThroughout | crates/dormant-core/src/coordination.rs:464-539 | Over every history of reads, connector mismatches, failures and writes: the pending counter is the length of the longest suffix, since the last commit, settling or verified write, that shows one code of the class opposing the verdict, a mismatch showing code 0 as foreign, and that no read differing from the raw code before it interrupts. |
| CoordHistory.FlipsExactlyWhenConfirmed | crates/dormant-core/src/coordination.rs:464-539 | Over every history: an uncontested read or mismatch commits a flip if and only if it completes max(k, 1) of these in a row: shorter, mixed and interrupted runs never do. |
| CoordHistory.LimiterCountsTheWindow | crates/dormant-core/src/coordination.rs:195-225 | With a clock that never decreases: the deque holds exactly the commits since the last clear within the window of the latest, contested is entered exactly when they number max(threshold, 2), contested implies not owned. |
| CoordHistory.LastChangeDates | crates/dormant-core/src/coordination.rs:267-298 | The record's date of the last raw change is the instant of the poll, found on the history, since which it has been contested and every read carries one code. |
| CoordHistory.SettlesExactlyWhenQuiet | crates/dormant-core/src/coordination.rs:267-298 | Over every history with a clock that never decreases: a contested record settles at a read if and only if some read, since which it has been contested and every read carries the same code, lies at least the settle interval back. |
| CoordHistory.RegainsOnlyAfterSettling | crates/dormant-core/src/coordination.rs:452-462 | From any contested record of any history, polling - reads, mismatches and failures - regains ownership only through a read at which the raw code has stood for the settle interval, on the history, followed by max(k, 1) identical local reads in a row, that one not counted. |
| CoordHistory.OutcomesReplayOwnership | crates/dormant-core/src/coordination.rs:531-539 | Replaying the outcomes and the verified writes reconstructs ownership exactly over every history, gains cancelled by the limiter included; contested implies not owned. |
| CoordHistory.ReturnsExactlyAfterSighting | crates/dormant-core/src/coordination.rs:235-250 | `observed_return` fires if and only if an uncommitted peer sighting while owned is followed by max(k, 1) consecutive local reads, hence at most once a sighting. |
| CoordCodes.OwnCodesKeepOwnership | crates/dormant-core/src/coordination.rs:82-92 | In raw codes: an owned record polled only with its local read or write code, failures and verified writes stays owned and uncontested, over any history. |
| CoordCodes.ForeignCodeLosesOwnership | crates/dormant-core/src/coordination.rs:501-528 | Any one other code read max(k, 1) times in a row leaves it not owned, over any history. |
| CoordCodes.OwnCodeRegainsOwnership | crates/dormant-core/src/coordination.rs:484-500 | One of its own codes read max(k, 1) times in a row leaves it owned, unless it is contested on the way. |
| CoordCodes.RegainedOnlyInOwnCodes | crates/dormant-core/src/coordination.rs:484-500 | Over any history what was lost is regained only at a verified write or a read of one of its own codes. |
| CoordCodes.SeenOnlyInPeerCodes | crates/dormant-core/src/coordination.rs:501-508 | A sighting of the peer is recorded only for one of the peer's codes that is not its own, and by an uncommitted foreign read of an owned record exactly then. |
| CoordCodes.SightingsAreOfThePeer | crates/dormant-core/src/coordination.rs:501-508 | Over any history, while a sighting stands some earlier read showed such a code. |
| CoordReports.TelemetryIsTheLastRead | crates/dormant-core/src/coordination.rs:227-234 | Over any history the telemetry is that of the last read, and the failures those since the last read or verified write, saturating. |
| CoordReports.SignalsExactly | crates/dormant-core/src/coordination.rs:252-266 | Over any history: disagreement, or changed readback while contested, is signalled exactly when a read differs from the raw code before it; a deferred loss or gain exactly when a look speaks against the verdict without completing it, with the looks counted. |
| Engine.RulesEngine.StepMachine | crates/dormant-core/src/rules.rs:2390-2410 | A machine is stepped and its effects run in order; a display without a machine is ignored. |
| Engine.RulesEngine.FeedOwnership | crates/dormant-core/src/rules.rs:2459-2478 | Cache hit, suppressed loss and fed change, in place. |
| Engine.RulesEngine.EffectiveZonePresence | crates/dormant-core/src/rules.rs:1763-1769 | True if and only if some driving zone is occupied or unknown. |
| Engine.RulesEngine.FanZoneChangeToDisplays | crates/dormant-core/src/rules.rs:1727-1757 | Every display of every rule on the zone, in rule order, gets its effective presence after an ownership feed; presence ends its input-wake hold. |
| Engine.RulesEngine.ApplyHoldFilter | crates/dormant-core/src/rules.rs:1679-1723 | Arms, swallows or passes through, in place. |
| Engine.RulesEngine.HandlePresenceEvent | crates/dormant-core/src/rules.rs:1613-1675 | Filter, fusion and fan-out in order. |
| Engine.RulesEngine.EffectiveInputWakeHold | crates/dormant-core/src/rules.rs:2681-2699 | The shortest hold of the driving rules; none if no rule drives the display or a driving zone is occupied or unknown. |
| Engine.RulesEngine.HandleInputWake | crates/dormant-core/src/rules.rs:1813-1841 | Arms the hold and its timer when every driving zone is vacant, then steps the machine. |
| Engine.RulesEngine.FireHoldExpiry | crates/dormant-core/src/rules.rs:2749-2776 | A stale entry does nothing; a current one disarms the hold and replays the swallowed absence. |
| Engine.RulesEngine.FireInputWakeHoldExpiry | crates/dormant-core/src/rules.rs:2781-2811 | A stale entry does nothing; a current one clears the hold and re-enters Grace only from vacancy. |
| Engine.RulesEngine.FireDueTimers | crates/dormant-core/src/rules.rs:2717-2747 | The loop stops, computes the drain and leaves no due entry behind. |
| TimerDrain.FireShrinks | crates/dormant-core/src/rules.rs:2717-2747 | Whichever due entry is popped, a lexicographic measure shrinks: entries consumed for good, displays whose next feed changes the ownership cache, paused displays, and the distance of due display ticks from the limit. |
| TimerDrain.TickScheduling | crates/dormant-core/src/state_machine.rs:498-573 | In every phase a tick that ends no pause schedules at most one tick, strictly later than the instant it is given. |
| TimerDrain.DrainEmptiesWheel | crates/dormant-core/src/rules.rs:2717-2747 | After a drain every entry left is later than the limit. |
| DrainCondition.UnpacedSpins | crates/dormant-core/src/rules.rs:2717-2747 | For every display without paced timings: a run from `new` after which the drain never ends. |
| DrainCondition.StopsExactlyWhenPaced | crates/dormant-core/src/rules.rs:2717-2747 | After every engine run from `new`, whatever is due, draining stops, if and only if every display has a positive retry interval and a non-empty ladder or a positive grace period. |
| DrainCondition.ValidatedAlwaysStops | crates/dormant-core/src/config/validate.rs:2591-2597 | Validated timings and normalised ladders meet that condition: under them the drain stops after every run. |
| EngineFrames.StepKeeps | crates/dormant-core/src/state_machine.rs:414-1195 | No input changes the configuration or the hold flag, only reports change the zone level and only ownership inputs ownership, and no input the wheel feeds starts a pause or arms a stage tick. |
| EngineRuns.FirstFeedSilent | crates/dormant-core/src/rules.rs:1336-1342 | The effects of the first ownership feed, which the constructor drops, are none. |
| EngineRuns.SoundKept | crates/dormant-core/src/rules.rs:1613-1841 | Every engine event keeps: cache equals what the machine believes, hold flag set exactly while a deadline backed by a wheel entry exists, every armed sensor hold backed by an entry at its last presence plus the hold time. |
| EngineRuns.SoundThroughout | crates/dormant-core/src/rules.rs:2459-2478 | The same at every point of every run from `new`. |
| EngineDarkness.TimersDarkenOnlyOwned | crates/dormant-core/src/rules.rs:2717-2803 | A popped entry of any kind blanks or raises an overlay only where the gate grants ownership or a claim suppression is in force at the entry's deadline; hold expiries never do. |
| EngineDarkness.NoTimerDarkensUnowned | crates/dormant-core/src/coordination.rs:653-662 | In every run, under the coordination gate: only displays that are private, or owned and uncontested by their poll history, or suppressed, are darkened by a timer. |
| EngineHolds.AbsenceOnlyAfterHold | crates/dormant-core/src/rules.rs:1679-1723 | In every run, a sensor with a hold time reaches the zones as absent only that long after its last raw presence. |
| EngineHolds.OnlyHeldAbsencesAreKept | crates/dormant-core/src/rules.rs:1679-1716 | Every report goes through to the zones but an absence under an armed hold, which stays pending under the hold's deadline; a presence arms the hold anew, its end on the wheel, an outage lifts what is pending. |
| EngineHolds.HoldFireDelivers | crates/dormant-core/src/rules.rs:2749-2776 | The entry that ends a hold delivers what the hold swallowed, once, and touches no other sensor's hold. |
| EngineHolds.SwallowedUntilDelivered | crates/dormant-core/src/rules.rs:1703-1710 | Across any run without a later presence or outage of its sensor, a swallowed absence keeps its original deadline until it is delivered. |
| EngineHolds.DrainDeliversSwallowed | crates/dormant-core/src/rules.rs:2749-2776 | Draining to a limit delivers every absence whose hold ends by then. |
| EngineHolds.DrainEndsDueHolds | crates/dormant-core/src/rules.rs:2781-2803 | After a drain no hold of either kind is in force past its deadline. |
| EngineRefines.EngineRunsAreDisplayRuns | crates/dormant-core/src/rules.rs:2390-2410 | In every engine run, each display: its machine is where some run of that display alone, from `new`, leads; the ticks and stage ticks the wheel holds for it are exactly those that run has scheduled and not yet received, each coming off no earlier than its deadline; the outbox holds for it exactly the IssueBlank, IssueWake, ShowRender and TeardownRender effects of that run, in order; and nothing is asked of it that nobody asks of the engine. |
| EngineCommands.OutboxHoldsTheRun | crates/dormant-core/src/rules.rs:2860-2945 | The same read off the run: what the outbox holds for a display is, in order, what its own run has issued. |
| EngineCommands.WaitingHasBeenAsked | crates/dormant-core/src/rules.rs:2861-2890 | In every engine run a display in Waking has been sent the wake whose answer it waits for, and one in Blanking the blank. |
| EngineCommands.ReportRouses | crates/dormant-core/src/rules.rs:1727-1757 | A report that passes the hold filter and changes a zone that drives a dark panel, now occupied, leaves that panel waking with its wake in the outbox, where the gate says it is owned. |
| EngineInputs.ControlsArrive | crates/dormant-core/src/rules.rs:1806-1812 | A control, its display's verdict settled, and an answer always, steps its display by exactly that input, sends its commands and touches no other display. |
| EngineInputs.TicksArrive | crates/dormant-core/src/rules.rs:2721-2734 | A popped tick or stage tick steps its display by exactly that input at its deadline, and is off the wheel. |
| EngineInputs.PopsInOrder | crates/dormant-core/src/rules.rs:1061-1074 | Earliest deadline first; at one instant ticks, then stage ticks, older generations first, then sensor holds, then input-wake holds. |
| EngineInputs.PollsTell | crates/dormant-core/src/rules.rs:2459-2479 | Asked about ownership a display believes the gate, unless a claim still suppresses a loss, and then nothing changes; no other display does. |
| EngineInputs.ClaimsSuppress | crates/dormant-core/src/rules.rs:1863-1870 | A claim keeps a loss from its display until it ends; lifted or ended, it no longer does. |
| EngineInputs.FiredStageTickEscalates | crates/dormant-core/src/rules.rs:2727-2734 | Over every run: firing the newest stage tick of a display on a rung, dwell unfrozen, nothing inhibited, owned and the gate granting, puts it on the next rung with that rung's command sent last, or off the ladder's end. |
| EngineInputHolds.HoldExactlyWhileVacant | crates/dormant-core/src/rules.rs:2681-2698 | There is an input-wake hold exactly while some rule drives the display and every driving zone is known vacant, and it is the shortest of the driving rules'. |
| EngineInputHolds.InputArmsShortest | crates/dormant-core/src/rules.rs:1813-1841 | An input wake then arms exactly that hold, its end on the wheel and the flag set, and otherwise none. |
| EngineInputHolds.InputWakeArrives | crates/dormant-core/src/rules.rs:1813-1841 | And the display, its verdict settled, steps by the wake, held back or not. |
| EngineInputHolds.HoldEndCountsDown | crates/dormant-core/src/rules.rs:2777-2803 | The end of a hold, once due, lifts it; over vacant zones a panel kept Active, its verdict settled, starts a full countdown at the deadline, ticked at its end or frozen; over other zones nothing else happens; an early or stale entry does nothing. |
| EngineDeadlines.WheelRemembersEveryWait | crates/dormant-core/src/rules.rs:2860-2900 | At every point of every engine run, each display, told by such a run of its own: Waking has a tick in the wheel exactly one retry interval after that run's last IssueWake, a timed pause one at or after its end, and a running owned countdown lacks one if and only if that run forgot it (`Deadlines.LostExactlySinceForgotten`). |
| EngineDeadlines.NobodyStrandedUnlessForced | crates/dormant-core/src/rules.rs:2860-2900 | In every engine run in which nobody forces a blank, every running owned countdown has a tick at or after its end in the wheel. |
| EngineRefines.EngineNeverDarkensPresentRooms | crates/dormant-core/src/rules.rs:1727-1757 | In every engine run in which nobody asks for a blank, a display is dark only while the presence last fed to it is absence. |
| EngineVacancy.FanZonesTells | crates/dormant-core/src/rules.rs:1727-1757 | Fanning out the changed zones leaves every display they drive, and every display that already did, told what the zones say now. |
| EngineVacancy.ToldThroughout | crates/dormant-core/src/rules.rs:1763-1769 | In every run, what each machine was last told is the effective presence of the zones that drive it now. |
| EngineVacancy.DarkOnlyOverVacantZones | crates/dormant-core/src/rules.rs:1758-1769 | End to end, in every run in which nobody asks for a blank: a display is dark, or counting down to it, only while every zone driving it is known vacant; a blank in flight may instead have its wake pending. |
| Operations.OperationRegistry.TryAcquire | crates/dormant-core/src/rules.rs:211-260 | Acquisition in place against the table. |
| Operations.OperationRegistry.CancelGeneration | crates/dormant-core/src/rules.rs:263-271 | Triggers the tokens of exactly one generation's entries and removes no entry. |
| Operations.NeverConflicts | crates/dormant-core/src/rules.rs:172-289 | Under every interleaving of acquire, adopt, drop, quiesce and cancel the active table stays free of conflicts. |
| Operations.OperationsStayApart | crates/dormant-core/src/rules.rs:223-241 | Under every interleaving two active operations of one generation are both exercises, of different displays. |
| Operations.WakeGrantedExactlyWhenIdle | crates/dormant-core/src/rules.rs:216-245 | An emergency wake is granted if and only if the generation is not quiescing and has nothing active. |
| Operations.ExerciseGrantedExactlyWhenApart | crates/dormant-core/src/rules.rs:216-245 | An exercise is granted if and only if the generation is not quiescing and has neither an emergency wake nor an exercise of that display active. |
| Operations.ActiveExactlyWhileTaken | crates/dormant-core/src/rules.rs:163-260 | Over every interleaving an id is active for a generation and kind if and only if it was granted to them and nobody has dropped it since. |
| Operations.AdoptsExactlyWhatIsTaken | crates/dormant-core/src/rules.rs:187-200 | A lease is adopted if and only if its id was granted to that generation and kind and nobody has dropped it since. |
| Operations.QuiescingExactlySinceBegun | crates/dormant-core/src/rules.rs:173-186 | A generation is quiescing if and only if it began and has not ended. |
| Operations.CancelledExactlyIfCalled | crates/dormant-core/src/rules.rs:262-272 | An operation is cancelled if and only if its generation was, while it was active. |
| Operations.GrantsExactlyWhenFree | crates/dormant-core/src/rules.rs:211-260 | An acquisition is granted if and only if the table stays conflict-free with it and the generation is not quiescing. |
| Operations.QuiescingOnlyDrains | crates/dormant-core/src/rules.rs:174-186 | From begin to end of quiescing the active set only shrinks and stays empty once empty. |
| Operations.BackedExactlyUnlessShared | crates/dormant-core/src/rules.rs:163-170 | If and only if: a call leaves every held lease backed by an entry unless it drops a lease whose id another lease holds. |
| Operations.LeasesBackedExactlyUnlessShared | crates/dormant-core/src/rules.rs:163-170 | Over every interleaving from the empty registry: every held lease is backed by its entry at every point, if and only if no lease is ever dropped while another holds the same id. |
| Operations.SharedDropAdmitsConflict | crates/dormant-core/src/rules.rs:163-170 | After such a drop the same operation, of whatever kind, is granted again beside the surviving lease, with which it conflicts. |
| Operations.ConflictReached | crates/dormant-core/src/rules.rs:188-260 | For every generation and kind, four calls on the empty registry - acquire, adopt, drop, acquire - end with two leases held that conflict. |
| AreaResampler.ResampleArea | crates/dormant-core/src/spatial_grid.rs:205-258 | Refuses exactly empty dimensions and mismatched lengths; otherwise every output cell is the overlap-weighted average of the source. |
| AreaResampler.CellPass | crates/dormant-core/src/spatial_grid.rs:231-252 | The inner loops, skipping source rows without overlap, compute that average. |
| Resampling.OverlapsSumToWhole | crates/dormant-core/src/spatial_grid.rs:236-246 | The overlaps of an interval with n equal cells sum to its length. |
| Resampling.MassArrives | crates/dormant-core/src/spatial_grid.rs:231-252 | All source mass arrives at the destination, scaled by the size of a source cell. |
| Resampling.MeanConserved | crates/dormant-core/src/spatial_grid.rs:189-192 | For all source and target sizes the mean of the output is the mean of the input. |
| AreaResampler.RangeKept | crates/dormant-core/src/spatial_grid.rs:231-252 | Every output lies within any bounds that hold of the input. |
| AreaResampler.RangeKeptLocally | crates/dormant-core/src/spatial_grid.rs:231-252 | Every output cell lies within any bounds that hold of the source cells it overlaps, the overlap decided in whole numbers. |
| AreaResampler.ShortcutAgrees | crates/dormant-core/src/spatial_grid.rs:219-221 | The same-size shortcut returns what the loops would compute. |
| LumaGrids.ReduceRgba8ToLumaGrid | crates/dormant-core/src/spatial_grid.rs:75-142 | Each refusal in the order of the checks; a grid exactly for well-formed frames of at least 16 by 9 pixels, each cell the average of its pixels and in [0, 1]; InvalidGrid never. |
| LumaGrids.CoveredExactlyWhenBigEnough | crates/dormant-core/src/spatial_grid.rs:113-136 | Every cell receives a pixel if and only if the frame is at least 16 wide and 9 high. |
| LumaGrids.PixelInBuffer | crates/dormant-core/src/spatial_grid.rs:113-128 | Every byte the loop reads lies inside the buffer. |
| LumaGrids.CountsAddUp | crates/dormant-core/src/spatial_grid.rs:113-128 | The counts add up to the pixels seen, at every point of the loop: each pixel lands in exactly one of the 144 cells. |
| LumaGrids.MeanLumaConserved | crates/dormant-core/src/spatial_grid.rs:113-140 | The cells weighted by their pixel counts add up to the luma of the whole frame. |
| Pictures.PaintedPixel | crates/dormant-core/src/spatial_grid.rs:117-128 | A buffer painted from a picture, rows of any stride padded with anything, reads back pixel by pixel as the luma of red, green and blue in that order, weighted by alpha. |
| Pictures.ReducedPicture | crates/dormant-core/src/spatial_grid.rs:75-142 | The reduced grid of a painted frame is, cell by cell, the average of the picture over the pixels that fall into the cell. |

## Left out

- Engine.RulesEngine.FireDueTimers: requires paced timings, because without them the loop need not stop; the gate's verdicts and the claim suppressions stay fixed during one drain, the wall clock does not.
- WakePaths.OverlaysCannotTouchTheWakePath: suffixes with an ownership gain or a later report of absence are outside, since both change the wake path by design.
- EngineRuns.SoundThroughout: starts from `new`; machines installed by a reload are not part of the runs.
- EngineVacancy.DarkOnlyOverVacantZones: zone fusion is arbitrary except that it reports every zone whose level it changes, as `crates/dormant-core/src/zone.rs:226-242` does; runs with ForceBlank or SoftBlank are outside, since an operator may darken an occupied room.
- CoordHistory.SettlesExactlyWhenQuiet: that a quiet read settles needs a clock that never decreases; that a settling read is quiet does not (`CoordHistory.SettledIsQuiet`).
- Resampling.MeanConserved: exact real arithmetic, because rounding is not the point; the refusal of non-finite values has no counterpart over the reals.
- LumaGrids.ReduceRgba8ToLumaGrid: the transfer function and the Rec. 709 weights are an arbitrary function into [0, 1], and sums are exact.
- Generations are unbounded naturals: the wrap-around of the 64-bit counters is not modelled.
- The engine holds machines as values in a map; the in-place form of one machine is `DisplayMachine`. Aliasing between the two is not modelled.
- The binary heap is a sequence whose least entry, in the order of deadline and entry, is popped next.
- Display, sensor and zone names are natural numbers, so the order of equal deadlines is the order of those numbers.
- The zone fusion engine, the stale-sensor sweep, executors and the wear tracker: their results are inputs.
- The effects an executor or a render sink may drop when a display has none.
- Pause scopes, wake and blank failure counters, broadcast events, snapshots and the causes in the transition log: they decide nothing.
- Emergency wake, the exercise sequence, reload and rollback, KVM status and IPC frames.
- A general law of dwell conservation under any mix of pauses and inhibitors: the code does not keep one; `LadderCommands.PausePostponesDwell` and `LadderCommands.InhibitionPostponesDwell` state the single freeze it does keep.
- Blocking waits, notification and cancellation tokens of the operation registry; the table is modelled under its lock.
- Lock poisoning and the concurrency of the coordination map: calls are atomic.
- Configuration normalisation, path building, MQTT and the build scripts: they would add easy members only.
