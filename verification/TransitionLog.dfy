/** The transition log never lies: the first entry of a step names the phase it found, the last one
    the phase it left, and a step without an entry changed no phase - the slip apart. */
module TransitionLog {
  import opened DisplayTypes
  import opened DisplaySpec
  import opened DisplayRuns

  predicate Logs(fx: seq<Effect>) { exists k :: 0 <= k < |fx| && fx[k].LogTransition? }

  predicate FirstLog(fx: seq<Effect>, k: nat) {
    k < |fx| && fx[k].LogTransition? && forall j :: 0 <= j < k ==> !fx[j].LogTransition?
  }

  predicate LastLog(fx: seq<Effect>, k: nat) {
    k < |fx| && fx[k].LogTransition? && forall j :: k < j < |fx| ==> !fx[j].LogTransition?
  }

  ghost predicate Opens(fx: seq<Effect>, from: PhaseName) { exists k: nat :: FirstLog(fx, k) && fx[k].from == from }

  ghost predicate Closes(fx: seq<Effect>, to: PhaseName) { exists k: nat :: LastLog(fx, k) && fx[k].to == to }

  /** The batch tells of the way from one phase to another. */
  ghost predicate Tells(fx: seq<Effect>, from: PhaseName, to: PhaseName) { Opens(fx, from) && Closes(fx, to) }

  /** Told, or nothing to tell. */
  ghost predicate Truthful(m: Machine, o: Out) {
    if Logs(o.fx) then Tells(o.fx, NameOf(m.phase), NameOf(o.m.phase)) else NameOf(o.m.phase) == NameOf(m.phase)
  }

  lemma LogAt(fx: seq<Effect>, i: nat, j: nat)
    requires FirstLog(fx, i) && LastLog(fx, j)
    ensures Tells(fx, fx[i].from, fx[j].to)
  {
  }

  lemma ActiveTells(m: Machine, now: Instant, cause: Cause)
    ensures var o := EnterActive(m, now, cause); Logs(o.fx) && Tells(o.fx, NameOf(m.phase), NameOf(o.m.phase))
    ensures var t := TeardownToActive(m, now, cause); Logs(t.fx) && Tells(t.fx, NameOf(m.phase), NameOf(t.m.phase))
  {
    var o := EnterActive(m, now, cause);
    LogAt(o.fx, 0, if o.m.phase.Grace? then 1 else 0);
    var t := TeardownToActive(m, now, cause);
    LogAt(t.fx, 1, if o.m.phase.Grace? then 2 else 1);
  }

  lemma GraceTells(m: Machine, now: Instant, cause: Cause)
    ensures var o := EnterGrace(m, now, cause); Logs(o.fx) && Tells(o.fx, NameOf(m.phase), NGrace)
  {
    LogAt(EnterGrace(m, now, cause).fx, 0, 0);
  }

  lemma LadderTells(m: Machine, idx: nat, now: Instant, cause: Cause)
    ensures var o := EnterLadder(m, idx, now, cause); Logs(o.fx) && Tells(o.fx, NameOf(m.phase), NameOf(o.m.phase))
  {
    hide EnterActive, NameOf;
    ActiveTells(m, now, cause);
    var o := EnterLadder(m, idx, now, cause);
    if idx < |m.cfg.ladder| {
      var k := if o.fx[0].LogTransition? then 0 else 1;
      Names();
      LogAt(o.fx, k, k);
    }
  }

  lemma Names()
    ensures NameOf(Blanking) == NBlanking && forall i: nat, g: nat :: NameOf(RenderPending(i, g)) == NRenderPending
  {
  }

  /** A command after one log entry. */
  lemma WakeTells(a: Machine, log: Effect, now: Instant)
    requires log.LogTransition? && log.to.NWaking?
    ensures var o := StartWake(a, [log], now); Logs(o.fx) && Tells(o.fx, log.from, NWaking) && o.m.phase.Waking?
  {
    LogAt(StartWake(a, [log], now).fx, 0, 0);
  }

  lemma BlankTells(a: Machine, prefix: seq<Effect>, k: nat)
    requires FirstLog(prefix, k) && LastLog(prefix, k) && prefix[k].to.NBlanking?
    ensures var o := StartBlank(a, prefix); Logs(o.fx) && Tells(o.fx, prefix[k].from, NBlanking) && o.m.phase.Blanking?
  {
    LogAt(StartBlank(a, prefix).fx, k, k);
  }

  lemma JoinTells(a: seq<Effect>, b: seq<Effect>, from: PhaseName, to: PhaseName)
    requires Opens(a, from) && Closes(b, to)
    ensures Logs(a + b) && Tells(a + b, from, to)
  {
    var i: nat :| FirstLog(a, i) && a[i].from == from;
    var j: nat :| LastLog(b, j) && b[j].to == to;
    assert FirstLog(a + b, i);
    assert (a + b)[|a| + j] == b[j];
    forall k | |a| + j < k < |a + b| ensures !(a + b)[k].LogTransition? {
      assert (a + b)[k] == b[k - |a|];
    }
    assert LastLog(a + b, |a| + j);
  }

  lemma AfterQuiet(a: seq<Effect>, b: seq<Effect>, from: PhaseName, to: PhaseName)
    requires !Logs(a) && Tells(b, from, to)
    ensures Logs(a + b) && Tells(a + b, from, to)
  {
    var i: nat :| FirstLog(b, i) && b[i].from == from;
    var j: nat :| LastLog(b, j) && b[j].to == to;
    assert (a + b)[|a| + i] == b[i] && (a + b)[|a| + j] == b[j];
    forall k | 0 <= k < |a| + i ensures !(a + b)[k].LogTransition? {
      assert (a + b)[k] == if k < |a| then a[k] else b[k - |a|];
    }
    forall k | |a| + j < k < |a + b| ensures !(a + b)[k].LogTransition? {
      assert (a + b)[k] == b[k - |a|];
    }
    assert FirstLog(a + b, |a| + i) && LastLog(a + b, |a| + j);
  }

  lemma GainTells(m: Machine, now: Instant)
    ensures Truthful(m, GainOwnership(m, now))
  {
    hide StartWake, EnterActive, TeardownToActive, Tells;
    var n := m.(owned := true);
    var log := LogTransition(NameOf(m.phase), NWaking, COwnershipAcquired);
    WakeTells(n, log, now);
    if InLadderRender(m.phase) {
      var t := TeardownToActive(n, now, COwnershipAcquired);
      ActiveTells(n, now, COwnershipAcquired);
      WakeTells(t.m, log, now);
      Joins(t.fx, StartWake(t.m, [log], now).fx, NameOf(m.phase), NameOf(t.m.phase), log.from, NWaking);
    }
  }

  lemma Joins(a: seq<Effect>, b: seq<Effect>, from: PhaseName, mid: PhaseName, back: PhaseName, to: PhaseName)
    requires Tells(a, from, mid) && Tells(b, back, to)
    ensures Logs(a + b) && Tells(a + b, from, to)
  {
    JoinTells(a, b, from, to);
  }

  lemma LitTells(m: Machine, input: Input, now: Instant)
    requires Sturdy(m) && (m.phase.Active? || m.phase.Waking?)
    ensures Truthful(m, Step(m, input, now))
  {
    hide StepGrace, StepBlanking, StepBlanked, StepRenderPending, StepStaged;
    hide EnterActive, EnterGrace, EnterLadder, GainOwnership, StartBlank, Tells, Placed;
    match input
    case ZonePresent(_) => GraceTells(m.(zone := Some(false)), now, CZoneClear);
    case SoftBlank => LadderTells(m, 0, now, CSoftBlank);
    case ForceBlank => OneBlank(m);
    case OwnershipChanged(_) => GainTells(m, now);
    case WakeResult(_, _) =>
      ActiveTells(m.(cmds := m.cmds.(lastWake := Some(now))), now, CWakeCompleted);
      WakeTells(m, LogTo(m, NWaking, CWakeRetry), now);
    case Tick => if m.phase.Waking? { RetryTells(m, now); }
    case _ =>
  }

  lemma OneBlank(m: Machine)
    ensures var o := StartBlank(m, [LogTo(m, NBlanking, CForceBlank)]);
            Logs(o.fx) && Tells(o.fx, NameOf(m.phase), NBlanking) && o.m.phase.Blanking?
  {
    BlankTells(m, [LogTo(m, NBlanking, CForceBlank)], 0);
  }

  lemma RetryTells(m: Machine, now: Instant)
    requires m.phase.Waking?
    ensures Truthful(m, StepWaking(m, Tick, now))
  {
    hide Tells;
    var r := AutoResume(m, now);
    var log := LogTo(m, NWaking, CWakeRetryScheduled);
    WakeTells(r.m, log, now);
    assert !Logs(r.fx);
    AfterQuiet(r.fx, StartWake(r.m, [log], now).fx, NWaking, NWaking);
    assert r.fx + StartWake(r.m, [log], now).fx == StartWake(r.m, r.fx + [log], now).fx;
  }

  lemma GraceTickTells(m: Machine, now: Instant)
    requires m.phase.Grace?
    ensures Truthful(m, GraceTick(m, now))
  {
    hide EnterLadder, GateOpensAt, Tells;
    var r := AutoResume(m, now);
    assert !Logs(r.fx);
    LadderTells(r.m, 0, now, CGraceExpired);
    var o := EnterLadder(r.m, 0, now, CGraceExpired);
    AfterQuiet(r.fx, o.fx, NGrace, NameOf(o.m.phase));
  }

  lemma GracedTells(m: Machine, input: Input, now: Instant)
    requires m.phase.Grace?
    ensures Truthful(m, StepGrace(m, input, now))
  {
    hide EnterActive, EnterLadder, GainOwnership, GraceTick, StartBlank, Tells;
    match input
    case ZonePresent(_) => ActiveTells(m.(zone := Some(true)), now, CPresenceDuringGrace);
    case ForceWake => ActiveTells(m, now, CForceWake);
    case InputWake => ActiveTells(m, now, CInputWake);
    case SoftBlank => LadderTells(m.(graceFrozen := None), 0, now, CSoftBlank);
    case ForceBlank => OneBlank(m.(graceFrozen := None));
    case OwnershipChanged(_) => GainTells(m, now);
    case Tick => GraceTickTells(m, now);
    case _ =>
  }

  lemma BlankDoneTells(m: Machine, ok: bool, now: Instant)
    requires m.phase.Blanking?
    ensures Truthful(m, BlankDone(m, ok, now))
  {
    hide EnterActive, EnterGrace, Tells;
    var o := BlankDone(m, ok, now);
    GraceTells(m.(pendingWake := false), now, CBlankFailedRegrace);
    ActiveTells(m.(pendingWake := false), now, CBlankFailed);
    WakeTells(m.(cmds := m.cmds.(lastBlank := Some(now)), pendingWake := false),
              LogTo(m, NWaking, CPresenceDuringBlank), now);
    if ok && !m.pendingWake {
      LogAt(o.fx, 0, 0);
    }
  }

  lemma DarkTells(m: Machine, input: Input, now: Instant)
    requires Sturdy(m) && (m.phase.Blanking? || m.phase.Blanked?) && !Slips(m, Feed(input, now))
    ensures Truthful(m, Step(m, input, now))
  {
    hide StepActive, StepGrace, StepWaking, StepRenderPending, StepStaged;
    hide EnterActive, EnterLadder, GainOwnership, BlankDone, StartWake, Tells, Placed;
    match input
    case ZonePresent(_) => WakeTells(m.(zone := Some(true)), LogTo(m, NWaking, CPresenceDetected), now);
    case ForceWake => WakeTells(m, LogTo(m, NWaking, CForceWake), now);
    case InputWake => WakeTells(m, LogTo(m, NWaking, CInputWake), now);
    case StageTick(_) => LadderTells(m, NextRung(m), now, CStageTick);
    case OwnershipChanged(_) =>
      GainTells(m, now);
      ActiveTells(m.(owned := false), now, COwnershipYielded);
    case BlankResult(_, ok) => if m.phase.Blanking? { BlankDoneTells(m, ok, now); }
    case _ =>
  }

  lemma SoftTells(m: Machine, now: Instant)
    ensures Truthful(m, SoftBlankOverRender(m, now))
  {
    hide EnterLadder, Tells;
    var bare := m.(stage := m.stage.(current := None));
    var head := [TeardownRender(m.stage.gen), LogTo(m, NEnteringLadder, CSoftBlank)];
    LadderTells(bare, 0, now, CSoftBlank);
    LogAt(head, 1, 1);
    var o := EnterLadder(bare, 0, now, CSoftBlank);
    Joins(head, o.fx, NameOf(m.phase), NEnteringLadder, NameOf(m.phase), NameOf(o.m.phase));
  }

  lemma ForceTells(m: Machine)
    ensures Truthful(m, ForceBlankOverRender(m))
  {
    hide StartBlank, Tells;
    var bare := m.(stage := m.stage.(current := None));
    BlankTells(bare, [TeardownRender(m.stage.gen), LogTo(m, NBlanking, CForceBlank)], 1);
  }

  lemma RenderDoneTells(m: Machine, ok: bool, now: Instant)
    requires m.phase.RenderPending?
    ensures Truthful(m, RenderDone(m, ok, now))
  {
    hide EnterLadder, TeardownToActive, Tells;
    LadderTells(m, NextController(m.cfg.ladder, NextRung(m)), now, CRenderFailed);
    ActiveTells(m, now, CRenderFailed);
    if ok {
      LogAt(RenderDone(m, ok, now).fx, 0, 0);
    }
  }

  lemma PendingTells(m: Machine, input: Input, now: Instant)
    requires m.phase.RenderPending? && !Slips(m, Feed(input, now))
    ensures Truthful(m, StepRenderPending(m, input, now))
  {
    hide TeardownToActive, GainOwnership, SoftBlankOverRender, ForceBlankOverRender, RenderDone, Tells;
    match input
    case ZonePresent(p) => ActiveTells(m.(zone := Some(p)), now, CPresenceDetected);
    case InputWake => ActiveTells(m, now, CInputWake);
    case ForceWake => ActiveTells(m, now, CForceWake);
    case SoftBlank => SoftTells(m, now);
    case ForceBlank => ForceTells(m);
    case RenderResult(_, ok) => RenderDoneTells(m, ok, now);
    case OwnershipChanged(_) =>
      GainTells(m, now);
      ActiveTells(m.(owned := false), now, COwnershipYielded);
    case _ =>
  }

  lemma StagedTells(m: Machine, input: Input, now: Instant)
    requires m.phase.Staged? && !Slips(m, Feed(input, now))
    ensures Truthful(m, StepStaged(m, input, now))
  {
    hide TeardownToActive, EnterLadder, GainOwnership, SoftBlankOverRender, ForceBlankOverRender, Tells;
    match input
    case ZonePresent(p) => ActiveTells(m.(zone := Some(p)), now, CPresenceDetected);
    case InputWake => ActiveTells(m, now, CInputWake);
    case ForceWake => ActiveTells(m, now, CForceWake);
    case StageTick(_) => LadderTells(m, NextRung(m), now, CStageTick);
    case SoftBlank => SoftTells(m, now);
    case ForceBlank => ForceTells(m);
    case OwnershipChanged(_) =>
      GainTells(m, now);
      ActiveTells(m.(owned := false), now, COwnershipYielded);
    case _ =>
  }

  /** In every state of every run: what a step logs begins with the phase it found and ends with the
      phase it left, and where it logs nothing the phase is the same - unless it is the tick that thaws
      a countdown outside Grace. */
  lemma EveryStepLogs(m: Machine, input: Input, now: Instant)
    requires Sturdy(m) && !Slips(m, Feed(input, now))
    ensures Truthful(m, Step(m, input, now))
  {
    hide Truthful, Sturdy, Slips;
    hide StepActive, StepGrace, StepBlanking, StepBlanked, StepWaking, StepRenderPending, StepStaged;
    match m.phase
    case Grace(_) => GracedTells(m, input, now);
    case Blanking | Blanked => DarkTells(m, input, now);
    case RenderPending(_, _) => PendingTells(m, input, now);
    case Staged(_, _) => StagedTells(m, input, now);
    case _ => LitTells(m, input, now);
  }
}
