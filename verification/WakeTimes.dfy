/** When a lit panel may go dark again, read off the run alone: a minimum wake time after the last
    confirmed wake, a startup holdoff after the start, a grace period of unfrozen absence. */
module WakeTimes {
  import opened DisplayTypes
  import opened DisplaySpec
  import opened DisplayRuns
  import opened GraceCountdown
  import opened Ledger
  import Rooms = PresentRooms

  // ── The blank gates ─────────────────────────────────────────────────────

  /** The first instant from `now` on at which both gates are open. */
  ghost predicate FirstOpen(m: Machine, now: Instant, at: Instant) {
    now <= at && GatesOpen(m, at) && forall t: Instant :: now <= t < at ==> !GatesOpen(m, t)
  }

  lemma GatesReopen(m: Machine, now: Instant)
    ensures GateOpensAt(m, now).None? <==> GatesOpen(m, now)
    ensures GateOpensAt(m, now).Some? ==> FirstOpen(m, now, GateOpensAt(m, now).value)
  {
  }

  /** An expired countdown under a closed gate waits, and asks to be ticked at exactly the first
      instant at which both gates are open. */
  lemma ClosedGatesPostpone(m: Machine, now: Instant) returns (at: Instant)
    requires Sturdy(m) && Live(m) && m.phase.until <= now && !GatesOpen(m, now)
    ensures FirstOpen(m, now, at) && Step(m, Tick, now) == Out(m, [ScheduleTickAt(at)])
  {
    hide StepActive, StepBlanking, StepBlanked, StepWaking, StepRenderPending, StepStaged, EnterLadder, Placed;
    hide GateOpensAt, GatesOpen, FirstOpen;
    GatesReopen(m, now);
    at := GateOpensAt(m, now).value;
  }

  lemma TickDarkensOpen(m: Machine, now: Instant)
    requires m.phase.Grace? && Rooms.Darkens(Step(m, Tick, now).fx)
    ensures GatesOpen(m, now)
  {
    hide StepActive, StepBlanking, StepBlanked, StepWaking, StepRenderPending, StepStaged, EnterLadder, GatesOpen;
    GatesReopen(m, now);
    assert GateOpensAt(AutoResume(m, now).m, now) == GateOpensAt(m, now);
  }

  // ── On the run ──────────────────────────────────────────────────────────

  predicate InstantsRun(es: seq<Event>) {
    forall i, j :: 0 <= i < j < |es| && es[i].Feed? && es[j].Feed? ==> es[i].now <= es[j].now
  }

  /** On every run whose clock never decreases: no tick takes the panel dark from Grace less than the
      minimum wake time after any event that confirmed a wake, or less than the holdoff after the
      start. */
  lemma MinimumWakeKept(timings: Timings, ladder: seq<LadderStage>, t0: Instant, es: seq<Event>, k: nat, i: nat)
    requires k < i < |es| && InstantsRun(es) && es[i].Feed? && es[i].input.Tick?
    requires LitAt(New(timings, ladder, t0), es, k)
    requires var m := At(New(timings, ladder, t0), es, i); m.phase.Grace? && Rooms.Darkens(Apply(m, es[i]).fx)
    ensures es[k].now + timings.minWakeTime <= es[i].now
  {
    hide Step, New, At, LitAt, Rooms.Darkens;
    var m0 := New(timings, ladder, t0);
    TickDarkensOpen(At(m0, es, i), es[i].now);
    FieldsAreHistory(timings, ladder, t0, es, i);
    ConfirmationsAreDated(timings, ladder, t0, es, i);
    var j: nat :| LastLit(m0, es, j, i) && es[j].now == At(m0, es, i).cmds.lastWake.value;
    assert LitAt(m0, es, k) ==> es[k].Feed? by { LitIsFed(m0, es, k); }
    assert k <= j;
  }

  lemma LitIsFed(m0: Machine, es: seq<Event>, k: nat)
    ensures LitAt(m0, es, k) ==> k < |es| && es[k].Feed?
  {
    hide At;
  }

  lemma HoldoffKept(timings: Timings, ladder: seq<LadderStage>, t0: Instant, es: seq<Event>, i: nat)
    requires i < |es| && es[i].Feed? && es[i].input.Tick? && t0 <= es[i].now
    requires var m := At(New(timings, ladder, t0), es, i); m.phase.Grace? && Rooms.Darkens(Apply(m, es[i]).fx)
    ensures t0 + timings.startupHoldoff <= es[i].now
  {
    hide Step, New, At, Rooms.Darkens;
    TickDarkensOpen(At(New(timings, ladder, t0), es, i), es[i].now);
    FieldsAreHistory(timings, ladder, t0, es, i);
  }

  /** What the run says at event `i`: told no overlay and told to own, a full grace period of
      unfrozen time spent, the holdoff over, and the minimum wake time since the last confirmed wake. */
  ghost predicate RunAllows(timings: Timings, ladder: seq<LadderStage>, t0: Instant, es: seq<Event>, i: nat)
    requires i < |es| && es[i].Feed?
  {
    && OverlaysTold(es, i) == Overlays(false, None) && OwnerTold(es, i)
    && SpentBy(WatchAt(NewWatch(timings, ladder, t0), es, i), es[i].now) >= timings.gracePeriod
    && Since(es[i].now, t0) >= timings.startupHoldoff
    && forall k: nat :: LastLit(New(timings, ladder, t0), es, k, i) ==>
         Since(es[i].now, es[k].now) >= timings.minWakeTime
  }

  lemma GatesOnTheRun(timings: Timings, ladder: seq<LadderStage>, t0: Instant, es: seq<Event>, i: nat, now: Instant)
    requires i <= |es|
    ensures var m0 := New(timings, ladder, t0);
            GatesOpen(At(m0, es, i), now) <==>
              && Since(now, t0) >= timings.startupHoldoff
              && forall k: nat :: LastLit(m0, es, k, i) ==> Since(now, es[k].now) >= timings.minWakeTime
  {
    hide New, At, LitAt, OverlaysTold;
    var m0 := New(timings, ladder, t0);
    FieldsAreHistory(timings, ladder, t0, es, i);
    ConfirmationsAreDated(timings, ladder, t0, es, i);
    if At(m0, es, i).cmds.lastWake.Some? {
      var j: nat :| LastLit(m0, es, j, i) && es[j].now == At(m0, es, i).cmds.lastWake.value;
      assert forall k: nat :: LastLit(m0, es, k, i) ==> k == j;
    }
  }

  /** Over every run whose clock never decreases: without an operator's blank, Grace is left for the
      ladder exactly on a tick that the run itself allows. */
  lemma DarkensExactlyWhenTheRunAllows(timings: Timings, ladder: seq<LadderStage>, t0: Instant, es: seq<Event>, i: nat)
    requires i < |es| && ladder != [] && ClockNeverDecreases(NewWatch(timings, ladder, t0), es)
    requires es[i].Feed? && !es[i].input.ForceBlank? && !es[i].input.SoftBlank?
    requires At(New(timings, ladder, t0), es, i).phase.Grace?
    ensures var p := Apply(At(New(timings, ladder, t0), es, i), es[i]).m.phase;
            (p.RenderPending? || p.Blanking?) <==> es[i].input.Tick? && RunAllows(timings, ladder, t0, es, i)
  {
    hide Step, Sturdy, Conserved, GatesOpen, At, New, LastLit, OverlaysTold, OwnerTold, SpentBy, WatchAt;
    hide ClockNeverDecreases;
    var w := WatchAt(NewWatch(timings, ladder, t0), es, i);
    ConservedThroughout(timings, ladder, t0, es, i);
    ClockAt(NewWatch(timings, ladder, t0), es, i);
    FieldsAreHistory(timings, ladder, t0, es, i);
    DarkensExactlyWhenExpired(w, es[i].input, es[i].now);
    GatesOnTheRun(timings, ladder, t0, es, i, es[i].now);
    LiveUnlessOverlaid(w.m);
  }

  lemma ClockAt(w: Watch, es: seq<Event>, i: nat)
    requires i < |es| && es[i].Feed? && ClockNeverDecreases(w, es)
    ensures WatchAt(w, es, i).at <= es[i].now
  {
    hide WatchAt;
  }

  lemma LiveUnlessOverlaid(m: Machine)
    requires Sturdy(m) && m.phase.Grace?
    ensures Live(m) <==> m.overlays == Overlays(false, None)
  {
  }
}
