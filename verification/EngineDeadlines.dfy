/** The wheel remembers every wait: in every engine run a waking display's retry tick and the tick
    that ends a timed pause are in the wheel, and the tick that ends a running owned countdown is
    too, exactly unless the display's own run forgot it. */
module EngineDeadlines {
  import opened DisplayTypes
  import opened DisplaySpec
  import opened DisplayRuns
  import opened EngineSpec
  import opened EngineRuns
  import opened EngineRefines

  /** A tick of `d` at `at` or later is in the wheel. */
  ghost predicate InWheel(ts: seq<Timer>, d: DisplayId, at: Instant) {
    exists t :: t in ts && t.entry == DisplayTick(d) && at <= t.at
  }

  lemma CoveredIsInWheel(ts: seq<Timer>, d: DisplayId, at: Instant)
    ensures D.Covered(TicksFor(ts, d), at) <==> InWheel(ts, d, at)
  {
    hide TicksFor;
    if D.Covered(TicksFor(ts, d), at) {
      var t :| t in TicksFor(ts, d) && at <= t;
      InTicks(ts, d, t);
      assert Timer(t, DisplayTick(d)).entry == DisplayTick(d);
    }
    if InWheel(ts, d, at) {
      var t :| t in ts && t.entry == DisplayTick(d) && at <= t.at;
      InTicks(ts, d, t.at);
    }
  }

  /** The display's run, delivered as its agenda says, leaves exactly the wheel's ticks. */
  lemma ToldAgenda(a0: D.Agenda, ds: seq<D.Arrival>, e: Engine, d: DisplayId, ban: Ban)
    requires Tells(a0, ds, e, d, ban)
    ensures D.AllDeliverable(a0, ds)
    ensures var a := D.AgendaAt(a0, ds, |ds|); a.m == e.machines[d] && a.due == TicksFor(e.timers, d)
  {
    hide Leads, D.AllDeliverable, D.AgendaAt, TicksFor, StagesFor, SentTo;
    LeadsDeliverably(a0, ds, BooksOf(e, None, d), ban);
    assert TicksFor(e.timers, d) + multiset{} == TicksFor(e.timers, d);
  }

  /** Where the display's run says a wait is owed, the wheel holds it. */
  lemma OwedIsInWheel(timings: Timings, ladder: seq<LadderStage>, t0: Instant, ds: seq<D.Arrival>, e: Engine,
                      d: DisplayId, ban: Ban)
    requires Tells(D.NewAgenda(timings, ladder, t0), ds, e, d, ban)
    ensures var m := e.machines[d];
            var woke := D.AgendaAt(D.NewAgenda(timings, ladder, t0), ds, |ds|).wokeAt;
            && (m.phase.Waking? ==>
                  woke.Some? && Timer(woke.value + m.cfg.timings.wakeRetryInterval, DisplayTick(d)) in e.timers)
            && (D.TimedPause(m) ==> InWheel(e.timers, d, D.PauseEnd(m)))
  {
    hide D.AgendaAt, D.AllDeliverable, D.Covered, D.NewAgenda, TicksFor, Sturdy, InWheel, Leads;
    ToldAgenda(D.NewAgenda(timings, ladder, t0), ds, e, d, ban);
    D.WakesAndPausesRemembered(timings, ladder, t0, ds, |ds|);
    var a := D.AgendaAt(D.NewAgenda(timings, ladder, t0), ds, |ds|);
    if a.m.phase.Waking? {
      InTicks(e.timers, d, a.wokeAt.value + a.m.cfg.timings.wakeRetryInterval);
    }
    if D.TimedPause(a.m) {
      CoveredIsInWheel(e.timers, d, D.PauseEnd(a.m));
    }
  }

  /** An owned countdown runs whose end no tick in the wheel will reach. */
  ghost predicate Stranded(e: Engine, d: DisplayId)
    requires d in e.machines
  {
    Live(e.machines[d]) && e.machines[d].owned && !InWheel(e.timers, d, e.machines[d].phase.until)
  }

  lemma StrandedIsUnowed(a0: D.Agenda, ds: seq<D.Arrival>, e: Engine, d: DisplayId, ban: Ban)
    requires Tells(a0, ds, e, d, ban)
    ensures Stranded(e, d) <==> !D.GraceOwed(D.AgendaAt(a0, ds, |ds|))
  {
    hide D.AgendaAt, D.AllDeliverable, D.Covered, TicksFor, InWheel, Leads;
    ToldAgenda(a0, ds, e, d, ban);
    if Live(e.machines[d]) {
      CoveredIsInWheel(e.timers, d, e.machines[d].phase.until);
    }
  }

  /** What the wheel holds for the display, told by its own run: the retry tick of the last wake,
      the tick that ends a timed pause, and the tick that ends a running owned countdown - the last
      if and only if that run has not forgotten it. */
  ghost predicate Remembers(a0: D.Agenda, ds: seq<D.Arrival>, e: Engine, d: DisplayId)
    requires d in e.machines
  {
    var m := e.machines[d];
    var woke := D.AgendaAt(a0, ds, |ds|).wokeAt;
    && (m.phase.Waking? ==>
         woke.Some? && Timer(woke.value + m.cfg.timings.wakeRetryInterval, DisplayTick(d)) in e.timers)
    && (D.TimedPause(m) ==> InWheel(e.timers, d, D.PauseEnd(m)))
    && (Stranded(e, d) <==> exists j: nat :: D.ForgottenSince(a0, ds, j, |ds|))
  }

  /** At every point of every engine run, for every display: some run of that display alone, ending
      in its machine and its ticks, tells exactly which waits the wheel holds. */
  lemma WheelRemembersEveryWait(cfg: EngineConfig, displays: Panels, zones: Zones,
                                t0: Instant, gate: Gate, run: seq<Moment>, i: nat,
                                d: DisplayId) returns (ds: seq<D.Arrival>)
    requires i <= |run|
    requires d in After(Fresh(cfg, displays, zones, t0, gate), run, i).e.machines
    ensures d in displays
    ensures var e := After(Fresh(cfg, displays, zones, t0, gate), run, i).e;
            var a0 := D.NewAgenda(displays[d].0, displays[d].1, t0);
            Tells(a0, ds, e, d, Nothing) && Remembers(a0, ds, e, d)
  {
    hide Play, NewEngine, After, Leads, TicksFor, D.NewAgenda, D.AgendaAt, D.ForgottenSince, Stranded;
    ds := ToldRun(cfg, displays, zones, t0, gate, run, i, d, Nothing);
    var e := After(Fresh(cfg, displays, zones, t0, gate), run, i).e;
    OwedIsInWheel(displays[d].0, displays[d].1, t0, ds, e, d, Nothing);
    ForgottenIsStranded(displays[d].0, displays[d].1, t0, ds, e, d);
  }

  lemma ForgottenIsStranded(timings: Timings, ladder: seq<LadderStage>, t0: Instant, ds: seq<D.Arrival>, e: Engine,
                            d: DisplayId)
    requires Tells(D.NewAgenda(timings, ladder, t0), ds, e, d, Nothing)
    ensures Stranded(e, d) <==> exists j: nat :: D.ForgottenSince(D.NewAgenda(timings, ladder, t0), ds, j, |ds|)
  {
    hide D.AgendaAt, D.NewAgenda, D.ForgottenSince, D.AllDeliverable, D.GraceOwed, Stranded, TicksFor, Leads;
    ToldAgenda(D.NewAgenda(timings, ladder, t0), ds, e, d, Nothing);
    D.LostExactlySinceForgotten(timings, ladder, t0, ds, |ds|);
    StrandedIsUnowed(D.NewAgenda(timings, ladder, t0), ds, e, d, Nothing);
  }

  /** In every engine run in which nobody forces a blank, no running owned countdown is stranded. */
  lemma NobodyStrandedUnlessForced(cfg: EngineConfig, displays: Panels, zones: Zones,
                                   t0: Instant, gate: Gate, run: seq<Moment>, i: nat, d: DisplayId)
    requires i <= |run| && forall k :: 0 <= k < |run| ==> Unasked(run[k], ForcedBlanks)
    requires d in After(Fresh(cfg, displays, zones, t0, gate), run, i).e.machines
    ensures !Stranded(After(Fresh(cfg, displays, zones, t0, gate), run, i).e, d)
  {
    hide Play, NewEngine, After, Leads, TicksFor, D.NewAgenda, Stranded, D.AgendaAt, Unasked, D.GraceOwed;
    var ds := ToldRun(cfg, displays, zones, t0, gate, run, i, d, ForcedBlanks);
    var e := After(Fresh(cfg, displays, zones, t0, gate), run, i).e;
    StrandedIsUnowed(D.NewAgenda(displays[d].0, displays[d].1, t0), ds, e, d, ForcedBlanks);
    UnforcedOwes(displays[d].0, displays[d].1, t0, ds, e, d);
  }

  lemma UnforcedOwes(timings: Timings, ladder: seq<LadderStage>, t0: Instant, ds: seq<D.Arrival>, e: Engine,
                     d: DisplayId)
    requires Tells(D.NewAgenda(timings, ladder, t0), ds, e, d, ForcedBlanks)
    ensures D.GraceOwed(D.AgendaAt(D.NewAgenda(timings, ladder, t0), ds, |ds|))
  {
    hide D.AgendaAt, D.AllDeliverable, D.GraceOwed, D.Content, TicksFor, At, New, AllOutstanding, BooksAt, BooksOf;
    ToldAgenda(D.NewAgenda(timings, ladder, t0), ds, e, d, ForcedBlanks);
    assert LeakNeverForced(New(timings, ladder, t0), D.Contents(ds));
    D.RemembersUnlessForced(timings, ladder, t0, ds, |ds|);
  }
}
