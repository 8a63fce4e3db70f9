/** Every command a machine issues is sent, in order: what the outbox holds for a display is what its
    own run has issued, and a panel that waits for an answer has been asked. */
module EngineCommands {
  import opened DisplayTypes
  import opened DisplaySpec
  import opened EngineSpec
  import opened EngineRuns
  import opened EngineRefines
  import Runs = DisplayRuns
  import L = Ledger
  import V = EngineVacancy

  /** The commands and surface effects of the first `i` events of a run, in order. */
  function IssuedBy(m0: Machine, es: seq<Runs.Event>, i: nat): seq<Effect>
    requires i <= |es|
  {
    if i == 0 then [] else IssuedBy(m0, es, i - 1) + CommandsOf(Runs.Apply(Runs.At(m0, es, i - 1), es[i - 1]).fx)
  }

  lemma {:induction false} SentIsIssued(a0: D.Agenda, ds: seq<D.Arrival>, i: nat)
    requires i <= |ds|
    ensures BooksAt(Opened(a0), ds, i).sent == IssuedBy(a0.m, D.Contents(ds), i)
    ensures BooksAt(Opened(a0), ds, i).m == Runs.At(a0.m, D.Contents(ds), i)
  {
    hide Runs.Apply, Entered, CommandsOf, D.Content;
    if i > 0 {
      SentIsIssued(a0, ds, i - 1);
      OneEntered(BooksAt(Opened(a0), ds, i - 1), ds[i - 1]);
    }
  }

  lemma OneEntered(b: Books, d: D.Arrival)
    ensures var o := Runs.Apply(b.m, D.Content(d));
            Entered(b, d).m == o.m && Entered(b, d).sent == b.sent + CommandsOf(o.fx)
  {
    hide Runs.Apply, D.TicksOf, StagesOf, CommandsOf, D.Content, TickTaken, StageTaken;
  }

  /** In every engine run: for each display some run of it alone leads to its machine, and the outbox
      holds for it exactly the commands that run has issued, in order. */
  lemma {:induction false} OutboxHoldsTheRun(cfg: EngineConfig, displays: Panels, zones: Zones, t0: Instant, gate: Gate,
                                             run: seq<Moment>, i: nat, d: DisplayId) returns (es: seq<Runs.Event>)
    requires i <= |run| && d in After(Fresh(cfg, displays, zones, t0, gate), run, i).e.machines
    ensures d in displays
    ensures var e := After(Fresh(cfg, displays, zones, t0, gate), run, i).e;
            var m0 := New(displays[d].0, displays[d].1, t0);
            Runs.At(m0, es, |es|) == e.machines[d] && SentTo(e.outbox, d) == IssuedBy(m0, es, |es|)
  {
    hide Play, NewEngine, After, Leads, New, TicksFor, StagesFor, SentTo, Unasked, Runs.At, BooksAt, AllOutstanding;
    assert forall k :: 0 <= k < |run| ==> Unasked(run[k], Nothing) by { NothingAsked(); }
    var ds := ToldRun(cfg, displays, zones, t0, gate, run, i, d, Nothing);
    var e := After(Fresh(cfg, displays, zones, t0, gate), run, i).e;
    es := D.Contents(ds);
    SentAtEnd(D.NewAgenda(displays[d].0, displays[d].1, t0), ds, BooksOf(e, None, d));
  }

  lemma SentAtEnd(a0: D.Agenda, ds: seq<D.Arrival>, b: Books)
    requires Leads(a0, ds, b, Nothing)
    ensures b.sent == IssuedBy(a0.m, D.Contents(ds), |ds|) && b.m == Runs.At(a0.m, D.Contents(ds), |ds|)
  {
    hide BooksAt, AllOutstanding, IssuedBy, Runs.At;
    SentIsIssued(a0, ds, |ds|);
  }

  // ── Who waits has been asked ────────────────────────────────────────────

  lemma {:induction false} InCommands(fx: seq<Effect>, k: nat)
    requires k < |fx| && (fx[k].IssueBlank? || fx[k].IssueWake? || fx[k].ShowRender? || fx[k].TeardownRender?)
    ensures fx[k] in CommandsOf(fx)
  {
    if k > 0 {
      InCommands(fx[1..], k - 1);
    }
  }

  /** The newest wake of a run is among the commands it issued; so is its newest blank. */
  lemma {:induction false} NewestIssued(m0: Machine, es: seq<Runs.Event>, i: nat)
    requires i <= |es|
    ensures L.NewestWake(m0, es, i).Some? ==> IssueWake(L.NewestWake(m0, es, i).value) in IssuedBy(m0, es, i)
    ensures L.NewestBlank(m0, es, i).Some? ==>
              exists x :: x in IssuedBy(m0, es, i) && x.IssueBlank? && x.gen == L.NewestBlank(m0, es, i).value
  {
    hide Runs.Apply, Runs.At, CommandsOf, L.LastWakeOf, L.LastBlankOf;
    if i > 0 {
      NewestIssued(m0, es, i - 1);
      var fx := Runs.Apply(Runs.At(m0, es, i - 1), es[i - 1]).fx;
      L.LastOfBatch(fx);
      if L.LastWakeOf(fx).Some? {
        var k :| 0 <= k < |fx| && fx[k] == IssueWake(L.LastWakeOf(fx).value);
        InCommands(fx, k);
      }
      if L.LastBlankOf(fx).Some? {
        var k :| 0 <= k < |fx| && fx[k].IssueBlank? && fx[k].gen == L.LastBlankOf(fx).value;
        InCommands(fx, k);
      }
    }
  }

  /** A waking panel has been sent the wake it waits for, a blanking one the blank. */
  predicate Asked(m: Machine, sent: seq<Effect>) {
    && (m.phase.Waking? ==> IssueWake(m.cmds.gen) in sent)
    && (m.phase.Blanking? ==> exists x :: x in sent && x.IssueBlank? && x.gen == m.cmds.gen)
  }

  /** In every engine run: a display in Waking has been sent the wake whose answer it waits for, and
      one in Blanking the blank. */
  lemma {:induction false} WaitingHasBeenAsked(cfg: EngineConfig, displays: Panels, zones: Zones, t0: Instant,
                                               gate: Gate, run: seq<Moment>, i: nat, d: DisplayId)
    requires i <= |run| && d in After(Fresh(cfg, displays, zones, t0, gate), run, i).e.machines
    ensures var e := After(Fresh(cfg, displays, zones, t0, gate), run, i).e; Asked(e.machines[d], SentTo(e.outbox, d))
  {
    hide After, NewEngine, New, SentTo, IssuedBy, Runs.At, Asked;
    var es := OutboxHoldsTheRun(cfg, displays, zones, t0, gate, run, i, d);
    AskedOnTheRun(displays[d].0, displays[d].1, t0, es);
  }

  lemma {:induction false} AskedOnTheRun(timings: Timings, ladder: seq<LadderStage>, t0: Instant, es: seq<Runs.Event>)
    ensures var m0 := New(timings, ladder, t0); Asked(Runs.At(m0, es, |es|), IssuedBy(m0, es, |es|))
  {
    hide New, IssuedBy, Runs.At, L.NewestWake, L.NewestBlank, Runs.Countdown;
    Runs.SturdyThroughout(timings, ladder, t0, es, |es|);
    L.NewestIsAwaited(timings, ladder, t0, es, |es|);
    NewestIssued(New(timings, ladder, t0), es, |es|);
  }

  // ── Presence wakes ──────────────────────────────────────────────────────

  /** Waking, told of presence, and its wake sent. */
  predicate Roused(e: Engine, d: DisplayId) {
    && d in e.machines && e.machines[d].phase.Waking? && e.machines[d].zone == Some(true)
    && IssueWake(e.machines[d].cmds.gen) in SentTo(e.outbox, d)
  }

  predicate DarkOrRoused(e: Engine, d: DisplayId) {
    && d in e.machines
    && (|| e.machines[d].phase.Blanked?
        || (e.machines[d].phase.Waking? && IssueWake(e.machines[d].cmds.gen) in SentTo(e.outbox, d)))
  }

  lemma WakingStep(m: Machine, input: Input, now: Instant)
    requires input == OwnershipChanged(true) || input == ZonePresent(true)
    requires m.phase.Blanked? || m.phase.Waking?
    ensures var o := Step(m, input, now);
            && (input.ZonePresent? ==> o.m.phase.Waking? && o.m.zone == Some(true))
            && ((o.m.phase == m.phase && o.m.cmds == m.cmds && o.fx == [])
                || (o.m.phase.Waking? && |o.fx| > 1 && o.fx[1] == IssueWake(o.m.cmds.gen)))
  {
    hide StepActive, StepGrace, StepBlanking, StepRenderPending, StepStaged;
  }

  lemma StepRouses(e: Engine, d: DisplayId, input: Input, now: Instant)
    requires DarkOrRoused(e, d) && (input == OwnershipChanged(true) || input == ZonePresent(true))
    ensures var f := StepMachine(e, d, input, now);
            && DarkOrRoused(f, d)
            && (input.ZonePresent? ==> f.machines[d].phase.Waking? && f.machines[d].zone == Some(true))
  {
    hide Step, Scheduled, Commanded, SentTo, CommandsOf;
    var o := Step(e.machines[d], input, now);
    WakingStep(e.machines[d], input, now);
    SentJoin(e.outbox, Commanded(d, o.fx), d);
    AllCommanded(d, o.fx, d);
    if o.fx != [] {
      InCommands(o.fx, 1);
    }
  }

  lemma FeedRouses(e: Engine, d: DisplayId, now: Instant, gate: Gate)
    requires DarkOrRoused(e, d) && gate(d)
    ensures DarkOrRoused(FeedOwnership(e, d, now, gate), d)
  {
    hide StepMachine, SentTo;
    var r := e.(lastOwned := e.lastOwned[d := gate(d)]);
    StepRouses(r, d, OwnershipChanged(true), now);
  }

  lemma ToldRouses(e: Engine, d: DisplayId, now: Instant)
    requires DarkOrRoused(e, d)
    ensures Roused(StepMachine(e, d, ZonePresent(true), now), d)
  {
    hide StepMachine, SentTo;
    StepRouses(e, d, ZonePresent(true), now);
  }

  lemma FlagKeeps(e: Engine, q: DisplayId, d: DisplayId)
    ensures var c := ClearInputHold(e, q);
            && (DarkOrRoused(e, d) ==> DarkOrRoused(c, d)) && (Roused(e, d) ==> Roused(c, d))
            && V.SameView(e, c)
  {
    hide SentTo;
  }

  lemma OwnFanRouses(e: Engine, d: DisplayId, wall: Instant, gate: Gate)
    requires DarkOrRoused(e, d) && gate(d) && EffectivePresence(e, d)
    ensures Roused(FanOne(e, d, wall, gate), d)
  {
    hide EffectivePresence, StepMachine, SentTo, ClearInputHold, FeedOwnership, DarkOrRoused, Roused;
    var c := ClearInputHold(e, d);
    FlagKeeps(e, d, d);
    FeedRouses(c, d, wall, gate);
    ToldRouses(FeedOwnership(c, d, wall, gate), d, wall);
  }

  lemma OtherStepKeeps(e: Engine, q: DisplayId, input: Input, now: Instant, d: DisplayId)
    requires q != d && d in e.machines
    ensures var f := StepMachine(e, q, input, now);
            d in f.machines && f.machines[d] == e.machines[d] && SentTo(f.outbox, d) == SentTo(e.outbox, d)
  {
    hide StepMachine, TicksFor, StagesFor, SentTo;
    OtherBooks(e, None, q, input, now, d);
  }

  lemma OtherFanKeeps(e: Engine, q: DisplayId, wall: Instant, gate: Gate, d: DisplayId)
    requires q != d && d in e.machines
    ensures var f := FanOne(e, q, wall, gate);
            d in f.machines && f.machines[d] == e.machines[d] && SentTo(f.outbox, d) == SentTo(e.outbox, d)
  {
    hide StepMachine, EffectivePresence, SentTo;
    var present := EffectivePresence(e, q);
    var c := if present then ClearInputHold(e, q) else e;
    OtherStepKeeps(c.(lastOwned := c.lastOwned[q := gate(q)]), q, OwnershipChanged(gate(q)), wall, d);
    OtherStepKeeps(FeedOwnership(c, q, wall, gate), q, ZonePresent(present), wall, d);
  }

  lemma {:induction false} FanRouses(e: Engine, ds: seq<DisplayId>, wall: Instant, gate: Gate, d: DisplayId)
    requires DarkOrRoused(e, d) && gate(d) && EffectivePresence(e, d)
    ensures var f := Fan(e, ds, wall, gate);
            DarkOrRoused(f, d) && V.SameView(e, f) && (d in ds || Roused(e, d) ==> Roused(f, d))
    decreases |ds|
  {
    hide FanOne, EffectivePresence, SentTo;
    if ds != [] {
      var (front, q) := (ds[..|ds| - 1], ds[|ds| - 1]);
      var g := Fan(e, front, wall, gate);
      FanRouses(e, front, wall, gate, d);
      V.ViewDecides(e, g, d);
      V.FanOneTells(g, q, wall, gate);
      if q == d {
        OwnFanRouses(g, d, wall, gate);
      } else {
        OtherFanKeeps(g, q, wall, gate, d);
        assert d in ds ==> d in front;
      }
    }
  }

  lemma {:induction false} FanZonesRouses(e: Engine, zones: seq<Zone>, wall: Instant, gate: Gate, d: DisplayId)
    requires DarkOrRoused(e, d) && gate(d) && EffectivePresence(e, d)
    ensures var f := FanZones(e, zones, wall, gate);
            && DarkOrRoused(f, d) && V.SameView(e, f)
            && (Roused(e, d) || (exists z :: z in zones && d in Targets(e.cfg.rules, z)) ==> Roused(f, d))
    decreases |zones|
  {
    hide Fan, EffectivePresence, DarkOrRoused, Roused, Targets;
    if zones != [] {
      var (front, z) := (zones[..|zones| - 1], zones[|zones| - 1]);
      var g := FanZones(e, front, wall, gate);
      FanZonesRouses(e, front, wall, gate, d);
      V.ViewDecides(e, g, d);
      FanRouses(g, Targets(g.cfg.rules, z), wall, gate, d);
      if y :| y in zones && d in Targets(e.cfg.rules, y) {
        assert y in front || y == z;
      }
    }
  }

  /** A report that passes the hold filter, and changes a zone that drives a dark panel now occupied,
      leaves that panel waking with its wake command sent - where the gate says it is owned. */
  lemma ReportRouses(e: Engine, s: Sensor, state: SensorState, wall: Instant, gate: Gate, zone: Zone, d: DisplayId)
    requires d in e.machines && e.machines[d].phase.Blanked? && gate(d)
    requires HoldFilter(e, s, state, wall).passes
    requires var r := e.cfg.fuse(e.zones, s, state);
             zone in r.1 && d in Targets(e.cfg.rules, zone) && EffectivePresence(e.(zones := r.0), d)
    ensures Roused(HandlePresence(e, s, state, wall, gate), d)
  {
    hide FanZones, EffectivePresence, SentTo, Targets, Roused;
    var f := HoldFilter(e, s, state, wall).e;
    var r := f.cfg.fuse(f.zones, s, state);
    var g := f.(zones := r.0, delivered := f.delivered + [Delivery(s, state, wall)]);
    V.ViewDecides(e.(zones := r.0), g, d);
    FanZonesRouses(g, r.1, wall, gate, d);
  }
}
