/** Nothing the engine is told or pops is lost on the way to the machine: controls, answers, ticks,
    stage ticks and verdicts each step their own display, by exactly that input, and no other. */
module EngineInputs {
  import opened DisplayTypes
  import opened DisplaySpec
  import opened EngineSpec
  import opened EngineRuns
  import opened EngineRefines
  import Ladder = LadderCommands
  import Stages = StageTicks
  import Frames = EngineFrames

  /** The gate says what the display was last told. */
  predicate Settled(e: Engine, d: DisplayId, gate: Gate) { d in e.lastOwned && e.lastOwned[d] == gate(d) }

  /** Between `e` and `f` display `d` took `input` and nothing else, its commands went out in order,
      and no other display took anything. */
  ghost predicate Took(e: Engine, f: Engine, d: DisplayId, input: Input, now: Instant)
    requires d in e.machines
  {
    var o := Step(e.machines[d], input, now);
    && f.machines == e.machines[d := o.m]
    && (forall q :: SentTo(f.outbox, q) == SentTo(e.outbox, q) + if q == d then CommandsOf(o.fx) else [])
  }

  lemma StepTakes(e: Engine, d: DisplayId, input: Input, now: Instant)
    requires d in e.machines
    ensures Took(e, StepMachine(e, d, input, now), d, input, now)
  {
    hide Step, Commanded, Scheduled, SentTo, CommandsOf;
    var fx := Step(e.machines[d], input, now).fx;
    forall q
      ensures SentTo(e.outbox + Commanded(d, fx), q) == SentTo(e.outbox, q) + if q == d then CommandsOf(fx) else []
    {
      SentJoin(e.outbox, Commanded(d, fx), q);
      AllCommanded(d, fx, q);
    }
  }

  lemma SettledTakes(e: Engine, d: DisplayId, input: Input, now: Instant, gate: Gate)
    requires d in e.machines && Settled(e, d, gate)
    ensures Took(e, StepOne(e, d, input, now, gate), d, input, now)
  {
    hide StepMachine, Took;
    StepTakes(e, d, input, now);
  }

  /** A control steps its display once the verdict is settled; an answer always does. */
  lemma ControlsArrive(e: Engine, m: Moment)
    requires (m.event.Control? || m.event.Answer?) && m.event.display in e.machines
    requires m.event.Control? ==> Settled(e, m.event.display, m.gate)
    ensures Took(e, PlayEngine(e, m), m.event.display, m.event.input, m.wall)
  {
    hide StepMachine, StepOne, Took;
    if m.event.Control? {
      SettledTakes(e, m.event.display, m.event.input, m.wall, m.gate);
    } else {
      StepTakes(e, m.event.display, m.event.input, m.wall);
    }
  }

  /** A fired tick or stage tick is off the wheel, and its display has taken it at its deadline. */
  lemma TicksArrive(e: Engine, k: nat, wall: Instant, gate: Gate)
    requires k < |e.timers| && OfDisplay(e.timers[k])
    requires e.timers[k].entry.display in e.machines && Settled(e, e.timers[k].entry.display, gate)
    ensures var (t, f) := (e.timers[k], FireAt(e, k, wall, gate));
            var input := if t.entry.DisplayTick? then Tick else StageTick(t.entry.gen);
            Took(e, f, t.entry.display, input, t.at) && Without(e.timers, k) <= f.timers
  {
    hide StepMachine, StepOne, Without, Step, SentTo, CommandsOf;
    var t := e.timers[k];
    var r := e.(timers := Without(e.timers, k));
    var input := if t.entry.DisplayTick? then Tick else StageTick(t.entry.gen);
    SettledTakes(r, t.entry.display, input, t.at, gate);
    StepOneAppends(r, t.entry.display, input, t.at, gate);
  }

  lemma StepOneAppends(e: Engine, d: DisplayId, input: Input, now: Instant, gate: Gate)
    ensures e.timers <= StepOne(e, d, input, now, gate).timers
  {
    hide Step, Scheduled, Commanded;
  }

  /** What is popped is due first; of what is due at one instant, ticks come before stage ticks, these
      before the ends of sensor holds and those before the ends of input-wake holds, and among the
      stage ticks of one display the older generation first. */
  lemma PopsInOrder(ts: seq<Timer>, t: Timer)
    requires t in ts
    ensures var x := ts[Next(ts)];
            && x.at <= t.at
            && (x.at == t.at ==>
                  match t.entry
                  case DisplayTick(d) => x.entry.DisplayTick? && x.entry.display <= d
                  case DisplayStageTick(d, gen) =>
                    || x.entry.DisplayTick?
                    || (x.entry.DisplayStageTick?
                        && (x.entry.display < d || (x.entry.display == d && x.entry.gen <= gen)))
                  case HoldExpiry(s) => !x.entry.InputWakeHoldExpiry? && (x.entry.HoldExpiry? ==> x.entry.sensor <= s)
                  case InputWakeHoldExpiry(d) => x.entry.InputWakeHoldExpiry? ==> x.entry.display <= d)
  {
    hide Next;
    var j :| 0 <= j < |ts| && ts[j] == t;
    assert NoLater(ts[Next(ts)], ts[j]);
  }

  /** Asked about ownership, a display believes the gate - unless a claim still suppresses a loss, and
      then nothing changes for it. */
  lemma PollsTell(e: Engine, d: DisplayId, now: Instant, gate: Gate)
    requires d in e.machines && Synced(e)
    ensures var f := FeedOwnership(e, d, now, gate);
            && (if gate(d) || d !in e.suppression || e.suppression[d] <= now then f.machines[d].owned == gate(d)
                else f.machines[d] == e.machines[d])
            && forall q :: q in e.machines && q != d ==> q in f.machines && f.machines[q] == e.machines[q]
  {
    hide Step, Scheduled, Commanded;
    Frames.StepKeeps(e.machines[d], OwnershipChanged(gate(d)), now);
  }

  /** A claim keeps a loss from its display until it ends; lifted or ended, it no longer does. */
  lemma ClaimsSuppress(e: Engine, d: DisplayId, until: Option<Instant>, now: Instant, gate: Gate)
    requires d in e.machines && Synced(e) && e.machines[d].owned && !gate(d)
    ensures var f := FeedOwnership(SetClaim(e, d, until), d, now, gate);
            if until.Some? && now < until.value then f.machines == e.machines else !f.machines[d].owned
  {
    hide Step, Scheduled, Commanded;
    Frames.StepKeeps(e.machines[d], OwnershipChanged(gate(d)), now);
  }

  // ── The ladder escalates ────────────────────────────────────────────────

  /** Display `d` stands on a rung whose newest stage tick, number `gen`, may end it. */
  predicate Ripe(m: Machine, gen: nat) {
    && (m.phase.Staged? || m.phase.Blanked?)
    && gen == m.stage.gen && m.stage.frozen.None? && !m.overlays.inhibited && m.owned
  }

  /** Off `m`'s rung: onto the next one, its command sent, or off the end of the ladder. */
  predicate Escalated(m: Machine, n: Machine, sent: seq<Effect>) {
    var next := if m.stage.current.Some? then m.stage.current.value + 1 else 0;
    if next >= |m.cfg.ladder| then (n.phase.Active? || n.phase.Grace?) && n.stage.current.None?
    else
      && n.stage.current == Some(next) && sent != []
      && match m.cfg.ladder[next].kind
         case Controller(mode) => n.phase.Blanking? && sent[|sent| - 1] == IssueBlank(m.cmds.gen + 1, mode)
         case kind =>
           && n.phase == RenderPending(next, m.stage.gen + 1)
           && sent[|sent| - 1] == ShowRender(m.stage.gen + 1, next, kind)
  }

  lemma {:induction false} LastCommand(fx: seq<Effect>)
    requires fx != []
    requires var x := fx[|fx| - 1]; x.IssueBlank? || x.IssueWake? || x.ShowRender? || x.TeardownRender?
    ensures CommandsOf(fx) != [] && CommandsOf(fx)[|CommandsOf(fx)| - 1] == fx[|fx| - 1]
  {
    if |fx| > 1 {
      LastCommand(fx[1..]);
    }
  }

  lemma RipeEscalates(m: Machine, gen: nat, now: Instant)
    requires Runs.Sturdy(m) && Ripe(m, gen)
    ensures var o := Step(m, StageTick(gen), now); Escalated(m, o.m, CommandsOf(o.fx))
  {
    hide StepActive, StepGrace, StepBlanking, StepWaking, StepRenderPending, EnterLadder, CommandsOf, Runs.Sturdy;
    var o := Step(m, StageTick(gen), now);
    Ladder.EveryCommandFits(m, StageTick(gen), now);
    Stages.LadderMove(m, NextRung(m), now, CStageTick);
    Stages.PastTheEnd(m, now);
    if NextRung(m) < |m.cfg.ladder| {
      assert Stages.Arrives(m, o);
      LastCommand(o.fx);
    }
  }

  /** Over every run: firing the stage tick a display is ripe for puts it on the next rung, with that
      rung's command sent last, or off the end of the ladder. */
  lemma {:induction false} FiredStageTickEscalates(cfg: EngineConfig, displays: Panels, zones: Zones, t0: Instant,
                                                   first: Gate, run: seq<Moment>, limit: Instant, wall: Instant,
                                                   gate: Gate)
    requires AllowedRun(Fresh(cfg, displays, zones, t0, first), run)
    requires var e := After(Fresh(cfg, displays, zones, t0, first), run, |run|).e;
             && Due(e.timers, limit) && e.timers[Next(e.timers)].entry.DisplayStageTick?
             && var (d, gen) := (e.timers[Next(e.timers)].entry.display, e.timers[Next(e.timers)].entry.gen);
             d in e.machines && Ripe(e.machines[d], gen) && gate(d)
    ensures var e := After(Fresh(cfg, displays, zones, t0, first), run, |run|).e;
            var f := PlayEngine(e, Moment(Fire(limit), wall, gate));
            var d := e.timers[Next(e.timers)].entry.display;
            && d in f.machines
            && Escalated(e.machines[d], f.machines[d], SentTo(f.outbox, d))
  {
    hide Play, NewEngine, After, FireAt, Step, Ripe, Escalated, SentTo, CommandsOf, Leads, Runs.Sturdy;
    var e := After(Fresh(cfg, displays, zones, t0, first), run, |run|).e;
    var k := Next(e.timers);
    var (d, gen) := (e.timers[k].entry.display, e.timers[k].entry.gen);
    SoundThroughout(cfg, displays, zones, t0, first, run, |run|);
    OwnedIsSettled(e, d, gen, gate);
    TicksArrive(e, k, wall, gate);
    assert Runs.Sturdy(e.machines[d]) by { EngineSturdy(cfg, displays, zones, t0, first, run, |run|, d); }
    RipeEscalates(e.machines[d], gen, e.timers[k].at);
    LaterSent(e.machines[d], Step(e.machines[d], StageTick(gen), e.timers[k].at), SentTo(e.outbox, d));
  }

  lemma OwnedIsSettled(e: Engine, d: DisplayId, gen: nat, gate: Gate)
    requires Synced(e) && d in e.machines && Ripe(e.machines[d], gen) && gate(d)
    ensures Settled(e, d, gate)
  {
  }

  lemma LaterSent(m: Machine, o: Out, before: seq<Effect>)
    requires Escalated(m, o.m, CommandsOf(o.fx))
    ensures Escalated(m, o.m, before + CommandsOf(o.fx))
  {
    hide CommandsOf;
  }

  lemma EngineSturdy(cfg: EngineConfig, displays: Panels, zones: Zones, t0: Instant, first: Gate, run: seq<Moment>,
                     i: nat, d: DisplayId)
    requires i <= |run| && d in After(Fresh(cfg, displays, zones, t0, first), run, i).e.machines
    ensures Runs.Sturdy(After(Fresh(cfg, displays, zones, t0, first), run, i).e.machines[d])
  {
    hide Play, NewEngine, After, Leads, New, D.NewAgenda, TicksFor, StagesFor, SentTo, Unasked, Runs.Sturdy, Runs.At;
    assert forall k :: 0 <= k < |run| ==> Unasked(run[k], Nothing) by { NothingAsked(); }
    var ds := ToldRun(cfg, displays, zones, t0, first, run, i, d, Nothing);
    var e := After(Fresh(cfg, displays, zones, t0, first), run, i).e;
    SturdyAtEnd(displays[d].0, displays[d].1, t0, ds, BooksOf(e, None, d));
  }

  lemma SturdyAtEnd(timings: Timings, ladder: seq<LadderStage>, t0: Instant, ds: seq<D.Arrival>, b: Books)
    requires Leads(D.NewAgenda(timings, ladder, t0), ds, b, Nothing)
    ensures Runs.Sturdy(b.m)
  {
    hide Leads, D.AgendaAt, D.AllDeliverable, Runs.At, Runs.Sturdy, New;
    LeadsDeliverably(D.NewAgenda(timings, ladder, t0), ds, b, Nothing);
    Runs.SturdyThroughout(timings, ladder, t0, D.Contents(ds), |ds|);
  }
}
