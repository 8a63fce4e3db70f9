/** Once presence is reported, the way back to light is a three-state automaton over command
    results and ticks.  The machine refines it whatever its overlays, holds, frozen countdowns
    and ownership are, in every run, up to the one step that thaws a countdown over a blank. */
module WakePaths {
  import opened DisplayTypes
  import opened DisplaySpec
  import opened DisplayRuns

  // ── The reference automaton ─────────────────────────────────────────────

  /** Lit; a wake in flight; or a blank in flight with the wake to follow. */
  datatype Way = Lit | Rousing | Dimming

  datatype Path = Path(way: Way, gen: nat)

  /** The next position, and the generations of the wake commands issued. */
  function Walk(p: Path, input: Input): (Path, seq<nat>) {
    match input
    case Tick | ForceWake | InputWake =>
      if p.way.Rousing? then (Path(Rousing, p.gen + 1), [p.gen + 1]) else (p, [])
    case BlankResult(gen, ok) =>
      if !p.way.Dimming? || gen != p.gen then (p, [])
      else if ok then (Path(Rousing, p.gen + 1), [p.gen + 1])
      else (Path(Lit, p.gen), [])
    case WakeResult(gen, ok) =>
      if !p.way.Rousing? || gen != p.gen then (p, [])
      else if ok then (Path(Lit, p.gen), [])
      else (Path(Rousing, p.gen + 1), [p.gen + 1])
    case _ => (p, [])
  }

  /** Events that may follow the report of presence: more presence, ticks, results, wakes. */
  predicate Audible(e: Event) {
    e.Feed? &&
    match e.input
    case ZonePresent(present) => present
    case Tick | BlankResult(_, _) | WakeResult(_, _) | RenderResult(_, _) | StageTick(_) | ForceWake | InputWake => true
    case _ => false
  }

  /** Events that must not matter: inhibitors, pauses, resumes, holds, a loss of ownership. */
  predicate Muted(e: Event) {
    match e
    case SetHold(_) => true
    case Feed(input, _) => input.InhibitorChanged? || input.Pause? || input.Resume? || input == OwnershipChanged(false)
  }

  // ── The machine after presence was reported ─────────────────────────────

  predicate Rising(m: Machine) {
    && m.zone == Some(true)
    && (m.phase.Active? || m.phase.Waking? || (m.phase.Blanking? && m.pendingWake))
  }

  function PathOf(m: Machine): Path
    requires Rising(m)
  {
    Path(if m.phase.Active? then Lit else if m.phase.Waking? then Rousing else Dimming, m.cmds.gen)
  }

  /** The wake-relevant effects of a batch, in order. */
  function WakeEffects(fx: seq<Effect>): seq<Effect> {
    if fx == [] then []
    else (if fx[0].IssueWake? || fx[0].TeardownRender? then [fx[0]] else []) + WakeEffects(fx[1..])
  }

  function Wakes(gens: seq<nat>): seq<Effect> {
    seq(|gens|, i requires 0 <= i < |gens| => IssueWake(gens[i]))
  }

  lemma {:induction false} WakeEffectsConcat(a: seq<Effect>, b: seq<Effect>)
    ensures WakeEffects(a + b) == WakeEffects(a) + WakeEffects(b)
  {
    if a == [] {
      assert a + b == b;
    } else {
      WakeEffectsConcat(a[1..], b);
      assert (a + b)[1..] == a[1..] + b;
    }
  }

  predicate Unheard(fx: seq<Effect>) { forall k :: 0 <= k < |fx| ==> !fx[k].IssueWake? && !fx[k].TeardownRender? }

  lemma {:induction false} UnheardIsEmpty(fx: seq<Effect>)
    requires Unheard(fx)
    ensures WakeEffects(fx) == []
  {
    if fx != [] {
      UnheardIsEmpty(fx[1..]);
    }
  }

  lemma WakeBatch(m: Machine, prefix: seq<Effect>, now: Instant)
    requires Unheard(prefix)
    ensures WakeEffects(StartWake(m, prefix, now).fx) == Wakes([m.cmds.gen + 1])
  {
    var tail := [ScheduleTickAt(now + m.cfg.timings.wakeRetryInterval)];
    UnheardIsEmpty(prefix);
    UnheardIsEmpty(tail);
    WakeEffectsConcat([IssueWake(m.cmds.gen + 1)], tail);
    WakeEffectsConcat(prefix, [IssueWake(m.cmds.gen + 1)] + tail);
    assert StartWake(m, prefix, now).fx == prefix + ([IssueWake(m.cmds.gen + 1)] + tail);
    assert Wakes([m.cmds.gen + 1]) == [IssueWake(m.cmds.gen + 1)];
  }

  lemma PresentActive(m: Machine, now: Instant, cause: Cause)
    requires m.zone == Some(true)
    ensures var o := EnterActive(m, now, cause);
            Rising(o.m) && PathOf(o.m) == Path(Lit, m.cmds.gen) && Unheard(o.fx)
  {
  }

  predicate Refines(m: Machine, o: Out, want: (Path, seq<nat>)) {
    Rising(o.m) && PathOf(o.m) == want.0 && WakeEffects(o.fx) == Wakes(want.1)
  }

  lemma WalksWhenLit(m: Machine, e: Event)
    requires Sturdy(m) && Rising(m) && Audible(e) && m.phase.Active?
    ensures Refines(m, Apply(m, e), Walk(PathOf(m), e.input))
  {
    hide StepGrace, StepBlanking, StepBlanked, StepWaking, StepRenderPending, StepStaged;
    assert Wakes([]) == [];
  }

  lemma WalksWhenDimming(m: Machine, e: Event)
    requires Sturdy(m) && Rising(m) && Audible(e) && m.phase.Blanking? && !Slips(m, e)
    ensures Refines(m, Apply(m, e), Walk(PathOf(m), e.input))
  {
    hide StepActive, StepGrace, StepBlanked, StepWaking, StepRenderPending, StepStaged, StartWake, EnterActive;
    assert Wakes([]) == [];
    match e.input
    case BlankResult(_, ok) =>
      var b := m.(cmds := m.cmds.(lastBlank := Some(e.now)), pendingWake := false);
      StartedWake(b, [LogTo(m, NWaking, CPresenceDuringBlank)], e.now);
      WakeBatch(b, [LogTo(m, NWaking, CPresenceDuringBlank)], e.now);
      PresentActive(m.(pendingWake := false), e.now, CBlankFailed);
      UnheardIsEmpty(EnterActive(m.(pendingWake := false), e.now, CBlankFailed).fx);
    case _ =>
  }

  lemma StartedWake(m: Machine, prefix: seq<Effect>, now: Instant)
    requires m.zone == Some(true)
    ensures var o := StartWake(m, prefix, now); Rising(o.m) && PathOf(o.m) == Path(Rousing, m.cmds.gen + 1)
  {
  }

  lemma WalksWhenRousing(m: Machine, e: Event)
    requires Sturdy(m) && Rising(m) && Audible(e) && m.phase.Waking?
    ensures Refines(m, Apply(m, e), Walk(PathOf(m), e.input))
  {
    hide StepActive, StepGrace, StepBlanking, StepBlanked, StepRenderPending, StepStaged, StartWake, EnterActive;
    assert Wakes([]) == [];
    match e.input
    case Tick =>
      var r := AutoResume(m, e.now);
      var head := r.fx + [LogTo(m, NWaking, CWakeRetryScheduled)];
      StartedWake(r.m, head, e.now);
      WakeBatch(r.m, head, e.now);
    case ForceWake | InputWake =>
      StartedWake(m, [], e.now);
      WakeBatch(m, [], e.now);
    case WakeResult(_, ok) =>
      StartedWake(m, [LogTo(m, NWaking, CWakeRetry)], e.now);
      WakeBatch(m, [LogTo(m, NWaking, CWakeRetry)], e.now);
      var w := m.(cmds := m.cmds.(lastWake := Some(e.now)));
      PresentActive(w, e.now, CWakeCompleted);
      UnheardIsEmpty(EnterActive(w, e.now, CWakeCompleted).fx);
    case _ =>
  }

  /** A slip leaves the wake path and shows it. */
  lemma SlipLeavesPath(m: Machine, e: Event)
    requires Slips(m, e)
    ensures Apply(m, e).m.phase.Grace?
  {
    hide StepGrace, StepWaking;
  }

  /** One step of the machine is one step of the automaton, exactly unless it slips. */
  lemma WalksExactlyUnlessSlips(m: Machine, e: Event)
    requires Sturdy(m) && Rising(m) && Audible(e)
    ensures Refines(m, Apply(m, e), Walk(PathOf(m), e.input)) <==> !Slips(m, e)
  {
    hide Apply, Sturdy, Slips, Walk, Audible;
    if Slips(m, e) {
      SlipLeavesPath(m, e);
    } else {
      StepWalks(m, e);
    }
  }

  lemma StepWalks(m: Machine, e: Event)
    requires Sturdy(m) && Rising(m) && Audible(e) && !Slips(m, e)
    ensures Refines(m, Apply(m, e), Walk(PathOf(m), e.input))
  {
    hide Apply, Sturdy, Refines, Walk, Audible, Slips;
    match m.phase
    case Active => WalksWhenLit(m, e);
    case Blanking => WalksWhenDimming(m, e);
    case Waking => WalksWhenRousing(m, e);
  }

  lemma MutedStandsStill(m: Machine, e: Event)
    requires Sturdy(m) && Rising(m) && Muted(e)
    ensures Refines(m, Apply(m, e), (PathOf(m), []))
  {
    hide StepGrace, StepBlanked, StepRenderPending, StepStaged, GainOwnership, EnterActive, EnterLadder, StartWake;
    assert Wakes([]) == [];
    UnheardIsEmpty([]);
    if e.Feed? && e.input.Pause? {
      UnheardIsEmpty(Apply(m, e).fx);
    }
  }

  // ── Observations of a run ───────────────────────────────────────────────

  /** What an observer sees of each audible event: the phase after it and its wake effects. */
  datatype Sight = Sight(phase: PhaseName, fx: seq<Effect>)

  predicate Awakening(es: seq<Event>) {
    forall k :: 0 <= k < |es| ==> Audible(es[k]) || Muted(es[k])
  }

  predicate NeverSlips(m: Machine, es: seq<Event>)
    decreases |es|
  {
    es == [] || (!Slips(m, es[0]) && NeverSlips(Apply(m, es[0]).m, es[1..]))
  }

  lemma RisingKept(m: Machine, e: Event)
    requires Sturdy(m) && Rising(m) && (Audible(e) || Muted(e)) && !Slips(m, e)
    ensures Sturdy(Apply(m, e).m) && Rising(Apply(m, e).m)
  {
    hide Step, Sturdy, Rising, Slips;
    SturdyKept(m, e);
    if Audible(e) { StepWalks(m, e); } else { MutedStandsStill(m, e); }
  }

  function Watch(m: Machine, es: seq<Event>): seq<Sight>
    decreases |es|
  {
    if es == [] then []
    else
      var o := Apply(m, es[0]);
      (if Audible(es[0]) then [Sight(NameOf(o.m.phase), WakeEffects(o.fx))] else []) + Watch(o.m, es[1..])
  }

  function NameOfWay(way: Way): PhaseName {
    match way case Lit => NActive case Rousing => NWaking case Dimming => NBlanking
  }

  function Predict(p: Path, inputs: seq<Input>): seq<Sight>
    decreases |inputs|
  {
    if inputs == [] then []
    else
      var (q, gens) := Walk(p, inputs[0]);
      [Sight(NameOfWay(q.way), Wakes(gens))] + Predict(q, inputs[1..])
  }

  /** The audible inputs of a run: every inhibitor, pause, hold and ownership loss deleted. */
  function Strip(es: seq<Event>): seq<Input> {
    if es == [] then []
    else (if Audible(es[0]) then [es[0].input] else []) + Strip(es[1..])
  }

  lemma SightOf(m: Machine, o: Out, want: (Path, seq<nat>))
    requires Refines(m, o, want)
    ensures Sight(NameOf(o.m.phase), WakeEffects(o.fx)) == Sight(NameOfWay(want.0.way), Wakes(want.1))
  {
  }

  lemma AudibleFeeds(e: Event)
    ensures Audible(e) ==> e.Feed?
  {
  }

  lemma WatchAudible(m: Machine, es: seq<Event>)
    requires es != [] && Audible(es[0])
    ensures var o := Apply(m, es[0]);
            Watch(m, es) == [Sight(NameOf(o.m.phase), WakeEffects(o.fx))] + Watch(o.m, es[1..])
    ensures Strip(es) == [es[0].input] + Strip(es[1..])
  {
    hide Apply, Audible;
  }

  lemma PredictNext(p: Path, input: Input, rest: seq<Input>)
    ensures var w := Walk(p, input);
            Predict(p, [input] + rest) == [Sight(NameOfWay(w.0.way), Wakes(w.1))] + Predict(w.0, rest)
  {
    hide Walk, Wakes;
    assert ([input] + rest)[1..] == rest;
  }

  /** The run of a risen machine, overlays and all, shows exactly what the automaton predicts
      from the audible inputs alone - if and only if no step of it slips. */
  lemma {:induction false} RunWalksExactly(m: Machine, es: seq<Event>)
    requires Sturdy(m) && Rising(m) && Awakening(es)
    ensures Watch(m, es) == Predict(PathOf(m), Strip(es)) <==> NeverSlips(m, es)
    decreases |es|
  {
    hide Apply, Sturdy, Walk, Muted, Rising, Slips, Audible, Watch, Predict, Strip;
    if es == [] {
      EmptyRun(m);
    } else {
      var e := es[0];
      var o := Apply(m, e);
      if Slips(m, e) {
        SlipShows(m, es);
      } else {
        RisingKept(m, e);
        RunWalksExactly(o.m, es[1..]);
        if Audible(e) {
          AudibleFeeds(e);
          StepWalks(m, e);
          SightOf(m, o, Walk(PathOf(m), e.input));
          WatchAudible(m, es);
          PredictNext(PathOf(m), e.input, Strip(es[1..]));
          SameTail(Watch(m, es)[0], Watch(o.m, es[1..]), Predict(PathOf(o.m), Strip(es[1..])));
        } else {
          MutedStandsStill(m, e);
          MutedUnseen(m, es);
        }
      }
    }
  }

  lemma EmptyRun(m: Machine)
    requires Rising(m)
    ensures Watch(m, []) == Predict(PathOf(m), Strip([]))
  {
  }

  lemma SameTail(x: Sight, a: seq<Sight>, b: seq<Sight>)
    ensures [x] + a == [x] + b <==> a == b
  {
    assert ([x] + a)[1..] == a && ([x] + b)[1..] == b;
  }

  lemma MutedUnseen(m: Machine, es: seq<Event>)
    requires es != [] && !Audible(es[0])
    ensures Watch(m, es) == Watch(Apply(m, es[0]).m, es[1..]) && Strip(es) == Strip(es[1..])
  {
    hide Apply, Audible;
  }

  lemma SlipShows(m: Machine, es: seq<Event>)
    requires Sturdy(m) && Rising(m) && es != [] && Slips(m, es[0])
    ensures Watch(m, es) != Predict(PathOf(m), Strip(es))
  {
    hide Apply, Sturdy, Walk;
    SlipLeavesPath(m, es[0]);
    WatchAudible(m, es);
    PredictNext(PathOf(m), es[0].input, Strip(es[1..]));
    var w := Walk(PathOf(m), es[0].input);
    assert Watch(m, es)[0].phase == NGrace;
    assert Predict(PathOf(m), Strip(es))[0].phase == NameOfWay(w.0.way);
  }

  /** A blank in flight over a frozen countdown: what only ForceBlank over the leak makes. */
  predicate Displaced(m: Machine) { m.phase.Blanking? && m.graceFrozen.Some? }

  lemma UndisplacedStep(m: Machine, e: Event)
    requires Sturdy(m) && Rising(m) && (Audible(e) || Muted(e)) && !Displaced(m)
    ensures !Slips(m, e) && !Displaced(Apply(m, e).m)
  {
    hide StepGrace, StepBlanked, StepRenderPending, StepStaged, EnterActive, EnterLadder;
    LeadsAwake();
  }

  /** No run from anywhere else slips. */
  lemma {:induction false} UndisplacedNeverSlips(m: Machine, es: seq<Event>)
    requires Sturdy(m) && Rising(m) && Awakening(es) && !Displaced(m)
    ensures NeverSlips(m, es)
    decreases |es|
  {
    hide Apply, Sturdy, Rising, Displaced, Slips, Audible, Muted;
    if es != [] {
      UndisplacedStep(m, es[0]);
      RisingKept(m, es[0]);
      UndisplacedNeverSlips(Apply(m, es[0]).m, es[1..]);
    }
  }

  /** Start states that may differ in overlays, holds, frozen values, deadlines, ownership,
      last reported zone and blank gates. */
  predicate Twins(m: Machine, n: Machine) {
    && NameOf(m.phase) == NameOf(n.phase) && m.pendingWake == n.pendingWake
    && m.cmds.gen == n.cmds.gen && m.stage.gen == n.stage.gen
  }

  function Presence(now: Instant): Event { Feed(ZonePresent(true), now) }

  lemma PresenceRaises(m: Machine, now: Instant)
    requires Sturdy(m)
    ensures var o := Apply(m, Presence(now)); Sturdy(o.m) && Rising(o.m)
    ensures var o := Apply(m, Presence(now));
            match m.phase
            case Active | Grace(_) => PathOf(o.m) == Path(Lit, m.cmds.gen) && WakeEffects(o.fx) == []
            case RenderPending(_, _) | Staged(_, _) =>
              PathOf(o.m) == Path(Lit, m.cmds.gen) && WakeEffects(o.fx) == [TeardownRender(m.stage.gen)]
            case Blanking => PathOf(o.m) == Path(Dimming, m.cmds.gen) && WakeEffects(o.fx) == []
            case Blanked => PathOf(o.m) == Path(Rousing, m.cmds.gen + 1) &&
              WakeEffects(o.fx) == [IssueWake(m.cmds.gen + 1)]
            case Waking => PathOf(o.m) == Path(Rousing, m.cmds.gen) && WakeEffects(o.fx) == []
    ensures Displaced(Apply(m, Presence(now)).m) <==> Displaced(m)
  {
    hide Sturdy, EnterActive, StartWake;
    SturdyKept(m, Presence(now));
    var z := m.(zone := Some(true));
    match m.phase
    case Grace(_) =>
      PresentActive(z, now, CPresenceDuringGrace);
      UnheardIsEmpty(EnterActive(z, now, CPresenceDuringGrace).fx);
    case RenderPending(_, _) | Staged(_, _) =>
      PresentActive(z, now, CPresenceDetected);
      UnheardIsEmpty(EnterActive(z, now, CPresenceDetected).fx);
    case Blanked =>
      StartedWake(z, [LogTo(m, NWaking, CPresenceDetected)], now);
      WakeBatch(z, [LogTo(m, NWaking, CPresenceDetected)], now);
      assert Wakes([m.cmds.gen + 1]) == [IssueWake(m.cmds.gen + 1)];
    case _ => UnheardIsEmpty([]);
  }

  /** Two runs that begin with a report of presence, from states of any runs that agree on
      phase, pending wake and generations, and whose audible inputs agree, show the same phases
      and the same wake and teardown commands - whatever overlays, holds, frozen countdowns and
      ownership either run has, and whichever of them change on the way - so long as neither
      slips; and none slips that does not start from a blank over a frozen countdown. */
  lemma OverlaysCannotTouchTheWakePath(m: Machine, n: Machine, now: Instant, later: Instant, es: seq<Event>,
                                       fs: seq<Event>)
    requires Sturdy(m) && Sturdy(n) && Twins(m, n)
    requires Awakening(es) && Awakening(fs) && Strip(es) == Strip(fs)
    ensures var o := Apply(m, Presence(now));
            var p := Apply(n, Presence(later));
            && Sturdy(o.m) && Rising(o.m) && Sturdy(p.m) && Rising(p.m)
            && WakeEffects(o.fx) == WakeEffects(p.fx)
            && PathOf(o.m) == PathOf(p.m)
            && (!Displaced(m) ==> NeverSlips(o.m, es))
            && (NeverSlips(o.m, es) && NeverSlips(p.m, fs) ==> Watch(o.m, es) == Watch(p.m, fs))
            && (NeverSlips(o.m, es) && Watch(o.m, es) == Watch(p.m, fs) ==> NeverSlips(p.m, fs))
  {
    hide Apply, Sturdy, Watch, Strip, Predict, Awakening, Rising, WakeEffects, NeverSlips, Displaced;
    PresenceRaises(m, now);
    PresenceRaises(n, later);
    RunWalksExactly(Apply(m, Presence(now)).m, es);
    RunWalksExactly(Apply(n, Presence(later)).m, fs);
    if !Displaced(m) {
      UndisplacedNeverSlips(Apply(m, Presence(now)).m, es);
    }
  }

  // ── Recovery ────────────────────────────────────────────────────────────

  /** Successful newest commands still needed before the panel is lit. */
  function Distance(p: Path): nat {
    match p.way
    case Lit => 0
    case Rousing => 1
    case Dimming => 2
  }

  /** Answers to the newest command, and nothing else: `oks[i]` says whether it succeeded. */
  function Answered(p: Path, oks: seq<bool>): Path
    decreases |oks|
  {
    if oks == [] then p
    else
      var answer := if p.way.Dimming? then BlankResult(p.gen, oks[0]) else WakeResult(p.gen, oks[0]);
      Answered(Walk(p, answer).0, oks[1..])
  }

  function Successes(oks: seq<bool>): nat
    decreases |oks|
  {
    if oks == [] then 0 else (if oks[0] then 1 else 0) + Successes(oks[1..])
  }

  /** Any answers among which enough succeed light the panel, and it stays lit. */
  lemma {:induction false} AnswersLight(p: Path, oks: seq<bool>)
    requires Successes(oks) >= Distance(p)
    ensures Answered(p, oks).way.Lit?
    decreases |oks|
  {
    if oks != [] {
      var answer := if p.way.Dimming? then BlankResult(p.gen, oks[0]) else WakeResult(p.gen, oks[0]);
      AnswersLight(Walk(p, answer).0, oks[1..]);
    }
  }

  /** Answers as the machine sees them, each to the command it awaits. */
  function AnswerEvents(p: Path, oks: seq<bool>, now: Instant): seq<Event>
    decreases |oks|
  {
    if oks == [] then []
    else
      var answer := if p.way.Dimming? then BlankResult(p.gen, oks[0]) else WakeResult(p.gen, oks[0]);
      [Feed(answer, now)] + AnswerEvents(Walk(p, answer).0, oks[1..], now)
  }

  lemma {:induction false} MachineAnswered(m: Machine, oks: seq<bool>, now: Instant)
    requires Sturdy(m) && Rising(m)
    ensures var es := AnswerEvents(PathOf(m), oks, now);
            var n := Fold(m, es); Sturdy(n) && Rising(n) && PathOf(n) == Answered(PathOf(m), oks)
    decreases |oks|
  {
    hide Apply, Sturdy, Walk, Rising;
    if oks != [] {
      var p := PathOf(m);
      var answer := if p.way.Dimming? then BlankResult(p.gen, oks[0]) else WakeResult(p.gen, oks[0]);
      var e := Feed(answer, now);
      assert !Slips(m, e);
      StepWalks(m, e);
      RisingKept(m, e);
      MachineAnswered(Apply(m, e).m, oks[1..], now);
      assert AnswerEvents(p, oks, now)[1..] == AnswerEvents(Walk(p, answer).0, oks[1..], now);
    }
  }

  /** After presence, n failed answers and two successful ones - one, unless a blank is in
      flight - leave the machine Active, in n + 3 steps at most. */
  lemma RecoversWithin(m: Machine, oks: seq<bool>, now: Instant, later: Instant)
    requires Sturdy(m) && Successes(oks) >= (if m.phase.Blanking? then 2 else 1)
    ensures var up := Apply(m, Presence(now)).m;
            Rising(up) && Fold(up, AnswerEvents(PathOf(up), oks, later)).phase.Active?
  {
    hide Apply, Sturdy, Answered, AnswerEvents, Fold;
    PresenceRaises(m, now);
    var up := Apply(m, Presence(now)).m;
    AnswersLight(PathOf(up), oks);
    MachineAnswered(up, oks, later);
  }

  /** And so at every point of every run from `new`, whatever its inputs were. */
  lemma RecoversFromEveryRun(timings: Timings, ladder: seq<LadderStage>, t0: Instant, es: seq<Event>, i: nat,
                             oks: seq<bool>, now: Instant, later: Instant)
    requires i <= |es|
    requires Successes(oks) >= (if At(New(timings, ladder, t0), es, i).phase.Blanking? then 2 else 1)
    ensures var up := Apply(At(New(timings, ladder, t0), es, i), Presence(now)).m;
            Rising(up) && Fold(up, AnswerEvents(PathOf(up), oks, later)).phase.Active?
  {
    hide Apply, Sturdy, At, AnswerEvents, Fold, Rising;
    SturdyThroughout(timings, ladder, t0, es, i);
    RecoversWithin(At(New(timings, ladder, t0), es, i), oks, now, later);
  }
}
