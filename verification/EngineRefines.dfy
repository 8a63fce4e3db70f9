/** What each display inside the engine goes through is a run of that display alone: the wheel holds
    exactly the ticks and stage ticks that run has scheduled and not yet received, and the outbox
    exactly the commands it has issued. */
module EngineRefines {
  import opened DisplayTypes
  import opened DisplaySpec
  import opened EngineSpec
  import opened EngineRuns
  import Runs = DisplayRuns
  import Rooms = PresentRooms
  import D = Deadlines

  // ── One display's share of the wheel and of the outbox ──────────────────

  function TickOf(t: Timer, d: DisplayId): multiset<Instant> {
    if t.entry == DisplayTick(d) then multiset{t.at} else multiset{}
  }

  function TicksFor(ts: seq<Timer>, d: DisplayId): multiset<Instant> {
    if ts == [] then multiset{} else TickOf(ts[0], d) + TicksFor(ts[1..], d)
  }

  /** A stage tick: its generation and its deadline. */
  type StageEntry = (nat, Instant)

  function StageOf(t: Timer, d: DisplayId): multiset<StageEntry> {
    if t.entry.DisplayStageTick? && t.entry.display == d then multiset{(t.entry.gen, t.at)} else multiset{}
  }

  function StagesFor(ts: seq<Timer>, d: DisplayId): multiset<StageEntry> {
    if ts == [] then multiset{} else StageOf(ts[0], d) + StagesFor(ts[1..], d)
  }

  function SentTo(outbox: seq<Sent>, d: DisplayId): seq<Effect> {
    if outbox == [] then []
    else (if outbox[0].display == d then [outbox[0].effect] else []) + SentTo(outbox[1..], d)
  }

  /** The stage ticks a batch schedules. */
  function StagesOf(fx: seq<Effect>): multiset<StageEntry> {
    if fx == [] then multiset{}
    else StagesOf(fx[1..]) + if fx[0].ScheduleStageTickAt? then multiset{(fx[0].gen, fx[0].at)} else multiset{}
  }

  /** The commands and surface effects of a batch, in order. */
  function CommandsOf(fx: seq<Effect>): seq<Effect> {
    if fx == [] then []
    else
      (if fx[0].IssueBlank? || fx[0].IssueWake? || fx[0].ShowRender? || fx[0].TeardownRender? then [fx[0]] else []) +
      CommandsOf(fx[1..])
  }

  lemma {:induction false} TicksJoin(a: seq<Timer>, b: seq<Timer>, d: DisplayId)
    ensures TicksFor(a + b, d) == TicksFor(a, d) + TicksFor(b, d)
  {
    if a == [] {
      assert a + b == b;
    } else {
      assert (a + b)[1..] == a[1..] + b;
      TicksJoin(a[1..], b, d);
    }
  }

  lemma {:induction false} StagesJoin(a: seq<Timer>, b: seq<Timer>, d: DisplayId)
    ensures StagesFor(a + b, d) == StagesFor(a, d) + StagesFor(b, d)
  {
    if a == [] {
      assert a + b == b;
    } else {
      assert (a + b)[1..] == a[1..] + b;
      StagesJoin(a[1..], b, d);
    }
  }

  lemma {:induction false} SentJoin(a: seq<Sent>, b: seq<Sent>, d: DisplayId)
    ensures SentTo(a + b, d) == SentTo(a, d) + SentTo(b, d)
  {
    if a == [] {
      assert a + b == b;
    } else {
      assert (a + b)[1..] == a[1..] + b;
      SentJoin(a[1..], b, d);
    }
  }

  lemma {:induction false} Popped(ts: seq<Timer>, k: nat, d: DisplayId)
    requires k < |ts|
    ensures TicksFor(ts, d) == TicksFor(Without(ts, k), d) + TickOf(ts[k], d)
    ensures StagesFor(ts, d) == StagesFor(Without(ts, k), d) + StageOf(ts[k], d)
  {
    hide TickOf, StageOf;
    if k == 0 {
      assert Without(ts, 0) == ts[1..];
    } else {
      assert Without(ts, k)[1..] == Without(ts[1..], k - 1);
      Popped(ts[1..], k - 1, d);
    }
  }

  lemma OneTimer(t: Timer, rest: seq<Timer>, d: DisplayId)
    ensures TicksFor([t] + rest, d) == TickOf(t, d) + TicksFor(rest, d)
    ensures StagesFor([t] + rest, d) == StageOf(t, d) + StagesFor(rest, d)
  {
    assert ([t] + rest)[1..] == rest;
  }

  lemma OneSent(x: Sent, rest: seq<Sent>, d: DisplayId)
    ensures SentTo([x] + rest, d) == (if x.display == d then [x.effect] else []) + SentTo(rest, d)
  {
    assert ([x] + rest)[1..] == rest;
  }

  lemma FirstScheduled(d: DisplayId, fx: seq<Effect>, q: DisplayId)
    requires fx != []
    ensures TicksFor(Scheduled(d, fx), q) ==
            TicksFor(Scheduled(d, fx[1..]), q) +
            (if q == d && fx[0].ScheduleTickAt? then multiset{fx[0].at} else multiset{})
    ensures StagesFor(Scheduled(d, fx), q) ==
            StagesFor(Scheduled(d, fx[1..]), q) +
            (if q == d && fx[0].ScheduleStageTickAt? then multiset{(fx[0].gen, fx[0].at)} else multiset{})
  {
    hide TicksFor, StagesFor;
    var rest := Scheduled(d, fx[1..]);
    match fx[0]
    case ScheduleTickAt(at) => OneTimer(Timer(at, DisplayTick(d)), rest, q);
    case ScheduleStageTickAt(gen, at) => OneTimer(Timer(at, DisplayStageTick(d, gen)), rest, q);
    case _ =>
  }

  /** A step's ticks go to its own display, each exactly once. */
  lemma {:induction false} AllScheduled(d: DisplayId, fx: seq<Effect>, q: DisplayId)
    ensures TicksFor(Scheduled(d, fx), q) == if q == d then D.TicksOf(fx) else multiset{}
    ensures StagesFor(Scheduled(d, fx), q) == if q == d then StagesOf(fx) else multiset{}
  {
    hide TicksFor, StagesFor, Scheduled;
    if fx == [] {
      NoneScheduled(d, q);
    } else {
      AllScheduled(d, fx[1..], q);
      FirstScheduled(d, fx, q);
    }
  }

  lemma NoneScheduled(d: DisplayId, q: DisplayId)
    ensures TicksFor(Scheduled(d, []), q) == multiset{} && StagesFor(Scheduled(d, []), q) == multiset{}
  {
  }

  /** So do its commands, in order. */
  lemma {:induction false} AllCommanded(d: DisplayId, fx: seq<Effect>, q: DisplayId)
    ensures SentTo(Commanded(d, fx), q) == if q == d then CommandsOf(fx) else []
  {
    hide SentTo;
    if fx == [] {
      NoneCommanded(d, q);
    } else {
      AllCommanded(d, fx[1..], q);
      if Command(fx[0]) {
        OneSent(Sent(d, fx[0]), Commanded(d, fx[1..]), q);
      }
    }
  }

  lemma NoneCommanded(d: DisplayId, q: DisplayId)
    ensures SentTo(Commanded(d, []), q) == []
  {
  }

  lemma {:induction false} InTicks(ts: seq<Timer>, d: DisplayId, at: Instant)
    ensures at in TicksFor(ts, d) <==> Timer(at, DisplayTick(d)) in ts
  {
    if ts != [] {
      InTicks(ts[1..], d, at);
    }
  }

  // ── The books of one display ────────────────────────────────────────────

  /** What nobody asks for in a run. */
  datatype Ban = Nothing | ForcedBlanks | AnyBlanks

  predicate Barred(ban: Ban, input: Input) {
    match ban
    case Nothing => false
    case ForcedBlanks => input.ForceBlank?
    case AnyBlanks => input.ForceBlank? || input.SoftBlank?
  }

  predicate Bars(ban: Ban, e: Runs.Event) { e.Feed? && Barred(ban, e.input) }

  /** A machine, the ticks and stage ticks it has scheduled and not received, and every command it
      has issued. */
  datatype Books = Books(m: Machine, due: multiset<Instant>, stages: multiset<StageEntry>, sent: seq<Effect>)

  function Opened(a0: D.Agenda): Books { Books(a0.m, a0.due, multiset{}, []) }

  function TickTaken(d: D.Arrival): multiset<Instant> { if d.Due? then multiset{d.at} else multiset{} }

  function StageTaken(d: D.Arrival): multiset<StageEntry> {
    if d.StageDue? then multiset{(d.gen, d.at)} else multiset{}
  }

  /** The books after one more arrival. */
  function Entered(b: Books, d: D.Arrival): Books {
    var o := Runs.Apply(b.m, D.Content(d));
    Books(o.m, b.due - TickTaken(d) + D.TicksOf(o.fx), b.stages - StageTaken(d) + StagesOf(o.fx),
          b.sent + CommandsOf(o.fx))
  }

  /** Only what is outstanding is delivered, and not before its deadline. */
  predicate Outstanding(b: Books, d: D.Arrival) {
    && (d.Due? ==> d.at in b.due && d.at <= d.now)
    && (d.StageDue? ==> (d.gen, d.at) in b.stages && d.at <= d.now)
  }

  function BooksAt(b: Books, ds: seq<D.Arrival>, i: nat): Books
    requires i <= |ds|
  {
    if i == 0 then b else Entered(BooksAt(b, ds, i - 1), ds[i - 1])
  }

  predicate AllOutstanding(b: Books, ds: seq<D.Arrival>) {
    forall i :: 0 <= i < |ds| ==> Outstanding(BooksAt(b, ds, i), ds[i])
  }

  /** Some arrivals, each outstanding and none barred, lead from `a0` to these books. */
  ghost predicate Reached(a0: D.Agenda, b: Books, ban: Ban) { exists ds: seq<D.Arrival> :: Leads(a0, ds, b, ban) }

  predicate Leads(a0: D.Agenda, ds: seq<D.Arrival>, b: Books, ban: Ban) {
    && AllOutstanding(Opened(a0), ds)
    && BooksAt(Opened(a0), ds, |ds|) == b
    && (forall k :: 0 <= k < |ds| ==> !Bars(ban, D.Content(ds[k])))
  }

  lemma {:induction false} SameBooks(b: Books, ds: seq<D.Arrival>, d: D.Arrival, i: nat)
    requires i <= |ds|
    ensures BooksAt(b, ds + [d], i) == BooksAt(b, ds, i)
  {
    hide Entered;
    if i > 0 {
      SameBooks(b, ds, d, i - 1);
      assert (ds + [d])[i - 1] == ds[i - 1];
    }
  }

  lemma StillOutstanding(b: Books, ds: seq<D.Arrival>, d: D.Arrival)
    requires AllOutstanding(b, ds) && Outstanding(BooksAt(b, ds, |ds|), d)
    ensures AllOutstanding(b, ds + [d]) && BooksAt(b, ds + [d], |ds| + 1) == Entered(BooksAt(b, ds, |ds|), d)
  {
    hide Entered, Outstanding;
    SameBooks(b, ds, d, |ds|);
    forall i | 0 <= i < |ds + [d]| ensures Outstanding(BooksAt(b, ds + [d], i), (ds + [d])[i]) {
      SameBooks(b, ds, d, i);
    }
  }

  /** One more arrival. */
  lemma Extends(a0: D.Agenda, b: Books, ban: Ban, d: D.Arrival)
    requires Reached(a0, b, ban) && !Bars(ban, D.Content(d)) && Outstanding(b, d)
    ensures Reached(a0, Entered(b, d), ban)
  {
    hide Entered, BooksAt, AllOutstanding, Outstanding, D.Content, Bars;
    var ds :| Leads(a0, ds, b, ban);
    StillOutstanding(Opened(a0), ds, d);
    assert |ds + [d]| == |ds| + 1;
    assert Leads(a0, ds + [d], Entered(b, d), ban);
  }

  /** The books are those of a run with its agenda. */
  lemma {:induction false} BooksAreAgenda(a0: D.Agenda, ds: seq<D.Arrival>, i: nat)
    requires i <= |ds| && AllOutstanding(Opened(a0), ds)
    ensures var (a, b) := (D.AgendaAt(a0, ds, i), BooksAt(Opened(a0), ds, i)); a.m == b.m && a.due == b.due
    ensures i < |ds| ==> D.Deliverable(D.AgendaAt(a0, ds, i), ds[i])
  {
    hide D.Deliver, Entered, Outstanding;
    if i > 0 {
      BooksAreAgenda(a0, ds, i - 1);
      EnteredIsDelivered(D.AgendaAt(a0, ds, i - 1), BooksAt(Opened(a0), ds, i - 1), ds[i - 1]);
    }
    if i < |ds| {
      assert Outstanding(BooksAt(Opened(a0), ds, i), ds[i]);
      OutstandingIsDeliverable(D.AgendaAt(a0, ds, i), BooksAt(Opened(a0), ds, i), ds[i]);
    }
  }

  lemma EnteredIsDelivered(a: D.Agenda, b: Books, d: D.Arrival)
    requires a.m == b.m && a.due == b.due
    ensures D.Deliver(a, d).m == Entered(b, d).m && D.Deliver(a, d).due == Entered(b, d).due
  {
    hide Runs.Apply, D.TicksOf, StagesOf, CommandsOf, D.Content, D.IssuesWake;
  }

  lemma OutstandingIsDeliverable(a: D.Agenda, b: Books, d: D.Arrival)
    requires a.due == b.due && Outstanding(b, d)
    ensures D.Deliverable(a, d)
  {
  }

  lemma LeadsDeliverably(a0: D.Agenda, ds: seq<D.Arrival>, b: Books, ban: Ban)
    requires Leads(a0, ds, b, ban)
    ensures D.AllDeliverable(a0, ds)
    ensures D.AgendaAt(a0, ds, |ds|).m == b.m && D.AgendaAt(a0, ds, |ds|).due == b.due
    ensures Runs.At(a0.m, D.Contents(ds), |ds|) == b.m
  {
    hide D.AgendaAt, BooksAt, D.Deliverable, Runs.At;
    forall i | 0 <= i < |ds| ensures D.Deliverable(D.AgendaAt(a0, ds, i), ds[i]) {
      BooksAreAgenda(a0, ds, i);
    }
    BooksAreAgenda(a0, ds, |ds|);
    D.AgendaIsRun(a0, ds, |ds|);
  }

  type Starts = map<DisplayId, D.Agenda>

  /** The popped entry, until its display has taken it. */
  function TickPopped(popped: Option<Timer>, d: DisplayId): multiset<Instant> {
    if popped.Some? then TickOf(popped.value, d) else multiset{}
  }

  function StagePopped(popped: Option<Timer>, d: DisplayId): multiset<StageEntry> {
    if popped.Some? then StageOf(popped.value, d) else multiset{}
  }

  /** The engine's books for one of its displays. */
  function BooksOf(e: Engine, popped: Option<Timer>, d: DisplayId): Books
    requires d in e.machines
  {
    Books(e.machines[d], TicksFor(e.timers, d) + TickPopped(popped, d), StagesFor(e.timers, d) + StagePopped(popped, d),
          SentTo(e.outbox, d))
  }

  ghost predicate ReachedFor(starts: Starts, e: Engine, popped: Option<Timer>, ban: Ban, d: DisplayId)
    requires d in e.machines
  {
    d in starts && Reached(starts[d], BooksOf(e, popped, d), ban)
  }

  /** Every display's books are where a run of that display alone leads. */
  ghost predicate AllReached(starts: Starts, e: Engine, popped: Option<Timer>, ban: Ban) {
    forall d :: d in e.machines ==> ReachedFor(starts, e, popped, ban, d)
  }

  /** What of the popped entry is left once `input` is taken. */
  function Spent(popped: Option<Timer>, input: Input): Option<Timer> {
    if input.Tick? || input.StageTick? then None else popped
  }

  /** A tick or stage tick taken off the wheel is the entry popped, at its deadline. */
  predicate TakesPopped(popped: Option<Timer>, d: DisplayId, input: Input, now: Instant) {
    popped.Some? ==>
      && (input.Tick? ==> popped.value == Timer(now, DisplayTick(d)))
      && (input.StageTick? ==> popped.value == Timer(now, DisplayStageTick(d, input.gen)))
  }

  function ArrivalOf(popped: Option<Timer>, input: Input, now: Instant): D.Arrival {
    if popped.Some? && input.Tick? then D.Due(now, now)
    else if popped.Some? && input.StageTick? then D.StageDue(input.gen, now, now)
    else D.Other(Runs.Feed(input, now))
  }

  lemma StepBooks(e: Engine, popped: Option<Timer>, d: DisplayId, input: Input, now: Instant)
    requires d in e.machines && TakesPopped(popped, d, input, now)
    ensures var arrival := ArrivalOf(popped, input, now);
            && Outstanding(BooksOf(e, popped, d), arrival)
            && BooksOf(StepMachine(e, d, input, now), Spent(popped, input), d) ==
               Entered(BooksOf(e, popped, d), arrival)
  {
    hide Step, Scheduled, Commanded, D.TicksOf, StagesOf, CommandsOf, TicksFor, StagesFor, SentTo;
    hide TickPopped, StagePopped, TickTaken, StageTaken, ArrivalOf, Spent, D.Content, TakesPopped;
    var fx := Step(e.machines[d], input, now).fx;
    TicksJoin(e.timers, Scheduled(d, fx), d);
    StagesJoin(e.timers, Scheduled(d, fx), d);
    SentJoin(e.outbox, Commanded(d, fx), d);
    AllScheduled(d, fx, d);
    AllCommanded(d, fx, d);
    TakenFromPopped(popped, d, input, now);
    Cancelled(TicksFor(e.timers, d), TickPopped(popped, d), TickTaken(ArrivalOf(popped, input, now)), D.TicksOf(fx));
    Cancelled(StagesFor(e.timers, d), StagePopped(popped, d), StageTaken(ArrivalOf(popped, input, now)), StagesOf(fx));
  }

  lemma TakenFromPopped(popped: Option<Timer>, d: DisplayId, input: Input, now: Instant)
    requires TakesPopped(popped, d, input, now)
    ensures var (arrival, left) := (ArrivalOf(popped, input, now), Spent(popped, input));
            && TickTaken(arrival) + TickPopped(left, d) == TickPopped(popped, d)
            && StageTaken(arrival) + StagePopped(left, d) == StagePopped(popped, d)
            && (arrival.Due? ==> arrival.at in TickPopped(popped, d) && arrival.at <= arrival.now)
            && (arrival.StageDue? ==> (arrival.gen, arrival.at) in StagePopped(popped, d) && arrival.at <= arrival.now)
            && D.Content(arrival) == Runs.Feed(input, now)
  {
  }

  lemma Cancelled<T>(held: multiset<T>, popped: multiset<T>, taken: multiset<T>, more: multiset<T>)
    requires taken <= popped
    ensures held + popped - taken + more == held + more + (popped - taken)
  {
  }

  lemma StepExtends(starts: Starts, e: Engine, popped: Option<Timer>, ban: Ban, d: DisplayId, input: Input,
                    now: Instant)
    requires d in e.machines && ReachedFor(starts, e, popped, ban, d) && !Barred(ban, input)
    requires TakesPopped(popped, d, input, now)
    ensures ReachedFor(starts, StepMachine(e, d, input, now), Spent(popped, input), ban, d)
  {
    hide Step, Reached, StepMachine, Entered, Outstanding, BooksOf, Barred, TakesPopped;
    assert d in StepMachine(e, d, input, now).machines by { StepKeepsDisplays(e, d, input, now); }
    StepBooks(e, popped, d, input, now);
    Extends(starts[d], BooksOf(e, popped, d), ban, ArrivalOf(popped, input, now));
  }

  lemma StepKeepsDisplays(e: Engine, d: DisplayId, input: Input, now: Instant)
    ensures StepMachine(e, d, input, now).machines.Keys == e.machines.Keys
  {
    hide Step;
  }

  lemma OtherBooks(e: Engine, popped: Option<Timer>, d: DisplayId, input: Input, now: Instant, q: DisplayId)
    requires q != d && q in e.machines && TakesPopped(popped, d, input, now)
    ensures q in StepMachine(e, d, input, now).machines
    ensures BooksOf(StepMachine(e, d, input, now), Spent(popped, input), q) == BooksOf(e, popped, q)
  {
    hide Step, Scheduled, Commanded, TicksFor, StagesFor, SentTo;
    if d in e.machines {
      var fx := Step(e.machines[d], input, now).fx;
      TicksJoin(e.timers, Scheduled(d, fx), q);
      StagesJoin(e.timers, Scheduled(d, fx), q);
      SentJoin(e.outbox, Commanded(d, fx), q);
      AllScheduled(d, fx, q);
      AllCommanded(d, fx, q);
    }
  }

  /** The popped entry, if any, is one of the display being stepped. */
  lemma StepReached(starts: Starts, e: Engine, popped: Option<Timer>, ban: Ban, d: DisplayId, input: Input,
                    now: Instant)
    requires AllReached(starts, e, popped, ban) && !Barred(ban, input) && TakesPopped(popped, d, input, now)
    ensures AllReached(starts, StepMachine(e, d, input, now), Spent(popped, input), ban)
  {
    hide Step, Reached, BooksOf, Barred, StepMachine, TakesPopped;
    StepKeepsDisplays(e, d, input, now);
    forall q | q in e.machines ensures ReachedFor(starts, StepMachine(e, d, input, now), Spent(popped, input), ban, q) {
      assert ReachedFor(starts, e, popped, ban, q);
      if q == d {
        StepExtends(starts, e, popped, ban, d, input, now);
      } else {
        OtherBooks(e, popped, d, input, now, q);
      }
    }
  }

  lemma FlagExtends(a0: D.Agenda, b: Books, ban: Ban, active: bool)
    requires Reached(a0, b, ban)
    ensures Reached(a0, b.(m := b.m.(inputWakeHold := active)), ban)
  {
    hide Reached;
    Extends(a0, b, ban, D.Other(Runs.SetHold(active)));
    NothingEntered(b, active);
  }

  lemma NothingEntered(b: Books, active: bool)
    ensures Entered(b, D.Other(Runs.SetHold(active))) == b.(m := b.m.(inputWakeHold := active))
  {
    D.NoTicks();
    assert StagesOf([]) == multiset{} && CommandsOf([]) == [];
    assert b.due - multiset{} + multiset{} == b.due && b.stages - multiset{} + multiset{} == b.stages;
  }

  lemma FlagReached(starts: Starts, e: Engine, popped: Option<Timer>, ban: Ban, d: DisplayId, active: bool)
    requires AllReached(starts, e, popped, ban)
    ensures AllReached(starts, SetHoldFlag(e, d, active), popped, ban)
  {
    hide Reached, TicksFor, StagesFor, SentTo;
    var f := SetHoldFlag(e, d, active);
    forall q | q in f.machines ensures ReachedFor(starts, f, popped, ban, q) {
      assert ReachedFor(starts, e, popped, ban, q);
      if q == d {
        FlagExtends(starts[d], BooksOf(e, popped, d), ban, active);
      }
    }
  }

  predicate OfDisplay(t: Timer) { t.entry.DisplayTick? || t.entry.DisplayStageTick? }

  /** The machines and the outbox are the same, and whatever joined the wheel is of no display. */
  lemma SameMachines(starts: Starts, e: Engine, f: Engine, popped: Option<Timer>, ban: Ban, more: seq<Timer>)
    requires AllReached(starts, e, popped, ban)
    requires f.machines == e.machines && f.outbox == e.outbox && f.timers == e.timers + more
    requires forall k :: 0 <= k < |more| ==> !OfDisplay(more[k])
    ensures AllReached(starts, f, popped, ban)
  {
    hide Reached, TicksFor, StagesFor, SentTo;
    forall q | q in f.machines ensures ReachedFor(starts, f, popped, ban, q) {
      assert ReachedFor(starts, e, popped, ban, q);
      TicksJoin(e.timers, more, q);
      StagesJoin(e.timers, more, q);
      OfNoDisplay(more, q);
      assert TicksFor(f.timers, q) == TicksFor(e.timers, q) && StagesFor(f.timers, q) == StagesFor(e.timers, q);
    }
  }

  lemma {:induction false} OfNoDisplay(ts: seq<Timer>, d: DisplayId)
    requires forall k :: 0 <= k < |ts| ==> !OfDisplay(ts[k])
    ensures TicksFor(ts, d) == multiset{} && StagesFor(ts, d) == multiset{}
  {
    if ts != [] {
      OfNoDisplay(ts[1..], d);
    }
  }

  lemma PopReached(starts: Starts, e: Engine, ban: Ban, k: nat)
    requires AllReached(starts, e, None, ban) && k < |e.timers|
    ensures var popped := if OfDisplay(e.timers[k]) then Some(e.timers[k]) else None;
            AllReached(starts, e.(timers := Without(e.timers, k)), popped, ban)
  {
    hide Reached, Without, BooksOf;
    var popped := if OfDisplay(e.timers[k]) then Some(e.timers[k]) else None;
    var r := e.(timers := Without(e.timers, k));
    forall q | q in r.machines ensures ReachedFor(starts, r, popped, ban, q) {
      assert ReachedFor(starts, e, None, ban, q);
      PoppedBooks(e, k, q);
    }
  }

  /** Popped, an entry is still on the books of its display; if it is of no display, it never was. */
  lemma PoppedBooks(e: Engine, k: nat, q: DisplayId)
    requires k < |e.timers| && q in e.machines
    ensures var popped := if OfDisplay(e.timers[k]) then Some(e.timers[k]) else None;
            BooksOf(e.(timers := Without(e.timers, k)), popped, q) == BooksOf(e, None, q)
  {
    hide Without, TicksFor, StagesFor, SentTo, TickOf, StageOf;
    Popped(e.timers, k, q);
    OfOthers(e.timers[k], q);
    assert TicksFor(e.timers, q) + multiset{} == TicksFor(Without(e.timers, k), q) + TickOf(e.timers[k], q);
    assert StagesFor(e.timers, q) + multiset{} == StagesFor(Without(e.timers, k), q) + StageOf(e.timers[k], q);
  }

  lemma OfOthers(t: Timer, q: DisplayId)
    ensures !OfDisplay(t) ==> TickOf(t, q) == multiset{} && StageOf(t, q) == multiset{}
  {
  }

  lemma FeedReached(starts: Starts, e: Engine, popped: Option<Timer>, ban: Ban, d: DisplayId, now: Instant, gate: Gate)
    requires AllReached(starts, e, popped, ban)
    ensures AllReached(starts, FeedOwnership(e, d, now, gate), popped, ban)
  {
    hide StepMachine, AllReached;
    assert e.timers + [] == e.timers;
    var r := e.(lastOwned := e.lastOwned[d := gate(d)]);
    SameMachines(starts, e, r, popped, ban, []);
    SameMachines(starts, e, e.(lastOwned := e.lastOwned[d := true]), popped, ban, []);
    StepReached(starts, r, popped, ban, d, OwnershipChanged(gate(d)), now);
  }

  lemma StepOneReached(starts: Starts, e: Engine, popped: Option<Timer>, ban: Ban, d: DisplayId, input: Input,
                       now: Instant,
                       gate: Gate)
    requires AllReached(starts, e, popped, ban) && !Barred(ban, input)
    requires TakesPopped(popped, d, input, now)
    ensures AllReached(starts, StepOne(e, d, input, now, gate), Spent(popped, input), ban)
  {
    hide StepMachine, FeedOwnership, AllReached, Barred, TakesPopped;
    FeedReached(starts, e, popped, ban, d, now, gate);
    StepReached(starts, FeedOwnership(e, d, now, gate), popped, ban, d, input, now);
  }

  lemma ClearReached(starts: Starts, e: Engine, ban: Ban, d: DisplayId)
    requires AllReached(starts, e, None, ban)
    ensures AllReached(starts, ClearInputHold(e, d), None, ban)
  {
    hide AllReached, SetHoldFlag;
    var r := e.(inputHolds := e.inputHolds - {d});
    assert e.timers + [] == e.timers;
    SameMachines(starts, e, r, None, ban, []);
    FlagReached(starts, r, None, ban, d, false);
  }

  lemma FanOneReached(starts: Starts, e: Engine, ban: Ban, d: DisplayId, wall: Instant, gate: Gate)
    requires AllReached(starts, e, None, ban)
    ensures AllReached(starts, FanOne(e, d, wall, gate), None, ban)
  {
    hide StepOne, ClearInputHold, EffectivePresence, AllReached;
    ClearReached(starts, e, ban, d);
    var present := EffectivePresence(e, d);
    StepOneReached(starts, if present then ClearInputHold(e, d) else e, None, ban, d, ZonePresent(present), wall, gate);
  }

  lemma {:induction false} FanReached(starts: Starts, e: Engine, ban: Ban, ds: seq<DisplayId>, wall: Instant,
                                      gate: Gate)
    requires AllReached(starts, e, None, ban)
    ensures AllReached(starts, Fan(e, ds, wall, gate), None, ban)
    decreases |ds|
  {
    hide FanOne, AllReached;
    if ds != [] {
      FanReached(starts, e, ban, ds[..|ds| - 1], wall, gate);
      FanOneReached(starts, Fan(e, ds[..|ds| - 1], wall, gate), ban, ds[|ds| - 1], wall, gate);
    }
  }

  lemma {:induction false} FanZonesReached(starts: Starts, e: Engine, ban: Ban, zones: seq<Zone>, wall: Instant,
                                           gate: Gate)
    requires AllReached(starts, e, None, ban)
    ensures AllReached(starts, FanZones(e, zones, wall, gate), None, ban)
    decreases |zones|
  {
    hide Fan, AllReached, Targets;
    if zones != [] {
      var f := FanZones(e, zones[..|zones| - 1], wall, gate);
      FanZonesReached(starts, e, ban, zones[..|zones| - 1], wall, gate);
      FanReached(starts, f, ban, Targets(e.cfg.rules, zones[|zones| - 1]), wall, gate);
    }
  }

  lemma FilterAppends(e: Engine, s: Sensor, state: SensorState, wall: Instant) returns (more: seq<Timer>)
    ensures var f := HoldFilter(e, s, state, wall).e; f.machines == e.machines && f.timers == e.timers + more
    ensures HoldFilter(e, s, state, wall).e.outbox == e.outbox && forall k :: 0 <= k < |more| ==> !OfDisplay(more[k])
  {
    more := HoldFilter(e, s, state, wall).e.timers[|e.timers|..];
  }

  lemma PresenceReached(starts: Starts, e: Engine, ban: Ban, s: Sensor, state: SensorState, wall: Instant, gate: Gate)
    requires AllReached(starts, e, None, ban)
    ensures AllReached(starts, HandlePresence(e, s, state, wall, gate), None, ban)
  {
    hide FanZones, AllReached, HoldFilter;
    var f := HoldFilter(e, s, state, wall).e;
    var more := FilterAppends(e, s, state, wall);
    SameMachines(starts, e, f, None, ban, more);
    var (zones, changed) := f.cfg.fuse(f.zones, s, state);
    var r := f.(zones := zones, delivered := f.delivered + [Delivery(s, state, wall)]);
    SameMachines(starts, e, r, None, ban, more);
    FanZonesReached(starts, r, ban, changed, wall, gate);
  }

  lemma WakeReached(starts: Starts, e: Engine, ban: Ban, d: DisplayId, wall: Instant, gate: Gate)
    requires AllReached(starts, e, None, ban)
    ensures AllReached(starts, InputWakeControl(e, d, wall, gate), None, ban)
  {
    hide StepOne, AllReached, EffectiveInputHold, SetHoldFlag;
    var hold := EffectiveInputHold(e.cfg.rules, e.zones, d);
    if hold.Some? {
      var until := wall + hold.value;
      var r := e.(inputHolds := e.inputHolds[d := until], timers := e.timers + [Timer(until, InputWakeHoldExpiry(d))]);
      SameMachines(starts, e, r, None, ban, [Timer(until, InputWakeHoldExpiry(d))]);
      FlagReached(starts, r, None, ban, d, true);
    }
    StepOneReached(starts, ArmInputWake(e, d, wall), None, ban, d, InputWake, wall, gate);
  }

  lemma HoldExpiryReached(starts: Starts, e: Engine, ban: Ban, s: Sensor, now: Instant, wall: Instant, gate: Gate)
    requires AllReached(starts, e, None, ban)
    ensures AllReached(starts, FireHoldExpiry(e, s, now, wall, gate), None, ban)
  {
    hide HandlePresence, AllReached;
    if s in e.holds {
      var c := e.(holds := e.holds[s := Hold(None, false)]);
      assert e.timers + [] == e.timers;
      SameMachines(starts, e, c, None, ban, []);
      PresenceReached(starts, c, ban, s, Absent, wall, gate);
    }
  }

  lemma InputWakeReached(starts: Starts, e: Engine, ban: Ban, d: DisplayId, now: Instant, gate: Gate)
    requires AllReached(starts, e, None, ban)
    ensures AllReached(starts, FireInputWakeExpiry(e, d, now, gate), None, ban)
  {
    hide StepMachine, FeedOwnership, ClearInputHold, EffectiveInputHold, AllReached;
    ClearReached(starts, e, ban, d);
    FeedReached(starts, ClearInputHold(e, d), None, ban, d, now, gate);
    StepReached(starts, FeedOwnership(ClearInputHold(e, d), d, now, gate), None, ban, d, ZonePresent(false), now);
  }

  lemma FireReached(starts: Starts, e: Engine, ban: Ban, k: nat, wall: Instant, gate: Gate)
    requires AllReached(starts, e, None, ban) && k < |e.timers|
    ensures AllReached(starts, FireAt(e, k, wall, gate), None, ban)
  {
    hide StepOne, FireHoldExpiry, FireInputWakeExpiry, AllReached, Without;
    var t := e.timers[k];
    var r := e.(timers := Without(e.timers, k));
    PopReached(starts, e, ban, k);
    match t.entry
    case DisplayTick(d) => StepOneReached(starts, r, Some(t), ban, d, Tick, t.at, gate);
    case DisplayStageTick(d, gen) => StepOneReached(starts, r, Some(t), ban, d, StageTick(gen), t.at, gate);
    case HoldExpiry(s) => HoldExpiryReached(starts, r, ban, s, t.at, wall, gate);
    case InputWakeHoldExpiry(d) => InputWakeReached(starts, r, ban, d, t.at, gate);
  }

  /** Nobody asked for what is barred at this moment. */
  predicate Unasked(m: Moment, ban: Ban) { m.event.Control? || m.event.Answer? ==> !Barred(ban, m.event.input) }

  lemma NothingAsked()
    ensures forall m: Moment :: Unasked(m, Nothing)
  {
  }

  lemma MomentReached(starts: Starts, w: Watched, m: Moment, ban: Ban)
    requires AllReached(starts, w.e, None, ban) && Unasked(m, ban)
    ensures AllReached(starts, Play(w, m).e, None, ban)
  {
    hide HandlePresence, StepOne, InputWakeControl, FeedOwnership, StepMachine, FireAt, AllReached, Barred;
    match m.event
    case Report(s, state) => PresenceReached(starts, w.e, ban, s, state, m.wall, m.gate);
    case Control(d, input) => StepOneReached(starts, w.e, None, ban, d, input, m.wall, m.gate);
    case WakeByInput(d) => WakeReached(starts, w.e, ban, d, m.wall, m.gate);
    case Poll(d) => FeedReached(starts, w.e, None, ban, d, m.wall, m.gate);
    case SetSuppression(d, until) =>
      assert w.e.timers + [] == w.e.timers;
      SameMachines(starts, w.e, SetClaim(w.e, d, until), None, ban, []);
    case Answer(d, input) => StepReached(starts, w.e, None, ban, d, input, m.wall);
    case Fire(limit) =>
      if Due(w.e.timers, limit) {
        FireReached(starts, w.e, ban, Next(w.e.timers), m.wall, m.gate);
      }
  }

  function StartsOf(displays: Panels, now: Instant): Starts {
    map d | d in displays :: D.NewAgenda(displays[d].0, displays[d].1, now)
  }

  lemma NowhereReached(a0: D.Agenda, ban: Ban)
    ensures Reached(a0, Opened(a0), ban)
  {
    assert Leads(a0, [], Opened(a0), ban);
  }

  lemma NewReached(timings: Timings, ladder: seq<LadderStage>, t0: Instant, owns: bool, ban: Ban)
    ensures var m := Step(New(timings, ladder, t0), OwnershipChanged(owns), t0).m;
            Reached(D.NewAgenda(timings, ladder, t0), Books(m, multiset{}, multiset{}, []), ban)
  {
    hide Step, New, Reached;
    var a0 := D.NewAgenda(timings, ladder, t0);
    NowhereReached(a0, ban);
    Extends(a0, Opened(a0), ban, D.Other(Runs.Feed(OwnershipChanged(owns), t0)));
    SilentlyEntered(Opened(a0), OwnershipChanged(owns), t0) by { FirstFeedSilent(timings, ladder, t0, owns); }
  }

  lemma SilentlyEntered(b: Books, input: Input, now: Instant)
    requires Step(b.m, input, now).fx == []
    ensures Entered(b, D.Other(Runs.Feed(input, now))) == b.(m := Step(b.m, input, now).m)
  {
    hide Step;
    D.NoTicks();
    assert StagesOf([]) == multiset{} && CommandsOf([]) == [];
    assert b.due - multiset{} + multiset{} == b.due && b.stages - multiset{} + multiset{} == b.stages;
  }

  lemma NewAllReached(cfg: EngineConfig, displays: Panels, zones: Zones, t0: Instant,
                      gate: Gate, ban: Ban)
    ensures AllReached(StartsOf(displays, t0), NewEngine(cfg, displays, zones, t0, gate), None, ban)
  {
    hide Step, New, Reached, D.NewAgenda;
    var e := NewEngine(cfg, displays, zones, t0, gate);
    forall d | d in displays ensures ReachedFor(StartsOf(displays, t0), e, None, ban, d) {
      NewReached(displays[d].0, displays[d].1, t0, gate(d), ban);
      assert BooksOf(e, None, d) == Books(e.machines[d], multiset{}, multiset{}, []);
    }
  }

  /** Every engine run is, display by display, a run of the state machine from `new` in which ticks and
      stage ticks come off the wheel no earlier than their deadline; the wheel holds exactly those that
      run has outstanding, the outbox exactly the commands it has issued, in order; and nothing is
      asked of the display that nobody asks of the engine. */
  lemma {:induction false} EngineRunsAreDisplayRuns(cfg: EngineConfig, displays: Panels,
                                                    zones: Zones, t0: Instant, gate: Gate, run: seq<Moment>, i: nat,
                                                    ban: Ban)
    requires i <= |run| && forall k :: 0 <= k < |run| ==> Unasked(run[k], ban)
    ensures AllReached(StartsOf(displays, t0), After(Fresh(cfg, displays, zones, t0, gate), run, i).e, None, ban)
  {
    hide Play, NewEngine, AllReached, StartsOf;
    var w := Fresh(cfg, displays, zones, t0, gate);
    if i == 0 {
      NewAllReached(cfg, displays, zones, t0, gate, ban);
    } else {
      EngineRunsAreDisplayRuns(cfg, displays, zones, t0, gate, run, i - 1, ban);
      MomentReached(StartsOf(displays, t0), After(w, run, i - 1), run[i - 1], ban);
    }
  }

  /** A run of display `d` alone that ends in the engine's books for it. */
  predicate Tells(a0: D.Agenda, ds: seq<D.Arrival>, e: Engine, d: DisplayId, ban: Ban) {
    d in e.machines && Leads(a0, ds, BooksOf(e, None, d), ban)
  }

  lemma ToldRun(cfg: EngineConfig, displays: Panels, zones: Zones, t0: Instant, gate: Gate,
                run: seq<Moment>, i: nat, d: DisplayId, ban: Ban) returns (ds: seq<D.Arrival>)
    requires i <= |run| && forall k :: 0 <= k < |run| ==> Unasked(run[k], ban)
    requires d in After(Fresh(cfg, displays, zones, t0, gate), run, i).e.machines
    ensures d in displays
    ensures var e := After(Fresh(cfg, displays, zones, t0, gate), run, i).e;
            Tells(D.NewAgenda(displays[d].0, displays[d].1, t0), ds, e, d, ban)
  {
    hide Play, NewEngine, After, Unasked, Leads, BooksOf, D.NewAgenda;
    EngineRunsAreDisplayRuns(cfg, displays, zones, t0, gate, run, i, ban);
    var e := After(Fresh(cfg, displays, zones, t0, gate), run, i).e;
    assert ReachedFor(StartsOf(displays, t0), e, None, ban, d);
    ds :| Leads(StartsOf(displays, t0)[d], ds, BooksOf(e, None, d), ban);
  }

  /** In every engine run in which nobody asks for a blank: a display is dark only while the
      presence last fed to it is absence, and a blank is in flight only then or with a wake
      already pending. */
  lemma EngineNeverDarkensPresentRooms(cfg: EngineConfig, displays: Panels, zones: Zones,
                                       t0: Instant, gate: Gate, run: seq<Moment>, i: nat, d: DisplayId)
    requires i <= |run| && forall k :: 0 <= k < |run| ==> Unasked(run[k], AnyBlanks)
    requires d in After(Fresh(cfg, displays, zones, t0, gate), run, i).e.machines
    ensures var m := After(Fresh(cfg, displays, zones, t0, gate), run, i).e.machines[d];
            && (m.phase.Grace? || m.phase.Blanked? || InLadderRender(m.phase) ==> m.zone == Some(false))
            && (m.phase.Blanking? ==> m.zone == Some(false) || m.pendingWake)
  {
    hide Play, NewEngine, After, Unasked, Leads, TicksFor, StagesFor, SentTo, D.NewAgenda;
    var ds := ToldRun(cfg, displays, zones, t0, gate, run, i, d, AnyBlanks);
    var e := After(Fresh(cfg, displays, zones, t0, gate), run, i).e;
    RoomOf(displays[d].0, displays[d].1, t0, ds, BooksOf(e, None, d));
  }

  lemma RoomOf(timings: Timings, ladder: seq<LadderStage>, t0: Instant, ds: seq<D.Arrival>, b: Books)
    requires Leads(D.NewAgenda(timings, ladder, t0), ds, b, AnyBlanks)
    ensures (b.m.phase.Grace? || b.m.phase.Blanked? || InLadderRender(b.m.phase)) ==> b.m.zone == Some(false)
    ensures b.m.phase.Blanking? ==> b.m.zone == Some(false) || b.m.pendingWake
  {
    hide Runs.At, New, D.AgendaAt, D.AllDeliverable, D.Content, BooksAt, AllOutstanding;
    LeadsDeliverably(D.NewAgenda(timings, ladder, t0), ds, b, AnyBlanks);
    Rooms.PresentRoomsNeverDark(timings, ladder, t0, D.Contents(ds), |ds|);
  }
}
