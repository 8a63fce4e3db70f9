/** What the ownership record means, over whole observation histories: the debounce, the flap
    limiter, the contested hold and the outcome stream, each against a rule on the history. */
module CoordHistory {
  import opened DisplayTypes
  import opened CoordSpec

  // ── Histories ───────────────────────────────────────────────────────────

  datatype Poll =
    | Read(code: Code, panel: Option<PanelState>, now: Instant)
    | Mismatch(now: Instant)
    | Failed
    | Write(code: Code)

  datatype Setup = Setup(aliases: Aliases, k: U32, policy: Policy)

  function Next(s: Setup, r: Record, p: Poll): (Record, Outcome) {
    match p
    case Read(code, panel, now) => Observe(r, Some(Reading(code, s.aliases, panel)), s.k, s.policy, now)
    case Mismatch(now) => Observe(r, None, s.k, DISABLED, now)
    case Failed => (Failure(r), NOTHING)
    case Write(code) => (Verified(r, code), NOTHING)
  }

  /** The record before poll `i`, seeded before the first. */
  function RecordAt(s: Setup, ps: seq<Poll>, i: nat): Record
    requires i <= |ps|
  {
    if i == 0 then SEEDED else Next(s, RecordAt(s, ps, i - 1), ps[i - 1]).0
  }

  function OutcomeAt(s: Setup, ps: seq<Poll>, i: nat): Outcome
    requires i < |ps|
  {
    Next(s, RecordAt(s, ps, i), ps[i]).1
  }

  /** Confirmations required: max(k, 1). */
  function Needed(s: Setup): U32 { AtLeast(s.k, 1) }

  /** The debounce committed a verdict, even if the flap limiter cancelled it at once. */
  predicate Commits(o: Outcome) { o.committedPriorOwned.Some? || o.enteredContested }

  predicate IsLocal(s: Setup, code: Code) { Classify(s.aliases, code).Local? }

  // ── Debounce ────────────────────────────────────────────────────────────

  /** What a read or a connector mismatch shows: a code, whether it is local, and whether it is read
      where another code was read or written last.  A mismatch shows code 0, foreign. */
  datatype Sight = Sight(code: Code, local: bool, breaks: bool)

  /** The code last read or written. */
  function LastRaw(ps: seq<Poll>, i: nat): Option<Code>
    requires i <= |ps|
  {
    if i == 0 then None
    else match ps[i - 1]
      case Read(code, _, _) => Some(code)
      case Write(code) => Some(code)
      case _ => LastRaw(ps, i - 1)
  }

  predicate Looks(p: Poll) { p.Read? || p.Mismatch? }

  function Seen(s: Setup, last: Option<Code>, p: Poll): Sight
    requires Looks(p)
  {
    match p
    case Read(code, _, _) => Sight(code, IsLocal(s, code), last.Some? && last.value != code)
    case Mismatch(_) => Sight(0, false, false)
  }

  /** What was seen since the last commit, settling or contested read, or verified write. */
  function Streak(s: Setup, ps: seq<Poll>, i: nat): seq<Sight>
    requires i <= |ps|
  {
    if i == 0 then []
    else if ps[i - 1].Write? then []
    else if !Looks(ps[i - 1]) then Streak(s, ps, i - 1)
    else if RecordAt(s, ps, i - 1).flap.contested || Commits(OutcomeAt(s, ps, i - 1)) then []
    else Streak(s, ps, i - 1) + [Seen(s, LastRaw(ps, i - 1), ps[i - 1])]
  }

  /** The last `n` sights show one code, of the class opposing the verdict, unbroken. */
  predicate Agreeing(owned: bool, sights: seq<Sight>, n: nat) {
    n <= |sights| &&
    forall i :: |sights| - n <= i < |sights| ==>
      && sights[i].code == sights[|sights| - 1].code && sights[i].local != owned
      && (sights[i].breaks ==> i == |sights| - n)
  }

  predicate LongestAgreeing(owned: bool, sights: seq<Sight>, n: nat) {
    Agreeing(owned, sights, n) && !Agreeing(owned, sights, n + 1)
  }

  predicate DebounceTrue(s: Setup, r: Record, sights: seq<Sight>, last: Option<Code>) {
    && r.lastCode == last
    && if r.flap.contested then sights == [] && r.pending == IDLE && !r.owned
       else
         && LongestAgreeing(r.owned, sights, r.pending.count)
         && r.pending.count < Needed(s)
         && (r.pending.code == if r.pending.count == 0 then None else Some(sights[|sights| - 1].code))
  }

  lemma AgreeingExtends(owned: bool, sights: seq<Sight>, x: Sight, n: nat)
    ensures Agreeing(owned, sights + [x], n + 1) <==>
              && x.local != owned
              && (n == 0 || (Agreeing(owned, sights, n) && sights[|sights| - 1].code == x.code && !x.breaks))
  {
    var c := sights + [x];
    if Agreeing(owned, c, n + 1) {
      assert c[|sights|] == x;
      if n > 0 {
        assert c[|sights| - 1] == sights[|sights| - 1];
        forall i | |sights| - n <= i < |sights|
          ensures sights[i].code == x.code && sights[i].local != owned && (sights[i].breaks ==> i == |sights| - n)
        {
          assert c[i] == sights[i];
        }
      }
    }
  }

  lemma LongestUnique(owned: bool, sights: seq<Sight>, m: nat, n: nat)
    requires LongestAgreeing(owned, sights, m)
    ensures Agreeing(owned, sights, n) <==> n <= m
  {
    ShorterAgrees(owned, sights, m + 1, n);
    ShorterAgrees(owned, sights, n, m);
  }

  lemma ShorterAgrees(owned: bool, sights: seq<Sight>, a: nat, b: nat)
    ensures a <= b && Agreeing(owned, sights, b) ==> Agreeing(owned, sights, a)
  {
  }

  /** One uncontested look: it commits exactly if it completes max(k, 1) agreeing opposing sights,
      and otherwise the pending count is the longest such run. */
  lemma LookDebounces(s: Setup, r: Record, sights: seq<Sight>, last: Option<Code>, p: Poll)
    requires Looks(p) && !r.flap.contested && DebounceTrue(s, r, sights, last)
    ensures var (n, o) := Next(s, r, p);
            var c := sights + [Seen(s, last, p)];
            && (Commits(o) <==> Agreeing(r.owned, c, Needed(s)))
            && DebounceTrue(s, n, if Commits(o) then [] else c, if p.Read? then Some(p.code) else last)
  {
    var x := Seen(s, last, p);
    var run := if x.local == r.owned then 0
               else if r.pending.code == Some(x.code) && !x.breaks then r.pending.count + 1 else 1;
    LongestRun(s, r, sights, last, x, run);
    LongestUnique(r.owned, sights + [x], run, Needed(s));
    FlapKeepsDebounce(s, r, p);
    CountsRun(s, r, last, p, run);
  }

  /** What a look does to the candidate. */
  lemma CountsRun(s: Setup, r: Record, last: Option<Code>, p: Poll, run: nat)
    requires Looks(p) && !r.flap.contested && r.lastCode == last && r.pending.count < Needed(s)
    requires r.pending.code.None? ==> r.pending.count == 0
    requires var x := Seen(s, last, p);
             run == if x.local == r.owned then 0
                    else if r.pending.code == Some(x.code) && !x.breaks then r.pending.count + 1 else 1
    ensures var (n, o) := Next(s, r, p);
            && (Commits(o) <==> run >= Needed(s))
            && (!Commits(o) ==> n.pending == if run == 0 then IDLE else Pending(run, Some(Seen(s, last, p).code)))
  {
    hide Trim;
  }

  lemma LongestRun(s: Setup, r: Record, sights: seq<Sight>, last: Option<Code>, x: Sight, run: nat)
    requires !r.flap.contested && DebounceTrue(s, r, sights, last)
    requires run == if x.local == r.owned then 0
                    else if r.pending.code == Some(x.code) && !x.breaks then r.pending.count + 1 else 1
    ensures LongestAgreeing(r.owned, sights + [x], run)
  {
    hide Agreeing;
    AgreeingExtends(r.owned, sights, x, run);
    NoneAgrees(r.owned, sights + [x]);
    if run > 0 {
      AgreeingExtends(r.owned, sights, x, run - 1);
    }
    if run == 1 && r.pending.count > 0 {
      ShorterAgrees(r.owned, sights, 1, r.pending.count);
    }
    if run == 1 && r.pending.count == 0 {
      NoneAgrees(r.owned, sights);
    }
  }

  lemma NoneAgrees(owned: bool, sights: seq<Sight>)
    ensures Agreeing(owned, sights, 0)
  {
  }

  /** The limiter only ever turns a commit into a contested, idle, unowned record. */
  lemma FlapKeepsDebounce(s: Setup, r: Record, p: Poll)
    requires Looks(p) && !r.flap.contested
    ensures var (n, o) := Next(s, r, p);
            && (Commits(o) ==> n.pending == IDLE && (n.flap.contested ==> !n.owned))
            && (!Commits(o) ==> n.owned == r.owned && !n.flap.contested)
            && (n.flap.contested <==> o.enteredContested)
            && n.lastCode == if p.Read? then Some(p.code) else r.lastCode
  {
    hide Trim;
  }

  /** Over every history: the pending count is the longest run of agreeing sights that ends it. */
  lemma {:induction false} DebounceThroughout(s: Setup, ps: seq<Poll>, i: nat)
    requires i <= |ps|
    ensures DebounceTrue(s, RecordAt(s, ps, i), Streak(s, ps, i), LastRaw(ps, i))
  {
    hide Next, DebounceTrue;
    if i > 0 {
      DebounceThroughout(s, ps, i - 1);
      var r, p := RecordAt(s, ps, i - 1), ps[i - 1];
      if Looks(p) && !r.flap.contested {
        LookDebounces(s, r, Streak(s, ps, i - 1), LastRaw(ps, i - 1), p);
      } else {
        OtherPollDebounces(s, r, Streak(s, ps, i - 1), LastRaw(ps, i - 1), p);
      }
    } else {
      SeededDebounces(s);
    }
  }

  lemma SeededDebounces(s: Setup)
    ensures DebounceTrue(s, SEEDED, [], None)
  {
  }

  lemma OtherPollDebounces(s: Setup, r: Record, sights: seq<Sight>, last: Option<Code>, p: Poll)
    requires DebounceTrue(s, r, sights, last) && (r.flap.contested || !Looks(p))
    ensures DebounceTrue(s, Next(s, r, p).0, if p.Write? || Looks(p) then [] else sights,
                         if p.Read? || p.Write? then Some(p.code) else last)
  {
    hide Trim;
  }

  lemma ContestedReadIdles(s: Setup, r: Record, p: Poll)
    requires r.flap.contested && p.Read? && r.pending == IDLE
    ensures var (n, o) := Next(s, r, p);
            !n.owned && n.pending == IDLE && !Commits(o) && (n.flap.contested <==> !o.settled) &&
              n.lastCode == Some(p.code)
  {
  }

  /** Over every history: an uncontested read or mismatch commits a verdict exactly if it completes
      max(k, 1) agreeing sights in a row against the verdict, counted since the last commit, settling
      or verified write.  Shorter, mixed and broken runs never do. */
  lemma FlipsExactlyWhenConfirmed(s: Setup, ps: seq<Poll>, i: nat)
    requires i < |ps| && Looks(ps[i]) && !RecordAt(s, ps, i).flap.contested
    ensures Commits(OutcomeAt(s, ps, i)) <==>
              Agreeing(RecordAt(s, ps, i).owned, Streak(s, ps, i) + [Seen(s, LastRaw(ps, i), ps[i])], Needed(s))
    ensures LongestAgreeing(RecordAt(s, ps, i).owned, Streak(s, ps, i), RecordAt(s, ps, i).pending.count)
  {
    hide Next;
    DebounceThroughout(s, ps, i);
    LookDebounces(s, RecordAt(s, ps, i), Streak(s, ps, i), LastRaw(ps, i), ps[i]);
  }

  // ── Flap limiter ────────────────────────────────────────────────────────

  /** Instants of the input-read commits since the last settling or verified write. */
  function CommitTimes(s: Setup, ps: seq<Poll>, i: nat): seq<Instant>
    requires i <= |ps|
  {
    if i == 0 then []
    else match ps[i - 1]
      case Read(_, _, now) =>
        if OutcomeAt(s, ps, i - 1).settled then []
        else if Commits(OutcomeAt(s, ps, i - 1)) then CommitTimes(s, ps, i - 1) + [now]
        else CommitTimes(s, ps, i - 1)
      case Write(_) => []
      case _ => CommitTimes(s, ps, i - 1)
  }

  predicate Sorted(ts: seq<Instant>) { forall i, j :: 0 <= i < j < |ts| ==> ts[i] <= ts[j] }

  predicate AllOlder(ts: seq<Instant>, window: Duration, now: Instant) {
    forall i :: 0 <= i < |ts| ==> now - ts[i] > window
  }

  predicate AllRecent(ts: seq<Instant>, window: Duration, now: Instant) {
    forall i :: 0 <= i < |ts| ==> now - ts[i] <= window
  }

  /** `ts` is `past` followed by `recent`, the instants within the window of `now`. */
  predicate Windowed(past: seq<Instant>, recent: seq<Instant>, ts: seq<Instant>, window: Duration, now: Instant) {
    ts == past + recent && AllOlder(past, window, now) && AllRecent(recent, window, now)
  }

  function Latest(ts: seq<Instant>): Instant
    requires ts != []
  {
    ts[|ts| - 1]
  }

  /** `recent` is the end of `ts`, and holds exactly the instants within the window of the
      latest one. */
  ghost predicate WithinWindow(recent: seq<Instant>, ts: seq<Instant>, window: Duration) {
    if ts == [] then recent == [] else exists past :: Windowed(past, recent, ts, window, Latest(ts))
  }

  /** Popping from the front splits a sorted list at the window. */
  lemma {:induction false} TrimSplits(ts: seq<Instant>, window: Duration, now: Instant) returns (older: seq<Instant>)
    requires Sorted(ts) && forall i :: 0 <= i < |ts| ==> ts[i] <= now
    ensures Windowed(older, Trim(ts, window, now), ts, window, now)
    decreases |ts|
  {
    hide Sorted, Windowed;
    if ts != [] && Since(now, ts[0]) > window {
      SortedDrops(ts);
      older := TrimSplits(ts[1..], window, now);
      OnePopped(ts, older, Trim(ts[1..], window, now), window, now);
      older := [ts[0]] + older;
    } else {
      NonePopped(ts, window, now);
      older := [];
    }
  }

  lemma SortedDrops(ts: seq<Instant>)
    requires Sorted(ts) && ts != []
    ensures Sorted(ts[1..])
  {
  }

  lemma OnePopped(ts: seq<Instant>, older: seq<Instant>, kept: seq<Instant>, window: Duration, now: Instant)
    requires ts != [] && Since(now, ts[0]) > window && Windowed(older, kept, ts[1..], window, now)
    ensures Windowed([ts[0]] + older, kept, ts, window, now)
  {
    assert ts == [ts[0]] + ts[1..];
  }

  lemma NonePopped(ts: seq<Instant>, window: Duration, now: Instant)
    requires Sorted(ts) && (ts != [] ==> Since(now, ts[0]) <= window)
    ensures Windowed([], ts, ts, window, now)
  {
    forall i | 0 <= i < |ts| ensures now - ts[i] <= window {
      assert ts[0] <= ts[i];
    }
  }

  lemma SortedAppend(ts: seq<Instant>, now: Instant)
    requires Sorted(ts) && (ts != [] ==> ts[|ts| - 1] <= now)
    ensures Sorted(ts + [now])
  {
  }

  lemma SortedTail(past: seq<Instant>, recent: seq<Instant>, now: Instant)
    requires Sorted(past + recent) && (past + recent != [] ==> (past + recent)[|past + recent| - 1] <= now)
    ensures Sorted(recent + [now]) && forall i :: 0 <= i < |recent + [now]| ==> (recent + [now])[i] <= now
  {
    forall i, j | 0 <= i < j < |recent| ensures recent[i] <= recent[j] {
      assert (past + recent)[|past| + i] == recent[i] && (past + recent)[|past| + j] == recent[j];
    }
    forall i | 0 <= i < |recent| ensures recent[i] <= now {
      assert (past + recent)[|past| + i] == recent[i];
    }
  }

  lemma OlderStaysOlder(a: seq<Instant>, b: seq<Instant>, window: Duration, before: Instant, now: Instant)
    requires (a != [] ==> AllOlder(a, window, before) && before <= now) && AllOlder(b, window, now)
    ensures AllOlder(a + b, window, now)
  {
  }

  lemma WindowAdvances(recent: seq<Instant>, ts: seq<Instant>, window: Duration, now: Instant)
    requires Sorted(ts) && WithinWindow(recent, ts, window) && (ts != [] ==> ts[|ts| - 1] <= now)
    ensures Sorted(ts + [now]) && WithinWindow(Trim(recent + [now], window, now), ts + [now], window)
  {
    hide Trim, Sorted, AllOlder, AllRecent;
    SortedAppend(ts, now);
    var past := [];
    if ts != [] {
      past :| Windowed(past, recent, ts, window, Latest(ts));
    }
    assert ts == past + recent;
    SortedTail(past, recent, now);
    var older := TrimSplits(recent + [now], window, now);
    var t := Trim(recent + [now], window, now);
    OlderStaysOlder(past, older, window, if ts == [] then now else ts[|ts| - 1], now);
    Regroup(past, recent, now, older, t);
    assert Windowed(past + older, t, ts + [now], window, Latest(ts + [now]));
  }

  lemma Regroup(past: seq<Instant>, recent: seq<Instant>, now: Instant, older: seq<Instant>, t: seq<Instant>)
    requires recent + [now] == older + t
    ensures past + recent + [now] == past + older + t
  {
    assert past + recent + [now] == past + (recent + [now]);
    assert past + older + t == past + (older + t);
  }

  /** Instants of reads never decrease. */
  predicate ClockRuns(ps: seq<Poll>) {
    forall i, j :: 0 <= i < j < |ps| && ps[i].Read? && ps[j].Read? ==> ps[i].now <= ps[j].now
  }

  ghost predicate FlapTrue(s: Setup, r: Record, times: seq<Instant>) {
    && Sorted(times) && WithinWindow(r.flap.transitions, times, s.policy.window)
    && (r.flap.contested ==> !r.owned && r.flap.lastRawChange.Some?)
  }

  /** What a poll does to the flap state, whatever the history. */
  lemma FlapShape(s: Setup, r: Record, p: Poll)
    ensures var (n, o) := Next(s, r, p);
            && (p.Write? || o.settled ==> n.flap == CALM)
            && (p.Read? && Commits(o) ==>
                  && n.flap.transitions == Trim(r.flap.transitions + [p.now], s.policy.window, p.now)
                  && (n.flap.contested ==> !n.owned && n.flap.lastRawChange.Some?)
                  && (o.enteredContested <==> CountU32(|n.flap.transitions|) >= AtLeast(s.policy.threshold, 2)))
            && (!p.Write? && !o.settled && !(p.Read? && Commits(o)) ==>
                  n.flap.transitions == r.flap.transitions && n.flap.contested == r.flap.contested)
            && (o.enteredContested ==> p.Read? && !r.flap.contested)
            && (o.settled ==> p.Read? && r.flap.contested && !Commits(o))
  {
    hide Trim;
  }

  lemma FlapHolds(s: Setup, r: Record, p: Poll)
    requires r.flap.contested && !r.owned && r.flap.lastRawChange.Some?
    ensures var n := Next(s, r, p).0; n.flap.contested ==> !n.owned && n.flap.lastRawChange.Some?
  {
  }

  lemma PollFlaps(s: Setup, r: Record, times: seq<Instant>, p: Poll)
    requires FlapTrue(s, r, times) && (p.Read? && times != [] ==> times[|times| - 1] <= p.now)
    ensures var (n, o) := Next(s, r, p);
            && FlapTrue(s, n, if p.Write? || o.settled then []
                              else if p.Read? && Commits(o) then times + [p.now] else times)
            && (p.Read? && Commits(o) ==>
                  (o.enteredContested <==> |n.flap.transitions| >= AtLeast(s.policy.threshold, 2)))
            && (o.enteredContested ==> p.Read? && !r.flap.contested)
            && (o.settled ==> p.Read? && r.flap.contested)
  {
    hide Next, Trim, WithinWindow, Sorted;
    FlapShape(s, r, p);
    EmptyWindow(s.policy.window);
    if r.flap.contested {
      FlapHolds(s, r, p);
    }
    if p.Read? {
      WindowAdvances(r.flap.transitions, times, s.policy.window, p.now);
    }
  }

  lemma {:induction false} LastCommitBefore(s: Setup, ps: seq<Poll>, i: nat, j: nat)
    requires i <= j < |ps| && ps[j].Read? && ClockRuns(ps)
    ensures forall k :: 0 <= k < |CommitTimes(s, ps, i)| ==> CommitTimes(s, ps, i)[k] <= ps[j].now
  {
    hide Next;
    if i > 0 {
      LastCommitBefore(s, ps, i - 1, j);
    }
  }

  /** Over every history with a clock that never decreases: the transition deque holds exactly
      the commits since the last clear lying in the window of the latest, a commit enters the
      contested state exactly when that count reaches max(threshold, 2), and contested implies
      not owned. */
  lemma {:induction false} LimiterCountsTheWindow(s: Setup, ps: seq<Poll>, i: nat)
    requires i <= |ps| && ClockRuns(ps)
    ensures FlapTrue(s, RecordAt(s, ps, i), CommitTimes(s, ps, i))
    ensures i < |ps| && ps[i].Read? && Commits(OutcomeAt(s, ps, i)) ==>
              var recent := RecordAt(s, ps, i + 1).flap.transitions;
              && WithinWindow(recent, CommitTimes(s, ps, i) + [ps[i].now], s.policy.window)
              && (OutcomeAt(s, ps, i).enteredContested <==> |recent| >= AtLeast(s.policy.threshold, 2))
  {
    hide Next, WithinWindow, ClockRuns;
    if i > 0 {
      LimiterCountsTheWindow(s, ps, i - 1);
      CommitInOrder(s, ps, i - 1);
      PollFlaps(s, RecordAt(s, ps, i - 1), CommitTimes(s, ps, i - 1), ps[i - 1]);
    } else {
      assert FlapTrue(s, SEEDED, []) by { EmptyWindow(s.policy.window); }
    }
    if i < |ps| {
      CommitInOrder(s, ps, i);
      PollFlaps(s, RecordAt(s, ps, i), CommitTimes(s, ps, i), ps[i]);
      SettledNeverCommits(s, RecordAt(s, ps, i), ps[i]);
    }
  }

  lemma SettledNeverCommits(s: Setup, r: Record, p: Poll)
    ensures var o := Next(s, r, p).1; o.settled ==> !Commits(o)
  {
  }

  lemma EmptyWindow(window: Duration)
    ensures WithinWindow([], [], window) && Sorted([])
  {
  }

  lemma CommitInOrder(s: Setup, ps: seq<Poll>, i: nat)
    requires i < |ps| && ClockRuns(ps)
    ensures var ts := CommitTimes(s, ps, i); ps[i].Read? && ts != [] ==> ts[|ts| - 1] <= ps[i].now
  {
    hide CommitTimes, ClockRuns;
    if ps[i].Read? {
      LastCommitBefore(s, ps, i, i);
    }
  }

  // ── The contested hold ──────────────────────────────────────────────────

  lemma ContestedReadSettles(s: Setup, r: Record, p: Poll)
    requires r.flap.contested && r.flap.lastRawChange.Some? && p.Read?
    ensures var (n, o) := Next(s, r, p);
            && (o.settled <==>
                  (s.policy.settle == 0 ||
                   (r.lastCode == Some(p.code) && Since(p.now, r.flap.lastRawChange.value) >= s.policy.settle)))
            && (n.flap.contested <==> !o.settled) && n.lastCode == Some(p.code)
            && (!o.settled ==>
                  n.flap.lastRawChange == if r.lastCode == Some(p.code) then r.flap.lastRawChange else Some(p.now))
  {
  }

  /** The record has been contested since poll `h`, and every read from `h` to `i` carries one code. */
  ghost predicate HeldSince(s: Setup, ps: seq<Poll>, h: nat, i: nat) {
    && h <= i < |ps| && ps[h].Read? && ps[i].Read?
    && (forall j :: h < j <= i ==> RecordAt(s, ps, j).flap.contested)
    && (forall j :: h <= j <= i && ps[j].Read? ==> ps[j].code == ps[h].code)
  }

  /** At read `i` the raw code has stood for the settle interval. */
  ghost predicate QuietAt(s: Setup, ps: seq<Poll>, i: nat)
    requires i < |ps| && ps[i].Read?
  {
    exists h: nat :: HeldSince(s, ps, h, i) && Since(ps[i].now, ps[h].now) >= s.policy.settle
  }

  /** The poll a contested record's unchanged code dates from: the entering commit or the last
      read that changed it. */
  function QuietFrom(s: Setup, ps: seq<Poll>, i: nat): nat
    requires 0 < i <= |ps| && RecordAt(s, ps, i).flap.contested
    decreases i
  {
    var r := RecordAt(s, ps, i - 1);
    if !r.flap.contested || (ps[i - 1].Read? && r.lastCode != Some(ps[i - 1].code)) then i - 1
    else QuietFrom(s, ps, i - 1)
  }

  lemma QuietPollKeeps(s: Setup, r: Record, p: Poll)
    requires r.flap.contested && !p.Read? && Next(s, r, p).0.flap.contested
    ensures var n := Next(s, r, p).0; n.flap == r.flap && n.lastCode == r.lastCode
  {
  }

  lemma EntryDates(s: Setup, r: Record, p: Poll)
    requires !r.flap.contested && Next(s, r, p).0.flap.contested
    ensures var n := Next(s, r, p).0; p.Read? && n.flap.lastRawChange == Some(p.now) && n.lastCode == Some(p.code)
  {
    hide Trim;
  }

  ghost predicate DatesFrom(s: Setup, ps: seq<Poll>, q: nat, i: nat)
    requires i <= |ps|
  {
    && q < i && ps[q].Read?
    && RecordAt(s, ps, i).flap.lastRawChange == Some(ps[q].now) && RecordAt(s, ps, i).lastCode == Some(ps[q].code)
    && (forall j :: q < j <= i ==> RecordAt(s, ps, j).flap.contested)
    && (forall j :: q <= j < i && ps[j].Read? ==> ps[j].code == ps[q].code)
  }

  /** The record's own date of the last change, read off the history. */
  lemma {:induction false} LastChangeDates(s: Setup, ps: seq<Poll>, i: nat)
    requires 0 < i <= |ps| && RecordAt(s, ps, i).flap.contested
    ensures DatesFrom(s, ps, QuietFrom(s, ps, i), i)
    decreases i
  {
    hide Next;
    var r, p := RecordAt(s, ps, i - 1), ps[i - 1];
    if !r.flap.contested {
      EntryDates(s, r, p);
    } else {
      LastChangeDates(s, ps, i - 1);
      if p.Read? {
        ContestedReadSettles(s, r, p);
      } else {
        QuietPollKeeps(s, r, p);
      }
    }
  }

  /** No read before it belongs to the unchanged stretch. */
  lemma {:induction false} NothingEarlier(s: Setup, ps: seq<Poll>, i: nat, h: nat)
    requires 0 < i <= |ps| && RecordAt(s, ps, i).flap.contested && h < i && ps[h].Read?
    requires forall j :: h < j <= i ==> RecordAt(s, ps, j).flap.contested
    requires forall j :: h <= j < i && ps[j].Read? ==> ps[j].code == ps[h].code
    ensures QuietFrom(s, ps, i) <= h
    decreases i
  {
    hide Next;
    if h < i - 1 {
      NothingEarlier(s, ps, i - 1, h);
      LastChangeDates(s, ps, i - 1);
    } else {
      LastChangeDates(s, ps, i);
    }
  }

  /** A settling read is a quiet one. */
  lemma SettledIsQuiet(s: Setup, ps: seq<Poll>, i: nat)
    requires i < |ps| && ps[i].Read? && RecordAt(s, ps, i).flap.contested && OutcomeAt(s, ps, i).settled
    ensures QuietAt(s, ps, i)
  {
    hide Next, QuietFrom;
    LastChangeDates(s, ps, i);
    ContestedReadSettles(s, RecordAt(s, ps, i), ps[i]);
    if s.policy.settle == 0 {
      assert HeldSince(s, ps, i, i);
    } else {
      assert HeldSince(s, ps, QuietFrom(s, ps, i), i);
    }
  }

  /** Over every history with a clock that never decreases: a contested record settles at a read if
      and only if the raw code has stood for the settle interval - some read since which the record
      has been contested and every read carries the same code lies that far back. */
  lemma SettlesExactlyWhenQuiet(s: Setup, ps: seq<Poll>, i: nat)
    requires i < |ps| && ps[i].Read? && RecordAt(s, ps, i).flap.contested && ClockRuns(ps)
    ensures OutcomeAt(s, ps, i).settled <==> QuietAt(s, ps, i)
    ensures RecordAt(s, ps, i + 1).flap.contested <==> !OutcomeAt(s, ps, i).settled
  {
    hide Next, QuietFrom;
    LastChangeDates(s, ps, i);
    ContestedReadSettles(s, RecordAt(s, ps, i), ps[i]);
    if OutcomeAt(s, ps, i).settled {
      SettledIsQuiet(s, ps, i);
    } else if QuietAt(s, ps, i) {
      var h: nat :| HeldSince(s, ps, h, i) && Since(ps[i].now, ps[h].now) >= s.policy.settle;
      if h < i {
        NothingEarlier(s, ps, i, h);
      }
    }
  }

  /** What the polls in `ps[i..j]` show. */
  function SeenIn(s: Setup, ps: seq<Poll>, i: nat, j: nat): seq<Sight>
    requires i <= j <= |ps|
  {
    if i == j then []
    else SeenIn(s, ps, i, j - 1) + if Looks(ps[j - 1]) then [Seen(s, LastRaw(ps, j - 1), ps[j - 1])] else []
  }

  /** Ownership was regained at read `j`, after a contested record's code had stood for the settle
      interval at read `i`. */
  ghost predicate RegainedAt(s: Setup, ps: seq<Poll>, i: nat, j: nat, from: nat) {
    && from <= i < j < |ps| && ps[i].Read? && ps[j].Read?
    && RecordAt(s, ps, i).flap.contested && !RecordAt(s, ps, i + 1).flap.contested && QuietAt(s, ps, i)
    && Agreeing(false, SeenIn(s, ps, i + 1, j + 1), Needed(s))
  }

  /** Settled at read `i`, and nothing committed since. */
  ghost predicate SettledSince(s: Setup, ps: seq<Poll>, i: nat, n: nat, from: nat) {
    && from <= i < n <= |ps| && ps[i].Read?
    && RecordAt(s, ps, i).flap.contested && OutcomeAt(s, ps, i).settled
    && !RecordAt(s, ps, n).flap.contested && !RecordAt(s, ps, n).owned
    && Streak(s, ps, n) == SeenIn(s, ps, i + 1, n)
  }

  lemma {:induction false} WayBack(s: Setup, ps: seq<Poll>, from: nat, n: nat)
    requires from <= n <= |ps| && RecordAt(s, ps, from).flap.contested
    requires forall j :: from <= j < |ps| ==> !ps[j].Write?
    ensures || RecordAt(s, ps, n).flap.contested
            || (exists i: nat :: SettledSince(s, ps, i, n, from))
            || (exists i: nat, j: nat :: RegainedAt(s, ps, i, j, from) && j < n)
    decreases n
  {
    hide Next, Streak, SeenIn, Agreeing, QuietAt;
    if n > from {
      WayBack(s, ps, from, n - 1);
      var r := RecordAt(s, ps, n - 1);
      var p := ps[n - 1];
      DebounceThroughout(s, ps, n - 1);
      if r.flap.contested {
        if p.Read? {
          ContestedReadIdles(s, r, p);
          if !RecordAt(s, ps, n).flap.contested {
            JustSettled(s, ps, n, from);
          }
        } else {
          IdlePollKeeps(s, r, p);
        }
      } else {
        var q := n - 1;
        if exists i: nat :: SettledSince(s, ps, i, q, from) {
          var i: nat :| SettledSince(s, ps, i, q, from);
          StepSinceSettled(s, ps, i, n, from);
        }
      }
    }
  }

  /** A failed read, and a mismatch while contested, leave verdict and flap state alone. */
  lemma IdlePollKeeps(s: Setup, r: Record, p: Poll)
    requires p.Failed? || (p.Mismatch? && r.flap.contested)
    ensures var (n, o) := Next(s, r, p); o == NOTHING && n.flap == r.flap && n.owned == r.owned
  {
  }

  lemma JustSettled(s: Setup, ps: seq<Poll>, n: nat, from: nat)
    requires from < n <= |ps| && ps[n - 1].Read? && RecordAt(s, ps, n - 1).flap.contested
    requires OutcomeAt(s, ps, n - 1).settled && !RecordAt(s, ps, n).flap.contested && !RecordAt(s, ps, n).owned
    ensures SettledSince(s, ps, n - 1, n, from)
  {
    hide Next;
  }

  lemma SettledEnds(s: Setup, ps: seq<Poll>, i: nat)
    requires i < |ps| && ps[i].Read? && RecordAt(s, ps, i).flap.contested && OutcomeAt(s, ps, i).settled
    ensures !RecordAt(s, ps, i + 1).flap.contested
  {
    hide Next, QuietFrom;
    LastChangeDates(s, ps, i);
    ContestedReadSettles(s, RecordAt(s, ps, i), ps[i]);
  }

  /** Mismatches show foreign codes, so only a read completes a gain. */
  lemma GainsAreReads(s: Setup, sights: seq<Sight>, last: Option<Code>, p: Poll)
    requires Looks(p) && Agreeing(false, sights + [Seen(s, last, p)], Needed(s))
    ensures p.Read?
  {
    assert (sights + [Seen(s, last, p)])[|sights|] == Seen(s, last, p);
  }

  lemma StepSinceSettled(s: Setup, ps: seq<Poll>, i: nat, n: nat, from: nat)
    requires from < n <= |ps| && SettledSince(s, ps, i, n - 1, from) && !ps[n - 1].Write?
    requires DebounceTrue(s, RecordAt(s, ps, n - 1), Streak(s, ps, n - 1), LastRaw(ps, n - 1))
    ensures SettledSince(s, ps, i, n, from) || RegainedAt(s, ps, i, n - 1, from)
  {
    hide Next, Agreeing, DebounceTrue, QuietAt, LastRaw;
    SettledIsQuiet(s, ps, i);
    SettledEnds(s, ps, i);
    var r, p := RecordAt(s, ps, n - 1), ps[n - 1];
    if Looks(p) {
      LookDebounces(s, r, Streak(s, ps, n - 1), LastRaw(ps, n - 1), p);
      FlapKeepsDebounce(s, r, p);
      if Commits(OutcomeAt(s, ps, n - 1)) {
        GainsAreReads(s, Streak(s, ps, n - 1), LastRaw(ps, n - 1), p);
      }
    } else {
      IdlePollKeeps(s, r, p);
    }
  }

  /** From any contested record of any history, polling alone - reads, mismatches and failures -
      regains ownership only through a read at which the raw code has stood for the settle interval
      and then max(k, 1) identical local reads in a row after it, that one not counted. */
  lemma RegainsOnlyAfterSettling(s: Setup, ps: seq<Poll>, from: nat, n: nat)
    requires from <= n <= |ps| && RecordAt(s, ps, from).flap.contested && RecordAt(s, ps, n).owned
    requires forall j :: from <= j < |ps| ==> !ps[j].Write?
    ensures exists i: nat, j: nat :: RegainedAt(s, ps, i, j, from) && j < n
  {
    hide Next, Streak, Agreeing, QuietAt, SeenIn;
    WayBack(s, ps, from, n);
    DebounceThroughout(s, ps, n);
    OwnedIsUncontested(s, RecordAt(s, ps, n), Streak(s, ps, n), LastRaw(ps, n));
  }

  lemma OwnedIsUncontested(s: Setup, r: Record, sights: seq<Sight>, last: Option<Code>)
    requires DebounceTrue(s, r, sights, last) && r.owned
    ensures !r.flap.contested
  {
  }

  // ── The outcome stream ──────────────────────────────────────────────────

  /** Ownership as a listener reconstructs it: committed transitions and verified writes. */
  function Replay(s: Setup, ps: seq<Poll>, i: nat): bool
    requires i <= |ps|
  {
    if i == 0 then SEEDED.owned
    else if ps[i - 1].Write? then true
    else match OutcomeAt(s, ps, i - 1).committedPriorOwned
      case Some(prior) => !prior
      case None => Replay(s, ps, i - 1)
  }

  lemma OutcomeTellsTruth(s: Setup, r: Record, p: Poll)
    requires r.flap.contested ==> !r.owned
    ensures var (n, o) := Next(s, r, p);
            && (n.flap.contested ==> !n.owned)
            && (o.committedPriorOwned.Some? ==> o.committedPriorOwned == Some(r.owned) && n.owned == !r.owned)
            && (o.committedPriorOwned.None? && !p.Write? ==> n.owned == r.owned)
            && (p.Write? ==> n.owned)
  {
  }

  /** Replaying the outcomes reconstructs ownership exactly, over every history, including
      gains the flap limiter cancels. */
  lemma {:induction false} OutcomesReplayOwnership(s: Setup, ps: seq<Poll>, i: nat)
    requires i <= |ps|
    ensures Replay(s, ps, i) == RecordAt(s, ps, i).owned
    ensures RecordAt(s, ps, i).flap.contested ==> !RecordAt(s, ps, i).owned
  {
    hide Next;
    if i > 0 {
      OutcomesReplayOwnership(s, ps, i - 1);
      OutcomeTellsTruth(s, RecordAt(s, ps, i - 1), ps[i - 1]);
    }
  }

  // ── Observed returns ────────────────────────────────────────────────────

  /** The kinds of reading since the last commit, contested read, verified write or reported
      return; a connector mismatch reads as unknown. */
  function Glances(s: Setup, ps: seq<Poll>, i: nat): seq<Kind>
    requires i <= |ps|
  {
    if i == 0 then []
    else
      var o := OutcomeAt(s, ps, i - 1);
      match ps[i - 1]
      case Write(_) => []
      case Failed => Glances(s, ps, i - 1)
      case Read(code, _, _) =>
        if RecordAt(s, ps, i - 1).flap.contested || Commits(o) || o.observedReturn then []
        else Glances(s, ps, i - 1) + [Classify(s.aliases, code)]
      case Mismatch(_) =>
        if RecordAt(s, ps, i - 1).flap.contested then Glances(s, ps, i - 1)
        else if Commits(o) || o.observedReturn then []
        else Glances(s, ps, i - 1) + [Unknown(0)]
  }

  predicate EndsLocal(kinds: seq<Kind>, n: nat) {
    n <= |kinds| && forall i :: |kinds| - n <= i < |kinds| ==> kinds[i].Local?
  }

  predicate ReturnTrue(s: Setup, r: Record, kinds: seq<Kind>) {
    && (r.peer.seen <==> r.owned && Peer in kinds)
    && (r.peer.seen ==> EndsLocal(kinds, r.peer.back) && !EndsLocal(kinds, r.peer.back + 1))
    && r.peer.back < Needed(s)
    && (!r.peer.seen ==> r.peer.back == 0)
    && (r.flap.contested ==> !r.owned)
  }

  lemma EndsLocalExtends(kinds: seq<Kind>, kind: Kind, n: nat)
    ensures EndsLocal(kinds + [kind], n + 1) <==> kind.Local? && EndsLocal(kinds, n)
  {
    var c := kinds + [kind];
    if EndsLocal(c, n + 1) {
      assert c[|kinds|].Local?;
      forall i | |kinds| - n <= i < |kinds| ensures kinds[i].Local? { assert c[i] == kinds[i]; }
    }
  }

  lemma EndsLocalDown(kinds: seq<Kind>, m: nat, n: nat)
    requires EndsLocal(kinds, m) && !EndsLocal(kinds, m + 1)
    ensures EndsLocal(kinds, n) <==> n <= m
  {
    ShorterEnds(kinds, m + 1, n);
  }

  lemma ShorterEnds(kinds: seq<Kind>, a: nat, b: nat)
    ensures a <= b && EndsLocal(kinds, b) ==> EndsLocal(kinds, a)
  {
  }

  function KindOf(s: Setup, p: Poll): Kind
    requires p.Read? || p.Mismatch?
  {
    if p.Read? then Classify(s.aliases, p.code) else Unknown(0)
  }

  /** One uncontested reading: a return is reported exactly when it completes max(k, 1) local
      readings in a row after an uncommitted peer sighting. */
  lemma ReadingReturns(s: Setup, r: Record, kinds: seq<Kind>, p: Poll)
    requires (p.Read? || p.Mismatch?) && !r.flap.contested && ReturnTrue(s, r, kinds)
    ensures var (n, o) := Next(s, r, p);
            && (o.observedReturn <==>
                  r.owned && Peer in kinds && EndsLocal(kinds + [KindOf(s, p)], Needed(s)))
            && ReturnTrue(s, n, if Commits(o) || o.observedReturn then [] else kinds + [KindOf(s, p)])
  {
    var kind := KindOf(s, p);
    var c := kinds + [kind];
    assert Peer in c <==> Peer in kinds || kind.Peer?;
    EndsLocalExtends(kinds, kind, r.peer.back);
    EndsLocalExtends(kinds, kind, r.peer.back + 1);
    EndsLocalExtends(kinds, kind, Needed(s) - 1);
    EndsLocalExtends(kinds, kind, 0);
    if r.peer.seen {
      EndsLocalDown(kinds, r.peer.back, Needed(s) - 1);
    }
  }

  lemma QuietPollReturns(s: Setup, r: Record, kinds: seq<Kind>, p: Poll)
    requires ReturnTrue(s, r, kinds) && (r.flap.contested || p.Failed? || p.Write?)
    ensures var (n, o) := Next(s, r, p);
            !o.observedReturn && ReturnTrue(s, n, if p.Write? || (p.Read? && r.flap.contested) then [] else kinds)
  {
  }

  /** Over every history: a return is reported exactly when an uncommitted peer sighting, while
      owned, is followed by max(k, 1) consecutive local readings; the report consumes the
      sighting, so it comes at most once for each. */
  lemma {:induction false} ReturnsExactlyAfterSighting(s: Setup, ps: seq<Poll>, i: nat)
    requires i <= |ps|
    ensures ReturnTrue(s, RecordAt(s, ps, i), Glances(s, ps, i))
    ensures i < |ps| ==>
              var r := RecordAt(s, ps, i);
              OutcomeAt(s, ps, i).observedReturn <==>
                (ps[i].Read? || ps[i].Mismatch?) && !r.flap.contested && r.owned && Peer in Glances(s, ps, i)
                && EndsLocal(Glances(s, ps, i) + [KindOf(s, ps[i])], Needed(s))
  {
    hide Next, ReturnTrue, EndsLocal;
    if i > 0 {
      ReturnsExactlyAfterSighting(s, ps, i - 1);
      ReturnStep(s, RecordAt(s, ps, i - 1), Glances(s, ps, i - 1), ps[i - 1]);
    } else {
      SeededReturn(s);
    }
    if i < |ps| {
      ReturnStep(s, RecordAt(s, ps, i), Glances(s, ps, i), ps[i]);
    }
  }

  lemma ReturnStep(s: Setup, r: Record, kinds: seq<Kind>, p: Poll)
    requires ReturnTrue(s, r, kinds)
    ensures var (n, o) := Next(s, r, p);
            var reading := (p.Read? || p.Mismatch?) && !r.flap.contested;
            && ReturnTrue(s, n, if p.Write? || (p.Read? && r.flap.contested) then []
                                else if !reading then kinds
                                else if Commits(o) || o.observedReturn then [] else kinds + [KindOf(s, p)])
            && (o.observedReturn <==>
                 reading && r.owned && Peer in kinds && EndsLocal(kinds + [KindOf(s, p)], Needed(s)))
  {
    hide Next, ReturnTrue, EndsLocal;
    if (p.Read? || p.Mismatch?) && !r.flap.contested {
      ReadingReturns(s, r, kinds, p);
    } else {
      QuietPollReturns(s, r, kinds, p);
    }
  }

  lemma SeededReturn(s: Setup)
    ensures ReturnTrue(s, SEEDED, [])
  {
  }
}
