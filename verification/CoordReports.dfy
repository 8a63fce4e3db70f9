/** What a poll reports and what the record remembers of it, against the history: the telemetry of
    the last reads, and each signal of the outcome exactly when its reason holds. */
module CoordReports {
  import opened DisplayTypes
  import opened CoordSpec
  import opened CoordHistory
  import Codes = CoordCodes

  // ── Telemetry ───────────────────────────────────────────────────────────

  predicate LastRead(ps: seq<Poll>, k: nat, i: nat) {
    k < i <= |ps| && ps[k].Read? && forall j :: k < j < i ==> !ps[j].Read?
  }

  /** Failures since the last read or verified write. */
  function FailuresBefore(ps: seq<Poll>, i: nat): nat
    requires i <= |ps|
  {
    if i == 0 || ps[i - 1].Read? || ps[i - 1].Write? then 0
    else FailuresBefore(ps, i - 1) + if ps[i - 1].Failed? then 1 else 0
  }

  lemma TelemetryStep(s: Setup, r: Record, p: Poll)
    ensures var t := Next(s, r, p).0.telemetry;
            match p
            case Read(code, panel, _) => t == Telemetry(true, Some(code), panel, 0)
            case Failed => t == r.telemetry.(failures := SatInc(r.telemetry.failures))
            case Write(_) => t == r.telemetry.(failures := 0)
            case Mismatch(_) => t == r.telemetry
  {
    hide Trim;
  }

  ghost predicate ReadsTold(s: Setup, ps: seq<Poll>, i: nat)
    requires i <= |ps|
  {
    var t := RecordAt(s, ps, i).telemetry;
    && (t.everRead <==> exists k: nat :: LastRead(ps, k, i))
    && (!t.everRead ==> t.inputCode.None? && t.panel.None?)
    && (forall k: nat :: LastRead(ps, k, i) ==> t.inputCode == Some(ps[k].code) && t.panel == ps[k].panel)
  }

  /** Over every history: the telemetry is that of the last read, and counts the failures since the
      last read or verified write. */
  lemma {:induction false} TelemetryIsTheLastRead(s: Setup, ps: seq<Poll>, i: nat)
    requires i <= |ps|
    ensures ReadsTold(s, ps, i)
    ensures RecordAt(s, ps, i).telemetry.failures == CountU32(FailuresBefore(ps, i))
  {
    hide Next;
    if i > 0 {
      var q := i - 1;
      TelemetryIsTheLastRead(s, ps, q);
      TelemetryStep(s, RecordAt(s, ps, q), ps[q]);
      if ps[q].Read? {
        assert LastRead(ps, q, i);
        assert forall k: nat :: LastRead(ps, k, i) ==> k == q;
      } else {
        assert forall k: nat :: LastRead(ps, k, i) <==> LastRead(ps, k, q);
      }
    }
  }

  // ── Signals ─────────────────────────────────────────────────────────────

  /** The raw code a read contradicts, if it does. */
  function Contradicts(last: Option<Code>, p: Poll): Option<Code> {
    if p.Read? && last.Some? && last.value != p.code then last else None
  }

  /** A look that shows a foreign code. */
  predicate ShowsForeign(a: Aliases, p: Poll) { p.Mismatch? || (p.Read? && !Codes.Own(a, p.code)) }

  lemma SignalsOfOne(s: Setup, r: Record, p: Poll)
    ensures var (n, o) := Next(s, r, p);
            && o.disagreementWith == (if r.flap.contested then None else Contradicts(r.lastCode, p))
            && o.contestedReadbackChanged == (if r.flap.contested then Contradicts(r.lastCode, p) else None)
            && o.deferredLoss == (if r.owned && !r.flap.contested && ShowsForeign(s.aliases, p) && !Commits(o)
                                  then Some(n.pending.count) else None)
            && o.deferredGain == (if !r.owned && !r.flap.contested && p.Read? && Codes.Own(s.aliases, p.code)
                                     && !Commits(o) then Some(n.pending.count) else None)
            && (o.committedPriorOwned.Some? ==> o.committedPriorOwned == Some(r.owned))
  {
    hide Trim;
  }

  /** Over every history: a read is reported to disagree exactly if it differs from the raw code before
      it, as a changed readback if the record is contested; and a flip is reported deferred exactly if
      the look speaks against the verdict without completing it, with the looks counted so far. */
  lemma SignalsExactly(s: Setup, ps: seq<Poll>, i: nat)
    requires i < |ps|
    ensures var (r, o) := (RecordAt(s, ps, i), OutcomeAt(s, ps, i));
            var count := RecordAt(s, ps, i + 1).pending.count;
            && o.disagreementWith == (if r.flap.contested then None else Contradicts(LastRaw(ps, i), ps[i]))
            && o.contestedReadbackChanged == (if r.flap.contested then Contradicts(LastRaw(ps, i), ps[i]) else None)
            && (o.deferredLoss == Some(count) <==>
                  r.owned && !r.flap.contested && ShowsForeign(s.aliases, ps[i]) && !Commits(o))
            && (o.deferredGain == Some(count) <==>
                  !r.owned && !r.flap.contested && ps[i].Read? && Codes.Own(s.aliases, ps[i].code) && !Commits(o))
  {
    hide Next, DebounceTrue;
    DebounceThroughout(s, ps, i);
    RawIsLast(s, RecordAt(s, ps, i), Streak(s, ps, i), LastRaw(ps, i));
    SignalsOfOne(s, RecordAt(s, ps, i), ps[i]);
  }

  lemma RawIsLast(s: Setup, r: Record, sights: seq<Sight>, last: Option<Code>)
    requires DebounceTrue(s, r, sights, last)
    ensures r.lastCode == last
  {
  }
}
