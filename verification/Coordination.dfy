/** The ownership cache: one mutable record per shared display, updated field by field. */
module Coordination {
  import opened DisplayTypes
  import opened CoordSpec


  class CoordRecord {
    var owned: bool
    var everRead: bool
    var inputCode: Option<Code>
    var panel: Option<PanelState>
    var failures: U32
    var pendingCount: U32
    var pendingCode: Option<Code>
    var peerSeen: bool
    var returnCount: U32
    var lastCode: Option<Code>
    var contested: bool
    var lastRawChange: Option<Instant>
    var transitions: seq<Instant>

    ghost function State(): Record
      reads this
    {
      Record(owned, lastCode, Pending(pendingCount, pendingCode), PeerWatch(peerSeen, returnCount),
             Flap(contested, lastRawChange, transitions), Telemetry(everRead, inputCode, panel, failures))
    }

    constructor ()
      ensures State() == SEEDED
    {
      owned, everRead, inputCode, panel, failures := true, false, None, None, 0;
      pendingCount, pendingCode, peerSeen, returnCount, lastCode := 0, None, false, 0, None;
      contested, lastRawChange, transitions := false, None, [];
    }

    /** Pops transitions from the front while they are older than the window. */
    method TrimTransitions(window: Duration, now: Instant)
      modifies this
      ensures State() == old(State()).(flap := old(State()).flap.(transitions := Trim(old(transitions), window, now)))
    {
      while transitions != [] && Since(now, transitions[0]) > window
        invariant State() == old(State()).(flap := old(State()).flap.(transitions := transitions))
        invariant Trim(transitions, window, now) == Trim(old(transitions), window, now)
        decreases |transitions|
      {
        transitions := transitions[1..];
      }
    }

    method EnterContested(now: Instant)
      modifies this
      ensures State() == Record(false, old(lastCode), IDLE, UNSEEN, Flap(true, Some(now), old(transitions)),
                                old(State()).telemetry)
    {
      contested := true;
      owned := false;
      lastRawChange := Some(now);
      pendingCount := 0;
      pendingCode := None;
      peerSeen := false;
      returnCount := 0;
    }

    method RecordFlapTransition(out: Outcome, policy: Policy, now: Instant, priorOwned: bool) returns (res: Outcome)
      modifies this
      ensures (State(), res) == FlapTransition(old(State()), out, policy, now, priorOwned)
    {
      transitions := transitions + [now];
      TrimTransitions(policy.window, now);
      res := out;
      if CountU32(|transitions|) >= AtLeast(policy.threshold, 2) {
        EnterContested(now);
        res := res.(enteredContested := true);
        if !priorOwned {
          res := res.(committedPriorOwned := None);
        }
      }
    }

    method RecordSuccessState(code: Code, panel: Option<PanelState>)
      modifies this
      ensures State() == Success(old(State()), code, panel)
    {
      everRead := true;
      inputCode := Some(code);
      this.panel := panel;
      failures := 0;
      lastCode := Some(code);
    }

    method RecordLocalReturn(k: U32, out: Outcome) returns (res: Outcome)
      modifies this
      ensures (State(), res) == LocalReturn(old(State()), k, out)
    {
      res := out;
      if peerSeen {
        returnCount := SatInc(returnCount);
        if returnCount >= AtLeast(k, 1) {
          res := res.(observedReturn := true);
          peerSeen := false;
          returnCount := 0;
        }
      }
    }

    method RecordDisagreement(code: Code, out: Outcome) returns (res: Outcome)
      modifies this
      ensures (State(), res) == Disagreement(old(State()), code, out)
    {
      res := out;
      if lastCode.Some? && lastCode.value != code {
        res := res.(disagreementWith := lastCode);
        pendingCount := 0;
        pendingCode := None;
      }
    }

    method RecordContestedObservation(code: Code, panel: Option<PanelState>, policy: Policy, now: Instant)
        returns (res: Outcome)
      modifies this
      ensures (State(), res) == ContestedRead(old(State()), code, panel, policy, now)
    {
      owned := false;
      var previous := lastCode;
      if lastCode != Some(code) {
        lastRawChange := Some(now);
      }
      var settled := lastRawChange.None? || Since(now, lastRawChange.value) >= policy.settle;
      res := NOTHING;
      if previous != Some(code) {
        res := res.(contestedReadbackChanged := previous);
      }
      if settled {
        contested := false;
        transitions := [];
        lastRawChange := None;
        pendingCount := 0;
        pendingCode := None;
        res := res.(settled := true);
      }
      peerSeen := false;
      returnCount := 0;
      RecordSuccessState(code, panel);
    }

    method CountCandidate(code: Code, k: U32) returns (committed: bool)
      modifies this
      ensures (State(), committed) == Candidate(old(State()), code, k)
    {
      if pendingCode == Some(code) {
        pendingCount := SatInc(pendingCount);
      } else {
        pendingCode := Some(code);
        pendingCount := 1;
      }
      committed := pendingCount >= AtLeast(k, 1);
      if committed {
        owned := !owned;
        pendingCount := 0;
        pendingCode := None;
      }
    }

    method RunDebounce(code: Code, kind: Kind, k: U32, out: Outcome) returns (res: Outcome)
      modifies this
      ensures (State(), res) == Debounce(old(State()), code, kind, k, out)
    {
      res := out;
      match (owned, kind.Local?) {
        case (false, false) =>
          pendingCount := 0;
          pendingCode := None;
        case (true, true) =>
          pendingCount := 0;
          pendingCode := None;
          res := RecordLocalReturn(k, res);
        case (false, true) =>
          var committed := CountCandidate(code, k);
          res := if committed then res.(committedPriorOwned := Some(false))
                 else res.(deferredGain := Some(pendingCount));
        case (true, false) =>
          if kind.Peer? {
            peerSeen := true;
          }
          if peerSeen {
            returnCount := 0;
          }
          var committed := CountCandidate(code, k);
          if committed {
            peerSeen := false;
            returnCount := 0;
            res := res.(committedPriorOwned := Some(true));
          } else {
            res := res.(deferredLoss := Some(pendingCount));
          }
      }
    }

    method RecordObservationAt(reading: Option<Reading>, k: U32, policy: Policy, now: Instant) returns (res: Outcome)
      modifies this
      ensures (State(), res) == Observe(old(State()), reading, k, policy, now)
    {
      res := NOTHING;
      var code: Code, kind, panel := 0, Unknown(0), None;
      if reading.Some? {
        code, kind, panel := reading.value.code, Classify(reading.value.aliases, reading.value.code),
          reading.value.panel;
      }
      if contested {
        if reading.Some? {
          res := RecordContestedObservation(code, panel, policy, now);
        }
        return;
      }
      var priorOwned := owned;
      if reading.Some? {
        res := RecordDisagreement(code, res);
      }
      res := RunDebounce(code, kind, k, res);
      if reading.Some? && res.committedPriorOwned.Some? {
        res := RecordFlapTransition(res, policy, now, priorOwned);
      }
      if reading.Some? {
        RecordSuccessState(code, panel);
      }
    }

    method RecordFailure()
      modifies this
      ensures State() == Failure(old(State()))
    {
      failures := SatInc(failures);
    }

    method MarkOwned(verifiedCode: Code)
      modifies this
      ensures State() == Verified(old(State()), verifiedCode)
    {
      owned := true;
      contested := false;
      transitions := [];
      lastRawChange := None;
      pendingCount := 0;
      pendingCode := None;
      peerSeen := false;
      returnCount := 0;
      failures := 0;
      lastCode := Some(verifiedCode);
    }
  }

  /** The daemon-lifetime cache: no two displays share a record. */
  class CoordinationHandle {
    var records: map<DisplayId, CoordRecord>

    ghost predicate Valid()
      reads this
    {
      forall d, e :: d in records && e in records && d != e ==> records[d] != records[e]
    }

    ghost function View(): map<DisplayId, Record>
      reads this, records.Values
    {
      map d | d in records :: records[d].State()
    }

    constructor (shared: seq<DisplayId>)
      ensures Valid() && fresh(records.Values)
      ensures View() == map d | d in shared :: SEEDED
    {
      records := map[];
      new;
      Insert(shared);
    }

    /** Seeds a record for every listed display that has none. */
    method Insert(shared: seq<DisplayId>)
      requires Valid()
      modifies this
      ensures Valid() && fresh(records.Values - old(records.Values))
      ensures records.Keys == old(records.Keys) + set d | d in shared
      ensures forall d :: d in old(records) ==> records[d] == old(records[d])
      ensures forall d :: d in records && d !in old(records) ==> fresh(records[d]) && records[d].State() == SEEDED
    {
      for i := 0 to |shared|
        invariant Valid() && fresh(records.Values - old(records.Values))
        invariant forall d :: d in old(records) ==> d in records && records[d] == old(records[d])
        invariant records.Keys == old(records.Keys) + set k | 0 <= k < i :: shared[k]
        invariant forall d :: d in records && d !in old(records) ==> fresh(records[d]) && records[d].State() == SEEDED
      {
        if shared[i] !in records {
          var r := new CoordRecord();
          records := records[shared[i] := r];
        }
      }
    }

    method RecordObservationAt(display: DisplayId, reading: Option<Reading>, k: U32, policy: Policy, now: Instant)
      returns (res: Outcome)
      requires Valid()
      modifies records.Values
      ensures Valid() && records == old(records)
      ensures display !in records ==> res == NOTHING && View() == old(View())
      ensures display in records ==>
                var o := Observe(old(View())[display], reading, k, policy, now);
                res == o.1 && View() == old(View())[display := o.0]
    {
      if display !in records {
        return NOTHING;
      }
      res := records[display].RecordObservationAt(reading, k, policy, now);
    }

    method RecordFailure(display: DisplayId)
      requires Valid()
      modifies records.Values
      ensures Valid() && records == old(records)
      ensures View() == if display in records then old(View())[display := Failure(old(View())[display])]
              else old(View())
    {
      if display in records {
        records[display].RecordFailure();
      }
    }

    method MarkOwnedImmediate(display: DisplayId, verifiedCode: Code)
      requires Valid()
      modifies records.Values
      ensures Valid() && records == old(records)
      ensures View() == if display in records then old(View())[display := Verified(old(View())[display], verifiedCode)]
              else old(View())
    {
      if display in records {
        records[display].MarkOwned(verifiedCode);
      }
    }

    /** Reload: survivors keep their records, newcomers are seeded, the rest are dropped. */
    method ReconcileShared(shared: seq<DisplayId>)
      requires Valid()
      modifies this
      ensures Valid() && fresh(records.Values - old(records.Values))
      ensures View() == map d | d in shared :: if d in old(records) then old(View())[d] else SEEDED
    {
      records := map d | d in records && d in shared :: records[d];
      Insert(shared);
    }

    /** A display without a record is private, and always owned. */
    method Owns(display: DisplayId) returns (owns: bool)
      ensures owns == (display in View() ==> View()[display].owned)
    {
      owns := display !in records || records[display].owned;
    }
  }
}
