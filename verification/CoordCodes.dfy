/** Which raw codes decide ownership, in the codes and the aliases alone: the machine's own read and
    write codes keep and regain it, any other code loses it, and only the peer's codes are
    remembered as a sighting of the peer. */
module CoordCodes {
  import opened DisplayTypes
  import opened CoordSpec
  import opened CoordHistory

  /** The machine's own input, as read or as written. */
  predicate Own(a: Aliases, code: Code) { code == a.localRead || code == a.localWrite }

  /** The peer's input, where it is not the machine's own. */
  predicate Peers(a: Aliases, code: Code) {
    !Own(a, code) && (a.peerRead == Some(code) || a.peerWrite == Some(code))
  }

  predicate OwnOrNoRead(a: Aliases, p: Poll) { p.Failed? || p.Write? || (p.Read? && Own(a, p.code)) }

  // ── One poll ────────────────────────────────────────────────────────────

  /** Own reads, failures and writes never lose a record that is owned. */
  lemma OwnKeeps(s: Setup, r: Record, p: Poll)
    requires r.owned && !r.flap.contested && OwnOrNoRead(s.aliases, p)
    ensures var n := Next(s, r, p).0; n.owned && !n.flap.contested
  {
    hide Trim;
  }

  /** Ownership is lost only to a foreign code or a mismatch, and gained only by an own read or a
      verified write. */
  lemma FlipsOnlyBy(s: Setup, r: Record, p: Poll)
    ensures var n := Next(s, r, p).0;
            && (r.owned && !n.owned ==> p.Mismatch? || (p.Read? && !Own(s.aliases, p.code)) || r.flap.contested)
            && (!r.owned && n.owned ==> p.Write? || (p.Read? && Own(s.aliases, p.code)))
  {
    hide Trim;
  }

  /** The peer is seen anew only in one of its codes; a foreign read of an owned record that commits
      nothing remembers exactly whether it ever was. */
  lemma SeenOnlyInPeerCodes(s: Setup, r: Record, p: Poll)
    ensures var n := Next(s, r, p).0;
            && (n.peer.seen && !r.peer.seen ==> p.Read? && Peers(s.aliases, p.code))
            && (p.Read? && r.owned && n.owned && !Own(s.aliases, p.code) && !r.flap.contested ==>
                  (n.peer.seen <==> r.peer.seen || Peers(s.aliases, p.code)))
  {
    hide Trim;
  }

  // ── Whole histories ─────────────────────────────────────────────────────

  /** An owned record polled with nothing but own codes, failures and writes stays owned. */
  lemma {:induction false} OwnCodesKeepOwnership(s: Setup, ps: seq<Poll>, from: nat, n: nat)
    requires from <= n <= |ps| && RecordAt(s, ps, from).owned
    requires forall j :: from <= j < n ==> OwnOrNoRead(s.aliases, ps[j])
    ensures RecordAt(s, ps, n).owned && !RecordAt(s, ps, n).flap.contested
    decreases n
  {
    hide Next;
    if n > from {
      OwnCodesKeepOwnership(s, ps, from, n - 1);
      OwnKeeps(s, RecordAt(s, ps, n - 1), ps[n - 1]);
    } else {
      OutcomesReplayOwnership(s, ps, n);
    }
  }

  /** Reads of one code in a row. */
  predicate Repeats(ps: seq<Poll>, from: nat, n: nat, code: Code) {
    from <= n <= |ps| && forall j :: from <= j < n ==> ps[j].Read? && ps[j].code == code
  }

  /** On the way to a flip against `owned`: at least `t` reads of `code` counted. */
  predicate Counting(r: Record, owned: bool, code: Code, t: nat) {
    && r.owned == owned && !r.flap.contested && r.pending.count >= t
    && (t > 0 ==> r.pending.code == Some(code) && r.lastCode == Some(code))
  }

  lemma CountsOn(s: Setup, r: Record, p: Poll, t: nat)
    requires p.Read? && Own(s.aliases, p.code) != r.owned && Counting(r, r.owned, p.code, t)
    ensures var n := Next(s, r, p).0;
            || (t + 1 < Needed(s) && Counting(n, r.owned, p.code, t + 1))
            || n.owned != r.owned || n.flap.contested
  {
    hide Trim;
  }

  lemma ForeignStaysLost(s: Setup, r: Record, p: Poll)
    requires p.Read? && !Own(s.aliases, p.code) && !r.owned
    ensures !Next(s, r, p).0.owned
  {
    FlipsOnlyBy(s, r, p);
  }

  lemma {:induction false} ForeignCounts(s: Setup, ps: seq<Poll>, from: nat, n: nat, code: Code)
    requires Repeats(ps, from, n, code) && !Own(s.aliases, code) && RecordAt(s, ps, from).owned
    ensures !RecordAt(s, ps, n).owned || (n - from < Needed(s) && Counting(RecordAt(s, ps, n), true, code, n - from))
    decreases n
  {
    hide Next;
    OutcomesReplayOwnership(s, ps, n);
    if n > from {
      var r := RecordAt(s, ps, n - 1);
      ForeignCounts(s, ps, from, n - 1, code);
      if r.owned {
        CountsOn(s, r, ps[n - 1], n - 1 - from);
      } else {
        ForeignStaysLost(s, r, ps[n - 1]);
      }
    }
  }

  /** Any one code but the machine's own, read max(k, 1) times in a row, loses ownership, whatever
      the history before. */
  lemma ForeignCodeLosesOwnership(s: Setup, ps: seq<Poll>, from: nat, n: nat, code: Code)
    requires Repeats(ps, from, n, code) && n - from >= Needed(s) && !Own(s.aliases, code)
    ensures !RecordAt(s, ps, n).owned
  {
    hide Next;
    if RecordAt(s, ps, from).owned {
      ForeignCounts(s, ps, from, n, code);
    } else {
      StillLost(s, ps, from, n, code);
    }
  }

  lemma {:induction false} StillLost(s: Setup, ps: seq<Poll>, from: nat, n: nat, code: Code)
    requires Repeats(ps, from, n, code) && !Own(s.aliases, code) && !RecordAt(s, ps, from).owned
    ensures !RecordAt(s, ps, n).owned
    decreases n
  {
    hide Next;
    if n > from {
      StillLost(s, ps, from, n - 1, code);
      ForeignStaysLost(s, RecordAt(s, ps, n - 1), ps[n - 1]);
    }
  }

  /** Own reads never lose it again: owned, or contested on the way. */
  lemma {:induction false} OwnCounts(s: Setup, ps: seq<Poll>, from: nat, n: nat, code: Code)
    requires Repeats(ps, from, n, code) && Own(s.aliases, code) && !RecordAt(s, ps, from).owned
    requires forall j :: from <= j <= n ==> !RecordAt(s, ps, j).flap.contested
    ensures RecordAt(s, ps, n).owned || (n - from < Needed(s) && Counting(RecordAt(s, ps, n), false, code, n - from))
    decreases n
  {
    hide Next;
    if n > from {
      var r := RecordAt(s, ps, n - 1);
      OwnCounts(s, ps, from, n - 1, code);
      assert !RecordAt(s, ps, n).flap.contested;
      if r.owned {
        OwnKeeps(s, r, ps[n - 1]);
      } else {
        CountsOn(s, r, ps[n - 1], n - 1 - from);
      }
    }
  }

  /** One of the machine's own codes, read max(k, 1) times in a row, regains ownership unless the
      record is contested on the way. */
  lemma OwnCodeRegainsOwnership(s: Setup, ps: seq<Poll>, from: nat, n: nat, code: Code)
    requires Repeats(ps, from, n, code) && n - from >= Needed(s) && Own(s.aliases, code)
    requires forall j :: from <= j <= n ==> !RecordAt(s, ps, j).flap.contested
    ensures RecordAt(s, ps, n).owned
  {
    hide Next;
    if RecordAt(s, ps, from).owned {
      OwnCodesKeepOwnership(s, ps, from, n);
    } else {
      OwnCounts(s, ps, from, n, code);
    }
  }

  /** Over every history: what was lost is regained only by a verified write or at a read of one of
      the machine's own codes. */
  lemma RegainedOnlyInOwnCodes(s: Setup, ps: seq<Poll>, i: nat)
    requires i < |ps| && !RecordAt(s, ps, i).owned && RecordAt(s, ps, i + 1).owned
    ensures ps[i].Write? || (ps[i].Read? && Own(s.aliases, ps[i].code))
  {
    hide Next;
    FlipsOnlyBy(s, RecordAt(s, ps, i), ps[i]);
  }

  /** Over every history: while a sighting of the peer stands, some earlier read showed a code of the
      peer's that is not the machine's own. */
  lemma {:induction false} SightingsAreOfThePeer(s: Setup, ps: seq<Poll>, i: nat)
    requires i <= |ps| && RecordAt(s, ps, i).peer.seen
    ensures exists j :: 0 <= j < i && ps[j].Read? && Peers(s.aliases, ps[j].code)
  {
    hide Next, Peers;
    if i > 0 {
      SeenOnlyInPeerCodes(s, RecordAt(s, ps, i - 1), ps[i - 1]);
      if RecordAt(s, ps, i - 1).peer.seen {
        SightingsAreOfThePeer(s, ps, i - 1);
      }
    }
  }
}
