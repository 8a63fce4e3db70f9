/** Ownership coordination of one shared display, as a function of its record: symmetric
    debounce, flap limiter, contested hold, verified writes.  `Coordination` proves that the
    in-place code computes exactly this. */
module CoordSpec {
  import opened DisplayTypes

  const U32_MAX := 0xFFFF_FFFF
  const DURATION_MAX := 18_446_744_073_709_551_615 * 1_000_000_000 + 999_999_999

  type U32 = n: int | 0 <= n <= U32_MAX
  type Code = c: int | 0 <= c < 256

  function SatInc(n: U32): U32 { if n == U32_MAX then n else n + 1 }

  function AtLeast(n: U32, floor: U32): U32 { if n < floor then floor else n }

  datatype Policy = Policy(threshold: U32, window: Duration, settle: Duration)

  const DISABLED := Policy(U32_MAX, DURATION_MAX, DURATION_MAX)

  datatype Aliases = Aliases(localRead: Code, localWrite: Code, peerRead: Option<Code>, peerWrite: Option<Code>)

  datatype Kind = Local | Peer | Unknown(code: Code)

  function Classify(aliases: Aliases, code: Code): Kind {
    if code == aliases.localRead || code == aliases.localWrite then Local
    else if aliases.peerRead == Some(code) || aliases.peerWrite == Some(code) then Peer
    else Unknown(code)
  }

  datatype PanelState = PanelState(power: nat)

  datatype Reading = Reading(code: Code, aliases: Aliases, panel: Option<PanelState>)

  datatype Outcome = Outcome(
    committedPriorOwned: Option<bool>,
    deferredLoss: Option<U32>,
    deferredGain: Option<U32>,
    disagreementWith: Option<Code>,
    contestedReadbackChanged: Option<Code>,
    enteredContested: bool,
    settled: bool,
    observedReturn: bool)

  const NOTHING := Outcome(None, None, None, None, None, false, false, false)

  /** What the last successful read said. */
  datatype Telemetry = Telemetry(everRead: bool, inputCode: Option<Code>, panel: Option<PanelState>, failures: U32)

  /** Agreeing reads toward a verdict change, and the code they agree on. */
  datatype Pending = Pending(count: U32, code: Option<Code>)

  /** An uncommitted peer sighting, and the local reads since. */
  datatype PeerWatch = PeerWatch(seen: bool, back: U32)

  datatype Flap = Flap(contested: bool, lastRawChange: Option<Instant>, transitions: seq<Instant>)

  datatype Record = Record(
    owned: bool,
    lastCode: Option<Code>,
    pending: Pending,
    peer: PeerWatch,
    flap: Flap,
    telemetry: Telemetry)

  const IDLE := Pending(0, None)
  const UNSEEN := PeerWatch(false, 0)
  const CALM := Flap(false, None, [])
  const SEEDED := Record(true, None, IDLE, UNSEEN, CALM, Telemetry(false, None, None, 0))

  /** Drops the leading transitions older than the window. */
  function Trim(ts: seq<Instant>, window: Duration, now: Instant): seq<Instant>
    decreases |ts|
  {
    if ts != [] && Since(now, ts[0]) > window then Trim(ts[1..], window, now) else ts
  }

  /** `u32::try_from(len)`, saturating. */
  function CountU32(n: nat): U32 { if n > U32_MAX then U32_MAX else n }

  function FlapTransition(r: Record, out: Outcome, policy: Policy, now: Instant, prior: bool): (Record, Outcome) {
    var ts := Trim(r.flap.transitions + [now], policy.window, now);
    if CountU32(|ts|) >= AtLeast(policy.threshold, 2) then
      (r.(owned := false, pending := IDLE, peer := UNSEEN, flap := Flap(true, Some(now), ts)),
       out.(enteredContested := true, committedPriorOwned := if prior then out.committedPriorOwned else None))
    else (r.(flap := r.flap.(transitions := ts)), out)
  }

  function Success(r: Record, code: Code, panel: Option<PanelState>): Record {
    r.(lastCode := Some(code), telemetry := Telemetry(true, Some(code), panel, 0))
  }

  function LocalReturn(r: Record, k: U32, out: Outcome): (Record, Outcome) {
    if !r.peer.seen then (r, out)
    else
      var n := SatInc(r.peer.back);
      if n >= AtLeast(k, 1) then (r.(peer := UNSEEN), out.(observedReturn := true))
      else (r.(peer := PeerWatch(true, n)), out)
  }

  function Disagreement(r: Record, code: Code, out: Outcome): (Record, Outcome) {
    if r.lastCode.Some? && r.lastCode.value != code then
      (r.(pending := IDLE), out.(disagreementWith := r.lastCode))
    else (r, out)
  }

  function ContestedRead(r: Record, code: Code, panel: Option<PanelState>, policy: Policy,
                         now: Instant): (Record, Outcome) {
    var changed := r.lastCode != Some(code);
    var last := if changed then Some(now) else r.flap.lastRawChange;
    var settled := last.None? || Since(now, last.value) >= policy.settle;
    var out := NOTHING.(contestedReadbackChanged := if changed then r.lastCode else None, settled := settled);
    var s := if settled then r.(owned := false, flap := CALM, pending := IDLE)
             else r.(owned := false, flap := r.flap.(lastRawChange := last));
    (Success(s.(peer := UNSEEN), code, panel), out)
  }

  /** Candidate transition: counts agreeing reads, commits at the threshold. */
  function Candidate(r: Record, code: Code, k: U32): (Record, bool) {
    var n := if r.pending.code == Some(code) then SatInc(r.pending.count) else 1;
    if n >= AtLeast(k, 1) then (r.(owned := !r.owned, pending := IDLE), true)
    else (r.(pending := Pending(n, Some(code))), false)
  }

  function Debounce(r: Record, code: Code, kind: Kind, k: U32, out: Outcome): (Record, Outcome) {
    if r.owned == kind.Local? then
      if r.owned then LocalReturn(r.(pending := IDLE), k, out) else (r.(pending := IDLE), out)
    else if kind.Local? then
      var (c, committed) := Candidate(r, code, k);
      if committed then (c, out.(committedPriorOwned := Some(false)))
      else (c, out.(deferredGain := Some(c.pending.count)))
    else
      var seen := r.peer.seen || kind.Peer?;
      var p := r.(peer := PeerWatch(seen, if seen then 0 else r.peer.back));
      var (c, committed) := Candidate(p, code, k);
      if committed then (c.(peer := UNSEEN), out.(committedPriorOwned := Some(true)))
      else (c, out.(deferredLoss := Some(c.pending.count)))
  }

  /** One input-source read (`Some`) or one connector mismatch (`None`). */
  function Observe(r: Record, reading: Option<Reading>, k: U32, policy: Policy, now: Instant): (Record, Outcome) {
    match reading
    case None =>
      if r.flap.contested then (r, NOTHING) else Debounce(r, 0, Unknown(0), k, NOTHING)
    case Some(Reading(code, aliases, panel)) =>
      if r.flap.contested then ContestedRead(r, code, panel, policy, now)
      else
        var (d, out) := Disagreement(r, code, NOTHING);
        var (b, res) := Debounce(d, code, Classify(aliases, code), k, out);
        var (f, fin) :=
          if res.committedPriorOwned.Some? then FlapTransition(b, res, policy, now, r.owned) else (b, res);
        (Success(f, code, panel), fin)
  }

  function Failure(r: Record): Record {
    r.(telemetry := r.telemetry.(failures := SatInc(r.telemetry.failures)))
  }

  function Verified(r: Record, code: Code): Record {
    Record(true, Some(code), IDLE, UNSEEN, CALM, r.telemetry.(failures := 0))
  }
}
