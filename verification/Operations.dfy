/** The operation registry shared by all engine generations.  Its mutex makes every call
    atomic, so a run is any interleaving of calls by any threads. */
module Operations {
  import opened DisplayTypes

  type GenerationId = nat

  datatype OperationKind = Exercise(display: DisplayId) | EmergencyWake

  datatype Entry = Entry(generation: GenerationId, kind: OperationKind)

  /** `cancelled` holds the ids whose cancellation token was triggered. */
  datatype Table = Table(nextId: nat, active: map<nat, Entry>, quiescing: set<GenerationId>, cancelled: set<nat>)

  const EMPTY := Table(0, map[], {}, {})

  predicate Conflict(a: OperationKind, b: OperationKind) { a.EmergencyWake? || b.EmergencyWake? || a == b }

  predicate Blocked(t: Table, g: GenerationId, kind: OperationKind) {
    exists id :: id in t.active && t.active[id].generation == g && Conflict(kind, t.active[id].kind)
  }

  datatype Call =
    | Acquire(g: GenerationId, kind: OperationKind)
    | Adopt(id: nat, g: GenerationId, kind: OperationKind)
    | Drop(id: nat)
    | BeginQuiesce(g: GenerationId)
    | EndQuiesce(g: GenerationId)
    | Cancel(g: GenerationId)

  predicate Grants(t: Table, c: Call) {
    match c
    case Acquire(g, kind) => g !in t.quiescing && !Blocked(t, g, kind)
    case Adopt(id, g, kind) => id in t.active && t.active[id] == Entry(g, kind)
    case _ => false
  }

  function After(t: Table, c: Call): Table {
    match c
    case Acquire(g, kind) =>
      if Grants(t, c) then t.(nextId := t.nextId + 1, active := t.active[t.nextId := Entry(g, kind)]) else t
    case Adopt(_, _, _) => t
    case Drop(id) => t.(active := t.active - {id})
    case BeginQuiesce(g) => t.(quiescing := t.quiescing + {g})
    case EndQuiesce(g) => t.(quiescing := t.quiescing - {g})
    case Cancel(g) => t.(cancelled := t.cancelled + set id | id in t.active && t.active[id].generation == g)
  }

  class OperationRegistry {
    var nextId: nat
    var active: map<nat, Entry>
    var quiescing: set<GenerationId>
    var cancelled: set<nat>

    ghost function State(): Table
      reads this
    {
      Table(nextId, active, quiescing, cancelled)
    }

    constructor ()
      ensures State() == EMPTY
    {
      nextId, active, quiescing, cancelled := 0, map[], {}, {};
    }

    method BeginQuiesceGeneration(g: GenerationId)
      modifies this
      ensures State() == After(old(State()), BeginQuiesce(g))
    {
      quiescing := quiescing + {g};
    }

    method EndQuiesceGeneration(g: GenerationId)
      modifies this
      ensures State() == After(old(State()), EndQuiesce(g))
    {
      quiescing := quiescing - {g};
    }

    /** The lease is the id whose entry it shares; `None` is refusal. */
    method LeaseAccepted(id: nat, g: GenerationId, kind: OperationKind) returns (lease: Option<nat>)
      ensures lease == if Grants(State(), Adopt(id, g, kind)) then Some(id) else None
    {
      if id !in active {
        return None;
      }
      if g != active[id].generation || kind != active[id].kind {
        return None;
      }
      lease := Some(id);
    }

    method TryAcquire(g: GenerationId, kind: OperationKind) returns (lease: Option<nat>)
      modifies this
      ensures State() == After(old(State()), Acquire(g, kind))
      ensures lease == if Grants(old(State()), Acquire(g, kind)) then Some(old(nextId)) else None
    {
      if g in quiescing {
        return None;
      }
      if exists id :: id in active && active[id].generation == g && Conflict(kind, active[id].kind) {
        return None;
      }
      lease := Some(nextId);
      active := active[nextId := Entry(g, kind)];
      nextId := nextId + 1;
    }

    method DropLease(id: nat)
      modifies this
      ensures State() == After(old(State()), Drop(id))
    {
      active := active - {id};
    }

    method CancelGeneration(g: GenerationId)
      modifies this
      ensures State() == After(old(State()), Cancel(g))
    {
      var rest := active.Keys;
      while rest != {}
        invariant rest <= active.Keys
        invariant active == old(active) && nextId == old(nextId) && quiescing == old(quiescing)
        invariant cancelled == old(cancelled) + set id | id in active.Keys - rest && active[id].generation == g
        decreases rest
      {
        var id :| id in rest;
        if active[id].generation == g {
          cancelled := cancelled + {id};
        }
        rest := rest - {id};
      }
    }
  }

  // ── Interleavings ───────────────────────────────────────────────────────

  function TableAt(cs: seq<Call>, i: nat): Table
    requires i <= |cs|
  {
    if i == 0 then EMPTY else After(TableAt(cs, i - 1), cs[i - 1])
  }

  function ActiveIn(t: Table, g: GenerationId): set<nat> {
    set id | id in t.active && t.active[id].generation == g
  }

  /** Within a generation: one emergency wake alone, or exercises on distinct displays. */
  predicate ConflictFree(t: Table) {
    && (forall id :: id in t.active ==> id < t.nextId)
    && (forall i, j :: i in t.active && j in t.active && i != j && t.active[i].generation == t.active[j].generation ==>
          !Conflict(t.active[i].kind, t.active[j].kind))
  }

  lemma CallKeepsConflictFree(t: Table, c: Call)
    requires ConflictFree(t)
    ensures ConflictFree(After(t, c))
  {
  }

  /** Over every interleaving the active table is conflict-free. */
  lemma {:induction false} NeverConflicts(cs: seq<Call>, i: nat)
    requires i <= |cs|
    ensures ConflictFree(TableAt(cs, i))
  {
    hide After, ConflictFree;
    if i == 0 {
      EmptyIsFree();
    } else {
      NeverConflicts(cs, i - 1);
      CallKeepsConflictFree(TableAt(cs, i - 1), cs[i - 1]);
    }
  }

  lemma EmptyIsFree()
    ensures ConflictFree(EMPTY)
  {
  }

  /** The table grants an acquisition exactly when it stays conflict-free and the generation is
      not quiescing: nothing that could run is refused. */
  lemma GrantsExactlyWhenFree(t: Table, g: GenerationId, kind: OperationKind)
    requires ConflictFree(t)
    ensures Grants(t, Acquire(g, kind)) <==>
              g !in t.quiescing &&
                ConflictFree(t.(nextId := t.nextId + 1, active := t.active[t.nextId := Entry(g, kind)]))
  {
    var n := t.(nextId := t.nextId + 1, active := t.active[t.nextId := Entry(g, kind)]);
    if Blocked(t, g, kind) {
      var id :| id in t.active && t.active[id].generation == g && Conflict(kind, t.active[id].kind);
      assert n.active[id] == t.active[id] && n.active[t.nextId] == Entry(g, kind);
    }
  }

  /** Two active operations of one generation are exercises of different displays; so an emergency
      wake is the only operation of its generation. */
  predicate Apart(t: Table) {
    forall i, j :: i in t.active && j in t.active && i != j && t.active[i].generation == t.active[j].generation ==>
      && t.active[i].kind.Exercise? && t.active[j].kind.Exercise?
      && t.active[i].kind.display != t.active[j].kind.display
  }

  /** Over every interleaving. */
  lemma OperationsStayApart(cs: seq<Call>, i: nat)
    requires i <= |cs|
    ensures Apart(TableAt(cs, i))
  {
    hide TableAt;
    NeverConflicts(cs, i);
  }

  /** An emergency wake is granted exactly to a generation that is not quiescing and has nothing
      active. */
  lemma WakeGrantedExactlyWhenIdle(t: Table, g: GenerationId)
    ensures Grants(t, Acquire(g, EmergencyWake)) <==>
              g !in t.quiescing && forall id :: id in t.active ==> t.active[id].generation != g
  {
    if id :| id in t.active && t.active[id].generation == g {
      assert Conflict(EmergencyWake, t.active[id].kind);
    }
  }

  /** An exercise is granted exactly to a generation that is not quiescing and has neither an
      emergency wake nor an exercise of the same display active. */
  lemma ExerciseGrantedExactlyWhenApart(t: Table, g: GenerationId, d: DisplayId)
    ensures Grants(t, Acquire(g, Exercise(d))) <==>
              && g !in t.quiescing
              && forall id :: id in t.active && t.active[id].generation == g ==>
                   t.active[id].kind.Exercise? && t.active[id].kind.display != d
  {
    if id :| id in t.active && t.active[id].generation == g &&
             !(t.active[id].kind.Exercise? && t.active[id].kind.display != d) {
      assert Conflict(Exercise(d), t.active[id].kind);
    }
  }

  /** An id once dropped is never active again. */
  lemma {:induction false} IdsNeverReused(cs: seq<Call>, i: nat, j: nat, id: nat)
    requires i <= j <= |cs| && id < TableAt(cs, i).nextId && id !in TableAt(cs, i).active
    ensures id < TableAt(cs, j).nextId && id !in TableAt(cs, j).active
    decreases j
  {
    hide Blocked;
    if i < j {
      IdsNeverReused(cs, i, j - 1, id);
    }
  }

  /** From the call that begins quiescing a generation until one that ends it, its active set
      only shrinks, and once empty it stays empty. */
  lemma {:induction false} QuiescingOnlyDrains(cs: seq<Call>, i: nat, j: nat, g: GenerationId)
    requires i <= j <= |cs| && g in TableAt(cs, i).quiescing
    requires forall k :: i <= k < j ==> cs[k] != EndQuiesce(g)
    ensures g in TableAt(cs, j).quiescing && ActiveIn(TableAt(cs, j), g) <= ActiveIn(TableAt(cs, i), g)
    decreases j
  {
    hide Blocked;
    if i < j {
      QuiescingOnlyDrains(cs, i, j - 1, g);
    }
  }

  // ── What the calls made of the table ────────────────────────────────────

  predicate TakesAt(cs: seq<Call>, j: nat, id: nat, entry: Entry)
    requires j < |cs|
  {
    cs[j] == Acquire(entry.generation, entry.kind) && Grants(TableAt(cs, j), cs[j]) && TableAt(cs, j).nextId == id
  }

  /** Call `j` was granted id `id` for `entry`, and nobody has dropped it before call `i`. */
  predicate TakenAt(cs: seq<Call>, j: nat, i: nat, id: nat, entry: Entry) {
    j < i <= |cs| && TakesAt(cs, j, id, entry) && forall k :: j < k < i ==> cs[k] != Drop(id)
  }

  /** Generation `g` began quiescing at call `j` and has not ended. */
  predicate QuiescesSince(cs: seq<Call>, j: nat, i: nat, g: GenerationId) {
    j < i <= |cs| && cs[j] == BeginQuiesce(g) && forall k :: j < k < i ==> cs[k] != EndQuiesce(g)
  }

  predicate CancelledAt(cs: seq<Call>, j: nat, i: nat, id: nat) {
    && j < i <= |cs| && cs[j].Cancel? && id in TableAt(cs, j).active
    && TableAt(cs, j).active[id].generation == cs[j].g
  }

  predicate Active(t: Table, id: nat, entry: Entry) { id in t.active && t.active[id] == entry }

  lemma ActiveAfter(t: Table, c: Call, id: nat, entry: Entry)
    requires ConflictFree(t)
    ensures Active(After(t, c), id, entry) <==>
              || (Active(t, id, entry) && c != Drop(id))
              || (c == Acquire(entry.generation, entry.kind) && Grants(t, c) && id == t.nextId)
  {
    hide Blocked;
  }

  /** Over every interleaving: an id is active for a generation and kind exactly if it was granted to
      them and nobody has dropped it since. */
  lemma {:induction false} ActiveExactlyWhileTaken(cs: seq<Call>, i: nat, id: nat, entry: Entry)
    requires i <= |cs|
    ensures Active(TableAt(cs, i), id, entry) <==> exists j: nat :: TakenAt(cs, j, i, id, entry)
  {
    hide After, Grants, ConflictFree, Active;
    if i == 0 {
      assert !Active(EMPTY, id, entry) by { NothingActive(id, entry); }
    } else {
      var q := i - 1;
      ActiveExactlyWhileTaken(cs, q, id, entry);
      NeverConflicts(cs, q);
      ActiveAfter(TableAt(cs, q), cs[q], id, entry);
      assert TakesAt(cs, q, id, entry) ==> TakenAt(cs, q, i, id, entry);
      if exists j: nat :: TakenAt(cs, j, q, id, entry) {
        var j: nat :| TakenAt(cs, j, q, id, entry);
        assert cs[q] != Drop(id) ==> TakenAt(cs, j, i, id, entry);
      }
      if exists j: nat :: TakenAt(cs, j, i, id, entry) {
        var j: nat :| TakenAt(cs, j, i, id, entry);
        assert j < q ==> TakenAt(cs, j, q, id, entry);
      }
    }
  }

  lemma NothingActive(id: nat, entry: Entry)
    ensures !Active(EMPTY, id, entry)
  {
  }

  /** Over every interleaving: a generation is quiescing exactly if it began and has not ended. */
  lemma {:induction false} QuiescingExactlySinceBegun(cs: seq<Call>, i: nat, g: GenerationId)
    requires i <= |cs|
    ensures g in TableAt(cs, i).quiescing <==> exists j: nat :: QuiescesSince(cs, j, i, g)
  {
    hide Grants;
    if i > 0 {
      var q := i - 1;
      QuiescingExactlySinceBegun(cs, q, g);
      assert cs[q] == BeginQuiesce(g) ==> QuiescesSince(cs, q, i, g);
      if exists j: nat :: QuiescesSince(cs, j, q, g) {
        var j: nat :| QuiescesSince(cs, j, q, g);
        assert cs[q] != EndQuiesce(g) ==> QuiescesSince(cs, j, i, g);
      }
      if exists j: nat :: QuiescesSince(cs, j, i, g) {
        var j: nat :| QuiescesSince(cs, j, i, g);
        assert j < q ==> QuiescesSince(cs, j, q, g);
      }
    }
  }

  /** Over every interleaving: an operation is cancelled exactly if its generation was, while it was
      active. */
  lemma {:induction false} CancelledExactlyIfCalled(cs: seq<Call>, i: nat, id: nat)
    requires i <= |cs|
    ensures id in TableAt(cs, i).cancelled <==> exists j: nat :: CancelledAt(cs, j, i, id)
  {
    hide Grants;
    if i > 0 {
      var q := i - 1;
      CancelledExactlyIfCalled(cs, q, id);
      assert cs[q].Cancel? && id in TableAt(cs, q).active && TableAt(cs, q).active[id].generation == cs[q].g ==>
          CancelledAt(cs, q, i, id);
      if exists j: nat :: CancelledAt(cs, j, q, id) {
        var j: nat :| CancelledAt(cs, j, q, id);
        assert CancelledAt(cs, j, i, id);
      }
      if exists j: nat :: CancelledAt(cs, j, i, id) {
        var j: nat :| CancelledAt(cs, j, i, id);
        assert j < q ==> CancelledAt(cs, j, q, id);
      }
    }
  }

  /** A lease is adopted exactly if its id was granted to that generation and kind and nobody has
      dropped it since. */
  lemma AdoptsExactlyWhatIsTaken(cs: seq<Call>, i: nat, id: nat, g: GenerationId, kind: OperationKind)
    requires i <= |cs|
    ensures Grants(TableAt(cs, i), Adopt(id, g, kind)) <==> exists j: nat :: TakenAt(cs, j, i, id, Entry(g, kind))
  {
    hide TableAt, TakenAt;
    ActiveExactlyWhileTaken(cs, i, id, Entry(g, kind));
  }

  // ── Leases ──────────────────────────────────────────────────────────────

  /** The table and the leases held on it, by id. */
  datatype Held = Held(t: Table, leases: multiset<nat>)

  function Use(h: Held, c: Call): Held {
    var granted := Grants(h.t, c);
    Held(After(h.t, c),
         match c
         case Acquire(_, _) => if granted then h.leases + multiset{h.t.nextId} else h.leases
         case Adopt(id, _, _) => if granted then h.leases + multiset{id} else h.leases
         case Drop(id) => h.leases - multiset{id}
         case _ => h.leases)
  }

  /** Every lease held is backed by its entry. */
  predicate Backed(h: Held) { forall id :: id in h.leases ==> id in h.t.active }

  /** Dropping one of several leases on one id. */
  predicate SharedDrop(h: Held, c: Call) { c.Drop? && h.leases[c.id] >= 2 }

  /** Leases stay backed by every call but one: dropping a lease whose id another lease holds. */
  lemma BackedExactlyUnlessShared(h: Held, c: Call)
    requires Backed(h) && (c.Drop? ==> c.id in h.leases)
    ensures Backed(Use(h, c)) <==> !SharedDrop(h, c)
  {
    if SharedDrop(h, c) {
      assert c.id in Use(h, c).leases && c.id !in Use(h, c).t.active;
    }
  }

  /** After such a drop a second operation in conflict with the surviving lease is granted: the
      very one the lease was taken for. */
  lemma SharedDropAdmitsConflict(h: Held, id: nat)
    requires ConflictFree(h.t) && id in h.t.active && SharedDrop(h, Drop(id))
    requires h.t.active[id].generation !in h.t.quiescing
    ensures var d := Use(h, Drop(id));
            var again := Acquire(h.t.active[id].generation, h.t.active[id].kind);
            id in d.leases && Grants(d.t, again) && d.t.nextId in Use(d, again).leases && d.t.nextId != id
  {
    assert Drop(id).id == id;
  }

  // ── Leases over every interleaving ──────────────────────────────────────

  const FRESH := Held(EMPTY, multiset{})

  function HeldAt(cs: seq<Call>, i: nat): Held
    requires i <= |cs|
  {
    if i == 0 then FRESH else Use(HeldAt(cs, i - 1), cs[i - 1])
  }

  /** Only a lease that is held can be dropped. */
  predicate DropsOwn(cs: seq<Call>) { forall i :: 0 <= i < |cs| && cs[i].Drop? ==> cs[i].id in HeldAt(cs, i).leases }

  lemma {:induction false} HeldIsTable(cs: seq<Call>, i: nat)
    requires i <= |cs|
    ensures HeldAt(cs, i).t == TableAt(cs, i)
  {
    hide After;
    if i > 0 {
      HeldIsTable(cs, i - 1);
    }
  }

  lemma {:induction false} BackedUntilShared(cs: seq<Call>, i: nat)
    requires i <= |cs| && DropsOwn(cs) && forall k :: 0 <= k < i ==> !SharedDrop(HeldAt(cs, k), cs[k])
    ensures Backed(HeldAt(cs, i))
  {
    hide Use;
    if i > 0 {
      BackedUntilShared(cs, i - 1);
      BackedExactlyUnlessShared(HeldAt(cs, i - 1), cs[i - 1]);
    }
  }

  /** Over every interleaving from the empty registry: every lease stays backed by its entry, if
      and only if no lease is ever dropped while another holds the same id. */
  lemma LeasesBackedExactlyUnlessShared(cs: seq<Call>)
    requires DropsOwn(cs)
    ensures (forall i :: 0 <= i <= |cs| ==> Backed(HeldAt(cs, i))) <==>
            (forall i :: 0 <= i < |cs| ==> !SharedDrop(HeldAt(cs, i), cs[i]))
  {
    hide Use, Backed, SharedDrop, DropsOwn, HeldAt;
    if forall i :: 0 <= i < |cs| ==> !SharedDrop(HeldAt(cs, i), cs[i]) {
      forall i | 0 <= i <= |cs| ensures Backed(HeldAt(cs, i)) {
        BackedUntilShared(cs, i);
      }
    } else {
      var i :| 0 <= i < |cs| && SharedDrop(HeldAt(cs, i), cs[i]);
      SharedDropUnbacks(cs, i);
      assert !Backed(HeldAt(cs, i + 1));
    }
  }

  lemma SharedDropUnbacks(cs: seq<Call>, i: nat)
    requires i < |cs| && SharedDrop(HeldAt(cs, i), cs[i])
    ensures !Backed(HeldAt(cs, i + 1))
  {
    var h := HeldAt(cs, i);
    assert cs[i].id in Use(h, cs[i]).leases && cs[i].id !in Use(h, cs[i]).t.active;
  }

  /** For every generation and kind the empty registry comes to hold two leases that conflict: an
      operation, adopted once, dropped once, and the same operation again. */
  lemma ConflictReached(g: GenerationId, kind: OperationKind)
    ensures var cs := [Acquire(g, kind), Adopt(0, g, kind), Drop(0), Acquire(g, kind)];
            && DropsOwn(cs) && SharedDrop(HeldAt(cs, 2), cs[2]) && ConflictFree(HeldAt(cs, 2).t)
            && HeldAt(cs, 2).t.active == map[0 := Entry(g, kind)]
            && HeldAt(cs, 4).leases == multiset{0, 1} && HeldAt(cs, 4).t.active == map[1 := Entry(g, kind)]
            && Conflict(kind, kind)
  {
    hide Grants;
    var cs := [Acquire(g, kind), Adopt(0, g, kind), Drop(0), Acquire(g, kind)];
    OneTaken(g, kind);
    assert HeldAt(cs, 1) == Use(FRESH, cs[0]);
    assert HeldAt(cs, 2) == Use(HeldAt(cs, 1), cs[1]);
    assert HeldAt(cs, 3) == Use(HeldAt(cs, 2), cs[2]);
    assert HeldAt(cs, 4) == Use(HeldAt(cs, 3), cs[3]);
  }

  lemma OneTaken(g: GenerationId, kind: OperationKind)
    ensures Grants(EMPTY, Acquire(g, kind)) && Grants(Table(1, map[], {}, {}), Acquire(g, kind))
    ensures Grants(Table(1, map[0 := Entry(g, kind)], {}, {}), Adopt(0, g, kind))
  {
  }
}
