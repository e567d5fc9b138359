/**
 Whole runs of a registry: every handle it ever issued is distinct, and a handle
 validates exactly while it is issued and not retired.
 */
module RegistryRuns {
  import opened Engine
  import opened SlotTable

  /** A table with its free list and its history: handles issued and retired. */
  datatype Ledger = Ledger(table: Table, free: seq<nat>, issued: seq<Handle>, retired: set<Handle>)

  const NewLedger: Ledger := Ledger(SlotTable.Empty, [], [], {})

  datatype Op = Fresh(who: Resident) | Recover(who: Resident) | Host(who: Resident) | Retire(handle: Handle)

  function Insert(t: Table, op: Op, maximum: nat): (Table, Answer<Handle>) {
    match op
    case Fresh(who) => InsertFresh(t, who, maximum)
    case Recover(who) => InsertRecovery(t, who, maximum)
    case Host(who) => InsertHost(t, who, maximum)
    case Retire(_) => (t, Bad(InvalidHandle))
  }

  function Apply(l: Ledger, op: Op, maximum: nat): Ledger {
    match op
    case Retire(h) =>
      if Validate(l.table, h).Bad? then l
      else
        var i := Validate(l.table, h).value;
        l.(table := Vacate(l.table, i), free := FreeAfterVacate(l.table, l.free, i), retired := l.retired + {h})
    case _ =>
      var (t, r) := Insert(l.table, op, maximum);
      if r.Bad? then l
      else l.(table := t, free := FreeAfterPlace(l.free), issued := l.issued + [r.value])
  }

  // ----------------------------------------------------------------------- handles

  predicate Distinct(issued: seq<Handle>) {
    forall j, k :: 0 <= j < k < |issued| ==> issued[j] != issued[k]
  }

  /** An issued handle is behind its slot's generation, or the slot is not free at that generation. */
  predicate Accounted(t: Table, h: Handle) {
    && 1 <= h.slot <= |t.slots| && 1 <= h.generation <= t.slots[h.slot - 1].generation
    && (h.generation == t.slots[h.slot - 1].generation ==> !IsFree(t.slots[h.slot - 1]))
  }

  ghost predicate HandlesInv(l: Ledger) {
    && Inv(l.table, l.free) && Distinct(l.issued)
    && (forall h :: h in l.issued ==> Accounted(l.table, h))
    && (forall h :: h in l.retired ==> h in l.issued)
    && (forall h :: Validate(l.table, h).Good? <==> h in l.issued && h !in l.retired)
  }

  /** The slot an insert will use: free at its generation, or beyond the table. */
  lemma PlacedSlot(t: Table, free: seq<nat>, who: Resident, maximumSlots: nat)
    requires Inv(t, free) && Place(t, who, maximumSlots).1.Good?
    ensures var (t', r) := Place(t, who, maximumSlots);
      var i := r.value.slot - 1;
      && r.value.slot > 0 && 1 <= r.value.generation && i < |t'.slots| && |t.slots| <= |t'.slots| <= |t.slots| + 1
      && t'.slots[i].generation == r.value.generation && t'.slots[i].resident.Some?
      && (i < |t.slots| ==> IsFree(t.slots[i]) && t.slots[i].generation == r.value.generation && |t'.slots| == |t.slots|)
      && (i >= |t.slots| ==> i == |t.slots|)
      && (forall j :: 0 <= j < |t.slots| && j != i ==> t'.slots[j] == t.slots[j])
  {
    hide Inv;
    HeadOf(t, free);
  }

  lemma PlacedIsNew(l: Ledger, who: Resident, maximumSlots: nat)
    requires HandlesInv(l) && Place(l.table, who, maximumSlots).1.Good?
    ensures var h := Place(l.table, who, maximumSlots).1.value;
      && h !in l.issued
      && Accounted(Place(l.table, who, maximumSlots).0, h)
      && forall g :: g != h ==> Validate(Place(l.table, who, maximumSlots).0, g).Good? == Validate(l.table, g).Good?
  {
    hide Place, Inv;
    PlacedSlot(l.table, l.free, who, maximumSlots);
    var (t', r) := Place(l.table, who, maximumSlots);
  }

  lemma PlacedStaysAccounted(t: Table, free: seq<nat>, who: Resident, maximumSlots: nat, h: Handle)
    requires Inv(t, free) && Accounted(t, h)
    ensures Accounted(Place(t, who, maximumSlots).0, h)
  {
    hide Inv;
    if Place(t, who, maximumSlots).1.Good? {
      PlacedSlot(t, free, who, maximumSlots);
    }
  }

  lemma PlaceKeepsHandles(l: Ledger, who: Resident, maximumSlots: nat, l': Ledger)
    requires HandlesInv(l) && Place(l.table, who, maximumSlots).1.Good?
    requires l'.table == Place(l.table, who, maximumSlots).0 && l'.free == FreeAfterPlace(l.free)
    requires l'.issued == l.issued + [Place(l.table, who, maximumSlots).1.value] && l'.retired == l.retired
    ensures HandlesInv(l')
  {
    hide Place, Inv, FreeAfterPlace, Validate, Accounted;
    var h := Place(l.table, who, maximumSlots).1.value;
    PlaceKeeps(l.table, l.free, who, maximumSlots);
    PlacedIsNew(l, who, maximumSlots);
    forall g | g in l'.issued
      ensures Accounted(l'.table, g)
    {
      if g in l.issued {
        PlacedStaysAccounted(l.table, l.free, who, maximumSlots, g);
      }
    }
  }

  lemma InsertIsPlace(t: Table, op: Op, maximum: nat)
    requires !op.Retire?
    ensures Insert(t, op, maximum).1.Good? ==>
      Insert(t, op, maximum) == Place(t, op.who, if op.Host? then maximum else 2 * maximum)
  {
  }

  lemma RetireKeepsHandles(l: Ledger, h: Handle, maximum: nat)
    requires HandlesInv(l)
    ensures HandlesInv(Apply(l, Retire(h), maximum))
  {
    hide Inv;
    if Validate(l.table, h).Good? {
      var i := Validate(l.table, h).value;
      VacateKeeps(l.table, l.free, i);
      ShapeAt(l.table, l.free, i);
      RetiredHandle(l.table, h);
      var t' := Vacate(l.table, i);
      forall g | g in l.issued
        ensures Accounted(t', g)
      {
        VacateAccounts(l.table, i, g);
      }
    }
  }

  lemma VacateAccounts(t: Table, i: nat, g: Handle)
    requires Accounted(t, g) && i < |t.slots| && t.slots[i].resident.Some? && SlotShape(t.slots[i])
    ensures Accounted(Vacate(t, i), g)
  {
  }

  /** Vacating a slot makes its own handle stale and touches no other handle. */
  lemma RetiredHandle(t: Table, h: Handle)
    requires Validate(t, h).Good? && SlotShape(t.slots[h.slot - 1])
    ensures var t' := Vacate(t, h.slot - 1);
      && Validate(t', h) == Bad(StaleHandle)
      && forall g :: g != h ==> Validate(t', g).Good? == Validate(t, g).Good?
  {
  }

  lemma ShapeAt(t: Table, free: seq<nat>, i: nat)
    requires Inv(t, free) && i < |t.slots|
    ensures SlotShape(t.slots[i])
  {
  }

  lemma ApplyKeepsHandles(l: Ledger, op: Op, maximum: nat)
    requires HandlesInv(l)
    ensures HandlesInv(Apply(l, op, maximum))
  {
    hide Place, Insert, HandlesInv;
    if op.Retire? {
      RetireKeepsHandles(l, op.handle, maximum);
    } else if Insert(l.table, op, maximum).1.Good? {
      InsertIsPlace(l.table, op, maximum);
      PlaceKeepsHandles(l, op.who, if op.Host? then maximum else 2 * maximum, Apply(l, op, maximum));
    }
  }

  function Run(l: Ledger, ops: seq<Op>, maximum: nat): Ledger
    decreases |ops|
  {
    if ops == [] then l else Run(Apply(l, ops[0], maximum), ops[1..], maximum)
  }

  lemma {:induction false} RunKeepsHandles(l: Ledger, ops: seq<Op>, maximum: nat)
    requires HandlesInv(l)
    ensures HandlesInv(Run(l, ops, maximum))
    ensures l.retired <= Run(l, ops, maximum).retired
    decreases |ops|
  {
    hide HandlesInv, Insert;
    if ops != [] {
      ApplyKeepsHandles(l, ops[0], maximum);
      RunKeepsHandles(Apply(l, ops[0], maximum), ops[1..], maximum);
    }
  }

  lemma NewLedgerInv()
    ensures HandlesInv(NewLedger)
  {
  }

  /**
   No aliasing: over every run of inserts and retirements, with slots exhausting
   their generations or not, all handles ever issued are distinct, a handle
   validates exactly while it is issued and not retired, and the table stays
   partitioned into residents, free-list slots and exhausted slots.
   */
  lemma HandlesNeverAlias(ops: seq<Op>, maximum: nat, h: Handle)
    ensures var l := Run(NewLedger, ops, maximum);
      && Distinct(l.issued)
      && (Validate(l.table, h).Good? <==> h in l.issued && h !in l.retired)
      && FreeList(l.table, l.free)
      && l.table.residents + |l.free| + l.table.exhausted == |l.table.slots|
  {
    NewLedgerInv();
    RunKeepsHandles(NewLedger, ops, maximum);
    SlotsAreConserved(Run(NewLedger, ops, maximum).table, Run(NewLedger, ops, maximum).free);
  }

  /** Once retired, a handle is stale for ever, even one retired at the last generation. */
  lemma RetiredStaysStale(l: Ledger, h: Handle, ops: seq<Op>, maximum: nat)
    requires HandlesInv(l) && h in l.retired
    ensures Validate(Run(l, ops, maximum).table, h) == Bad(StaleHandle)
  {
    RunKeepsHandles(l, ops, maximum);
    assert h in Run(l, ops, maximum).retired;
    assert Accounted(Run(l, ops, maximum).table, h);
  }

  lemma TableInv(l: Ledger)
    requires HandlesInv(l)
    ensures Inv(l.table, l.free)
  {
  }
}
