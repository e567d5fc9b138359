/**
 The slot table behind both registries: generation-checked handles over slots
 that are resident, free (linked through `nextFree`) or exhausted for good.
 */
module SlotTable {
  import opened Engine

  const MAXIMUM_GENERATION: nat := 0xFFFF_FFFF

  datatype Failure = InvalidHandle | StaleHandle | CapacityExceeded | InUse | NotRemovable

  datatype Answer<+T> = Good(value: T) | Bad(failure: Failure)

  datatype Handle = Handle(slot: nat, generation: nat)

  /** An endpoint or host behind its own lock, and the document lineage it serves. */
  datatype Resident = Resident(id: nat, lineage: nat)

  datatype Slot = Slot(generation: nat, resident: Option<Resident>, nextFree: Option<nat>, exhausted: bool)

  datatype Table = Table(slots: seq<Slot>, freeHead: Option<nat>, residents: nat, exhausted: nat)

  const Empty: Table := Table([], None, 0, 0)

  // ---------------------------------------------------------------------- operations

  function Validate(t: Table, h: Handle): Answer<nat> {
    if h.slot == 0 || h.generation == 0 || h.slot > |t.slots| then Bad(InvalidHandle)
    else if t.slots[h.slot - 1].generation != h.generation || t.slots[h.slot - 1].resident.None? then Bad(StaleHandle)
    else Good(h.slot - 1)
  }

  /** Enough physical slots stay reusable for one replacement per endpoint. */
  predicate CanAdmitFresh(t: Table, maximumFresh: nat) {
    var after := t.residents + 1;
    after <= maximumFresh && 2 * after <= (if t.exhausted <= 2 * maximumFresh then 2 * maximumFresh - t.exhausted else 0)
  }

  predicate CanAdmitHost(t: Table, maximumHosts: nat) {
    t.residents < (if t.exhausted <= maximumHosts then maximumHosts - t.exhausted else 0)
  }

  /** The part of an insert that follows admission: reuse the first free slot, or grow. */
  function Place(t: Table, who: Resident, maximumSlots: nat): (Table, Answer<Handle>) {
    if t.freeHead.Some? && t.freeHead.value < |t.slots| then
      var i := t.freeHead.value;
      var slot := t.slots[i];
      (t.(slots := t.slots[i := slot.(nextFree := None, resident := Some(who))],
          freeHead := slot.nextFree, residents := t.residents + 1),
       Good(Handle(i + 1, slot.generation)))
    else if |t.slots| >= maximumSlots then (t, Bad(CapacityExceeded))
    else
      (t.(slots := t.slots + [Slot(1, Some(who), None, false)], residents := t.residents + 1),
       Good(Handle(|t.slots| + 1, 1)))
  }

  function InsertFresh(t: Table, who: Resident, maximumFresh: nat): (Table, Answer<Handle>) {
    if !CanAdmitFresh(t, maximumFresh) then (t, Bad(CapacityExceeded)) else Place(t, who, 2 * maximumFresh)
  }

  function InsertRecovery(t: Table, who: Resident, maximumFresh: nat): (Table, Answer<Handle>) {
    if t.residents >= 2 * maximumFresh then (t, Bad(CapacityExceeded)) else Place(t, who, 2 * maximumFresh)
  }

  function InsertHost(t: Table, who: Resident, maximumHosts: nat): (Table, Answer<Handle>) {
    if !CanAdmitHost(t, maximumHosts) then (t, Bad(CapacityExceeded)) else Place(t, who, maximumHosts)
  }

  /** Takes the resident out of slot `i` and recycles the slot, or retires it at its last generation. */
  function Vacate(t: Table, i: nat): Table
    requires i < |t.slots|
  {
    var slot := t.slots[i].(resident := None);
    var residents := if t.residents > 0 then t.residents - 1 else 0;
    if slot.generation + 1 <= MAXIMUM_GENERATION then
      t.(slots := t.slots[i := slot.(generation := slot.generation + 1, nextFree := t.freeHead)],
         freeHead := Some(i), residents := residents)
    else
      t.(slots := t.slots[i := slot.(exhausted := true, nextFree := None)],
         residents := residents, exhausted := t.exhausted + 1)
  }

  // ----------------------------------------------------------------------- invariant

  predicate IsFree(s: Slot) {
    s.resident.None? && !s.exhausted
  }

  function CountFree(slots: seq<Slot>): nat {
    if slots == [] then 0 else CountFree(slots[..|slots| - 1]) + (if IsFree(slots[|slots| - 1]) then 1 else 0)
  }

  function CountResident(slots: seq<Slot>): nat {
    if slots == [] then 0 else CountResident(slots[..|slots| - 1]) + (if slots[|slots| - 1].resident.Some? then 1 else 0)
  }

  function CountExhausted(slots: seq<Slot>): nat {
    if slots == [] then 0 else CountExhausted(slots[..|slots| - 1]) + (if slots[|slots| - 1].exhausted then 1 else 0)
  }

  predicate SlotShape(s: Slot) {
    && 1 <= s.generation <= MAXIMUM_GENERATION
    && (s.resident.Some? ==> !s.exhausted && s.nextFree.None?)
    && (s.exhausted ==> s.generation == MAXIMUM_GENERATION && s.nextFree.None?)
  }

  function Next(free: seq<nat>, k: nat): Option<nat> {
    if k + 1 < |free| then Some(free[k + 1]) else None
  }

  /** `free` is the free list: linked from the head, without repeats, exactly the free slots. */
  predicate FreeList(t: Table, free: seq<nat>) {
    && (forall k :: 0 <= k < |free| ==> free[k] < |t.slots| && IsFree(t.slots[free[k]]))
    && (forall i :: 0 <= i < |t.slots| && IsFree(t.slots[i]) ==> i in free)
    && (forall j, k :: 0 <= j < k < |free| ==> free[j] != free[k])
    && t.freeHead == (if free == [] then None else Some(free[0]))
    && (forall k :: 0 <= k < |free| ==> t.slots[free[k]].nextFree == Next(free, k))
  }

  predicate Inv(t: Table, free: seq<nat>) {
    && (forall i :: 0 <= i < |t.slots| ==> SlotShape(t.slots[i]))
    && FreeList(t, free)
    && |free| == CountFree(t.slots)
    && t.residents == CountResident(t.slots)
    && t.exhausted == CountExhausted(t.slots)
  }

  lemma {:induction false} EverySlotCountsOnce(slots: seq<Slot>)
    requires forall i :: 0 <= i < |slots| ==> SlotShape(slots[i])
    ensures CountResident(slots) + CountFree(slots) + CountExhausted(slots) == |slots|
  {
    if slots != [] {
      EverySlotCountsOnce(slots[..|slots| - 1]);
      assert SlotShape(slots[|slots| - 1]);
    }
  }

  lemma {:induction false} CountsAfterUpdate(slots: seq<Slot>, i: nat, s: Slot)
    requires i < |slots|
    ensures var after := slots[i := s];
      && CountFree(after) + (if IsFree(slots[i]) then 1 else 0) == CountFree(slots) + (if IsFree(s) then 1 else 0)
      && CountResident(after) + (if slots[i].resident.Some? then 1 else 0)
         == CountResident(slots) + (if s.resident.Some? then 1 else 0)
      && CountExhausted(after) + (if slots[i].exhausted then 1 else 0)
         == CountExhausted(slots) + (if s.exhausted then 1 else 0)
  {
    var last := |slots| - 1;
    if i == last {
      assert slots[i := s][..last] == slots[..last];
    } else {
      CountsAfterUpdate(slots[..last], i, s);
      assert slots[i := s][..last] == slots[..last][i := s];
    }
  }

  lemma CountsAfterGrowth(slots: seq<Slot>, s: Slot)
    ensures CountFree(slots + [s]) == CountFree(slots) + (if IsFree(s) then 1 else 0)
    ensures CountResident(slots + [s]) == CountResident(slots) + (if s.resident.Some? then 1 else 0)
    ensures CountExhausted(slots + [s]) == CountExhausted(slots) + (if s.exhausted then 1 else 0)
  {
    assert (slots + [s])[..|slots|] == slots;
  }

  /** Residents, free and exhausted slots together are all the slots. */
  lemma SlotsAreConserved(t: Table, free: seq<nat>)
    requires Inv(t, free)
    ensures t.residents + |free| + t.exhausted == |t.slots|
  {
    EverySlotCountsOnce(t.slots);
  }

  lemma PopFreeList(t: Table, t': Table, free: seq<nat>, who: Resident)
    requires FreeList(t, free) && free != []
    requires t'.slots == t.slots[free[0] := t.slots[free[0]].(nextFree := None, resident := Some(who))]
    requires t'.freeHead == t.slots[free[0]].nextFree
    ensures FreeList(t', free[1..])
  {
    var i, rest := free[0], free[1..];
    forall k | 0 <= k < |rest|
      ensures rest[k] < |t'.slots| && IsFree(t'.slots[rest[k]]) && t'.slots[rest[k]].nextFree == Next(rest, k)
    {
      assert rest[k] == free[k + 1] && free[0] != free[k + 1];
      assert Next(rest, k) == Next(free, k + 1);
    }
    forall j | 0 <= j < |t'.slots| && IsFree(t'.slots[j])
      ensures j in rest
    {
      assert j != i && j in free;
    }
  }

  lemma PlaceReusesKeeps(t: Table, free: seq<nat>, who: Resident, maximumSlots: nat)
    requires Inv(t, free) && free != []
    ensures Inv(Place(t, who, maximumSlots).0, free[1..])
  {
    hide FreeList, CountFree, CountResident, CountExhausted;
    HeadIsFree(t, free);
    var t' := Place(t, who, maximumSlots).0;
    CountsAfterUpdate(t.slots, free[0], t'.slots[free[0]]);
    PopFreeList(t, t', free, who);
  }

  lemma HeadIsFree(t: Table, free: seq<nat>)
    requires FreeList(t, free) && free != []
    ensures free[0] < |t.slots| && IsFree(t.slots[free[0]]) && t.freeHead == Some(free[0])
  {
  }

  lemma PlaceGrowsKeeps(t: Table, free: seq<nat>, who: Resident, maximumSlots: nat)
    requires Inv(t, free) && free == []
    ensures Inv(Place(t, who, maximumSlots).0, free)
  {
    CountsAfterGrowth(t.slots, Slot(1, Some(who), None, false));
  }

  /** The free list after placing: one slot fewer, or still empty. */
  function FreeAfterPlace(free: seq<nat>): seq<nat> {
    if free == [] then [] else free[1..]
  }

  lemma PlaceKeeps(t: Table, free: seq<nat>, who: Resident, maximumSlots: nat)
    requires Inv(t, free)
    ensures var (t', r) := Place(t, who, maximumSlots);
      && (r.Good? ==> Inv(t', FreeAfterPlace(free)) && t'.residents == t.residents + 1 && t'.exhausted == t.exhausted)
      && (r.Bad? <==> free == [] && |t.slots| >= maximumSlots)
      && (r.Bad? ==> t' == t && r == Bad(CapacityExceeded))
      && (r.Good? ==> Validate(t', r.value) == Good(r.value.slot - 1) && t'.slots[r.value.slot - 1].resident == Some(who))
  {
    hide FreeList, CountFree, CountResident, CountExhausted;
    if free != [] {
      HeadIsFree(t, free);
      PlaceReusesKeeps(t, free, who, maximumSlots);
    } else {
      EmptyFreeList(t);
      PlaceGrowsKeeps(t, free, who, maximumSlots);
    }
  }

  lemma EmptyFreeList(t: Table)
    requires FreeList(t, [])
    ensures t.freeHead.None?
  {
  }

  /** What the head says about the free list. */
  lemma HeadOf(t: Table, free: seq<nat>)
    requires Inv(t, free)
    ensures free == [] ==> t.freeHead.None?
    ensures free != [] ==> free[0] < |t.slots| && IsFree(t.slots[free[0]]) && t.freeHead == Some(free[0])
    ensures free != [] ==> SlotShape(t.slots[free[0]])
  {
    hide FreeList;
    if free == [] {
      EmptyFreeList(t);
    } else {
      HeadIsFree(t, free);
    }
  }

  function FreeAfterVacate(t: Table, free: seq<nat>, i: nat): seq<nat>
    requires i < |t.slots|
  {
    if t.slots[i].generation + 1 <= MAXIMUM_GENERATION then [i] + free else free
  }

  lemma {:induction false} SomeResidentCounts(slots: seq<Slot>, i: nat)
    requires i < |slots| && slots[i].resident.Some?
    ensures CountResident(slots) > 0
  {
    if i < |slots| - 1 {
      SomeResidentCounts(slots[..|slots| - 1], i);
    }
  }

  /** A slot outside the free list may change into anything that is not free. */
  lemma KeepFreeList(t: Table, t': Table, free: seq<nat>, i: nat)
    requires FreeList(t, free) && i < |t.slots| && !IsFree(t.slots[i])
    requires |t'.slots| == |t.slots| && t'.slots == t.slots[i := t'.slots[i]]
    requires !IsFree(t'.slots[i]) && t'.freeHead == t.freeHead
    ensures FreeList(t', free)
  {
    forall k | 0 <= k < |free|
      ensures t'.slots[free[k]] == t.slots[free[k]]
    {
      assert free[k] != i;
    }
  }

  lemma PushLinks(t: Table, t': Table, free: seq<nat>, i: nat, k: nat)
    requires FreeList(t, free) && i < |t.slots| && !IsFree(t.slots[i])
    requires |t'.slots| == |t.slots| && t'.slots == t.slots[i := t'.slots[i]]
    requires IsFree(t'.slots[i]) && t'.slots[i].nextFree == t.freeHead && k <= |free|
    ensures var longer := [i] + free;
      longer[k] < |t'.slots| && IsFree(t'.slots[longer[k]]) && t'.slots[longer[k]].nextFree == Next(longer, k)
  {
    var longer := [i] + free;
    if k > 0 {
      assert longer[k] == free[k - 1] && free[k - 1] != i;
      assert Next(longer, k) == Next(free, k - 1);
    }
  }

  lemma PushFreeList(t: Table, t': Table, free: seq<nat>, i: nat)
    requires FreeList(t, free) && i < |t.slots| && !IsFree(t.slots[i])
    requires |t'.slots| == |t.slots| && t'.slots == t.slots[i := t'.slots[i]]
    requires IsFree(t'.slots[i]) && t'.slots[i].nextFree == t.freeHead && t'.freeHead == Some(i)
    ensures FreeList(t', [i] + free)
  {
    hide IsFree, Next;
    var longer := [i] + free;
    forall k | 0 <= k < |longer|
      ensures longer[k] < |t'.slots| && IsFree(t'.slots[longer[k]]) && t'.slots[longer[k]].nextFree == Next(longer, k)
    {
      PushLinks(t, t', free, i, k);
    }
    forall j, k | 0 <= j < k < |longer|
      ensures longer[j] != longer[k]
    {
      assert longer[k] == free[k - 1] && IsFree(t.slots[free[k - 1]]);
      if j > 0 {
        assert longer[j] == free[j - 1];
      }
    }
    forall j | 0 <= j < |t'.slots| && IsFree(t'.slots[j])
      ensures j in longer
    {
      if j == i {
        assert longer[0] == j;
      } else {
        assert t'.slots[j] == t.slots[j] && j in free;
      }
    }
  }

  lemma VacateKeeps(t: Table, free: seq<nat>, i: nat)
    requires Inv(t, free) && i < |t.slots| && t.slots[i].resident.Some?
    ensures Inv(Vacate(t, i), FreeAfterVacate(t, free, i))
    ensures t.residents > 0 && Vacate(t, i).residents == t.residents - 1
  {
    hide FreeList, CountFree, CountResident, CountExhausted;
    var t' := Vacate(t, i);
    SomeResidentCounts(t.slots, i);
    CountsAfterUpdate(t.slots, i, t'.slots[i]);
    if t.slots[i].generation < MAXIMUM_GENERATION {
      PushFreeList(t, t', free, i);
    } else {
      KeepFreeList(t, t', free, i);
    }
  }

  // ------------------------------------------------------------------------ capacity

  /** Admission of a fresh endpoint never reaches a full slot table, exhausted slots or not. */
  lemma FreshAdmissionFindsASlot(t: Table, free: seq<nat>, who: Resident, maximumFresh: nat)
    requires Inv(t, free) && CanAdmitFresh(t, maximumFresh)
    ensures InsertFresh(t, who, maximumFresh).1.Good?
  {
    SlotsAreConserved(t, free);
    PlaceKeeps(t, free, who, 2 * maximumFresh);
  }

  /** A fresh insert fails exactly when admission refuses it. */
  lemma FreshFailsIff(t: Table, free: seq<nat>, who: Resident, maximumFresh: nat)
    requires Inv(t, free)
    ensures InsertFresh(t, who, maximumFresh).1.Bad? <==> !CanAdmitFresh(t, maximumFresh)
  {
    if CanAdmitFresh(t, maximumFresh) {
      FreshAdmissionFindsASlot(t, free, who, maximumFresh);
    }
  }

  /** A recovery fails exactly when residents and exhausted slots fill a table of `2 * maximumFresh` slots. */
  lemma RecoveryFailsIff(t: Table, free: seq<nat>, who: Resident, maximumFresh: nat)
    requires Inv(t, free) && |t.slots| <= 2 * maximumFresh
    ensures InsertRecovery(t, who, maximumFresh).1.Bad? <==> t.residents + t.exhausted >= 2 * maximumFresh
  {
    SlotsAreConserved(t, free);
    PlaceKeeps(t, free, who, 2 * maximumFresh);
  }

  /** The host registry's admission already counts exhausted slots, so it too never meets a full table. */
  lemma HostFailsIff(t: Table, free: seq<nat>, who: Resident, maximumHosts: nat)
    requires Inv(t, free) && |t.slots| <= maximumHosts
    ensures InsertHost(t, who, maximumHosts).1.Bad? <==> t.residents + t.exhausted >= maximumHosts
  {
    SlotsAreConserved(t, free);
    PlaceKeeps(t, free, who, maximumHosts);
  }
}
