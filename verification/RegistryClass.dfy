/**
 The two registries as objects: slots, free head and counters updated in place
 under the registry lock, with the free list and all handles ever issued kept as
 ghost state.
 */
module RegistryObject {
  import opened Engine
  import opened SlotTable
  import opened RegistryRuns

  const MAXIMUM_FRESH_ENDPOINTS: nat := 2048
  const MAXIMUM_RESIDENT_HOSTS: nat := 2048

  /** The state both registries keep behind their lock. */
  class RegistryState {
    var slots: seq<Slot>
    var freeHead: Option<nat>
    var residents: nat
    var exhausted: nat
    ghost var free: seq<nat>
    ghost var issued: seq<Handle>
    ghost var retired: set<Handle>

    ghost function View(): Table
      reads this
    {
      Table(slots, freeHead, residents, exhausted)
    }

    ghost predicate Valid()
      reads this
    {
      HandlesInv(Ledger(View(), free, issued, retired))
    }

    constructor ()
      ensures Valid() && View() == SlotTable.Empty && issued == [] && retired == {}
    {
      slots, freeHead, residents, exhausted := [], None, 0, 0;
      free, issued, retired := [], [], {};
      new;
      NewLedgerInv();
    }

    /** `validate_handle`: in bounds, of the current generation, and resident. */
    method ValidateHandle(h: Handle) returns (r: Answer<nat>)
      requires Valid()
      ensures r == Validate(View(), h)
      ensures r.Good? <==> h in issued && h !in retired
    {
      if h.slot == 0 || h.generation == 0 || h.slot > |slots| {
        return Bad(InvalidHandle);
      }
      var slot := slots[h.slot - 1];
      if slot.generation != h.generation || slot.resident.None? {
        return Bad(StaleHandle);
      }
      return Good(h.slot - 1);
    }

    /** Pops the free list, or grows the table; the handle was never issued before. */
    method Place(who: Resident, maximumSlots: nat) returns (r: Answer<Handle>)
      requires Valid()
      modifies this
      ensures Valid() && (View(), r) == SlotTable.Place(old(View()), who, maximumSlots)
      ensures r.Good? ==> r.value !in old(issued) && issued == old(issued) + [r.value] && retired == old(retired)
      ensures r.Bad? <==> old(free) == [] && |old(slots)| >= maximumSlots
      ensures r.Bad? ==> unchanged(this)
    {
      hide Inv, HandlesInv;
      ghost var before := Ledger(View(), free, issued, retired);
      TableInv(before);
      PlaceKeeps(View(), free, who, maximumSlots);
      HeadFollowsList(View(), free);
      if freeHead.Some? {
        var i := freeHead.value;
        freeHead := slots[i].nextFree;
        r := Good(Handle(i + 1, slots[i].generation));
        slots := slots[i := slots[i].(nextFree := None, resident := Some(who))];
      } else {
        if |slots| >= maximumSlots {
          return Bad(CapacityExceeded);
        }
        slots := slots + [Slot(1, Some(who), None, false)];
        r := Good(Handle(|slots|, 1));
      }
      residents := residents + 1;
      issued := issued + [r.value];
      free := FreeAfterPlace(free);
      PlacedIsNew(before, who, maximumSlots);
      PlaceKeepsHandles(before, who, maximumSlots, Ledger(View(), free, issued, retired));
    }

    /** Takes a resident out of its slot; the slot's generation moves on or is spent for good. */
    method Vacate(h: Handle) returns (r: Answer<Resident>)
      requires Valid()
      modifies this
      ensures r.Good? <==> Validate(old(View()), h).Good?
      ensures r.Good? ==> && Some(r.value) == old(slots)[h.slot - 1].resident
                          && View() == SlotTable.Vacate(old(View()), h.slot - 1)
                          && retired == old(retired) + {h} && issued == old(issued)
      ensures Valid() && (r.Good? <==> h in old(issued) && h !in old(retired))
      ensures r.Bad? ==> unchanged(this)
    {
      hide Inv, HandlesInv;
      ghost var before := Ledger(View(), free, issued, retired);
      TableInv(before);
      RetireKeepsHandles(before, h, 0);
      var valid := ValidateHandle(h);
      if valid.Bad? {
        return Bad(valid.failure);
      }
      var i := valid.value;
      VacateKeeps(View(), free, i);
      ghost var after := RegistryRuns.Apply(before, Retire(h), 0);
      var slot := slots[i];
      residents := residents - 1;
      if slot.generation < MAXIMUM_GENERATION {
        slots := slots[i := Slot(slot.generation + 1, None, freeHead, slot.exhausted)];
        freeHead := Some(i);
      } else {
        slots := slots[i := Slot(slot.generation, None, None, true)];
        exhausted := exhausted + 1;
      }
      free, retired := after.free, retired + {h};
      assert after == Ledger(View(), free, issued, retired);
      return Good(slot.resident.value);
    }
  }

  lemma HeadFollowsList(t: Table, free: seq<nat>)
    requires Inv(t, free)
    ensures t.freeHead.Some? <==> free != []
    ensures t.freeHead.Some? ==> t.freeHead.value < |t.slots|
  {
  }

  class EndpointRegistry {
    const maximumFresh: nat
    const maximumSlots: nat
    const state: RegistryState

    ghost predicate Valid()
      reads this, state
    {
      state.Valid() && maximumSlots == 2 * maximumFresh && |state.slots| <= maximumSlots
    }

    /** Half of the slots are kept out of fresh admission. */
    constructor (maximumFresh: nat)
      requires 0 < maximumFresh <= MAXIMUM_FRESH_ENDPOINTS
      ensures Valid() && fresh(state) && state.View() == SlotTable.Empty && this.maximumFresh == maximumFresh
    {
      this.maximumFresh, maximumSlots := maximumFresh, 2 * maximumFresh;
      state := new RegistryState();
    }

    /** `new`: a limit outside the advertised range is refused. */
    static method Open(maximumFresh: nat) returns (r: Option<EndpointRegistry>)
      ensures r.Some? <==> 0 < maximumFresh <= MAXIMUM_FRESH_ENDPOINTS
      ensures r.Some? ==> r.value.Valid() && r.value.maximumFresh == maximumFresh && fresh(r.value.state)
    {
      if maximumFresh == 0 || maximumFresh > MAXIMUM_FRESH_ENDPOINTS {
        return None;
      }
      var registry := new EndpointRegistry(maximumFresh);
      return Some(registry);
    }

    method CanAdmit() returns (ok: bool)
      requires Valid()
      ensures ok == CanAdmitFresh(state.View(), maximumFresh)
    {
      var after := state.residents + 1;
      if after > maximumFresh {
        return false;
      }
      var reusable := if state.exhausted <= maximumSlots then maximumSlots - state.exhausted else 0;
      return 2 * after <= reusable;
    }

    /** A fresh endpoint is refused exactly by admission: the slot table itself is never full then. */
    method CreateFresh(who: Resident) returns (r: Answer<Handle>)
      requires Valid()
      modifies state
      ensures Valid() && (state.View(), r) == InsertFresh(old(state.View()), who, maximumFresh)
      ensures r.Bad? <==> !CanAdmitFresh(old(state.View()), maximumFresh)
      ensures r.Good? ==> r.value !in old(state.issued) && state.issued == old(state.issued) + [r.value]
    {
      LedgerTable(state.View(), state.free, state.issued, state.retired);
      FreshFailsIff(state.View(), state.free, who, maximumFresh);
      var admitted := CanAdmit();
      if !admitted {
        return Bad(CapacityExceeded);
      }
      r := state.Place(who, maximumSlots);
    }

    method CreateRecovery(who: Resident) returns (r: Answer<Handle>)
      requires Valid()
      modifies state
      ensures Valid() && (state.View(), r) == InsertRecovery(old(state.View()), who, maximumFresh)
      ensures r.Bad? <==> old(state.residents) + old(state.exhausted) >= maximumSlots
      ensures r.Good? ==> r.value !in old(state.issued) && state.issued == old(state.issued) + [r.value]
    {
      LedgerTable(state.View(), state.free, state.issued, state.retired);
      RecoveryFailsIff(state.View(), state.free, who, maximumFresh);
      if state.residents >= maximumSlots {
        return Bad(CapacityExceeded);
      }
      r := state.Place(who, maximumSlots);
    }

    /** `emergency_destroy`; `leases` is how many operations still own the endpoint's Arc. */
    method EmergencyDestroy(h: Handle, leases: nat) returns (r: Answer<Resident>)
      requires Valid()
      modifies state
      ensures Valid()
      ensures r.Good? <==> h in old(state.issued) && h !in old(state.retired) && leases == 0
      ensures r.Good? ==> state.retired == old(state.retired) + {h} && state.issued == old(state.issued)
      ensures r.Bad? ==> unchanged(state)
    {
      var valid := state.ValidateHandle(h);
      if valid.Bad? {
        return Bad(valid.failure);
      }
      if 1 + leases != 1 {
        return Bad(InUse);
      }
      r := state.Vacate(h);
    }
  }

  class HostRegistry {
    const maximumHosts: nat
    const state: RegistryState

    ghost predicate Valid()
      reads this, state
    {
      state.Valid() && |state.slots| <= maximumHosts
    }

    constructor (maximumHosts: nat)
      requires 0 < maximumHosts <= MAXIMUM_RESIDENT_HOSTS
      ensures Valid() && fresh(state) && state.View() == SlotTable.Empty && this.maximumHosts == maximumHosts
    {
      this.maximumHosts := maximumHosts;
      state := new RegistryState();
    }

    /** `new`: a limit outside the advertised range is refused. */
    static method Open(maximumHosts: nat) returns (r: Option<HostRegistry>)
      ensures r.Some? <==> 0 < maximumHosts <= MAXIMUM_RESIDENT_HOSTS
      ensures r.Some? ==> r.value.Valid() && r.value.maximumHosts == maximumHosts && fresh(r.value.state)
    {
      if maximumHosts == 0 || maximumHosts > MAXIMUM_RESIDENT_HOSTS {
        return None;
      }
      var registry := new HostRegistry(maximumHosts);
      return Some(registry);
    }

    /** Exhausted slots are subtracted from the capacity, so the table is never full after admission. */
    method Create(who: Resident) returns (r: Answer<Handle>)
      requires Valid()
      modifies state
      ensures Valid() && (state.View(), r) == InsertHost(old(state.View()), who, maximumHosts)
      ensures r.Bad? <==> old(state.residents) + old(state.exhausted) >= maximumHosts
      ensures r.Good? ==> r.value !in old(state.issued) && state.issued == old(state.issued) + [r.value]
    {
      LedgerTable(state.View(), state.free, state.issued, state.retired);
      HostFailsIff(state.View(), state.free, who, maximumHosts);
      var reusable := if state.exhausted <= maximumHosts then maximumHosts - state.exhausted else 0;
      if state.residents >= reusable {
        return Bad(CapacityExceeded);
      }
      r := state.Place(who, maximumHosts);
    }
  }

  lemma LedgerTable(t: Table, free: seq<nat>, issued: seq<Handle>, retired: set<Handle>)
    requires HandlesInv(Ledger(t, free, issued, retired))
    ensures Inv(t, free)
  {
  }
}
