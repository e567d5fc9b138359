/**
 Registry operations of any number of threads, interleaved step by step: taking
 and releasing the registry lock, cloning an endpoint's Arc, trying its lock,
 running, and vacating a slot by the Arc's count.
 */
module RegistryLeases {
  import opened Engine
  import opened SlotTable

  /** Where one thread stands. `In...` holds the registry lock, `Want...` waits for it. */
  datatype Thread =
    | Resting
    | WantInsert(isFresh: bool, lineage: nat)
    | InInsert(isFresh: bool, lineage: nat)
    | WantResolve(handle: Handle, removing: bool)
    | InResolve(handle: Handle, removing: bool)
    | Holding(handle: Handle, removing: bool, endpoint: nat)
    | Operating(handle: Handle, endpoint: nat)
    | Guarded(handle: Handle, endpoint: nat)
    | WantRetire(handle: Handle, endpoint: nat)
    | InRetire(handle: Handle, endpoint: nat)
    | Leaving(handle: Handle, endpoint: nat)
    | WantDestroy(handle: Handle)
    | InDestroy(handle: Handle)

  /** `nextId` names the next endpoint to be allocated; `free` is the table's free list. */
  datatype World = World(
    table: Table, free: seq<nat>, threads: seq<Thread>, registry: Option<nat>, nextId: nat, maximumFresh: nat)

  function Start(threads: nat, maximumFresh: nat): World {
    World(SlotTable.Empty, [], seq(threads, _ => Resting), None, 0, maximumFresh)
  }

  predicate InRegistry(t: Thread) {
    t.InInsert? || t.InResolve? || t.InRetire? || t.InDestroy?
  }

  predicate Waiting(t: Thread) {
    t.WantInsert? || t.WantResolve? || t.WantRetire? || t.WantDestroy?
  }

  /** Does the thread own a clone of the endpoint's Arc? */
  predicate Leases(t: Thread, endpoint: nat) {
    (t.Holding? || t.Operating? || t.Guarded? || t.WantRetire? || t.InRetire? || t.Leaving?) && t.endpoint == endpoint
  }

  /** Does the thread hold the endpoint's own lock? */
  predicate Locks(t: Thread, endpoint: nat) {
    (t.Operating? || t.Guarded? || t.WantRetire? || t.InRetire?) && t.endpoint == endpoint
  }

  function CountLeases(threads: seq<Thread>, endpoint: nat): nat {
    if threads == [] then 0
    else CountLeases(threads[..|threads| - 1], endpoint) + (if Leases(threads[|threads| - 1], endpoint) then 1 else 0)
  }

  function CountLocks(threads: seq<Thread>, endpoint: nat): nat {
    if threads == [] then 0
    else CountLocks(threads[..|threads| - 1], endpoint) + (if Locks(threads[|threads| - 1], endpoint) then 1 else 0)
  }

  function CountSlots(slots: seq<Slot>, endpoint: nat): nat {
    if slots == [] then 0
    else
      var last := slots[|slots| - 1].resident;
      CountSlots(slots[..|slots| - 1], endpoint) + (if last.Some? && last.value.id == endpoint then 1 else 0)
  }

  /** `Arc::strong_count`: the slot's own reference and every lease. */
  function StrongCount(w: World, endpoint: nat): nat {
    CountSlots(w.table.slots, endpoint) + CountLeases(w.threads, endpoint)
  }

  // ---------------------------------------------------------------------------- steps

  /** What a step leaves open: which call a resting thread makes, and whether an endpoint may be removed. */
  datatype Choice = Choice(call: Thread, removable: bool)

  function At(w: World, k: nat, t: Thread): World
    requires k < |w.threads|
  {
    w.(threads := w.threads[k := t])
  }

  function Acquire(w: World, k: nat, t: Thread): World
    requires k < |w.threads|
  {
    if w.registry.Some? then w else At(w, k, t).(registry := Some(k))
  }

  function Vacated(w: World, i: nat): World
    requires i < |w.table.slots|
  {
    w.(table := Vacate(w.table, i), free := FreeAfterVacate(w.table, w.free, i))
  }

  function DoInsert(w: World, k: nat, isFresh: bool, lineage: nat): World
    requires k < |w.threads|
  {
    var who := Resident(w.nextId, lineage);
    var (t, r) := if isFresh then InsertFresh(w.table, who, w.maximumFresh) else InsertRecovery(w.table, who, w.maximumFresh);
    var done := At(w, k, Resting).(registry := None, nextId := w.nextId + 1);
    if r.Bad? then done else done.(table := t, free := FreeAfterPlace(w.free))
  }

  function DoResolve(w: World, k: nat, h: Handle, removing: bool): World
    requires k < |w.threads|
  {
    match Validate(w.table, h)
    case Bad(_) => At(w, k, Resting).(registry := None)
    case Good(i) => At(w, k, Holding(h, removing, w.table.slots[i].resident.value.id)).(registry := None)
  }

  /** `remove` under the registry lock: the slot plus this operation may own the Arc, nobody else. */
  function DoRetire(w: World, k: nat, h: Handle, endpoint: nat): World
    requires k < |w.threads|
  {
    var kept := At(w, k, Leaving(h, endpoint)).(registry := None);
    match Validate(w.table, h)
    case Bad(_) => kept
    case Good(i) =>
      if w.table.slots[i].resident.value.id != endpoint || StrongCount(w, endpoint) != 2 then kept
      else Vacated(At(w, k, Resting).(registry := None), i)
  }

  function DoDestroy(w: World, k: nat, h: Handle): World
    requires k < |w.threads|
  {
    var kept := At(w, k, Resting).(registry := None);
    match Validate(w.table, h)
    case Bad(_) => kept
    case Good(i) => if StrongCount(w, w.table.slots[i].resident.value.id) != 1 then kept else Vacated(kept, i)
  }

  /** One step of thread `k`; a step that cannot be taken leaves the world as it is. */
  function Next(w: World, k: nat, choice: Choice): World {
    if k >= |w.threads| then w
    else
      match w.threads[k]
      case Resting =>
        if choice.call.WantInsert? || choice.call.WantResolve? || choice.call.WantDestroy? then At(w, k, choice.call) else w
      case WantInsert(isFresh, lineage) => Acquire(w, k, InInsert(isFresh, lineage))
      case InInsert(isFresh, lineage) => DoInsert(w, k, isFresh, lineage)
      case WantResolve(h, removing) => Acquire(w, k, InResolve(h, removing))
      case InResolve(h, removing) => DoResolve(w, k, h, removing)
      case Holding(h, removing, endpoint) =>
        if CountLocks(w.threads, endpoint) > 0 then At(w, k, Leaving(h, endpoint))
        else At(w, k, if removing then Guarded(h, endpoint) else Operating(h, endpoint))
      case Operating(h, endpoint) => At(w, k, Leaving(h, endpoint))
      case Guarded(h, endpoint) => At(w, k, if choice.removable then WantRetire(h, endpoint) else Leaving(h, endpoint))
      case WantRetire(h, endpoint) => Acquire(w, k, InRetire(h, endpoint))
      case InRetire(h, endpoint) => DoRetire(w, k, h, endpoint)
      case Leaving(_, _) => At(w, k, Resting)
      case WantDestroy(h) => Acquire(w, k, InDestroy(h))
      case InDestroy(h) => DoDestroy(w, k, h)
  }

  // ------------------------------------------------------------------------ invariant

  /** The lease is backed: its handle still validates, to the very endpoint leased. */
  predicate Backed(t: Table, h: Handle, endpoint: nat) {
    Validate(t, h).Good? && t.slots[h.slot - 1].resident.value.id == endpoint
  }

  predicate ThreadBacked(t: Table, thread: Thread) {
    thread.Holding? || thread.Operating? || thread.Guarded? || thread.WantRetire? || thread.InRetire? || thread.Leaving?
    ==> Backed(t, thread.handle, thread.endpoint)
  }

  predicate IdsUnique(slots: seq<Slot>, nextId: nat) {
    && (forall i :: 0 <= i < |slots| && slots[i].resident.Some? ==> slots[i].resident.value.id < nextId)
    && (forall i, j :: 0 <= i < j < |slots| && slots[i].resident.Some? && slots[j].resident.Some? ==>
          slots[i].resident.value.id != slots[j].resident.value.id)
  }

  predicate RegistryExclusive(w: World) {
    && (w.registry.Some? ==> w.registry.value < |w.threads|)
    && (forall k :: 0 <= k < |w.threads| ==> (InRegistry(w.threads[k]) <==> w.registry == Some(k)))
  }

  ghost predicate LocksExclusive(threads: seq<Thread>) {
    forall endpoint: nat :: CountLocks(threads, endpoint) <= 1
  }

  ghost predicate WInv(w: World) {
    && Inv(w.table, w.free) && RegistryExclusive(w) && LocksExclusive(w.threads)
    && (forall k :: 0 <= k < |w.threads| ==> ThreadBacked(w.table, w.threads[k]))
    && IdsUnique(w.table.slots, w.nextId)
  }

  // --------------------------------------------------------------------------- counting

  lemma {:induction false} CountsAfter(threads: seq<Thread>, k: nat, t: Thread, endpoint: nat)
    requires k < |threads|
    ensures CountLeases(threads[k := t], endpoint) + (if Leases(threads[k], endpoint) then 1 else 0)
         == CountLeases(threads, endpoint) + (if Leases(t, endpoint) then 1 else 0)
    ensures CountLocks(threads[k := t], endpoint) + (if Locks(threads[k], endpoint) then 1 else 0)
         == CountLocks(threads, endpoint) + (if Locks(t, endpoint) then 1 else 0)
  {
    var last := |threads| - 1;
    if k == last {
      assert threads[k := t][..last] == threads[..last];
    } else {
      CountsAfter(threads[..last], k, t, endpoint);
      assert threads[k := t][..last] == threads[..last][k := t];
    }
  }

  lemma {:induction false} LeaseCounts(threads: seq<Thread>, k: nat, endpoint: nat)
    requires k < |threads|
    ensures Leases(threads[k], endpoint) ==> CountLeases(threads, endpoint) > 0
    ensures Locks(threads[k], endpoint) ==> CountLocks(threads, endpoint) > 0
  {
    if k < |threads| - 1 {
      LeaseCounts(threads[..|threads| - 1], k, endpoint);
    }
  }

  lemma TwoLeasesCount(threads: seq<Thread>, j: nat, k: nat, endpoint: nat)
    requires j < |threads| && k < |threads| && j != k
    ensures Leases(threads[j], endpoint) && Leases(threads[k], endpoint) ==> CountLeases(threads, endpoint) >= 2
    ensures Locks(threads[j], endpoint) && Locks(threads[k], endpoint) ==> CountLocks(threads, endpoint) >= 2
  {
    CountsAfter(threads, j, Resting, endpoint);
    LeaseCounts(threads[j := Resting], k, endpoint);
  }

  lemma {:induction false} ResidentCounts(slots: seq<Slot>, i: nat)
    requires i < |slots| && slots[i].resident.Some?
    ensures CountSlots(slots, slots[i].resident.value.id) > 0
  {
    if i < |slots| - 1 {
      ResidentCounts(slots[..|slots| - 1], i);
    }
  }

  lemma {:induction false} NoLocksAtRest(n: nat, endpoint: nat)
    ensures CountLocks(seq(n, _ => Resting), endpoint) == 0
  {
    if n > 0 {
      assert seq(n, _ => Resting)[..n - 1] == seq(n - 1, _ => Resting);
      NoLocksAtRest(n - 1, endpoint);
    }
  }

  lemma StartInv(threads: nat, maximumFresh: nat)
    ensures WInv(Start(threads, maximumFresh))
  {
    var idle := seq(threads, _ => Resting);
    forall endpoint: nat
      ensures CountLocks(idle, endpoint) <= 1
    {
      NoLocksAtRest(threads, endpoint);
    }
  }

  // ------------------------------------------------------------------- what a step keeps

  /** Moving one thread keeps the locks exclusive unless it takes a lock already held. */
  lemma ThreadMoves(threads: seq<Thread>, k: nat, t: Thread)
    requires k < |threads| && LocksExclusive(threads)
    requires forall endpoint: nat :: Locks(t, endpoint) ==> Locks(threads[k], endpoint) || CountLocks(threads, endpoint) == 0
    ensures LocksExclusive(threads[k := t])
  {
    var after := threads[k := t];
    forall endpoint: nat
      ensures CountLocks(after, endpoint) <= 1
    {
      CountsAfter(threads, k, t, endpoint);
    }
  }

  /** A thread moves, possibly taking or giving up the registry; the table stays. */
  lemma MoveKeeps(w: World, k: nat, t: Thread, registry: Option<nat>)
    requires WInv(w) && k < |w.threads|
    requires forall endpoint: nat :: Locks(t, endpoint) ==> Locks(w.threads[k], endpoint) || CountLocks(w.threads, endpoint) == 0
    requires ThreadBacked(w.table, t)
    requires registry == (if InRegistry(t) then Some(k) else if w.registry == Some(k) then None else w.registry)
    requires InRegistry(t) ==> w.registry.None?
    ensures WInv(At(w, k, t).(registry := registry))
  {
    hide Inv, CountLocks;
    ThreadMoves(w.threads, k, t);
    var w' := At(w, k, t).(registry := registry);
    forall j | 0 <= j < |w'.threads|
      ensures InRegistry(w'.threads[j]) <==> w'.registry == Some(j)
      ensures ThreadBacked(w'.table, w'.threads[j])
    {
      assert j != k ==> w'.threads[j] == w.threads[j];
    }
  }

  /** No thread but `k` leases what slot `i` holds: the Arc count said so. */
  predicate OnlyLeasedBy(w: World, k: nat, i: nat)
    requires i < |w.table.slots|
  {
    w.table.slots[i].resident.Some? &&
    forall j :: 0 <= j < |w.threads| && j != k ==> !Leases(w.threads[j], w.table.slots[i].resident.value.id)
  }

  lemma VacateStaysBacked(t: Table, i: nat, h: Handle, endpoint: nat)
    requires i < |t.slots| && t.slots[i].resident.Some? && Backed(t, h, endpoint)
    requires t.slots[i].resident.value.id != endpoint
    ensures Backed(Vacate(t, i), h, endpoint)
  {
  }

  lemma VacateKeepsIds(t: Table, i: nat, nextId: nat)
    requires i < |t.slots| && IdsUnique(t.slots, nextId)
    ensures IdsUnique(Vacate(t, i).slots, nextId)
  {
  }

  lemma VacateWorldKeeps(w: World, k: nat, i: nat)
    requires WInv(w) && k < |w.threads| && w.threads[k] == Resting && i < |w.table.slots| && OnlyLeasedBy(w, k, i)
    ensures WInv(Vacated(w, i))
  {
    hide Inv, CountLocks, IdsUnique, Vacate, FreeAfterVacate, Backed;
    VacateKeeps(w.table, w.free, i);
    VacateKeepsIds(w.table, i, w.nextId);
    forall j | 0 <= j < |w.threads|
      ensures ThreadBacked(Vacate(w.table, i), w.threads[j])
    {
      var t := w.threads[j];
      if t.Holding? || t.Operating? || t.Guarded? || t.WantRetire? || t.InRetire? || t.Leaving? {
        assert Leases(t, t.endpoint);
        VacateStaysBacked(w.table, i, t.handle, t.endpoint);
      }
    }
  }

  /** When `remove` or `emergency_destroy` finds the expected count, nobody else has a lease. */
  lemma CountMeansAlone(w: World, k: nat, i: nat)
    requires k < |w.threads| && i < |w.table.slots| && w.table.slots[i].resident.Some?
    requires var endpoint := w.table.slots[i].resident.value.id;
      StrongCount(w, endpoint) == (if Leases(w.threads[k], endpoint) then 2 else 1)
    ensures OnlyLeasedBy(w, k, i)
  {
    var endpoint := w.table.slots[i].resident.value.id;
    ResidentCounts(w.table.slots, i);
    forall j | 0 <= j < |w.threads| && j != k
      ensures !Leases(w.threads[j], endpoint)
    {
      TwoLeasesCount(w.threads, j, k, endpoint);
      LeaseCounts(w.threads, j, endpoint);
    }
  }

  lemma PlaceStaysBacked(t: Table, free: seq<nat>, who: Resident, maximumSlots: nat, h: Handle, endpoint: nat)
    requires Inv(t, free) && Backed(t, h, endpoint) && Place(t, who, maximumSlots).1.Good?
    ensures Backed(Place(t, who, maximumSlots).0, h, endpoint)
  {
    hide Inv;
    HeadOf(t, free);
  }

  lemma PlaceKeepsIds(t: Table, who: Resident, maximumSlots: nat)
    requires IdsUnique(t.slots, who.id)
    ensures IdsUnique(Place(t, who, maximumSlots).0.slots, who.id + 1)
  {
  }

  lemma InsertKeeps(w: World, k: nat, isFresh: bool, lineage: nat)
    requires WInv(w) && k < |w.threads| && w.threads[k] == InInsert(isFresh, lineage)
    ensures WInv(DoInsert(w, k, isFresh, lineage))
  {
    hide Inv, CountLocks, IdsUnique, Place, FreeAfterPlace, Backed;
    MoveKeeps(w, k, Resting, None);
    var rested := At(w, k, Resting).(registry := None);
    var who := Resident(w.nextId, lineage);
    PlaceKeeps(w.table, w.free, who, 2 * w.maximumFresh);
    PlaceKeepsIds(w.table, who, 2 * w.maximumFresh);
    OlderIds(w.table.slots, w.nextId);
    var (t, r) := Place(w.table, who, 2 * w.maximumFresh);
    if r.Good? {
      forall j | 0 <= j < |rested.threads|
        ensures ThreadBacked(t, rested.threads[j])
      {
        var thread := rested.threads[j];
        if thread.Holding? || thread.Operating? || thread.Guarded? || thread.WantRetire? || thread.InRetire? || thread.Leaving? {
          PlaceStaysBacked(w.table, w.free, who, 2 * w.maximumFresh, thread.handle, thread.endpoint);
        }
      }
    }
  }

  lemma OlderIds(slots: seq<Slot>, nextId: nat)
    requires IdsUnique(slots, nextId)
    ensures IdsUnique(slots, nextId + 1)
  {
  }

  lemma RetireKeeps(w: World, k: nat, h: Handle, endpoint: nat)
    requires WInv(w) && k < |w.threads| && w.threads[k] == InRetire(h, endpoint)
    ensures WInv(DoRetire(w, k, h, endpoint))
  {
    hide Inv, CountLocks, IdsUnique, Vacate, FreeAfterVacate;
    assert ThreadBacked(w.table, w.threads[k]);
    MoveKeeps(w, k, Leaving(h, endpoint), None);
    MoveKeeps(w, k, Resting, None);
    var i := h.slot - 1;
    if StrongCount(w, endpoint) == 2 {
      CountMeansAlone(w, k, i);
      VacateWorldKeeps(At(w, k, Resting).(registry := None), k, i);
    }
  }

  lemma DestroyKeeps(w: World, k: nat, h: Handle)
    requires WInv(w) && k < |w.threads| && w.threads[k] == InDestroy(h)
    ensures WInv(DoDestroy(w, k, h))
  {
    hide Inv, CountLocks, IdsUnique, Vacate, FreeAfterVacate;
    MoveKeeps(w, k, Resting, None);
    if Validate(w.table, h).Good? {
      var i := Validate(w.table, h).value;
      if StrongCount(w, w.table.slots[i].resident.value.id) == 1 {
        CountMeansAlone(w, k, i);
        VacateWorldKeeps(At(w, k, Resting).(registry := None), k, i);
      }
    }
  }

  lemma NextKeeps(w: World, k: nat, choice: Choice)
    requires WInv(w)
    ensures WInv(Next(w, k, choice))
  {
    hide Inv, CountLocks, IdsUnique, DoInsert, DoRetire, DoDestroy;
    if k < |w.threads| {
      var t := w.threads[k];
      assert ThreadBacked(w.table, t);
      assert InRegistry(t) <==> w.registry == Some(k);
      match t
      case Resting =>
        if choice.call.WantInsert? || choice.call.WantResolve? || choice.call.WantDestroy? {
          MoveKeeps(w, k, choice.call, w.registry);
        }
      case WantInsert(isFresh, lineage) => AcquireKeeps(w, k, InInsert(isFresh, lineage));
      case InInsert(isFresh, lineage) => InsertKeeps(w, k, isFresh, lineage);
      case WantResolve(h, removing) => AcquireKeeps(w, k, InResolve(h, removing));
      case InResolve(h, removing) =>
        var v := Validate(w.table, h);
        MoveKeeps(w, k, if v.Bad? then Resting else Holding(h, removing, w.table.slots[v.value].resident.value.id), None);
      case Holding(h, removing, endpoint) =>
        if CountLocks(w.threads, endpoint) > 0 {
          MoveKeeps(w, k, Leaving(h, endpoint), w.registry);
        } else {
          MoveKeeps(w, k, if removing then Guarded(h, endpoint) else Operating(h, endpoint), w.registry);
        }
      case Operating(h, endpoint) => MoveKeeps(w, k, Leaving(h, endpoint), w.registry);
      case Guarded(h, endpoint) =>
        MoveKeeps(w, k, if choice.removable then WantRetire(h, endpoint) else Leaving(h, endpoint), w.registry);
      case WantRetire(h, endpoint) => AcquireKeeps(w, k, InRetire(h, endpoint));
      case InRetire(h, endpoint) => RetireKeeps(w, k, h, endpoint);
      case Leaving(_, _) => MoveKeeps(w, k, Resting, w.registry);
      case WantDestroy(h) => AcquireKeeps(w, k, InDestroy(h));
      case InDestroy(h) => DestroyKeeps(w, k, h);
    }
  }

  lemma AcquireKeeps(w: World, k: nat, t: Thread)
    requires WInv(w) && k < |w.threads| && InRegistry(t) && ThreadBacked(w.table, t)
    requires forall endpoint: nat :: Locks(t, endpoint) ==> Locks(w.threads[k], endpoint)
    ensures WInv(Acquire(w, k, t))
  {
    hide Inv, CountLocks, IdsUnique;
    if w.registry.None? {
      MoveKeeps(w, k, t, Some(k));
    }
  }

  // ------------------------------------------------------------------------ whole runs

  datatype Move = Move(thread: nat, choice: Choice)

  function Run(w: World, moves: seq<Move>): World
    decreases |moves|
  {
    if moves == [] then w else Run(Next(w, moves[0].thread, moves[0].choice), moves[1..])
  }

  lemma {:induction false} RunKeeps(w: World, moves: seq<Move>)
    requires WInv(w)
    ensures WInv(Run(w, moves))
    decreases |moves|
  {
    hide WInv, Next;
    if moves != [] {
      NextKeeps(w, moves[0].thread, moves[0].choice);
      RunKeeps(Next(w, moves[0].thread, moves[0].choice), moves[1..]);
    }
  }

  ghost predicate Reachable(w: World) {
    exists threads: nat, maximumFresh: nat, moves: seq<Move> :: w == Run(Start(threads, maximumFresh), moves)
  }

  lemma ReachableInv(w: World)
    requires Reachable(w)
    ensures WInv(w)
  {
    hide WInv, Run, Start;
    var threads: nat, maximumFresh: nat, moves: seq<Move> :| w == Run(Start(threads, maximumFresh), moves);
    StartInv(threads, maximumFresh);
    RunKeeps(Start(threads, maximumFresh), moves);
  }

  /** Over every interleaving, at most one operation runs on an endpoint at a time. */
  lemma OneOperationPerEndpoint(w: World, j: nat, k: nat, endpoint: nat)
    requires Reachable(w) && j < |w.threads| && k < |w.threads| && j != k
    ensures !(Locks(w.threads[j], endpoint) && Locks(w.threads[k], endpoint))
  {
    ReachableInv(w);
    TwoLeasesCount(w.threads, j, k, endpoint);
  }

  /**
   Over every interleaving, a step that takes the resident out of a slot happens
   only when no other thread holds a lease on that endpoint.
   */
  lemma VacatedOnlyWithoutLeases(w: World, k: nat, choice: Choice, i: nat, j: nat)
    requires Reachable(w) && i < |w.table.slots| && w.table.slots[i].resident.Some?
    requires i < |Next(w, k, choice).table.slots| && Next(w, k, choice).table.slots[i].resident != w.table.slots[i].resident
    requires j < |w.threads| && j != k
    ensures !Leases(w.threads[j], w.table.slots[i].resident.value.id)
  {
    hide Inv, IdsUnique, CountLocks;
    ReachableInv(w);
    StepVacates(w, k, choice, i);
  }

  lemma StepVacates(w: World, k: nat, choice: Choice, i: nat)
    requires WInv(w) && i < |w.table.slots| && w.table.slots[i].resident.Some?
    requires i < |Next(w, k, choice).table.slots| && Next(w, k, choice).table.slots[i].resident != w.table.slots[i].resident
    ensures k < |w.threads| && OnlyLeasedBy(w, k, i)
  {
    hide Inv, IdsUnique, CountLocks, CountLeases, CountSlots, FreeAfterVacate, FreeAfterPlace, DoInsert;
    var t := w.threads[k];
    if t.InInsert? {
      InsertLeavesResidents(w, k, t.isFresh, t.lineage, i);
    } else {
      assert t.InRetire? || t.InDestroy?;
      assert Validate(w.table, t.handle) == Good(i);
      CountMeansAlone(w, k, i);
    }
  }

  lemma InsertLeavesResidents(w: World, k: nat, isFresh: bool, lineage: nat, i: nat)
    requires WInv(w) && k < |w.threads| && i < |w.table.slots| && w.table.slots[i].resident.Some?
    ensures i < |DoInsert(w, k, isFresh, lineage).table.slots|
    ensures DoInsert(w, k, isFresh, lineage).table.slots[i] == w.table.slots[i]
  {
    hide Inv, IdsUnique, CountLocks;
    HeadOf(w.table, w.free);
  }

  /** A handle resolved by a running operation stays valid until the operation lets go. */
  lemma LeaseKeepsHandleValid(w: World, k: nat, endpoint: nat)
    requires Reachable(w) && k < |w.threads| && Leases(w.threads[k], endpoint)
    ensures Validate(w.table, w.threads[k].handle).Good?
    ensures w.table.slots[w.threads[k].handle.slot - 1].resident.value.id == endpoint
  {
    ReachableInv(w);
    assert ThreadBacked(w.table, w.threads[k]);
  }

  /**
   The lock order cannot deadlock: a thread inside the registry gives it back in
   its next step, whatever endpoint locks the others hold; everyone else either
   moves now or waits for that thread alone.
   */
  lemma NoDeadlock(w: World, k: nat, choice: Choice)
    requires Reachable(w) && k < |w.threads| && w.threads[k] != Resting
    ensures InRegistry(w.threads[k]) ==> Next(w, k, choice).registry.None?
    ensures Next(w, k, choice).threads[k] != w.threads[k]
         || (Waiting(w.threads[k]) && w.registry.Some? && w.registry.value != k
             && Next(w, w.registry.value, choice).registry.None?)
  {
    hide Inv, IdsUnique, CountLocks, CountLeases, CountSlots, Vacate, Place;
    ReachableInv(w);
    if w.registry.Some? {
      assert InRegistry(w.threads[w.registry.value]);
    }
  }
}
