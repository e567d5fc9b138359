/**
 Recovery headroom: endpoints belong to document lineages, recovery is
 create-before-revoke, and half of the slots are kept out of fresh admission for
 it. When does a document find room for its replacement?
 */
module RegistryHeadroom {
  import opened Engine
  import opened SlotTable
  import opened RegistryRuns

  // --------------------------------------------------------------- who holds endpoints

  function Serves(s: Slot, lineage: nat): nat {
    if s.resident.Some? && s.resident.value.lineage == lineage then 1 else 0
  }

  /** How many resident endpoints a document holds. */
  function CountLineage(slots: seq<Slot>, lineage: nat): nat {
    if slots == [] then 0
    else CountLineage(slots[..|slots| - 1], lineage) + Serves(slots[|slots| - 1], lineage)
  }

  /** The documents that hold at least one endpoint. */
  function Holders(slots: seq<Slot>): set<nat> {
    if slots == [] then {}
    else
      var last := slots[|slots| - 1].resident;
      Holders(slots[..|slots| - 1]) + (if last.Some? then {last.value.lineage} else {})
  }

  function HoldingExactly(slots: seq<Slot>, n: nat): set<nat> {
    set lineage | lineage in Holders(slots) && CountLineage(slots, lineage) == n
  }

  predicate AtMostTwoEach(slots: seq<Slot>) {
    forall lineage :: lineage in Holders(slots) ==> CountLineage(slots, lineage) <= 2
  }

  lemma {:induction false} HoldersHold(slots: seq<Slot>, lineage: nat)
    ensures lineage in Holders(slots) <==> CountLineage(slots, lineage) > 0
  {
    if slots != [] {
      HoldersHold(slots[..|slots| - 1], lineage);
    }
  }

  lemma {:induction false} HoldersAreFew(slots: seq<Slot>)
    ensures |Holders(slots)| <= CountResident(slots)
  {
    if slots != [] {
      HoldersAreFew(slots[..|slots| - 1]);
    }
  }

  /** One more endpoint of a document that holds at most one. */
  lemma BooksGrow(once: set<nat>, twice: set<nat>, lineage: nat)
    requires once !! twice && lineage !in twice
    ensures var once' := if lineage in once then once - {lineage} else once + {lineage};
      var twice' := if lineage in once then twice + {lineage} else twice;
      once' !! twice' && |once'| + 2 * |twice'| == |once| + 2 * |twice| + 1 && once' + twice' == once + twice + {lineage}
  {
  }

  /** Residents counted by document. */
  lemma {:induction false} ResidentsByDocument(slots: seq<Slot>)
    requires AtMostTwoEach(slots)
    ensures HoldingExactly(slots, 1) !! HoldingExactly(slots, 2)
    ensures Holders(slots) == HoldingExactly(slots, 1) + HoldingExactly(slots, 2)
    ensures CountResident(slots) == |HoldingExactly(slots, 1)| + 2 * |HoldingExactly(slots, 2)|
  {
    if slots != [] {
      var rest := slots[..|slots| - 1];
      var last := slots[|slots| - 1].resident;
      forall lineage
        ensures lineage in Holders(rest) <==> CountLineage(rest, lineage) > 0
        ensures lineage in Holders(slots) <==> CountLineage(slots, lineage) > 0
      {
        HoldersHold(rest, lineage);
        HoldersHold(slots, lineage);
      }
      ResidentsByDocument(rest);
      if last.None? {
        assert HoldingExactly(slots, 1) == HoldingExactly(rest, 1) && HoldingExactly(slots, 2) == HoldingExactly(rest, 2);
      } else {
        OneMoreEndpoint(slots, last.value.lineage);
        BooksGrow(HoldingExactly(rest, 1), HoldingExactly(rest, 2), last.value.lineage);
      }
    }
  }

  lemma OneMoreEndpoint(slots: seq<Slot>, lineage: nat)
    requires slots != [] && AtMostTwoEach(slots) && slots[|slots| - 1].resident.Some?
    requires slots[|slots| - 1].resident.value.lineage == lineage
    ensures var rest := slots[..|slots| - 1];
      var once, twice := HoldingExactly(rest, 1), HoldingExactly(rest, 2);
      && lineage !in twice
      && HoldingExactly(slots, 1) == (if lineage in once then once - {lineage} else once + {lineage})
      && HoldingExactly(slots, 2) == (if lineage in once then twice + {lineage} else twice)
  {
    var rest := slots[..|slots| - 1];
    assert lineage in Holders(slots);
    forall l
      ensures l in Holders(rest) <==> CountLineage(rest, l) > 0
      ensures CountLineage(slots, l) == CountLineage(rest, l) + (if l == lineage then 1 else 0)
    {
      HoldersHold(rest, l);
    }
  }

  // ---------------------------------------------------------- what operations do to them

  lemma {:induction false} LineageAfterUpdate(slots: seq<Slot>, i: nat, s: Slot, lineage: nat)
    requires i < |slots|
    ensures CountLineage(slots[i := s], lineage) + Serves(slots[i], lineage) == CountLineage(slots, lineage) + Serves(s, lineage)
  {
    var last := |slots| - 1;
    if i == last {
      assert slots[i := s][..last] == slots[..last];
    } else {
      LineageAfterUpdate(slots[..last], i, s, lineage);
      assert slots[i := s][..last] == slots[..last][i := s];
    }
  }

  lemma LineageAfterGrowth(slots: seq<Slot>, s: Slot, lineage: nat)
    ensures CountLineage(slots + [s], lineage) == CountLineage(slots, lineage) + Serves(s, lineage)
  {
    assert (slots + [s])[..|slots|] == slots;
  }

  lemma PlaceServes(t: Table, free: seq<nat>, who: Resident, maximumSlots: nat, lineage: nat)
    requires Inv(t, free) && Place(t, who, maximumSlots).1.Good?
    ensures CountLineage(Place(t, who, maximumSlots).0.slots, lineage)
         == CountLineage(t.slots, lineage) + (if who.lineage == lineage then 1 else 0)
    ensures |t.slots| <= maximumSlots ==> |Place(t, who, maximumSlots).0.slots| <= maximumSlots
    ensures |t.slots| > maximumSlots ==> |Place(t, who, maximumSlots).0.slots| == |t.slots|
  {
    hide Inv, CountLineage;
    HeadOf(t, free);
    if free != [] {
      LineageAfterUpdate(t.slots, free[0], t.slots[free[0]].(nextFree := None, resident := Some(who)), lineage);
    } else {
      LineageAfterGrowth(t.slots, Slot(1, Some(who), None, false), lineage);
    }
  }

  lemma VacateServes(t: Table, i: nat, lineage: nat)
    requires i < |t.slots| && t.slots[i].resident.Some?
    ensures CountLineage(Vacate(t, i).slots, lineage) + Serves(t.slots[i], lineage) == CountLineage(t.slots, lineage)
    ensures |Vacate(t, i).slots| == |t.slots|
  {
    LineageAfterUpdate(t.slots, i, Vacate(t, i).slots[i], lineage);
  }

  lemma FewerHolders(before: set<nat>, after: set<nat>)
    requires after <= before
    ensures |after| <= |before|
  {
    assert before == after + (before - after);
  }

  /** The table never outgrows its slots, whatever the operations. */
  lemma ApplyKeepsSize(l: Ledger, op: Op, maximum: nat)
    requires HandlesInv(l) && |l.table.slots| <= 2 * maximum
    ensures |Apply(l, op, maximum).table.slots| <= 2 * maximum
  {
    hide Inv, HandlesInv, Place, CountLineage;
    TableInv(l);
    if !op.Retire? {
      InsertIsPlace(l.table, op, maximum);
      if Insert(l.table, op, maximum).1.Good? {
        PlaceServes(l.table, l.free, op.who, if op.Host? then maximum else 2 * maximum, 0);
      }
    }
  }

  lemma {:induction false} RunKeepsSize(l: Ledger, ops: seq<Op>, maximum: nat)
    requires HandlesInv(l) && |l.table.slots| <= 2 * maximum
    ensures HandlesInv(Run(l, ops, maximum)) && |Run(l, ops, maximum).table.slots| <= 2 * maximum
    decreases |ops|
  {
    hide HandlesInv, Apply;
    if ops != [] {
      ApplyKeepsHandles(l, ops[0], maximum);
      ApplyKeepsSize(l, ops[0], maximum);
      RunKeepsSize(Apply(l, ops[0], maximum), ops[1..], maximum);
    }
  }

  // ------------------------------------------------------------------ the exact condition

  /**
   Over every run, whoever recovers and whatever was created before: a recovery
   fails exactly when residents and exhausted slots fill the table. Counted by
   documents that hold at most two endpoints each, that is when twice the holders,
   less those that hold one, with the exhausted slots reach twice the fresh limit.
   */
  lemma RecoveryFailsExactly(ops: seq<Op>, maximum: nat, who: Resident)
    ensures var t := Run(NewLedger, ops, maximum).table;
      && (InsertRecovery(t, who, maximum).1.Bad? <==> t.residents + t.exhausted >= 2 * maximum)
      && (AtMostTwoEach(t.slots) ==>
            (InsertRecovery(t, who, maximum).1.Bad? <==>
               2 * |Holders(t.slots)| - |HoldingExactly(t.slots, 1)| + t.exhausted >= 2 * maximum))
  {
    hide HandlesInv, Run, InsertRecovery, AtMostTwoEach, Holders, HoldingExactly, FreeList;
    NewLedgerInv();
    RunKeepsSize(NewLedger, ops, maximum);
    var l := Run(NewLedger, ops, maximum);
    TableInv(l);
    RecoveryFailsIff(l.table, l.free, who, maximum);
    if AtMostTwoEach(l.table.slots) {
      ResidentsByDocument(l.table.slots);
    }
  }

  /**
   The guarantee a caller can check: with at most two endpoints each, no exhausted
   slot and no more documents holding endpoints than fresh admissions allow, a
   document that holds one endpoint can create its replacement.
   */
  lemma RecoveryFindsRoom(ops: seq<Op>, maximum: nat, who: Resident)
    requires var t := Run(NewLedger, ops, maximum).table;
      && AtMostTwoEach(t.slots) && t.exhausted == 0 && |Holders(t.slots)| <= maximum
      && CountLineage(t.slots, who.lineage) == 1
    ensures InsertRecovery(Run(NewLedger, ops, maximum).table, who, maximum).1.Good?
  {
    hide Run, InsertRecovery, AtMostTwoEach;
    var t := Run(NewLedger, ops, maximum).table;
    RecoveryFailsExactly(ops, maximum, who);
    HoldersHold(t.slots, who.lineage);
    assert who.lineage in HoldingExactly(t.slots, 1);
  }

  // ------------------------------------------------------------- create before revoke

  /** A recovery replaces an endpoint that is still resident. */
  predicate ReplacesResident(l: Ledger, op: Op) {
    op.Recover? ==> CountLineage(l.table.slots, op.who.lineage) > 0
  }

  predicate CreateBeforeRevoke(l: Ledger, ops: seq<Op>, maximum: nat)
    decreases |ops|
  {
    ops == [] || (ReplacesResident(l, ops[0]) && CreateBeforeRevoke(Apply(l, ops[0], maximum), ops[1..], maximum))
  }

  lemma InsertKeepsHolders(l: Ledger, op: Op, maximum: nat)
    requires HandlesInv(l) && !op.Retire? && ReplacesResident(l, op) && |Holders(l.table.slots)| <= maximum
    ensures |Holders(Apply(l, op, maximum).table.slots)| <= maximum
  {
    hide Place, HandlesInv, CountLineage, Holders, FreeList, CountFree, CountExhausted, CountResident;
    TableInv(l);
    var (t, r) := Insert(l.table, op, maximum);
    if r.Good? {
      InsertIsPlace(l.table, op, maximum);
      var maximumSlots := if op.Host? then maximum else 2 * maximum;
      PlaceKeeps(l.table, l.free, op.who, maximumSlots);
      if op.Recover? {
        forall lineage
          ensures lineage in Holders(t.slots) <==> lineage in Holders(l.table.slots)
        {
          PlaceServes(l.table, l.free, op.who, maximumSlots, lineage);
          HoldersHold(t.slots, lineage);
          HoldersHold(l.table.slots, lineage);
        }
        assert Holders(t.slots) == Holders(l.table.slots);
      } else {
        HoldersAreFew(t.slots);
      }
    }
  }

  lemma RetireKeepsHolders(l: Ledger, h: Handle, maximum: nat)
    requires HandlesInv(l) && |Holders(l.table.slots)| <= maximum
    ensures |Holders(Apply(l, Retire(h), maximum).table.slots)| <= maximum
  {
    hide HandlesInv, CountLineage, Holders, Vacate, FreeAfterVacate;
    if Validate(l.table, h).Good? {
      var i := Validate(l.table, h).value;
      var after := Vacate(l.table, i).slots;
      forall lineage | lineage in Holders(after)
        ensures lineage in Holders(l.table.slots)
      {
        VacateServes(l.table, i, lineage);
        HoldersHold(after, lineage);
        HoldersHold(l.table.slots, lineage);
      }
      FewerHolders(Holders(l.table.slots), Holders(after));
    }
  }

  /** Create-before-revoke runs never let more documents hold endpoints than fresh admissions allow. */
  lemma {:induction false} HoldersStayWithinFreshLimit(l: Ledger, ops: seq<Op>, maximum: nat)
    requires HandlesInv(l) && |Holders(l.table.slots)| <= maximum && CreateBeforeRevoke(l, ops, maximum)
    ensures |Holders(Run(l, ops, maximum).table.slots)| <= maximum
    decreases |ops|
  {
    hide HandlesInv, Apply, Holders, ReplacesResident;
    if ops != [] {
      ApplyKeepsHandles(l, ops[0], maximum);
      if ops[0].Retire? {
        RetireKeepsHolders(l, ops[0].handle, maximum);
      } else {
        InsertKeepsHolders(l, ops[0], maximum);
      }
      HoldersStayWithinFreshLimit(Apply(l, ops[0], maximum), ops[1..], maximum);
    }
  }

  /**
   Over every run whose recoveries replace a resident endpoint, with any fresh
   creations and retirements: if no document ends with more than two endpoints and
   no slot is exhausted, a document that holds one can create its replacement.
   */
  lemma RecoveryAlwaysFindsRoom(ops: seq<Op>, maximum: nat, who: Resident)
    requires CreateBeforeRevoke(NewLedger, ops, maximum)
    requires var t := Run(NewLedger, ops, maximum).table;
      AtMostTwoEach(t.slots) && t.exhausted == 0 && CountLineage(t.slots, who.lineage) == 1
    ensures InsertRecovery(Run(NewLedger, ops, maximum).table, who, maximum).1.Good?
  {
    hide Run, InsertRecovery, AtMostTwoEach, CreateBeforeRevoke, CountLineage;
    NewLedgerInv();
    HoldersStayWithinFreshLimit(NewLedger, ops, maximum);
    RecoveryFindsRoom(ops, maximum, who);
  }

  // --------------------------------------------------------------- when it does not hold

  const First: Resident := Resident(1, 1)
  const Second: Resident := Resident(2, 2)

  /** The first document is retired, a second takes its place, and the first recovers from nothing. */
  const RecoverWithoutPredecessor: seq<Op> := [Fresh(First), Retire(Handle(1, 1)), Fresh(Second), Recover(First)]

  /**
   The registry does not ask whether a recovery's predecessor is resident. Here
   each document ends with one endpoint and no slot is exhausted, and yet the second
   document cannot be replaced: more documents hold endpoints than were admitted fresh.
   */
  lemma RecoveryWithoutPredecessorTakesHeadroom()
    ensures var t := Run(NewLedger, RecoverWithoutPredecessor, 1).table;
      && CountLineage(t.slots, 1) == 1 && CountLineage(t.slots, 2) == 1 && t.exhausted == 0 && AtMostTwoEach(t.slots)
      && Holders(t.slots) == {1, 2}
      && InsertRecovery(t, Second, 1).1 == Bad(CapacityExceeded)
    ensures !CreateBeforeRevoke(NewLedger, RecoverWithoutPredecessor, 1)
  {
    var ops := RecoverWithoutPredecessor;
    var a := Apply(NewLedger, ops[0], 1);
    var b := Apply(a, ops[1], 1);
    var c := Apply(b, ops[2], 1);
    var d := Apply(c, ops[3], 1);
    var second, first := Slot(2, Some(Second), None, false), Slot(1, Some(First), None, false);
    assert a.table == Table([first], None, 1, 0);
    assert b.table == Table([Slot(2, None, None, false)], Some(0), 0, 0);
    assert c.table == Table([second], None, 1, 0);
    assert d.table == Table([second, first], None, 2, 0);
    OneSlot(second, 1);
    OneSlot(second, 2);
    TwoSlots(second, first, 1);
    TwoSlots(second, first, 2);
    FourSteps(NewLedger, ops, 1);
  }

  lemma OneSlot(s: Slot, lineage: nat)
    ensures CountLineage([s], lineage) == Serves(s, lineage)
    ensures Holders([s]) == if s.resident.Some? then {s.resident.value.lineage} else {}
  {
    assert [s][..0] == [];
  }

  lemma TwoSlots(s: Slot, t: Slot, lineage: nat)
    ensures CountLineage([s, t], lineage) == Serves(s, lineage) + Serves(t, lineage)
    ensures Holders([s, t]) == Holders([s]) + if t.resident.Some? then {t.resident.value.lineage} else {}
  {
    OneSlot(s, lineage);
    assert [s, t][..1] == [s];
  }

  lemma FourSteps(l: Ledger, ops: seq<Op>, maximum: nat)
    requires |ops| == 4
    ensures var a := Apply(l, ops[0], maximum);
      var b := Apply(a, ops[1], maximum);
      var c := Apply(b, ops[2], maximum);
      && Run(l, ops, maximum) == Apply(c, ops[3], maximum)
      && (CreateBeforeRevoke(l, ops, maximum) ==> ReplacesResident(c, ops[3]))
  {
    hide Apply, ReplacesResident;
    var one, two, three := ops[1..], ops[2..], ops[3..];
    assert one[1..] == two && two[1..] == three && three[1..] == [];
    assert one[0] == ops[1] && two[0] == ops[2] && three[0] == ops[3];
    var a := Apply(l, ops[0], maximum);
    var b := Apply(a, ops[1], maximum);
    var c := Apply(b, ops[2], maximum);
    assert Run(l, ops, maximum) == Run(a, one, maximum) == Run(b, two, maximum) == Run(c, three, maximum);
    assert Run(c, three, maximum) == Run(Apply(c, ops[3], maximum), [], maximum);
    assert CreateBeforeRevoke(l, ops, maximum) ==> CreateBeforeRevoke(a, one, maximum);
    assert CreateBeforeRevoke(a, one, maximum) ==> CreateBeforeRevoke(b, two, maximum);
    assert CreateBeforeRevoke(b, two, maximum) ==> CreateBeforeRevoke(c, three, maximum);
  }
}
