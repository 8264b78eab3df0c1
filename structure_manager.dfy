/** src/components/StructureManager.tsx: the administration screen for
    units and beds. The form schemas, the refusal to delete a unit that
    still has beds, bulk bed creation for a unit picked from the list, and
    the bed-number editor built on `parseInt`. The screen's unit and bed
    lists are subscriptions to the store, so they are read here as the
    store's own collections. */
module StructureManager {
  import opened Common
  import opened BedTypes
  import opened BedService
  import opened DocumentStore
  import opened JsParseInt

  /** The screen's `UnitSchema`: a name of at least two characters. */
  predicate UnitFormValid(name: string) {
    |name| >= 2
  }

  /** `NewBedsSchema`: a unit is chosen, both numbers are at least 1 and the
      range is not reversed. */
  predicate NewBedsFormValid(unitId: string, start: int, end: int) {
    |unitId| >= 1 && start >= 1 && end >= 1 && end >= start
  }

  /** The screen asks for more than the stored schema: every name the form
      accepts is a valid unit name, but a one-character name is valid in
      the store and refused by the form. */
  lemma UnitFormIsStricter(name: string, description: Option<string>, createdAt: Option<nat>)
    ensures UnitFormValid(name) ==> ValidUnit(Unit(name, description, createdAt))
    ensures |name| == 1 ==> ValidUnit(Unit(name, description, createdAt)) && !UnitFormValid(name)
  {
  }

  /** Every bed a valid bed-range form creates satisfies the stored bed
      schema. */
  lemma NewBedsFormYieldsValidBeds(existing: set<int>, unitId: string, unitName: string, start: int, end: int, now: nat)
    requires NewBedsFormValid(unitId, start, end)
    ensures forall x :: x in NumbersToCreate(existing, start, end + 1) ==> ValidBed(NewBed(unitId, unitName, x, now))
  {
    forall x | x in NumbersToCreate(existing, start, end + 1) ensures ValidBed(NewBed(unitId, unitName, x, now)) {
      NumbersToCreateMembers(existing, start, end + 1, x);
    }
  }

  /** `allBeds.some(b => b.unitId === unit.id)`. */
  predicate UnitHasBeds(beds: map<string, Bed>, unitId: string) {
    exists id :: id in beds && beds[id].unitId == unitId
  }

  /** Every bed names a unit that exists: the invariant the screen's guards
      keep. */
  predicate BedsReferToUnits(units: map<string, Unit>, beds: map<string, Bed>) {
    forall id :: id in beds ==> beds[id].unitId in units
  }

  /** Deleting a unit with no beds keeps every bed's unit in place. */
  lemma DeleteEmptyUnitKeepsReferences(units: map<string, Unit>, beds: map<string, Bed>, unitId: string)
    requires BedsReferToUnits(units, beds) && !UnitHasBeds(beds, unitId)
    ensures BedsReferToUnits(units - {unitId}, beds)
  {
    forall id | id in beds ensures beds[id].unitId in units - {unitId} {
      assert beds[id].unitId != unitId;
    }
  }

  /** Beds created for an existing unit refer to it. */
  lemma {:induction false} CreatedBedsKeepReferences(units: map<string, Unit>, beds: map<string, Bed>, unitId: string,
                                                     unitName: string, nums: seq<int>, base: nat, now: nat)
    requires BedsReferToUnits(units, beds) && unitId in units
    ensures BedsReferToUnits(units, beds + CreatedBeds(unitId, unitName, nums, base, now))
  {
    var created := CreatedBeds(unitId, unitName, nums, base, now);
    forall id | id in beds + created ensures (beds + created)[id].unitId in units {
      if id in created {
        CreatedBedsAreNew(unitId, unitName, nums, base, now, id);
      }
    }
  }

  /** Removing a unit that still has beds would leave them without one. */
  lemma DeleteUnitWithBedsOrphans(units: map<string, Unit>, beds: map<string, Bed>, unitId: string)
    requires UnitHasBeds(beds, unitId)
    ensures !BedsReferToUnits(units - {unitId}, beds)
  {
  }

  /** `onUnitSubmit`: updates the unit being edited, or creates a new one. */
  method OnUnitSubmit(store: Store, editing: Option<string>, name: string, description: Option<string>, now: nat)
    returns (saved: bool)
    requires store.Valid()
    modifies store
    ensures store.Valid()
    ensures !UnitFormValid(name) ==> !saved && store.units == old(store.units)
    ensures UnitFormValid(name) && editing.Some? ==>
              saved == (editing.value in old(store.units))
              && store.units == if saved then old(store.units)[editing.value :=
                   old(store.units)[editing.value].(name := name, description := description)] else old(store.units)
    ensures UnitFormValid(name) && editing.None? ==>
              saved && exists id :: id !in old(store.units) && store.units == old(store.units)[id := Unit(name, description, Some(now))]
    ensures store.requests == old(store.requests) && store.beds == old(store.beds) && store.discharges == old(store.discharges)
    ensures BedsReferToUnits(old(store.units), old(store.beds)) && saved ==> BedsReferToUnits(store.units, store.beds)
  {
    saved := false;
    if !UnitFormValid(name) {
      return;
    }
    if editing.Some? {
      saved := store.UpdateUnit(editing.value, name, description);
    } else {
      var id := store.AddUnit(Unit(name, description, None), now);
      saved := true;
    }
  }

  /** `handleDeleteUnit`: refused while any bed belongs to the unit. */
  method HandleDeleteUnit(store: Store, unitId: string) returns (deleted: bool)
    requires store.Valid()
    modifies store`units
    ensures store.Valid()
    ensures deleted == !UnitHasBeds(old(store.beds), unitId)
    ensures store.units == if deleted then old(store.units) - {unitId} else old(store.units)
    ensures BedsReferToUnits(old(store.units), store.beds) ==> BedsReferToUnits(store.units, store.beds)
  {
    if UnitHasBeds(store.beds, unitId) {
      deleted := false;
      return;
    }
    store.DeleteUnit(unitId);
    deleted := true;
    if BedsReferToUnits(old(store.units), store.beds) {
      DeleteEmptyUnitKeepsReferences(old(store.units), store.beds, unitId);
    }
  }

  /** `onBedSubmit`: the unit is looked up in the unit list; an unknown
      unit ends the handler without writing. */
  method OnBedSubmit(store: Store, unitId: string, start: int, end: int, now: nat) returns (count: Option<nat>)
    requires store.Valid()
    modifies store`beds, store`nextId
    ensures store.Valid()
    ensures !NewBedsFormValid(unitId, start, end) || unitId !in store.units ==>
              count.None? && store.beds == old(store.beds)
    ensures NewBedsFormValid(unitId, start, end) && unitId in store.units ==>
              var nums := NumbersToCreate(UnitBedNumbers(old(store.beds), unitId), start, end + 1);
              count == Some(|nums|)
              && store.beds == old(store.beds) + CreatedBeds(unitId, store.units[unitId].name, nums, old(store.nextId), now)
    ensures BedsReferToUnits(store.units, old(store.beds)) ==> BedsReferToUnits(store.units, store.beds)
  {
    if !NewBedsFormValid(unitId, start, end) || unitId !in store.units {
      return None;
    }
    var n := store.BulkCreateBeds(unitId, store.units[unitId].name, start, end, now);
    count := Some(n);
    if BedsReferToUnits(store.units, old(store.beds)) {
      CreatedBedsKeepReferences(store.units, old(store.beds), unitId, store.units[unitId].name,
        NumbersToCreate(UnitBedNumbers(old(store.beds), unitId), start, end + 1), old(store.nextId), now);
    }
  }

  /** `handleDeleteBed`. */
  method HandleDeleteBed(store: Store, bedId: string)
    requires store.Valid()
    modifies store`beds
    ensures store.Valid()
    ensures store.beds == old(store.beds) - {bedId}
    ensures BedsReferToUnits(store.units, old(store.beds)) ==> BedsReferToUnits(store.units, store.beds)
  {
    store.DeleteBed(bedId);
  }

  /** `handleEditBedNumber`: `input` is what the prompt returned (`None`
      when it was cancelled). A cancelled or empty answer does nothing, and
      so does one `parseInt` reads as NaN; any other number is written,
      including zero and negative ones. */
  method HandleEditBedNumber(store: Store, bedId: string, input: Option<string>) returns (ok: bool)
    requires store.Valid()
    modifies store`beds
    ensures store.Valid()
    ensures input.None? || input.value == [] || ParseInt(input.value).None? ==>
              !ok && store.beds == old(store.beds)
    ensures input.Some? && input.value != [] && ParseInt(input.value).Some? ==>
              ok == (bedId in old(store.beds))
              && store.beds == if ok then old(store.beds)[bedId := old(store.beds)[bedId].(bedNumber := ParseInt(input.value).value)]
                               else old(store.beds)
  {
    if input.None? || input.value == [] {
      return false;
    }
    var parsed := ParseInt(input.value);
    if parsed.None? {
      return false;
    }
    ok := store.UpdateBedNumber(bedId, parsed.value);
  }

  /** Typing "0" (or a negative number) into the editor writes a bed that
      the stored schema rejects. */
  lemma EditorCanBreakBedSchema(b: Bed)
    ensures ParseInt(NatToString(0)) == Some(0)
    ensures !ValidBed(b.(bedNumber := 0))
  {
    ParseIntOfDecimal(0, []);
    assert NatToString(0) + [] == NatToString(0);
  }
}
