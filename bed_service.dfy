/** src/services/bedService.ts, as functions on records: the bed numbers
    `bulkCreateBeds` creates and the beds it writes, and the record changes
    of `updateBedStatus`, `assignPatientToBed`, `confirmAdmission` and
    `cancelRegulation`. The `Store` class applies them to the collections. */
module BedService {
  import opened Common
  import opened BedTypes
  import opened RequestTypes

  /** `existingNumbers`: the numbers of the beds whose `unitId` is the
      given unit. */
  function UnitBedNumbers(beds: map<string, Bed>, unitId: string): set<int> {
    set id | id in beds && beds[id].unitId == unitId :: beds[id].bedNumber
  }

  /** The numbers `i` with `lo <= i < hi` and `i` not in `existing`, in
      ascending order: the `i` for which the loop of `bulkCreateBeds` calls
      `batch.set`, once `hi` has reached `end + 1`. */
  function NumbersToCreate(existing: set<int>, lo: int, hi: int): seq<int>
    decreases hi - lo
  {
    if hi <= lo then []
    else NumbersToCreate(existing, lo, hi - 1) + (if hi - 1 in existing then [] else [hi - 1])
  }

  /** A number is created exactly when it lies in the range and is not yet
      used in the unit. */
  lemma {:induction false} NumbersToCreateMembers(existing: set<int>, lo: int, hi: int, x: int)
    ensures x in NumbersToCreate(existing, lo, hi) <==> lo <= x < hi && x !in existing
    decreases hi - lo
  {
    if lo < hi {
      NumbersToCreateMembers(existing, lo, hi - 1, x);
    }
  }

  /** The created numbers lie in the range and are strictly increasing, so
      no number is created twice. */
  lemma {:induction false} NumbersToCreateIncreasing(existing: set<int>, lo: int, hi: int)
    ensures forall i :: 0 <= i < |NumbersToCreate(existing, lo, hi)| ==>
              lo <= NumbersToCreate(existing, lo, hi)[i] < hi
    ensures forall i, j :: 0 <= i < j < |NumbersToCreate(existing, lo, hi)| ==>
              NumbersToCreate(existing, lo, hi)[i] < NumbersToCreate(existing, lo, hi)[j]
    decreases hi - lo
  {
    if lo < hi {
      NumbersToCreateIncreasing(existing, lo, hi - 1);
    }
  }

  /** At most one bed per number of the range. */
  lemma {:induction false} NumbersToCreateBound(existing: set<int>, lo: int, hi: int)
    ensures |NumbersToCreate(existing, lo, hi)| <= if hi <= lo then 0 else hi - lo
    decreases hi - lo
  {
    if lo < hi {
      NumbersToCreateBound(existing, lo, hi - 1);
    }
  }

  /** A bed as `bulkCreateBeds` writes it. */
  function NewBed(unitId: string, unitName: string, n: int, now: nat): (b: Bed)
    ensures b.status == Closed && b.currentPatientId.None?
    ensures b.unitId == unitId && b.unitName == Some(unitName) && b.bedNumber == n
  {
    Bed(unitId, Some(unitName), n, Closed, None, Some(now))
  }

  /** The id of the `j`-th document of a batch whose first fresh id is
      `AutoId(base)`. */
  function BatchId(base: nat, j: nat): (id: string)
    ensures |id| == base + j + 1
  {
    AutoId(base + j)
  }

  /** The batch of `bulkCreateBeds`: bed `j` of `nums` under the `j`-th
      fresh id after `base`. */
  function CreatedBeds(unitId: string, unitName: string, nums: seq<int>, base: nat, now: nat): map<string, Bed>
  {
    if nums == [] then map[]
    else CreatedBeds(unitId, unitName, nums[..|nums| - 1], base, now)
           [BatchId(base, |nums| - 1) := NewBed(unitId, unitName, nums[|nums| - 1], now)]
  }

  /** The batch holds exactly one bed per listed number, under ids
      `BatchId(base, 0)` to `BatchId(base, |nums| - 1)`. */
  lemma {:induction false} CreatedBedsShape(unitId: string, unitName: string, nums: seq<int>, base: nat, now: nat)
    ensures forall j :: 0 <= j < |nums| ==>
              BatchId(base, j) in CreatedBeds(unitId, unitName, nums, base, now) &&
              CreatedBeds(unitId, unitName, nums, base, now)[BatchId(base, j)] == NewBed(unitId, unitName, nums[j], now)
    ensures forall id :: id in CreatedBeds(unitId, unitName, nums, base, now) ==>
              base + 1 <= |id| <= base + |nums|
    ensures |CreatedBeds(unitId, unitName, nums, base, now).Keys| == |nums|
  {
    if nums != [] {
      var init := nums[..|nums| - 1];
      CreatedBedsShape(unitId, unitName, init, base, now);
      var m := CreatedBeds(unitId, unitName, init, base, now);
      var k := BatchId(base, |nums| - 1);
      assert k !in m;
      assert m[k := NewBed(unitId, unitName, nums[|nums| - 1], now)].Keys == m.Keys + {k};
      forall j | 0 <= j < |nums|
        ensures BatchId(base, j) in CreatedBeds(unitId, unitName, nums, base, now)
        ensures CreatedBeds(unitId, unitName, nums, base, now)[BatchId(base, j)] == NewBed(unitId, unitName, nums[j], now)
      {
        if j < |nums| - 1 {
          assert |BatchId(base, j)| != |k|;
          assert init[j] == nums[j];
        }
      }
    }
  }

  /** Adding the batch to beds whose ids are all shorter than the batch's
      keeps every existing bed and keeps ids shorter than the next fresh
      one. */
  lemma BatchIsFresh(beds: map<string, Bed>, unitId: string, unitName: string, nums: seq<int>, base: nat, now: nat)
    requires forall id :: id in beds ==> |id| <= base
    ensures forall id :: id in beds + CreatedBeds(unitId, unitName, nums, base, now) ==> |id| <= base + |nums|
    ensures forall id :: id in beds ==>
              id in beds + CreatedBeds(unitId, unitName, nums, base, now) &&
              (beds + CreatedBeds(unitId, unitName, nums, base, now))[id] == beds[id]
  {
    CreatedBedsShape(unitId, unitName, nums, base, now);
  }

  /** Every bed in the batch is a new closed, empty bed of the unit whose
      number is one of the listed numbers. */
  lemma {:induction false} CreatedBedsAreNew(unitId: string, unitName: string, nums: seq<int>, base: nat, now: nat, id: string)
    requires id in CreatedBeds(unitId, unitName, nums, base, now)
    ensures exists j :: 0 <= j < |nums| &&
              CreatedBeds(unitId, unitName, nums, base, now)[id] == NewBed(unitId, unitName, nums[j], now)
  {
    var init := nums[..|nums| - 1];
    if id != BatchId(base, |nums| - 1) {
      CreatedBedsAreNew(unitId, unitName, init, base, now, id);
      var j :| 0 <= j < |init| && CreatedBeds(unitId, unitName, init, base, now)[id] == NewBed(unitId, unitName, init[j], now);
      assert init[j] == nums[j];
    }
  }

  /** After the batch is committed, every number of the range is used in the
      unit, so repeating the same call creates nothing. */
  lemma SecondRunCreatesNothing(beds: map<string, Bed>, unitId: string, unitName: string,
                                start: int, end: int, base: nat, now: nat)
    requires forall id :: id in beds ==> |id| <= base
    ensures NumbersToCreate(UnitBedNumbers(beds + CreatedBeds(unitId, unitName,
              NumbersToCreate(UnitBedNumbers(beds, unitId), start, end + 1), base, now), unitId), start, end + 1) == []
  {
    var existing := UnitBedNumbers(beds, unitId);
    var nums := NumbersToCreate(existing, start, end + 1);
    var created := CreatedBeds(unitId, unitName, nums, base, now);
    var after := beds + created;
    CreatedBedsShape(unitId, unitName, nums, base, now);
    forall x | start <= x < end + 1 ensures x in UnitBedNumbers(after, unitId) {
      NumbersToCreateMembers(existing, start, end + 1, x);
      if x in existing {
        var id :| id in beds && beds[id].unitId == unitId && beds[id].bedNumber == x;
        assert id !in created;
        assert after[id] == beds[id];
      } else {
        var j :| 0 <= j < |nums| && nums[j] == x;
        assert after[BatchId(base, j)] == NewBed(unitId, unitName, x, now);
      }
    }
    NoneLeftToCreate(UnitBedNumbers(after, unitId), start, end + 1);
  }

  lemma {:induction false} NoneLeftToCreate(existing: set<int>, lo: int, hi: int)
    requires forall x :: lo <= x < hi ==> x in existing
    ensures NumbersToCreate(existing, lo, hi) == []
    decreases hi - lo
  {
    if lo < hi {
      NoneLeftToCreate(existing, lo, hi - 1);
    }
  }

  /** A number used only by a bed of another unit does not stop creation. */
  lemma OtherUnitsDoNotBlock(beds: map<string, Bed>, unitId: string, other: string, start: int, end: int)
    requires other in beds && beds[other].unitId != unitId
    requires start <= beds[other].bedNumber <= end
    requires forall id :: id in beds && beds[id].unitId == unitId ==> beds[id].bedNumber != beds[other].bedNumber
    ensures beds[other].bedNumber in NumbersToCreate(UnitBedNumbers(beds, unitId), start, end + 1)
  {
    NumbersToCreateMembers(UnitBedNumbers(beds, unitId), start, end + 1, beds[other].bedNumber);
  }

  /** `updateBedStatus`: the status and the update time, nothing else. */
  function WithStatus(b: Bed, s: BedStatus, now: nat): (b': Bed)
    ensures b'.status == s && b'.updatedAt == Some(now)
    ensures b'.(status := b.status, updatedAt := b.updatedAt) == b
  {
    b.(status := s, updatedAt := Some(now))
  }

  /** JavaScript truthiness of an optional string: absent and "" are
      falsy. */
  function Truthy(s: Option<string>): Option<string> {
    if s.Some? && s.value != "" then s else None
  }

  const Regulator: string := "Médico Regulador"

  /** The request update of `assignPatientToBed`. */
  function RegulatedRequest(r: Request, bedId: string, unitId: string, justification: Option<string>, now: nat): Request {
    r.(status := Regulated,
       assignedBedId := Some(bedId),
       assignedUnitId := Some(unitId),
       regulationJustification := Truthy(justification),
       auditHistory := r.auditHistory +
         [AuditEntry("regulated", None, None, Some(Truthy(justification).GetOr("Regulação padrão")), now, Regulator)])
  }

  /** The bed update of `assignPatientToBed`. */
  function OccupiedBed(b: Bed, requestId: string, now: nat): Bed {
    b.(status := Occupied, currentPatientId := Some(requestId), updatedAt := Some(now))
  }

  /** `confirmAdmission`. */
  function AdmittedRequest(r: Request, now: nat): Request {
    r.(status := Admitted,
       auditHistory := r.auditHistory + [AuditEntry("admitted", None, None, None, now, "Enfermagem/Administrativo")])
  }

  /** The request update of `cancelRegulation`. */
  function RegulationCancelledRequest(r: Request, now: nat): Request {
    r.(status := WaitingBed,
       assignedBedId := None,
       assignedUnitId := None,
       auditHistory := r.auditHistory +
         [AuditEntry("regulation_cancelled", None, None, Some("Cancelamento de regulação"), now, Regulator)])
  }

  /** The bed update of `cancelRegulation` (and of `confirmDischarge`). */
  function VacatedBed(b: Bed, now: nat): Bed {
    b.(status := Clean, currentPatientId := None, updatedAt := Some(now))
  }

  /** The audit reason of an assignment is the justification when one is
      given and the standard text otherwise; the stored justification is
      then null. */
  lemma RegulationReason(r: Request, bedId: string, unitId: string, justification: Option<string>, now: nat)
    ensures RegulatedRequest(r, bedId, unitId, justification, now).auditHistory[|r.auditHistory|].reason ==
            Some(if justification.Some? && justification.value != "" then justification.value else "Regulação padrão")
    ensures RegulatedRequest(r, bedId, unitId, justification, now).regulationJustification.None? <==>
            (justification.None? || justification == Some(""))
    ensures RegulatedRequest(r, bedId, unitId, justification, now).status == Regulated
    ensures !InStatusEnum(RegulatedRequest(r, bedId, unitId, justification, now).status)
  {
  }

  /** Assigning and then cancelling leaves the bed clean and empty whatever
      its status was before, puts the request back in the waiting list with
      no assignment, and adds exactly two audit entries. */
  lemma AssignThenCancel(r: Request, b: Bed, requestId: string, bedId: string, unitId: string,
                         justification: Option<string>, t1: nat, t2: nat)
    ensures VacatedBed(OccupiedBed(b, requestId, t1), t2) == VacatedBed(b, t2)
    ensures VacatedBed(b, t2).status == Clean && VacatedBed(b, t2).currentPatientId.None?
    ensures RegulationCancelledRequest(RegulatedRequest(r, bedId, unitId, justification, t1), t2).status == WaitingBed
    ensures RegulationCancelledRequest(RegulatedRequest(r, bedId, unitId, justification, t1), t2).assignedBedId.None?
    ensures RegulationCancelledRequest(RegulatedRequest(r, bedId, unitId, justification, t1), t2).assignedUnitId.None?
    ensures |RegulationCancelledRequest(RegulatedRequest(r, bedId, unitId, justification, t1), t2).auditHistory|
            == |r.auditHistory| + 2
    ensures RegulationCancelledRequest(RegulatedRequest(r, bedId, unitId, justification, t1), t2).auditHistory[..|r.auditHistory|]
            == r.auditHistory
  {
  }
}
