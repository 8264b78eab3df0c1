/** The document store behind the services: the request, unit, bed and
    discharge collections as maps from document id to record, and one method
    per write the services issue (a single-document write, or a batch that
    changes two records or none). New ids come from a counter. */
module DocumentStore {
  import opened Common
  import opened BedTypes
  import opened RequestTypes
  import opened DischargeTypes
  import opened RequestService
  import opened BedService
  import opened DischargeService

  class Store {
    var requests: map<string, Request>
    var units: map<string, Unit>
    var beds: map<string, Bed>
    var discharges: map<string, DischargeAssessment>
    /** How many ids have been handed out; every id in use is shorter than
        `AutoId(nextId)`, so the next id is fresh. */
    var nextId: nat

    ghost predicate Valid()
      reads this
    {
      && (forall id :: id in requests ==> |id| <= nextId)
      && (forall id :: id in units ==> |id| <= nextId)
      && (forall id :: id in beds ==> |id| <= nextId)
      && (forall id :: id in discharges ==> |id| <= nextId)
    }

    constructor ()
      ensures Valid()
      ensures requests == map[] && units == map[] && beds == map[] && discharges == map[]
    {
      requests, units, beds, discharges := map[], map[], map[], map[];
      nextId := 0;
    }

    /** `addDoc`'s fresh id. */
    method NewId() returns (id: string)
      requires Valid()
      modifies this`nextId
      ensures Valid() && nextId == old(nextId) + 1
      ensures id !in requests && id !in units && id !in beds && id !in discharges
      ensures |id| == nextId
    {
      id := AutoId(nextId);
      nextId := nextId + 1;
    }

    /** `addRequest`: stores `NewRequest(data, now)` under a fresh id and
        returns the id. */
    method AddRequest(data: Request, now: nat) returns (id: string)
      requires Valid()
      modifies this
      ensures Valid()
      ensures id !in old(requests) && requests == old(requests)[id := NewRequest(data, now)]
      ensures requests[id].status == PendingReview
      ensures units == old(units) && beds == old(beds) && discharges == old(discharges)
    {
      id := NewId();
      requests := requests[id := NewRequest(data, now)];
    }

    /** `updateRequest(id, patch, draft)`: merges the fields and appends the
        stamped entry; a missing record is not written and `ok` is false. */
    method UpdateRequest(id: string, patch: RequestPatch, draft: AuditDraft, now: nat) returns (ok: bool)
      requires Valid()
      modifies this`requests
      ensures Valid()
      ensures ok == (id in old(requests))
      ensures requests == if ok then old(requests)[id := Updated(old(requests)[id], patch, draft, now)] else old(requests)
    {
      ok := id in requests;
      if ok {
        requests := requests[id := Updated(requests[id], patch, draft, now)];
      }
    }

    /** `addUnit`. */
    method AddUnit(u: Unit, now: nat) returns (id: string)
      requires Valid()
      modifies this
      ensures Valid()
      ensures id !in old(units) && units == old(units)[id := u.(createdAt := Some(now))]
      ensures requests == old(requests) && beds == old(beds) && discharges == old(discharges)
    {
      id := NewId();
      units := units[id := u.(createdAt := Some(now))];
    }

    /** `updateUnit(id, { name, description })`: a merge of the two form
        fields; a missing unit is not written. */
    method UpdateUnit(id: string, name: string, description: Option<string>) returns (ok: bool)
      requires Valid()
      modifies this`units
      ensures Valid()
      ensures ok == (id in old(units))
      ensures units == if ok then old(units)[id := old(units)[id].(name := name, description := description)] else old(units)
    {
      ok := id in units;
      if ok {
        units := units[id := units[id].(name := name, description := description)];
      }
    }

    /** `deleteUnit`: removes the unit if it is there. */
    method DeleteUnit(id: string)
      requires Valid()
      modifies this`units
      ensures Valid()
      ensures units == old(units) - {id}
    {
      units := units - {id};
    }

    /** `deleteBed`: removes the bed if it is there. */
    method DeleteBed(id: string)
      requires Valid()
      modifies this`beds
      ensures Valid()
      ensures beds == old(beds) - {id}
    {
      beds := beds - {id};
    }

    /** `updateBed(id, { bedNumber })`: a merge of the number alone. */
    method UpdateBedNumber(id: string, n: int) returns (ok: bool)
      requires Valid()
      modifies this`beds
      ensures Valid()
      ensures ok == (id in old(beds))
      ensures beds == if ok then old(beds)[id := old(beds)[id].(bedNumber := n)] else old(beds)
    {
      ok := id in beds;
      if ok {
        beds := beds[id := beds[id].(bedNumber := n)];
      }
    }

    /** `bulkCreateBeds`: one new bed for each number of `start..end` that no
        bed of the unit uses, written in one batch that is committed only
        when it is not empty; returns how many beds it created. */
    method BulkCreateBeds(unitId: string, unitName: string, start: int, end: int, now: nat) returns (count: nat)
      requires Valid()
      modifies this`beds, this`nextId
      ensures Valid()
      ensures count == |NumbersToCreate(UnitBedNumbers(old(beds), unitId), start, end + 1)|
      ensures beds == old(beds) + CreatedBeds(unitId, unitName,
                NumbersToCreate(UnitBedNumbers(old(beds), unitId), start, end + 1), old(nextId), now)
      ensures forall id :: id in old(beds) ==> id in beds && beds[id] == old(beds)[id]
      ensures nextId == old(nextId) + count
    {
      var batch;
      batch, count := BedBatch(UnitBedNumbers(beds, unitId), unitId, unitName, start, end, nextId, now);
      BatchIsFresh(beds, unitId, unitName, NumbersToCreate(UnitBedNumbers(beds, unitId), start, end + 1), nextId, now);
      if count > 0 {
        beds := beds + batch;
        nextId := nextId + count;
      }
    }

    /** `updateBedStatus`: the bed's status and update time. */
    method UpdateBedStatus(bedId: string, status: BedStatus, now: nat) returns (ok: bool)
      requires Valid()
      modifies this`beds
      ensures Valid()
      ensures ok == (bedId in old(beds))
      ensures beds == if ok then old(beds)[bedId := WithStatus(old(beds)[bedId], status, now)] else old(beds)
    {
      ok := bedId in beds;
      if ok {
        beds := beds[bedId := WithStatus(beds[bedId], status, now)];
      }
    }

    /** `assignPatientToBed`: a batch over the request and the bed, written
        both or neither; neither prior status is checked. */
    method AssignPatientToBed(requestId: string, bedId: string, unitId: string, justification: Option<string>, now: nat)
      returns (ok: bool)
      requires Valid()
      modifies this`requests, this`beds
      ensures Valid()
      ensures ok == (requestId in old(requests) && bedId in old(beds))
      ensures requests == if ok then old(requests)[requestId :=
                RegulatedRequest(old(requests)[requestId], bedId, unitId, justification, now)] else old(requests)
      ensures beds == if ok then old(beds)[bedId := OccupiedBed(old(beds)[bedId], requestId, now)] else old(beds)
    {
      ok := requestId in requests && bedId in beds;
      if ok {
        requests := requests[requestId := RegulatedRequest(requests[requestId], bedId, unitId, justification, now)];
        beds := beds[bedId := OccupiedBed(beds[bedId], requestId, now)];
      }
    }

    /** `confirmAdmission`: the request alone; no bed is touched. */
    method ConfirmAdmission(requestId: string, now: nat) returns (ok: bool)
      requires Valid()
      modifies this`requests
      ensures Valid()
      ensures ok == (requestId in old(requests))
      ensures requests == if ok then old(requests)[requestId := AdmittedRequest(old(requests)[requestId], now)]
                          else old(requests)
    {
      ok := requestId in requests;
      if ok {
        requests := requests[requestId := AdmittedRequest(requests[requestId], now)];
      }
    }

    /** `cancelRegulation`: a batch over the request and the bed. */
    method CancelRegulation(requestId: string, bedId: string, now: nat) returns (ok: bool)
      requires Valid()
      modifies this`requests, this`beds
      ensures Valid()
      ensures ok == (requestId in old(requests) && bedId in old(beds))
      ensures requests == if ok then old(requests)[requestId :=
                RegulationCancelledRequest(old(requests)[requestId], now)] else old(requests)
      ensures beds == if ok then old(beds)[bedId := VacatedBed(old(beds)[bedId], now)] else old(beds)
    {
      ok := requestId in requests && bedId in beds;
      if ok {
        requests := requests[requestId := RegulationCancelledRequest(requests[requestId], now)];
        beds := beds[bedId := VacatedBed(beds[bedId], now)];
      }
    }

    /** `addDischargeAssessment`. */
    method AddDischargeAssessment(data: DischargeAssessment, now: nat) returns (id: string)
      requires Valid()
      modifies this
      ensures Valid()
      ensures id !in old(discharges) && discharges == old(discharges)[id := NewAssessment(data, now)]
      ensures requests == old(requests) && units == old(units) && beds == old(beds)
    {
      id := NewId();
      discharges := discharges[id := NewAssessment(data, now)];
    }

    /** `confirmDischarge`: a batch over the assessment and the bed; neither
        prior status is checked. */
    method ConfirmDischarge(assessmentId: string, bedId: string, now: nat) returns (ok: bool)
      requires Valid()
      modifies this`discharges, this`beds
      ensures Valid()
      ensures ok == (assessmentId in old(discharges) && bedId in old(beds))
      ensures discharges == if ok then old(discharges)[assessmentId :=
                DischargedAssessment(old(discharges)[assessmentId])] else old(discharges)
      ensures beds == if ok then old(beds)[bedId := VacatedBed(old(beds)[bedId], now)] else old(beds)
    {
      ok := assessmentId in discharges && bedId in beds;
      if ok {
        discharges := discharges[assessmentId := DischargedAssessment(discharges[assessmentId])];
        beds := beds[bedId := VacatedBed(beds[bedId], now)];
      }
    }

    /** `reviewDischarge`. */
    method ReviewDischarge(assessmentId: string, decision: DischargeStatus, observation: string, now: nat)
      returns (ok: bool)
      requires Valid()
      modifies this`discharges
      ensures Valid()
      ensures ok == (assessmentId in old(discharges))
      ensures discharges == if ok then old(discharges)[assessmentId :=
                ReviewedAssessment(old(discharges)[assessmentId], decision, observation, now)] else old(discharges)
    {
      ok := assessmentId in discharges;
      if ok {
        discharges := discharges[assessmentId := ReviewedAssessment(discharges[assessmentId], decision, observation, now)];
      }
    }
  }

  /** The loop of `bulkCreateBeds`: walks `i` from `start` to `end`, adds a
      bed to the batch for each `i` not in `existing` and counts them. The
      ids are the ones the store hands out from `base` on. */
  method BedBatch(existing: set<int>, unitId: string, unitName: string, start: int, end: int, base: nat, now: nat)
    returns (batch: map<string, Bed>, count: nat)
    ensures count == |NumbersToCreate(existing, start, end + 1)|
    ensures batch == CreatedBeds(unitId, unitName, NumbersToCreate(existing, start, end + 1), base, now)
  {
    batch := map[];
    ghost var created: seq<int> := [];
    count := 0;
    var i := start;
    while i <= end
      invariant i == start || start < i <= end + 1
      invariant created == NumbersToCreate(existing, start, i)
      invariant count == |created|
      invariant batch == CreatedBeds(unitId, unitName, created, base, now)
      decreases end - i
    {
      if i !in existing {
        batch := batch[BatchId(base, count) := NewBed(unitId, unitName, i, now)];
        created := created + [i];
        count := count + 1;
      }
      i := i + 1;
    }
  }
}
