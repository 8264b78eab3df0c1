/** src/components/BedAvailability.tsx: the bed board. Waiting requests are
    ordered by priority; clicking a clean or discharge-confirmed bed opens
    the regulation dialog; choosing a request that is not at the head of the
    queue asks for a written justification before the assignment is made. */
module BedAvailability {
  import opened Common
  import opened Sorting
  import opened BedTypes
  import opened RequestTypes
  import opened BedService
  import opened DocumentStore

  /** `cfmPriority || 99`: a missing (or zero) priority sorts last. */
  function PriorityKey(r: WithId<Request>): int {
    if r.doc.cfmPriority.Some? && r.doc.cfmPriority.value != 0 then r.doc.cfmPriority.value else 99
  }

  /** `sortRequests`: a sorted copy; the comparator returns 0 on equal
      priorities, and the sort is stable. */
  function SortRequests(reqs: seq<WithId<Request>>): (r: seq<WithId<Request>>)
    ensures multiset(r) == multiset(reqs)
    ensures forall i, j :: 0 <= i < j < |r| ==> PriorityKey(r[i]) <= PriorityKey(r[j])
    ensures forall k :: WithKey(r, PriorityKey, k) == WithKey(reqs, PriorityKey, k)
  {
    SortBy(reqs, PriorityKey)
  }

  /** Every evaluated request (priority 1 to 5) comes before every request
      with no priority. */
  lemma EvaluatedFirst(reqs: seq<WithId<Request>>, i: int, j: int)
    requires 0 <= i < |SortRequests(reqs)| && 0 <= j < |SortRequests(reqs)|
    requires SortRequests(reqs)[i].doc.cfmPriority.None?
    requires SortRequests(reqs)[j].doc.cfmPriority.Some?
    requires 1 <= SortRequests(reqs)[j].doc.cfmPriority.value <= 5
    ensures j < i
  {
  }

  /** `sorted[0]?.cfmPriority || 99`. */
  function TopPriority(waiting: seq<WithId<Request>>): int {
    var sorted := SortRequests(waiting);
    if sorted == [] then 99 else PriorityKey(sorted[0])
  }

  /** The check of `handleSelectPatient`. */
  predicate NeedsJustification(waiting: seq<WithId<Request>>, req: WithId<Request>) {
    PriorityKey(req) > TopPriority(waiting)
  }

  /** A choice needs a justification exactly when some waiting request has
      a strictly better priority; choosing the head, or a tie with it, never
      does. */
  lemma {:induction false} JustificationNeededIffBetterWaits(waiting: seq<WithId<Request>>, req: WithId<Request>)
    requires waiting != []
    ensures NeedsJustification(waiting, req) <==>
            exists i :: 0 <= i < |waiting| && PriorityKey(waiting[i]) < PriorityKey(req)
  {
    SortedHeadIsMinimum(waiting, PriorityKey);
    var i :| 0 <= i < |waiting| && SortBy(waiting, PriorityKey)[0] == waiting[i];
    if NeedsJustification(waiting, req) {
      assert PriorityKey(waiting[i]) < PriorityKey(req);
    }
  }

  /** `handleBedClick` opens the dialog for these two statuses only. */
  predicate OpensRegulation(b: Bed) {
    b.status == Clean || b.status == DischargeConfirmed
  }

  /** The assignment waiting for its justification. */
  datatype Assignment = Assignment(reqId: string, bedId: string, unitId: string)

  class RegulationBoard {
    const store: Store
    var selectedBed: Option<WithId<Bed>>
    var regulationOpen: bool
    var justificationOpen: bool
    var pendingAssignment: Option<Assignment>
    var justificationText: string

    ghost predicate Valid()
      reads this, store
    {
      store.Valid()
    }

    constructor (s: Store)
      requires s.Valid()
      ensures Valid() && store == s
      ensures selectedBed.None? && !regulationOpen && !justificationOpen
      ensures pendingAssignment.None? && justificationText == ""
    {
      store := s;
      selectedBed := None;
      regulationOpen := false;
      justificationOpen := false;
      pendingAssignment := None;
      justificationText := "";
    }

    /** `handleStatusUpdate`. */
    method HandleStatusUpdate(bedId: string, status: BedStatus, now: nat) returns (ok: bool)
      requires Valid()
      modifies store`beds
      ensures Valid()
      ensures ok == (bedId in old(store.beds))
      ensures store.beds == if ok then old(store.beds)[bedId := WithStatus(old(store.beds)[bedId], status, now)]
                            else old(store.beds)
    {
      ok := store.UpdateBedStatus(bedId, status, now);
    }

    /** `handleBedClick`. */
    method HandleBedClick(bed: WithId<Bed>)
      requires Valid()
      modifies this`selectedBed, this`regulationOpen
      ensures Valid()
      ensures OpensRegulation(bed.doc) ==> selectedBed == Some(bed) && regulationOpen
      ensures !OpensRegulation(bed.doc) ==> selectedBed == old(selectedBed) && regulationOpen == old(regulationOpen)
    {
      if OpensRegulation(bed.doc) {
        selectedBed := Some(bed);
        regulationOpen := true;
      }
    }

    /** `executeAssignment`: on success both dialogs close and the
        justification and the pending assignment are cleared; on failure
        the board is as it was. */
    method ExecuteAssignment(reqId: string, bedId: string, unitId: string, justification: Option<string>, now: nat)
      returns (ok: bool)
      requires Valid()
      modifies this`regulationOpen, this`justificationOpen, this`justificationText, this`pendingAssignment
      modifies store`requests, store`beds
      ensures Valid()
      ensures ok == (reqId in old(store.requests) && bedId in old(store.beds))
      ensures store.requests == if ok then old(store.requests)[reqId :=
                RegulatedRequest(old(store.requests)[reqId], bedId, unitId, justification, now)] else old(store.requests)
      ensures store.beds == if ok then old(store.beds)[bedId := OccupiedBed(old(store.beds)[bedId], reqId, now)]
                            else old(store.beds)
      ensures ok ==> !regulationOpen && !justificationOpen && justificationText == "" && pendingAssignment.None?
      ensures !ok ==> regulationOpen == old(regulationOpen) && justificationOpen == old(justificationOpen)
      ensures !ok ==> justificationText == old(justificationText) && pendingAssignment == old(pendingAssignment)
    {
      ok := store.AssignPatientToBed(reqId, bedId, unitId, justification, now);
      if ok {
        CloseDialogs();
      }
    }

    /** The reset after a successful assignment. */
    method CloseDialogs()
      modifies this`regulationOpen, this`justificationOpen, this`justificationText, this`pendingAssignment
      ensures !regulationOpen && !justificationOpen && justificationText == "" && pendingAssignment.None?
    {
      regulationOpen := false;
      justificationOpen := false;
      justificationText := "";
      pendingAssignment := None;
    }

    /** `handleSelectPatient`: with a bed selected, either assigns at once or
        keeps the assignment pending and opens the justification dialog. */
    method HandleSelectPatient(waiting: seq<WithId<Request>>, req: WithId<Request>, now: nat) returns (done: bool)
      requires Valid()
      modifies this`regulationOpen, this`justificationOpen, this`justificationText, this`pendingAssignment
      modifies store`requests, store`beds
      ensures Valid()
      ensures old(selectedBed).None? ==>
                !done && unchanged(store) && pendingAssignment == old(pendingAssignment)
                && justificationOpen == old(justificationOpen) && regulationOpen == old(regulationOpen)
                && justificationText == old(justificationText)
      ensures old(selectedBed).Some? && NeedsJustification(waiting, req) ==>
                !done && unchanged(store) && justificationOpen
                && pendingAssignment == Some(Assignment(req.id, old(selectedBed).value.id, old(selectedBed).value.doc.unitId))
                && regulationOpen == old(regulationOpen) && justificationText == old(justificationText)
      ensures old(selectedBed).Some? && !NeedsJustification(waiting, req) ==>
                var bed := old(selectedBed).value;
                done == (req.id in old(store.requests) && bed.id in old(store.beds))
                && store.requests == (if done then old(store.requests)[req.id := RegulatedRequest(old(store.requests)[req.id],
                                       bed.id, bed.doc.unitId, None, now)]
                                      else old(store.requests))
                && store.beds == (if done then old(store.beds)[bed.id := OccupiedBed(old(store.beds)[bed.id], req.id, now)]
                                  else old(store.beds))
      ensures old(selectedBed).Some? && !NeedsJustification(waiting, req) && done ==>
                !regulationOpen && !justificationOpen && justificationText == "" && pendingAssignment.None?
      ensures old(selectedBed).Some? && !NeedsJustification(waiting, req) && !done ==>
                regulationOpen == old(regulationOpen) && justificationOpen == old(justificationOpen)
                && justificationText == old(justificationText) && pendingAssignment == old(pendingAssignment)
    {
      done := false;
      if selectedBed.None? {
        return;
      }
      var bed := selectedBed.value;
      if NeedsJustification(waiting, req) {
        pendingAssignment := Some(Assignment(req.id, bed.id, bed.doc.unitId));
        justificationOpen := true;
      } else {
        done := ExecuteAssignment(req.id, bed.id, bed.doc.unitId, None, now);
      }
    }

    /** Typing into the justification box. */
    method SetJustificationText(text: string)
      requires Valid()
      modifies this`justificationText
      ensures Valid() && justificationText == text
    {
      justificationText := text;
    }

    /** `handleJustificationConfirm`: a justification under 10 characters is
        refused; otherwise the pending assignment, if any, is executed with
        it. */
    method HandleJustificationConfirm(now: nat) returns (done: bool)
      requires Valid()
      modifies this`regulationOpen, this`justificationOpen, this`justificationText, this`pendingAssignment
      modifies store`requests, store`beds
      ensures Valid()
      ensures |old(justificationText)| < 10 || old(pendingAssignment).None? ==>
                !done && unchanged(store) && pendingAssignment == old(pendingAssignment)
                && justificationOpen == old(justificationOpen) && regulationOpen == old(regulationOpen)
                && justificationText == old(justificationText)
      ensures |old(justificationText)| >= 10 && old(pendingAssignment).Some? ==>
                var a := old(pendingAssignment).value;
                done == (a.reqId in old(store.requests) && a.bedId in old(store.beds))
                && store.requests == (if done then old(store.requests)[a.reqId := RegulatedRequest(old(store.requests)[a.reqId],
                                       a.bedId, a.unitId, Some(old(justificationText)), now)]
                                      else old(store.requests))
                && store.beds == (if done then old(store.beds)[a.bedId := OccupiedBed(old(store.beds)[a.bedId], a.reqId, now)]
                                  else old(store.beds))
      ensures done ==> !regulationOpen && !justificationOpen && justificationText == "" && pendingAssignment.None?
      ensures |old(justificationText)| >= 10 && old(pendingAssignment).Some? && !done ==>
                regulationOpen == old(regulationOpen) && justificationOpen == old(justificationOpen)
                && justificationText == old(justificationText) && pendingAssignment == old(pendingAssignment)
    {
      done := false;
      if |justificationText| < 10 {
        return;
      }
      if pendingAssignment.Some? {
        var a := pendingAssignment.value;
        done := ExecuteAssignment(a.reqId, a.bedId, a.unitId, Some(justificationText), now);
      }
    }
  }

  /** An accepted justification is at least 10 characters, so it is stored
      as the regulation justification and used as the audit reason. */
  lemma JustifiedAssignmentIsRecorded(r: Request, bedId: string, unitId: string, text: string, now: nat)
    requires |text| >= 10
    ensures RegulatedRequest(r, bedId, unitId, Some(text), now).regulationJustification == Some(text)
    ensures RegulatedRequest(r, bedId, unitId, Some(text), now).auditHistory[|r.auditHistory|].reason == Some(text)
  {
  }
}
