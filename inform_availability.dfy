/** src/components/InformAvailabilityModal.tsx: the dialog in which the
    ward reports that a bed has become available (or gone into
    maintenance). Only beds that are not already available are offered,
    and only four statuses can be reported. */
module InformAvailability {
  import opened Common
  import opened BedTypes
  import opened BedService
  import opened DocumentStore
  import opened BedAvailability

  /** `ReportableStatusEnum`; the form starts at `Clean`. */
  datatype ReportableStatus = ReportClean | ReportDischargeConfirmed | ReportDischargeUnconfirmed | ReportMaintenance

  const DefaultReportableStatus: ReportableStatus := ReportClean

  function ToBedStatus(s: ReportableStatus): BedStatus {
    match s
    case ReportClean => Clean
    case ReportDischargeConfirmed => DischargeConfirmed
    case ReportDischargeUnconfirmed => DischargeUnconfirmed
    case ReportMaintenance => Maintenance
  }

  /** The inverse of `ToBedStatus`: which reportable status, if any, a
      bed status is. */
  function FromBedStatus(b: BedStatus): Option<ReportableStatus> {
    match b
    case Clean => Some(ReportClean)
    case DischargeConfirmed => Some(ReportDischargeConfirmed)
    case DischargeUnconfirmed => Some(ReportDischargeUnconfirmed)
    case Maintenance => Some(ReportMaintenance)
    case _ => None
  }

  /** The reportable statuses are four distinct bed statuses: every bed
      status but `Closed` and `Occupied`. A report can never close a bed or
      mark it occupied. */
  lemma ReportableStatusesAreBedStatuses(s: ReportableStatus, b: BedStatus)
    ensures FromBedStatus(ToBedStatus(s)) == Some(s)
    ensures FromBedStatus(b).Some? <==> b != Occupied && b != Closed
    ensures FromBedStatus(b).Some? ==> ToBedStatus(FromBedStatus(b).value) == b
  {
  }

  /** `clean` and both `discharge_*` statuses already count as available. */
  predicate IsAlreadyAvailable(s: BedStatus) {
    s == Clean || s == DischargeConfirmed || s == DischargeUnconfirmed
  }

  /** The filter of `availableBedsForSelection`; an empty unit choice (no
      unit selected yet) does not restrict the unit. */
  predicate Selectable(unitId: string, b: WithId<Bed>) {
    (unitId == [] || b.doc.unitId == unitId) && !IsAlreadyAvailable(b.doc.status)
  }

  function SelectableBeds(beds: seq<WithId<Bed>>, unitId: string): (r: seq<WithId<Bed>>)
    ensures |r| <= |beds|
    ensures forall i :: 0 <= i < |r| ==> r[i].doc.status in {Closed, Occupied, Maintenance}
    ensures forall i :: 0 <= i < |r| ==> unitId == [] || r[i].doc.unitId == unitId
  {
    Filter(beds, b => Selectable(unitId, b))
  }

  /** A bed is offered exactly when it is in the list, belongs to the
      chosen unit (if any), and is closed, occupied or in maintenance; the
      offered beds keep the list's order. */
  lemma SelectableBedsMembers(beds: seq<WithId<Bed>>, unitId: string, b: WithId<Bed>)
    ensures b in SelectableBeds(beds, unitId) <==>
            b in beds && (unitId == [] || b.doc.unitId == unitId) && b.doc.status in {Closed, Occupied, Maintenance}
    ensures IsSubsequence(SelectableBeds(beds, unitId), beds)
  {
    FilterMembers(beds, b => Selectable(unitId, b), b);
    FilterIsSubsequence(beds, b => Selectable(unitId, b));
  }

  /** The submit button is disabled when a unit is chosen and none of its
      beds can be reported. */
  predicate SubmitDisabled(beds: seq<WithId<Bed>>, unitId: string) {
    |SelectableBeds(beds, unitId)| == 0 && unitId != []
  }

  /** `ReportSchema`: a unit and a bed are chosen. */
  predicate ReportFormValid(unitId: string, bedId: string) {
    |unitId| >= 1 && |bedId| >= 1
  }

  /** `onSubmit`: writes the reported status to the chosen bed. */
  method OnSubmit(store: Store, unitId: string, bedId: string, status: ReportableStatus, now: nat) returns (ok: bool)
    requires store.Valid()
    modifies store`beds
    ensures store.Valid()
    ensures !ReportFormValid(unitId, bedId) ==> !ok && store.beds == old(store.beds)
    ensures ReportFormValid(unitId, bedId) ==>
              ok == (bedId in old(store.beds))
              && store.beds == if ok then old(store.beds)[bedId := WithStatus(old(store.beds)[bedId], ToBedStatus(status), now)]
                               else old(store.beds)
  {
    if !ReportFormValid(unitId, bedId) {
      return false;
    }
    ok := store.UpdateBedStatus(bedId, ToBedStatus(status), now);
  }

  /** After a report the bed opens the regulation dialog on the bed board
      exactly when it was reported clean or discharge-confirmed, and it is
      offered for reporting again only when it was reported in
      maintenance. */
  lemma ReportEffect(b: WithId<Bed>, s: ReportableStatus, now: nat)
    ensures OpensRegulation(WithStatus(b.doc, ToBedStatus(s), now)) <==> s == ReportClean || s == ReportDischargeConfirmed
    ensures Selectable(b.doc.unitId, WithId(b.id, WithStatus(b.doc, ToBedStatus(s), now))) <==> s == ReportMaintenance
  {
  }
}
