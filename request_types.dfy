/** The store-side ICU request record of src/types/request.ts: the request
    types, statuses and emergency sectors, the audit entry, the base fields
    and the three variants of the discriminated union by `requestType`. */
module RequestTypes {
  import opened Common

  /** `RequestTypeEnum`. */
  datatype RequestType = Surgical | Inpatient | Emergency

  /** The request status. `RequestStatusEnum` lists the first five values;
      the bed service also writes `regulated` and `admitted`, which the enum
      does not list, so the datatype has seven and `InStatusEnum` says which
      five the schema accepts. */
  datatype RequestStatus = PendingReview | RefusedNir | WaitingBed | Finished | Canceled | Regulated | Admitted

  predicate InStatusEnum(s: RequestStatus) {
    !s.Regulated? && !s.Admitted?
  }

  /** `status: RequestStatusEnum.default("pending_review")`. */
  const DefaultRequestStatus: RequestStatus := PendingReview

  function StatusName(s: RequestStatus): string {
    match s
    case PendingReview => "pending_review"
    case RefusedNir => "refused_nir"
    case WaitingBed => "waiting_bed"
    case Finished => "finished"
    case Canceled => "canceled"
    case Regulated => "regulated"
    case Admitted => "admitted"
  }

  /** Parsing a status name against `RequestStatusEnum`. */
  function ParseStatus(name: string): (r: Option<RequestStatus>)
    ensures r.Some? ==> StatusName(r.value) == name && InStatusEnum(r.value)
  {
    if name == "pending_review" then Some(PendingReview)
    else if name == "refused_nir" then Some(RefusedNir)
    else if name == "waiting_bed" then Some(WaitingBed)
    else if name == "finished" then Some(Finished)
    else if name == "canceled" then Some(Canceled)
    else None
  }

  /** The schema accepts a written status exactly when it is one of the
      five enum values: `regulated` and `admitted`, which the bed service
      writes, are rejected when read back through the schema. */
  lemma StatusSchemaAccepts(s: RequestStatus)
    ensures ParseStatus(StatusName(s)) == (if InStatusEnum(s) then Some(s) else None)
  {
  }

  /** `EmergencySectorEnum`. */
  const EmergencySectors: seq<string> := ["CEDUG", "Centro Cirúrgico"]

  /** The `exitReason` enum of the base schema. */
  datatype ExitReason = Death | Transfer | Discharge | Error | BedAssigned

  function ExitReasonName(e: ExitReason): string {
    match e
    case Death => "death"
    case Transfer => "transfer"
    case Discharge => "discharge"
    case Error => "error"
    case BedAssigned => "bed_assigned"
  }

  /** An audit entry of a stored request; the timestamp is an opaque
      natural. */
  datatype AuditEntry = AuditEntry(
    action: string,
    previousPriority: Option<int>,
    newPriority: Option<int>,
    reason: Option<string>,
    timestamp: nat,
    userParams: string)

  /** The fields of the three variants of the union; the variant fixes the
      `requestType`. */
  datatype Details =
    | SurgicalDetails(surgeryDate: string, surgeonName: string, surgeryType: string)
    | InpatientDetails(sector: string, bed: string, requestingPhysician: string,
                       clinicalReason: string, requestDate: string, requestTime: string)
    | EmergencyDetails(sector: string, requestingPhysician: string,
                       clinicalReason: string, requestDate: string, requestTime: string)

  function TypeOf(d: Details): RequestType {
    match d
    case SurgicalDetails(_, _, _) => Surgical
    case InpatientDetails(_, _, _, _, _, _) => Inpatient
    case EmergencyDetails(_, _, _, _, _) => Emergency
  }

  /** A stored request. Optional fields are `Option`s; an absent and a null
      value are both `None`, and an absent `auditHistory` is the empty list.
      The last three fields are the ones the bed service writes. */
  datatype Request = Request(
    patientName: string,
    cns: string,
    details: Details,
    status: RequestStatus,
    createdAt: Option<nat>,
    refusalReason: Option<string>,
    cfmPriority: Option<int>,
    cfmAnswers: Option<map<string, bool>>,
    evaluatedAt: Option<nat>,
    exitReason: Option<ExitReason>,
    exitNote: Option<string>,
    sisregId: Option<string>,
    clinicalDetails: Option<string>,
    auditHistory: seq<AuditEntry>,
    assignedBedId: Option<string>,
    assignedUnitId: Option<string>,
    regulationJustification: Option<string>)

  /** The variant part of the union. */
  predicate ValidDetails(d: Details) {
    match d
    case SurgicalDetails(date, surgeon, kind) => |date| >= 1 && |surgeon| >= 1 && |kind| >= 1
    case InpatientDetails(sector, bed, physician, reason, date, time) =>
      |sector| >= 1 && |bed| >= 1 && |physician| >= 1 && |reason| >= 1 && |date| >= 1 && |time| >= 1
    case EmergencyDetails(sector, physician, reason, date, time) =>
      sector in EmergencySectors && |physician| >= 1 && |reason| >= 1 && |date| >= 1 && |time| >= 1
  }

  /** `RequestSchema`: the base schema and the variant part. */
  predicate ValidRequest(r: Request) {
    && |r.patientName| >= 1
    && |r.cns| >= 1
    && InStatusEnum(r.status)
    && (r.cfmPriority.Some? ==> 1 <= r.cfmPriority.value <= 5)
    && ValidDetails(r.details)
  }

  /** A record whose status is one the bed service writes after regulation
      fails the schema. */
  lemma RegulatedRequestsFailSchema(r: Request)
    requires r.status == Regulated || r.status == Admitted
    ensures !ValidRequest(r)
  {
  }

  /** An emergency request is valid only from one of the two listed
      sectors. */
  lemma EmergencySectorIsListed(r: Request)
    requires ValidRequest(r) && TypeOf(r.details) == Emergency
    ensures r.details.sector == "CEDUG" || r.details.sector == "Centro Cirúrgico"
  {
  }
}
