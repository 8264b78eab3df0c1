/** The discharge-assessment records of src/types/discharge.ts. */
module DischargeTypes {
  import opened Common

  /** `DischargeStatusEnum`. */
  datatype DischargeStatus = Candidate | Discharged | ClinicalMismatch | AdministrativeBarrier | NotCandidate

  function DischargeStatusName(s: DischargeStatus): string {
    match s
    case Candidate => "candidate"
    case Discharged => "discharged"
    case ClinicalMismatch => "clinical_mismatch"
    case AdministrativeBarrier => "administrative_barrier"
    case NotCandidate => "not_candidate"
  }

  function ParseDischargeStatus(name: string): (r: Option<DischargeStatus>)
    ensures r.Some? ==> DischargeStatusName(r.value) == name
  {
    if name == "candidate" then Some(Candidate)
    else if name == "discharged" then Some(Discharged)
    else if name == "clinical_mismatch" then Some(ClinicalMismatch)
    else if name == "administrative_barrier" then Some(AdministrativeBarrier)
    else if name == "not_candidate" then Some(NotCandidate)
    else None
  }

  /** The five names are distinct and each parses back to its status. */
  lemma DischargeStatusNamesRoundTrip(s: DischargeStatus)
    ensures ParseDischargeStatus(DischargeStatusName(s)) == Some(s)
  {
  }

  /** A review entry; `decision` is free text, not tied to the status enum. */
  datatype ReviewEntry = ReviewEntry(timestamp: nat, userParams: string, observation: string, decision: string)

  /** The five discharge criteria, each answered with a boolean. */
  datatype CriteriaAnswers = CriteriaAnswers(
    hemodynamicStability: bool,
    respiratoryStability: bool,
    causeControlled: bool,
    neurologicalStability: bool,
    noOrganDysfunction: bool)

  /** `DischargeAssessmentSchema`; `reviewHistory` is optional. */
  datatype DischargeAssessment = DischargeAssessment(
    patientName: string,
    unitId: string,
    unitName: Option<string>,
    bedId: string,
    bedNumber: Option<int>,
    admissionDate: string,
    assessmentCreatedAt: Option<nat>,
    criteriaAnswers: CriteriaAnswers,
    status: DischargeStatus,
    reviewHistory: Option<seq<ReviewEntry>>)

  predicate ValidAssessment(a: DischargeAssessment) {
    |a.patientName| >= 1 && |a.unitId| >= 1 && |a.bedId| >= 1 && |a.admissionDate| >= 1
  }
}
