/** src/services/dischargeService.ts, as functions on records: the record
    `addDischargeAssessment` stores, the active-discharge query, the changes
    of `confirmDischarge` and `reviewDischarge`, and the stats triple that
    `getDischargeStats` and `subscribeToDischargeStats` both compute. */
module DischargeService {
  import opened Common
  import opened DischargeTypes

  /** The record `addDischargeAssessment` writes: the caller's fields, the
      creation time and an empty review history. */
  function NewAssessment(data: DischargeAssessment, now: nat): (a: DischargeAssessment)
    ensures a.reviewHistory == Some([]) && a.assessmentCreatedAt == Some(now)
    ensures a.(assessmentCreatedAt := data.assessmentCreatedAt, reviewHistory := data.reviewHistory) == data
  {
    data.(assessmentCreatedAt := Some(now), reviewHistory := Some([]))
  }

  /** `where("status", "in", ["candidate", "administrative_barrier"])`. */
  predicate IsActive(a: DischargeAssessment) {
    a.status == Candidate || a.status == AdministrativeBarrier
  }

  function IsActiveDoc(d: WithId<DischargeAssessment>): bool {
    IsActive(d.doc)
  }

  /** The list `subscribeToActiveDischarges` reports for a snapshot. */
  function ActiveDischarges(docs: seq<WithId<DischargeAssessment>>): (r: seq<WithId<DischargeAssessment>>)
    ensures forall i :: 0 <= i < |r| ==> IsActive(r[i].doc)
  {
    Filter(docs, IsActiveDoc)
  }

  /** A record is listed exactly when it is in the snapshot with status
      `candidate` or `administrative_barrier`; the list keeps snapshot
      order. */
  lemma ActiveDischargesMembers(docs: seq<WithId<DischargeAssessment>>, d: WithId<DischargeAssessment>)
    ensures d in ActiveDischarges(docs) <==>
            d in docs && (d.doc.status == Candidate || d.doc.status == AdministrativeBarrier)
    ensures IsSubsequence(ActiveDischarges(docs), docs)
  {
    FilterMembers(docs, IsActiveDoc, d);
    FilterIsSubsequence(docs, IsActiveDoc);
  }

  /** The assessment update of `confirmDischarge`; the bed is vacated by
      `BedService.VacatedBed`. */
  function DischargedAssessment(a: DischargeAssessment): (a': DischargeAssessment)
    ensures a'.status == Discharged && !IsActive(a')
    ensures a'.(status := a.status) == a
  {
    a.(status := Discharged)
  }

  /** The status after a review: the decision when it is one of the three
      statuses a review may set, the current status otherwise. */
  function ReviewedStatus(current: DischargeStatus, decision: DischargeStatus): DischargeStatus {
    if decision != Candidate && decision != AdministrativeBarrier && decision != ClinicalMismatch then current
    else decision
  }

  /** `reviewDischarge`: one entry appended, and the status per
      `ReviewedStatus`. An absent history is extended as an empty one. */
  function ReviewedAssessment(a: DischargeAssessment, decision: DischargeStatus, observation: string, now: nat): DischargeAssessment {
    a.(status := ReviewedStatus(a.status, decision),
       reviewHistory := Some(a.reviewHistory.GetOr([]) +
         [ReviewEntry(now, "Médico Regulador", observation, DischargeStatusName(decision))]))
  }

  /** A review always appends exactly one entry carrying the decision and the
      observation, and changes the status exactly when the decision is
      `candidate`, `administrative_barrier` or `clinical_mismatch`. */
  lemma ReviewEffect(a: DischargeAssessment, decision: DischargeStatus, observation: string, now: nat)
    ensures ReviewedAssessment(a, decision, observation, now).reviewHistory.Some?
    ensures |ReviewedAssessment(a, decision, observation, now).reviewHistory.value| == |a.reviewHistory.GetOr([])| + 1
    ensures ReviewedAssessment(a, decision, observation, now).reviewHistory.value[..|a.reviewHistory.GetOr([])|]
            == a.reviewHistory.GetOr([])
    ensures ReviewedAssessment(a, decision, observation, now).reviewHistory.value[|a.reviewHistory.GetOr([])|]
            == ReviewEntry(now, "Médico Regulador", observation, DischargeStatusName(decision))
    ensures ReviewedAssessment(a, decision, observation, now).status ==
            (if decision in {Candidate, AdministrativeBarrier, ClinicalMismatch} then decision else a.status)
  {
  }

  /** A `clinical_mismatch` review takes the record off the active list. */
  lemma MismatchLeavesActiveList(a: DischargeAssessment, observation: string, now: nat)
    ensures !IsActive(ReviewedAssessment(a, ClinicalMismatch, observation, now))
  {
  }

  /** The review option labelled "keep under analysis, no status change"
      sends `candidate`, which does change the status of a record held at an
      administrative barrier. */
  lemma KeepUnderAnalysisChangesBarrier(a: DischargeAssessment, observation: string, now: nat)
    requires a.status == AdministrativeBarrier
    ensures ReviewedAssessment(a, Candidate, observation, now).status == Candidate
    ensures ReviewedAssessment(a, Candidate, observation, now).status != a.status
  {
  }

  /** The triple both stats functions report. */
  datatype DischargeStats = DischargeStats(eligible: nat, discharged: nat, barrier: nat)

  function IsDischarged(a: DischargeAssessment): bool { a.status == Discharged }
  function IsAtBarrier(a: DischargeAssessment): bool { a.status == AdministrativeBarrier }

  /** eligible = all records, discharged and barrier = the records with that
      status. No record has both statuses, so the two counts never add up to
      more than the total. */
  function Stats(docs: seq<DischargeAssessment>): (st: DischargeStats)
    ensures st.eligible == |docs|
    ensures st.discharged <= st.eligible && st.barrier <= st.eligible
    ensures st.discharged + st.barrier <= st.eligible
  {
    StatusCountsBound(docs);
    DischargeStats(|docs|, Count(docs, IsDischarged), Count(docs, IsAtBarrier))
  }

  lemma {:induction false} StatusCountsBound(docs: seq<DischargeAssessment>)
    ensures Count(docs, IsDischarged) + Count(docs, IsAtBarrier) <= |docs|
  {
    if docs != [] {
      StatusCountsBound(docs[1..]);
    }
  }

  /** Adding one record raises `eligible` by one and raises the count of its
      own status by one; the other count is unchanged. */
  lemma {:induction false} StatsOfAppend(docs: seq<DischargeAssessment>, a: DischargeAssessment)
    ensures Stats(docs + [a]).eligible == Stats(docs).eligible + 1
    ensures Stats(docs + [a]).discharged == Stats(docs).discharged + (if a.status == Discharged then 1 else 0)
    ensures Stats(docs + [a]).barrier == Stats(docs).barrier + (if a.status == AdministrativeBarrier then 1 else 0)
  {
    FilterAppend(docs, [a], IsDischarged);
    FilterAppend(docs, [a], IsAtBarrier);
  }
}
