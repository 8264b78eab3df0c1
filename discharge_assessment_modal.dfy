/** src/components/DischargeAssessmentModal.tsx: the form in which a
    physician answers the five discharge criteria for an occupied bed. The
    assessment is always stored; it becomes a discharge candidate, and so
    joins the active discharge list, only when every answer is "yes". */
module DischargeAssessmentModal {
  import opened Common
  import opened BedTypes
  import opened DischargeTypes
  import opened DischargeService
  import opened DocumentStore

  datatype YesNo = Yes | No

  /** The form's fields; a criterion nobody answered is `None`. */
  datatype AssessmentForm = AssessmentForm(
    patientName: string,
    unitId: string,
    bedId: string,
    admissionDate: string,
    hemodynamicStability: Option<YesNo>,
    respiratoryStability: Option<YesNo>,
    causeControlled: Option<YesNo>,
    neurologicalStability: Option<YesNo>,
    noOrganDysfunction: Option<YesNo>)

  /** `AssessmentFormSchema`: four non-empty texts and five answered
      criteria. */
  predicate FormValid(f: AssessmentForm) {
    |f.patientName| >= 1 && |f.unitId| >= 1 && |f.bedId| >= 1 && |f.admissionDate| >= 1
    && f.hemodynamicStability.Some? && f.respiratoryStability.Some? && f.causeControlled.Some?
    && f.neurologicalStability.Some? && f.noOrganDysfunction.Some?
  }

  predicate AllYes(f: AssessmentForm) {
    f.hemodynamicStability == Some(Yes) && f.respiratoryStability == Some(Yes) && f.causeControlled == Some(Yes)
    && f.neurologicalStability == Some(Yes) && f.noOrganDysfunction == Some(Yes)
  }

  /** Each answer is stored as `answer === 'yes'`. */
  function ToAnswers(f: AssessmentForm): (c: CriteriaAnswers)
    ensures (c.hemodynamicStability && c.respiratoryStability && c.causeControlled
             && c.neurologicalStability && c.noOrganDysfunction) <==> AllYes(f)
  {
    CriteriaAnswers(f.hemodynamicStability == Some(Yes), f.respiratoryStability == Some(Yes),
      f.causeControlled == Some(Yes), f.neurologicalStability == Some(Yes), f.noOrganDysfunction == Some(Yes))
  }

  /** The record `onSubmit` stores. The unit name and the bed number are
      looked up in the unit and bed lists and are absent when not found. */
  function ToAssessment(f: AssessmentForm, units: map<string, Unit>, beds: map<string, Bed>): (a: DischargeAssessment)
    ensures a.status == Candidate || a.status == NotCandidate
    ensures a.status == Candidate <==> AllYes(f)
    ensures a.unitName.Some? <==> f.unitId in units
    ensures a.bedNumber.Some? <==> f.bedId in beds
    ensures a.reviewHistory.None? && a.assessmentCreatedAt.None?
  {
    DischargeAssessment(
      f.patientName, f.unitId,
      if f.unitId in units then Some(units[f.unitId].name) else None,
      f.bedId,
      if f.bedId in beds then Some(beds[f.bedId].bedNumber) else None,
      f.admissionDate, None, ToAnswers(f),
      if AllYes(f) then Candidate else NotCandidate,
      None)
  }

  /** A submitted form is a valid assessment; the stored record joins the
      active discharge list exactly when every criterion was answered
      "yes", and its answers are the form's. */
  lemma SubmittedAssessment(f: AssessmentForm, units: map<string, Unit>, beds: map<string, Bed>, now: nat)
    requires FormValid(f)
    ensures ValidAssessment(NewAssessment(ToAssessment(f, units, beds), now))
    ensures IsActive(NewAssessment(ToAssessment(f, units, beds), now)) <==> AllYes(f)
    ensures NewAssessment(ToAssessment(f, units, beds), now).criteriaAnswers.causeControlled <==> f.causeControlled == Some(Yes)
  {
  }

  /** A single "no" leaves the patient out of the active list. */
  lemma OneNoIsNotCandidate(f: AssessmentForm, units: map<string, Unit>, beds: map<string, Bed>, now: nat)
    requires FormValid(f)
    requires f.hemodynamicStability == Some(No) || f.respiratoryStability == Some(No) || f.causeControlled == Some(No)
             || f.neurologicalStability == Some(No) || f.noOrganDysfunction == Some(No)
    ensures NewAssessment(ToAssessment(f, units, beds), now).status == NotCandidate
    ensures !IsActive(NewAssessment(ToAssessment(f, units, beds), now))
  {
  }

  /** `filteredBeds`: the occupied beds of the chosen unit. */
  function FilteredBeds(beds: seq<WithId<Bed>>, unitId: string): (r: seq<WithId<Bed>>)
    ensures |r| <= |beds|
    ensures forall i :: 0 <= i < |r| ==> r[i].doc.unitId == unitId && r[i].doc.status == Occupied
  {
    Filter(beds, (b: WithId<Bed>) => b.doc.unitId == unitId && b.doc.status == Occupied)
  }

  lemma FilteredBedsMembers(beds: seq<WithId<Bed>>, unitId: string, b: WithId<Bed>)
    ensures b in FilteredBeds(beds, unitId) <==> b in beds && b.doc.unitId == unitId && b.doc.status == Occupied
  {
    FilterMembers(beds, (b: WithId<Bed>) => b.doc.unitId == unitId && b.doc.status == Occupied, b);
  }

  /** `onSubmit`: an accepted form adds one assessment, whatever the
      answers. */
  method OnSubmit(store: Store, f: AssessmentForm, now: nat) returns (id: Option<string>)
    requires store.Valid()
    modifies store
    ensures store.Valid()
    ensures !FormValid(f) ==> id.None? && store.discharges == old(store.discharges)
    ensures FormValid(f) ==>
              id.Some? && id.value !in old(store.discharges)
              && store.discharges == old(store.discharges)[id.value := NewAssessment(ToAssessment(f, old(store.units), old(store.beds)), now)]
    ensures store.requests == old(store.requests) && store.units == old(store.units) && store.beds == old(store.beds)
  {
    if !FormValid(f) {
      return None;
    }
    var newId := store.AddDischargeAssessment(ToAssessment(f, store.units, store.beds), now);
    id := Some(newId);
  }
}
