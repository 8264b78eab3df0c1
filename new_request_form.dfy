/** src/components/forms/NewRequestForm.tsx: the three-step request form.
    The schemas are predicates on the entered data; the step, the CFM
    criteria and the manual priority override are the form's state, changed
    by its buttons and handlers. */
module NewRequestForm {
  import opened Common
  import opened Icu
  import opened MockData

  /** The patient part of the form data. */
  datatype PatientInput = PatientInput(
    name: string, age: int, gender: string, medicalRecord: string, originUnit: string, diagnosis: string)

  /** `RequestFormData`. */
  datatype RequestInput = RequestInput(
    patient: PatientInput,
    requestingPhysician: string,
    clinicalJustification: string,
    sofa: Option<int>,
    apache: Option<int>)

  /** `patientSchema`. */
  predicate ValidPatient(p: PatientInput) {
    && |p.name| >= 3
    && 0 <= p.age <= 150
    && p.gender in {"M", "F", "O"}
    && |p.medicalRecord| >= 1
    && |p.originUnit| >= 1
    && |p.diagnosis| >= 10
  }

  /** `requestSchema`. */
  predicate ValidRequestInput(d: RequestInput) {
    && ValidPatient(d.patient)
    && |d.requestingPhysician| >= 3
    && |d.clinicalJustification| >= 20
    && (d.sofa.Some? ==> 0 <= d.sofa.value <= 24)
    && (d.apache.Some? ==> 0 <= d.apache.value <= 71)
  }

  /** What `handleFormSubmit` hands to its `onSubmit` callback. */
  datatype Submission = Submission(data: RequestInput, cfmPriority: CfmPriority, cfmCriteria: CfmCriteria)

  /** The four criteria the radio groups set. */
  datatype Criterion = NeedsLifeSupport | HighRecoveryProbability | HasTherapeuticLimitation | IsPotentiallyReversible

  /** The criteria the form starts from. */
  const InitialCriteria: CfmCriteria := CfmCriteria(false, true, false, true, None)

  function SetCriterion(c: CfmCriteria, key: Criterion, value: bool): CfmCriteria {
    match key
    case NeedsLifeSupport => c.(needsLifeSupport := value)
    case HighRecoveryProbability => c.(highRecoveryProbability := value)
    case HasTherapeuticLimitation => c.(hasTherapeuticLimitation := value)
    case IsPotentiallyReversible => c.(isPotentiallyReversible := value)
  }

  /** The initial criteria suggest priority 2. */
  lemma InitialSuggestionIsTwo()
    ensures CalculateCfmPriority(InitialCriteria) == 2
  {
  }

  /** The form has no control for the donor flag, so on its criteria the
      5-rule fires exactly when "not reversible" and "low recovery" are both
      chosen. */
  lemma FormTerminalRule(c: CfmCriteria)
    requires c.isOrganDonor.None?
    ensures CalculateCfmPriority(c) == 5 <==> !c.isPotentiallyReversible && !c.highRecoveryProbability
  {
  }

  class FormState {
    var step: int
    var criteria: CfmCriteria
    var confirmedPriority: Option<CfmPriority>

    /** The step is 1, 2 or 3, and the criteria never carry a donor flag. */
    ghost predicate Valid()
      reads this
    {
      1 <= step <= 3 && criteria.isOrganDonor.None?
    }

    constructor ()
      ensures Valid()
      ensures step == 1 && criteria == InitialCriteria && confirmedPriority.None?
    {
      step := 1;
      criteria := InitialCriteria;
      confirmedPriority := None;
    }

    /** `suggestedPriority`. */
    function SuggestedPriority(): CfmPriority
      reads this
    {
      CalculateCfmPriority(criteria)
    }

    /** `confirmedPriority || suggestedPriority`: the override when one is
        set (a priority is never 0, so never falsy). */
    function EffectivePriority(): (p: CfmPriority)
      reads this
      ensures confirmedPriority.Some? ==> p == confirmedPriority.value
      ensures confirmedPriority.None? ==> p == CalculateCfmPriority(criteria)
    {
      if confirmedPriority.Some? then confirmedPriority.value else SuggestedPriority()
    }

    /** The palliative alert of step 3 is shown exactly when the priority
        that would be submitted is 5. */
    function ShowPalliativeWarning(): (shown: bool)
      reads this
      ensures shown <==> confirmedPriority == Some(5) ||
                         (confirmedPriority.None? && TerminalRuleFires(criteria))
    {
      EffectivePriority() == 5
    }

    /** The "next" button of step 1. */
    method ToCriteria()
      requires Valid() && step == 1
      modifies this`step
      ensures Valid() && step == 2
    {
      step := 2;
    }

    /** The "back" button of step 2. */
    method BackToPatient()
      requires Valid() && step == 2
      modifies this`step
      ensures Valid() && step == 1
    {
      step := 1;
    }

    /** The "next" button of step 2. */
    method ToConfirmation()
      requires Valid() && step == 2
      modifies this`step
      ensures Valid() && step == 3
    {
      step := 3;
    }

    /** The "back" button of step 3. */
    method BackToCriteria()
      requires Valid() && step == 3
      modifies this`step
      ensures Valid() && step == 2
    {
      step := 2;
    }

    /** `handleCriteriaChange`: sets one criterion and drops the override. */
    method ChangeCriterion(key: Criterion, value: bool)
      requires Valid()
      modifies this`criteria, this`confirmedPriority
      ensures Valid()
      ensures criteria == SetCriterion(old(criteria), key, value)
      ensures confirmedPriority.None?
      ensures EffectivePriority() == CalculateCfmPriority(criteria)
    {
      criteria := SetCriterion(criteria, key, value);
      confirmedPriority := None;
    }

    /** One of the five override buttons of step 3. */
    method OverridePriority(p: CfmPriority)
      requires Valid()
      modifies this`confirmedPriority
      ensures Valid()
      ensures confirmedPriority == Some(p) && EffectivePriority() == p
    {
      confirmedPriority := Some(p);
    }

    /** `handleSubmit(handleFormSubmit)`: the callback runs only on data the
        schema accepts, with the effective priority and the current
        criteria. The form state does not change. */
    method Submit(data: RequestInput) returns (sent: Option<Submission>)
      requires Valid()
      ensures sent.Some? <==> ValidRequestInput(data)
      ensures sent.Some? ==> sent.value.data == data
      ensures sent.Some? ==> sent.value.cfmCriteria == criteria
      ensures sent.Some? ==>
                sent.value.cfmPriority == if confirmedPriority.Some? then confirmedPriority.value
                                          else CalculateCfmPriority(criteria)
    {
      if ValidRequestInput(data) {
        sent := Some(Submission(data, EffectivePriority(), criteria));
      } else {
        sent := None;
      }
    }
  }
}
