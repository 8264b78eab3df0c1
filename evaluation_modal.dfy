/** src/components/EvaluationModal.tsx: the checklist evaluation. The
    priority and its reason follow from the three answers (each unanswered,
    yes or no) and the palliative switch; confirming stores the priority and
    the answers, discarding takes the request out of the queue. */
module EvaluationModal {
  import opened Common
  import Icu
  import MockData
  import opened RequestTypes
  import opened RequestService
  import opened BedService
  import opened DocumentStore

  const PalliativeReason: string := "Motivo: Paciente em fase terminal / cuidados paliativos exclusivos."
  const Priority1Reason: string := "Motivo: Requer suporte à vida + Alta probabilidade de recuperação + Sem limitação terapêutica."
  const Priority3Reason: string := "Motivo: Requer suporte à vida, mas com baixa recuperação ou limitação terapêutica."
  const Priority2Reason: string := "Motivo: Monitorização intensiva + Alta probabilidade de recuperação + Sem limitação terapêutica."
  const Priority4Reason: string := "Motivo: Estável, mas com baixa recuperação ou limitação terapêutica."

  /** The `calculatedPriority` and `calculationReason` the effect sets. */
  datatype Evaluation = Evaluation(priority: Option<int>, reason: string)

  predicate Answered(needs: Option<bool>, high: Option<bool>, limited: Option<bool>) {
    needs.Some? && high.Some? && limited.Some?
  }

  /** The calculation effect. The palliative switch gives 5 whatever the
      answers; otherwise an unanswered question gives no priority and no
      reason, and a complete checklist gives 1 to 4 by the table. */
  function EvaluatePriority(needs: Option<bool>, high: Option<bool>, limited: Option<bool>, palliative: bool): (e: Evaluation)
    ensures palliative ==> e == Evaluation(Some(5), PalliativeReason)
    ensures !palliative && !Answered(needs, high, limited) ==> e == Evaluation(None, "")
    ensures e.priority == Some(5) <==> palliative
    ensures e.priority.Some? <==> palliative || Answered(needs, high, limited)
    ensures e.priority.Some? ==> 1 <= e.priority.value <= 5
    ensures !palliative && Answered(needs, high, limited) ==>
              (e.priority == Some(1) <==> needs.value && high.value && !limited.value) &&
              (e.priority == Some(3) <==> needs.value && !(high.value && !limited.value)) &&
              (e.priority == Some(2) <==> !needs.value && high.value && !limited.value) &&
              (e.priority == Some(4) <==> !needs.value && !(high.value && !limited.value))
  {
    if palliative then Evaluation(Some(5), PalliativeReason)
    else if needs.None? || high.None? || limited.None? then Evaluation(None, "")
    else
      var s, r, l := needs.value, high.value, limited.value;
      if s then
        if r && !l then Evaluation(Some(1), Priority1Reason) else Evaluation(Some(3), Priority3Reason)
      else
        if r && !l then Evaluation(Some(2), Priority2Reason) else Evaluation(Some(4), Priority4Reason)
  }

  /** With high recovery and no palliative flag, the checklist and the
      queue's classifier give the same priority, whatever the reversibility
      and donor flags. */
  lemma AgreesWhenRecoveryIsHigh(c: Icu.CfmCriteria)
    requires c.highRecoveryProbability
    ensures EvaluatePriority(Some(c.needsLifeSupport), Some(true), Some(c.hasTherapeuticLimitation), false).priority
            == Some(MockData.CalculateCfmPriority(c))
  {
  }

  /** In general the two agree exactly when recovery is high, or the 5-rule
      does not fire and there is life support or a limitation. */
  lemma ClassifiersAgreement(c: Icu.CfmCriteria)
    ensures EvaluatePriority(Some(c.needsLifeSupport), Some(c.highRecoveryProbability),
                             Some(c.hasTherapeuticLimitation), false).priority == Some(MockData.CalculateCfmPriority(c))
            <==> c.highRecoveryProbability ||
                 (!MockData.TerminalRuleFires(c) && (c.needsLifeSupport || c.hasTherapeuticLimitation))
  {
  }

  /** No support, low recovery and no limitation: 4 here, 3 or 5 in the
      queue's classifier. */
  lemma ClassifiersDisagree(rev: bool, donor: Option<bool>)
    ensures EvaluatePriority(Some(false), Some(false), Some(false), false).priority == Some(4)
    ensures MockData.CalculateCfmPriority(Icu.CfmCriteria(false, false, false, rev, donor)) in {3, 5}
  {
  }

  /** The answers `handleConfirm` stores: unanswered is stored as false. */
  function StoredAnswers(needs: Option<bool>, high: Option<bool>, limited: Option<bool>, palliative: bool): map<string, bool> {
    map["needsSupport" := needs == Some(true), "highRecovery" := high == Some(true),
        "hasLimitation" := limited == Some(true), "isPalliative" := palliative]
  }

  function ConfirmPatch(priority: int, answers: map<string, bool>, now: nat): RequestPatch {
    RequestPatch(Some(WaitingBed), Some(priority), Some(answers), Some(now), None, None, None)
  }

  function ConfirmDraft(isReview: bool, previous: Option<int>, priority: int): AuditDraft {
    AuditDraft(if isReview then "revised_priority" else "evaluated", previous, Some(priority), None, Regulator)
  }

  /** What a confirm writes: status `waiting_bed`, the computed priority,
      total boolean answers and one audit entry from the prior priority to
      the new one. */
  lemma ConfirmWrite(r: Request, previous: Option<int>, priority: int,
                     needs: Option<bool>, high: Option<bool>, limited: Option<bool>, palliative: bool,
                     isReview: bool, now: nat)
    ensures Updated(r, ConfirmPatch(priority, StoredAnswers(needs, high, limited, palliative), now),
                    ConfirmDraft(isReview, previous, priority), now).status == WaitingBed
    ensures Updated(r, ConfirmPatch(priority, StoredAnswers(needs, high, limited, palliative), now),
                    ConfirmDraft(isReview, previous, priority), now).cfmPriority == Some(priority)
    ensures Updated(r, ConfirmPatch(priority, StoredAnswers(needs, high, limited, palliative), now),
                    ConfirmDraft(isReview, previous, priority), now).cfmAnswers.value.Keys
            == {"needsSupport", "highRecovery", "hasLimitation", "isPalliative"}
    ensures needs.None? ==> !StoredAnswers(needs, high, limited, palliative)["needsSupport"]
    ensures high.None? ==> !StoredAnswers(needs, high, limited, palliative)["highRecovery"]
    ensures limited.None? ==> !StoredAnswers(needs, high, limited, palliative)["hasLimitation"]
    ensures Updated(r, ConfirmPatch(priority, StoredAnswers(needs, high, limited, palliative), now),
                    ConfirmDraft(isReview, previous, priority), now).auditHistory
            == r.auditHistory + [AuditEntry(if isReview then "revised_priority" else "evaluated",
                                            previous, Some(priority), None, now, Regulator)]
  {
  }

  /** The second guard of `handleConfirm` never fires while the priority is
      the one the effect computed: a priority exists only when the switch is
      on or every question is answered. */
  lemma SecondGuardIsRedundant(needs: Option<bool>, high: Option<bool>, limited: Option<bool>, palliative: bool)
    requires EvaluatePriority(needs, high, limited, palliative).priority.Some?
    ensures palliative || Answered(needs, high, limited)
  {
  }

  /** `handleConfirm`: nothing without a priority or, when not palliative,
      with an unanswered question; otherwise one `updateRequest`. `request`
      is the record the modal shows, so the previous priority is the shown
      one. */
  method HandleConfirm(store: Store, request: WithId<Request>, needs: Option<bool>, high: Option<bool>,
                       limited: Option<bool>, palliative: bool, calculated: Option<int>, isReview: bool, now: nat)
    returns (written: bool)
    requires store.Valid()
    modifies store`requests
    ensures store.Valid()
    ensures written == (calculated.Some? && (palliative || Answered(needs, high, limited))
                        && request.id in old(store.requests))
    ensures store.requests == if written
              then old(store.requests)[request.id := Updated(old(store.requests)[request.id],
                     ConfirmPatch(calculated.value, StoredAnswers(needs, high, limited, palliative), now),
                     ConfirmDraft(isReview, request.doc.cfmPriority, calculated.value), now)]
              else old(store.requests)
    ensures calculated == EvaluatePriority(needs, high, limited, palliative).priority ==>
              (written <==> calculated.Some? && request.id in old(store.requests))
    ensures written ==> store.requests[request.id].cfmPriority == calculated
  {
    written := false;
    if calculated.None? {
      return;
    }
    if !palliative && (needs.None? || high.None? || limited.None?) {
      return;
    }
    var previous := request.doc.cfmPriority;
    var answers := StoredAnswers(needs, high, limited, palliative);
    written := store.UpdateRequest(request.id, ConfirmPatch(calculated.value, answers, now),
                                   ConfirmDraft(isReview, previous, calculated.value), now);
  }

  const DiscardNote: string := "Removido via revisão de fila"

  /** The exit reasons the modal's select offers. */
  predicate OfferedExitReason(e: ExitReason) {
    e == Discharge || e == Death || e == Transfer || e == Error
  }

  function DiscardPatch(e: ExitReason): RequestPatch {
    RequestPatch(Some(Canceled), None, None, None, Some(e), Some(DiscardNote), None)
  }

  function DiscardDraft(e: ExitReason): AuditDraft {
    AuditDraft("discarded", None, None, Some(ExitReasonName(e)), Regulator)
  }

  /** A discard cancels the request, records the exit reason and note, and
      logs `discarded` with the reason. */
  lemma DiscardWrite(r: Request, e: ExitReason, now: nat)
    ensures Updated(r, DiscardPatch(e), DiscardDraft(e), now).status == Canceled
    ensures Updated(r, DiscardPatch(e), DiscardDraft(e), now).exitReason == Some(e)
    ensures Updated(r, DiscardPatch(e), DiscardDraft(e), now).exitNote == Some(DiscardNote)
    ensures Updated(r, DiscardPatch(e), DiscardDraft(e), now).cfmPriority == r.cfmPriority
    ensures Updated(r, DiscardPatch(e), DiscardDraft(e), now).auditHistory
            == r.auditHistory + [AuditEntry("discarded", None, None, Some(ExitReasonName(e)), now, Regulator)]
  {
  }

  /** `handleDiscard`; `None` is the empty selection, and a chosen reason is
      one the select offers. */
  method HandleDiscard(store: Store, request: WithId<Request>, exitReason: Option<ExitReason>, now: nat)
    returns (written: bool)
    requires store.Valid()
    requires exitReason.None? || OfferedExitReason(exitReason.value)
    modifies store`requests
    ensures store.Valid()
    ensures written == (exitReason.Some? && request.id in old(store.requests))
    ensures store.requests == if written
              then old(store.requests)[request.id := Updated(old(store.requests)[request.id],
                     DiscardPatch(exitReason.value), DiscardDraft(exitReason.value), now)]
              else old(store.requests)
  {
    written := false;
    if exitReason.None? {
      return;
    }
    written := store.UpdateRequest(request.id, DiscardPatch(exitReason.value), DiscardDraft(exitReason.value), now);
  }
}
