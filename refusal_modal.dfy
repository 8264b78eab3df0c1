/** src/components/RefusalModal.tsx: refusing a request with a written
    reason. */
module RefusalModal {
  import opened Common
  import opened RequestTypes
  import opened RequestService
  import opened BedService
  import opened DocumentStore

  /** `RefusalSchema`: at least 10 characters. */
  predicate ValidRefusal(reason: string) {
    |reason| >= 10
  }

  function RefusalPatch(reason: string): RequestPatch {
    RequestPatch(Some(RefusedNir), None, None, None, None, None, Some(reason))
  }

  function RefusalDraft(reason: string): AuditDraft {
    AuditDraft("refused", None, None, Some(reason), Regulator)
  }

  /** A refusal sets `refused_nir` and the reason, whatever the status was,
      and logs one `refused` entry with the same reason. */
  lemma RefusalWrite(r: Request, reason: string, now: nat)
    ensures Updated(r, RefusalPatch(reason), RefusalDraft(reason), now).status == RefusedNir
    ensures Updated(r, RefusalPatch(reason), RefusalDraft(reason), now).refusalReason == Some(reason)
    ensures Updated(r, RefusalPatch(reason), RefusalDraft(reason), now).auditHistory
            == r.auditHistory + [AuditEntry("refused", None, None, Some(reason), now, Regulator)]
  {
  }

  /** `onSubmit`, behind the schema: a short reason writes nothing. */
  method OnSubmit(store: Store, requestId: string, reason: string, now: nat) returns (written: bool)
    requires store.Valid()
    modifies store`requests
    ensures store.Valid()
    ensures written == (ValidRefusal(reason) && requestId in old(store.requests))
    ensures store.requests == if written
              then old(store.requests)[requestId := Updated(old(store.requests)[requestId],
                     RefusalPatch(reason), RefusalDraft(reason), now)]
              else old(store.requests)
  {
    written := false;
    if !ValidRefusal(reason) {
      return;
    }
    written := store.UpdateRequest(requestId, RefusalPatch(reason), RefusalDraft(reason), now);
  }
}
