/** src/services/requestService.ts: the record `addRequest` stores, the
    field merge with one appended audit entry that callers of `updateRequest`
    rely on, and the pending-review query of `subscribeToPendingRequests`.
    The store methods that write these records are in the `Store` class. */
module RequestService {
  import opened Common
  import opened Sorting
  import opened RequestTypes

  /** The record `addRequest` writes: the caller's fields, with the status
      forced to `pending_review` and `createdAt` set to the write time. */
  function NewRequest(data: Request, now: nat): (r: Request)
    ensures r.status == PendingReview && r.createdAt == Some(now)
    ensures r == data.(status := r.status, createdAt := r.createdAt)
  {
    data.(status := PendingReview, createdAt := Some(now))
  }

  /** Whatever status the caller's record carried, the stored one is pending
      and is reported by the pending query. */
  lemma {:induction false} NewRequestIsPending(data: Request, now: nat, id: string, docs: seq<WithId<Request>>)
    requires WithId(id, NewRequest(data, now)) in docs
    ensures WithId(id, NewRequest(data, now)) in PendingRequests(docs)
  {
    PendingRequestsMembers(docs, WithId(id, NewRequest(data, now)));
  }

  /** The fields a caller of `updateRequest` may set; `None` leaves a field
      as it is (a merge write). */
  datatype RequestPatch = RequestPatch(
    status: Option<RequestStatus>,
    cfmPriority: Option<int>,
    cfmAnswers: Option<map<string, bool>>,
    evaluatedAt: Option<nat>,
    exitReason: Option<ExitReason>,
    exitNote: Option<string>,
    refusalReason: Option<string>)

  /** An audit entry as the caller gives it; the write adds the time. */
  datatype AuditDraft = AuditDraft(
    action: string,
    previousPriority: Option<int>,
    newPriority: Option<int>,
    reason: Option<string>,
    userParams: string)

  function Stamp(d: AuditDraft, now: nat): (e: AuditEntry)
    ensures e.action == d.action && e.reason == d.reason && e.userParams == d.userParams
    ensures e.previousPriority == d.previousPriority && e.newPriority == d.newPriority
    ensures e.timestamp == now
  {
    AuditEntry(d.action, d.previousPriority, d.newPriority, d.reason, now, d.userParams)
  }

  function Merge<T>(patch: Option<T>, current: T): T {
    if patch.Some? then patch.value else current
  }

  /** Merges the given fields into the record. */
  function ApplyPatch(r: Request, p: RequestPatch): Request {
    r.(status := Merge(p.status, r.status),
       cfmPriority := if p.cfmPriority.Some? then p.cfmPriority else r.cfmPriority,
       cfmAnswers := if p.cfmAnswers.Some? then p.cfmAnswers else r.cfmAnswers,
       evaluatedAt := if p.evaluatedAt.Some? then p.evaluatedAt else r.evaluatedAt,
       exitReason := if p.exitReason.Some? then p.exitReason else r.exitReason,
       exitNote := if p.exitNote.Some? then p.exitNote else r.exitNote,
       refusalReason := if p.refusalReason.Some? then p.refusalReason else r.refusalReason)
  }

  /** The record after `updateRequest(id, patch, draft)`: the merge, and the
      stamped entry appended to the history. */
  function Updated(r: Request, p: RequestPatch, d: AuditDraft, now: nat): Request {
    ApplyPatch(r, p).(auditHistory := r.auditHistory + [Stamp(d, now)])
  }

  /** An update sets every field the patch names, keeps every field it does
      not name, leaves all other fields of the record alone, and extends the
      history by exactly the stamped entry. */
  lemma UpdatedFrame(r: Request, p: RequestPatch, d: AuditDraft, now: nat)
    ensures p.status.Some? ==> Updated(r, p, d, now).status == p.status.value
    ensures p.status.None? ==> Updated(r, p, d, now).status == r.status
    ensures p.cfmPriority.Some? ==> Updated(r, p, d, now).cfmPriority == p.cfmPriority
    ensures p.cfmPriority.None? ==> Updated(r, p, d, now).cfmPriority == r.cfmPriority
    ensures p.cfmAnswers.Some? ==> Updated(r, p, d, now).cfmAnswers == p.cfmAnswers
    ensures p.cfmAnswers.None? ==> Updated(r, p, d, now).cfmAnswers == r.cfmAnswers
    ensures p.evaluatedAt.Some? ==> Updated(r, p, d, now).evaluatedAt == p.evaluatedAt
    ensures p.evaluatedAt.None? ==> Updated(r, p, d, now).evaluatedAt == r.evaluatedAt
    ensures p.exitReason.Some? ==> Updated(r, p, d, now).exitReason == p.exitReason
    ensures p.exitReason.None? ==> Updated(r, p, d, now).exitReason == r.exitReason
    ensures p.exitNote.Some? ==> Updated(r, p, d, now).exitNote == p.exitNote
    ensures p.exitNote.None? ==> Updated(r, p, d, now).exitNote == r.exitNote
    ensures p.refusalReason.Some? ==> Updated(r, p, d, now).refusalReason == p.refusalReason
    ensures p.refusalReason.None? ==> Updated(r, p, d, now).refusalReason == r.refusalReason
    ensures Updated(r, p, d, now).(status := r.status, cfmPriority := r.cfmPriority, cfmAnswers := r.cfmAnswers,
              evaluatedAt := r.evaluatedAt, exitReason := r.exitReason, exitNote := r.exitNote,
              refusalReason := r.refusalReason, auditHistory := r.auditHistory) == r
    ensures |Updated(r, p, d, now).auditHistory| == |r.auditHistory| + 1
    ensures Updated(r, p, d, now).auditHistory[..|r.auditHistory|] == r.auditHistory
    ensures Updated(r, p, d, now).auditHistory[|r.auditHistory|] == Stamp(d, now)
  {
  }

  /** Merging the same fields twice is merging them once. */
  lemma ApplyPatchIdempotent(r: Request, p: RequestPatch)
    ensures ApplyPatch(ApplyPatch(r, p), p) == ApplyPatch(r, p)
  {
  }

  /** `where("status", "==", "pending_review")`; ordering by `createdAt`
      also leaves out records that have no `createdAt`. */
  predicate IsPendingDoc(d: WithId<Request>) {
    d.doc.status == PendingReview && d.doc.createdAt.Some?
  }

  /** The sort key of `orderBy("createdAt", "desc")`: the negated time. */
  function CreatedAtDesc(d: WithId<Request>): int {
    0 - (d.doc.createdAt.GetOr(0) as int)
  }

  /** The result list of `subscribeToPendingRequests` for a snapshot of the
      stored records paired with their ids, newest first. */
  function PendingRequests(docs: seq<WithId<Request>>): (r: seq<WithId<Request>>)
    ensures forall i :: 0 <= i < |r| ==> r[i].doc.status == PendingReview && r[i].doc.createdAt.Some?
    ensures forall i, j :: 0 <= i < j < |r| ==> r[i].doc.createdAt.value >= r[j].doc.createdAt.value
    ensures multiset(r) == multiset(Filter(docs, IsPendingDoc))
  {
    var kept := Filter(docs, IsPendingDoc);
    var r := SortBy(kept, CreatedAtDesc);
    SortedPendingIsNewestFirst(kept, r);
    r
  }

  /** A permutation of pending records sorted by `CreatedAtDesc` holds
      timestamped pending records, newest first. */
  lemma SortedPendingIsNewestFirst(kept: seq<WithId<Request>>, r: seq<WithId<Request>>)
    requires forall i :: 0 <= i < |kept| ==> IsPendingDoc(kept[i])
    requires multiset(r) == multiset(kept) && SortedBy(r, CreatedAtDesc)
    ensures forall i :: 0 <= i < |r| ==> IsPendingDoc(r[i])
    ensures forall i, j :: 0 <= i < j < |r| ==> r[i].doc.createdAt.GetOr(0) >= r[j].doc.createdAt.GetOr(0)
  {
    forall i | 0 <= i < |r| ensures IsPendingDoc(r[i]) {
      assert r[i] in multiset(kept);
    }
    forall i, j | 0 <= i < j < |r| ensures r[i].doc.createdAt.GetOr(0) >= r[j].doc.createdAt.GetOr(0) {
      assert CreatedAtDesc(r[i]) <= CreatedAtDesc(r[j]);
    }
  }

  /** A record is in the pending list exactly when it is in the snapshot,
      pending review and timestamped. */
  lemma PendingRequestsMembers(docs: seq<WithId<Request>>, d: WithId<Request>)
    ensures d in PendingRequests(docs) <==> d in docs && IsPendingDoc(d)
  {
    FilterMembers(docs, IsPendingDoc, d);
    assert d in PendingRequests(docs) <==> d in multiset(Filter(docs, IsPendingDoc));
  }
}
