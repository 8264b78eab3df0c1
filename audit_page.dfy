/** src/pages/AuditPage.tsx: the audit trail of the queue. Every history
    entry of every request becomes one row that also carries its request's
    patient, record number, id and priority; the rows are shown newest
    first and can be searched. */
module AuditPage {
  import opened Common
  import opened Sorting
  import opened Icu
  import opened MockData

  /** A history entry spread with its owner's fields. */
  datatype AuditRow = AuditRow(
    entry: AuditEntry,
    patientName: string,
    patientId: string,
    requestId: string,
    priority: CfmPriority)

  function RowOf(req: IcuRequest, e: AuditEntry): AuditRow {
    AuditRow(e, req.patient.name, req.patient.medicalRecord, req.id, req.cfmPriority)
  }

  /** `req.history.map(...)`: one row per entry, in history order. */
  function RequestRows(req: IcuRequest): (rows: seq<AuditRow>)
    ensures |rows| == |req.history|
    ensures forall i :: 0 <= i < |rows| ==> rows[i] == RowOf(req, req.history[i])
  {
    seq(|req.history|, i requires 0 <= i < |req.history| => RowOf(req, req.history[i]))
  }

  /** `flatMap` over the requests. */
  function AllRows(reqs: seq<IcuRequest>): seq<AuditRow> {
    if reqs == [] then [] else RequestRows(reqs[0]) + AllRows(reqs[1..])
  }

  function HistoryTotal(reqs: seq<IcuRequest>): nat {
    if reqs == [] then 0 else |reqs[0].history| + HistoryTotal(reqs[1..])
  }

  /** There is one row per history entry, and each row is an entry of one
      of the requests, carrying that request's own fields. */
  lemma {:induction false} AllRowsShape(reqs: seq<IcuRequest>)
    ensures |AllRows(reqs)| == HistoryTotal(reqs)
    ensures forall r :: r in AllRows(reqs) ==>
              exists k, i :: 0 <= k < |reqs| && 0 <= i < |reqs[k].history| && r == RowOf(reqs[k], reqs[k].history[i])
  {
    if reqs != [] {
      AllRowsShape(reqs[1..]);
      forall r | r in AllRows(reqs)
        ensures exists k, i :: 0 <= k < |reqs| && 0 <= i < |reqs[k].history| && r == RowOf(reqs[k], reqs[k].history[i])
      {
        if r in RequestRows(reqs[0]) {
          var i :| 0 <= i < |RequestRows(reqs[0])| && RequestRows(reqs[0])[i] == r;
          assert r == RowOf(reqs[0], reqs[0].history[i]);
        } else {
          assert r in AllRows(reqs[1..]);
          var k, i :| 0 <= k < |reqs[1..]| && 0 <= i < |reqs[1..][k].history| && r == RowOf(reqs[1..][k], reqs[1..][k].history[i]);
          assert reqs[1..][k] == reqs[k + 1];
        }
      }
    }
  }

  /** Every entry of every request has its row. */
  lemma {:induction false} EveryEntryHasARow(reqs: seq<IcuRequest>, k: int, i: int)
    requires 0 <= k < |reqs| && 0 <= i < |reqs[k].history|
    ensures RowOf(reqs[k], reqs[k].history[i]) in AllRows(reqs)
  {
    if k == 0 {
      assert RequestRows(reqs[0])[i] == RowOf(reqs[0], reqs[0].history[i]);
    } else {
      EveryEntryHasARow(reqs[1..], k - 1, i);
    }
  }

  /** The sort key of `b.date - a.date`: newest first. */
  function NewestFirst(r: AuditRow): int {
    0 - r.entry.date
  }

  /** `allAuditEntries`. */
  function AllAuditEntries(reqs: seq<IcuRequest>): (rows: seq<AuditRow>)
    ensures multiset(rows) == multiset(AllRows(reqs))
    ensures forall i, j :: 0 <= i < j < |rows| ==> rows[i].entry.date >= rows[j].entry.date
    ensures forall k :: WithKey(rows, NewestFirst, k) == WithKey(AllRows(reqs), NewestFirst, k)
  {
    var rows := SortBy(AllRows(reqs), NewestFirst);
    assert forall i, j :: 0 <= i < j < |rows| ==> NewestFirst(rows[i]) <= NewestFirst(rows[j]);
    rows
  }

  /** The row count is the total history length. */
  lemma AuditRowCount(reqs: seq<IcuRequest>)
    ensures |AllAuditEntries(reqs)| == HistoryTotal(reqs)
  {
    AllRowsShape(reqs);
    assert |multiset(AllAuditEntries(reqs))| == |multiset(AllRows(reqs))|;
  }

  /** The search looks at the patient name, the physician and the action;
      the justification is not searched. */
  predicate RowMatches(term: string, r: AuditRow) {
    ContainsIgnoringCase(r.patientName, term)
    || ContainsIgnoringCase(r.entry.physician, term)
    || ContainsIgnoringCase(r.entry.action, term)
  }

  /** `filteredEntries`. */
  function FilteredEntries(rows: seq<AuditRow>, term: string): (r: seq<AuditRow>)
    ensures |r| <= |rows|
    ensures forall i :: 0 <= i < |r| ==> RowMatches(term, r[i])
  {
    Filter(rows, (x: AuditRow) => RowMatches(term, x))
  }

  /** The filtered rows are the matching rows, kept in their sorted order;
      an empty term keeps them all. */
  lemma FilteredEntriesShape(rows: seq<AuditRow>, term: string, x: AuditRow)
    ensures x in FilteredEntries(rows, term) <==> x in rows && RowMatches(term, x)
    ensures IsSubsequence(FilteredEntries(rows, term), rows)
    ensures term == [] ==> FilteredEntries(rows, term) == rows
  {
    FilterMembers(rows, (y: AuditRow) => RowMatches(term, y), x);
    FilterIsSubsequence(rows, (y: AuditRow) => RowMatches(term, y));
    if term == [] {
      forall i | 0 <= i < |rows| ensures RowMatches(term, rows[i]) {
        EmptyTermMatches(rows[i].patientName);
      }
      FilterKeepsAll(rows, (y: AuditRow) => RowMatches(term, y));
    }
  }

  /** Changing an entry's justification never changes whether it matches. */
  lemma JustificationIsNotSearched(term: string, r: AuditRow, justification: string)
    ensures RowMatches(term, r) == RowMatches(term, r.(entry := r.entry.(justification := justification)))
  {
  }

  /** Built from the sample requests, the page has five rows: one creation
      entry per request. */
  lemma {:induction false} SampleAuditTrail(now: int)
    ensures |AllAuditEntries(MockRequests(now))| == 5
  {
    var rs := MockRequests(now);
    assert rs[1..][1..][1..][1..][1..] == [];
    assert HistoryTotal(rs[1..][1..][1..][1..]) == 1;
    assert HistoryTotal(rs[1..][1..][1..]) == 2;
    assert HistoryTotal(rs[1..][1..]) == 3;
    assert HistoryTotal(rs[1..]) == 4;
    AuditRowCount(rs);
  }
}
