/** src/components/queue/RequestQueue.tsx: the queue list. The requests are
    narrowed by a search term, a priority filter and the pending status,
    then ordered by priority or by age; the header counts the urgent ones. */
module RequestQueue {
  import opened Common
  import opened Sorting
  import opened Icu
  import opened JsParseInt

  /** The term is looked for in the patient's name, medical record and
      diagnosis, ignoring case. */
  predicate MatchesSearch(r: IcuRequest, term: string) {
    ContainsIgnoringCase(r.patient.name, term)
    || ContainsIgnoringCase(r.patient.medicalRecord, term)
    || ContainsIgnoringCase(r.patient.diagnosis, term)
  }

  /** The priority filter is the select's value: `"all"` or a priority
      read with `parseInt`. */
  predicate MatchesPriority(r: IcuRequest, filter: string) {
    filter == "all" || ParseInt(filter) == Some(r.cfmPriority as int)
  }

  predicate Shown(term: string, filter: string, r: IcuRequest) {
    MatchesSearch(r, term) && MatchesPriority(r, filter) && r.status == Pending
  }

  datatype SortMode = ByPriority | ByTime

  /** The comparator's key: the priority, or the request time (oldest
      first). */
  function SortKey(mode: SortMode, r: IcuRequest): int {
    match mode
    case ByPriority => r.cfmPriority
    case ByTime => r.requestDate
  }

  /** The comparator of the chosen order, as a key function. */
  function ModeKey(mode: SortMode): IcuRequest -> int {
    (x: IcuRequest) => SortKey(mode, x)
  }

  /** `filteredRequests`: stable, so ties keep the filtered order. */
  function FilteredRequests(requests: seq<IcuRequest>, term: string, filter: string, mode: SortMode): (r: seq<IcuRequest>)
    ensures multiset(r) == multiset(Filter(requests, (x: IcuRequest) => Shown(term, filter, x)))
    ensures forall i, j :: 0 <= i < j < |r| ==> SortKey(mode, r[i]) <= SortKey(mode, r[j])
    ensures forall i :: 0 <= i < |r| ==> Shown(term, filter, r[i])
    ensures forall k :: WithKey(r, ModeKey(mode), k)
                        == WithKey(Filter(requests, (x: IcuRequest) => Shown(term, filter, x)), ModeKey(mode), k)
  {
    var shown := Filter(requests, (x: IcuRequest) => Shown(term, filter, x));
    var sorted := SortBy(shown, ModeKey(mode));
    AllSurvivePermutation(sorted, shown, (x: IcuRequest) => Shown(term, filter, x));
    sorted
  }

  /** A request is displayed exactly when it is in the input, matches the
      search and the priority filter, and is pending. */
  lemma FilteredRequestsMembers(requests: seq<IcuRequest>, term: string, filter: string, mode: SortMode, x: IcuRequest)
    ensures x in FilteredRequests(requests, term, filter, mode) <==>
            x in requests && MatchesSearch(x, term) && MatchesPriority(x, filter) && x.status == Pending
  {
    var shown := Filter(requests, (y: IcuRequest) => Shown(term, filter, y));
    FilterMembers(requests, (y: IcuRequest) => Shown(term, filter, y), x);
    assert x in FilteredRequests(requests, term, filter, mode) <==> x in multiset(shown);
  }

  /** With an empty term and "all", the queue shows every pending request. */
  lemma {:induction false} NoFilterShowsAllPending(requests: seq<IcuRequest>, mode: SortMode, x: IcuRequest)
    ensures x in FilteredRequests(requests, "", "all", mode) <==> x in requests && x.status == Pending
  {
    FilteredRequestsMembers(requests, "", "all", mode, x);
    EmptyTermMatches(x.patient.name);
  }

  /** Picking priority `p` in the select shows only requests of priority
      `p`. */
  lemma PriorityFilterSelects(requests: seq<IcuRequest>, term: string, p: CfmPriority, mode: SortMode, x: IcuRequest)
    ensures x in FilteredRequests(requests, term, NatToString(p), mode) <==>
            x in requests && MatchesSearch(x, term) && x.cfmPriority == p && x.status == Pending
  {
    ParseIntOfDecimal(p, []);
    assert NatToString(p) + [] == NatToString(p);
    assert NatToString(p) != "all";
    FilteredRequestsMembers(requests, term, NatToString(p), mode, x);
  }

  predicate IsUrgent(r: IcuRequest) {
    r.cfmPriority <= 2
  }

  /** `urgentCount`. */
  function UrgentCount(displayed: seq<IcuRequest>): (n: nat)
    ensures n <= |displayed|
  {
    Count(displayed, IsUrgent)
  }

  /** The urgent count depends only on which requests are displayed, not
      on the chosen order. */
  lemma UrgentCountIgnoresOrder(requests: seq<IcuRequest>, term: string, filter: string)
    ensures UrgentCount(FilteredRequests(requests, term, filter, ByPriority))
            == UrgentCount(FilteredRequests(requests, term, filter, ByTime))
  {
    CountPermutation(FilteredRequests(requests, term, filter, ByPriority),
      FilteredRequests(requests, term, filter, ByTime), IsUrgent);
  }

  /** Under the priority order the urgent requests come first. */
  lemma UrgentFirst(requests: seq<IcuRequest>, term: string, filter: string, i: int, j: int)
    requires 0 <= i < j < |FilteredRequests(requests, term, filter, ByPriority)|
    requires IsUrgent(FilteredRequests(requests, term, filter, ByPriority)[j])
    ensures IsUrgent(FilteredRequests(requests, term, filter, ByPriority)[i])
  {
    assert SortKey(ByPriority, FilteredRequests(requests, term, filter, ByPriority)[i])
           <= SortKey(ByPriority, FilteredRequests(requests, term, filter, ByPriority)[j]);
  }
}
