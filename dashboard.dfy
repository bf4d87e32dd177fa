/**
 * The administrator dashboard: the status-bucket / date-range / search / sort chain
 * behind `filteredIncidents`, the `DashboardStats` counts, the status update with its
 * after-image rule, and the view model's filter fields.
 */
module AdminDashboard {
  import opened Wrappers
  import opened Text
  import opened Seqs
  import opened Incidents

  // ---------------------------------------------------------------------------
  // The filter chain
  // ---------------------------------------------------------------------------

  /** Belongs to the "Pending" bucket: status "Reported" or "In Progress", ignoring case. */
  predicate IsPending(i: Incident) {
    EqualsIgnoreCase(i.status, "Reported") || EqualsIgnoreCase(i.status, "In Progress")
  }

  /** Belongs to the "Resolved" bucket: status "Resolved", ignoring case. */
  predicate IsResolved(i: Incident) {
    EqualsIgnoreCase(i.status, "Resolved")
  }

  /** The `when (status)` step: only the exact names "Pending" and "Resolved" filter. */
  function ByStatus(xs: seq<Incident>, status: string): seq<Incident> {
    if status == "Pending" then Filter(xs, IsPending)
    else if status == "Resolved" then Filter(xs, IsResolved)
    else xs
  }

  /** Whether an incident passes the status step for the selected bucket. */
  predicate InBucket(i: Incident, status: string) {
    if status == "Pending" then IsPending(i)
    else if status == "Resolved" then IsResolved(i)
    else true
  }

  /** The date step: both ends of the range are inclusive; no range keeps everything. */
  function ByDate(xs: seq<Incident>, range: Option<(int, int)>): seq<Incident> {
    match range
    case None => xs
    case Some((lo, hi)) => Filter(xs, (i: Incident) => lo <= i.timestamp && i.timestamp <= hi)
  }

  predicate InRange(i: Incident, range: Option<(int, int)>) {
    match range
    case None => true
    case Some((lo, hi)) => lo <= i.timestamp <= hi
  }

  /** The search matches type, description, id or reporter, ignoring case. */
  predicate Matches(i: Incident, query: string) {
    || ContainsIgnoreCase(i.incidentType, query)
    || ContainsIgnoreCase(i.description, query)
    || ContainsIgnoreCase(i.id, query)
    || ContainsIgnoreCase(i.reportedBy, query)
  }

  /** The search step: a blank query keeps everything. */
  function Searched(xs: seq<Incident>, query: string): seq<Incident> {
    if IsBlank(query) then xs else Filter(xs, (i: Incident) => Matches(i, query))
  }

  /** The incidents that survive the three filters, still in input order. */
  function Selected(xs: seq<Incident>, query: string, status: string, range: Option<(int, int)>): seq<Incident> {
    Searched(ByDate(ByStatus(xs, status), range), query)
  }

  /** The severity rank used by the "Severity" sort, on the lower-cased severity. */
  function SeverityRank(severity: string): (n: int)
    ensures 0 <= n <= 3
    ensures n == 3 <==> Lower(severity) == "high"
    ensures n == 2 <==> Lower(severity) == "medium"
    ensures n == 1 <==> Lower(severity) == "low"
  {
    var s := Lower(severity);
    if s == "high" then 3 else if s == "medium" then 2 else if s == "low" then 1 else 0
  }

  function Timestamp(i: Incident): int { i.timestamp }

  function Rank(i: Incident): int { SeverityRank(i.severity) }

  /** `sortedByDescending { rank }` is the stable ascending sort on the negated rank. */
  function NegatedRank(i: Incident): int { -SeverityRank(i.severity) }

  /** The `when (sort)` step. */
  function SortStep(xs: seq<Incident>, sort: string): seq<Incident> {
    if sort == "Oldest" then SortBy(xs, Timestamp)
    else if sort == "Severity" then SortBy(xs, NegatedRank)
    else xs
  }

  /** The value of `filteredIncidents` for the given list and filter values. */
  function FilteredIncidents(xs: seq<Incident>, query: string, status: string, sort: string,
                             range: Option<(int, int)>): seq<Incident> {
    SortStep(Selected(xs, query, status, range), sort)
  }

  /** An incident survives the filters exactly when it passes each of the three steps. */
  lemma SelectedMembers(xs: seq<Incident>, query: string, status: string, range: Option<(int, int)>)
    ensures forall x :: x in Selected(xs, query, status, range) <==>
      x in xs && InBucket(x, status) && InRange(x, range) && (IsBlank(query) || Matches(x, query))
  {
    var a := ByStatus(xs, status);
    var b := ByDate(a, range);
    assert forall x :: x in a <==> x in xs && InBucket(x, status);
    assert forall x :: x in b <==> x in a && InRange(x, range);
  }

  /** "Rejected" (or any status outside both buckets) is visible only when no bucket is chosen. */
  lemma RejectedOnlyUnderAll(xs: seq<Incident>, x: Incident)
    requires x.status == "Rejected"
    ensures x !in ByStatus(xs, "Pending") && x !in ByStatus(xs, "Resolved")
  {
    assert Lower("Rejected")[2] == 'j';
    assert Lower("Reported")[2] == 'p';
    assert Lower("Resolved")[2] == 's';
  }

  /** Before sorting the result is a subsequence of the input, in input order. */
  lemma SelectedIsSubsequence(xs: seq<Incident>, query: string, status: string, range: Option<(int, int)>)
    ensures IsSubsequence(Selected(xs, query, status, range), xs)
  {
    var a := ByStatus(xs, status);
    if status == "Pending" {
      FilterIsSubsequence(xs, IsPending);
    } else if status == "Resolved" {
      FilterIsSubsequence(xs, IsResolved);
    } else {
      SubsequenceReflexive(xs);
    }
    var b := ByDate(a, range);
    match range {
      case None => SubsequenceReflexive(a);
      case Some((lo, hi)) => FilterIsSubsequence(a, (i: Incident) => lo <= i.timestamp && i.timestamp <= hi);
    }
    SubsequenceTransitive(b, a, xs);
    var c := Searched(b, query);
    if IsBlank(query) {
      SubsequenceReflexive(b);
    } else {
      FilterIsSubsequence(b, (i: Incident) => Matches(i, query));
    }
    SubsequenceTransitive(c, b, xs);
  }

  /** The sort step only permutes; any sort name other than the two known ones is the identity. */
  lemma SortStepPermutes(xs: seq<Incident>, sort: string)
    ensures multiset(SortStep(xs, sort)) == multiset(xs)
    ensures sort != "Oldest" && sort != "Severity" ==> SortStep(xs, sort) == xs
  {
  }

  /** "Oldest": non-decreasing timestamps; equal timestamps keep their input order. */
  lemma OldestOrder(xs: seq<Incident>, t: int)
    ensures var r := SortStep(xs, "Oldest");
      && (forall i, j :: 0 <= i < j < |r| ==> r[i].timestamp <= r[j].timestamp)
      && Pick(r, Timestamp, t) == Pick(xs, Timestamp, t)
  {
    SortBySorted(xs, Timestamp);
    SortByStable(xs, Timestamp, t);
  }

  /** An ascending order on the negated rank is a descending order on the rank. */
  lemma NegatedOrderDescends(r: seq<Incident>)
    requires forall i, j :: 0 <= i < j < |r| ==> NegatedRank(r[i]) <= NegatedRank(r[j])
    ensures forall i, j :: 0 <= i < j < |r| ==> Rank(r[i]) >= Rank(r[j])
  {
    forall i, j | 0 <= i < j < |r|
      ensures Rank(r[i]) >= Rank(r[j])
    {
      assert NegatedRank(r[i]) <= NegatedRank(r[j]);
    }
  }

  /**
   * "Severity": non-increasing rank (High 3, Medium 2, Low 1, anything else 0); incidents
   * of equal rank keep their input order.
   */
  lemma SeverityOrder(xs: seq<Incident>, k: int)
    ensures var r := SortStep(xs, "Severity");
      && (forall i, j :: 0 <= i < j < |r| ==> Rank(r[i]) >= Rank(r[j]))
      && Pick(r, Rank, k) == Pick(xs, Rank, k)
  {
    SeverityDescends(xs);
    SeverityStable(xs, k);
  }

  lemma SeverityDescends(xs: seq<Incident>)
    ensures var r := SortBy(xs, NegatedRank);
      forall i, j :: 0 <= i < j < |r| ==> Rank(r[i]) >= Rank(r[j])
  {
    SortBySorted(xs, NegatedRank);
    NegatedOrderDescends(SortBy(xs, NegatedRank));
  }

  lemma SeverityStable(xs: seq<Incident>, k: int)
    ensures Pick(SortBy(xs, NegatedRank), Rank, k) == Pick(xs, Rank, k)
  {
    SortByNegatedStable(xs, NegatedRank, Rank, -k);
  }

  /** Subsequences of a list ordered newest-first are ordered newest-first. */
  lemma {:induction false} SubsequenceNewestFirst(a: seq<Incident>, b: seq<Incident>)
    requires IsSubsequence(a, b)
    requires forall i, j :: 0 <= i < j < |b| ==> b[i].timestamp >= b[j].timestamp
    ensures forall i, j :: 0 <= i < j < |a| ==> a[i].timestamp >= a[j].timestamp
    decreases |b|
  {
    if a != [] {
      if a[0] == b[0] && IsSubsequence(a[1..], b[1..]) {
        SubsequenceNewestFirst(a[1..], b[1..]);
        forall j | 0 < j < |a|
          ensures a[0].timestamp >= a[j].timestamp
        {
          SubsequenceElements(a[1..], b[1..], j - 1);
        }
      } else {
        SubsequenceNewestFirst(a, b[1..]);
      }
    }
  }

  lemma {:induction false} SubsequenceElements(a: seq<Incident>, b: seq<Incident>, i: nat)
    requires IsSubsequence(a, b) && i < |a|
    ensures exists j :: 0 <= j < |b| && b[j] == a[i]
    decreases |b|
  {
    if a[0] == b[0] && IsSubsequence(a[1..], b[1..]) {
      if i == 0 {
        assert b[0] == a[0];
      } else {
        SubsequenceElements(a[1..], b[1..], i - 1);
        var j :| 0 <= j < |b[1..]| && b[1..][j] == a[1..][i - 1];
        assert b[j + 1] == a[i];
      }
    } else {
      SubsequenceElements(a, b[1..], i);
      var j :| 0 <= j < |b[1..]| && b[1..][j] == a[i];
      assert b[j + 1] == a[i];
    }
  }

  /**
   * "Newest" does not sort: it keeps the order of the fetched list, which the query asks
   * for newest first; so the displayed list is newest first whenever the fetched one is.
   */
  lemma NewestKeepsFetchOrder(xs: seq<Incident>, query: string, status: string, range: Option<(int, int)>)
    requires forall i, j :: 0 <= i < j < |xs| ==> xs[i].timestamp >= xs[j].timestamp
    ensures var r := FilteredIncidents(xs, query, status, "Newest", range);
      forall i, j :: 0 <= i < j < |r| ==> r[i].timestamp >= r[j].timestamp
  {
    SelectedIsSubsequence(xs, query, status, range);
    SubsequenceNewestFirst(Selected(xs, query, status, range), xs);
  }

  // ---------------------------------------------------------------------------
  // Statistics
  // ---------------------------------------------------------------------------

  datatype DashboardStats = DashboardStats(
    totalIncidents: nat, pendingIncidents: nat, resolvedIncidents: nat, totalUsers: nat)

  /** The counts `fetchDashboardData` publishes for a fetched list and user count. */
  function Stats(incidents: seq<Incident>, users: nat): (s: DashboardStats)
    ensures s.totalIncidents == |incidents| && s.totalUsers == users
  {
    DashboardStats(|incidents|, Count(incidents, IsPending), Count(incidents, IsResolved), users)
  }

  /** No status is in both buckets. */
  lemma BucketsDisjoint(i: Incident)
    ensures !(IsPending(i) && IsResolved(i))
  {
    assert Lower("Reported")[2] != Lower("Resolved")[2];
    assert |Lower("In Progress")| != |Lower("Resolved")|;
  }

  /**
   * Pending and resolved never overlap, so together they are at most the total; and each
   * equals the size of its dashboard bucket when no date range or search is applied.
   */
  lemma StatsAgreeWithBuckets(incidents: seq<Incident>, users: nat, sort: string)
    ensures var s := Stats(incidents, users);
      && s.pendingIncidents + s.resolvedIncidents <= s.totalIncidents
      && s.pendingIncidents == |FilteredIncidents(incidents, "", "Pending", sort, None)|
      && s.resolvedIncidents == |FilteredIncidents(incidents, "", "Resolved", sort, None)|
  {
    forall i | 0 <= i < |incidents|
      ensures !(IsPending(incidents[i]) && IsResolved(incidents[i]))
    {
      BucketsDisjoint(incidents[i]);
    }
    CountDisjoint(incidents, IsPending, IsResolved);
    SortStepPermutes(Selected(incidents, "", "Pending", None), sort);
    SortStepPermutes(Selected(incidents, "", "Resolved", None), sort);
    assert |multiset(FilteredIncidents(incidents, "", "Pending", sort, None))|
        == |multiset(Selected(incidents, "", "Pending", None))|;
    assert |multiset(FilteredIncidents(incidents, "", "Resolved", sort, None))|
        == |multiset(Selected(incidents, "", "Resolved", None))|;
  }

  // ---------------------------------------------------------------------------
  // Status update
  // ---------------------------------------------------------------------------

  /** What `updateIncidentStatus` does to the incident documents. */
  datatype UpdateOutcome =
    | ImageRequired            // "Resolved" without an after-image: logged, nothing written
    | UploadFailed(e: string)  // the after-image upload threw: nothing written
    | NotFound                 // the document does not exist, so `update` throws
    | Updated(docs: Store)     // the update went through; the dashboard refetches

  /**
   * The status update against the documents `docs`.  Exactly the status "Resolved" needs
   * an after-image, which is uploaded (`upload` is the storage outcome, its download URL
   * or the error) and written with the comment; any other status is written alone.
   */
  function StatusUpdate(docs: Store, incidentId: string, newStatus: string,
                        afterImageUri: Option<string>, comment: Option<string>,
                        upload: Result<string, string>): (o: UpdateOutcome)
    ensures o == ImageRequired <==> newStatus == "Resolved" && afterImageUri.None?
    ensures o.Updated? <==>
      incidentId in docs && (newStatus != "Resolved" || (afterImageUri.Some? && upload.Success?))
    ensures o.Updated? ==> forall k :: k != incidentId ==>
      (k in o.docs <==> k in docs) && (k in docs ==> o.docs[k] == docs[k])
    ensures o.Updated? ==> incidentId in o.docs
    ensures o.Updated? && newStatus != "Resolved" ==>
      o.docs[incidentId] == docs[incidentId].(status := newStatus)
    ensures o.Updated? && newStatus == "Resolved" ==>
      o.docs[incidentId] ==
        docs[incidentId].(status := newStatus, afterImageUri := Some(upload.value), resolvedComment := comment)
  {
    if newStatus == "Resolved" then
      if afterImageUri.None? then ImageRequired
      else if upload.Failure? then UploadFailed(upload.error)
      else if incidentId !in docs then NotFound
      else
        var prev := docs[incidentId];
        Updated(docs[incidentId := prev.(status := newStatus, afterImageUri := Some(upload.value),
                                         resolvedComment := comment)])
    else if incidentId !in docs then NotFound
    else Updated(docs[incidentId := docs[incidentId].(status := newStatus)])
  }

  /**
   * The guard compares the status exactly while the buckets ignore case: "resolved"
   * without any image is written, and the incident then counts as resolved.
   */
  lemma LowercaseResolvedSkipsImageRule(docs: Store, incidentId: string, upload: Result<string, string>)
    requires incidentId in docs
    ensures var o := StatusUpdate(docs, incidentId, "resolved", None, None, upload);
      o.Updated? && IsResolved(o.docs[incidentId]) && o.docs[incidentId].afterImageUri == docs[incidentId].afterImageUri
  {
    var o := StatusUpdate(docs, incidentId, "resolved", None, None, upload);
    assert Lower("resolved") == Lower("Resolved");
  }

  // ---------------------------------------------------------------------------
  // The view model's fields
  // ---------------------------------------------------------------------------

  class DashboardViewModel {
    var dashboardStats: Option<DashboardStats>
    var allIncidents: seq<Incident>
    var searchQuery: string
    var statusFilter: string
    var sortBy: string
    var dateRange: Option<(int, int)>

    /** The initial field values (the first fetch is `FetchDashboardData`). */
    constructor()
      ensures dashboardStats == None && allIncidents == []
      ensures searchQuery == "" && statusFilter == "All" && sortBy == "Newest" && dateRange == None
    {
      dashboardStats := None;
      allIncidents := [];
      searchQuery := "";
      statusFilter := "All";
      sortBy := "Newest";
      dateRange := None;
    }

    /** The list on screen. */
    function Filtered(): seq<Incident>
      reads this
    {
      FilteredIncidents(allIncidents, searchQuery, statusFilter, sortBy, dateRange)
    }

    method OnSearchQueryChanged(query: string)
      modifies this
      ensures searchQuery == query
      ensures statusFilter == old(statusFilter) && sortBy == old(sortBy) && dateRange == old(dateRange)
      ensures allIncidents == old(allIncidents) && dashboardStats == old(dashboardStats)
    {
      searchQuery := query;
    }

    method OnStatusFilterChanged(status: string)
      modifies this
      ensures statusFilter == status
      ensures searchQuery == old(searchQuery) && sortBy == old(sortBy) && dateRange == old(dateRange)
      ensures allIncidents == old(allIncidents) && dashboardStats == old(dashboardStats)
    {
      statusFilter := status;
    }

    method OnSortChanged(sortOption: string)
      modifies this
      ensures sortBy == sortOption
      ensures searchQuery == old(searchQuery) && statusFilter == old(statusFilter) && dateRange == old(dateRange)
      ensures allIncidents == old(allIncidents) && dashboardStats == old(dashboardStats)
    {
      sortBy := sortOption;
    }

    method OnDateRangeSelected(range: Option<(int, int)>)
      modifies this
      ensures dateRange == range
      ensures searchQuery == old(searchQuery) && statusFilter == old(statusFilter) && sortBy == old(sortBy)
      ensures allIncidents == old(allIncidents) && dashboardStats == old(dashboardStats)
    {
      dateRange := range;
    }

    /**
     * `fetchDashboardData`, given the outcome of the incident query and of the user query.
     * The incident list is published before the users are fetched, so a failing user query
     * leaves the new list with the old statistics.
     */
    method FetchDashboardData(incidents: Result<seq<Incident>, string>, users: Result<nat, string>)
      modifies this
      ensures incidents.Failure? ==> allIncidents == old(allIncidents) && dashboardStats == old(dashboardStats)
      ensures incidents.Success? ==> allIncidents == incidents.value
      ensures incidents.Success? && users.Success? ==> dashboardStats == Some(Stats(incidents.value, users.value))
      ensures users.Failure? ==> dashboardStats == old(dashboardStats)
      ensures searchQuery == old(searchQuery) && statusFilter == old(statusFilter)
      ensures sortBy == old(sortBy) && dateRange == old(dateRange)
    {
      if incidents.Success? {
        allIncidents := incidents.value;
        if users.Success? {
          dashboardStats := Some(Stats(incidents.value, users.value));
        }
      }
    }

    /**
     * `updateIncidentStatus`: performs `StatusUpdate` and, when the update went through,
     * refetches with the given query outcomes; every early return leaves the dashboard as it was.
     */
    method UpdateIncidentStatus(docs: Store, incidentId: string, newStatus: string,
                                afterImageUri: Option<string>, comment: Option<string>,
                                upload: Result<string, string>,
                                incidents: Result<seq<Incident>, string>, users: Result<nat, string>)
      returns (o: UpdateOutcome)
      modifies this
      ensures o == StatusUpdate(docs, incidentId, newStatus, afterImageUri, comment, upload)
      ensures !o.Updated? ==> allIncidents == old(allIncidents) && dashboardStats == old(dashboardStats)
      ensures o.Updated? && incidents.Success? ==> allIncidents == incidents.value
      ensures o.Updated? && incidents.Success? && users.Success? ==>
        dashboardStats == Some(Stats(incidents.value, users.value))
      ensures o.Updated? && incidents.Failure? ==>
        allIncidents == old(allIncidents) && dashboardStats == old(dashboardStats)
      ensures o.Updated? && users.Failure? ==> dashboardStats == old(dashboardStats)
      ensures searchQuery == old(searchQuery) && statusFilter == old(statusFilter)
      ensures sortBy == old(sortBy) && dateRange == old(dateRange)
    {
      o := StatusUpdate(docs, incidentId, newStatus, afterImageUri, comment, upload);
      if o.Updated? {
        FetchDashboardData(incidents, users);
      }
    }
  }
}
