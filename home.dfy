/**
 * The citizen home screen: headline counts, the category filter and the combined
 * incident / bin search.
 */
module HomeScreen {
  import opened Wrappers
  import opened Text
  import opened Seqs
  import opened Incidents
  import opened SmartBins
  import AdminDashboard

  /** `openIssues` counts status exactly "Reported" (case-sensitive; "In Progress" is not open). */
  predicate IsOpen(i: Incident) { i.status == "Reported" }

  /** `resolvedIncidents` counts status exactly "Resolved". */
  predicate IsResolvedExactly(i: Incident) { i.status == "Resolved" }

  datatype HomeCounts = HomeCounts(totalIncidents: nat, openIssues: nat, resolvedIncidents: nat, totalBins: nat)

  function Counts(incidents: seq<Incident>, bins: seq<SmartBin>): (c: HomeCounts)
    ensures c.totalIncidents == |incidents| && c.totalBins == |bins|
  {
    HomeCounts(|incidents|, Count(incidents, IsOpen), Count(incidents, IsResolvedExactly), |bins|)
  }

  /**
   * The headline counts are exact status matches: `openIssues` counts the incidents whose
   * status is exactly "Reported" and `resolvedIncidents` those exactly "Resolved".
   */
  lemma CountsExact(incidents: seq<Incident>, bins: seq<SmartBin>)
    ensures Counts(incidents, bins).openIssues == |Filter(incidents, (i: Incident) => i.status == "Reported")|
    ensures Counts(incidents, bins).resolvedIncidents == |Filter(incidents, (i: Incident) => i.status == "Resolved")|
  {
    FilterSame(incidents, IsOpen, (i: Incident) => i.status == "Reported");
    FilterSame(incidents, IsResolvedExactly, (i: Incident) => i.status == "Resolved");
  }

  /**
   * Case and "In Progress": an incident "In Progress" or "reported" is not an open issue
   * on the home screen, while the dashboard counts it as pending.
   */
  lemma OpenIssuesAreCaseSensitive(x: Incident, bins: seq<SmartBin>, users: nat)
    requires x.status == "In Progress" || x.status == "reported"
    ensures Counts([x], bins).openIssues == 0
    ensures AdminDashboard.Stats([x], users).pendingIncidents == 1
  {
    assert [x][1..] == [];
    assert x.status != "Reported" by {
      if x.status == "reported" {
        assert x.status[0] != "Reported"[0];
      }
    }
    assert Lower("reported") == Lower("Reported");
    assert AdminDashboard.IsPending(x);
  }

  /**
   * Open and resolved are disjoint, so together at most the total; and being exact
   * matches, each is at most the dashboard's case-insensitive pending / resolved count.
   */
  lemma CountsBounded(incidents: seq<Incident>, bins: seq<SmartBin>, users: nat)
    ensures var c := Counts(incidents, bins);
      var s := AdminDashboard.Stats(incidents, users);
      && c.openIssues + c.resolvedIncidents <= c.totalIncidents
      && c.openIssues <= s.pendingIncidents
      && c.resolvedIncidents <= s.resolvedIncidents
  {
    CountDisjoint(incidents, IsOpen, IsResolvedExactly);
    CountMonotone(incidents, IsOpen, AdminDashboard.IsPending);
    CountMonotone(incidents, IsResolvedExactly, AdminDashboard.IsResolved);
  }

  /** `filteredIncidents`: "All" or no category keeps everything, otherwise the type must equal it ignoring case. */
  function ByCategory(xs: seq<Incident>, category: Option<string>): seq<Incident> {
    match category
    case None => xs
    case Some(c) => if c == "All" then xs else Filter(xs, (i: Incident) => EqualsIgnoreCase(i.incidentType, c))
  }

  lemma ByCategoryMembers(xs: seq<Incident>, category: Option<string>)
    ensures forall x :: x in ByCategory(xs, category) <==>
      x in xs && (category.None? || category.value == "All" || EqualsIgnoreCase(x.incidentType, category.value))
    ensures IsSubsequence(ByCategory(xs, category), xs)
  {
    match category {
      case None => SubsequenceReflexive(xs);
      case Some(c) =>
        if c == "All" {
          SubsequenceReflexive(xs);
        } else {
          FilterIsSubsequence(xs, (i: Incident) => EqualsIgnoreCase(i.incidentType, c));
        }
    }
  }

  predicate IncidentMatches(i: Incident, text: string) {
    ContainsIgnoreCase(i.description, text) || ContainsIgnoreCase(i.incidentType, text)
  }

  /** `searchResults`: a blank text finds nothing at all; otherwise incidents and bins matching it. */
  function SearchResults(text: string, incidents: seq<Incident>, bins: seq<SmartBin>): (seq<Incident>, seq<SmartBin>) {
    if IsBlank(text) then ([], [])
    else (Filter(incidents, (i: Incident) => IncidentMatches(i, text)),
          Filter(bins, (b: SmartBin) => ContainsIgnoreCase(b.name, text)))
  }

  /**
   * Blank text gives two empty lists; otherwise an incident is found iff its description
   * or type contains the text and a bin iff its name does, ignoring case, each list in
   * its input order.
   */
  lemma SearchResultsCorrect(text: string, incidents: seq<Incident>, bins: seq<SmartBin>)
    ensures IsBlank(text) ==> SearchResults(text, incidents, bins) == ([], [])
    ensures !IsBlank(text) ==>
      var (found, foundBins) := SearchResults(text, incidents, bins);
      && (forall x :: x in found <==> x in incidents && IncidentMatches(x, text))
      && (forall b :: b in foundBins <==> b in bins && ContainsIgnoreCase(b.name, text))
      && IsSubsequence(found, incidents) && IsSubsequence(foundBins, bins)
  {
    if !IsBlank(text) {
      FilterIsSubsequence(incidents, (i: Incident) => IncidentMatches(i, text));
      FilterIsSubsequence(bins, (b: SmartBin) => ContainsIgnoreCase(b.name, text));
    }
  }

  class HomeScreenViewModel {
    var searchText: string
    var selectedCategory: Option<string>
    var incidents: seq<Incident>
    var smartBins: seq<SmartBin>

    constructor()
      ensures searchText == "" && selectedCategory == Some("All") && incidents == [] && smartBins == []
    {
      searchText := "";
      selectedCategory := Some("All");
      incidents := [];
      smartBins := [];
    }

    method OnSearchTextChange(text: string)
      modifies this
      ensures searchText == text
      ensures selectedCategory == old(selectedCategory) && incidents == old(incidents) && smartBins == old(smartBins)
    {
      searchText := text;
    }

    method OnCategorySelected(category: string)
      modifies this
      ensures selectedCategory == Some(category)
      ensures searchText == old(searchText) && incidents == old(incidents) && smartBins == old(smartBins)
    {
      selectedCategory := Some(category);
    }
  }
}
