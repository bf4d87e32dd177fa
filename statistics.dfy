/**
 * The statistics screen: the incident-type filter, the per-type / per-status /
 * per-severity counts and the seven-day trend.  A date is a day number; `parse` stands
 * for `LocalDate.parse(date, "yyyy-MM-dd")`, None where it throws.
 */
module Statistics {
  import opened Wrappers
  import opened Text
  import opened Seqs
  import opened Incidents

  /** `filteredIncidents`: "All" keeps everything, otherwise the type must equal the selection ignoring case. */
  function ByType(xs: seq<Incident>, selected: string): seq<Incident> {
    if selected == "All" then xs else Filter(xs, (i: Incident) => EqualsIgnoreCase(i.incidentType, selected))
  }

  lemma ByTypeMembers(xs: seq<Incident>, selected: string)
    ensures forall x :: x in ByType(xs, selected) <==>
      x in xs && (selected == "All" || EqualsIgnoreCase(x.incidentType, selected))
    ensures IsSubsequence(ByType(xs, selected), xs)
  {
    if selected == "All" {
      SubsequenceReflexive(xs);
    } else {
      FilterIsSubsequence(xs, (i: Incident) => EqualsIgnoreCase(i.incidentType, selected));
    }
  }

  /** The type filter is equality, not containment: "Dumping" does not select "Illegal Dumping". */
  lemma TypeFilterIsEquality(x: Incident)
    requires x.incidentType == "Illegal Dumping"
    ensures x !in ByType([x], "Dumping") && x in ByType([x], "illegal dumping")
  {
    assert |Lower("Illegal Dumping")| != |Lower("Dumping")|;
    assert Lower("Illegal Dumping") == Lower("illegal dumping");
  }

  function IncidentType(i: Incident): string { i.incidentType }
  function Status(i: Incident): string { i.status }
  function Severity(i: Incident): string { i.severity }
  function Date(i: Incident): string { i.date }

  /** `incidentsByType`: incidents per exact type string. */
  function CountsByType(xs: seq<Incident>): seq<(string, nat)> { CountBy(xs, IncidentType) }

  /** `incidentsByStatus`: incidents per exact status string. */
  function CountsByStatus(xs: seq<Incident>): seq<(string, nat)> { CountBy(xs, Status) }

  /** `incidentsBySeverity`: incidents per exact severity string. */
  function CountsBySeverity(xs: seq<Incident>): seq<(string, nat)> { CountBy(xs, Severity) }

  /**
   * Each count map has one key per distinct value, in order of first occurrence, with
   * the number of incidents carrying it (at least one); the counts add up to the total.
   */
  lemma CountsCorrect(xs: seq<Incident>)
    ensures forall i :: 0 <= i < |CountsByStatus(xs)| ==>
      CountsByStatus(xs)[i].1 == |Pick(xs, Status, CountsByStatus(xs)[i].0)| >= 1
    ensures forall i :: 0 <= i < |CountsBySeverity(xs)| ==>
      CountsBySeverity(xs)[i].1 == |Pick(xs, Severity, CountsBySeverity(xs)[i].0)| >= 1
    ensures forall i :: 0 <= i < |CountsByType(xs)| ==>
      CountsByType(xs)[i].1 == |Pick(xs, IncidentType, CountsByType(xs)[i].0)| >= 1
    ensures forall s :: s in Keys(CountsByStatus(xs)) <==> s in MapKeys(xs, Status)
    ensures forall s :: s in Keys(CountsBySeverity(xs)) <==> s in MapKeys(xs, Severity)
    ensures forall s :: s in Keys(CountsByType(xs)) <==> s in MapKeys(xs, IncidentType)
    ensures Distinct(Keys(CountsByStatus(xs))) && Distinct(Keys(CountsBySeverity(xs)))
    ensures Distinct(Keys(CountsByType(xs)))
    ensures Keys(CountsByStatus(xs)) == FirstOccurrences(MapKeys(xs, Status))
    ensures Keys(CountsBySeverity(xs)) == FirstOccurrences(MapKeys(xs, Severity))
    ensures Keys(CountsByType(xs)) == FirstOccurrences(MapKeys(xs, IncidentType))
    ensures SumCounts(CountsByStatus(xs)) == SumCounts(CountsBySeverity(xs)) == SumCounts(CountsByType(xs)) == |xs|
  {
    CountByCorrect(xs, Status);
    CountByCorrect(xs, Severity);
    CountByCorrect(xs, IncidentType);
  }

  /** Status grouping is case-sensitive: "resolved" and "Resolved" are two separate entries. */
  lemma StatusKeysAreCaseSensitive(a: Incident, b: Incident)
    requires a.status == "resolved" && b.status == "Resolved"
    ensures CountsByStatus([a, b]) == [("resolved", 1), ("Resolved", 1)]
  {
    assert [a, b][..1] == [a];
    assert [a][..0] == [];
    assert GroupBy([a], Status) == [("resolved", [a])];
    assert "resolved" != "Resolved";
    var gs := GroupBy([a, b], Status);
    assert gs == AddToGroup([("resolved", [a])], "Resolved", b);
    assert gs == [("resolved", [a]), ("Resolved", [b])];
  }

  /** Inside the trend window: from seven days before today up to today, both included. */
  function InWeek(today: int, parse: string -> Option<int>): Incident -> bool {
    (i: Incident) => match parse(i.date) case Some(d) => today - 7 <= d <= today case None => false
  }

  /** `weeklyIncidents`: an unparsable date anywhere empties the whole map. */
  function Weekly(xs: seq<Incident>, today: int, parse: string -> Option<int>): seq<(string, nat)> {
    if exists i :: 0 <= i < |xs| && parse(xs[i].date).None? then []
    else CountBy(Filter(xs, InWeek(today, parse)), Date)
  }

  /**
   * With every date parsable, the trend has one entry per raw date string seen in the
   * window (exactly the eight days from today − 7 to today), counting the incidents of that
   * date; otherwise it is empty.
   */
  lemma WeeklyCorrect(xs: seq<Incident>, today: int, parse: string -> Option<int>)
    ensures (exists i :: 0 <= i < |xs| && parse(xs[i].date).None?) ==> Weekly(xs, today, parse) == []
    ensures (forall i :: 0 <= i < |xs| ==> parse(xs[i].date).Some?) ==>
      var w := Filter(xs, InWeek(today, parse));
      && Weekly(xs, today, parse) == CountBy(w, Date)
      && (forall x :: x in w <==> x in xs && today - 7 <= parse(x.date).value <= today)
      && Distinct(Keys(Weekly(xs, today, parse)))
      && (forall i :: 0 <= i < |Weekly(xs, today, parse)| ==>
            Weekly(xs, today, parse)[i].1 == |Pick(w, Date, Weekly(xs, today, parse)[i].0)| >= 1)
      && SumCounts(Weekly(xs, today, parse)) == |w|
  {
    CountByCorrect(Filter(xs, InWeek(today, parse)), Date);
  }

  class StatisticsViewModel {
    var allIncidents: seq<Incident>
    var selectedIncidentType: string

    constructor()
      ensures allIncidents == [] && selectedIncidentType == "All"
    {
      allIncidents := [];
      selectedIncidentType := "All";
    }

    function Filtered(): seq<Incident>
      reads this
    {
      ByType(allIncidents, selectedIncidentType)
    }

    /** Changing the type selection changes the filtered list only: the counts use all incidents. */
    method OnIncidentTypeSelected(incidentType: string)
      modifies this
      ensures selectedIncidentType == incidentType && allIncidents == old(allIncidents)
      ensures CountsByType(allIncidents) == old(CountsByType(allIncidents))
      ensures CountsByStatus(allIncidents) == old(CountsByStatus(allIncidents))
      ensures CountsBySeverity(allIncidents) == old(CountsBySeverity(allIncidents))
    {
      selectedIncidentType := incidentType;
    }
  }
}
