/**
 * "My reports": the citizen's own incidents, filtered by exact status and grouped under a
 * relative-date heading ("Today", "Yesterday" or a formatted date), plus delete and undo.
 * The calendar is abstracted: a date is its year and day of the year, `parse` stands for
 * `SimpleDateFormat("yyyy-MM-dd HH:mm:ss").parse` (None when it throws) and `format` for
 * the "dd MMMM yyyy" formatter.
 */
module MyReports {
  import opened Wrappers
  import opened Seqs
  import opened Incidents

  datatype DayStamp = DayStamp(year: int, dayOfYear: int)

  /** `getRelativeDate(dateString)` as seen on day `today`. */
  function RelativeDate(dateString: string, today: DayStamp,
                        parse: string -> Option<DayStamp>, format: DayStamp -> string): (r: string)
    ensures parse(dateString).None? ==> r == dateString
    ensures parse(dateString).Some? ==>
      var d := parse(dateString).value;
      && (d == today ==> r == "Today")
      && (d.year == today.year && d.dayOfYear == today.dayOfYear - 1 ==> r == "Yesterday")
      && (d.year != today.year || (d.dayOfYear != today.dayOfYear && d.dayOfYear != today.dayOfYear - 1) ==>
            r == format(d))
  {
    match parse(dateString)
    case None => dateString
    case Some(d) =>
      if today.year == d.year && today.dayOfYear == d.dayOfYear then "Today"
      else if today.year == d.year && today.dayOfYear - 1 == d.dayOfYear then "Yesterday"
      else format(d)
  }

  /**
   * The year boundary: the last day of a year seen on the first day of the next is not
   * "Yesterday" but a formatted date.
   */
  lemma NewYearIsNotYesterday(dateString: string, parse: string -> Option<DayStamp>,
                              format: DayStamp -> string, y: int, last: int)
    requires parse(dateString) == Some(DayStamp(y, last))
    ensures RelativeDate(dateString, DayStamp(y + 1, 1), parse, format) == format(DayStamp(y, last))
  {
  }

  /** `filteredIncidents`: "All" keeps everything, any other value keeps an exact status match. */
  function ByStatus(xs: seq<Incident>, status: string): seq<Incident> {
    if status == "All" then xs else Filter(xs, (i: Incident) => i.status == status)
  }

  /** The filter is case-sensitive equality, and keeps input order. */
  lemma ByStatusMembers(xs: seq<Incident>, status: string)
    ensures forall x :: x in ByStatus(xs, status) <==> x in xs && (status == "All" || x.status == status)
    ensures IsSubsequence(ByStatus(xs, status), xs)
  {
    if status == "All" {
      SubsequenceReflexive(xs);
    } else {
      FilterIsSubsequence(xs, (i: Incident) => i.status == status);
    }
  }

  /** The heading an incident is listed under. */
  function DateHeading(today: DayStamp, parse: string -> Option<DayStamp>, format: DayStamp -> string): Incident -> string
  {
    (i: Incident) => RelativeDate(i.date, today, parse, format)
  }

  /** `groupedAndFilteredIncidents`: the filtered incidents grouped by heading. */
  function Grouped(xs: seq<Incident>, status: string, today: DayStamp,
                   parse: string -> Option<DayStamp>, format: DayStamp -> string): seq<(string, seq<Incident>)>
  {
    GroupBy(ByStatus(xs, status), DateHeading(today, parse, format))
  }

  /**
   * The groups: headings in order of first occurrence, each group non-empty and holding
   * exactly the filtered incidents with that heading in their order, and all groups
   * together a permutation of the filtered list.
   */
  lemma GroupedCorrect(xs: seq<Incident>, status: string, today: DayStamp,
                       parse: string -> Option<DayStamp>, format: DayStamp -> string)
    ensures var ys, h := ByStatus(xs, status), DateHeading(today, parse, format);
      var gs := Grouped(xs, status, today, parse, format);
      && Keys(gs) == FirstOccurrences(MapKeys(ys, h))
      && Distinct(Keys(gs))
      && (forall i :: 0 <= i < |gs| ==> gs[i].1 != [] && gs[i].1 == Pick(ys, h, gs[i].0))
      && multiset(Flatten(gs)) == multiset(ys)
  {
    GroupByCorrect(ByStatus(xs, status), DateHeading(today, parse, format));
  }

  /** `deleteIncident`: the record is removed from the incident store. */
  function DeleteIncident(docs: Store, incident: Incident): Store {
    Remove(docs, incident)
  }

  /** `undoDelete`: the record is written back under its id. */
  function UndoDelete(docs: Store, incident: Incident): Store {
    Put(docs, incident)
  }

  /**
   * Undoing a deletion writes the card's record back under its id, whatever was stored
   * there before the deletion; every other record is as it was.
   */
  lemma UndoDeleteReinserts(docs: Store, incident: Incident)
    ensures UndoDelete(DeleteIncident(docs, incident), incident) == docs[incident.id := incident]
  {
    var r := UndoDelete(DeleteIncident(docs, incident), incident);
    assert r.Keys == docs[incident.id := incident].Keys;
  }

  /** When the card shows the stored record, undoing its deletion restores the store. */
  lemma UndoDeleteRestores(docs: Store, incident: Incident)
    requires incident.id in docs && docs[incident.id] == incident
    ensures UndoDelete(DeleteIncident(docs, incident), incident) == docs
  {
    UndoDeleteReinserts(docs, incident);
    assert docs[incident.id := incident] == docs;
  }

  class MyReportsViewModel {
    var incidents: seq<Incident>
    var selectedStatus: string
    var isRefreshing: bool

    constructor()
      ensures incidents == [] && selectedStatus == "All" && !isRefreshing
    {
      incidents := [];
      selectedStatus := "All";
      isRefreshing := false;
    }

    /** The list of (heading, incidents) on screen. */
    function Grouping(today: DayStamp, parse: string -> Option<DayStamp>, format: DayStamp -> string):
      seq<(string, seq<Incident>)>
      reads this
    {
      Grouped(incidents, selectedStatus, today, parse, format)
    }

    /** `loadUserIncidents`: with a signed-in user the list follows that user's incidents. */
    method LoadUserIncidents(userId: Option<string>, fetched: seq<Incident>)
      modifies this
      ensures userId.Some? ==> incidents == fetched
      ensures userId.None? ==> incidents == old(incidents)
      ensures selectedStatus == old(selectedStatus) && isRefreshing == old(isRefreshing)
    {
      if userId.Some? {
        incidents := fetched;
      }
    }

    method OnFilterSelected(status: string)
      modifies this
      ensures selectedStatus == status
      ensures incidents == old(incidents) && isRefreshing == old(isRefreshing)
    {
      selectedStatus := status;
    }
  }
}
