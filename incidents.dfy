/**
 * The `Incident` record (a Room entity keyed by `id`, mirrored to the "incidents"
 * document collection) and the keyed store that `insertIncident`, `updateIncident` and
 * `deleteIncident` act on.  Timestamps are epoch milliseconds; `date` is an opaque
 * formatted string.
 */
module Incidents {
  import opened Wrappers

  datatype Incident = Incident(
    id: string,
    incidentType: string,
    description: string,
    location: string,
    imageUris: seq<string>,
    status: string,
    severity: string,
    timestamp: int,
    reportedBy: string,
    date: string,
    afterImageUri: Option<string>,
    resolvedComment: Option<string>,
    assignedTo: Option<string>,
    masterIncidentId: Option<string>,
    mergedIds: seq<string>)

  /** The status a freshly reported incident carries. */
  const Reported: string := "Reported"

  /**
   * `Incident()` with every argument left at its default; `now` stands for
   * `System.currentTimeMillis()` at construction.
   */
  function NewIncident(now: int): (r: Incident)
    ensures r.status == Reported && r.severity == "Medium"
    ensures r.timestamp == now
    ensures r.afterImageUri == None && r.resolvedComment == None
    ensures r.assignedTo == None && r.masterIncidentId == None
    ensures r.imageUris == [] && r.mergedIds == []
    ensures r.id == "" && r.incidentType == "" && r.description == "" && r.location == ""
    ensures r.reportedBy == "" && r.date == ""
  {
    Incident("", "", "", "", [], Reported, "Medium", now, "", "", None, None, None, None, [])
  }

  /** The stored incidents, keyed by their primary key `id`. */
  type Store = map<string, Incident>

  /** Every record is stored under its own id. */
  ghost predicate KeyedById(s: Store) {
    forall k :: k in s ==> s[k].id == k
  }

  /**
   * `insertIncident` / `updateIncident`: a REPLACE insert (and a document `set`), so the
   * record becomes the one stored under its id and every other record stays.
   */
  function Put(s: Store, inc: Incident): (r: Store)
    ensures inc.id in r && r[inc.id] == inc
    ensures forall k :: k != inc.id ==> (k in r <==> k in s) && (k in s ==> r[k] == s[k])
    ensures KeyedById(s) ==> KeyedById(r)
  {
    s[inc.id := inc]
  }

  /** `deleteIncident`: removes the row whose primary key is the record's id. */
  function Remove(s: Store, inc: Incident): (r: Store)
    ensures inc.id !in r
    ensures forall k :: k != inc.id ==> (k in r <==> k in s) && (k in s ==> r[k] == s[k])
    ensures KeyedById(s) ==> KeyedById(r)
  {
    s - {inc.id}
  }

  /** Writing twice under the same id keeps only the second record. */
  lemma PutOverwrites(s: Store, a: Incident, b: Incident)
    requires a.id == b.id
    ensures Put(Put(s, a), b) == Put(s, b)
  {
  }
}
