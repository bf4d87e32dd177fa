/**
 * Tree-plantation drives: the upcoming / past split by event date and the two actions a
 * signed-in user can take.  Dates are epoch milliseconds; `now` stands for `Date()`.
 */
module Plantation {
  import opened Wrappers
  import opened Seqs

  datatype PlantationEvent = PlantationEvent(
    id: string,
    title: string,
    description: string,
    location: string,
    locationLatLng: string,
    eventDate: Option<int>,
    requiredVolunteers: int,
    registeredVolunteers: seq<string>,
    createdBy: string,
    createdAt: Option<int>)

  /** `eventDate?.after(now) ?: false`. */
  predicate IsUpcoming(d: PlantationEvent, now: int) {
    match d.eventDate case Some(t) => t > now case None => false
  }

  /** `eventDate?.before(now) ?: true`. */
  predicate IsPast(d: PlantationEvent, now: int) {
    match d.eventDate case Some(t) => t < now case None => true
  }

  function UpcomingDrives(drives: seq<PlantationEvent>, now: int): seq<PlantationEvent> {
    Filter(drives, (d: PlantationEvent) => IsUpcoming(d, now))
  }

  function PastDrives(drives: seq<PlantationEvent>, now: int): seq<PlantationEvent> {
    Filter(drives, (d: PlantationEvent) => IsPast(d, now))
  }

  /**
   * Upcoming is strictly later than now and never undated; past is strictly earlier or
   * undated.  No drive is in both lists, a drive dated exactly now is in neither, and both
   * lists keep the order of all drives.
   */
  lemma DrivesSplit(drives: seq<PlantationEvent>, now: int)
    ensures forall d :: d in UpcomingDrives(drives, now) <==> d in drives && d.eventDate.Some? && d.eventDate.value > now
    ensures forall d :: d in PastDrives(drives, now) <==> d in drives && (d.eventDate.None? || d.eventDate.value < now)
    ensures forall d :: d in UpcomingDrives(drives, now) ==> d !in PastDrives(drives, now)
    ensures forall d: PlantationEvent :: d.eventDate == Some(now) ==> d !in UpcomingDrives(drives, now) && d !in PastDrives(drives, now)
    ensures IsSubsequence(UpcomingDrives(drives, now), drives) && IsSubsequence(PastDrives(drives, now), drives)
  {
    FilterIsSubsequence(drives, (d: PlantationEvent) => IsUpcoming(d, now));
    FilterIsSubsequence(drives, (d: PlantationEvent) => IsPast(d, now));
  }

  /**
   * The two lists, filtered at two instants: `upcoming` at `t1` and `past` at `t2`.  A drive
   * is in both exactly when it is dated strictly between `t1` and `t2`, and in neither
   * exactly when it is dated in `[t2, t1]`; so the split is disjoint and complete only when
   * the two instants are close enough that no drive falls between them.
   */
  lemma DrivesAtTwoInstants(drives: seq<PlantationEvent>, t1: int, t2: int)
    ensures forall d :: d in UpcomingDrives(drives, t1) && d in PastDrives(drives, t2) <==>
      d in drives && d.eventDate.Some? && t1 < d.eventDate.value < t2
    ensures forall d :: d in drives && d !in UpcomingDrives(drives, t1) && d !in PastDrives(drives, t2) <==>
      d in drives && d.eventDate.Some? && t2 <= d.eventDate.value <= t1
  {
    DrivesSplit(drives, t1);
    DrivesSplit(drives, t2);
  }

  /**
   * `createDrive`: nothing when signed out; otherwise the new drive handed to `addDrive`,
   * created by the user, with no volunteers yet and the remaining fields at their defaults.
   */
  function CreateDrive(userId: Option<string>, freshId: string, title: string, description: string,
                       location: string, requiredVolunteers: int, eventDate: int): (r: Option<PlantationEvent>)
    ensures userId.None? <==> r.None?
    ensures r.Some? ==>
      && r.value.createdBy == userId.value && r.value.registeredVolunteers == [] && r.value.id == freshId
      && r.value.title == title && r.value.description == description && r.value.location == location
      && r.value.eventDate == Some(eventDate) && r.value.requiredVolunteers == requiredVolunteers
      && r.value.locationLatLng == "0.0,0.0" && r.value.createdAt.None?
  {
    match userId
    case None => None
    case Some(uid) =>
      Some(PlantationEvent(freshId, title, description, location, "0.0,0.0", Some(eventDate),
                           requiredVolunteers, [], uid, None))
  }

  /** `rsvpToDrive`: the (event, user) pair handed to the repository, nothing when signed out. */
  function RsvpToDrive(userId: Option<string>, eventId: string): (r: Option<(string, string)>)
    ensures userId.None? <==> r.None?
    ensures r.Some? ==> r.value == (eventId, userId.value)
  {
    match userId
    case None => None
    case Some(uid) => Some((eventId, uid))
  }
}
