/**
 * The record updates of the two admin list view models: each writes a copy of the
 * incident with one field replaced, with no check of the current status.
 */
module AdminConsole {
  import opened Wrappers
  import opened Incidents
  import AdminDashboard

  /** `AdminViewModel.updateIncidentStatus` (admin screen): the copy with the new status. */
  function UpdateIncidentStatus(incident: Incident, newStatus: string): (r: Incident)
    ensures r.status == newStatus && r.id == incident.id
    ensures r.(status := incident.status) == incident
  {
    incident.(status := newStatus)
  }

  /** `AdminViewModel.uploadAfterPhoto`: the copy with the photo's URI as after-image. */
  function UploadAfterPhoto(incident: Incident, photoUri: string): (r: Incident)
    ensures r.afterImageUri == Some(photoUri) && r.id == incident.id && r.status == incident.status
    ensures r.(afterImageUri := incident.afterImageUri) == incident
  {
    incident.(afterImageUri := Some(photoUri))
  }

  /**
   * Rewriting a status is idempotent, and writing the old status back undoes the change:
   * no status is final (Resolved and Rejected included).
   */
  lemma StatusRewriteIdempotentAndUndoable(incident: Incident, newStatus: string)
    ensures UpdateIncidentStatus(UpdateIncidentStatus(incident, newStatus), newStatus) == UpdateIncidentStatus(incident, newStatus)
    ensures UpdateIncidentStatus(UpdateIncidentStatus(incident, newStatus), incident.status) == incident
  {
  }

  /** A photo alone never resolves an incident, and a status change keeps the after-image. */
  lemma PhotoAndStatusIndependent(incident: Incident, photoUri: string, newStatus: string)
    ensures UploadAfterPhoto(incident, photoUri).status == incident.status
    ensures UpdateIncidentStatus(incident, newStatus).afterImageUri == incident.afterImageUri
    ensures UpdateIncidentStatus(UploadAfterPhoto(incident, photoUri), newStatus)
         == UploadAfterPhoto(UpdateIncidentStatus(incident, newStatus), photoUri)
  {
  }

  /**
   * The admin paths disagree: the dashboard refuses "Resolved" without an after-image,
   * while the admin list writes it, leaving the after-image as it was.
   */
  lemma PathsDisagreeOnResolve(docs: Store, incident: Incident, upload: Result<string, string>)
    requires incident.id in docs && docs[incident.id] == incident && incident.afterImageUri.None?
    ensures AdminDashboard.StatusUpdate(docs, incident.id, "Resolved", None, None, upload) == AdminDashboard.ImageRequired
    ensures var r := UpdateIncidentStatus(incident, "Resolved");
      r.status == "Resolved" && r.afterImageUri.None? && Put(docs, r)[incident.id] == r
  {
  }
}
