/** The record updates of the incident-list admin view model (screens/viewmodel). */
module IncidentAdmin {
  import opened Wrappers
  import opened Incidents
  import AdminConsole

  /** `AdminViewModel.updateIncidentStatus` (view-model package). */
  function UpdateIncidentStatus(incident: Incident, newStatus: string): (r: Incident)
    ensures r.status == newStatus && r.(status := incident.status) == incident
  {
    incident.(status := newStatus)
  }

  /** `AdminViewModel.addAfterImage`. */
  function AddAfterImage(incident: Incident, afterImageUri: string): (r: Incident)
    ensures r.afterImageUri == Some(afterImageUri) && r.status == incident.status
    ensures r.(afterImageUri := incident.afterImageUri) == incident
  {
    incident.(afterImageUri := Some(afterImageUri))
  }

  /** Both admin view models write the same records. */
  lemma AgreesWithConsole(incident: Incident, newStatus: string, uri: string)
    ensures UpdateIncidentStatus(incident, newStatus) == AdminConsole.UpdateIncidentStatus(incident, newStatus)
    ensures AddAfterImage(incident, uri) == AdminConsole.UploadAfterPhoto(incident, uri)
  {
  }

  /** Applying the same status twice gives the record of applying it once, from any status. */
  lemma StatusUpdateIdempotent(incident: Incident, newStatus: string)
    ensures UpdateIncidentStatus(UpdateIncidentStatus(incident, newStatus), newStatus) == UpdateIncidentStatus(incident, newStatus)
  {
  }
}
