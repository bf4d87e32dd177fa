/**
 * The administrator's incident detail screen: the status being chosen, the after-photos
 * being collected, and the save that uploads at most one photo and writes the record.
 * Photo URIs are their `toString()` form.
 */
module AdminIncidentDetail {
  import opened Wrappers
  import opened Text
  import opened Seqs
  import opened Incidents

  /** A photo is uploaded only when its URI is not already a web address. */
  predicate NeedsUpload(uri: string) {
    !StartsWith(uri, "http")
  }

  class AdminIncidentDetailViewModel {
    var incident: Option<Incident>
    var selectedStatus: string
    var afterPhotoUris: seq<string>

    constructor()
      ensures incident == None && selectedStatus == "" && afterPhotoUris == []
    {
      incident := None;
      selectedStatus := "";
      afterPhotoUris := [];
    }

    /** The incident listener fired: the chosen status mirrors the incident's, or "" without one. */
    method OnIncidentLoaded(loaded: Option<Incident>)
      modifies this
      ensures incident == loaded
      ensures selectedStatus == match loaded case Some(i) => i.status case None => ""
      ensures afterPhotoUris == old(afterPhotoUris)
    {
      incident := loaded;
      selectedStatus := match loaded case Some(i) => i.status case None => "";
    }

    /** Any string is accepted as the status. */
    method OnStatusSelected(status: string)
      modifies this
      ensures selectedStatus == status
      ensures incident == old(incident) && afterPhotoUris == old(afterPhotoUris)
    {
      selectedStatus := status;
    }

    /** New photos go after the ones already chosen, in their order. */
    method OnAfterPhotosSelected(uris: seq<string>)
      modifies this
      ensures afterPhotoUris == old(afterPhotoUris) + uris
      ensures incident == old(incident) && selectedStatus == old(selectedStatus)
    {
      afterPhotoUris := afterPhotoUris + uris;
    }

    /** Only the first occurrence of the photo is dropped. */
    method OnAfterPhotoRemoved(uri: string)
      modifies this
      ensures afterPhotoUris == RemoveFirst(old(afterPhotoUris), uri)
      ensures incident == old(incident) && selectedStatus == old(selectedStatus)
    {
      afterPhotoUris := RemoveFirst(afterPhotoUris, uri);
    }

    /**
     * `updateIncidentStatus`.  `upload` is the storage outcome (download URL or error) and
     * `writeError` whether `updateIncident` threw.  Returns the photo that was uploaded, the
     * record handed to `updateIncident`, and the toast shown.
     */
    method UpdateIncidentStatus(upload: Result<string, string>, writeError: Option<string>)
      returns (uploadedFrom: Option<string>, written: Option<Incident>, toast: Option<string>)
      ensures incident.None? ==> uploadedFrom.None? && written.None? && toast.None?
      ensures incident.Some? ==>
        uploadedFrom == (if afterPhotoUris != [] && NeedsUpload(afterPhotoUris[0]) then Some(afterPhotoUris[0]) else None)
      ensures incident.Some? && afterPhotoUris == [] ==> written == Some(incident.value.(status := selectedStatus))
      ensures written.Some? ==> incident.Some? && (uploadedFrom.None? || upload.Success?)
      ensures incident.Some? && (uploadedFrom.None? || upload.Success?) ==>
        written == Some(incident.value.(status := selectedStatus,
                                        afterImageUri := if uploadedFrom.Some? then Some(upload.value)
                                                         else incident.value.afterImageUri))
      ensures incident.Some? && uploadedFrom.Some? && upload.Failure? ==>
        written.None? && toast == Some("Failed to update status: " + upload.error)
      ensures written.Some? ==> toast == Some(match writeError
        case None => "Status updated successfully"
        case Some(e) => "Failed to update status: " + e)
    {
      uploadedFrom, written, toast := None, None, None;
      if incident.Some? {
        var current := incident.value;
        var uploadedPhotoUrl: Option<string> := None;
        if afterPhotoUris != [] {
          var uri := afterPhotoUris[0];
          if NeedsUpload(uri) {
            uploadedFrom := Some(uri);
            if upload.Failure? {
              toast := Some("Failed to update status: " + upload.error);
              return;
            }
            uploadedPhotoUrl := Some(upload.value);
          }
        }
        var updated := current.(status := selectedStatus,
                                afterImageUri := if uploadedPhotoUrl.Some? then uploadedPhotoUrl else current.afterImageUri);
        written := Some(updated);
        toast := Some(match writeError
          case None => "Status updated successfully"
          case Some(e) => "Failed to update status: " + e);
      }
    }
  }
}
