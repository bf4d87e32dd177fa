/**
 * The report form: creating a new incident or editing an existing one.  The form's
 * fields are updated in place; submitting validates them with early returns, builds the
 * record and saves it.  `uiEvents` is kept as the list of messages emitted so far.
 * The AI classification is given as its parsed (category, severity) answer or its error.
 */
module ReportIncident {
  import opened Wrappers
  import opened Text
  import opened Seqs
  import opened Incidents

  /** Which repository call a submission makes. */
  datatype Save = Insert(incident: Incident) | Update(incident: Incident)

  const NotSignedIn: string := "CRITICAL: You are not signed in. Please restart the app."
  const EmptyFields: string := "Incident type and description cannot be empty."
  const NoDescription: string := "Please enter a description first."

  /** Editing mode holds iff an incident id was passed and it is not blank. */
  predicate EditsExisting(incidentId: Option<string>) {
    incidentId.Some? && !IsBlank(incidentId.value)
  }

  /**
   * The record `submitOrUpdateReport` saves.  The id is the passed id whenever there is
   * one (blank or not), else a fresh UUID; an edit keeps the loaded status; the time and
   * reporter are stamped anew; everything else takes the `Incident` defaults.
   */
  function BuildReport(incidentId: Option<string>, freshId: string, isEditing: bool, loaded: Option<Incident>,
                       incidentType: string, description: string, severity: string, imageUris: seq<string>,
                       location: string, now: int, userId: string, date: string): (r: Incident)
    ensures r.id == (if incidentId.Some? then incidentId.value else freshId)
    ensures r.status == (if isEditing && loaded.Some? then loaded.value.status else Reported)
    ensures r.timestamp == now && r.reportedBy == userId && r.date == date
    ensures r.incidentType == incidentType && r.description == description && r.severity == severity
    ensures r.imageUris == imageUris && r.location == location
    ensures r.afterImageUri == None && r.resolvedComment == None
    ensures r.assignedTo == None && r.masterIncidentId == None && r.mergedIds == []
    ensures r == NewIncident(now).(id := r.id, incidentType := incidentType, description := description,
                                   location := location, imageUris := imageUris, status := r.status,
                                   severity := severity, reportedBy := userId, date := date)
  {
    Incident(if incidentId.Some? then incidentId.value else freshId, incidentType, description, location,
             imageUris, if isEditing then (match loaded case Some(l) => l.status case None => Reported) else Reported,
             severity, now, userId, date, None, None, None, None, [])
  }

  /**
   * Saving an edit rebuilds the record from the form: whatever was recorded about a
   * resolution or a merge is dropped, and only id and status carry over.
   */
  lemma EditDropsResolution(loaded: Incident, freshId: string, location: string, now: int, userId: string, date: string)
    requires loaded.afterImageUri.Some? && loaded.status == "Resolved"
    ensures var r := BuildReport(Some(loaded.id), freshId, true, Some(loaded), loaded.incidentType,
                                 loaded.description, loaded.severity, loaded.imageUris, location, now, userId, date);
      r.id == loaded.id && r.status == "Resolved" && r.afterImageUri.None? && r != loaded
  {
  }

  class ReportIncidentViewModel {
    const incidentId: Option<string>
    var incidentType: string
    var description: string
    var severity: string
    var imageUris: seq<string>
    var isEditing: bool
    var isLoading: bool
    var isAiLoading: bool
    var loadedIncident: Option<Incident>
    var events: seq<string>

    /** `init`: the field defaults and the editing decision. */
    constructor(incidentId: Option<string>)
      ensures this.incidentId == incidentId
      ensures isEditing == EditsExisting(incidentId)
      ensures incidentType == "" && description == "" && severity == "Medium" && imageUris == []
      ensures !isLoading && !isAiLoading && loadedIncident == None && events == []
    {
      this.incidentId := incidentId;
      incidentType := "";
      description := "";
      severity := "Medium";
      imageUris := [];
      isEditing := false;
      isLoading := false;
      isAiLoading := false;
      loadedIncident := None;
      events := [];
      new;
      if incidentId.Some? && !IsBlank(incidentId.value) {
        isEditing := true;
      }
    }

    /** `loadIncident`'s collector: the form takes the stored incident's fields. */
    method OnIncidentLoaded(loaded: Option<Incident>)
      modifies this
      ensures loadedIncident == loaded
      ensures loaded.Some? ==>
        && incidentType == loaded.value.incidentType && description == loaded.value.description
        && severity == loaded.value.severity && imageUris == loaded.value.imageUris
      ensures loaded.None? ==>
        && incidentType == old(incidentType) && description == old(description)
        && severity == old(severity) && imageUris == old(imageUris)
      ensures isEditing == old(isEditing) && isLoading == old(isLoading) && isAiLoading == old(isAiLoading)
      ensures events == old(events)
    {
      loadedIncident := loaded;
      if loaded.Some? {
        incidentType := loaded.value.incidentType;
        description := loaded.value.description;
        severity := loaded.value.severity;
        imageUris := loaded.value.imageUris;
      }
    }

    method OnImagesSelected(uris: seq<string>)
      modifies this
      ensures imageUris == old(imageUris) + uris
      ensures incidentType == old(incidentType) && description == old(description) && severity == old(severity)
      ensures isEditing == old(isEditing) && isLoading == old(isLoading) && loadedIncident == old(loadedIncident)
      ensures isAiLoading == old(isAiLoading) && events == old(events)
    {
      imageUris := imageUris + uris;
    }

    method OnImageRemoved(uri: string)
      modifies this
      ensures imageUris == RemoveFirst(old(imageUris), uri)
      ensures incidentType == old(incidentType) && description == old(description) && severity == old(severity)
      ensures isEditing == old(isEditing) && isLoading == old(isLoading) && loadedIncident == old(loadedIncident)
      ensures isAiLoading == old(isAiLoading) && events == old(events)
    {
      imageUris := RemoveFirst(imageUris, uri);
    }

    /**
     * `generateWithAi`: a blank description emits a message and never asks the model;
     * otherwise the model's answer fills type and severity, or its error is emitted.
     */
    method GenerateWithAi(answer: Result<(string, string), string>) returns (askedModel: bool)
      modifies this
      ensures askedModel == !IsBlank(old(description))
      ensures !askedModel ==>
        && events == old(events) + [NoDescription]
        && incidentType == old(incidentType) && severity == old(severity) && isAiLoading == old(isAiLoading)
      ensures askedModel && answer.Success? ==>
        incidentType == answer.value.0 && severity == answer.value.1 && events == old(events)
      ensures askedModel && answer.Failure? ==>
        && incidentType == old(incidentType) && severity == old(severity)
        && events == old(events) + ["AI failed: " + answer.error]
      ensures askedModel ==> !isAiLoading
      ensures description == old(description) && imageUris == old(imageUris) && isEditing == old(isEditing)
      ensures isLoading == old(isLoading) && loadedIncident == old(loadedIncident)
    {
      if IsBlank(description) {
        events := events + [NoDescription];
        return false;
      }
      askedModel := true;
      isAiLoading := true;
      match answer {
        case Success((category, estimated)) =>
          incidentType := category;
          severity := estimated;
        case Failure(e) =>
          events := events + ["AI failed: " + e];
      }
      isAiLoading := false;
    }

    /**
     * `deleteReport`: deletes by the id the form was opened with, whether or not it is
     * blank, and returns the id it asked to delete.  `deleteError` is the exception the
     * repository's delete threw, if any; there is no `catch`, so it skips the message.
     */
    method DeleteReport(deleteError: Option<string>) returns (deleted: Option<string>)
      modifies this
      ensures deleted == incidentId
      ensures incidentId.Some? && deleteError.None? ==> events == old(events) + ["Report deleted successfully!"]
      ensures incidentId.None? || deleteError.Some? ==> events == old(events)
      ensures incidentType == old(incidentType) && description == old(description) && severity == old(severity)
      ensures imageUris == old(imageUris) && isEditing == old(isEditing) && loadedIncident == old(loadedIncident)
      ensures isLoading == old(isLoading) && isAiLoading == old(isAiLoading)
    {
      deleted := incidentId;
      if incidentId.Some? && deleteError.None? {
        events := events + ["Report deleted successfully!"];
      }
    }

    /**
     * `submitOrUpdateReport`.  `userId` is the signed-in user, `freshId` the UUID a new
     * report would get, `location`, `now` and `date` the formatted location and the clock,
     * and `saveError` the exception the repository call threw, if any.  Returns the
     * repository call made.
     */
    method SubmitOrUpdateReport(userId: Option<string>, freshId: string, location: string, now: int, date: string,
                                saveError: Option<string>)
      returns (save: Option<Save>)
      modifies this
      ensures userId.None? ==> save.None? && events == old(events) + [NotSignedIn] && isLoading == old(isLoading)
      ensures userId.Some? && (IsBlank(incidentType) || IsBlank(description)) ==>
        save.None? && events == old(events) + [EmptyFields] && isLoading == old(isLoading)
      ensures userId.Some? && !IsBlank(incidentType) && !IsBlank(description) ==>
        var r := BuildReport(incidentId, freshId, isEditing, loadedIncident, incidentType, description, severity,
                             imageUris, location, now, userId.value, date);
        && save == Some(if isEditing then Update(r) else Insert(r))
        && !isLoading
        && events == old(events) + [match saveError
             case Some(e) => "Failed to save report: " + e
             case None => if isEditing then "Report updated successfully!" else "Report submitted successfully!"]
      ensures incidentType == old(incidentType) && description == old(description) && severity == old(severity)
      ensures imageUris == old(imageUris) && isEditing == old(isEditing) && loadedIncident == old(loadedIncident)
      ensures isAiLoading == old(isAiLoading)
    {
      if userId.None? {
        events := events + [NotSignedIn];
        return None;
      }
      if IsBlank(incidentType) || IsBlank(description) {
        events := events + [EmptyFields];
        return None;
      }
      isLoading := true;
      var incidentToSave := BuildReport(incidentId, freshId, isEditing, loadedIncident, incidentType, description,
                                        severity, imageUris, location, now, userId.value, date);
      save := Some(if isEditing then Update(incidentToSave) else Insert(incidentToSave));
      match saveError {
        case Some(e) =>
          events := events + ["Failed to save report: " + e];
        case None =>
          events := events + [if isEditing then "Report updated successfully!" else "Report submitted successfully!"];
      }
      isLoading := false;
    }
  }
}
