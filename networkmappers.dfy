/** The category as the API sends it, and its mapper to the domain model. */
module NetworkCategoryMappers {
  import opened Wrappers
  import opened CategoryDomain
  import LocalCategoryMappers

  datatype NotificationRulesDto = NotificationRulesDto(channels: seq<string>, thresholds: map<string, string>)

  datatype CategoryDto = CategoryDto(
    id: string,
    incidentType: string,
    subTypes: seq<string>,
    severityLevels: seq<string>,
    notificationRules: NotificationRulesDto)

  /**
   * `CategoryDto.toDomain`: fields copied, rules copied verbatim, and the severity names
   * read back in order; an unknown name throws and no category is built.
   */
  function ToDomain(d: CategoryDto): (r: Result<Category, string>)
    ensures r.Success? <==> forall i :: 0 <= i < |d.severityLevels| ==> ParseSeverity(d.severityLevels[i]).Success?
    ensures r.Success? ==>
      && r.value.id == d.id && r.value.incidentType == d.incidentType && r.value.subTypes == d.subTypes
      && |r.value.severityLevels| == |d.severityLevels|
      && (forall i :: 0 <= i < |d.severityLevels| ==> SeverityName(r.value.severityLevels[i]) == d.severityLevels[i])
      && r.value.notificationRules.channels == d.notificationRules.channels
      && r.value.notificationRules.thresholds == d.notificationRules.thresholds
    ensures r.Failure? ==> exists k :: (
      && 0 <= k < |d.severityLevels| && ParseSeverity(d.severityLevels[k]).Failure?
      && r.error == "Unknown severity level: " + d.severityLevels[k])
  {
    match ParseSeverities(d.severityLevels)
    case Failure(m) => Failure(m)
    case Success(levels) =>
      Success(Category(d.id, d.incidentType, d.subTypes, levels,
                       NotificationRules(d.notificationRules.channels, d.notificationRules.thresholds)))
  }

  /**
   * The API and the cache agree: a row holding the same fields as a DTO, whose JSON decodes
   * to the DTO's rules, maps to the same category (or the same error).
   */
  lemma AgreesWithLocalMapper(d: CategoryDto, e: LocalCategoryMappers.CategoryEntity,
                              fromJson: string -> Result<NotificationRules, string>)
    requires e.id == d.id && e.incidentType == d.incidentType && e.subTypes == d.subTypes
    requires e.severityLevels == d.severityLevels
    requires fromJson(e.notificationRules) == Success(NotificationRules(d.notificationRules.channels, d.notificationRules.thresholds))
    ensures LocalCategoryMappers.ToDomain(e, fromJson) == ToDomain(d)
  {
  }

  /** One unknown severity anywhere in the list rejects the whole category. */
  lemma UnknownSeverityRejects(d: CategoryDto, k: int)
    requires 0 <= k < |d.severityLevels|
    requires d.severityLevels[k] !in {"Low", "Medium", "High"}
    ensures ToDomain(d).Failure?
  {
    assert ParseSeverity(d.severityLevels[k]).Failure?;
  }
}
