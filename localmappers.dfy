/**
 * The Room row for a category and its two mappers.  Gson is opaque: `toJson` and
 * `fromJson` stand for `Gson().toJson` and `Gson().fromJson` on the rules column.
 */
module LocalCategoryMappers {
  import opened Wrappers
  import opened CategoryDomain

  /** The "categories" row: severities as names and the rules as a JSON string. */
  datatype CategoryEntity = CategoryEntity(
    id: string,
    incidentType: string,
    subTypes: seq<string>,
    severityLevels: seq<string>,
    notificationRules: string)

  /**
   * `CategoryEntity.toDomain`: the rules are decoded first, then every severity name is
   * read back; either step may throw, and then no category is built.
   */
  function ToDomain(e: CategoryEntity, fromJson: string -> Result<NotificationRules, string>): (r: Result<Category, string>)
    ensures r.Success? <==> fromJson(e.notificationRules).Success? && ParseSeverities(e.severityLevels).Success?
    ensures r.Success? ==>
      && r.value.id == e.id && r.value.incidentType == e.incidentType && r.value.subTypes == e.subTypes
      && SeverityNames(r.value.severityLevels) == e.severityLevels
      && fromJson(e.notificationRules) == Success(r.value.notificationRules)
    ensures fromJson(e.notificationRules).Failure? ==> r == Failure(fromJson(e.notificationRules).error)
  {
    match fromJson(e.notificationRules)
    case Failure(m) => Failure(m)
    case Success(rules) =>
      match ParseSeverities(e.severityLevels)
      case Failure(m) => Failure(m)
      case Success(levels) =>
        NameListRoundTrip(e.severityLevels);
        Success(Category(e.id, e.incidentType, e.subTypes, levels, rules))
  }

  /** `Category.toEntity`: severities written by name and the rules as JSON. */
  function ToEntity(c: Category, toJson: NotificationRules -> string): (e: CategoryEntity)
    ensures e.id == c.id && e.incidentType == c.incidentType && e.subTypes == c.subTypes
    ensures |e.severityLevels| == |c.severityLevels|
    ensures ParseSeverities(e.severityLevels) == Success(c.severityLevels)
    ensures e.notificationRules == toJson(c.notificationRules)
  {
    SeverityListRoundTrip(c.severityLevels);
    CategoryEntity(c.id, c.incidentType, c.subTypes, SeverityNames(c.severityLevels), toJson(c.notificationRules))
  }

  /** A category stored and read back is the same category, provided Gson reads back its own JSON. */
  lemma DomainRoundTrip(c: Category, toJson: NotificationRules -> string,
                        fromJson: string -> Result<NotificationRules, string>)
    requires fromJson(toJson(c.notificationRules)) == Success(c.notificationRules)
    ensures ToDomain(ToEntity(c, toJson), fromJson) == Success(c)
  {
    var r := ToDomain(ToEntity(c, toJson), fromJson);
    assert r.value.severityLevels == c.severityLevels;
  }

  /**
   * A row that reads back is written again with the same id, type, sub-types and severity
   * names, in the same order.
   */
  lemma EntityRoundTrip(e: CategoryEntity, toJson: NotificationRules -> string,
                        fromJson: string -> Result<NotificationRules, string>)
    requires ToDomain(e, fromJson).Success?
    ensures var back := ToEntity(ToDomain(e, fromJson).value, toJson);
      back.id == e.id && back.incidentType == e.incidentType && back.subTypes == e.subTypes
      && back.severityLevels == e.severityLevels
  {
    var c := ToDomain(e, fromJson).value;
    var back := ToEntity(c, toJson);
    assert back.severityLevels == SeverityNames(c.severityLevels);
  }
}
