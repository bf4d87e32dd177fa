/**
 * The incident-category domain model shared by the local cache and the remote API, and the
 * severity names both mappers translate with the same `when`.
 */
module CategoryDomain {
  import opened Wrappers

  datatype Severity = Low | Medium | High

  /** Notification channels and per-key thresholds, as the API sends them. */
  datatype NotificationRules = NotificationRules(channels: seq<string>, thresholds: map<string, string>)

  datatype Category = Category(
    id: string,
    incidentType: string,
    subTypes: seq<string>,
    severityLevels: seq<Severity>,
    notificationRules: NotificationRules)

  /** The name a severity is stored and sent under. */
  function SeverityName(v: Severity): string {
    match v
    case Low => "Low"
    case Medium => "Medium"
    case High => "High"
  }

  /**
   * A severity read back from its name: exactly "Low", "Medium" and "High" are known (the
   * comparison is case-sensitive); anything else throws `IllegalArgumentException`.
   */
  function ParseSeverity(s: string): (r: Result<Severity, string>)
    ensures r.Success? <==> s == "Low" || s == "Medium" || s == "High"
    ensures r.Success? ==> SeverityName(r.value) == s
    ensures r.Failure? ==> r.error == "Unknown severity level: " + s
  {
    if s == "Low" then Success(Low)
    else if s == "Medium" then Success(Medium)
    else if s == "High" then Success(High)
    else Failure("Unknown severity level: " + s)
  }

  /** Every severity reads back from its own name. */
  lemma SeverityNameRoundTrip(v: Severity)
    ensures ParseSeverity(SeverityName(v)) == Success(v)
  {
  }

  /** A differently cased name is unknown. */
  lemma LowercaseSeverityRejected()
    ensures ParseSeverity("low") == Failure("Unknown severity level: low")
  {
    assert "low" != "Low" && "low" != "Medium" && "low" != "High";
    assert "Unknown severity level: " + "low" == "Unknown severity level: low";
  }

  /** A list of severity names read back: the first unknown name throws. */
  function ParseSeverities(names: seq<string>): (r: Result<seq<Severity>, string>)
    ensures r.Success? <==> forall i :: 0 <= i < |names| ==> ParseSeverity(names[i]).Success?
    ensures r.Success? ==> |r.value| == |names| && forall i :: 0 <= i < |names| ==> SeverityName(r.value[i]) == names[i]
    ensures r.Failure? ==> exists k :: (
      && 0 <= k < |names| && ParseSeverity(names[k]).Failure?
      && r.error == "Unknown severity level: " + names[k]
      && forall i :: 0 <= i < k ==> ParseSeverity(names[i]).Success?)
  {
    MapAll(names, ParseSeverity)
  }

  /** The names of a list of severities, in order. */
  function SeverityNames(levels: seq<Severity>): (r: seq<string>)
    ensures |r| == |levels| && forall i :: 0 <= i < |levels| ==> r[i] == SeverityName(levels[i])
  {
    if levels == [] then [] else [SeverityName(levels[0])] + SeverityNames(levels[1..])
  }

  /** Names written from severities read back to the same severities, in order. */
  lemma SeverityListRoundTrip(levels: seq<Severity>)
    ensures ParseSeverities(SeverityNames(levels)) == Success(levels)
  {
    var names := SeverityNames(levels);
    forall i | 0 <= i < |names| ensures ParseSeverity(names[i]).Success? {
      SeverityNameRoundTrip(levels[i]);
    }
    var r := ParseSeverities(names);
    forall i | 0 <= i < |levels| ensures r.value[i] == levels[i] {
      assert SeverityName(r.value[i]) == SeverityName(levels[i]);
    }
    assert |r.value| == |levels|;
    assert r.value == levels;
  }

  /** Names that all read back are written again exactly as they were. */
  lemma NameListRoundTrip(names: seq<string>)
    requires ParseSeverities(names).Success?
    ensures SeverityNames(ParseSeverities(names).value) == names
  {
  }
}
