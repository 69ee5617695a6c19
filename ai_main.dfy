/**
 * The AI service's HTTP layer: the readiness guards of its endpoints, the
 * batch validation loop, the parsing of the comma-separated entity list for
 * the maintenance report, and the reported safety limits.  FastAPI routing
 * and the start-up hook are not modelled; whether a service object exists
 * is a parameter.
 */
module AiMain {
  import opened Common
  import opened Text
  import Guardrail
  import Maintenance

  /** An endpoint's answer: its body, or an `HTTPException` with status and detail. */
  datatype Served<T> = Served(body: T) | HttpError(code: int, detail: string)

  const GuardrailDown := "Guardrail service not initialized"
  const AnalyzerDown := "Maintenance analyzer not initialized"

  // ---------------------------------------------------------------- validation

  /** How one `validate_command` call ended: with the replies it consulted, or raising. */
  datatype Attempt = Completed(state: Guardrail.StateReply, llm: Guardrail.LlmReply) | Raised(message: string)

  /** One element of the batch answer; a raised call becomes a denial with "Validation error: …". */
  datatype BatchResult = Validated(verdict: Guardrail.Verdict) | ValidationFailed(message: string) {
    predicate Allowed() {
      Validated? && verdict.allowed
    }

    function Severity(): Guardrail.Severity {
      if Validated? then verdict.severity else Guardrail.Danger
    }
  }

  function BatchOutcome(req: Guardrail.Request, attempt: Attempt): (r: BatchResult)
    ensures attempt.Raised? ==> !r.Allowed() && r.Severity() == Guardrail.Danger
    ensures attempt.Completed? ==>
      r.Allowed() == Guardrail.ValidateCommand(req, attempt.state, attempt.llm).verdict.allowed &&
      r.Severity() == Guardrail.ValidateCommand(req, attempt.state, attempt.llm).verdict.severity
  {
    match attempt
    case Completed(st, llm) => Validated(Guardrail.ValidateCommand(req, st, llm).verdict)
    case Raised(m) => ValidationFailed(m)
  }

  /** `POST /validate_command`: a call that raises is answered with status 500. */
  function ValidateOne(ready: bool, req: Guardrail.Request, attempt: Attempt): (r: Served<Guardrail.Verdict>)
    ensures !ready ==> r == HttpError(503, GuardrailDown)
    ensures ready && attempt.Raised? ==> r.HttpError? && r.code == 500
    ensures ready && attempt.Completed? ==> r == Served(Guardrail.ValidateCommand(req, attempt.state, attempt.llm).verdict)
  {
    if !ready then HttpError(503, GuardrailDown)
    else match attempt
      case Completed(st, llm) => Served(Guardrail.ValidateCommand(req, st, llm).verdict)
      case Raised(m) => HttpError(500, "Validation error: " + m)
  }

  /**
   * `POST /validate_command/batch`: one result per request, in request order;
   * a request that raises does not stop the others.
   */
  method ValidateBatch(ready: bool, requests: seq<Guardrail.Request>, attempts: seq<Attempt>)
    returns (r: Served<seq<BatchResult>>)
    requires |attempts| == |requests|
    ensures !ready ==> r == HttpError(503, GuardrailDown)
    ensures ready ==> r.Served? && |r.body| == |requests|
    ensures ready ==> forall k :: 0 <= k < |requests| ==> r.body[k] == BatchOutcome(requests[k], attempts[k])
  {
    if !ready {
      return HttpError(503, GuardrailDown);
    }
    var results: seq<BatchResult> := [];
    var i := 0;
    while i < |requests|
      invariant 0 <= i <= |requests|
      invariant |results| == i
      invariant forall k :: 0 <= k < i ==> results[k] == BatchOutcome(requests[k], attempts[k])
    {
      var item := match attempts[i]
        case Completed(st, llm) => Validated(Guardrail.ValidateCommand(requests[i], st, llm).verdict)
        case Raised(m) => ValidationFailed(m);
      results := results + [item];
      i := i + 1;
    }
    return Served(results);
  }

  /** The batch answer agrees request by request with the single-command endpoint. */
  lemma BatchAgreesWithSingle(requests: seq<Guardrail.Request>, attempts: seq<Attempt>, k: nat)
    requires |attempts| == |requests| && k < |requests|
    ensures attempts[k].Completed? ==>
      ValidateOne(true, requests[k], attempts[k]) == Served(BatchOutcome(requests[k], attempts[k]).verdict)
    ensures attempts[k].Raised? ==>
      ValidateOne(true, requests[k], attempts[k]).HttpError? && !BatchOutcome(requests[k], attempts[k]).Allowed()
  {
  }

  // ---------------------------------------------------------------- maintenance report

  /** `[e.strip() for e in entity_ids.split(",")]`. */
  function ParseEntityIds(s: string): (r: seq<string>)
    ensures |r| == CountChar(s, ',') + 1
    ensures forall k :: 0 <= k < |r| ==> ',' !in r[k]
    ensures forall k :: 0 <= k < |r| ==> r[k] == [] || (!IsSpace(r[k][0]) && !IsSpace(r[k][|r[k]| - 1]))
  {
    var parts := Split(s, ',');
    assert forall k :: 0 <= k < |parts| ==> ',' !in Strip(parts[k]) by {
      forall k | 0 <= k < |parts| {
        StripKeepsOut(parts[k], ',');
      }
    }
    seq(|parts|, k requires 0 <= k < |parts| => Strip(parts[k]))
  }

  /**
   * The list is never empty: even "" gives [""].  The endpoint's 400 answer
   * for an empty list therefore cannot happen, and `GetMaintenanceReport`
   * has no such branch.
   */
  lemma EntityListNeverEmpty(s: string)
    ensures |ParseEntityIds(s)| >= 1
  {
  }

  /** A client that joins trimmed ids with "," gets exactly those ids parsed back. */
  lemma ParseJoinedIds(ids: seq<string>)
    requires |ids| >= 1
    requires forall k :: 0 <= k < |ids| ==> ',' !in ids[k] && Strip(ids[k]) == ids[k]
    ensures ParseEntityIds(Join(ids, ',')) == ids
  {
    SplitJoin(ids, ',');
  }

  /** The analyzer's inputs: each parsed id with the history the caller supplies for it. */
  function SensorsFor(ids: seq<string>, history: string -> seq<Maintenance.SensorData>,
                      cycles: string -> seq<Maintenance.SensorData>): (r: seq<Maintenance.SensorInput>)
    ensures |r| == |ids|
    ensures forall k :: 0 <= k < |ids| ==> r[k].entityId == ids[k]
  {
    seq(|ids|, k requires 0 <= k < |ids| => Maintenance.SensorInput(ids[k], history(ids[k]), cycles(ids[k])))
  }

  /** `GET /maintenance/report`; Home Assistant's histories are the parameters `history` and `cycles`. */
  method GetMaintenanceReport(ready: bool, entityIds: string, hours: int,
                              history: string -> seq<Maintenance.SensorData>,
                              cycles: string -> seq<Maintenance.SensorData>)
    returns (r: Served<Maintenance.Report>)
    ensures !ready ==> r == HttpError(503, AnalyzerDown)
    ensures ready ==> r.Served?
    ensures ready ==>
      var sensors := SensorsFor(ParseEntityIds(entityIds), history, cycles);
      r.body.anomalies == Maintenance.AllAnomalies(sensors, hours) &&
      r.body.suggestions == Maintenance.SensorSuggestions(sensors, hours) + Maintenance.GeneralSuggestions &&
      r.body.healthScore == Maintenance.HealthScore(r.body.anomalies) &&
      r.body.nextMaintenanceDays == Maintenance.NextMaintenanceDays(r.body.anomalies, r.body.healthScore)
  {
    if !ready {
      return HttpError(503, AnalyzerDown);
    }
    var entityList := ParseEntityIds(entityIds);
    var report := Maintenance.GenerateMaintenanceReport(SensorsFor(entityList, history, cycles), hours);
    return Served(report);
  }

  // ---------------------------------------------------------------- limits

  datatype Limits = Limits(temperatureMax: real, temperatureMin: real, pressureMax: real, pressureMin: real)

  /** `GET /config/limits`. */
  function GetSafetyLimits(ready: bool): (r: Served<Limits>)
    ensures !ready ==> r == HttpError(503, GuardrailDown)
    ensures ready ==> r.Served?
  {
    if !ready then HttpError(503, GuardrailDown)
    else Served(Limits(Guardrail.MaxTemperature, Guardrail.MinTemperature, Guardrail.MaxPressure, Guardrail.MinPressure))
  }

  /** The reported limits are the ones the guardrail enforces: a value passes exactly when it lies within them. */
  lemma ReportedLimitsAreEnforced(id: string, input: string, v: real)
    ensures var l := GetSafetyLimits(true).body;
      Guardrail.CheckHardLimits(Guardrail.Request(id, "set_temperature", Some(v), input)).ok <==>
        l.temperatureMin <= v <= l.temperatureMax
    ensures var l := GetSafetyLimits(true).body;
      Guardrail.CheckHardLimits(Guardrail.Request(id, "set_pressure", Some(v), input)).ok <==>
        l.pressureMin <= v <= l.pressureMax
  {
  }
}
