/**
 * The command safety guardrail (guardrail.py): hard limits, then a state
 * consistency check against Home Assistant, then, for inputs with a
 * suspicious keyword, an LLM verdict. The Home Assistant and LLM replies are
 * inputs.
 */
module Guardrail {
  import opened Common
  import opened Text

  datatype Request = Request(entityId: string, action: string, value: Option<real>, userInput: string)

  datatype Severity = Safe | Warning | Danger

  /** Why a check passed or failed; the source formats each as a sentence. */
  datatype Reason =
    | TemperatureAboveMax(value: real) | TemperatureBelowMin(value: real)
    | PressureAboveMax(value: real) | PressureBelowMin(value: real) | HardLimitsPassed
    | EntityNotFound(entityId: string) | UnableToVerify | EntityUnavailable(entityId: string)
    | NoTemperatureControl | StatePassed | HaTimeout | StateInconclusive
    | LlmHttpFailure | LlmDangerous | LlmSuspicious | LlmPassed | LlmTimedOut | LlmFailure(message: string)
    | AllChecksPassed

  datatype Verdict = Verdict(allowed: bool, reason: Reason, severity: Severity, alternative: Option<string>)

  const MaxTemperature := 25.0
  const MinTemperature := 5.0
  const MaxPressure := 3.0
  const MinPressure := 0.8

  const SuspiciousKeywords := [
    "override", "bypass", "ignore", "disable", "maximum",
    "unlimited", "emergency", "force", "admin", "sudo"]

  const MaxAlternative := "Set temperature to 25.0°C instead"
  const MinAlternative := "Set temperature to 5.0°C instead"

  // ---------------------------------------------------------------- hard limits

  datatype LimitCheck = LimitCheck(ok: bool, reason: Reason, alternative: Option<string>)

  predicate IsTemperatureAction(action: string) {
    action == "set_temperature" || action == "temperature"
  }

  predicate IsPressureAction(action: string) {
    action == "set_pressure" || action == "pressure"
  }

  /** `_check_hard_limits`. */
  function CheckHardLimits(req: Request): (r: LimitCheck)
    ensures !r.ok <==>
      req.value.Some? &&
      ((IsTemperatureAction(req.action) && !(MinTemperature <= req.value.value <= MaxTemperature)) ||
       (IsPressureAction(req.action) && !(MinPressure <= req.value.value <= MaxPressure)))
    ensures r.ok ==> r.reason == HardLimitsPassed && r.alternative == None
    ensures r.alternative == Some(MaxAlternative) <==>
      IsTemperatureAction(req.action) && req.value.Some? && req.value.value > MaxTemperature
    ensures r.alternative == Some(MinAlternative) <==>
      IsTemperatureAction(req.action) && req.value.Some? && req.value.value < MinTemperature
    ensures IsPressureAction(req.action) ==> r.alternative == None
  {
    if IsTemperatureAction(req.action) && req.value.Some? && req.value.value > MaxTemperature then
      LimitCheck(false, TemperatureAboveMax(req.value.value), Some(MaxAlternative))
    else if IsTemperatureAction(req.action) && req.value.Some? && req.value.value < MinTemperature then
      LimitCheck(false, TemperatureBelowMin(req.value.value), Some(MinAlternative))
    else if IsPressureAction(req.action) && req.value.Some? && req.value.value > MaxPressure then
      LimitCheck(false, PressureAboveMax(req.value.value), None)
    else if IsPressureAction(req.action) && req.value.Some? && req.value.value < MinPressure then
      LimitCheck(false, PressureBelowMin(req.value.value), None)
    else
      LimitCheck(true, HardLimitsPassed, None)
  }

  /** The bounds are inclusive: exactly 25.0 and exactly 5.0 pass. */
  lemma TemperatureBoundsInclusive(id: string, input: string)
    ensures CheckHardLimits(Request(id, "set_temperature", Some(25.0), input)).ok
    ensures CheckHardLimits(Request(id, "set_temperature", Some(5.0), input)).ok
    ensures !CheckHardLimits(Request(id, "set_temperature", Some(25.5), input)).ok
  {
  }

  // ---------------------------------------------------------------- state consistency

  /** The JSON object Home Assistant returns for an entity: its `state` and the keys of `attributes`. */
  datatype HaState = HaState(state: Option<string>, attributeKeys: set<string>)

  /**
   * What `GET /api/states/<entity_id>` produced: a status with the body
   * (`None` when it is not a JSON object), a timeout, another error inside
   * the request, or an exception outside it, which `validate_command` ignores.
   */
  datatype StateReply = StateStatus(code: int, body: Option<HaState>) | StateTimeout | StateError | StateEscaped

  datatype Check = Check(ok: bool, reason: Reason)

  /** `_check_state_consistency`; `None` is the exception that escapes to `validate_command`. */
  function CheckStateConsistency(req: Request, reply: StateReply): (r: Option<Check>)
    ensures r.None? <==> reply.StateEscaped?
    ensures r.Some? && !r.value.ok <==>
      || reply == StateTimeout
      || (reply.StateStatus? && reply.code == 404)
      || (reply.StateStatus? && reply.code == 200 && reply.body.Some? &&
          (reply.body.value.state == Some("unavailable") ||
           (Contains(req.entityId, "climate") && req.action == "set_temperature" &&
            "temperature" !in reply.body.value.attributeKeys)))
  {
    match reply
    case StateEscaped => None
    case StateTimeout => Some(Check(false, HaTimeout))
    case StateError => Some(Check(true, StateInconclusive))
    case StateStatus(code, body) =>
      if code == 404 then Some(Check(false, EntityNotFound(req.entityId)))
      else if code != 200 then Some(Check(true, UnableToVerify))
      else if body.None? then Some(Check(true, StateInconclusive))
      else if body.value.state == Some("unavailable") then Some(Check(false, EntityUnavailable(req.entityId)))
      else if Contains(req.entityId, "climate") && req.action == "set_temperature"
              && "temperature" !in body.value.attributeKeys then
        Some(Check(false, NoTemperatureControl))
      else Some(Check(true, StatePassed))
  }

  /** Whether the state step lets the request through (an escaped exception does). */
  predicate StateAllows(req: Request, reply: StateReply) {
    var c := CheckStateConsistency(req, reply);
    c.None? || c.value.ok
  }

  // ---------------------------------------------------------------- keywords and LLM

  /** Some keyword of `ks` occurs in `s`. */
  function AnyOccurs(s: string, ks: seq<string>): (r: bool)
    ensures r <==> exists k :: 0 <= k < |ks| && Contains(s, ks[k])
  {
    if ks == [] then false else Contains(s, ks[0]) || AnyOccurs(s, ks[1..])
  }

  /** `_contains_suspicious_keywords`: a keyword occurs in the lower-cased input. */
  function ContainsSuspiciousKeywords(userInput: string): (r: bool)
    ensures r <==> exists k :: 0 <= k < |SuspiciousKeywords| && Contains(Lower(userInput), SuspiciousKeywords[k])
  {
    AnyOccurs(Lower(userInput), SuspiciousKeywords)
  }

  /** The keyword test ignores case. */
  lemma KeywordsIgnoreCase(userInput: string)
    ensures ContainsSuspiciousKeywords(Upper(userInput)) == ContainsSuspiciousKeywords(userInput)
  {
    LowerOfUpper(userInput);
  }

  /** A keyword anywhere in the input, in lower case, makes it suspicious. */
  lemma {:induction false} EmbeddedKeywordIsSuspicious(before: string, k: nat, after: string)
    requires k < |SuspiciousKeywords|
    ensures ContainsSuspiciousKeywords(before + SuspiciousKeywords[k] + after)
  {
    var w := SuspiciousKeywords[k];
    LowerConcat(before, w);
    LowerConcat(before + w, after);
    LowerOfLowercase(w);
    ContainsPrefix([], w);
    assert [] + w == w;
    ContainsExtend(Lower(before), w, Lower(after), w);
  }

  /**
   * What `POST /api/generate` produced: a status with the `response` field
   * (`None` when missing, read as ""), a timeout, or another error.
   */
  datatype LlmReply = LlmStatus(code: int, response: Option<string>) | LlmTimeout | LlmError(message: string)

  /** `_llm_safety_check`: fails closed on every error. */
  function LlmSafetyCheck(reply: LlmReply): (r: Check)
    ensures r.ok <==>
      reply.LlmStatus? && reply.code == 200 &&
      !Contains(Upper(Strip(reply.response.GetOr(""))), "DANGEROUS") &&
      !Contains(Upper(Strip(reply.response.GetOr(""))), "SUSPICIOUS")
  {
    match reply
    case LlmTimeout => Check(false, LlmTimedOut)
    case LlmError(m) => Check(false, LlmFailure(m))
    case LlmStatus(code, response) =>
      if code != 200 then Check(false, LlmHttpFailure)
      else
        var answer := Upper(Strip(response.GetOr("")));
        if Contains(answer, "DANGEROUS") then Check(false, LlmDangerous)
        else if Contains(answer, "SUSPICIOUS") then Check(false, LlmSuspicious)
        else Check(true, LlmPassed)
  }

  /** Any answer shorter than "DANGEROUS" once stripped, such as "SAFE", passes. */
  lemma ShortAnswerPasses(response: string)
    requires |Strip(response)| < |"DANGEROUS"|
    ensures LlmSafetyCheck(LlmStatus(200, Some(response))).ok
  {
    var t := Upper(Strip(response));
    assert !Contains(t, "DANGEROUS");
    assert !Contains(t, "SUSPICIOUS");
  }

  // ---------------------------------------------------------------- the pipeline

  /** The verdict of `validate_command` and which services it consulted. */
  datatype Outcome = Outcome(verdict: Verdict, consultedState: bool, consultedLlm: bool)

  /** `validate_command`: the first failing check decides. */
  function ValidateCommand(req: Request, state: StateReply, llm: LlmReply): (r: Outcome)
    ensures r.verdict.allowed <==>
      CheckHardLimits(req).ok && StateAllows(req, state) &&
      (ContainsSuspiciousKeywords(req.userInput) ==> LlmSafetyCheck(llm).ok)
    ensures r.verdict.allowed <==> r.verdict.severity == Safe
    ensures r.verdict.allowed ==> r.verdict.reason == AllChecksPassed && r.verdict.alternative == None
    ensures r.consultedState <==> CheckHardLimits(req).ok
    ensures r.consultedLlm <==>
      CheckHardLimits(req).ok && StateAllows(req, state) && ContainsSuspiciousKeywords(req.userInput)
    ensures !CheckHardLimits(req).ok ==>
      r.verdict.severity == Danger && r.verdict.reason == CheckHardLimits(req).reason &&
      r.verdict.alternative == CheckHardLimits(req).alternative
    ensures CheckHardLimits(req).ok && !StateAllows(req, state) ==>
      r.verdict.severity == Warning && r.verdict.alternative == None
    ensures CheckHardLimits(req).ok && StateAllows(req, state) && !r.verdict.allowed ==>
      r.verdict.severity == Danger && r.verdict.reason == LlmSafetyCheck(llm).reason &&
      r.verdict.alternative == None
  {
    var hard := CheckHardLimits(req);
    if !hard.ok then
      Outcome(Verdict(false, hard.reason, Danger, hard.alternative), false, false)
    else
      var st := CheckStateConsistency(req, state);
      if st.Some? && !st.value.ok then
        Outcome(Verdict(false, st.value.reason, Warning, None), true, false)
      else if ContainsSuspiciousKeywords(req.userInput) then
        var l := LlmSafetyCheck(llm);
        if !l.ok then Outcome(Verdict(false, l.reason, Danger, None), true, true)
        else Outcome(Verdict(true, AllChecksPassed, Safe, None), true, true)
      else
        Outcome(Verdict(true, AllChecksPassed, Safe, None), true, false)
  }

  /** A temperature above the limit is denied as dangerous with the 25.0 alternative, whatever the services say. */
  lemma AboveMaxDenied(req: Request, state: StateReply, llm: LlmReply)
    requires IsTemperatureAction(req.action) && req.value.Some? && req.value.value > MaxTemperature
    ensures !ValidateCommand(req, state, llm).verdict.allowed
    ensures ValidateCommand(req, state, llm).verdict.severity == Danger
    ensures ValidateCommand(req, state, llm).verdict.alternative == Some(MaxAlternative)
    ensures !ValidateCommand(req, state, llm).consultedLlm
  {
  }

  /** The verdict depends on the LLM reply only when the input carries a suspicious keyword. */
  lemma LlmOnlyForSuspicious(req: Request, state: StateReply, a: LlmReply, b: LlmReply)
    requires !ContainsSuspiciousKeywords(req.userInput)
    ensures ValidateCommand(req, state, a) == ValidateCommand(req, state, b)
  {
  }

  /** An exception escaping the state check has the effect of a passing state check. */
  lemma EscapedStateIgnored(req: Request, llm: LlmReply)
    ensures ValidateCommand(req, StateEscaped, llm) == ValidateCommand(req, StateStatus(200, Some(HaState(None, {"temperature"}))), llm)
  {
  }
}
