/**
 * The chatbot's decision pipeline (chatbot_service.py): intent extraction,
 * a confidence gate, a status query, and validate-then-execute for commands.
 * The LLM, guardrail and Home Assistant replies are inputs; the reply text
 * is represented by which reply is given and the values it names.
 */
module Chatbot {
  import opened Common
  import opened Text
  import Guardrail

  /** A dictionary entry: absent, JSON `null`, or a value. */
  datatype Field<T> = Missing | Null | Present(v: T) {
    /** `d.get(key, default)` for an entry that is not `null`. */
    function GetOr(default: T): T {
      if Present? then v else default
    }
  }

  /** The dictionary `extract_intent` returns, as `process_message` reads it. */
  datatype Intent = Intent(action: Option<string>, value: Option<real>, confidence: Field<real>)

  /** `{"action": "unknown", "value": None, "confidence": 0.0}`. */
  const UnknownIntent := Intent(Some("unknown"), None, Present(0.0))

  // ---------------------------------------------------------------- intent extraction

  /**
   * The `\{.*\}` search with DOTALL: from the first "{" to the last "}",
   * when that "}" comes after the "{".
   */
  function JsonSpan(s: string): (r: Option<string>)
    ensures r.Some? ==> |r.value| >= 2 && r.value[0] == '{' && r.value[|r.value| - 1] == '}'
    ensures r.Some? <==> IndexOf(s, '{').Some? && LastIndexOf(s, '}').Some? &&
                         IndexOf(s, '{').value < LastIndexOf(s, '}').value
  {
    match (IndexOf(s, '{'), LastIndexOf(s, '}'))
    case (Some(i), Some(j)) => if i < j then Some(s[i..j + 1]) else None
    case _ => None
  }

  /** The reply of the Ollama `generate` call: a status with the `response` field, or an exception. */
  datatype LlmReply = LlmStatus(code: int, response: Option<string>) | LlmRaised

  /** `extract_intent`; `decode` stands for `json.loads`, `None` being a `JSONDecodeError`. */
  function ExtractIntent(reply: LlmReply, decode: string -> Option<Intent>): (r: Intent)
    ensures !reply.LlmStatus? || reply.code != 200 ==> r == UnknownIntent
    ensures reply.LlmStatus? && reply.code == 200 ==>
      var span := JsonSpan(Strip(reply.response.GetOr("")));
      && (span.None? ==> r == UnknownIntent)
      && (span.Some? && decode(span.value).None? ==> r == UnknownIntent)
      && (span.Some? && decode(span.value).Some? ==> r == decode(span.value).value)
  {
    match reply
    case LlmRaised => UnknownIntent
    case LlmStatus(code, response) =>
      if code != 200 then UnknownIntent
      else
        match JsonSpan(Strip(response.GetOr("")))
        case None => UnknownIntent
        case Some(span) =>
          match decode(span)
          case None => UnknownIntent
          case Some(intent) => intent
  }

  /** A reply without braces never yields a command. */
  lemma NoBracesUnknown(response: string, decode: string -> Option<Intent>)
    requires '{' !in response
    ensures ExtractIntent(LlmStatus(200, Some(response)), decode) == UnknownIntent
  {
    var t := Strip(response);
    assert '{' !in t by {
      assert forall k :: 0 <= k < |t| ==> t[k] in response by {
        var t0 := TrimStart(response);
        assert forall k :: 0 <= k < |t0| ==> t0[k] == response[|response| - |t0| + k];
        assert forall k :: 0 <= k < |t| ==> t[k] == t0[k];
      }
    }
  }

  // ---------------------------------------------------------------- guardrail and Home Assistant

  /** Why a command was refused: the guardrail's own reason, or one of the two fallbacks. */
  datatype DenyReason = GuardrailReason(reason: Guardrail.Reason) | ValidationError | SecurityUnreachable(message: string)

  datatype Validation = Validation(allowed: bool, reason: DenyReason, severity: Guardrail.Severity, alternative: Option<string>)

  /** The reply of `POST /validate_command`: the guardrail's verdict, another status, or an exception. */
  datatype GuardReply = GuardOk(verdict: Guardrail.Verdict) | GuardStatus(code: int) | GuardRaised(message: string)

  /** `validate_command`: fails closed with severity "danger" on a non-200 status or an exception. */
  function ValidateCommand(reply: GuardReply): (v: Validation)
    ensures !reply.GuardOk? ==> !v.allowed && v.severity == Guardrail.Danger && v.alternative == None
    ensures reply.GuardOk? ==>
      v.allowed == reply.verdict.allowed && v.severity == reply.verdict.severity &&
      v.alternative == reply.verdict.alternative && v.reason == GuardrailReason(reply.verdict.reason)
  {
    match reply
    case GuardOk(verdict) => Validation(verdict.allowed, GuardrailReason(verdict.reason), verdict.severity, verdict.alternative)
    case GuardStatus(_) => Validation(false, ValidationError, Guardrail.Danger, None)
    case GuardRaised(m) => Validation(false, SecurityUnreachable(m), Guardrail.Danger, None)
  }

  /** The Home Assistant service `execute_ha_command` posts to, if the action has one. */
  function HaServiceFor(action: string): (path: Option<string>)
    ensures path.Some? <==> action in {"set_temperature", "turn_on", "turn_off"}
    ensures path.Some? ==> path.value == "/api/services/climate/" + action
  {
    if action == "set_temperature" then Some("/api/services/climate/set_temperature")
    else if action == "turn_off" then Some("/api/services/climate/turn_off")
    else if action == "turn_on" then Some("/api/services/climate/turn_on")
    else None
  }

  /** The reply of the service call: a status, or an exception. */
  datatype ExecReply = ExecStatus(code: int) | ExecRaised

  /** `execute_ha_command`: `sent` says whether a request was made. */
  function ExecuteHaCommand(action: string, reply: ExecReply): (r: (bool, bool))
    ensures r.1 <==> HaServiceFor(action).Some?
    ensures r.0 <==> r.1 && reply == ExecStatus(200)
  {
    if HaServiceFor(action).None? then (false, false)
    else (reply == ExecStatus(200), true)
  }

  // ---------------------------------------------------------------- process_message

  /** The entity state `get_current_state` returned: `empty` for `{}`, which is falsy. */
  datatype StateDoc = StateDoc(empty: bool, temperature: Option<real>, currentTemperature: Option<real>)

  /** Which reply `process_message` gives; `NamesTemperature` is "Temperatura impostata a {value}°C". */
  datatype Reply =
    | Clarify
    | StatusReport(temperature: Option<real>, currentTemperature: Option<real>)
    | StatusUnavailable
    | Refused(reason: DenyReason, suggestion: Option<string>)
    | NamesTemperature(value: Option<real>) | SwitchedOff | SwitchedOn
    | ExecutionFailed
    | NotUnderstood

  datatype ChatResponse = ChatResponse(reply: Reply, actionTaken: Option<string>, validated: bool, intent: Intent)

  /** The services a message reached. */
  datatype Calls = Calls(state: bool, guardrail: bool, command: bool)

  /**
   * The result of `process_message`: a response, or the `TypeError` that a
   * `null` confidence raises in `confidence < 0.5` (the endpoint's 500).
   */
  datatype ChatOutcome = Responded(response: ChatResponse, calls: Calls) | Failed

  predicate IsCommand(action: Option<string>) {
    action.Some? && action.value in {"set_temperature", "turn_on", "turn_off"}
  }

  /** `if alternative:`: a missing or empty alternative adds no suggestion line. */
  function SuggestionOf(alternative: Option<string>): (s: Option<string>)
    ensures s.Some? <==> alternative.Some? && alternative.value != ""
  {
    if alternative.Some? && alternative.value != "" then alternative else None
  }

  /**
   * `process_message` on the extracted intent and the replies of the
   * services it may call: `state` for `get_current_state` (`None` on a
   * non-200 status or an exception), `guard` and `exec` for the command path.
   */
  function ProcessMessage(intent: Intent, state: Option<StateDoc>, guard: GuardReply, exec: ExecReply): (r: ChatOutcome)
    ensures r.Failed? <==> intent.confidence.Null?
    ensures r.Responded? ==> r.response.intent == intent
    ensures r.Responded? && intent.confidence.GetOr(0.0) < 0.5 ==>
      r.response.reply == Clarify && !r.response.validated && r.response.actionTaken == None &&
      r.calls == Calls(false, false, false)
    ensures r.Responded? && intent.confidence.GetOr(0.0) >= 0.5 && intent.action == Some("get_status") ==>
      (r.response.validated <==> state.Some? && !state.value.empty) &&
      r.calls == Calls(true, false, false) && r.response.actionTaken == None &&
      r.response.reply == (if state.Some? && !state.value.empty
                           then StatusReport(state.value.temperature, state.value.currentTemperature)
                           else StatusUnavailable)
    ensures r.Responded? && intent.confidence.GetOr(0.0) >= 0.5 && IsCommand(intent.action) ==>
      && r.calls.guardrail && !r.calls.state
      && (r.calls.command <==> ValidateCommand(guard).allowed)
      && (!ValidateCommand(guard).allowed ==>
            && !r.response.validated && r.response.actionTaken == None
            && r.response.reply == Refused(ValidateCommand(guard).reason, SuggestionOf(ValidateCommand(guard).alternative)))
      && (ValidateCommand(guard).allowed ==>
            && r.response.validated
            && (r.response.actionTaken.Some? <==> exec == ExecStatus(200))
            && (r.response.actionTaken.Some? ==> r.response.actionTaken == intent.action)
            && r.response.reply == (if exec != ExecStatus(200) then ExecutionFailed
                                    else if intent.action == Some("set_temperature") then NamesTemperature(intent.value)
                                    else if intent.action == Some("turn_off") then SwitchedOff
                                    else SwitchedOn))
    ensures r.Responded? && intent.confidence.GetOr(0.0) >= 0.5 &&
            intent.action != Some("get_status") && !IsCommand(intent.action) ==>
      r.response.reply == NotUnderstood && !r.response.validated && r.calls == Calls(false, false, false)
  {
    if intent.confidence.Null? then Failed
    else if intent.confidence.GetOr(0.0) < 0.5 then
      Responded(ChatResponse(Clarify, None, false, intent), Calls(false, false, false))
    else if intent.action == Some("get_status") then
      if state.Some? && !state.value.empty then
        Responded(ChatResponse(StatusReport(state.value.temperature, state.value.currentTemperature), None, true, intent),
                  Calls(true, false, false))
      else
        Responded(ChatResponse(StatusUnavailable, None, false, intent), Calls(true, false, false))
    else if IsCommand(intent.action) then
      var action := intent.action.value;
      var validation := ValidateCommand(guard);
      if !validation.allowed then
        Responded(ChatResponse(Refused(validation.reason, SuggestionOf(validation.alternative)), None, false, intent),
                  Calls(false, true, false))
      else
        var (success, sent) := ExecuteHaCommand(action, exec);
        if success then
          var reply := if action == "set_temperature" then NamesTemperature(intent.value)
                       else if action == "turn_off" then SwitchedOff else SwitchedOn;
          Responded(ChatResponse(reply, Some(action), true, intent), Calls(false, true, sent))
        else
          Responded(ChatResponse(ExecutionFailed, None, true, intent), Calls(false, true, sent))
    else
      Responded(ChatResponse(NotUnderstood, None, false, intent), Calls(false, false, false))
  }

  /** A failed intent extraction never reaches the guardrail or Home Assistant. */
  lemma FailedExtractionIsHarmless(reply: LlmReply, decode: string -> Option<Intent>,
                                   state: Option<StateDoc>, guard: GuardReply, exec: ExecReply)
    requires !reply.LlmStatus? || reply.code != 200
    ensures ProcessMessage(ExtractIntent(reply, decode), state, guard, exec).Responded?
    ensures ProcessMessage(ExtractIntent(reply, decode), state, guard, exec).response.reply == Clarify
    ensures ProcessMessage(ExtractIntent(reply, decode), state, guard, exec).calls == Calls(false, false, false)
  {
  }

  /**
   * An unreachable guardrail blocks every command: no command is sent and
   * nothing is reported as validated.
   */
  lemma UnreachableGuardrailBlocks(intent: Intent, state: Option<StateDoc>, guard: GuardReply, exec: ExecReply)
    requires !guard.GuardOk?
    requires ProcessMessage(intent, state, guard, exec).Responded?
    ensures !ProcessMessage(intent, state, guard, exec).calls.command
    ensures ProcessMessage(intent, state, guard, exec).response.actionTaken == None
  {
  }

  /**
   * End to end with the guardrail itself: a command the guardrail refuses
   * is never sent to Home Assistant.
   */
  lemma GuardrailDenialIsFinal(intent: Intent, req: Guardrail.Request, st: Guardrail.StateReply,
                               llm: Guardrail.LlmReply, state: Option<StateDoc>, exec: ExecReply)
    requires IsCommand(intent.action)
    requires !Guardrail.ValidateCommand(req, st, llm).verdict.allowed
    requires ProcessMessage(intent, state, GuardOk(Guardrail.ValidateCommand(req, st, llm).verdict), exec).Responded?
    ensures !ProcessMessage(intent, state, GuardOk(Guardrail.ValidateCommand(req, st, llm).verdict), exec).calls.command
    ensures !ProcessMessage(intent, state, GuardOk(Guardrail.ValidateCommand(req, st, llm).verdict), exec).response.validated
  {
  }
}
