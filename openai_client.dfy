/**
 * `generateMealPlan` of the OpenAI client: send the meal-plan prompt, read the
 * reply as JSON (falling back to the `{`...`}` stretch of the reply when the whole
 * reply does not parse) and validate it against the step-list schema. Anything that
 * goes wrong after the key check is rethrown as a plain `Error` carrying
 * `handleOpenAIError`'s message.
 *
 * The chat-completion call is the parameter `complete`, which receives the prompt's
 * parameter block and returns the reply's content (`None` when the SDK gives none)
 * or what the SDK threw; `JSON.parse` is the parameter `parseJson`, and the text of a
 * `ZodError` is the parameter `describe`.
 */
module OpenAiClient {
  import opened Wrappers
  import opened JsValues
  import opened Schema
  import opened JsonSpan
  import opened ErrorHandling
  import opened MealPlanPrompt
  import opened MealPlanSchema

  const MissingKey: string := "OpenAI API key is not configured"
  const EmptyResponse: string := "Empty response from OpenAI API"
  const ParseFailedPrefix: string := "Failed to parse OpenAI response as JSON: "
  const ValidationFailedPrefix: string := "OpenAI response validation failed: "
  const UnknownError: string := "Unknown error"

  /** The error thrown when neither the reply nor its `{`...`}` stretch parses: it cites
    * the error of the first attempt. */
  function ParseFailure(firstError: Thrown): (e: Thrown)
    ensures e.ErrorObject? && e.kind == PlainError
    ensures firstError.ErrorObject? ==> e.message == ParseFailedPrefix + firstError.message
    ensures firstError.NonError? ==> e.message == ParseFailedPrefix + UnknownError
  {
    ErrorObject(PlainError, ParseFailedPrefix + MessageOr(firstError, UnknownError))
  }

  /** The reply as JSON: the whole reply if it parses, otherwise its `{`...`}` stretch. */
  function ReadContent(content: string, parseJson: string -> Result<Value, Thrown>): (r: Result<Value, Thrown>)
    ensures parseJson(content).Success? ==> r == parseJson(content)
    ensures parseJson(content).Failure? && r.Success? ==>
      ExtractSpan(content).Some? && r == parseJson(ExtractSpan(content).value)
    ensures r.Failure? ==> parseJson(content).Failure? && r.error == ParseFailure(parseJson(content).error)
  {
    match parseJson(content)
    case Success(json) => Success(json)
    case Failure(parseError) =>
      match ExtractSpan(content)
      case None => Failure(ParseFailure(parseError))
      case Some(span) =>
        match parseJson(span)
        case Success(json) => Success(json)
        case Failure(_) => Failure(ParseFailure(parseError))
  }

  /** The fallback is only ever taken when the reply has a `{` before a `}`, and it then
    * reads from the first `{` to the last `}`; the error of the second attempt is
    * never reported. */
  lemma ReadContentSucceedsIff(content: string, parseJson: string -> Result<Value, Thrown>)
    ensures ReadContent(content, parseJson).Success? <==>
      parseJson(content).Success? || (HasSpan(content) && parseJson(ExtractSpan(content).value).Success?)
    ensures parseJson(content).Failure? && !HasSpan(content) ==>
      ReadContent(content, parseJson) == Failure(ParseFailure(parseJson(content).error))
  {
    SpanExistsIff(content);
  }

  /** `responseSchema.parse(json)`, with a failure turned into the validation error. */
  function ValidateReply(json: Value, describe: seq<Issue> -> string): (r: Result<Value, Thrown>)
    ensures r.Success? <==> ValidMealPlan(json, StepList)
    ensures r.Success? ==> r.value == Strip(ResponseSchema(StepList), json)
    ensures r.Failure? ==> exists issues :: r.error == ErrorObject(PlainError, ValidationFailedPrefix + describe(issues))
  {
    AcceptedIff(json, StepList, _ => false);
    match Parse(ResponseSchema(StepList), json, _ => false)
    case Success(plan) => Success(plan)
    case Failure(issues) => Failure(ErrorObject(PlainError, ValidationFailedPrefix + describe(issues)))
  }

  /** The body of the `try` block: what it returns or throws before `handleOpenAIError`. */
  function Attempt(p: MealPlanParams, complete: seq<string> -> Result<Option<string>, Thrown>,
                   parseJson: string -> Result<Value, Thrown>, describe: seq<Issue> -> string): (r: Result<Value, Thrown>)
    ensures complete(ParameterLines(p)).Failure? ==> r == Failure(complete(ParameterLines(p)).error)
    ensures complete(ParameterLines(p)).Success? && !NonEmpty(complete(ParameterLines(p)).value) ==>
      r == Failure(ErrorObject(PlainError, EmptyResponse))
    ensures complete(ParameterLines(p)).Success? && NonEmpty(complete(ParameterLines(p)).value) ==>
      var json := ReadContent(complete(ParameterLines(p)).value.value, parseJson);
      && (json.Failure? ==> r == Failure(json.error))
      && (json.Success? ==> r == ValidateReply(json.value, describe))
    ensures r.Success? ==>
      var content := complete(ParameterLines(p)).value;
      && NonEmpty(content)
      && ReadContent(content.value, parseJson).Success?
      && ValidMealPlan(ReadContent(content.value, parseJson).value, StepList)
      && r.value == Strip(ResponseSchema(StepList), ReadContent(content.value, parseJson).value)
  {
    match complete(ParameterLines(p))
    case Failure(e) => Failure(e)
    case Success(content) =>
      if !NonEmpty(content) then Failure(ErrorObject(PlainError, EmptyResponse))
      else
        match ReadContent(content.value, parseJson)
        case Failure(e) => Failure(e)
        case Success(json) => ValidateReply(json, describe)
  }

  /**
   * `generateMealPlan(params)`. `apiKey` is `OPENAI_API_KEY` (`None` when unset). The
   * key check comes before the `try`, so its error is thrown as it is; everything the
   * `try` block throws is rewrapped.
   */
  function GenerateMealPlan(p: MealPlanParams, apiKey: Option<string>,
                            complete: seq<string> -> Result<Option<string>, Thrown>,
                            parseJson: string -> Result<Value, Thrown>, describe: seq<Issue> -> string): (r: Result<Value, Thrown>)
    ensures !NonEmpty(apiKey) ==> r == Failure(ErrorObject(PlainError, MissingKey))
    ensures NonEmpty(apiKey) ==>
      var attempt := Attempt(p, complete, parseJson, describe);
      && (attempt.Success? ==> r == attempt)
      && (attempt.Failure? ==> r == Failure(Rewrapped(attempt.error)))
    ensures r.Failure? ==> r.error.ErrorObject? && r.error.kind == PlainError
  {
    if !NonEmpty(apiKey) then Failure(ErrorObject(PlainError, MissingKey))
    else
      match Attempt(p, complete, parseJson, describe)
      case Success(plan) => Success(plan)
      case Failure(e) => Failure(Rewrapped(e))
  }

  /** Without a key nothing is sent: the outcome does not depend on the API at all. */
  lemma KeyCheckFirst(p: MealPlanParams, apiKey: Option<string>,
                      complete1: seq<string> -> Result<Option<string>, Thrown>,
                      complete2: seq<string> -> Result<Option<string>, Thrown>,
                      parseJson: string -> Result<Value, Thrown>, describe: seq<Issue> -> string)
    requires !NonEmpty(apiKey)
    ensures GenerateMealPlan(p, apiKey, complete1, parseJson, describe) == GenerateMealPlan(p, apiKey, complete2, parseJson, describe)
  {
  }

  /** A reply with no content, or empty content, fails with the empty-response message;
    * rewrapping a plain error keeps its message. */
  lemma EmptyContentMessage(p: MealPlanParams, key: string, complete: seq<string> -> Result<Option<string>, Thrown>,
                            parseJson: string -> Result<Value, Thrown>, describe: seq<Issue> -> string)
    requires key != ""
    requires complete(ParameterLines(p)) == Success(None) || complete(ParameterLines(p)) == Success(Some(""))
    ensures GenerateMealPlan(p, Some(key), complete, parseJson, describe) == Failure(ErrorObject(PlainError, EmptyResponse))
  {
  }

  /** The SDK's own errors reach the caller with the "OpenAI API error: " prefix, and the
    * client's own messages (empty reply, unparseable reply, failed validation) unchanged. */
  lemma FailureMessages(p: MealPlanParams, key: string, complete: seq<string> -> Result<Option<string>, Thrown>,
                        parseJson: string -> Result<Value, Thrown>, describe: seq<Issue> -> string)
    requires key != ""
    ensures var attempt := Attempt(p, complete, parseJson, describe);
      var r := GenerateMealPlan(p, Some(key), complete, parseJson, describe);
      && (attempt.Failure? && attempt.error.ErrorObject? && attempt.error.kind == OpenAIError ==>
            r.error.message == ApiErrorPrefix + attempt.error.message)
      && (attempt.Failure? && attempt.error.ErrorObject? && attempt.error.kind == PlainError ==>
            r == Failure(attempt.error))
  {
  }

  /** A plan is only ever returned when the reply, read as JSON, satisfies the step-list
    * schema, and a valid reply that parses as it is always comes back. */
  lemma ReturnedPlansAreValid(p: MealPlanParams, key: string, complete: seq<string> -> Result<Option<string>, Thrown>,
                              parseJson: string -> Result<Value, Thrown>, describe: seq<Issue> -> string)
    requires key != ""
    ensures var r := GenerateMealPlan(p, Some(key), complete, parseJson, describe);
      var content := complete(ParameterLines(p));
      && (r.Success? ==> content.Success? && NonEmpty(content.value)
                         && ValidMealPlan(ReadContent(content.value.value, parseJson).value, StepList))
      && ((content.Success? && NonEmpty(content.value) && parseJson(content.value.value).Success?
           && ValidMealPlan(parseJson(content.value.value).value, StepList)) ==> r.Success?)
  {
  }
}
