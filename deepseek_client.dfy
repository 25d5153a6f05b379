/**
 * `generateMealPlan` of the Deepseek client: post the meal-plan prompt, take
 * `choices[0].message.content` of the reply, cut out its `{`...`}` stretch, parse it
 * and validate it against the single-text schema. Errors are rethrown as they are.
 *
 * The HTTP call is the parameter `post`, which receives the prompt's parameter block
 * and returns the reply or what `fetch` threw; `JSON.parse` is `parseJson`, and the
 * text of a `ZodError` is `describe`.
 */
module DeepseekClient {
  import opened Wrappers
  import opened JsValues
  import opened Schema
  import opened JsonSpan
  import opened MealPlanPrompt
  import opened MealPlanSchema

  const MissingKey: string := "Deepseek API key is not configured"
  const ApiErrorPrefix: string := "Deepseek API error: "
  const ExtractFailed: string := "Failed to extract JSON from Deepseek API response"
  const NotAFunction: string := "content.match is not a function"

  /** A `fetch` response: `ok`, `statusText` and what `response.json()` gives or throws. */
  datatype HttpReply = HttpReply(ok: bool, statusText: string, body: Result<Value, Thrown>)

  /** `v[0]` where v may be undefined or null (those throw). */
  function Index0(v: Option<Value>): (r: Result<Option<Value>, Thrown>)
    ensures r.Failure? <==> v.None? || v.value.JNull?
    ensures v.Some? && v.value.JArr? ==> r == Success(if |v.value.items| > 0 then Some(v.value.items[0]) else None)
    ensures v.Some? && v.value.JObj? ==> r == Success(Prop(v.value.fields, "0"))
  {
    match v
    case None => Failure(NullRead("0"))
    case Some(JNull) => Failure(NullRead("0"))
    case Some(JArr(items)) => Success(if |items| > 0 then Some(items[0]) else None)
    case Some(JObj(fields)) => Success(Prop(fields, "0"))
    case Some(JStr(s)) => Success(if s != "" then Some(JStr([s[0]])) else None)
    case Some(_) => Success(None)
  }

  /** The message of the error thrown for a reply that is not OK:
    * `errorData.error?.message || response.statusText` behind the prefix. */
  function ApiErrorMessage(errorData: Value, statusText: string): (r: Result<string, Thrown>)
    ensures errorData.JNull? ==> r == Failure(NullRead("error"))
    ensures !errorData.JNull? ==> r.Success?
    ensures r.Success? ==>
      var detail := Get(errorData, "error");
      var message := if detail.None? || detail.value.JNull? then None else Get(detail.value, "message");
      && (Truthy(message) ==> r.value == ApiErrorPrefix + Show(message.value))
      && (!Truthy(message) ==> r.value == ApiErrorPrefix + statusText)
  {
    match Member(Some(errorData), "error")
    case Failure(e) => Failure(e)
    case Success(detail) =>
      var message := if detail.None? || detail.value.JNull? then None else Get(detail.value, "message");
      Success(ApiErrorPrefix + (if Truthy(message) then Show(message.value) else statusText))
  }

  /** `data.choices[0].message.content`; every step but the last may throw. */
  function ContentOf(data: Value): (r: Result<Option<Value>, Thrown>)
    ensures data.JObj? && "choices" in data.fields && data.fields["choices"].JArr?
            && |data.fields["choices"].items| > 0 && data.fields["choices"].items[0].JObj?
            && "message" in data.fields["choices"].items[0].fields
            && data.fields["choices"].items[0].fields["message"].JObj? ==>
      r == Success(Prop(data.fields["choices"].items[0].fields["message"].fields, "content"))
    ensures data.JObj? && Prop(data.fields, "choices") == Some(JArr([])) ==> r == Failure(NullRead("message"))
    ensures r.Success? ==> data.JObj? && "choices" in data.fields && !data.fields["choices"].JNull?
    ensures data.JNull? ==> r == Failure(NullRead("choices"))
  {
    match Member(Some(data), "choices")
    case Failure(e) => Failure(e)
    case Success(choices) =>
      match Index0(choices)
      case Failure(e) => Failure(e)
      case Success(first) =>
        match Member(first, "message")
        case Failure(e) => Failure(e)
        case Success(message) => Member(message, "content")
  }

  /** `content.match(...)` needs a string: undefined and null throw on the property
    * read, any other value because it has no `match` method. */
  function MatchTarget(content: Option<Value>): (r: Result<string, Thrown>)
    ensures r.Success? <==> content.Some? && content.value.JStr?
    ensures r.Success? ==> r.value == content.value.s
    ensures r.Failure? ==> r.error.ErrorObject? && r.error.kind == TypeError
  {
    match content
    case Some(JStr(s)) => Success(s)
    case None => Failure(NullRead("match"))
    case Some(JNull) => Failure(NullRead("match"))
    case Some(_) => Failure(ErrorObject(TypeError, NotAFunction))
  }

  /** From the reply's content to the plan: cut, parse, validate. */
  function ReadPlan(content: string, parseJson: string -> Result<Value, Thrown>,
                    describe: seq<Issue> -> string): (r: Result<Value, Thrown>)
    ensures !HasSpan(content) ==> r == Failure(ErrorObject(PlainError, ExtractFailed))
    ensures HasSpan(content) ==>
      var parsed := parseJson(ExtractSpan(content).value);
      && (parsed.Failure? ==> r == Failure(parsed.error))
      && (parsed.Success? ==> (r.Success? <==> ValidMealPlan(parsed.value, SingleText)))
      && (parsed.Success? && r.Failure? ==> r.error.ErrorObject? && r.error.kind == ZodError)
      && (parsed.Success? && r.Success? ==> r.value == Strip(ResponseSchema(SingleText), parsed.value))
  {
    SpanExistsIff(content);
    match ExtractSpan(content)
    case None => Failure(ErrorObject(PlainError, ExtractFailed))
    case Some(span) =>
      match parseJson(span)
      case Failure(e) => Failure(e)
      case Success(json) =>
        AcceptedIff(json, SingleText, _ => false);
        match Parse(ResponseSchema(SingleText), json, _ => false)
        case Success(plan) => Success(plan)
        case Failure(issues) => Failure(ErrorObject(ZodError, describe(issues)))
  }

  /** The body of the `try` block, whose errors are rethrown unchanged. */
  function Attempt(p: MealPlanParams, post: seq<string> -> Result<HttpReply, Thrown>,
                   parseJson: string -> Result<Value, Thrown>, describe: seq<Issue> -> string): (r: Result<Value, Thrown>)
    ensures post(ParameterLines(p)).Failure? ==> r == Failure(post(ParameterLines(p)).error)
    ensures post(ParameterLines(p)).Success? && post(ParameterLines(p)).value.body.Failure? ==>
      r == Failure(post(ParameterLines(p)).value.body.error)
    ensures post(ParameterLines(p)).Success? && post(ParameterLines(p)).value.body.Success?
            && !post(ParameterLines(p)).value.ok ==>
      var reply := post(ParameterLines(p)).value;
      var message := ApiErrorMessage(reply.body.value, reply.statusText);
      && (message.Failure? ==> r == Failure(message.error))
      && (message.Success? ==> r == Failure(ErrorObject(PlainError, message.value)))
    ensures post(ParameterLines(p)).Success? && post(ParameterLines(p)).value.body.Success?
            && post(ParameterLines(p)).value.ok ==>
      var content := ContentOf(post(ParameterLines(p)).value.body.value);
      && (content.Failure? ==> r == Failure(content.error))
      && (content.Success? && MatchTarget(content.value).Failure? ==> r == Failure(MatchTarget(content.value).error))
      && (content.Success? && MatchTarget(content.value).Success? ==> r == ReadPlan(MatchTarget(content.value).value, parseJson, describe))
    ensures r.Success? ==>
      var reply := post(ParameterLines(p)).value;
      && reply.ok && reply.body.Success?
      && var content := ContentOf(reply.body.value);
      && content.Success? && MatchTarget(content.value).Success?
      && var text := MatchTarget(content.value).value;
      && ReadPlan(text, parseJson, describe) == r
      && HasSpan(text) && parseJson(ExtractSpan(text).value).Success?
      && r.value == Strip(ResponseSchema(SingleText), parseJson(ExtractSpan(text).value).value)
  {
    match post(ParameterLines(p))
    case Failure(e) => Failure(e)
    case Success(reply) =>
      match reply.body
      case Failure(e) => Failure(e)
      case Success(data) =>
        if !reply.ok then
          match ApiErrorMessage(data, reply.statusText)
          case Failure(e) => Failure(e)
          case Success(message) => Failure(ErrorObject(PlainError, message))
        else
          match ContentOf(data)
          case Failure(e) => Failure(e)
          case Success(content) =>
            match MatchTarget(content)
            case Failure(e) => Failure(e)
            case Success(text) => ReadPlan(text, parseJson, describe)
  }

  /** `generateMealPlan(params)`. `apiKey` is `DEEPSEEK_API_KEY` (`None` when unset). */
  function GenerateMealPlan(p: MealPlanParams, apiKey: Option<string>,
                            post: seq<string> -> Result<HttpReply, Thrown>,
                            parseJson: string -> Result<Value, Thrown>, describe: seq<Issue> -> string): (r: Result<Value, Thrown>)
    ensures !NonEmpty(apiKey) ==> r == Failure(ErrorObject(PlainError, MissingKey))
    ensures NonEmpty(apiKey) ==> r == Attempt(p, post, parseJson, describe)
  {
    if !NonEmpty(apiKey) then Failure(ErrorObject(PlainError, MissingKey))
    else Attempt(p, post, parseJson, describe)
  }

  /** Without a key nothing is sent: the outcome does not depend on the API at all. */
  lemma KeyCheckFirst(p: MealPlanParams, apiKey: Option<string>,
                      post1: seq<string> -> Result<HttpReply, Thrown>, post2: seq<string> -> Result<HttpReply, Thrown>,
                      parseJson: string -> Result<Value, Thrown>, describe: seq<Issue> -> string)
    requires !NonEmpty(apiKey)
    ensures GenerateMealPlan(p, apiKey, post1, parseJson, describe) == GenerateMealPlan(p, apiKey, post2, parseJson, describe)
  {
  }

  /** Only the `{`...`}` stretch of the content matters: text around it is ignored. */
  lemma OnlySpanMatters(c1: string, c2: string, parseJson: string -> Result<Value, Thrown>, describe: seq<Issue> -> string)
    requires ExtractSpan(c1) == ExtractSpan(c2)
    ensures ReadPlan(c1, parseJson, describe) == ReadPlan(c2, parseJson, describe)
  {
  }

  /** Content without a `{` before a `}` always fails with the extraction error, even
    * content that would parse as JSON on its own, such as a bare array. */
  lemma BareJsonRejected(parseJson: string -> Result<Value, Thrown>, describe: seq<Issue> -> string)
    ensures ReadPlan("[]", parseJson, describe) == Failure(ErrorObject(PlainError, ExtractFailed))
    ensures ReadPlan("", parseJson, describe) == Failure(ErrorObject(PlainError, ExtractFailed))
    ensures ReadPlan("}{", parseJson, describe) == Failure(ErrorObject(PlainError, ExtractFailed))
  {
    assert !HasSpan("[]");
    assert !HasSpan("");
    assert "}{"[0] == '}' && "}{"[1] == '{';
    assert !HasSpan("}{");
  }

  /** A reply that is not OK fails with the API's own message when it sends one, with
    * the status text otherwise, and with a `TypeError` when its body is `null`. */
  lemma NotOkMessages(message: string, statusText: string)
    requires message != ""
    ensures ApiErrorMessage(JObj(map["error" := JObj(map["message" := JStr(message)])]), statusText)
            == Success(ApiErrorPrefix + message)
    ensures ApiErrorMessage(JObj(map["error" := JNull]), statusText) == Success(ApiErrorPrefix + statusText)
    ensures ApiErrorMessage(JObj(map[]), statusText) == Success(ApiErrorPrefix + statusText)
    ensures ApiErrorMessage(JObj(map["error" := JObj(map["message" := JStr("")])]), statusText)
            == Success(ApiErrorPrefix + statusText)
    ensures ApiErrorMessage(JNull, statusText).Failure?
  {
    var withMessage := JObj(map["error" := JObj(map["message" := JStr(message)])]);
    assert Get(withMessage, "error") == Some(JObj(map["message" := JStr(message)]));
    assert Get(JObj(map["message" := JStr(message)]), "message") == Some(JStr(message));
    var emptyMessage := JObj(map["message" := JStr("")]);
    assert Get(JObj(map["error" := emptyMessage]), "error") == Some(emptyMessage);
    assert Get(emptyMessage, "message") == Some(JStr(""));
  }

  /** A plan is only ever returned for an OK reply whose content's `{`...`}` stretch
    * parses and satisfies the single-text schema; every error reaches the caller as it
    * was thrown. */
  lemma ReturnedPlansAreValid(p: MealPlanParams, key: string, post: seq<string> -> Result<HttpReply, Thrown>,
                              parseJson: string -> Result<Value, Thrown>, describe: seq<Issue> -> string)
    requires key != ""
    ensures var r := GenerateMealPlan(p, Some(key), post, parseJson, describe);
      && (r.Success? ==>
            var reply := post(ParameterLines(p)).value;
            var text := MatchTarget(ContentOf(reply.body.value).value).value;
            && reply.ok && HasSpan(text)
            && parseJson(ExtractSpan(text).value).Success?
            && ValidMealPlan(parseJson(ExtractSpan(text).value).value, SingleText))
      && (post(ParameterLines(p)).Failure? ==> r == Failure(post(ParameterLines(p)).error))
  {
    var r := GenerateMealPlan(p, Some(key), post, parseJson, describe);
    if r.Success? {
      var reply := post(ParameterLines(p)).value;
      var text := MatchTarget(ContentOf(reply.body.value).value).value;
      assert ReadPlan(text, parseJson, describe) == r;
    }
  }
}
