/**
 * `handleOpenAIError`: the message shown for anything thrown while talking to the
 * OpenAI API.
 */
module ErrorHandling {
  import opened JsValues

  const ApiErrorPrefix: string := "OpenAI API error: "
  const UnknownFailure: string := "An unknown error occurred while communicating with the OpenAI API."

  /** The SDK's own errors are prefixed; other `Error`s keep their message; anything else
    * gets a fixed text. The SDK's errors are `Error`s too, so the order of the tests matters. */
  function HandleOpenAIError(e: Thrown): (message: string)
    ensures e.ErrorObject? && e.kind == OpenAIError ==> message == ApiErrorPrefix + e.message
    ensures e.ErrorObject? && e.kind != OpenAIError ==> message == e.message
    ensures e.NonError? ==> message == UnknownFailure
  {
    if e.ErrorObject? && e.kind == OpenAIError then ApiErrorPrefix + e.message
    else if e.ErrorObject? then e.message
    else UnknownFailure
  }

  /** `new Error(handleOpenAIError(e))`, what `generateMealPlan` throws in place of e. */
  function Rewrapped(e: Thrown): (t: Thrown)
    ensures t.ErrorObject? && t.kind == PlainError
  {
    ErrorObject(PlainError, HandleOpenAIError(e))
  }

  /** The SDK's errors always get the prefix, so they are never passed through unchanged. */
  lemma SdkErrorsPrefixed(m: string)
    ensures HandleOpenAIError(ErrorObject(OpenAIError, m)) != m
    ensures HandleOpenAIError(ErrorObject(OpenAIError, m)) != HandleOpenAIError(ErrorObject(PlainError, m))
  {
    assert |HandleOpenAIError(ErrorObject(OpenAIError, m))| == |ApiErrorPrefix| + |m|;
  }

  /** Rewrapping is stable: an error already rewrapped keeps its message when handled
    * again, so a message is prefixed at most once. */
  lemma RewrapStable(e: Thrown)
    ensures HandleOpenAIError(Rewrapped(e)) == HandleOpenAIError(e)
    ensures Rewrapped(Rewrapped(e)) == Rewrapped(e)
  {
  }
}
