/**
 * Thrown JavaScript errors, as the services see them: a constructor name, a
 * message, and the optional numeric fields the classifiers read off the object.
 */
module Errors {
  import opened Wrappers

  /**
   * An `Error` object. `statusCode` and `rateLimitReset` are the fields of
   * `OpenAIError`; `status` is the field the LINE SDK puts on its errors.
   * A `NaN` number is modelled as an absent one: both are falsy.
   */
  datatype JsError = JsError(
    name: string,
    message: string,
    statusCode: Option<int>,
    status: Option<int>,
    rateLimitReset: Option<int>)

  const OPENAI_ERROR: string := "OpenAIError"
  const TIMEOUT_ERROR: string := "TimeoutError"
  const ABORT_ERROR: string := "AbortError"
  const DIARY_ANALYSIS_ERROR: string := "DiaryAnalysisError"

  /** `new Error(message)`. */
  function PlainError(message: string): JsError {
    JsError("Error", message, None, None, None)
  }

  /** `new OpenAIError(message, statusCode, rateLimitReset)`. */
  function OpenAIError(message: string, statusCode: Option<int>, rateLimitReset: Option<int>): JsError {
    JsError(OPENAI_ERROR, message, statusCode, None, rateLimitReset)
  }

  /** A number field that JavaScript treats as true: present and non-zero. */
  predicate Truthy(n: Option<int>) {
    n.Some? && n.value != 0
  }

  /** A string JavaScript treats as true: present and non-empty. */
  predicate TruthyText(s: Option<string>) {
    s.Some? && s.value != ""
  }
}
