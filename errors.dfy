/**
 * Backend error classes (backend/src/errors.ts).
 *
 * A JavaScript `Error` carries a message; `ApiError` adds a stable code, and
 * three subclasses each fix that code. None of the classes overrides `name`,
 * so every one of them prints as a plain "Error".
 */
module Errors {

  /** An error value: a plain `Error`, or an `ApiError` with its code. */
  datatype Error = Error(message: string) | ApiError(code: string, message: string)

  /** The three coded subclasses of `ApiError`. */
  datatype ErrorKind = BadRequest | WikipediaApi | TranslationApi

  /** The code each subclass passes to the `ApiError` constructor. */
  function CodeOf(kind: ErrorKind): string
  {
    match kind
    case BadRequest => "BAD_REQUEST"
    case WikipediaApi => "WIKIPEDIA_API_ERROR"
    case TranslationApi => "TRANSLATION_API_ERROR"
  }

  /** The three codes are pairwise distinct: an `ApiError`'s code identifies its subclass. */
  lemma CodeOfInjective(a: ErrorKind, b: ErrorKind)
    ensures CodeOf(a) == CodeOf(b) ==> a == b
  {
  }

  function BadRequestError(message: string): (e: Error)
    ensures e.ApiError? && e.code == "BAD_REQUEST" && e.message == message
  {
    ApiError(CodeOf(BadRequest), message)
  }

  function WikipediaApiError(message: string): (e: Error)
    ensures e.ApiError? && e.code == "WIKIPEDIA_API_ERROR" && e.message == message
  {
    ApiError(CodeOf(WikipediaApi), message)
  }

  function TranslationApiError(message: string): (e: Error)
    ensures e.ApiError? && e.code == "TRANSLATION_API_ERROR" && e.message == message
  {
    ApiError(CodeOf(TranslationApi), message)
  }

  /**
   * `String(e)` for an error, as template literals and `Array.prototype.join`
   * produce it: the name ("Error" for every class here), then ": " and the
   * message unless the message is empty.
   */
  function Describe(e: Error): (s: string)
    ensures e.message != "" ==> |s| > 7 && s[..7] == "Error: " && s[7..] == e.message
    ensures e.message == "" ==> s == "Error"
  {
    if e.message == "" then "Error" else "Error: " + e.message
  }
}
