/**
 * The feed route's service (backend/src/app.service.ts).
 *
 * `getFeed` checks the date, then the language, and answers with a summary
 * string. The source throws on a failed check while its route handler reads
 * an `error` field, so both failures are the error arm of a result here.
 */
module App {
  import opened Results
  import opened Errors
  import opened Strings
  import opened Dates
  import opened Languages

  /** The service's `supportedLanguages`, computed by the constructor. */
  const SupportedLanguages: seq<string> := Codes(WikipediaLanguages)

  const InvalidDateMessage := "Invalid date"
  const UnsupportedLanguagePrefix := "Unsupported language. \n Supported languages: "

  /** `getFeed`: the date is checked first, then the language. */
  function GetFeed(lang: string, year: string, month: string, day: string): (r: Result<string, Error>)
    ensures r.Ok? <==> IsCalendarDate(year, month, day) && lang in SupportedLanguages
    ensures !IsCalendarDate(year, month, day) ==> r == Err(Error(InvalidDateMessage))
    ensures IsCalendarDate(year, month, day) && lang !in SupportedLanguages ==>
      r == Err(Error(UnsupportedLanguagePrefix + Join(SupportedLanguages, ",")))
    ensures r.Ok? ==> r.value == year + "-" + month + "-" + day + " Lang:" + lang
  {
    IsValidDateIsCalendarDate(year, month, day);
    if !IsValidDate(year, month, day) then Err(Error(InvalidDateMessage))
    else if lang !in SupportedLanguages then Err(Error(UnsupportedLanguagePrefix + Join(SupportedLanguages, ",")))
    else Ok(year + "-" + month + "-" + day + " Lang:" + lang)
  }

  /** The date check runs first: with an invalid date every language gets the same answer. */
  lemma InvalidDateWhateverTheLanguage(lang1: string, lang2: string, year: string, month: string, day: string)
    requires !IsCalendarDate(year, month, day)
    ensures GetFeed(lang1, year, month, day) == GetFeed(lang2, year, month, day) == Err(Error(InvalidDateMessage))
  {
  }

  /** The route handler's cases: English and Spanish succeed on 2024-01-01. */
  lemma KnownLanguageExamples()
    ensures GetFeed("en", "2024", "01", "01").Ok?
    ensures GetFeed("es", "2024", "01", "01").Ok?
  {
    NewYear2024IsValid();
    IsValidDateIsCalendarDate("2024", "01", "01");
    WikipediaCodesExamples();
  }

  /** The route handler's case of an unknown language on a valid date. */
  lemma UnknownLanguageExample()
    ensures GetFeed("bad", "2024", "01", "01") == Err(Error(UnsupportedLanguagePrefix + Join(SupportedLanguages, ",")))
  {
    NewYear2024IsValid();
    IsValidDateIsCalendarDate("2024", "01", "01");
    WikipediaCodesExamples();
  }

  /** The route handler's invalid dates: a non-numeric year, month 13 and day 32 all fail with "Invalid date". */
  lemma DateExamples()
    ensures GetFeed("en", "bad", "01", "01") == Err(Error(InvalidDateMessage))
    ensures GetFeed("en", "2024", "13", "01") == Err(Error(InvalidDateMessage))
    ensures GetFeed("en", "2024", "01", "32") == Err(Error(InvalidDateMessage))
  {
    InvalidDateExamples();
    IsValidDateIsCalendarDate("bad", "01", "01");
    IsValidDateIsCalendarDate("2024", "13", "01");
    IsValidDateIsCalendarDate("2024", "01", "32");
  }

  /** The body the route handler answers with: an error text and a data value, either of which may be null or undefined. */
  datatype FeedResponse = FeedResponse(error: Option<string>, data: Option<string>)

  /** `getFeed` as written: each failed check is a throw rather than a returned error. */
  function GetFeedAsWritten(lang: string, year: string, month: string, day: string): (r: Outcome<string, Error>)
    ensures r.Returned? <==> GetFeed(lang, year, month, day).Ok?
    ensures r.Returned? ==> r.value == GetFeed(lang, year, month, day).value
    ensures r.Threw? ==> r.thrown == GetFeed(lang, year, month, day).error
  {
    IsValidDateIsCalendarDate(year, month, day);
    if !IsValidDate(year, month, day) then Threw(Error(InvalidDateMessage))
    else if lang !in SupportedLanguages then Threw(Error(UnsupportedLanguagePrefix + Join(SupportedLanguages, ",")))
    else Returned(year + "-" + month + "-" + day + " Lang:" + lang)
  }

  /**
   * The route handler as written, over the service as written: a throw is not
   * caught, so the request fails; a returned summary string has neither an
   * `error` nor a `value` property, so both read as missing.
   */
  function HandlerAsWritten(call: Outcome<string, Error>): (r: Outcome<FeedResponse, Error>)
    ensures call.Threw? ==> r == Threw(call.thrown)
    ensures call.Returned? ==> r == Returned(FeedResponse(None, None))
  {
    match call
    case Threw(e) => Threw(e)
    case Returned(_) => Returned(FeedResponse(None, None))
  }

  /** The route handler over a result: the error's message, or the value as data. */
  function Handler(result: Result<string, Error>): (response: FeedResponse)
    ensures response.error.Some? <==> result.Err?
    ensures result.Err? ==> response == FeedResponse(Some(result.error.message), None)
    ensures result.Ok? ==> response == FeedResponse(None, Some(result.value))
  {
    match result
    case Err(e) => FeedResponse(Some(e.message), None)
    case Ok(v) => FeedResponse(None, Some(v))
  }

  /**
   * As written, the handler's invalid-date case rejects instead of answering
   * with an error text, and its valid case answers without the summary.
   */
  lemma HandlerAsWrittenMissesErrors()
    ensures HandlerAsWritten(GetFeedAsWritten("en", "bad", "01", "01")) == Threw(Error(InvalidDateMessage))
    ensures HandlerAsWritten(GetFeedAsWritten("en", "2024", "01", "01")) == Returned(FeedResponse(None, None))
  {
    DateExamples();
    KnownLanguageExamples();
  }

  /** Over the result-returning service every request is answered: the error text on failure, the summary on success. */
  lemma HandlerAnswersEveryRequest(lang: string, year: string, month: string, day: string)
    ensures var response := Handler(GetFeed(lang, year, month, day));
      && (response.error.Some? <==> !IsCalendarDate(year, month, day) || lang !in SupportedLanguages)
      && (!IsCalendarDate(year, month, day) ==> response == FeedResponse(Some(InvalidDateMessage), None))
      && (response.error.None? ==> response.data == Some(year + "-" + month + "-" + day + " Lang:" + lang))
  {
  }
}
