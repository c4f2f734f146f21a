/**
 * The upstream feed client (backend/src/wikipedia.service.ts).
 *
 * `getFeaturedContent` checks the date, builds the feed URL and asks the
 * network for it. The network is not modelled: `fetch` and the JSON body
 * reader are parameters, each giving an `Outcome` (a value, or what was
 * thrown, already converted to its string form as the template literals of
 * the source convert it).
 */
module Wikipedia {
  import opened Results
  import opened Errors
  import opened Strings
  import opened Dates
  import opened Languages

  /** A content item of the payload: property path to text. */
  type Item = map<string, string>

  /** The `mostread` slot: an object with an `articles` list and other fields. */
  datatype MostRead = MostRead(fields: Item, articles: seq<Item>)

  /**
   * The featured-content payload for one (language, date): five optional
   * slots and the remaining top-level fields, kept opaque.
   */
  datatype FeaturedContent = FeaturedContent(
    tfa: Option<Item>,
    image: Option<Item>,
    mostread: Option<MostRead>,
    onthisday: Option<seq<Item>>,
    news: Option<seq<Item>>,
    others: Item)

  /** The service's `supportedLanguages`, computed by the constructor. */
  const SupportedLanguages: seq<string> := Codes(WikipediaLanguages)

  const FeedEndpoint := "https://api.wikimedia.org/feed/v1/wikipedia/"

  /** The request URL for one language and date: the endpoint, then the five path segments joined by '/'. */
  function RequestUrl(lang: string, year: string, month: string, day: string): (url: string)
    ensures FeedEndpoint <= url
    ensures url[|FeedEndpoint|..] == Join([lang, "featured", year, month, day], "/")
  {
    var url := FeedEndpoint + lang + "/featured/" + year + "/" + month + "/" + day;
    assert url == FeedEndpoint + (lang + "/" + ("featured" + "/" + (year + "/" + (month + "/" + day))));
    JoinCons(lang, ["featured", year, month, day], "/");
    JoinCons("featured", [year, month, day], "/");
    JoinCons(year, [month, day], "/");
    JoinCons(month, [day], "/");
    url
  }

  datatype FeedRequest = FeedRequest(lang: string, year: string, month: string, day: string)

  /** Reads a feed URL back into the request it names, if it is one. */
  function ParseRequestUrl(url: string): Option<FeedRequest>
  {
    if |url| >= |FeedEndpoint| && url[..|FeedEndpoint|] == FeedEndpoint then
      var segments := Split(url[|FeedEndpoint|..], '/');
      if |segments| == 5 && segments[1] == "featured" then
        Some(FeedRequest(segments[0], segments[2], segments[3], segments[4]))
      else None
    else None
  }

  /** Five separator-free pieces joined by '/' split back into the same five pieces. */
  lemma SplitFiveSegments(a: string, b: string, c: string, d: string, e: string)
    requires '/' !in a && '/' !in b && '/' !in c && '/' !in d && '/' !in e
    ensures Split(a + "/" + (b + "/" + (c + "/" + (d + "/" + e))), '/') == [a, b, c, d, e]
  {
    var de := d + "/" + e;
    var cde := c + "/" + de;
    var bcde := b + "/" + cde;
    SplitWithoutSeparator(e, '/');
    SplitAtFirst(d, '/', e);
    assert Split(de, '/') == [d, e];
    SplitAtFirst(c, '/', de);
    assert Split(cde, '/') == [c, d, e];
    SplitAtFirst(b, '/', cde);
    assert Split(bcde, '/') == [b, c, d, e];
    SplitAtFirst(a, '/', bcde);
  }

  /** Distinct requests get distinct URLs: the URL gives back language and date, as long as no part holds a '/'. */
  lemma RequestUrlRoundTrip(lang: string, year: string, month: string, day: string)
    requires '/' !in lang && '/' !in year && '/' !in month && '/' !in day
    ensures ParseRequestUrl(RequestUrl(lang, year, month, day)) == Some(FeedRequest(lang, year, month, day))
  {
    var tail := year + "/" + (month + "/" + day);
    var path := lang + "/" + ("featured" + "/" + tail);
    assert "/featured/" == "/" + "featured" + "/";
    assert RequestUrl(lang, year, month, day) == FeedEndpoint + path;
    SplitFiveSegments(lang, "featured", year, month, day);
  }

  const FetchFailedPrefix := "Failed to fetch Wikipedia feed. Details: "
  const ParseFailedPrefix := "Failed to parse Wikipedia feed. Details: "

  /**
   * `wikipediaRequest`: fetch the feed URL, then read its body as JSON. A
   * throw at either step becomes a `WikipediaApiError` whose message names the
   * step and embeds what was thrown. The HTTP status is not looked at.
   */
  function WikipediaRequest<R>(
    lang: string, year: string, month: string, day: string,
    fetch: string -> Outcome<R, string>, json: R -> Outcome<FeaturedContent, string>): (r: Result<FeaturedContent, Error>)
    ensures var response := fetch(RequestUrl(lang, year, month, day));
      && (r.Ok? <==> response.Returned? && json(response.value).Returned?)
      && (r.Ok? ==> r.value == json(response.value).value)
      && (response.Threw? ==> r == Err(WikipediaApiError(FetchFailedPrefix + response.thrown)))
      && (response.Returned? && json(response.value).Threw? ==>
            r == Err(WikipediaApiError(ParseFailedPrefix + json(response.value).thrown)))
    ensures r.Err? ==> r.error.ApiError? && r.error.code == "WIKIPEDIA_API_ERROR"
  {
    var url := RequestUrl(lang, year, month, day);
    match Attempt(fetch(url))
    case Err(thrown) => Err(WikipediaApiError(FetchFailedPrefix + thrown))
    case Ok(response) =>
      match Attempt(json(response))
      case Err(thrown) => Err(WikipediaApiError(ParseFailedPrefix + thrown))
      case Ok(content) => Ok(content)
  }

  /**
   * `getFeaturedContent`: an invalid date is refused before any request is
   * made; otherwise the request goes out for whatever language was asked.
   */
  function GetFeaturedContent<R>(
    lang: string, year: string, month: string, day: string,
    fetch: string -> Outcome<R, string>, json: R -> Outcome<FeaturedContent, string>): (r: Result<FeaturedContent, Error>)
    ensures !IsCalendarDate(year, month, day) ==> r == Err(WikipediaApiError("Invalid date"))
    ensures IsCalendarDate(year, month, day) ==> r == WikipediaRequest(lang, year, month, day, fetch, json)
  {
    IsValidDateIsCalendarDate(year, month, day);
    if !IsValidDate(year, month, day) then Err(WikipediaApiError("Invalid date"))
    else WikipediaRequest(lang, year, month, day, fetch, json)
  }

  /** With an invalid date the network is never consulted: any two networks give the same answer. */
  lemma InvalidDateMakesNoRequest<R>(
    lang: string, year: string, month: string, day: string,
    fetch1: string -> Outcome<R, string>, json1: R -> Outcome<FeaturedContent, string>,
    fetch2: string -> Outcome<R, string>, json2: R -> Outcome<FeaturedContent, string>)
    requires !IsValidDate(year, month, day)
    ensures GetFeaturedContent(lang, year, month, day, fetch1, json1)
         == GetFeaturedContent(lang, year, month, day, fetch2, json2)
         == Err(WikipediaApiError("Invalid date"))
  {
  }
}
