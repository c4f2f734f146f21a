# wikidiscover feed core in Dafny

This project models the core of wikidiscover. Its backend serves Wikipedia's daily featured content in many languages, and its client assembles that content into a feed.

**Backend: building the feed.**
- The backend checks the requested date and language.
- It builds the Wikimedia feed URL.
- It fetches the feed for the target language and for English.
- It fills the target language's missing content slots (`tfa`, `image`, `mostread`, `onthisday`, `news`) by translating fixed text fields of the English slots. The translation is done by a translation backend.

**Client: assembling the feed.**
- It picks one featured item (the TFA) by priority.
- It interleaves the most-read and on-this-day articles into a list.
- It accumulates "load more" pages.

**Shared helpers.** Both sides share small helpers:
- the `{error, value}` result union;
- `attempt` and `nonNull`;
- the coded error classes.

**Modules.** There is one module per file:
- `Errors`: `backend/src/errors.ts`, plus `String(error)` as JavaScript prints it.
- `Results`: the result union and its helpers, identical in `backend/src/utils.ts` and `frontend/src/utils.ts`. Exceptions are an explicit `Outcome`: a call either returned or threw.
- `Strings`: `split` with a one-character separator, and `join`.
- `ClientUtils`: `dateToIso`.
- `Languages`: the table in `backend/src/languages.ts`.
- `Dates`: the date check shared by both backend services. It is a round trip through `new Date` and `parseInt`. For parts of 4, 2 and 2 characters it is proved to accept exactly the zero-padded Gregorian calendar dates.
- `Wikipedia`: the feed client of `backend/src/wikipedia.service.ts`. The network is a pair of parameters.
- `Translation`: the translation-fallback engine of `backend/src/translate.service.ts`.
  - The translation backend is an oracle from text and target language to a result.
  - A content item is a map from property path to text.
  - `translatePropertiesFromEn` writes into the English object in place. It is a method on an object holding that map, proved against a function.
- `App`: `getFeed` of `backend/src/app.service.ts`.
- `Feed`: `frontend/src/Feed/FeedRepository.ts`.
  - The repository, the feed data and the presentation feed are classes whose fields the methods update.
  - The TFA pick and the interleaving are proved against specification functions on snapshots of those objects.

## Model

| member | source | states |
|---|---|---|
| Errors.BadRequestError | backend/src/errors.ts:10-14 | the error is an `ApiError` with code `BAD_REQUEST` and the given message |
| Errors.WikipediaApiError | backend/src/errors.ts:16-20 | the error is an `ApiError` with code `WIKIPEDIA_API_ERROR` and the given message |
| Errors.TranslationApiError | backend/src/errors.ts:22-26 | the error is an `ApiError` with code `TRANSLATION_API_ERROR` and the given message |
| Errors.CodeOfInjective | backend/src/errors.ts:1-26 | the three subclass codes are pairwise distinct, so the code identifies the subclass |
| Errors.Describe | backend/src/translate.service.ts:333-340 | an error prints as "Error: " followed by its message, or as "Error" alone when the message is empty; this is how the batch error details are built |
| Results.Fields | backend/src/utils.ts:1-3 | exactly one of `error` and `value` is populated; a success holds the value, a failure the error |
| Results.FromFields | backend/src/utils.ts:1-3 | an object reads back as a result exactly when one of its two fields is populated |
| Results.FieldsRoundTrip | backend/src/utils.ts:42-48 | `ok(v)` and `err(e)` lose nothing: the object view reads back as the same result; the client's `ok`/`err` (frontend/src/utils.ts:63-69) build the same two shapes |
| Results.Attempt | backend/src/utils.ts:5-40 | a normal return gives the success arm with that value; a throw or rejection gives the failure arm with what was thrown; `attemptAsync` and `attempt` alike, and the client's copies in frontend/src/utils.ts:26-61 are the same |
| Results.NonNull | backend/src/utils.ts:21-26 | a present value is returned unchanged; null or undefined throws "Value is null or undefined"; the client's copy (frontend/src/utils.ts:42-47) is the same |
| Results.AttemptNonNull | backend/src/wikipedia.service.ts:78 | wrapping `nonNull` in `attempt` turns a missing value into the failure arm with that message |
| Strings.Split | frontend/src/utils.ts:5 | `split` gives at least one piece and no piece holds the separator |
| Strings.Join | backend/src/app.service.ts:33 | `join` starts with the first piece, puts the separator right after it when there are more, ends with the last piece, and gives "" for no pieces |
| Strings.JoinSplit | frontend/src/utils.ts:5 | splitting and then joining with the same separator gives the string back, so `split` loses and adds no character |
| Strings.SplitJoin | backend/src/wikipedia.service.ts:65 | joining separator-free pieces and splitting again gives the pieces back |
| ClientUtils.DateToIso | frontend/src/utils.ts:4-6 | the result is a prefix of the timestamp, holds no 'T', and is followed by a 'T' when shorter than the timestamp |
| ClientUtils.DateToIsoOfTimestamp | frontend/src/utils.ts:4-6 | for "<date>T<time>" the result is exactly the date part |
| Languages.Codes | backend/src/wikipedia.service.ts:48-52 | `supportedLanguages` has one code per table entry, in table order; the route service (backend/src/app.service.ts:7-11) computes the same list |
| Languages.WikipediaCodes | backend/src/languages.ts:1-27 | the codes of the table, written out in order |
| Languages.WikipediaCodesExamples | backend/src/app.controller.spec.ts:45-62 | "en" and "es" are supported, "bad" is not |
| Dates.DigitPrefix | backend/src/app.service.ts:43-45 | what `parseInt` reads is the leading run of digits: a prefix of the text, all digits, followed by a non-digit |
| Dates.ParseInt | backend/src/app.service.ts:43-45 | for a text with no leading whitespace or sign, `parseInt` gives NaN exactly when the text does not start with a digit; otherwise it reads the leading run of digits as a decimal number and ignores what follows, so a text of digits only reads as its decimal value |
| Dates.IsValidDate | backend/src/wikipedia.service.ts:117-125 | the check holds only when `new Date` reads the joined text as a valid date and `parseInt` reads a number from each of the three parts |
| Dates.IsValidDateIsCalendarDate | backend/src/wikipedia.service.ts:117-125 | for parts the date-only form can hold (4, 2 and 2 characters), the Date round trip accepts exactly a 4-digit year, a 2-digit month in 1..12 and a 2-digit day within that month's length under the Gregorian leap-year rule; the route service's identical check (backend/src/app.service.ts:39-47) accepts the same dates |
| Dates.NewYear2024IsValid | backend/src/app.controller.spec.ts:18-21 | 2024-01-01 is accepted |
| Dates.InvalidDateExamples | backend/src/app.controller.spec.ts:23-42 | year "bad", month "13" and day "32" are rejected |
| Dates.LeapDayExamples | backend/src/wikipedia.service.ts:117-125 | 2024-02-29 is accepted and 2023-02-29 rejected |
| Wikipedia.RequestUrl | backend/src/wikipedia.service.ts:65 | the URL starts with the feed endpoint and continues with language, "featured", year, month and day joined by '/' |
| Wikipedia.RequestUrlRoundTrip | backend/src/wikipedia.service.ts:65 | the URL is the feed endpoint followed by `{lang}/featured/{year}/{month}/{day}`; it gives back language and date, so distinct requests get distinct URLs |
| Wikipedia.WikipediaRequest | backend/src/wikipedia.service.ts:58-95 | success exactly when fetch and JSON reading both return; a fetch throw gives "Failed to fetch Wikipedia feed. Details: …", a parse throw gives "Failed to parse Wikipedia feed. Details: …", both with code `WIKIPEDIA_API_ERROR` |
| Wikipedia.GetFeaturedContent | backend/src/wikipedia.service.ts:102-115 | an invalid date gives `WikipediaApiError("Invalid date")`; a valid date sends the request for whatever language was asked, without checking it |
| Wikipedia.InvalidDateMakesNoRequest | backend/src/wikipedia.service.ts:108-113 | with an invalid date the answer does not depend on the network, so no request is made |
| Translation.IsSupportedLanguage | backend/src/translate.service.ts:85-87 | `isSupportedLanguage` holds exactly for the thirteen codes of the service's own list (lines 25-39) |
| Translation.TranslationListDiffersFromFeedList | backend/src/translate.service.ts:85-87 | that list is not the feed's table: "az" is translated but has no feed, "de" has a feed but is not translated |
| Translation.TranslatedFromEn | backend/src/translate.service.ts:315-341 | the result succeeds exactly when every listed path's translation succeeds; otherwise it is a `TRANSLATION_API_ERROR` whose message is "Failed to translate properties. Details: " followed by the batch's errors joined by ", " |
| Translation.WriteAllFields | backend/src/translate.service.ts:343-345 | after the writes, each path holds the value of its last write, and every other field is unchanged and still present exactly when it was |
| Translation.TranslatedFields | backend/src/translate.service.ts:315-347 | a successful translation sets each listed path to the translation of that path's English text and leaves every other field unchanged |
| Translation.TranslatePropertiesFromEn | backend/src/translate.service.ts:310-348 | on success the source object itself is returned, holding the translated fields; on failure the error is returned and the object is untouched |
| Translation.StubTranslatedFields | backend/src/stubs/post.translate.ts:10 | with the test stub every translation succeeds and each listed path becomes its English text plus "-" and the language |
| Translation.TranslateContentProperties | backend/src/translate.service.ts:161-184 | a present target slot is returned unchanged; a missing English slot or an unsupported language gives ok(null); otherwise the result is that of translating the English slot |
| Translation.TranslateImage | backend/src/translate.service.ts:186-198 | the target's image is kept when present; with no English image or an unsupported language the slot is null; a translated image has `description.text` set to the translation of its English text; a failure is a `TRANSLATION_API_ERROR` |
| Translation.TranslateTfa | backend/src/translate.service.ts:200-212 | the target's featured article is kept when present; with none in English or an unsupported language the slot is null; a translated article has `titles.normalized`, `normalizedtitle`, `extract` and `description` set to the translations of their English texts; a failure is a `TRANSLATION_API_ERROR` |
| Translation.ContentSlotFields | backend/src/translate.service.ts:179-183 | a translated slot is the English value with exactly the slot's fields replaced by their translations |
| Translation.ContentSlotWithoutCall | backend/src/translate.service.ts:168-177 | when the target slot is present, or the English slot is missing, or the language is unsupported, the result does not depend on the translation backend |
| Translation.TranslateAll | backend/src/translate.service.ts:289-302 | a batch succeeds exactly when every item succeeds; the results keep the list's length and order, item i being English item i translated; otherwise one `TRANSLATION_API_ERROR` names the batch and carries every item's error |
| Translation.TranslateList | backend/src/translate.service.ts:373-479 | on this day and news: a non-empty target list is returned unchanged; an absent or empty English list, or an unsupported language, gives ok(null); otherwise every item is translated on the slot's fields: `text` and `pages[0].titles.normalized` for events, the three `links[0]` fields for news articles |
| Translation.TranslateOnThisDay | backend/src/translate.service.ts:373-427 | a non-empty target list is kept; an absent or empty English list or an unsupported language gives null; a translated list has one event per English event, in order, each with `text` and `pages[0].titles.normalized` translated; a failure's message starts "Failed to translate on this day events. Details: " |
| Translation.TranslateNews | backend/src/translate.service.ts:429-480 | the same decision for news: one article per English article, in order, each with its three `links[0]` fields translated; a failure's message starts "Failed to translate news articles. Details: " |
| Translation.TranslateMostRead | backend/src/translate.service.ts:264-308 | the same decision on `mostread.articles`; a translated slot keeps every other field of the English slot and replaces only `articles` |
| Translation.TranslatedListItems | backend/src/translate.service.ts:350-371 | in a translated list, item i is English item i with exactly the listed paths replaced by their translations |
| Translation.Collapse | backend/src/translate.service.ts:256-260 | a slot whose decision failed becomes null; any other slot takes its decided value |
| Translation.TranslateWikipediaResponse | backend/src/translate.service.ts:214-262 | the result is always a success; the non-slot fields of the target response are copied; each slot is its decision, with a failed decision giving null |
| Translation.PresentSlotsKept | backend/src/translate.service.ts:219-261 | every slot the target language already has is passed through untouched |
| Translation.UnsupportedLanguageKeepsTarget | backend/src/translate.service.ts:174-176 | for an unsupported language each slot is the target's own, an empty list counting as missing, whatever the translation backend does |
| Translation.TranslateBadge | backend/src/translate.service.ts:57-79 | for a supported language with a successful translation only `badge` is replaced by it; otherwise the badge is returned as it was; always a success |
| Translation.TranslateBadges | backend/src/translate.service.ts:43-55 | always a success of the same length and order, each entry translated by `translateBadge`; with an unsupported language the input badges unchanged |
| Translation.BadgesWithoutCall | backend/src/translate.service.ts:47-49 | with an unsupported language the result does not depend on the translation backend |
| Translation.TfaTranslatedToSpanish | backend/src/translate.service.spec.ts:66-80 | a missing Spanish featured article is translated from English by the stub: the title, extract and description each get "-es" appended ("Statue of Liberty" becomes "Statue of Liberty-es") |
| Translation.TfaKeptWhenPresent | backend/src/translate.service.spec.ts:54-64 | a present Spanish featured article is returned as it is |
| Translation.OnThisDayTranslatedToSpanish | backend/src/translate.service.spec.ts:137-150 | translated events keep their count; in the first event the page title "NASA" becomes "NASA-es" and the text "The impactor of the NASA space probe Deep Impact." gets "-es" appended |
| App.GetFeed | backend/src/app.service.ts:17-37 | success exactly for a calendar date and a listed language; an invalid date fails with "Invalid date" first; an unlisted language fails with "Unsupported language. \n Supported languages: " and the codes joined by ","; a success is `{year}-{month}-{day} Lang:{lang}` |
| App.InvalidDateWhateverTheLanguage | backend/src/app.service.ts:28-30 | the date check runs before the language check: with an invalid date every language gets "Invalid date" |
| App.KnownLanguageExamples | backend/src/app.controller.spec.ts:45-52 | "en" and "es" succeed on 2024-01-01 |
| App.UnknownLanguageExample | backend/src/app.controller.spec.ts:54-61 | "bad" fails with the unsupported-language message on a valid date |
| App.DateExamples | backend/src/app.controller.spec.ts:18-43 | year "bad", month "13" and day "32" fail with "Invalid date" |
| App.GetFeedAsWritten | backend/src/app.service.ts:28-36 | the service as written throws exactly the errors that the result form returns |
| App.HandlerAsWritten | backend/src/app.controller.ts:20-26 | the handler lets a throw through and reads neither an error nor data from a returned string |
| App.HandlerAsWrittenMissesErrors | backend/src/app.controller.spec.ts:23-28 | as written, the invalid-date request rejects instead of answering with an error text, and the valid request answers without data |
| App.Handler | backend/src/app.controller.ts:20-26 | the handler answers with the error's message and null data, or with no error and the value as data |
| App.HandlerAnswersEveryRequest | backend/src/app.controller.spec.ts:18-62 | over the result form every request is answered; the error text is present exactly when the date or the language is refused |
| Feed.MapTfaToArticule | frontend/src/Feed/FeedRepository.ts:165-178 | a TFA article with the DTO's title, links and description, its thumbnail or "/placeholder.svg", its timestamp as date, and no view count |
| Feed.MapImageToArticule | frontend/src/Feed/FeedRepository.ts:193-206 | an image article with the DTO's title, links and description, its thumbnail or "/placeholder.svg", no view count, dated by its timestamp or, when that is missing or empty, now |
| Feed.MapMostReadToArticule | frontend/src/Feed/FeedRepository.ts:208-221 | a most-read article with the DTO's title, links, description, thumbnail or placeholder and date, and the only kind that keeps its view count |
| Feed.MapOnThisDayToArticule | frontend/src/Feed/FeedRepository.ts:148-161 | an on-this-day article with the DTO's title, links, description, thumbnail or placeholder and date, and no view count |
| Feed.GetTfaArticule | frontend/src/Feed/FeedRepository.ts:163-191 | picks the TFA, else the image, else the first most-read, else the first on-this-day, else throws "Failed to load TFA"; a list head it picks is removed from the feed data |
| Feed.InterleaveRound | frontend/src/Feed/FeedRepository.ts:134-141 | one round of the loop pushes the most-read head, then the on-this-day head, and leaves the interleaving of the rest |
| Feed.InterleaveLength | frontend/src/Feed/FeedRepository.ts:134-141 | the interleaving holds every article of both lists exactly once |
| Feed.InterleaveAlternates | frontend/src/Feed/FeedRepository.ts:134-141 | the articles alternate most-read then on-this-day, starting with most-read, while both lists last |
| Feed.InterleaveTail | frontend/src/Feed/FeedRepository.ts:134-141 | once the shorter list runs out, the rest of the longer one follows in its original order |
| Feed.GetArticlesFromFeed | frontend/src/Feed/FeedRepository.ts:112-147 | the list is the image (when it is set and not the TFA) followed by the interleaving of the mapped most-read and on-this-day lists |
| Feed.MapToFeedPm | frontend/src/Feed/FeedRepository.ts:99-106 | the TFA is picked first and the article list is built from what the pick left; a failed pick throws its error |
| Feed.FeedPmAccountsForEveryItem | frontend/src/Feed/FeedRepository.ts:99-106 | the TFA and the articles together are exactly the feed data's mapped items, as a multiset: each item appears as often as the data holds it, so the picked item is not listed twice and nothing is dropped |
| Feed.NoTfaOnlyWhenEmpty | frontend/src/Feed/FeedRepository.ts:190 | mapping fails, with "Failed to load TFA", exactly when the feed data holds no item |
| Feed.UseImageAsTfa | frontend/src/Feed/FeedRepository.ts:108-110 | when it holds for a present image, that image is the featured item; when it fails for a present image, the feed has a TFA |
| Feed.ImageIsTfa | frontend/src/Feed/FeedRepository.ts:108-110 | the image is the TFA exactly when there is no TFA and the image is set |
| Feed.ImageListed | frontend/src/Feed/FeedRepository.ts:115-117 | the image is among the articles exactly when both TFA and image are set, and is then the first article |
| Feed.FeedRepository.constructor | frontend/src/Feed/FeedRepository.ts:33-37 | a fresh repository has no current feed, is loading the current feed, is not loading more and has no "load more" articles |
| Feed.FeedRepository.SetCurrentFeedPm | frontend/src/Feed/FeedRepository.ts:44-47 | sets the current feed and nothing else |
| Feed.FeedRepository.SetLoadingCurrentFeed | frontend/src/Feed/FeedRepository.ts:49-52 | sets the flag and nothing else |
| Feed.FeedRepository.SetLoadingMoreFeed | frontend/src/Feed/FeedRepository.ts:54-57 | sets the flag and nothing else |
| Feed.FeedRepository.AddMoreFeed | frontend/src/Feed/FeedRepository.ts:74-82 | the feed's TFA, if any, moves to the head of its articles and is cleared; those articles are appended after the earlier "load more" articles |
| Feed.FeedRepository.GetFeed | frontend/src/Feed/FeedRepository.ts:84-97 | empties the "load more" articles; ends with the current feed not loading even on a gateway error, which throws its message or "Unknown error"; sets the current feed only when the answer and the TFA pick both succeed |
| Feed.FeedRepository.GetMoreFeed | frontend/src/Feed/FeedRepository.ts:59-72 | a gateway error throws and leaves "loading more" set; on success the mapped feed's TFA and articles are appended and the flag is cleared |

## Left out

- The network is not modelled. The translation backend's HTTP client (`translateRequest`: FormData POST, status check, JSON body) is the oracle parameter `translate`. The Wikimedia `fetch` and the body's JSON reading are parameters of `WikipediaRequest`. The client's `ApiGateway` (fetch, JSON, `localStorage` read marks) is the `response` parameter of `GetFeed`/`GetMoreFeed`.
- The following are not modelled because they have no behaviour to prove: debug dumps with `fs.writeFileSync`, `console.error` logging, and the Redis cache service.
- `Promise.all` concurrency is not modelled. The per-field and per-item calls are independent, so they are a sequential map in list order.
- lodash `get`/`set` path parsing is not modelled. A property path such as `pages[0].titles.normalized` is an opaque key of a flat map from path to text. A missing path reads as the text "undefined", which is what JavaScript makes of it. A non-text value at a path is not modelled.
- Translation.TranslatePropertiesFromEn: only this method captures the in-place write into the English object. The slot deciders work on values, so they do not show that the English payload passed in is itself changed.
- Dates.IsValidDateIsCalendarDate: `new Date` is modelled only for the ISO date-only form "YYYY-MM-DD". Two other ISO inputs are refused here although the source accepts them. One is a day part that carries a time, such as "01T00:00Z". The other is the expanded year form, such as "+002024". `Dates.IsValidDate`, `App.GetFeed` and `Wikipedia.GetFeaturedContent` inherit this gap: they answer "Invalid date" where the source goes on.
- Dates.IsValidDate: inherits the date-only form of `new Date`; a day part with a time ("01T00:00Z") or an expanded year ("+002024") is refused here although the source accepts it.
- App.GetFeed: inherits the date-only form of the date check, so it answers "Invalid date" for a day part with a time or an expanded year, where the source goes on to the language check.
- Wikipedia.GetFeaturedContent: inherits the date-only form of the date check, so it answers "Invalid date" for a day part with a time or an expanded year, where the source sends the request.
- Dates.ParseInt: leading whitespace, a leading '+' or '-' sign and the radix argument are not modelled; `parseInt(" 7")`, `parseInt("+7")` and `parseInt("-7")` are 7, 7 and -7 in JavaScript but NaN here. The date check only passes parts that are all digits, so it is unaffected.
- The JavaScript `Date` is not modelled. Unpadded or otherwise non-ISO date texts, which V8 parses by engine-specific rules, are treated as Invalid Date. `parseInt`'s whitespace, sign and radix handling is not modelled. `toISOString`, `dateToFriendly` and `numberToLocaleString` are not modelled. Presentation dates are kept as their timestamp text.
- Feed.MapImageToArticule: the current time is a parameter rather than a read of the clock. Within one `mapToFeedPm` the image is mapped at most once: by `getTfaArticule` when there is no TFA, or by `getArticlesFromFeed` when there is one. A single `now` per mapping therefore loses nothing.
- Feed.FeedRepository.GetFeed and Feed.FeedRepository.GetMoreFeed: each runs to completion, whereas the source's async methods can interleave at their awaits, and the source leaves cancelling an earlier request as a to-do. The model does not capture, for instance, a `getMoreFeed` still in its two-second pause appending to a list that a later `getFeed` has cleared.
- Feed.FeedRepository.GetMoreFeed: the two-second `setTimeout` pause before mapping is not modelled.
- Feed lists: the feed data's `mostReadArticles` and `onThisDay` are always lists, as the gateway's type declares. A null list would make `getArticlesFromFeed`'s `map` throw; that case is not modelled.
- The following are not modelled: MobX observability, all `.tsx` views, the feed presenter, the test setup, configuration scripts and the module wiring.
- `getSupportedLanguages` of every backend service only returns the language table. The table is `Languages.WikipediaLanguages`.
- The `Badge` type's definition is not part of this model. It is imported from the route handler, which does not export it. A badge here is its `badge` label plus its other fields.

## Findings

| source | as written | input that shows it | evidently intended | confidence | as-written member | corrected member |
|---|---|---|---|---|---|---|
| backend/src/app.service.ts:28-36 | `getFeed` throws on an invalid date or language and returns a bare string, while the route handler (backend/src/app.controller.ts:21-25) reads `result.error` and `result.value` from it | `getFeed('en', 'bad', '01', '01')`: the handler's promise rejects instead of resolving with `{error: 'Invalid date', data: null}`; for `('en', '2024', '01', '01')` the handler answers with `data` undefined | `getFeed` returns a result object, so the handler answers every request with an error text or the summary as data, as its tests expect | not executed; high | App.HandlerAsWrittenMissesErrors | App.HandlerAnswersEveryRequest |
