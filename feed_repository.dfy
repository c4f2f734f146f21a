/**
 * Client-side feed assembly (frontend/src/Feed/FeedRepository.ts).
 *
 * A feed from the gateway becomes a presentation model: one featured item
 * (the TFA) picked by priority, plus an article list that interleaves the
 * most-read and on-this-day items. Picking the TFA from a list removes that
 * list's head in place, so the item is not listed twice. The repository keeps
 * the current feed, two loading flags and the list of "load more" articles.
 *
 * The gateway call is not modelled: its result is a parameter. The current
 * time that `new Date()` reads is a parameter `now`, given as its timestamp
 * text.
 */
module Feed {
  import opened Results
  import opened Errors

  /** A property that may be absent (`undefined`), present but `null`, or set. */
  datatype Nullish<+T> = Undefined | Null | Defined(value: T)

  datatype Thumbnail = Thumbnail(source: string, width: int, height: int)

  datatype Urls = Urls(desktop: string, mobile: string)

  /** An article of the gateway's feed; the optional properties may be absent. */
  datatype ArticleDto = ArticleDto(
    id: string,
    title: string,
    description: string,
    views: Option<int>,
    rank: Option<int>,
    thumbnail: Option<Thumbnail>,
    urls: Urls,
    timestamp: Option<string>)

  /** The `type` tag of a presentation article: 'tfa', 'image', 'most-read', 'on-this-day'. */
  datatype ArticleType = TfaArticle | ImageArticle | MostReadArticle | OnThisDayArticle

  /**
   * A JavaScript Date built from a timestamp text. `DateOf(t)` is `new Date(t)`
   * left unevaluated, so it is itself an Invalid Date when `t` is empty or not
   * a date; `InvalidDate` is `new Date(undefined)`.
   */
  datatype PmDate = DateOf(text: string) | InvalidDate

  /** A presentation article (`ArticulePM`). */
  datatype ArticulePm = ArticulePm(
    kind: ArticleType,
    title: string,
    url: Urls,
    thumbnailUrl: string,
    date: PmDate,
    views: Option<int>,
    description: string)

  const Placeholder := "/placeholder.svg"

  function ThumbnailUrl(thumbnail: Option<Thumbnail>): string
  {
    if thumbnail.Some? then thumbnail.value.source else Placeholder
  }

  function DateOfTimestamp(timestamp: Option<string>): PmDate
  {
    if timestamp.Some? then DateOf(timestamp.value) else InvalidDate
  }

  /** The TFA branch of `getTfaArticule`: a TFA article with the DTO's title, links, description and date, and no view count. */
  function MapTfaToArticule(tfa: ArticleDto): (a: ArticulePm)
    ensures a.kind == TfaArticle && a.title == tfa.title && a.url == tfa.urls && a.description == tfa.description
    ensures tfa.thumbnail.None? ==> a.thumbnailUrl == Placeholder
    ensures tfa.thumbnail.Some? ==> a.thumbnailUrl == tfa.thumbnail.value.source
    ensures a.views.None?
    ensures tfa.timestamp.None? ==> a.date == InvalidDate
    ensures tfa.timestamp.Some? ==> a.date == DateOf(tfa.timestamp.value)
  {
    ArticulePm(TfaArticle, tfa.title, tfa.urls, ThumbnailUrl(tfa.thumbnail), DateOfTimestamp(tfa.timestamp), None, tfa.description)
  }

  /** `mapImageToArticule`: an image article; an empty or missing timestamp dates the image now. */
  function MapImageToArticule(image: ArticleDto, now: string): (a: ArticulePm)
    ensures a.kind == ImageArticle && a.title == image.title && a.url == image.urls && a.description == image.description
    ensures image.thumbnail.None? ==> a.thumbnailUrl == Placeholder
    ensures image.thumbnail.Some? ==> a.thumbnailUrl == image.thumbnail.value.source
    ensures a.views.None?
    ensures image.timestamp.None? || image.timestamp.value == "" ==> a.date == DateOf(now)
    ensures image.timestamp.Some? && image.timestamp.value != "" ==> a.date == DateOf(image.timestamp.value)
  {
    var date := if image.timestamp.Some? && image.timestamp.value != "" then DateOf(image.timestamp.value) else DateOf(now);
    ArticulePm(ImageArticle, image.title, image.urls, ThumbnailUrl(image.thumbnail), date, None, image.description)
  }

  /** `mapMostReadToArticule`: a most-read article, the only kind that keeps its view count. */
  function MapMostReadToArticule(mostRead: ArticleDto): (a: ArticulePm)
    ensures a.kind == MostReadArticle && a.title == mostRead.title && a.url == mostRead.urls && a.description == mostRead.description
    ensures mostRead.thumbnail.None? ==> a.thumbnailUrl == Placeholder
    ensures mostRead.thumbnail.Some? ==> a.thumbnailUrl == mostRead.thumbnail.value.source
    ensures a.views == mostRead.views
    ensures mostRead.timestamp.None? ==> a.date == InvalidDate
    ensures mostRead.timestamp.Some? ==> a.date == DateOf(mostRead.timestamp.value)
  {
    ArticulePm(MostReadArticle, mostRead.title, mostRead.urls, ThumbnailUrl(mostRead.thumbnail),
      DateOfTimestamp(mostRead.timestamp), mostRead.views, mostRead.description)
  }

  /** `mapOnThisDayToArticule`: an on-this-day article with no view count. */
  function MapOnThisDayToArticule(event: ArticleDto): (a: ArticulePm)
    ensures a.kind == OnThisDayArticle && a.title == event.title && a.url == event.urls && a.description == event.description
    ensures event.thumbnail.None? ==> a.thumbnailUrl == Placeholder
    ensures event.thumbnail.Some? ==> a.thumbnailUrl == event.thumbnail.value.source
    ensures a.views.None?
    ensures event.timestamp.None? ==> a.date == InvalidDate
    ensures event.timestamp.Some? ==> a.date == DateOf(event.timestamp.value)
  {
    ArticulePm(OnThisDayArticle, event.title, event.urls, ThumbnailUrl(event.thumbnail),
      DateOfTimestamp(event.timestamp), None, event.description)
  }

  /** A snapshot of the feed's `data` object. */
  datatype FeedDataValue = FeedDataValue(
    tfa: Option<ArticleDto>,
    image: Nullish<ArticleDto>,
    mostReadArticles: seq<ArticleDto>,
    onThisDay: seq<ArticleDto>,
    lang: string,
    date: string)

  /** The feed's `data` object; the two lists are shifted in place when the TFA is picked from them. */
  class FeedData {
    const tfa: Option<ArticleDto>
    const image: Nullish<ArticleDto>
    const lang: string
    const date: string
    var mostReadArticles: seq<ArticleDto>
    var onThisDay: seq<ArticleDto>

    constructor (value: FeedDataValue)
      ensures Value() == value
    {
      tfa, image, lang, date := value.tfa, value.image, value.lang, value.date;
      mostReadArticles, onThisDay := value.mostReadArticles, value.onThisDay;
    }

    function Value(): FeedDataValue
      reads this
    {
      FeedDataValue(tfa, image, mostReadArticles, onThisDay, lang, date)
    }
  }

  /**
   * `useImageAsTFA`: no TFA and an image that is not null (an absent image
   * passes the test too). When it holds for a present image, that image is the
   * featured item; when it fails for a present image, there is a TFA.
   */
  predicate UseImageAsTfa(data: FeedDataValue)
    ensures UseImageAsTfa(data) && data.image.Defined? ==>
      forall now :: TfaOf(data, now) == Returned(MapImageToArticule(data.image.value, now))
    ensures !UseImageAsTfa(data) && data.image.Defined? ==> data.tfa.Some?
  {
    data.tfa.None? && !data.image.Null?
  }

  const NoTfaMessage := "Failed to load TFA"

  /** The featured item `getTfaArticule` picks: the TFA, else the image, else the first most-read, else the first on-this-day. */
  function TfaOf(data: FeedDataValue, now: string): Outcome<ArticulePm, Error>
  {
    if data.tfa.Some? then Returned(MapTfaToArticule(data.tfa.value))
    else if data.image.Defined? then Returned(MapImageToArticule(data.image.value, now))
    else if |data.mostReadArticles| > 0 then Returned(MapMostReadToArticule(data.mostReadArticles[0]))
    else if |data.onThisDay| > 0 then Returned(MapOnThisDayToArticule(data.onThisDay[0]))
    else Threw(Error(NoTfaMessage))
  }

  /** The feed data after `getTfaArticule`: the list the featured item came from has lost its head. */
  function AfterTfa(data: FeedDataValue): FeedDataValue
  {
    if data.tfa.Some? || data.image.Defined? then data
    else if |data.mostReadArticles| > 0 then data.(mostReadArticles := data.mostReadArticles[1..])
    else if |data.onThisDay| > 0 then data.(onThisDay := data.onThisDay[1..])
    else data
  }

  /**
   * `getTfaArticule`, which shifts the chosen list head out of the feed data.
   */
  method GetTfaArticule(data: FeedData, now: string) returns (r: Outcome<ArticulePm, Error>)
    modifies data
    ensures r == TfaOf(old(data.Value()), now)
    ensures data.Value() == AfterTfa(old(data.Value()))
  {
    if data.tfa.Some? {
      return Returned(MapTfaToArticule(data.tfa.value));
    }
    if data.image.Defined? {
      return Returned(MapImageToArticule(data.image.value, now));
    }
    if |data.mostReadArticles| > 0 {
      var first := data.mostReadArticles[0];
      data.mostReadArticles := data.mostReadArticles[1..];
      return Returned(MapMostReadToArticule(first));
    }
    if |data.onThisDay| > 0 {
      var first := data.onThisDay[0];
      data.onThisDay := data.onThisDay[1..];
      return Returned(MapOnThisDayToArticule(first));
    }
    return Threw(Error(NoTfaMessage));
  }

  function Rest<T>(s: seq<T>): seq<T>
  {
    if |s| > 0 then s[1..] else s
  }

  /** What one round of the interleaving loop pushes: the head of the first list, then the head of the second. */
  function Heads<T>(first: seq<T>, second: seq<T>): seq<T>
  {
    (if |first| > 0 then [first[0]] else []) + (if |second| > 0 then [second[0]] else [])
  }

  /**
   * The order `getArticlesFromFeed` lists two article lists in: alternately,
   * starting with the first, and once one list is used up the rest of the other.
   */
  function Interleave<T>(first: seq<T>, second: seq<T>): seq<T>
    decreases |first| + |second|
  {
    if |first| == 0 then second
    else if |second| == 0 then first
    else [first[0], second[0]] + Interleave(first[1..], second[1..])
  }

  /** One round of the loop: the two heads pushed, then the interleaving of what is left. */
  lemma InterleaveRound<T>(first: seq<T>, second: seq<T>)
    requires |first| > 0 || |second| > 0
    ensures Interleave(first, second) == Heads(first, second) + Interleave(Rest(first), Rest(second))
  {
    if |first| == 0 {
      assert second == [second[0]] + second[1..];
    } else if |second| == 0 {
      assert first == [first[0]] + first[1..];
    }
  }

  /** The interleaving neither loses nor duplicates anything: it is a permutation of the two lists together. */
  lemma {:induction false} InterleaveLength<T>(first: seq<T>, second: seq<T>)
    ensures |Interleave(first, second)| == |first| + |second|
    ensures multiset(Interleave(first, second)) == multiset(first) + multiset(second)
    decreases |first| + |second|
  {
    if |first| > 0 && |second| > 0 {
      InterleaveLength(first[1..], second[1..]);
      assert first == [first[0]] + first[1..];
      assert second == [second[0]] + second[1..];
    }
  }

  /** The interleaving alternates the two lists, starting with the first, for as long as both last. */
  lemma {:induction false} InterleaveAlternates<T>(first: seq<T>, second: seq<T>)
    ensures forall i :: 0 <= i < |first| && i < |second| ==>
      && 2 * i + 1 < |Interleave(first, second)|
      && Interleave(first, second)[2 * i] == first[i] && Interleave(first, second)[2 * i + 1] == second[i]
    decreases |first| + |second|
  {
    InterleaveLength(first, second);
    if |first| > 0 && |second| > 0 {
      var all, rest := Interleave(first, second), Interleave(first[1..], second[1..]);
      InterleaveAlternates(first[1..], second[1..]);
      forall i | 0 < i < |first| && i < |second|
        ensures all[2 * i] == first[i] && all[2 * i + 1] == second[i]
      {
        assert all[2 * i] == rest[2 * (i - 1)];
        assert all[2 * i + 1] == rest[2 * (i - 1) + 1];
      }
    }
  }

  /** After the shorter list runs out, the rest of the longer one follows in its own order. */
  lemma {:induction false} InterleaveTail<T>(first: seq<T>, second: seq<T>)
    ensures |first| >= |second| ==> (2 * |second| <= |Interleave(first, second)|
      && Interleave(first, second)[2 * |second|..] == first[|second|..])
    ensures |second| >= |first| ==> (2 * |first| <= |Interleave(first, second)|
      && Interleave(first, second)[2 * |first|..] == second[|first|..])
    decreases |first| + |second|
  {
    InterleaveLength(first, second);
    if |first| > 0 && |second| > 0 {
      var all, rest := Interleave(first, second), Interleave(first[1..], second[1..]);
      InterleaveTail(first[1..], second[1..]);
      assert all[2..] == rest;
      if |first| >= |second| {
        DropPastRound(all, rest, |second|);
      }
      if |second| >= |first| {
        DropPastRound(all, rest, |first|);
      }
    }
  }

  /** Past the first round, dropping `k` rounds of the whole is dropping `k - 1` rounds of the rest. */
  lemma DropPastRound<T>(all: seq<T>, rest: seq<T>, k: nat)
    requires 2 <= |all| && all[2..] == rest
    requires 1 <= k && 2 * k <= |all|
    ensures all[2 * k..] == rest[2 * (k - 1)..]
  {
  }

  function MostReadArticules(dtos: seq<ArticleDto>): seq<ArticulePm>
  {
    seq(|dtos|, i requires 0 <= i < |dtos| => MapMostReadToArticule(dtos[i]))
  }

  function OnThisDayArticules(dtos: seq<ArticleDto>): seq<ArticulePm>
  {
    seq(|dtos|, i requires 0 <= i < |dtos| => MapOnThisDayToArticule(dtos[i]))
  }

  /** The image slot of the article list: the image, unless it is absent, null or used as the TFA. */
  function ImageSlot(data: FeedDataValue, now: string): seq<ArticulePm>
  {
    if data.image.Defined? && !UseImageAsTfa(data) then [MapImageToArticule(data.image.value, now)] else []
  }

  /** The article list `getArticlesFromFeed` builds: the image slot, then most-read and on-this-day interleaved. */
  function ArticlesFor(data: FeedDataValue, now: string): seq<ArticulePm>
  {
    ImageSlot(data, now) + Interleave(MostReadArticules(data.mostReadArticles), OnThisDayArticules(data.onThisDay))
  }

  /**
   * `getArticlesFromFeed`: the mapped lists are consumed head by head, a
   * most-read article then an on-this-day article per round. The feed data
   * itself is left as it is.
   */
  method GetArticlesFromFeed(data: FeedData, now: string) returns (articules: seq<ArticulePm>)
    ensures articules == ArticlesFor(data.Value(), now)
  {
    articules := [];
    if data.image.Defined? && !UseImageAsTfa(data.Value()) {
      articules := articules + [MapImageToArticule(data.image.value, now)];
    }
    var onThisDayArticles := OnThisDayArticules(data.onThisDay);
    var mostReadArticles := MostReadArticules(data.mostReadArticles);
    while |onThisDayArticles| > 0 || |mostReadArticles| > 0
      invariant articules + Interleave(mostReadArticles, onThisDayArticles) == ArticlesFor(data.Value(), now)
      decreases |onThisDayArticles| + |mostReadArticles|
    {
      ghost var before := articules;
      ghost var heads := Heads(mostReadArticles, onThisDayArticles);
      ghost var later := Interleave(Rest(mostReadArticles), Rest(onThisDayArticles));
      InterleaveRound(mostReadArticles, onThisDayArticles);
      assert before + heads + later == before + (heads + later);
      if |mostReadArticles| > 0 {
        articules := articules + [mostReadArticles[0]];
        mostReadArticles := mostReadArticles[1..];
      }
      if |onThisDayArticles| > 0 {
        articules := articules + [onThisDayArticles[0]];
        onThisDayArticles := onThisDayArticles[1..];
      }
      assert articules == before + heads;
    }
  }

  /** A snapshot of a presentation feed (`FeedPm`). */
  datatype FeedPmValue = FeedPmValue(date: PmDate, lang: string, tfa: Option<ArticulePm>, articles: seq<ArticulePm>)

  /** `mapToFeedPm`: the TFA is picked first, so the article list is built from what the pick left. */
  function FeedPmFor(data: FeedDataValue, now: string): Outcome<FeedPmValue, Error>
  {
    match TfaOf(data, now)
    case Threw(e) => Threw(e)
    case Returned(tfa) => Returned(FeedPmValue(DateOf(data.date), data.lang, Some(tfa), ArticlesFor(AfterTfa(data), now)))
  }

  /** A presentation feed; `addMoreFeed` rewrites its two fields. */
  class FeedPm {
    const date: PmDate
    const lang: string
    var tfa: Option<ArticulePm>
    var articles: seq<ArticulePm>

    constructor (value: FeedPmValue)
      ensures Value() == value
    {
      date, lang, tfa, articles := value.date, value.lang, value.tfa, value.articles;
    }

    function Value(): FeedPmValue
      reads this
    {
      FeedPmValue(date, lang, tfa, articles)
    }
  }

  /** `mapToFeedPm` on the feed data object, which the TFA pick mutates. */
  method MapToFeedPm(data: FeedData, now: string) returns (r: Outcome<FeedPm, Error>)
    modifies data
    ensures var spec := FeedPmFor(old(data.Value()), now);
      && (r.Threw? <==> spec.Threw?)
      && (r.Threw? ==> r.thrown == spec.thrown)
      && (r.Returned? ==> fresh(r.value) && r.value.Value() == spec.value)
    ensures data.Value() == AfterTfa(old(data.Value()))
  {
    var date := DateOf(data.date);
    var tfa := GetTfaArticule(data, now);
    if tfa.Threw? {
      return Threw(tfa.thrown);
    }
    var articles := GetArticlesFromFeed(data, now);
    var feedPm := new FeedPm(FeedPmValue(date, data.lang, Some(tfa.value), articles));
    return Returned(feedPm);
  }

  /** Every item of the feed data is counted once. */
  function ItemCount(data: FeedDataValue): nat
  {
    (if data.tfa.Some? then 1 else 0) + (if data.image.Defined? then 1 else 0)
      + |data.mostReadArticles| + |data.onThisDay|
  }

  /** The articles a presentation feed contributes to "load more": the TFA first, if any, then the list. */
  function Flatten(feedPm: FeedPmValue): seq<ArticulePm>
  {
    (if feedPm.tfa.Some? then [feedPm.tfa.value] else []) + feedPm.articles
  }

  /** Every item of the feed data, mapped, as often as the data holds it. */
  function AllItems(data: FeedDataValue, now: string): multiset<ArticulePm>
  {
    (if data.tfa.Some? then multiset{MapTfaToArticule(data.tfa.value)} else multiset{})
      + (if data.image.Defined? then multiset{MapImageToArticule(data.image.value, now)} else multiset{})
      + multiset(MostReadArticules(data.mostReadArticles)) + multiset(OnThisDayArticules(data.onThisDay))
  }

  /**
   * Mapping a feed shows every item exactly as often as the data holds it: the
   * item picked as TFA is not listed again, and nothing else is dropped.
   */
  lemma FeedPmAccountsForEveryItem(data: FeedDataValue, now: string)
    requires FeedPmFor(data, now).Returned?
    ensures |Flatten(FeedPmFor(data, now).value)| == ItemCount(data)
    ensures multiset(Flatten(FeedPmFor(data, now).value)) == AllItems(data, now)
  {
    var after := AfterTfa(data);
    ArticlesForItems(after, now);
    if data.tfa.None? && !data.image.Defined? {
      if |data.mostReadArticles| > 0 {
        MostReadHead(data.mostReadArticles);
      } else {
        OnThisDayHead(data.onThisDay);
      }
    }
  }

  /** The article list holds the image slot and both mapped lists, each item once. */
  lemma ArticlesForItems(data: FeedDataValue, now: string)
    ensures |ArticlesFor(data, now)| == |ImageSlot(data, now)| + |data.mostReadArticles| + |data.onThisDay|
    ensures multiset(ArticlesFor(data, now)) == multiset(ImageSlot(data, now))
      + multiset(MostReadArticules(data.mostReadArticles)) + multiset(OnThisDayArticules(data.onThisDay))
  {
    InterleaveLength(MostReadArticules(data.mostReadArticles), OnThisDayArticules(data.onThisDay));
  }

  lemma MostReadHead(dtos: seq<ArticleDto>)
    requires |dtos| > 0
    ensures MostReadArticules(dtos) == [MapMostReadToArticule(dtos[0])] + MostReadArticules(dtos[1..])
  {
  }

  lemma OnThisDayHead(dtos: seq<ArticleDto>)
    requires |dtos| > 0
    ensures OnThisDayArticules(dtos) == [MapOnThisDayToArticule(dtos[0])] + OnThisDayArticules(dtos[1..])
  {
  }

  /** Feed data with no item at all has no TFA, and that is the only way to fail. */
  lemma NoTfaOnlyWhenEmpty(data: FeedDataValue, now: string)
    ensures FeedPmFor(data, now).Threw? <==> ItemCount(data) == 0
    ensures FeedPmFor(data, now).Threw? ==> FeedPmFor(data, now).thrown == Error(NoTfaMessage)
  {
  }

  /** Interleaved most-read and on-this-day articles hold no image. */
  lemma MixedHasNoImage(mostRead: seq<ArticleDto>, onThisDay: seq<ArticleDto>)
    ensures forall a :: a in Interleave(MostReadArticules(mostRead), OnThisDayArticules(onThisDay)) ==> a.kind != ImageArticle
  {
    var first, second := MostReadArticules(mostRead), OnThisDayArticules(onThisDay);
    var mixed := Interleave(first, second);
    InterleaveLength(first, second);
    forall a | a in mixed
      ensures a.kind != ImageArticle
    {
      assert a in multiset(mixed);
      assert a in multiset(first) || a in multiset(second);
      assert a in first || a in second;
    }
  }

  /** The image is the TFA exactly when there is no TFA and the image is set. */
  lemma ImageIsTfa(data: FeedDataValue, now: string)
    requires FeedPmFor(data, now).Returned?
    ensures FeedPmFor(data, now).value.tfa.value.kind == ImageArticle <==> data.tfa.None? && data.image.Defined?
  {
  }

  /**
   * The image is listed among the articles exactly when both the TFA and the
   * image are set, and then it comes first.
   */
  lemma ImageListed(data: FeedDataValue, now: string)
    requires FeedPmFor(data, now).Returned?
    ensures var articles := FeedPmFor(data, now).value.articles;
      && ((exists i :: 0 <= i < |articles| && articles[i].kind == ImageArticle) <==> data.tfa.Some? && data.image.Defined?)
      && (data.tfa.Some? && data.image.Defined? ==> articles[0] == MapImageToArticule(data.image.value, now))
  {
    var articles := FeedPmFor(data, now).value.articles;
    var after := AfterTfa(data);
    var slot := ImageSlot(after, now);
    var mixed := Interleave(MostReadArticules(after.mostReadArticles), OnThisDayArticules(after.onThisDay));
    MixedHasNoImage(after.mostReadArticles, after.onThisDay);
    assert articles == slot + mixed;
    assert after.tfa == data.tfa && after.image == data.image;
    if data.tfa.Some? && data.image.Defined? {
      assert articles[0].kind == ImageArticle;
    }
  }

  /** The gateway's error: an `ApiError` whose message may be missing. */
  datatype GatewayError = GatewayError(message: Option<string>)

  /** `error.message ?? 'Unknown error'`. */
  function ThrownFor(error: GatewayError): Error
  {
    Error(if error.message.Some? then error.message.value else "Unknown error")
  }

  /** The objects the gateway's answer hands over: the feed data, when there is one. */
  function Handed(response: Result<FeedData, GatewayError>): set<object>
  {
    if response.Ok? then {response.value} else {}
  }

  /** The feed store behind the feed screen. */
  class FeedRepository {
    var currentFeedPm: Option<FeedPm>
    var loadingCurrentFeed: bool
    var loadingMoreFeed: bool
    var morefeedArticles: seq<ArticulePm>

    /** A fresh repository: no feed, loading the current feed, not loading more, nothing loaded more. */
    constructor ()
      ensures currentFeedPm.None? && loadingCurrentFeed && !loadingMoreFeed && morefeedArticles == []
    {
      currentFeedPm := None;
      loadingCurrentFeed := true;
      loadingMoreFeed := false;
      morefeedArticles := [];
    }

    method SetCurrentFeedPm(feedPm: FeedPm)
      modifies this
      ensures currentFeedPm == Some(feedPm)
      ensures loadingCurrentFeed == old(loadingCurrentFeed) && loadingMoreFeed == old(loadingMoreFeed)
      ensures morefeedArticles == old(morefeedArticles)
    {
      currentFeedPm := Some(feedPm);
    }

    method SetLoadingCurrentFeed(value: bool)
      modifies this
      ensures loadingCurrentFeed == value
      ensures currentFeedPm == old(currentFeedPm) && loadingMoreFeed == old(loadingMoreFeed)
      ensures morefeedArticles == old(morefeedArticles)
    {
      loadingCurrentFeed := value;
    }

    method SetLoadingMoreFeed(value: bool)
      modifies this
      ensures loadingMoreFeed == value
      ensures currentFeedPm == old(currentFeedPm) && loadingCurrentFeed == old(loadingCurrentFeed)
      ensures morefeedArticles == old(morefeedArticles)
    {
      loadingMoreFeed := value;
    }

    /**
     * `addMoreFeed`: the feed's TFA, if any, is moved to the head of its
     * article list, and the list is appended to the "load more" articles.
     */
    method AddMoreFeed(feedPm: FeedPm)
      modifies this, feedPm
      ensures feedPm.tfa.None?
      ensures feedPm.articles == Flatten(old(feedPm.Value()))
      ensures morefeedArticles == old(morefeedArticles) + Flatten(old(feedPm.Value()))
      ensures currentFeedPm == old(currentFeedPm)
      ensures loadingCurrentFeed == old(loadingCurrentFeed) && loadingMoreFeed == old(loadingMoreFeed)
    {
      if feedPm.tfa.Some? {
        feedPm.articles := [feedPm.tfa.value] + feedPm.articles;
        feedPm.tfa := None;
      }
      morefeedArticles := morefeedArticles + feedPm.articles;
    }

    /**
     * `getFeed`: clears the "load more" articles, awaits the gateway, stops
     * loading whatever the answer, and sets the current feed only when both
     * the answer and the TFA pick succeed.
     */
    method GetFeed(response: Result<FeedData, GatewayError>, now: string) returns (r: Outcome<(), Error>)
      modifies this, Handed(response)
      ensures !loadingCurrentFeed && loadingMoreFeed == old(loadingMoreFeed)
      ensures morefeedArticles == []
      ensures response.Err? ==> r == Threw(ThrownFor(response.error)) && currentFeedPm == old(currentFeedPm)
      ensures response.Ok? ==>
        var spec := FeedPmFor(old(response.value.Value()), now);
        && response.value.Value() == AfterTfa(old(response.value.Value()))
        && (spec.Threw? ==> r == Threw(spec.thrown) && currentFeedPm == old(currentFeedPm))
        && (spec.Returned? ==> (r == Returned(())
              && currentFeedPm.Some? && fresh(currentFeedPm.value) && currentFeedPm.value.Value() == spec.value))
    {
      SetLoadingCurrentFeed(true);
      morefeedArticles := [];
      SetLoadingCurrentFeed(false);
      if response.Err? {
        return Threw(ThrownFor(response.error));
      }
      var feedPm := MapToFeedPm(response.value, now);
      if feedPm.Threw? {
        return Threw(feedPm.thrown);
      }
      SetCurrentFeedPm(feedPm.value);
      return Returned(());
    }

    /**
     * `getMoreFeed`: marks "loading more", awaits the gateway, and on success
     * appends the mapped feed and clears the flag. A failure throws and leaves
     * the flag set.
     */
    method GetMoreFeed(response: Result<FeedData, GatewayError>, now: string) returns (r: Outcome<(), Error>)
      modifies this, Handed(response)
      ensures currentFeedPm == old(currentFeedPm) && loadingCurrentFeed == old(loadingCurrentFeed)
      ensures response.Err? ==> (r == Threw(ThrownFor(response.error)) && loadingMoreFeed
        && morefeedArticles == old(morefeedArticles))
      ensures response.Ok? ==>
        var spec := FeedPmFor(old(response.value.Value()), now);
        && response.value.Value() == AfterTfa(old(response.value.Value()))
        && (spec.Threw? ==> r == Threw(spec.thrown) && loadingMoreFeed && morefeedArticles == old(morefeedArticles))
        && (spec.Returned? ==> (r == Returned(()) && !loadingMoreFeed
              && morefeedArticles == old(morefeedArticles) + Flatten(spec.value)))
    {
      SetLoadingMoreFeed(true);
      if response.Err? {
        return Threw(ThrownFor(response.error));
      }
      var feedPm := MapToFeedPm(response.value, now);
      if feedPm.Threw? {
        return Threw(feedPm.thrown);
      }
      AddMoreFeed(feedPm.value);
      SetLoadingMoreFeed(false);
      return Returned(());
    }
  }
}
