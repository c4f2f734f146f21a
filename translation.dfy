/**
 * The translation-fallback engine (backend/src/translate.service.ts).
 *
 * For each content slot of a featured-content payload the engine keeps the
 * target-language value when there is one, otherwise translates a fixed list
 * of text fields of the English value, otherwise gives null. The translation
 * backend is an oracle from (text, target language) to a result; the source
 * language is always English. `Promise.all` fan-outs are independent calls and
 * are modelled as sequential maps.
 */
module Translation {
  import opened Results
  import opened Errors
  import opened Strings
  import opened Wikipedia

  /** An entry of the service's own language list. */
  datatype ServiceLanguage = ServiceLanguage(localName: string, name: string, code: string)

  /** The languages the translation backend is known to serve. */
  const TranslationLanguages: seq<ServiceLanguage> := [
    ServiceLanguage("English", "English", "en"),
    ServiceLanguage("Español", "Spanish", "es"),
    ServiceLanguage("中文", "Chinese", "zh"),
    ServiceLanguage("Suomi", "Finnish", "fi"),
    ServiceLanguage("עברית", "Hebrew", "he"),
    ServiceLanguage("Русский", "Russian", "ru"),
    ServiceLanguage("العربية", "Arabic", "ar"),
    ServiceLanguage("Azərbaycanca", "Azerbaijani", "az"),
    ServiceLanguage("Български", "Bulgarian", "bg"),
    ServiceLanguage("বাংলা", "Bengali", "bn"),
    ServiceLanguage("Català", "Catalan", "ca"),
    ServiceLanguage("Čeština", "Czech", "cs"),
    ServiceLanguage("Dansk", "Danish", "da")
  ]

  /** The codes of the service's list, in list order. */
  const TranslationCodes: seq<string> := ["en", "es", "zh", "fi", "he", "ru", "ar", "az", "bg", "bn", "ca", "cs", "da"]

  lemma CodesOfTranslationLanguages()
    ensures |TranslationLanguages| == |TranslationCodes|
    ensures forall i :: 0 <= i < |TranslationCodes| ==> TranslationLanguages[i].code == TranslationCodes[i]
  {
  }

  /**
   * `isSupportedLanguage`: some entry of the service's list has this code,
   * which holds exactly for the thirteen codes of that list.
   */
  predicate IsSupportedLanguage(lang: string)
    ensures IsSupportedLanguage(lang) <==> lang in TranslationCodes
  {
    CodesOfTranslationLanguages();
    exists i :: 0 <= i < |TranslationLanguages| && TranslationLanguages[i].code == lang
  }

  /** The list differs from the feed's language table: Azerbaijani is translated but has no feed, German has a feed but is not translated. */
  lemma TranslationListDiffersFromFeedList()
    ensures IsSupportedLanguage("az") && "az" !in SupportedLanguages
    ensures !IsSupportedLanguage("de") && "de" in SupportedLanguages
  {
    Languages.WikipediaCodes();
  }

  /** The translation backend: text and target language to a translation or an error. */
  type Translator = (string, string) -> Result<string, Error>

  /** The test stub of the backend: it appends "-" and the language. */
  function StubTranslate(text: string, lang: string): (r: Result<string, Error>)
    ensures r == Ok(text + "-" + lang)
  {
    Ok(text + "-" + lang)
  }

  /** The text a property path reads in an item; a missing path reads as JavaScript's `undefined`. */
  function TextAt(item: Item, path: string): string
  {
    if path in item then item[path] else "undefined"
  }

  /** The translation of every listed path of the source, in list order. */
  function Translations(source: Item, paths: seq<string>, to: string, translate: Translator): seq<Result<string, Error>>
  {
    seq(|paths|, i requires 0 <= i < |paths| => translate(TextAt(source, paths[i]), to))
  }

  predicate AllOk<T>(rs: seq<Result<T, Error>>)
  {
    forall i :: 0 <= i < |rs| ==> rs[i].Ok?
  }

  function Values<T>(rs: seq<Result<T, Error>>): seq<T>
    requires AllOk(rs)
  {
    seq(|rs|, i requires 0 <= i < |rs| => rs[i].value)
  }

  /**
   * The error texts of a batch, each failure as `String(error)` and each
   * success as the empty string that `join` makes of null, separated by ", ".
   */
  function Details<T>(rs: seq<Result<T, Error>>): string
  {
    Join(seq(|rs|, i requires 0 <= i < |rs| => if rs[i].Err? then Describe(rs[i].error) else ""), ", ")
  }

  /** The forEach of `setProp` calls: each path in turn is set to its value, so a later write to the same path wins. */
  function WriteAll(fields: Item, paths: seq<string>, values: seq<string>): Item
    requires |paths| == |values|
    decreases |paths|
  {
    if |paths| == 0 then fields
    else WriteAll(fields, paths[..|paths| - 1], values[..|values| - 1])[paths[|paths| - 1] := values[|values| - 1]]
  }

  /** After the writes, a path holds the value of its last write; every other field is as before. */
  lemma {:induction false} WriteAllFields(fields: Item, paths: seq<string>, values: seq<string>, k: string)
    requires |paths| == |values|
    ensures k in WriteAll(fields, paths, values) <==> k in fields || k in paths
    ensures k !in paths && k in fields ==> WriteAll(fields, paths, values)[k] == fields[k]
    ensures forall j :: 0 <= j < |paths| && paths[j] == k && k !in paths[j + 1..] ==>
      WriteAll(fields, paths, values)[k] == values[j]
    decreases |paths|
  {
    if |paths| > 0 {
      var n := |paths| - 1;
      WriteAllFields(fields, paths[..n], values[..n], k);
      assert paths == paths[..n] + [paths[n]];
      forall j | 0 <= j < |paths| && paths[j] == k && k !in paths[j + 1..]
        ensures WriteAll(fields, paths, values)[k] == values[j]
      {
        if j < n {
          assert paths[n] in paths[j + 1..];
          assert paths[..n][j + 1..] == paths[j + 1..n];
          assert k !in paths[..n][j + 1..];
        }
      }
    }
  }

  /**
   * What `translatePropertiesFromEn` computes: every listed path is
   * translated from its English text; if any translation fails the result is
   * a `TranslationApiError` listing the failures, otherwise the item with
   * every listed path set to its translation.
   */
  function TranslatedFromEn(source: Item, paths: seq<string>, to: string, translate: Translator): (r: Result<Item, Error>)
    ensures r.Ok? <==> forall i :: 0 <= i < |paths| ==> translate(TextAt(source, paths[i]), to).Ok?
    ensures r.Err? ==> (r.error.ApiError? && r.error.code == "TRANSLATION_API_ERROR"
      && r.error.message == "Failed to translate properties. Details: " + Details(Translations(source, paths, to, translate)))
  {
    var ts := Translations(source, paths, to, translate);
    assert forall i :: 0 <= i < |paths| ==> ts[i] == translate(TextAt(source, paths[i]), to);
    if !AllOk(ts) then Err(TranslationApiError("Failed to translate properties. Details: " + Details(ts)))
    else Ok(WriteAll(source, paths, Values(ts)))
  }

  /** A successful translation changes exactly the listed paths: each holds the translation of its own English text. */
  lemma TranslatedFields(source: Item, paths: seq<string>, to: string, translate: Translator, k: string)
    requires TranslatedFromEn(source, paths, to, translate).Ok?
    ensures var fields := TranslatedFromEn(source, paths, to, translate).value;
      && (k in fields <==> k in source || k in paths)
      && (k !in paths && k in source ==> fields[k] == source[k])
      && (k in paths ==> fields[k] == translate(TextAt(source, k), to).value)
  {
    var ts := Translations(source, paths, to, translate);
    WriteAllFields(source, paths, Values(ts), k);
    if k in paths {
      var j := LastIndexOf(paths, k);
      assert Values(ts)[j] == translate(TextAt(source, k), to).value;
    }
  }

  /** Every listed path of `item` holds the successful translation of that path's text in `source`. */
  predicate HasTranslatedPaths(item: Item, source: Item, paths: seq<string>, to: string, translate: Translator)
  {
    forall k :: k in paths ==>
      k in item && translate(TextAt(source, k), to).Ok? && item[k] == translate(TextAt(source, k), to).value
  }

  /** After a successful translation every listed path is present and holds its translation. */
  lemma TranslatedPaths(source: Item, paths: seq<string>, to: string, translate: Translator)
    requires TranslatedFromEn(source, paths, to, translate).Ok?
    ensures HasTranslatedPaths(TranslatedFromEn(source, paths, to, translate).value, source, paths, to, translate)
  {
    forall k | k in paths
      ensures var fields := TranslatedFromEn(source, paths, to, translate).value;
        k in fields && translate(TextAt(source, k), to).Ok? && fields[k] == translate(TextAt(source, k), to).value
    {
      TranslatedFields(source, paths, to, translate, k);
    }
  }

  /** The last position at which a path occurs in the list. */
  function LastIndexOf(paths: seq<string>, k: string): (j: nat)
    requires k in paths
    ensures j < |paths| && paths[j] == k && k !in paths[j + 1..]
  {
    if paths[|paths| - 1] == k then |paths| - 1
    else
      var j := LastIndexOf(paths[..|paths| - 1], k);
      assert paths[j + 1..] == paths[..|paths| - 1][j + 1..] + [paths[|paths| - 1]];
      j
  }

  /** With the stub backend every translation succeeds and each listed path becomes its English text followed by "-" and the language. */
  lemma StubTranslatedFields(source: Item, paths: seq<string>, to: string, k: string)
    ensures TranslatedFromEn(source, paths, to, StubTranslate).Ok?
    ensures k in paths ==> (k in TranslatedFromEn(source, paths, to, StubTranslate).value
      && TranslatedFromEn(source, paths, to, StubTranslate).value[k] == TextAt(source, k) + "-" + to)
  {
    TranslatedFields(source, paths, to, StubTranslate, k);
  }

  /** A JavaScript object whose properties the engine rewrites in place. */
  class ItemObject {
    var fields: Item

    constructor (fields: Item)
      ensures this.fields == fields
    {
      this.fields := fields;
    }
  }

  /**
   * `translatePropertiesFromEn`: translate every listed path (first loop),
   * give up with an error if any failed, otherwise write every translation
   * into the source object (second loop) and return that same object.
   */
  method TranslatePropertiesFromEn(source: ItemObject, paths: seq<string>, to: string, translate: Translator)
    returns (r: Result<ItemObject, Error>)
    modifies source
    ensures var spec := TranslatedFromEn(old(source.fields), paths, to, translate);
      && (spec.Ok? ==> r == Ok(source) && source.fields == spec.value)
      && (spec.Err? ==> r == Err(spec.error) && source.fields == old(source.fields))
  {
    var translated: seq<Result<string, Error>> := [];
    var i := 0;
    while i < |paths|
      invariant 0 <= i <= |paths|
      invariant translated == Translations(source.fields, paths[..i], to, translate)
    {
      translated := translated + [translate(TextAt(source.fields, paths[i]), to)];
      i := i + 1;
    }
    assert paths[..i] == paths;
    var failed := exists j | 0 <= j < |translated| :: translated[j].Err?;
    if failed {
      return Err(TranslationApiError("Failed to translate properties. Details: " + Details(translated)));
    }
    var values := Values(translated);
    ghost var original := source.fields;
    i := 0;
    while i < |paths|
      invariant 0 <= i <= |paths|
      invariant source.fields == WriteAll(original, paths[..i], values[..i])
    {
      assert paths[..i + 1][..i] == paths[..i];
      assert values[..i + 1][..i] == values[..i];
      source.fields := source.fields[paths[i] := values[i]];
      i := i + 1;
    }
    assert paths[..i] == paths && values[..i] == values;
    return Ok(source);
  }

  const TfaFields := ["titles.normalized", "normalizedtitle", "extract", "description"]
  const ImageFields := ["description.text"]
  const MostReadFields := ["titles.normalized", "description", "extract"]
  const OnThisDayFields := ["text", "pages[0].titles.normalized"]
  const NewsFields := ["links[0].normalizedtitle", "links[0].titles.normalized", "links[0].extract"]

  /**
   * `translateContentProperties` for an object slot: a present target value
   * wins; a missing English value or an unsupported language gives null;
   * otherwise the English value is translated on the listed paths.
   */
  function TranslateContentProperties(target: Option<Item>, en: Option<Item>, lang: string, paths: seq<string>, translate: Translator)
    : (r: Result<Option<Item>, Error>)
    ensures target.Some? ==> r == Ok(target)
    ensures target.None? && (en.None? || !IsSupportedLanguage(lang)) ==> r == Ok(None)
    ensures target.None? && en.Some? && IsSupportedLanguage(lang) ==>
      var translated := TranslatedFromEn(en.value, paths, lang, translate);
      && (r.Ok? <==> translated.Ok?)
      && (r.Ok? ==> r.value == Some(translated.value))
      && (r.Err? ==> r.error == translated.error)
  {
    if target.Some? then Ok(target)
    else if en.None? || !IsSupportedLanguage(lang) then Ok(None)
    else
      match TranslatedFromEn(en.value, paths, lang, translate)
      case Ok(item) => Ok(Some(item))
      case Err(e) => Err(e)
  }

  /**
   * `translateTfa`: the target's featured article if it has one; otherwise the
   * English one with its title, normalized title, extract and description
   * translated, or null when there is none or the language is not served.
   */
  function TranslateTfa(target: FeaturedContent, en: FeaturedContent, lang: string, translate: Translator)
    : (r: Result<Option<Item>, Error>)
    ensures target.tfa.Some? ==> r == Ok(target.tfa)
    ensures target.tfa.None? && (en.tfa.None? || !IsSupportedLanguage(lang)) ==> r == Ok(None)
    ensures r.Err? ==> r.error.ApiError? && r.error.code == "TRANSLATION_API_ERROR"
    ensures target.tfa.None? && r.Ok? && r.value.Some? ==>
      (en.tfa.Some? && HasTranslatedPaths(r.value.value, en.tfa.value, TfaFields, lang, translate))
  {
    ContentSlotPaths(target.tfa, en.tfa, lang, TfaFields, translate);
    TranslateContentProperties(target.tfa, en.tfa, lang, TfaFields, translate)
  }

  /**
   * `translateImage`: the target's picture of the day if it has one; otherwise
   * the English one with its description text translated, or null when there
   * is none or the language is not served.
   */
  function TranslateImage(target: FeaturedContent, en: FeaturedContent, lang: string, translate: Translator)
    : (r: Result<Option<Item>, Error>)
    ensures target.image.Some? ==> r == Ok(target.image)
    ensures target.image.None? && (en.image.None? || !IsSupportedLanguage(lang)) ==> r == Ok(None)
    ensures r.Err? ==> r.error.ApiError? && r.error.code == "TRANSLATION_API_ERROR"
    ensures target.image.None? && r.Ok? && r.value.Some? ==>
      (en.image.Some? && HasTranslatedPaths(r.value.value, en.image.value, ImageFields, lang, translate))
  {
    ContentSlotPaths(target.image, en.image, lang, ImageFields, translate);
    TranslateContentProperties(target.image, en.image, lang, ImageFields, translate)
  }

  /**
   * A translated object slot is the English value with exactly the slot's
   * fields replaced by their translations; when the target value is present
   * or the language unsupported, the backend is never consulted.
   */
  lemma ContentSlotFields(target: Option<Item>, en: Option<Item>, lang: string, paths: seq<string>, translate: Translator, k: string)
    requires target.None? && en.Some? && IsSupportedLanguage(lang)
    requires TranslateContentProperties(target, en, lang, paths, translate).Ok?
    ensures var r := TranslateContentProperties(target, en, lang, paths, translate).value;
      && r.Some?
      && (k in r.value <==> k in en.value || k in paths)
      && (k !in paths && k in en.value ==> r.value[k] == en.value[k])
      && (k in paths ==> r.value[k] == translate(TextAt(en.value, k), lang).value)
  {
    TranslatedFields(en.value, paths, lang, translate, k);
  }

  /** Without translating there is no call: two backends give the same slot. */
  lemma ContentSlotWithoutCall(target: Option<Item>, en: Option<Item>, lang: string, paths: seq<string>, t1: Translator, t2: Translator)
    requires target.Some? || en.None? || !IsSupportedLanguage(lang)
    ensures TranslateContentProperties(target, en, lang, paths, t1) == TranslateContentProperties(target, en, lang, paths, t2)
  {
  }

  /**
   * A batch of item translations (one `translate*Article` or
   * `translateOnThisDayEvent` per item): the translated items in the same
   * order, or one error naming what failed and carrying every item's error.
   */
  function TranslateAll(items: seq<Item>, paths: seq<string>, what: string, lang: string, translate: Translator)
    : (r: Result<seq<Item>, Error>)
    ensures r.Ok? <==> forall i :: 0 <= i < |items| ==> TranslatedFromEn(items[i], paths, lang, translate).Ok?
    ensures r.Ok? ==> (|r.value| == |items|
      && forall i :: 0 <= i < |items| ==> r.value[i] == TranslatedFromEn(items[i], paths, lang, translate).value)
    ensures r.Err? ==> (r.error.ApiError? && r.error.code == "TRANSLATION_API_ERROR"
      && r.error.message == BatchFailedPrefix(what) + Details(ItemResults(items, paths, lang, translate)))
  {
    var rs := ItemResults(items, paths, lang, translate);
    assert forall i :: 0 <= i < |items| ==> rs[i] == TranslatedFromEn(items[i], paths, lang, translate);
    if !AllOk(rs) then Err(TranslationApiError(BatchFailedPrefix(what) + Details(rs)))
    else Ok(Values(rs))
  }

  /** The head of a batch's error message, naming what failed to translate. */
  function BatchFailedPrefix(what: string): string
  {
    "Failed to translate " + what + ". Details: "
  }

  function ItemResults(items: seq<Item>, paths: seq<string>, lang: string, translate: Translator): seq<Result<Item, Error>>
  {
    seq(|items|, i requires 0 <= i < |items| => TranslatedFromEn(items[i], paths, lang, translate))
  }

  /**
   * `translateOnThisDay` and `translateNews`: a non-empty target list wins; a
   * missing or empty English list, or an unsupported language, gives null;
   * otherwise every English item is translated on the listed paths.
   */
  function TranslateList(target: Option<seq<Item>>, en: Option<seq<Item>>, lang: string, paths: seq<string>, what: string, translate: Translator)
    : (r: Result<Option<seq<Item>>, Error>)
    ensures target.Some? && |target.value| > 0 ==> r == Ok(target)
    ensures !(target.Some? && |target.value| > 0) && (en.None? || |en.value| == 0 || !IsSupportedLanguage(lang)) ==> r == Ok(None)
    ensures !(target.Some? && |target.value| > 0) && en.Some? && |en.value| > 0 && IsSupportedLanguage(lang) ==>
      var translated := TranslateAll(en.value, paths, what, lang, translate);
      && (r.Ok? <==> translated.Ok?)
      && (r.Ok? ==> r.value == Some(translated.value))
      && (r.Err? ==> r.error == translated.error)
  {
    if target.Some? && |target.value| > 0 then Ok(target)
    else if en.None? || |en.value| == 0 || !IsSupportedLanguage(lang) then Ok(None)
    else
      match TranslateAll(en.value, paths, what, lang, translate)
      case Ok(items) => Ok(Some(items))
      case Err(e) => Err(e)
  }

  /**
   * `translateOnThisDay`: the target's events if it has any; otherwise every
   * English event with its text and first page title translated, or null.
   */
  function TranslateOnThisDay(target: FeaturedContent, en: FeaturedContent, lang: string, translate: Translator)
    : (r: Result<Option<seq<Item>>, Error>)
    ensures target.onthisday.Some? && |target.onthisday.value| > 0 ==> r == Ok(target.onthisday)
    ensures (!(target.onthisday.Some? && |target.onthisday.value| > 0)
      && (en.onthisday.None? || |en.onthisday.value| == 0 || !IsSupportedLanguage(lang))) ==> r == Ok(None)
    ensures r.Err? ==> (r.error.ApiError? && r.error.code == "TRANSLATION_API_ERROR"
      && BatchFailedPrefix("on this day events") <= r.error.message)
    ensures !(target.onthisday.Some? && |target.onthisday.value| > 0) && r.Ok? && r.value.Some? ==>
      (en.onthisday.Some? && |r.value.value| == |en.onthisday.value|
      && forall i :: 0 <= i < |en.onthisday.value| ==>
        HasTranslatedPaths(r.value.value[i], en.onthisday.value[i], OnThisDayFields, lang, translate))
  {
    ListSlotPaths(target.onthisday, en.onthisday, lang, OnThisDayFields, "on this day events", translate);
    TranslateList(target.onthisday, en.onthisday, lang, OnThisDayFields, "on this day events", translate)
  }

  /**
   * `translateNews`: the target's news if it has any; otherwise every English
   * article with the three fields of its first link translated, or null.
   */
  function TranslateNews(target: FeaturedContent, en: FeaturedContent, lang: string, translate: Translator)
    : (r: Result<Option<seq<Item>>, Error>)
    ensures target.news.Some? && |target.news.value| > 0 ==> r == Ok(target.news)
    ensures (!(target.news.Some? && |target.news.value| > 0)
      && (en.news.None? || |en.news.value| == 0 || !IsSupportedLanguage(lang))) ==> r == Ok(None)
    ensures r.Err? ==> (r.error.ApiError? && r.error.code == "TRANSLATION_API_ERROR"
      && BatchFailedPrefix("news articles") <= r.error.message)
    ensures !(target.news.Some? && |target.news.value| > 0) && r.Ok? && r.value.Some? ==>
      (en.news.Some? && |r.value.value| == |en.news.value|
      && forall i :: 0 <= i < |en.news.value| ==>
        HasTranslatedPaths(r.value.value[i], en.news.value[i], NewsFields, lang, translate))
  {
    ListSlotPaths(target.news, en.news, lang, NewsFields, "news articles", translate);
    TranslateList(target.news, en.news, lang, NewsFields, "news articles", translate)
  }


  /** What an object slot's decision promises about its error and its translated fields. */
  lemma ContentSlotPaths(target: Option<Item>, en: Option<Item>, lang: string, paths: seq<string>, translate: Translator)
    ensures var r := TranslateContentProperties(target, en, lang, paths, translate);
      && (r.Err? ==> r.error.ApiError? && r.error.code == "TRANSLATION_API_ERROR")
      && (target.None? && r.Ok? && r.value.Some? ==>
            (en.Some? && HasTranslatedPaths(r.value.value, en.value, paths, lang, translate)))
  {
    if target.None? && en.Some? && IsSupportedLanguage(lang) && TranslatedFromEn(en.value, paths, lang, translate).Ok? {
      TranslatedPaths(en.value, paths, lang, translate);
    }
  }

  /** What a list slot's decision promises about its error and its translated items. */
  lemma ListSlotPaths(target: Option<seq<Item>>, en: Option<seq<Item>>, lang: string, paths: seq<string>, what: string, translate: Translator)
    ensures var r := TranslateList(target, en, lang, paths, what, translate);
      && (r.Err? ==> (r.error.ApiError? && r.error.code == "TRANSLATION_API_ERROR"
            && BatchFailedPrefix(what) <= r.error.message))
      && (!(target.Some? && |target.value| > 0) && r.Ok? && r.value.Some? ==>
            (en.Some? && |r.value.value| == |en.value|
            && forall i :: 0 <= i < |en.value| ==>
              HasTranslatedPaths(r.value.value[i], en.value[i], paths, lang, translate)))
  {
    if en.Some? {
      TranslatedListPaths(en.value, paths, what, lang, translate);
    }
  }

  /** After a successful batch every item has every listed path translated. */
  lemma TranslatedListPaths(items: seq<Item>, paths: seq<string>, what: string, lang: string, translate: Translator)
    ensures TranslateAll(items, paths, what, lang, translate).Ok? ==>
      var r := TranslateAll(items, paths, what, lang, translate).value;
      && |r| == |items|
      && forall i :: 0 <= i < |items| ==> HasTranslatedPaths(r[i], items[i], paths, lang, translate)
    ensures TranslateAll(items, paths, what, lang, translate).Err? ==>
      BatchFailedPrefix(what) <= TranslateAll(items, paths, what, lang, translate).error.message
  {
    var all := TranslateAll(items, paths, what, lang, translate);
    if all.Ok? {
      forall i | 0 <= i < |items|
        ensures HasTranslatedPaths(all.value[i], items[i], paths, lang, translate)
      {
        TranslatedPaths(items[i], paths, lang, translate);
      }
    } else {
      var prefix := BatchFailedPrefix(what);
      assert all.error.message == prefix + Details(ItemResults(items, paths, lang, translate));
    }
  }

  /**
   * `translateMostRead`: the same decision on the `articles` list of the slot;
   * a translated slot keeps every other field of the English slot.
   */
  function TranslateMostRead(target: FeaturedContent, en: FeaturedContent, lang: string, translate: Translator)
    : (r: Result<Option<MostRead>, Error>)
    ensures target.mostread.Some? && |target.mostread.value.articles| > 0 ==> r == Ok(target.mostread)
    ensures (!(target.mostread.Some? && |target.mostread.value.articles| > 0)
      && (en.mostread.None? || |en.mostread.value.articles| == 0 || !IsSupportedLanguage(lang))) ==> r == Ok(None)
    ensures (!(target.mostread.Some? && |target.mostread.value.articles| > 0)
      && en.mostread.Some? && |en.mostread.value.articles| > 0 && IsSupportedLanguage(lang)) ==>
      var translated := TranslateAll(en.mostread.value.articles, MostReadFields, "most read articles", lang, translate);
      && (r.Ok? <==> translated.Ok?)
      && (r.Ok? ==> r.value == Some(MostRead(en.mostread.value.fields, translated.value)))
      && (r.Err? ==> r.error == translated.error)
  {
    if target.mostread.Some? && |target.mostread.value.articles| > 0 then Ok(target.mostread)
    else if en.mostread.None? || |en.mostread.value.articles| == 0 || !IsSupportedLanguage(lang) then Ok(None)
    else
      match TranslateAll(en.mostread.value.articles, MostReadFields, "most read articles", lang, translate)
      case Ok(articles) => Ok(Some(MostRead(en.mostread.value.fields, articles)))
      case Err(e) => Err(e)
  }

  /**
   * A translated list has the English list's length and order, and item i is
   * English item i with exactly the listed paths replaced by their translations.
   */
  lemma TranslatedListItems(items: seq<Item>, paths: seq<string>, what: string, lang: string, translate: Translator, i: nat, k: string)
    requires TranslateAll(items, paths, what, lang, translate).Ok?
    requires i < |items|
    ensures var r := TranslateAll(items, paths, what, lang, translate).value;
      && |r| == |items|
      && (k in r[i] <==> k in items[i] || k in paths)
      && (k !in paths && k in items[i] ==> r[i][k] == items[i][k])
      && (k in paths ==> r[i][k] == translate(TextAt(items[i], k), lang).value)
  {
    TranslatedFields(items[i], paths, lang, translate, k);
  }

  /** The slot value that survives: a slot whose decision failed becomes null. */
  function Collapse<T>(decided: Result<Option<T>, Error>): (slot: Option<T>)
    ensures decided.Err? ==> slot.None?
    ensures decided.Ok? ==> slot == decided.value
  {
    match decided
    case Ok(v) => v
    case Err(_) => None
  }

  /**
   * `translateWikipediaResponse`: the target response with its five slots
   * replaced by their decisions, a failed decision giving null. The error
   * return is disabled in the source, so the result is always a success.
   */
  function TranslateWikipediaResponse(target: FeaturedContent, en: FeaturedContent, lang: string, translate: Translator)
    : (r: Result<FeaturedContent, Error>)
    ensures r.Ok?
    ensures r.value.others == target.others
    ensures r.value.tfa == Collapse(TranslateTfa(target, en, lang, translate))
    ensures r.value.image == Collapse(TranslateImage(target, en, lang, translate))
    ensures r.value.mostread == Collapse(TranslateMostRead(target, en, lang, translate))
    ensures r.value.onthisday == Collapse(TranslateOnThisDay(target, en, lang, translate))
    ensures r.value.news == Collapse(TranslateNews(target, en, lang, translate))
  {
    Ok(FeaturedContent(
      tfa := Collapse(TranslateTfa(target, en, lang, translate)),
      image := Collapse(TranslateImage(target, en, lang, translate)),
      mostread := Collapse(TranslateMostRead(target, en, lang, translate)),
      onthisday := Collapse(TranslateOnThisDay(target, en, lang, translate)),
      news := Collapse(TranslateNews(target, en, lang, translate)),
      others := target.others))
  }

  /** Every slot the target language already has is passed through untouched. */
  lemma PresentSlotsKept(target: FeaturedContent, en: FeaturedContent, lang: string, translate: Translator)
    ensures var r := TranslateWikipediaResponse(target, en, lang, translate).value;
      && (target.tfa.Some? ==> r.tfa == target.tfa)
      && (target.image.Some? ==> r.image == target.image)
      && (target.mostread.Some? && |target.mostread.value.articles| > 0 ==> r.mostread == target.mostread)
      && (target.onthisday.Some? && |target.onthisday.value| > 0 ==> r.onthisday == target.onthisday)
      && (target.news.Some? && |target.news.value| > 0 ==> r.news == target.news)
  {
  }

  /**
   * For a language the backend does not serve nothing is translated: each slot
   * is the target's own (an empty list counting as missing) and the backend is
   * never consulted.
   */
  lemma UnsupportedLanguageKeepsTarget(target: FeaturedContent, en: FeaturedContent, lang: string, t1: Translator, t2: Translator)
    requires !IsSupportedLanguage(lang)
    ensures var r := TranslateWikipediaResponse(target, en, lang, t1).value;
      && r == TranslateWikipediaResponse(target, en, lang, t2).value
      && r.tfa == target.tfa
      && r.image == target.image
      && r.mostread == (if target.mostread.Some? && |target.mostread.value.articles| > 0 then target.mostread else None)
      && r.onthisday == (if target.onthisday.Some? && |target.onthisday.value| > 0 then target.onthisday else None)
      && r.news == (if target.news.Some? && |target.news.value| > 0 then target.news else None)
  {
  }

  /** The badge record of the route layer; only its `badge` label is read or written. */
  datatype Badge = Badge(badge: string, rest: map<string, string>)

  /**
   * `translateBadge`: the label translated from English when the language is
   * served; the badge as it was when it is not or the translation fails.
   */
  function TranslateBadge(badge: Badge, lang: string, translate: Translator): (r: Result<Badge, Error>)
    ensures r.Ok? && r.value.rest == badge.rest
    ensures !IsSupportedLanguage(lang) || translate(badge.badge, lang).Err? ==> r.value == badge
    ensures IsSupportedLanguage(lang) && translate(badge.badge, lang).Ok? ==> r.value.badge == translate(badge.badge, lang).value
  {
    if !IsSupportedLanguage(lang) then Ok(badge)
    else
      match translate(badge.badge, lang)
      case Err(_) => Ok(badge)
      case Ok(text) => Ok(badge.(badge := text))
  }

  /** `translateBadges`: one `translateBadge` per badge, in order; always a success. */
  function TranslateBadges(badges: seq<Badge>, lang: string, translate: Translator): (r: Result<seq<Badge>, Error>)
    ensures r.Ok? && |r.value| == |badges|
    ensures !IsSupportedLanguage(lang) ==> r.value == badges
    ensures forall i :: 0 <= i < |badges| ==> r.value[i] == TranslateBadge(badges[i], lang, translate).value
  {
    if !IsSupportedLanguage(lang) then Ok(badges)
    else Ok(seq(|badges|, i requires 0 <= i < |badges| => TranslateBadge(badges[i], lang, translate).value))
  }

  /** With an unsupported language the backend is never consulted for badges. */
  lemma BadgesWithoutCall(badges: seq<Badge>, lang: string, t1: Translator, t2: Translator)
    requires !IsSupportedLanguage(lang)
    ensures TranslateBadges(badges, lang, t1) == TranslateBadges(badges, lang, t2) == Ok(badges)
  {
  }

  /** The featured article of the service's tests, translated to Spanish by the stub: title, extract and description. */
  lemma TfaTranslatedToSpanish(target: FeaturedContent, en: FeaturedContent)
    requires target.tfa.None? && en.tfa.Some?
    requires "normalizedtitle" in en.tfa.value && en.tfa.value["normalizedtitle"] == "Statue of Liberty"
    requires "extract" in en.tfa.value && en.tfa.value["extract"] == "The Statue of Liberty is a colossal."
    requires "description" in en.tfa.value && en.tfa.value["description"] == "Colossal sculpture in New York Harbor"
    ensures TranslateTfa(target, en, "es", StubTranslate) == Ok(Some(TranslatedFromEn(en.tfa.value, TfaFields, "es", StubTranslate).value))
    ensures var tfa := TranslateTfa(target, en, "es", StubTranslate).value.value;
      && "normalizedtitle" in tfa && tfa["normalizedtitle"] == "Statue of Liberty-es"
      && "extract" in tfa && tfa["extract"] == "The Statue of Liberty is a colossal.-es"
      && "description" in tfa && tfa["description"] == "Colossal sculpture in New York Harbor-es"
  {
    assert "normalizedtitle" in TfaFields && "extract" in TfaFields && "description" in TfaFields;
    StubTranslatedFields(en.tfa.value, TfaFields, "es", "normalizedtitle");
    StubTranslatedFields(en.tfa.value, TfaFields, "es", "extract");
    StubTranslatedFields(en.tfa.value, TfaFields, "es", "description");
  }

  /** A target-language featured article is returned as it is. */
  lemma TfaKeptWhenPresent(target: FeaturedContent, en: FeaturedContent)
    requires target.tfa.Some?
    ensures TranslateTfa(target, en, "es", StubTranslate) == Ok(target.tfa)
  {
  }

  /** The on-this-day events of the service's tests: same count, each page title translated. */
  lemma OnThisDayTranslatedToSpanish(target: FeaturedContent, en: FeaturedContent)
    requires target.onthisday.None? && en.onthisday.Some? && |en.onthisday.value| > 0
    requires "pages[0].titles.normalized" in en.onthisday.value[0]
    requires en.onthisday.value[0]["pages[0].titles.normalized"] == "NASA"
    requires "text" in en.onthisday.value[0]
    requires en.onthisday.value[0]["text"] == "The impactor of the NASA space probe Deep Impact."
    ensures var r := TranslateOnThisDay(target, en, "es", StubTranslate);
      && r.Ok? && r.value.Some? && |r.value.value| == |en.onthisday.value|
      && r.value.value[0]["pages[0].titles.normalized"] == "NASA-es"
      && r.value.value[0]["text"] == "The impactor of the NASA space probe Deep Impact.-es"
  {
    var items := en.onthisday.value;
    forall i | 0 <= i < |items|
      ensures TranslatedFromEn(items[i], OnThisDayFields, "es", StubTranslate).Ok?
    {
      StubTranslatedFields(items[i], OnThisDayFields, "es", "");
    }
    StubTranslatedFields(items[0], OnThisDayFields, "es", "pages[0].titles.normalized");
    StubTranslatedFields(items[0], OnThisDayFields, "es", "text");
    assert "pages[0].titles.normalized" in OnThisDayFields && "text" in OnThisDayFields;
  }
}
