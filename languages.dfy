/**
 * The table of Wikipedia editions the backend serves (backend/src/languages.ts)
 * and the `map(language => language.code)` that both backend services apply
 * to it.
 */
module Languages {

  datatype Language = Language(name: string, code: string)

  const WikipediaLanguages: seq<Language> := [
    Language("Bengali", "bn"),
    Language("German", "de"),
    Language("Greek", "el"),
    Language("English", "en"),
    Language("Hebrew", "he"),
    Language("Hungarian", "hu"),
    Language("Japanese", "ja"),
    Language("Latin", "la"),
    Language("Sindhi", "sd"),
    Language("Swedish", "sv"),
    Language("Urdu", "ur"),
    Language("Chinese", "zh"),
    Language("Bosnian", "bs"),
    Language("Danish", "da"),
    Language("Spanish", "es"),
    Language("Finnish", "fi"),
    Language("French", "fr"),
    Language("Korean", "ko"),
    Language("Norwegian (Bokmål)", "no"),
    Language("Polish", "pl"),
    Language("Portuguese", "pt"),
    Language("Russian", "ru"),
    Language("Scots", "sco"),
    Language("Vietnamese", "vi"),
    Language("Arabic", "ar")
  ]

  /** `languages.map(language => language.code)`: same length, same order. */
  function Codes(languages: seq<Language>): (codes: seq<string>)
    ensures |codes| == |languages|
    ensures forall i :: 0 <= i < |languages| ==> codes[i] == languages[i].code
  {
    seq(|languages|, i requires 0 <= i < |languages| => languages[i].code)
  }

  /** The codes the route handler's tests use: "en" and "es" are listed, "bad" is not. */
  lemma {:induction false} WikipediaCodesExamples()
    ensures "en" in Codes(WikipediaLanguages)
    ensures "es" in Codes(WikipediaLanguages)
    ensures "bad" !in Codes(WikipediaLanguages)
  {
    var codes := Codes(WikipediaLanguages);
    assert codes[3] == "en";
    assert codes[14] == "es";
    forall i | 0 <= i < |codes|
      ensures codes[i] != "bad"
    {
      assert |codes[i]| == 2 || codes[i] == "sco";
    }
  }

  /** The codes of the table, in table order. */
  lemma WikipediaCodes()
    ensures Codes(WikipediaLanguages) == [
      "bn", "de", "el", "en", "he", "hu", "ja", "la", "sd", "sv", "ur", "zh", "bs",
      "da", "es", "fi", "fr", "ko", "no", "pl", "pt", "ru", "sco", "vi", "ar"]
  {
  }
}
