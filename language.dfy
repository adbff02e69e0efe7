/**
 * `normalizeLanguage` of client/src/App.jsx: map a locale tag such as
 * `he-IL` to its base language when that language is supported, else to `en`.
 */
module Language {
  import opened Wrappers

  // The supported base languages, in the source's order, one constant per
  // source line so that facts about the list can be proved a line at a time.
  const Line0: seq<string> := ["ab", "aa", "af", "ak", "sq", "am", "ar", "an", "hy", "as", "av", "ae", "ay", "az", "bm", "ba", "eu", "be"]
  const Line1: seq<string> := ["bn", "bh", "bi", "bs", "br", "bg", "my", "ca", "ch", "ce", "ny", "zh", "cv", "kw", "co", "cr", "hr", "cs", "da"]
  const Line2: seq<string> := ["dv", "nl", "en", "eo", "et", "ee", "fo", "fj", "fi", "fr", "ff", "gl", "ka", "de", "el", "gn", "gu", "ht", "ha"]
  const Line3: seq<string> := ["he", "hz", "hi", "ho", "hu", "ia", "id", "ie", "ga", "ig", "ik", "io", "is", "it", "iu", "ja", "jv", "kl", "kn"]
  const Line4: seq<string> := ["kr", "ks", "kk", "km", "ki", "rw", "ky", "kv", "kg", "ko", "ku", "kj", "la", "lb", "lg", "li", "ln", "lo", "lt"]
  const Line5: seq<string> := ["lu", "lv", "gv", "mk", "mg", "ms", "ml", "mt", "mi", "mr", "mh", "mn", "na", "nv", "nb", "nd", "ne", "ng", "nn"]
  const Line6: seq<string> := ["no", "ii", "nr", "oc", "oj", "cu", "om", "or", "os", "pa", "pi", "fa", "pl", "ps", "pt", "qu", "rm", "rn", "ro"]
  const Line7: seq<string> := ["ru", "sa", "sc", "sd", "se", "sm", "sg", "sr", "gd", "sn", "si", "sk", "sl", "so", "st", "es", "su", "sw", "ss"]
  const Line8: seq<string> := ["sv", "ta", "te", "tg", "th", "ti", "bo", "tk", "tl", "tn", "to", "tr", "ts", "tt", "tw", "ty", "ug", "uk", "ur"]
  const Line9: seq<string> := ["uz", "ve", "vi", "vo", "wa", "cy", "wo", "fy", "xh", "yi", "yo", "za"]

  /** The base languages the interface accepts. */
  const SupportedLanguages: seq<string> :=
    Line0 + Line1 + Line2 + Line3 + Line4 + Line5 + Line6 + Line7 + Line8 + Line9

  /** Every entry of a list of tags has two characters. */
  predicate AllTwoLetter(tags: seq<string>)
  {
    forall i | 0 <= i < |tags| :: |tags[i]| == 2
  }

  lemma TwoLetterAppend(a: seq<string>, b: seq<string>)
    requires AllTwoLetter(a) && AllTwoLetter(b)
    ensures AllTwoLetter(a + b)
  {
    forall i | 0 <= i < |a + b| ensures |(a + b)[i]| == 2 {
      if i >= |a| {
        assert (a + b)[i] == b[i - |a|];
      }
    }
  }

  /** Every supported language is a two-letter code; in particular the empty tag is not one. */
  lemma SupportedAreTwoLetter()
    ensures AllTwoLetter(SupportedLanguages)
    ensures "" !in SupportedLanguages
  {
    assert AllTwoLetter(Line0) && AllTwoLetter(Line1) && AllTwoLetter(Line2);
    assert AllTwoLetter(Line3) && AllTwoLetter(Line4) && AllTwoLetter(Line5);
    assert AllTwoLetter(Line6) && AllTwoLetter(Line7) && AllTwoLetter(Line8) && AllTwoLetter(Line9);
    TwoLetterAppend(Line0, Line1);
    TwoLetterAppend(Line0 + Line1, Line2);
    TwoLetterAppend(Line0 + Line1 + Line2, Line3);
    TwoLetterAppend(Line0 + Line1 + Line2 + Line3, Line4);
    TwoLetterAppend(Line0 + Line1 + Line2 + Line3 + Line4, Line5);
    TwoLetterAppend(Line0 + Line1 + Line2 + Line3 + Line4 + Line5, Line6);
    TwoLetterAppend(Line0 + Line1 + Line2 + Line3 + Line4 + Line5 + Line6, Line7);
    TwoLetterAppend(Line0 + Line1 + Line2 + Line3 + Line4 + Line5 + Line6 + Line7, Line8);
    TwoLetterAppend(Line0 + Line1 + Line2 + Line3 + Line4 + Line5 + Line6 + Line7 + Line8, Line9);
  }

  /** `tag.split('-')[0]`: the part of the tag before its first `-`. */
  function BaseLanguage(tag: string): (base: string)
    ensures base <= tag
    ensures '-' !in base
    ensures |base| < |tag| ==> tag[|base|] == '-'
  {
    if |tag| == 0 || tag[0] == '-' then "" else [tag[0]] + BaseLanguage(tag[1..])
  }

  /**
   * An absent or empty tag gives `en`; otherwise the tag's base language if
   * it is supported, else `en`.
   */
  function NormalizeLanguage(lang: Option<string>): (r: string)
    ensures r in SupportedLanguages
    ensures lang == None || lang == Some("") ==> r == "en"
    ensures lang.Some? && lang.value != "" && BaseLanguage(lang.value) in SupportedLanguages ==>
      r == BaseLanguage(lang.value)
    ensures r != "en" ==> lang.Some? && r == BaseLanguage(lang.value)
  {
    assert "en" in Line2;
    if lang.None? || lang.value == "" then "en"
    else
      var baseLang := BaseLanguage(lang.value);
      if baseLang in SupportedLanguages then baseLang else "en"
  }

  /** A tag without `-` is its own base language. */
  lemma {:induction false} BaseOfPlainTag(tag: string)
    requires '-' !in tag
    ensures BaseLanguage(tag) == tag
  {
    if |tag| > 0 {
      assert '-' !in tag[1..];
      BaseOfPlainTag(tag[1..]);
    }
  }

  /** Normalizing twice is normalizing once: every result is a supported, dash-free, non-empty tag. */
  lemma NormalizeLanguageIdempotent(lang: Option<string>)
    ensures NormalizeLanguage(Some(NormalizeLanguage(lang))) == NormalizeLanguage(lang)
  {
    var r := NormalizeLanguage(lang);
    SupportedAreTwoLetter();
    if r == "en" {
      BaseOfPlainTag("en");
    } else {
      BaseOfPlainTag(r);
    }
  }
}
