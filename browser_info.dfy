/** Splitting the browser locale into a language and a country code
    (`initLocalInfo` of src/browser/BrowserInfo.ts). */
module BrowserInfo {
  import opened Text

  datatype LocalInfo = LocalInfo(systemLanguage: string, countryCode: string)

  /** A locale with a '-' after its first character splits at that '-':
      the language is the first segment and the country the second,
      upper-cased. Any other locale is its own language with no country. */
  function InitLocalInfo(locale: string): (r: LocalInfo)
    ensures r.systemLanguage <= locale
    ensures r.systemLanguage == locale <==> IndexOf(locale, '-') <= 0
    ensures IndexOf(locale, '-') > 0 ==> |r.systemLanguage| > 0 && '-' !in r.systemLanguage
    ensures forall i :: 0 <= i < |r.countryCode| ==> !('a' <= r.countryCode[i] <= 'z')
  {
    if IndexOf(locale, '-') > 0 then
      var parts := Split(locale, '-');
      SplitHead(locale, '-');
      LocalInfo(parts[0], ToUpperAscii(parts[1]))
    else
      LocalInfo(locale, "")
  }

  /** The text of `s` up to the first `c`, or all of `s`. */
  function Segment(s: string, c: char): string {
    var i := IndexOf(s, c);
    if i == -1 then s else s[..i]
  }

  lemma SplitHead(s: string, c: char)
    ensures Split(s, c)[0] == Segment(s, c)
    ensures IndexOf(s, c) >= 0 ==>
      (|Split(s, c)| >= 2 && Split(s, c)[1] == Segment(s[IndexOf(s, c) + 1..], c))
  {
  }

  /** Both branches of `initLocalInfo`, stated by the position of the first
      '-': the language is the text before it and the country the next
      segment in upper case, or the whole locale with an empty country. */
  lemma LocalInfoSplit(locale: string, i: int)
    requires 0 <= i < |locale| && locale[i] == '-' && '-' !in locale[..i]
    ensures i > 0 ==>
      InitLocalInfo(locale) == LocalInfo(locale[..i], ToUpperAscii(Segment(locale[i + 1..], '-')))
    ensures i == 0 ==> InitLocalInfo(locale) == LocalInfo(locale, "")
  {
    SplitHead(locale, '-');
  }

  lemma LocalInfoNoDash(locale: string)
    requires '-' !in locale
    ensures InitLocalInfo(locale) == LocalInfo(locale, "")
  {
  }

  /** The language is always a prefix of the locale, and the country code
      is empty exactly when the locale does not split. */
  lemma LanguageIsPrefix(locale: string)
    ensures InitLocalInfo(locale).systemLanguage <= locale
    ensures IndexOf(locale, '-') <= 0 ==> InitLocalInfo(locale).countryCode == ""
  {
    SplitHead(locale, '-');
  }

  /** '' gives ('', ''), 'en' gives ('en', ''), 'fr-fr' gives ('fr', 'FR'). */
  lemma LocalInfoExamples()
    ensures InitLocalInfo("") == LocalInfo("", "")
    ensures InitLocalInfo("en") == LocalInfo("en", "")
    ensures InitLocalInfo("fr-fr") == LocalInfo("fr", "FR")
  {
    LocalInfoSplit("fr-fr", 2);
    assert "fr-fr"[3..] == "fr";
    assert '-' !in "fr";
    assert ToUpperAscii("fr") == "FR";
  }
}
