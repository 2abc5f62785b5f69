/** Choosing the site language (lib/locale-detection.ts): French for a
    francophone country, otherwise English, with the browser language as
    the fallback when no country is known. The country code that the
    geolocation lookup returns and the browser's navigator are inputs. */
module LocaleDetection {
  import opened Wrappers
  import opened Text
  import opened JsValues

  datatype Locale = Fr | En

  /** The country list as written, 'ML' (Mali) included twice. */
  const FrancophoneCountries: seq<string> := [
    "FR", "BE", "CH", "LU", "CA", "SN", "CI", "CM", "BJ", "BF",
    "CD", "CG", "GA", "GN", "HT", "ML", "MZ", "NE", "RE", "RW",
    "TG", "TD", "TN", "VU", "GP", "MQ", "BL", "MF", "GF", "PM",
    "YT", "WF", "PF", "NC", "BW", "BI", "DJ", "EQ", "KM", "MG",
    "ML", "MR", "SC", "SO"]

  /** isFrancophoneCountry: `FRANCOPHONE_COUNTRIES.includes(code.toUpperCase())`. */
  predicate IsFrancophoneCountry(countryCode: string) {
    Upper(countryCode) in FrancophoneCountries
  }

  /** What `navigator` offers: `language` (possibly missing or empty) and
      `languages` (possibly missing or empty). */
  datatype Navigator = Navigator(language: Option<string>, languages: Option<seq<string>>)

  /** `navigator.language || navigator.languages?.[0] || 'en'`. */
  function BrowserLanguage(nav: Navigator): string {
    if nav.language.Some? && nav.language.value != "" then nav.language.value
    else if nav.languages.Some? && |nav.languages.value| > 0 && nav.languages.value[0] != "" then nav.languages.value[0]
    else "en"
  }

  /** detectLocaleFromBrowser; `window` is None on the server. */
  function DetectLocaleFromBrowser(window: Option<Navigator>): Locale {
    if window.None? then En
    else if StartsWith(BrowserLanguage(window.value), "fr") then Fr
    else En
  }

  /** detectLocaleByGeolocation. `countryCode` is what getCountryCode
      resolved to: `data.country_code || null`, so a truthy JSON value or
      null. A falsy code falls back to the browser; a code that is not a
      string makes `toUpperCase` throw, and the catch falls back to the
      browser as well. */
  function DetectLocaleByGeolocation(countryCode: JsValue, window: Option<Navigator>): Locale {
    if !Truthy(countryCode) then DetectLocaleFromBrowser(window)
    else if !countryCode.Str? then DetectLocaleFromBrowser(window)
    else if IsFrancophoneCountry(countryCode.s) then Fr
    else En
  }

  // ---------------------------------------------------------------------
  // Properties

  /** Every listed code is two capital ASCII letters. */
  lemma ListedCodesAreCapitalPairs(k: int)
    requires 0 <= k < |FrancophoneCountries|
    ensures |FrancophoneCountries[k]| == 2
    ensures forall j :: 0 <= j < 2 ==> 'A' <= FrancophoneCountries[k][j] <= 'Z'
  {
  }

  /** So only two-character codes are francophone. */
  lemma FrancophoneCodesHaveTwoCharacters(countryCode: string)
    requires IsFrancophoneCountry(countryCode)
    ensures |countryCode| == 2
  {
    var k :| 0 <= k < |FrancophoneCountries| && FrancophoneCountries[k] == Upper(countryCode);
    ListedCodesAreCapitalPairs(k);
  }

  /** The test ignores case: a code, its lower-case and its upper-case
      spelling are all francophone or none is. */
  lemma FrancophoneIgnoresCase(countryCode: string)
    ensures IsFrancophoneCountry(Lower(countryCode)) == IsFrancophoneCountry(countryCode)
    ensures IsFrancophoneCountry(Upper(countryCode)) == IsFrancophoneCountry(countryCode)
  {
    UpperOfLower(countryCode);
    assert Upper(Upper(countryCode)) == Upper(countryCode);
  }

  /** The second 'ML' changes nothing: the list without it holds the same
      codes. */
  lemma DuplicateMaliIsHarmless(code: string)
    ensures FrancophoneCountries[15] == "ML" && FrancophoneCountries[40] == "ML"
    ensures code in FrancophoneCountries <==> code in FrancophoneCountries[..40] + FrancophoneCountries[41..]
  {
    var rest := FrancophoneCountries[..40] + FrancophoneCountries[41..];
    if code in FrancophoneCountries {
      var k :| 0 <= k < |FrancophoneCountries| && FrancophoneCountries[k] == code;
      if k < 40 {
        assert rest[k] == code;
      } else if k == 40 {
        assert rest[15] == code;
      } else {
        assert rest[k - 1] == code;
      }
    } else {
      forall j | 0 <= j < |rest|
        ensures rest[j] != code
      {
        if j < 40 {
          assert rest[j] == FrancophoneCountries[j];
        } else {
          assert rest[j] == FrancophoneCountries[j + 1];
        }
      }
    }
  }

  /** A few codes, as the list decides them. */
  lemma SomeFrancophoneCountries()
    ensures IsFrancophoneCountry("fr") && IsFrancophoneCountry("Ch")
  {
    assert Upper("fr") == "FR" == FrancophoneCountries[0];
    assert Upper("Ch") == "CH" == FrancophoneCountries[2];
  }

  /** No listed code starts with 'U', so "us" is not francophone. */
  lemma UnitedStatesIsNotFrancophone()
    ensures !IsFrancophoneCountry("us")
  {
    forall k | 0 <= k < |FrancophoneCountries|
      ensures FrancophoneCountries[k][0] != 'U'
    {
    }
    assert Upper("us")[0] == 'U';
  }

  /** A three-letter code is never francophone. */
  lemma ThreeLetterCodeIsNotFrancophone()
    ensures !IsFrancophoneCountry("FRA")
  {
    if IsFrancophoneCountry("FRA") {
      FrancophoneCodesHaveTwoCharacters("FRA");
    }
  }

  /** French exactly when the first available language starts with "fr";
      English on the server. */
  lemma BrowserLocaleRule(window: Option<Navigator>)
    ensures window.None? ==> DetectLocaleFromBrowser(window) == En
    ensures window.Some? ==> (DetectLocaleFromBrowser(window) == Fr <==> StartsWith(BrowserLanguage(window.value), "fr"))
  {
  }

  /** The language read is `language` when it is not empty, then the first
      of `languages`, then "en". */
  lemma BrowserLanguageFallback(nav: Navigator)
    ensures nav.language.Some? && nav.language.value != "" ==> BrowserLanguage(nav) == nav.language.value
    ensures ((nav.language.None? || nav.language.value == "") && nav.languages.Some? && nav.languages.value != []
             && nav.languages.value[0] != "") ==> BrowserLanguage(nav) == nav.languages.value[0]
    ensures BrowserLanguage(nav) != ""
  {
  }

  /** The prefix test is case-sensitive: "FR-fr" gives English, "fr-CH"
      French. */
  lemma BrowserPrefixIsCaseSensitive()
    ensures DetectLocaleFromBrowser(Some(Navigator(Some("FR-fr"), None))) == En
    ensures DetectLocaleFromBrowser(Some(Navigator(Some("fr-CH"), None))) == Fr
    ensures DetectLocaleFromBrowser(Some(Navigator(Some(""), Some(["fr"])))) == Fr
  {
    assert "FR-fr"[..2][0] == 'F';
    assert "fr-CH"[..2] == "fr";
  }

  /** The language tag a locale stands for. */
  function LocaleTag(locale: Locale): string {
    match locale
    case Fr => "fr"
    case En => "en"
  }

  /** A browser whose language is the tag of the detected locale is detected
      as that locale again. */
  lemma BrowserLocaleIsStable(window: Option<Navigator>)
    ensures DetectLocaleFromBrowser(Some(Navigator(Some(LocaleTag(DetectLocaleFromBrowser(window))), None)))
            == DetectLocaleFromBrowser(window)
  {
    assert "en"[..2][0] == 'e';
  }

  /** Only the primary subtag counts: a language of at least two characters
      gives the same locale with any region appended, and `languages` then
      plays no part. */
  lemma RegionSubtagKeepsLocale(nav: Navigator, region: string, others: Option<seq<string>>)
    requires nav.language.Some? && |nav.language.value| >= 2
    ensures DetectLocaleFromBrowser(Some(Navigator(Some(nav.language.value + "-" + region), others)))
            == DetectLocaleFromBrowser(Some(nav))
  {
    var tagged := nav.language.value + "-" + region;
    assert tagged[..2] == nav.language.value[..2];
  }

  /** A known country decides; without one, or with one that is not a string,
      the browser decides. */
  lemma GeolocationRule(countryCode: JsValue, window: Option<Navigator>)
    ensures countryCode.Str? && countryCode.s != "" ==>
      (DetectLocaleByGeolocation(countryCode, window) == Fr <==> IsFrancophoneCountry(countryCode.s))
    ensures !(countryCode.Str? && countryCode.s != "") ==>
      DetectLocaleByGeolocation(countryCode, window) == DetectLocaleFromBrowser(window)
  {
  }
}
