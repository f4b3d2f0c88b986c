/**
  The defaulting that the `/scrape` route applies to its query parameters
  (index.js lines 10-12) before it starts a run: `keyword || "AI"`,
  `parseInt(limit) || 15` and `parseInt(adsScroll) || 10`.  A query parameter is
  `None` when the request does not carry it (`undefined`); JavaScript's `||`
  replaces every falsy left operand, which here means `undefined`, the empty
  string, `NaN` and zero.
*/
module Request {
  import opened Wrappers
  import opened JsText

  const DefaultKeyword: string := "AI"
  const DefaultLimit: int := 15
  const DefaultAdsScroll: int := 10

  /** The parameters one run of the scraper is started with. */
  datatype SearchRequest = SearchRequest(keyword: string, maxAdsToScrape: int, adsScroll: int)

  /** `keyword || "AI"`: an absent or empty keyword becomes `"AI"`, any other is kept as it is. */
  function SearchKeyword(keyword: Option<string>): (k: string)
    ensures k != ""
    ensures keyword.Some? && keyword.value != "" ==> k == keyword.value
    ensures keyword.None? || keyword.value == "" ==> k == DefaultKeyword
  {
    if keyword.Some? && keyword.value != "" then keyword.value else DefaultKeyword
  }

  /** `parseInt(q)` of a query parameter; `parseInt(undefined)` reads the text `"undefined"`, which is `NaN`. */
  function ParseQueryInt(q: Option<string>): Option<int> {
    match q
    case None => None
    case Some(s) => ParseInt(s)
  }

  /** `parseInt(q) || default`: the parsed number unless it is `NaN` or zero. */
  function IntOrDefault(q: Option<string>, default: int): (n: int)
    ensures n != 0 || default == 0
    ensures ParseQueryInt(q) == Some(n) || n == default
    ensures ParseQueryInt(q).Some? && ParseQueryInt(q).value != 0 ==> n == ParseQueryInt(q).value
    ensures ParseQueryInt(q).None? || ParseQueryInt(q).value == 0 ==> n == default
  {
    match ParseQueryInt(q)
    case Some(v) => if v != 0 then v else default
    case None => default
  }

  /** `parseInt(limit) || 15`: any non-zero number `parseInt` reads is kept, and otherwise the limit is 15. */
  function MaxAdsToScrape(limit: Option<string>): (n: int)
    ensures n != 0
    ensures ParseQueryInt(limit).Some? && ParseQueryInt(limit).value != 0 ==> n == ParseQueryInt(limit).value
    ensures ParseQueryInt(limit).None? || ParseQueryInt(limit).value == 0 ==> n == DefaultLimit
  {
    IntOrDefault(limit, DefaultLimit)
  }

  /** `parseInt(adsScroll) || 10`: any non-zero number `parseInt` reads is kept, and otherwise the budget is 10. */
  function AdsScroll(adsScroll: Option<string>): (n: int)
    ensures n != 0
    ensures ParseQueryInt(adsScroll).Some? && ParseQueryInt(adsScroll).value != 0 ==> n == ParseQueryInt(adsScroll).value
    ensures ParseQueryInt(adsScroll).None? || ParseQueryInt(adsScroll).value == 0 ==> n == DefaultAdsScroll
  {
    IntOrDefault(adsScroll, DefaultAdsScroll)
  }

  /** The request a `/scrape` call starts the run with. */
  function FromQuery(keyword: Option<string>, limit: Option<string>, adsScroll: Option<string>): (r: SearchRequest)
    ensures r.keyword != "" && r.maxAdsToScrape != 0 && r.adsScroll != 0
  {
    SearchRequest(SearchKeyword(keyword), MaxAdsToScrape(limit), AdsScroll(adsScroll))
  }

  /**
    The defaulting of a numeric parameter, case by case: a missing parameter, text
    that does not begin with a number, and the number zero all give the default;
    any other integer, negative ones included, is kept.
  */
  lemma {:induction false} IntOrDefaultCases(n: int, default: int)
    ensures IntOrDefault(None, default) == default
    ensures IntOrDefault(Some(""), default) == default
    ensures IntOrDefault(Some("abc"), default) == default
    ensures IntOrDefault(Some(IntToString(0)), default) == default
    ensures n != 0 ==> IntOrDefault(Some(IntToString(n)), default) == n
  {
    ParseIntOfBlank("");
    ParseIntOfNonNumeric("abc");
    ParseIntToString(0);
    ParseIntToString(n);
  }

  /** The limit is the number written in the query when that number is not zero, and 15 otherwise. */
  lemma MaxAdsToScrapeOfNumber(n: int)
    ensures MaxAdsToScrape(Some(IntToString(n))) == if n == 0 then DefaultLimit else n
  {
    IntOrDefaultCases(n, DefaultLimit);
  }

  /** The scroll budget is the number written in the query when that number is not zero, and 10 otherwise. */
  lemma AdsScrollOfNumber(n: int)
    ensures AdsScroll(Some(IntToString(n))) == if n == 0 then DefaultAdsScroll else n
  {
    IntOrDefaultCases(n, DefaultAdsScroll);
  }

  /** `parseInt` keeps the number the text begins with: `limit=12abc` gives 12. */
  lemma MaxAdsToScrapeOfTrailingText()
    ensures MaxAdsToScrape(Some("12abc")) == 12
  {
    assert "12abc" == "12" + "abc";
    assert AllDigits("12", 10) && !IsDigit('a', 10);
    assert DigitsValue("12", 10) == 12 by {
      assert "12"[..1] == "1";
    }
    ParseIntReadsLeadingNumeral("12", "abc");
  }

  /** Leading white space is skipped: `limit= 7` gives 7. */
  lemma MaxAdsToScrapeOfLeadingSpace()
    ensures MaxAdsToScrape(Some(" 7")) == 7
  {
    assert " 7" == " " + "7";
    assert AllWhitespace(" ");
    ParseIntSkipsWhitespace(" ", "7");
    assert AllDigits("7", 10);
    ParseIntOfNumeral("7");
  }

  /** A `0x` prefix reads a hexadecimal number: `limit=0x10` gives 16. */
  lemma MaxAdsToScrapeOfHex()
    ensures MaxAdsToScrape(Some("0x10")) == 16
  {
    assert "0x10" == ['0', 'x'] + "10" + "";
    assert AllDigits("10", 16);
    assert DigitsValue("10", 16) == 16 by {
      assert "10"[..1] == "1";
    }
    ParseIntOfHex('x', "10", "");
  }
}
