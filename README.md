# LinkedIn Ad Library scraper, modelled in Dafny

This project models the core of the scraper in `index.js`. The scraper is an Express
route, `GET /scrape`, that drives a headless browser through the LinkedIn Ad Library in
four steps:

1. It searches for a keyword.
2. It scrolls the result listing until the page stops growing or the scroll budget runs out.
3. It collects the distinct detail-page links from the result cards.
4. It visits the first `limit` of those links. On each detail page it runs a callback that builds a fixed-shape ad record through chains of selector fallbacks. The callback also picks the highest-bitrate video source and gathers the carousel images.

Each step is a module:

| module | file | what it holds |
|---|---|---|
| `Wrappers` | `wrappers.dfy` | `Option` and `Result` |
| `JsText` | `js_text.dfy` | `String.prototype.trim`, the global `parseInt`, and the decimal `ToString` of an integer, written out per ECMA-262 |
| `Request` | `request.dfy` | the falsy-value defaulting of the query parameters |
| `Scroll` | `scroll.dfy` | the bounded scroll loop, as a method with a `while` loop |
| `Links` | `links.dfy` | the link normalisation and the order-keeping de-duplication that `[...new Set(...)]` performs |
| `VideoSources` | `video_sources.dfy` | the in-place `sort` of the video sources, on an `array`, proved equal to a stable insertion sort; also which source ends up first |
| `Extraction` | `extraction.dfy` | the in-page callback, as a function of an abstract rendered document |
| `Pipeline` | `pipeline.dfy` | the detail visitor and its `{}` failure path, the loop that truncates the links and appends `{...detail, sourceLink}`, the whole run, and the HTTP response |

The browser is represented by parameters:

- The heights read during scrolling are a function from the index of the read to an integer.
- The anchors on the listing are a function of the number of scroll steps taken.
- Each detail page has one of three outcomes: the navigation fails, the in-page step fails, or a document renders.
- `JSON.parse` of the `data-sources` text is a function parameter.

Where the code and the documented intent of the system differ, the model follows the code:

- **Zero limits.** `parseInt(limit) || 15` turns a limit of `0` into 15, and `adsScroll=0` into 10. Zero is not honoured (`Request.IntOrDefaultCases`).
- **Negative limit.** A negative limit is not rejected. `slice(0, limit)` then drops that many links from the end (`Pipeline.SliceToLimit`).
- **Navigation failure.** `page.goto` for a detail page sits outside the `try`. A navigation failure there is therefore not isolated: it rejects the whole run, and the route answers 500 (`Pipeline.ScrapeDetails`, `Pipeline.ScrapeLinkedInAds`).
- **Blank keyword.** A keyword made only of white space (`keyword=%20`) is a non-empty string, so it is truthy and kept as given. It is not replaced by `"AI"` (`Request.SearchKeyword`).
- **Negative scroll count.** A negative `adsScroll` is non-zero, so it is kept. The scroll loop then runs zero times (`Scroll.Budget`, `Scroll.StepsTakenExtremes`).
- **Failed detail pages.** The in-page step's failures are caught and give `{}`. The entry pushed for that link then holds only `sourceLink`; it does not hold eleven empty fields (`Pipeline.EntryShape`).

## Model

| member | source | states |
|---|---|---|
| `Request.SearchKeyword` | index.js:10 | The keyword is never empty. A present, non-empty keyword is kept as given. An absent or empty one becomes `"AI"`. |
| `Request.IntOrDefault` | index.js:11-12 | Any non-zero number `parseInt` reads from the parameter is kept. An absent parameter, `NaN` and zero give the default. |
| `Request.MaxAdsToScrape` | index.js:11 | The limit is never zero. It is the non-zero number `parseInt` reads from `limit`, and 15 otherwise. |
| `Request.AdsScroll` | index.js:12 | The scroll budget is never zero. It is the non-zero number `parseInt` reads from `adsScroll`, and 10 otherwise. |
| `Request.FromQuery` | index.js:10-12 | A request built from any query has a non-empty keyword, a non-zero limit and a non-zero scroll budget. |
| `Request.IntOrDefaultCases` | index.js:11-12 | An absent parameter, an empty one (`limit=`), a non-numeric one (`"abc"`) and `"0"` give the default. The decimal text of any non-zero integer gives that integer. |
| `Request.MaxAdsToScrapeOfNumber` | index.js:11 | `limit=n` gives `n`, except that `0` gives 15. |
| `Request.AdsScrollOfNumber` | index.js:12 | `adsScroll=n` gives `n`, except that `0` gives 10. |
| `Request.MaxAdsToScrapeOfTrailingText` | index.js:11 | `limit=12abc` gives 12: the number the text begins with is kept. |
| `Request.MaxAdsToScrapeOfLeadingSpace` | index.js:11 | `limit= 7` gives 7: leading white space is skipped. |
| `Request.MaxAdsToScrapeOfHex` | index.js:11 | `limit=0x10` gives 16: a `0x` prefix reads a hexadecimal number. |
| `JsText.Trim` | index.js:91 | The result has no white space at either end. It is a slice of the input with only white space around it. |
| `JsText.TrimIdempotent` | index.js:91 | Trimming twice is trimming once. |
| `JsText.TrimEmptyIff` | index.js:91 | Text trims to `""` exactly when it is all white space, so `getText` yields `""` for such text. |
| `JsText.ParseIntToString` | index.js:11-12 | `parseInt` of the decimal text of any integer, negative ones included, gives back that integer. |
| `JsText.ParseInt` | index.js:11-12 | `parseInt` without a radix. Together, the lemmas below state how it reads text: white space is skipped, then at most one sign, then `0x` for hexadecimal, then the longest digit run. The result is `NaN` when there is no digit run. |
| `JsText.ParseIntOfNonNumeric` | index.js:11-12 | Text whose first character is not white space, a sign or a decimal digit (a letter of either case, punctuation) parses to `NaN`. |
| `JsText.ParseIntSkipsWhitespace` | index.js:11-12 | White space in front of any text does not change what `parseInt` reads. |
| `JsText.ParseIntReadsLeadingNumeral` | index.js:11-12 | A decimal numeral followed by a non-digit is read as that numeral. The exception is a lone `0` before `x` or `X`, which starts a hexadecimal number. |
| `JsText.ParseIntOfHex` | index.js:11-12 | After `0x` or `0X`, the longest run of hexadecimal digits is read in radix 16, whatever follows it. With no such digit (`"0x"`, `"0xg"`) the result is `NaN`. |
| `JsText.ParseIntOfSigned` | index.js:11-12 | A leading `+` does not change the reading. A leading `-` negates the number read, and `NaN` stays `NaN`. Both hold for any text that does not itself start with white space or a sign. |
| `JsText.ParseIntOfSignWithoutDigits` | index.js:11-12 | A sign followed by nothing, by white space (`"+ 5"`) or by a second sign (`"--5"`, `"+-5"`) parses to `NaN`. |
| `JsText.ParseIntOfBlank` | index.js:11-12 | Empty text, or text made only of white space, parses to `NaN`. |
| `JsText.NatToStringValue` | index.js:11-12 | The decimal digits produced for `n` denote `n`, so `parseInt` has something to invert. |
| `Scroll.ScrollListing` | index.js:46-52 | The loop takes exactly `StepsTaken` steps. It stops at the first step where the height did not change, and otherwise after the budget. It reads the height twice per step. |
| `Scroll.StepsTaken` | index.js:46-52 | The number of steps the loop takes. `StepsTakenCharacterised` pins it down: the first step whose height did not change, or the budget. |
| `Scroll.StepsFromCharacterised` | index.js:46-52 | From any step reached without an unchanged height, the remaining loop ends at the first unchanged height or at the budget. |
| `Scroll.StepsTakenCharacterised` | index.js:46-52 | The number of steps is within the budget. No earlier step saw an unchanged height. If the run stopped early, its last step saw one. |
| `Scroll.StepsTakenExtremes` | index.js:46-52 | A budget of zero or less scrolls zero times. A page that keeps growing is scrolled exactly the budget. |
| `Links.BeforeQuery` | index.js:60 | `split("?")[0]`: the longest prefix of the `href` without `?`. The character after it, if any, is `?`. |
| `Links.Normalize` | index.js:60 | The link is the LinkedIn origin followed by the query-free part of the `href`. It holds no `?`. |
| `Links.NormalizeSameLink` | index.js:60 | Two `href`s give the same link exactly when they agree up to their first `?`. |
| `Links.NormalizeAll` | index.js:58-61 | One link per anchor, in anchor order, each the normalised `href`. |
| `Links.Dedup` | index.js:57 | The result has no duplicates and holds exactly the links of the input. |
| `Links.DedupFirstSeenOrder` | index.js:57 | The de-duplicated links appear in the order of their first occurrence, as a `Set` iterates. |
| `Links.DedupOfDistinct` | index.js:57 | Links that are already distinct are left exactly as they are. |
| `Links.DedupIdempotent` | index.js:57 | De-duplicating twice is de-duplicating once. |
| `Links.CollectLinks` | index.js:54-64 | Normalise every anchor's `href`, then de-duplicate. Its lemmas below state that the links are on the origin, distinct, complete and in first-seen order. |
| `Links.CollectedLinksAreNormalized` | index.js:54-64 | Every collected link starts with the origin, has no query, and is the normalised `href` of some anchor. |
| `Links.CollectLinksDistinctInOrder` | index.js:54-64 | Every anchor contributes its link. No link appears twice. The links keep first-seen order. Collecting again changes nothing. |
| `VideoSources.SortedByBitrateIsSortedPermutation` | index.js:105 | The sorted sources are in descending order of `bitrate` (0 when absent). They are a permutation of the input. |
| `VideoSources.SortedHeadIsTop` | index.js:105-106 | After the stable sort, the first source is the earliest of those with the highest rank. |
| `VideoSources.TopIndex` | index.js:105-106 | The position chosen has the highest rank, and every earlier position has a strictly lower rank. |
| `VideoSources.InsertIntoPrefix` | index.js:105 | One pass on the array inserts the next entry into the sorted prefix and leaves the rest of the array untouched. |
| `VideoSources.SortByBitrate` | index.js:105 | Sorting the array in place leaves it holding the stable descending order of its old contents. |
| `VideoSources.VideoUrlIsTopSource` | index.js:100-110 | For a non-empty, `null`-free array, the URL is the `src` of the earliest highest-bitrate source. In every other case (parse failure, non-array, empty, a `null` entry) it is `""`. |
| `VideoSources.VideoUrlOf` | index.js:100-110 | The URL a parse outcome yields. `VideoUrlIsTopSource` states what it is in every case. |
| `VideoSources.SelectVideoUrl` | index.js:103-109 | The statements of the `try` block, with the sort done in place on an array, compute the URL described above. |
| `Extraction.GetText` | index.js:90-91 | The text is `""` exactly when there is no match, no `innerText`, or only white space. Otherwise it is the trimmed `innerText` of the first match. |
| `Extraction.GetAttr` | index.js:92-93 | A non-empty value is the attribute of the first match. A present attribute is returned as it is. |
| `Extraction.FirstNonEmpty` | index.js:95-98 | A fallback chain of candidates is `""` exactly when every candidate is empty. Otherwise it is the first non-empty candidate. |
| `Extraction.CarouselItems` | index.js:112-116 | One item per matching carousel image, in document order, each that image's `src`. |
| `Extraction.ImageUrl` | index.js:95-98 | The preview image's `src`, else the cover image's, else `""`, as `ImageUrlFallback` states. |
| `Extraction.CtaLink` | index.js:118-127 | The headline link's `href`, else the image link's, else `""`, as `CtaLinkFallback` states. |
| `Extraction.VideoUrl` | index.js:100-110 | `""` without a `video[data-sources]` element. Otherwise it is the URL its parsed sources yield, as `VideoUrlIsTopSource`, `VideoParseFailureIsNoVideo` and `HigherBitrateWins` state. |
| `Extraction.MediaAsset` | index.js:144 | The video, else the image, else the first carousel item, else `""`, as `MediaAssetFallback` states. |
| `Extraction.ExtractAd` | index.js:89-147 | The record the callback returns. Its lemmas below state the empty page, the fallback chains and the isolation of the video step. |
| `Extraction.ImageUrlFallback` | index.js:95-98 | `imageUrl` is the preview image's `src`, falling back to the cover image's `src` only when the former is empty. |
| `Extraction.CtaLinkFallback` | index.js:118-127 | `ctaLink` is the headline link's `href`, falling back to the image link's `href` only when the former is empty. |
| `Extraction.MediaAssetFallback` | index.js:144 | `mediaAsset` is the video URL, else the image URL, else the first carousel item, else `""`. |
| `Extraction.EmptyPageGivesEmptyRecord` | index.js:89-147 | A page where nothing matches yields a record of empty strings and an empty carousel, not an error. |
| `Extraction.VideoParseIsolated` | index.js:100-110 | Every field other than `videoUrl` and `mediaAsset` is independent of how the `data-sources` text parses. |
| `Extraction.SameRecordApartFromVideo` | index.js:89-147 | Two pages that agree on every selector except the video's, and give the same video URL, give the same record. |
| `Extraction.VideoParseFailureIsNoVideo` | index.js:100-110 | A `data-sources` text that fails to parse gives exactly the record of the same page without a video. |
| `Extraction.HigherBitrateWins` | index.js:100-110 | Sources at bitrates 500 and 1200 give the 1200 one as both `videoUrl` and `mediaAsset`. |
| `Pipeline.AdObjectProperties` | index.js:129-146 | The callback's object has every property except `sourceLink`. |
| `Pipeline.AdObject` | index.js:129-146 | The object literal the callback returns, one property per record field. `AdObjectProperties` states that it has every property except `sourceLink`. |
| `Pipeline.WithSourceLink` | index.js:69 | Spread semantics: `sourceLink` is set to the link, overriding any earlier value. Every other property is copied unchanged, and no other property is added. |
| `Pipeline.EntryShape` | index.js:69 | Every entry carries its link. A detail that failed (`{}`) gives an entry holding only `sourceLink`. A scraped detail gives all twelve properties: every property other than `sourceLink` has the callback object's value. |
| `Pipeline.DetailOf` | index.js:82-158 | What `scrapeAdDetailPage` resolves to once its navigation succeeded: `{}` when the in-page step fails, and the callback's record otherwise. |
| `Pipeline.VisitDetail` | index.js:78-159 | `scrapeAdDetailPage` as a whole: its navigation failure is not caught. `VisitDetailOutcomes` states the three cases. |
| `Pipeline.VisitDetailOutcomes` | index.js:78-159 | A visit fails exactly when the navigation fails, and then names the link. A failed in-page step gives the entry `{ sourceLink }` (lines 152-157). A rendered page gives the callback's record for that page. |
| `Pipeline.SliceTo` | index.js:67 | `slice(0, end)` is a prefix of the links. |
| `Pipeline.SliceToLimit` | index.js:67 | A limit of zero or more keeps `min(limit, count)` links, and all of them when the limit is at least the count. A negative limit drops `min(-limit, count)` links from the end. |
| `Pipeline.SliceKeepsDistinct` | index.js:67 | A slice of distinct links is distinct. |
| `Pipeline.ScrapeDetails` | index.js:66-71 | The run succeeds exactly when no navigation fails. It then has one entry per sliced link, in link order: the link's detail with `sourceLink` set. Otherwise it fails with the first link whose navigation failed. |
| `Pipeline.ScrapeLinkedInAds` | index.js:26-76 | A failed search fails the run. Otherwise the run scrolls, collects and slices the links. It then yields one entry per link, in discovery order, each with its own `sourceLink`, or else the first navigation failure. |
| `Pipeline.RunLinksDistinct` | index.js:54-67 | No two entries of a run share a `sourceLink`. A positive limit bounds the number of entries. |
| `Pipeline.RunLinksOnOrigin` | index.js:54-67 | Every `sourceLink` is on the LinkedIn origin and carries no query. |
| `Pipeline.Respond` | index.js:19-22 | Status 200 exactly on success, with the results and their count. Otherwise status 500 with the failure. |
| `Pipeline.HandleScrape` | index.js:9-24 | A failed search answers 500. Otherwise the answer is 200 exactly when every detail navigation succeeds. A 200 carries one entry per visited link, in order, with the count. A 500 names the first link whose navigation failed. |

## Left out

- The browser itself is not modelled: launching it, the pages, `goto`, `waitForSelector`, typing, key presses and `evaluate`. Its effects are parameters. The readiness wait with its caught timeout (index.js:83-87) changes nothing observable and is not modelled.
- Timing is not modelled: the 2-second delays, the navigation and selector timeouts, and the server's 5-minute timeout (index.js:161-168).
- Logging is not modelled: the `console` calls, the emoji progress lines, and the 1000-character HTML snapshot taken on a detail failure.
- `page.content()` throwing inside the `catch` (index.js:153) is not modelled. It would turn an isolated failure into a rejection of the whole run.
- Resource cleanup is not modelled. On a failed run the browser is never closed, and a detail page whose callback fails is never closed either.
- The server start-up, CORS and the listening port (index.js:1-8, 161-168) are not modelled.
- A failed `page.evaluate` during scrolling, or a failed `$$eval` when collecting the links, is not a separate outcome. The listing is assumed to answer both.
- `JSON.parse` is not modelled. Its outcome is a parameter. A parsed entry is read as an object with an optional string `src` and an optional integer `bitrate`. Non-integer or non-numeric bitrates, and non-string `src` values, are not modelled.
- `parseInt` is modelled on integers: values too large for a double and the exponent form of `ToString` are not modelled. An Express query parameter given several times (an array) is not modelled either.
- `innerText` layout rules (CSS visibility, line breaks) are not modelled. An element's `innerText` is taken as given.
- The selectors are an enumeration with their CSS text. What each one matches on a page is part of the page; CSS matching itself is not modelled.
- `VideoSources.SortByBitrate`: the `Array.prototype.sort` in index.js:105 is proved equal to one particular stable sort, the insertion sort `SortedByBitrate`. It is not proved that every stable sort with this comparator gives the same order, though ECMA-262 requires `sort` to be stable.
- `Pipeline.HandleScrape`: the error message of a 500 answer is the model's `Failure` value, not the browser's exception text.
