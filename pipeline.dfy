/**
  One run of the scraper and the `/scrape` route around it (index.js lines 9-24,
  26-76 and 78-159).

  The browser is not modelled; what it does is given as parameters:
  - `search` is what becomes of the search for a keyword: either the listing of
    results comes up, or a step of the search (loading the ad library, the search
    box, the navigation, the first result card) fails;
  - a `Listing` gives the page height read at each point of the scroll loop and the
    `href`s of the result-card anchors present after a given number of scroll steps;
  - `site` is what becomes of each detail page: the navigation fails, the in-page
    step fails, or the page renders a document;
  - `parseJson` is `JSON.parse` on a video's `data-sources` text.
*/
module Pipeline {
  import opened Wrappers
  import opened Request
  import opened Scroll
  import opened Links
  import VideoSources
  import Extraction

  /** The properties of the objects the scraper returns. */
  datatype Property =
    | AdvertiserName | AdvertiserLogo | PromotedTag | AdCopy | ImageUrl | VideoUrl
    | Headline | CtaText | CtaLink | MediaAsset | MediaAssetCarousel | SourceLink

  /** A property value: a string, or an array of strings. */
  datatype JsValue = Text(text: string) | TextList(items: seq<string>)

  /** A plain object, as its own enumerable properties. */
  type JsObject = map<Property, JsValue>

  /** The object literal the in-page callback returns (index.js lines 129-146). */
  function AdObject(ad: Extraction.AdRecord): JsObject {
    map[
      AdvertiserName := Text(ad.advertiserName),
      AdvertiserLogo := Text(ad.advertiserLogo),
      PromotedTag := Text(ad.promotedTag),
      AdCopy := Text(ad.adCopy),
      ImageUrl := Text(ad.imageUrl),
      VideoUrl := Text(ad.videoUrl),
      Headline := Text(ad.headline),
      CtaText := Text(ad.ctaText),
      CtaLink := Text(ad.ctaLink),
      MediaAsset := Text(ad.mediaAsset),
      MediaAssetCarousel := TextList(ad.mediaAssetCarousel)]
  }

  /** The callback's object has every property but `sourceLink`. */
  lemma AdObjectProperties(ad: Extraction.AdRecord)
    ensures forall p :: p in AdObject(ad) <==> p != SourceLink
  {
    forall p
      ensures p in AdObject(ad) <==> p != SourceLink
    {
      match p
      case SourceLink =>
      case _ =>
    }
  }

  /** What `scrapeAdDetailPage` resolves to: the record, or `{}` when the in-page step failed. */
  datatype Detail = Scraped(ad: Extraction.AdRecord) | Failed

  function DetailObject(detail: Detail): JsObject {
    match detail
    case Scraped(ad) => AdObject(ad)
    case Failed => map[]
  }

  /**
    `{ ...detail, sourceLink: link }`: every property of the detail is copied, and
    `sourceLink` is set to the link, over any `sourceLink` the detail had.
  */
  function WithSourceLink(detail: JsObject, link: string): (o: JsObject)
    ensures SourceLink in o && o[SourceLink] == Text(link)
    ensures forall p :: p != SourceLink ==> (p in o <==> p in detail)
    ensures forall p :: p != SourceLink && p in detail ==> o[p] == detail[p]
  {
    detail[SourceLink := Text(link)]
  }

  /** The entry pushed for a link once its detail is known. */
  function Entry(link: string, detail: Detail): JsObject {
    WithSourceLink(DetailObject(detail), link)
  }

  /**
    An entry always carries its link; a failed detail gives an entry with nothing
    but the link, and a scraped one carries all eleven properties of the record.
  */
  lemma EntryShape(link: string, detail: Detail)
    ensures Entry(link, detail)[SourceLink] == Text(link)
    ensures detail.Failed? ==> Entry(link, detail) == map[SourceLink := Text(link)]
    ensures detail.Scraped? ==> forall p :: p in Entry(link, detail)
    ensures detail.Scraped? ==> forall p :: p != SourceLink ==> Entry(link, detail)[p] == AdObject(detail.ad)[p]
  {
    if detail.Scraped? {
      AdObjectProperties(detail.ad);
    }
  }

  /** What becomes of a detail page. */
  datatype DetailPage =
    | NavigationFails                     // `browser.newPage` or `page.goto` rejects: outside the `try`
    | ScriptFails                         // `page.evaluate` or `page.close` throws: inside the `try`
    | Rendered(doc: Extraction.Document)

  /** Why a run fails as a whole. */
  datatype Failure = SearchFailed | NavigationFailed(url: string)

  /** The detail of a page whose navigation succeeded. */
  function DetailOf(page: DetailPage, parseJson: string -> VideoSources.Parsed): Detail
    requires !page.NavigationFails?
  {
    match page
    case ScriptFails => Failed
    case Rendered(doc) => Scraped(Extraction.ExtractAd(doc, parseJson))
  }

  /**
    `scrapeAdDetailPage(browser, link)`: a navigation failure rejects, and the
    rejection is not caught; any later failure is caught and gives `{}`.
  */
  function VisitDetail(link: string, page: DetailPage, parseJson: string -> VideoSources.Parsed): Result<Detail, Failure> {
    if page.NavigationFails? then Err(NavigationFailed(link)) else Ok(DetailOf(page, parseJson))
  }

  /**
    The three ways a detail visit ends: a failed navigation fails the run with that
    link; a failed in-page step gives the entry `{ sourceLink }`; a rendered page
    gives the callback's record for that page, to which `EntryShape` adds the link.
  */
  lemma VisitDetailOutcomes(link: string, page: DetailPage, parseJson: string -> VideoSources.Parsed)
    ensures VisitDetail(link, page, parseJson).Err? <==> page.NavigationFails?
    ensures page.NavigationFails? ==> VisitDetail(link, page, parseJson) == Err(NavigationFailed(link))
    ensures page.ScriptFails? ==>
      VisitDetail(link, page, parseJson).Ok? &&
      Entry(link, VisitDetail(link, page, parseJson).value) == map[SourceLink := Text(link)]
    ensures page.Rendered? ==>
      VisitDetail(link, page, parseJson).Ok? &&
      VisitDetail(link, page, parseJson).value == Scraped(Extraction.ExtractAd(page.doc, parseJson))
  {
    if !page.NavigationFails? {
      EntryShape(link, DetailOf(page, parseJson));
    }
  }

  /**
    `links.slice(0, end)`: the first `end` links, all of them when `end` is larger,
    and when `end` is negative all but the last `-end`.
  */
  function SliceTo(links: seq<string>, end: int): (r: seq<string>)
    ensures |r| <= |links| && r == links[..|r|]
  {
    var n := if end >= 0 then (if end < |links| then end else |links|)
             else (if |links| + end > 0 then |links| + end else 0);
    links[..n]
  }

  /**
    A positive limit caps the number of links and keeps all of them when there are
    no more than the limit; a negative one drops that many links from the end.
  */
  lemma SliceToLimit(links: seq<string>, limit: int)
    ensures limit >= 0 ==> |SliceTo(links, limit)| == (if limit < |links| then limit else |links|)
    ensures limit >= |links| ==> SliceTo(links, limit) == links
    ensures limit < 0 ==> SliceTo(links, limit) + links[|SliceTo(links, limit)|..] == links
    ensures limit < 0 ==> |links| - |SliceTo(links, limit)| == (if -limit < |links| then -limit else |links|)
  {
  }

  /** The links of a slice are distinct when the links are. */
  lemma SliceKeepsDistinct(links: seq<string>, end: int)
    requires NoDuplicates(links)
    ensures NoDuplicates(SliceTo(links, end))
  {
    var r := SliceTo(links, end);
    forall i, j | 0 <= i < j < |r|
      ensures r[i] != r[j]
    {
      assert r[i] == links[i] && r[j] == links[j];
    }
  }

  /** Link `i` is the first whose navigation fails. */
  predicate FirstNavigationFailure(links: seq<string>, site: string -> DetailPage, i: int) {
    && 0 <= i < |links| && site(links[i]).NavigationFails?
    && forall k :: 0 <= k < i ==> !site(links[k]).NavigationFails?
  }

  /** No link's navigation fails. */
  predicate AllNavigate(links: seq<string>, site: string -> DetailPage) {
    forall k :: 0 <= k < |links| ==> !site(links[k]).NavigationFails?
  }

  /**
    The loop of lines 66-71: each of the first `maxAdsToScrape` links is visited in
    turn and its entry pushed.  The result is one entry per link, in link order,
    each carrying its link, when every navigation succeeds; otherwise the run stops
    at the first link whose navigation fails.
  */
  method ScrapeDetails(adLinks: seq<string>, maxAdsToScrape: int, site: string -> DetailPage,
                       parseJson: string -> VideoSources.Parsed)
    returns (result: Result<seq<JsObject>, Failure>)
    ensures var links := SliceTo(adLinks, maxAdsToScrape);
      result.Ok? <==> AllNavigate(links, site)
    ensures var links := SliceTo(adLinks, maxAdsToScrape);
      result.Ok? ==>
        && |result.value| == |links|
        && forall i :: 0 <= i < |links| ==> result.value[i] == Entry(links[i], DetailOf(site(links[i]), parseJson))
    ensures var links := SliceTo(adLinks, maxAdsToScrape);
      result.Err? ==> exists i :: FirstNavigationFailure(links, site, i) && result.error == NavigationFailed(links[i])
  {
    var links := SliceTo(adLinks, maxAdsToScrape);
    var adDetails: seq<JsObject> := [];
    for n := 0 to |links|
      invariant |adDetails| == n
      invariant AllNavigate(links[..n], site)
      invariant forall i :: 0 <= i < n ==> adDetails[i] == Entry(links[i], DetailOf(site(links[i]), parseJson))
    {
      var link := links[n];
      var detail := VisitDetail(link, site(link), parseJson);
      if detail.Err? {
        assert FirstNavigationFailure(links, site, n) by {
          forall k | 0 <= k < n
            ensures !site(links[k]).NavigationFails?
          {
            assert links[..n][k] == links[k];
          }
        }
        return Err(detail.error);
      }
      adDetails := adDetails + [WithSourceLink(DetailObject(detail.value), link)];
      assert links[..n + 1] == links[..n] + [link];
    }
    assert links[..|links|] == links;
    result := Ok(adDetails);
  }

  /** What the search page gives once a keyword has been searched for. */
  datatype Listing = Listing(heights: nat -> int, hrefsAfter: nat -> seq<string>)

  /** The links a listing yields: the anchors present once scrolling stops, collected. */
  function ListingLinks(listing: Listing, adsScroll: int): seq<string> {
    CollectLinks(listing.hrefsAfter(StepsTaken(listing.heights, adsScroll)))
  }

  /**
    `scrapeLinkedInAds` (lines 26-76): search, scroll, collect the links, then visit
    the first `maxAdsToScrape` of them.  On success there is one entry per visited
    link, in the order the links were first seen, each with its own `sourceLink`.
  */
  method ScrapeLinkedInAds(request: SearchRequest, search: string -> Option<Listing>,
                           site: string -> DetailPage, parseJson: string -> VideoSources.Parsed)
    returns (result: Result<seq<JsObject>, Failure>)
    ensures search(request.keyword).None? ==> result == Err(SearchFailed)
    ensures search(request.keyword).Some? ==>
      var links := SliceTo(ListingLinks(search(request.keyword).value, request.adsScroll), request.maxAdsToScrape);
      && (result.Ok? <==> AllNavigate(links, site))
      && (result.Ok? ==>
            && |result.value| == |links|
            && (forall i :: 0 <= i < |links| ==> result.value[i] == Entry(links[i], DetailOf(site(links[i]), parseJson)))
            && forall i :: 0 <= i < |links| ==> SourceLink in result.value[i] && result.value[i][SourceLink] == Text(links[i]))
      && (result.Err? ==> exists i :: FirstNavigationFailure(links, site, i) && result.error == NavigationFailed(links[i]))
  {
    var found := search(request.keyword);
    if found.None? {
      return Err(SearchFailed);
    }
    var listing := found.value;
    var steps, _ := ScrollListing(listing.heights, request.adsScroll);
    var adLinks := CollectLinks(listing.hrefsAfter(steps));
    result := ScrapeDetails(adLinks, request.maxAdsToScrape, site, parseJson);
    if result.Ok? {
      var links := SliceTo(adLinks, request.maxAdsToScrape);
      forall i | 0 <= i < |links|
        ensures SourceLink in result.value[i] && result.value[i][SourceLink] == Text(links[i])
      {
        EntryShape(links[i], DetailOf(site(links[i]), parseJson));
      }
    }
  }

  /**
    No two entries of a run share a `sourceLink`, and a positive limit bounds the
    number of entries.
  */
  lemma RunLinksDistinct(listing: Listing, request: SearchRequest)
    ensures var links := SliceTo(ListingLinks(listing, request.adsScroll), request.maxAdsToScrape);
      && NoDuplicates(links)
      && (request.maxAdsToScrape > 0 ==> |links| <= request.maxAdsToScrape)
  {
    var hrefs := listing.hrefsAfter(StepsTaken(listing.heights, request.adsScroll));
    CollectLinksDistinctInOrder(hrefs);
    SliceKeepsDistinct(ListingLinks(listing, request.adsScroll), request.maxAdsToScrape);
  }

  /** Every `sourceLink` of a run is a URL on the LinkedIn origin and carries no query. */
  lemma RunLinksOnOrigin(listing: Listing, request: SearchRequest)
    ensures var links := SliceTo(ListingLinks(listing, request.adsScroll), request.maxAdsToScrape);
      forall i :: 0 <= i < |links| ==> |links[i]| >= |Origin| && links[i][..|Origin|] == Origin && '?' !in links[i]
  {
    var all := ListingLinks(listing, request.adsScroll);
    var hrefs := listing.hrefsAfter(StepsTaken(listing.heights, request.adsScroll));
    var links := SliceTo(all, request.maxAdsToScrape);
    forall i | 0 <= i < |links|
      ensures |links[i]| >= |Origin| && links[i][..|Origin|] == Origin && '?' !in links[i]
    {
      assert links[i] == all[i];
      var k := FirstIndex(NormalizeAll(hrefs), all[i]);
      assert all[i] == Normalize(hrefs[k]);
    }
  }

  /** The body of the JSON response. */
  datatype ResponseBody =
    | Succeeded(count: nat, results: seq<JsObject>)   // { success: true, count, results }
    | Errored(failure: Failure)                       // { success: false, error: error.message }

  datatype Response = Response(status: nat, body: ResponseBody)

  /** Lines 19 and 22: 200 with the results and their count, or 500 with the error. */
  function Respond(result: Result<seq<JsObject>, Failure>): (r: Response)
    ensures r.status == 200 <==> result.Ok?
    ensures r.status != 200 ==> r.status == 500 && r.body == Errored(result.error)
    ensures result.Ok? ==> r.body.Succeeded? && r.body.results == result.value && r.body.count == |result.value|
  {
    match result
    case Ok(results) => Response(200, Succeeded(|results|, results))
    case Err(failure) => Response(500, Errored(failure))
  }

  /**
    The `/scrape` route (lines 9-24): the query parameters are defaulted, one run is
    made, and its outcome is sent back.
  */
  method HandleScrape(keyword: Option<string>, limit: Option<string>, adsScroll: Option<string>,
                      search: string -> Option<Listing>, site: string -> DetailPage,
                      parseJson: string -> VideoSources.Parsed)
    returns (response: Response)
    ensures search(SearchKeyword(keyword)).None? ==> response == Response(500, Errored(SearchFailed))
    ensures response.status == 200 || response.status == 500
    ensures search(SearchKeyword(keyword)).Some? ==>
      var links := SliceTo(ListingLinks(search(SearchKeyword(keyword)).value, AdsScroll(adsScroll)), MaxAdsToScrape(limit));
      && (response.status == 200 <==> AllNavigate(links, site))
      && (response.status == 200 ==>
            && response.body.Succeeded?
            && response.body.count == |links| == |response.body.results|
            && forall i :: 0 <= i < |links| ==>
                 response.body.results[i] == Entry(links[i], DetailOf(site(links[i]), parseJson)))
      && (response.status == 500 ==>
            exists i :: FirstNavigationFailure(links, site, i) && response.body == Errored(NavigationFailed(links[i])))
  {
    var request := FromQuery(keyword, limit, adsScroll);
    var result := ScrapeLinkedInAds(request, search, site, parseJson);
    response := Respond(result);
  }
}
