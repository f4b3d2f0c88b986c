/**
  The record a detail page yields: the callback that `scrapeAdDetailPage` runs in
  the page (index.js lines 89-147), as a function of the rendered document.

  The document is abstracted to what the callback asks of it: for each selector,
  the elements that match it in document order (`querySelector` is the first of
  them).  An element offers its `innerText` (absent on elements that have none),
  its attributes, and its `src` property.  `JSON.parse` is a parameter.
*/
module Extraction {
  import opened Wrappers
  import opened JsText
  import opened VideoSources

  /** An element of the rendered page, as far as the callback reads it. */
  datatype Element = Element(innerText: Option<string>, attributes: map<string, string>, src: string)

  /** The rendered detail page: the elements each selector matches, in document order. */
  datatype Document = Document(matches: map<Selector, seq<Element>>)

  /**
    The selectors the callback queries, named after what they pick out.  A page is
    described by what each of them matches, so the CSS text itself (`Css`) is
    carried only as the table that ties each name to the selector index.js uses.
  */
  datatype Selector =
    | PreviewImage | CoverImage | VideoWithSources | CarouselImages | HeadlineLink | ImageLink
    | OrganizationLink | OrganizationLogo | PromotedLabel | Commentary | Headline | CtaButton

  /** The CSS text index.js passes to `querySelector` for each selector. */
  function Css(sel: Selector): string {
    match sel
    case PreviewImage => "img.ad-preview__dynamic-dimensions-image"
    case CoverImage => "img.object-cover"
    case VideoWithSources => "video[data-sources]"
    case CarouselImages => ".slide-list__list img.ad-preview__dynamic-dimensions-image"
    case HeadlineLink => "a[data-tracking-control-name=\"ad_library_ad_preview_headline_content\"]"
    case ImageLink => "a[data-tracking-control-name=\"ad_library_ad_preview_content_image\"]"
    case OrganizationLink => "a[aria-label^=\"View organization page\"]"
    case OrganizationLogo => "a[aria-label^=\"View organization page\"] img"
    case PromotedLabel => ".text-xs.text-color-text-secondary"
    case Commentary => ".commentary__content"
    case Headline => ".sponsored-content-headline h2"
    case CtaButton => "button[data-tracking-control-name=\"ad_library_ad_detail_cta\"]"
  }

  /** The record the callback returns; `sourceLink` is added by the caller. */
  datatype AdRecord = AdRecord(
    advertiserName: string,
    advertiserLogo: string,
    promotedTag: string,
    adCopy: string,
    imageUrl: string,
    videoUrl: string,
    headline: string,
    ctaText: string,
    ctaLink: string,
    mediaAsset: string,
    mediaAssetCarousel: seq<string>)

  /** `document.querySelectorAll(sel)`. */
  function QuerySelectorAll(doc: Document, sel: Selector): seq<Element> {
    if sel in doc.matches then doc.matches[sel] else []
  }

  /** `document.querySelector(sel)`: the first match, if any. */
  function QuerySelector(doc: Document, sel: Selector): Option<Element> {
    var all := QuerySelectorAll(doc, sel);
    if |all| == 0 then None else Some(all[0])
  }

  /** `document.querySelector(sel)?.innerText?.trim() || ""`. */
  function GetText(doc: Document, sel: Selector): (t: string)
    ensures t == "" <==>
      || QuerySelector(doc, sel).None?
      || QuerySelector(doc, sel).value.innerText.None?
      || AllWhitespace(QuerySelector(doc, sel).value.innerText.value)
    ensures t != "" ==> t == Trim(QuerySelector(doc, sel).value.innerText.value)
  {
    match QuerySelector(doc, sel)
    case None => ""
    case Some(e) =>
      match e.innerText
      case None => ""
      case Some(text) => TrimEmptyIff(text); Trim(text)
  }

  /** `document.querySelector(sel)?.getAttribute(attr) || ""`. */
  function GetAttr(doc: Document, sel: Selector, attr: string): (v: string)
    ensures v != "" ==>
      && QuerySelector(doc, sel).Some? && attr in QuerySelector(doc, sel).value.attributes
      && v == QuerySelector(doc, sel).value.attributes[attr]
    ensures QuerySelector(doc, sel).Some? && attr in QuerySelector(doc, sel).value.attributes ==>
      v == QuerySelector(doc, sel).value.attributes[attr]
  {
    match QuerySelector(doc, sel)
    case None => ""
    case Some(e) => if attr in e.attributes then e.attributes[attr] else ""
  }

  /** Candidate `i` is the first non-empty one. */
  predicate FirstNonEmptyAt(candidates: seq<string>, i: int) {
    && 0 <= i < |candidates| && candidates[i] != ""
    && forall k :: 0 <= k < i ==> candidates[k] == ""
  }

  /** `c0 || c1 || ... || ""`: the first candidate that is not empty, or empty when there is none. */
  function FirstNonEmpty(candidates: seq<string>): (r: string)
    ensures r == "" <==> forall k :: 0 <= k < |candidates| ==> candidates[k] == ""
    ensures r != "" ==> exists i :: FirstNonEmptyAt(candidates, i) && r == candidates[i]
  {
    if |candidates| == 0 then ""
    else if candidates[0] != "" then
      assert FirstNonEmptyAt(candidates, 0);
      candidates[0]
    else
      var r := FirstNonEmpty(candidates[1..]);
      assert r != "" ==> exists i :: FirstNonEmptyAt(candidates, i) && r == candidates[i] by {
        if r != "" {
          var i :| FirstNonEmptyAt(candidates[1..], i) && r == candidates[1..][i];
          assert FirstNonEmptyAt(candidates, i + 1);
        }
      }
      r
  }

  /** `imageUrl`: the preview image's `src`, else the cover image's `src`. */
  function ImageUrl(doc: Document): string {
    FirstNonEmpty([GetAttr(doc, PreviewImage, "src"), GetAttr(doc, CoverImage, "src")])
  }

  /** `ctaLink`: the headline link's `href`, else the image link's `href`. */
  function CtaLink(doc: Document): string {
    FirstNonEmpty([GetAttr(doc, HeadlineLink, "href"), GetAttr(doc, ImageLink, "href")])
  }

  /**
    `videoUrl`: empty without a `video[data-sources]` element; otherwise chosen from
    the parsed attribute (an absent attribute is `JSON.parse(null)`, which is `null`).
  */
  function VideoUrl(doc: Document, parseJson: string -> Parsed): string {
    match QuerySelector(doc, VideoWithSources)
    case None => ""
    case Some(video) =>
      if "data-sources" in video.attributes then VideoUrlOf(parseJson(video.attributes["data-sources"]))
      else VideoUrlOf(NotAnArray)
  }

  /** `carouselItems`: the `src` of every carousel image, in document order. */
  function CarouselItems(doc: Document): (items: seq<string>)
    ensures |items| == |QuerySelectorAll(doc, CarouselImages)|
    ensures forall k :: 0 <= k < |items| ==> items[k] == QuerySelectorAll(doc, CarouselImages)[k].src
  {
    var images := QuerySelectorAll(doc, CarouselImages);
    seq(|images|, k requires 0 <= k < |images| => images[k].src)
  }

  /** `mediaAsset`: the video, else the image, else the first carousel item, else empty. */
  function MediaAsset(videoUrl: string, imageUrl: string, carousel: seq<string>): string {
    FirstNonEmpty([videoUrl, imageUrl, if |carousel| > 0 then carousel[0] else ""])
  }

  /** The object the callback returns for a document. */
  function ExtractAd(doc: Document, parseJson: string -> Parsed): AdRecord {
    var imageUrl := ImageUrl(doc);
    var videoUrl := VideoUrl(doc, parseJson);
    var carousel := CarouselItems(doc);
    AdRecord(
      advertiserName := GetText(doc, OrganizationLink),
      advertiserLogo := GetAttr(doc, OrganizationLogo, "src"),
      promotedTag := GetText(doc, PromotedLabel),
      adCopy := GetText(doc, Commentary),
      imageUrl := imageUrl,
      videoUrl := videoUrl,
      headline := GetText(doc, Headline),
      ctaText := GetText(doc, CtaButton),
      ctaLink := CtaLink(doc),
      mediaAsset := MediaAsset(videoUrl, imageUrl, carousel),
      mediaAssetCarousel := carousel)
  }

  /** The two-candidate fallback `a || b || ""` spelled out. */
  lemma FirstOfTwo(a: string, b: string)
    ensures FirstNonEmpty([a, b]) == if a != "" then a else b
  {
    if a == "" {
      assert [a, b][1..] == [b];
      assert [b][1..] == [];
    }
  }

  /** The three-candidate fallback `a || b || c || ""` spelled out. */
  lemma FirstOfThree(a: string, b: string, c: string)
    ensures FirstNonEmpty([a, b, c]) == if a != "" then a else if b != "" then b else c
  {
    if a == "" {
      assert [a, b, c][1..] == [b, c];
      FirstOfTwo(b, c);
    }
  }

  /** `imageUrl` takes the cover image's `src` only when the preview image has none. */
  lemma ImageUrlFallback(doc: Document)
    ensures var preview := GetAttr(doc, PreviewImage, "src");
      ImageUrl(doc) == if preview != "" then preview else GetAttr(doc, CoverImage, "src")
  {
    FirstOfTwo(GetAttr(doc, PreviewImage, "src"), GetAttr(doc, CoverImage, "src"));
  }

  /** `ctaLink` takes the image link's `href` only when the headline link has none. */
  lemma CtaLinkFallback(doc: Document)
    ensures var headline := GetAttr(doc, HeadlineLink, "href");
      CtaLink(doc) == if headline != "" then headline else GetAttr(doc, ImageLink, "href")
  {
    FirstOfTwo(GetAttr(doc, HeadlineLink, "href"), GetAttr(doc, ImageLink, "href"));
  }

  /**
    `mediaAsset` is the video, else the image, else the first carousel item, else
    empty, each step taken only when the earlier ones are empty.
  */
  lemma MediaAssetFallback(doc: Document, parseJson: string -> Parsed)
    ensures var ad := ExtractAd(doc, parseJson);
      ad.mediaAsset == (if ad.videoUrl != "" then ad.videoUrl
                        else if ad.imageUrl != "" then ad.imageUrl
                        else if |ad.mediaAssetCarousel| > 0 then ad.mediaAssetCarousel[0]
                        else "")
  {
    var carousel := CarouselItems(doc);
    FirstOfThree(VideoUrl(doc, parseJson), ImageUrl(doc), if |carousel| > 0 then carousel[0] else "");
  }

  /** The page where no selector matches anything. */
  const EmptyPage: Document := Document(map[])

  /** A page on which nothing matches gives a record of empty strings and an empty carousel, not an error. */
  lemma EmptyPageGivesEmptyRecord(parseJson: string -> Parsed)
    ensures ExtractAd(EmptyPage, parseJson) == AdRecord("", "", "", "", "", "", "", "", "", "", [])
  {
    forall sel: Selector
      ensures QuerySelector(EmptyPage, sel) == None
    {
    }
    FirstOfTwo("", "");
    FirstOfThree("", "", "");
  }

  /** The same page with its `video[data-sources]` element taken away. */
  function WithoutVideo(doc: Document): Document {
    Document(doc.matches - {VideoWithSources})
  }

  /** The fields other than `videoUrl` and `mediaAsset` do not depend on how `data-sources` parses. */
  lemma VideoParseIsolated(doc: Document, parseJson: string -> Parsed, otherParse: string -> Parsed)
    ensures ExtractAd(doc, parseJson).(videoUrl := "", mediaAsset := "")
         == ExtractAd(doc, otherParse).(videoUrl := "", mediaAsset := "")
  {
  }

  /** Pages on which a selector matches the same elements read the same text through it. */
  lemma SameMatchesSameText(doc: Document, other: Document, sel: Selector)
    requires QuerySelectorAll(doc, sel) == QuerySelectorAll(other, sel)
    ensures GetText(doc, sel) == GetText(other, sel)
  {
    assert QuerySelector(doc, sel) == QuerySelector(other, sel);
  }

  /** Pages on which a selector matches the same elements read the same attribute through it. */
  lemma SameMatchesSameAttr(doc: Document, other: Document, sel: Selector, attr: string)
    requires QuerySelectorAll(doc, sel) == QuerySelectorAll(other, sel)
    ensures GetAttr(doc, sel, attr) == GetAttr(other, sel, attr)
  {
    assert QuerySelector(doc, sel) == QuerySelector(other, sel);
  }

  /** Two pages that differ at most in their video, and agree on its URL, give the same record. */
  lemma SameRecordApartFromVideo(doc: Document, other: Document, parseJson: string -> Parsed)
    requires forall sel :: sel != VideoWithSources ==> QuerySelectorAll(doc, sel) == QuerySelectorAll(other, sel)
    requires VideoUrl(doc, parseJson) == VideoUrl(other, parseJson)
    ensures ExtractAd(doc, parseJson) == ExtractAd(other, parseJson)
  {
    var image := ImageUrl(doc);
    assert image == ImageUrl(other) by {
      SameMatchesSameAttr(doc, other, PreviewImage, "src");
      SameMatchesSameAttr(doc, other, CoverImage, "src");
    }
    var cta := CtaLink(doc);
    assert cta == CtaLink(other) by {
      SameMatchesSameAttr(doc, other, HeadlineLink, "href");
      SameMatchesSameAttr(doc, other, ImageLink, "href");
    }
    var carousel := CarouselItems(doc);
    assert carousel == CarouselItems(other) by {
      assert QuerySelectorAll(doc, CarouselImages) == QuerySelectorAll(other, CarouselImages);
    }
    SameMatchesSameText(doc, other, OrganizationLink);
    SameMatchesSameAttr(doc, other, OrganizationLogo, "src");
    SameMatchesSameText(doc, other, PromotedLabel);
    SameMatchesSameText(doc, other, Commentary);
    SameMatchesSameText(doc, other, Headline);
    SameMatchesSameText(doc, other, CtaButton);
  }

  /**
    A `data-sources` text that fails to parse leaves the record exactly as on the
    same page with no video at all: the failure does not spread to other fields.
  */
  lemma VideoParseFailureIsNoVideo(doc: Document, parseJson: string -> Parsed)
    requires QuerySelector(doc, VideoWithSources).Some?
    requires var video := QuerySelector(doc, VideoWithSources).value;
      "data-sources" in video.attributes && parseJson(video.attributes["data-sources"]) == Unparsable
    ensures ExtractAd(doc, parseJson) == ExtractAd(WithoutVideo(doc), parseJson)
  {
    var without := WithoutVideo(doc);
    assert QuerySelectorAll(without, VideoWithSources) == [];
    SameRecordApartFromVideo(doc, without, parseJson);
  }

  /**
    A page whose video lists a 500 and a 1200 bitrate source yields the 1200 one,
    as video URL and as media asset.
  */
  lemma HigherBitrateWins(doc: Document, parseJson: string -> Parsed, text: string)
    requires QuerySelectorAll(doc, VideoWithSources) == [Element(None, map["data-sources" := text], "")]
    requires parseJson(text) == AnArray([Object(Source(Some("a"), Some(500))), Object(Source(Some("b"), Some(1200)))])
    ensures ExtractAd(doc, parseJson).videoUrl == "b"
    ensures ExtractAd(doc, parseJson).mediaAsset == "b"
  {
    var entries := [Object(Source(Some("a"), Some(500))), Object(Source(Some("b"), Some(1200)))];
    assert !HasNull(entries);
    VideoUrlIsTopSource(AnArray(entries));
    var s := SourcesOf(entries);
    assert TopIndex(s) == 1;
    MediaAssetFallback(doc, parseJson);
  }
}
