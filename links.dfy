/**
  The link collector of the listing page (index.js lines 54-64): every detail
  anchor's `href` loses everything from its first `?` on, is prefixed with the
  site's origin, and the list is passed through a JavaScript `Set`, which drops
  repeated links and keeps each one where it was first seen.  The anchors are
  given as their raw `href` texts, in document order.
*/
module Links {

  const Origin: string := "https://www.linkedin.com"

  /** `href.split("?")[0]`: the part of `href` before its first `?` (all of it when there is none). */
  function BeforeQuery(href: string): (r: string)
    ensures |r| <= |href| && r == href[..|r|]
    ensures '?' !in r
    ensures |r| < |href| ==> href[|r|] == '?'
  {
    if |href| == 0 || href[0] == '?' then ""
    else [href[0]] + BeforeQuery(href[1..])
  }

  /** The absolute link for one anchor: the origin followed by the `href` without its query. */
  function Normalize(href: string): (link: string)
    ensures |link| >= |Origin| && link[..|Origin|] == Origin
    ensures link[|Origin|..] == BeforeQuery(href)
    ensures '?' !in link
  {
    Origin + BeforeQuery(href)
  }

  /** Two anchors give the same link exactly when their `href`s agree up to the first `?`. */
  lemma NormalizeSameLink(a: string, b: string)
    ensures Normalize(a) == Normalize(b) <==> BeforeQuery(a) == BeforeQuery(b)
  {
    if Normalize(a) == Normalize(b) {
      assert BeforeQuery(a) == Normalize(a)[|Origin|..];
    }
  }

  function NormalizeAll(hrefs: seq<string>): (links: seq<string>)
    ensures |links| == |hrefs|
    ensures forall i :: 0 <= i < |hrefs| ==> links[i] == Normalize(hrefs[i])
  {
    seq(|hrefs|, i requires 0 <= i < |hrefs| => Normalize(hrefs[i]))
  }

  predicate NoDuplicates(s: seq<string>) {
    forall i, j :: 0 <= i < j < |s| ==> s[i] != s[j]
  }

  /** The position where `x` first occurs in `s`. */
  function FirstIndex(s: seq<string>, x: string): (i: nat)
    requires x in s
    ensures i < |s| && s[i] == x && x !in s[..i]
  {
    if s[0] == x then 0
    else
      var j := FirstIndex(s[1..], x);
      assert s[..j + 1] == [s[0]] + s[1..][..j];
      j + 1
  }

  /**
    `[...new Set(s)]`: the elements of `s` without repetitions, in the order in which
    they first occur.
  */
  function Dedup(s: seq<string>): (r: seq<string>)
    ensures NoDuplicates(r)
    ensures forall x :: x in r <==> x in s
    ensures |r| <= |s|
  {
    if |s| == 0 then []
    else
      var r := Dedup(s[..|s| - 1]);
      var x := s[|s| - 1];
      assert forall y :: y in s <==> y in s[..|s| - 1] || y == x by {
        assert s == s[..|s| - 1] + [x];
      }
      if x in r then r else r + [x]
  }

  /** A first occurrence keeps its position when more elements are appended. */
  lemma FirstIndexAppend(s: seq<string>, y: string, x: string)
    requires x in s
    ensures FirstIndex(s + [y], x) == FirstIndex(s, x)
  {
    var i := FirstIndex(s, x);
    assert (s + [y])[i] == x;
  }

  /** The result of `Dedup` lists the distinct elements in the order of their first occurrences. */
  lemma {:induction false} DedupFirstSeenOrder(s: seq<string>)
    ensures forall i, j :: 0 <= i < j < |Dedup(s)| ==> FirstIndex(s, Dedup(s)[i]) < FirstIndex(s, Dedup(s)[j])
  {
    if |s| > 0 {
      var p := s[..|s| - 1];
      var x := s[|s| - 1];
      assert s == p + [x];
      DedupFirstSeenOrder(p);
      var r := Dedup(p);
      forall y | y in r
        ensures FirstIndex(s, y) == FirstIndex(p, y)
      {
        FirstIndexAppend(p, x, y);
      }
      if x !in r {
        assert FirstIndex(s, x) == |p|;
      }
    }
  }

  /** A sequence without repetitions is its own `Dedup`. */
  lemma {:induction false} DedupOfDistinct(s: seq<string>)
    requires NoDuplicates(s)
    ensures Dedup(s) == s
  {
    if |s| > 0 {
      var p := s[..|s| - 1];
      DedupOfDistinct(p);
      assert s[|s| - 1] !in p;
      assert s == p + [s[|s| - 1]];
    }
  }

  /** Deduplicating twice is the same as deduplicating once. */
  lemma DedupIdempotent(s: seq<string>)
    ensures Dedup(Dedup(s)) == Dedup(s)
  {
    DedupOfDistinct(Dedup(s));
  }

  /** The links collected from the anchors' `href`s, in first-seen order. */
  function CollectLinks(hrefs: seq<string>): seq<string> {
    Dedup(NormalizeAll(hrefs))
  }

  /** Every collected link is the origin followed by the query-free part of some anchor's `href`. */
  lemma CollectedLinksAreNormalized(hrefs: seq<string>)
    ensures forall link :: link in CollectLinks(hrefs) ==>
      link[..|Origin|] == Origin && '?' !in link &&
      exists i :: 0 <= i < |hrefs| && link == Normalize(hrefs[i])
  {
    var links := NormalizeAll(hrefs);
    forall link | link in CollectLinks(hrefs)
      ensures exists i :: 0 <= i < |hrefs| && link == Normalize(hrefs[i])
    {
      var i := FirstIndex(links, link);
    }
  }

  /**
    Every anchor contributes its link, no link appears twice, the links are in the
    order of their first appearance, and collecting again changes nothing.
  */
  lemma CollectLinksDistinctInOrder(hrefs: seq<string>)
    ensures forall i :: 0 <= i < |hrefs| ==> Normalize(hrefs[i]) in CollectLinks(hrefs)
    ensures NoDuplicates(CollectLinks(hrefs))
    ensures forall i, j :: 0 <= i < j < |CollectLinks(hrefs)| ==>
      FirstIndex(NormalizeAll(hrefs), CollectLinks(hrefs)[i]) < FirstIndex(NormalizeAll(hrefs), CollectLinks(hrefs)[j])
    ensures Dedup(CollectLinks(hrefs)) == CollectLinks(hrefs)
  {
    var links := NormalizeAll(hrefs);
    assert forall i :: 0 <= i < |hrefs| ==> links[i] in links;
    DedupFirstSeenOrder(links);
    DedupIdempotent(links);
  }
}
