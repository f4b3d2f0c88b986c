/**
  Choice of the video URL on a detail page (index.js lines 100-110): the
  `data-sources` attribute of the `video[data-sources]` element is parsed as JSON,
  the array is sorted in place by descending `bitrate || 0` with
  `Array.prototype.sort`, and `sources[0]?.src || ""` is taken.  Every exception in
  between is caught and leaves the URL empty.

  `JSON.parse` itself is not modelled: its outcome is given as a `Parsed` value.
  Array entries other than `null` are read as objects whose `src` is a string (or
  absent) and whose `bitrate` is an integer (or absent or zero); a JSON string,
  number, boolean or array entry has neither property and is read as
  `Source(None, None)`.
*/
module VideoSources {
  import opened Wrappers

  /** One object of the `data-sources` array. */
  datatype Source = Source(src: Option<string>, bitrate: Option<int>)

  /** An element of the parsed array: `null`, or an object. */
  datatype Entry = Null | Object(source: Source)

  /** The outcome of `JSON.parse` on the attribute. */
  datatype Parsed =
    | Unparsable              // JSON.parse throws
    | NotAnArray              // an object, string, number, boolean or null: `sources.sort` throws
    | AnArray(entries: seq<Entry>)

  /** The sort key `bitrate || 0`. */
  function Rank(s: Source): int {
    match s.bitrate
    case Some(b) => b
    case None => 0
  }

  /** `src || ""`. */
  function SrcOrEmpty(s: Source): string {
    match s.src
    case Some(u) => u
    case None => ""
  }

  predicate SortedDesc(s: seq<Source>) {
    forall i, j :: 0 <= i < j < |s| ==> Rank(s[i]) >= Rank(s[j])
  }

  /** Puts `x` into `sorted` after every element ranked at least as high as `x`. */
  function Insert(sorted: seq<Source>, x: Source): (r: seq<Source>)
    ensures |r| == |sorted| + 1
  {
    if |sorted| == 0 || Rank(sorted[0]) < Rank(x) then [x] + sorted
    else [sorted[0]] + Insert(sorted[1..], x)
  }

  /**
    The array after `sources.sort((a, b) => (b.bitrate || 0) - (a.bitrate || 0))`:
    descending by rank, and, since the sort is stable (ECMA-262 section 23.1.3.30),
    entries of equal rank in their original order.  Written as an insertion sort
    that adds the entries one by one from the front.
  */
  function SortedByBitrate(s: seq<Source>): (r: seq<Source>)
    ensures |r| == |s|
  {
    if |s| == 0 then [] else Insert(SortedByBitrate(s[..|s| - 1]), s[|s| - 1])
  }

  lemma {:induction false} InsertPermutes(sorted: seq<Source>, x: Source)
    ensures multiset(Insert(sorted, x)) == multiset(sorted) + multiset{x}
  {
    if |sorted| > 0 && Rank(sorted[0]) >= Rank(x) {
      InsertPermutes(sorted[1..], x);
      assert sorted == [sorted[0]] + sorted[1..];
    }
  }

  lemma {:induction false} InsertKeepsOrder(sorted: seq<Source>, x: Source)
    requires SortedDesc(sorted)
    ensures SortedDesc(Insert(sorted, x))
  {
    if |sorted| > 0 && Rank(sorted[0]) >= Rank(x) {
      InsertKeepsOrder(sorted[1..], x);
      InsertPermutes(sorted[1..], x);
      var r := Insert(sorted[1..], x);
      forall k | 0 <= k < |r|
        ensures Rank(sorted[0]) >= Rank(r[k])
      {
        assert r[k] in multiset(r);
        assert r[k] in sorted[1..] || r[k] == x;
      }
    }
  }

  /** The sorted array is ordered by descending rank and holds exactly the entries it was given. */
  lemma {:induction false} SortedByBitrateIsSortedPermutation(s: seq<Source>)
    ensures SortedDesc(SortedByBitrate(s))
    ensures multiset(SortedByBitrate(s)) == multiset(s)
  {
    if |s| > 0 {
      SortedByBitrateIsSortedPermutation(s[..|s| - 1]);
      InsertKeepsOrder(SortedByBitrate(s[..|s| - 1]), s[|s| - 1]);
      InsertPermutes(SortedByBitrate(s[..|s| - 1]), s[|s| - 1]);
      assert s == s[..|s| - 1] + [s[|s| - 1]];
    }
  }

  /**
    Where `Insert` puts `x`: at the position `j` that has only higher or equal ranks
    before it and only lower ranks after it.
  */
  lemma {:induction false} InsertAt(sorted: seq<Source>, x: Source, j: nat)
    requires SortedDesc(sorted) && j <= |sorted|
    requires j > 0 ==> Rank(sorted[j - 1]) >= Rank(x)
    requires forall k :: j <= k < |sorted| ==> Rank(sorted[k]) < Rank(x)
    ensures Insert(sorted, x) == sorted[..j] + [x] + sorted[j..]
  {
    if j > 0 {
      InsertAt(sorted[1..], x, j - 1);
      assert sorted[..j] == [sorted[0]] + sorted[1..][..j - 1];
      assert sorted[j..] == sorted[1..][j - 1..];
    }
  }

  /** The position of the first entry whose rank is the highest. */
  function TopIndex(s: seq<Source>): (t: nat)
    requires |s| > 0
    ensures t < |s|
    ensures forall k :: 0 <= k < |s| ==> Rank(s[k]) <= Rank(s[t])
    ensures forall k :: 0 <= k < t ==> Rank(s[k]) < Rank(s[t])
  {
    if |s| == 1 then 0
    else
      var t := TopIndex(s[..|s| - 1]);
      if Rank(s[t]) < Rank(s[|s| - 1]) then |s| - 1 else t
  }

  /** After the sort, the first entry is the earliest of the highest-ranked ones. */
  lemma {:induction false} SortedHeadIsTop(s: seq<Source>)
    requires |s| > 0
    ensures SortedByBitrate(s)[0] == s[TopIndex(s)]
  {
    if |s| > 1 {
      var p := s[..|s| - 1];
      SortedHeadIsTop(p);
      assert s[TopIndex(p)] == p[TopIndex(p)];
    }
  }

  /** Sorting one more entry is inserting it into the sorted prefix. */
  lemma SortedByBitrateSnoc(s: seq<Source>, k: nat)
    requires k < |s|
    ensures SortedByBitrate(s[..k + 1]) == Insert(SortedByBitrate(s[..k]), s[k])
  {
    assert s[..k + 1][..k] == s[..k];
  }

  /** A sequence that agrees with `r` before `j`, holds `x` at `j` and `r` shifted by one after it. */
  lemma ShiftedInsert(b: seq<Source>, r: seq<Source>, x: Source, j: nat)
    requires |b| == |r| + 1 && j <= |r|
    requires forall k :: 0 <= k < j ==> b[k] == r[k]
    requires b[j] == x
    requires forall k :: j < k < |b| ==> b[k] == r[k - 1]
    ensures b == r[..j] + [x] + r[j..]
  {
  }

  /**
    One pass of the sort: the entry at `i` moves left past every entry of lower rank
    in the already sorted prefix.
  */
  method InsertIntoPrefix(a: array<Source>, i: nat)
    requires i < a.Length && SortedDesc(a[..i])
    modifies a
    ensures a[..i + 1] == Insert(old(a[..i]), old(a[i]))
    ensures a[i + 1..] == old(a[i + 1..])
  {
    var x := a[i];
    ghost var r := a[..i];
    var j := i;
    while j > 0 && Rank(a[j - 1]) < Rank(x)
      invariant 0 <= j <= i
      invariant forall k :: 0 <= k < j ==> a[k] == r[k]
      invariant forall k :: j < k <= i ==> a[k] == r[k - 1]
      invariant forall k :: j <= k < i ==> Rank(r[k]) < Rank(x)
      invariant a[i + 1..] == old(a[i + 1..])
    {
      a[j] := a[j - 1];
      j := j - 1;
    }
    a[j] := x;
    InsertAt(r, x, j);
    ShiftedInsert(a[..i + 1], r, x, j);
  }

  /**
    `sources.sort(...)` on the array itself: afterwards the array holds the stable
    descending order of its old contents.
  */
  method SortByBitrate(a: array<Source>)
    modifies a
    ensures a[..] == SortedByBitrate(old(a[..]))
  {
    ghost var original := a[..];
    var i := 0;
    while i < a.Length
      invariant 0 <= i <= a.Length
      invariant a[..i] == SortedByBitrate(original[..i])
      invariant a[i..] == original[i..]
    {
      SortedByBitrateIsSortedPermutation(original[..i]);
      assert a[i] == original[i];
      InsertIntoPrefix(a, i);
      SortedByBitrateSnoc(original, i);
      assert a[i + 1..] == original[i + 1..];
      i := i + 1;
    }
    assert a[..] == a[..a.Length];
    assert original == original[..a.Length];
  }

  predicate HasNull(entries: seq<Entry>) {
    exists k :: 0 <= k < |entries| && entries[k].Null?
  }

  function SourcesOf(entries: seq<Entry>): (s: seq<Source>)
    requires !HasNull(entries)
    ensures |s| == |entries|
    ensures forall k :: 0 <= k < |entries| ==> s[k] == entries[k].source
  {
    seq(|entries|, k requires 0 <= k < |entries| => entries[k].source)
  }

  /**
    The video URL for a parse outcome.  It is empty when parsing throws, when the
    value is not an array, when the array is empty, and when it holds a `null` (the
    comparator throws on it as soon as there are two entries; a lone `null` has no
    `src`); otherwise it is the `src` of the first entry after the sort, or empty.
  */
  function VideoUrlOf(parsed: Parsed): string {
    match parsed
    case Unparsable => ""
    case NotAnArray => ""
    case AnArray(entries) =>
      if |entries| == 0 || HasNull(entries) then ""
      else SrcOrEmpty(SortedByBitrate(SourcesOf(entries))[0])
  }

  /**
    The URL is that of the earliest source whose `bitrate || 0` is the highest of
    all, whenever the array is non-empty and free of `null`; in every other case it
    is empty.
  */
  lemma VideoUrlIsTopSource(parsed: Parsed)
    ensures parsed.AnArray? && |parsed.entries| > 0 && !HasNull(parsed.entries) ==>
      var s := SourcesOf(parsed.entries);
      VideoUrlOf(parsed) == SrcOrEmpty(s[TopIndex(s)])
    ensures !(parsed.AnArray? && |parsed.entries| > 0 && !HasNull(parsed.entries)) ==> VideoUrlOf(parsed) == ""
  {
    if parsed.AnArray? && |parsed.entries| > 0 && !HasNull(parsed.entries) {
      SortedHeadIsTop(SourcesOf(parsed.entries));
    }
  }

  /**
    The statements of lines 103-109: parse outcome in, URL out, with the sort done
    in place on an array.
  */
  method SelectVideoUrl(parsed: Parsed) returns (url: string)
    ensures url == VideoUrlOf(parsed)
  {
    url := "";
    match parsed {
      case Unparsable =>
      case NotAnArray =>
      case AnArray(entries) =>
        if |entries| > 0 && !HasNull(entries) {
          var sources := SourcesOf(entries);
          var a := new Source[|sources|](k requires 0 <= k < |sources| => sources[k]);
          assert a[..] == sources;
          SortByBitrate(a);
          url := SrcOrEmpty(a[0]);
        }
    }
  }
}
