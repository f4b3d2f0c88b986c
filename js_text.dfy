/**
  The pieces of the JavaScript standard library the scraper leans on for text:
  `String.prototype.trim`, the global `parseInt` (called without a radix) and
  the decimal `ToString` of an integer, following ECMA-262 (sections 22.1.3.32,
  19.2.5 and 6.1.6.1.20).  Strings are sequences of code points.
*/
module JsText {
  import opened Wrappers

  /**
    The WhiteSpace and LineTerminator code points of ECMA-262 (sections 12.2 and
    12.3): TAB, VT, FF, SPACE, NBSP, ZWNBSP, the other members of category Zs, LF,
    CR, LS and PS.
  */
  predicate IsJsWhitespace(c: char) {
    var n := c as int;
    || 0x09 <= n <= 0x0D || n == 0x20 || n == 0xA0 || n == 0x1680
    || 0x2000 <= n <= 0x200A || n == 0x2028 || n == 0x2029 || n == 0x202F
    || n == 0x205F || n == 0x3000 || n == 0xFEFF
  }

  /** Every character of `s` from index `lo` up to (not including) `hi` is white space. */
  predicate WhitespaceBetween(s: string, lo: int, hi: int) {
    forall i :: lo <= i < hi && 0 <= i < |s| ==> IsJsWhitespace(s[i])
  }

  predicate AllWhitespace(s: string) {
    WhitespaceBetween(s, 0, |s|)
  }

  /** The number of white-space characters at the start of `s`. */
  function LeadingWhitespace(s: string): (k: nat)
    ensures k <= |s| && WhitespaceBetween(s, 0, k)
    ensures k < |s| ==> !IsJsWhitespace(s[k])
  {
    if |s| > 0 && IsJsWhitespace(s[0]) then
      var m := LeadingWhitespace(s[1..]);
      assert forall i :: 1 <= i < |s| ==> s[1..][i - 1] == s[i];
      1 + m
    else 0
  }

  /** The number of white-space characters at the end of `s`. */
  function TrailingWhitespace(s: string): (k: nat)
    ensures k <= |s| && WhitespaceBetween(s, |s| - k, |s|)
    ensures k < |s| ==> !IsJsWhitespace(s[|s| - k - 1])
  {
    if |s| > 0 && IsJsWhitespace(s[|s| - 1]) then
      var m := TrailingWhitespace(s[..|s| - 1]);
      1 + m
    else 0
  }

  /** Drops the leading white space. */
  function TrimStart(s: string): string {
    s[LeadingWhitespace(s)..]
  }

  /** `r` is the slice of `s` starting at `k`, with nothing but white space around it. */
  predicate TrimmedAt(s: string, r: string, k: int) {
    && 0 <= k && k + |r| <= |s| && r == s[k..k + |r|]
    && WhitespaceBetween(s, 0, k) && WhitespaceBetween(s, k + |r|, |s|)
  }

  /** `String.prototype.trim`: white space removed at both ends. */
  function Trim(s: string): (r: string)
    ensures |r| > 0 ==> !IsJsWhitespace(r[0]) && !IsJsWhitespace(r[|r| - 1])
    ensures exists k :: TrimmedAt(s, r, k)
  {
    var k := LeadingWhitespace(s);
    var t := s[k..];
    var e := TrailingWhitespace(t);
    var r := t[..|t| - e];
    assert r == s[k..k + |r|];
    assert TrimmedAt(s, r, k);
    r
  }

  /** Trimming twice is the same as trimming once. */
  lemma TrimIdempotent(s: string)
    ensures Trim(Trim(s)) == Trim(s)
  {
    var r := Trim(s);
    assert LeadingWhitespace(r) == 0 && r[0..] == r;
    assert TrailingWhitespace(r) == 0 && r[..|r|] == r;
  }

  /** A string of white space only trims to the empty string, and only such a string does. */
  lemma {:induction false} TrimEmptyIff(s: string)
    ensures Trim(s) == "" <==> AllWhitespace(s)
  {
    var k :| TrimmedAt(s, Trim(s), k);
  }

  // ---------------------------------------------------------------- parseInt

  /** The value of a digit in radix 36 (`0`-`9`, `a`-`z`, `A`-`Z`), or -1 for any other character. */
  function DigitValue(c: char): (v: int)
    ensures -1 <= v < 36
  {
    if '0' <= c <= '9' then c as int - '0' as int
    else if 'a' <= c <= 'z' then c as int - 'a' as int + 10
    else if 'A' <= c <= 'Z' then c as int - 'A' as int + 10
    else -1
  }

  predicate IsDigit(c: char, radix: nat) {
    0 <= DigitValue(c) < radix
  }

  predicate AllDigits(s: string, radix: nat) {
    forall i :: 0 <= i < |s| ==> IsDigit(s[i], radix)
  }

  /** The length of the longest prefix of `s` made of digits of the radix. */
  function DigitPrefixLength(s: string, radix: nat): (n: nat)
    ensures n <= |s| && AllDigits(s[..n], radix)
    ensures n < |s| ==> !IsDigit(s[n], radix)
  {
    if |s| > 0 && IsDigit(s[0], radix) then
      var m := DigitPrefixLength(s[1..], radix);
      assert s[..1 + m] == [s[0]] + s[1..][..m];
      1 + m
    else 0
  }

  /** The number a string of digits denotes, most significant digit first. */
  function DigitsValue(d: string, radix: nat): nat
    requires AllDigits(d, radix)
  {
    if |d| == 0 then 0
    else DigitsValue(d[..|d| - 1], radix) * radix + DigitValue(d[|d| - 1])
  }

  /** Reads the longest run of digits at the start of `body`; `None` when there is none. */
  function ReadDigits(body: string, radix: nat): Option<nat> {
    var n := DigitPrefixLength(body, radix);
    if n == 0 then None else Some(DigitsValue(body[..n], radix))
  }

  /** Reads an unsigned number: a `0x` or `0X` prefix selects radix 16, otherwise the radix is 10. */
  function ReadMagnitude(u: string): Option<nat> {
    if |u| >= 2 && u[0] == '0' && (u[1] == 'x' || u[1] == 'X') then ReadDigits(u[2..], 16)
    else ReadDigits(u, 10)
  }

  /** Takes one leading `+` or `-` off, then reads the number that follows. */
  function ReadSigned(t: string): Option<int> {
    if |t| > 0 && t[0] == '-' then
      match ReadMagnitude(t[1..])
      case None => None
      case Some(m) => Some(-(m as int))
    else if |t| > 0 && t[0] == '+' then ReadOptionInt(ReadMagnitude(t[1..]))
    else ReadOptionInt(ReadMagnitude(t))
  }

  function ReadOptionInt(o: Option<nat>): Option<int> {
    match o
    case None => None
    case Some(m) => Some(m)
  }

  /**
    The global `parseInt(s)` with no radix (ECMA-262 section 19.2.5): leading white
    space is skipped, one sign is taken, a `0x`/`0X` prefix selects radix 16 and
    otherwise the radix is 10, and the longest run of digits that follows is read;
    `None` is `NaN`, the result when that run is empty.  `-0` is the integer 0.
  */
  function ParseInt(s: string): (r: Option<int>)
  {
    ReadSigned(TrimStart(s))
  }

  /** The decimal digits of a natural number, without leading zeros (`0` is `"0"`). */
  function NatToString(n: nat): (s: string)
    ensures |s| > 0 && AllDigits(s, 10)
    ensures |s| > 1 ==> s[0] != '0'
  {
    var last := ['0' + (n % 10) as char];
    if n < 10 then last else NatToString(n / 10) + last
  }

  /** JavaScript's `ToString` of an integer-valued number (ignoring exponent notation for huge magnitudes). */
  function IntToString(n: int): string {
    if n < 0 then "-" + NatToString(-n) else NatToString(n)
  }

  /** Reading back the digits of `NatToString(n)` gives `n`. */
  lemma {:induction false} NatToStringValue(n: nat)
    ensures DigitsValue(NatToString(n), 10) == n
  {
    var s := NatToString(n);
    if n >= 10 {
      NatToStringValue(n / 10);
      assert s[..|s| - 1] == NatToString(n / 10);
    }
  }

  /** A string made only of digits is read to its end. */
  lemma {:induction false} DigitPrefixOfDigits(d: string, radix: nat)
    requires AllDigits(d, radix)
    ensures DigitPrefixLength(d, radix) == |d|
  {
    if |d| > 0 {
      DigitPrefixOfDigits(d[1..], radix);
    }
  }

  /** A decimal numeral without leading zeros is read whole, in radix 10. */
  lemma ReadNumeral(d: string)
    requires |d| > 0 && AllDigits(d, 10) && (|d| > 1 ==> d[0] != '0')
    ensures ReadMagnitude(d) == Some(DigitsValue(d, 10))
  {
    DigitPrefixOfDigits(d, 10);
    assert d[..|d|] == d;
  }

  /** A decimal digit is not white space. */
  lemma DigitIsNotWhitespace(c: char)
    requires IsDigit(c, 10)
    ensures !IsJsWhitespace(c)
  {
    assert '0' <= c <= '9';
  }

  /** Text that does not start with white space is read as it is. */
  lemma ParseIntWithoutLeadingSpace(s: string)
    requires |s| > 0 && !IsJsWhitespace(s[0])
    ensures ParseInt(s) == ReadSigned(s)
  {
    assert LeadingWhitespace(s) == 0;
    assert s[0..] == s;
  }

  /** `parseInt` of an unsigned decimal numeral without leading zeros gives its value. */
  lemma ParseIntOfNumeral(d: string)
    requires |d| > 0 && AllDigits(d, 10) && (|d| > 1 ==> d[0] != '0')
    ensures ParseInt(d) == Some(DigitsValue(d, 10))
  {
    DigitIsNotWhitespace(d[0]);
    ParseIntWithoutLeadingSpace(d);
    assert d[0] != '-' && d[0] != '+' by {
      assert IsDigit(d[0], 10);
    }
    ReadNumeral(d);
  }

  /** A minus sign followed by such a numeral reads as the negated value. */
  lemma ReadNegativeNumeral(d: string, m: string)
    requires |d| > 0 && AllDigits(d, 10) && (|d| > 1 ==> d[0] != '0')
    requires |m| > 0 && m[0] == '-' && m[1..] == d
    ensures ReadSigned(m) == Some(-(DigitsValue(d, 10) as int))
  {
    ReadNumeral(d);
    assert ReadMagnitude(m[1..]) == Some(DigitsValue(d, 10));
  }

  /** `parseInt` of a minus sign followed by such a numeral gives the negated value. */
  lemma ParseIntOfNegativeNumeral(d: string)
    requires |d| > 0 && AllDigits(d, 10) && (|d| > 1 ==> d[0] != '0')
    ensures ParseInt("-" + d) == Some(-(DigitsValue(d, 10) as int))
  {
    var m := "-" + d;
    assert m[0] == '-' && m[1..] == d by {
    }
    ParseIntWithoutLeadingSpace(m);
    ReadNegativeNumeral(d, m);
  }

  /** `parseInt` inverts the decimal `ToString` of every integer. */
  lemma ParseIntToString(n: int)
    ensures ParseInt(IntToString(n)) == Some(n)
  {
    var m: nat := if n < 0 then -n else n;
    var d := NatToString(m);
    NatToStringValue(m);
    if n < 0 {
      ParseIntOfNegativeNumeral(d);
    } else {
      ParseIntOfNumeral(d);
    }
    assert IntToString(n) == if n < 0 then "-" + d else d;
  }

  /**
    Text that starts with anything but white space, a sign or a decimal digit
    (a letter of any case, punctuation, ...) parses to `NaN`.
  */
  lemma ParseIntOfNonNumeric(s: string)
    requires |s| > 0 && !IsJsWhitespace(s[0]) && s[0] != '+' && s[0] != '-' && !IsDigit(s[0], 10)
    ensures ParseInt(s) == None
  {
    ParseIntWithoutLeadingSpace(s);
    assert DigitPrefixLength(s, 10) == 0;
  }

  /** Leading white space adds its length to the white space counted at the start. */
  lemma {:induction false} LeadingWhitespaceAppend(w: string, s: string)
    requires AllWhitespace(w)
    ensures LeadingWhitespace(w + s) == |w| + LeadingWhitespace(s)
  {
    if |w| == 0 {
      assert w + s == s;
    } else {
      assert (w + s)[0] == w[0];
      assert (w + s)[1..] == w[1..] + s;
      LeadingWhitespaceAppend(w[1..], s);
    }
  }

  /** White space in front of the text does not change what `parseInt` reads. */
  lemma ParseIntSkipsWhitespace(w: string, s: string)
    requires AllWhitespace(w)
    ensures ParseInt(w + s) == ParseInt(s)
  {
    LeadingWhitespaceAppend(w, s);
    assert (w + s)[|w| + LeadingWhitespace(s)..] == s[LeadingWhitespace(s)..];
  }

  /** A run of digits followed by a non-digit is read up to the non-digit. */
  lemma {:induction false} DigitPrefixOfDigitsThen(d: string, rest: string, radix: nat)
    requires AllDigits(d, radix) && (|rest| == 0 || !IsDigit(rest[0], radix))
    ensures DigitPrefixLength(d + rest, radix) == |d|
  {
    if |d| == 0 {
      assert d + rest == rest;
    } else {
      assert (d + rest)[0] == d[0];
      assert (d + rest)[1..] == d[1..] + rest;
      DigitPrefixOfDigitsThen(d[1..], rest, radix);
    }
  }

  /**
    A decimal numeral followed by anything that is not a digit is read as that
    numeral: `parseInt("12abc")` is 12.  The one exception is a lone `0` followed by
    `x` or `X`, which starts a hexadecimal number instead.
  */
  lemma ParseIntReadsLeadingNumeral(d: string, rest: string)
    requires |d| > 0 && AllDigits(d, 10) && (|rest| == 0 || !IsDigit(rest[0], 10))
    requires |d| > 1 || d[0] != '0' || |rest| == 0 || (rest[0] != 'x' && rest[0] != 'X')
    ensures ParseInt(d + rest) == Some(DigitsValue(d, 10))
  {
    var t := d + rest;
    assert t[0] == d[0];
    DigitIsNotWhitespace(d[0]);
    ParseIntWithoutLeadingSpace(t);
    assert t[0] != '-' && t[0] != '+' by {
      assert IsDigit(d[0], 10);
    }
    assert !(|t| >= 2 && t[0] == '0' && (t[1] == 'x' || t[1] == 'X')) by {
      if |t| >= 2 && |d| > 1 {
        assert t[1] == d[1] && IsDigit(d[1], 10);
      } else if |t| >= 2 {
        assert t[1] == rest[0];
      }
    }
    DigitPrefixOfDigitsThen(d, rest, 10);
    assert t[..|d|] == d;
  }

  /** Text starting with `0x` or `0X` is read as the hexadecimal digits after the prefix. */
  lemma ParseIntAfterHexPrefix(x: char, u: string)
    requires x == 'x' || x == 'X'
    ensures ParseInt(['0', x] + u) == ReadOptionInt(ReadDigits(u, 16))
  {
    var t := ['0', x] + u;
    ParseIntWithoutLeadingSpace(t);
    assert t[0] == '0' && t[1] == x && t[2..] == u;
  }

  /**
    `0x` or `0X` is followed by the longest run of hexadecimal digits, read in radix
    16: `parseInt("0x10")` is 16 and `parseInt("0x1g")` is 1; without any such digit
    (`"0x"`, `"0xg"`) the result is `NaN`.
  */
  lemma ParseIntOfHex(x: char, h: string, rest: string)
    requires x == 'x' || x == 'X'
    requires AllDigits(h, 16) && (|rest| == 0 || !IsDigit(rest[0], 16))
    ensures ParseInt(['0', x] + h + rest) == if |h| == 0 then None else Some(DigitsValue(h, 16))
  {
    var u := h + rest;
    assert ['0', x] + h + rest == ['0', x] + u;
    ParseIntAfterHexPrefix(x, u);
    DigitPrefixOfDigitsThen(h, rest, 16);
    assert u[..|h|] == h;
  }

  /**
    One sign in front of text that does not itself start with white space or a sign:
    `+` changes nothing and `-` negates the number read (`NaN` stays `NaN`), so
    `parseInt("+5")` is 5, `parseInt("-12abc")` is -12 and `parseInt("+x")` is `NaN`.
  */
  lemma ParseIntOfSigned(t: string)
    requires |t| > 0 && !IsJsWhitespace(t[0]) && t[0] != '+' && t[0] != '-'
    ensures ParseInt("+" + t) == ParseInt(t)
    ensures ParseInt("-" + t) == match ParseInt(t) case None => None case Some(v) => Some(-v)
  {
    ParseIntWithoutLeadingSpace(t);
    ParseIntWithoutLeadingSpace("+" + t);
    ParseIntWithoutLeadingSpace("-" + t);
    assert ("+" + t)[1..] == t;
    assert ("-" + t)[1..] == t;
  }

  /**
    A sign that is not followed by a number is `NaN`: nothing after it (`"+"`), white
    space after it (`"+ 5"`), or a second sign (`"--5"`, `"+-5"`).
  */
  lemma ParseIntOfSignWithoutDigits(sign: char, t: string)
    requires sign == '+' || sign == '-'
    requires |t| == 0 || IsJsWhitespace(t[0]) || t[0] == '+' || t[0] == '-'
    ensures ParseInt([sign] + t) == None
  {
    ParseIntWithoutLeadingSpace([sign] + t);
    assert ([sign] + t)[1..] == t;
  }

  /** Empty text, or text made only of white space, is `NaN`. */
  lemma ParseIntOfBlank(w: string)
    requires AllWhitespace(w)
    ensures ParseInt(w) == None
  {
    LeadingWhitespaceAppend(w, "");
    assert w + "" == w;
    assert w[|w|..] == "";
  }
}
