/** The JavaScript string operations the core relies on, on `seq<char>`:
    `trim`, ASCII case mapping, `startsWith`/`includes`, `parseInt(_, 10)`,
    number formatting, UTF-8 (`Buffer.from`), lower-case hex (`digest('hex')`)
    and `encodeURIComponent`. */
module Text {
  import opened Common

  type byte = b: int | 0 <= b < 256

  // ---------------------------------------------------------------------
  // Whitespace and trimming

  /** WhiteSpace and LineTerminator code points of ECMA-262, the set that
      `String.prototype.trim` removes and `parseInt` skips. */
  predicate IsJsSpace(c: char) {
    || c == '\t' || c == '\n' || c == '\U{B}' || c == '\U{C}' || c == '\r'
    || c == ' ' || c == '\U{A0}' || c == '\U{1680}'
    || ('\U{2000}' <= c <= '\U{200A}')
    || c == '\U{2028}' || c == '\U{2029}' || c == '\U{202F}' || c == '\U{205F}'
    || c == '\U{3000}' || c == '\U{FEFF}'
  }

  predicate AllSpace(s: string) {
    forall i :: 0 <= i < |s| ==> IsJsSpace(s[i])
  }

  /** The index of the first non-blank at or after `i` (or `|s|`). */
  function SkipSpaces(s: string, i: nat): (j: nat)
    requires i <= |s|
    ensures i <= j <= |s|
    decreases |s| - i
  {
    if i < |s| && IsJsSpace(s[i]) then SkipSpaces(s, i + 1) else i
  }

  /** The end of `s[lo..hi]` once its trailing blanks are dropped. */
  function BackSpaces(s: string, lo: nat, hi: nat): (h: nat)
    requires lo <= hi <= |s|
    ensures lo <= h <= hi
    decreases hi
  {
    if lo < hi && IsJsSpace(s[hi - 1]) then BackSpaces(s, lo, hi - 1) else hi
  }

  lemma {:induction false} SkipSpacesFacts(s: string, i: nat)
    requires i <= |s|
    decreases |s| - i
    ensures var j := SkipSpaces(s, i);
      && (forall k :: i <= k < j ==> IsJsSpace(s[k]))
      && (j < |s| ==> !IsJsSpace(s[j]))
  {
    if i < |s| && IsJsSpace(s[i]) {
      SkipSpacesFacts(s, i + 1);
    }
  }

  lemma {:induction false} BackSpacesFacts(s: string, lo: nat, hi: nat)
    requires lo <= hi <= |s|
    decreases hi
    ensures var h := BackSpaces(s, lo, hi);
      && (forall k :: h <= k < hi ==> IsJsSpace(s[k]))
      && (lo < h ==> !IsJsSpace(s[h - 1]))
  {
    if lo < hi && IsJsSpace(s[hi - 1]) {
      BackSpacesFacts(s, lo, hi - 1);
    }
  }

  /** The text after the leading blanks, as `parseInt` skips them. */
  function TrimStart(s: string): string {
    s[SkipSpaces(s, 0)..]
  }

  lemma TrimStartFixed(s: string)
    requires s != [] ==> !IsJsSpace(s[0])
    ensures TrimStart(s) == s
  {
    assert SkipSpaces(s, 0) == 0;
  }

  /** `s.trim()`. The result has no whitespace at either end, and it is empty
      exactly when `s` is all whitespace. */
  function Trim(s: string): (r: string)
    ensures |r| <= |s|
    ensures r != [] ==> !IsJsSpace(r[0]) && !IsJsSpace(r[|r| - 1])
    ensures r == [] <==> AllSpace(s)
  {
    var a := SkipSpaces(s, 0);
    var b := BackSpaces(s, a, |s|);
    SkipSpacesFacts(s, 0);
    BackSpacesFacts(s, a, |s|);
    assert b == a ==> AllSpace(s);
    s[a..b]
  }

  /** Trimming drops characters only at the ends: what remains is a run of
      `s`. */
  lemma TrimIsInfix(s: string) returns (k: nat)
    ensures k + |Trim(s)| <= |s| && Trim(s) == s[k..k + |Trim(s)|]
  {
    k := SkipSpaces(s, 0);
  }

  /** Trimming twice is trimming once. */
  lemma TrimIdempotent(s: string)
    ensures Trim(Trim(s)) == Trim(s)
  {
    var r := Trim(s);
    assert SkipSpaces(r, 0) == 0;
    assert BackSpaces(r, 0, |r|) == |r|;
    assert r[0..|r|] == r;
  }

  // ---------------------------------------------------------------------
  // Case mapping, prefixes, substrings

  predicate IsUpperAscii(c: char) { 'A' <= c <= 'Z' }
  predicate IsLowerAscii(c: char) { 'a' <= c <= 'z' }

  function LowerChar(c: char): (r: char)
    ensures !IsUpperAscii(r)
  {
    if IsUpperAscii(c) then (c as int + 32) as char else c
  }

  function UpperChar(c: char): (r: char)
    ensures !IsLowerAscii(r)
  {
    if IsLowerAscii(c) then (c as int - 32) as char else c
  }

  /** `s.toLowerCase()` restricted to the ASCII letters. */
  function ToLower(s: string): (r: string)
    ensures |r| == |s|
    ensures forall i :: 0 <= i < |s| ==> r[i] == LowerChar(s[i])
  {
    if s == [] then [] else [LowerChar(s[0])] + ToLower(s[1..])
  }

  predicate StartsWith(s: string, prefix: string) {
    |prefix| <= |s| && s[..|prefix|] == prefix
  }

  /** `s.includes(t)`. */
  predicate Contains(s: string, t: string)
    decreases |s|
  {
    StartsWith(s, t) || (s != [] && Contains(s[1..], t))
  }

  /** `s.split(sep)[0]`: everything before the first `sep`, or all of `s`. */
  function BeforeFirst(s: string, sep: char): (r: string)
    ensures |r| <= |s| && r == s[..|r|]
    ensures sep !in r
    ensures |r| < |s| ==> s[|r|] == sep
  {
    if s == [] || s[0] == sep then [] else [s[0]] + BeforeFirst(s[1..], sep)
  }

  /** `s.replace(/[-_]/g, ' ')`. */
  function DashesToSpaces(s: string): (r: string)
    ensures |r| == |s|
    ensures forall i :: 0 <= i < |s| ==> r[i] == (if s[i] == '-' || s[i] == '_' then ' ' else s[i])
  {
    if s == [] then [] else [if s[0] == '-' || s[0] == '_' then ' ' else s[0]] + DashesToSpaces(s[1..])
  }

  /** `s.length`: JavaScript counts UTF-16 code units, so a code point above
      U+FFFF counts twice. */
  function Utf16Length(s: string): (n: nat)
    ensures |s| <= n <= 2 * |s|
  {
    if s == [] then 0 else (if s[0] as int >= 0x1_0000 then 2 else 1) + Utf16Length(s[1..])
  }

  // ---------------------------------------------------------------------
  // Decimal numbers

  predicate IsDigit(c: char) { '0' <= c <= '9' }

  predicate AllDigits(s: string) {
    forall i :: 0 <= i < |s| ==> IsDigit(s[i])
  }

  function DigitChar(d: int): (c: char)
    requires 0 <= d < 10
    ensures IsDigit(c) && c as int - '0' as int == d
  {
    ('0' as int + d) as char
  }

  /** `String(n)` of a non-negative integer. */
  function NatToString(n: nat): (r: string)
    ensures r != [] && AllDigits(r)
    decreases n
  {
    if n < 10 then [DigitChar(n)] else NatToString(n / 10) + [DigitChar(n % 10)]
  }

  /** The value of a string of decimal digits. */
  function DigitsValue(s: string): nat
    requires AllDigits(s)
  {
    if s == [] then 0 else DigitsValue(s[..|s| - 1]) * 10 + (s[|s| - 1] as int - '0' as int)
  }

  lemma {:induction false} DigitsRoundTrip(n: nat)
    ensures DigitsValue(NatToString(n)) == n
    decreases n
  {
    if n >= 10 {
      DigitsRoundTrip(n / 10);
      var s := NatToString(n);
      assert s[..|s| - 1] == NatToString(n / 10);
    }
  }

  /** The longest prefix of decimal digits. */
  function LeadingDigits(s: string): (r: string)
    ensures |r| <= |s| && r == s[..|r|] && AllDigits(r)
    ensures |r| < |s| ==> !IsDigit(s[|r|])
  {
    if s == [] || !IsDigit(s[0]) then [] else [s[0]] + LeadingDigits(s[1..])
  }

  lemma {:induction false} LeadingDigitsOfDigits(s: string)
    requires AllDigits(s)
    ensures LeadingDigits(s) == s
  {
    if s != [] {
      LeadingDigitsOfDigits(s[1..]);
    }
  }

  /** A JavaScript number as `parseInt` produces it: an integer or NaN. */
  datatype JsInt = Int(value: int) | NaN

  /** `parseInt(s, 10)`: skip leading whitespace, read an optional sign, then
      the longest run of decimal digits; NaN when there is no digit. */
  function ParseInt(s: string): (r: JsInt)
    ensures r.NaN? <==>
      var t := TrimStart(s);
      var u := if t != [] && (t[0] == '-' || t[0] == '+') then t[1..] else t;
      u == [] || !IsDigit(u[0])
  {
    var t := TrimStart(s);
    var negative := t != [] && t[0] == '-';
    var u := if t != [] && (t[0] == '-' || t[0] == '+') then t[1..] else t;
    var z := LeadingDigits(u);
    var magnitude: int := if z == [] then 0 else DigitsValue(z);
    if z == [] then NaN else Int(if negative then -magnitude else magnitude)
  }

  /** `parseInt` reads back what `String` writes. */
  lemma ParseIntRoundTrip(n: nat)
    ensures ParseInt(NatToString(n)) == Int(n)
  {
    var s := NatToString(n);
    TrimStartFixed(s);
    LeadingDigitsOfDigits(s);
    DigitsRoundTrip(n);
  }

  // ---------------------------------------------------------------------
  // UTF-8 (`Buffer.from(string)`, the bytes `hmac.update(string)` hashes)

  predicate IsAscii(s: string) {
    forall i :: 0 <= i < |s| ==> s[i] as int < 0x80
  }

  /** The UTF-8 encoding of one Unicode scalar value. */
  function Utf8Char(c: char): (r: seq<byte>)
    ensures 1 <= |r| <= 4
    ensures c as int < 0x80 ==> r == [c as int]
    ensures c as int >= 0x80 ==> r[0] >= 0xC0 && |r| >= 2
  {
    var n := c as int;
    if n < 0x80 then [n]
    else if n < 0x800 then [0xC0 + n / 64, 0x80 + n % 64]
    else if n < 0x1_0000 then [0xE0 + n / 4096, 0x80 + (n / 64) % 64, 0x80 + n % 64]
    else [0xF0 + n / 262144, 0x80 + (n / 4096) % 64, 0x80 + (n / 64) % 64, 0x80 + n % 64]
  }

  function Utf8Encode(s: string): (r: seq<byte>)
    ensures |s| <= |r|
  {
    if s == [] then [] else Utf8Char(s[0]) + Utf8Encode(s[1..])
  }

  /** The code points of an ASCII string, as bytes. */
  function AsciiBytes(s: string): (r: seq<byte>)
    requires IsAscii(s)
    ensures |r| == |s| && forall i :: 0 <= i < |s| ==> r[i] == s[i] as int
  {
    seq(|s|, i requires 0 <= i < |s| => s[i] as int)
  }

  lemma {:induction false} Utf8OfAscii(s: string)
    requires IsAscii(s)
    ensures Utf8Encode(s) == AsciiBytes(s)
  {
    if s != [] {
      Utf8OfAscii(s[1..]);
    }
  }

  /** A string whose UTF-8 bytes equal those of an ASCII string is that
      string: comparing `Buffer`s compares the strings. */
  lemma {:induction false} Utf8MatchesAscii(s: string, t: string)
    requires IsAscii(t)
    requires Utf8Encode(s) == Utf8Encode(t)
    ensures s == t
  {
    Utf8OfAscii(t);
    if s == [] {
      assert |t| == 0;
    } else {
      assert |t| > 0;
      var b := Utf8Encode(s);
      assert b[0] == Utf8Char(s[0])[0];
      assert s[0] as int < 0x80;
      assert s[0] as int == t[0] as int;
      assert Utf8Encode(s[1..]) == b[1..];
      assert Utf8Encode(t[1..]) == b[1..];
      Utf8MatchesAscii(s[1..], t[1..]);
    }
  }

  // ---------------------------------------------------------------------
  // Lower-case hexadecimal (`digest('hex')`)

  predicate IsLowerHexChar(c: char) { IsDigit(c) || ('a' <= c <= 'f') }

  /** The lower-case hex digit of `d`. */
  function LowerHexDigit(d: int): (c: char)
    requires 0 <= d < 16
    ensures IsLowerHexChar(c)
  {
    if d < 10 then ('0' as int + d) as char else ('a' as int + d - 10) as char
  }

  /** The upper-case hex digit of `d`, as percent-escapes write it. */
  function UpperHexDigit(d: int): (c: char)
    requires 0 <= d < 16
    ensures IsDigit(c) || ('A' <= c <= 'F')
  {
    if d < 10 then ('0' as int + d) as char else ('A' as int + d - 10) as char
  }

  /** The lower-case hex encoding of a byte string, two digits per byte. */
  function HexEncode(b: seq<byte>): (r: string)
    ensures |r| == 2 * |b|
    ensures forall i :: 0 <= i < |r| ==> IsLowerHexChar(r[i])
    ensures IsAscii(r)
  {
    if b == [] then [] else [LowerHexDigit(b[0] / 16), LowerHexDigit(b[0] % 16)] + HexEncode(b[1..])
  }

  function HexValue(c: char): (v: Option<int>)
    ensures v.Some? <==> IsLowerHexChar(c)
    ensures v.Some? ==> 0 <= v.value < 16 && LowerHexDigit(v.value) == c
  {
    if IsDigit(c) then Some(c as int - '0' as int)
    else if 'a' <= c <= 'f' then Some(c as int - 'a' as int + 10)
    else None
  }

  /** The inverse of `HexEncode`: defined on strings of lower-case hex digit pairs. */
  function HexDecode(s: string): (r: Option<seq<byte>>)
    decreases |s|
  {
    if s == [] then Some([])
    else if |s| == 1 then None
    else match (HexValue(s[0]), HexValue(s[1]), HexDecode(s[2..]))
      case (Some(hi), Some(lo), Some(rest)) => Some([hi * 16 + lo] + rest)
      case _ => None
  }

  lemma {:induction false} HexRoundTrip(b: seq<byte>)
    ensures HexDecode(HexEncode(b)) == Some(b)
  {
    if b != [] {
      var s := HexEncode(b);
      assert s[2..] == HexEncode(b[1..]);
      HexRoundTrip(b[1..]);
      assert s[0] == LowerHexDigit(b[0] / 16);
      assert s[1] == LowerHexDigit(b[0] % 16);
      assert HexValue(s[0]) == Some(b[0] / 16);
      assert HexValue(s[1]) == Some(b[0] % 16);
      assert HexDecode(s) == Some([b[0] / 16 * 16 + b[0] % 16] + b[1..]);
      assert b[0] / 16 * 16 + b[0] % 16 == b[0];
      assert [b[0]] + b[1..] == b;
    }
  }

  /** Distinct byte strings have distinct hex encodings. */
  lemma HexEncodeInjective(a: seq<byte>, b: seq<byte>)
    requires HexEncode(a) == HexEncode(b)
    ensures a == b
  {
    HexRoundTrip(a);
    HexRoundTrip(b);
  }

  // ---------------------------------------------------------------------
  // encodeURIComponent

  /** The characters `encodeURIComponent` leaves as they are. */
  predicate IsUriUnreserved(c: char) {
    || 'A' <= c <= 'Z' || 'a' <= c <= 'z' || '0' <= c <= '9'
    || c == '-' || c == '_' || c == '.' || c == '!' || c == '~'
    || c == '*' || c == '\'' || c == '(' || c == ')'
  }

  function PercentBytes(bs: seq<byte>): (r: string)
    ensures |r| == 3 * |bs|
    ensures forall i :: 0 <= i < |r| ==> IsUriUnreserved(r[i]) || r[i] == '%'
  {
    if bs == [] then []
    else ['%', UpperHexDigit(bs[0] / 16), UpperHexDigit(bs[0] % 16)] + PercentBytes(bs[1..])
  }

  /** `encodeURIComponent(s)`: unreserved characters as they are, every other
      code point as `%XX` escapes of its UTF-8 bytes. (Dafny strings hold
      scalar values only, so the lone-surrogate error cannot arise.) */
  function EncodeURIComponent(s: string): (r: string)
    ensures |s| <= |r|
  {
    if s == [] then []
    else (if IsUriUnreserved(s[0]) then [s[0]] else PercentBytes(Utf8Char(s[0])))
         + EncodeURIComponent(s[1..])
  }

  /** The encoding holds only unreserved characters and `%`: no `/`, `?` or
      `#`, so it stays one path segment. */
  lemma {:induction false} EncodeURIComponentIsSafe(s: string)
    ensures forall i :: 0 <= i < |EncodeURIComponent(s)| ==>
      IsUriUnreserved(EncodeURIComponent(s)[i]) || EncodeURIComponent(s)[i] == '%'
  {
    if s != [] {
      EncodeURIComponentIsSafe(s[1..]);
    }
  }

  /** The encoding changes `s` exactly when `s` holds a reserved character. */
  lemma {:induction false} EncodeURIComponentIdentity(s: string)
    ensures EncodeURIComponent(s) == s <==> forall i :: 0 <= i < |s| ==> IsUriUnreserved(s[i])
  {
    if s != [] {
      EncodeURIComponentIdentity(s[1..]);
      var tail := EncodeURIComponent(s[1..]);
      if !IsUriUnreserved(s[0]) {
        var head := PercentBytes(Utf8Char(s[0]));
        assert |EncodeURIComponent(s)| == |head| + |tail| >= 3 + |s| - 1;
      } else {
        assert EncodeURIComponent(s) == [s[0]] + tail;
        if EncodeURIComponent(s) == s {
          assert tail == s[1..];
        }
        if forall i :: 0 <= i < |s| ==> IsUriUnreserved(s[i]) {
          assert forall i :: 0 <= i < |s[1..]| ==> IsUriUnreserved(s[1..][i]);
        }
      }
    }
  }
}
