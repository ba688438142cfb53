/**
 * The handful of Kotlin standard-library operations the app's logic is built
 * from, stated over Dafny's unbounded integers and `seq<char>` strings.
 */
module KotlinStd {
  import opened Wrappers

  // ---------------------------------------------------------------- integers

  /** `Int.coerceIn(lo, hi)`; Kotlin throws IllegalArgumentException when lo > hi. */
  function CoerceIn(x: int, lo: int, hi: int): (r: int)
    requires lo <= hi
    ensures lo <= r <= hi
    ensures lo <= x <= hi ==> r == x
    ensures x < lo ==> r == lo
    ensures hi < x ==> r == hi
  {
    if x < lo then lo else if hi < x then hi else x
  }

  /** `Int.coerceAtLeast(lo)`, the same as `max(x, lo)`. */
  function CoerceAtLeast(x: int, lo: int): (r: int)
    ensures r >= lo && r >= x && (r == x || r == lo)
  {
    if x < lo then lo else x
  }

  /** `Int.coerceAtMost(hi)`, the same as `min(x, hi)`. */
  function CoerceAtMost(x: int, hi: int): (r: int)
    ensures r <= hi && r <= x && (r == x || r == hi)
  {
    if hi < x then hi else x
  }

  function Max(a: int, b: int): int { if a < b then b else a }

  function Min(a: int, b: int): int { if a < b then a else b }

  /** Kotlin's `a / b` on Int: the quotient rounded toward zero. */
  function TruncDiv(a: int, b: int): (q: int)
    requires b > 0
    ensures a >= 0 ==> q == a / b
    ensures a >= 0 ==> q >= 0
  {
    if a >= 0 then a / b else -((-a) / b)
  }

  /** Kotlin's `a % b` on Int: the remainder takes the sign of the dividend. */
  function TruncRem(a: int, b: int): (r: int)
    requires b > 0
    ensures a == b * TruncDiv(a, b) + r
    ensures -b < r < b
    ensures a >= 0 ==> r == a % b
    ensures a < 0 ==> r <= 0
  {
    a - b * TruncDiv(a, b)
  }

  const INT32_MIN: int := -0x8000_0000
  const INT32_MAX: int := 0x7fff_ffff

  /** The value a JVM Int holds after an arithmetic result `x` wraps around. */
  function Wrap32(x: int): (r: int)
    ensures INT32_MIN <= r <= INT32_MAX
    ensures INT32_MIN <= x <= INT32_MAX ==> r == x
  {
    (x - INT32_MIN) % 0x1_0000_0000 + INT32_MIN
  }

  // ------------------------------------------------------------ Int -> String

  predicate IsDigit(c: char) { '0' <= c <= '9' }

  function DigitChar(d: int): (c: char)
    requires 0 <= d < 10
    ensures IsDigit(c)
  {
    ('0' as int + d) as char
  }

  function DigitValue(c: char): (d: nat)
    requires IsDigit(c)
    ensures d < 10 && DigitChar(d) == c
  {
    c as int - '0' as int
  }

  predicate AllDigits(s: string) { forall i :: 0 <= i < |s| ==> IsDigit(s[i]) }

  /** Decimal digits of a natural number, most significant first, no leading zero. */
  function NatToString(n: nat): (s: string)
    ensures |s| > 0 && AllDigits(s)
    ensures |s| > 1 ==> s[0] != '0'
  {
    if n < 10 then [DigitChar(n)] else NatToString(n / 10) + [DigitChar(n % 10)]
  }

  /** Kotlin's string template `"$n"` for an Int. */
  function IntToString(n: int): (s: string)
    ensures |s| > 0
  {
    if n < 0 then "-" + NatToString(-n) else NatToString(n)
  }

  function ParseNat(s: string): nat
    requires AllDigits(s)
  {
    if s == [] then 0 else ParseNat(s[..|s| - 1]) * 10 + DigitValue(s[|s| - 1])
  }

  /** Reads back what IntToString writes: an optional '-' and decimal digits. */
  function ParseInt(s: string): int
    requires |s| > 0 && (s[0] == '-' ==> AllDigits(s[1..])) && (s[0] != '-' ==> AllDigits(s))
  {
    if s[0] == '-' then 0 - ParseNat(s[1..]) else ParseNat(s)
  }

  lemma {:induction false} NatToStringRoundTrip(n: nat)
    ensures ParseNat(NatToString(n)) == n
  {
    if n >= 10 {
      var s := NatToString(n);
      assert s[..|s| - 1] == NatToString(n / 10);
      NatToStringRoundTrip(n / 10);
    }
  }

  /** The decimal rendering of an Int is read back to the same Int. */
  lemma IntToStringRoundTrip(n: int)
    ensures var s := IntToString(n);
      (s[0] == '-' ==> AllDigits(s[1..])) && (s[0] != '-' ==> AllDigits(s)) && ParseInt(s) == n
  {
    var s := IntToString(n);
    if n < 0 {
      assert s[1..] == NatToString(-n);
      NatToStringRoundTrip(-n);
    } else {
      NatToStringRoundTrip(n);
    }
  }

  /** Different Ints have different renderings. */
  lemma IntToStringInjective(a: int, b: int)
    requires IntToString(a) == IntToString(b)
    ensures a == b
  {
    IntToStringRoundTrip(a);
    IntToStringRoundTrip(b);
  }

  // ----------------------------------------------------------------- strings

  /** Kotlin's `Char.isWhitespace()` on the JVM: the Unicode space, line and
    * paragraph separators plus the ASCII controls 9-13 and 28-31. */
  predicate IsWhitespace(c: char) {
    var n := c as int;
    (9 <= n <= 13) || (28 <= n <= 32) || n == 0xA0 || n == 0x1680
    || (0x2000 <= n <= 0x200A) || n == 0x2028 || n == 0x2029 || n == 0x202F
    || n == 0x205F || n == 0x3000
  }

  /** `CharSequence.isBlank()`: empty or only whitespace. */
  predicate IsBlank(s: string) { forall i :: 0 <= i < |s| ==> IsWhitespace(s[i]) }

  function TrimStart(s: string): (r: string)
    ensures |r| <= |s| && r == s[|s| - |r|..]
    ensures r != [] ==> !IsWhitespace(r[0])
    ensures forall i :: 0 <= i < |s| - |r| ==> IsWhitespace(s[i])
  {
    if s != [] && IsWhitespace(s[0]) then TrimStart(s[1..]) else s
  }

  /** `trimEnd` for the characters `drop` selects. */
  function TrimEndWhere(s: string, drop: char -> bool): (r: string)
    ensures |r| <= |s| && r == s[..|r|]
    ensures r != [] ==> !drop(r[|r| - 1])
    ensures forall i :: |r| <= i < |s| ==> drop(s[i])
  {
    if s != [] && drop(s[|s| - 1]) then TrimEndWhere(s[..|s| - 1], drop) else s
  }

  /** `String.trim()`. */
  function Trim(s: string): string {
    TrimEndWhere(TrimStart(s), IsWhitespace)
  }

  /** A string is blank exactly when trimming leaves nothing. */
  lemma BlankIffTrimEmpty(s: string)
    ensures IsBlank(s) <==> Trim(s) == []
  {
    var t := TrimStart(s);
    if t == [] {
      assert IsBlank(s);
    } else {
      assert s[|s| - |t|] == t[0] && !IsWhitespace(t[0]);
    }
  }

  /** The ASCII case folding `equals(ignoreCase = true)` performs on letters. */
  function LowerAscii(c: char): char {
    if 'A' <= c <= 'Z' then (c as int + 32) as char else c
  }

  /** `startsWith(prefix, ignoreCase = true)`. */
  predicate StartsWithIgnoreCase(s: string, prefix: string) {
    |prefix| <= |s| && forall i :: 0 <= i < |prefix| ==> LowerAscii(s[i]) == LowerAscii(prefix[i])
  }

  /** `pat` occurs in `s` starting at index `j`. */
  predicate MatchesAt(s: string, pat: string, j: nat) {
    j + |pat| <= |s| && s[j..j + |pat|] == pat
  }

  /** A match at `j >= 1` in `s` is a match at `j - 1` in `s[1..]`. */
  lemma MatchesAtShift(s: string, pat: string, j: nat)
    requires 1 <= j && |s| > 0
    ensures MatchesAt(s, pat, j) <==> MatchesAt(s[1..], pat, j - 1)
  {
    if j + |pat| <= |s| {
      var here, shifted := s[j..j + |pat|], s[1..][j - 1..j - 1 + |pat|];
      forall k | 0 <= k < |pat| ensures here[k] == shifted[k] {
        assert here[k] == s[j + k] && shifted[k] == s[1..][j - 1 + k];
      }
      assert here == shifted;
    }
  }

  /** The first index at which `pat` occurs in `s`, if any. */
  function IndexOf(s: string, pat: string): (r: Option<nat>)
    ensures r.Some? ==> MatchesAt(s, pat, r.value)
    ensures r.Some? ==> forall j: nat :: j < r.value ==> !MatchesAt(s, pat, j)
    ensures r.None? ==> forall j: nat :: !MatchesAt(s, pat, j)
    decreases |s|
  {
    if |s| < |pat| then None
    else if s[..|pat|] == pat then Some(0)
    else
      var rest := IndexOf(s[1..], pat);
      assert forall j: nat :: 1 <= j ==> (MatchesAt(s, pat, j) <==> MatchesAt(s[1..], pat, j - 1)) by {
        forall j: nat | 1 <= j ensures MatchesAt(s, pat, j) <==> MatchesAt(s[1..], pat, j - 1) {
          MatchesAtShift(s, pat, j);
        }
      }
      match rest
      case None => None
      case Some(k) => Some(k + 1)
  }

  /** `substringAfter(delimiter)`: the text after the first occurrence, or the
    * whole string when the delimiter does not occur. */
  function SubstringAfter(s: string, delimiter: string): string {
    match IndexOf(s, delimiter)
    case None => s
    case Some(i) => s[i + |delimiter|..]
  }

  /** `take(n)`. */
  function Take(s: string, n: nat): (r: string)
    ensures |r| == Min(n, |s|) && r == s[..|r|]
  {
    if |s| <= n then s else s[..n]
  }

  function Repeat(c: char, n: nat): (r: string)
    ensures |r| == n && forall i :: 0 <= i < n ==> r[i] == c
  {
    if n == 0 then [] else Repeat(c, n - 1) + [c]
  }

  /** `padEnd(length, c)`. */
  function PadEnd(s: string, length: nat, c: char): (r: string)
    ensures |r| == Max(length, |s|) && r[..|s|] == s
    ensures forall i :: |s| <= i < |r| ==> r[i] == c
  {
    if |s| >= length then s else s + Repeat(c, length - |s|)
  }
}
