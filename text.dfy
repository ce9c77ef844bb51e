/**
 * The string helpers the checklist skill relies on: Kotlin's `isBlank`/`ifBlank`/`ifEmpty`
 * and the decimal rendering of integers in string templates (`"Item ${n}"`).
 */
module Text {

  /** Kotlin's `Char.isWhitespace()` on the JVM, `Character.isWhitespace(c) ||
      Character.isSpaceChar(c)`: the ASCII controls TAB..CR and FS..US, and every Unicode
      space, line and paragraph separator, the non-breaking spaces U+00A0, U+2007 and U+202F
      included. */
  predicate IsWhitespace(ch: char) {
    var c := ch as int;
    (9 <= c <= 13) || (28 <= c <= 32) || c == 0xA0 || c == 0x1680 || (0x2000 <= c <= 0x200A) ||
    c == 0x2028 || c == 0x2029 || c == 0x202F || c == 0x205F || c == 0x3000
  }

  /** Kotlin's `CharSequence.isBlank()` (and `isNullOrBlank()` on a present string): empty or
      whitespace only. */
  predicate IsBlank(s: string)
    ensures s == [] ==> IsBlank(s)
  {
    forall i :: 0 <= i < |s| ==> IsWhitespace(s[i])
  }

  /** A text is blank exactly when both of its parts are. */
  lemma IsBlankAppend(a: string, b: string)
    ensures IsBlank(a + b) <==> IsBlank(a) && IsBlank(b)
  {
    if IsBlank(a) && IsBlank(b) {
      forall i | 0 <= i < |a + b|
        ensures IsWhitespace((a + b)[i])
      {
        if i >= |a| {
          assert (a + b)[i] == b[i - |a|];
        }
      }
    }
    if IsBlank(a + b) {
      forall i | 0 <= i < |a|
        ensures IsWhitespace(a[i])
      {
        assert (a + b)[i] == a[i];
      }
      forall i | 0 <= i < |b|
        ensures IsWhitespace(b[i])
      {
        assert (a + b)[|a| + i] == b[i];
      }
    }
  }

  /** Names made of no-break spaces count as blank; a name with a letter does not. */
  lemma NoBreakSpacesAreBlank()
    ensures IsBlank("\U{00A0}\U{2007}\U{202F}") && IsBlank(" \t") && !IsBlank(" x ")
  {
    assert !IsWhitespace(" x "[1]);
  }

  /** Kotlin's `ifBlank { fallback }`. */
  function IfBlank(s: string, fallback: string): (r: string)
    ensures IsBlank(s) ==> r == fallback
    ensures !IsBlank(s) ==> r == s
  {
    if IsBlank(s) then fallback else s
  }

  /** Kotlin's `ifEmpty { fallback }`. */
  function IfEmpty(s: string, fallback: string): (r: string)
    ensures s == [] ==> r == fallback
    ensures s != [] ==> r == s
  {
    if s == [] then fallback else s
  }

  predicate IsDigit(ch: char) {
    '0' <= ch <= '9'
  }

  predicate IsDigits(s: string) {
    |s| > 0 && forall i :: 0 <= i < |s| ==> IsDigit(s[i])
  }

  function DigitChar(d: nat): (ch: char)
    requires d < 10
    ensures IsDigit(ch)
  {
    ('0' as int + d) as char
  }

  function DigitValue(ch: char): (d: nat)
    requires IsDigit(ch)
    ensures d < 10
  {
    ch as int - '0' as int
  }

  /** Decimal text of a non-negative number, most significant digit first, no leading zeros. */
  function NatToDecimal(n: nat): (s: string)
    ensures IsDigits(s)
    ensures |s| > 1 ==> s[0] != '0'
    decreases n
  {
    if n < 10 then [DigitChar(n)] else NatToDecimal(n / 10) + [DigitChar(n % 10)]
  }

  /** Decimal text of an integer as Kotlin's `Long.toString()` writes it. */
  function IntToDecimal(n: int): (s: string)
    ensures |s| > 0
    ensures n >= 0 ==> IsDigits(s)
    ensures n < 0 ==> s[0] == '-' && IsDigits(s[1..])
  {
    if n < 0 then "-" + NatToDecimal(-n) else NatToDecimal(n)
  }

  /** Reading decimal digits back (Kotlin's `String.toInt()` on digit strings): the
      reference against which the rendering is checked. */
  function ParseDigits(s: string): nat
    requires IsDigits(s)
    decreases |s|
  {
    if |s| == 1 then DigitValue(s[0])
    else ParseDigits(s[..|s| - 1]) * 10 + DigitValue(s[|s| - 1])
  }

  function ParseInt(s: string): int
    requires (|s| > 0 && s[0] == '-' && IsDigits(s[1..])) || IsDigits(s)
  {
    if s[0] == '-' then -(ParseDigits(s[1..]) as int) else ParseDigits(s)
  }

  /** Rendering a number and reading it back gives the number. */
  lemma {:induction false} NatToDecimalRoundTrip(n: nat)
    ensures ParseDigits(NatToDecimal(n)) == n
    decreases n
  {
    if n >= 10 {
      NatToDecimalRoundTrip(n / 10);
      var s := NatToDecimal(n);
      assert s[..|s| - 1] == NatToDecimal(n / 10);
    }
  }

  lemma IntToDecimalRoundTrip(n: int)
    ensures ParseInt(IntToDecimal(n)) == n
  {
    if n < 0 {
      NatToDecimalRoundTrip(-n);
      assert IntToDecimal(n)[1..] == NatToDecimal(-n);
    } else {
      NatToDecimalRoundTrip(n);
    }
  }
}
