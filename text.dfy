/** Character classes and decimal conversions shared by the calculator core,
    the window and the voice-command rewriter.  Python's `str` predicates are
    Unicode-aware; here they are restricted to ASCII. */
module Text {

  predicate IsDigit(c: char) { '0' <= c <= '9' }
  predicate IsUpper(c: char) { 'A' <= c <= 'Z' }
  predicate IsLower(c: char) { 'a' <= c <= 'z' }
  predicate IsAlpha(c: char) { IsUpper(c) || IsLower(c) }
  predicate IsAlnum(c: char) { IsAlpha(c) || IsDigit(c) }

  /** `str.isspace` on ASCII: space, tab, line feed, vertical tab, form feed,
      carriage return and the four information separators 0x1C-0x1F. */
  predicate IsSpace(c: char) { c == ' ' || '\t' <= c <= '\r' || '\U{1C}' <= c <= '\U{1F}' }

  predicate AllDigits(s: string) { forall i | 0 <= i < |s| :: IsDigit(s[i]) }

  /** `str.lower` on ASCII letters. */
  function LowerChar(c: char): (r: char)
    ensures !IsUpper(r)
    ensures IsUpper(c) ==> r as int == c as int + 32
    ensures !IsUpper(c) ==> r == c
  {
    if IsUpper(c) then (c as int + 32) as char else c
  }

  function Lower(s: string): (r: string)
    ensures |r| == |s|
    ensures forall i | 0 <= i < |s| :: r[i] == LowerChar(s[i])
  {
    if s == [] then [] else [LowerChar(s[0])] + Lower(s[1..])
  }

  /** Lowering twice is lowering once. */
  lemma {:induction false} LowerIdempotent(s: string)
    ensures Lower(Lower(s)) == Lower(s)
  {
    if s != [] {
      LowerIdempotent(s[1..]);
      assert Lower(s)[1..] == Lower(s[1..]);
    }
  }

  /** Text without capitals is its own lowercase. */
  lemma LowerLeaves(s: string)
    requires forall i | 0 <= i < |s| :: !IsUpper(s[i])
    ensures Lower(s) == s
  {
  }

  /** Number of occurrences of `c` in `s` (Python's `s.count(c)` for one character). */
  function Count(s: string, c: char): (n: nat)
    ensures n <= |s|
  {
    if s == [] then 0 else (if s[|s| - 1] == c then 1 else 0) + Count(s[..|s| - 1], c)
  }

  lemma {:induction false} CountAppend(a: string, b: string, c: char)
    ensures Count(a + b, c) == Count(a, c) + Count(b, c)
    decreases |b|
  {
    if b != [] {
      assert (a + b)[..|a + b| - 1] == a + b[..|b| - 1];
      CountAppend(a, b[..|b| - 1], c);
    } else {
      assert a + b == a;
    }
  }

  /** A character that does not occur is counted zero times. */
  lemma {:induction false} CountAbsent(s: string, c: char)
    requires c !in s
    ensures Count(s, c) == 0
  {
    if s != [] {
      assert forall k | 0 <= k < |s| - 1 :: s[..|s| - 1][k] == s[k];
      CountAbsent(s[..|s| - 1], c);
    }
  }

  /** A character that occurs is counted at least once. */
  lemma {:induction false} CountPresent(s: string, c: char)
    requires c in s
    ensures Count(s, c) > 0
  {
    if s[|s| - 1] != c {
      var k :| 0 <= k < |s| && s[k] == c;
      assert s[..|s| - 1][k] == c;
      CountPresent(s[..|s| - 1], c);
    }
  }

  /** Concatenation regroups; stated apart so that it is proved without the
      facts of a larger proof in view. */
  lemma ConcatAssoc(a: string, b: string, c: string)
    ensures a + (b + c) == (a + b) + c
  {
  }

  predicate StartsWith(s: string, prefix: string) {
    |prefix| <= |s| && s[..|prefix|] == prefix
  }

  predicate EndsWith(s: string, suffix: string) {
    |suffix| <= |s| && s[|s| - |suffix|..] == suffix
  }

  /** Python's `needle in s` for strings. */
  predicate Contains(s: string, needle: string) {
    StartsWith(s, needle) || (s != [] && Contains(s[1..], needle))
  }

  function DigitValue(c: char): (d: nat)
    requires IsDigit(c)
    ensures d < 10
  {
    c as int - '0' as int
  }

  function DigitChar(d: nat): (c: char)
    requires d < 10
    ensures IsDigit(c) && DigitValue(c) == d
  {
    ('0' as int + d) as char
  }

  /** Value of a run of decimal digits (`int(s)` for a digit string); `DigitsValue("") == 0`. */
  function DigitsValue(s: string): nat
    requires AllDigits(s)
  {
    if s == [] then 0 else 10 * DigitsValue(s[..|s| - 1]) + DigitValue(s[|s| - 1])
  }

  /** Decimal rendering of a natural number, without leading zeros (`str(n)`). */
  function NatToString(n: nat): (s: string)
    ensures |s| > 0 && AllDigits(s)
    ensures |s| > 1 ==> s[0] != '0'
  {
    if n < 10 then [DigitChar(n)] else NatToString(n / 10) + [DigitChar(n % 10)]
  }

  /** Reading back the decimal rendering gives the number. */
  lemma {:induction false} NatToStringRoundTrip(n: nat)
    ensures DigitsValue(NatToString(n)) == n
  {
    var s := NatToString(n);
    if n >= 10 {
      NatToStringRoundTrip(n / 10);
      assert s[..|s| - 1] == NatToString(n / 10);
    }
  }

  /** `str(i)` for a Python int: an optional minus sign, then the digits. */
  function IntToString(i: int): (s: string)
    ensures |s| > 0
  {
    if i < 0 then "-" + NatToString(-i) else NatToString(i)
  }

  /** CPython's limit on converting an int to or from decimal text, the
      default of `sys.set_int_max_str_digits` since Python 3.11: longer
      conversions raise `ValueError`. */
  const MaxIntDigits: nat := 4300

  /** The number of decimal digits of an integer, its sign not counted. */
  function DigitCount(i: int): nat {
    |NatToString(if i < 0 then -i else i)|
  }

  /** An integer's rendering is a sign and digits only, and reads back as the integer. */
  lemma IntToStringShape(i: int)
    ensures var s := IntToString(i);
      && (forall k | 0 <= k < |s| :: IsDigit(s[k]) || (k == 0 && s[k] == '-'))
      && (s[0] == '-' <==> i < 0)
      && (i < 0 ==> AllDigits(s[1..]) && -(DigitsValue(s[1..]) as int) == i)
      && (i >= 0 ==> AllDigits(s) && DigitsValue(s) == i)
  {
    var s := IntToString(i);
    if i < 0 {
      assert s[1..] == NatToString(-i);
      NatToStringRoundTrip(-i);
    } else {
      NatToStringRoundTrip(i);
    }
  }
}
