/** The character classes and decimal conversions fen.py relies on
    (`str.isspace`, `str.isalpha`, `str.isnumeric`, `str.isupper`,
    `str.lower`, `int(char)` and `str(int)`), restricted to ASCII. */
module Chars {

  /** `str.isspace` on one ASCII character: blank, tab to carriage return,
      and the four separator controls 0x1C..0x1F. */
  predicate IsSpace(c: char) {
    c == ' ' || ('\t' <= c <= '\r') || ('\U{001C}' <= c <= '\U{001F}')
  }

  predicate IsDigit(c: char) {
    '0' <= c <= '9'
  }

  predicate IsUpper(c: char) {
    'A' <= c <= 'Z'
  }

  predicate IsLower(c: char) {
    'a' <= c <= 'z'
  }

  predicate IsAlpha(c: char) {
    IsUpper(c) || IsLower(c)
  }

  predicate AllDigits(w: string) {
    forall k :: 0 <= k < |w| ==> IsDigit(w[k])
  }

  function DigitValue(c: char): (d: nat)
    requires IsDigit(c)
    ensures d < 10
  {
    c as int - '0' as int
  }

  function DigitChar(d: nat): (c: char)
    requires d < 10
    ensures IsDigit(c) && DigitValue(c) == d
  {
    ('0' as int + d) as char
  }

  function ToLower(c: char): (r: char)
    ensures IsUpper(c) ==> IsLower(r) && ToUpper(r) == c
    ensures !IsUpper(c) ==> r == c
  {
    if IsUpper(c) then (c as int + 32) as char else c
  }

  function ToUpper(c: char): (r: char)
    ensures IsLower(c) ==> IsUpper(r)
    ensures !IsLower(c) ==> r == c
  {
    if IsLower(c) then (c as int - 32) as char else c
  }

  /** `str(n)` for a non-negative integer: its decimal digits, most
      significant first, without leading zeros. */
  function NatToString(n: nat): (w: string)
    ensures |w| > 0 && AllDigits(w)
    ensures |w| > 1 ==> w[0] != '0'
  {
    if n < 10 then [DigitChar(n)] else NatToString(n / 10) + [DigitChar(n % 10)]
  }

  /** The value `v := 10 * v + int(c)` reaches after reading the digits `w`
      one by one, starting from `v`. */
  function Accumulate(v: nat, w: string): nat
    requires AllDigits(w)
    decreases |w|
  {
    if w == [] then v else Accumulate(10 * v + DigitValue(w[0]), w[1..])
  }

  lemma {:induction false} AccumulateAppend(v: nat, a: string, b: string)
    requires AllDigits(a) && AllDigits(b)
    ensures AllDigits(a + b)
    ensures Accumulate(v, a + b) == Accumulate(Accumulate(v, a), b)
    decreases |a|
  {
    if a == [] {
      assert a + b == b;
    } else {
      assert (a + b)[0] == a[0];
      assert (a + b)[1..] == a[1..] + b;
      AccumulateAppend(10 * v + DigitValue(a[0]), a[1..], b);
    }
  }

  /** Reading back the digits that `str` writes gives the number again. */
  lemma {:induction false} DecimalRoundTrip(n: nat)
    ensures Accumulate(0, NatToString(n)) == n
  {
    if n >= 10 {
      DecimalRoundTrip(n / 10);
      AccumulateAppend(0, NatToString(n / 10), [DigitChar(n % 10)]);
    }
  }
}
