/** The part of Python's `int(text)` that the scheduler relies on: a decimal
    numeral with an optional sign becomes an integer (negative ones too), and
    anything else is refused. */
module IntParse {
  import opened Common

  predicate IsDigit(c: char) {
    '0' <= c <= '9'
  }

  predicate AllDigits(s: string) {
    forall i :: 0 <= i < |s| ==> IsDigit(s[i])
  }

  function DigitValue(c: char): (d: nat)
    requires IsDigit(c)
    ensures d < 10
  {
    c as int - '0' as int
  }

  function DigitChar(d: nat): (c: char)
    requires d < 10
    ensures IsDigit(c) && DigitValue(c) == d
  {
    ('0' as int + d) as char
  }

  function Pow10(k: nat): (p: nat)
    ensures p >= 1
  {
    if k == 0 then 1 else 10 * Pow10(k - 1)
  }

  /** The number denoted by a run of decimal digits, most significant first;
      a run of k digits denotes less than 10^k. */
  function DigitsValue(s: string): (n: nat)
    requires AllDigits(s)
    ensures n < Pow10(|s|)
    decreases |s|
  {
    if s == [] then 0
    else 10 * DigitsValue(s[..|s| - 1]) + DigitValue(s[|s| - 1])
  }

  /** `int(text)`: `Some` of the value when `text` is a non-empty run of
      digits, optionally preceded by one `+` or `-`; `None` where Python
      raises ValueError. */
  function ParseInt(text: string): (r: Option<int>)
    ensures r.Some? ==> |text| > 0
    ensures r.Some? && text[0] == '-' ==> r.value <= 0
    ensures r.Some? && text[0] != '-' ==> r.value >= 0
    ensures r.Some? ==> 0 - Pow10(|text|) < r.value < Pow10(|text|)
  {
    if |text| > 0 && (text[0] == '-' || text[0] == '+') then
      var digits := text[1..];
      if |digits| > 0 && AllDigits(digits) then
        Some(if text[0] == '-' then 0 - DigitsValue(digits) else DigitsValue(digits))
      else None
    else if |text| > 0 && AllDigits(text) then Some(DigitsValue(text))
    else None
  }

  /** The shortest decimal numeral of a natural number. */
  function Decimal(n: nat): (s: string)
    ensures |s| > 0 && AllDigits(s)
  {
    if n < 10 then [DigitChar(n)] else Decimal(n / 10) + [DigitChar(n % 10)]
  }

  /** The numeral Python's `str` gives an integer. */
  function Show(i: int): (s: string)
    ensures |s| > 0
  {
    if i < 0 then "-" + Decimal(-i) else Decimal(i)
  }

  lemma {:induction false} DecimalDenotes(n: nat)
    ensures DigitsValue(Decimal(n)) == n
  {
    if n >= 10 {
      var s := Decimal(n);
      assert s[..|s| - 1] == Decimal(n / 10);
      DecimalDenotes(n / 10);
    }
  }

  /** Every integer written as a numeral parses back to itself, so any
      integer, negative ones included, can be configured. */
  lemma ParseShow(i: int)
    ensures ParseInt(Show(i)) == Some(i)
  {
    if i < 0 {
      assert Show(i)[1..] == Decimal(-i);
      DecimalDenotes(-i);
    } else {
      assert Show(i)[0] != '-' && Show(i)[0] != '+' by {
        assert IsDigit(Decimal(i)[0]);
      }
      DecimalDenotes(i);
    }
  }

  /** Texts `int` refuses: the empty text, a lone sign, a fraction and a word. */
  lemma ParseIntRefuses()
    ensures ParseInt("") == None
    ensures ParseInt("-") == None
    ensures ParseInt("1.5") == None
    ensures ParseInt("two") == None
  {
  }
}
