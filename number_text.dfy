/**
 * How JavaScript turns an integer-valued number into text (`String(n)`,
 * `n + 'px'`, a template literal), and a parser that reads that text back.
 * The source relies on this conversion whenever it writes a pixel value.
 */
module NumberText {
  import opened Wrappers

  predicate IsDigit(c: char) {
    '0' <= c <= '9'
  }

  predicate AllDigits(s: string) {
    forall i :: 0 <= i < |s| ==> IsDigit(s[i])
  }

  function DigitChar(d: nat): (c: char)
    requires d < 10
    ensures IsDigit(c) && c as int - '0' as int == d
  {
    ('0' as int + d) as char
  }

  /** Decimal digits of `n`, most significant first, without leading zeros. */
  function NatDigits(n: nat): (s: string)
    ensures |s| >= 1 && AllDigits(s)
    ensures |s| > 1 ==> s[0] != '0'
    decreases n
  {
    if n < 10 then [DigitChar(n)] else NatDigits(n / 10) + [DigitChar(n % 10)]
  }

  /** `String(n)` for an integer-valued JavaScript number. */
  function DecimalString(n: int): (s: string)
    ensures |s| >= 1
    ensures n < 0 ==> |s| >= 2 && s[0] == '-' && AllDigits(s[1..])
    ensures n >= 0 ==> AllDigits(s)
  {
    if n < 0 then "-" + NatDigits(-n) else NatDigits(n)
  }

  /** A CSS pixel length as the source writes it: `n + 'px'`. */
  function Px(n: int): (s: string)
    ensures |s| >= 3 && s[|s| - 2..] == "px"
  {
    DecimalString(n) + "px"
  }

  /** The number a string of decimal digits denotes. */
  function DigitsValue(s: string): nat
    requires AllDigits(s)
  {
    if s == [] then 0
    else DigitsValue(s[..|s| - 1]) * 10 + (s[|s| - 1] as int - '0' as int)
  }

  /** Reads an optionally signed decimal integer; `None` for anything else. */
  function ParseInteger(s: string): Option<int> {
    if |s| >= 2 && s[0] == '-' && AllDigits(s[1..]) then Some(0 - DigitsValue(s[1..]) as int)
    else if |s| >= 1 && AllDigits(s) then Some(DigitsValue(s))
    else None
  }

  /** Reads a pixel length written as an integer followed by `px`. */
  function ParsePx(s: string): Option<int> {
    if |s| >= 2 && s[|s| - 2..] == "px" then ParseInteger(s[..|s| - 2]) else None
  }

  lemma {:induction false} NatDigitsValue(n: nat)
    ensures DigitsValue(NatDigits(n)) == n
    decreases n
  {
    if n >= 10 {
      var s := NatDigits(n);
      assert s[..|s| - 1] == NatDigits(n / 10);
      NatDigitsValue(n / 10);
    }
  }

  /** Reading back the text of a number gives the number. */
  lemma DecimalStringRoundTrip(n: int)
    ensures ParseInteger(DecimalString(n)) == Some(n)
  {
    var s := DecimalString(n);
    if n < 0 {
      var digits := NatDigits(-n);
      assert s[1..] == digits;
      NatDigitsValue(-n);
      assert ParseInteger(s) == Some(0 - DigitsValue(digits) as int);
    } else {
      assert s == NatDigits(n);
      NatDigitsValue(n);
      assert IsDigit(s[0]);
      assert ParseInteger(s) == Some(DigitsValue(s) as int);
    }
  }

  /** Reading back a pixel length gives the number it was written from. */
  lemma PxRoundTrip(n: int)
    ensures ParsePx(Px(n)) == Some(n)
  {
    var s := Px(n);
    assert s[..|s| - 2] == DecimalString(n);
    DecimalStringRoundTrip(n);
  }

  /** Distinct numbers are written as distinct pixel lengths. */
  lemma PxInjective(m: int, n: int)
    requires Px(m) == Px(n)
    ensures m == n
  {
    PxRoundTrip(m);
    PxRoundTrip(n);
  }
}
