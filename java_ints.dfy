/** Java's fixed-width integers, the narrowing `(int)` cast, and the decimal text
    that string concatenation produces for an `int` (Integer.toString). */
module JavaInts {
  import opened Wrappers

  const TwoTo32: int := 0x1_0000_0000

  newtype int32 = x: int | -0x8000_0000 <= x < 0x8000_0000
  newtype int64 = x: int | -0x8000_0000_0000_0000 <= x < 0x8000_0000_0000_0000

  /** The Java cast `(int) v` from long to int: keeps the low 32 bits, read as two's complement. */
  function NarrowToInt(v: int64): (r: int32)
    ensures -0x8000_0000 <= v as int < 0x8000_0000 ==> r as int == v as int
    ensures (v as int - r as int) % TwoTo32 == 0
  {
    var low := (v as int) % TwoTo32;
    if low < 0x8000_0000 then low as int32 else (low - TwoTo32) as int32
  }

  predicate IsDigit(ch: char) {
    '0' <= ch <= '9'
  }

  predicate AllDigits(s: string) {
    forall i :: 0 <= i < |s| ==> IsDigit(s[i])
  }

  function DigitValue(ch: char): (d: nat)
    requires IsDigit(ch)
    ensures d < 10
  {
    ch as int - '0' as int
  }

  function DigitChar(d: nat): (ch: char)
    requires d < 10
    ensures IsDigit(ch) && DigitValue(ch) == d
  {
    ('0' as int + d) as char
  }

  /** Decimal digits of `n`, most significant first, without leading zeros. */
  function NatToDecimal(n: nat): (s: string)
    ensures |s| > 0 && AllDigits(s)
    ensures s[0] == '0' ==> n == 0
    ensures IsCanonicalDigits(s)
    decreases n
  {
    if n < 10 then [DigitChar(n)] else NatToDecimal(n / 10) + [DigitChar(n % 10)]
  }

  /** A numeral without sign or superfluous leading zero: "0", or digits not starting with '0'. */
  predicate IsCanonicalDigits(s: string) {
    |s| > 0 && AllDigits(s) && (s[0] == '0' ==> |s| == 1)
  }

  /** The text Java produces when an `int` is concatenated to a string: a canonical
      numeral, preceded by a minus sign exactly for negatives. */
  function IntToDecimal(i: int): (s: string)
    ensures |s| > 0
    ensures s[0] == '-' <==> i < 0
    ensures s[0] == '-' ==> IsCanonicalDigits(s[1..]) && s[1] != '0'
    ensures s[0] != '-' ==> IsCanonicalDigits(s)
  {
    if i < 0 then "-" + NatToDecimal(-i) else NatToDecimal(i)
  }

  /** Reads back a run of decimal digits, most significant first. */
  function DigitsValue(s: string): nat
    requires AllDigits(s)
  {
    if s == [] then 0 else DigitsValue(s[..|s| - 1]) * 10 + DigitValue(s[|s| - 1])
  }

  /** Reads a numeral in the form Java writes an int: a canonical numeral, or a minus
      sign followed by a canonical numeral other than "0"; `None` for any other text. */
  function ParseDecimal(s: string): Option<int> {
    if |s| > 1 && s[0] == '-' && IsCanonicalDigits(s[1..]) && s[1] != '0' then Some(0 - DigitsValue(s[1..]) as int)
    else if IsCanonicalDigits(s) then Some(DigitsValue(s))
    else None
  }

  /** Digits that start with a non-zero digit have a positive value. */
  lemma {:induction false} LeadingDigitPositive(s: string)
    requires AllDigits(s) && |s| > 0 && s[0] != '0'
    ensures DigitsValue(s) > 0
    decreases |s|
  {
    if |s| > 1 {
      LeadingDigitPositive(s[..|s| - 1]);
    }
  }

  /** A canonical numeral is the decimal text of its own value. */
  lemma {:induction false} CanonicalDigitsAreDecimal(s: string)
    requires IsCanonicalDigits(s)
    ensures NatToDecimal(DigitsValue(s)) == s
    decreases |s|
  {
    if |s| > 1 {
      var t := s[..|s| - 1];
      LeadingDigitPositive(t);
      CanonicalDigitsAreDecimal(t);
      var n := DigitsValue(s);
      assert n / 10 == DigitsValue(t) && n % 10 == DigitValue(s[|s| - 1]);
      assert s == t + [s[|s| - 1]];
    }
  }

  lemma {:induction false} NatToDecimalReadsBack(n: nat)
    ensures DigitsValue(NatToDecimal(n)) == n
    decreases n
  {
    if n >= 10 {
      var s := NatToDecimal(n);
      assert s[..|s| - 1] == NatToDecimal(n / 10);
      NatToDecimalReadsBack(n / 10);
    }
  }

  /** Parsing the decimal text of an int gives the int back. */
  lemma IntToDecimalRoundTrip(i: int)
    ensures ParseDecimal(IntToDecimal(i)) == Some(i)
  {
    if i < 0 {
      assert IntToDecimal(i)[1..] == NatToDecimal(-i);
      NatToDecimalReadsBack(-i);
    } else {
      NatToDecimalReadsBack(i);
    }
  }

  /** Only the decimal text of an int parses to that int, so the parser and
      IntToDecimal are inverse both ways. */
  lemma ParseDecimalExact(s: string)
    ensures ParseDecimal(s).Some? ==> IntToDecimal(ParseDecimal(s).value) == s
  {
    if |s| > 1 && s[0] == '-' && IsCanonicalDigits(s[1..]) && s[1] != '0' {
      LeadingDigitPositive(s[1..]);
      CanonicalDigitsAreDecimal(s[1..]);
      assert s == "-" + s[1..];
    } else if IsCanonicalDigits(s) {
      CanonicalDigitsAreDecimal(s);
    }
  }
}
