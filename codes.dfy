/** The redemption code generator: `generateRandomCode` renders
    `100000 + rand.Intn(900000)` with `strconv.Itoa`. The random draw is a
    parameter `r` with `0 <= r < 900000`. */
module Codes {

  predicate IsDigit(c: char) {
    '0' <= c <= '9'
  }

  predicate IsDigits(s: string) {
    forall i :: 0 <= i < |s| ==> IsDigit(s[i])
  }

  /** A redemption code as the bot hands it out: six decimal digits, the first one not zero. */
  predicate IsCode(s: string) {
    |s| == 6 && IsDigits(s) && s[0] != '0'
  }

  function DigitChar(d: nat): (c: char)
    requires d < 10
    ensures IsDigit(c)
    ensures c == '0' <==> d == 0
  {
    ('0' as int + d) as char
  }

  function DigitValue(c: char): (d: nat)
    requires IsDigit(c)
    ensures d < 10 && DigitChar(d) == c
  {
    c as int - '0' as int
  }

  function Pow10(k: nat): (p: nat)
    ensures p >= 1
  {
    if k == 0 then 1 else 10 * Pow10(k - 1)
  }

  /** `strconv.Itoa` on a non-negative value: most significant digit first,
      no leading zero except for the value 0 itself. */
  function DecimalString(n: nat): (s: string)
    ensures |s| >= 1 && IsDigits(s)
    ensures s[0] == '0' <==> n == 0
    decreases n
  {
    if n < 10 then [DigitChar(n)] else DecimalString(n / 10) + [DigitChar(n % 10)]
  }

  /** The value a string of decimal digits denotes. */
  function ParseDecimal(s: string): (n: nat)
    requires IsDigits(s)
    ensures n < Pow10(|s|)
  {
    if s == [] then 0
    else
      var n' := ParseDecimal(s[..|s| - 1]);
      assert 10 * n' + 9 < 10 * Pow10(|s| - 1) by {
        assert n' + 1 <= Pow10(|s| - 1);
      }
      10 * n' + DigitValue(s[|s| - 1])
  }

  /** Reading back what `DecimalString` wrote gives the number. */
  lemma {:induction false} ParseDecimalString(n: nat)
    ensures ParseDecimal(DecimalString(n)) == n
    decreases n
  {
    if n >= 10 {
      var s := DecimalString(n);
      assert s[..|s| - 1] == DecimalString(n / 10);
      ParseDecimalString(n / 10);
    }
  }

  /** A digit string whose first digit is not zero is worth at least 10^(length - 1). */
  lemma {:induction false} LeadingDigitBound(s: string)
    requires |s| >= 1 && IsDigits(s) && s[0] != '0'
    ensures ParseDecimal(s) >= Pow10(|s| - 1)
    decreases |s|
  {
    if |s| == 1 {
      assert DigitValue(s[0]) != 0;
    } else {
      var p := s[..|s| - 1];
      assert p[0] == s[0];
      LeadingDigitBound(p);
    }
  }

  /** Every digit string without a leading zero is what `DecimalString` writes for its value. */
  lemma {:induction false} DecimalStringParse(s: string)
    requires |s| >= 1 && IsDigits(s) && (s[0] == '0' ==> |s| == 1)
    ensures DecimalString(ParseDecimal(s)) == s
    decreases |s|
  {
    if |s| > 1 {
      var p := s[..|s| - 1];
      assert p[0] == s[0];
      LeadingDigitBound(p);
      DecimalStringParse(p);
      var n := ParseDecimal(s);
      assert n == 10 * ParseDecimal(p) + DigitValue(s[|s| - 1]);
      assert n / 10 == ParseDecimal(p) && n % 10 == DigitValue(s[|s| - 1]);
      assert s == p + [s[|s| - 1]];
    }
  }

  /** Numbers in [10^(k-1), 10^k) are written with exactly k digits. */
  lemma {:induction false} DecimalStringLength(n: nat, k: nat)
    requires 1 <= k && Pow10(k - 1) <= n < Pow10(k)
    ensures |DecimalString(n)| == k
    decreases k
  {
    if n >= 10 {
      if k == 1 {
        assert false;
      } else {
        assert Pow10(k - 1) == 10 * Pow10(k - 2);
        assert Pow10(k) == 10 * Pow10(k - 1);
        assert Pow10(k - 2) <= n / 10 < Pow10(k - 1);
        DecimalStringLength(n / 10, k - 1);
      }
    }
  }

  const CodeBase: nat := 100000
  const CodeRange: nat := 900000

  /** `generateRandomCode`, with the draw of `rand.Intn(900000)` given as `r`:
      always a six-digit code, and the code determines the draw. */
  function GenerateCode(r: int): (code: string)
    requires 0 <= r < CodeRange
    ensures IsCode(code)
    ensures ParseDecimal(code) == CodeBase + r
  {
    assert Pow10(5) == 100000 && Pow10(6) == 1000000;
    DecimalStringLength(CodeBase + r, 6);
    ParseDecimalString(CodeBase + r);
    DecimalString(CodeBase + r)
  }

  /** Conversely, every six-digit code is produced by exactly one draw, so the
      code space has 900000 members. */
  lemma GenerateCodeCovers(s: string)
    requires IsCode(s)
    ensures CodeBase <= ParseDecimal(s) < CodeBase + CodeRange
    ensures GenerateCode(ParseDecimal(s) - CodeBase) == s
  {
    assert Pow10(5) == 100000 && Pow10(6) == 1000000;
    LeadingDigitBound(s);
    DecimalStringParse(s);
  }
}
