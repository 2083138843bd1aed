/** Classification of a SIP response status code, as receiveResponse does it.

    The source does not compare numbers: it renders the code as a decimal
    string and tests it against `/^1[0-9]{2}$/` and `/^2[0-9]{2}$/`. This
    module models that string test and proves that it agrees with the numeric
    response classes of section 7.2 of RFC 3261 (1xx provisional, 2xx success).
 */
module StatusClass {

  predicate IsDigit(c: char)
  {
    '0' <= c <= '9'
  }

  /** The character of one decimal digit. */
  function DigitChar(d: nat): (c: char)
    requires d < 10
    ensures IsDigit(c)
    ensures c as int - '0' as int == d
  {
    ('0' as int + d) as char
  }

  /** The decimal digits of a non-negative integer, without leading zeros
      ("0" for zero), as Number.prototype.toString renders it. */
  function Digits(n: nat): (s: string)
    ensures |s| >= 1
    ensures forall i :: 0 <= i < |s| ==> IsDigit(s[i])
    decreases n
  {
    if n < 10 then [DigitChar(n)] else Digits(n / 10) + [DigitChar(n % 10)]
  }

  /** String(n) for an integer: a minus sign before the digits of a negative number. */
  function ToDecimal(n: int): (s: string)
    ensures |s| >= 1
    ensures s[0] == '-' <==> n < 0
  {
    if n < 0 then "-" + Digits(-n) else Digits(n)
  }

  /** The test `/^L[0-9]{2}$/.test(s)`: exactly three characters, the first `lead`,
      the other two digits. Without the `m` flag `$` matches only at the end. */
  predicate MatchesClassPattern(s: string, lead: char)
  {
    |s| == 3 && s[0] == lead && IsDigit(s[1]) && IsDigit(s[2])
  }

  /** How many digits a number renders to, and what its leading digit is. */
  lemma {:induction false} DigitsShape(n: nat)
    ensures n < 10 ==> |Digits(n)| == 1
    ensures 10 <= n < 100 ==> |Digits(n)| == 2 && Digits(n)[0] == DigitChar(n / 10)
    ensures 100 <= n < 1000 ==> |Digits(n)| == 3 && Digits(n)[0] == DigitChar(n / 100)
    ensures 1000 <= n ==> |Digits(n)| > 3
    decreases n
  {
    if n >= 10 {
      DigitsShape(n / 10);
      assert Digits(n) == Digits(n / 10) + [DigitChar(n % 10)];
      if 100 <= n < 1000 {
        assert n / 10 / 10 == n / 100;
      }
    }
  }

  /** The regular-expression test on the rendered code holds exactly for the
      hundred codes `100*k .. 100*k + 99`. */
  lemma ClassPatternIffRange(n: int, k: nat)
    requires 1 <= k <= 9
    ensures MatchesClassPattern(ToDecimal(n), DigitChar(k)) <==> 100 * k <= n < 100 * (k + 1)
  {
    if n >= 0 {
      DigitsShape(n);
      if 100 <= n < 1000 {
        assert ToDecimal(n)[0] == DigitChar(n / 100);
      }
    }
  }

  /** The three branches of the switch in receiveResponse. */
  datatype ResponseClass = Provisional | Success | NonSuccess

  /** Classifies a status code by the source's string tests; the result is
      characterised by numeric ranges. */
  function Classify(code: int): (c: ResponseClass)
    ensures c == Provisional <==> 100 <= code <= 199
    ensures c == Success <==> 200 <= code <= 299
    ensures c == NonSuccess <==> code < 100 || 300 <= code
  {
    ClassPatternIffRange(code, 1);
    ClassPatternIffRange(code, 2);
    if MatchesClassPattern(ToDecimal(code), DigitChar(1)) then Provisional
    else if MatchesClassPattern(ToDecimal(code), DigitChar(2)) then Success
    else NonSuccess
  }
}
