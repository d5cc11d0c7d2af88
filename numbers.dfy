// The two standard-library parsers the number arm calls on the digits it
// collected: `str::parse::<i64>` and `str::parse::<f64>`.

module Numbers {
  import opened Options
  import opened Tokens
  import opened Chars

  predicate AllDigits(s: seq<char>) {
    forall i :: 0 <= i < |s| ==> IsDigit(s[i])
  }

  /** A run of digits and points holds no point exactly when it is all digits. */
  lemma PointFreeRun(s: seq<char>)
    requires forall i :: 0 <= i < |s| ==> Continues(NumberRun, s[i])
    ensures '.' !in s <==> AllDigits(s)
  {
    if '.' !in s {
      forall i | 0 <= i < |s| ensures IsDigit(s[i]) {
        assert s[i] in s;
      }
    }
  }

  function DigitValue(c: char): (d: nat)
    requires IsDigit(c)
    ensures d < 10
  {
    (c as int) - ('0' as int)
  }

  function DigitChar(d: nat): (c: char)
    requires d < 10
    ensures IsDigit(c) && DigitValue(c) == d
  {
    (('0' as int) + d) as char
  }

  /** The value of a string of decimal digits, most significant first. */
  function DecimalValue(s: seq<char>): nat
    requires AllDigits(s)
  {
    if s == [] then 0 else DecimalValue(s[..|s| - 1]) * 10 + DigitValue(s[|s| - 1])
  }

  /** The shortest decimal text of `n`, with no leading zero; reading it back gives `n`. */
  function DecimalString(n: nat): (s: seq<char>)
    ensures |s| > 0 && AllDigits(s)
    ensures n == 0 || s[0] != '0'
    ensures DecimalValue(s) == n
  {
    if n < 10 then [DigitChar(n)]
    else
      var init := DecimalString(n / 10);
      var s := init + [DigitChar(n % 10)];
      assert s[..|s| - 1] == init;
      s
  }

  /** How many decimal points `s` holds. */
  function DotCount(s: seq<char>): (k: nat)
    ensures k <= |s|
    ensures k == 0 <==> '.' !in s
  {
    if s == [] then 0
    else
      assert s == [s[0]] + s[1..];
      (if s[0] == '.' then 1 else 0) + DotCount(s[1..])
  }

  /**
   * `str::parse::<i64>`: an optional sign, then one or more decimal digits
   * whose value lies in the signed 64-bit range; anything else is an error.
   */
  function ParseI64(text: seq<char>): (r: Option<i64>)
    ensures |text| > 0 && AllDigits(text) ==> (r.Some? <==> DecimalValue(text) <= I64Max)
    ensures |text| > 0 && AllDigits(text) && r.Some? ==> r.value as int == DecimalValue(text)
    ensures |text| == 0 ==> r.None?
  {
    var negative := |text| > 0 && text[0] == '-';
    var digits := if |text| > 0 && (text[0] == '+' || text[0] == '-') then text[1..] else text;
    if |digits| == 0 || !AllDigits(digits) then None
    else
      var magnitude: int := DecimalValue(digits);
      var v := if negative then -magnitude else magnitude;
      if I64Min <= v <= I64Max then Some(v as i64) else None
  }

  /**
   * Whether `str::parse::<f64>` accepts `text`, for text made of digits and
   * decimal points only (the only text the number arm hands it): at most one
   * point and at least one digit, so `1.`, `1.5` and `15` parse and `1.2.3`
   * does not.
   */
  function ParsesAsF64(text: seq<char>): (ok: bool)
    requires forall i :: 0 <= i < |text| ==> Continues(NumberRun, text[i])
    ensures |text| > 0 && IsDigit(text[0]) ==> (ok <==> DotCount(text) <= 1)
    ensures ok ==> exists i :: 0 <= i < |text| && IsDigit(text[i])
  {
    DigitAmongPoints(text);
    DotCount(text) <= 1 && DotCount(text) < |text|
  }

  /** A run of digits and points with fewer points than characters holds a digit. */
  lemma {:induction false} DigitAmongPoints(text: seq<char>)
    requires forall i :: 0 <= i < |text| ==> Continues(NumberRun, text[i])
    ensures DotCount(text) < |text| ==> exists i :: 0 <= i < |text| && IsDigit(text[i])
  {
    if text != [] && DotCount(text) < |text| && !IsDigit(text[0]) {
      DigitAmongPoints(text[1..]);
      var i :| 0 <= i < |text| - 1 && IsDigit(text[1..][i]);
      assert IsDigit(text[i + 1]);
    }
  }
}
