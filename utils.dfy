/**
 * The numeric helpers of the dashboard. Numbers are `real`; `None` stands for an
 * argument that is `null`, `undefined` or `NaN`.
 */
module Utils {
  import opened Wrappers

  /** `Number(n) || 0`: every helper first turns a missing or `NaN` argument into 0. */
  function ToNumber(n: Option<real>): (r: real)
    ensures n.Some? ==> r == n.value
    ensures n.None? ==> r == 0.0
  {
    n.GetOr(0.0)
  }

  function Max(a: real, b: real): real { if a >= b then a else b }

  function Min(a: real, b: real): real { if a <= b then a else b }

  /** `clampPercent`: the argument pinned into [0, 100]. */
  function ClampPercent(n: Option<real>): (r: real)
    ensures 0.0 <= r <= 100.0
    ensures 0.0 <= ToNumber(n) <= 100.0 ==> r == ToNumber(n)
    ensures ToNumber(n) < 0.0 ==> r == 0.0
    ensures ToNumber(n) > 100.0 ==> r == 100.0
  {
    var num := ToNumber(n);
    Max(0.0, Min(100.0, num))
  }

  /** Clamping twice is clamping once. */
  lemma ClampPercentIdempotent(n: Option<real>)
    ensures ClampPercent(Some(ClampPercent(n))) == ClampPercent(n)
  {
  }

  /**
   * `percentOf`: `part` as a percentage of `total`, clamped; 0 when `total` is
   * falsy (0, or missing, or `NaN`).
   */
  function PercentOf(part: Option<real>, total: Option<real>): (r: real)
    ensures 0.0 <= r <= 100.0
    ensures ToNumber(total) == 0.0 ==> r == 0.0
    ensures ToNumber(total) != 0.0 ==> r == ClampPercent(Some(ToNumber(part) / ToNumber(total) * 100.0))
    // a share of a positive total needs no clamping
    ensures 0.0 <= ToNumber(part) <= ToNumber(total) && ToNumber(total) > 0.0 ==>
              r == ToNumber(part) / ToNumber(total) * 100.0
  {
    if ToNumber(total) == 0.0 then 0.0
    else
      var ratio := ToNumber(part) / ToNumber(total);
      assert 0.0 <= ToNumber(part) <= ToNumber(total) && ToNumber(total) > 0.0 ==> 0.0 <= ratio <= 1.0;
      ClampPercent(Some(ratio * 100.0))
  }

  // ---- formatDuration ----

  predicate IsDigit(c: char) {
    '0' <= c <= '9'
  }

  predicate AllDigits(s: string) {
    forall i :: 0 <= i < |s| ==> IsDigit(s[i])
  }

  function DigitChar(d: nat): (c: char)
    requires d < 10
    ensures IsDigit(c) && c as int - '0' as int == d
  {
    ('0' as int + d) as char
  }

  function DigitValue(c: char): nat
    requires IsDigit(c)
  {
    c as int - '0' as int
  }

  /** The decimal numeral of `n`, as a template literal prints a non-negative integer. */
  function Decimal(n: nat): (s: string)
    ensures |s| > 0 && AllDigits(s)
    // no leading zeros: only 0 itself starts with '0'
    ensures s[0] == '0' <==> n == 0
    ensures |s| > 1 ==> s[0] != '0'
  {
    if n < 10 then [DigitChar(n)] else Decimal(n / 10) + [DigitChar(n % 10)]
  }

  /** The value of a string of digits. */
  function ParseDecimal(s: string): nat
    requires AllDigits(s)
  {
    if s == [] then 0 else ParseDecimal(s[..|s| - 1]) * 10 + DigitValue(s[|s| - 1])
  }

  lemma {:induction false} DecimalRoundTrip(n: nat)
    ensures ParseDecimal(Decimal(n)) == n
  {
    if n >= 10 {
      var s := Decimal(n);
      assert s[..|s| - 1] == Decimal(n / 10);
      DecimalRoundTrip(n / 10);
    }
  }

  /** `Math.floor(sec / 60)` and `sec % 60` for a non-negative whole number of seconds. */
  function SplitDuration(sec: nat): (ms: (nat, nat))
    ensures ms.0 * 60 + ms.1 == sec && ms.1 < 60
  {
    (sec / 60, sec % 60)
  }

  /** The text `${m}m ${s}s`. */
  function DurationText(m: nat, s: nat): string {
    Decimal(m) + "m " + Decimal(s) + "s"
  }

  /** The longest prefix of `s` made of digits. */
  function LeadingDigits(s: string): (d: string)
    ensures d <= s && AllDigits(d)
    ensures |d| < |s| ==> !IsDigit(s[|d|])
  {
    if s != [] && IsDigit(s[0]) then [s[0]] + LeadingDigits(s[1..]) else []
  }

  /** Reads `${m}m ${s}s` back as the pair of minutes and seconds. */
  function ParseDuration(text: string): Option<(nat, nat)> {
    var d1 := LeadingDigits(text);
    var rest := text[|d1|..];
    if d1 == [] || |rest| < 2 || rest[..2] != "m " then None
    else
      var rest2 := rest[2..];
      var d2 := LeadingDigits(rest2);
      if d2 == [] || rest2[|d2|..] != "s" then None
      else Some((ParseDecimal(d1), ParseDecimal(d2)))
  }

  lemma {:induction false} LeadingDigitsOf(d: string, rest: string)
    requires AllDigits(d)
    requires rest == [] || !IsDigit(rest[0])
    ensures LeadingDigits(d + rest) == d
  {
    if d != [] {
      assert (d + rest)[1..] == d[1..] + rest;
      LeadingDigitsOf(d[1..], rest);
    } else {
      assert d + rest == rest;
    }
  }

  /** The text `${m}m ${s}s` determines both m and s. */
  lemma DurationTextRoundTrip(m: nat, s: nat)
    ensures ParseDuration(DurationText(m, s)) == Some((m, s))
  {
    var dm, ds := Decimal(m), Decimal(s);
    var text := dm + "m " + ds + "s";
    assert text == dm + ("m " + ds + "s");
    LeadingDigitsOf(dm, "m " + ds + "s");
    var rest := text[|dm|..];
    assert rest == "m " + ds + "s";
    var rest2 := rest[2..];
    assert rest2 == ds + "s";
    LeadingDigitsOf(ds, "s");
    assert rest2[|ds|..] == "s";
    DecimalRoundTrip(m);
    DecimalRoundTrip(s);
  }

  /**
   * `formatDuration`: the text reads back as the minutes and the seconds below 60
   * that make up the argument (0 for a missing one), and it is the `Mm Ss` text
   * of that pair, with numerals free of leading zeros.
   */
  function FormatDuration(seconds: Option<nat>): (text: string)
    ensures ParseDuration(text).Some?
    ensures var (m, s) := ParseDuration(text).value; m * 60 + s == seconds.GetOr(0) && s < 60
    ensures var (m, s) := ParseDuration(text).value; text == DurationText(m, s)
  {
    var sec := seconds.GetOr(0);
    var (m, s) := SplitDuration(sec);
    DurationTextRoundTrip(m, s);
    DurationText(m, s)
  }

  /** A `null`, `undefined` or `NaN` argument behaves exactly like 0. */
  lemma MissingActsAsZero(n: Option<real>)
    ensures ClampPercent(None) == ClampPercent(Some(0.0))
    ensures PercentOf(None, n) == PercentOf(Some(0.0), n)
    ensures PercentOf(n, None) == PercentOf(n, Some(0.0))
    ensures FormatDuration(None) == FormatDuration(Some(0))
  {
  }
}
