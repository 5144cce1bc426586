/** `formatPaybackPeriod`: a payback period in months as display text. */
module Format {
  import opened Engine

  /** Decimal digits of a natural number, as `${n}` renders it. */
  function DecimalString(n: nat): (s: string)
    ensures |s| >= 1
    ensures forall k :: 0 <= k < |s| ==> '0' <= s[k] <= '9'
    ensures s[0] == '0' ==> n == 0
  {
    if n < 10 then [Digit(n)] else DecimalString(n / 10) + [Digit(n % 10)]
  }

  function Digit(d: nat): (c: char)
    requires d < 10
    ensures '0' <= c <= '9' && c as int - '0' as int == d
  {
    ('0' as int + d) as char
  }

  /** Reads a string of decimal digits back as a number. */
  function DecimalValue(s: string): nat
    requires forall k :: 0 <= k < |s| ==> '0' <= s[k] <= '9'
  {
    if s == [] then 0 else DecimalValue(s[..|s| - 1]) * 10 + (s[|s| - 1] as int - '0' as int)
  }

  /** The rendered digits denote the number they were rendered from. */
  lemma {:induction false} DecimalRoundTrip(n: nat)
    ensures DecimalValue(DecimalString(n)) == n
  {
    if n >= 10 {
      var s := DecimalString(n);
      assert s[..|s| - 1] == DecimalString(n / 10);
      DecimalRoundTrip(n / 10);
    }
  }

  /** Truncation toward zero, as JavaScript's `%` uses for its quotient. */
  function Trunc(x: real): int {
    if x >= 0.0 then x.Floor else -((-x).Floor)
  }

  /** JavaScript's `x % 12` on numbers: the remainder has the sign of `x`. */
  function Remainder12(x: real): (r: real)
    ensures x >= 0.0 ==> 0.0 <= r < 12.0
    ensures x <= 0.0 ==> -12.0 < r <= 0.0
    ensures ((x - r) / 12.0).Floor as real == (x - r) / 12.0
  {
    x - 12.0 * Trunc(x / 12.0) as real
  }

  /** `${n} unit` with an `s` appended when the count exceeds one. */
  function CountText(n: nat, unit: string): string {
    DecimalString(n) + " " + unit + (if n > 1 then "s" else "")
  }

  function Years(m: real): int { (m / 12.0).Floor }

  function WholeMonths(m: real): int { Remainder12(m).Floor }

  /** The year and month parts joined by a space, each left out when its count is
      not positive; empty when both are left out. */
  function Duration(years: int, months: int): string {
    var yearPart := if years > 0 then CountText(years, "year") else "";
    if months > 0 then yearPart + (if yearPart != "" then " " else "") + CountText(months, "month")
    else yearPart
  }

  function FormatPaybackPeriod(p: Payback): (s: string)
    ensures s != ""
  {
    match p
    case Never => "Never"
    case Months(m) =>
      if m == 0.0 then "Immediate"
      else
        var text := Duration(Years(m), WholeMonths(m));
        if text != "" then text else "Less than 1 month"
  }

  // ---------------------------------------------------------------------------

  /** A duration text that is not empty starts with a digit. */
  lemma DurationStartsWithDigit(years: int, months: int)
    ensures var s := Duration(years, months);
      s != "" ==> '0' <= s[0] <= '9'
  {
    var s := Duration(years, months);
    if years > 0 {
      assert s[0] == CountText(years, "year")[0] == DecimalString(years)[0];
    } else if months > 0 {
      assert s[0] == CountText(months, "month")[0] == DecimalString(months)[0];
    }
  }

  /** The whole years and whole months shown for a non-negative period are the
      period's whole months split into years of 12: both parts are floored. */
  lemma YearsAndMonthsSplit(m: real)
    requires m >= 0.0
    ensures 0 <= WholeMonths(m) < 12
    ensures 12 * Years(m) + WholeMonths(m) == m.Floor
  {
    var y := Years(m);
    assert y as real <= m / 12.0 < y as real + 1.0;
    assert 12.0 * (y as real) <= m < 12.0 * (y as real) + 12.0;
    var r := Remainder12(m);
    assert Trunc(m / 12.0) == y;
    assert r == m - 12.0 * y as real;
    var k := r.Floor;
    assert k as real <= r < k as real + 1.0;
    assert (12 * y + k) as real <= m < (12 * y + k) as real + 1.0;
  }

  /** "Less than 1 month" is shown exactly for periods strictly between 0 and 1. */
  lemma LessThanOneMonthExactly(m: real)
    requires m > 0.0
    ensures FormatPaybackPeriod(Months(m)) == "Less than 1 month" <==> m < 1.0
  {
    YearsAndMonthsSplit(m);
    var y, k := Years(m), WholeMonths(m);
    var text := Duration(y, k);
    assert text == "" <==> y <= 0 && k <= 0;
    if text != "" {
      DurationStartsWithDigit(y, k);
      assert text[0] != "Less than 1 month"[0];
    }
    assert y <= 0 && k <= 0 <==> m.Floor <= 0;
  }

  /** A negative period (a negative setup fee with a positive gain) falls through
      to "Less than 1 month", since both floored parts are negative or zero. */
  lemma NegativePeriodText(m: real)
    requires m < 0.0
    ensures FormatPaybackPeriod(Months(m)) == "Less than 1 month"
  {
    assert Years(m) < 0;
    assert WholeMonths(m) <= 0;
  }

  /** The sentinel texts. */
  lemma FormatSentinels()
    ensures FormatPaybackPeriod(Never) == "Never"
    ensures FormatPaybackPeriod(Months(0.0)) == "Immediate"
  {
  }

  /** A count of one is shown singular, and a zero part is left out. */
  lemma SingularCountText()
    ensures FormatPaybackPeriod(Months(1.5)) == "1 month"
    ensures FormatPaybackPeriod(Months(12.0)) == "1 year"
  {
    assert DecimalString(1) == "1";
    PeriodParts(1.5, 0, 1);
    PeriodParts(12.0, 1, 0);
    assert CountText(1, "month") == "1 month" && CountText(1, "year") == "1 year";
  }

  /** Counts above one are shown plural, years before months. */
  lemma PluralMonthsText()
    ensures FormatPaybackPeriod(Months(18.0)) == "1 year 6 months"
  {
    assert DecimalString(1) == "1" && DecimalString(6) == "6";
    PeriodParts(18.0, 1, 6);
    assert CountText(1, "year") == "1 year" && CountText(6, "month") == "6 months";
  }

  lemma PluralYearsText()
    ensures FormatPaybackPeriod(Months(25.9)) == "2 years 1 month"
  {
    assert DecimalString(1) == "1" && DecimalString(2) == "2";
    PeriodParts(25.9, 2, 1);
    assert CountText(2, "year") == "2 years" && CountText(1, "month") == "1 month";
  }

  /** From one month on, the text shows the whole months split into years of 12
      and the months that remain. */
  lemma WholeMonthsText(m: real)
    requires m >= 1.0
    ensures FormatPaybackPeriod(Months(m)) == Duration(m.Floor / 12, m.Floor % 12)
  {
    YearsAndMonthsSplit(m);
    var n := m.Floor;
    assert n >= 1;
    assert Years(m) == n / 12 && WholeMonths(m) == n % 12;
    assert Years(m) > 0 || WholeMonths(m) > 0;
    if Years(m) > 0 {
      assert CountText(Years(m), "year") != "";
    } else {
      assert CountText(WholeMonths(m), "month") != "";
    }
  }

  /** The parts of a non-negative period are determined by its whole months. */
  lemma PeriodParts(m: real, years: int, months: int)
    requires m >= 0.0 && 0 <= months < 12 && 12 * years + months == m.Floor
    ensures Years(m) == years && WholeMonths(m) == months
  {
    YearsAndMonthsSplit(m);
  }
}
