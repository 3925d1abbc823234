/**
 * Civil-calendar dates as `subtractDays` handles them: `new Date("YYYY-MM-DD")`,
 * stepping the day of the month back, and printing the date again as
 * `${year}-${MM}-${DD}`.
 */
module Calendar {
  import opened Wrappers
  import opened Text

  datatype Date = Date(year: int, month: int, day: int)

  /** Gregorian leap years (the year may be zero or negative, as in the proleptic calendar). */
  predicate IsLeapYear(y: int)
  {
    (y % 4 == 0 && y % 100 != 0) || y % 400 == 0
  }

  function DaysInMonth(y: int, m: int): (n: int)
    requires 1 <= m <= 12
    ensures 28 <= n <= 31
  {
    if m == 2 then (if IsLeapYear(y) then 29 else 28)
    else if m == 4 || m == 6 || m == 9 || m == 11 then 30
    else 31
  }

  predicate Valid(d: Date)
  {
    1 <= d.month <= 12 && 1 <= d.day <= DaysInMonth(d.year, d.month)
  }

  /** Chronological order. */
  predicate Before(a: Date, b: Date)
  {
    a.year < b.year || (a.year == b.year && (a.month < b.month || (a.month == b.month && a.day < b.day)))
  }

  /** The calendar day before `d`. */
  function PrevDay(d: Date): (r: Date)
    requires Valid(d)
    ensures Valid(r) && Before(r, d)
  {
    if d.day > 1 then Date(d.year, d.month, d.day - 1)
    else if d.month > 1 then Date(d.year, d.month - 1, DaysInMonth(d.year, d.month - 1))
    else Date(d.year - 1, 12, 31)
  }

  /** The calendar day after `d`. */
  function NextDay(d: Date): (r: Date)
    requires Valid(d)
    ensures Valid(r) && Before(d, r)
  {
    if d.day < DaysInMonth(d.year, d.month) then Date(d.year, d.month, d.day + 1)
    else if d.month < 12 then Date(d.year, d.month + 1, 1)
    else Date(d.year + 1, 1, 1)
  }

  /** `PrevDay` moves exactly one day: no valid date lies strictly between `PrevDay(d)` and `d`. */
  lemma PrevDayAdjacent(d: Date, e: Date)
    requires Valid(d) && Valid(e) && Before(PrevDay(d), e)
    ensures !Before(e, d)
  {
  }

  /** `NextDay` moves exactly one day: no valid date lies strictly between `d` and `NextDay(d)`. */
  lemma NextDayAdjacent(d: Date, e: Date)
    requires Valid(d) && Valid(e) && Before(d, e)
    ensures !Before(e, NextDay(d))
  {
  }

  /** The day after the day before `d` is `d` again. */
  lemma NextOfPrev(d: Date)
    requires Valid(d)
    ensures NextDay(PrevDay(d)) == d
  {
  }

  /** The day before the day after `d` is `d` again. */
  lemma PrevOfNext(d: Date)
    requires Valid(d)
    ensures PrevDay(NextDay(d)) == d
  {
  }

  /** `d` moved `n` days into the past. */
  function BackN(d: Date, n: nat): (r: Date)
    requires Valid(d)
    ensures Valid(r)
    ensures n > 0 ==> Before(r, d)
  {
    if n == 0 then d else PrevDay(BackN(d, n - 1))
  }

  function ForwardN(d: Date, n: nat): (r: Date)
    requires Valid(d)
    ensures Valid(r)
  {
    if n == 0 then d else NextDay(ForwardN(d, n - 1))
  }

  /** Going `n` days back and then `n` days forward returns to `d`. */
  lemma {:induction false} ForwardOfBack(d: Date, n: nat)
    requires Valid(d)
    ensures ForwardN(BackN(d, n), n) == d
  {
    if n > 0 {
      var p := BackN(d, n - 1);
      ForwardOfBack(d, n - 1);
      ForwardAfterStep(PrevDay(p), n - 1);
      NextOfPrev(p);
    }
  }

  /** Going forward `n + 1` days is one day forward, then `n` more. */
  lemma {:induction false} ForwardAfterStep(d: Date, n: nat)
    requires Valid(d)
    ensures ForwardN(d, n + 1) == ForwardN(NextDay(d), n)
  {
    if n > 0 {
      ForwardAfterStep(d, n - 1);
    }
  }

  /** Stepping back within one month only lowers the day. */
  lemma {:induction false} BackWithinMonth(d: Date, n: nat)
    requires Valid(d) && n < d.day
    ensures BackN(d, n) == Date(d.year, d.month, d.day - n)
  {
    if n > 0 {
      BackWithinMonth(d, n - 1);
    }
  }

  // ------------------------------------------------------ parse and print

  /** The shape `dddd-dd-dd`. */
  predicate IsIsoShape(s: string)
  {
    |s| == 10 && AllDigits(s[..4]) && s[4] == '-' && AllDigits(s[5..7]) && s[7] == '-' && AllDigits(s[8..])
  }

  /**
   * `new Date(s)` for a date-only string: `None` for an invalid date. The
   * month must be 01..12 and the day 01..31; a day past the end of its month
   * runs on into the next month.
   */
  function ParseDate(s: string): (r: Option<Date>)
    ensures r.Some? ==> Valid(r.value)
    ensures r.Some? <==> IsIsoShape(s) && 1 <= DecimalValue(s[5..7]) <= 12 && 1 <= DecimalValue(s[8..]) <= 31
  {
    if !IsIsoShape(s) then None
    else
      var y, m, d := DecimalValue(s[..4]), DecimalValue(s[5..7]), DecimalValue(s[8..]);
      if !(1 <= m <= 12 && 1 <= d <= 31) then None
      else if d <= DaysInMonth(y, m) then Some(Date(y, m, d))
      else Some(Date(y, m + 1, d - DaysInMonth(y, m)))
  }

  /** `${getFullYear()}-${MM}-${DD}` with month and day padded to two digits. */
  function FormatDate(d: Date): string
  {
    IntToDecimal(d.year) + "-" + PadStart2(IntToDecimal(d.month)) + "-" + PadStart2(IntToDecimal(d.day))
  }

  /** Four-digit years print as four digits. */
  lemma {:induction false} FourDigitYear(y: nat)
    requires 1000 <= y <= 9999
    ensures |NatToDecimal(y)| == 4 && NatToDecimal(y)[0] != '0'
  {
    assert NatToDecimal(y) == NatToDecimal(y / 10) + [DigitChar(y % 10)];
    assert NatToDecimal(y / 10) == NatToDecimal(y / 100) + [DigitChar(y / 10 % 10)];
    assert NatToDecimal(y / 100) == NatToDecimal(y / 1000) + [DigitChar(y / 100 % 10)];
  }

  /** A month or day in 1..31 printed with two digits reads back as itself. */
  lemma TwoDigitRoundTrip(n: int)
    requires 1 <= n <= 31
    ensures var t := PadStart2(IntToDecimal(n)); |t| == 2 && AllDigits(t) && DecimalValue(t) == n
  {
    var t := PadStart2(IntToDecimal(n));
    if n < 10 {
      assert t == ['0', DigitChar(n)];
      assert DecimalValue(t[..1]) == 0;
    } else {
      DecimalOfNatToDecimal(n);
    }
  }

  /** The three numbers of a `dddd-dd-dd` string, digit by digit. */
  lemma IsoFields(s: string)
    requires IsIsoShape(s)
    ensures DecimalValue(s[..4]) == ((DigitValue(s[0]) * 10 + DigitValue(s[1])) * 10 + DigitValue(s[2])) * 10 + DigitValue(s[3])
    ensures DecimalValue(s[5..7]) == DigitValue(s[5]) * 10 + DigitValue(s[6])
    ensures DecimalValue(s[8..]) == DigitValue(s[8]) * 10 + DigitValue(s[9])
  {
    DecimalValue4(s[..4]);
    DecimalValue2(s[5..7]);
    DecimalValue2(s[8..]);
  }

  /** Printing a date with a four-digit year and parsing the text gives the date back. */
  lemma ParseOfFormat(d: Date)
    requires Valid(d) && 1000 <= d.year <= 9999
    ensures ParseDate(FormatDate(d)) == Some(d)
  {
    var ys := NatToDecimal(d.year);
    FourDigitYear(d.year);
    DecimalOfNatToDecimal(d.year);
    TwoDigitRoundTrip(d.month);
    TwoDigitRoundTrip(d.day);
    var s := FormatDate(d);
    var ms, ds := PadStart2(IntToDecimal(d.month)), PadStart2(IntToDecimal(d.day));
    assert s == ys + "-" + ms + "-" + ds;
    assert s[..4] == ys && s[5..7] == ms && s[8..] == ds;
  }

  /** `FormatDate(d)` is the canonical text of `d`: a valid ISO date with a four-digit year. */
  predicate IsCanonical(s: string)
  {
    IsIsoShape(s) && s[0] != '0'
    && 1 <= DecimalValue(s[5..7]) <= 12 && 1 <= DecimalValue(s[8..]) <= DaysInMonth(DecimalValue(s[..4]), DecimalValue(s[5..7]))
  }

  lemma TwoDigitsOfValue(t: string)
    requires |t| == 2 && AllDigits(t) && 1 <= DecimalValue(t)
    ensures PadStart2(IntToDecimal(DecimalValue(t))) == t
  {
    assert DecimalValue(t) == DecimalValue(t[..1]) * 10 + DigitValue(t[1]);
    assert t[..1][..0] == [];
    DigitCharOfValue(t[1]);
    if t[0] == '0' {
      assert t == ['0', t[1]];
    } else {
      NatToDecimalOfDecimal(t);
    }
  }

  /** Parsing canonical text and printing the date gives the text back. */
  lemma FormatOfParse(s: string)
    requires IsCanonical(s)
    ensures ParseDate(s).Some? && FormatDate(ParseDate(s).value) == s
  {
    NatToDecimalOfDecimal(s[..4]);
    TwoDigitsOfValue(s[5..7]);
    TwoDigitsOfValue(s[8..]);
    assert s == s[..4] + "-" + s[5..7] + "-" + s[8..];
  }
}
