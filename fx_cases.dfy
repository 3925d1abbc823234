/** The rate-lookup cases of the test suite, worked through on its tables. */
module FxCases {
  import opened Wrappers
  import opened Text
  import opened Calendar
  import opened CustomerFx
  import opened RootFx

  // All the test tables lie in late December 2024.

  /** The text of 2024-12-`day`. */
  function Dec2024(day: int): string
  {
    FormatDate(Date(2024, 12, day))
  }

  lemma Dec2024Digits(day: int)
    requires 1 <= day <= 31
    ensures Dec2024(day) == "2024-12-" + [DigitChar(day / 10), DigitChar(day % 10)]
  {
    assert NatToDecimal(2024) == NatToDecimal(202) + "4";
    assert NatToDecimal(202) == NatToDecimal(20) + "2";
    TwoDigitDecimal(20);
    TwoDigitDecimal(12);
    if day >= 10 {
      TwoDigitDecimal(day);
    } else {
      assert PadStart2(IntToDecimal(day)) == "0" + [DigitChar(day)];
    }
  }

  /** These dates compare as their days do. */
  lemma Dec2024Order(a: int, b: int)
    requires 1 <= a <= 31 && 1 <= b <= 31
    ensures StrLe(Dec2024(a), Dec2024(b)) <==> a <= b
  {
    Dec2024Digits(a);
    Dec2024Digits(b);
    if a == b {
      StrLeRefl(Dec2024(a));
    } else if a / 10 != b / 10 {
      StrLeAt(Dec2024(a), Dec2024(b), 8);
    } else {
      StrLeAt(Dec2024(a), Dec2024(b), 9);
    }
  }

  /** `subtractDays` from a December 2024 date stays in December for small steps. */
  lemma Dec2024Back(day: int, k: nat, earlier: int)
    requires earlier == day - k && 1 <= earlier && day <= 31
    ensures SubtractDays(Dec2024(day), k) == Dec2024(earlier)
  {
    var d := Date(2024, 12, day);
    ParseOfFormat(d);
    BackWithinMonth(d, k);
    assert BackN(d, k) == Date(2024, 12, earlier);
    assert SubtractDays(Dec2024(day), k) == FormatDate(BackN(d, k));
  }

  function Dec2024Rate(day: int, tts: real, ttb: real): FxRate
  {
    FxRate(Dec2024(day), tts, ttb)
  }

  /** Row `j` of `table` is dated 2024-12-`days[j]`. */
  predicate DatedBy(table: seq<FxRate>, days: seq<int>)
  {
    |table| == |days| && forall j :: 0 <= j < |table| ==> 1 <= days[j] <= 31 && table[j].date == Dec2024(days[j])
  }

  /** The first row on or before a day is the first row whose day is not later. */
  lemma FirstByDay(table: seq<FxRate>, days: seq<int>, target: int, i: int)
    requires DatedBy(table, days) && 1 <= target <= 31 && 0 <= i < |table| && days[i] <= target
    requires forall j :: 0 <= j < i ==> days[j] > target
    ensures FirstOnOrBefore(table, Dec2024(target)) == Some(table[i])
  {
    forall j | 0 <= j <= i ensures StrLe(table[j].date, Dec2024(target)) <==> days[j] <= target {
      Dec2024Order(days[j], target);
    }
    FirstAtIsFirst(table, Dec2024(target), i);
  }

  /** No row is dated on or before a day earlier than every row's day. */
  lemma NoneByDay(table: seq<FxRate>, days: seq<int>, target: int)
    requires DatedBy(table, days) && 1 <= target <= 31
    requires forall j :: 0 <= j < |table| ==> days[j] > target
    ensures FirstOnOrBefore(table, Dec2024(target)) == None
  {
    forall j | 0 <= j < |table| ensures !StrLe(table[j].date, Dec2024(target)) {
      Dec2024Order(days[j], target);
    }
  }

  /** The candidate `k` days before the trade date. */
  lemma CandidateByDay(table: seq<FxRate>, days: seq<int>, date: int, k: nat, i: int)
    requires DatedBy(table, days) && 1 <= date - k && date <= 31 && 0 <= i < |table| && days[i] <= date - k
    requires forall j :: 0 <= j < i ==> days[j] > date - k
    ensures Candidate(table, Dec2024(date), k) == Some(table[i])
  {
    var earlier := date - k;
    FirstByDay(table, days, earlier, i);
    ShiftedCandidate(table, date, k, earlier, Some(table[i]));
  }

  /** The candidate `k` days before is the first row on or before the date `k` days earlier. */
  lemma ShiftedCandidate(table: seq<FxRate>, date: int, k: nat, earlier: int, r: Option<FxRate>)
    requires earlier == date - k && 1 <= earlier && date <= 31 && FirstOnOrBefore(table, Dec2024(earlier)) == r
    ensures Candidate(table, Dec2024(date), k) == r
  {
    Dec2024Back(date, k, earlier);
    assert Candidate(table, Dec2024(date), k) == FirstOnOrBefore(table, SubtractDays(Dec2024(date), k));
  }

  // ------------------------------------------------------ the test tables

  /** The newest-first table of the test suite, with a weekend gap after the 16th. */
  function MockTable(): seq<FxRate>
  {
    [Dec2024Rate(20, 156.50, 154.50), Dec2024Rate(19, 156.00, 154.00),
     Dec2024Rate(18, 155.50, 153.50), Dec2024Rate(17, 155.00, 153.00),
     Dec2024Rate(16, 154.50, 152.50), Dec2024Rate(13, 154.00, 152.00),
     Dec2024Rate(12, 153.50, 151.50)]
  }

  function MockDays(): seq<int> { [20, 19, 18, 17, 16, 13, 12] }

  /** Rates are zero on the trade date and the two days before it. */
  function ZeroTable(): seq<FxRate>
  {
    [Dec2024Rate(20, 0.0, 0.0), Dec2024Rate(19, 0.0, 0.0), Dec2024Rate(18, 0.0, 0.0),
     Dec2024Rate(17, 155.00, 153.00), Dec2024Rate(16, 154.50, 152.50)]
  }

  /** Rates are zero on the trade date and each of the five days before it. */
  function GapsTable(): seq<FxRate>
  {
    [Dec2024Rate(20, 0.0, 0.0), Dec2024Rate(19, 0.0, 0.0), Dec2024Rate(18, 0.0, 0.0),
     Dec2024Rate(17, 0.0, 0.0), Dec2024Rate(16, 0.0, 0.0), Dec2024Rate(15, 0.0, 0.0),
     Dec2024Rate(14, 150.00, 148.00), Dec2024Rate(13, 149.50, 147.50)]
  }

  lemma ZeroDated()
    ensures DatedBy(ZeroTable(), [20, 19, 18, 17, 16])
  {
  }

  lemma GapsDated()
    ensures DatedBy(GapsTable(), [20, 19, 18, 17, 16, 15, 14, 13])
  {
  }

  /** When the candidate at offset 0 is usable, it is the answer. */
  lemma UsableAtZero(table: seq<FxRate>, date: string, maxDaysBack: int, f: FxRate)
    requires |table| > 0 && 0 <= maxDaysBack && Candidate(table, date, 0) == Some(f) && f.tts > 0.0 && f.ttb > 0.0
    ensures PickRate(table, date, maxDaysBack) == RateOf(f)
  {
    var cands := Candidates(table, date, maxDaysBack);
    assert cands[0] == Some(f);
  }

  // ------------------------------------------------------------ the cases

  lemma MockDated()
    ensures DatedBy(MockTable(), MockDays())
  {
  }

  /** Row `i` of the test table is the first one dated on or before 2024-12-`date`, with usable rates. */
  lemma MockRow(date: int, i: int)
    requires 10 <= date <= 31 && 0 <= i < 7 && MockDays()[i] <= date
    requires forall j :: 0 <= j < i ==> MockDays()[j] > date
    ensures PickRate(MockTable(), Dec2024(date), DefaultMaxDaysBack) == RateOf(MockTable()[i])
  {
    MockDated();
    RowOnOrBefore(MockTable(), MockDays(), date, i);
  }

  /** A date whose first row on or before it has usable rates takes that row's rates. */
  lemma RowOnOrBefore(t: seq<FxRate>, days: seq<int>, date: int, i: int)
    requires DatedBy(t, days) && 10 <= date <= 31 && 0 <= i < |t| && days[i] <= date
    requires forall j :: 0 <= j < i ==> days[j] > date
    requires t[i].tts > 0.0 && t[i].ttb > 0.0
    ensures PickRate(t, Dec2024(date), DefaultMaxDaysBack) == RateOf(t[i])
  {
    CandidateByDay(t, days, date, 0, i);
    UsableAtZero(t, Dec2024(date), DefaultMaxDaysBack, t[i]);
  }

  /** The trade date itself is in the table. */
  lemma SameDayRate()
    ensures PickRate(MockTable(), Dec2024(19), DefaultMaxDaysBack) == Rate(156.00, 154.00)
  {
    MockRow(19, 1);
  }

  /** A date after the newest entry takes the newest entry. */
  lemma LaterThanTable()
    ensures PickRate(MockTable(), Dec2024(21), DefaultMaxDaysBack) == Rate(156.50, 154.50)
  {
    MockRow(21, 0);
  }

  /** A Saturday takes the rate of the Friday before it. */
  lemma WeekendTakesFriday()
    ensures PickRate(MockTable(), Dec2024(14), DefaultMaxDaysBack) == Rate(154.00, 152.00)
  {
    MockRow(14, 5);
  }

  /**
   * A date before the oldest row: no row is on or before any day of the
   * window, so the lookup falls back to the last (oldest) row.
   */
  lemma BeforeTableFallsBack()
    ensures PickRate(MockTable(), Dec2024(10), DefaultMaxDaysBack) == Rate(153.50, 151.50)
  {
    BeforeTableFrom(MockTable(), MockDays(), Dec2024(10));
  }

  lemma BeforeTableFrom(t: seq<FxRate>, days: seq<int>, date: string)
    requires t == MockTable() && days == MockDays() && date == Dec2024(10)
    ensures PickRate(t, date, DefaultMaxDaysBack) == Rate(153.50, 151.50)
  {
    MockDated();
    assert forall j :: 0 <= j < |t| ==> days[j] > 10;
    NoneInWindow(t, days, 10, DefaultMaxDaysBack);
    assert t[|t| - 1] == Dec2024Rate(12, 153.50, 151.50);
  }

  /** A trade date whose whole window lies before every row takes the last row. */
  lemma NoneInWindow(t: seq<FxRate>, days: seq<int>, date: int, maxDaysBack: int)
    requires DatedBy(t, days) && |t| > 0 && 0 <= maxDaysBack && date <= 31 && 1 <= date - maxDaysBack
    requires forall j :: 0 <= j < |t| ==> days[j] > date
    ensures PickRate(t, Dec2024(date), maxDaysBack) == RateOf(t[|t| - 1])
  {
    var cs := Candidates(t, Dec2024(date), maxDaysBack);
    forall k | 0 <= k < |cs| ensures !Usable(cs[k]) {
      NoneByDay(t, days, date - k);
      ShiftedCandidate(t, date, k, date - k, None);
    }
    FirstUsableNoneIff(cs);
  }

  /** The yen case: no table, rate 1. */
  lemma EmptyTableRate()
    ensures PickRate([], Dec2024(20), DefaultMaxDaysBack) == Rate(1.0, 1.0)
  {
  }

  /** The lookup over a table whose rows are the days counting down from the trade date. */
  lemma CountdownCandidates(t: seq<FxRate>, days: seq<int>, date: int, maxDaysBack: int)
    requires DatedBy(t, days) && 0 <= maxDaysBack < |t| && date <= 31 && 10 <= date - maxDaysBack
    requires forall j :: 0 <= j < |days| ==> days[j] == date - j
    ensures forall k: nat :: k <= maxDaysBack ==> Candidate(t, Dec2024(date), k) == Some(t[k])
  {
    forall k: nat | k <= maxDaysBack ensures Candidate(t, Dec2024(date), k) == Some(t[k]) {
      CandidateByDay(t, days, date, k, k);
    }
  }

  lemma FourthUsable(cs: seq<Option<FxRate>>)
    requires |cs| > 3 && !Usable(cs[0]) && !Usable(cs[1]) && !Usable(cs[2]) && Usable(cs[3])
    ensures FirstUsable(cs) == Some(RateOf(cs[3].value))
  {
    FirstUsableFinds(cs, 3);
  }

  lemma NoneOfSixUsable(cs: seq<Option<FxRate>>)
    requires |cs| == 6 && !Usable(cs[0]) && !Usable(cs[1]) && !Usable(cs[2])
    requires !Usable(cs[3]) && !Usable(cs[4]) && !Usable(cs[5])
    ensures FirstUsable(cs) == None
  {
    FirstUsableNoneIff(cs);
  }

  /** Zero rates are skipped one calendar day at a time: three days back holds the first usable rate. */
  lemma ZeroRatesSkipped()
    ensures PickRate(ZeroTable(), Dec2024(20), DefaultMaxDaysBack) == Rate(155.00, 153.00)
  {
    ZeroRatesSkippedFrom(ZeroTable(), [20, 19, 18, 17, 16], Dec2024(20));
  }

  lemma ZeroRatesSkippedFrom(t: seq<FxRate>, days: seq<int>, date: string)
    requires t == ZeroTable() && days == [20, 19, 18, 17, 16] && date == Dec2024(20)
    ensures PickRate(t, date, DefaultMaxDaysBack) == Rate(155.00, 153.00)
  {
    ZeroDated();
    CountdownCandidates(t, days, 20, 4);
    var all := Candidates(t, date, DefaultMaxDaysBack);
    assert all[0] == Some(t[0]) && all[1] == Some(t[1]) && all[2] == Some(t[2]) && all[3] == Some(t[3]);
    FourthUsable(all);
  }

  /**
   * Six zero days exhaust the window of five days back, so the lookup falls
   * back to the last table entry although the next row has a usable rate.
   */
  lemma WindowExhaustedFallsBack()
    ensures PickRate(GapsTable(), Dec2024(20), 5) == Rate(149.50, 147.50)
  {
    WindowExhaustedFrom(GapsTable(), [20, 19, 18, 17, 16, 15, 14, 13], Dec2024(20));
  }

  lemma WindowExhaustedFrom(t: seq<FxRate>, days: seq<int>, date: string)
    requires t == GapsTable() && days == [20, 19, 18, 17, 16, 15, 14, 13] && date == Dec2024(20)
    ensures PickRate(t, date, 5) == Rate(149.50, 147.50)
  {
    GapsCandidates(t, days, date);
    GapsZeroRows(t);
    GapsWindowEmpty(t, date);
    assert t[|t| - 1] == Dec2024Rate(13, 149.50, 147.50);
  }

  lemma GapsWindowEmpty(t: seq<FxRate>, date: string)
    requires |t| >= 6
    requires forall k :: 0 <= k < 6 ==> Candidates(t, date, 5)[k] == Some(t[k])
    requires forall k :: 0 <= k < 6 ==> t[k].tts == 0.0
    ensures FirstUsable(Candidates(t, date, 5)) == None
  {
    NoneUsableOfZeroRows(Candidates(t, date, 5), t);
  }

  /** Candidates that are all zero-rate rows of the table are none of them usable. */
  lemma NoneUsableOfZeroRows(cs: seq<Option<FxRate>>, t: seq<FxRate>)
    requires |cs| <= |t|
    requires forall k :: 0 <= k < |cs| ==> cs[k] == Some(t[k])
    requires forall k :: 0 <= k < |cs| ==> t[k].tts == 0.0
    ensures FirstUsable(cs) == None
  {
    FirstUsableNoneIff(cs);
  }

  lemma GapsZeroRows(t: seq<FxRate>)
    requires t == GapsTable()
    ensures forall k :: 0 <= k < 6 ==> t[k].tts == 0.0
  {
  }

  lemma GapsCandidates(t: seq<FxRate>, days: seq<int>, date: string)
    requires t == GapsTable() && days == [20, 19, 18, 17, 16, 15, 14, 13] && date == Dec2024(20)
    ensures forall k :: 0 <= k < 6 ==> Candidates(t, date, 5)[k] == Some(t[k])
  {
    GapsDated();
    CountdownCandidates(t, days, 20, 5);
  }

  /** The root scan on the same newest-first table stops at once and returns the first entry. */
  lemma RootScanOnNewestFirstTable()
    ensures PickRateRoot(MockTable(), Dec2024(19)) == Rate(156.50, 154.50)
    ensures PickRateRoot(MockTable(), Dec2024(19)) != PickRate(MockTable(), Dec2024(19), DefaultMaxDaysBack)
  {
    var t := MockTable();
    Dec2024Order(20, 19);
    PickRateRootFromTable(t, Dec2024(19));
    SameDayRate();
  }
}
