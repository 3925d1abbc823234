/**
 * Rate lookup of the customer application: for 0, 1, ..., `maxDaysBack`
 * calendar days before the trade date, take the first table entry dated on
 * or before that day, and use it when both its rates are positive. An empty
 * table (yen) gives rate 1; when nothing in the window is usable, the last
 * entry of the table is used whatever its rates.
 */
module CustomerFx {
  import opened Wrappers
  import opened Text
  import opened Calendar

  datatype FxRate = FxRate(date: string, tts: real, ttb: real)

  datatype Rate = Rate(tts: real, ttb: real)

  const DefaultMaxDaysBack: int := 5

  function RateOf(f: FxRate): Rate
  {
    Rate(f.tts, f.ttb)
  }

  /** `subtractDays(dateStr, days)`; an unparseable date prints as "NaN-NaN-NaN". */
  function SubtractDays(s: string, days: nat): string
  {
    match ParseDate(s)
    case None => "NaN-NaN-NaN"
    case Some(d) => FormatDate(BackN(d, days))
  }

  /** Entry `i` is dated on or before `target` and no earlier entry is. */
  predicate FirstAt(table: seq<FxRate>, target: string, i: int)
  {
    0 <= i < |table| && StrLe(table[i].date, target) && forall j :: 0 <= j < i ==> !StrLe(table[j].date, target)
  }

  /** The first entry, in table order, dated on or before `target`. */
  function FirstOnOrBefore(table: seq<FxRate>, target: string): (r: Option<FxRate>)
    ensures r.None? <==> forall i :: 0 <= i < |table| ==> !StrLe(table[i].date, target)
    ensures r.Some? ==> exists i :: FirstAt(table, target, i) && table[i] == r.value
  {
    if table == [] then None
    else if StrLe(table[0].date, target) then
      assert FirstAt(table, target, 0);
      Some(table[0])
    else
      var r := FirstOnOrBefore(table[1..], target);
      assert r.Some? ==> exists i :: FirstAt(table, target, i) && table[i] == r.value by {
        if r.Some? {
          var i :| FirstAt(table[1..], target, i) && table[1..][i] == r.value;
          forall j | 0 <= j < i + 1 ensures !StrLe(table[j].date, target) {
            if j > 0 { assert table[j] == table[1..][j - 1]; }
          }
          assert FirstAt(table, target, i + 1);
        }
      }
      assert r.None? ==> forall i :: 0 <= i < |table| ==> !StrLe(table[i].date, target) by {
        if r.None? {
          forall i | 0 <= i < |table| ensures !StrLe(table[i].date, target) {
            if i > 0 { assert table[i] == table[1..][i - 1]; }
          }
        }
      }
      r
  }

  /** The entry `FirstAt` picks out is the one `FirstOnOrBefore` returns. */
  lemma {:induction false} FirstAtIsFirst(table: seq<FxRate>, target: string, i: int)
    requires FirstAt(table, target, i)
    ensures FirstOnOrBefore(table, target) == Some(table[i])
  {
    if i > 0 {
      assert forall j :: 0 <= j < i - 1 ==> table[1..][j] == table[j + 1];
      FirstAtIsFirst(table[1..], target, i - 1);
    }
  }

  predicate Usable(f: Option<FxRate>)
  {
    f.Some? && f.value.tts > 0.0 && f.value.ttb > 0.0
  }

  /** The entry the lookup considers `k` days before `date`. */
  function Candidate(table: seq<FxRate>, date: string, k: nat): Option<FxRate>
  {
    FirstOnOrBefore(table, SubtractDays(date, k))
  }

  /** The candidates at offsets 0, 1, ..., `maxDaysBack`, in that order. */
  function Candidates(table: seq<FxRate>, date: string, maxDaysBack: int): (c: seq<Option<FxRate>>)
    ensures |c| == if maxDaysBack < 0 then 0 else maxDaysBack + 1
    ensures forall k :: 0 <= k < |c| ==> c[k] == Candidate(table, date, k)
  {
    var n := if maxDaysBack < 0 then 0 else maxDaysBack + 1;
    seq(n, (k: int) requires 0 <= k < n => Candidate(table, date, k))
  }

  /** The rates of the first usable candidate. */
  function FirstUsable(cands: seq<Option<FxRate>>): Option<Rate>
  {
    if cands == [] then None
    else if Usable(cands[0]) then Some(RateOf(cands[0].value))
    else FirstUsable(cands[1..])
  }

  /** What `pickRateOnOrBefore(fxTable, date, maxDaysBack)` returns. */
  function PickRate(table: seq<FxRate>, date: string, maxDaysBack: int): Rate
  {
    if |table| == 0 then Rate(1.0, 1.0)
    else match FirstUsable(Candidates(table, date, maxDaysBack))
      case Some(r) => r
      case None => RateOf(table[|table| - 1])
  }

  /** The imperative lookup: an outer loop over day offsets, an inner scan of the table. */
  method PickRateOnOrBefore(fxTable: seq<FxRate>, date: string, maxDaysBack: int := DefaultMaxDaysBack)
    returns (r: Rate)
    ensures r == PickRate(fxTable, date, maxDaysBack)
  {
    if |fxTable| == 0 {
      return Rate(1.0, 1.0);
    }
    ghost var cands := Candidates(fxTable, date, maxDaysBack);
    var daysBack: nat := 0;
    while daysBack <= maxDaysBack
      invariant daysBack <= |cands| || maxDaysBack < 0
      invariant maxDaysBack >= 0 ==> FirstUsable(cands) == FirstUsable(cands[daysBack..])
      decreases maxDaysBack - daysBack
    {
      var targetDate := SubtractDays(date, daysBack);
      var found: Option<FxRate> := None;
      var i := 0;
      while i < |fxTable|
        invariant 0 <= i <= |fxTable|
        invariant found.None? ==> FirstOnOrBefore(fxTable, targetDate) == FirstOnOrBefore(fxTable[i..], targetDate)
        invariant found.Some? ==> found == FirstOnOrBefore(fxTable, targetDate)
        invariant found.None? ==> forall j :: 0 <= j < i ==> !StrLe(fxTable[j].date, targetDate)
      {
        if StrLe(fxTable[i].date, targetDate) {
          found := Some(fxTable[i]);
          break;
        }
        assert fxTable[i..][1..] == fxTable[i + 1..];
        i := i + 1;
      }
      if found.None? {
        assert fxTable[i..] == [];
      }
      assert cands[daysBack..][0] == found;
      if found.Some? && found.value.tts > 0.0 && found.value.ttb > 0.0 {
        return Rate(found.value.tts, found.value.ttb);
      }
      assert cands[daysBack..][1..] == cands[daysBack + 1..];
      daysBack := daysBack + 1;
    }
    assert maxDaysBack >= 0 ==> cands[daysBack..] == [];
    var fallback := fxTable[|fxTable| - 1];
    return Rate(fallback.tts, fallback.ttb);
  }

  // ------------------------------------------------------------ properties

  /** `subtractDays(d, 0)` gives a canonical date back unchanged. */
  lemma SubtractZero(s: string)
    requires IsCanonical(s)
    ensures SubtractDays(s, 0) == s
  {
    FormatOfParse(s);
  }

  /** `subtractDays(s, n)` is the text of the date `n` days before the one `s` denotes. */
  lemma SubtractDaysDenotes(s: string, n: nat)
    requires ParseDate(s).Some? && 1000 <= BackN(ParseDate(s).value, n).year <= 9999
    ensures ParseDate(SubtractDays(s, n)) == Some(BackN(ParseDate(s).value, n))
  {
    ParseOfFormat(BackN(ParseDate(s).value, n));
  }

  /** The search settles on the first usable candidate. */
  lemma {:induction false} FirstUsableFinds(cands: seq<Option<FxRate>>, k: int)
    requires 0 <= k < |cands| && Usable(cands[k])
    requires forall j :: 0 <= j < k ==> !Usable(cands[j])
    ensures FirstUsable(cands) == Some(RateOf(cands[k].value))
  {
    if k > 0 {
      FirstUsableFinds(cands[1..], k - 1);
    }
  }

  /** The search finds nothing exactly when no candidate is usable. */
  lemma {:induction false} FirstUsableNoneIff(cands: seq<Option<FxRate>>)
    ensures FirstUsable(cands).None? <==> forall j :: 0 <= j < |cands| ==> !Usable(cands[j])
  {
    if cands != [] {
      FirstUsableNoneIff(cands[1..]);
      assert forall j :: 1 <= j < |cands| ==> cands[j] == cands[1..][j - 1];
    }
  }

  /** Whatever the search finds are the rates of a usable candidate. */
  lemma {:induction false} FirstUsableIsUsable(cands: seq<Option<FxRate>>) returns (k: int)
    requires FirstUsable(cands).Some?
    ensures 0 <= k < |cands| && Usable(cands[k]) && FirstUsable(cands).value == RateOf(cands[k].value)
  {
    if Usable(cands[0]) {
      k := 0;
    } else {
      var k' := FirstUsableIsUsable(cands[1..]);
      k := k' + 1;
    }
  }

  /**
   * The whole rule: rate 1 for an empty table; otherwise the first usable
   * candidate at offsets 0..maxDaysBack, and the last entry when there is none.
   */
  lemma PickRateRule(table: seq<FxRate>, date: string, maxDaysBack: int)
    ensures |table| == 0 ==> PickRate(table, date, maxDaysBack) == Rate(1.0, 1.0)
    ensures forall k: nat ::
              (|table| > 0 && k <= maxDaysBack && Usable(Candidate(table, date, k))
               && forall j: nat :: j < k ==> !Usable(Candidate(table, date, j)))
              ==> PickRate(table, date, maxDaysBack) == RateOf(Candidate(table, date, k).value)
    ensures (|table| > 0 && forall j: nat :: j <= maxDaysBack ==> !Usable(Candidate(table, date, j)))
            ==> PickRate(table, date, maxDaysBack) == RateOf(table[|table| - 1])
  {
    var cands := Candidates(table, date, maxDaysBack);
    forall k: nat | |table| > 0 && k <= maxDaysBack && Usable(Candidate(table, date, k))
      && (forall j: nat :: j < k ==> !Usable(Candidate(table, date, j)))
      ensures PickRate(table, date, maxDaysBack) == RateOf(Candidate(table, date, k).value)
    {
      FirstUsableFinds(cands, k);
    }
    FirstUsableNoneIff(cands);
  }

  /** For a non-empty table the answer is always the rate pair of one of its entries. */
  lemma PickRateFromTable(table: seq<FxRate>, date: string, maxDaysBack: int)
    requires |table| > 0
    ensures exists i :: 0 <= i < |table| && PickRate(table, date, maxDaysBack) == RateOf(table[i])
  {
    var cands := Candidates(table, date, maxDaysBack);
    if FirstUsable(cands).Some? {
      var k := FirstUsableIsUsable(cands);
      var f := cands[k].value;
      var i :| FirstAt(table, SubtractDays(date, k), i) && table[i] == f;
    } else {
      assert PickRate(table, date, maxDaysBack) == RateOf(table[|table| - 1]);
    }
  }

  /** When the window holds a usable candidate, both returned rates are positive. */
  lemma PickRatePositive(table: seq<FxRate>, date: string, maxDaysBack: int, k: nat)
    requires |table| > 0 && k <= maxDaysBack && Usable(Candidate(table, date, k))
    ensures PickRate(table, date, maxDaysBack).tts > 0.0 && PickRate(table, date, maxDaysBack).ttb > 0.0
  {
    var cands := Candidates(table, date, maxDaysBack);
    FirstUsableNoneIff(cands);
    assert cands[k] == Candidate(table, date, k);
    var j := FirstUsableIsUsable(cands);
  }

  /** A table whose dates run from newest to oldest, as the published rate files do. */
  predicate Descending(table: seq<FxRate>)
  {
    forall i, j :: 0 <= i < j < |table| ==> StrLe(table[j].date, table[i].date)
  }

  /** On a newest-first table the first entry on or before a day is the latest such entry. */
  lemma FirstOnOrBeforeIsLatest(table: seq<FxRate>, target: string)
    requires Descending(table) && FirstOnOrBefore(table, target).Some?
    ensures var f := FirstOnOrBefore(table, target).value;
      forall j :: 0 <= j < |table| && StrLe(table[j].date, target) ==> StrLe(table[j].date, f.date)
  {
    var f := FirstOnOrBefore(table, target).value;
    var i :| FirstAt(table, target, i) && table[i] == f;
    StrLeRefl(f.date);
  }
}
