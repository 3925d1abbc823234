/**
 * The older rate lookup of the root application: scan the table from the
 * front, keep the last entry of the leading run dated on or before the trade
 * date, and stop at the first entry dated after it. There is no day window
 * and no check of the rates; an empty table gives rate 1.
 */
module RootFx {
  import opened Text
  import opened CustomerFx

  /** How many entries at the front of the table are dated on or before `date`. */
  function LeadingRun(table: seq<FxRate>, date: string): (n: nat)
    ensures n <= |table|
    ensures forall i :: 0 <= i < n ==> StrLe(table[i].date, date)
    ensures n < |table| ==> !StrLe(table[n].date, date)
  {
    if table == [] || !StrLe(table[0].date, date) then 0
    else
      var n := 1 + LeadingRun(table[1..], date);
      assert forall i :: 1 <= i < n ==> table[i] == table[1..][i - 1];
      n
  }

  /** The entry the scan ends on: the last of the leading run, or the first entry when the run is empty. */
  function Chosen(table: seq<FxRate>, date: string): FxRate
    requires |table| > 0
  {
    var n := LeadingRun(table, date);
    table[if n == 0 then 0 else n - 1]
  }

  /** What the root `pickRateOnOrBefore(fxTable, date)` returns. */
  function PickRateRoot(table: seq<FxRate>, date: string): Rate
  {
    if |table| == 0 then Rate(1.0, 1.0) else RateOf(Chosen(table, date))
  }

  /** The scan with `found` and `break`. */
  method PickRateOnOrBeforeRoot(fxTable: seq<FxRate>, date: string) returns (r: Rate)
    ensures r == PickRateRoot(fxTable, date)
  {
    if |fxTable| == 0 {
      return Rate(1.0, 1.0);
    }
    var found := fxTable[0];
    var i := 0;
    while i < |fxTable|
      invariant 0 <= i <= |fxTable|
      invariant forall j :: 0 <= j < i ==> StrLe(fxTable[j].date, date)
      invariant found == fxTable[if i == 0 then 0 else i - 1]
    {
      if StrLe(fxTable[i].date, date) {
        found := fxTable[i];
      } else {
        break;
      }
      i := i + 1;
    }
    LeadingRunIs(fxTable, date, i);
    return Rate(found.tts, found.ttb);
  }

  /** The leading run ends at the first entry dated after the trade date. */
  lemma {:induction false} LeadingRunIs(table: seq<FxRate>, date: string, n: int)
    requires 0 <= n <= |table|
    requires forall j :: 0 <= j < n ==> StrLe(table[j].date, date)
    requires n < |table| ==> !StrLe(table[n].date, date)
    ensures LeadingRun(table, date) == n
  {
    if n > 0 {
      assert forall j :: 0 <= j < n - 1 ==> table[1..][j] == table[j + 1];
      LeadingRunIs(table[1..], date, n - 1);
    }
  }

  /** The result is always the rates of a table entry; the first entry when it is already too late. */
  lemma PickRateRootFromTable(table: seq<FxRate>, date: string)
    requires |table| > 0
    ensures exists i :: 0 <= i < |table| && PickRateRoot(table, date) == RateOf(table[i])
    ensures !StrLe(table[0].date, date) ==> PickRateRoot(table, date) == RateOf(table[0])
  {
    var n := LeadingRun(table, date);
    var i := if n == 0 then 0 else n - 1;
    assert PickRateRoot(table, date) == RateOf(table[i]);
  }

  /** Entries after the first one dated past the trade date never matter. */
  lemma SuffixIrrelevant(table: seq<FxRate>, date: string, i: int, tail: seq<FxRate>)
    requires 0 <= i < |table| && !StrLe(table[i].date, date)
    ensures PickRateRoot(table[..i + 1] + tail, date) == PickRateRoot(table, date)
  {
    var n := LeadingRun(table, date);
    assert n <= i;
    var t := table[..i + 1] + tail;
    assert forall j :: 0 <= j <= i ==> t[j] == table[j];
    LeadingRunIs(t, date, n);
  }

  /** A table whose dates rise strictly from front to back. */
  predicate Ascending(table: seq<FxRate>)
  {
    forall i, j :: 0 <= i < j < |table| ==> StrLe(table[i].date, table[j].date) && table[i].date != table[j].date
  }

  /**
   * On an ascending table, when some entry is dated on or before the trade
   * date, the result is the latest such entry.
   */
  lemma AscendingGivesLatest(table: seq<FxRate>, date: string)
    requires Ascending(table) && |table| > 0 && StrLe(table[0].date, date)
    ensures StrLe(Chosen(table, date).date, date)
    ensures forall j :: 0 <= j < |table| && StrLe(table[j].date, date) ==> StrLe(table[j].date, Chosen(table, date).date)
  {
    var n := LeadingRun(table, date);
    var c := table[n - 1];
    forall j | 0 <= j < |table| && StrLe(table[j].date, date)
      ensures StrLe(table[j].date, c.date)
    {
      if j < n - 1 {
      } else if j == n - 1 {
        StrLeRefl(c.date);
      } else {
        // Entry j comes after the first late entry n, so it is later still.
        assert StrLe(table[n].date, table[j].date) || n == j;
        if n < j {
          StrLeTrans(table[n].date, table[j].date, date);
        }
      }
    }
  }
}
