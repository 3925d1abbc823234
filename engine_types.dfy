/** The engine's records: a submission, its transactions, and the result of a calculation. */
module EngineTypes {
  import opened Wrappers
  import opened Text

  datatype Currency = USD | EUR | JPY

  datatype Activity = Purchased | Sold

  /** One trade. A sale may carry a negative quantity; its size is the absolute value. */
  datatype Transaction = Transaction(
    date: string,
    activity: Activity,
    quantity: real,
    price: real,
    commission: Option<real>)

  datatype SubmissionInput = SubmissionInput(
    email: string,
    currency: Currency,
    symbol: string,
    years: seq<int>,
    transactions: seq<Transaction>)

  datatype HoldingLot = HoldingLot(purchaseDate: string, quantity: int, unitCostJPY: int)

  datatype YearSummary = YearSummary(year: int, sellQuantity: real, proceedsJPY: real, realizedGainJPY: real)

  datatype CalcResult = CalcResult(
    currency: Currency,
    symbol: string,
    years: seq<int>,
    summaries: seq<YearSummary>,
    finalHoldings: seq<HoldingLot>)

  /** `tx.commission ?? 0`. */
  function CommissionOrZero(tx: Transaction): real
  {
    if tx.commission.Some? then tx.commission.value else 0.0
  }

  function Abs(x: real): (r: real)
    ensures r >= 0.0 && (r == x || r == -x)
  {
    if x < 0.0 then -x else x
  }

  /** The longest prefix of `s` made of decimal digits. */
  function LeadingDigits(s: string): (r: string)
    ensures AllDigits(r) && r <= s
    ensures |r| < |s| ==> !IsDigit(s[|r|])
  {
    if s != [] && IsDigit(s[0]) then [s[0]] + LeadingDigits(s[1..]) else []
  }

  /**
   * `parseInt(date.substring(0, 4))`: after leading whitespace and an optional
   * sign, the decimal digits at the front of the first four characters;
   * `None` (NaN) when there are none. A `0x` prefix, which `parseInt` reads
   * as hexadecimal, is not modelled: the handlers' date check lets only four
   * decimal digits reach this point.
   */
  function YearOf(date: string): Option<int>
  {
    var t := TrimStart(date[..if |date| < 4 then |date| else 4]);
    var negative := t != [] && t[0] == '-';
    var rest := if t != [] && (t[0] == '-' || t[0] == '+') then t[1..] else t;
    var ds := LeadingDigits(rest);
    if ds == [] then None
    else if negative then Some(-(DecimalValue(ds) as int))
    else Some(DecimalValue(ds))
  }

  /** On a date of the shape `dddd-dd-dd` the year is the number its first four digits spell. */
  lemma YearOfIsoDate(date: string)
    requires |date| >= 4 && AllDigits(date[..4])
    ensures YearOf(date) == Some(DecimalValue(date[..4]) as int)
  {
    var p := date[..4];
    assert TrimStart(p) == p;
    assert !(p[0] == '-' || p[0] == '+');
    assert LeadingDigits(p[3..]) == p[3..];
    assert LeadingDigits(p[2..]) == [p[2]] + p[3..];
    assert LeadingDigits(p[1..]) == [p[1]] + p[2..];
    assert LeadingDigits(p) == p;
  }

  /** A date starting `2025` is in the year 2025. */
  lemma YearOf2025(date: string)
    requires |date| >= 4 && date[..4] == "2025"
    ensures YearOf(date) == Some(2025)
  {
    YearOfIsoDate(date);
    DecimalValue4("2025");
  }

  /** A date starting `2024` is in the year 2024. */
  lemma YearOf2024(date: string)
    requires |date| >= 4 && date[..4] == "2024"
    ensures YearOf(date) == Some(2024)
  {
    YearOfIsoDate(date);
    DecimalValue4("2024");
  }
}
