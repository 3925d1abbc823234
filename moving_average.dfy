/**
 * The moving-average (総平均法-style blended cost) calculator. Trades are
 * replayed in replay order against a running holding, a yen cost basis and a
 * blended yen unit cost; purchases are converted at TTS, sale proceeds at TTB
 * and sale commissions at TTS. Sales are credited to the requested year of
 * their date. A queue of purchase lots, consumed from the front, is kept for
 * display only.
 */
module MovingAverage {
  import opened Wrappers
  import opened Text
  import opened StableSort
  import opened Rounding
  import opened EngineTypes
  import opened ReplayOrder
  import opened CustomerFx
  import Calendar

  /** A display lot: the purchase date and the quantity of it not yet sold. */
  datatype Lot = Lot(date: string, qty: real)

  /** The replay's running variables: `holdings`, `costBasisJPY`, `unitCostJPY`, the year map and the lots. */
  datatype Position = Position(
    holdings: real,
    costBasisJPY: real,
    unitCostJPY: int,
    yearMap: seq<YearSummary>,
    lots: seq<Lot>)

  // ------------------------------------------------------------- year map

  function ZeroSummary(year: int): YearSummary
  {
    YearSummary(year, 0.0, 0.0, 0.0)
  }

  function YearKey(s: YearSummary): int
  {
    s.year
  }

  predicate HasYear(m: seq<YearSummary>, year: int)
  {
    exists j :: 0 <= j < |m| && m[j].year == year
  }

  /**
   * The year map after `yearMap.set(year, zero)` for each requested year: one
   * zero summary per distinct year. Setting a year again replaces a zero
   * summary by an equal one, so the map is unchanged.
   */
  function InitYearMap(years: seq<int>): (m: seq<YearSummary>)
    ensures forall j :: 0 <= j < |m| ==> m[j] == ZeroSummary(m[j].year)
    ensures forall y :: HasYear(m, y) <==> y in years
    ensures DistinctKeys(m, YearKey)
  {
    if years == [] then []
    else
      var m := InitYearMap(years[..|years| - 1]);
      var y := years[|years| - 1];
      assert years == years[..|years| - 1] + [y];
      if HasYear(m, y) then m
      else
        var r := m + [ZeroSummary(y)];
        assert forall z :: HasYear(r, z) <==> HasYear(m, z) || z == y by {
          forall z | HasYear(r, z) ensures HasYear(m, z) || z == y {
            var j :| 0 <= j < |r| && r[j].year == z;
            if j < |m| { assert m[j].year == z; }
          }
          forall z | HasYear(m, z) ensures HasYear(r, z) {
            var j :| 0 <= j < |m| && m[j].year == z;
            assert r[j].year == z;
          }
          assert r[|m|].year == y;
        }
        r
  }

  function Credited(s: YearSummary, qty: real, gross: real, realized: real): YearSummary
  {
    s.(sellQuantity := s.sellQuantity + qty,
       proceedsJPY := s.proceedsJPY + gross,
       realizedGainJPY := s.realizedGainJPY + realized)
  }

  /** `if (yearMap.has(year))` add the sale to that year's summary; any other year leaves the map alone. */
  function CreditYear(m: seq<YearSummary>, year: Option<int>, qty: real, gross: real, realized: real): (r: seq<YearSummary>)
    ensures |r| == |m|
    ensures forall j :: 0 <= j < |m| ==> r[j].year == m[j].year
    ensures forall j :: 0 <= j < |m| && year == Some(m[j].year) ==>
      && r[j].sellQuantity == m[j].sellQuantity + qty
      && r[j].proceedsJPY == m[j].proceedsJPY + gross
      && r[j].realizedGainJPY == m[j].realizedGainJPY + realized
    ensures forall j :: 0 <= j < |m| && year != Some(m[j].year) ==> r[j] == m[j]
  {
    seq(|m|, j requires 0 <= j < |m| => if year == Some(m[j].year) then Credited(m[j], qty, gross, realized) else m[j])
  }

  // ----------------------------------------------------------- display lots

  /** The total quantity of a lot queue. */
  function TotalQty(lots: seq<Lot>): real
  {
    if lots == [] then 0.0 else lots[0].qty + TotalQty(lots[1..])
  }

  function Min(a: real, b: real): real
  {
    if a < b then a else b
  }

  /**
   * The lot queue after a sale of `remaining`: `consume = min(head, remaining)`
   * is taken off the head lot, which is dropped once it reaches zero, while
   * something remains and lots are left.
   */
  function ConsumeLots(lots: seq<Lot>, remaining: real): seq<Lot>
    decreases |lots|
  {
    if remaining <= 0.0 || lots == [] then lots
    else
      var consume := Min(lots[0].qty, remaining);
      var left := lots[0].qty - consume;
      if left == 0.0 then ConsumeLots(lots[1..], remaining - consume)
      else [Lot(lots[0].date, left)] + lots[1..]
  }

  // ------------------------------------------------------------ one trade

  /** The yen acquisition cost of a purchase: `roundDown0((q * price + commission) * tts)`. */
  function AcquisitionJPY(tx: Transaction, rate: Rate): int
  {
    RoundDown0((tx.quantity * tx.price + CommissionOrZero(tx)) * rate.tts)
  }

  /** A sale's yen proceeds: `roundDown0(|q| * price * ttb)`. */
  function GrossJPY(tx: Transaction, rate: Rate): int
  {
    RoundDown0(Abs(tx.quantity) * tx.price * rate.ttb)
  }

  /** A sale's yen commission, converted at TTS: `roundDown0(commission * tts)`. */
  function SaleCommissionJPY(tx: Transaction, rate: Rate): int
  {
    RoundDown0(CommissionOrZero(tx) * rate.tts)
  }

  /** The realised gain of a sale: proceeds, less the blended cost of the quantity sold, plus the commission. */
  function RealizedJPY(tx: Transaction, rate: Rate, unitCostPrev: int): real
  {
    GrossJPY(tx, rate) as real + (-(unitCostPrev as real) * Abs(tx.quantity)) + SaleCommissionJPY(tx, rate) as real
  }

  /**
   * The realised gain with the sale commission treated as an expense, as the
   * FIFO calculator treats it: the proceeds are split into the blended cost
   * of the quantity sold, the commission and the gain.
   */
  function NetRealizedJPY(tx: Transaction, rate: Rate, unitCostPrev: int): (r: real)
    ensures r + unitCostPrev as real * Abs(tx.quantity) + SaleCommissionJPY(tx, rate) as real == GrossJPY(tx, rate) as real
    ensures SaleCommissionJPY(tx, rate) > 0 ==> r < GrossJPY(tx, rate) as real - unitCostPrev as real * Abs(tx.quantity)
  {
    GrossJPY(tx, rate) as real - unitCostPrev as real * Abs(tx.quantity) - SaleCommissionJPY(tx, rate) as real
  }

  /**
   * As written, the commission raises the gain instead of lowering it: the
   * gain exceeds the intended one by twice the yen commission, and exceeds
   * proceeds less cost whenever a commission is paid.
   */
  lemma CommissionAddedTwice(tx: Transaction, rate: Rate, unitCostPrev: int)
    ensures RealizedJPY(tx, rate, unitCostPrev)
            == NetRealizedJPY(tx, rate, unitCostPrev) + 2.0 * SaleCommissionJPY(tx, rate) as real
    ensures SaleCommissionJPY(tx, rate) > 0 ==>
              RealizedJPY(tx, rate, unitCostPrev) > GrossJPY(tx, rate) as real - unitCostPrev as real * Abs(tx.quantity)
  {
  }

  /** The cost basis of the shares left after a sale, at the unchanged unit cost: `holdings > 0 ? holdings * unitCost : 0`. */
  function HeldCost(holdings: real, unitCost: int): (r: real)
    ensures holdings > 0.0 ==> r / holdings == unitCost as real
    ensures holdings <= 0.0 ==> r == 0.0
  {
    if holdings > 0.0 then holdings * unitCost as real else 0.0
  }

  /** The state after a purchase. */
  function Purchase(p: Position, tx: Transaction, rate: Rate): (r: Position)
    ensures r.holdings == p.holdings + tx.quantity
    ensures r.costBasisJPY == p.costBasisJPY + AcquisitionJPY(tx, rate) as real
    ensures r.holdings > 0.0 ==> r.unitCostJPY as real - 1.0 < r.costBasisJPY / r.holdings <= r.unitCostJPY as real
    ensures r.holdings <= 0.0 ==> r.unitCostJPY == 0
    ensures r.yearMap == p.yearMap && r.lots == p.lots + [Lot(tx.date, tx.quantity)]
  {
    var holdings := p.holdings + tx.quantity;
    var costBasis := p.costBasisJPY + AcquisitionJPY(tx, rate) as real;
    Position(holdings, costBasis, if holdings > 0.0 then RoundUp0(costBasis / holdings) else 0,
             p.yearMap, p.lots + [Lot(tx.date, tx.quantity)])
  }

  /**
   * The state after a sale, or the over-sell error. A sale that leaves shares
   * keeps the blended unit cost; one that leaves none zeroes cost and unit cost.
   */
  function Sale(p: Position, tx: Transaction, rate: Rate): (r: Result<Position, string>)
    ensures r.Failure? <==> p.holdings < Abs(tx.quantity)
    ensures r.Failure? ==> r.error == OversellError(tx.date)
    ensures r.Success? ==>
      var q := r.value;
      && q.holdings == p.holdings - Abs(tx.quantity) >= 0.0
      && (q.holdings > 0.0 ==> q.unitCostJPY == p.unitCostJPY && q.costBasisJPY == q.holdings * p.unitCostJPY as real)
      && (q.holdings == 0.0 ==> q.unitCostJPY == 0 && q.costBasisJPY == 0.0)
      && q.yearMap == CreditYear(p.yearMap, YearOf(tx.date), Abs(tx.quantity), GrossJPY(tx, rate) as real,
                                 RealizedJPY(tx, rate, p.unitCostJPY))
      && q.lots == ConsumeLots(p.lots, Abs(tx.quantity))
  {
    var qty := Abs(tx.quantity);
    var holdings := p.holdings - qty;
    if holdings < 0.0 then Failure(OversellError(tx.date))
    else
      var costBasis := HeldCost(holdings, p.unitCostJPY);
      var unitCost := if holdings > 0.0 then RoundUp0(costBasis / holdings) else 0;
      Success(Position(holdings, costBasis, unitCost,
                       CreditYear(p.yearMap, YearOf(tx.date), qty, GrossJPY(tx, rate) as real, RealizedJPY(tx, rate, p.unitCostJPY)),
                       ConsumeLots(p.lots, qty)))
  }

  function Step(p: Position, tx: Transaction, rate: Rate): Result<Position, string>
  {
    if tx.activity == Purchased then Success(Purchase(p, tx, rate)) else Sale(p, tx, rate)
  }

  /** The rate a trade is converted at: the lookup with its default window. */
  function TradeRate(fxTable: seq<FxRate>, tx: Transaction): Rate
  {
    PickRate(fxTable, tx.date, DefaultMaxDaysBack)
  }

  /** The replay of `txs`, in the order given, from `p0`; the first error stops it. */
  function Run(txs: seq<Transaction>, fxTable: seq<FxRate>, p0: Position): Result<Position, string>
  {
    if txs == [] then Success(p0)
    else
      match Run(txs[..|txs| - 1], fxTable, p0)
      case Failure(e) => Failure(e)
      case Success(p) => Step(p, txs[|txs| - 1], TradeRate(fxTable, txs[|txs| - 1]))
  }

  function Initial(years: seq<int>): Position
  {
    Position(0.0, 0.0, 0, InitYearMap(years), [])
  }

  // ---------------------------------------------------------------- result

  predicate YearLe(a: YearSummary, b: YearSummary)
  {
    a.year <= b.year
  }

  predicate IntLe(a: int, b: int)
  {
    a <= b
  }

  function Rounded(s: YearSummary): YearSummary
  {
    YearSummary(s.year, MathRound(s.sellQuantity) as real, MathRound(s.proceedsJPY) as real, MathRound(s.realizedGainJPY) as real)
  }

  /** The summaries: the year map sorted by year, each amount rounded with `Math.round`. */
  function Summaries(m: seq<YearSummary>): seq<YearSummary>
  {
    var s := Sort(m, YearLe);
    seq(|s|, j requires 0 <= j < |s| => Rounded(s[j]))
  }

  /** The remaining lots, each with the rounded final unit cost. */
  function FinalHoldings(lots: seq<Lot>, unitCostJPY: int): seq<HoldingLot>
  {
    seq(|lots|, j requires 0 <= j < |lots| => HoldingLot(lots[j].date, MathRound(lots[j].qty), MathRound(unitCostJPY as real)))
  }

  function Finish(input: SubmissionInput, p: Position): CalcResult
  {
    CalcResult(input.currency, input.symbol, Sort(input.years, IntLe), Summaries(p.yearMap), FinalHoldings(p.lots, p.unitCostJPY))
  }

  /** `calcMovingAverage` on a submission and the currency's rate table. */
  function MovingAverageOf(input: SubmissionInput, fxTable: seq<FxRate>): Result<CalcResult, string>
  {
    match Run(SortForReplay(input.transactions), fxTable, Initial(input.years))
    case Failure(e) => Failure(e)
    case Success(p) => Success(Finish(input, p))
  }

  // ------------------------------------------------------------ the method

  /** Once a prefix of the replay fails, the whole replay fails with the same error. */
  lemma {:induction false} RunFailureSticks(txs: seq<Transaction>, fxTable: seq<FxRate>, p0: Position, n: nat)
    requires n <= |txs| && Run(txs[..n], fxTable, p0).Failure?
    ensures Run(txs, fxTable, p0) == Run(txs[..n], fxTable, p0)
    decreases |txs| - n
  {
    if n < |txs| {
      var init := txs[..|txs| - 1];
      assert init[..n] == txs[..n];
      RunFailureSticks(init, fxTable, p0, n);
    } else {
      assert txs[..n] == txs;
    }
  }

  /** Replaying one more trade applies its step to the state the prefix reached. */
  lemma RunExtend(txs: seq<Transaction>, fxTable: seq<FxRate>, p0: Position, i: nat, p: Position)
    requires i < |txs| && Run(txs[..i], fxTable, p0) == Success(p)
    ensures Run(txs[..i + 1], fxTable, p0) == Step(p, txs[i], TradeRate(fxTable, txs[i]))
  {
    assert txs[..i + 1][..i] == txs[..i];
  }

  /** The lot loop of a sale: take `min(lot.qty, remaining)` off the head lot, drop it at zero, repeat. */
  method ConsumeFromFront(lots: seq<Lot>, qty: real) returns (holdingLots: seq<Lot>)
    ensures holdingLots == ConsumeLots(lots, qty)
  {
    holdingLots := lots;
    var remaining := qty;
    while remaining > 0.0 && |holdingLots| > 0
      invariant ConsumeLots(holdingLots, remaining) == ConsumeLots(lots, qty)
      decreases |holdingLots|, if remaining > 0.0 then 1 else 0
    {
      var lot := holdingLots[0];
      var consume := Min(lot.qty, remaining);
      lot := lot.(qty := lot.qty - consume);
      remaining := remaining - consume;
      if lot.qty == 0.0 {
        holdingLots := holdingLots[1..];
      } else {
        holdingLots := [lot] + holdingLots[1..];
      }
    }
  }

  /** The year-map loop: one zero summary set per requested year. */
  method NewYearMap(years: seq<int>) returns (yearMap: seq<YearSummary>)
    ensures yearMap == InitYearMap(years)
  {
    yearMap := [];
    for k := 0 to |years|
      invariant yearMap == InitYearMap(years[..k])
    {
      var year := years[k];
      assert years[..k + 1] == years[..k] + [year];
      if !HasYear(yearMap, year) {
        yearMap := yearMap + [ZeroSummary(year)];
      }
    }
    assert years[..|years|] == years;
  }

  /** The sale branch of the method computes the state `Sale` describes. */
  lemma SaleStepIs(p: Position, tx: Transaction, rate: Rate, q: Position)
    requires tx.activity == Sold && p.holdings - Abs(tx.quantity) >= 0.0
    requires q.holdings == p.holdings - Abs(tx.quantity)
    requires q.costBasisJPY == HeldCost(q.holdings, p.unitCostJPY)
    requires q.unitCostJPY == if q.holdings > 0.0 then RoundUp0(q.costBasisJPY / q.holdings) else 0
    requires q.yearMap == CreditYear(p.yearMap, YearOf(tx.date), Abs(tx.quantity), GrossJPY(tx, rate) as real,
                                     RealizedJPY(tx, rate, p.unitCostJPY))
    requires q.lots == ConsumeLots(p.lots, Abs(tx.quantity))
    ensures Step(p, tx, rate) == Success(q)
  {
  }

  /**
   * One pass of the replay loop's body on its running variables: a purchase
   * adds to the position, a sale checks for over-selling, credits its year and
   * consumes lots.
   */
  method ApplyTrade(holdings: real, costBasisJPY: real, unitCostJPY: int, yearMap: seq<YearSummary>,
                    holdingLots: seq<Lot>, tx: Transaction, rate: Rate)
    returns (r: Result<Position, string>)
    ensures r == Step(Position(holdings, costBasisJPY, unitCostJPY, yearMap, holdingLots), tx, rate)
  {
    ghost var p := Position(holdings, costBasisJPY, unitCostJPY, yearMap, holdingLots);
    var year := YearOf(tx.date);
    if tx.activity == Purchased {
      var acqJPY := AcquisitionJPY(tx, rate);
      var newHoldings := holdings + tx.quantity;
      var newCostBasisJPY := costBasisJPY + acqJPY as real;
      var newUnitCostJPY := if newHoldings > 0.0 then RoundUp0(newCostBasisJPY / newHoldings) else 0;
      r := Success(Position(newHoldings, newCostBasisJPY, newUnitCostJPY, yearMap, holdingLots + [Lot(tx.date, tx.quantity)]));
    } else {
      var qty := Abs(tx.quantity);
      var grossJPY := GrossJPY(tx, rate);
      var realized := RealizedJPY(tx, rate, unitCostJPY);

      var newHoldings := holdings - qty;
      if newHoldings < 0.0 {
        return Failure(OversellError(tx.date));
      }

      var newCostBasisJPY := HeldCost(newHoldings, unitCostJPY);
      var newUnitCostJPY := if newHoldings > 0.0 then RoundUp0(newCostBasisJPY / newHoldings) else 0;
      var newYearMap := CreditYear(yearMap, year, qty, grossJPY as real, realized);
      var newLots := ConsumeFromFront(holdingLots, qty);
      r := Success(Position(newHoldings, newCostBasisJPY, newUnitCostJPY, newYearMap, newLots));
      SaleStepIs(p, tx, rate, r.value);
    }
  }

  /** `calcMovingAverage`, with the rate table passed in. */
  method CalcMovingAverage(input: SubmissionInput, fxTable: seq<FxRate>) returns (r: Result<CalcResult, string>)
    ensures r == MovingAverageOf(input, fxTable)
  {
    var sorted := SortForReplay(input.transactions);
    var holdings := 0.0;
    var costBasisJPY := 0.0;
    var unitCostJPY := 0;
    var yearMap := NewYearMap(input.years);
    var holdingLots: seq<Lot> := [];

    for i := 0 to |sorted|
      invariant Run(sorted[..i], fxTable, Initial(input.years))
                == Success(Position(holdings, costBasisJPY, unitCostJPY, yearMap, holdingLots))
    {
      var tx := sorted[i];
      RunExtend(sorted, fxTable, Initial(input.years), i, Position(holdings, costBasisJPY, unitCostJPY, yearMap, holdingLots));
      var rate := PickRateOnOrBefore(fxTable, tx.date);
      var next := ApplyTrade(holdings, costBasisJPY, unitCostJPY, yearMap, holdingLots, tx, rate);
      if next.Failure? {
        RunFailureSticks(sorted, fxTable, Initial(input.years), i + 1);
        return Failure(next.error);
      }
      holdings, costBasisJPY, unitCostJPY, yearMap, holdingLots :=
        next.value.holdings, next.value.costBasisJPY, next.value.unitCostJPY, next.value.yearMap, next.value.lots;
    }
    assert sorted[..|sorted|] == sorted;

    r := Success(CalcResult(input.currency, input.symbol, Sort(input.years, IntLe),
                            Summaries(yearMap), FinalHoldings(holdingLots, unitCostJPY)));
  }

  // ------------------------------------------------------------ properties

  /** Taking `r` off the front of a queue holding at least `r` lowers its total by exactly `r`. */
  lemma {:induction false} ConsumeLotsTotal(lots: seq<Lot>, r: real)
    requires 0.0 < r <= TotalQty(lots)
    ensures TotalQty(ConsumeLots(lots, r)) == TotalQty(lots) - r
    decreases |lots|
  {
    var consume := Min(lots[0].qty, r);
    if lots[0].qty - consume == 0.0 {
      if r - consume > 0.0 {
        ConsumeLotsTotal(lots[1..], r - consume);
      }
    } else {
      assert ([Lot(lots[0].date, lots[0].qty - consume)] + lots[1..])[1..] == lots[1..];
    }
  }

  /**
   * A sale only touches the front of the queue: what is left is a suffix of
   * the lots, possibly with its head lot reduced (not to zero).
   */
  lemma {:induction false} ConsumeLotsFront(lots: seq<Lot>, r: real) returns (k: nat)
    ensures k <= |lots|
    ensures var c := ConsumeLots(lots, r);
      || c == lots[k..]
      || (k < |lots| && |c| == |lots| - k && c[1..] == lots[k + 1..] && c[0].date == lots[k].date
          && c[0].qty != 0.0 && c[0].qty < lots[k].qty)
    decreases |lots|
  {
    if r <= 0.0 || lots == [] {
      k := 0;
    } else {
      var consume := Min(lots[0].qty, r);
      if lots[0].qty - consume == 0.0 {
        var k' := ConsumeLotsFront(lots[1..], r - consume);
        k := k' + 1;
        assert lots[1..][k'..] == lots[k..];
        assert k' < |lots[1..]| ==> lots[1..][k' + 1..] == lots[k + 1..] && lots[1..][k'] == lots[k];
      } else {
        k := 0;
      }
    }
  }

  /** After a successful replay the holding has moved by the net quantity traded. */
  lemma {:induction false} RunHoldings(txs: seq<Transaction>, fxTable: seq<FxRate>, p0: Position)
    requires Run(txs, fxTable, p0).Success?
    ensures Run(txs, fxTable, p0).value.holdings == p0.holdings + SumOf(txs, NetDelta)
  {
    if txs != [] {
      RunHoldings(txs[..|txs| - 1], fxTable, p0);
    }
  }

  /**
   * The replay fails exactly when some sale exceeds the holding before it,
   * and then with the over-sell error of the first such sale.
   */
  lemma {:induction false} RunFailure(txs: seq<Transaction>, fxTable: seq<FxRate>, p0: Position)
    ensures Run(txs, fxTable, p0).Failure? <==> exists i :: Oversells(txs, p0.holdings, i)
    ensures Run(txs, fxTable, p0).Failure? ==>
      exists i :: Oversells(txs, p0.holdings, i) && (forall j :: 0 <= j < i ==> !Oversells(txs, p0.holdings, j))
        && Run(txs, fxTable, p0).error == OversellError(txs[i].date)
  {
    if txs != [] {
      var init := txs[..|txs| - 1];
      RunFailure(init, fxTable, p0);
      OversellsOfInit(txs, p0.holdings);
      if Run(init, fxTable, p0).Failure? {
        FailureCarriesOver(txs, init, fxTable, p0);
      } else {
        FailureAtLast(txs, init, fxTable, p0);
      }
    }
  }

  /** Below the last position, a sale over-sells in `txs` exactly when it does in `txs` without its last trade. */
  lemma OversellsOfInit(txs: seq<Transaction>, h: real)
    requires txs != []
    ensures forall i :: 0 <= i < |txs| - 1 ==> (Oversells(txs, h, i) <==> Oversells(txs[..|txs| - 1], h, i))
  {
    forall i | 0 <= i < |txs| - 1 ensures Oversells(txs, h, i) <==> Oversells(txs[..|txs| - 1], h, i) {
      assert txs[..i] == txs[..|txs| - 1][..i];
    }
  }

  lemma FailureCarriesOver(txs: seq<Transaction>, init: seq<Transaction>, fxTable: seq<FxRate>, p0: Position)
    requires txs != [] && init == txs[..|txs| - 1] && Run(init, fxTable, p0).Failure?
    requires forall i :: 0 <= i < |txs| - 1 ==> (Oversells(txs, p0.holdings, i) <==> Oversells(init, p0.holdings, i))
    requires exists i :: Oversells(init, p0.holdings, i)
               && (forall j :: 0 <= j < i ==> !Oversells(init, p0.holdings, j))
               && Run(init, fxTable, p0).error == OversellError(init[i].date)
    ensures Run(txs, fxTable, p0).Failure? && exists i :: Oversells(txs, p0.holdings, i)
    ensures exists i :: Oversells(txs, p0.holdings, i) && (forall j :: 0 <= j < i ==> !Oversells(txs, p0.holdings, j))
                        && Run(txs, fxTable, p0).error == OversellError(txs[i].date)
  {
    var h := p0.holdings;
    var i :| Oversells(init, h, i) && (forall j :: 0 <= j < i ==> !Oversells(init, h, j))
             && Run(init, fxTable, p0).error == OversellError(init[i].date);
    assert Oversells(txs, h, i);
  }

  lemma FailureAtLast(txs: seq<Transaction>, init: seq<Transaction>, fxTable: seq<FxRate>, p0: Position)
    requires txs != [] && init == txs[..|txs| - 1] && Run(init, fxTable, p0).Success?
    requires forall i :: 0 <= i < |txs| - 1 ==> (Oversells(txs, p0.holdings, i) <==> Oversells(init, p0.holdings, i))
    requires !exists i :: Oversells(init, p0.holdings, i)
    ensures Run(txs, fxTable, p0).Failure? <==> exists i :: Oversells(txs, p0.holdings, i)
    ensures Run(txs, fxTable, p0).Failure? ==>
      exists i :: Oversells(txs, p0.holdings, i) && (forall j :: 0 <= j < i ==> !Oversells(txs, p0.holdings, j))
                  && Run(txs, fxTable, p0).error == OversellError(txs[i].date)
  {
    var h := p0.holdings;
    var n := |txs| - 1;
    var last := txs[n];
    RunHoldings(init, fxTable, p0);
    var p := Run(init, fxTable, p0).value;
    assert Run(txs, fxTable, p0) == Step(p, last, TradeRate(fxTable, last));
    assert forall i :: Oversells(txs, h, i) ==> i == n;
    assert Run(txs, fxTable, p0).Failure? <==> Oversells(txs, h, n);
  }

  /**
   * When every purchase is of a positive quantity, a successful replay never
   * lets the holding go negative: after every prefix it is at least zero.
   */
  lemma HoldingsNeverNegative(txs: seq<Transaction>, fxTable: seq<FxRate>, p0: Position)
    requires p0.holdings >= 0.0 && Run(txs, fxTable, p0).Success?
    requires forall i :: 0 <= i < |txs| && txs[i].activity == Purchased ==> txs[i].quantity > 0.0
    ensures forall n :: 0 <= n <= |txs| ==> p0.holdings + SumOf(txs[..n], NetDelta) >= 0.0
  {
    RunFailure(txs, fxTable, p0);
    forall n | 0 <= n <= |txs| ensures p0.holdings + SumOf(txs[..n], NetDelta) >= 0.0 {
      PrefixHoldings(txs, p0.holdings, n);
    }
  }

  lemma {:induction false} PrefixHoldings(txs: seq<Transaction>, h0: real, n: nat)
    requires h0 >= 0.0 && n <= |txs| && forall i :: !Oversells(txs, h0, i)
    requires forall i :: 0 <= i < |txs| && txs[i].activity == Purchased ==> txs[i].quantity > 0.0
    ensures h0 + SumOf(txs[..n], NetDelta) >= 0.0
  {
    if n > 0 {
      PrefixHoldings(txs, h0, n - 1);
      assert txs[..n][..n - 1] == txs[..n - 1];
      assert !Oversells(txs, h0, n - 1);
    }
  }

  /** From a state whose lots add up to its holding, a successful replay keeps them equal. */
  lemma {:induction false} RunLotsTotal(txs: seq<Transaction>, fxTable: seq<FxRate>, p0: Position)
    requires TotalQty(p0.lots) == p0.holdings && Run(txs, fxTable, p0).Success?
    ensures TotalQty(Run(txs, fxTable, p0).value.lots) == Run(txs, fxTable, p0).value.holdings
  {
    if txs != [] {
      var init, last := txs[..|txs| - 1], txs[|txs| - 1];
      RunLotsTotal(init, fxTable, p0);
      var p := Run(init, fxTable, p0).value;
      if last.activity == Purchased {
        TotalQtyAppend(p.lots, Lot(last.date, last.quantity));
      } else if Abs(last.quantity) > 0.0 {
        ConsumeLotsTotal(p.lots, Abs(last.quantity));
      }
    }
  }

  lemma {:induction false} TotalQtyAppend(lots: seq<Lot>, l: Lot)
    ensures TotalQty(lots + [l]) == TotalQty(lots) + l.qty
  {
    if lots != [] {
      assert (lots + [l])[1..] == lots[1..] + [l];
      TotalQtyAppend(lots[1..], l);
    }
  }

  /** A sale dated in `year` contributes its yen proceeds to that year. */
  function ProceedsOf(fxTable: seq<FxRate>, year: int): Transaction -> real
  {
    (tx: Transaction) => if tx.activity == Sold && YearOf(tx.date) == Some(year) then GrossJPY(tx, TradeRate(fxTable, tx)) as real else 0.0
  }

  /**
   * The realised gain the sales dated in `year` add up to along the replay of
   * `txs` from `p0`: each sale's gain is taken at the unit cost the replay had
   * reached just before it, so, unlike quantities and proceeds, it depends on
   * the order of the trades.
   */
  function GainsOf(txs: seq<Transaction>, fxTable: seq<FxRate>, p0: Position, year: int): real
  {
    if txs == [] then 0.0
    else
      var init, last := txs[..|txs| - 1], txs[|txs| - 1];
      var before := Run(init, fxTable, p0);
      GainsOf(init, fxTable, p0, year)
      + if last.activity == Sold && YearOf(last.date) == Some(year) && before.Success?
        then RealizedJPY(last, TradeRate(fxTable, last), before.value.unitCostJPY)
        else 0.0
  }

  /**
   * Each year-map entry keeps its year and gains the quantity, proceeds and
   * realised gain of exactly the sales dated in that year; purchases and
   * sales of other years leave it alone.
   */
  lemma {:induction false} RunYearTotals(txs: seq<Transaction>, fxTable: seq<FxRate>, p0: Position)
    requires Run(txs, fxTable, p0).Success?
    ensures var m := Run(txs, fxTable, p0).value.yearMap;
      && |m| == |p0.yearMap|
      && forall j :: 0 <= j < |m| ==>
           && m[j].year == p0.yearMap[j].year
           && m[j].sellQuantity == p0.yearMap[j].sellQuantity + SumOf(txs, SoldQtyOf(m[j].year))
           && m[j].proceedsJPY == p0.yearMap[j].proceedsJPY + SumOf(txs, ProceedsOf(fxTable, m[j].year))
           && m[j].realizedGainJPY == p0.yearMap[j].realizedGainJPY + GainsOf(txs, fxTable, p0, m[j].year)
  {
    if txs != [] {
      RunYearTotals(txs[..|txs| - 1], fxTable, p0);
    }
  }

  lemma YearLeIsTotalPreorder()
    ensures TotalPreorder(YearLe)
  {
  }

  lemma IntLeIsTotalPreorder()
    ensures TotalPreorder(IntLe)
  {
  }

  /**
   * The year map a successful calculation ends with: one entry per distinct
   * requested year, holding the total quantity and proceeds of the sales
   * dated in that year, in any input order of the trades, and their realised
   * gain along the replay order.
   */
  lemma FinalYearMap(input: SubmissionInput, fxTable: seq<FxRate>)
    requires Run(SortForReplay(input.transactions), fxTable, Initial(input.years)).Success?
    ensures var m := Run(SortForReplay(input.transactions), fxTable, Initial(input.years)).value.yearMap;
      && DistinctKeys(m, YearKey)
      && (forall y :: HasYear(m, y) <==> y in input.years)
      && forall j :: 0 <= j < |m| ==>
           && m[j].sellQuantity == SumOf(input.transactions, SoldQtyOf(m[j].year))
           && m[j].proceedsJPY == SumOf(input.transactions, ProceedsOf(fxTable, m[j].year))
           && m[j].realizedGainJPY == GainsOf(SortForReplay(input.transactions), fxTable, Initial(input.years), m[j].year)
  {
    var sorted := SortForReplay(input.transactions);
    var p0 := Initial(input.years);
    RunYearTotals(sorted, fxTable, p0);
    var m := Run(sorted, fxTable, p0).value.yearMap;
    var m0 := p0.yearMap;
    forall y ensures HasYear(m, y) <==> HasYear(m0, y) {
      if HasYear(m, y) {
        var j :| 0 <= j < |m| && m[j].year == y;
        assert m0[j].year == y;
      }
      if HasYear(m0, y) {
        var j :| 0 <= j < |m0| && m0[j].year == y;
        assert m[j].year == y;
      }
    }
    assert DistinctKeys(m, YearKey) by {
      forall i, j | 0 <= i < j < |m| ensures YearKey(m[i]) != YearKey(m[j]) {
        assert YearKey(m0[i]) != YearKey(m0[j]);
      }
    }
    forall j | 0 <= j < |m|
      ensures m[j].sellQuantity == SumOf(input.transactions, SoldQtyOf(m[j].year))
      ensures m[j].proceedsJPY == SumOf(input.transactions, ProceedsOf(fxTable, m[j].year))
      ensures m[j].realizedGainJPY == GainsOf(sorted, fxTable, p0, m[j].year)
    {
      assert m0[j] == ZeroSummary(m0[j].year);
      SumOfPermutation(sorted, input.transactions, SoldQtyOf(m[j].year));
      SumOfPermutation(sorted, input.transactions, ProceedsOf(fxTable, m[j].year));
    }
  }

  /** Sorting and rounding a year map with distinct years: strictly ascending years, the same years, each entry rounded. */
  lemma SummariesOfYearMap(m: seq<YearSummary>)
    requires DistinctKeys(m, YearKey)
    ensures var s := Summaries(m);
      && (forall i, j :: 0 <= i < j < |s| ==> s[i].year < s[j].year)
      && (forall y :: HasYear(s, y) <==> HasYear(m, y))
      && forall j :: 0 <= j < |s| ==> exists k :: 0 <= k < |m| && s[j] == Rounded(m[k])
  {
    var srt := Sort(m, YearLe);
    SummariesStrict(m, srt);
    SummariesFromMap(m, srt);
    SummariesYears(m, srt);
  }

  lemma SummariesStrict(m: seq<YearSummary>, srt: seq<YearSummary>)
    requires DistinctKeys(m, YearKey) && srt == Sort(m, YearLe)
    ensures var s := Summaries(m); forall i, j :: 0 <= i < j < |s| ==> s[i].year < s[j].year
  {
    var s := Summaries(m);
    YearLeIsTotalPreorder();
    SortSorted(m, YearLe);
    PermutationKeepsDistinctKeys(m, srt, YearKey);
    forall i, j | 0 <= i < j < |s| ensures s[i].year < s[j].year {
      assert YearLe(srt[i], srt[j]) && YearKey(srt[i]) != YearKey(srt[j]);
    }
  }

  lemma SummariesFromMap(m: seq<YearSummary>, srt: seq<YearSummary>)
    requires srt == Sort(m, YearLe)
    ensures var s := Summaries(m); forall j :: 0 <= j < |s| ==> exists k :: 0 <= k < |m| && s[j] == Rounded(m[k])
  {
    var s := Summaries(m);
    forall j | 0 <= j < |s| ensures exists k :: 0 <= k < |m| && s[j] == Rounded(m[k]) {
      assert srt[j] in multiset(m);
      var k :| 0 <= k < |m| && m[k] == srt[j];
      assert s[j] == Rounded(m[k]);
    }
  }

  lemma SummariesYears(m: seq<YearSummary>, srt: seq<YearSummary>)
    requires srt == Sort(m, YearLe)
    ensures var s := Summaries(m); forall y :: HasYear(s, y) <==> HasYear(m, y)
  {
    forall y ensures HasYear(Summaries(m), y) <==> HasYear(m, y) {
      if HasYear(Summaries(m), y) { SummaryYearInMap(m, srt, y); }
      if HasYear(m, y) { MapYearInSummary(m, srt, y); }
    }
  }

  lemma SummaryYearInMap(m: seq<YearSummary>, srt: seq<YearSummary>, y: int)
    requires srt == Sort(m, YearLe) && HasYear(Summaries(m), y)
    ensures HasYear(m, y)
  {
    var s := Summaries(m);
    var j :| 0 <= j < |s| && s[j].year == y;
    assert srt[j] in multiset(m);
    var k :| 0 <= k < |m| && m[k] == srt[j];
    assert m[k].year == y;
  }

  lemma MapYearInSummary(m: seq<YearSummary>, srt: seq<YearSummary>, y: int)
    requires srt == Sort(m, YearLe) && HasYear(m, y)
    ensures HasYear(Summaries(m), y)
  {
    var s := Summaries(m);
    var k :| 0 <= k < |m| && m[k].year == y;
    assert m[k] in multiset(srt);
    var j :| 0 <= j < |srt| && srt[j] == m[k];
    assert s[j].year == y;
  }

  /**
   * The summaries of a successful calculation: exactly one per requested year
   * (with or without sales), in ascending year order, each holding the rounded
   * total quantity, proceeds and realised gain of the sales dated in its year.
   */
  lemma MovingAverageSummaries(input: SubmissionInput, fxTable: seq<FxRate>)
    requires MovingAverageOf(input, fxTable).Success?
    ensures var s := MovingAverageOf(input, fxTable).value.summaries;
      && (forall i, j :: 0 <= i < j < |s| ==> s[i].year < s[j].year)
      && (forall y :: HasYear(s, y) <==> y in input.years)
      && forall j :: 0 <= j < |s| ==>
           && s[j].sellQuantity == MathRound(SumOf(input.transactions, SoldQtyOf(s[j].year))) as real
           && s[j].proceedsJPY == MathRound(SumOf(input.transactions, ProceedsOf(fxTable, s[j].year))) as real
           && s[j].realizedGainJPY
              == MathRound(GainsOf(SortForReplay(input.transactions), fxTable, Initial(input.years), s[j].year)) as real
  {
    var m := Run(SortForReplay(input.transactions), fxTable, Initial(input.years)).value.yearMap;
    FinalYearMap(input, fxTable);
    SummariesOfYearMap(m);
    var s := Summaries(m);
    forall j | 0 <= j < |s|
      ensures s[j].sellQuantity == MathRound(SumOf(input.transactions, SoldQtyOf(s[j].year))) as real
      ensures s[j].proceedsJPY == MathRound(SumOf(input.transactions, ProceedsOf(fxTable, s[j].year))) as real
      ensures s[j].realizedGainJPY
              == MathRound(GainsOf(SortForReplay(input.transactions), fxTable, Initial(input.years), s[j].year)) as real
    {
      var k :| 0 <= k < |m| && s[j] == Rounded(m[k]);
    }
  }

  /**
   * The rest of a successful result: `years` is the requested years in
   * ascending order, the lots before rounding add up to the net quantity
   * traded, and every remaining lot carries the same unit cost.
   */
  lemma MovingAverageHoldings(input: SubmissionInput, fxTable: seq<FxRate>)
    requires MovingAverageOf(input, fxTable).Success?
    ensures var res := MovingAverageOf(input, fxTable).value;
      && Sorted(res.years, IntLe) && multiset(res.years) == multiset(input.years)
      && (forall i, j :: 0 <= i < |res.finalHoldings| && 0 <= j < |res.finalHoldings| ==>
            res.finalHoldings[i].unitCostJPY == res.finalHoldings[j].unitCostJPY)
    ensures var p := Run(SortForReplay(input.transactions), fxTable, Initial(input.years)).value;
      TotalQty(p.lots) == p.holdings == SumOf(input.transactions, NetDelta)
  {
    var sorted := SortForReplay(input.transactions);
    IntLeIsTotalPreorder();
    SortSorted(input.years, IntLe);
    RunHoldings(sorted, fxTable, Initial(input.years));
    RunLotsTotal(sorted, fxTable, Initial(input.years));
    SumOfPermutation(sorted, input.transactions, NetDelta);
  }

  /** A trade and its normalised form take the replay to the same state. */
  lemma NormalisedStep(p: Position, tx: Transaction, fxTable: seq<FxRate>)
    ensures Step(p, NormaliseSale(tx), TradeRate(fxTable, NormaliseSale(tx))) == Step(p, tx, TradeRate(fxTable, tx))
  {
    var n := NormaliseSale(tx);
    assert TradeRate(fxTable, n) == TradeRate(fxTable, tx);
    if tx.activity == Sold {
      SaleIgnoresSign(p, n, tx, TradeRate(fxTable, tx));
    }
  }

  /** Two sales that differ at most in the sign of their quantity have the same effect. */
  lemma SaleIgnoresSign(p: Position, a: Transaction, b: Transaction, rate: Rate)
    requires a.date == b.date && a.price == b.price && a.commission == b.commission
    requires Abs(a.quantity) == Abs(b.quantity)
    ensures Sale(p, a, rate) == Sale(p, b, rate)
  {
    assert GrossJPY(a, rate) == GrossJPY(b, rate);
    assert SaleCommissionJPY(a, rate) == SaleCommissionJPY(b, rate);
    assert RealizedJPY(a, rate, p.unitCostJPY) == RealizedJPY(b, rate, p.unitCostJPY);
  }

  /** The sign of a sale's quantity does not matter to the replay. */
  lemma {:induction false} RunNormalised(txs: seq<Transaction>, fxTable: seq<FxRate>, p0: Position)
    ensures Run(MapSeq(txs, NormaliseSale), fxTable, p0) == Run(txs, fxTable, p0)
  {
    if txs != [] {
      var init, last := txs[..|txs| - 1], txs[|txs| - 1];
      var n := MapSeq(txs, NormaliseSale);
      assert n[..|n| - 1] == MapSeq(init, NormaliseSale);
      RunNormalised(init, fxTable, p0);
      if Run(init, fxTable, p0).Success? {
        NormalisedStep(Run(init, fxTable, p0).value, last, fxTable);
      }
    }
  }

  /**
   * Negating the positive quantities of sales before the calculation, as the
   * submission handler does, leaves the result unchanged.
   */
  lemma MovingAverageOfNormalised(input: SubmissionInput, fxTable: seq<FxRate>)
    ensures MovingAverageOf(input.(transactions := MapSeq(input.transactions, NormaliseSale)), fxTable)
            == MovingAverageOf(input, fxTable)
  {
    SortForReplayNormalised(input.transactions);
    RunNormalised(SortForReplay(input.transactions), fxTable, Initial(input.years));
  }

  // ---------------------------------------------------------- worked cases

  /**
   * The first test scenario's figures: 100 bought at 150 with commission 10
   * at TTS 145.50, sold at 180 with commission 5 at TTS 157.50 / TTB 155.50.
   * The commission is added to the realised gain, as the code does.
   */
  lemma BasicFlowFigures()
    ensures var buy := Transaction("2024-01-10", Purchased, 100.0, 150.0, Some(10.0));
      var sell := Transaction("2024-06-15", Sold, -100.0, 180.0, Some(5.0));
      var p1 := Purchase(Initial([2024]), buy, Rate(145.50, 143.50));
      && p1.costBasisJPY == 2183955.0 && p1.unitCostJPY == 21840
      && GrossJPY(sell, Rate(157.50, 155.50)) == 2799000
      && SaleCommissionJPY(sell, Rate(157.50, 155.50)) == 787
      && Sale(p1, sell, Rate(157.50, 155.50))
         == Success(Position(0.0, 0.0, 0, [YearSummary(2024, 100.0, 2799000.0, 615787.0)], []))
  {
    var buy := Transaction("2024-01-10", Purchased, 100.0, 150.0, Some(10.0));
    var sell := Transaction("2024-06-15", Sold, -100.0, 180.0, Some(5.0));
    var p1 := BasicFlowPurchase(buy);
    BasicFlowYear(sell);
    BasicFlowSale(p1, sell, Rate(157.50, 155.50), sell.date);
  }

  /** The basic flow's sale: a gain of 615,787 as written, against 614,213 with the commission deducted. */
  lemma BasicFlowCommission()
    ensures var sell := Transaction("2024-06-15", Sold, -100.0, 180.0, Some(5.0));
      && RealizedJPY(sell, Rate(157.50, 155.50), 21840) == 615787.0
      && NetRealizedJPY(sell, Rate(157.50, 155.50), 21840) == 614213.0
  {
    var sell := Transaction("2024-06-15", Sold, -100.0, 180.0, Some(5.0));
    BasicFlowAmounts(sell, Rate(157.50, 155.50));
  }

  lemma BasicFlowPurchase(buy: Transaction) returns (p1: Position)
    requires buy == Transaction("2024-01-10", Purchased, 100.0, 150.0, Some(10.0))
    ensures p1 == Purchase(Initial([2024]), buy, Rate(145.50, 143.50))
    ensures p1 == Position(100.0, 2183955.0, 21840, [ZeroSummary(2024)], [Lot("2024-01-10", 100.0)])
  {
    assert InitYearMap([2024]) == [ZeroSummary(2024)] by {
      assert [2024][..0] == [];
    }
    assert AcquisitionJPY(buy, Rate(145.50, 143.50)) == 2183955;
    assert RoundUp0(2183955.0 / 100.0) == 21840;
    p1 := Purchase(Initial([2024]), buy, Rate(145.50, 143.50));
  }

  lemma BasicFlowSale(p1: Position, sell: Transaction, rate: Rate, date: string)
    requires p1 == Position(100.0, 2183955.0, 21840, [ZeroSummary(2024)], [Lot("2024-01-10", 100.0)])
    requires sell == Transaction(date, Sold, -100.0, 180.0, Some(5.0)) && rate == Rate(157.50, 155.50)
    requires YearOf(date) == Some(2024)
    ensures GrossJPY(sell, rate) == 2799000 && SaleCommissionJPY(sell, rate) == 787
    ensures Sale(p1, sell, rate) == Success(Position(0.0, 0.0, 0, [YearSummary(2024, 100.0, 2799000.0, 615787.0)], []))
  {
    BasicFlowAmounts(sell, rate);
    assert CreditYear([ZeroSummary(2024)], Some(2024), 100.0, 2799000.0, 615787.0)
           == [YearSummary(2024, 100.0, 2799000.0, 615787.0)];
    assert ConsumeLots([Lot("2024-01-10", 100.0)], 100.0) == [];
  }

  lemma BasicFlowAmounts(sell: Transaction, rate: Rate)
    requires sell.activity == Sold && sell.quantity == -100.0 && sell.price == 180.0 && sell.commission == Some(5.0)
    requires rate == Rate(157.50, 155.50)
    ensures GrossJPY(sell, rate) == 2799000 && SaleCommissionJPY(sell, rate) == 787
    ensures RealizedJPY(sell, rate, 21840) == 615787.0
  {
    assert GrossJPY(sell, rate) == 2799000;
    assert SaleCommissionJPY(sell, rate) == 787;
  }

  lemma BasicFlowYear(sell: Transaction)
    requires sell.date == "2024-06-15"
    ensures YearOf(sell.date) == Some(2024)
  {
    assert sell.date[..4] == "2024";
    YearOf2024(sell.date);
  }

  /** The USD rows of the scenarios' mocked rate table, newest first. */
  function UsdMockTable(): seq<FxRate>
  {
    [FxRate("2024-06-17", 158.50, 156.50), FxRate("2024-06-16", 158.00, 156.00),
     FxRate("2024-06-15", 157.50, 155.50), FxRate("2024-06-14", 157.00, 155.00),
     FxRate("2024-01-11", 145.80, 143.80), FxRate("2024-01-10", 145.50, 143.50)]
  }

  /** A trade dated on a day the table has a usable row for is converted at that row. */
  lemma RateOnListedDay(table: seq<FxRate>, date: string, i: int)
    requires Calendar.IsCanonical(date) && FirstAt(table, date, i) && table[i].tts > 0.0 && table[i].ttb > 0.0
    ensures PickRate(table, date, DefaultMaxDaysBack) == RateOf(table[i])
  {
    SubtractZero(date);
    FirstAtIsFirst(table, date, i);
    assert Candidate(table, date, 0) == Some(table[i]);
    PickRateRule(table, date, DefaultMaxDaysBack);
  }

  lemma CanonicalOf(d: string, y: int, m: int, day: int)
    requires |d| == 10 && d[4] == '-' && d[7] == '-' && d[0] != '0' && 1 <= m <= 12 && 1 <= day <= 28
    requires AllDigits(d[..4]) && AllDigits(d[5..7]) && AllDigits(d[8..])
    requires DecimalValue(d[..4]) == y && DecimalValue(d[5..7]) == m && DecimalValue(d[8..]) == day
    ensures Calendar.IsCanonical(d)
  {
  }

  lemma PurchaseDateCanonical()
    ensures Calendar.IsCanonical("2024-01-10")
  {
    var d := "2024-01-10";
    assert d[..4] == "2024" && d[5..7] == "01" && d[8..] == "10";
    DecimalValue4(d[..4]);
    DecimalValue2(d[5..7]);
    DecimalValue2(d[8..]);
    CanonicalOf(d, 2024, 1, 10);
  }

  lemma SaleDateCanonical()
    ensures Calendar.IsCanonical("2024-06-15")
  {
    var d := "2024-06-15";
    assert d[..4] == "2024" && d[5..7] == "06" && d[8..] == "15";
    DecimalValue4(d[..4]);
    DecimalValue2(d[5..7]);
    DecimalValue2(d[8..]);
    CanonicalOf(d, 2024, 6, 15);
  }

  lemma PurchaseDateRow()
    ensures FirstAt(UsdMockTable(), "2024-01-10", 5)
  {
    var t, d := UsdMockTable(), "2024-01-10";
    forall j | 0 <= j < 5
      ensures !StrLe(t[j].date, d)
    {
      if j < 4 {
        StrLeAt(t[j].date, d, 6);
      } else {
        StrLeAt(t[j].date, d, 9);
      }
    }
    StrLeRefl(t[5].date);
  }

  lemma SaleDateRow()
    ensures FirstAt(UsdMockTable(), "2024-06-15", 2)
  {
    var t, d := UsdMockTable(), "2024-06-15";
    forall j | 0 <= j < 2
      ensures !StrLe(t[j].date, d)
    {
      StrLeAt(t[j].date, d, 9);
    }
    StrLeRefl(t[2].date);
  }

  /** The purchase of 2024-01-10 is converted at 145.50 / 143.50. */
  lemma UsdPurchaseRate()
    ensures PickRate(UsdMockTable(), "2024-01-10", DefaultMaxDaysBack) == Rate(145.50, 143.50)
  {
    PurchaseDateCanonical();
    PurchaseDateRow();
    RateOnListedDay(UsdMockTable(), "2024-01-10", 5);
  }

  /** The sale of 2024-06-15 is converted at 157.50 / 155.50. */
  lemma UsdSaleRate()
    ensures PickRate(UsdMockTable(), "2024-06-15", DefaultMaxDaysBack) == Rate(157.50, 155.50)
  {
    SaleDateCanonical();
    SaleDateRow();
    RateOnListedDay(UsdMockTable(), "2024-06-15", 2);
  }

  /**
   * The first test scenario end to end: the submission in USD, replayed in
   * date order against the mocked USD table, yields one 2024 summary with
   * the gain as written and no remaining holdings.
   */
  lemma BasicFlowEndToEnd()
    ensures MovingAverageOf(
              SubmissionInput("test@example.com", USD, "TEST", [2024],
                [Transaction("2024-01-10", Purchased, 100.0, 150.0, Some(10.0)),
                 Transaction("2024-06-15", Sold, -100.0, 180.0, Some(5.0))]),
              UsdMockTable())
            == Success(CalcResult(USD, "TEST", [2024], [YearSummary(2024, 100.0, 2799000.0, 615787.0)], []))
  {
    var buy := Transaction("2024-01-10", Purchased, 100.0, 150.0, Some(10.0));
    var sell := Transaction("2024-06-15", Sold, -100.0, 180.0, Some(5.0));
    var input := SubmissionInput("test@example.com", USD, "TEST", [2024], [buy, sell]);
    StrLeAt(buy.date, sell.date, 6);
    assert ReplayLe(buy, sell);
    SortTwoInOrder(buy, sell);
    UsdPurchaseRate();
    UsdSaleRate();
    var p2 := BasicFlowReplay(buy, sell, UsdMockTable());
    BasicFlowFinish(input, p2);
  }

  /** The basic flow replayed against any table that gives the scenario's two rates. */
  lemma BasicFlowReplay(buy: Transaction, sell: Transaction, fxTable: seq<FxRate>) returns (p2: Position)
    requires buy == Transaction("2024-01-10", Purchased, 100.0, 150.0, Some(10.0))
    requires sell == Transaction("2024-06-15", Sold, -100.0, 180.0, Some(5.0))
    requires TradeRate(fxTable, buy) == Rate(145.50, 143.50) && TradeRate(fxTable, sell) == Rate(157.50, 155.50)
    ensures p2 == Position(0.0, 0.0, 0, [YearSummary(2024, 100.0, 2799000.0, 615787.0)], [])
    ensures Run([buy, sell], fxTable, Initial([2024])) == Success(p2)
  {
    var p1 := BasicFlowPurchase(buy);
    BasicFlowYear(sell);
    BasicFlowSale(p1, sell, Rate(157.50, 155.50), sell.date);
    p2 := Position(0.0, 0.0, 0, [YearSummary(2024, 100.0, 2799000.0, 615787.0)], []);
    var txs := [buy, sell];
    assert txs[..1] == [buy] && [buy][..0] == [];
    assert Run([buy], fxTable, Initial([2024])) == Success(p1);
  }

  lemma BasicFlowFinish(input: SubmissionInput, p2: Position)
    requires input.currency == USD && input.symbol == "TEST" && input.years == [2024]
    requires p2 == Position(0.0, 0.0, 0, [YearSummary(2024, 100.0, 2799000.0, 615787.0)], [])
    ensures Finish(input, p2) == CalcResult(USD, "TEST", [2024], [YearSummary(2024, 100.0, 2799000.0, 615787.0)], [])
  {
    assert Sort([2024], IntLe) == [2024];
    assert Sort(p2.yearMap, YearLe) == p2.yearMap;
    assert MathRound(100.0) == 100 && MathRound(2799000.0) == 2799000 && MathRound(615787.0) == 615787;
    assert Summaries(p2.yearMap) == p2.yearMap;
  }

  /** The over-sell test: buying 100 and selling 150 fails with the over-sell error of the sale's date. */
  lemma OversellScenario()
    ensures MovingAverageOf(
              SubmissionInput("test@example.com", USD, "TEST", [2024],
                [Transaction("2024-01-10", Purchased, 100.0, 100.0, Some(0.0)),
                 Transaction("2024-06-15", Sold, -150.0, 150.0, Some(0.0))]),
              UsdMockTable())
            == Failure(OversellError("2024-06-15"))
  {
    StrLeAt("2024-01-10", "2024-06-15", 6);
    OversellFrom("2024-01-10", "2024-06-15", USD, UsdMockTable());
  }

  /** Over-selling fails whatever the currency and whatever rates the table holds. */
  lemma OversellFrom(bought: string, sold: string, currency: Currency, fxTable: seq<FxRate>)
    requires StrLe(bought, sold) && bought != sold
    ensures MovingAverageOf(
              SubmissionInput("test@example.com", currency, "TEST", [2024],
                [Transaction(bought, Purchased, 100.0, 100.0, Some(0.0)),
                 Transaction(sold, Sold, -150.0, 150.0, Some(0.0))]),
              fxTable)
            == Failure(OversellError(sold))
  {
    var buy := Transaction(bought, Purchased, 100.0, 100.0, Some(0.0));
    var sell := Transaction(sold, Sold, -150.0, 150.0, Some(0.0));
    assert ReplayLe(buy, sell);
    SortTwoInOrder(buy, sell);
    OversellRun(buy, sell, fxTable);
  }

  lemma OversellRun(buy: Transaction, sell: Transaction, fxTable: seq<FxRate>)
    requires buy.activity == Purchased && buy.quantity == 100.0
    requires sell.activity == Sold && sell.quantity == -150.0
    ensures Run([buy, sell], fxTable, Initial([2024])) == Failure(OversellError(sell.date))
  {
    var txs := [buy, sell];
    RunFailure(txs, fxTable, Initial([2024]));
    assert txs[..1] == [buy] && txs[..0] == [];
    assert SumOf([buy], NetDelta) == 100.0 by { assert [buy][..0] == []; }
    assert Oversells(txs, 0.0, 1);
    assert !Oversells(txs, 0.0, 0);
  }

  /**
   * The test with several EUR lots: 50 bought at 100 and 50 at 120 on one
   * day, then 75 sold. Whatever the rates, the result has one 2024 summary
   * selling 75, and the 25 shares left sit in one lot of the purchase date.
   */
  lemma EurLotsScenario(fxTable: seq<FxRate>)
    ensures var r := MovingAverageOf(
              SubmissionInput("test@example.com", EUR, "TEST", [2024],
                [Transaction("2024-01-10", Purchased, 50.0, 100.0, Some(5.0)),
                 Transaction("2024-01-10", Purchased, 50.0, 120.0, Some(5.0)),
                 Transaction("2024-06-15", Sold, -75.0, 150.0, Some(10.0))]),
              fxTable);
      && r.Success?
      && |r.value.summaries| == 1 && r.value.summaries[0].year == 2024 && r.value.summaries[0].sellQuantity == 75.0
      && |r.value.finalHoldings| == 1
      && r.value.finalHoldings[0].purchaseDate == "2024-01-10" && r.value.finalHoldings[0].quantity == 25
  {
    var b1 := Transaction("2024-01-10", Purchased, 50.0, 100.0, Some(5.0));
    var b2 := Transaction("2024-01-10", Purchased, 50.0, 120.0, Some(5.0));
    var sell := Transaction("2024-06-15", Sold, -75.0, 150.0, Some(10.0));
    var input := SubmissionInput("test@example.com", EUR, "TEST", [2024], [b1, b2, sell]);
    StrLeAt(b2.date, sell.date, 6);
    SortThreeInOrder(b1, b2, sell);
    var p := EurLotsReplay(b1, b2, sell, fxTable);
    assert MovingAverageOf(input, fxTable) == Success(Finish(input, p));
    EurLotsFinish(input, p);
  }

  lemma EurLotsFinish(input: SubmissionInput, p: Position)
    requires |p.yearMap| == 1 && p.yearMap[0].year == 2024 && p.yearMap[0].sellQuantity == 75.0
    requires p.lots == [Lot("2024-01-10", 25.0)]
    ensures var c := Finish(input, p);
      && |c.summaries| == 1 && c.summaries[0].year == 2024 && c.summaries[0].sellQuantity == 75.0
      && |c.finalHoldings| == 1 && c.finalHoldings[0].purchaseDate == "2024-01-10" && c.finalHoldings[0].quantity == 25
  {
    assert Sort(p.yearMap, YearLe) == p.yearMap by {
      assert p.yearMap[..0] == [];
    }
    assert MathRound(75.0) == 75 && MathRound(25.0) == 25;
  }

  lemma EurLotsReplay(b1: Transaction, b2: Transaction, sell: Transaction, fxTable: seq<FxRate>) returns (p: Position)
    requires b1 == Transaction("2024-01-10", Purchased, 50.0, 100.0, Some(5.0))
    requires b2 == Transaction("2024-01-10", Purchased, 50.0, 120.0, Some(5.0))
    requires sell == Transaction("2024-06-15", Sold, -75.0, 150.0, Some(10.0))
    ensures Run([b1, b2, sell], fxTable, Initial([2024])) == Success(p)
    ensures |p.yearMap| == 1 && p.yearMap[0].year == 2024 && p.yearMap[0].sellQuantity == 75.0
    ensures p.lots == [Lot("2024-01-10", 25.0)]
  {
    assert InitYearMap([2024]) == [ZeroSummary(2024)] by {
      assert [2024][..0] == [];
    }
    BasicFlowYear(sell);
    var p1 := Purchase(Initial([2024]), b1, TradeRate(fxTable, b1));
    var p2 := Purchase(p1, b2, TradeRate(fxTable, b2));
    assert p2.holdings == 100.0 && p2.lots == [Lot("2024-01-10", 50.0), Lot("2024-01-10", 50.0)];
    assert ConsumeLots(p2.lots, 75.0) == [Lot("2024-01-10", 25.0)] by {
      assert p2.lots[1..] == [Lot("2024-01-10", 50.0)];
    }
    p := Sale(p2, sell, TradeRate(fxTable, sell)).value;
    RunThree([b1, b2, sell], fxTable, Initial([2024]), p1, p2);
  }

  /**
   * The test with years spanning two calendar years: 100 bought, 50 sold in
   * 2024 and 50 in 2025. Whatever the rates, there are two summaries, 2024
   * then 2025, each selling 50, and nothing is left.
   */
  lemma TwoYearsScenario(fxTable: seq<FxRate>)
    ensures var r := MovingAverageOf(
              SubmissionInput("test@example.com", USD, "TEST", [2024, 2025],
                [Transaction("2024-01-10", Purchased, 100.0, 100.0, Some(0.0)),
                 Transaction("2024-06-15", Sold, -50.0, 150.0, Some(0.0)),
                 Transaction("2025-01-10", Sold, -50.0, 200.0, Some(0.0))]),
              fxTable);
      && r.Success?
      && |r.value.summaries| == 2
      && r.value.summaries[0].year == 2024 && r.value.summaries[0].sellQuantity == 50.0
      && r.value.summaries[1].year == 2025 && r.value.summaries[1].sellQuantity == 50.0
      && r.value.finalHoldings == []
  {
    var buy := Transaction("2024-01-10", Purchased, 100.0, 100.0, Some(0.0));
    var s1 := Transaction("2024-06-15", Sold, -50.0, 150.0, Some(0.0));
    var s2 := Transaction("2025-01-10", Sold, -50.0, 200.0, Some(0.0));
    var input := SubmissionInput("test@example.com", USD, "TEST", [2024, 2025], [buy, s1, s2]);
    StrLeAt(buy.date, s1.date, 6);
    StrLeAt(s1.date, s2.date, 3);
    SortThreeInOrder(buy, s1, s2);
    var p := TwoYearsReplay(buy, s1, s2, fxTable);
    assert MovingAverageOf(input, fxTable) == Success(Finish(input, p));
    TwoYearsFinish(input, p);
  }

  lemma TwoYearsFinish(input: SubmissionInput, p: Position)
    requires |p.yearMap| == 2
    requires p.yearMap[0].year == 2024 && p.yearMap[0].sellQuantity == 50.0
    requires p.yearMap[1].year == 2025 && p.yearMap[1].sellQuantity == 50.0
    requires p.lots == []
    ensures var c := Finish(input, p);
      && |c.summaries| == 2
      && c.summaries[0].year == 2024 && c.summaries[0].sellQuantity == 50.0
      && c.summaries[1].year == 2025 && c.summaries[1].sellQuantity == 50.0
      && c.finalHoldings == []
  {
    assert Sort(p.yearMap, YearLe) == p.yearMap by {
      assert p.yearMap[..1] == [p.yearMap[0]] && [p.yearMap[0]][..0] == [];
    }
    assert MathRound(50.0) == 50;
  }

  lemma TwoYearsReplay(buy: Transaction, s1: Transaction, s2: Transaction, fxTable: seq<FxRate>) returns (p: Position)
    requires buy == Transaction("2024-01-10", Purchased, 100.0, 100.0, Some(0.0))
    requires s1 == Transaction("2024-06-15", Sold, -50.0, 150.0, Some(0.0))
    requires s2 == Transaction("2025-01-10", Sold, -50.0, 200.0, Some(0.0))
    ensures Run([buy, s1, s2], fxTable, Initial([2024, 2025])) == Success(p)
    ensures |p.yearMap| == 2
    ensures p.yearMap[0].year == 2024 && p.yearMap[0].sellQuantity == 50.0
    ensures p.yearMap[1].year == 2025 && p.yearMap[1].sellQuantity == 50.0
    ensures p.lots == []
  {
    assert InitYearMap([2024, 2025]) == [ZeroSummary(2024), ZeroSummary(2025)] by {
      assert [2024, 2025][..1] == [2024] && [2024][..0] == [];
      assert InitYearMap([2024]) == [ZeroSummary(2024)];
      assert !HasYear([ZeroSummary(2024)], 2025);
    }
    BasicFlowYear(s1);
    YearOf2025(s2.date);
    var p1 := Purchase(Initial([2024, 2025]), buy, TradeRate(fxTable, buy));
    assert p1.holdings == 100.0 && p1.lots == [Lot("2024-01-10", 100.0)];
    var p2 := Sale(p1, s1, TradeRate(fxTable, s1)).value;
    assert p2.holdings == 50.0 && p2.lots == [Lot("2024-01-10", 50.0)];
    p := Sale(p2, s2, TradeRate(fxTable, s2)).value;
    assert p.lots == [] by {
      assert ConsumeLots([Lot("2024-01-10", 50.0)], 50.0) == ConsumeLots([], 0.0);
    }
    RunThree([buy, s1, s2], fxTable, Initial([2024, 2025]), p1, p2);
  }

  /** A replay of three trades is three steps, each from the state the one before reached. */
  lemma RunThree(txs: seq<Transaction>, fxTable: seq<FxRate>, p0: Position, p1: Position, p2: Position)
    requires |txs| == 3
    requires Step(p0, txs[0], TradeRate(fxTable, txs[0])) == Success(p1)
    requires Step(p1, txs[1], TradeRate(fxTable, txs[1])) == Success(p2)
    ensures Run(txs, fxTable, p0) == Step(p2, txs[2], TradeRate(fxTable, txs[2]))
  {
    assert txs[..0] == [];
    RunExtend(txs, fxTable, p0, 0, p0);
    RunExtend(txs, fxTable, p0, 1, p1);
    RunExtend(txs, fxTable, p0, 2, p2);
    assert txs[..3] == txs;
  }

}
