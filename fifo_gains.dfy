/**
 * The first-in-first-out reference calculator, without currency conversion.
 * Each purchase becomes a lot priced at its total cost per share; a sale's
 * cost basis is taken from the oldest lots first, and the lots it empties
 * are dropped. Sales are credited to the requested year of their date.
 */
module FifoGains {
  import opened Wrappers
  import opened Text
  import opened StableSort
  import opened Rounding
  import opened EngineTypes
  import opened ReplayOrder

  /** A purchase lot: its date, the quantity not yet sold, and its cost per share. */
  datatype FifoLot = FifoLot(date: string, quantity: real, unitCost: real)

  datatype SimpleSummary = SimpleSummary(year: int, sellQuantity: real, proceeds: real, costBasis: real, realizedGain: real)

  datatype SimpleHolding = SimpleHolding(purchaseDate: string, quantity: real, unitCost: real)

  datatype SimpleResult = SimpleResult(
    currency: Currency,
    symbol: string,
    years: seq<int>,
    summaries: seq<SimpleSummary>,
    finalHoldings: seq<SimpleHolding>)

  /** The replay's running variables: the lot queue and the year map. */
  datatype Book = Book(lots: seq<FifoLot>, yearMap: seq<SimpleSummary>)

  // ------------------------------------------------------------- year map

  function ZeroSummary(year: int): SimpleSummary
  {
    SimpleSummary(year, 0.0, 0.0, 0.0, 0.0)
  }

  function YearKey(s: SimpleSummary): int
  {
    s.year
  }

  predicate HasYear(m: seq<SimpleSummary>, year: int)
  {
    exists j :: 0 <= j < |m| && m[j].year == year
  }

  /** One zero summary per distinct requested year, in first-request order. */
  function InitYearMap(years: seq<int>): (m: seq<SimpleSummary>)
    ensures forall j :: 0 <= j < |m| ==> m[j] == ZeroSummary(m[j].year)
    ensures forall y :: HasYear(m, y) <==> y in years
    ensures DistinctKeys(m, YearKey)
  {
    if years == [] then []
    else
      var m := InitYearMap(years[..|years| - 1]);
      var y := years[|years| - 1];
      assert years == years[..|years| - 1] + [y];
      if HasYear(m, y) then m
      else
        var r := m + [ZeroSummary(y)];
        assert forall z :: HasYear(r, z) <==> HasYear(m, z) || z == y by {
          forall z | HasYear(r, z) ensures HasYear(m, z) || z == y {
            var j :| 0 <= j < |r| && r[j].year == z;
            if j < |m| { assert m[j].year == z; }
          }
          forall z | HasYear(m, z) ensures HasYear(r, z) {
            var j :| 0 <= j < |m| && m[j].year == z;
            assert r[j].year == z;
          }
          assert r[|m|].year == y;
        }
        r
  }

  function Credited(s: SimpleSummary, qty: real, proceeds: real, costBasis: real): SimpleSummary
  {
    s.(sellQuantity := s.sellQuantity + qty,
       proceeds := s.proceeds + proceeds,
       costBasis := s.costBasis + costBasis,
       realizedGain := s.realizedGain + (proceeds - costBasis))
  }

  /** Adds a sale to the summary of its year when that year was requested. */
  function CreditYear(m: seq<SimpleSummary>, year: Option<int>, qty: real, proceeds: real, costBasis: real): (r: seq<SimpleSummary>)
    ensures |r| == |m|
    ensures forall j :: 0 <= j < |m| ==> r[j].year == m[j].year
    ensures forall j :: 0 <= j < |m| && year == Some(m[j].year) ==>
      && r[j].sellQuantity == m[j].sellQuantity + qty
      && r[j].proceeds == m[j].proceeds + proceeds
      && r[j].costBasis == m[j].costBasis + costBasis
      && r[j].realizedGain == m[j].realizedGain + (proceeds - costBasis)
    ensures forall j :: 0 <= j < |m| && year != Some(m[j].year) ==> r[j] == m[j]
  {
    seq(|m|, j requires 0 <= j < |m| => if year == Some(m[j].year) then Credited(m[j], qty, proceeds, costBasis) else m[j])
  }

  // ------------------------------------------------------------------ lots

  /** `lots.reduce((sum, lot) => sum + lot.quantity, 0)`. */
  function TotalQty(lots: seq<FifoLot>): real
  {
    if lots == [] then 0.0 else lots[0].quantity + TotalQty(lots[1..])
  }

  /** What the lots cost: the sum of quantity times unit cost. */
  function Value(lots: seq<FifoLot>): real
  {
    if lots == [] then 0.0 else lots[0].quantity * lots[0].unitCost + Value(lots[1..])
  }

  function Min(a: real, b: real): real
  {
    if a < b then a else b
  }

  /** The cost basis of selling `remaining`: `min(lot, remaining) * unitCost` over the lots, oldest first. */
  function FifoCost(lots: seq<FifoLot>, remaining: real): real
  {
    if remaining <= 0.0 || lots == [] then 0.0
    else
      var consume := Min(lots[0].quantity, remaining);
      consume * lots[0].unitCost + FifoCost(lots[1..], remaining - consume)
  }

  /** The lot queue after selling `remaining`: the same quantities come off the front, and emptied lots are dropped. */
  function ConsumeLots(lots: seq<FifoLot>, remaining: real): seq<FifoLot>
  {
    if remaining <= 0.0 || lots == [] then lots
    else
      var consume := Min(lots[0].quantity, remaining);
      var left := lots[0].quantity - consume;
      if left == 0.0 then ConsumeLots(lots[1..], remaining - consume)
      else [lots[0].(quantity := left)] + lots[1..]
  }

  // ------------------------------------------------------------ one trade

  /** A purchase's cost per share, its commission included. */
  function PurchaseUnitCost(tx: Transaction): real
    requires tx.quantity != 0.0
  {
    (tx.quantity * tx.price + CommissionOrZero(tx)) / tx.quantity
  }

  /** A sale's proceeds: `|q| * price - commission`, the commission taken once. */
  function SaleProceeds(tx: Transaction): real
  {
    Abs(tx.quantity) * tx.price - CommissionOrZero(tx)
  }

  function Purchase(b: Book, tx: Transaction): Book
    requires tx.quantity != 0.0
  {
    Book(b.lots + [FifoLot(tx.date, tx.quantity, PurchaseUnitCost(tx))], b.yearMap)
  }

  /** A sale: its cost from the oldest lots, the over-sell check, the year credit, then the lots consumed. */
  function Sale(b: Book, tx: Transaction): (r: Result<Book, string>)
    ensures r.Failure? <==> Abs(tx.quantity) > TotalQty(b.lots)
    ensures r.Failure? ==> r.error == OversellError(tx.date)
  {
    var qty := Abs(tx.quantity);
    var costBasis := FifoCost(b.lots, qty);
    if qty > TotalQty(b.lots) then Failure(OversellError(tx.date))
    else Success(Book(ConsumeLots(b.lots, qty), CreditYear(b.yearMap, YearOf(tx.date), qty, SaleProceeds(tx), costBasis)))
  }

  /** Every purchase is of a nonzero quantity, so its unit cost is defined. */
  predicate NonZeroPurchases(txs: seq<Transaction>)
  {
    forall i :: 0 <= i < |txs| && txs[i].activity == Purchased ==> txs[i].quantity != 0.0
  }

  function Step(b: Book, tx: Transaction): Result<Book, string>
    requires tx.activity == Purchased ==> tx.quantity != 0.0
  {
    if tx.activity == Purchased then Success(Purchase(b, tx)) else Sale(b, tx)
  }

  /** The replay of `txs`, in the order given, from `b0`; the first error stops it. */
  function Run(txs: seq<Transaction>, b0: Book): Result<Book, string>
    requires NonZeroPurchases(txs)
  {
    if txs == [] then Success(b0)
    else
      assert NonZeroPurchases(txs[..|txs| - 1]) by {
        forall i | 0 <= i < |txs| - 1 ensures txs[..|txs| - 1][i] == txs[i] { }
      }
      match Run(txs[..|txs| - 1], b0)
      case Failure(e) => Failure(e)
      case Success(b) => Step(b, txs[|txs| - 1])
  }

  function Initial(years: seq<int>): Book
  {
    Book([], InitYearMap(years))
  }

  // ---------------------------------------------------------------- result

  predicate YearLe(a: SimpleSummary, b: SimpleSummary)
  {
    a.year <= b.year
  }

  predicate IntLe(a: int, b: int)
  {
    a <= b
  }

  function Rounded(s: SimpleSummary): SimpleSummary
  {
    SimpleSummary(s.year, RoundTenth(s.sellQuantity), MathRound(s.proceeds) as real,
                  MathRound(s.costBasis) as real, MathRound(s.realizedGain) as real)
  }

  /** The year map, kept to requested years, sorted by year, rounded. */
  function Summaries(m: seq<SimpleSummary>, years: seq<int>): seq<SimpleSummary>
  {
    var s := Sort(KeepRequested(m, years), YearLe);
    seq(|s|, j requires 0 <= j < |s| => Rounded(s[j]))
  }

  /** `.filter((s) => input.years.includes(s.year))`. */
  function KeepRequested(m: seq<SimpleSummary>, years: seq<int>): seq<SimpleSummary>
  {
    if m == [] then []
    else KeepRequested(m[..|m| - 1], years) + (if m[|m| - 1].year in years then [m[|m| - 1]] else [])
  }

  function FinalHoldings(lots: seq<FifoLot>): seq<SimpleHolding>
  {
    seq(|lots|, j requires 0 <= j < |lots| => SimpleHolding(lots[j].date, RoundTenth(lots[j].quantity), RoundTenth(lots[j].unitCost)))
  }

  /** Reordering the trades keeps every purchase nonzero. */
  lemma NonZeroPermutation(a: seq<Transaction>, b: seq<Transaction>)
    requires multiset(a) == multiset(b) && NonZeroPurchases(a)
    ensures NonZeroPurchases(b)
  {
    forall i | 0 <= i < |b| && b[i].activity == Purchased ensures b[i].quantity != 0.0 {
      assert b[i] in multiset(a);
    }
  }

  /** `calcCapitalGains` on a submission. */
  function CapitalGainsOf(input: SubmissionInput): Result<SimpleResult, string>
    requires NonZeroPurchases(input.transactions)
  {
    var sorted := SortForReplay(input.transactions);
    NonZeroPermutation(input.transactions, sorted);
    match Run(sorted, Initial(input.years))
    case Failure(e) => Failure(e)
    case Success(b) =>
      Success(SimpleResult(input.currency, input.symbol, Sort(input.years, IntLe),
                           Summaries(b.yearMap, input.years), FinalHoldings(b.lots)))
  }

  // ------------------------------------------------------------ the method

  /** Once a prefix of the replay fails, the whole replay fails with the same error. */
  lemma {:induction false} RunFailureSticks(txs: seq<Transaction>, b0: Book, n: nat)
    requires NonZeroPurchases(txs)
    requires n <= |txs| && NonZeroPurchases(txs[..n]) && Run(txs[..n], b0).Failure?
    ensures Run(txs, b0) == Run(txs[..n], b0)
    decreases |txs| - n
  {
    if n < |txs| {
      var init := txs[..|txs| - 1];
      assert init[..n] == txs[..n];
      assert NonZeroPurchases(init) by {
        forall i | 0 <= i < |init| ensures init[i] == txs[i] { }
      }
      RunFailureSticks(init, b0, n);
    } else {
      assert txs[..n] == txs;
    }
  }

  lemma NonZeroPrefix(txs: seq<Transaction>, n: nat)
    requires NonZeroPurchases(txs) && n <= |txs|
    ensures NonZeroPurchases(txs[..n])
  {
    forall i | 0 <= i < n ensures txs[..n][i] == txs[i] { }
  }

  /** Replaying one more trade applies its step to the book the prefix reached. */
  lemma RunExtend(txs: seq<Transaction>, b0: Book, i: nat, b: Book)
    requires NonZeroPurchases(txs) && i < |txs|
    requires NonZeroPurchases(txs[..i]) && Run(txs[..i], b0) == Success(b)
    ensures NonZeroPurchases(txs[..i + 1])
    ensures Run(txs[..i + 1], b0) == Step(b, txs[i])
  {
    NonZeroPrefix(txs, i + 1);
    assert txs[..i + 1][..i] == txs[..i];
  }

  /** The cost loop of a sale: `min(lot, remaining) * unitCost` over the lots, until nothing remains. */
  method FifoCostOf(lots: seq<FifoLot>, qty: real) returns (costBasis: real)
    ensures costBasis == FifoCost(lots, qty)
  {
    costBasis := 0.0;
    var remaining := qty;
    for i := 0 to |lots|
      invariant costBasis + FifoCost(lots[i..], remaining) == FifoCost(lots, qty)
    {
      if remaining <= 0.0 {
        break;
      }
      var lot := lots[i];
      var consume := Min(lot.quantity, remaining);
      assert lots[i..][1..] == lots[i + 1..];
      costBasis := costBasis + consume * lot.unitCost;
      remaining := remaining - consume;
    }
  }

  /** The lot loop of a sale: take `min(lot, remaining)` off the head lot, drop it at zero, repeat. */
  method ConsumeFromFront(lots: seq<FifoLot>, qty: real) returns (left: seq<FifoLot>)
    ensures left == ConsumeLots(lots, qty)
  {
    left := lots;
    var remaining := qty;
    while remaining > 0.0 && |left| > 0
      invariant ConsumeLots(left, remaining) == ConsumeLots(lots, qty)
      decreases |left|, if remaining > 0.0 then 1 else 0
    {
      var lot := left[0];
      var consume := Min(lot.quantity, remaining);
      lot := lot.(quantity := lot.quantity - consume);
      remaining := remaining - consume;
      if lot.quantity == 0.0 {
        left := left[1..];
      } else {
        left := [lot] + left[1..];
      }
    }
  }

  /** The year-map loop: one zero summary set per requested year. */
  method NewYearMap(years: seq<int>) returns (yearMap: seq<SimpleSummary>)
    ensures yearMap == InitYearMap(years)
  {
    yearMap := [];
    for k := 0 to |years|
      invariant yearMap == InitYearMap(years[..k])
    {
      var year := years[k];
      assert years[..k + 1] == years[..k] + [year];
      if !HasYear(yearMap, year) {
        yearMap := yearMap + [ZeroSummary(year)];
      }
    }
    assert years[..|years|] == years;
  }

  /** The purchase branch of the method appends the lot `Purchase` describes. */
  lemma PurchaseStepIs(b: Book, tx: Transaction, unitCost: real)
    requires tx.activity == Purchased && tx.quantity != 0.0
    requires unitCost == (tx.quantity * tx.price + CommissionOrZero(tx)) / tx.quantity
    ensures Step(b, tx) == Success(Book(b.lots + [FifoLot(tx.date, tx.quantity, unitCost)], b.yearMap))
  {
    assert PurchaseUnitCost(tx) == unitCost;
  }

  /**
   * One pass of the replay loop's body: a purchase appends a lot at its cost
   * per share; a sale is priced from the oldest lots, checked against the
   * total held, credited to its year, and taken off the lots.
   */
  method ApplyTrade(lots: seq<FifoLot>, yearMap: seq<SimpleSummary>, tx: Transaction) returns (r: Result<Book, string>)
    requires tx.activity == Purchased ==> tx.quantity != 0.0
    ensures r == Step(Book(lots, yearMap), tx)
  {
    if tx.activity == Purchased {
      var commission := CommissionOrZero(tx);
      var totalCost := tx.quantity * tx.price + commission;
      var unitCost := totalCost / tx.quantity;
      r := Success(Book(lots + [FifoLot(tx.date, tx.quantity, unitCost)], yearMap));
      PurchaseStepIs(Book(lots, yearMap), tx, unitCost);
      return;
    }
    var year := YearOf(tx.date);
    var qty := Abs(tx.quantity);
    var commission := CommissionOrZero(tx);
    var proceeds := qty * tx.price - commission;
    var costBasis := FifoCostOf(lots, qty);
    if qty > TotalQty(lots) {
      return Failure(OversellError(tx.date));
    }
    var newYearMap := CreditYear(yearMap, year, qty, proceeds, costBasis);
    var newLots := ConsumeFromFront(lots, qty);
    r := Success(Book(newLots, newYearMap));
    assert proceeds == SaleProceeds(tx);
    assert !(qty > TotalQty(Book(lots, yearMap).lots));
    assert Sale(Book(lots, yearMap), tx) == r;
  }

  /** `calcCapitalGains`: the replay loop over the sorted trades, then the result. */
  method CalcCapitalGains(input: SubmissionInput) returns (r: Result<SimpleResult, string>)
    requires NonZeroPurchases(input.transactions)
    ensures r == CapitalGainsOf(input)
  {
    var sorted := SortForReplay(input.transactions);
    NonZeroPermutation(input.transactions, sorted);
    var lots: seq<FifoLot> := [];
    var yearMap := NewYearMap(input.years);

    for i := 0 to |sorted|
      invariant NonZeroPurchases(sorted[..i])
      invariant Run(sorted[..i], Initial(input.years)) == Success(Book(lots, yearMap))
    {
      RunExtend(sorted, Initial(input.years), i, Book(lots, yearMap));
      var next := ApplyTrade(lots, yearMap, sorted[i]);
      if next.Failure? {
        RunFailureSticks(sorted, Initial(input.years), i + 1);
        return Failure(next.error);
      }
      lots, yearMap := next.value.lots, next.value.yearMap;
    }
    assert sorted[..|sorted|] == sorted;

    r := Success(SimpleResult(input.currency, input.symbol, Sort(input.years, IntLe),
                              Summaries(yearMap, input.years), FinalHoldings(lots)));
  }

  // ------------------------------------------------------------ properties

  /** Taking `r` off the front of a queue holding at least `r` lowers its total by exactly `r`. */
  lemma {:induction false} ConsumeLotsTotal(lots: seq<FifoLot>, r: real)
    requires 0.0 < r <= TotalQty(lots)
    ensures TotalQty(ConsumeLots(lots, r)) == TotalQty(lots) - r
    decreases |lots|
  {
    var consume := Min(lots[0].quantity, r);
    if lots[0].quantity - consume == 0.0 {
      if r - consume > 0.0 {
        ConsumeLotsTotal(lots[1..], r - consume);
      }
    } else {
      assert ([lots[0].(quantity := lots[0].quantity - consume)] + lots[1..])[1..] == lots[1..];
    }
  }

  /**
   * First in, first out: a sale leaves a suffix of the lots, possibly with its
   * head lot reduced (not to zero) but keeping its date and unit cost.
   */
  lemma {:induction false} ConsumeLotsFront(lots: seq<FifoLot>, r: real) returns (k: nat)
    ensures k <= |lots|
    ensures var c := ConsumeLots(lots, r);
      || c == lots[k..]
      || (k < |lots| && |c| == |lots| - k && c[1..] == lots[k + 1..]
          && c[0].date == lots[k].date && c[0].unitCost == lots[k].unitCost
          && c[0].quantity != 0.0 && c[0].quantity < lots[k].quantity)
    decreases |lots|
  {
    if r <= 0.0 || lots == [] {
      k := 0;
    } else {
      var consume := Min(lots[0].quantity, r);
      if lots[0].quantity - consume == 0.0 {
        var k' := ConsumeLotsFront(lots[1..], r - consume);
        k := k' + 1;
        assert lots[1..][k'..] == lots[k..];
        assert k' < |lots[1..]| ==> lots[1..][k' + 1..] == lots[k + 1..] && lots[1..][k'] == lots[k];
      } else {
        k := 0;
      }
    }
  }

  /**
   * Cost is neither created nor lost by a sale: the cost charged to it plus
   * the cost of the lots left equals the cost of the lots before.
   */
  lemma {:induction false} FifoCostConserved(lots: seq<FifoLot>, r: real)
    ensures FifoCost(lots, r) + Value(ConsumeLots(lots, r)) == Value(lots)
    decreases |lots|
  {
    if r > 0.0 && lots != [] {
      var l := lots[0];
      var consume := Min(l.quantity, r);
      FifoCostConserved(lots[1..], r - consume);
      if l.quantity - consume != 0.0 {
        var c := [l.(quantity := l.quantity - consume)] + lots[1..];
        assert c[1..] == lots[1..];
        assert (l.quantity - consume) * l.unitCost == l.quantity * l.unitCost - consume * l.unitCost;
      }
    }
  }

  lemma {:induction false} TotalQtyAppend(lots: seq<FifoLot>, l: FifoLot)
    ensures TotalQty(lots + [l]) == TotalQty(lots) + l.quantity
  {
    if lots != [] {
      assert (lots + [l])[1..] == lots[1..] + [l];
      TotalQtyAppend(lots[1..], l);
    }
  }

  lemma {:induction false} ValueAppend(lots: seq<FifoLot>, l: FifoLot)
    ensures Value(lots + [l]) == Value(lots) + l.quantity * l.unitCost
  {
    if lots != [] {
      assert (lots + [l])[1..] == lots[1..] + [l];
      ValueAppend(lots[1..], l);
    }
  }

  /** After a successful replay the lots hold the starting lots plus the net quantity traded. */
  lemma {:induction false} RunLotsTotal(txs: seq<Transaction>, b0: Book)
    requires NonZeroPurchases(txs) && Run(txs, b0).Success?
    ensures TotalQty(Run(txs, b0).value.lots) == TotalQty(b0.lots) + SumOf(txs, NetDelta)
  {
    if txs != [] {
      var init, last := txs[..|txs| - 1], txs[|txs| - 1];
      NonZeroPrefix(txs, |txs| - 1);
      RunLotsTotal(init, b0);
      var b := Run(init, b0).value;
      if last.activity == Purchased {
        TotalQtyAppend(b.lots, FifoLot(last.date, last.quantity, PurchaseUnitCost(last)));
      } else if Abs(last.quantity) > 0.0 {
        ConsumeLotsTotal(b.lots, Abs(last.quantity));
      }
    }
  }

  /**
   * The replay fails exactly when some sale exceeds the quantity held before
   * it, and then with the over-sell error of the first such sale.
   */
  lemma {:induction false} RunFailure(txs: seq<Transaction>, b0: Book)
    requires NonZeroPurchases(txs)
    ensures Run(txs, b0).Failure? <==> exists i :: Oversells(txs, TotalQty(b0.lots), i)
    ensures Run(txs, b0).Failure? ==>
      exists i :: Oversells(txs, TotalQty(b0.lots), i) && (forall j :: 0 <= j < i ==> !Oversells(txs, TotalQty(b0.lots), j))
        && Run(txs, b0).error == OversellError(txs[i].date)
  {
    if txs != [] {
      var init := txs[..|txs| - 1];
      NonZeroPrefix(txs, |txs| - 1);
      RunFailure(init, b0);
      OversellsOfInit(txs, TotalQty(b0.lots));
      if Run(init, b0).Failure? {
        FailureCarriesOver(txs, init, b0);
      } else {
        FailureAtLast(txs, init, b0);
      }
    }
  }

  lemma OversellsOfInit(txs: seq<Transaction>, h: real)
    requires txs != []
    ensures forall i :: 0 <= i < |txs| - 1 ==> (Oversells(txs, h, i) <==> Oversells(txs[..|txs| - 1], h, i))
  {
    forall i | 0 <= i < |txs| - 1 ensures Oversells(txs, h, i) <==> Oversells(txs[..|txs| - 1], h, i) {
      assert txs[..i] == txs[..|txs| - 1][..i];
    }
  }

  lemma FailureCarriesOver(txs: seq<Transaction>, init: seq<Transaction>, b0: Book)
    requires txs != [] && init == txs[..|txs| - 1] && NonZeroPurchases(txs) && NonZeroPurchases(init)
    requires Run(init, b0).Failure?
    requires forall i :: 0 <= i < |txs| - 1 ==> (Oversells(txs, TotalQty(b0.lots), i) <==> Oversells(init, TotalQty(b0.lots), i))
    requires exists i :: Oversells(init, TotalQty(b0.lots), i)
               && (forall j :: 0 <= j < i ==> !Oversells(init, TotalQty(b0.lots), j))
               && Run(init, b0).error == OversellError(init[i].date)
    ensures Run(txs, b0).Failure? && exists i :: Oversells(txs, TotalQty(b0.lots), i)
    ensures exists i :: Oversells(txs, TotalQty(b0.lots), i) && (forall j :: 0 <= j < i ==> !Oversells(txs, TotalQty(b0.lots), j))
                        && Run(txs, b0).error == OversellError(txs[i].date)
  {
    var h := TotalQty(b0.lots);
    var i :| Oversells(init, h, i) && (forall j :: 0 <= j < i ==> !Oversells(init, h, j))
             && Run(init, b0).error == OversellError(init[i].date);
    assert Oversells(txs, h, i);
  }

  lemma FailureAtLast(txs: seq<Transaction>, init: seq<Transaction>, b0: Book)
    requires txs != [] && init == txs[..|txs| - 1] && NonZeroPurchases(txs) && NonZeroPurchases(init)
    requires Run(init, b0).Success?
    requires forall i :: 0 <= i < |txs| - 1 ==> (Oversells(txs, TotalQty(b0.lots), i) <==> Oversells(init, TotalQty(b0.lots), i))
    requires !exists i :: Oversells(init, TotalQty(b0.lots), i)
    ensures Run(txs, b0).Failure? <==> exists i :: Oversells(txs, TotalQty(b0.lots), i)
    ensures Run(txs, b0).Failure? ==>
      exists i :: Oversells(txs, TotalQty(b0.lots), i) && (forall j :: 0 <= j < i ==> !Oversells(txs, TotalQty(b0.lots), j))
                  && Run(txs, b0).error == OversellError(txs[i].date)
  {
    var h := TotalQty(b0.lots);
    var n := |txs| - 1;
    var last := txs[n];
    RunLotsTotal(init, b0);
    var b := Run(init, b0).value;
    assert Run(txs, b0) == Step(b, last);
    assert txs[..n] == init;
    assert forall i :: Oversells(txs, h, i) ==> i == n;
    assert Run(txs, b0).Failure? <==> Oversells(txs, h, n);
  }

  // ------------------------------------------------------------ year totals

  /** A sale dated in `year` contributes its proceeds, net of its commission, to that year. */
  function SaleProceedsOf(year: int): Transaction -> real
  {
    (tx: Transaction) => if tx.activity == Sold && YearOf(tx.date) == Some(year) then SaleProceeds(tx) else 0.0
  }

  /** A summary's realised gain is its proceeds less its cost basis. */
  predicate Balanced(s: SimpleSummary)
  {
    s.realizedGain == s.proceeds - s.costBasis
  }

  /**
   * The cost basis charged to `year`: each sale dated in that year draws
   * `FifoCost` from the lots the replay holds just before it, so, unlike
   * quantities and proceeds, it depends on the order of the trades.
   */
  function CostsOf(txs: seq<Transaction>, b0: Book, year: int): real
    requires NonZeroPurchases(txs)
  {
    if txs == [] then 0.0
    else
      var init, last := txs[..|txs| - 1], txs[|txs| - 1];
      assert NonZeroPurchases(init) by {
        forall i | 0 <= i < |init| ensures init[i] == txs[i] { }
      }
      var before := Run(init, b0);
      CostsOf(init, b0, year)
      + if last.activity == Sold && YearOf(last.date) == Some(year) && before.Success?
        then FifoCost(before.value.lots, Abs(last.quantity))
        else 0.0
  }

  /**
   * Each year-map entry keeps its year and gains the quantity, proceeds,
   * cost basis and realised gain of exactly the sales dated in that year; its
   * gain stays equal to its proceeds less its cost basis.
   */
  lemma {:induction false} RunYearTotals(txs: seq<Transaction>, b0: Book)
    requires NonZeroPurchases(txs) && Run(txs, b0).Success?
    ensures var m := Run(txs, b0).value.yearMap;
      && |m| == |b0.yearMap|
      && forall j :: 0 <= j < |m| ==>
           && m[j].year == b0.yearMap[j].year
           && m[j].sellQuantity == b0.yearMap[j].sellQuantity + SumOf(txs, SoldQtyOf(m[j].year))
           && m[j].proceeds == b0.yearMap[j].proceeds + SumOf(txs, SaleProceedsOf(m[j].year))
           && m[j].costBasis == b0.yearMap[j].costBasis + CostsOf(txs, b0, m[j].year)
           && m[j].realizedGain == b0.yearMap[j].realizedGain + (SumOf(txs, SaleProceedsOf(m[j].year)) - CostsOf(txs, b0, m[j].year))
           && (Balanced(b0.yearMap[j]) ==> Balanced(m[j]))
  {
    if txs != [] {
      NonZeroPrefix(txs, |txs| - 1);
      RunYearTotals(txs[..|txs| - 1], b0);
    }
  }

  /** Two year maps with the same years position by position have the same years, and the same distinctness. */
  lemma SameYears(m: seq<SimpleSummary>, m0: seq<SimpleSummary>)
    requires |m| == |m0| && forall j :: 0 <= j < |m| ==> m[j].year == m0[j].year
    ensures forall y :: HasYear(m, y) <==> HasYear(m0, y)
    ensures DistinctKeys(m0, YearKey) ==> DistinctKeys(m, YearKey)
  {
    forall y ensures HasYear(m, y) <==> HasYear(m0, y) {
      if HasYear(m, y) {
        var j :| 0 <= j < |m| && m[j].year == y;
        assert m0[j].year == y;
      }
      if HasYear(m0, y) {
        var j :| 0 <= j < |m0| && m0[j].year == y;
        assert m[j].year == y;
      }
    }
    if DistinctKeys(m0, YearKey) {
      forall i, j | 0 <= i < j < |m| ensures YearKey(m[i]) != YearKey(m[j]) {
        assert YearKey(m0[i]) != YearKey(m0[j]);
      }
    }
  }

  // ------------------------------------------------------ cost conservation

  /** The cost basis charged so far, over all entries of a year map. */
  function Charged(m: seq<SimpleSummary>): real
  {
    if m == [] then 0.0 else m[0].costBasis + Charged(m[1..])
  }

  /** What a purchase costs in total: `quantity * price + commission`. */
  function PurchaseCostOf(tx: Transaction): real
  {
    if tx.activity == Purchased then tx.quantity * tx.price + CommissionOrZero(tx) else 0.0
  }

  /** Every sale is dated in a year the map holds. */
  predicate SalesDatedIn(txs: seq<Transaction>, m: seq<SimpleSummary>)
  {
    forall i :: 0 <= i < |txs| && txs[i].activity == Sold ==>
      YearOf(txs[i].date).Some? && HasYear(m, YearOf(txs[i].date).value)
  }

  /** Crediting a sale adds its cost to exactly one entry when its year is held, and to none otherwise. */
  lemma {:induction false} CreditYearCharged(m: seq<SimpleSummary>, year: Option<int>, qty: real, proceeds: real, cost: real)
    requires DistinctKeys(m, YearKey)
    ensures Charged(CreditYear(m, year, qty, proceeds, cost))
            == Charged(m) + (if year.Some? && HasYear(m, year.value) then cost else 0.0)
  {
    if m != [] {
      var c := CreditYear(m, year, qty, proceeds, cost);
      var rest := m[1..];
      assert c[1..] == CreditYear(rest, year, qty, proceeds, cost);
      assert DistinctKeys(rest, YearKey) by {
        forall i, j | 0 <= i < j < |rest| ensures YearKey(rest[i]) != YearKey(rest[j]) {
          assert YearKey(m[i + 1]) != YearKey(m[j + 1]);
        }
      }
      CreditYearCharged(rest, year, qty, proceeds, cost);
      if year.Some? {
        var y := year.value;
        if m[0].year == y {
          forall j | 0 <= j < |rest| ensures rest[j].year != y {
            assert YearKey(m[0]) != YearKey(m[j + 1]);
          }
        } else {
          assert HasYear(m, y) <==> HasYear(rest, y) by {
            if HasYear(m, y) {
              var j :| 0 <= j < |m| && m[j].year == y;
              assert rest[j - 1].year == y;
            }
            if HasYear(rest, y) {
              var j :| 0 <= j < |rest| && rest[j].year == y;
              assert m[j + 1].year == y;
            }
          }
        }
      }
    }
  }

  /** A purchase's lot is worth exactly what the purchase cost. */
  lemma PurchaseLotValue(tx: Transaction)
    requires tx.quantity != 0.0
    ensures tx.quantity * PurchaseUnitCost(tx) == tx.quantity * tx.price + CommissionOrZero(tx)
  {
    var total := tx.quantity * tx.price + CommissionOrZero(tx);
    assert PurchaseUnitCost(tx) == total / tx.quantity;
  }

  /**
   * FIFO conservation: when every sale is dated in a requested year, the cost
   * still held in the lots plus the cost basis charged to the years equals
   * what was held and charged at the start plus everything the purchases cost.
   */
  lemma {:induction false} RunCostConserved(txs: seq<Transaction>, b0: Book)
    requires NonZeroPurchases(txs) && Run(txs, b0).Success?
    requires DistinctKeys(b0.yearMap, YearKey) && SalesDatedIn(txs, b0.yearMap)
    ensures var b := Run(txs, b0).value;
      Value(b.lots) + Charged(b.yearMap) == Value(b0.lots) + Charged(b0.yearMap) + SumOf(txs, PurchaseCostOf)
  {
    if txs != [] {
      var init, last := txs[..|txs| - 1], txs[|txs| - 1];
      NonZeroPrefix(txs, |txs| - 1);
      assert SalesDatedIn(init, b0.yearMap) by {
        forall i | 0 <= i < |init| ensures init[i] == txs[i] { }
      }
      RunCostConserved(init, b0);
      var b := Run(init, b0).value;
      if last.activity == Purchased {
        PurchaseCostConserved(b, last);
      } else {
        RunYearTotals(init, b0);
        SameYears(b.yearMap, b0.yearMap);
        SaleCostConserved(b, last);
      }
    }
  }

  lemma PurchaseCostConserved(b: Book, tx: Transaction)
    requires tx.activity == Purchased && tx.quantity != 0.0
    ensures var b' := Purchase(b, tx);
      Value(b'.lots) + Charged(b'.yearMap) == Value(b.lots) + Charged(b.yearMap) + PurchaseCostOf(tx)
  {
    ValueAppend(b.lots, FifoLot(tx.date, tx.quantity, PurchaseUnitCost(tx)));
    PurchaseLotValue(tx);
  }

  lemma SaleCostConserved(b: Book, tx: Transaction)
    requires tx.activity == Sold && Sale(b, tx).Success? && DistinctKeys(b.yearMap, YearKey)
    requires YearOf(tx.date).Some? && HasYear(b.yearMap, YearOf(tx.date).value)
    ensures var b' := Sale(b, tx).value;
      Value(b'.lots) + Charged(b'.yearMap) == Value(b.lots) + Charged(b.yearMap)
  {
    var qty := Abs(tx.quantity);
    FifoCostConserved(b.lots, qty);
    CreditYearCharged(b.yearMap, YearOf(tx.date), qty, SaleProceeds(tx), FifoCost(b.lots, qty));
  }

  // ----------------------------------------------------------- the result

  lemma YearLeIsTotalPreorder()
    ensures TotalPreorder(YearLe)
  {
  }

  lemma IntLeIsTotalPreorder()
    ensures TotalPreorder(IntLe)
  {
  }

  /** The filter on requested years keeps every entry of a map built from the requested years. */
  lemma {:induction false} KeepRequestedAll(m: seq<SimpleSummary>, years: seq<int>)
    requires forall j :: 0 <= j < |m| ==> m[j].year in years
    ensures KeepRequested(m, years) == m
  {
    if m != [] {
      KeepRequestedAll(m[..|m| - 1], years);
      assert m == m[..|m| - 1] + [m[|m| - 1]];
    }
  }

  /**
   * The year map a successful calculation ends with: one entry per distinct
   * requested year, holding the total quantity and proceeds of the sales
   * dated in that year, in any input order of the trades, the cost basis
   * those sales draw along the replay order, and a gain equal to its
   * proceeds less its cost basis.
   */
  lemma FinalYearMap(input: SubmissionInput)
    requires NonZeroPurchases(input.transactions) && NonZeroPurchases(SortForReplay(input.transactions))
    requires Run(SortForReplay(input.transactions), Initial(input.years)).Success?
    ensures var m := Run(SortForReplay(input.transactions), Initial(input.years)).value.yearMap;
      && DistinctKeys(m, YearKey)
      && (forall y :: HasYear(m, y) <==> y in input.years)
      && forall j :: 0 <= j < |m| ==>
           && m[j].sellQuantity == SumOf(input.transactions, SoldQtyOf(m[j].year))
           && m[j].proceeds == SumOf(input.transactions, SaleProceedsOf(m[j].year))
           && m[j].costBasis == CostsOf(SortForReplay(input.transactions), Initial(input.years), m[j].year)
           && Balanced(m[j])
  {
    var sorted := SortForReplay(input.transactions);
    var b0 := Initial(input.years);
    RunYearTotals(sorted, b0);
    var m := Run(sorted, b0).value.yearMap;
    SameYears(m, b0.yearMap);
    forall j | 0 <= j < |m|
      ensures m[j].sellQuantity == SumOf(input.transactions, SoldQtyOf(m[j].year))
      ensures m[j].proceeds == SumOf(input.transactions, SaleProceedsOf(m[j].year))
      ensures m[j].costBasis == CostsOf(sorted, b0, m[j].year)
      ensures Balanced(m[j])
    {
      assert b0.yearMap[j] == ZeroSummary(b0.yearMap[j].year);
      SumOfPermutation(sorted, input.transactions, SoldQtyOf(m[j].year));
      SumOfPermutation(sorted, input.transactions, SaleProceedsOf(m[j].year));
    }
  }

  /** Sorting a year map with distinct years by year orders the years strictly. */
  lemma SortedYearsStrict(m: seq<SimpleSummary>)
    requires DistinctKeys(m, YearKey)
    ensures var srt := Sort(m, YearLe);
      DistinctKeys(srt, YearKey) && forall i, j :: 0 <= i < j < |srt| ==> srt[i].year < srt[j].year
  {
    var srt := Sort(m, YearLe);
    YearLeIsTotalPreorder();
    SortSorted(m, YearLe);
    PermutationKeepsDistinctKeys(m, srt, YearKey);
    forall i, j | 0 <= i < j < |srt| ensures srt[i].year < srt[j].year {
      assert YearLe(srt[i], srt[j]) && YearKey(srt[i]) != YearKey(srt[j]);
    }
  }

  /** The rounded gain is within one of the rounded proceeds less the rounded cost basis. */
  lemma RoundedGainClose(x: SimpleSummary)
    requires Balanced(x)
    ensures var r := Rounded(x);
      -1.0 <= r.realizedGain - (r.proceeds - r.costBasis) <= 1.0
  {
    var p, c, g := MathRound(x.proceeds), MathRound(x.costBasis), MathRound(x.realizedGain);
    assert -1 <= g - (p - c) <= 1;
  }

  /** Each summary of a map built from the requested years is the rounding of one of its entries. */
  lemma SummariesOfYearMap(m: seq<SimpleSummary>, years: seq<int>)
    requires DistinctKeys(m, YearKey) && forall j :: 0 <= j < |m| ==> m[j].year in years
    ensures var s := Summaries(m, years);
      && (forall i, j :: 0 <= i < j < |s| ==> s[i].year < s[j].year)
      && (forall y :: HasYear(s, y) <==> HasYear(m, y))
      && forall j :: 0 <= j < |s| ==> exists k :: 0 <= k < |m| && s[j] == Rounded(m[k])
  {
    KeepRequestedAll(m, years);
    SortedYearsStrict(m);
    SummariesSorted(m, years, Sort(m, YearLe));
    SummariesYears(m, years);
    forall j | 0 <= j < |Summaries(m, years)| ensures exists k :: 0 <= k < |m| && Summaries(m, years)[j] == Rounded(m[k]) {
      SummaryEntry(m, years, j);
    }
  }

  lemma SummariesSorted(m: seq<SimpleSummary>, years: seq<int>, srt: seq<SimpleSummary>)
    requires KeepRequested(m, years) == m && srt == Sort(m, YearLe)
    requires forall i, j :: 0 <= i < j < |srt| ==> srt[i].year < srt[j].year
    ensures var s := Summaries(m, years); forall i, j :: 0 <= i < j < |s| ==> s[i].year < s[j].year
  {
    var s := Summaries(m, years);
    assert |s| == |srt|;
    forall i, j | 0 <= i < j < |s| ensures s[i].year < s[j].year {
      assert s[i] == Rounded(srt[i]) && s[j] == Rounded(srt[j]);
    }
  }

  lemma SummaryEntry(m: seq<SimpleSummary>, years: seq<int>, j: int)
    requires KeepRequested(m, years) == m && 0 <= j < |Summaries(m, years)|
    ensures exists k :: 0 <= k < |m| && Summaries(m, years)[j] == Rounded(m[k])
  {
    var srt := Sort(m, YearLe);
    assert srt[j] in multiset(m);
    var k :| 0 <= k < |m| && m[k] == srt[j];
    assert Summaries(m, years)[j] == Rounded(m[k]);
  }

  lemma SummariesYears(m: seq<SimpleSummary>, years: seq<int>)
    requires KeepRequested(m, years) == m
    ensures forall y :: HasYear(Summaries(m, years), y) <==> HasYear(m, y)
  {
    forall y ensures HasYear(Summaries(m, years), y) <==> HasYear(m, y) {
      if HasYear(Summaries(m, years), y) { SummaryYearInMap(m, years, y); }
      if HasYear(m, y) { MapYearInSummary(m, years, y); }
    }
  }

  lemma SummaryYearInMap(m: seq<SimpleSummary>, years: seq<int>, y: int)
    requires KeepRequested(m, years) == m && HasYear(Summaries(m, years), y)
    ensures HasYear(m, y)
  {
    var srt := Sort(m, YearLe);
    var s := Summaries(m, years);
    var j :| 0 <= j < |s| && s[j].year == y;
    assert srt[j] in multiset(m);
    var k :| 0 <= k < |m| && m[k] == srt[j];
    assert m[k].year == y;
  }

  lemma MapYearInSummary(m: seq<SimpleSummary>, years: seq<int>, y: int)
    requires KeepRequested(m, years) == m && HasYear(m, y)
    ensures HasYear(Summaries(m, years), y)
  {
    var srt := Sort(m, YearLe);
    var s := Summaries(m, years);
    var k :| 0 <= k < |m| && m[k].year == y;
    assert m[k] in multiset(srt);
    var j :| 0 <= j < |srt| && srt[j] == m[k];
    assert s[j].year == y;
  }

  /**
   * The summaries of a successful calculation: exactly one per requested year
   * (with or without sales), in ascending year order, each holding the total
   * quantity (to one decimal place), the rounded total proceeds of the
   * sales dated in its year, the rounded cost basis they draw along the
   * replay order, and the rounded gain, proceeds less cost basis, which is
   * within one of its rounded proceeds less its rounded cost basis.
   */
  lemma CapitalGainsSummaries(input: SubmissionInput)
    requires NonZeroPurchases(input.transactions) && CapitalGainsOf(input).Success?
    ensures var s := CapitalGainsOf(input).value.summaries;
      && (forall i, j :: 0 <= i < j < |s| ==> s[i].year < s[j].year)
      && (forall y :: HasYear(s, y) <==> y in input.years)
      && NonZeroPurchases(SortForReplay(input.transactions))
      && forall j :: 0 <= j < |s| ==>
           SummaryFigures(input.transactions, SortForReplay(input.transactions), Initial(input.years), s[j])
  {
    var sorted := SortForReplay(input.transactions);
    NonZeroPermutation(input.transactions, sorted);
    var m := Run(sorted, Initial(input.years)).value.yearMap;
    assert CapitalGainsOf(input).value.summaries == Summaries(m, input.years);
    FinalYearMap(input);
    SummariesOfFinalMap(input.transactions, sorted, Initial(input.years), input.years, m);
  }

  lemma SummariesOfFinalMap(txs: seq<Transaction>, replay: seq<Transaction>, b0: Book, years: seq<int>, m: seq<SimpleSummary>)
    requires NonZeroPurchases(replay)
    requires DistinctKeys(m, YearKey) && (forall y :: HasYear(m, y) <==> y in years)
    requires forall j :: 0 <= j < |m| ==>
      && m[j].sellQuantity == SumOf(txs, SoldQtyOf(m[j].year))
      && m[j].proceeds == SumOf(txs, SaleProceedsOf(m[j].year))
      && m[j].costBasis == CostsOf(replay, b0, m[j].year)
      && Balanced(m[j])
    ensures var s := Summaries(m, years);
      && (forall i, j :: 0 <= i < j < |s| ==> s[i].year < s[j].year)
      && (forall y :: HasYear(s, y) <==> y in years)
      && forall j :: 0 <= j < |s| ==> SummaryFigures(txs, replay, b0, s[j])
  {
    forall j | 0 <= j < |m| ensures m[j].year in years {
      assert HasYear(m, m[j].year);
    }
    SummariesOfYearMap(m, years);
    var s := Summaries(m, years);
    forall j | 0 <= j < |s| ensures SummaryFigures(txs, replay, b0, s[j]) {
      var k :| 0 <= k < |m| && s[j] == Rounded(m[k]);
      RoundedFigures(txs, replay, b0, m[k]);
    }
  }

  /**
   * A summary's figures for the trades and their replay order: the total
   * quantity sold in its year to one decimal place, the rounded total
   * proceeds of those sales, the rounded cost basis they draw, the rounded
   * gain (proceeds less cost basis), which is within one of its rounded
   * proceeds less its rounded cost basis.
   */
  predicate SummaryFigures(txs: seq<Transaction>, replay: seq<Transaction>, b0: Book, s: SimpleSummary)
    requires NonZeroPurchases(replay)
  {
    && s.sellQuantity == RoundTenth(SumOf(txs, SoldQtyOf(s.year)))
    && s.proceeds == MathRound(SumOf(txs, SaleProceedsOf(s.year))) as real
    && s.costBasis == MathRound(CostsOf(replay, b0, s.year)) as real
    && s.realizedGain == MathRound(SumOf(txs, SaleProceedsOf(s.year)) - CostsOf(replay, b0, s.year)) as real
    && -1.0 <= s.realizedGain - (s.proceeds - s.costBasis) <= 1.0
  }

  lemma RoundedFigures(txs: seq<Transaction>, replay: seq<Transaction>, b0: Book, x: SimpleSummary)
    requires NonZeroPurchases(replay)
    requires x.sellQuantity == SumOf(txs, SoldQtyOf(x.year)) && x.proceeds == SumOf(txs, SaleProceedsOf(x.year))
    requires x.costBasis == CostsOf(replay, b0, x.year) && Balanced(x)
    ensures SummaryFigures(txs, replay, b0, Rounded(x))
  {
    RoundedGainClose(x);
  }

  /** Every sale is dated in one of `years`. */
  predicate SalesInYears(txs: seq<Transaction>, years: seq<int>)
  {
    forall i :: 0 <= i < |txs| && txs[i].activity == Sold ==>
      YearOf(txs[i].date).Some? && YearOf(txs[i].date).value in years
  }

  lemma SalesInYearsPermutation(a: seq<Transaction>, b: seq<Transaction>, years: seq<int>)
    requires multiset(a) == multiset(b) && SalesInYears(a, years)
    ensures SalesDatedIn(b, InitYearMap(years))
  {
    forall i | 0 <= i < |b| && b[i].activity == Sold
      ensures YearOf(b[i].date).Some? && HasYear(InitYearMap(years), YearOf(b[i].date).value)
    {
      assert b[i] in multiset(a);
    }
  }

  /**
   * The rest of a successful result: `years` is the requested years in
   * ascending order; the lots before rounding add up to the net quantity
   * traded; and, when every sale is dated in a requested year, the cost left
   * in the lots plus the cost basis charged to the years is exactly what the
   * purchases cost.
   */
  lemma CapitalGainsHoldings(input: SubmissionInput)
    requires NonZeroPurchases(input.transactions) && CapitalGainsOf(input).Success?
    ensures var res := CapitalGainsOf(input).value;
      Sorted(res.years, IntLe) && multiset(res.years) == multiset(input.years)
    ensures NonZeroPurchases(SortForReplay(input.transactions))
    ensures var b := Run(SortForReplay(input.transactions), Initial(input.years)).value;
      && TotalQty(b.lots) == SumOf(input.transactions, NetDelta)
      && (SalesInYears(input.transactions, input.years) ==>
            Value(b.lots) + Charged(b.yearMap) == SumOf(input.transactions, PurchaseCostOf))
  {
    var sorted := SortForReplay(input.transactions);
    var b0 := Initial(input.years);
    NonZeroPermutation(input.transactions, sorted);
    IntLeIsTotalPreorder();
    SortSorted(input.years, IntLe);
    RunLotsTotal(sorted, b0);
    SumOfPermutation(sorted, input.transactions, NetDelta);
    if SalesInYears(input.transactions, input.years) {
      SalesInYearsPermutation(input.transactions, sorted, input.years);
      assert Charged([]) == 0.0;
      ZeroCharged(InitYearMap(input.years));
      RunCostConserved(sorted, b0);
      SumOfPermutation(sorted, input.transactions, PurchaseCostOf);
    }
  }

  lemma {:induction false} ZeroCharged(m: seq<SimpleSummary>)
    requires forall j :: 0 <= j < |m| ==> m[j] == ZeroSummary(m[j].year)
    ensures Charged(m) == 0.0
  {
    if m != [] {
      assert m[0] == ZeroSummary(m[0].year);
      ZeroCharged(m[1..]);
    }
  }

  /**
   * The calculation fails exactly when, in replay order, some sale exceeds
   * what the trades before it left, and then with the first such sale's
   * over-sell error.
   */
  lemma CapitalGainsFailure(input: SubmissionInput)
    requires NonZeroPurchases(input.transactions)
    ensures var sorted := SortForReplay(input.transactions);
      && (CapitalGainsOf(input).Failure? <==> exists i :: Oversells(sorted, 0.0, i))
      && (CapitalGainsOf(input).Failure? ==>
            exists i :: Oversells(sorted, 0.0, i) && (forall j :: 0 <= j < i ==> !Oversells(sorted, 0.0, j))
              && CapitalGainsOf(input).error == OversellError(sorted[i].date))
  {
    var sorted := SortForReplay(input.transactions);
    NonZeroPermutation(input.transactions, sorted);
    assert TotalQty(Initial(input.years).lots) == 0.0;
    RunFailure(sorted, Initial(input.years));
    CapitalGainsOfFailed(input);
  }

  /** The calculation fails exactly when its replay does, with the replay's error. */
  lemma CapitalGainsOfFailed(input: SubmissionInput)
    requires NonZeroPurchases(input.transactions) && NonZeroPurchases(SortForReplay(input.transactions))
    ensures CapitalGainsOf(input).Failure? <==> Run(SortForReplay(input.transactions), Initial(input.years)).Failure?
    ensures CapitalGainsOf(input).Failure? ==>
              CapitalGainsOf(input).error == Run(SortForReplay(input.transactions), Initial(input.years)).error
  {
  }

  // ---------------------------------------------------------- sale sign

  /** Two sales that differ at most in the sign of their quantity have the same effect. */
  lemma SaleIgnoresSign(b: Book, x: Transaction, y: Transaction)
    requires x.date == y.date && x.price == y.price && x.commission == y.commission
    requires Abs(x.quantity) == Abs(y.quantity)
    ensures Sale(b, x) == Sale(b, y)
  {
    assert SaleProceeds(x) == SaleProceeds(y);
  }

  /** The sign of a sale's quantity does not matter to the replay. */
  lemma {:induction false} RunNormalised(txs: seq<Transaction>, b0: Book)
    requires NonZeroPurchases(txs)
    ensures NonZeroPurchases(MapSeq(txs, NormaliseSale))
    ensures Run(MapSeq(txs, NormaliseSale), b0) == Run(txs, b0)
  {
    var n := MapSeq(txs, NormaliseSale);
    if txs != [] {
      var init, last := txs[..|txs| - 1], txs[|txs| - 1];
      NonZeroPrefix(txs, |txs| - 1);
      assert n[..|n| - 1] == MapSeq(init, NormaliseSale);
      RunNormalised(init, b0);
      if Run(init, b0).Success? && last.activity == Sold {
        SaleIgnoresSign(Run(init, b0).value, NormaliseSale(last), last);
      }
    }
  }

  /**
   * Negating the positive quantities of sales before the calculation, as the
   * submission handler does, leaves the result unchanged.
   */
  lemma CapitalGainsOfNormalised(input: SubmissionInput)
    requires NonZeroPurchases(input.transactions)
    ensures NonZeroPurchases(MapSeq(input.transactions, NormaliseSale))
    ensures CapitalGainsOf(input.(transactions := MapSeq(input.transactions, NormaliseSale))) == CapitalGainsOf(input)
  {
    var sorted := SortForReplay(input.transactions);
    RunNormalised(input.transactions, Initial(input.years));
    NonZeroPermutation(input.transactions, sorted);
    SortForReplayNormalised(input.transactions);
    RunNormalised(sorted, Initial(input.years));
  }

  // ---------------------------------------------------------- worked cases

  /** Two trades already in replay order stay in that order. */
  lemma InitialOneYear(y: int)
    ensures Initial([y]) == Book([], [ZeroSummary(y)])
  {
    assert [y][..0] == [];
    assert InitYearMap([]) == [];
    assert !HasYear([], y);
    assert InitYearMap([y]) == [] + [ZeroSummary(y)];
  }

  lemma OneStep(tx: Transaction, b0: Book)
    requires tx.activity == Purchased ==> tx.quantity != 0.0
    ensures Run([tx], b0) == Step(b0, tx)
  {
    assert [tx][..0] == [];
  }

  /** A single requested summary is reported rounded. */
  lemma OneSummary(s: SimpleSummary, years: seq<int>)
    requires s.year in years
    ensures Summaries([s], years) == [Rounded(s)]
  {
    assert [s][..0] == [];
    assert KeepRequested([s], years) == [s];
  }

  /**
   * Selling exactly what a single purchase bought charges the purchase's
   * whole cost, quantity times price plus commission, and empties the lots.
   */
  lemma BuyThenSellAll(buy: Transaction, sell: Transaction, y: int)
    requires buy.activity == Purchased && buy.quantity > 0.0
    requires sell.activity == Sold && Abs(sell.quantity) == buy.quantity && YearOf(sell.date) == Some(y)
    ensures Run([buy, sell], Initial([y]))
            == Success(Book([], [SimpleSummary(y, buy.quantity, SaleProceeds(sell), PurchaseCostOf(buy),
                                              SaleProceeds(sell) - PurchaseCostOf(buy))]))
  {
    InitialOneYear(y);
    var txs := [buy, sell];
    assert txs[..1] == [buy] && [buy][..0] == [];
    var lot := FifoLot(buy.date, buy.quantity, PurchaseUnitCost(buy));
    OneStep(buy, Initial([y]));
    assert Step(Initial([y]), buy) == Success(Purchase(Initial([y]), buy));
    assert Purchase(Initial([y]), buy) == Book([] + [lot], [ZeroSummary(y)]);
    assert [] + [lot] == [lot];
    assert Run([buy], Initial([y])) == Success(Book([lot], [ZeroSummary(y)]));
    PurchaseLotValue(buy);
    assert FifoCost([lot], buy.quantity) == buy.quantity * lot.unitCost;
    assert ConsumeLots([lot], buy.quantity) == [];
    assert TotalQty([lot]) == buy.quantity;
    var cost := PurchaseCostOf(buy);
    assert FifoCost([lot], Abs(sell.quantity)) == cost;
    assert CreditYear([ZeroSummary(y)], Some(y), buy.quantity, SaleProceeds(sell), cost)
           == [SimpleSummary(y, buy.quantity, SaleProceeds(sell), cost, SaleProceeds(sell) - cost)];
    assert Run(txs, Initial([y])) == Sale(Book([lot], [ZeroSummary(y)]), sell);
    assert Sale(Book([lot], [ZeroSummary(y)]), sell)
           == Success(Book([], [SimpleSummary(y, buy.quantity, SaleProceeds(sell), cost, SaleProceeds(sell) - cost)]));
  }

  /** Buying `q` and then selling more than `q` fails with the sale's over-sell error. */
  lemma BuyThenOversell(buy: Transaction, sell: Transaction, y: int)
    requires buy.activity == Purchased && buy.quantity > 0.0
    requires sell.activity == Sold && Abs(sell.quantity) > buy.quantity
    ensures Run([buy, sell], Initial([y])) == Failure(OversellError(sell.date))
  {
    InitialOneYear(y);
    var txs := [buy, sell];
    assert txs[..1] == [buy];
    var lot := FifoLot(buy.date, buy.quantity, PurchaseUnitCost(buy));
    OneStep(buy, Initial([y]));
    assert Purchase(Initial([y]), buy) == Book([] + [lot], [ZeroSummary(y)]);
    assert [] + [lot] == [lot];
    assert TotalQty([lot]) == buy.quantity;
    assert Run(txs, Initial([y])) == Sale(Book([lot], [ZeroSummary(y)]), sell);
  }

  /** The result of a calculation whose replay succeeds. */
  lemma CapitalGainsOfRun(input: SubmissionInput, b: Book)
    requires NonZeroPurchases(input.transactions) && NonZeroPurchases(SortForReplay(input.transactions))
    requires Run(SortForReplay(input.transactions), Initial(input.years)) == Success(b)
    ensures CapitalGainsOf(input) == Success(SimpleResult(input.currency, input.symbol, Sort(input.years, IntLe),
                                                          Summaries(b.yearMap, input.years), FinalHoldings(b.lots)))
  {
  }

  /** Test A: 100 bought at 150 with commission 10, all sold at 180 with commission 5. */
  lemma SimpleRoundTrip()
    ensures CapitalGainsOf(SubmissionInput("test@example.com", USD, "TEST", [2024],
              [Transaction("2024-01-10", Purchased, 100.0, 150.0, Some(10.0)),
               Transaction("2024-06-15", Sold, 100.0, 180.0, Some(5.0))]))
            == Success(SimpleResult(USD, "TEST", [2024], [SimpleSummary(2024, 100.0, 17995.0, 15010.0, 2985.0)], []))
  {
    StrLeAt("2024-01-10", "2024-06-15", 6);
    assert "2024-06-15"[..4] == "2024";
    YearOf2024("2024-06-15");
    var buy := Transaction("2024-01-10", Purchased, 100.0, 150.0, Some(10.0));
    var sell := Transaction("2024-06-15", Sold, 100.0, 180.0, Some(5.0));
    SellAllFrom(SubmissionInput("test@example.com", USD, "TEST", [2024], [buy, sell]), buy, sell, 2024);
    assert SaleProceeds(sell) == 17995.0 && PurchaseCostOf(buy) == 15010.0;
    RoundedWhole(2024, 100, 17995, 15010, 2985);
  }

  /** Test E: the sale's commission of 50 is deducted once, from the proceeds only. */
  lemma CommissionOnce()
    ensures CapitalGainsOf(SubmissionInput("test@example.com", USD, "TEST", [2024],
              [Transaction("2024-01-10", Purchased, 100.0, 100.0, Some(0.0)),
               Transaction("2024-06-15", Sold, 100.0, 150.0, Some(50.0))]))
            == Success(SimpleResult(USD, "TEST", [2024], [SimpleSummary(2024, 100.0, 14950.0, 10000.0, 4950.0)], []))
  {
    StrLeAt("2024-01-10", "2024-06-15", 6);
    assert "2024-06-15"[..4] == "2024";
    YearOf2024("2024-06-15");
    var buy := Transaction("2024-01-10", Purchased, 100.0, 100.0, Some(0.0));
    var sell := Transaction("2024-06-15", Sold, 100.0, 150.0, Some(50.0));
    SellAllFrom(SubmissionInput("test@example.com", USD, "TEST", [2024], [buy, sell]), buy, sell, 2024);
    assert SaleProceeds(sell) == 14950.0 && PurchaseCostOf(buy) == 10000.0;
    RoundedWhole(2024, 100, 14950, 10000, 4950);
  }

  /** A submission of one purchase and the sale of all of it, in a requested year, has one summary and no lots left. */
  lemma SellAllFrom(input: SubmissionInput, buy: Transaction, sell: Transaction, y: int)
    requires input.years == [y] && input.transactions == [buy, sell]
    requires buy.activity == Purchased && buy.quantity > 0.0
    requires sell.activity == Sold && Abs(sell.quantity) == buy.quantity && YearOf(sell.date) == Some(y)
    requires StrLe(buy.date, sell.date) && buy.date != sell.date
    ensures NonZeroPurchases(input.transactions)
    ensures CapitalGainsOf(input)
            == Success(SimpleResult(input.currency, input.symbol, [y],
                 [Rounded(SimpleSummary(y, buy.quantity, SaleProceeds(sell), PurchaseCostOf(buy), SaleProceeds(sell) - PurchaseCostOf(buy)))], []))
  {
    var s := SimpleSummary(y, buy.quantity, SaleProceeds(sell), PurchaseCostOf(buy), SaleProceeds(sell) - PurchaseCostOf(buy));
    SellAllRun(input, buy, sell, y);
    CapitalGainsOfRun(input, Book([], [s]));
    OneYearResult(s, y);
  }

  lemma SellAllRun(input: SubmissionInput, buy: Transaction, sell: Transaction, y: int)
    requires input.years == [y] && input.transactions == [buy, sell]
    requires buy.activity == Purchased && buy.quantity > 0.0
    requires sell.activity == Sold && Abs(sell.quantity) == buy.quantity && YearOf(sell.date) == Some(y)
    requires StrLe(buy.date, sell.date) && buy.date != sell.date
    ensures NonZeroPurchases(input.transactions) && NonZeroPurchases(SortForReplay(input.transactions))
    ensures Run(SortForReplay(input.transactions), Initial(input.years))
            == Success(Book([], [SimpleSummary(y, buy.quantity, SaleProceeds(sell), PurchaseCostOf(buy), SaleProceeds(sell) - PurchaseCostOf(buy))]))
  {
    SortTwoInOrder(buy, sell);
    BuyThenSellAll(buy, sell, y);
  }

  lemma OneYearResult(s: SimpleSummary, y: int)
    requires s.year == y
    ensures Sort([y], IntLe) == [y] && Summaries([s], [y]) == [Rounded(s)] && FinalHoldings([]) == []
  {
    assert [y][..0] == [];
    OneSummary(s, [y]);
  }

  /** A summary of whole figures is reported as it is. */
  lemma RoundedWhole(y: int, q: int, p: int, c: int, g: int)
    ensures Rounded(SimpleSummary(y, q as real, p as real, c as real, g as real)) == SimpleSummary(y, q as real, p as real, c as real, g as real)
  {
    RoundTenthWhole(q);
    MathRoundWhole(p);
    MathRoundWhole(c);
    MathRoundWhole(g);
  }

  /** Test D: selling 150 out of 100 held fails with the over-sell error of the sale's date. */
  lemma OversellScenario()
    ensures CapitalGainsOf(SubmissionInput("test@example.com", USD, "TEST", [2024],
              [Transaction("2024-01-10", Purchased, 100.0, 100.0, Some(0.0)),
               Transaction("2024-06-15", Sold, 150.0, 150.0, Some(0.0))]))
            == Failure(OversellError("2024-06-15"))
  {
    StrLeAt("2024-01-10", "2024-06-15", 6);
    var buy := Transaction("2024-01-10", Purchased, 100.0, 100.0, Some(0.0));
    var sell := Transaction("2024-06-15", Sold, 150.0, 150.0, Some(0.0));
    OversellFrom(SubmissionInput("test@example.com", USD, "TEST", [2024], [buy, sell]), buy, sell);
  }

  lemma OversellFrom(input: SubmissionInput, buy: Transaction, sell: Transaction)
    requires input.years == [2024] && input.transactions == [buy, sell]
    requires buy.activity == Purchased && buy.quantity > 0.0
    requires sell.activity == Sold && Abs(sell.quantity) > buy.quantity
    requires StrLe(buy.date, sell.date) && buy.date != sell.date
    ensures NonZeroPurchases(input.transactions)
    ensures CapitalGainsOf(input) == Failure(OversellError(sell.date))
  {
    SortTwoInOrder(buy, sell);
    BuyThenOversell(buy, sell, 2024);
  }

  /** Two purchases in a row become two lots, in purchase order. */
  lemma TwoPurchases(b1: Transaction, b2: Transaction, y: int)
    requires b1.activity == Purchased && b1.quantity > 0.0 && b2.activity == Purchased && b2.quantity > 0.0
    ensures Run([b1, b2], Initial([y]))
            == Success(Book([FifoLot(b1.date, b1.quantity, PurchaseUnitCost(b1)), FifoLot(b2.date, b2.quantity, PurchaseUnitCost(b2))],
                            [ZeroSummary(y)]))
  {
    InitialOneYear(y);
    var l1 := FifoLot(b1.date, b1.quantity, PurchaseUnitCost(b1));
    var z := [ZeroSummary(y)];
    OneStep(b1, Initial([y]));
    assert Purchase(Initial([y]), b1) == Book([] + [l1], z);
    assert [] + [l1] == [l1];
    assert [b1, b2][..1] == [b1];
    assert Run([b1, b2], Initial([y])) == Step(Book([l1], z), b2);
    assert Step(Book([l1], z), b2) == Success(Purchase(Book([l1], z), b2));
    var l2 := FifoLot(b2.date, b2.quantity, PurchaseUnitCost(b2));
    assert Purchase(Book([l1], z), b2) == Book([l1] + [l2], z);
    assert [l1] + [l2] == [l1, l2];
  }

  /**
   * Two purchases and a sale of more than the first and less than both: the
   * first lot is used up, the rest of the cost comes from the second lot at
   * its unit cost, and what is left of the second lot stays.
   */
  lemma BuyTwiceSellPart(b1: Transaction, b2: Transaction, sell: Transaction, y: int)
    requires b1.activity == Purchased && b1.quantity > 0.0 && b2.activity == Purchased && b2.quantity > 0.0
    requires sell.activity == Sold && b1.quantity < Abs(sell.quantity) < b1.quantity + b2.quantity
    requires YearOf(sell.date) == Some(y)
    ensures NonZeroPurchases([b1, b2, sell])
    ensures Run([b1, b2, sell], Initial([y]))
            == Success(Book([FifoLot(b2.date, b1.quantity + b2.quantity - Abs(sell.quantity), PurchaseUnitCost(b2))],
                            [Credited(ZeroSummary(y), Abs(sell.quantity), SaleProceeds(sell),
                                      PurchaseCostOf(b1) + (Abs(sell.quantity) - b1.quantity) * PurchaseUnitCost(b2))]))
  {
    var l1 := FifoLot(b1.date, b1.quantity, PurchaseUnitCost(b1));
    var l2 := FifoLot(b2.date, b2.quantity, PurchaseUnitCost(b2));
    var z := [ZeroSummary(y)];
    TwoPurchases(b1, b2, y);
    assert [b1, b2, sell][..2] == [b1, b2];
    assert Run([b1, b2, sell], Initial([y])) == Sale(Book([l1, l2], z), sell);
    var q := Abs(sell.quantity);
    var r := q - b1.quantity;
    PurchaseLotValue(b1);
    var cost := PurchaseCostOf(b1) + r * l2.unitCost;
    TwoLotsPartly(l1, l2, q);
    assert FifoCost([l1, l2], q) == cost;
    var c := Credited(ZeroSummary(y), q, SaleProceeds(sell), cost);
    var lot := FifoLot(b2.date, b1.quantity + b2.quantity - q, PurchaseUnitCost(b2));
    assert CreditYear(z, Some(y), q, SaleProceeds(sell), cost) == [c];
    assert Sale(Book([l1, l2], z), sell) == Success(Book([lot], [c]));
    assert Run([b1, b2, sell], Initial([y])) == Success(Book([lot], [c]));
    assert c == Credited(ZeroSummary(y), Abs(sell.quantity), SaleProceeds(sell),
                         PurchaseCostOf(b1) + (Abs(sell.quantity) - b1.quantity) * PurchaseUnitCost(b2));
    assert lot == FifoLot(b2.date, b1.quantity + b2.quantity - Abs(sell.quantity), PurchaseUnitCost(b2));
  }

  /** Taking `q` from two lots, more than the first holds and less than both: the first is emptied, the second shrinks. */
  lemma TwoLotsPartly(l1: FifoLot, l2: FifoLot, q: real)
    requires 0.0 < l1.quantity < q < l1.quantity + l2.quantity
    ensures TotalQty([l1, l2]) == l1.quantity + l2.quantity
    ensures FifoCost([l1, l2], q) == l1.quantity * l1.unitCost + (q - l1.quantity) * l2.unitCost
    ensures ConsumeLots([l1, l2], q) == [l2.(quantity := l1.quantity + l2.quantity - q)]
  {
    var r := q - l1.quantity;
    assert [l1, l2][1..] == [l2] && [l2][1..] == [];
    assert TotalQty([l2]) == l2.quantity;
    assert FifoCost([l2], r) == r * l2.unitCost + FifoCost([], 0.0);
    assert ConsumeLots([l2], r) == [l2.(quantity := l2.quantity - r)] + [];
  }

  /** A submission of two earlier purchases and a sale of part of them. */
  lemma PartialSaleFrom(input: SubmissionInput, b1: Transaction, b2: Transaction, sell: Transaction, y: int)
    requires input.years == [y] && input.transactions == [b1, b2, sell]
    requires b1.activity == Purchased && b1.quantity > 0.0 && b2.activity == Purchased && b2.quantity > 0.0
    requires sell.activity == Sold && b1.quantity < Abs(sell.quantity) < b1.quantity + b2.quantity
    requires YearOf(sell.date) == Some(y)
    requires StrLe(b1.date, b2.date) && b1.date != b2.date && StrLe(b2.date, sell.date) && b2.date != sell.date
    ensures NonZeroPurchases(input.transactions)
    ensures CapitalGainsOf(input)
            == Success(SimpleResult(input.currency, input.symbol, [y],
                 [Rounded(Credited(ZeroSummary(y), Abs(sell.quantity), SaleProceeds(sell),
                                   PurchaseCostOf(b1) + (Abs(sell.quantity) - b1.quantity) * PurchaseUnitCost(b2)))],
                 [SimpleHolding(b2.date, RoundTenth(b1.quantity + b2.quantity - Abs(sell.quantity)), RoundTenth(PurchaseUnitCost(b2)))]))
  {
    var s := Credited(ZeroSummary(y), Abs(sell.quantity), SaleProceeds(sell),
                      PurchaseCostOf(b1) + (Abs(sell.quantity) - b1.quantity) * PurchaseUnitCost(b2));
    var lot := FifoLot(b2.date, b1.quantity + b2.quantity - Abs(sell.quantity), PurchaseUnitCost(b2));
    PartialSaleRun(input, b1, b2, sell, y);
    CapitalGainsOfRun(input, Book([lot], [s]));
    OneYearResult(s, y);
    OneHolding(lot);
  }

  lemma OneHolding(lot: FifoLot)
    ensures FinalHoldings([lot]) == [SimpleHolding(lot.date, RoundTenth(lot.quantity), RoundTenth(lot.unitCost))]
  {
  }

  lemma PartialSaleRun(input: SubmissionInput, b1: Transaction, b2: Transaction, sell: Transaction, y: int)
    requires input.years == [y] && input.transactions == [b1, b2, sell]
    requires b1.activity == Purchased && b1.quantity > 0.0 && b2.activity == Purchased && b2.quantity > 0.0
    requires sell.activity == Sold && b1.quantity < Abs(sell.quantity) < b1.quantity + b2.quantity
    requires YearOf(sell.date) == Some(y)
    requires StrLe(b1.date, b2.date) && b1.date != b2.date && StrLe(b2.date, sell.date) && b2.date != sell.date
    ensures NonZeroPurchases(input.transactions) && NonZeroPurchases(SortForReplay(input.transactions))
    ensures Run(SortForReplay(input.transactions), Initial(input.years))
            == Success(Book([FifoLot(b2.date, b1.quantity + b2.quantity - Abs(sell.quantity), PurchaseUnitCost(b2))],
                            [Credited(ZeroSummary(y), Abs(sell.quantity), SaleProceeds(sell),
                                      PurchaseCostOf(b1) + (Abs(sell.quantity) - b1.quantity) * PurchaseUnitCost(b2))]))
  {
    SortThreeInOrder(b1, b2, sell);
    BuyTwiceSellPart(b1, b2, sell, y);
  }

  /** The unit cost of a purchase is the `u` whose multiple by the quantity is the total cost. */
  lemma UnitCostIs(tx: Transaction, u: real)
    requires tx.quantity != 0.0 && tx.quantity * u == tx.quantity * tx.price + CommissionOrZero(tx)
    ensures PurchaseUnitCost(tx) == u
  {
    PurchaseLotValue(tx);
  }

  /** The figures of test B: what the general two-lot result comes to for its numbers. */
  lemma PartialFigures(b1: Transaction, b2: Transaction, sell: Transaction)
    requires b1.quantity == 100.0 && b1.price == 100.0 && b1.commission == Some(10.0) && b1.activity == Purchased
    requires b2.quantity == 100.0 && b2.price == 120.0 && b2.commission == Some(10.0) && b2.date == "2024-02-15"
    requires sell.quantity == 150.0 && sell.price == 150.0 && sell.commission == Some(15.0)
    ensures Rounded(Credited(ZeroSummary(2024), Abs(sell.quantity), SaleProceeds(sell),
                             PurchaseCostOf(b1) + (Abs(sell.quantity) - b1.quantity) * PurchaseUnitCost(b2)))
            == SimpleSummary(2024, 150.0, 22485.0, 16015.0, 6470.0)
    ensures SimpleHolding(b2.date, RoundTenth(b1.quantity + b2.quantity - Abs(sell.quantity)), RoundTenth(PurchaseUnitCost(b2)))
            == SimpleHolding("2024-02-15", 50.0, 120.1)
  {
    UnitCostIs(b2, 120.1);
    assert SaleProceeds(sell) == 22485.0;
    assert PurchaseCostOf(b1) == 10010.0;
    RoundedWhole(2024, 150, 22485, 16015, 6470);
    RoundTenthWhole(50);
    RoundTenthTenths(1201);
  }

  /** The dates of test B are in replay order and the sale is dated in 2024. */
  lemma PartialDates()
    ensures StrLe("2024-01-10", "2024-02-15") && StrLe("2024-02-15", "2024-06-20") && YearOf("2024-06-20") == Some(2024)
  {
    StrLeAt("2024-01-10", "2024-02-15", 6);
    StrLeAt("2024-02-15", "2024-06-20", 6);
    YearOf2024("2024-06-20");
  }

  /** Test B: lots of 100 at 100.1 and 100 at 120.1; selling 150 charges 100 x 100.1 + 50 x 120.1 and leaves 50 at 120.1. */
  lemma PartialFifoSale()
    ensures CapitalGainsOf(SubmissionInput("test@example.com", USD, "TEST", [2024],
              [Transaction("2024-01-10", Purchased, 100.0, 100.0, Some(10.0)),
               Transaction("2024-02-15", Purchased, 100.0, 120.0, Some(10.0)),
               Transaction("2024-06-20", Sold, 150.0, 150.0, Some(15.0))]))
            == Success(SimpleResult(USD, "TEST", [2024], [SimpleSummary(2024, 150.0, 22485.0, 16015.0, 6470.0)],
                                    [SimpleHolding("2024-02-15", 50.0, 120.1)]))
  {
    var b1 := Transaction("2024-01-10", Purchased, 100.0, 100.0, Some(10.0));
    var b2 := Transaction("2024-02-15", Purchased, 100.0, 120.0, Some(10.0));
    var sell := Transaction("2024-06-20", Sold, 150.0, 150.0, Some(15.0));
    PartialDates();
    PartialFigures(b1, b2, sell);
    PartialSaleFrom(SubmissionInput("test@example.com", USD, "TEST", [2024], [b1, b2, sell]), b1, b2, sell, 2024);
  }

  // Test C: one purchase sold in two halves, in two requested years.

  /** Two distinct requested years start as two zero summaries, in the order asked. */
  lemma InitialTwoYears(y1: int, y2: int)
    requires y1 != y2
    ensures Initial([y1, y2]) == Book([], [ZeroSummary(y1), ZeroSummary(y2)])
  {
    assert [y1, y2][..1] == [y1];
    InitialOneYear(y1);
    assert !HasYear([ZeroSummary(y1)], y2);
    assert InitYearMap([y1, y2]) == [ZeroSummary(y1)] + [ZeroSummary(y2)];
  }

  /** Taking less than a single lot holds: that many shares at its unit cost, the rest of the lot left. */
  lemma OneLotPart(l: FifoLot, q: real)
    requires 0.0 < q < l.quantity
    ensures TotalQty([l]) == l.quantity && FifoCost([l], q) == q * l.unitCost
    ensures ConsumeLots([l], q) == [FifoLot(l.date, l.quantity - q, l.unitCost)]
  {
    assert [l][1..] == [];
  }

  /** Taking all of a single lot: its whole value, and nothing left. */
  lemma OneLotAll(l: FifoLot)
    requires l.quantity > 0.0
    ensures TotalQty([l]) == l.quantity && FifoCost([l], l.quantity) == l.quantity * l.unitCost
    ensures ConsumeLots([l], l.quantity) == []
  {
    assert [l][1..] == [];
  }

  /** Selling part of a single lot in the first of two requested years. */
  lemma FirstPartSold(l: FifoLot, s1: Transaction, a: real, y1: int, y2: int)
    requires s1.activity == Sold && a == Abs(s1.quantity) && 0.0 < a < l.quantity && YearOf(s1.date) == Some(y1) && y1 != y2
    ensures Sale(Book([l], [ZeroSummary(y1), ZeroSummary(y2)]), s1)
            == Success(Book([FifoLot(l.date, l.quantity - a, l.unitCost)],
                            [Credited(ZeroSummary(y1), a, SaleProceeds(s1), a * l.unitCost), ZeroSummary(y2)]))
  {
    var z := [ZeroSummary(y1), ZeroSummary(y2)];
    OneLotPart(l, a);
    assert CreditYear(z, Some(y1), a, SaleProceeds(s1), a * l.unitCost)
           == [Credited(ZeroSummary(y1), a, SaleProceeds(s1), a * l.unitCost), ZeroSummary(y2)];
  }

  /** Selling all of a single lot in the second of two requested years. */
  lemma LastPartSold(l: FifoLot, s2: Transaction, b: real, c1: SimpleSummary, y2: int)
    requires s2.activity == Sold && b == Abs(s2.quantity) && 0.0 < b == l.quantity && YearOf(s2.date) == Some(y2) && c1.year != y2
    ensures Sale(Book([l], [c1, ZeroSummary(y2)]), s2)
            == Success(Book([], [c1, Credited(ZeroSummary(y2), b, SaleProceeds(s2), b * l.unitCost)]))
  {
    var m := [c1, ZeroSummary(y2)];
    OneLotAll(l);
    assert FifoCost([l], b) == b * l.unitCost && ConsumeLots([l], b) == [];
    assert !(b > TotalQty([l]));
    assert CreditYear(m, Some(y2), b, SaleProceeds(s2), b * l.unitCost)
           == [c1, Credited(ZeroSummary(y2), b, SaleProceeds(s2), b * l.unitCost)];
  }

  /**
   * One purchase sold in two parts dated in two different requested years:
   * each year is credited with its own sale, charged at the purchase's unit
   * cost, and no lot is left.
   */
  lemma SellInTwoYears(buy: Transaction, s1: Transaction, s2: Transaction, a: real, b: real, u: real, y1: int, y2: int)
    requires buy.activity == Purchased && buy.quantity > 0.0 && u == PurchaseUnitCost(buy)
    requires s1.activity == Sold && s2.activity == Sold && y1 != y2
    requires a == Abs(s1.quantity) && b == Abs(s2.quantity) && 0.0 < a && 0.0 < b && a + b == buy.quantity
    requires YearOf(s1.date) == Some(y1) && YearOf(s2.date) == Some(y2)
    ensures NonZeroPurchases([buy, s1, s2])
    ensures Run([buy, s1, s2], Initial([y1, y2]))
            == Success(Book([], [Credited(ZeroSummary(y1), a, SaleProceeds(s1), a * u),
                                 Credited(ZeroSummary(y2), b, SaleProceeds(s2), b * u)]))
  {
    InitialTwoYears(y1, y2);
    var z := [ZeroSummary(y1), ZeroSummary(y2)];
    var l := FifoLot(buy.date, buy.quantity, u);
    OneStep(buy, Initial([y1, y2]));
    assert Purchase(Initial([y1, y2]), buy) == Book([] + [l], z);
    assert [] + [l] == [l];
    assert [buy, s1][..1] == [buy];
    assert Run([buy, s1], Initial([y1, y2])) == Sale(Book([l], z), s1);
    var c1 := Credited(ZeroSummary(y1), a, SaleProceeds(s1), a * u);
    var rest := FifoLot(buy.date, b, u);
    FirstPartSold(l, s1, a, y1, y2);
    assert l.quantity - a == b;
    assert Sale(Book([l], z), s1) == Success(Book([FifoLot(l.date, l.quantity - a, l.unitCost)],
                                                  [Credited(ZeroSummary(y1), a, SaleProceeds(s1), a * l.unitCost), ZeroSummary(y2)]));
    assert FifoLot(l.date, l.quantity - a, l.unitCost) == rest;
    assert Credited(ZeroSummary(y1), a, SaleProceeds(s1), a * l.unitCost) == c1;
    assert Run([buy, s1], Initial([y1, y2])) == Success(Book([rest], [c1, ZeroSummary(y2)]));
    assert [buy, s1, s2][..2] == [buy, s1];
    assert Run([buy, s1, s2], Initial([y1, y2])) == Sale(Book([rest], [c1, ZeroSummary(y2)]), s2);
    LastPartSold(rest, s2, b, c1, y2);
    var c2 := Credited(ZeroSummary(y2), b, SaleProceeds(s2), b * u);
    assert rest.unitCost == u && c2 == Credited(ZeroSummary(y2), b, SaleProceeds(s2), b * rest.unitCost);
    assert Sale(Book([rest], [c1, ZeroSummary(y2)]), s2) == Success(Book([], [c1, c2]));
    assert Run([buy, s1, s2], Initial([y1, y2])) == Success(Book([], [c1, c2]));
  }

  /** Two requested years, earlier first, stay in that order. */
  lemma TwoYearsSorted(y1: int, y2: int)
    requires y1 < y2
    ensures Sort([y1, y2], IntLe) == [y1, y2]
  {
    assert [y1, y2][..1] == [y1] && [y1][..0] == [];
  }

  /** Two summaries of requested years are both kept, in their order. */
  lemma KeepTwo(c1: SimpleSummary, c2: SimpleSummary, years: seq<int>)
    requires c1.year in years && c2.year in years
    ensures KeepRequested([c1, c2], years) == [c1, c2]
  {
    assert [c1, c2][..1] == [c1] && [c1][..0] == [];
    assert KeepRequested([c1], years) == [] + [c1] == [c1];
    assert KeepRequested([c1, c2], years) == [c1] + [c2];
  }

  /** Two summaries, earlier year first, stay in that order. */
  lemma SortTwo(c1: SimpleSummary, c2: SimpleSummary)
    requires c1.year < c2.year
    ensures Sort([c1, c2], YearLe) == [c1, c2]
  {
    assert [c1, c2][..1] == [c1] && [c1][..0] == [];
  }

  /** Two summaries of requested years, earlier first, are reported rounded in that order. */
  lemma TwoSummaries(c1: SimpleSummary, c2: SimpleSummary, years: seq<int>)
    requires c1.year in years && c2.year in years && c1.year < c2.year
    ensures Summaries([c1, c2], years) == [Rounded(c1), Rounded(c2)]
  {
    KeepTwo(c1, c2, years);
    SortTwo(c1, c2);
  }

  lemma TwoYearsRun(input: SubmissionInput, buy: Transaction, s1: Transaction, s2: Transaction,
                    a: real, b: real, u: real, y1: int, y2: int)
    requires input.years == [y1, y2] && input.transactions == [buy, s1, s2] && y1 != y2
    requires buy.activity == Purchased && buy.quantity > 0.0 && u == PurchaseUnitCost(buy)
    requires s1.activity == Sold && s2.activity == Sold
    requires a == Abs(s1.quantity) && b == Abs(s2.quantity) && 0.0 < a && 0.0 < b && a + b == buy.quantity
    requires YearOf(s1.date) == Some(y1) && YearOf(s2.date) == Some(y2)
    requires StrLe(buy.date, s1.date) && buy.date != s1.date && StrLe(s1.date, s2.date) && s1.date != s2.date
    ensures NonZeroPurchases(input.transactions) && NonZeroPurchases(SortForReplay(input.transactions))
    ensures Run(SortForReplay(input.transactions), Initial(input.years))
            == Success(Book([], [Credited(ZeroSummary(y1), a, SaleProceeds(s1), a * u),
                                 Credited(ZeroSummary(y2), b, SaleProceeds(s2), b * u)]))
  {
    SortThreeInOrder(buy, s1, s2);
    SellInTwoYears(buy, s1, s2, a, b, u, y1, y2);
  }

  /** A submission of one purchase sold in two parts in two requested years, the earlier year first. */
  lemma TwoYearsFrom(input: SubmissionInput, buy: Transaction, s1: Transaction, s2: Transaction,
                     a: real, b: real, u: real, c1: SimpleSummary, c2: SimpleSummary, y1: int, y2: int)
    requires input.years == [y1, y2] && input.transactions == [buy, s1, s2] && y1 < y2
    requires buy.activity == Purchased && buy.quantity > 0.0 && u == PurchaseUnitCost(buy)
    requires s1.activity == Sold && s2.activity == Sold
    requires a == Abs(s1.quantity) && b == Abs(s2.quantity) && 0.0 < a && 0.0 < b && a + b == buy.quantity
    requires YearOf(s1.date) == Some(y1) && YearOf(s2.date) == Some(y2)
    requires StrLe(buy.date, s1.date) && buy.date != s1.date && StrLe(s1.date, s2.date) && s1.date != s2.date
    requires c1 == Credited(ZeroSummary(y1), a, SaleProceeds(s1), a * u)
    requires c2 == Credited(ZeroSummary(y2), b, SaleProceeds(s2), b * u)
    ensures NonZeroPurchases(input.transactions)
    ensures CapitalGainsOf(input)
            == Success(SimpleResult(input.currency, input.symbol, [y1, y2], [Rounded(c1), Rounded(c2)], []))
  {
    TwoYearsRun(input, buy, s1, s2, a, b, u, y1, y2);
    TwoYearsResult(input, c1, c2, y1, y2);
  }

  /** A replay that ends with no lots and two summaries of the two requested years, earlier first. */
  lemma TwoYearsResult(input: SubmissionInput, c1: SimpleSummary, c2: SimpleSummary, y1: int, y2: int)
    requires input.years == [y1, y2] && c1.year == y1 && c2.year == y2 && y1 < y2
    requires NonZeroPurchases(input.transactions) && NonZeroPurchases(SortForReplay(input.transactions))
    requires Run(SortForReplay(input.transactions), Initial(input.years)) == Success(Book([], [c1, c2]))
    ensures CapitalGainsOf(input)
            == Success(SimpleResult(input.currency, input.symbol, [y1, y2], [Rounded(c1), Rounded(c2)], []))
  {
    CapitalGainsOfRun(input, Book([], [c1, c2]));
    TwoYearsOut(c1, c2, y1, y2);
  }

  lemma TwoYearsOut(c1: SimpleSummary, c2: SimpleSummary, y1: int, y2: int)
    requires c1.year == y1 && c2.year == y2 && y1 < y2
    ensures Sort([y1, y2], IntLe) == [y1, y2] && FinalHoldings([]) == []
    ensures Summaries([c1, c2], [y1, y2]) == [Rounded(c1), Rounded(c2)]
  {
    TwoYearsSorted(y1, y2);
    TwoSummaries(c1, c2, [y1, y2]);
  }

  /** The dates of test C are in replay order, and its sales are dated in 2024 and 2025. */
  lemma TwoYearsDates()
    ensures StrLe("2024-01-10", "2024-06-15") && StrLe("2024-06-15", "2025-03-20")
    ensures YearOf("2024-06-15") == Some(2024) && YearOf("2025-03-20") == Some(2025)
  {
    StrLeAt("2024-01-10", "2024-06-15", 6);
    StrLeAt("2024-06-15", "2025-03-20", 3);
    YearOf2024("2024-06-15");
    YearOf2025("2025-03-20");
  }

  /** The figures of test C: unit cost 100, and proceeds 7,500 and 10,000 for the two sales of 50. */
  lemma TwoYearsFigures(buy: Transaction, s1: Transaction, s2: Transaction)
    requires buy.quantity == 100.0 && buy.price == 100.0 && buy.commission == Some(0.0)
    requires s1.quantity == 50.0 && s1.price == 150.0 && s1.commission == Some(0.0)
    requires s2.quantity == 50.0 && s2.price == 200.0 && s2.commission == Some(0.0)
    ensures PurchaseUnitCost(buy) == 100.0 && Abs(s1.quantity) == 50.0 && Abs(s2.quantity) == 50.0
    ensures SaleProceeds(s1) == 7500.0 && SaleProceeds(s2) == 10000.0
  {
    UnitCostIs(buy, 100.0);
  }

  /** The figures of test C on trades in replay order whose sales fall in 2024 and 2025. */
  lemma TwoYearsCase(input: SubmissionInput, buy: Transaction, s1: Transaction, s2: Transaction)
    requires input.years == [2024, 2025] && input.transactions == [buy, s1, s2]
    requires buy.activity == Purchased && buy.quantity == 100.0 && buy.price == 100.0 && buy.commission == Some(0.0)
    requires s1.activity == Sold && s1.quantity == 50.0 && s1.price == 150.0 && s1.commission == Some(0.0)
    requires s2.activity == Sold && s2.quantity == 50.0 && s2.price == 200.0 && s2.commission == Some(0.0)
    requires YearOf(s1.date) == Some(2024) && YearOf(s2.date) == Some(2025)
    requires StrLe(buy.date, s1.date) && buy.date != s1.date && StrLe(s1.date, s2.date) && s1.date != s2.date
    ensures NonZeroPurchases(input.transactions)
    ensures CapitalGainsOf(input)
            == Success(SimpleResult(input.currency, input.symbol, [2024, 2025],
                 [SimpleSummary(2024, 50.0, 7500.0, 5000.0, 2500.0), SimpleSummary(2025, 50.0, 10000.0, 5000.0, 5000.0)], []))
  {
    var u, a, b := PurchaseUnitCost(buy), Abs(s1.quantity), Abs(s2.quantity);
    var c1 := Credited(ZeroSummary(2024), a, SaleProceeds(s1), a * u);
    var c2 := Credited(ZeroSummary(2025), b, SaleProceeds(s2), b * u);
    assert Rounded(c1) == SimpleSummary(2024, 50.0, 7500.0, 5000.0, 2500.0)
           && Rounded(c2) == SimpleSummary(2025, 50.0, 10000.0, 5000.0, 5000.0) by {
      TwoYearsFigures(buy, s1, s2);
      RoundedWhole(2024, 50, 7500, 5000, 2500);
      RoundedWhole(2025, 50, 10000, 5000, 5000);
    }
    TwoYearsFrom(input, buy, s1, s2, a, b, u, c1, c2, 2024, 2025);
  }

  /** Test C: 100 bought at 100, 50 sold at 150 in 2024 and 50 at 200 in 2025; each year is summarised apart. */
  lemma SalesInTwoYears()
    ensures CapitalGainsOf(SubmissionInput("test@example.com", USD, "TEST", [2024, 2025],
              [Transaction("2024-01-10", Purchased, 100.0, 100.0, Some(0.0)),
               Transaction("2024-06-15", Sold, 50.0, 150.0, Some(0.0)),
               Transaction("2025-03-20", Sold, 50.0, 200.0, Some(0.0))]))
            == Success(SimpleResult(USD, "TEST", [2024, 2025],
                 [SimpleSummary(2024, 50.0, 7500.0, 5000.0, 2500.0), SimpleSummary(2025, 50.0, 10000.0, 5000.0, 5000.0)], []))
  {
    var buy := Transaction("2024-01-10", Purchased, 100.0, 100.0, Some(0.0));
    var s1 := Transaction("2024-06-15", Sold, 50.0, 150.0, Some(0.0));
    var s2 := Transaction("2025-03-20", Sold, 50.0, 200.0, Some(0.0));
    TwoYearsDates();
    TwoYearsCase(SubmissionInput("test@example.com", USD, "TEST", [2024, 2025], [buy, s1, s2]), buy, s1, s2);
  }
}
