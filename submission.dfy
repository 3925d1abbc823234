/**
 * The submission handlers of the customer application and of the original
 * application: the checks a request body must pass before any calculation,
 * the normalisation that makes every sale quantity negative, and the
 * classification of a thrown error into a 422 or a 500 response.
 *
 * The two handlers differ in one check only: the customer application also
 * refuses more than five years.
 */
module Submission {
  import opened Wrappers
  import opened Text
  import opened StableSort
  import opened Calendar
  import opened EngineTypes
  import opened ReplayOrder
  import FifoGains
  import MovingAverage
  import CustomerFx

  /** A JavaScript number: a finite value, an infinity or NaN. */
  datatype JsNumber = Finite(value: real) | Infinity(negative: bool) | NaN

  /** A trade as it arrives in the request body, before any check. */
  datatype RawTransaction = RawTransaction(
    date: string,
    activity: string,
    quantity: JsNumber,
    price: JsNumber,
    commission: Option<JsNumber>)

  /** Which handler: the customer application's, or the original application's. */
  datatype Route = CustomerRoute | RootRoute

  /** A JSON error response. */
  datatype ErrorResponse = ErrorResponse(status: nat, error: string)

  const MaxYears: nat := 5
  const MaxTransactions: nat := 50

  const InvalidEmail := "有効なメールアドレスを入力してください"
  const MissingSymbol := "銘柄コードを入力してください"
  const MissingYears := "対象年度を選択してください"
  const TooManyYears := "対象年度は最大5件までです"
  const MissingTransactions := "取引データを入力してください"
  const TooManyTransactions := "取引は最大50行までです"

  const BadDate := "日付はYYYY-MM-DD形式で入力してください"
  const BadActivity := "activityはPurchasedまたはSoldである必要があります"
  const BadQuantity := "数量は有限の非ゼロ値である必要があります"
  const BadPrice := "価格は正の有限値である必要があります"
  const BadCommission := "手数料は0以上の有限値である必要があります"

  const ServerError := "サーバーエラーが発生しました"

  // ----------------------------------------------------------- the checks

  /** The checks on the body itself, in the handler's order; `txCount` is `None` when there are no transactions. */
  function HeaderProblem(route: Route, email: Option<string>, symbol: Option<string>,
                         years: Option<seq<int>>, txCount: Option<nat>): Option<string>
  {
    if email.None? || !Contains(email.value, "@") then Some(InvalidEmail)
    else if symbol.None? || Trim(symbol.value) == [] then Some(MissingSymbol)
    else if years.None? || |years.value| == 0 then Some(MissingYears)
    else if route == CustomerRoute && |years.value| > MaxYears then Some(TooManyYears)
    else if txCount.None? || txCount.value == 0 then Some(MissingTransactions)
    else if txCount.value > MaxTransactions then Some(TooManyTransactions)
    else None
  }

  /** The first check one trade fails, in the handler's order. */
  function TransactionProblem(tx: RawTransaction): Option<string>
  {
    if !IsIsoShape(tx.date) then Some(BadDate)
    else if tx.activity != "Purchased" && tx.activity != "Sold" then Some(BadActivity)
    else if !tx.quantity.Finite? || tx.quantity.value == 0.0 then Some(BadQuantity)
    else if !tx.price.Finite? || tx.price.value <= 0.0 then Some(BadPrice)
    else if tx.commission.Some? && (!tx.commission.value.Finite? || tx.commission.value.value < 0.0) then Some(BadCommission)
    else None
  }

  /** A trade that passes every check. */
  predicate ValidTransaction(tx: RawTransaction)
  {
    IsIsoShape(tx.date)
    && (tx.activity == "Purchased" || tx.activity == "Sold")
    && tx.quantity.Finite? && tx.quantity.value != 0.0
    && tx.price.Finite? && tx.price.value > 0.0
    && (tx.commission.Some? ==> tx.commission.value.Finite? && tx.commission.value.value >= 0.0)
  }

  /** A trade has no problem exactly when it satisfies every condition. */
  lemma TransactionProblemIff(tx: RawTransaction)
    ensures TransactionProblem(tx).None? <==> ValidTransaction(tx)
  {
  }

  /** The first trade, from the front, that fails a check, with the message of the check. */
  function FirstProblem(txs: seq<RawTransaction>): (r: Option<(nat, string)>)
    ensures r.None? <==> forall j :: 0 <= j < |txs| ==> TransactionProblem(txs[j]).None?
    ensures r.Some? ==> r.value.0 < |txs| && TransactionProblem(txs[r.value.0]) == Some(r.value.1)
    ensures r.Some? ==> forall j :: 0 <= j < r.value.0 ==> TransactionProblem(txs[j]).None?
  {
    if txs == [] then None
    else if TransactionProblem(txs[0]).Some? then Some((0, TransactionProblem(txs[0]).value))
    else match FirstProblem(txs[1..])
      case None => None
      case Some(p) => Some((p.0 + 1, p.1))
  }

  /** The message that names the failing trade by its 1-based position. */
  function TxError(i: nat, what: string): string
  {
    "取引" + NatToDecimal(i + 1) + ": " + what
  }

  /** The first failure of the handler's checks, if any. */
  function SubmissionError(route: Route, email: Option<string>, symbol: Option<string>,
                           years: Option<seq<int>>, txs: Option<seq<RawTransaction>>): Option<string>
  {
    var header := HeaderProblem(route, email, symbol, years, if txs.None? then None else Some(|txs.value|));
    if header.Some? then header
    else match FirstProblem(txs.value)
      case Some(p) => Some(TxError(p.0, p.1))
      case None => None
  }

  /** How many trades the checking loop goes past: up to the first failing one, or all of them. */
  function TradesPassed(txs: seq<RawTransaction>): (n: nat)
    ensures n <= |txs|
  {
    match FirstProblem(txs)
    case Some(p) => p.0
    case None => |txs|
  }

  /** A sale given with a positive quantity gets the negated quantity. */
  function NormaliseRaw(tx: RawTransaction): RawTransaction
  {
    if tx.activity == "Sold" && tx.quantity.Finite? && tx.quantity.value > 0.0
    then tx.(quantity := Finite(-tx.quantity.value))
    else tx
  }

  /** The first `n` trades normalised and the rest as they were. */
  function NormalisedPrefix(s: seq<RawTransaction>, n: nat): seq<RawTransaction>
    requires n <= |s|
  {
    MapSeq(s[..n], NormaliseRaw) + s[n..]
  }

  function Rejection(err: Option<string>): Option<ErrorResponse>
  {
    if err.None? then None else Some(ErrorResponse(422, err.value))
  }

  function Given(txs: array?<RawTransaction>): Option<seq<RawTransaction>>
    reads txs
  {
    if txs == null then None else Some(txs[..])
  }

  /**
   * The validation part of the handler: `None` when the body passes and the
   * calculation may run, else the 422 response. The trades the loop has
   * gone past are normalised in place (see `CheckTrades`), also when a later
   * trade is refused.
   */
  method ValidateSubmission(route: Route, email: Option<string>, symbol: Option<string>,
                            years: Option<seq<int>>, txs: array?<RawTransaction>)
    returns (r: Option<ErrorResponse>)
    modifies txs
    ensures r == Rejection(SubmissionError(route, email, symbol, years, old(Given(txs))))
    ensures txs != null && HeaderProblem(route, email, symbol, years, Some(txs.Length)).Some? ==> txs[..] == old(txs[..])
    ensures txs != null && HeaderProblem(route, email, symbol, years, Some(txs.Length)).None?
            ==> txs[..] == NormalisedPrefix(old(txs[..]), TradesPassed(old(txs[..])))
  {
    var header := HeaderProblem(route, email, symbol, years, if txs == null then None else Some(txs.Length));
    if header.Some? {
      return Some(ErrorResponse(422, header.value));
    }
    var problem := CheckTrades(txs);
    if problem.Some? {
      return Some(ErrorResponse(422, TxError(problem.value.0, problem.value.1)));
    }
    return None;
  }

  /**
   * The loop over the trades: the first one that fails a check, with the
   * message of that check. Each trade that passes has a positive sale
   * quantity negated in place before the loop moves on.
   */
  method CheckTrades(txs: array<RawTransaction>) returns (r: Option<(nat, string)>)
    modifies txs
    ensures r == FirstProblem(old(txs[..]))
    ensures txs[..] == NormalisedPrefix(old(txs[..]), TradesPassed(old(txs[..])))
  {
    ghost var given := txs[..];
    var i := 0;
    while i < txs.Length
      invariant 0 <= i <= txs.Length
      invariant forall j :: 0 <= j < i ==> TransactionProblem(given[j]).None?
      invariant forall j :: 0 <= j < i ==> txs[j] == NormaliseRaw(given[j])
      invariant forall j :: i <= j < txs.Length ==> txs[j] == given[j]
    {
      var tx := txs[i];
      var problem := TransactionProblem(tx);
      if problem.Some? {
        RejectedAt(given, i);
        PointwiseNormalised(txs[..], given, i);
        return Some((i, problem.value));
      }
      if tx.activity == "Sold" && tx.quantity.Finite? && tx.quantity.value > 0.0 {
        txs[i] := tx.(quantity := Finite(-tx.quantity.value));
      }
      i := i + 1;
    }
    PointwiseNormalised(txs[..], given, i);
    return None;
  }

  lemma PointwiseNormalised(t: seq<RawTransaction>, s: seq<RawTransaction>, n: nat)
    requires |t| == |s| && n <= |s|
    requires forall j :: 0 <= j < n ==> t[j] == NormaliseRaw(s[j])
    requires forall j :: n <= j < |s| ==> t[j] == s[j]
    ensures t == NormalisedPrefix(s, n)
  {
  }

  /** The loop stops at trade `i` when it is the first that fails a check. */
  lemma {:induction false} RejectedAt(s: seq<RawTransaction>, i: nat)
    requires i < |s| && TransactionProblem(s[i]).Some?
    requires forall j :: 0 <= j < i ==> TransactionProblem(s[j]).None?
    ensures FirstProblem(s) == Some((i, TransactionProblem(s[i]).value))
  {
    if i > 0 {
      assert TransactionProblem(s[0]).None?;
      forall j | 0 <= j < i - 1 ensures TransactionProblem(s[1..][j]).None? {
        assert s[1..][j] == s[j + 1];
      }
      assert s[1..][i - 1] == s[i];
      RejectedAt(s[1..], i - 1);
    }
  }

  // ------------------------------------------------- the checks' meaning

  /** The email must be present and contain `@`; the symbol must hold a non-whitespace character. */
  lemma EmailAndSymbolChecked(route: Route, email: Option<string>, symbol: Option<string>,
                              years: Option<seq<int>>, txs: Option<seq<RawTransaction>>)
    ensures (email.None? || !Contains(email.value, "@"))
            ==> SubmissionError(route, email, symbol, years, txs) == Some(InvalidEmail)
    ensures email.Some? && Contains(email.value, "@") && (symbol.None? || IsBlank(symbol.value))
            ==> SubmissionError(route, email, symbol, years, txs) == Some(MissingSymbol)
  {
    if symbol.Some? {
      TrimEmptyIffBlank(symbol.value);
    }
  }

  /** The body-level checks passed: what they demand of the email, symbol, years and trades. */
  predicate HeaderAccepted(route: Route, email: Option<string>, symbol: Option<string>,
                           years: Option<seq<int>>, txs: Option<seq<RawTransaction>>)
  {
    email.Some? && Contains(email.value, "@")
    && symbol.Some? && !IsBlank(symbol.value)
    && years.Some? && 1 <= |years.value| && (route == CustomerRoute ==> |years.value| <= MaxYears)
    && txs.Some? && 1 <= |txs.value| <= MaxTransactions
  }

  /**
   * A submission is accepted exactly when its email, symbol, number of years
   * and number of trades are acceptable and every trade passes its checks.
   * The original application's handler sets no upper limit on the years.
   */
  lemma AcceptedIff(route: Route, email: Option<string>, symbol: Option<string>,
                    years: Option<seq<int>>, txs: Option<seq<RawTransaction>>)
    ensures SubmissionError(route, email, symbol, years, txs).None?
            <==> HeaderAccepted(route, email, symbol, years, txs)
                 && forall j :: 0 <= j < |txs.value| ==> ValidTransaction(txs.value[j])
  {
    if symbol.Some? {
      TrimEmptyIffBlank(symbol.value);
    }
    if txs.Some? {
      forall j | 0 <= j < |txs.value| ensures TransactionProblem(txs.value[j]).None? <==> ValidTransaction(txs.value[j]) {
        TransactionProblemIff(txs.value[j]);
      }
    }
  }

  /**
   * When the body-level checks pass, the error names the first failing
   * trade by its 1-based position, with the message of the first check it
   * fails; every trade before it passes.
   */
  lemma FirstFailingTradeReported(route: Route, email: Option<string>, symbol: Option<string>,
                                  years: Option<seq<int>>, txs: seq<RawTransaction>, i: nat)
    requires HeaderAccepted(route, email, symbol, years, Some(txs))
    requires i < |txs| && TransactionProblem(txs[i]).Some?
    requires forall j :: 0 <= j < i ==> TransactionProblem(txs[j]).None?
    ensures SubmissionError(route, email, symbol, years, Some(txs))
            == Some(TxError(i, TransactionProblem(txs[i]).value))
  {
    TrimEmptyIffBlank(symbol.value);
    RejectedAt(txs, i);
  }

  /** The customer handler refuses a sixth year that the original handler lets through. */
  lemma YearLimitDiffers(email: string, symbol: string, years: seq<int>, txs: seq<RawTransaction>)
    requires Contains(email, "@") && !IsBlank(symbol) && |years| > MaxYears
    requires 1 <= |txs| <= MaxTransactions && forall j :: 0 <= j < |txs| ==> ValidTransaction(txs[j])
    ensures SubmissionError(CustomerRoute, Some(email), Some(symbol), Some(years), Some(txs)) == Some(TooManyYears)
    ensures SubmissionError(RootRoute, Some(email), Some(symbol), Some(years), Some(txs)).None?
  {
    TrimEmptyIffBlank(symbol);
    assert HeaderProblem(CustomerRoute, Some(email), Some(symbol), Some(years), Some(|txs|)) == Some(TooManyYears);
    assert HeaderProblem(RootRoute, Some(email), Some(symbol), Some(years), Some(|txs|)).None?;
    AllValidNoProblem(txs);
  }

  lemma AllValidNoProblem(txs: seq<RawTransaction>)
    requires forall j :: 0 <= j < |txs| ==> ValidTransaction(txs[j])
    ensures FirstProblem(txs).None?
  {
    forall j | 0 <= j < |txs| ensures TransactionProblem(txs[j]).None? {
      TransactionProblemIff(txs[j]);
    }
  }

  // ------------------------------------------- the position in the message

  lemma {:induction false} LeadingDigitsThen(a: string, b: string)
    requires AllDigits(a) && (b == [] || !IsDigit(b[0]))
    ensures LeadingDigits(a + b) == a
  {
    if a != [] {
      assert (a + b)[0] == a[0] && (a + b)[1..] == a[1..] + b;
      LeadingDigitsThen(a[1..], b);
    } else {
      assert a + b == b;
    }
  }

  /** The 0-based position a trade error names, read back from its message. */
  function TxErrorPosition(msg: string): Option<nat>
  {
    if |msg| >= 2 && msg[..2] == "取引" && LeadingDigits(msg[2..]) != [] && DecimalValue(LeadingDigits(msg[2..])) >= 1
    then Some(DecimalValue(LeadingDigits(msg[2..])) - 1)
    else None
  }

  /** The message of a failing trade names its position: reading the number back gives the trade's index. */
  lemma TxErrorPositionRoundTrip(i: nat, what: string)
    ensures TxErrorPosition(TxError(i, what)) == Some(i)
  {
    var digits := NatToDecimal(i + 1);
    var msg := TxError(i, what);
    assert msg[..2] == "取引";
    assert msg[2..] == digits + (": " + what);
    LeadingDigitsThen(digits, ": " + what);
    DecimalOfNatToDecimal(i + 1);
  }

  // ------------------------------------------------------ normalisation

  /**
   * Normalisation negates the quantity of a sale given as a positive number
   * and changes nothing else; the size of every quantity is kept, and a
   * normalised sale is never positive.
   */
  lemma NormaliseRawEffect(tx: RawTransaction)
    ensures var r := NormaliseRaw(tx);
      r.date == tx.date && r.activity == tx.activity && r.price == tx.price && r.commission == tx.commission
      && (tx.activity == "Sold" && tx.quantity.Finite? && tx.quantity.value > 0.0 ==> r.quantity == Finite(-tx.quantity.value))
      && (!(tx.activity == "Sold" && tx.quantity.Finite? && tx.quantity.value > 0.0) ==> r == tx)
      && (r.quantity.Finite? <==> tx.quantity.Finite?)
      && (r.quantity.Finite? ==> Abs(r.quantity.value) == Abs(tx.quantity.value))
      && (r.activity == "Sold" && r.quantity.Finite? ==> r.quantity.value <= 0.0)
  {
  }

  /** Normalising twice is normalising once. */
  lemma NormaliseRawIdempotent(tx: RawTransaction)
    ensures NormaliseRaw(NormaliseRaw(tx)) == NormaliseRaw(tx)
  {
  }

  /** Normalisation keeps every trade valid. */
  lemma NormaliseRawKeepsValid(tx: RawTransaction)
    requires ValidTransaction(tx)
    ensures ValidTransaction(NormaliseRaw(tx))
  {
  }

  // ------------------------------------------- handing over to the engine

  /** The engine's view of a checked trade. */
  function ToTransaction(tx: RawTransaction): (t: Transaction)
    requires ValidTransaction(tx)
  {
    Transaction(
      tx.date,
      if tx.activity == "Purchased" then Purchased else Sold,
      tx.quantity.value,
      tx.price.value,
      if tx.commission.Some? then Some(tx.commission.value.value) else None)
  }

  /** The handler's normalisation is the engine's normalisation of the same trade. */
  lemma ToTransactionNormalised(tx: RawTransaction)
    requires ValidTransaction(tx)
    ensures ValidTransaction(NormaliseRaw(tx))
    ensures ToTransaction(NormaliseRaw(tx)) == NormaliseSale(ToTransaction(tx))
  {
  }

  function ToTransactions(txs: seq<RawTransaction>): (r: seq<Transaction>)
    requires forall j :: 0 <= j < |txs| ==> ValidTransaction(txs[j])
    ensures |r| == |txs|
  {
    seq(|txs|, j requires 0 <= j < |txs| => ToTransaction(txs[j]))
  }

  /**
   * What the engine receives after an accepted submission: well-shaped dates
   * with an ISO year, nonzero purchases, positive prices, non-negative
   * commissions, and sales whose quantity is negative; so the FIFO engine's
   * requirement on purchases holds.
   */
  lemma AcceptedTradesForEngine(txs: seq<RawTransaction>)
    requires forall j :: 0 <= j < |txs| ==> ValidTransaction(txs[j])
    ensures forall j :: 0 <= j < |txs| ==> ValidTransaction(MapSeq(txs, NormaliseRaw)[j])
    ensures var e := ToTransactions(MapSeq(txs, NormaliseRaw));
      && FifoGains.NonZeroPurchases(e)
      && (forall j :: 0 <= j < |e| ==> IsIsoShape(e[j].date) && YearOf(e[j].date) == Some(DecimalValue(e[j].date[..4]) as int))
      && (forall j :: 0 <= j < |e| ==> e[j].price > 0.0 && CommissionOrZero(e[j]) >= 0.0)
      && (forall j :: 0 <= j < |e| && e[j].activity == Sold ==> e[j].quantity < 0.0)
      && e == MapSeq(ToTransactions(txs), NormaliseSale)
  {
    var n := MapSeq(txs, NormaliseRaw);
    forall j | 0 <= j < |txs| ensures ValidTransaction(n[j]) && ToTransaction(n[j]) == NormaliseSale(ToTransaction(txs[j])) {
      ToTransactionNormalised(txs[j]);
    }
    var e := ToTransactions(n);
    forall j | 0 <= j < |e| ensures YearOf(e[j].date) == Some(DecimalValue(e[j].date[..4]) as int) {
      YearOfIsoDate(e[j].date);
    }
  }

  /**
   * The checks refuse a zero quantity but not a negative one: a purchase of
   * -10 shares passes every check, and the moving-average replay then ends
   * with a holding of -10 and a negative cost basis.
   */
  lemma NegativePurchaseAccepted()
    ensures var raw := RawTransaction("2024-01-10", "Purchased", Finite(-10.0), Finite(100.0), None);
      && SubmissionError(CustomerRoute, Some("a@b"), Some("TEST"), Some([2024]), Some([raw])).None?
      && ValidTransaction(raw)
      && MovingAverage.Run(ToTransactions([raw]), [], MovingAverage.Initial([2024]))
         == Success(MovingAverage.Position(-10.0, -1000.0, 0, [MovingAverage.ZeroSummary(2024)],
                                           [MovingAverage.Lot("2024-01-10", -10.0)]))
  {
    var raw := RawTransaction("2024-01-10", "Purchased", Finite(-10.0), Finite(100.0), None);
    assert Contains("a@b", "@") by { ContainsAt("a@b", "@", 1); }
    assert IsIsoShape(raw.date);
    assert ValidTransaction(raw);
    assert FirstProblem([raw]) == None by { assert [raw][1..] == []; }
    var t := ToTransactions([raw]);
    assert t == [Transaction("2024-01-10", Purchased, -10.0, 100.0, None)];
    assert MovingAverage.InitYearMap([2024]) == [MovingAverage.ZeroSummary(2024)] by {
      assert [2024][..0] == [];
    }
    assert MovingAverage.AcquisitionJPY(t[0], CustomerFx.Rate(1.0, 1.0)) == -1000;
    assert MovingAverage.TradeRate([], t[0]) == CustomerFx.Rate(1.0, 1.0);
    assert t[..0] == [];
    assert MovingAverage.Run(t, [], MovingAverage.Initial([2024]))
           == Success(MovingAverage.Purchase(MovingAverage.Initial([2024]), t[0], CustomerFx.Rate(1.0, 1.0)));
    assert Trim("TEST") != [] by { TrimEmptyIffBlank("TEST"); assert !IsJsWhitespace('T'); }
    assert SubmissionError(CustomerRoute, Some("a@b"), Some("TEST"), Some([2024]), Some([raw])).None?;
    assert MovingAverage.Purchase(MovingAverage.Initial([2024]), t[0], CustomerFx.Rate(1.0, 1.0))
           == MovingAverage.Position(-10.0, -1000.0, 0, [MovingAverage.ZeroSummary(2024)], [MovingAverage.Lot("2024-01-10", -10.0)]);
  }

  // ------------------------------------------------------ thrown errors

  /** The words that mark a thrown message as the user's mistake. */
  predicate IsValidationMessage(m: string)
  {
    Contains(m, "入力") || Contains(m, "選択") || Contains(m, "取引") || Contains(m, "保有") || Contains(m, "必要")
  }

  /** The `catch` block: `message` is the thrown error's message, `None` when it has none. */
  function ClassifyError(message: Option<string>): (r: ErrorResponse)
    ensures r.status == 422 || r.status == 500
  {
    if message.Some? && IsValidationMessage(message.value) then ErrorResponse(422, message.value)
    else if message.None? || message.value == "" then ErrorResponse(500, ServerError)
    else ErrorResponse(500, message.value)
  }

  /**
   * A thrown error is answered with 422 exactly when its message names one of
   * the marker words, and then with that message; otherwise with 500 and
   * the message, or the generic server error when there is no message.
   */
  lemma ClassifyErrorIff(message: Option<string>)
    ensures ClassifyError(message).status == 422 <==> message.Some? && IsValidationMessage(message.value)
    ensures ClassifyError(message).status == 422 ==> ClassifyError(message).error == message.value
    ensures ClassifyError(message).status == 500 ==> ClassifyError(message).error != ""
    ensures ClassifyError(message).status == 500 && message.Some? && message.value != ""
            ==> ClassifyError(message).error == message.value
  {
  }

  /** The engine's over-sell error reaches the user as a 422 with its message. */
  lemma OversellIsUserError(date: string)
    ensures ClassifyError(Some(OversellError(date))) == ErrorResponse(422, OversellError(date))
  {
    var tail := ": 保有数量を超える売却が発生しています";
    assert OversellError(date) == date + tail;
    assert tail[2..4] == "保有";
    ContainsAt(tail, "保有", 2);
    ContainsInSuffix(date, tail, "保有");
  }

  /** An error without a message is answered with the generic server error. */
  lemma MissingMessageIsServerError()
    ensures ClassifyError(None) == ErrorResponse(500, ServerError)
    ensures ClassifyError(Some("")) == ErrorResponse(500, ServerError)
  {
    assert !IsValidationMessage("");
  }
}
