# kabu-tax-app: the capital-gains engine, in Dafny

kabu-tax-app takes a customer's trades in one foreign stock (date, purchase or
sale, quantity, price, commission) and the tax years they ask for. It works out
the yen proceeds and realised gain of each year's sales and mails a PDF report.
This project models the computing core of that application and proves what it
promises:

- **The moving-average calculator** (`calcMovingAverage`, module
  `MovingAverage`). Its parts are:
  - the replay order: date, then purchases before sales on the same day;
  - the year map, with one summary per requested year;
  - purchases converted at TTS, rounded down, with a blended unit cost rounded up;
  - sales converted at TTB, with the sale commission converted at TTS and added to
    the gain, as the code does;
  - the over-sell error;
  - the lot queue consumed from the front;
  - the rounding of the results.
- **The FIFO calculator** (`calcCapitalGains`, module `FifoGains`). This is the
  same replay with FIFO lots. It has a per-lot cost basis, proceeds net of the
  sale commission, the filter on requested years, and rounding to one decimal.
- **The two rate lookups.** `CustomerFx` is the customer application's
  `pickRateOnOrBefore`. It looks back at most five calendar days through
  `subtractDays` and skips zero rates. If nothing is found it falls back to the
  last table entry. `RootFx` is the older lookup of the root application, a
  scan that stops at the first entry dated later.
- **The submission handlers** of both applications (module `Submission`):
  - the checks on the request body, in their order and with their messages;
  - the loop that checks each trade and negates the quantity of a sale;
  - the `catch` block that answers 422 or 500.
- **The administrator's aggregations** (module `Queries`): `getAllCustomers`
  and `getStats`.
- **The payment page's field formatters** (module `Payment`): the card number,
  the expiry date and the CVC.

Helper modules:

- `Text`: JavaScript string order, digits, `trim`, `includes`, regex filters.
- `Calendar`: the civil calendar behind `new Date` / `setDate`.
- `StableSort`: `Array.prototype.sort`, which is stable. It is modelled as a
  stable insertion sort over a total preorder.
- `Rounding`: `roundDown0`, `roundUp0`, `Math.round`.
- `ReplayOrder`: the shared replay order and sale normalisation.
- `EngineTypes`: the engine's records.

Where the source works step by step, the model has a `method` with the same
loops. Examples are the replay loop, the lot loop, the FIFO cost loop, the
lookup's two loops, the trade-checking loop over the request's array, the
`forEach` aggregations and the card-number `for` loop. Each method is proved
equal to a specification function, and the properties are proved about that
function.

Where the tests and the code disagree, the model follows the code:

- **Sale commission in the moving-average test.** The test comments subtract
  the sale commission from the gain, but `movingAverage.ts` adds it.
  `MovingAverage.BasicFlowFigures` and `MovingAverage.BasicFlowEndToEnd` give
  the code's figures:
  - the acquisition is 2,183,955 yen, not the 2,182,995 the comment writes;
  - the unit cost is 21,840;
  - the realised gain is 615,787.

  The test asserts one summary, the year 2024 and a sale quantity of exactly
  100, and `MovingAverage.BasicFlowEndToEnd` proves all three. For the proceeds
  and the gain it asserts only lower bounds, which these figures satisfy. The
  sign of the commission is listed under "Findings" below.
- **The rate-lookup test file.** It imports the root application's lookup, yet
  its expectations are those of the customer lookup, with its day window and its
  skipping of zero rates. The cases are proved here against the customer lookup.
  `FxCases.RootScanOnNewestFirstTable` shows that the root scan on the same
  newest-first table gives a different rate. This is listed under "Findings" below.

## Model

| member | source | states |
|---|---|---|
| Rounding.RoundDown0 | apps/customer/src/lib/engine/movingAverage.ts:47 | `roundDown0(x)` is the integer r with r <= x < r + 1 |
| Rounding.RoundUp0 | apps/customer/src/lib/engine/movingAverage.ts:51 | `roundUp0(x)` is the integer r with r - 1 < x <= r |
| Rounding.MathRound | apps/customer/src/lib/engine/movingAverage.ts:107-109 | `Math.round(x)` is the integer r with r - 0.5 <= x < r + 0.5 (halves go up) |
| Rounding.RoundTenth | apps/customer/src/lib/engine/calc.ts:137 | `Math.round(x * 10) / 10` is within 0.05 of x and a whole number of tenths |
| EngineTypes.Abs | apps/customer/src/lib/engine/calc.ts:81 | `Math.abs(q)` is non-negative and is q or -q |
| EngineTypes.LeadingDigits | apps/customer/src/lib/engine/calc.ts:66 | the digits `parseInt` reads are the longest all-digit prefix |
| EngineTypes.YearOfIsoDate | apps/customer/src/lib/engine/calc.ts:66 | on a `dddd-...` date, `parseInt(date.substring(0, 4))` is the number its four digits spell |
| Text.StrLeTotal | apps/customer/src/lib/engine/fx.ts:57 | string comparison `<=`, character by character, is total |
| Text.StrLeTrans | apps/customer/src/lib/engine/fx.ts:57 | string `<=` is transitive |
| Text.StrLeAntisym | apps/customer/src/lib/engine/fx.ts:57 | string `<=` both ways means equal strings |
| Text.StrLeAt | apps/customer/src/lib/engine/fx.ts:57 | two strings compare by their first differing character |
| Text.NatToDecimal | apps/customer/src/lib/engine/fx.ts:79-80 | `String(n)` is a digit string without a leading zero (except "0") |
| Text.NatToDecimalOfDecimal | apps/customer/src/lib/engine/fx.ts:78-81 | reading a digit string without a leading zero and printing it gives it back |
| Text.PadStart2 | apps/customer/src/lib/engine/fx.ts:79-80 | `padStart(2, "0")` pads to at least two characters and never shortens |
| Text.TrimEmptyIffBlank | apps/customer/src/app/api/submission/route.ts:21 | `s.trim() === ""` exactly when s is all whitespace |
| Text.RemoveWhitespace | apps/customer/src/app/payment/page.tsx:25 | `replace(/\s+/g, "")` leaves no whitespace |
| Text.DigitsOnly | apps/customer/src/app/payment/page.tsx:25 | `replace(/[^0-9]/gi, "")` leaves only digits, no longer than the input |
| Text.DigitsOnlyChar | apps/customer/src/app/payment/page.tsx:25 | a single character survives the filter exactly when it is a digit |
| Text.DigitsOnlyOfDigits | apps/customer/src/app/payment/page.tsx:231 | filtering a digit string changes nothing |
| Text.DigitsOnlyIgnoresWhitespace | apps/customer/src/app/payment/page.tsx:25 | removing whitespace first does not change which digits the filter keeps |
| StableSort.SortSorted | apps/customer/src/lib/engine/movingAverage.ts:19-22 | the result of `sort` with a consistent comparator is ordered |
| StableSort.Sort | apps/customer/src/lib/engine/movingAverage.ts:19-22 | `sort` returns a permutation of its input |
| StableSort.SortStable | apps/customer/src/lib/engine/movingAverage.ts:19-22 | elements the comparator finds equal keep their input order |
| StableSort.SortMap | apps/customer/src/lib/engine/calc.ts:35-43 | mapping elements in a way the comparator ignores commutes with sorting |
| StableSort.SumOfPermutation | apps/customer/src/lib/engine/calc.ts:100 | a sum over the trades does not depend on their order |
| StableSort.PermutationKeepsDistinctKeys | packages/database/src/queries.ts:170-172 | sorting entries with distinct keys keeps the keys distinct |
| Calendar.PrevDay | apps/customer/src/lib/engine/fx.ts:77 | the day before a valid date is a valid date before it |
| Calendar.PrevDayAdjacent | apps/customer/src/lib/engine/fx.ts:77 | no valid date lies strictly between the day before `d` and `d` |
| Calendar.NextDayAdjacent | apps/customer/src/lib/engine/fx.ts:77 | no valid date lies strictly between `d` and the day after it |
| Calendar.NextOfPrev | apps/customer/src/lib/engine/fx.ts:77 | the day after the day before a date is the date |
| Calendar.ForwardOfBack | apps/customer/src/lib/engine/fx.ts:77 | going n days back and n days forward returns to the date |
| Calendar.BackWithinMonth | apps/customer/src/lib/engine/fx.ts:77 | stepping back within a month only lowers the day |
| Calendar.ParseDate | apps/customer/src/lib/engine/fx.ts:76 | on text of the shape `dddd-dd-dd` (the only shape the handlers let through), `new Date(s)` is a valid date exactly when the month is 01..12 and the day 01..31 |
| Calendar.ParseOfFormat | apps/customer/src/lib/engine/fx.ts:78-81 | printing a date with a four-digit year and parsing the text gives the date back |
| Calendar.FormatOfParse | apps/customer/src/lib/engine/fx.ts:76-81 | parsing canonical text and printing the date gives the text back |
| CustomerFx.FirstOnOrBefore | apps/customer/src/lib/engine/fx.ts:55-61 | the inner scan finds the first entry dated on or before the target, and none before it qualifies |
| CustomerFx.PickRateOnOrBefore | apps/customer/src/lib/engine/fx.ts:40-72 | the two nested loops return exactly the lookup rule `PickRate` |
| CustomerFx.PickRateRule | apps/customer/src/lib/engine/fx.ts:40-72 | an empty table gives rate 1; otherwise the first usable candidate at offsets 0..maxDaysBack wins; with none, the last entry |
| CustomerFx.PickRateFromTable | apps/customer/src/lib/engine/fx.ts:51-71 | for a non-empty table the result is always the rates of one of its entries |
| CustomerFx.PickRatePositive | apps/customer/src/lib/engine/fx.ts:64-66 | when the window holds a usable candidate both returned rates are positive |
| CustomerFx.FirstUsableNoneIff | apps/customer/src/lib/engine/fx.ts:51-67 | the loop finds nothing exactly when no candidate in the window is usable |
| CustomerFx.SubtractZero | apps/customer/src/lib/engine/fx.ts:75-82 | `subtractDays(d, 0)` gives a canonical date back unchanged |
| CustomerFx.SubtractDaysDenotes | apps/customer/src/lib/engine/fx.ts:75-82 | `subtractDays(s, n)` is the text of the date n days before the one s denotes |
| CustomerFx.FirstOnOrBeforeIsLatest | apps/customer/src/lib/engine/fx.ts:54-61 | on a newest-first table the first entry on or before a day is the latest such entry |
| RootFx.LeadingRun | src/lib/engine/fx.ts:31-38 | the scan goes past exactly the leading entries dated on or before the date |
| RootFx.PickRateOnOrBeforeRoot | src/lib/engine/fx.ts:21-41 | the scan with `break` returns exactly `PickRateRoot`: rate 1 for an empty table, else the last entry of the leading run, or the first entry |
| RootFx.PickRateRootFromTable | src/lib/engine/fx.ts:31-40 | the result is always an entry's rates; the first entry when it is already dated after the trade |
| RootFx.SuffixIrrelevant | src/lib/engine/fx.ts:35-37 | entries after the first one dated past the trade date never matter |
| RootFx.AscendingGivesLatest | src/lib/engine/fx.ts:30-38 | on an ascending table the result is the latest entry on or before the date |
| FxCases.SameDayRate | src/lib/engine/__tests__/fx.test.ts:15-19 | the trade date's own row gives 156.00 / 154.00 |
| FxCases.LaterThanTable | src/lib/engine/__tests__/fx.test.ts:21-26 | a date after the newest row takes the newest row, 156.50 / 154.50 |
| FxCases.WeekendTakesFriday | src/lib/engine/__tests__/fx.test.ts:28-33 | Saturday 2024-12-14 takes Friday's 154.00 / 152.00 |
| FxCases.ZeroRatesSkipped | src/lib/engine/__tests__/fx.test.ts:35-49 | three zero-rate days are skipped one day at a time, giving 155.00 / 153.00 |
| FxCases.EmptyTableRate | src/lib/engine/__tests__/fx.test.ts:51-55 | an empty table gives 1 / 1 |
| FxCases.BeforeTableFallsBack | src/lib/engine/__tests__/fx.test.ts:57-61 | a date before the oldest row falls back to the oldest row, 153.50 / 151.50 |
| FxCases.WindowExhaustedFallsBack | src/lib/engine/__tests__/fx.test.ts:63-81 | six zero days exhaust the five-day window, so the last row 149.50 / 147.50 is used although a usable row follows |
| FxCases.NoneInWindow | apps/customer/src/lib/engine/fx.ts:69-71 | a trade date whose whole window lies before every row takes the last row |
| FxCases.RootScanOnNewestFirstTable | src/lib/engine/fx.ts:31-38 | on the test's newest-first table the root scan stops at once and returns 156.50 / 154.50, unlike the customer lookup |
| ReplayOrder.ReplayLeIsTotalPreorder | apps/customer/src/lib/engine/movingAverage.ts:19-22 | the comparator (date, then purchase before sale) is a total preorder |
| ReplayOrder.SortForReplay | apps/customer/src/lib/engine/movingAverage.ts:14-22 | the replay sequence is a permutation of the trades |
| ReplayOrder.SortForReplayOrdered | apps/customer/src/lib/engine/movingAverage.ts:19-22 | dates never decrease along the replay, and on one date no sale precedes a purchase |
| ReplayOrder.SortForReplayStable | apps/customer/src/lib/engine/calc.ts:40-43 | trades of one date and one activity keep their input order |
| ReplayOrder.NormaliseSale | apps/customer/src/app/api/submission/route.ts:84-86 | a sale with a positive quantity is negated; everything else is unchanged |
| ReplayOrder.SortForReplayNormalised | apps/customer/src/app/api/submission/route.ts:84-86 | normalising and then sorting is sorting and then normalising |
| MovingAverage.InitYearMap | apps/customer/src/lib/engine/movingAverage.ts:28-36 | one zero summary per distinct requested year, in first-request order |
| MovingAverage.NewYearMap | apps/customer/src/lib/engine/movingAverage.ts:28-36 | the loop builds exactly `InitYearMap` |
| MovingAverage.CreditYear | apps/customer/src/lib/engine/movingAverage.ts:81-86 | crediting a sale keeps the year entries and their order; the entry of the sale's year gains its quantity, proceeds and gain, every other entry is unchanged |
| MovingAverage.HeldCost | apps/customer/src/lib/engine/movingAverage.ts:77 | the cost basis of what is left is holdings times the unchanged unit cost, or 0 |
| MovingAverage.Purchase | apps/customer/src/lib/engine/movingAverage.ts:44-53 | a purchase adds its quantity and its yen cost; the unit cost is the cost per share rounded up (0 when nothing is held); a lot is appended |
| MovingAverage.Sale | apps/customer/src/lib/engine/movingAverage.ts:54-99 | a sale fails with the over-sell error exactly when it exceeds the holding; otherwise it keeps the unit cost (or zeroes it), credits its year and consumes lots |
| MovingAverage.ConsumeFromFront | apps/customer/src/lib/engine/movingAverage.ts:89-98 | the `while` loop leaves exactly `ConsumeLots` |
| MovingAverage.ApplyTrade | apps/customer/src/lib/engine/movingAverage.ts:40-99 | one pass of the loop body on the running variables is one replay step |
| MovingAverage.CalcMovingAverage | apps/customer/src/lib/engine/movingAverage.ts:9-126 | the method returns exactly `MovingAverageOf(input, table)` |
| MovingAverage.ConsumeLotsTotal | apps/customer/src/lib/engine/movingAverage.ts:89-98 | taking r off a queue holding at least r lowers its total by exactly r |
| MovingAverage.ConsumeLotsFront | apps/customer/src/lib/engine/movingAverage.ts:89-98 | a sale leaves a suffix of the lots, the head possibly reduced but not to zero |
| MovingAverage.RunHoldings | apps/customer/src/lib/engine/movingAverage.ts:49-71 | after a successful replay the holding has moved by the net quantity traded |
| MovingAverage.RunFailure | apps/customer/src/lib/engine/movingAverage.ts:71-74 | the replay fails exactly when some sale exceeds the holding before it, with the first such sale's error |
| MovingAverage.HoldingsNeverNegative | apps/customer/src/lib/engine/movingAverage.ts:71-74 | with positive purchases, a successful replay never lets the holding go negative |
| MovingAverage.RunLotsTotal | apps/customer/src/lib/engine/movingAverage.ts:53-98 | the lots always add up to the holding |
| MovingAverage.RunYearTotals | apps/customer/src/lib/engine/movingAverage.ts:61-86 | each year entry gains exactly the quantity, proceeds and realised gain (`GainsOf`, each sale at the unit cost reached before it) of the sales dated in its year |
| MovingAverage.FinalYearMap | apps/customer/src/lib/engine/movingAverage.ts:28-99 | the final year map has one entry per requested year, holding that year's sale quantity, proceeds and realised gain along the replay order |
| MovingAverage.SummariesOfYearMap | apps/customer/src/lib/engine/movingAverage.ts:103-110 | sorting and rounding keeps the years, strictly ascending, each entry rounded |
| MovingAverage.MovingAverageSummaries | apps/customer/src/lib/engine/movingAverage.ts:103-110 | a successful result has one summary per requested year, ascending, with the rounded quantity, proceeds and realised gain of that year's sales |
| MovingAverage.MovingAverageHoldings | apps/customer/src/lib/engine/movingAverage.ts:113-122 | `years` is the requested years sorted; every final holding carries the same unit cost; the lots add up to the net quantity |
| MovingAverage.SaleIgnoresSign | apps/customer/src/lib/engine/movingAverage.ts:56 | two sales that differ only in the sign of their quantity have the same effect |
| MovingAverage.RunNormalised | apps/customer/src/lib/engine/movingAverage.ts:56 | normalising the sales does not change the replay |
| MovingAverage.MovingAverageOfNormalised | apps/customer/src/app/api/submission/route.ts:84-90 | the handler's negation of sale quantities leaves the calculation's result unchanged |
| MovingAverage.BasicFlowFigures | apps/customer/src/lib/engine/__tests__/movingAverage.test.ts:34-76 | the basic flow: acquisition 2,183,955, unit cost 21,840, gross 2,799,000, commission 787, gain 615,787, nothing left |
| MovingAverage.BasicFlowCommission | apps/customer/src/lib/engine/__tests__/movingAverage.test.ts:64-69 | the basic flow's sale gains 615,787 with the commission added and 614,213 with it deducted |
| MovingAverage.NetRealizedJPY | apps/customer/src/lib/engine/movingAverage.ts:61-68 | the gain with the sale commission deducted: gain + acquisition cost + commission = proceeds |
| MovingAverage.CommissionAddedTwice | apps/customer/src/lib/engine/movingAverage.ts:68 | the gain as written exceeds the deducted gain by twice the commission, and exceeds proceeds minus cost whenever there is a commission |
| MovingAverage.RateOnListedDay | apps/customer/src/lib/engine/fx.ts:50-66 | a trade on a day whose first row on or before it has usable rates is converted at that row |
| MovingAverage.UsdPurchaseRate | apps/customer/src/lib/engine/__tests__/movingAverage.test.ts:11-18 | the mocked USD table converts 2024-01-10 at 145.50 / 143.50 |
| MovingAverage.UsdSaleRate | apps/customer/src/lib/engine/__tests__/movingAverage.test.ts:11-18 | the mocked USD table converts 2024-06-15 at 157.50 / 155.50 |
| MovingAverage.BasicFlowEndToEnd | apps/customer/src/lib/engine/__tests__/movingAverage.test.ts:34-76 | the USD basic flow against the mocked table: one 2024 summary (100, 2,799,000, 615,787) and no holdings |
| MovingAverage.BasicFlowReplay | apps/customer/src/lib/engine/movingAverage.ts:40-99 | any table giving the scenario's two rates replays the basic flow to an empty position with the 2024 totals |
| MovingAverage.EurLotsScenario | apps/customer/src/lib/engine/__tests__/movingAverage.test.ts:78-121 | two EUR lots of 50 on 2024-01-10 and a sale of 75 give, for every rate table, one 2024 summary with sale quantity 75 and one remaining lot of 25 from 2024-01-10 |
| MovingAverage.TwoYearsScenario | apps/customer/src/lib/engine/__tests__/movingAverage.test.ts:123-180 | buying 100 and selling 50 in 2024 and 50 in 2025 gives, for every rate table, a 2024 summary and then a 2025 summary, each with sale quantity 50, and no holdings |
| MovingAverage.EurLotsReplay | apps/customer/src/lib/engine/movingAverage.ts:40-99 | the EUR-lots trades replay, at any rates, to a 2024 entry with sale quantity 75 and the single lot of 25 left by the first-in order |
| MovingAverage.TwoYearsReplay | apps/customer/src/lib/engine/movingAverage.ts:40-99 | the two-year trades replay, at any rates, to a 2024 and a 2025 entry each with sale quantity 50 and no lots |
| MovingAverage.RunThree | apps/customer/src/lib/engine/movingAverage.ts:40-99 | replaying three trades is the three steps of the loop, in order |
| MovingAverage.OversellScenario | apps/customer/src/lib/engine/__tests__/movingAverage.test.ts:182-209 | buying 100 and selling 150 in USD against the mocked table fails with the over-sell error of 2024-06-15 |
| MovingAverage.OversellFrom | apps/customer/src/lib/engine/movingAverage.ts:71-74 | buying 100 and later selling 150 fails with the sale's error, whatever the currency and the rate table |
| FifoGains.InitYearMap | apps/customer/src/lib/engine/calc.ts:53-63 | one zero summary per distinct requested year |
| FifoGains.NewYearMap | apps/customer/src/lib/engine/calc.ts:53-63 | the loop builds exactly `InitYearMap` |
| FifoGains.CreditYear | apps/customer/src/lib/engine/calc.ts:108-115 | crediting a sale keeps the year entries and their order; the entry of the sale's year gains its quantity, proceeds, cost basis and gain (proceeds less cost basis), every other entry is unchanged |
| FifoGains.Sale | apps/customer/src/lib/engine/calc.ts:79-128 | a sale fails, with the over-sell error of its date, exactly when it exceeds the lots' total |
| FifoGains.FifoCostOf | apps/customer/src/lib/engine/calc.ts:87-97 | the `for` loop with `break` computes exactly `FifoCost` |
| FifoGains.ConsumeFromFront | apps/customer/src/lib/engine/calc.ts:117-127 | the `while` loop leaves exactly `ConsumeLots` |
| FifoGains.PurchaseStepIs | apps/customer/src/lib/engine/calc.ts:68-78 | the purchase branch appends a lot at the cost per share, commission included |
| FifoGains.ApplyTrade | apps/customer/src/lib/engine/calc.ts:65-128 | one pass of the loop body is one replay step |
| FifoGains.CalcCapitalGains | apps/customer/src/lib/engine/calc.ts:33-156 | the method returns exactly `CapitalGainsOf(input)` |
| FifoGains.ConsumeLotsTotal | apps/customer/src/lib/engine/calc.ts:117-127 | taking r off a queue holding at least r lowers its total by exactly r |
| FifoGains.ConsumeLotsFront | apps/customer/src/lib/engine/calc.ts:117-127 | first in, first out: what is left is a suffix, the head possibly reduced but keeping its date and unit cost |
| FifoGains.FifoCostConserved | apps/customer/src/lib/engine/calc.ts:87-127 | cost charged to a sale plus the cost of the lots left equals the cost of the lots before |
| FifoGains.PurchaseLotValue | apps/customer/src/lib/engine/calc.ts:70-78 | a purchase's lot is worth exactly quantity times price plus commission |
| FifoGains.RunLotsTotal | apps/customer/src/lib/engine/calc.ts:74-127 | after a successful replay the lots hold the net quantity traded |
| FifoGains.RunFailure | apps/customer/src/lib/engine/calc.ts:99-103 | the replay fails exactly when some sale exceeds what is held before it, with the first such sale's error |
| FifoGains.RunYearTotals | apps/customer/src/lib/engine/calc.ts:87-115 | each year entry gains exactly its year's sale quantities and net proceeds, the FIFO cost those sales draw from the lots held before each of them (`CostsOf`), and that proceeds less cost as gain |
| FifoGains.RunCostConserved | apps/customer/src/lib/engine/calc.ts:87-127 | with every sale in a requested year, cost in the lots plus cost charged to the years equals what the purchases cost |
| FifoGains.FinalYearMap | apps/customer/src/lib/engine/calc.ts:53-129 | the final year map: one entry per requested year, with its sales' quantity and proceeds, the FIFO cost they draw along the replay order, and gain = proceeds - cost basis |
| FifoGains.KeepRequestedAll | apps/customer/src/lib/engine/calc.ts:133 | the filter on requested years keeps every entry of a map built from them |
| FifoGains.SortedYearsStrict | apps/customer/src/lib/engine/calc.ts:134 | sorting a map with distinct years orders the years strictly |
| FifoGains.RoundedGainClose | apps/customer/src/lib/engine/calc.ts:138-140 | the rounded gain is within one of rounded proceeds less rounded cost basis |
| FifoGains.SummariesOfYearMap | apps/customer/src/lib/engine/calc.ts:132-141 | each summary is the rounding of one map entry |
| FifoGains.CapitalGainsSummaries | apps/customer/src/lib/engine/calc.ts:132-141 | a successful result has one summary per requested year, ascending, each with the rounded quantity, proceeds, FIFO cost basis and gain of that year's sales |
| FifoGains.CapitalGainsHoldings | apps/customer/src/lib/engine/calc.ts:143-152 | `years` is the requested years sorted; the lots hold the net quantity; cost is conserved |
| FifoGains.CapitalGainsFailure | apps/customer/src/lib/engine/calc.ts:99-103 | the calculation fails exactly when, in replay order, some sale exceeds what the trades before it left, with that sale's error |
| FifoGains.CapitalGainsOfFailed | apps/customer/src/lib/engine/calc.ts:99-103 | the calculation fails exactly when its replay does |
| FifoGains.SaleIgnoresSign | apps/customer/src/lib/engine/calc.ts:81 | two sales that differ only in the sign of their quantity have the same effect |
| FifoGains.RunNormalised | apps/customer/src/lib/engine/calc.ts:81 | the sign of a sale's quantity does not matter to the replay |
| FifoGains.CapitalGainsOfNormalised | apps/customer/src/lib/engine/__tests__/calc.test.ts:207-236 | negating sale quantities, as the handler does, leaves the result unchanged |
| FifoGains.BuyThenSellAll | apps/customer/src/lib/engine/calc.ts:68-115 | selling exactly one purchase charges its whole cost and empties the lots |
| FifoGains.BuyThenOversell | apps/customer/src/lib/engine/calc.ts:99-103 | buying q and selling more than q fails with the sale's error |
| FifoGains.SimpleRoundTrip | apps/customer/src/lib/engine/__tests__/calc.test.ts:6-42 | test A: proceeds 17,995, cost 15,010, gain 2,985, no lots left |
| FifoGains.BuyTwiceSellPart | apps/customer/src/lib/engine/calc.ts:87-127 | two purchases and a partial sale: the first lot is used up, the rest comes from the second |
| FifoGains.PartialFifoSale | apps/customer/src/lib/engine/__tests__/calc.test.ts:44-92 | test B: cost basis 100 x 100.1 + 50 x 120.1, and 50 left at 120.1 |
| FifoGains.SellInTwoYears | apps/customer/src/lib/engine/calc.ts:108-127 | one purchase sold in two parts in two requested years credits each year with its own sale at the purchase's unit cost |
| FifoGains.TwoYearsFrom | apps/customer/src/lib/engine/calc.ts:33-156 | such a submission gives two rounded summaries, earlier year first, and no lots |
| FifoGains.SalesInTwoYears | apps/customer/src/lib/engine/__tests__/calc.test.ts:94-142 | test C: 2024 gets 50 / 7,500 / 5,000 / 2,500 and 2025 gets 50 / 10,000 / 5,000 / 5,000 |
| FifoGains.OversellScenario | apps/customer/src/lib/engine/__tests__/calc.test.ts:144-171 | test D: selling 150 out of 100 fails with the error of 2024-06-15 |
| FifoGains.CommissionOnce | apps/customer/src/lib/engine/__tests__/calc.test.ts:173-205 | test E: proceeds 14,950, cost 10,000, gain 4,950 |
| Submission.TransactionProblemIff | apps/customer/src/app/api/submission/route.ts:48-81 | a trade has no problem exactly when it passes all five checks |
| Submission.FirstProblem | apps/customer/src/app/api/submission/route.ts:45-87 | the first failing trade and its check's message, or none when all pass |
| Submission.TradesPassed | apps/customer/src/app/api/submission/route.ts:45-87 | the loop never goes past the end of the trades |
| Submission.CheckTrades | apps/customer/src/app/api/submission/route.ts:45-87 | the loop over the array reports `FirstProblem` and negates the positive sale quantities of exactly the trades it passed |
| Submission.ValidateSubmission | apps/customer/src/app/api/submission/route.ts:14-87 | the handler answers 422 with the first failing check's message, or lets the calculation run |
| Submission.RejectedAt | apps/customer/src/app/api/submission/route.ts:45-53 | the loop stops at the first failing trade |
| Submission.EmailAndSymbolChecked | apps/customer/src/app/api/submission/route.ts:14-23 | a missing email or one without `@` is refused first; then a missing or blank symbol |
| Submission.AcceptedIff | apps/customer/src/app/api/submission/route.ts:14-87 | a body is accepted exactly when its header checks and every trade pass |
| Submission.FirstFailingTradeReported | apps/customer/src/app/api/submission/route.ts:48-53 | the error names the first failing trade by its 1-based position, with the first check it fails |
| Submission.YearLimitDiffers | src/app/api/submission/route.ts:23-36 | the customer handler refuses a sixth year that the root handler accepts |
| Submission.TxErrorPositionRoundTrip | apps/customer/src/app/api/submission/route.ts:50 | the trade number in a message reads back as the trade's index |
| Submission.NormaliseRawEffect | apps/customer/src/app/api/submission/route.ts:84-86 | normalisation negates a positive sale quantity and changes nothing else |
| Submission.NormaliseRawIdempotent | src/app/api/submission/route.ts:77-80 | normalising twice is normalising once |
| Submission.NormaliseRawKeepsValid | apps/customer/src/app/api/submission/route.ts:84-86 | normalisation keeps every trade valid |
| Submission.ToTransactionNormalised | src/app/api/submission/route.ts:77-80 | the handler's normalisation is the engine's normalisation of the same trade |
| Submission.ToTransactions | apps/customer/src/app/api/submission/route.ts:90 | the engine receives one transaction per checked trade |
| Submission.AcceptedTradesForEngine | apps/customer/src/app/api/submission/route.ts:45-90 | an accepted submission hands the engine ISO dates with a readable year, nonzero purchases, positive prices and non-negative commissions |
| Submission.ClassifyError | apps/customer/src/app/api/submission/route.ts:268-287 | the `catch` block answers 422 or 500 |
| Submission.ClassifyErrorIff | apps/customer/src/app/api/submission/route.ts:272-286 | 422 exactly when the message contains a marker word, and then with that message; otherwise 500 with the message or the generic text |
| Submission.NegativePurchaseAccepted | apps/customer/src/app/api/submission/route.ts:62-67 | a purchase of -10 passes every check and the replay then holds -10 shares |
| Submission.OversellIsUserError | src/app/api/submission/route.ts:130-138 | the engine's over-sell error reaches the user as a 422 with its message |
| Submission.MissingMessageIsServerError | src/app/api/submission/route.ts:141-144 | an error without a message, or with an empty one, gets the generic 500 |
| Queries.PdfCountAtMostEmailCount | packages/database/src/queries.ts:155-160 | a customer never has more generated reports than submissions |
| Queries.IndexOfEmail | packages/database/src/queries.ts:148 | `customerMap.get(email)` finds the entry with that email, or none when there is none |
| Queries.GetAllCustomers | packages/database/src/queries.ts:133-173 | the `forEach` and the sort return exactly `AllCustomers` |
| Queries.CustomerMapSummarises | packages/database/src/queries.ts:144-168 | the map has one entry per email, each summing up that email's records |
| Queries.AllCustomersFigures | packages/database/src/queries.ts:150-166 | each customer's counts are its email's records and reports; first and last are the earliest and latest of its times |
| Queries.AllCustomersDistinct | packages/database/src/queries.ts:142-172 | no two customers share an email |
| Queries.AllCustomersCover | packages/database/src/queries.ts:144-172 | an email has a customer exactly when it occurs in the records |
| Queries.AllCustomersOnePerEmail | packages/database/src/queries.ts:142-172 | exactly one customer per email that occurs |
| Queries.AllCustomersNewestFirst | packages/database/src/queries.ts:170-172 | the list is ordered by last submission, newest first |
| Queries.GetStats | packages/database/src/queries.ts:176-213 | the `forEach`, sort and slice return exactly `StatsOf` |
| Queries.StatsFigures | packages/database/src/queries.ts:181-212 | records counted, distinct emails counted (the same as the customer list), reports counted; all zero when empty |
| Queries.EmailSetIff | packages/database/src/queries.ts:197 | an email is counted exactly when it occurs in the records |
| Queries.IndexOfSymbol | packages/database/src/queries.ts:199 | `symbolCounts.get(symbol)` finds that symbol's entry, or none |
| Queries.SymbolTableCounts | packages/database/src/queries.ts:195-200 | one entry per symbol used, with its number of records |
| Queries.SortedSymbolTable | packages/database/src/queries.ts:202-204 | sorted most used first, each symbol once, with its count |
| Queries.PopularSymbolsListed | packages/database/src/queries.ts:202-205 | at most five symbols, each once, most used first, each with its count |
| Queries.PopularSymbolsAreTop | packages/database/src/queries.ts:202-205 | a used symbol left out means five are listed and each is used at least as often |
| Payment.FirstCardRun | apps/customer/src/app/payment/page.tsx:26-27 | the first match of `/\d{4,16}/` in a digit string: its first 16 digits, or nothing below four |
| Payment.SplitIntoGroups | apps/customer/src/app/payment/page.tsx:30-32 | the `for` loop cuts the digits into exactly `Chunks` |
| Payment.FormatCardNumber | apps/customer/src/app/payment/page.tsx:24-39 | the method returns exactly `CardNumberFormat(value)` |
| Payment.GroupedLayout | apps/customer/src/app/payment/page.tsx:34-35 | joined groups have a space at every fifth position and the digits in order elsewhere |
| Payment.DigitsOfGrouped | apps/customer/src/app/payment/page.tsx:34-35 | taking the digits of the grouped text gives the digits back |
| Payment.CardNumberLayout | apps/customer/src/app/payment/page.tsx:24-39 | below four digits the input is kept; otherwise at most 16 digits in groups of four, at most the field's 19 characters |
| Payment.CardNumberIdempotent | apps/customer/src/app/payment/page.tsx:192 | formatting what the field shows again changes nothing |
| Payment.ExpiryLayout | apps/customer/src/app/payment/page.tsx:41-47 | from two digits on, `MM / YY` with up to two more digits within seven characters; before that the digits typed |
| Payment.ExpiryIdempotent | apps/customer/src/app/payment/page.tsx:217 | formatting what the field shows again changes nothing |
| Payment.CvcLayout | apps/customer/src/app/payment/page.tsx:231 | the CVC is the first at most three digits of the input, and filtering it again changes nothing |

## Left out

- Loading the rate tables (`loadFxTable`: the JSON import or `fetch`, and its errors) is not modelled. The table is a parameter of the calculation.
- The module `./round` that `roundDown0` and `roundUp0` come from is not part of this model. They are read as rounding down and up to zero decimal places (floor and ceiling).
- Numbers are exact rationals. IEEE double rounding, overflow and the `NaN` that a zero-quantity purchase would give in `calc.ts` are not modelled.
- `subtractDays` uses the server's local time zone. The model uses the civil calendar, which is right for time zones at or east of UTC. For a time zone west of UTC, `new Date("YYYY-MM-DD")` falls on the previous local day.
- FifoGains.CalcCapitalGains: requires `NonZeroPurchases`. The unit cost divides by the purchase quantity; with a zero quantity JavaScript would produce `NaN` or an infinity, and the model leaves that case out. Both handlers refuse zero quantities before any calculation.
- FifoGains.CapitalGainsOf: requires `NonZeroPurchases`, for the same reason.
- Strings compare by code point, character by character. JavaScript's `<` and `<=` compare UTF-16 code units, and Dafny characters are Unicode scalar values. The two orders agree on the ASCII date strings compared here and can differ above U+FFFF.
- The replay's `localeCompare` on dates (movingAverage.ts:20, calc.ts:41) is modelled as the same code-point order. ICU collation differs from it in general, for example on letters and punctuation. On the `dddd-dd-dd` dates the handlers let through, both orders are the order of the digits.
- `Calendar.ParseDate` reads only text of the shape `dddd-dd-dd`. V8's fallback parser also accepts other text, such as `2024-1-5` or `2024/01/05`, as a local date. The handlers refuse every date of another shape before any calculation, so such text never reaches `subtractDays`.
- MovingAverage.HoldingsNeverNegative: requires positive purchase quantities. The handlers refuse only a zero or non-finite quantity, so a negative purchase is accepted and drives the holding below zero, as `Submission.NegativePurchaseAccepted` shows. The lemma states what holds for the submissions the forms produce.
- The moving-average replay keeps the gain as written, with the sale commission added (`MovingAverage.RealizedJPY`). The gain with the commission deducted is `MovingAverage.NetRealizedJPY`; see "Findings".
- The request body's JSON shapes are narrowed to the fields the checks read. Values of the wrong JavaScript type are not modelled; quantities, prices and commissions are finite numbers, infinities or `NaN`.
- The PDF report (`renderReportToBuffer`, `Report.tsx`), mail sending, database writes, Stripe checkout and the page rendering are not modelled.
- The current time that `new Date()` supplies for a record without `created_at` is the parameter `now` of the aggregations. The Firestore queries are not modelled: the records arrive as a sequence in query order.
- `calcMovingAverage`'s weekend-rate scenario (movingAverage.test.ts:211-254) asserts only that the proceeds are positive. It is covered by `MovingAverage.MovingAverageSummaries` and the lookup lemmas, not by a scenario lemma. The scenarios with several EUR lots and with two calendar years are proved by `MovingAverage.EurLotsScenario` and `MovingAverage.TwoYearsScenario`.
- The test F of `calc.test.ts` (a negative sale quantity) is covered by `FifoGains.CapitalGainsOfNormalised` and `FifoGains.SaleIgnoresSign`, not by a scenario lemma of its own.

## Findings

| source | as written | input that shows it | evidently intended | confidence | as-written member | corrected member |
|---|---|---|---|---|---|---|
| src/lib/engine/__tests__/fx.test.ts:2 | the test imports the root `pickRateOnOrBefore`, which stops at the first entry later than the date | its own table (fx.test.ts:5-13) with the date 2024-12-19: the root scan returns 156.50 / 154.50, while the test expects 156.00 / 154.00 | the customer lookup, whose day window and skipping of zero rates every case of the file expects | medium, not executed | FxCases.RootScanOnNewestFirstTable | FxCases.SameDayRate, FxCases.WeekendTakesFriday, FxCases.ZeroRatesSkipped |
| apps/customer/src/lib/engine/movingAverage.ts:68 | `realized = grossJPY + acquisitionCostForSold + commissionJPY` adds the sale commission to the gain | the basic flow of movingAverage.test.ts:34-76: 100 bought at 150 (commission 10, TTS 145.50), sold at 180 (commission 5, TTS 157.50, TTB 155.50) gains 615,787 | the commission is a cost and is deducted, giving 614,213, as the test's comment at movingAverage.test.ts:64-69 and `calc.ts:85` do | medium, not executed | MovingAverage.CommissionAddedTwice, MovingAverage.BasicFlowCommission | MovingAverage.NetRealizedJPY |
