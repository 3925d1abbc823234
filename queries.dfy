/**
 * The administrator's aggregations over the stored submissions: the list of
 * customers, one per email address with its counts and first and last
 * submission times, newest first; and the dashboard figures, with the five
 * most used symbols. The records arrive already fetched, in query order.
 */
module Queries {
  import opened Wrappers
  import opened StableSort

  /**
   * A stored submission as the aggregations read it. `createdAt` is a time
   * in milliseconds, `None` while the server has not filled it in.
   */
  datatype SubmissionRecord = SubmissionRecord(email: string, symbol: string, pdfGenerated: bool, createdAt: Option<int>)

  datatype Customer = Customer(
    email: string,
    firstSubmission: int,
    lastSubmission: int,
    totalSubmissions: nat,
    totalPdfs: nat)

  /** `data.created_at?.toDate() || new Date()`: a missing time reads as the current time `now`. */
  function CreatedAt(doc: SubmissionRecord, now: int): int
  {
    if doc.createdAt.Some? then doc.createdAt.value else now
  }

  /** The number of records with email `e`. */
  function EmailCount(docs: seq<SubmissionRecord>, e: string): nat
  {
    if docs == [] then 0
    else EmailCount(docs[..|docs| - 1], e) + (if docs[|docs| - 1].email == e then 1 else 0)
  }

  /** The number of records with email `e` whose report was generated. */
  function PdfCount(docs: seq<SubmissionRecord>, e: string): nat
  {
    if docs == [] then 0
    else PdfCount(docs[..|docs| - 1], e) + (if docs[|docs| - 1].email == e && docs[|docs| - 1].pdfGenerated then 1 else 0)
  }

  lemma {:induction false} PdfCountAtMostEmailCount(docs: seq<SubmissionRecord>, e: string)
    ensures PdfCount(docs, e) <= EmailCount(docs, e)
  {
    if docs != [] {
      PdfCountAtMostEmailCount(docs[..|docs| - 1], e);
    }
  }

  lemma {:induction false} CountsZero(docs: seq<SubmissionRecord>, e: string)
    requires forall j :: 0 <= j < |docs| ==> docs[j].email != e
    ensures EmailCount(docs, e) == 0 && PdfCount(docs, e) == 0
  {
    if docs != [] {
      CountsZero(docs[..|docs| - 1], e);
    }
  }

  lemma CountsSnoc(init: seq<SubmissionRecord>, d: SubmissionRecord, e: string)
    ensures EmailCount(init + [d], e) == EmailCount(init, e) + (if d.email == e then 1 else 0)
    ensures PdfCount(init + [d], e) == PdfCount(init, e) + (if d.email == e && d.pdfGenerated then 1 else 0)
  {
    assert (init + [d])[..|init|] == init;
  }

  // ------------------------------------------------------- the customer map

  /** `customerMap.get(email)`: the position of the customer with that email. */
  function IndexOfEmail(m: seq<Customer>, e: string): (r: Option<nat>)
    ensures r.None? <==> forall k :: 0 <= k < |m| ==> m[k].email != e
    ensures r.Some? ==> r.value < |m| && m[r.value].email == e
  {
    if m == [] then None
    else if m[0].email == e then Some(0)
    else match IndexOfEmail(m[1..], e)
      case None => None
      case Some(k) => Some(k + 1)
  }

  /** The entry a customer's first record creates. */
  function NewCustomer(doc: SubmissionRecord, t: int): Customer
  {
    Customer(doc.email, t, t, 1, if doc.pdfGenerated then 1 else 0)
  }

  /** A later record of the same customer: one more submission, and the first and last times widened. */
  function AddRecord(c: Customer, doc: SubmissionRecord, t: int): Customer
  {
    c.(totalSubmissions := c.totalSubmissions + 1,
       totalPdfs := if doc.pdfGenerated then c.totalPdfs + 1 else c.totalPdfs,
       firstSubmission := if t < c.firstSubmission then t else c.firstSubmission,
       lastSubmission := if t > c.lastSubmission then t else c.lastSubmission)
  }

  /** One step of the `forEach`. The map keeps its insertion order. */
  function Accumulate(m: seq<Customer>, doc: SubmissionRecord, now: int): seq<Customer>
  {
    var t := CreatedAt(doc, now);
    match IndexOfEmail(m, doc.email)
    case None => m + [NewCustomer(doc, t)]
    case Some(k) => m[k := AddRecord(m[k], doc, t)]
  }

  /** The customer map after the `forEach` over `docs`. */
  function CustomerMap(docs: seq<SubmissionRecord>, now: int): seq<Customer>
  {
    if docs == [] then [] else Accumulate(CustomerMap(docs[..|docs| - 1], now), docs[|docs| - 1], now)
  }

  /** The comparator `b.last - a.last`: a customer whose last submission is later comes first. */
  predicate NewerOrSame(a: Customer, b: Customer)
  {
    a.lastSubmission >= b.lastSubmission
  }

  /** The result of `getAllCustomers`. */
  function AllCustomers(docs: seq<SubmissionRecord>, now: int): seq<Customer>
  {
    Sort(CustomerMap(docs, now), NewerOrSame)
  }

  /** `getAllCustomers`, over the fetched records. */
  method GetAllCustomers(docs: seq<SubmissionRecord>, now: int) returns (customers: seq<Customer>)
    ensures customers == AllCustomers(docs, now)
  {
    var m: seq<Customer> := [];
    var i := 0;
    while i < |docs|
      invariant 0 <= i <= |docs|
      invariant m == CustomerMap(docs[..i], now)
    {
      var doc := docs[i];
      var createdAt := CreatedAt(doc, now);
      var existing := IndexOfEmail(m, doc.email);
      if existing.None? {
        m := m + [Customer(doc.email, createdAt, createdAt, 1, if doc.pdfGenerated then 1 else 0)];
      } else {
        var c := m[existing.value];
        c := c.(totalSubmissions := c.totalSubmissions + 1);
        if doc.pdfGenerated {
          c := c.(totalPdfs := c.totalPdfs + 1);
        }
        if createdAt < c.firstSubmission {
          c := c.(firstSubmission := createdAt);
        }
        if createdAt > c.lastSubmission {
          c := c.(lastSubmission := createdAt);
        }
        m := m[existing.value := c];
      }
      assert docs[..i + 1][..i] == docs[..i];
      i := i + 1;
    }
    assert docs[..i] == docs;
    customers := Sort(m, NewerOrSame);
  }

  // ------------------------------------------------ what the map records

  /** `c` is the right summary of the records with its email. */
  predicate Describes(c: Customer, docs: seq<SubmissionRecord>, now: int)
  {
    && c.totalSubmissions == EmailCount(docs, c.email)
    && c.totalPdfs == PdfCount(docs, c.email)
    && (forall j :: 0 <= j < |docs| && docs[j].email == c.email
          ==> c.firstSubmission <= CreatedAt(docs[j], now) <= c.lastSubmission)
    && (exists j :: 0 <= j < |docs| && docs[j].email == c.email && CreatedAt(docs[j], now) == c.firstSubmission)
    && (exists j :: 0 <= j < |docs| && docs[j].email == c.email && CreatedAt(docs[j], now) == c.lastSubmission)
  }

  /** `m` has one entry per email of `docs`, each describing its records. */
  predicate Summarises(m: seq<Customer>, docs: seq<SubmissionRecord>, now: int)
  {
    DistinctEmails(m) && AllDescribe(m, docs, now) && AllFound(m, docs)
  }

  predicate DistinctEmails(m: seq<Customer>)
  {
    forall a, b :: 0 <= a < b < |m| ==> m[a].email != m[b].email
  }

  predicate AllDescribe(m: seq<Customer>, docs: seq<SubmissionRecord>, now: int)
  {
    forall k :: 0 <= k < |m| ==> Describes(m[k], docs, now)
  }

  predicate AllFound(m: seq<Customer>, docs: seq<SubmissionRecord>)
  {
    forall j :: 0 <= j < |docs| ==> IndexOfEmail(m, docs[j].email).Some?
  }

  lemma DescribesOther(c: Customer, init: seq<SubmissionRecord>, d: SubmissionRecord, now: int)
    requires Describes(c, init, now) && c.email != d.email
    ensures Describes(c, init + [d], now)
  {
    var docs := init + [d];
    CountsSnoc(init, d, c.email);
    var p :| 0 <= p < |init| && init[p].email == c.email && CreatedAt(init[p], now) == c.firstSubmission;
    var q :| 0 <= q < |init| && init[q].email == c.email && CreatedAt(init[q], now) == c.lastSubmission;
    assert docs[p] == init[p] && docs[q] == init[q];
    forall j | 0 <= j < |docs| && docs[j].email == c.email
      ensures c.firstSubmission <= CreatedAt(docs[j], now) <= c.lastSubmission
    {
      assert j < |init| && docs[j] == init[j];
    }
  }

  lemma DescribesNew(init: seq<SubmissionRecord>, d: SubmissionRecord, now: int)
    requires forall j :: 0 <= j < |init| ==> init[j].email != d.email
    ensures Describes(NewCustomer(d, CreatedAt(d, now)), init + [d], now)
  {
    var docs := init + [d];
    CountsZero(init, d.email);
    CountsSnoc(init, d, d.email);
    assert docs[|init|] == d;
    assert forall j :: 0 <= j < |init| ==> docs[j] == init[j];
  }

  lemma DescribesAdded(c: Customer, init: seq<SubmissionRecord>, d: SubmissionRecord, now: int)
    requires Describes(c, init, now) && c.email == d.email
    ensures Describes(AddRecord(c, d, CreatedAt(d, now)), init + [d], now)
  {
    var docs := init + [d];
    var t := CreatedAt(d, now);
    var c' := AddRecord(c, d, t);
    CountsSnoc(init, d, c.email);
    var p :| 0 <= p < |init| && init[p].email == c.email && CreatedAt(init[p], now) == c.firstSubmission;
    var q :| 0 <= q < |init| && init[q].email == c.email && CreatedAt(init[q], now) == c.lastSubmission;
    assert docs[p] == init[p] && docs[q] == init[q] && docs[|init|] == d;
    forall j | 0 <= j < |docs| && docs[j].email == c.email
      ensures c'.firstSubmission <= CreatedAt(docs[j], now) <= c'.lastSubmission
    {
      if j < |init| {
        assert docs[j] == init[j];
      }
    }
    if t < c.firstSubmission {
      assert CreatedAt(docs[|init|], now) == c'.firstSubmission;
    } else {
      assert CreatedAt(docs[p], now) == c'.firstSubmission;
    }
    if t > c.lastSubmission {
      assert CreatedAt(docs[|init|], now) == c'.lastSubmission;
    } else {
      assert CreatedAt(docs[q], now) == c'.lastSubmission;
    }
  }

  lemma AccumulateNew(m: seq<Customer>, init: seq<SubmissionRecord>, d: SubmissionRecord, now: int)
    requires Summarises(m, init, now) && IndexOfEmail(m, d.email).None?
    ensures Summarises(m + [NewCustomer(d, CreatedAt(d, now))], init + [d], now)
  {
    var c := NewCustomer(d, CreatedAt(d, now));
    NewEmailUnseen(m, init, d.email);
    NewDescribesAll(m, init, d, now);
    NewFindsAll(m, init, d, c);
    assert DistinctEmails(m + [c]) by {
      assert forall k :: 0 <= k < |m| ==> (m + [c])[k] == m[k];
    }
  }

  lemma NewEmailUnseen(m: seq<Customer>, init: seq<SubmissionRecord>, e: string)
    requires AllFound(m, init) && IndexOfEmail(m, e).None?
    ensures forall j :: 0 <= j < |init| ==> init[j].email != e
  {
    forall j | 0 <= j < |init| ensures init[j].email != e {
      assert IndexOfEmail(m, init[j].email).Some?;
    }
  }

  lemma NewDescribesAll(m: seq<Customer>, init: seq<SubmissionRecord>, d: SubmissionRecord, now: int)
    requires AllDescribe(m, init, now) && forall k :: 0 <= k < |m| ==> m[k].email != d.email
    requires forall j :: 0 <= j < |init| ==> init[j].email != d.email
    ensures AllDescribe(m + [NewCustomer(d, CreatedAt(d, now))], init + [d], now)
  {
    var m' := m + [NewCustomer(d, CreatedAt(d, now))];
    DescribesNew(init, d, now);
    forall k | 0 <= k < |m'| ensures Describes(m'[k], init + [d], now) {
      if k < |m| {
        assert m'[k] == m[k];
        DescribesOther(m[k], init, d, now);
      }
    }
  }

  lemma NewFindsAll(m: seq<Customer>, init: seq<SubmissionRecord>, d: SubmissionRecord, c: Customer)
    requires AllFound(m, init) && c.email == d.email
    ensures AllFound(m + [c], init + [d])
  {
    var docs := init + [d];
    var m' := m + [c];
    forall j | 0 <= j < |docs| ensures IndexOfEmail(m', docs[j].email).Some? {
      if j < |init| {
        var k := IndexOfEmail(m, init[j].email).value;
        assert docs[j] == init[j] && m'[k] == m[k];
      } else {
        assert m'[|m|].email == docs[j].email;
      }
    }
  }

  lemma AccumulateExisting(m: seq<Customer>, init: seq<SubmissionRecord>, d: SubmissionRecord, now: int, k: nat)
    requires Summarises(m, init, now) && k < |m| && m[k].email == d.email
    ensures Summarises(m[k := AddRecord(m[k], d, CreatedAt(d, now))], init + [d], now)
  {
    var m' := m[k := AddRecord(m[k], d, CreatedAt(d, now))];
    assert DistinctEmails(m') by {
      assert forall k' :: 0 <= k' < |m| ==> m'[k'].email == m[k'].email;
    }
    ExistingDescribesAll(m, init, d, now, k);
    ExistingFindsAll(m, init, d, k, m'[k]);
  }

  lemma ExistingDescribesAll(m: seq<Customer>, init: seq<SubmissionRecord>, d: SubmissionRecord, now: int, k: nat)
    requires DistinctEmails(m) && AllDescribe(m, init, now) && k < |m| && m[k].email == d.email
    ensures AllDescribe(m[k := AddRecord(m[k], d, CreatedAt(d, now))], init + [d], now)
  {
    var m' := m[k := AddRecord(m[k], d, CreatedAt(d, now))];
    DescribesAdded(m[k], init, d, now);
    forall k' | 0 <= k' < |m'| ensures Describes(m'[k'], init + [d], now) {
      if k' != k {
        DescribesOther(m[k'], init, d, now);
      }
    }
  }

  lemma ExistingFindsAll(m: seq<Customer>, init: seq<SubmissionRecord>, d: SubmissionRecord, k: nat, c: Customer)
    requires AllFound(m, init) && k < |m| && m[k].email == d.email && c.email == d.email
    ensures AllFound(m[k := c], init + [d])
  {
    var docs := init + [d];
    var m' := m[k := c];
    forall j | 0 <= j < |docs| ensures IndexOfEmail(m', docs[j].email).Some? {
      if j < |init| {
        var k' := IndexOfEmail(m, init[j].email).value;
        assert docs[j] == init[j] && m'[k'].email == m[k'].email;
      } else {
        assert m'[k].email == docs[j].email;
      }
    }
  }

  lemma AccumulateSummarises(m: seq<Customer>, init: seq<SubmissionRecord>, d: SubmissionRecord, now: int)
    requires Summarises(m, init, now)
    ensures Summarises(Accumulate(m, d, now), init + [d], now)
  {
    match IndexOfEmail(m, d.email)
    case None => AccumulateNew(m, init, d, now);
    case Some(k) => AccumulateExisting(m, init, d, now, k);
  }

  /** The map has one entry per email, and each entry sums up that email's records. */
  lemma {:induction false} CustomerMapSummarises(docs: seq<SubmissionRecord>, now: int)
    ensures Summarises(CustomerMap(docs, now), docs, now)
  {
    if docs != [] {
      var init := docs[..|docs| - 1];
      CustomerMapSummarises(init, now);
      assert docs == init + [docs[|docs| - 1]];
      AccumulateSummarises(CustomerMap(init, now), init, docs[|docs| - 1], now);
    }
  }

  // ----------------------------------------------------- the customer list

  /** Each customer in the list is an entry of the map. */
  lemma AllCustomersDescribe(docs: seq<SubmissionRecord>, now: int, k: nat)
    requires k < |AllCustomers(docs, now)|
    ensures Describes(AllCustomers(docs, now)[k], docs, now)
  {
    var m := CustomerMap(docs, now);
    CustomerMapSummarises(docs, now);
    var p := PermutationSource(m, AllCustomers(docs, now), k);
    assert AllDescribe(m, docs, now);
  }

  /**
   * Every customer in the list stands for the records with its email: the
   * submissions and generated reports are counted, so there are no more
   * reports than submissions, and the first and last submission are the
   * earliest and latest of those records' times.
   */
  lemma AllCustomersFigures(docs: seq<SubmissionRecord>, now: int, k: nat)
    requires k < |AllCustomers(docs, now)|
    ensures var c := AllCustomers(docs, now)[k];
      && c.totalSubmissions == EmailCount(docs, c.email) >= 1
      && c.totalPdfs == PdfCount(docs, c.email) <= c.totalSubmissions
      && c.firstSubmission <= c.lastSubmission
      && (forall j :: 0 <= j < |docs| && docs[j].email == c.email
            ==> c.firstSubmission <= CreatedAt(docs[j], now) <= c.lastSubmission)
      && (exists j :: 0 <= j < |docs| && docs[j].email == c.email && CreatedAt(docs[j], now) == c.firstSubmission)
      && (exists j :: 0 <= j < |docs| && docs[j].email == c.email && CreatedAt(docs[j], now) == c.lastSubmission)
  {
    var c := AllCustomers(docs, now)[k];
    AllCustomersDescribe(docs, now, k);
    PdfCountAtMostEmailCount(docs, c.email);
    var j :| 0 <= j < |docs| && docs[j].email == c.email && CreatedAt(docs[j], now) == c.firstSubmission;
    EmailCountPositive(docs, c.email, j);
  }

  lemma {:induction false} EmailCountPositive(docs: seq<SubmissionRecord>, e: string, j: nat)
    requires j < |docs| && docs[j].email == e
    ensures EmailCount(docs, e) >= 1
  {
    if j < |docs| - 1 {
      EmailCountPositive(docs[..|docs| - 1], e, j);
    }
  }

  /** No two customers in the list share an email. */
  lemma AllCustomersDistinct(docs: seq<SubmissionRecord>, now: int)
    ensures DistinctEmails(AllCustomers(docs, now))
  {
    var m := CustomerMap(docs, now);
    var r := AllCustomers(docs, now);
    CustomerMapSummarises(docs, now);
    assert DistinctKeys(m, (c: Customer) => c.email);
    PermutationKeepsDistinctKeys(m, r, (c: Customer) => c.email);
    assert DistinctKeys(r, (c: Customer) => c.email);
  }

  /** An email has a customer in the list exactly when it occurs in the records. */
  lemma AllCustomersCover(docs: seq<SubmissionRecord>, now: int, e: string)
    ensures var r := AllCustomers(docs, now);
      (exists k :: 0 <= k < |r| && r[k].email == e) <==> (exists j :: 0 <= j < |docs| && docs[j].email == e)
  {
    var m := CustomerMap(docs, now);
    var r := AllCustomers(docs, now);
    if k :| 0 <= k < |r| && r[k].email == e {
      AllCustomersDescribe(docs, now, k);
    }
    if j :| 0 <= j < |docs| && docs[j].email == e {
      CustomerMapSummarises(docs, now);
      var p := IndexOfEmail(m, e).value;
      var k := PermutationSource(r, m, p);
      assert r[k].email == e;
    }
  }

  /** There is exactly one customer for each email that occurs in the records. */
  lemma AllCustomersOnePerEmail(docs: seq<SubmissionRecord>, now: int, e: string)
    ensures var r := AllCustomers(docs, now);
      && (forall a, b :: 0 <= a < b < |r| ==> r[a].email != r[b].email)
      && ((exists k :: 0 <= k < |r| && r[k].email == e) <==> (exists j :: 0 <= j < |docs| && docs[j].email == e))
  {
    AllCustomersDistinct(docs, now);
    AllCustomersCover(docs, now, e);
  }

  /** The list is ordered by last submission, newest first. */
  lemma AllCustomersNewestFirst(docs: seq<SubmissionRecord>, now: int)
    ensures var r := AllCustomers(docs, now);
      forall a, b :: 0 <= a < b < |r| ==> r[a].lastSubmission >= r[b].lastSubmission
  {
    assert TotalPreorder(NewerOrSame);
    SortSorted(CustomerMap(docs, now), NewerOrSame);
  }

  // ------------------------------------------------------------ the figures

  datatype SymbolCount = SymbolCount(symbol: string, count: nat)

  datatype Stats = Stats(totalCustomers: nat, totalSubmissions: nat, totalPdfs: nat, popularSymbols: seq<SymbolCount>)

  /** How many symbols the dashboard lists. */
  const PopularLimit: nat := 5

  /** The set of email addresses that occur in the records. */
  function EmailSet(docs: seq<SubmissionRecord>): set<string>
  {
    if docs == [] then {} else EmailSet(docs[..|docs| - 1]) + {docs[|docs| - 1].email}
  }

  /** The number of records whose report was generated. */
  function PdfTotal(docs: seq<SubmissionRecord>): nat
  {
    if docs == [] then 0 else PdfTotal(docs[..|docs| - 1]) + (if docs[|docs| - 1].pdfGenerated then 1 else 0)
  }

  /** The number of records for symbol `sym`. */
  function SymbolRecords(docs: seq<SubmissionRecord>, sym: string): nat
  {
    if docs == [] then 0
    else SymbolRecords(docs[..|docs| - 1], sym) + (if docs[|docs| - 1].symbol == sym then 1 else 0)
  }

  /** `symbolCounts.get(symbol)`: the position of that symbol's entry. */
  function IndexOfSymbol(t: seq<SymbolCount>, sym: string): (r: Option<nat>)
    ensures r.None? <==> forall k :: 0 <= k < |t| ==> t[k].symbol != sym
    ensures r.Some? ==> r.value < |t| && t[r.value].symbol == sym
  {
    if t == [] then None
    else if t[0].symbol == sym then Some(0)
    else match IndexOfSymbol(t[1..], sym)
      case None => None
      case Some(k) => Some(k + 1)
  }

  /** `symbolCounts.set(symbol, (symbolCounts.get(symbol) || 0) + 1)`; a new key goes last. */
  function CountSymbol(t: seq<SymbolCount>, sym: string): seq<SymbolCount>
  {
    match IndexOfSymbol(t, sym)
    case None => t + [SymbolCount(sym, 1)]
    case Some(k) => t[k := SymbolCount(sym, t[k].count + 1)]
  }

  /** The symbol counts after the `forEach`, in insertion order. */
  function SymbolTable(docs: seq<SubmissionRecord>): seq<SymbolCount>
  {
    if docs == [] then [] else CountSymbol(SymbolTable(docs[..|docs| - 1]), docs[|docs| - 1].symbol)
  }

  /** The comparator `b.count - a.count`: the more used symbol comes first. */
  predicate MoreUsed(a: SymbolCount, b: SymbolCount)
  {
    a.count >= b.count
  }

  /** The sorted symbol counts cut after the first five. */
  function PopularSymbols(docs: seq<SubmissionRecord>): seq<SymbolCount>
  {
    var sorted := Sort(SymbolTable(docs), MoreUsed);
    if |sorted| <= PopularLimit then sorted else sorted[..PopularLimit]
  }

  /** The result of `getStats`. */
  function StatsOf(docs: seq<SubmissionRecord>): Stats
  {
    if docs == [] then Stats(0, 0, 0, [])
    else Stats(|EmailSet(docs)|, |docs|, PdfTotal(docs), PopularSymbols(docs))
  }

  /** `getStats`, over the fetched records. */
  method GetStats(docs: seq<SubmissionRecord>) returns (stats: Stats)
    ensures stats == StatsOf(docs)
  {
    if |docs| == 0 {
      return Stats(0, 0, 0, []);
    }
    var uniqueEmails: set<string> := {};
    var totalPdfs := 0;
    var symbolCounts: seq<SymbolCount> := [];
    var i := 0;
    while i < |docs|
      invariant 0 <= i <= |docs|
      invariant uniqueEmails == EmailSet(docs[..i])
      invariant totalPdfs == PdfTotal(docs[..i])
      invariant symbolCounts == SymbolTable(docs[..i])
    {
      var doc := docs[i];
      uniqueEmails := uniqueEmails + {doc.email};
      if doc.pdfGenerated {
        totalPdfs := totalPdfs + 1;
      }
      symbolCounts := CountSymbol(symbolCounts, doc.symbol);
      StatsStep(docs, i);
      i := i + 1;
    }
    assert docs[..i] == docs;
    var sorted := Sort(symbolCounts, MoreUsed);
    var popular := if |sorted| <= PopularLimit then sorted else sorted[..PopularLimit];
    assert popular == PopularSymbols(docs);
    return Stats(|uniqueEmails|, |docs|, totalPdfs, popular);
  }

  lemma StatsStep(docs: seq<SubmissionRecord>, i: nat)
    requires i < |docs|
    ensures EmailSet(docs[..i + 1]) == EmailSet(docs[..i]) + {docs[i].email}
    ensures PdfTotal(docs[..i + 1]) == PdfTotal(docs[..i]) + (if docs[i].pdfGenerated then 1 else 0)
    ensures SymbolTable(docs[..i + 1]) == CountSymbol(SymbolTable(docs[..i]), docs[i].symbol)
  {
    assert docs[..i + 1][..i] == docs[..i];
  }

  // ------------------------------------------------ what the figures count

  lemma {:induction false} EmailSetMembers(docs: seq<SubmissionRecord>, e: string)
    ensures e in EmailSet(docs) <==> exists j :: 0 <= j < |docs| && docs[j].email == e
  {
    if docs != [] {
      var init := docs[..|docs| - 1];
      EmailSetMembers(init, e);
      if j :| 0 <= j < |init| && init[j].email == e {
        assert docs[j] == init[j];
      }
      if j :| 0 <= j < |docs| && docs[j].email == e {
        if j < |init| {
          assert docs[j] == init[j];
        }
      }
    }
  }

  lemma {:induction false} EmailSetSize(docs: seq<SubmissionRecord>)
    ensures |EmailSet(docs)| <= |docs|
  {
    if docs != [] {
      EmailSetSize(docs[..|docs| - 1]);
    }
  }

  lemma {:induction false} PdfTotalAtMost(docs: seq<SubmissionRecord>)
    ensures PdfTotal(docs) <= |docs|
  {
    if docs != [] {
      PdfTotalAtMost(docs[..|docs| - 1]);
    }
  }

  /** The emails of the entries of `m`. */
  function EmailsOf(m: seq<Customer>): set<string>
  {
    if m == [] then {} else EmailsOf(m[..|m| - 1]) + {m[|m| - 1].email}
  }

  lemma {:induction false} EmailsOfMembers(m: seq<Customer>, e: string)
    ensures e in EmailsOf(m) <==> exists k :: 0 <= k < |m| && m[k].email == e
  {
    if m != [] {
      var init := m[..|m| - 1];
      EmailsOfMembers(init, e);
      if k :| 0 <= k < |init| && init[k].email == e {
        assert m[k] == init[k];
      }
      if k :| 0 <= k < |m| && m[k].email == e {
        if k < |init| {
          assert m[k] == init[k];
        }
      }
    }
  }

  lemma {:induction false} DistinctEmailsSize(m: seq<Customer>)
    requires DistinctEmails(m)
    ensures |EmailsOf(m)| == |m|
  {
    if m != [] {
      var init := m[..|m| - 1];
      assert DistinctEmails(init) by {
        forall a, b | 0 <= a < b < |init| ensures init[a].email != init[b].email {
          assert init[a] == m[a] && init[b] == m[b];
        }
      }
      DistinctEmailsSize(init);
      EmailsOfMembers(init, m[|m| - 1].email);
      assert forall k :: 0 <= k < |init| ==> init[k] == m[k];
      assert m[|m| - 1].email !in EmailsOf(init);
    }
  }

  lemma CustomerMapEmails(docs: seq<SubmissionRecord>, now: int)
    ensures EmailsOf(CustomerMap(docs, now)) == EmailSet(docs)
  {
    var m := CustomerMap(docs, now);
    CustomerMapSummarises(docs, now);
    forall e ensures e in EmailsOf(m) <==> e in EmailSet(docs) {
      EmailsOfMembers(m, e);
      EmailSetMembers(docs, e);
      if k :| 0 <= k < |m| && m[k].email == e {
        assert Describes(m[k], docs, now);
      }
      if j :| 0 <= j < |docs| && docs[j].email == e {
        assert IndexOfEmail(m, docs[j].email).Some?;
      }
    }
  }

  /**
   * The dashboard's figures: the number of records, the number of distinct
   * emails, which is also the length of the customer list and never more than
   * the records, and the number of generated reports; all zeros when there
   * are no records.
   */
  lemma StatsFigures(docs: seq<SubmissionRecord>, now: int)
    ensures var s := StatsOf(docs);
      && s.totalSubmissions == |docs|
      && s.totalCustomers == |EmailSet(docs)| == |AllCustomers(docs, now)|
      && s.totalCustomers <= s.totalSubmissions
      && s.totalPdfs == PdfTotal(docs) <= s.totalSubmissions
      && (docs == [] ==> s == Stats(0, 0, 0, []))
  {
    EmailSetSize(docs);
    PdfTotalAtMost(docs);
    var m := CustomerMap(docs, now);
    CustomerMapSummarises(docs, now);
    DistinctEmailsSize(m);
    CustomerMapEmails(docs, now);
  }

  /** Every email counted is one that occurs in the records, and every email that occurs is counted. */
  lemma EmailSetIff(docs: seq<SubmissionRecord>, e: string)
    ensures e in EmailSet(docs) <==> exists j :: 0 <= j < |docs| && docs[j].email == e
  {
    EmailSetMembers(docs, e);
  }

  // ---------------------------------------------------- the symbol counts

  lemma SymbolRecordsSnoc(init: seq<SubmissionRecord>, d: SubmissionRecord, sym: string)
    ensures SymbolRecords(init + [d], sym) == SymbolRecords(init, sym) + (if d.symbol == sym then 1 else 0)
  {
    assert (init + [d])[..|init|] == init;
  }

  lemma {:induction false} SymbolRecordsZero(docs: seq<SubmissionRecord>, sym: string)
    requires forall j :: 0 <= j < |docs| ==> docs[j].symbol != sym
    ensures SymbolRecords(docs, sym) == 0
  {
    if docs != [] {
      SymbolRecordsZero(docs[..|docs| - 1], sym);
    }
  }

  predicate DistinctSymbols(t: seq<SymbolCount>)
  {
    forall a, b :: 0 <= a < b < |t| ==> t[a].symbol != t[b].symbol
  }

  /** Each entry carries the number of records of its symbol, at least one. */
  predicate CountsRight(t: seq<SymbolCount>, docs: seq<SubmissionRecord>)
  {
    forall k :: 0 <= k < |t| ==> t[k].count == SymbolRecords(docs, t[k].symbol) && t[k].count >= 1
  }

  predicate SymbolsFound(t: seq<SymbolCount>, docs: seq<SubmissionRecord>)
  {
    forall j :: 0 <= j < |docs| ==> IndexOfSymbol(t, docs[j].symbol).Some?
  }

  lemma CountSymbolNew(t: seq<SymbolCount>, init: seq<SubmissionRecord>, d: SubmissionRecord)
    requires DistinctSymbols(t) && CountsRight(t, init) && SymbolsFound(t, init)
    requires IndexOfSymbol(t, d.symbol).None?
    ensures SymbolSummarises(t + [SymbolCount(d.symbol, 1)], init + [d])
  {
    var docs := init + [d];
    var t' := t + [SymbolCount(d.symbol, 1)];
    forall j | 0 <= j < |init| ensures init[j].symbol != d.symbol {
      assert IndexOfSymbol(t, init[j].symbol).Some?;
    }
    SymbolRecordsZero(init, d.symbol);
    forall k | 0 <= k < |t'| ensures t'[k].count == SymbolRecords(docs, t'[k].symbol) && t'[k].count >= 1 {
      SymbolRecordsSnoc(init, d, t'[k].symbol);
    }
    forall j | 0 <= j < |docs| ensures IndexOfSymbol(t', docs[j].symbol).Some? {
      if j < |init| {
        var k := IndexOfSymbol(t, init[j].symbol).value;
        assert docs[j] == init[j] && t'[k] == t[k];
      } else {
        assert t'[|t|].symbol == docs[j].symbol;
      }
    }
  }

  lemma CountSymbolExisting(t: seq<SymbolCount>, init: seq<SubmissionRecord>, d: SubmissionRecord, k: nat)
    requires DistinctSymbols(t) && CountsRight(t, init) && SymbolsFound(t, init)
    requires k < |t| && t[k].symbol == d.symbol
    ensures SymbolSummarises(t[k := SymbolCount(d.symbol, t[k].count + 1)], init + [d])
  {
    var docs := init + [d];
    var t' := t[k := SymbolCount(d.symbol, t[k].count + 1)];
    assert forall k' :: 0 <= k' < |t| ==> t'[k'].symbol == t[k'].symbol;
    forall k' | 0 <= k' < |t'| ensures t'[k'].count == SymbolRecords(docs, t'[k'].symbol) && t'[k'].count >= 1 {
      SymbolRecordsSnoc(init, d, t'[k'].symbol);
    }
    forall j | 0 <= j < |docs| ensures IndexOfSymbol(t', docs[j].symbol).Some? {
      if j < |init| {
        var k' := IndexOfSymbol(t, init[j].symbol).value;
        assert docs[j] == init[j] && t'[k'].symbol == t[k'].symbol;
      } else {
        assert t'[k].symbol == docs[j].symbol;
      }
    }
  }

  predicate SymbolSummarises(t: seq<SymbolCount>, docs: seq<SubmissionRecord>)
  {
    DistinctSymbols(t) && CountsRight(t, docs) && SymbolsFound(t, docs)
  }

  lemma CountSymbolSummarises(t: seq<SymbolCount>, init: seq<SubmissionRecord>, d: SubmissionRecord)
    requires SymbolSummarises(t, init)
    ensures SymbolSummarises(CountSymbol(t, d.symbol), init + [d])
  {
    match IndexOfSymbol(t, d.symbol)
    case None =>
      assert CountSymbol(t, d.symbol) == t + [SymbolCount(d.symbol, 1)];
      CountSymbolNew(t, init, d);
    case Some(k) =>
      assert CountSymbol(t, d.symbol) == t[k := SymbolCount(d.symbol, t[k].count + 1)];
      CountSymbolExisting(t, init, d, k);
  }

  /** The symbol table has one entry per symbol used, with that symbol's number of records. */
  lemma {:induction false} SymbolTableCounts(docs: seq<SubmissionRecord>)
    ensures SymbolSummarises(SymbolTable(docs), docs)
  {
    if docs != [] {
      var init := docs[..|docs| - 1];
      var d := docs[|docs| - 1];
      SymbolTableCounts(init);
      assert docs == init + [d];
      CountSymbolSummarises(SymbolTable(init), init, d);
    }
  }

  /** The sorted table: most used first, each symbol once, each with its count. */
  lemma SortedSymbolTable(docs: seq<SubmissionRecord>)
    ensures var sorted := Sort(SymbolTable(docs), MoreUsed);
      && Sorted(sorted, MoreUsed)
      && DistinctSymbols(sorted)
      && CountsRight(sorted, docs)
  {
    var t := SymbolTable(docs);
    var sorted := Sort(t, MoreUsed);
    SymbolTableCounts(docs);
    assert TotalPreorder(MoreUsed);
    SortSorted(t, MoreUsed);
    assert DistinctKeys(t, (c: SymbolCount) => c.symbol);
    PermutationKeepsDistinctKeys(t, sorted, (c: SymbolCount) => c.symbol);
    assert DistinctKeys(sorted, (c: SymbolCount) => c.symbol);
    forall k | 0 <= k < |sorted| ensures sorted[k].count == SymbolRecords(docs, sorted[k].symbol) && sorted[k].count >= 1 {
      assert sorted[k] in multiset(t);
      var q :| 0 <= q < |t| && t[q] == sorted[k];
    }
  }

  /**
   * The dashboard lists at most five symbols, each once, most used first,
   * each with the number of records of that symbol.
   */
  lemma PopularSymbolsListed(docs: seq<SubmissionRecord>)
    ensures var p := StatsOf(docs).popularSymbols;
      && |p| <= PopularLimit
      && (forall a, b :: 0 <= a < b < |p| ==> p[a].count >= p[b].count)
      && (forall a, b :: 0 <= a < b < |p| ==> p[a].symbol != p[b].symbol)
      && (forall k :: 0 <= k < |p| ==> p[k].count == SymbolRecords(docs, p[k].symbol) >= 1)
  {
    StatsPopular(docs);
    var sorted := Sort(SymbolTable(docs), MoreUsed);
    SortedSymbolTable(docs);
    var n := if |sorted| <= PopularLimit then |sorted| else PopularLimit;
    assert PopularSymbols(docs) == sorted[..n];
    TopOfSorted(sorted, docs, n);
  }

  lemma StatsPopular(docs: seq<SubmissionRecord>)
    ensures StatsOf(docs).popularSymbols == PopularSymbols(docs)
  {
    if docs == [] {
      assert SymbolTable(docs) == [];
    }
  }

  lemma TopOfSorted(sorted: seq<SymbolCount>, docs: seq<SubmissionRecord>, n: nat)
    requires Sorted(sorted, MoreUsed) && DistinctSymbols(sorted) && CountsRight(sorted, docs) && n <= |sorted|
    ensures var p := sorted[..n];
      && (forall a, b :: 0 <= a < b < |p| ==> p[a].count >= p[b].count)
      && (forall a, b :: 0 <= a < b < |p| ==> p[a].symbol != p[b].symbol)
      && (forall k :: 0 <= k < |p| ==> p[k].count == SymbolRecords(docs, p[k].symbol) >= 1)
  {
    var p := sorted[..n];
    assert forall k :: 0 <= k < |p| ==> p[k] == sorted[k];
    forall a, b | 0 <= a < b < |p| ensures p[a].count >= p[b].count {
      assert MoreUsed(sorted[a], sorted[b]);
    }
  }

  /**
   * A symbol that is used but not listed: five symbols are listed, and each
   * of them is used at least as often.
   */
  lemma PopularSymbolsAreTop(docs: seq<SubmissionRecord>, sym: string)
    requires exists j :: 0 <= j < |docs| && docs[j].symbol == sym
    requires IndexOfSymbol(StatsOf(docs).popularSymbols, sym).None?
    ensures var p := StatsOf(docs).popularSymbols;
      |p| == PopularLimit && forall k :: 0 <= k < |p| ==> p[k].count >= SymbolRecords(docs, sym)
  {
    StatsPopular(docs);
    var sorted := Sort(SymbolTable(docs), MoreUsed);
    var r := SortedPosition(docs, sym);
    var p := PopularSymbols(docs);
    assert forall k :: 0 <= k < |p| ==> p[k] == sorted[k];
    assert r >= PopularLimit;
    forall k | 0 <= k < |p| ensures p[k].count >= SymbolRecords(docs, sym) {
      assert MoreUsed(sorted[k], sorted[r]);
    }
  }

  /** A used symbol's place in the sorted table. */
  lemma SortedPosition(docs: seq<SubmissionRecord>, sym: string) returns (r: nat)
    requires exists j :: 0 <= j < |docs| && docs[j].symbol == sym
    ensures var sorted := Sort(SymbolTable(docs), MoreUsed);
      && r < |sorted| && sorted[r].symbol == sym && sorted[r].count == SymbolRecords(docs, sym)
      && Sorted(sorted, MoreUsed)
  {
    var t := SymbolTable(docs);
    SymbolTableCounts(docs);
    SortedSymbolTable(docs);
    var j :| 0 <= j < |docs| && docs[j].symbol == sym;
    var q := IndexOfSymbol(t, sym).value;
    r := PermutationSource(Sort(t, MoreUsed), t, q);
  }
}
