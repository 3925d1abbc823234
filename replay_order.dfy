/**
 * The order in which both calculators replay a submission: ascending by date,
 * a purchase before a sale on the same date, and otherwise the input order.
 */
module ReplayOrder {
  import opened Wrappers
  import opened Text
  import opened StableSort
  import opened EngineTypes

  /** The `sortOrder` tag: Purchased = 0, Sold = 1. */
  function SortOrder(a: Activity): int
  {
    if a == Purchased then 0 else 1
  }

  /** The comparator: by date, then by `sortOrder`. */
  predicate ReplayLe(a: Transaction, b: Transaction)
  {
    if a.date != b.date then StrLe(a.date, b.date) else SortOrder(a.activity) <= SortOrder(b.activity)
  }

  lemma ReplayLeIsTotalPreorder()
    ensures TotalPreorder(ReplayLe)
  {
    forall a: Transaction, b: Transaction ensures ReplayLe(a, b) || ReplayLe(b, a) {
      StrLeTotal(a.date, b.date);
    }
    forall a: Transaction, b: Transaction, c: Transaction | ReplayLe(a, b) && ReplayLe(b, c)
      ensures ReplayLe(a, c)
    {
      StrLeRefl(a.date);
      StrLeRefl(b.date);
      StrLeTrans(a.date, b.date, c.date);
      if StrLe(b.date, a.date) {
        StrLeAntisym(a.date, b.date);
      }
    }
  }

  /** `transactions.map(...).sort(...)`: the replay sequence. */
  function SortForReplay(txs: seq<Transaction>): (r: seq<Transaction>)
    ensures multiset(r) == multiset(txs) && |r| == |txs|
  {
    Sort(txs, ReplayLe)
  }

  /** Dates never decrease along the replay, and on one date no sale precedes a purchase. */
  lemma SortForReplayOrdered(txs: seq<Transaction>)
    ensures var r := SortForReplay(txs);
      forall i, j :: 0 <= i < j < |r| ==>
        StrLe(r[i].date, r[j].date) && (r[i].date == r[j].date ==> SortOrder(r[i].activity) <= SortOrder(r[j].activity))
  {
    ReplayLeIsTotalPreorder();
    SortSorted(txs, ReplayLe);
    var r := SortForReplay(txs);
    forall i, j | 0 <= i < j < |r|
      ensures StrLe(r[i].date, r[j].date)
    {
      assert ReplayLe(r[i], r[j]);
      StrLeRefl(r[i].date);
    }
  }

  /** The transactions of `s` on `date` with activity `act`, in order. */
  function SameDayActivity(s: seq<Transaction>, date: string, act: Activity): seq<Transaction>
  {
    if s == [] then []
    else
      var last := s[|s| - 1];
      SameDayActivity(s[..|s| - 1], date, act) + (if last.date == date && last.activity == act then [last] else [])
  }

  lemma {:induction false} EqualRunIsSameDayActivity(s: seq<Transaction>, k: Transaction)
    ensures EqualRun(s, k, ReplayLe) == SameDayActivity(s, k.date, k.activity)
  {
    if s != [] {
      var last := s[|s| - 1];
      EqualRunIsSameDayActivity(s[..|s| - 1], k);
      if StrLe(last.date, k.date) && StrLe(k.date, last.date) {
        StrLeAntisym(last.date, k.date);
      }
    }
  }

  /** Stability: trades of one date and one activity keep their input order. */
  lemma SortForReplayStable(txs: seq<Transaction>, date: string, act: Activity)
    ensures SameDayActivity(SortForReplay(txs), date, act) == SameDayActivity(txs, date, act)
  {
    var k := Transaction(date, act, 0.0, 0.0, None);
    ReplayLeIsTotalPreorder();
    SortStable(txs, k, ReplayLe);
    EqualRunIsSameDayActivity(txs, k);
    EqualRunIsSameDayActivity(SortForReplay(txs), k);
  }

  // ------------------------------------------------- sign of a sale

  /** The submission handler's normalisation: a sale given with a positive quantity is negated. */
  function NormaliseSale(tx: Transaction): (r: Transaction)
    ensures r.date == tx.date && r.activity == tx.activity && r.price == tx.price && r.commission == tx.commission
    ensures Abs(r.quantity) == Abs(tx.quantity)
    ensures r.activity == Sold ==> r.quantity <= 0.0
    ensures r.activity == Purchased ==> r.quantity == tx.quantity
  {
    if tx.activity == Sold && tx.quantity > 0.0 then tx.(quantity := -tx.quantity) else tx
  }

  /** Normalising each trade first and then sorting gives the normalised sorted trades. */
  lemma SortForReplayNormalised(txs: seq<Transaction>)
    ensures SortForReplay(MapSeq(txs, NormaliseSale)) == MapSeq(SortForReplay(txs), NormaliseSale)
  {
    SortMap(txs, NormaliseSale, ReplayLe);
  }

  /** Two trades already in replay order stay as they are. */
  lemma SortTwoInOrder(a: Transaction, b: Transaction)
    requires ReplayLe(a, b)
    ensures SortForReplay([a, b]) == [a, b]
  {
    assert [a, b][..1] == [a] && [a][..0] == [];
  }

  /** Three trades already in replay order stay as they are. */
  lemma SortThreeInOrder(a: Transaction, b: Transaction, c: Transaction)
    requires ReplayLe(a, b) && ReplayLe(b, c)
    ensures SortForReplay([a, b, c]) == [a, b, c]
  {
    assert [a, b, c][..2] == [a, b];
    SortTwoInOrder(a, b);
  }

  // ------------------------------------------- quantities along the replay

  /** The error a sale larger than the holding raises. */
  function OversellError(date: string): string
  {
    date + ": 保有数量を超える売却が発生しています"
  }

  /** The change a trade makes to the holding: `+q` for a purchase, `-|q|` for a sale. */
  function NetDelta(tx: Transaction): real
  {
    if tx.activity == Purchased then tx.quantity else -Abs(tx.quantity)
  }

  /** Sale `i` of the replay sells more than the holding left by the trades before it. */
  predicate Oversells(txs: seq<Transaction>, h0: real, i: int)
  {
    0 <= i < |txs| && txs[i].activity == Sold && h0 + SumOf(txs[..i], NetDelta) < Abs(txs[i].quantity)
  }

  /** A sale dated in `year` contributes its size to that year. */
  function SoldQtyOf(year: int): Transaction -> real
  {
    (tx: Transaction) => if tx.activity == Sold && YearOf(tx.date) == Some(year) then Abs(tx.quantity) else 0.0
  }
}
