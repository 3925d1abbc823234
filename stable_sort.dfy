/**
 * `Array.prototype.sort` with a consistent comparator. The language requires
 * the sort to be stable, so the result is the stable sort of the input:
 * ordered by the comparator, a permutation of the input, and elements that
 * compare equal keep their relative order. The comparator is given as `le`,
 * "compares as less than or equal".
 */
module StableSort {

  /** `le` is total and transitive: the comparator is consistent. */
  ghost predicate TotalPreorder<T(!new)>(le: (T, T) -> bool)
  {
    && (forall a, b :: le(a, b) || le(b, a))
    && (forall a, b, c :: le(a, b) && le(b, c) ==> le(a, c))
  }

  ghost predicate Sorted<T>(s: seq<T>, le: (T, T) -> bool)
  {
    forall i, j :: 0 <= i < j < |s| ==> le(s[i], s[j])
  }

  /** Places `x` after every element of `t` that is not greater than it. */
  function Insert<T>(t: seq<T>, x: T, le: (T, T) -> bool): (r: seq<T>)
    ensures multiset(r) == multiset(t) + multiset{x}
    decreases |t|
  {
    if t == [] || le(t[|t| - 1], x) then t + [x]
    else
      assert t == t[..|t| - 1] + [t[|t| - 1]];
      Insert(t[..|t| - 1], x, le) + [t[|t| - 1]]
  }

  function Sort<T>(s: seq<T>, le: (T, T) -> bool): (r: seq<T>)
    ensures multiset(r) == multiset(s) && |r| == |s|
  {
    if s == [] then []
    else
      assert s == s[..|s| - 1] + [s[|s| - 1]];
      var r := Insert(Sort(s[..|s| - 1], le), s[|s| - 1], le);
      assert |multiset(r)| == |r| && |multiset(s)| == |s|;
      r
  }

  lemma {:induction false} InsertSorted<T(!new)>(t: seq<T>, x: T, le: (T, T) -> bool)
    requires TotalPreorder(le) && Sorted(t, le)
    ensures Sorted(Insert(t, x, le), le)
    decreases |t|
  {
    if t != [] && !le(t[|t| - 1], x) {
      var init, last := t[..|t| - 1], t[|t| - 1];
      InsertSorted(init, x, le);
      var r' := Insert(init, x, le);
      forall i | 0 <= i < |r'| ensures le(r'[i], last) {
        assert r'[i] in multiset(r');
        if r'[i] != x {
          assert r'[i] in multiset(init);
          var p :| 0 <= p < |init| && init[p] == r'[i];
          assert t[p] == init[p];
        }
      }
      assert Insert(t, x, le) == r' + [last];
    }
  }

  /** The result of `Sort` is ordered by `le`. */
  lemma {:induction false} SortSorted<T(!new)>(s: seq<T>, le: (T, T) -> bool)
    requires TotalPreorder(le)
    ensures Sorted(Sort(s, le), le)
  {
    if s != [] {
      SortSorted(s[..|s| - 1], le);
      InsertSorted(Sort(s[..|s| - 1], le), s[|s| - 1], le);
    }
  }

  // ------------------------------------------------------------ stability

  /** The elements of `s` that compare equal to `k`, in the order they occur in `s`. */
  function EqualRun<T>(s: seq<T>, k: T, le: (T, T) -> bool): seq<T>
  {
    if s == [] then []
    else EqualRun(s[..|s| - 1], k, le) + (if le(s[|s| - 1], k) && le(k, s[|s| - 1]) then [s[|s| - 1]] else [])
  }

  lemma EqualRunSnoc<T>(a: seq<T>, e: T, k: T, le: (T, T) -> bool)
    ensures EqualRun(a + [e], k, le) == EqualRun(a, k, le) + EqualRun([e], k, le)
  {
    assert (a + [e])[..|a|] == a;
    assert [e][..0] == [];
  }

  /** An element greater than `x` cannot compare equal to `k` when `x` does. */
  lemma NotBothEqual<T(!new)>(last: T, x: T, k: T, le: (T, T) -> bool)
    requires TotalPreorder(le) && !le(last, x)
    ensures !(le(last, k) && le(k, x))
  {
  }

  lemma {:induction false} InsertEqualRun<T(!new)>(t: seq<T>, x: T, k: T, le: (T, T) -> bool)
    requires TotalPreorder(le)
    ensures EqualRun(Insert(t, x, le), k, le) == EqualRun(t, k, le) + EqualRun([x], k, le)
    decreases |t|
  {
    if t == [] || le(t[|t| - 1], x) {
      EqualRunSnoc(t, x, k, le);
    } else {
      var init, last := t[..|t| - 1], t[|t| - 1];
      assert t == init + [last];
      InsertEqualRun(init, x, k, le);
      var r' := Insert(init, x, le);
      assert Insert(t, x, le) == r' + [last];
      EqualRunSnoc(r', last, k, le);
      EqualRunSnoc(init, last, k, le);
      NotBothEqual(last, x, k, le);
      EqualRunSnoc([], x, k, le);
      EqualRunSnoc([], last, k, le);
      assert [] + [x] == [x] && [] + [last] == [last];
    }
  }

  /** Stability: elements that compare equal appear in `Sort(s)` in their input order. */
  lemma {:induction false} SortStable<T(!new)>(s: seq<T>, k: T, le: (T, T) -> bool)
    requires TotalPreorder(le)
    ensures EqualRun(Sort(s, le), k, le) == EqualRun(s, k, le)
  {
    if s != [] {
      var init, last := s[..|s| - 1], s[|s| - 1];
      assert Sort(s, le) == Insert(Sort(init, le), last, le);
      SortStable(init, k, le);
      InsertEqualRun(Sort(init, le), last, k, le);
      assert EqualRun([last], k, le) == [] + (if le(last, k) && le(k, last) then [last] else []);
    }
  }

  // --------------------------------------------- sorting commutes with a map

  /** `s.map(f)`. */
  function MapSeq<T>(s: seq<T>, f: T -> T): (r: seq<T>)
    ensures |r| == |s| && forall i :: 0 <= i < |s| ==> r[i] == f(s[i])
  {
    seq(|s|, i requires 0 <= i < |s| => f(s[i]))
  }

  lemma {:induction false} InsertMap<T(!new)>(t: seq<T>, x: T, f: T -> T, le: (T, T) -> bool)
    requires forall a, b :: le(f(a), f(b)) == le(a, b)
    ensures Insert(MapSeq(t, f), f(x), le) == MapSeq(Insert(t, x, le), f)
    decreases |t|
  {
    var mt := MapSeq(t, f);
    if t == [] || le(t[|t| - 1], x) {
      assert MapSeq(t + [x], f) == mt + [f(x)];
    } else {
      var init, last := t[..|t| - 1], t[|t| - 1];
      assert mt[..|mt| - 1] == MapSeq(init, f);
      InsertMap(init, x, f, le);
      assert MapSeq(Insert(init, x, le) + [last], f) == MapSeq(Insert(init, x, le), f) + [f(last)];
    }
  }

  /** Sorting by a comparator that `f` does not affect, and then applying `f`, is applying `f` and then sorting. */
  lemma {:induction false} SortMap<T(!new)>(s: seq<T>, f: T -> T, le: (T, T) -> bool)
    requires forall a, b :: le(f(a), f(b)) == le(a, b)
    ensures Sort(MapSeq(s, f), le) == MapSeq(Sort(s, le), f)
  {
    if s != [] {
      var init, last := s[..|s| - 1], s[|s| - 1];
      var ms := MapSeq(s, f);
      assert ms[..|ms| - 1] == MapSeq(init, f) && ms[|ms| - 1] == f(last);
      assert Sort(ms, le) == Insert(Sort(MapSeq(init, f), le), f(last), le);
      SortMap(init, f, le);
      InsertMap(Sort(init, le), last, f, le);
      assert Sort(s, le) == Insert(Sort(init, le), last, le);
    }
  }

  // --------------------------------------------------- sums over a sequence

  function SumOf<T>(s: seq<T>, f: T -> real): real
  {
    if s == [] then 0.0 else SumOf(s[..|s| - 1], f) + f(s[|s| - 1])
  }

  lemma {:induction false} SumOfAppend<T>(a: seq<T>, b: seq<T>, f: T -> real)
    ensures SumOf(a + b, f) == SumOf(a, f) + SumOf(b, f)
    decreases |b|
  {
    if b == [] {
      assert a + b == a;
    } else {
      assert (a + b)[..|a + b| - 1] == a + b[..|b| - 1];
      SumOfAppend(a, b[..|b| - 1], f);
    }
  }

  lemma SumOfRemove<T>(b: seq<T>, j: int, f: T -> real)
    requires 0 <= j < |b|
    ensures SumOf(b, f) == SumOf(b[..j] + b[j + 1..], f) + f(b[j])
  {
    assert b == b[..j] + ([b[j]] + b[j + 1..]);
    SumOfAppend(b[..j], [b[j]] + b[j + 1..], f);
    SumOfAppend([b[j]], b[j + 1..], f);
    SumOfAppend(b[..j], b[j + 1..], f);
    assert SumOf([b[j]], f) == SumOf([], f) + f(b[j]);
  }

  lemma MultisetRemove<T>(b: seq<T>, j: int)
    requires 0 <= j < |b|
    ensures multiset(b[..j] + b[j + 1..]) == multiset(b) - multiset{b[j]}
  {
    assert b == b[..j] + [b[j]] + b[j + 1..];
  }

  /** A sum does not depend on the order of its terms. */
  lemma {:induction false} SumOfPermutation<T>(a: seq<T>, b: seq<T>, f: T -> real)
    requires multiset(a) == multiset(b)
    ensures SumOf(a, f) == SumOf(b, f)
    decreases |a|
  {
    if a == [] {
      assert |b| == |multiset(b)| == 0;
    } else {
      var init, x := a[..|a| - 1], a[|a| - 1];
      MultisetRemove(a, |a| - 1);
      assert a[..|a| - 1] + a[|a|..] == init;
      assert x in multiset(b);
      var j :| 0 <= j < |b| && b[j] == x;
      MultisetRemove(b, j);
      SumOfPermutation(init, b[..j] + b[j + 1..], f);
      SumOfRemove(b, j, f);
    }
  }

  // ------------------------------------------------------- distinct keys

  ghost predicate DistinctKeys<T, K>(s: seq<T>, key: T -> K)
  {
    forall i, j :: 0 <= i < j < |s| ==> key(s[i]) != key(s[j])
  }

  lemma TwoPositionsTwice<T>(s: seq<T>, i: int, j: int)
    requires 0 <= i < j < |s| && s[i] == s[j]
    ensures multiset(s)[s[i]] >= 2
  {
    assert s == s[..i] + [s[i]] + s[i + 1..j] + [s[j]] + s[j + 1..];
  }

  lemma {:induction false} TwiceTwoPositions<T>(s: seq<T>, v: T) returns (p: int, q: int)
    requires multiset(s)[v] >= 2
    ensures 0 <= p < q < |s| && s[p] == v && s[q] == v
    decreases |s|
  {
    var init := s[..|s| - 1];
    assert s == init + [s[|s| - 1]];
    if s[|s| - 1] == v {
      assert v in multiset(init);
      p :| 0 <= p < |init| && init[p] == v;
      q := |s| - 1;
    } else {
      p, q := TwiceTwoPositions(init, v);
    }
  }

  /** Two different positions of `b` come from two different positions of its permutation `a`. */
  lemma DistinctSources<T>(a: seq<T>, b: seq<T>, i: int, j: int) returns (p: int, q: int)
    requires multiset(a) == multiset(b) && 0 <= i < j < |b|
    ensures 0 <= p < |a| && 0 <= q < |a| && p != q && a[p] == b[i] && a[q] == b[j]
  {
    if b[i] == b[j] {
      TwoPositionsTwice(b, i, j);
      p, q := TwiceTwoPositions(a, b[i]);
    } else {
      assert b[i] in multiset(a) && b[j] in multiset(a);
      p :| 0 <= p < |a| && a[p] == b[i];
      q :| 0 <= q < |a| && a[q] == b[j];
    }
  }

  /** Reordering a sequence whose elements have distinct keys keeps the keys distinct. */
  lemma PermutationKeepsDistinctKeys<T, K>(a: seq<T>, b: seq<T>, key: T -> K)
    requires multiset(a) == multiset(b) && DistinctKeys(a, key)
    ensures DistinctKeys(b, key)
  {
    forall i, j | 0 <= i < j < |b| ensures key(b[i]) != key(b[j]) {
      var p, q := DistinctSources(a, b, i, j);
      if p < q { assert key(a[p]) != key(a[q]); } else { assert key(a[q]) != key(a[p]); }
    }
  }

  /** Every element of a permutation of `a` sits somewhere in `a`. */
  lemma PermutationSource<T>(a: seq<T>, b: seq<T>, k: nat) returns (p: nat)
    requires multiset(a) == multiset(b) && k < |b|
    ensures p < |a| && a[p] == b[k]
  {
    assert b[k] in multiset(a);
    var q :| 0 <= q < |a| && a[q] == b[k];
    p := q;
  }
}
