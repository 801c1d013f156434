/** Sorting by values: the order `sorted(range(n), key=...)` gives, and sums that no order changes. */
module Orders {
  function UpTo(n: nat): (s: seq<nat>)
    ensures |s| == n && forall i | 0 <= i < n :: s[i] == i
  {
    seq(n, i requires 0 <= i < n => i)
  }

  /** Every index once, the least value's first. */
  ghost predicate Sorts(order: seq<nat>, values: seq<real>) {
    && multiset(order) == multiset(UpTo(|values|))
    && |order| == |values|
    && (forall r | 0 <= r < |order| :: order[r] < |values|)
    && (forall q, r | 0 <= q < r < |order| :: values[order[q]] <= values[order[r]])
  }

  // -------------------------------------------------------------------- a stable sort

  /** `i` put after all whose values are no greater. */
  function Inserted(order: seq<nat>, i: nat, values: seq<real>): seq<nat>
    requires i < |values| && forall r | 0 <= r < |order| :: order[r] < |values|
  {
    var n := |order|;
    if n == 0 || values[order[n - 1]] <= values[i] then order + [i]
    else Inserted(order[..n - 1], i, values) + [order[n - 1]]
  }

  ghost predicate SortedBy(order: seq<nat>, values: seq<real>) {
    && (forall r | 0 <= r < |order| :: order[r] < |values|)
    && (forall q, r | 0 <= q < r < |order| :: values[order[q]] <= values[order[r]])
  }

  lemma {:induction false} InsertedHolds(order: seq<nat>, i: nat, values: seq<real>)
    requires i < |values| && forall r | 0 <= r < |order| :: order[r] < |values|
    ensures multiset(Inserted(order, i, values)) == multiset(order) + multiset{i}
    ensures forall r | r in Inserted(order, i, values) :: r in order || r == i
    decreases |order|
  {
    var n := |order|;
    if n > 0 && values[order[n - 1]] > values[i] {
      InsertedHolds(order[..n - 1], i, values);
      assert order == order[..n - 1] + [order[n - 1]];
    }
  }

  lemma {:induction false} InsertedSorts(order: seq<nat>, i: nat, values: seq<real>)
    requires SortedBy(order, values) && i < |values|
    ensures SortedBy(Inserted(order, i, values), values)
    decreases |order|
  {
    var n := |order|;
    if n > 0 && values[order[n - 1]] > values[i] {
      InsertedSorts(order[..n - 1], i, values);
      InsertedHolds(order[..n - 1], i, values);
      var before := Inserted(order[..n - 1], i, values);
      forall r | 0 <= r < |before| ensures before[r] < |values| && values[before[r]] <= values[order[n - 1]] {
        assert before[r] in before;
      }
    }
  }

  lemma {:induction false} InsertedNext(order: seq<nat>, i: nat, values: seq<real>)
    requires SortedBy(order, values) && i < |values| && multiset(order) == multiset(UpTo(i))
    ensures SortedBy(Inserted(order, i, values), values)
    ensures multiset(Inserted(order, i, values)) == multiset(UpTo(i + 1))
  {
    InsertedSorts(order, i, values);
    InsertedHolds(order, i, values);
    assert UpTo(i + 1) == UpTo(i) + [i];
  }

  /** The first `n` indices in order. */
  function StableOrder(values: seq<real>, n: nat): (order: seq<nat>)
    requires n <= |values|
    ensures forall r | 0 <= r < |order| :: order[r] < |values|
    ensures SortedBy(order, values) && multiset(order) == multiset(UpTo(n))
  {
    if n == 0 then []
    else
      InsertedNext(StableOrder(values, n - 1), n - 1, values);
      Inserted(StableOrder(values, n - 1), n - 1, values)
  }

  lemma {:induction false} SameSize(a: seq<nat>, b: seq<nat>)
    requires multiset(a) == multiset(b)
    ensures |a| == |b|
  {
    assert |multiset(a)| == |a| && |multiset(b)| == |b|;
  }

  function Sorted(values: seq<real>): (order: seq<nat>)
    ensures Sorts(order, values)
  {
    SameSize(StableOrder(values, |values|), UpTo(|values|));
    StableOrder(values, |values|)
  }

  // ------------------------------------------------------------------ what no order changes

  function Total(f: nat -> int, s: seq<nat>): int {
    if s == [] then 0 else Total(f, s[..|s| - 1]) + f(s[|s| - 1])
  }

  lemma {:induction false} TotalAppend(f: nat -> int, a: seq<nat>, b: seq<nat>)
    ensures Total(f, a + b) == Total(f, a) + Total(f, b)
    decreases |b|
  {
    if b == [] {
      assert a + b == a;
    } else {
      assert (a + b)[..|a + b| - 1] == a + b[..|b| - 1];
      TotalAppend(f, a, b[..|b| - 1]);
    }
  }

  lemma {:induction false} TotalAtLeast(f: nat -> int, s: seq<nat>)
    requires forall i :: f(i) >= 0
    ensures Total(f, s) >= 0
  {
    if s != [] {
      TotalAtLeast(f, s[..|s| - 1]);
    }
  }

  /** How many of the first `n` a run of ranks holds. */
  lemma {:induction false} CountBetween(f: nat -> int, order: seq<nat>, a: nat, b: nat, n: nat)
    requires a <= b && n <= |order|
    requires forall q | 0 <= q < n :: f(order[q]) == if a <= q < b then 1 else 0
    ensures Total(f, order[..n]) == (if n < a then 0 else if n < b then n - a else b - a)
    decreases n
  {
    if n > 0 {
      assert order[..n][..n - 1] == order[..n - 1];
      CountBetween(f, order, a, b, n - 1);
    }
  }

  /** A run of ranks that each come to `c`. */
  lemma {:induction false} TotalSteady(f: nat -> int, order: seq<nat>, i: nat, k: nat, c: int)
    requires i <= k <= |order| && forall q | i <= q < k :: f(order[q]) == c
    ensures Total(f, order[..k]) == Total(f, order[..i]) + (k - i) * c
    decreases k
  {
    if k > i {
      assert order[..k][..k - 1] == order[..k - 1];
      TotalSteady(f, order, i, k - 1, c);
      assert (k - i) * c == (k - 1 - i) * c + c;
    }
  }

  lemma {:induction false} TotalOne(f: nat -> int, i: nat)
    ensures Total(f, [i]) == f(i)
  {
    assert [i][..0] == [];
  }

  /** A sequence less the one at `p`. */
  function Without(s: seq<nat>, p: nat): (rest: seq<nat>)
    requires p < |s|
    ensures |rest| == |s| - 1
  {
    s[..p] + s[p + 1..]
  }

  lemma {:induction false} Removed(s: seq<nat>, p: nat)
    requires p < |s|
    ensures multiset(Without(s, p)) == multiset(s) - multiset{s[p]}
  {
    assert s == s[..p] + ([s[p]] + s[p + 1..]);
    assert multiset(s) == multiset(s[..p]) + (multiset{s[p]} + multiset(s[p + 1..]));
  }

  lemma {:induction false} TotalThree(f: nat -> int, a: seq<nat>, x: nat, b: seq<nat>)
    ensures Total(f, a + ([x] + b)) == Total(f, a) + f(x) + Total(f, b)
  {
    TotalAppend(f, a, [x] + b);
    TotalAppend(f, [x], b);
    TotalOne(f, x);
  }

  lemma {:induction false} SplitAround(s: seq<nat>, p: nat)
    requires p < |s|
    ensures s == s[..p] + ([s[p]] + s[p + 1..])
  {
  }

  lemma {:induction false} TotalRemoved(f: nat -> int, s: seq<nat>, p: nat)
    requires p < |s|
    ensures Total(f, s) == Total(f, Without(s, p)) + f(s[p])
  {
    SplitAround(s, p);
    TotalThree(f, s[..p], s[p], s[p + 1..]);
    TotalAppend(f, s[..p], s[p + 1..]);
  }

  /** A sum over indices is the same in any order. */
  lemma {:induction false} TotalPermuted(f: nat -> int, a: seq<nat>, b: seq<nat>)
    requires multiset(a) == multiset(b)
    ensures Total(f, a) == Total(f, b)
    decreases |a|
  {
    SameSize(a, b);
    if a != [] {
      assert a[0] in multiset(b);
      var p :| 0 <= p < |b| && b[p] == a[0];
      Removed(a, 0);
      Removed(b, p);
      TotalPermuted(f, Without(a, 0), Without(b, p));
      TotalRemoved(f, a, 0);
      TotalRemoved(f, b, p);
    }
  }

  lemma {:induction false} UpToOnce(n: nat, i: nat)
    ensures multiset(UpTo(n))[i] == if i < n then 1 else 0
  {
    if n > 0 {
      UpToOnce(n - 1, i);
      assert UpTo(n) == UpTo(n - 1) + [n - 1];
    }
  }

  /** An order has each index at one place. */
  lemma {:induction false} OrderIsOne(order: seq<nat>, values: seq<real>, q: nat, r: nat)
    requires Sorts(order, values) && q < r < |order|
    ensures order[q] != order[r]
  {
    UpToOnce(|values|, order[r]);
    assert order == order[..r] + order[r..];
    assert multiset(order) == multiset(order[..r]) + multiset(order[r..]);
    assert order[..r][q] == order[q] && order[r..][0] == order[r];
    assert order[q] in multiset(order[..r]) && order[r] in multiset(order[r..]);
  }

  lemma {:induction false} OrderIsNew(order: seq<nat>, values: seq<real>, r: nat)
    requires Sorts(order, values) && r < |order|
    ensures forall q | 0 <= q < r :: order[q] != order[r]
  {
    forall q | 0 <= q < r ensures order[q] != order[r] {
      OrderIsOne(order, values, q, r);
    }
  }

  /** And each index has a place. */
  lemma {:induction false} OrderHasAll(order: seq<nat>, values: seq<real>, i: nat) returns (r: nat)
    requires Sorts(order, values) && i < |values|
    ensures r < |order| && order[r] == i
  {
    assert UpTo(|values|)[i] in multiset(UpTo(|values|));
    assert i in multiset(order);
    r :| 0 <= r < |order| && order[r] == i;
  }
}
