/**
 * Signs of paired differences: the upper binomial tail (`tail` of bench/src/against.rs) and McNemar's
 * exact test (`mcnemar` of agentbench/compare/stats.py), in exact arithmetic.
 */
module Binomial {
  function Choose(n: nat, k: nat): nat {
    if k == 0 then 1 else if n == 0 then 0 else Choose(n - 1, k - 1) + Choose(n - 1, k)
  }

  function Pow2(n: nat): (p: nat)
    ensures p > 0
  {
    if n == 0 then 1 else 2 * Pow2(n - 1)
  }

  /** The ways to choose from `from` to fewer than `past`. */
  function Ways(n: nat, from: nat, past: nat): nat {
    if past <= from then 0 else Ways(n, from, past - 1) + Choose(n, past - 1)
  }

  // -------------------------------------------------------------------- the running product

  lemma {:induction false} OneMore(w: nat, b: nat, i: nat, n: nat)
    requires i < n && b * (i + 1) == w * (n - 1 - i)
    ensures (w + b) * (i + 1) == w * n
  {
    assert (w + b) * (i + 1) == w * (i + 1) + b * (i + 1);
    assert w * (i + 1) + w * (n - 1 - i) == w * n;
  }

  lemma {:induction false} OneFewer(a: nat, w: nat, i: nat, n: nat)
    requires i <= n && w * i == a * (n - i)
    ensures (a + w) * (n - i) == w * n
  {
    assert (a + w) * (n - i) == a * (n - i) + w * (n - i);
    assert w * i + w * (n - i) == w * n;
  }

  /** One more chosen comes to n times the ways among one fewer. */
  lemma {:induction false} ChooseUp(n: nat, i: nat)
    requires i < n
    ensures Choose(n, i + 1) * (i + 1) == Choose(n - 1, i) * n
    decreases n, 0
  {
    ChooseNext(n - 1, i);
    OneMore(Choose(n - 1, i), Choose(n - 1, i + 1), i, n);
  }

  /** And so do those left out. */
  lemma {:induction false} ChooseDown(n: nat, i: nat)
    requires i < n
    ensures Choose(n, i) * (n - i) == Choose(n - 1, i) * n
    decreases n, 0
  {
    if i > 0 {
      ChooseNext(n - 1, i - 1);
      OneFewer(Choose(n - 1, i - 1), Choose(n - 1, i), i, n);
    }
  }

  /** One more chosen, from those left: what the running product multiplies by. */
  lemma {:induction false} ChooseNext(n: nat, i: nat)
    requires i <= n
    ensures Choose(n, i + 1) * (i + 1) == Choose(n, i) * (n - i)
    decreases n, 1
  {
    if i < n {
      ChooseUp(n, i);
      ChooseDown(n, i);
    } else {
      ChooseNone(n, i + 1);
    }
  }

  lemma {:induction false} ChooseNone(n: nat, k: nat)
    requires k > n
    ensures Choose(n, k) == 0
  {
    if n > 0 {
      ChooseNone(n - 1, k - 1);
      ChooseNone(n - 1, k);
    }
  }

  lemma {:induction false} ChooseAll(n: nat)
    ensures Choose(n, n) == 1
  {
    if n > 0 {
      ChooseAll(n - 1);
      ChooseNone(n - 1, n);
    }
  }

  lemma {:induction false} ChooseMirrors(n: nat, k: nat)
    requires k <= n
    ensures Choose(n, k) == Choose(n, n - k)
  {
    if k == 0 || k == n {
      ChooseAll(n);
    } else {
      ChooseMirrors(n - 1, k - 1);
      ChooseMirrors(n - 1, k);
    }
  }

  /** The upper tail from `k` on, summed term by term as a running product gives the terms. */
  method Tail(n: nat, k: nat) returns (p: real)
    ensures p == UpperTail(n, k)
  {
    var choose, sum := 1.0, 0.0;
    for i := 0 to n + 1
      invariant choose == Choose(n, i) as real
      invariant sum == Ways(n, k, i) as real
    {
      if i >= k {
        sum := sum + choose;
      }
      choose := NextChoice(n, i, choose);
    }
    p := sum / Pow2(n) as real;
  }

  function NextChoice(n: nat, i: nat, choose: real): (next: real)
    requires i <= n
    ensures choose == Choose(n, i) as real ==> next == Choose(n, i + 1) as real
  {
    ChooseNext(n, i);
    choose * (n - i) as real / (i + 1) as real
  }

  function UpperTail(n: nat, k: nat): real {
    Ways(n, k, n + 1) as real / Pow2(n) as real
  }

  // --------------------------------------------------------------- what a tail is of

  /** Every outcome of `n` fair coins, each as likely. */
  function Outcomes(n: nat): seq<seq<bool>> {
    if n == 0 then [[]] else With(false, Outcomes(n - 1)) + With(true, Outcomes(n - 1))
  }

  function With(first: bool, rest: seq<seq<bool>>): seq<seq<bool>> {
    if rest == [] then [] else [[first] + rest[0]] + With(first, rest[1..])
  }

  function Heads(coins: seq<bool>): nat {
    if coins == [] then 0 else (if coins[0] then 1 else 0) + Heads(coins[1..])
  }

  /** How many outcomes have `k` heads or more. */
  function Count(outcomes: seq<seq<bool>>, k: nat): nat {
    if outcomes == [] then 0 else (if Heads(outcomes[0]) >= k then 1 else 0) + Count(outcomes[1..], k)
  }

  lemma {:induction false} CountAppend(a: seq<seq<bool>>, b: seq<seq<bool>>, k: nat)
    ensures Count(a + b, k) == Count(a, k) + Count(b, k)
  {
    if a == [] {
      assert a + b == b;
    } else {
      assert (a + b)[1..] == a[1..] + b;
      CountAppend(a[1..], b, k);
    }
  }

  lemma {:induction false} CountWith(first: bool, rest: seq<seq<bool>>, k: nat)
    ensures Count(With(first, rest), k) == Count(rest, if first && k > 0 then k - 1 else k)
    decreases |rest|
  {
    if rest != [] {
      assert ([first] + rest[0])[1..] == rest[0];
      assert With(first, rest)[1..] == With(first, rest[1..]);
      CountWith(first, rest[1..], k);
    }
  }

  lemma {:induction false} WaysNext(n: nat, from: nat, past: nat)
    requires n > 0 && from > 0 && past > 0
    ensures Ways(n, from, past) == Ways(n - 1, from - 1, past - 1) + Ways(n - 1, from, past)
    decreases past
  {
    if past > from {
      WaysNext(n, from, past - 1);
    }
  }

  lemma {:induction false} WaysFirst(n: nat, past: nat)
    requires past > 0
    ensures Ways(n, 0, past) == 1 + Ways(n, 1, past)
    decreases past
  {
    if past > 1 {
      WaysFirst(n, past - 1);
    }
  }

  /** One coin more: what comes of the others, and of one head fewer of them. */
  lemma {:induction false} OutcomesNext(n: nat, k: nat)
    requires n > 0
    ensures Count(Outcomes(n), k) == Count(Outcomes(n - 1), k) + Count(Outcomes(n - 1), if k > 0 then k - 1 else 0)
  {
    CountAppend(With(false, Outcomes(n - 1)), With(true, Outcomes(n - 1)), k);
    CountWith(false, Outcomes(n - 1), k);
    CountWith(true, Outcomes(n - 1), k);
  }

  lemma {:induction false} ChoicesNext(n: nat, k: nat)
    requires n > 0
    ensures Ways(n, k, n + 1) == Ways(n - 1, k, n) + Ways(n - 1, if k > 0 then k - 1 else 0, n)
  {
    ChooseNone(n - 1, n);
    if k > 0 {
      WaysNext(n, k, n + 1);
    } else {
      WaysFirst(n, n + 1);
      WaysNext(n, 1, n + 1);
      WaysFirst(n - 1, n);
    }
  }

  lemma {:induction false} NoCoins(k: nat)
    ensures Ways(0, k, 1) == Count(Outcomes(0), k)
  {
    assert Outcomes(0)[1..] == [];
    assert Heads(Outcomes(0)[0]) == 0;
    if k > 0 {
      WaysNone(0, k);
    }
  }

  ghost predicate Agree(n: nat, k: nat) {
    Ways(n, k, n + 1) == Count(Outcomes(n), k)
  }

  lemma {:induction false} AgreeNext(n: nat, k: nat)
    requires Agree(n, k) && Agree(n, if k > 0 then k - 1 else 0)
    ensures Agree(n + 1, k)
  {
    OutcomesNext(n + 1, k);
    ChoicesNext(n + 1, k);
  }

  /** The ways to choose `k` or more are the outcomes with as many heads. */
  lemma {:induction false} WaysAreOutcomes(n: nat, k: nat)
    ensures Agree(n, k)
  {
    forall j: nat ensures Agree(0, j) {
      NoCoins(j);
    }
    for m := 0 to n
      invariant forall j: nat :: Agree(m, j)
    {
      var next := m + 1;
      forall j: nat ensures Agree(next, j) {
        AgreeNext(m, j);
      }
    }
  }

  lemma {:induction false} WaysNone(n: nat, k: nat)
    ensures k > n ==> Ways(n, k, n + 1) == 0
  {
  }

  lemma {:induction false} CountAll(n: nat)
    ensures |Outcomes(n)| == Pow2(n) == Count(Outcomes(n), 0)
  {
    if n > 0 {
      CountAll(n - 1);
      WithAll(false, Outcomes(n - 1));
      WithAll(true, Outcomes(n - 1));
      CountAppend(With(false, Outcomes(n - 1)), With(true, Outcomes(n - 1)), 0);
      CountWith(false, Outcomes(n - 1), 0);
      CountWith(true, Outcomes(n - 1), 0);
    }
  }

  lemma {:induction false} WithAll(first: bool, rest: seq<seq<bool>>)
    ensures |With(first, rest)| == |rest|
    decreases |rest|
  {
    if rest != [] {
      WithAll(first, rest[1..]);
    }
  }

  /** A tail is the share of all outcomes of fair coins that have as many heads. */
  lemma {:induction false} TailIsShare(n: nat, k: nat)
    ensures |Outcomes(n)| == Pow2(n)
    ensures UpperTail(n, k) == Count(Outcomes(n), k) as real / |Outcomes(n)| as real
  {
    WaysAreOutcomes(n, k);
    CountAll(n);
  }

  /** It is all of them of none, falls with each head more, and is none past them all. */
  lemma {:induction false} TailFalls(n: nat, k: nat)
    ensures UpperTail(n, 0) == 1.0
    ensures UpperTail(n, k + 1) <= UpperTail(n, k)
    ensures k <= n <==> UpperTail(n, k + 1) < UpperTail(n, k)
    ensures k > n ==> UpperTail(n, k) == 0.0
  {
    WaysAll(n);
    Shares(Ways(n, 0, n + 1), Pow2(n), Pow2(n));
    WaysShrink(n, k);
    Shares(Ways(n, k + 1, n + 1), Ways(n, k, n + 1), Pow2(n));
  }

  lemma {:induction false} WaysAll(n: nat)
    ensures Ways(n, 0, n + 1) == Pow2(n)
  {
    WaysAreOutcomes(n, 0);
    CountAll(n);
  }

  lemma {:induction false} Shares(a: nat, b: nat, of: nat)
    requires a <= b && of > 0
    ensures a as real / of as real <= b as real / of as real
    ensures a < b ==> a as real / of as real < b as real / of as real
    ensures a == 0 ==> a as real / of as real == 0.0
    ensures a == of ==> a as real / of as real == 1.0
  {
  }

  lemma {:induction false} WaysFrom(n: nat, from: nat, past: nat)
    requires from < past
    ensures Ways(n, from, past) == Choose(n, from) + Ways(n, from + 1, past)
    decreases past
  {
    if past > from + 1 {
      WaysFrom(n, from, past - 1);
    }
  }

  lemma {:induction false} ChooseSome(n: nat, k: nat)
    requires k <= n
    ensures Choose(n, k) > 0
  {
    if 0 < k {
      ChooseSome(n - 1, k - 1);
    }
  }

  lemma {:induction false} WaysShrink(n: nat, k: nat)
    ensures Ways(n, k + 1, n + 1) <= Ways(n, k, n + 1)
    ensures k <= n <==> Ways(n, k + 1, n + 1) < Ways(n, k, n + 1)
    ensures k > n ==> Ways(n, k, n + 1) == 0 == Ways(n, k + 1, n + 1)
  {
    if k <= n {
      WaysFrom(n, k, n + 1);
      ChooseSome(n, k);
    }
  }

  // ------------------------------------------------------------------ McNemar's test

  function Least(a: real, b: real): real { if a <= b then a else b }

  /** The two-sided test of pairs only the first has right, and only the second. */
  function McNemar(b: nat, c: nat): real {
    var n := b + c;
    if n == 0 then 1.0
    else Least(1.0, 2.0 * Ways(n, 0, (if b <= c then b else c) + 1) as real / Pow2(n) as real)
  }

  lemma {:induction false} WaysMirror(n: nat, k: nat)
    requires k <= n
    ensures Ways(n, 0, k + 1) == Ways(n, n - k, n + 1)
    decreases k
  {
    ChooseMirrors(n, k);
    if k == 0 {
      assert Ways(n, 0, 0) == 0;
    } else {
      WaysMirror(n, k - 1);
      WaysFrom(n, n - k, n + 1);
    }
  }

  /** It is twice the tail from the more of the two on, one at most. */
  lemma {:induction false} McNemarIsTwiceTail(b: nat, c: nat)
    ensures McNemar(b, c) == Least(1.0, 2.0 * UpperTail(b + c, if b <= c then c else b))
  {
    var n := b + c;
    if n == 0 {
      TailFalls(0, 0);
    } else {
      var (less, more) := if b <= c then (b, c) else (c, b);
      WaysMirror(n, less);
      assert n - less == more;
      TwiceTail(n, less, more);
    }
  }

  lemma {:induction false} TwiceTail(n: nat, less: nat, more: nat)
    requires Ways(n, 0, less + 1) == Ways(n, more, n + 1)
    ensures 2.0 * Ways(n, 0, less + 1) as real / Pow2(n) as real == 2.0 * UpperTail(n, more)
  {
    Halves(Ways(n, more, n + 1), Pow2(n));
  }

  lemma {:induction false} Halves(a: nat, of: nat)
    requires of > 0
    ensures 2.0 * a as real / of as real == 2.0 * (a as real / of as real)
  {
  }
}
