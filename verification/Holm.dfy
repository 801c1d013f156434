/** Holm's correction (`holm` of agentbench/compare/stats.py), in exact arithmetic. */
module Holm {
  import opened Orders

  function Max(a: real, b: real): real { if a >= b then a else b }
  function Min(a: real, b: real): real { if a <= b then a else b }

  ghost predicate Probabilities(ps: seq<real>) {
    forall i | 0 <= i < |ps| :: ps[i] >= 0.0
  }

  // --------------------------------------------------------------- as it is computed

  /** A value as often as `n` says, one at most. */
  function Weigh(n: nat, p: real): real { Min(1.0, Times(n, p)) }

  function Times(n: nat, p: real): real {
    if n == 0 then 0.0 else Times(n - 1, p) + p
  }

  lemma {:induction false} TimesIs(n: nat, p: real)
    ensures Times(n, p) == n as real * p
  {
    if n > 0 {
      TimesIs(n - 1, p);
      assert n as real * p == (n - 1) as real * p + p;
    }
  }

  lemma {:induction false} TimesGrows(m: nat, n: nat, p: real)
    requires m <= n && p >= 0.0
    ensures 0.0 <= Times(m, p) <= Times(n, p)
    decreases n
  {
    if m < n {
      TimesGrows(m, n - 1, p);
    } else if n > 0 {
      TimesGrows(0, n - 1, p);
    }
  }

  /** The value at a rank, weighed by how many are at that rank and after. */
  function At(ps: seq<real>, order: seq<nat>, k: nat): real
    requires k < |order| == |ps| && order[k] < |ps|
  {
    Weigh(|ps| - k, ps[order[k]])
  }

  /** The greatest of the first `k`. */
  function Running(ps: seq<real>, order: seq<nat>, k: nat): real
    requires k <= |order| == |ps| && forall r | 0 <= r < |order| :: order[r] < |ps|
  {
    if k == 0 then 0.0 else Max(Running(ps, order, k - 1), At(ps, order, k - 1))
  }

  method WeighOne(n: nat, p: real) returns (w: real)
    ensures w == Weigh(n, p)
  {
    TimesIs(n, p);
    w := Min(1.0, n as real * p);
  }

  /** Each value's adjusted one, at its own place. */
  method Adjust(ps: seq<real>) returns (out: seq<real>)
    requires Probabilities(ps)
    ensures Adjusts(ps, out)
  {
    var order := Sorted(ps);
    out := AdjustIn(ps, order);
    RunningAdjusts(ps, order, out);
  }

  method AdjustIn(ps: seq<real>, order: seq<nat>) returns (out: seq<real>)
    requires Sorts(order, ps)
    ensures |out| == |ps| && forall r | 0 <= r < |order| :: out[order[r]] == Running(ps, order, r + 1)
  {
    out := seq(|ps|, _ => 0.0);
    var running := 0.0;
    for rank := 0 to |order|
      invariant |out| == |ps|
      invariant running == Running(ps, order, rank)
      invariant forall r | 0 <= r < rank :: out[order[r]] == Running(ps, order, r + 1)
    {
      var weighed := WeighOne(|ps| - rank, ps[order[rank]]);
      running := Max(running, weighed);
      PlacedNext(ps, order, out, rank, running);
      out := out[order[rank] := running];
    }
  }

  /** A value placed where the next of an order is leaves those placed before. */
  lemma {:induction false} PlacedNext(ps: seq<real>, order: seq<nat>, out: seq<real>, rank: nat, value: real)
    requires Sorts(order, ps) && rank < |order| && |out| == |ps|
    requires value == Running(ps, order, rank + 1)
    requires forall r | 0 <= r < rank :: out[order[r]] == Running(ps, order, r + 1)
    ensures forall r | 0 <= r < rank + 1 :: out[order[rank] := value][order[r]] == Running(ps, order, r + 1)
  {
    OrderIsNew(order, ps, rank);
  }

  // ----------------------------------------------------------------- what it means

  function AtLeast(ps: seq<real>, v: real): nat -> int {
    (i: nat) => if i < |ps| && ps[i] >= v then 1 else 0
  }

  /** How many values are no less than one. */
  function NotBelow(ps: seq<real>, v: real): nat {
    TotalAtLeast(AtLeast(ps, v), UpTo(|ps|));
    Total(AtLeast(ps, v), UpTo(|ps|))
  }

  function Weighed(ps: seq<real>, j: nat): real
    requires j < |ps|
  {
    Weigh(NotBelow(ps, ps[j]), ps[j])
  }

  /** The greatest weighed value of those no greater than `ps[i]`. */
  ghost predicate IsAdjusted(ps: seq<real>, i: nat, x: real)
    requires i < |ps|
  {
    && (forall j | 0 <= j < |ps| && ps[j] <= ps[i] :: Weighed(ps, j) <= x)
    && (exists j | 0 <= j < |ps| && ps[j] <= ps[i] :: Weighed(ps, j) == x)
  }

  ghost predicate Adjusts(ps: seq<real>, out: seq<real>) {
    |out| == |ps| && forall i | 0 <= i < |ps| :: IsAdjusted(ps, i, out[i])
  }

  /** The first rank of those tied with rank `r`. */
  function FirstTied(ps: seq<real>, order: seq<nat>, r: nat): (f: nat)
    requires r < |order| && forall r | 0 <= r < |order| :: order[r] < |ps|
    ensures f <= r && ps[order[f]] == ps[order[r]]
    ensures f > 0 ==> ps[order[f - 1]] != ps[order[r]]
  {
    if r > 0 && ps[order[r - 1]] == ps[order[r]] then FirstTied(ps, order, r - 1) else r
  }

  lemma {:induction false} FirstRanks(ps: seq<real>, order: seq<nat>, r: nat, q: nat)
    requires SortedBy(order, ps) && r < |order| && q < |order|
    ensures ps[order[q]] >= ps[order[r]] <==> q >= FirstTied(ps, order, r)
  {
    var f := FirstTied(ps, order, r);
    if q < f {
      assert ps[order[f - 1]] <= ps[order[f]];
      if q < f - 1 {
        assert ps[order[q]] <= ps[order[f - 1]];
      }
    } else if f < q {
      assert ps[order[f]] <= ps[order[q]];
    }
  }

  lemma {:induction false} CountRanks(ps: seq<real>, order: seq<nat>, r: nat)
    requires SortedBy(order, ps) && r < |order|
    ensures Total(AtLeast(ps, ps[order[r]]), order) == |order| - FirstTied(ps, order, r)
  {
    forall q | 0 <= q < |order| ensures ps[order[q]] >= ps[order[r]] <==> q >= FirstTied(ps, order, r) {
      FirstRanks(ps, order, r, q);
    }
    CountBetween(AtLeast(ps, ps[order[r]]), order, FirstTied(ps, order, r), |order|, |order|);
    assert order[..|order|] == order;
  }

  /** As many are no less than a value as there are ranks from the first it has. */
  lemma {:induction false} RanksNotBelow(ps: seq<real>, order: seq<nat>, r: nat)
    requires Sorts(order, ps) && r < |order|
    ensures NotBelow(ps, ps[order[r]]) == |ps| - FirstTied(ps, order, r)
  {
    CountRanks(ps, order, r);
    TotalPermuted(AtLeast(ps, ps[order[r]]), order, UpTo(|ps|));
  }

  lemma {:induction false} WeighGrows(m: nat, n: nat, p: real)
    requires m <= n && p >= 0.0
    ensures Weigh(m, p) <= Weigh(n, p)
  {
    TimesGrows(m, n, p);
  }

  lemma {:induction false} FirstWeighs(ps: seq<real>, order: seq<nat>, r: nat)
    requires SortedBy(order, ps) && |order| == |ps| && Probabilities(ps) && r < |order|
    ensures At(ps, order, FirstTied(ps, order, r)) >= At(ps, order, r)
  {
    WeighGrows(|ps| - r, |ps| - FirstTied(ps, order, r), ps[order[r]]);
  }

  /** A weighed value is that at the first rank it has, which no later rank's exceeds. */
  lemma {:induction false} WeighedIs(ps: seq<real>, order: seq<nat>, r: nat)
    requires Sorts(order, ps) && Probabilities(ps) && r < |order|
    ensures Weighed(ps, order[r]) == At(ps, order, FirstTied(ps, order, r)) >= At(ps, order, r)
  {
    RanksNotBelow(ps, order, r);
    WeighedFrom(ps, order[r], |ps| - FirstTied(ps, order, r));
    FirstWeighs(ps, order, r);
  }

  lemma {:induction false} WeighedFrom(ps: seq<real>, j: nat, n: nat)
    requires j < |ps| && NotBelow(ps, ps[j]) == n
    ensures Weighed(ps, j) == Weigh(n, ps[j])
  {
  }

  lemma {:induction false} RunningBounds(ps: seq<real>, order: seq<nat>, r: nat, k: nat)
    requires Sorts(order, ps) && r < k <= |order|
    ensures At(ps, order, r) <= Running(ps, order, k)
    decreases k
  {
    if r < k - 1 {
      RunningBounds(ps, order, r, k - 1);
    }
  }

  lemma {:induction false} RunningIsOne(ps: seq<real>, order: seq<nat>, k: nat) returns (r: nat)
    requires Sorts(order, ps) && Probabilities(ps) && 0 < k <= |order|
    ensures r < k && Running(ps, order, k) == At(ps, order, r)
    decreases k
  {
    r := k - 1;
    if k == 1 {
      TimesGrows(0, |ps|, ps[order[0]]);
    } else if Running(ps, order, k - 1) >= At(ps, order, k - 1) {
      r := RunningIsOne(ps, order, k - 1);
    }
  }

  lemma {:induction false} RunningCovers(ps: seq<real>, order: seq<nat>, k: nat, j: nat)
    requires Sorts(order, ps) && Probabilities(ps) && k < |order| && j < |ps| && ps[j] <= ps[order[k]]
    ensures Weighed(ps, j) <= Running(ps, order, k + 1)
  {
    var r := OrderHasAll(order, ps, j);
    WeighedIs(ps, order, r);
    FirstRanks(ps, order, r, k);
    RunningBounds(ps, order, FirstTied(ps, order, r), k + 1);
  }

  lemma {:induction false} RunningIsWeighed(ps: seq<real>, order: seq<nat>, k: nat) returns (j: nat)
    requires Sorts(order, ps) && Probabilities(ps) && k < |order|
    ensures j < |ps| && ps[j] <= ps[order[k]] && Weighed(ps, j) == Running(ps, order, k + 1)
  {
    var r := RunningIsOne(ps, order, k + 1);
    WeighedIs(ps, order, r);
    RunningBounds(ps, order, FirstTied(ps, order, r), k + 1);
    j := order[r];
  }

  /** What is computed at a rank is the greatest weighed value of those no greater. */
  lemma {:induction false} RunningIsAdjusted(ps: seq<real>, order: seq<nat>, k: nat)
    requires Sorts(order, ps) && Probabilities(ps) && k < |order|
    ensures IsAdjusted(ps, order[k], Running(ps, order, k + 1))
  {
    forall j | 0 <= j < |ps| && ps[j] <= ps[order[k]] ensures Weighed(ps, j) <= Running(ps, order, k + 1) {
      RunningCovers(ps, order, k, j);
    }
    var j := RunningIsWeighed(ps, order, k);
  }

  lemma {:induction false} RunningAdjusts(ps: seq<real>, order: seq<nat>, out: seq<real>)
    requires Sorts(order, ps) && Probabilities(ps) && |out| == |ps|
    requires forall r | 0 <= r < |order| :: out[order[r]] == Running(ps, order, r + 1)
    ensures Adjusts(ps, out)
  {
    forall i | 0 <= i < |ps| ensures IsAdjusted(ps, i, out[i]) {
      var r := OrderHasAll(order, ps, i);
      RunningIsAdjusted(ps, order, r);
    }
  }

  // ------------------------------------------------------------------- properties

  /** Adjusted values are one sequence, whatever order ties are taken in. */
  lemma {:induction false} AdjustedIsOne(ps: seq<real>, out: seq<real>, out': seq<real>)
    requires Adjusts(ps, out) && Adjusts(ps, out')
    ensures out == out'
  {
    forall i | 0 <= i < |ps| ensures out[i] == out'[i] {
      assert IsAdjusted(ps, i, out[i]) && IsAdjusted(ps, i, out'[i]);
    }
  }

  /** Adjusted values are probabilities, no less than those given, and in their order. */
  lemma {:induction false} AdjustedBounds(ps: seq<real>, out: seq<real>, i: nat, j: nat)
    requires Probabilities(ps) && Adjusts(ps, out) && i < |ps| && j < |ps|
    ensures 0.0 <= out[i] <= 1.0
    ensures ps[i] <= 1.0 ==> ps[i] <= out[i]
    ensures ps[i] <= ps[j] ==> out[i] <= out[j]
  {
    var order := Sorted(ps);
    var r := OrderHasAll(order, ps, i);
    RanksNotBelow(ps, order, r);
    TimesGrows(1, NotBelow(ps, ps[i]), ps[i]);
    assert IsAdjusted(ps, i, out[i]) && IsAdjusted(ps, j, out[j]);
  }

  /** Holm's step-down: in order, each rejected while its value, weighed by those left, is within the level. */
  function StepDown(ps: seq<real>, order: seq<nat>, level: real, k: nat): (n: nat)
    requires k <= |order| == |ps| && forall r | 0 <= r < |order| :: order[r] < |ps|
    ensures k <= n <= |ps|
    ensures forall r | k <= r < n :: Times(|ps| - r, ps[order[r]]) <= level
    ensures n < |ps| ==> Times(|ps| - n, ps[order[n]]) > level
    decreases |ps| - k
  {
    if k < |ps| && Times(|ps| - k, ps[order[k]]) <= level then StepDown(ps, order, level, k + 1) else k
  }

  lemma {:induction false} RunningWithin(ps: seq<real>, order: seq<nat>, level: real, k: nat)
    requires Sorts(order, ps) && 0.0 <= level < 1.0 && k <= |order|
    requires forall r | 0 <= r < k :: Times(|ps| - r, ps[order[r]]) <= level
    ensures Running(ps, order, k) <= level
    decreases k
  {
    if k > 0 {
      RunningWithin(ps, order, level, k - 1);
    }
  }

  /** At any level below one, the adjusted values reject what the step-down does, and no more. */
  lemma {:induction false} AdjustedIsStepDown(ps: seq<real>, out: seq<real>, order: seq<nat>, level: real, k: nat)
    requires Probabilities(ps) && Adjusts(ps, out) && Sorts(order, ps) && 0.0 <= level < 1.0 && k < |order|
    ensures out[order[k]] <= level <==> k < StepDown(ps, order, level, 0)
  {
    var n := StepDown(ps, order, level, 0);
    RunningIsAdjusted(ps, order, k);
    assert IsAdjusted(ps, order[k], out[order[k]]);
    assert out[order[k]] == Running(ps, order, k + 1);
    if k < n {
      RunningWithin(ps, order, level, k + 1);
    } else {
      RunningBounds(ps, order, n, k + 1);
    }
  }

  /**
   * At a level of one the adjusted values reject every hypothesis, and the step-down as many as there are
   * before the first that weighs more than one: they agree exactly if none weighs more than one.
   */
  lemma {:induction false} AgreeAtLevelOne(ps: seq<real>, out: seq<real>, order: seq<nat>)
    requires Probabilities(ps) && Adjusts(ps, out) && Sorts(order, ps)
    ensures forall k | 0 <= k < |order| :: out[order[k]] <= 1.0
    ensures (forall k | 0 <= k < |order| :: out[order[k]] <= 1.0 <==> k < StepDown(ps, order, 1.0, 0)) <==>
            forall r | 0 <= r < |order| :: Times(|ps| - r, ps[order[r]]) <= 1.0
  {
    forall k | 0 <= k < |order| ensures out[order[k]] <= 1.0 {
      AdjustedBounds(ps, out, order[k], order[k]);
    }
    var n := StepDown(ps, order, 1.0, 0);
    assert n < |order| ==> Times(|ps| - n, ps[order[n]]) > 1.0 && out[order[n]] <= 1.0;
  }

  /** At a level of one they need not: all are within it adjusted, and the step-down may reject none. */
  lemma NotAtLevelOne()
    ensures var ps := [0.75, 0.75];
            && StepDown(ps, [0, 1], 1.0, 0) == 0
            && forall out | Adjusts(ps, out) :: out[0] <= 1.0 && out[1] <= 1.0
  {
    var ps := [0.75, 0.75];
    forall out | Adjusts(ps, out) ensures out[0] <= 1.0 && out[1] <= 1.0 {
      AdjustedBounds(ps, out, 0, 1);
      AdjustedBounds(ps, out, 1, 0);
    }
  }
}
