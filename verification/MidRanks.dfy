/**
 * Mid-ranks, ties sharing the mean of theirs: the rank loops of `wilcoxon` and `friedman`
 * (agentbench/compare/stats.py), in exact arithmetic.
 */
module MidRanks {
  import opened Orders

  function Below(v: seq<real>, x: real): nat -> int {
    (i: nat) => if i < |v| && v[i] < x then 1 else 0
  }

  function Same(v: seq<real>, x: real): nat -> int {
    (i: nat) => if i < |v| && v[i] == x then 1 else 0
  }

  /** How many values are less than `x`. */
  function Less(v: seq<real>, x: real): int { Total(Below(v, x), UpTo(|v|)) }

  /** How many are `x`. */
  function Equal(v: seq<real>, x: real): int { Total(Same(v, x), UpTo(|v|)) }

  /** Twice the mean rank of those equal to a value: the first after those less, the last as many on. */
  function Twice(v: seq<real>): nat -> int {
    (i: nat) => if i < |v| then 2 * Less(v, v[i]) + Equal(v, v[i]) + 1 else 0
  }

  function MidRank(v: seq<real>, i: nat): real { Twice(v)(i) as real / 2.0 }

  /** A run of ranks tied, and no more. */
  ghost predicate Group(v: seq<real>, order: seq<nat>, i: nat, j: nat) {
    && SortedBy(order, v) && i <= j < |order|
    && (forall q | i <= q <= j :: v[order[q]] == v[order[i]])
    && (i > 0 ==> v[order[i - 1]] < v[order[i]])
    && (j + 1 < |order| ==> v[order[j]] < v[order[j + 1]])
  }

  lemma {:induction false} GroupHolds(v: seq<real>, order: seq<nat>, i: nat, j: nat, q: nat)
    requires Group(v, order, i, j) && q < |order|
    ensures v[order[q]] == v[order[i]] <==> i <= q <= j
    ensures v[order[q]] < v[order[i]] <==> q < i
  {
    assert i > 0 && q < i - 1 ==> v[order[q]] <= v[order[i - 1]];
    assert j + 1 < q ==> v[order[j + 1]] <= v[order[q]];
  }

  lemma {:induction false} GroupCounts(v: seq<real>, order: seq<nat>, i: nat, j: nat)
    requires Group(v, order, i, j)
    ensures Total(Below(v, v[order[i]]), order) == i && Total(Same(v, v[order[i]]), order) == j - i + 1
  {
    forall q | 0 <= q < |order|
      ensures Below(v, v[order[i]])(order[q]) == (if 0 <= q < i then 1 else 0)
      ensures Same(v, v[order[i]])(order[q]) == if i <= q < j + 1 then 1 else 0
    {
      GroupHolds(v, order, i, j, q);
    }
    CountBetween(Below(v, v[order[i]]), order, 0, i, |order|);
    CountBetween(Same(v, v[order[i]]), order, i, j + 1, |order|);
    assert order[..|order|] == order;
  }

  /** Of a run of tied ranks, each has the mean. */
  lemma {:induction false} GroupRanks(v: seq<real>, order: seq<nat>, i: nat, j: nat)
    requires Sorts(order, v) && Group(v, order, i, j)
    ensures Less(v, v[order[i]]) == i && Equal(v, v[order[i]]) == j - i + 1
    ensures forall q | i <= q <= j :: Twice(v)(order[q]) == i + j + 2
  {
    GroupCounts(v, order, i, j);
    TotalPermuted(Below(v, v[order[i]]), order, UpTo(|v|));
    TotalPermuted(Same(v, v[order[i]]), order, UpTo(|v|));
  }

  function TieTerm(v: seq<real>): nat -> int {
    (i: nat) => if i < |v| then Square(Equal(v, v[i])) - 1 else 0
  }

  function Square(t: int): int { t * t }
  function Cube(t: int): int { t * t * t }

  /** A tie's own term, and what its ranks' come to. */
  lemma {:induction false} GroupTies(v: seq<real>, order: seq<nat>, i: nat, j: nat)
    requires Sorts(order, v) && Group(v, order, i, j)
    ensures Total(TieTerm(v), order[..j + 1]) == Total(TieTerm(v), order[..i]) + (Cube(j - i + 1) - (j - i + 1))
  {
    GroupRanks(v, order, i, j);
    forall q | i <= q < j + 1 ensures TieTerm(v)(order[q]) == Square(j - i + 1) - 1 {
    }
    TotalSteady(TieTerm(v), order, i, j + 1, Square(j - i + 1) - 1);
    CubeIs(j - i + 1);
  }

  lemma {:induction false} CubeIs(t: int)
    ensures t * (Square(t) - 1) == Cube(t) - t
  {
  }

  /** The last rank tied with `i`, from `j` on. */
  function LastTied(v: seq<real>, order: seq<nat>, i: nat, j: nat): (last: nat)
    requires SortedBy(order, v) && i <= j < |order| && (i > 0 ==> v[order[i - 1]] < v[order[i]])
    requires forall q | i <= q <= j :: v[order[q]] == v[order[i]]
    ensures Group(v, order, i, last)
    decreases |order| - j
  {
    if j + 1 < |order| && v[order[j + 1]] == v[order[i]] then LastTied(v, order, i, j + 1) else j
  }

  /** As far as values are tied with that at rank `i`. */
  method TiedFrom(v: seq<real>, order: seq<nat>, i: nat) returns (j: nat)
    requires SortedBy(order, v) && i < |order| && (i > 0 ==> v[order[i - 1]] < v[order[i]])
    ensures j == LastTied(v, order, i, i)
  {
    j := i;
    while j + 1 < |order| && v[order[j + 1]] == v[order[i]]
      invariant i <= j < |order|
      invariant forall q | i <= q <= j :: v[order[q]] == v[order[i]]
      invariant LastTied(v, order, i, j) == LastTied(v, order, i, i)
    {
      j := j + 1;
    }
  }

  /** The mean of a run's ranks, given to each of it. */
  method Share(v: seq<real>, order: seq<nat>, i: nat, j: nat, before: seq<real>) returns (ranks: seq<real>)
    requires Sorts(order, v) && Group(v, order, i, j) && |before| == |v|
    requires forall q | 0 <= q < i :: before[order[q]] == MidRank(v, order[q])
    ensures |ranks| == |v| && forall q | 0 <= q < j + 1 :: ranks[order[q]] == MidRank(v, order[q])
  {
    ranks := before;
    GroupRanks(v, order, i, j);
    for k := i to j + 1
      invariant |ranks| == |v|
      invariant forall q | 0 <= q < k :: ranks[order[q]] == MidRank(v, order[q])
    {
      OrderIsNew(order, v, k);
      ranks := ranks[order[k] := (i + j) as real / 2.0 + 1.0];
    }
  }

  method AddTies(v: seq<real>, order: seq<nat>, i: nat, j: nat, before: int) returns (ties: int)
    requires Sorts(order, v) && Group(v, order, i, j) && before == Total(TieTerm(v), order[..i])
    ensures ties == Total(TieTerm(v), order[..j + 1])
  {
    GroupTies(v, order, i, j);
    ties := before + (Cube(j - i + 1) - (j - i + 1));
  }

  method RankIn(v: seq<real>, order: seq<nat>) returns (ranks: seq<real>, ties: int)
    requires Sorts(order, v)
    ensures |ranks| == |v| && forall q | 0 <= q < |v| :: ranks[order[q]] == MidRank(v, order[q])
    ensures ties == Total(TieTerm(v), order[..|v|])
  {
    ranks := seq(|v|, _ => 0.0);
    ties := 0;
    var i := 0;
    while i < |v|
      invariant 0 <= i <= |v| && |ranks| == |v|
      invariant 0 < i < |v| ==> v[order[i - 1]] < v[order[i]]
      invariant forall q | 0 <= q < i :: ranks[order[q]] == MidRank(v, order[q])
      invariant ties == Total(TieTerm(v), order[..i])
    {
      var j := TiedFrom(v, order, i);
      ranks := Share(v, order, i, j, ranks);
      ties := AddTies(v, order, i, j, ties);
      i := j + 1;
    }
  }

  method Rank(v: seq<real>) returns (ranks: seq<real>, ties: int)
    ensures |ranks| == |v| && forall i | 0 <= i < |v| :: ranks[i] == MidRank(v, i)
    ensures ties == Total(TieTerm(v), UpTo(|v|))
  {
    var order := Sorted(v);
    ranks, ties := RankIn(v, order);
    assert order[..|v|] == order;
    TotalPermuted(TieTerm(v), order, UpTo(|v|));
    forall x | 0 <= x < |v| ensures ranks[x] == MidRank(v, x) {
      var r := OrderHasAll(order, v, x);
    }
  }

  // ------------------------------------------------------------------- properties

  lemma {:induction false} TotalCovers(f: nat -> int, g: nat -> int, h: nat -> int, s: seq<nat>)
    requires forall i :: f(i) >= g(i) + h(i)
    ensures Total(f, s) >= Total(g, s) + Total(h, s)
  {
    if s != [] {
      TotalCovers(f, g, h, s[..|s| - 1]);
    }
  }

  lemma {:induction false} EqualCountsItself(v: seq<real>, i: nat)
    requires i < |v|
    ensures Equal(v, v[i]) >= 1
  {
    TotalRemoved(Same(v, v[i]), UpTo(|v|), i);
    TotalAtLeast(Same(v, v[i]), Without(UpTo(|v|), i));
  }

  /** Ties share a rank, and a lesser value has a lesser one. */
  lemma {:induction false} RanksKeepOrder(v: seq<real>, i: nat, j: nat)
    requires i < |v| && j < |v|
    ensures MidRank(v, i) < MidRank(v, j) <==> v[i] < v[j]
    ensures MidRank(v, i) == MidRank(v, j) <==> v[i] == v[j]
  {
    if v[i] < v[j] {
      LesserRank(v, i, j);
    } else if v[j] < v[i] {
      LesserRank(v, j, i);
    }
  }

  lemma {:induction false} LesserRank(v: seq<real>, i: nat, j: nat)
    requires i < |v| && j < |v| && v[i] < v[j]
    ensures MidRank(v, i) < MidRank(v, j)
  {
    TotalCovers(Below(v, v[j]), Below(v, v[i]), Same(v, v[i]), UpTo(|v|));
    EqualCountsItself(v, i);
    EqualCountsItself(v, j);
  }

  lemma {:induction false} GroupTotal(v: seq<real>, order: seq<nat>, i: nat, j: nat)
    requires Sorts(order, v) && Group(v, order, i, j)
    requires Total(Twice(v), order[..i]) == Triangle(i)
    ensures Total(Twice(v), order[..j + 1]) == Triangle(j + 1)
  {
    GroupRanks(v, order, i, j);
    TotalSteady(Twice(v), order, i, j + 1, i + j + 2);
    TriangleGrows(i, j);
  }

  /** Twice the sum of the first `n` numbers. */
  function Triangle(n: nat): nat {
    if n == 0 then 0 else Triangle(n - 1) + 2 * n
  }

  lemma {:induction false} TriangleIs(n: nat)
    ensures Triangle(n) == n * (n + 1)
  {
    if n > 0 {
      TriangleIs(n - 1);
      assert n * (n + 1) == (n - 1) * n + 2 * n;
    }
  }

  lemma {:induction false} TriangleGrows(i: nat, j: nat)
    requires i <= j
    ensures Triangle(i) + (j + 1 - i) * (i + j + 2) == Triangle(j + 1)
  {
    TriangleIs(i);
    TriangleIs(j + 1);
  }

  lemma {:induction false} RanksTotalIn(v: seq<real>, order: seq<nat>)
    requires Sorts(order, v)
    ensures Total(Twice(v), order[..|v|]) == Triangle(|v|)
  {
    var i := 0;
    while i < |v|
      invariant 0 <= i <= |v|
      invariant 0 < i < |v| ==> v[order[i - 1]] < v[order[i]]
      invariant Total(Twice(v), order[..i]) == Triangle(i)
    {
      var j := LastTied(v, order, i, i);
      GroupTotal(v, order, i, j);
      i := j + 1;
    }
  }

  /** Whatever the values, ranks come to as much as those of values all different. */
  lemma {:induction false} RanksTotal(v: seq<real>)
    ensures Total(Twice(v), UpTo(|v|)) == |v| * (|v| + 1)
  {
    var order := Sorted(v);
    RanksTotalIn(v, order);
    TriangleIs(|v|);
    assert order[..|v|] == order;
    TotalPermuted(Twice(v), order, UpTo(|v|));
  }

  function Sum(s: seq<real>): real {
    if s == [] then 0.0 else Sum(s[..|s| - 1]) + s[|s| - 1]
  }

  lemma {:induction false} SumIsTotal(v: seq<real>, ranks: seq<real>, n: nat)
    requires n <= |ranks| == |v| && forall i | 0 <= i < |v| :: ranks[i] == MidRank(v, i)
    ensures Sum(ranks[..n]) == Total(Twice(v), UpTo(n)) as real / 2.0
    decreases n
  {
    if n > 0 {
      SumIsTotal(v, ranks, n - 1);
      assert ranks[..n][..n - 1] == ranks[..n - 1] && UpTo(n)[..n - 1] == UpTo(n - 1);
    }
  }

  /** Ranks always sum to n(n+1)/2. */
  lemma {:induction false} RanksSum(v: seq<real>, ranks: seq<real>)
    requires |ranks| == |v| && forall i | 0 <= i < |v| :: ranks[i] == MidRank(v, i)
    ensures Sum(ranks) == (|v| * (|v| + 1)) as real / 2.0
  {
    SumIsTotal(v, ranks, |v|);
    assert ranks[..|v|] == ranks;
    RanksTotal(v);
  }
}
