/** A few equalities of sequences, each by itself so that proofs can name the one they mean. */
module Sequences {

  lemma {:induction false} NothingBefore<T>(s: seq<T>)
    ensures [] + s == s
  {
  }

  lemma {:induction false} FirstApart<T>(a: seq<T>, b: seq<T>)
    requires b != []
    ensures a + [b[0]] + b[1..] == a + b
  {
  }

  lemma {:induction false} Joined<T>(a: seq<T>, b: seq<T>, c: seq<T>)
    ensures a + (b + c) == a + b + c
  {
  }

  lemma {:induction false} Grouped<T>(a: seq<T>, b: seq<T>, c: seq<T>, d: seq<T>)
    ensures a + b + c + d == a + (b + (c + d))
  {
  }

  lemma {:induction false} JoinedThree<T>(a: seq<T>, b: seq<T>, c: seq<T>, d: seq<T>)
    ensures a + (b + c + d) == a + b + c + d
  {
  }

  /** An element put in place, or taken out. */
  lemma {:induction false} ReplacedAt<T>(s: seq<T>, i: nat, y: T)
    requires i < |s|
    ensures s[i := y] == s[..i] + [y] + s[i + 1..]
    ensures s[..i] + s[i + 1..] == s[..i] + [] + s[i + 1..]
  {
  }

  lemma {:induction false} UpdateBetween<T>(a: seq<T>, x: T, b: seq<T>, y: T)
    ensures (a + [x] + b)[|a|] == x
    ensures (a + [x] + b)[|a| := y] == a + [y] + b
  {
  }
}
