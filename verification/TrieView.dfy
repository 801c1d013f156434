/**
 * What a map of keys is, seen from outside: a finite map from the keys typed to the bindings they
 * run, in which no keys start other keys. `Put` and `Take` are shown to be a map's update and
 * removal there, refusing exactly what would break it, and to keep the order of everything else.
 */
module TrieView {
  import opened Keys
  import opened Trie

  /** The bindings below an entry, by their keys from it. */
  ghost function View(entry: Entry): map<Path, Binding> {
    map pair | pair in Listed(entry) && Runs(entry, pair.0).Some? :: pair.0 := Runs(entry, pair.0).value
  }

  /** The same bindings in the order they are listed. */
  function Bound(entry: Entry): seq<(Path, Binding)>
    decreases entry, 1
  {
    match entry case Run(binding) => [([], binding)] case Holds(m) => BoundOf(m.keys)
  }

  function BoundOf(keys: seq<Slot>): seq<(Path, Binding)>
    decreases keys, 0
  {
    if keys == [] then []
    else
      var Slot(key, entry) := keys[0];
      assert entry < keys[0];
      Under(key, Bound(entry)) + BoundOf(keys[1..])
  }

  /** Binding `keys` is refused: there are none, a part of them runs, or they start other keys. */
  ghost predicate Clashes(view: map<Path, Binding>, keys: Path) {
    keys == [] || exists p | p in view :: p < keys || keys < p
  }

  /** One path of the map is never the start of another. */
  ghost predicate PrefixFree(view: map<Path, Binding>) {
    forall p, q | p in view && q in view && p <= q :: p == q
  }

  // ------------------------------------------------------------------ lookups

  /** The slot `key` has in a whole map is the one `Index` finds. */
  lemma {:induction false} IndexIs(keys: seq<Slot>, i: nat)
    requires i < |keys|
    requires forall j | 0 <= j < i :: keys[j].key != keys[i].key
    ensures Index(keys, keys[i].key) == i
  {
    if i > 0 {
      IndexIs(keys[1..], i - 1);
    }
  }

  lemma {:induction false} AtAppend(entry: Entry, p: Path, q: Path)
    ensures At(entry, p + q) == (match At(entry, p) case None => None case Some(below) => At(below, q))
    decreases |p|
  {
    if p == [] {
      assert p + q == q;
    } else if entry.Holds? && Get(entry.inner, p[0]).Some? {
      assert (p + q)[1..] == p[1..] + q;
      AtAppend(Get(entry.inner, p[0]).value, p[1..], q);
    }
  }

  lemma {:induction false} AtBelow(entry: Entry, p: Path, q: Path)
    requires p <= q
    ensures At(entry, q) == (match At(entry, p) case None => None case Some(below) => At(below, q[|p|..]))
  {
    AtAppend(entry, p, q[|p|..]);
    assert q == p + q[|p|..];
  }

  lemma {:induction false} ListedHasAt(entry: Entry, p: Path)
    requires At(entry, p).Some?
    ensures (p, At(entry, p).value) in Listed(entry)
    decreases |p|
  {
    if p != [] {
      var i := Index(entry.inner.keys, p[0]);
      ListedHasAt(entry.inner.keys[i].entry, p[1..]);
      AllOfHas(entry.inner.keys, i, p[1..], At(entry, p).value);
      assert p == [p[0]] + p[1..];
      InLater((p, At(entry, p).value), [([], entry)], AllOf(entry.inner.keys));
    }
  }

  lemma {:induction false} InLater<T>(x: T, a: seq<T>, b: seq<T>)
    requires x in b
    ensures x in a + b
  {
    var i :| 0 <= i < |b| && b[i] == x;
    assert (a + b)[|a| + i] == x;
  }

  lemma {:induction false} AllOfHas(keys: seq<Slot>, i: nat, p: Path, entry: Entry)
    requires i < |keys| && (p, entry) in Listed(keys[i].entry)
    ensures ([keys[i].key] + p, entry) in AllOf(keys)
    decreases i
  {
    var head := Under(keys[0].key, Listed(keys[0].entry));
    if i == 0 {
      var j :| 0 <= j < |Listed(keys[0].entry)| && Listed(keys[0].entry)[j] == (p, entry);
      assert head[j] == ([keys[0].key] + p, entry);
      assert (head + AllOf(keys[1..]))[j] == ([keys[0].key] + p, entry);
    } else {
      AllOfHas(keys[1..], i - 1, p, entry);
      var j :| 0 <= j < |AllOf(keys[1..])| && AllOf(keys[1..])[j] == ([keys[i].key] + p, entry);
      assert (head + AllOf(keys[1..]))[|head| + j] == ([keys[i].key] + p, entry);
    }
  }

  /** The view holds exactly what the lookups find. */
  lemma {:induction false} ViewIs(entry: Entry, p: Path)
    ensures p in View(entry) <==> Runs(entry, p).Some?
    ensures p in View(entry) ==> View(entry)[p] == Runs(entry, p).value
  {
    if Runs(entry, p).Some? {
      ListedHasAt(entry, p);
      assert (p, At(entry, p).value) in Listed(entry);
    }
  }

  lemma {:induction false} ViewsAreEqual(entry: Entry, view: map<Path, Binding>)
    requires forall p :: p in view <==> Runs(entry, p).Some?
    requires forall p | p in view :: view[p] == Runs(entry, p).value
    ensures View(entry) == view
  {
    forall p
      ensures p in View(entry) <==> p in view
      ensures p in view ==> View(entry)[p] == view[p]
    {
      ViewIs(entry, p);
    }
    assert View(entry).Keys == view.Keys;
  }

  /** Below every entry of a whole map some keys run. */
  lemma {:induction false} SomethingRuns(entry: Entry) returns (p: Path)
    requires WholeEntry(entry)
    ensures Runs(entry, p).Some?
    decreases entry
  {
    if entry.Run? {
      p := [];
    } else {
      var slot := entry.inner.keys[0];
      assert slot.entry < slot;
      var below := SomethingRuns(slot.entry);
      p := [slot.key] + below;
      assert p[1..] == below;
    }
  }

  // ---------------------------------------------------------------------- put

  /** A change of one slot of a map, or a slot added at its end, seen by a lookup. */
  lemma {:induction false} GetAfterUpdate(m: Map, i: nat, key: KeyPress, entry: Entry, k: KeyPress)
    requires i == Index(m.keys, key)
    ensures var keys := if i < |m.keys| then m.keys[i := Slot(key, entry)] else m.keys + [Slot(key, entry)];
            Get(m.(keys := keys), k) == if k == key then Some(entry) else Get(m, k)
  {
    var keys := if i < |m.keys| then m.keys[i := Slot(key, entry)] else m.keys + [Slot(key, entry)];
    assert forall l | 0 <= l < |m.keys| :: keys[l].key == m.keys[l].key;
    var j := Index(keys, k);
    if k == key {
      IndexIs(keys, i);
    } else if j < |keys| {
      assert j != i;
      IndexIs(m.keys, j);
    }
  }

  /** The map `key` holds in `m`, empty if it holds none. */
  function Inner(m: Map, key: KeyPress): Map {
    match Get(m, key) case Some(Holds(inner)) => inner case _ => EMPTY_MAP
  }

  /** One level of `Put`: the entry the first of `rest` has after it, no other changed. */
  lemma {:induction false} GetAfterPut(m: Map, keys: Path, rest: Path, entry: Entry, k: KeyPress)
    requires |rest| <= |keys| && Put(m, keys, rest, entry).Ok?
    ensures |rest| > 1 ==> Put(Inner(m, rest[0]), keys, rest[1..], entry).Ok?
    ensures |rest| > 1 && Get(m, rest[0]).Some? ==> Get(m, rest[0]).value.Holds?
    ensures |rest| == 1 && Get(m, rest[0]).Some? ==> Get(m, rest[0]).value.Run?
    ensures Get(Put(m, keys, rest, entry).value, k) ==
            if k != rest[0] then Get(m, k)
            else if |rest| == 1 then Some(entry)
            else Some(Holds(Put(Inner(m, rest[0]), keys, rest[1..], entry).value))
  {
    var placed := if |rest| == 1 then entry else Holds(Put(Inner(m, rest[0]), keys, rest[1..], entry).value);
    GetAfterUpdate(m, Index(m.keys, rest[0]), rest[0], placed, k);
  }

  /** A lookup of some keys is one of the others in the map the first holds. */
  lemma {:induction false} AtInner(m: Map, p: Path)
    requires p != []
    ensures |p| > 1 && (Get(m, p[0]).Some? ==> Get(m, p[0]).value.Holds?) ==>
              At(Holds(m), p) == At(Holds(Inner(m, p[0])), p[1..])
    ensures |p| == 1 ==> At(Holds(m), p) == Get(m, p[0])
  {
    NothingBelow(EMPTY_MAP, p[1..]);
  }

  lemma {:induction false} NothingBelow(m: Map, p: Path)
    ensures m.keys == [] && p != [] ==> At(Holds(m), p) == None
  {
  }

  /** A put changes one slot, or adds one: the entry itself, or the map below it put into. */
  lemma {:induction false} PutShape(m: Map, keys: Path, rest: Path, entry: Entry)
    requires |rest| <= |keys| && Put(m, keys, rest, entry).Ok?
    ensures rest != [] && (|rest| > 1 ==> Put(Inner(m, rest[0]), keys, rest[1..], entry).Ok?)
    ensures var i := Index(m.keys, rest[0]);
            var slot := Slot(rest[0], if |rest| == 1 then entry
                                      else Holds(Put(Inner(m, rest[0]), keys, rest[1..], entry).value));
            Put(m, keys, rest, entry).value == m.(keys := if i < |m.keys| then m.keys[i := slot] else m.keys + [slot])
  {
  }

  /** What every keys are once `entry` is put at `rest`. */
  lemma {:induction false} PutAt(m: Map, keys: Path, rest: Path, entry: Entry, p: Path)
    requires |rest| <= |keys| && Put(m, keys, rest, entry).Ok?
    ensures var changed := Holds(Put(m, keys, rest, entry).value);
            if rest <= p then At(changed, p) == At(entry, p[|rest|..])
            else if p <= rest then At(changed, p).Some? && At(changed, p).value.Holds? && !Runs(Holds(m), p).Some?
            else At(changed, p) == At(Holds(m), p)
    decreases |rest|
  {
    if p != [] {
      GetAfterPut(m, keys, rest, entry, p[0]);
      if p[0] == rest[0] {
        assert rest <= p <==> rest[1..] <= p[1..];
        assert p <= rest <==> p[1..] <= rest[1..];
        if |rest| > 1 {
          PutAt(Inner(m, rest[0]), keys, rest[1..], entry, p[1..]);
          assert rest <= p ==> p[1..][|rest[1..]|..] == p[|rest|..];
          AtInner(m, p);
        }
      }
    }
  }

  /** `Put` is refused exactly when there are no keys, some of them run, or they hold a map. */
  lemma {:induction false} PutRefuses(m: Map, keys: Path, rest: Path, entry: Entry)
    requires |rest| <= |keys|
    ensures Put(m, keys, rest, entry).Err? <==>
              || rest == []
              || (exists n | 0 < n < |rest| :: Runs(Holds(m), rest[..n]).Some?)
              || MapAt(m, rest).Some?
    decreases |rest|
  {
    if rest != [] {
      var key, after := rest[0], rest[1..];
      var i := Index(m.keys, key);
      assert rest[..1][1..] == [];
      assert At(Holds(m), rest[..1]) == Get(m, key);
      if after == [] {
        assert MapAt(m, rest).Some? <==> i < |m.keys| && m.keys[i].entry.Holds?;
      } else {
        var there := if i < |m.keys| && m.keys[i].entry.Holds? then m.keys[i].entry.inner else EMPTY_MAP;
        PutRefuses(there, keys, after, entry);
        forall n | 0 < n < |rest| ensures rest[..n][1..] == after[..n - 1] {
        }
        if i < |m.keys| && m.keys[i].entry.Run? {
          assert Runs(Holds(m), rest[..1]).Some?;
        } else if exists n | 0 < n < |after| :: Runs(Holds(there), after[..n]).Some? {
          var n :| 0 < n < |after| && Runs(Holds(there), after[..n]).Some?;
          assert rest[..n + 1][1..] == after[..n];
        }
      }
    }
  }

  /** A refusal says why: no keys at all, a map in their place, or the first of them that run already, and a label. */
  lemma {:induction false} PutSays(m: Map, keys: Path, rest: Path, entry: Entry)
    requires |rest| <= |keys| && keys[|keys| - |rest|..] == rest && Put(m, keys, rest, entry).Err?
    ensures match Put(m, keys, rest, entry).why
            case NoKeys => rest == []
            case HoldsMap(k) => k == keys && MapAt(m, rest).Some?
            case Starts(runs, caption, k) =>
              && k == keys && |keys| - |rest| < |runs| < |keys| && runs == keys[..|runs|]
              && Runs(Holds(m), rest[..|runs| - (|keys| - |rest|)]).Some?
              && caption == Runs(Holds(m), rest[..|runs| - (|keys| - |rest|)]).value.caption
            case _ => false
    decreases |rest|
  {
    if rest != [] {
      var key, after := rest[0], rest[1..];
      var i := Index(m.keys, key);
      assert rest[..1] == [key] && rest[..1][1..] == [];
      assert At(Holds(m), rest[..1]) == Get(m, key);
      if i == |m.keys| {
        if after != [] {
          PutRefuses(EMPTY_MAP, keys, after, entry);
          assert forall n | 0 < n < |after| :: At(Holds(EMPTY_MAP), after[..n]).None?;
        }
      } else if m.keys[i].entry.Holds? && after != [] {
        PutSays(m.keys[i].entry.inner, keys, after, entry);
        var why := Put(m.keys[i].entry.inner, keys, after, entry).why;
        if why.Starts? {
          var n := |why.runs| - (|keys| - |after|);
          assert rest[..n + 1][1..] == after[..n];
        }
      }
    }
  }

  lemma {:induction false} PutWhole(m: Map, keys: Path, rest: Path, entry: Entry)
    requires |rest| <= |keys| && Put(m, keys, rest, entry).Ok?
    requires Whole(m) && WholeEntry(entry)
    ensures Whole(Put(m, keys, rest, entry).value)
    ensures Put(m, keys, rest, entry).value.keys != []
    ensures Put(m, keys, rest, entry).value.repeat == m.repeat
    decreases |rest|
  {
    var key, after := rest[0], rest[1..];
    var i := Index(m.keys, key);
    if after != [] {
      var there := if i < |m.keys| then m.keys[i].entry.inner else EMPTY_MAP;
      PutWhole(there, keys, after, entry);
    }
  }

  lemma {:induction false} WholeAt(entry: Entry, p: Path)
    requires entry.Holds? ==> Whole(entry.inner)
    requires p != [] && At(entry, p).Some?
    ensures WholeEntry(At(entry, p).value)
    decreases |p|
  {
    var below := Get(entry.inner, p[0]).value;
    if |p| > 1 {
      WholeAt(below, p[1..]);
    }
  }

  // --------------------------------------------------------------------- take

  lemma {:induction false} RetainWhole(keys: seq<Slot>)
    requires forall i | 0 <= i < |keys| :: WholeEntry(keys[i].entry)
    ensures Retain(keys) == keys
  {
    if keys != [] {
      RetainWhole(keys[1..]);
    }
  }

  lemma {:induction false} RetainAppend(a: seq<Slot>, b: seq<Slot>)
    ensures Retain(a + b) == Retain(a) + Retain(b)
  {
    if a == [] {
      assert a + b == b;
    } else {
      assert (a + b)[1..] == a[1..] + b;
      RetainAppend(a[1..], b);
    }
  }

  /** Taking from a whole map leaves every slot but the one taken from, and that one only if not empty. */
  lemma {:induction false} RetainOne(keys: seq<Slot>, i: nat, left: Map)
    requires i < |keys| && forall j | 0 <= j < |keys| :: WholeEntry(keys[j].entry)
    ensures Retain(keys[i := Slot(keys[i].key, Holds(left))]) ==
            if left.keys == [] then keys[..i] + keys[i + 1..] else keys[i := Slot(keys[i].key, Holds(left))]
  {
    var slot := Slot(keys[i].key, Holds(left));
    assert keys[i := slot] == keys[..i] + ([slot] + keys[i + 1..]);
    RetainAppend(keys[..i], [slot] + keys[i + 1..]);
    RetainAppend([slot], keys[i + 1..]);
    RetainWhole(keys[..i]);
    RetainWhole(keys[i + 1..]);
  }

  /** What `Take` finds under the first of `keys`, and what it leaves there. */
  function Below(m: Map, keys: Path): (Entry, Map)
    requires Take(m, keys).Some?
  {
    var entry := m.keys[Index(m.keys, keys[0])].entry;
    if |keys| == 1 then (entry, EMPTY_MAP) else Take(entry.inner, keys[1..]).value
  }

  /** One level of `Take` from a whole map. */
  lemma {:induction false} TakeStep(m: Map, keys: Path)
    requires Whole(m) && Take(m, keys).Some?
    ensures var i, below := Index(m.keys, keys[0]), Below(m, keys);
            && i < |m.keys|
            && (|keys| > 1 ==> m.keys[i].entry.Holds? && Take(m.keys[i].entry.inner, keys[1..]).Some?)
            && Take(m, keys).value == (below.0, m.(keys :=
                 if below.1.keys == [] then m.keys[..i] + m.keys[i + 1..]
                 else m.keys[i := Slot(keys[0], Holds(below.1))]))
  {
    RetainOne(m.keys, Index(m.keys, keys[0]), Below(m, keys).1);
  }

  lemma {:induction false} GetAfterRemoval(m: Map, i: nat, k: KeyPress)
    requires Whole(m) && i < |m.keys|
    ensures Get(m.(keys := m.keys[..i] + m.keys[i + 1..]), k) == if k == m.keys[i].key then None else Get(m, k)
  {
    var keys := m.keys[..i] + m.keys[i + 1..];
    assert forall j | 0 <= j < |keys| :: keys[j] == m.keys[if j < i then j else j + 1];
    IndexAfterRemoval(m.keys, keys, i, k);
  }

  lemma {:induction false} IndexAfterRemoval(keys: seq<Slot>, left: seq<Slot>, i: nat, k: KeyPress)
    requires forall a, b | 0 <= a < b < |keys| :: keys[a].key != keys[b].key
    requires i < |keys| && |left| == |keys| - 1
    requires forall j | 0 <= j < |left| :: left[j] == keys[if j < i then j else j + 1]
    ensures var (was, j) := (Index(keys, k), Index(left, k));
            if was == i || was == |keys| then j == |left| else j < |left| && left[j] == keys[was]
    ensures Index(keys, k) == i <==> k == keys[i].key
  {
    var was := Index(keys, k);
    if k == keys[i].key {
      IndexIs(keys, i);
    } else if was < |keys| {
      IndexIs(left, if was < i then was else was - 1);
    }
  }

  lemma {:induction false} TakeFinds(m: Map, keys: Path)
    ensures Take(m, keys).Some? <==> keys != [] && At(Holds(m), keys).Some?
    ensures Take(m, keys).Some? ==> Take(m, keys).value.0 == At(Holds(m), keys).value
    decreases |keys|
  {
    if |keys| > 1 && Get(m, keys[0]).Some? && Get(m, keys[0]).value.Holds? {
      TakeFinds(Get(m, keys[0]).value.inner, keys[1..]);
    }
  }

  lemma {:induction false} WholeWithout(m: Map, i: nat)
    requires Whole(m) && i < |m.keys|
    ensures Whole(m.(keys := m.keys[..i] + m.keys[i + 1..]))
  {
    var keys := m.keys[..i] + m.keys[i + 1..];
    assert forall j | 0 <= j < |keys| :: keys[j] == m.keys[if j < i then j else j + 1];
  }

  lemma {:induction false} WholeWith(m: Map, i: nat, entry: Entry)
    requires Whole(m) && i < |m.keys| && WholeEntry(entry)
    ensures Whole(m.(keys := m.keys[i := Slot(m.keys[i].key, entry)]))
  {
    var keys := m.keys[i := Slot(m.keys[i].key, entry)];
    assert forall j | 0 <= j < |keys| :: keys[j].key == m.keys[j].key;
  }

  lemma {:induction false} TakeWhole(m: Map, keys: Path)
    requires Whole(m) && Take(m, keys).Some?
    ensures WholeEntry(Take(m, keys).value.0) && Whole(Take(m, keys).value.1)
    ensures Take(m, keys).value.1.repeat == m.repeat
    decreases |keys|
  {
    TakeStep(m, keys);
    var i, below := Index(m.keys, keys[0]), Below(m, keys).1;
    assert WholeEntry(m.keys[i].entry);
    if |keys| > 1 {
      TakeWhole(m.keys[i].entry.inner, keys[1..]);
    }
    if below.keys == [] {
      WholeWithout(m, i);
    } else {
      WholeWith(m, i, Holds(below));
    }
  }

  lemma {:induction false} GetAfterTake(m: Map, keys: Path, k: KeyPress)
    requires Whole(m) && Take(m, keys).Some?
    ensures var below := Below(m, keys).1;
            Get(Take(m, keys).value.1, k) ==
              if k != keys[0] then Get(m, k) else if below.keys == [] then None else Some(Holds(below))
  {
    TakeStep(m, keys);
    var i := Index(m.keys, keys[0]);
    GetAfterRemoval(m, i, k);
    GetAfterUpdate(m, i, keys[0], Holds(Below(m, keys).1), k);
  }

  /** What every keys are once `keys` are taken: nothing below them, all else as it was. */
  lemma {:induction false} TakeAt(m: Map, keys: Path, p: Path)
    requires Whole(m) && Take(m, keys).Some?
    ensures var left := Holds(Take(m, keys).value.1);
            if keys <= p then At(left, p) == None
            else if p <= keys then Runs(left, p) == None == Runs(Holds(m), p)
            else At(left, p) == At(Holds(m), p)
    decreases |keys|
  {
    if p != [] {
      GetAfterTake(m, keys, p[0]);
      if p[0] == keys[0] {
        assert keys <= p <==> keys[1..] <= p[1..];
        assert p <= keys <==> p[1..] <= keys[1..];
        if |keys| > 1 {
          var inner := Get(m, keys[0]).value.inner;
          TakeAt(inner, keys[1..], p[1..]);
          NothingBelow(Take(inner, keys[1..]).value.1, p[1..]);
        }
      }
    }
  }

}
