/** `Keymap::move_keys` of src/keymap.rs: what keys ran or held, other keys do instead, or nothing changes. */
module Moves {
  import opened Keys
  import opened Trie
  import opened TrieView
  import opened TrieRefines
  import opened TrieOrder
  import opened Keymap
  import opened KeymapSound

  /** Something other than what is moved runs below `p`. */
  ghost predicate Outlives(root: Map, from: Path, p: Path) {
    exists q | q in View(Holds(root)) :: p <= q && !(from <= q)
  }

  /** Moving is refused exactly when this holds; it is decided before anything changes. */
  ghost predicate MoveRefused(root: Map, from: Path, to: Path) {
    || from <= to
    || to == []
    || At(Holds(root), from).None?
    || HasEscape(to[1..])
    || |to| - 1 + Depth(At(Holds(root), from).value) > DEEPEST
    || exists p | p in View(Holds(root)) && !(from <= p) :: p < to || to < p
  }

  lemma {:induction false} MoveRefusal(root: Map, from: Path, to: Path)
    requires SoundRoot(root)
    ensures MoveKeys(root, from, to).Err? <==> MoveRefused(root, from, to)
  {
    TakeFinds(root, from);
    if !(from <= to) && Take(root, from).Some? {
      var (entry, left) := Take(root, from).value;
      TakeWhole(root, from);
      TakeRefinesRemoval(root, from);
      PutRefusesInView(left, to, entry);
      assert forall p :: p in View(Holds(left)) <==> p in View(Holds(root)) && !(from <= p);
    }
  }

  /** What every keys run after a move: those moved run below `to`, no others below `from`, the rest as before. */
  lemma {:induction false} MoveRuns(root: Map, from: Path, to: Path, p: Path)
    requires SoundRoot(root) && MoveKeys(root, from, to).Ok?
    ensures Runs(Holds(MoveKeys(root, from, to).value), p) ==
            if to <= p then Runs(Holds(root), from + p[|to|..])
            else if from <= p then None
            else Runs(Holds(root), p)
  {
    var (entry, left) := Take(root, from).value;
    TakeFinds(root, from);
    TakeAt(root, from, p);
    PutAt(left, to, to, entry, p);
    if to <= p {
      AtAppend(Holds(root), from, p[|to|..]);
    }
  }

  /** What moved is whole: the very entry, with its order, its maps and their repeats. */
  lemma {:induction false} MoveIsWhole(root: Map, from: Path, to: Path)
    requires SoundRoot(root) && MoveKeys(root, from, to).Ok?
    ensures At(Holds(MoveKeys(root, from, to).value), to) == At(Holds(root), from)
    ensures At(Holds(root), from).Some?
    ensures SoundRoot(MoveKeys(root, from, to).value)
  {
    var (entry, left) := Take(root, from).value;
    TakeFinds(root, from);
    TakeSound(root, from);
    PutAt(left, to, to, entry, to);
    PutKeysSound(left, to, entry);
  }

  /** The only binding a move can lose is one `to` itself ran. */
  lemma {:induction false} MoveLosesOnlyWhatToRan(root: Map, from: Path, to: Path, p: Path)
    requires SoundRoot(root) && MoveKeys(root, from, to).Ok?
    requires p in View(Holds(root))
    ensures var moved := View(Holds(MoveKeys(root, from, to).value));
            var p' := if from <= p then to + p[|from|..] else p;
            (p' in moved && moved[p'] == View(Holds(root))[p]) || (p == to && !(from <= p))
  {
    var p' := if from <= p then to + p[|from|..] else p;
    ViewIs(Holds(root), p);
    ViewIs(Holds(MoveKeys(root, from, to).value), p');
    MoveRuns(root, from, to, p');
    if from <= p {
      assert p == from + p'[|to|..];
    } else if to <= p && p != to {
      MoveRefusal(root, from, to);
    }
  }

  /** The order bindings are listed in is kept among those moved, and among the rest. */
  lemma {:induction false} MoveKeepsOrder(root: Map, from: Path, to: Path)
    requires SoundRoot(root) && MoveKeys(root, from, to).Ok?
    ensures At(Holds(root), from).Some?
    ensures var moved, entry := Bound(Holds(MoveKeys(root, from, to).value)), At(Holds(root), from).value;
            && Part(from, true, Bound(Holds(root))) == UnderAll(from, Bound(entry))
            && Part(to, true, moved) == UnderAll(to, Bound(entry))
            && Part(to, false, moved) == Part(to, false, Part(from, false, Bound(Holds(root))))
  {
    var (entry, left) := Take(root, from).value;
    TakeFinds(root, from);
    TakeSound(root, from);
    TakeKeepsOrder(root, from, true);
    TakeKeepsOrder(root, from, false);
    PlacedInOrder(left, to, entry);
  }

  lemma {:induction false} PlacedInOrder(m: Map, to: Path, entry: Entry)
    requires Whole(m) && WholeEntry(entry) && Put(m, to, to, entry).Ok?
    ensures var placed := Bound(Holds(Put(m, to, to, entry).value));
            && Part(to, true, placed) == UnderAll(to, Bound(entry))
            && Part(to, false, placed) == Part(to, false, Bound(Holds(m)))
  {
    PutKeepsOrder(m, to, to, entry, true);
    PutKeepsOrder(m, to, to, entry, false);
  }

  lemma {:induction false} MapAtFirst(m: Map, p: Path)
    requires p != []
    ensures MapAt(m, p) == match Get(m, p[0])
                           case Some(Holds(inner)) => MapAt(inner, p[1..])
                           case _ => None
  {
    match Get(m, p[0])
    case Some(Run(binding)) => assert At(Run(binding), p[1..]) == if p[1..] == [] then Some(Run(binding)) else None;
    case _ =>
  }

  /** A map keeps its repeat when keys are put below it; one the keys needed made does not repeat. */
  lemma {:induction false} PutRepeat(m: Map, keys: Path, rest: Path, entry: Entry, p: Path)
    requires |rest| <= |keys| && Put(m, keys, rest, entry).Ok? && !(rest <= p)
    ensures var changed := Put(m, keys, rest, entry).value;
            (match MapAt(changed, p)
             case None => MapAt(m, p).None?
             case Some(inner) => inner.repeat == (MapAt(m, p).Some? && MapAt(m, p).value.repeat))
    decreases |rest|
  {
    if p == [] {
      PutShape(m, keys, rest, entry);
    } else {
      GetAfterPut(m, keys, rest, entry, p[0]);
      MapAtFirst(m, p);
      MapAtFirst(Put(m, keys, rest, entry).value, p);
      if p[0] == rest[0] && |rest| > 1 {
        assert rest <= p <==> rest[1..] <= p[1..];
        PutRepeat(Inner(m, rest[0]), keys, rest[1..], entry, p[1..]);
        NothingBelow(EMPTY_MAP, p[1..]);
      }
    }
  }

  /** A map outside what is taken stays, with its repeat, exactly while something else runs below it. */
  lemma {:induction false} TakeRepeat(m: Map, keys: Path, p: Path)
    requires Whole(m) && Take(m, keys).Some? && p != []
    ensures var left := Take(m, keys).value.1;
            if MapAt(m, p).Some? && Outlives(m, keys, p)
            then MapAt(left, p).Some? && MapAt(left, p).value.repeat == MapAt(m, p).value.repeat
            else MapAt(left, p).None?
  {
    var left := Take(m, keys).value.1;
    TakeWhole(m, keys);
    if MapAt(left, p).Some? {
      WholeAt(Holds(left), p);
      var q := SomethingRuns(At(Holds(left), p).value);
      AtAppend(Holds(left), p, q);
      TakeAt(m, keys, p + q);
      ViewIs(Holds(m), p + q);
      assert p + q in View(Holds(m)) && p <= p + q && !(keys <= p + q);
      TakeKeepsMap(m, keys, p);
    } else if MapAt(m, p).Some? && Outlives(m, keys, p) {
      var q :| q in View(Holds(m)) && p <= q && !(keys <= q);
      ViewIs(Holds(m), q);
      TakeAt(m, keys, q);
      AtBelow(Holds(left), p, q);
      AtBelow(Holds(m), p, q);
    }
  }

  lemma {:induction false} TakeKeepsMap(m: Map, keys: Path, p: Path)
    requires Whole(m) && Take(m, keys).Some? && MapAt(Take(m, keys).value.1, p).Some?
    ensures MapAt(m, p).Some? && MapAt(m, p).value.repeat == MapAt(Take(m, keys).value.1, p).value.repeat
    decreases |keys|
  {
    var left := Take(m, keys).value.1;
    if p == [] {
      TakeWhole(m, keys);
    } else {
      GetAfterTake(m, keys, p[0]);
      MapAtFirst(m, p);
      MapAtFirst(left, p);
      if p[0] == keys[0] {
        TakeStep(m, keys);
        if |keys| > 1 {
          TakeKeepsMap(Get(m, p[0]).value.inner, keys[1..], p[1..]);
        }
      }
    }
  }

  /**
   * The maps a move leaves where they were: each keeps its repeat while something other than what
   * moved runs below it, and a map that only what moved kept comes back, if `to` needs it, not repeating.
   */
  lemma {:induction false} MoveKeepsRepeats(root: Map, from: Path, to: Path, p: Path)
    requires SoundRoot(root) && MoveKeys(root, from, to).Ok? && p != [] && !(to <= p)
    ensures match MapAt(MoveKeys(root, from, to).value, p)
            case None => !(MapAt(root, p).Some? && Outlives(root, from, p))
            case Some(inner) =>
              inner.repeat == (MapAt(root, p).Some? && MapAt(root, p).value.repeat && Outlives(root, from, p))
  {
    var (entry, left) := Take(root, from).value;
    TakeRepeat(root, from, p);
    PutRepeat(left, to, to, entry, p);
  }

  /** A repeating map whose one binding moves within it is made anew, and does not repeat. */
  lemma {:induction false} MoveMayLoseRepeat(a: KeyPress, b: KeyPress, c: KeyPress, binding: Binding)
    requires !b.Leaves() && !c.Leaves() && b != c
    ensures var root := Map([Slot(a, Holds(Map([Slot(b, Run(binding))], true)))], false);
            && SoundRoot(root) && MapAt(root, [a]).Some? && MapAt(root, [a]).value.repeat
            && MoveKeys(root, [a, b], [a, c]) ==
               Ok(Map([Slot(a, Holds(Map([Slot(c, Run(binding))], false)))], false))
  {
    var inner := Map([Slot(b, Run(binding))], true);
    var root := Map([Slot(a, Holds(inner))], false);
    OneDeep(inner.keys[0]);
    OneWhole(b, Run(binding));
    OneWhole(a, Holds(inner));
    assert root.keys[0].key == a;
    MapAtFirst(root, [a]);
    TakeOnly(b, Run(binding), true);
    TakeOnlyBelow(a, b, inner, Run(binding));
    PutOnlyBelow(a, c, Run(binding));
  }

  /** A map's one key taken. */
  lemma {:induction false} TakeOnly(key: KeyPress, entry: Entry, repeat: bool)
    ensures Take(Map([Slot(key, entry)], repeat), [key]) == Some((entry, Map([], repeat)))
  {
    RetainNone(Slot(key, Holds(EMPTY_MAP)));
    assert [Slot(key, entry)][0 := Slot(key, Holds(EMPTY_MAP))] == [Slot(key, Holds(EMPTY_MAP))];
  }

  lemma {:induction false} RetainNone(slot: Slot)
    requires slot.entry.Holds? && slot.entry.inner.keys == []
    ensures Retain([slot]) == []
  {
    assert [slot][1..] == [];
  }

  /** The one key of a map's one map taken: both maps go. */
  lemma {:induction false} TakeOnlyBelow(a: KeyPress, b: KeyPress, inner: Map, entry: Entry)
    requires Take(inner, [b]) == Some((entry, Map([], inner.repeat)))
    ensures Take(Map([Slot(a, Holds(inner))], false), [a, b]) == Some((entry, EMPTY_MAP))
  {
    var left := Slot(a, Holds(Map([], inner.repeat)));
    RetainNone(left);
    assert [Slot(a, Holds(inner))][0 := left] == [left] && [a, b][1..] == [b];
  }

  /** A path of two put in an empty map makes a map that does not repeat. */
  lemma {:induction false} PutOnlyBelow(a: KeyPress, c: KeyPress, entry: Entry)
    ensures Put(EMPTY_MAP, [a, c], [a, c], entry) == Ok(Map([Slot(a, Holds(Map([Slot(c, entry)], false)))], false))
  {
    assert [a, c][1..] == [c] && [c][1..] == [];
    var made := Slot(a, Holds(Map([Slot(c, entry)], false)));
    assert [] + [Slot(c, entry)] == [Slot(c, entry)] && [] + [made] == [made];
    assert Put(EMPTY_MAP, [a, c], [c], entry) == Ok(Map([Slot(c, entry)], false));
  }
}
