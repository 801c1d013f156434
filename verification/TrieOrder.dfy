/**
 * What `Put` and `Take` keep: the order bindings are listed in, that no map binds Escape, and how
 * deep keys reach.
 */
module TrieOrder {
  import opened Keys
  import opened Sequences
  import opened Trie
  import opened TrieView

  // -------------------------------------------------------------------- order

  /** The listed keys that start with `keys`, or those that do not, in order. */
  function Part<T>(keys: Path, within: bool, list: seq<(Path, T)>): seq<(Path, T)> {
    if list == [] then []
    else (if (keys <= list[0].0) == within then [list[0]] else []) + Part(keys, within, list[1..])
  }

  /** Listed keys, each begun with `keys`. */
  function UnderAll<T>(keys: Path, list: seq<(Path, T)>): seq<(Path, T)> {
    if keys == [] then list else Under(keys[0], UnderAll(keys[1..], list))
  }

  lemma {:induction false} PartAppend<T>(keys: Path, within: bool, a: seq<(Path, T)>, b: seq<(Path, T)>)
    ensures Part(keys, within, a + b) == Part(keys, within, a) + Part(keys, within, b)
  {
    if a == [] {
      assert a + b == b;
    } else {
      assert (a + b)[1..] == a[1..] + b;
      PartAppend(keys, within, a[1..], b);
      Joined([a[0]], Part(keys, within, a[1..]), Part(keys, within, b));
    }
  }

  lemma {:induction false} PartAll<T>(list: seq<(Path, T)>)
    ensures Part([], true, list) == list && Part([], false, list) == []
  {
    if list != [] {
      PartAll(list[1..]);
    }
  }

  lemma {:induction false} PartUnder<T>(keys: Path, within: bool, key: KeyPress, list: seq<(Path, T)>)
    requires keys != []
    ensures Part(keys, within, Under(key, list)) ==
            if key == keys[0] then Under(key, Part(keys[1..], within, list))
            else if within then [] else Under(key, list)
  {
    if list != [] {
      var head := ([key] + list[0].0, list[0].1);
      assert keys <= head.0 <==> keys[0] == key && keys[1..] <= list[0].0 by {
        assert head.0[1..] == list[0].0;
      }
      PartUnder(keys, within, key, list[1..]);
      if key == keys[0] && (keys[1..] <= list[0].0) == within {
        UnderAppend(key, [list[0]], Part(keys[1..], within, list[1..]));
      }
    }
  }

  lemma {:induction false} UnderAppend<T>(key: KeyPress, a: seq<(Path, T)>, b: seq<(Path, T)>)
    ensures Under(key, a + b) == Under(key, a) + Under(key, b)
  {
    if a == [] {
      assert a + b == b;
    } else {
      assert (a + b)[1..] == a[1..] + b;
      UnderAppend(key, a[1..], b);
    }
  }

  lemma {:induction false} BoundAppend(a: seq<Slot>, b: seq<Slot>)
    ensures BoundOf(a + b) == BoundOf(a) + BoundOf(b)
  {
    if a == [] {
      assert a + b == b;
    } else {
      assert (a + b)[1..] == a[1..] + b;
      BoundAppend(a[1..], b);
    }
  }

  /** None of `slots` is `key`'s. */
  ghost predicate Others(slots: seq<Slot>, key: KeyPress) {
    forall i | 0 <= i < |slots| :: slots[i].key != key
  }

  /** Keys of a map other than the first of `keys` list nothing within them. */
  lemma {:induction false} PartOther(keys: Path, within: bool, slots: seq<Slot>)
    requires keys != [] && Others(slots, keys[0])
    ensures Part(keys, within, BoundOf(slots)) == if within then [] else BoundOf(slots)
  {
    if slots != [] {
      PartUnder(keys, within, slots[0].key, Bound(slots[0].entry));
      PartAppend(keys, within, Under(slots[0].key, Bound(slots[0].entry)), BoundOf(slots[1..]));
      PartOther(keys, within, slots[1..]);
    }
  }

  lemma {:induction false} BoundOne(slot: Slot)
    ensures BoundOf([slot]) == Under(slot.key, Bound(slot.entry))
  {
    assert BoundOf([slot][1..]) == [];
  }

  /** The slots before `key`'s own, its own if it has one, and those after it. */
  datatype Split = Split(before: seq<Slot>, own: Option<Entry>, after: seq<Slot>) {
    function Joined(key: KeyPress): seq<Slot> {
      before + (match own case None => [] case Some(entry) => [Slot(key, entry)]) + after
    }

    /** What is listed of them, were `mid` listed under the key. */
    function Listing(key: KeyPress, mid: seq<(Path, Binding)>): seq<(Path, Binding)> {
      BoundOf(before) + Under(key, mid) + BoundOf(after)
    }
  }

  function SplitAt(keys: seq<Slot>, key: KeyPress): Split {
    var i := Index(keys, key);
    if i < |keys| then Split(keys[..i], Some(keys[i].entry), keys[i + 1..]) else Split(keys, None, [])
  }

  lemma {:induction false} SplitIs(m: Map, key: KeyPress)
    requires Whole(m)
    ensures SplitAt(m.keys, key).Joined(key) == m.keys
    ensures Others(SplitAt(m.keys, key).before, key) && Others(SplitAt(m.keys, key).after, key)
  {
  }

  function BoundMaybe(entry: Option<Entry>): seq<(Path, Binding)> {
    match entry case None => [] case Some(e) => Bound(e)
  }

  lemma {:induction false} BoundJoined(split: Split, key: KeyPress)
    ensures BoundOf(split.Joined(key)) == split.Listing(key, BoundMaybe(split.own))
  {
    var own := match split.own case None => [] case Some(entry) => [Slot(key, entry)];
    BoundAppend(split.before + own, split.after);
    BoundAppend(split.before, own);
    if split.own.Some? {
      BoundOne(Slot(key, split.own.value));
    }
  }

  lemma {:induction false} PartJoined(keys: Path, within: bool, split: Split)
    requires keys != [] && Others(split.before, keys[0]) && Others(split.after, keys[0])
    ensures var mid := Part(keys[1..], within, BoundMaybe(split.own));
            Part(keys, within, BoundOf(split.Joined(keys[0]))) ==
            if within then Under(keys[0], mid) else split.Listing(keys[0], mid)
  {
    var own := Under(keys[0], BoundMaybe(split.own));
    BoundJoined(split, keys[0]);
    PartAppend(keys, within, BoundOf(split.before) + own, BoundOf(split.after));
    PartAppend(keys, within, BoundOf(split.before), own);
    PartOther(keys, within, split.before);
    PartOther(keys, within, split.after);
    PartUnder(keys, within, keys[0], BoundMaybe(split.own));
  }

  lemma {:induction false} PutJoined(m: Map, keys: Path, rest: Path, entry: Entry)
    requires Whole(m) && |rest| <= |keys| && Put(m, keys, rest, entry).Ok?
    ensures var split := SplitAt(m.keys, rest[0]);
            var there := match split.own case None => EMPTY_MAP case Some(e) => if e.Holds? then e.inner else EMPTY_MAP;
            && (|rest| > 1 ==> Put(there, keys, rest[1..], entry).Ok? && (split.own.Some? ==> split.own.value.Holds?))
            && (|rest| == 1 && split.own.Some? ==> split.own.value.Run?)
            && Put(m, keys, rest, entry).value.keys ==
               split.(own := Some(if |rest| == 1 then entry
                                  else Holds(Put(there, keys, rest[1..], entry).value))).Joined(rest[0])
  {
  }

  /** Where `Put` ends, in place of a binding or nothing. */
  lemma {:induction false} PutEndsOrder(m: Map, keys: Path, rest: Path, entry: Entry, within: bool)
    requires Whole(m) && |rest| == 1 <= |keys| && Put(m, keys, rest, entry).Ok?
    ensures Part(rest, within, Bound(Holds(Put(m, keys, rest, entry).value))) ==
            if within then UnderAll(rest, Bound(entry)) else Part(rest, within, Bound(Holds(m)))
  {
    var split := SplitAt(m.keys, rest[0]);
    SplitIs(m, rest[0]);
    PutJoined(m, keys, rest, entry);
    PartJoined(rest, within, split);
    PartJoined(rest, within, split.(own := Some(entry)));
    PartAll(Bound(entry));
    PartAll(BoundMaybe(split.own));
  }

  /** `Put` lists the bindings of `entry` together, and keeps the order of every other binding. */
  lemma {:induction false} PutKeepsOrder(m: Map, keys: Path, rest: Path, entry: Entry, within: bool)
    requires Whole(m) && WholeEntry(entry) && |rest| <= |keys| && Put(m, keys, rest, entry).Ok?
    ensures Part(rest, within, Bound(Holds(Put(m, keys, rest, entry).value))) ==
            if within then UnderAll(rest, Bound(entry)) else Part(rest, within, Bound(Holds(m)))
    decreases |rest|
  {
    if |rest| == 1 {
      PutEndsOrder(m, keys, rest, entry, within);
    } else {
      var split := SplitAt(m.keys, rest[0]);
      SplitIs(m, rest[0]);
      PutJoined(m, keys, rest, entry);
      PartJoined(rest, within, split);
      var there := if split.own.Some? then split.own.value.inner else EMPTY_MAP;
      PartJoined(rest, within, split.(own := Some(Holds(Put(there, keys, rest[1..], entry).value))));
      PutKeepsOrder(there, keys, rest[1..], entry, within);
    }
  }

  lemma {:induction false} TakeJoined(m: Map, keys: Path)
    requires Whole(m) && Take(m, keys).Some?
    ensures var split, below := SplitAt(m.keys, keys[0]), Below(m, keys).1;
            Take(m, keys).value.1.keys ==
              split.(own := if below.keys == [] then None else Some(Holds(below))).Joined(keys[0])
  {
    TakeStep(m, keys);
    ReplacedAt(m.keys, Index(m.keys, keys[0]), Slot(keys[0], Holds(Below(m, keys).1)));
  }

  /** `Take` drops the bindings it took, which keep their order, and keeps that of every other. */
  lemma {:induction false} TakeKeepsOrder(m: Map, keys: Path, within: bool)
    requires Whole(m) && Take(m, keys).Some?
    ensures Part(keys, within, Bound(Holds(m))) ==
            if within then UnderAll(keys, Bound(Take(m, keys).value.0)) else Bound(Holds(Take(m, keys).value.1))
    decreases |keys|
  {
    var split, below := SplitAt(m.keys, keys[0]), Below(m, keys);
    SplitIs(m, keys[0]);
    TakeStep(m, keys);
    PartJoined(keys, within, split);
    if |keys| == 1 {
      PartAll(Bound(split.own.value));
    } else {
      TakeKeepsOrder(split.own.value.inner, keys[1..], within);
    }
    TakeJoined(m, keys);
    BoundJoined(split.(own := if below.1.keys == [] then None else Some(Holds(below.1))), keys[0]);
  }

  // ------------------------------------------------------------ Escape, depth

  ghost predicate NoEscape(keys: Path) {
    forall i | 0 <= i < |keys| :: !keys[i].Leaves()
  }

  /** Every map a root key holds can be left: none binds Escape. The root's own keys may be Escape. */
  ghost predicate LeavableRoot(m: Map) {
    forall i | 0 <= i < |m.keys| :: Leavable(m.keys[i].entry)
  }

  lemma {:induction false} PutLeavable(m: Map, keys: Path, rest: Path, entry: Entry)
    requires |rest| <= |keys| && Put(m, keys, rest, entry).Ok?
    requires LeavableRoot(m) && Leavable(entry) && NoEscape(rest[1..])
    ensures LeavableRoot(Put(m, keys, rest, entry).value)
    ensures Leavable(Holds(m)) && !rest[0].Leaves() ==> Leavable(Holds(Put(m, keys, rest, entry).value))
    decreases |rest|
  {
    var key, after := rest[0], rest[1..];
    var i := Index(m.keys, key);
    if after != [] {
      var there := if i < |m.keys| then m.keys[i].entry.inner else EMPTY_MAP;
      assert i < |m.keys| ==> Leavable(m.keys[i].entry);
      PutLeavable(there, keys, after, entry);
    }
  }

  lemma {:induction false} TakeLeavable(m: Map, keys: Path)
    requires Whole(m) && Take(m, keys).Some? && LeavableRoot(m)
    ensures Leavable(Take(m, keys).value.0) && LeavableRoot(Take(m, keys).value.1)
    ensures Leavable(Holds(m)) ==> Leavable(Holds(Take(m, keys).value.1))
    decreases |keys|
  {
    TakeStep(m, keys);
    var i := Index(m.keys, keys[0]);
    assert Leavable(m.keys[i].entry);
    if |keys| > 1 {
      TakeLeavable(m.keys[i].entry.inner, keys[1..]);
    }
  }

  /** No key of a map reaches deeper than `most`. */
  ghost predicate Within(m: Map, most: int) {
    forall i | 0 <= i < |m.keys| :: Depth(m.keys[i].entry) <= most
  }

  lemma {:induction false} DeepestIs(keys: seq<Slot>, most: nat)
    ensures DeepestOf(keys) <= most <==> forall i | 0 <= i < |keys| :: Depth(keys[i].entry) <= most
  {
    if keys != [] {
      DeepestIs(keys[1..], most);
      assert forall i | 0 < i < |keys| :: keys[i] == keys[1..][i - 1];
    }
  }

  lemma {:induction false} PutWithin(m: Map, keys: Path, rest: Path, entry: Entry, most: nat)
    requires |rest| <= |keys| && Put(m, keys, rest, entry).Ok?
    requires Within(m, most) && |rest| - 1 + Depth(entry) <= most
    ensures Within(Put(m, keys, rest, entry).value, most)
    decreases |rest|
  {
    var key, after := rest[0], rest[1..];
    var i := Index(m.keys, key);
    if after != [] {
      var there := if i < |m.keys| then m.keys[i].entry.inner else EMPTY_MAP;
      if i < |m.keys| {
        assert Depth(m.keys[i].entry) <= most;
      }
      assert Depth(entry) >= 1;
      DeepestIs(there.keys, most - 1);
      PutWithin(there, keys, after, entry, most - 1);
      DeepestIs(Put(there, keys, after, entry).value.keys, most - 1);
    }
  }

  lemma {:induction false} TakeWithin(m: Map, keys: Path, most: nat)
    requires Whole(m) && Take(m, keys).Some? && Within(m, most)
    ensures Within(Take(m, keys).value.1, most)
    decreases |keys|
  {
    TakeStep(m, keys);
    var i := Index(m.keys, keys[0]);
    if |keys| > 1 {
      var inner := m.keys[i].entry.inner;
      assert Depth(m.keys[i].entry) <= most;
      DeepestIs(inner.keys, most - 1);
      TakeWithin(inner, keys[1..], most - 1);
      DeepestIs(Take(inner, keys[1..]).value.1.keys, most - 1);
    }
  }
}
