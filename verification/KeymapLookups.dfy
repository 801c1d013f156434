/**
 * What the statements that change one map, one binding or one screen's key come to, by what is looked
 * up after them: src/keymap.rs and src/script/words.rs.
 */
module KeymapLookups {
  import opened Keys
  import opened Trie
  import opened TrieView
  import opened Modes
  import opened Keymap

  // -------------------------------------------------------------- one entry replaced

  /** What every keys are once the entry at `path` is another: its own below it, the same maps above it. */
  lemma {:induction false} ReplaceAt(entry: Entry, path: Path, new': Entry, p: Path)
    requires At(entry, path).Some?
    ensures var after := At(Replace(entry, path, new'), p);
            if path <= p then after == At(new', p[|path|..])
            else if p <= path then
              after.Some? && after.value.Holds? && At(entry, p).Some? && At(entry, p).value.Holds?
              && after.value.inner.repeat == At(entry, p).value.inner.repeat
            else after == At(entry, p)
    decreases |path|
  {
    if path != [] {
      var m := entry.inner;
      var below := Get(m, path[0]).value;
      var placed := Replace(below, path[1..], new');
      GetAfterUpdate(m, Index(m.keys, path[0]), path[0], placed, if p == [] then path[0] else p[0]);
      assert p != [] ==> (path <= p <==> p[0] == path[0] && path[1..] <= p[1..]);
      assert p != [] ==> (p <= path <==> p[0] == path[0] && p[1..] <= path[1..]);
      if p != [] && p[0] == path[0] {
        ReplaceAt(below, path[1..], new', p[1..]);
      }
    }
  }

  lemma {:induction false} SameBound(a: seq<Slot>, b: seq<Slot>)
    requires |a| == |b| && forall i | 0 <= i < |a| :: a[i].key == b[i].key && Bound(a[i].entry) == Bound(b[i].entry)
    ensures BoundOf(a) == BoundOf(b)
  {
    if a != [] {
      SameBound(a[1..], b[1..]);
    }
  }

  /** An entry for one that lists the same bindings, and all is listed as it was. */
  lemma {:induction false} ReplaceBound(entry: Entry, path: Path, new': Entry)
    requires At(entry, path).Some? && Bound(At(entry, path).value) == Bound(new')
    ensures Bound(Replace(entry, path, new')) == Bound(entry)
    decreases |path|
  {
    if path != [] {
      var i := Index(entry.inner.keys, path[0]);
      ReplaceBound(entry.inner.keys[i].entry, path[1..], new');
      SameBound(Replace(entry, path, new').inner.keys, entry.inner.keys);
    }
  }

  // ---------------------------------------------------------------------- repeats

  /** Repeating is refused exactly at no keys, or keys that hold no map. */
  lemma {:induction false} SetRepeatRefuses(root: Map, keys: Path)
    ensures SetRepeat(root, keys).Ok? <==> keys != [] && MapAt(root, keys).Some?
  {
  }

  /** The map at the keys repeats; every other map repeats or not as it did, and every binding is where it was. */
  lemma {:induction false} SetRepeatAt(root: Map, keys: Path, p: Path)
    requires SetRepeat(root, keys).Ok?
    ensures var changed := SetRepeat(root, keys).value;
            && Runs(Holds(changed), p) == Runs(Holds(root), p)
            && (MapAt(changed, p).Some? <==> MapAt(root, p).Some?)
            && (MapAt(root, p).Some? ==> MapAt(changed, p).value.repeat == (MapAt(root, p).value.repeat || p == keys))
            && Bound(Holds(changed)) == Bound(Holds(root))
  {
    var inner := MapAt(root, keys).value;
    var flagged := Holds(inner.(repeat := true));
    ReplaceAt(Holds(root), keys, flagged, p);
    ReplaceBound(Holds(root), keys, flagged);
    if keys <= p {
      AtBelow(Holds(root), keys, p);
      if p[|keys|..] == [] {
        assert p == keys;
      }
    }
  }

  // -------------------------------------------------------- captions and groups

  /** A binding changed is the only one that is; every map repeats or not as it did. */
  lemma {:induction false} RebindAt(root: Map, keys: Path, binding: Binding, p: Path)
    requires Runs(Holds(root), keys).Some?
    ensures var changed := Rebind(root, keys, binding);
            && Runs(Holds(changed), p) == (if p == keys then Some(binding) else Runs(Holds(root), p))
            && (MapAt(changed, p).Some? <==> MapAt(root, p).Some?)
            && (MapAt(root, p).Some? ==> MapAt(changed, p).value.repeat == MapAt(root, p).value.repeat)
  {
    ReplaceAt(Holds(root), keys, Run(binding), p);
    if keys <= p {
      AtBelow(Holds(root), keys, p);
      if p[|keys|..] == [] {
        assert p == keys;
      }
    }
  }

  /** A caption or a group changes the binding just made, and is refused exactly when that is gone. */
  lemma {:induction false} LabelsWhatWasMade(s: State, keys: Path, text: string, p: Path)
    requires s.made == Keyed(keys)
    ensures SetCaption(s, text).Done? <==> Runs(Holds(s.root), keys).Some?
    ensures SetGroup(s, text).Done? <==> Runs(Holds(s.root), keys).Some?
    ensures Runs(Holds(s.root), keys).Some? ==>
              var was := Runs(Holds(s.root), keys).value;
              var (captioned, grouped) := (SetCaption(s, text).state, SetGroup(s, text).state);
              && captioned == s.(root := captioned.root) && grouped == s.(root := grouped.root)
              && Runs(Holds(captioned.root), p) ==
                 (if p == keys then Some(was.(caption := text)) else Runs(Holds(s.root), p))
              && Runs(Holds(grouped.root), p) ==
                 (if p == keys then Some(was.(group := text)) else Runs(Holds(s.root), p))
  {
    if Runs(Holds(s.root), keys).Some? {
      var was := Runs(Holds(s.root), keys).value;
      RebindAt(s.root, keys, was.(caption := text), p);
      RebindAt(s.root, keys, was.(group := text), p);
    }
  }

  // ---------------------------------------------------------------- screens' keys

  /** What a table has for a key. */
  function Found<A>(table: Table<A>, key: KeyPress): Option<TableKey<A>> {
    var i := KeyIndex(table, key);
    if i < |table| then Some(table[i]) else None
  }

  lemma {:induction false} KeyIndexIs<A>(table: Table<A>, i: nat)
    requires i < |table| && forall j | 0 <= j < i :: table[j].key != table[i].key
    ensures KeyIndex(table, table[i].key) == i
  {
    if i > 0 {
      KeyIndexIs(table[1..], i - 1);
    }
  }

  /** A screen's key bound does its new action, its hint gone; every other key does what it did. */
  lemma {:induction false} TableBindFinds<A>(table: Table<A>, key: KeyPress, act: A, k: KeyPress)
    ensures Found(TableBind(table, key, act), k) == if k == key then Some(TableKey(key, act, None)) else Found(table, k)
  {
    var (after, i) := (TableBind(table, key, act), KeyIndex(table, k));
    assert forall j | 0 <= j < |table| :: after[j].key == table[j].key;
    if k == key || i < |table| {
      KeyIndexIs(after, i);
    }
  }

  /** A screen's key unbound is nowhere in its table; every other key does what it did. */
  lemma {:induction false} TableUnbindFinds<A>(table: Table<A>, key: KeyPress, k: KeyPress)
    ensures Found(TableUnbind(table, key), k) == if k == key then None else Found(table, k)
  {
    if table != [] {
      TableUnbindFinds(table[1..], key, k);
      var rest := TableUnbind(table[1..], key);
      assert ([table[0]] + rest)[1..] == rest;
    }
  }
}
