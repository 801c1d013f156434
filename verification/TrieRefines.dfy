/** The tree of keys refines a prefix-free map: binding is an update of it, unbinding a removal. */
module TrieRefines {
  import opened Keys
  import opened Trie
  import opened TrieView

  /** A key runs or holds, never both: so what runs starts nothing else. */
  lemma {:induction false} ViewPrefixFree(entry: Entry)
    ensures PrefixFree(View(entry))
  {
    forall p, q | p in View(entry) && q in View(entry) && p <= q ensures p == q {
      ViewIs(entry, p);
      ViewIs(entry, q);
      AtBelow(entry, p, q);
    }
  }

  /** What `PutRefuses` says, of a whole map, in terms of its view alone. */
  lemma {:induction false} PutRefusesInView(m: Map, keys: Path, entry: Entry)
    requires Whole(m)
    ensures Put(m, keys, keys, entry).Err? <==> Clashes(View(Holds(m)), keys)
  {
    PutRefuses(m, keys, keys, entry);
    if n :| 0 < n < |keys| && Runs(Holds(m), keys[..n]).Some? {
      ViewIs(Holds(m), keys[..n]);
      assert keys[..n] in View(Holds(m)) && keys[..n] < keys;
    } else if keys != [] && MapAt(m, keys).Some? {
      WholeAt(Holds(m), keys);
      var below := SomethingRuns(At(Holds(m), keys).value);
      AtAppend(Holds(m), keys, below);
      ViewIs(Holds(m), keys + below);
      assert below != [];
      assert keys + below in View(Holds(m)) && keys < keys + below;
    } else if keys != [] {
      forall p | p in View(Holds(m)) ensures !(p < keys) && !(keys < p) {
        ViewIs(Holds(m), p);
        var cut := if |p| <= |keys| then keys[..|p|] else p;
        assert p < keys ==> p == cut;
        if keys < p {
          AtBelow(Holds(m), keys, p);
        }
      }
    }
  }

  /** Binding keys is the update of the view, refused exactly when the view says they clash. */
  lemma {:induction false} PutRefinesUpdate(m: Map, keys: Path, binding: Binding)
    requires Whole(m)
    ensures Put(m, keys, keys, Run(binding)).Err? <==> Clashes(View(Holds(m)), keys)
    ensures Put(m, keys, keys, Run(binding)).Ok? ==>
              View(Holds(Put(m, keys, keys, Run(binding)).value)) == View(Holds(m))[keys := binding]
  {
    PutRefusesInView(m, keys, Run(binding));
    if Put(m, keys, keys, Run(binding)).Ok? {
      var changed := Holds(Put(m, keys, keys, Run(binding)).value);
      forall p
        ensures p in View(Holds(m))[keys := binding] <==> Runs(changed, p).Some?
        ensures p in View(Holds(m))[keys := binding] ==>
                  View(Holds(m))[keys := binding][p] == Runs(changed, p).value
      {
        ViewIs(Holds(m), p);
        PutAt(m, keys, keys, Run(binding), p);
        if p <= keys && p != keys {
          assert keys[..|p|] == p;
        }
      }
      ViewsAreEqual(changed, View(Holds(m))[keys := binding]);
    }
  }

  /** Unbinding keys removes from the view exactly the keys that start with them. */
  lemma {:induction false} TakeRefinesRemoval(m: Map, keys: Path)
    requires Whole(m)
    ensures Take(m, keys).None? <==> keys == [] || forall p | p in View(Holds(m)) :: !(keys <= p)
    ensures Take(m, keys).Some? ==>
              && View(Holds(Take(m, keys).value.1)) ==
                 (map p | p in View(Holds(m)) && !(keys <= p) :: View(Holds(m))[p])
              && (forall p :: p in View(Take(m, keys).value.0) <==> keys + p in View(Holds(m)))
              && (forall p | p in View(Take(m, keys).value.0) ::
                   View(Take(m, keys).value.0)[p] == View(Holds(m))[keys + p])
  {
    TakeFinds(m, keys);
    if keys != [] && At(Holds(m), keys).None? {
      forall p | p in View(Holds(m)) ensures !(keys <= p) {
        ViewIs(Holds(m), p);
        if keys <= p {
          AtBelow(Holds(m), keys, p);
        }
      }
    } else if keys != [] {
      var (taken, left) := Take(m, keys).value;
      WholeAt(Holds(m), keys);
      var below := SomethingRuns(taken);
      AtAppend(Holds(m), keys, below);
      ViewIs(Holds(m), keys + below);
      assert keys <= keys + below;
      forall p
        ensures p in View(taken) <==> keys + p in View(Holds(m))
        ensures p in View(taken) ==> View(taken)[p] == View(Holds(m))[keys + p]
      {
        AtAppend(Holds(m), keys, p);
        ViewIs(taken, p);
        ViewIs(Holds(m), keys + p);
      }
      var view := map p | p in View(Holds(m)) && !(keys <= p) :: View(Holds(m))[p];
      forall p
        ensures p in view <==> Runs(Holds(left), p).Some?
        ensures p in view ==> view[p] == Runs(Holds(left), p).value
      {
        ViewIs(Holds(m), p);
        TakeAt(m, keys, p);
      }
      ViewsAreEqual(Holds(left), view);
    }
  }

  lemma {:induction false} TakeUndoesFreshPut(m: Map, keys: Path, rest: Path, entry: Entry)
    requires Whole(m) && WholeEntry(entry) && |rest| <= |keys| && Put(m, keys, rest, entry).Ok?
    requires Runs(Holds(m), rest).None?
    ensures Take(Put(m, keys, rest, entry).value, rest) == Some((entry, m))
    decreases |rest|
  {
    var changed := Put(m, keys, rest, entry).value;
    var key, after := rest[0], rest[1..];
    var i := Index(m.keys, key);
    PutWhole(m, keys, rest, entry);
    PutShape(m, keys, rest, entry);
    IndexIs(changed.keys, i);
    if after != [] {
      FreshBelow(m, keys, rest, entry);
      TakeUndoesFreshPut(Inner(m, key), keys, after, entry);
    }
    assert Take(changed, rest).Some?;
    TakeStep(changed, rest);
    assert Below(changed, rest) == (entry, if after == [] then EMPTY_MAP else Inner(m, key));
    if i == |m.keys| {
      assert changed.keys[..i] + changed.keys[i + 1..] == m.keys;
    } else {
      assert after == [] ==> At(Holds(m), rest) == Get(m, key);
      PutBack(m.keys, i, changed.keys[i]);
    }
  }

  lemma {:induction false} PutBack(keys: seq<Slot>, i: nat, slot: Slot)
    requires i < |keys|
    ensures keys[i := slot][i := keys[i]] == keys
  {
  }

  /** What is put below a map goes into a map there, or a new one: nothing ran there either. */
  lemma {:induction false} FreshBelow(m: Map, keys: Path, rest: Path, entry: Entry)
    requires Whole(m) && 1 < |rest| <= |keys| && Put(m, keys, rest, entry).Ok? && Runs(Holds(m), rest).None?
    ensures Whole(Inner(m, rest[0])) && Runs(Holds(Inner(m, rest[0])), rest[1..]).None?
    ensures var i := Index(m.keys, rest[0]);
            i < |m.keys| ==> m.keys[i].entry == Holds(Inner(m, rest[0])) && Inner(m, rest[0]).keys != []
    ensures Index(m.keys, rest[0]) == |m.keys| ==> Inner(m, rest[0]) == EMPTY_MAP
  {
    AtInner(m, rest);
    var i := Index(m.keys, rest[0]);
    if i < |m.keys| {
      assert WholeEntry(m.keys[i].entry);
    }
  }

  /** Unbinding undoes binding, leaving the identical map, exactly when the keys ran nothing before. */
  lemma {:induction false} TakeUndoesPut(m: Map, keys: Path, binding: Binding)
    requires Whole(m) && Put(m, keys, keys, Run(binding)).Ok?
    ensures Take(Put(m, keys, keys, Run(binding)).value, keys) == Some((Run(binding), m)) <==>
              keys !in View(Holds(m))
  {
    ViewIs(Holds(m), keys);
    if Runs(Holds(m), keys).Some? {
      var changed := Put(m, keys, keys, Run(binding)).value;
      PutWhole(m, keys, keys, Run(binding));
      if Take(changed, keys).Some? {
        TakeAt(changed, keys, keys);
      }
    } else {
      TakeUndoesFreshPut(m, keys, keys, Run(binding));
    }
  }
}
