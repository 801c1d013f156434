/**
 * `Keymap::describe` of src/keymap.rs: the statements that make a keymap again. Run as a config,
 * from whatever keymap, they make that keymap: the same keys in the same order at every level.
 */
module Describe {
  import opened Keys
  import opened Trie
  import opened TrieView
  import opened TrieOrder
  import opened Modes
  import opened Keymap
  import opened Sequences

  // --------------------------------------------------------------- the listing

  function RunsIn(all: seq<(Path, Entry)>): seq<(Path, Binding)> {
    if all == [] then []
    else (if all[0].1.Run? then [(all[0].0, all[0].1.binding)] else []) + RunsIn(all[1..])
  }

  function RepeatsIn(all: seq<(Path, Entry)>): seq<(Path, Entry)> {
    if all == [] then []
    else (if all[0].1.Holds? && all[0].1.inner.repeat then [all[0]] else []) + RepeatsIn(all[1..])
  }

  /** The statements that make one binding, with a caption or a group only where a bare one would differ. */
  function BindingLines(keys: Path, binding: Binding): seq<Statement> {
    [BindKey(keys, binding.code)] + CaptionLines(binding) + GroupLines(binding)
  }

  function CaptionLines(binding: Binding): seq<Statement> {
    if binding.caption != binding.code.source then [Caption(binding.caption)] else []
  }

  function GroupLines(binding: Binding): seq<Statement> {
    if binding.group != OTHER_GROUP then [Group(binding.group)] else []
  }

  function BindingsLines(bound: seq<(Path, Binding)>): seq<Statement> {
    if bound == [] then [] else BindingLines(bound[0].0, bound[0].1) + BindingsLines(bound[1..])
  }

  function RepeatLines(repeats: seq<(Path, Entry)>): seq<Statement> {
    if repeats == [] then [] else [Statement.Repeat(repeats[0].0)] + RepeatLines(repeats[1..])
  }

  function HintLines(hint: Option<string>): seq<Statement> {
    match hint case None => [] case Some(text) => [Caption(text)]
  }

  function ListKeyLine(t: TableKey<ListAct>): Statement {
    match t.act
    case Action(callback) => BindAction(t.key, callback.code)
    case act => BindIn(ListModal, t.key, NameOf(LIST_NAMES, act))
  }

  function LineKeyLine(t: TableKey<LineAct>): Statement {
    BindIn(LineModal, t.key, NameOf(LINE_NAMES, t.act))
  }

  function ListLines(table: Table<ListAct>): seq<Statement> {
    if table == [] then []
    else [ListKeyLine(table[0])] + HintLines(table[0].hint) + ListLines(table[1..])
  }

  function LineLines(table: Table<LineAct>): seq<Statement> {
    if table == [] then []
    else [LineKeyLine(table[0])] + HintLines(table[0].hint) + LineLines(table[1..])
  }

  /** The lines of the bindings, then of the maps that repeat. */
  function RootLines(root: Map): seq<Statement> {
    BindingsLines(RunsIn(AllOf(root.keys))) + RepeatLines(RepeatsIn(AllOf(root.keys)))
  }

  function ModesLines(modes: Modes): seq<Statement> {
    ListLines(modes.list) + LineLines(modes.line)
  }

  function Described(root: Map, modes: Modes): seq<Statement> {
    [UnbindAll] + RootLines(root) + ModesLines(modes)
  }

  /** Runs statements none of which may be refused. */
  function RunAll(s: State, statements: seq<Statement>): Outcome
    decreases |statements|
  {
    if statements == [] then Done(s)
    else match Configure(s, statements[0])
      case Refused => Refused
      case Done(next) => RunAll(next, statements[1..])
  }

  lemma {:induction false} RunAllAppend(s: State, a: seq<Statement>, b: seq<Statement>)
    requires RunAll(s, a).Done?
    ensures RunAll(s, a + b) == RunAll(RunAll(s, a).state, b)
    decreases |a|
  {
    if a == [] {
      assert a + b == b;
    } else {
      assert (a + b)[1..] == a[1..] + b;
      RunAllAppend(Configure(s, a[0]).state, a[1..], b);
    }
  }

  /** Statements none of which is refused come to the same when refusals are passed over. */
  lemma {:induction false} RunAllIsRan(s: State, statements: seq<Statement>)
    requires RunAll(s, statements).Done?
    ensures Ran(s, statements) == RunAll(s, statements).state
    decreases |statements|
  {
    if statements != [] {
      RunAllIsRan(Configure(s, statements[0]).state, statements[1..]);
    }
  }

  // ---------------------------------------------------- the listing, by structure

  /** The maps below an entry that repeat, itself too, by their keys from it. */
  function Repeating(entry: Entry): seq<(Path, Entry)>
    decreases entry, 1
  {
    match entry
    case Run(_) => []
    case Holds(m) => (if m.repeat then [([], entry)] else []) + RepeatingOf(m.keys)
  }

  function RepeatingOf(keys: seq<Slot>): seq<(Path, Entry)>
    decreases keys, 0
  {
    if keys == [] then []
    else
      var Slot(key, entry) := keys[0];
      assert entry < keys[0];
      Under(key, Repeating(entry)) + RepeatingOf(keys[1..])
  }

  lemma {:induction false} RepeatsInAppend(a: seq<(Path, Entry)>, b: seq<(Path, Entry)>)
    ensures RepeatsIn(a + b) == RepeatsIn(a) + RepeatsIn(b)
  {
    if a == [] {
      assert a + b == b;
    } else {
      assert (a + b)[1..] == a[1..] + b;
      RepeatsInAppend(a[1..], b);
      Joined([a[0]], RepeatsIn(a[1..]), RepeatsIn(b));
    }
  }

  lemma {:induction false} RunsInAppend(a: seq<(Path, Entry)>, b: seq<(Path, Entry)>)
    ensures RunsIn(a + b) == RunsIn(a) + RunsIn(b)
    ensures RepeatsIn(a + b) == RepeatsIn(a) + RepeatsIn(b)
  {
    RepeatsInAppend(a, b);
    if a == [] {
      assert a + b == b;
    } else {
      assert (a + b)[1..] == a[1..] + b;
      RunsInAppend(a[1..], b);
      if a[0].1.Run? {
        Joined([(a[0].0, a[0].1.binding)], RunsIn(a[1..]), RunsIn(b));
      }
    }
  }

  lemma {:induction false} RunsInUnder(key: KeyPress, all: seq<(Path, Entry)>)
    ensures RunsIn(Under(key, all)) == Under(key, RunsIn(all))
    ensures RepeatsIn(Under(key, all)) == Under(key, RepeatsIn(all))
  {
    if all != [] {
      RunsInUnder(key, all[1..]);
      if all[0].1.Run? {
        UnderAppend(key, [(all[0].0, all[0].1.binding)], RunsIn(all[1..]));
      } else if all[0].1.inner.repeat {
        UnderAppend(key, [all[0]], RepeatsIn(all[1..]));
      }
    }
  }

  lemma {:induction false} ListedIs(entry: Entry)
    ensures RunsIn(Listed(entry)) == Bound(entry)
    ensures RepeatsIn(Listed(entry)) == Repeating(entry)
    decreases entry, 1
  {
    if entry.Run? {
      assert Listed(entry) == [([], entry)];
    } else {
      var below := AllOf(entry.inner.keys);
      AllOfIs(entry.inner.keys);
      RunsInAppend([([], entry)], below);
    }
  }

  /** What `all` lists, told apart: the bindings in order, and the maps that repeat. */
  lemma {:induction false} AllOfIs(keys: seq<Slot>)
    ensures RunsIn(AllOf(keys)) == BoundOf(keys)
    ensures RepeatsIn(AllOf(keys)) == RepeatingOf(keys)
    decreases keys, 0
  {
    if keys != [] {
      var Slot(key, entry) := keys[0];
      assert entry < keys[0];
      ListedIs(entry);
      AllOfIs(keys[1..]);
      RunsInUnder(key, Listed(entry));
      RunsInAppend(Under(key, Listed(entry)), AllOf(keys[1..]));
    }
  }

  // ------------------------------------------------------- binding them all again

  /** An entry with none of its maps repeating. */
  function Plain(entry: Entry): Entry
    decreases entry, 1
  {
    match entry case Run(_) => entry case Holds(m) => Holds(Map(PlainOf(m.keys), false))
  }

  function PlainOf(keys: seq<Slot>): (r: seq<Slot>)
    ensures |r| == |keys| && forall i | 0 <= i < |r| :: r[i].key == keys[i].key
    decreases keys, 0
  {
    if keys == [] then []
    else
      var Slot(key, entry) := keys[0];
      assert entry < keys[0];
      [Slot(key, Plain(entry))] + PlainOf(keys[1..])
  }

  /** Puts each binding in turn. */
  function PutAll(m: Map, bound: seq<(Path, Binding)>): Result<Map>
    decreases |bound|
  {
    if bound == [] then Ok(m)
    else match Put(m, bound[0].0, bound[0].0, Run(bound[0].1))
      case Err(why) => Err(why)
      case Ok(next) => PutAll(next, bound[1..])
  }

  lemma {:induction false} PutAllAppend(m: Map, a: seq<(Path, Binding)>, b: seq<(Path, Binding)>)
    requires PutAll(m, a).Ok?
    ensures PutAll(m, a + b) == PutAll(PutAll(m, a).value, b)
    decreases |a|
  {
    if a == [] {
      assert a + b == b;
    } else {
      assert (a + b)[1..] == a[1..] + b;
      PutAllAppend(Put(m, a[0].0, a[0].0, Run(a[0].1)).value, a[1..], b);
    }
  }

  /** The whole keys are only what a refusal names. */
  lemma {:induction false} PutNames(m: Map, keys: Path, keys': Path, rest: Path, entry: Entry)
    requires |rest| <= |keys| && |rest| <= |keys'| && Put(m, keys, rest, entry).Ok?
    ensures Put(m, keys', rest, entry) == Put(m, keys, rest, entry)
    decreases |rest|
  {
    var i := Index(m.keys, rest[0]);
    if |rest| > 1 {
      PutNames(if i < |m.keys| then m.keys[i].entry.inner else EMPTY_MAP, keys, keys', rest[1..], entry);
    }
  }

  /** Putting bindings whose first key has a map already comes to putting them in it. */
  lemma {:induction false} PutAllHeld(m: Map, i: nat, bound: seq<(Path, Binding)>)
    requires i < |m.keys| && Index(m.keys, m.keys[i].key) == i && m.keys[i].entry.Holds?
    requires PutAll(m.keys[i].entry.inner, bound).Ok?
    ensures PutAll(m, Under(m.keys[i].key, bound)) ==
            Ok(m.(keys := m.keys[i := Slot(m.keys[i].key, Holds(PutAll(m.keys[i].entry.inner, bound).value))]))
    decreases |bound|
  {
    var key, inner := m.keys[i].key, m.keys[i].entry.inner;
    if bound == [] {
      assert m.keys[i := Slot(key, Holds(inner))] == m.keys;
    } else {
      var path, entry := bound[0].0, Run(bound[0].1);
      var next := Put(inner, path, path, entry).value;
      PutNames(inner, path, [key] + path, path, entry);
      assert ([key] + path)[1..] == path;
      var m' := m.(keys := m.keys[i := Slot(key, Holds(next))]);
      assert Put(m, [key] + path, [key] + path, entry) == Ok(m');
      IndexIs(m'.keys, i);
      PutAllHeld(m', i, bound[1..]);
      assert m'.keys[i := Slot(key, Holds(PutAll(inner, bound).value))]
          == m.keys[i := Slot(key, Holds(PutAll(inner, bound).value))];
    }
  }

  /** Bindings put under a new key make it hold the map they make. */
  lemma {:induction false} PutAllNew(m: Map, key: KeyPress, bound: seq<(Path, Binding)>)
    requires Index(m.keys, key) == |m.keys| && bound != [] && PutAll(EMPTY_MAP, bound).Ok?
    ensures PutAll(m, Under(key, bound)) ==
            Ok(m.(keys := m.keys + [Slot(key, Holds(PutAll(EMPTY_MAP, bound).value))]))
  {
    var path, entry := bound[0].0, Run(bound[0].1);
    var made := Put(EMPTY_MAP, path, path, entry).value;
    PutNames(EMPTY_MAP, path, [key] + path, path, entry);
    assert ([key] + path)[1..] == path && path != [];
    var m' := m.(keys := m.keys + [Slot(key, Holds(made))]);
    assert Put(m, [key] + path, [key] + path, entry) == Ok(m');
    IndexIs(m'.keys, |m.keys|);
    PutAllHeld(m', |m.keys|, bound[1..]);
    assert m'.keys[|m.keys| := Slot(key, Holds(PutAll(EMPTY_MAP, bound).value))]
        == m.keys + [Slot(key, Holds(PutAll(EMPTY_MAP, bound).value))];
  }

  /** Each of `keys` is another than the rest, and than those already `done`. */
  ghost predicate Fresh(done: seq<Slot>, keys: seq<Slot>) {
    && (forall i, j | 0 <= i < j < |keys| :: keys[i].key != keys[j].key)
    && forall i, j | 0 <= i < |done| && 0 <= j < |keys| :: done[i].key != keys[j].key
  }

  ghost predicate WholeSlots(keys: seq<Slot>) {
    forall i | 0 <= i < |keys| :: WholeEntry(keys[i].entry)
  }

  lemma {:induction false} FreshStep(done: seq<Slot>, keys: seq<Slot>, entry: Entry)
    requires keys != [] && Fresh(done, keys) && WholeSlots(keys)
    ensures Fresh(done + [Slot(keys[0].key, entry)], keys[1..]) && WholeSlots(keys[1..])
    ensures Index(done, keys[0].key) == |done| && WholeEntry(keys[0].entry)
  {
  }

  /** What a map binds, put in order after the slots already `done`, makes its slots again. */
  lemma {:induction false} PutAllAgain(done: seq<Slot>, keys: seq<Slot>, repeat: bool)
    requires Fresh(done, keys) && WholeSlots(keys)
    ensures PutAll(Map(done, repeat), BoundOf(keys)) == Ok(Map(done + PlainOf(keys), repeat))
    decreases keys, 0
  {
    if keys == [] {
      assert done + PlainOf(keys) == done;
    } else {
      var Slot(key, entry) := keys[0];
      assert entry < keys[0];
      var done' := done + [Slot(key, Plain(entry))];
      FreshStep(done, keys, Plain(entry));
      PutAllEntry(done, key, entry, repeat);
      PutAllAgain(done', keys[1..], repeat);
      PutAllJoin(Map(done, repeat), Under(key, Bound(entry)), BoundOf(keys[1..]), Map(done', repeat));
      PlainJoin(done, keys);
    }
  }

  lemma {:induction false} PlainJoin(done: seq<Slot>, keys: seq<Slot>)
    requires keys != []
    ensures done + [Slot(keys[0].key, Plain(keys[0].entry))] + PlainOf(keys[1..]) == done + PlainOf(keys)
  {
  }

  lemma {:induction false} PutAllJoin(m: Map, a: seq<(Path, Binding)>, b: seq<(Path, Binding)>, next: Map)
    requires PutAll(m, a) == Ok(next)
    ensures PutAll(m, a + b) == PutAll(next, b)
  {
    PutAllAppend(m, a, b);
  }

  lemma {:induction false} PutAllEntry(done: seq<Slot>, key: KeyPress, entry: Entry, repeat: bool)
    requires Index(done, key) == |done| && WholeEntry(entry)
    ensures PutAll(Map(done, repeat), Under(key, Bound(entry))) ==
            Ok(Map(done + [Slot(key, Plain(entry))], repeat))
    decreases entry, 1
  {
    if entry.Run? {
      assert [key] + [] == [key];
      assert Under(key, Bound(entry)) == [([key], entry.binding)];
      assert Put(Map(done, repeat), [key], [key], entry) == Ok(Map(done + [Slot(key, entry)], repeat));
    } else {
      PutAllAgain([], entry.inner.keys, false);
      assert [] + entry.inner.keys == entry.inner.keys;
      assert [] + PlainOf(entry.inner.keys) == PlainOf(entry.inner.keys);
      var p := SomethingRuns(entry);
      ViewIs(entry, p);
      BoundHas(entry, p);
      PutAllNew(Map(done, repeat), key, Bound(entry));
    }
  }

  /** What runs is listed. */
  lemma {:induction false} BoundHas(entry: Entry, p: Path)
    requires Runs(entry, p).Some?
    ensures (p, Runs(entry, p).value) in Bound(entry)
  {
    ListedHasAt(entry, p);
    ListedIs(entry);
    RunsInHas(Listed(entry), p, Runs(entry, p).value);
  }

  lemma {:induction false} RunsInHas(all: seq<(Path, Entry)>, p: Path, binding: Binding)
    requires (p, Run(binding)) in all
    ensures (p, binding) in RunsIn(all)
  {
    if all[0] != (p, Run(binding)) {
      RunsInHas(all[1..], p, binding);
    }
  }

  // ------------------------------------------------------- flagging them all again

  /** Flags each map in turn. */
  function FlagAll(entry: Entry, repeats: seq<(Path, Entry)>): Option<Entry>
    decreases |repeats|
  {
    if repeats == [] then Some(entry)
    else match Flag(entry, repeats[0].0)
      case None => None
      case Some(next) => FlagAll(next, repeats[1..])
  }

  lemma {:induction false} FlagAllAppend(entry: Entry, a: seq<(Path, Entry)>, b: seq<(Path, Entry)>, next: Entry)
    requires FlagAll(entry, a) == Some(next)
    ensures FlagAll(entry, a + b) == FlagAll(next, b)
    decreases |a|
  {
    if a == [] {
      assert a + b == b;
    } else {
      assert (a + b)[1..] == a[1..] + b;
      FlagAllAppend(Flag(entry, a[0].0).value, a[1..], b, next);
    }
  }

  /** Maps flagged under a key are flagged in the entry it has. */
  lemma {:induction false} FlagAllUnder(m: Map, i: nat, repeats: seq<(Path, Entry)>, next: Entry)
    requires i < |m.keys| && Index(m.keys, m.keys[i].key) == i
    requires FlagAll(m.keys[i].entry, repeats) == Some(next)
    ensures FlagAll(Holds(m), Under(m.keys[i].key, repeats)) ==
            Some(Holds(m.(keys := m.keys[i := Slot(m.keys[i].key, next)])))
    decreases |repeats|
  {
    var Slot(key, entry) := m.keys[i];
    if repeats == [] {
      assert m.keys[i := Slot(key, next)] == m.keys;
    } else {
      var path := repeats[0].0;
      var flagged := Flag(entry, path).value;
      assert ([key] + path)[1..] == path;
      var m' := m.(keys := m.keys[i := Slot(key, flagged)]);
      assert Flag(Holds(m), [key] + path) == Some(Holds(m'));
      IndexIs(m'.keys, i);
      FlagAllUnder(m', i, repeats[1..], next);
      assert m'.keys[i := Slot(key, next)] == m.keys[i := Slot(key, next)];
    }
  }

  /** The maps that repeat, flagged in order among slots already `done`, repeat again. */
  lemma {:induction false} FlagAllAgain(done: seq<Slot>, keys: seq<Slot>, repeat: bool)
    requires Fresh(done, keys) && WholeSlots(keys)
    ensures FlagAll(Holds(Map(done + PlainOf(keys), repeat)), RepeatingOf(keys)) ==
            Some(Holds(Map(done + keys, repeat)))
    decreases keys, 0
  {
    if keys == [] {
      assert done + PlainOf(keys) == done == done + keys;
    } else {
      var Slot(key, entry) := keys[0];
      assert entry < keys[0];
      var done' := done + [keys[0]];
      FreshStep(done, keys, entry);
      FlagEntryAgain(entry);
      FlagSlotAgain(done, keys, repeat);
      FlagAllAgain(done', keys[1..], repeat);
      FlagAllAppend(Holds(Map(done + PlainOf(keys), repeat)), Under(key, Repeating(entry)), RepeatingOf(keys[1..]),
                    Holds(Map(done' + PlainOf(keys[1..]), repeat)));
      FirstApart(done, keys);
    }
  }

  lemma {:induction false} IndexBetween(a: seq<Slot>, slot: Slot, b: seq<Slot>)
    requires Index(a, slot.key) == |a|
    ensures Index(a + [slot] + b, slot.key) == |a|
  {
    if a != [] {
      assert (a + [slot] + b)[1..] == a[1..] + [slot] + b;
      IndexBetween(a[1..], slot, b);
    }
  }

  lemma {:induction false} FlagSlotAgain(done: seq<Slot>, keys: seq<Slot>, repeat: bool)
    requires keys != [] && Index(done, keys[0].key) == |done|
    requires FlagAll(Plain(keys[0].entry), Repeating(keys[0].entry)) == Some(keys[0].entry)
    ensures FlagAll(Holds(Map(done + PlainOf(keys), repeat)), Under(keys[0].key, Repeating(keys[0].entry))) ==
            Some(Holds(Map(done + [keys[0]] + PlainOf(keys[1..]), repeat)))
  {
    var plain, rest := Slot(keys[0].key, Plain(keys[0].entry)), PlainOf(keys[1..]);
    var m := Map(done + [plain] + rest, repeat);
    PlainJoin(done, keys);
    IndexBetween(done, plain, rest);
    UpdateBetween(done, plain, rest, keys[0]);
    FlagAllUnder(m, |done|, Repeating(keys[0].entry), keys[0].entry);
  }

  lemma {:induction false} FlagEntryAgain(entry: Entry)
    requires WholeEntry(entry)
    ensures FlagAll(Plain(entry), Repeating(entry)) == Some(entry)
    decreases entry, 1
  {
    if entry.Holds? {
      var m := entry.inner;
      FlagAllAgain([], m.keys, m.repeat);
      NothingBefore(m.keys);
      NothingBefore(PlainOf(m.keys));
      FlagSelf(m);
    }
  }

  lemma {:induction false} FlagSelf(m: Map)
    requires FlagAll(Holds(Map(PlainOf(m.keys), m.repeat)), RepeatingOf(m.keys)) == Some(Holds(m))
    ensures FlagAll(Plain(Holds(m)), Repeating(Holds(m))) == Some(Holds(m))
  {
    FlagFirst(Map(PlainOf(m.keys), false), Holds(m), RepeatingOf(m.keys), m.repeat);
    NothingBefore(RepeatingOf(m.keys));
  }

  /** A map flagged first, if it is to be, and then what is below it. */
  lemma {:induction false} FlagFirst(plain: Map, whole: Entry, rest: seq<(Path, Entry)>, repeat: bool)
    requires !plain.repeat && FlagAll(Holds(plain.(repeat := repeat)), rest) == Some(whole)
    ensures FlagAll(Holds(plain), (if repeat then [([], whole)] else []) + rest) == Some(whole)
  {
    if repeat {
      FlagHere(plain, ([], whole), rest);
    } else {
      NothingBefore(rest);
    }
  }

  lemma {:induction false} FlagHere(m: Map, first: (Path, Entry), rest: seq<(Path, Entry)>)
    requires first.0 == []
    ensures FlagAll(Holds(m), [first] + rest) == FlagAll(Holds(m.(repeat := true)), rest)
  {
    assert ([first] + rest)[1..] == rest;
  }
}
