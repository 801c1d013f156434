/** What a keymap describes itself as, run as a config: it makes the keymap again (src/keymap.rs). */
module Replay {
  import opened Keys
  import opened Trie
  import opened TrieView
  import opened TrieOrder
  import opened Modes
  import opened Keymap
  import opened KeymapSound
  import opened Describe
  import opened Sequences

  // ------------------------------------------------------------------ the replay

  /** A binding put in place of the one just put is as if put at once. */
  lemma {:induction false} RebindAfterPut(m: Map, keys: Path, rest: Path, was: Binding, binding: Binding)
    requires |rest| <= |keys| && Put(m, keys, rest, Run(was)).Ok?
    ensures Runs(Holds(Put(m, keys, rest, Run(was)).value), rest) == Some(was)
    ensures Put(m, keys, rest, Run(binding)).Ok?
    ensures Replace(Holds(Put(m, keys, rest, Run(was)).value), rest, Run(binding)) ==
            Holds(Put(m, keys, rest, Run(binding)).value)
    decreases |rest|
  {
    PutAt(m, keys, rest, Run(was), rest);
    if |rest| > 1 {
      PutShape(m, keys, rest, Run(was));
      RebindAfterPut(Inner(m, rest[0]), keys, rest[1..], was, binding);
    }
    PutAgain(m, keys, rest, was, binding);
    RebindPlaced(m, keys, rest, was, binding);
  }

  lemma {:induction false} RebindPlaced(m: Map, keys: Path, rest: Path, was: Binding, binding: Binding)
    requires |rest| <= |keys| && Put(m, keys, rest, Run(was)).Ok? && Put(m, keys, rest, Run(binding)).Ok?
    requires |rest| > 1 ==>
               var there := Inner(m, rest[0]);
               && Put(there, keys, rest[1..], Run(was)).Ok? && Put(there, keys, rest[1..], Run(binding)).Ok?
               && Replace(Holds(Put(there, keys, rest[1..], Run(was)).value), rest[1..], Run(binding)) ==
                  Holds(Put(there, keys, rest[1..], Run(binding)).value)
    ensures Replace(Holds(Put(m, keys, rest, Run(was)).value), rest, Run(binding)) ==
            Holds(Put(m, keys, rest, Run(binding)).value)
  {
    PutShape(m, keys, rest, Run(was));
    PutShape(m, keys, rest, Run(binding));
    var placed := if |rest| == 1 then Run(was) else Holds(Put(Inner(m, rest[0]), keys, rest[1..], Run(was)).value);
    ReplaceSlot(m, Put(m, keys, rest, Run(was)).value, rest, placed, Run(binding));
  }

  /** What can be put where another binding can. */
  lemma {:induction false} PutAgain(m: Map, keys: Path, rest: Path, was: Binding, binding: Binding)
    requires |rest| <= |keys| && Put(m, keys, rest, Run(was)).Ok?
    requires |rest| > 1 ==> Put(Inner(m, rest[0]), keys, rest[1..], Run(was)).Ok?
                            && Put(Inner(m, rest[0]), keys, rest[1..], Run(binding)).Ok?
    ensures Put(m, keys, rest, Run(binding)).Ok?
  {
  }

  /** A replacement in a slot put, or added. */
  lemma {:induction false} ReplaceSlot(m: Map, changed: Map, path: Path, placed: Entry, new': Entry)
    requires path != []
    requires var (i, slot) := (Index(m.keys, path[0]), Slot(path[0], placed));
             changed.keys == if i < |m.keys| then m.keys[i := slot] else m.keys + [slot]
    ensures var i := Index(m.keys, path[0]);
            && i < |changed.keys| && changed.keys[i] == Slot(path[0], placed)
            && Replace(Holds(changed), path, new') ==
               Holds(changed.(keys := changed.keys[i := Slot(path[0], Replace(placed, path[1..], new'))]))
  {
    var i := Index(m.keys, path[0]);
    assert changed.keys[i].key == path[0];
    IndexIs(changed.keys, i);
  }

  lemma {:induction false} CaptionBinds(s: State, keys: Path, was: Binding, text: string)
    requires s.made == Keyed(keys) && Runs(Holds(s.root), keys) == Some(was)
    ensures RunAll(s, [Caption(text)]) == Done(s.(root := Rebind(s.root, keys, was.(caption := text))))
  {
    OneStatement(s, Caption(text));
  }

  lemma {:induction false} GroupBinds(s: State, keys: Path, was: Binding, name: string)
    requires s.made == Keyed(keys) && Runs(Holds(s.root), keys) == Some(was)
    ensures RunAll(s, [Group(name)]) == Done(s.(root := Rebind(s.root, keys, was.(group := name))))
  {
    OneStatement(s, Group(name));
  }

  lemma {:induction false} OneStatement(s: State, statement: Statement)
    requires Configure(s, statement).Done?
    ensures RunAll(s, [statement]) == Configure(s, statement)
  {
    assert [statement][1..] == [];
  }

  /** The state once a binding is put. */
  function WithBinding(s: State, keys: Path, binding: Binding): State
    requires Put(s.root, keys, keys, Run(binding)).Ok?
  {
    s.(root := Put(s.root, keys, keys, Run(binding)).value, made := Keyed(keys))
  }

  lemma {:induction false} CaptionLinesBind(s: State, keys: Path, binding: Binding)
    requires Put(s.root, keys, keys, Run(binding)).Ok? && Put(s.root, keys, keys, Run(NewBinding(binding.code))).Ok?
    requires Put(s.root, keys, keys, Run(NewBinding(binding.code).(caption := binding.caption))).Ok?
    ensures RunAll(WithBinding(s, keys, NewBinding(binding.code)), CaptionLines(binding)) ==
            Done(WithBinding(s, keys, NewBinding(binding.code).(caption := binding.caption)))
  {
    var bare := NewBinding(binding.code);
    RebindAfterPut(s.root, keys, keys, bare, bare.(caption := binding.caption));
    if binding.caption != binding.code.source {
      CaptionBinds(WithBinding(s, keys, bare), keys, bare, binding.caption);
    }
  }

  lemma {:induction false} GroupLinesBind(s: State, keys: Path, binding: Binding)
    requires Put(s.root, keys, keys, Run(binding)).Ok?
    requires Put(s.root, keys, keys, Run(NewBinding(binding.code).(caption := binding.caption))).Ok?
    ensures RunAll(WithBinding(s, keys, NewBinding(binding.code).(caption := binding.caption)), GroupLines(binding)) ==
            Done(WithBinding(s, keys, binding))
  {
    var captioned := NewBinding(binding.code).(caption := binding.caption);
    RebindAfterPut(s.root, keys, keys, captioned, binding);
    if binding.group != OTHER_GROUP {
      GroupBinds(WithBinding(s, keys, captioned), keys, captioned, binding.group);
    }
  }

  /** One binding's statements put it whole, its caption and group with it. */
  lemma {:induction false} BindingLinesBind(s: State, keys: Path, binding: Binding)
    requires keys != [] && !HasEscape(keys[1..]) && |keys| <= DEEPEST
    requires Put(s.root, keys, keys, Run(binding)).Ok?
    ensures RunAll(s, BindingLines(keys, binding)) == Done(WithBinding(s, keys, binding))
  {
    var bare := NewBinding(binding.code);
    RebindAfterPut(s.root, keys, keys, binding, bare);
    RebindAfterPut(s.root, keys, keys, binding, bare.(caption := binding.caption));
    OneStatement(s, BindKey(keys, binding.code));
    CaptionLinesBind(s, keys, binding);
    GroupLinesBind(s, keys, binding);
    RunAllAppend(s, [BindKey(keys, binding.code)], CaptionLines(binding));
    RunAllAppend(s, [BindKey(keys, binding.code)] + CaptionLines(binding), GroupLines(binding));
  }

  lemma {:induction false} BindingsLinesBind(s: State, bound: seq<(Path, Binding)>) returns (made: Made)
    requires forall i | 0 <= i < |bound| :: bound[i].0 != [] && !HasEscape(bound[i].0[1..]) && |bound[i].0| <= DEEPEST
    requires PutAll(s.root, bound).Ok?
    ensures RunAll(s, BindingsLines(bound)) == Done(s.(root := PutAll(s.root, bound).value, made := made))
    decreases |bound|
  {
    made := s.made;
    if bound != [] {
      var (keys, binding) := bound[0];
      BindingLinesBind(s, keys, binding);
      var next := RunAll(s, BindingLines(keys, binding)).state;
      made := BindingsLinesBind(next, bound[1..]);
      RunAllAppend(s, BindingLines(keys, binding), BindingsLines(bound[1..]));
    }
  }

  lemma {:induction false} RepeatLinesFlag(s: State, repeats: seq<(Path, Entry)>)
    requires forall i | 0 <= i < |repeats| :: repeats[i].0 != []
    requires FlagAll(Holds(s.root), repeats).Some? && FlagAll(Holds(s.root), repeats).value.Holds?
    ensures RunAll(s, RepeatLines(repeats)) == Done(s.(root := FlagAll(Holds(s.root), repeats).value.inner))
    decreases |repeats|
  {
    if repeats != [] {
      var keys := repeats[0].0;
      assert Flag(Holds(s.root), keys).value.Holds?;
      var next := s.(root := Flag(Holds(s.root), keys).value.inner);
      assert Configure(s, Statement.Repeat(keys)) == Done(next);
      RepeatLinesFlag(next, repeats[1..]);
    }
  }

  lemma {:induction false} SoundTableStep<A>(done: Table<A>, table: Table<A>)
    requires table != [] && SoundTable(done + table)
    ensures KeyIndex(done, table[0].key) == |done| && table[0].key.key != Escape
  {
    var all := done + table;
    assert all[|done|] == table[0];
    assert all[..|done|] == done;
  }

  /** A key's line binds it bare, after the others; the hint's line then names it. */
  lemma {:induction false} ListKeyBinds(s: State, t: TableKey<ListAct>)
    requires KeyIndex(s.modes.list, t.key) == |s.modes.list| && t.key.key != Escape && ListActConfigured(t.act)
    ensures RunAll(s, [ListKeyLine(t)] + HintLines(t.hint)) ==
            Done(s.(modes := s.modes.(list := s.modes.list + [t]), made := InModal(ListModal, t.key)))
  {
    var bare := s.modes.list + [t.(hint := None)];
    var s1 := s.(modes := s.modes.(list := bare), made := InModal(ListModal, t.key));
    ListLineBinds(s, t);
    ListHintBinds(s1, s.modes.list, t);
    RunAllAppend(s, [ListKeyLine(t)], HintLines(t.hint));
  }

  lemma {:induction false} ListLineBinds(s: State, t: TableKey<ListAct>)
    requires KeyIndex(s.modes.list, t.key) == |s.modes.list| && t.key.key != Escape && ListActConfigured(t.act)
    ensures RunAll(s, [ListKeyLine(t)]) ==
            Done(s.(modes := s.modes.(list := s.modes.list + [t.(hint := None)]), made := InModal(ListModal, t.key)))
  {
    if !t.act.Action? {
      ListNamesRoundTrip(t.act);
    }
  }

  lemma {:induction false} ListHintBinds(s: State, done: Table<ListAct>, t: TableKey<ListAct>)
    requires s.modes.list == done + [t.(hint := None)] && s.made == InModal(ListModal, t.key)
    requires KeyIndex(done, t.key) == |done|
    ensures RunAll(s, HintLines(t.hint)) == Done(s.(modes := s.modes.(list := done + [t])))
  {
    KeyIndexAppended(done, t.(hint := None));
    assert s.modes.list[|done| := t] == done + [t];
  }

  lemma {:induction false} LineKeyBinds(s: State, t: TableKey<LineAct>)
    requires KeyIndex(s.modes.line, t.key) == |s.modes.line| && t.key.key != Escape && LineActConfigured(t.act)
    ensures RunAll(s, [LineKeyLine(t)] + HintLines(t.hint)) ==
            Done(s.(modes := s.modes.(line := s.modes.line + [t]), made := InModal(LineModal, t.key)))
  {
    var bare := s.modes.line + [t.(hint := None)];
    var s1 := s.(modes := s.modes.(line := bare), made := InModal(LineModal, t.key));
    LineNamesRoundTrip(t.act);
    assert RunAll(s, [LineKeyLine(t)]) == Done(s1);
    LineHintBinds(s1, s.modes.line, t);
    RunAllAppend(s, [LineKeyLine(t)], HintLines(t.hint));
  }

  lemma {:induction false} LineHintBinds(s: State, done: Table<LineAct>, t: TableKey<LineAct>)
    requires s.modes.line == done + [t.(hint := None)] && s.made == InModal(LineModal, t.key)
    requires KeyIndex(done, t.key) == |done|
    ensures RunAll(s, HintLines(t.hint)) == Done(s.(modes := s.modes.(line := done + [t])))
  {
    KeyIndexAppended(done, t.(hint := None));
    assert s.modes.line[|done| := t] == done + [t];
  }

  lemma {:induction false} KeyIndexAppended<A>(table: Table<A>, t: TableKey<A>)
    requires KeyIndex(table, t.key) == |table|
    ensures KeyIndex(table + [t], t.key) == |table|
  {
    if table != [] {
      assert (table + [t])[1..] == table[1..] + [t];
      KeyIndexAppended(table[1..], t);
    }
  }

  lemma {:induction false} ListLinesBind(s: State, table: Table<ListAct>) returns (made: Made)
    requires SoundTable(s.modes.list + table)
    requires forall i | 0 <= i < |table| :: ListActConfigured(table[i].act)
    ensures RunAll(s, ListLines(table)) == Done(s.(modes := s.modes.(list := s.modes.list + table), made := made))
    decreases |table|
  {
    made := s.made;
    if table == [] {
      assert s.modes.list + table == s.modes.list;
    } else {
      var lines := [ListKeyLine(table[0])] + HintLines(table[0].hint);
      SoundTableStep(s.modes.list, table);
      FirstApart(s.modes.list, table);
      ListKeyBinds(s, table[0]);
      made := ListLinesBind(RunAll(s, lines).state, table[1..]);
      RunAllAppend(s, lines, ListLines(table[1..]));
    }
  }

  lemma {:induction false} LineLinesBind(s: State, table: Table<LineAct>) returns (made: Made)
    requires SoundTable(s.modes.line + table)
    requires forall i | 0 <= i < |table| :: LineActConfigured(table[i].act)
    ensures RunAll(s, LineLines(table)) == Done(s.(modes := s.modes.(line := s.modes.line + table), made := made))
    decreases |table|
  {
    made := s.made;
    if table == [] {
      assert s.modes.line + table == s.modes.line;
    } else {
      var lines := [LineKeyLine(table[0])] + HintLines(table[0].hint);
      SoundTableStep(s.modes.line, table);
      FirstApart(s.modes.line, table);
      LineKeyBinds(s, table[0]);
      made := LineLinesBind(RunAll(s, lines).state, table[1..]);
      RunAllAppend(s, lines, LineLines(table[1..]));
    }
  }

  /** Keys that run something in a sound map are some, no deeper than the deepest, Escape at most first. */
  lemma {:induction false} BoundKeysAreSound(root: Map, i: nat)
    requires SoundRoot(root) && i < |BoundOf(root.keys)|
    ensures var keys := BoundOf(root.keys)[i].0; keys != [] && !HasEscape(keys[1..]) && |keys| <= DEEPEST
  {
    BoundPaths(root.keys, i, DEEPEST);
  }

  lemma {:induction false} BoundPaths(slots: seq<Slot>, i: nat, most: int)
    requires i < |BoundOf(slots)|
    requires forall j | 0 <= j < |slots| :: Leavable(slots[j].entry) && Depth(slots[j].entry) <= most
    ensures var keys := BoundOf(slots)[i].0; keys != [] && NoEscape(keys[1..]) && |keys| <= most
    decreases slots, 0
  {
    var Slot(key, entry) := slots[0];
    assert entry < slots[0];
    if i < |Bound(entry)| {
      BoundEntryPaths(entry, i);
      assert BoundOf(slots)[i].0 == [key] + Bound(entry)[i].0;
      assert ([key] + Bound(entry)[i].0)[1..] == Bound(entry)[i].0;
    } else {
      BoundPaths(slots[1..], i - |Bound(entry)|, most);
    }
  }

  lemma {:induction false} BoundEntryPaths(entry: Entry, i: nat)
    requires i < |Bound(entry)| && Leavable(entry)
    ensures NoEscape(Bound(entry)[i].0) && |Bound(entry)[i].0| < Depth(entry)
    decreases entry, 1
  {
    if entry.Holds? {
      DeepestIs(entry.inner.keys, DeepestOf(entry.inner.keys));
      BoundPaths(entry.inner.keys, i, DeepestOf(entry.inner.keys));
      BoundFirst(entry.inner.keys, i);
    }
  }

  lemma {:induction false} BoundFirst(slots: seq<Slot>, i: nat)
    requires i < |BoundOf(slots)|
    ensures BoundOf(slots)[i].0 != [] && exists j | 0 <= j < |slots| :: BoundOf(slots)[i].0[0] == slots[j].key
  {
    if i >= |Bound(slots[0].entry)| {
      BoundFirst(slots[1..], i - |Bound(slots[0].entry)|);
      var j :| 0 <= j < |slots[1..]| && BoundOf(slots)[i].0[0] == slots[1..][j].key;
      assert slots[j + 1] == slots[1..][j];
    } else {
      assert BoundOf(slots)[i].0[0] == slots[0].key;
    }
  }

  lemma {:induction false} RepeatingPaths(slots: seq<Slot>)
    ensures forall i | 0 <= i < |RepeatingOf(slots)| :: RepeatingOf(slots)[i].0 != []
  {
    if slots != [] {
      RepeatingPaths(slots[1..]);
    }
  }

  /**
   * What a keymap describes itself as makes it again, from any state of a config: the same keys in
   * the same order in every map, the same bindings, captions and groups, the same maps repeating,
   * the same keys and hints of the screens.
   */
  lemma {:induction false} DescribeReplays(s: State, from: State)
    requires SoundState(s)
    ensures RunAll(from, Described(s.root, s.modes)).Done?
    ensures RunAll(from, Described(s.root, s.modes)).state.root == s.root
    ensures RunAll(from, Described(s.root, s.modes)).state.modes == s.modes
  {
    var s0 := from.(root := EMPTY_MAP, modes := NO_MODES);
    var s2 := RootReplay(s0, s.root);
    var s4 := ModesReplay(s2, s.modes);
    RunAllAppend(s0, RootLines(s.root), ModesLines(s.modes));
    UnbindAllFirst(from, RootLines(s.root), ModesLines(s.modes));
  }

  lemma {:induction false} UnbindAllFirst(s: State, a: seq<Statement>, b: seq<Statement>)
    ensures RunAll(s, [UnbindAll] + a + b) == RunAll(s.(root := EMPTY_MAP, modes := NO_MODES), a + b)
  {
    assert ([UnbindAll] + a + b)[1..] == a + b;
  }

  lemma {:induction false} RootReplay(s: State, root: Map) returns (next: State)
    requires SoundRoot(root) && s.root == EMPTY_MAP
    ensures RunAll(s, RootLines(root)) == Done(next) && next.root == root && next.modes == s.modes
  {
    var made := BindingsReplay(s, root);
    var s1 := s.(root := Map(PlainOf(root.keys), false), made := made);
    RepeatsReplay(s1, root);
    RunAllAppend(s, BindingsLines(RunsIn(AllOf(root.keys))), RepeatLines(RepeatsIn(AllOf(root.keys))));
    next := s1.(root := root);
  }

  lemma {:induction false} ModesReplay(s: State, modes: Modes) returns (next: State)
    requires Sound(modes) && s.modes == NO_MODES
    ensures RunAll(s, ModesLines(modes)) == Done(next)
    ensures next.root == s.root && next.modes == modes
  {
    NothingBefore(modes.list);
    NothingBefore(modes.line);
    var made1 := ListLinesBind(s, modes.list);
    var s1 := s.(modes := Modes(modes.list, []), made := made1);
    var made2 := LineLinesBind(s1, modes.line);
    RunAllAppend(s, ListLines(modes.list), LineLines(modes.line));
    next := s1.(modes := modes, made := made2);
  }

  lemma {:induction false} BindingsReplay(s: State, root: Map) returns (made: Made)
    requires SoundRoot(root) && s.root == EMPTY_MAP
    ensures RunAll(s, BindingsLines(RunsIn(AllOf(root.keys)))) ==
            Done(s.(root := Map(PlainOf(root.keys), false), made := made))
  {
    AllOfIs(root.keys);
    NothingBefore(PlainOf(root.keys));
    PutAllAgain([], root.keys, false);
    forall i | 0 <= i < |BoundOf(root.keys)|
      ensures var path := BoundOf(root.keys)[i].0; path != [] && !HasEscape(path[1..]) && |path| <= DEEPEST
    {
      BoundKeysAreSound(root, i);
    }
    made := BindingsLinesBind(s, BoundOf(root.keys));
  }

  lemma {:induction false} RepeatsReplay(s: State, root: Map)
    requires SoundRoot(root) && s.root == Map(PlainOf(root.keys), false)
    ensures RunAll(s, RepeatLines(RepeatsIn(AllOf(root.keys)))) == Done(s.(root := root))
  {
    AllOfIs(root.keys);
    NothingBefore(PlainOf(root.keys));
    NothingBefore(root.keys);
    FlagAllAgain([], root.keys, false);
    RepeatingPaths(root.keys);
    RepeatLinesFlag(s, RepeatingOf(root.keys));
  }

  /** So for every keymap a config can make, whatever statements made it. */
  lemma {:induction false} EveryKeymapReplays(statements: seq<Statement>, from: State)
    ensures var s := Ran(START, statements);
            var again := Ran(from, Described(s.root, s.modes));
            again.root == s.root && again.modes == s.modes
  {
    EveryKeymapIsSound(START, statements);
    var s := Ran(START, statements);
    DescribeReplays(s, from);
    RunAllIsRan(from, Described(s.root, s.modes));
  }
}
