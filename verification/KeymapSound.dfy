/** What every keymap a config makes keeps, whatever its statements: src/keymap.rs. */
module KeymapSound {
  import opened Keys
  import opened Trie
  import opened TrieView
  import opened TrieOrder
  import opened Modes
  import opened Keymap

  lemma {:induction false} PutKeysSound(root: Map, keys: Path, entry: Entry)
    requires SoundRoot(root) && WholeEntry(entry) && Leavable(entry) && PutKeys(root, keys, entry).Ok?
    ensures SoundRoot(PutKeys(root, keys, entry).value)
  {
    PutWhole(root, keys, keys, entry);
    PutLeavable(root, keys, keys, entry);
    PutWithin(root, keys, keys, entry, DEEPEST);
  }

  lemma {:induction false} TakeSound(root: Map, keys: Path)
    requires SoundRoot(root) && Take(root, keys).Some?
    ensures SoundRoot(Take(root, keys).value.1)
    ensures WholeEntry(Take(root, keys).value.0) && Leavable(Take(root, keys).value.0)
  {
    TakeWhole(root, keys);
    TakeLeavable(root, keys);
    TakeWithin(root, keys, DEEPEST);
  }

  /** An entry of another of the same shape: its keys, at every level, and how deep it reaches. */
  ghost predicate Alike(a: Entry, b: Entry) {
    && a.Holds? == b.Holds?
    && Depth(a) == Depth(b)
    && (WholeEntry(a) ==> WholeEntry(b))
    && (Leavable(a) ==> Leavable(b))
  }

  /** A slot's entry for another of its shape. */
  lemma {:induction false} SlotAlike(m: Map, i: nat, placed: Entry)
    requires i < |m.keys| && Alike(m.keys[i].entry, placed)
    ensures DeepestOf(m.keys[i := Slot(m.keys[i].key, placed)]) == DeepestOf(m.keys)
    ensures forall most | Within(m, most) :: Within(m.(keys := m.keys[i := Slot(m.keys[i].key, placed)]), most)
    ensures LeavableRoot(m) ==> LeavableRoot(m.(keys := m.keys[i := Slot(m.keys[i].key, placed)]))
  {
    var keys := m.keys[i := Slot(m.keys[i].key, placed)];
    assert forall j | 0 <= j < |keys| :: keys[j].key == m.keys[j].key && Depth(keys[j].entry) == Depth(m.keys[j].entry);
    DeepestIs(m.keys, DeepestOf(keys));
    DeepestIs(keys, DeepestOf(m.keys));
    DeepestIs(m.keys, DeepestOf(m.keys));
    DeepestIs(keys, DeepestOf(keys));
  }

  lemma {:induction false} SlotAlikeWhole(m: Map, i: nat, placed: Entry)
    requires i < |m.keys| && Alike(m.keys[i].entry, placed)
    ensures Whole(m) ==> Whole(m.(keys := m.keys[i := Slot(m.keys[i].key, placed)]))
    ensures Leavable(Holds(m)) ==> Leavable(Holds(m.(keys := m.keys[i := Slot(m.keys[i].key, placed)])))
  {
    if Whole(m) {
      assert WholeEntry(m.keys[i].entry);
      WholeWith(m, i, placed);
    }
  }

  /** A binding for a binding, or a map's flag set, is no change of shape. */
  lemma {:induction false} ReplaceAlike(entry: Entry, path: Path, new': Entry)
    requires At(entry, path).Some? && Alike(At(entry, path).value, new')
    ensures Alike(entry, Replace(entry, path, new'))
    ensures path != [] ==> Replace(entry, path, new').inner.repeat == entry.inner.repeat
    ensures path != [] && Whole(entry.inner) ==> Whole(Replace(entry, path, new').inner)
    ensures path != [] && LeavableRoot(entry.inner) ==> LeavableRoot(Replace(entry, path, new').inner)
    ensures path != [] ==> forall most | Within(entry.inner, most) :: Within(Replace(entry, path, new').inner, most)
    decreases |path|
  {
    if path != [] {
      var i := Index(entry.inner.keys, path[0]);
      var below := entry.inner.keys[i].entry;
      ReplaceAlike(below, path[1..], new');
      SlotAlike(entry.inner, i, Replace(below, path[1..], new'));
      SlotAlikeWhole(entry.inner, i, Replace(below, path[1..], new'));
    }
  }

  lemma {:induction false} TableBindSound<A>(table: Table<A>, key: KeyPress, act: A)
    requires SoundTable(table) && key.key != Escape
    ensures SoundTable(TableBind(table, key, act))
    ensures forall t | t in TableBind(table, key, act) :: t in table || t.act == act
  {
  }

  lemma {:induction false} ConfigureListSound(s: State, statement: Statement)
    requires Sound(s.modes) && Configure(s, statement).Done?
    ensures var list := Configure(s, statement).state.modes.list;
            SoundTable(list) && forall i | 0 <= i < |list| :: ListActConfigured(list[i].act)
  {
    var list := Configure(s, statement).state.modes.list;
    match statement {
    case BindIn(ListModal, key, name) =>
      NamedIsConfigured(name);
      TableBindSound(s.modes.list, key, Named(LIST_NAMES, name).value);
    case BindAction(key, code) => TableBindSound(s.modes.list, key, Action(Callback(code, [])));
    case UnbindIn(ListModal, key) => UnbindKeepsSound(s.modes.list, key);
    case _ =>
      assert |list| == 0 || |list| == |s.modes.list|;
      return;
    }
    assert forall t | t in s.modes.list :: ListActConfigured(t.act);
    assert forall i | 0 <= i < |list| :: list[i] in list;
  }

  lemma {:induction false} ConfigureLineSound(s: State, statement: Statement)
    requires Sound(s.modes) && Configure(s, statement).Done?
    ensures var line := Configure(s, statement).state.modes.line;
            SoundTable(line) && forall i | 0 <= i < |line| :: LineActConfigured(line[i].act)
  {
    var line := Configure(s, statement).state.modes.line;
    match statement {
    case BindIn(LineModal, key, name) =>
      NamedIsConfigured(name);
      TableBindSound(s.modes.line, key, Named(LINE_NAMES, name).value);
    case UnbindIn(LineModal, key) => UnbindKeepsSound(s.modes.line, key);
    case _ =>
      assert |line| == 0 || |line| == |s.modes.line|;
      return;
    }
    assert forall t | t in s.modes.line :: LineActConfigured(t.act);
    assert forall i | 0 <= i < |line| :: line[i] in line;
  }

  lemma {:induction false} ConfigureKeepsModes(s: State, statement: Statement)
    requires Sound(s.modes) && Configure(s, statement).Done?
    ensures Sound(Configure(s, statement).state.modes)
  {
    ConfigureListSound(s, statement);
    ConfigureLineSound(s, statement);
  }

  lemma {:induction false} ConfigureKeepsRoot(s: State, statement: Statement)
    requires SoundRoot(s.root) && Configure(s, statement).Done?
    ensures SoundRoot(Configure(s, statement).state.root)
  {
    match statement
    case BindKey(keys, code) => PutKeysSound(s.root, keys, Run(NewBinding(code)));
    case Unbinds(keys) => TakeSound(s.root, keys);
    case Moving(from, to) =>
      TakeSound(s.root, from);
      PutKeysSound(Take(s.root, from).value.1, to, Take(s.root, from).value.0);
    case Repeat(keys) =>
      var inner := At(Holds(s.root), keys).value.inner;
      assert Whole(inner) ==> Whole(inner.(repeat := true));
      ReplaceAlike(Holds(s.root), keys, Holds(inner.(repeat := true)));
    case Caption(text) =>
      if s.made.Keyed? {
        RebindSound(s.root, s.made.keys, Runs(Holds(s.root), s.made.keys).value.(caption := text));
      }
    case Group(name) =>
      RebindSound(s.root, s.made.keys, Runs(Holds(s.root), s.made.keys).value.(group := name));
    case _ =>
  }

  lemma {:induction false} RebindSound(root: Map, keys: Path, binding: Binding)
    requires SoundRoot(root) && Runs(Holds(root), keys).Some?
    ensures SoundRoot(Rebind(root, keys, binding))
  {
    ReplaceAlike(Holds(root), keys, Run(binding));
  }

  /** A statement that is not refused keeps a keymap sound. */
  lemma {:induction false} ConfigureSound(s: State, statement: Statement)
    requires SoundState(s) && Configure(s, statement).Done?
    ensures SoundState(Configure(s, statement).state)
  {
    ConfigureKeepsModes(s, statement);
    ConfigureKeepsRoot(s, statement);
  }

  /** Every keymap a config makes, whatever its statements, is sound. */
  lemma {:induction false} EveryKeymapIsSound(s: State, statements: seq<Statement>)
    requires SoundState(s)
    ensures SoundState(Ran(s, statements))
    decreases |statements|
  {
    if statements != [] {
      match Configure(s, statements[0])
      case Done(next) =>
        ConfigureSound(s, statements[0]);
        EveryKeymapIsSound(next, statements[1..]);
      case Refused => EveryKeymapIsSound(s, statements[1..]);
    }
  }

  // ------------------------------------------------------------------ maps of one key

  lemma {:induction false} OneDeep(slot: Slot)
    ensures DeepestOf([slot]) == Depth(slot.entry)
  {
    assert [slot][1..] == [];
  }

  lemma {:induction false} OneWhole(key: KeyPress, entry: Entry)
    requires WholeEntry(entry) && Leavable(entry)
    ensures forall repeat :: Whole(Map([Slot(key, entry)], repeat))
    ensures forall repeat :: WholeEntry(Holds(Map([Slot(key, entry)], repeat)))
    ensures !key.Leaves() ==> forall repeat :: Leavable(Holds(Map([Slot(key, entry)], repeat)))
  {
  }
}
