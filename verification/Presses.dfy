/**
 * What a press comes to, by what it and the path open are bound to: the press of `HeldKeys` against a
 * table of meanings, each looked up from the root (src/keymap.rs).
 */
module Presses {
  import opened Keys
  import opened Trie
  import opened TrieView
  import opened Modes
  import opened Keymap
  import opened KeymapLookups
  import opened Describe
  import opened Columns
  import opened Acts
  import opened HeldKeys

  // ------------------------------------------------------------------- tables and rows

  /** How many rows a move is, of `count`: to an end, all of them. */
  function Rows(move: Move, count: nat): int {
    match move
    case Up => -1
    case Down => 1
    case PageUp => -10
    case PageDown => 10
    case First => 0 - count
    case Last => count
  }

  /** A row of `count`, the nearest there is to `at`. */
  function Nearest(at: int, count: nat): nat {
    if at < 0 || count == 0 then 0 else if at >= count then count - 1 else at
  }

  /** A move goes as many rows as it says, and no further than the ends. */
  lemma {:induction false} MovedIs(move: Move, at: nat, count: nat)
    requires at < count
    ensures Moved(move, at, count - 1) == Nearest(at + Rows(move, count), count)
  {
  }

  /** A table's own keys come first, then a named key's without what is held with it; Escape is always its own. */
  lemma {:induction false} TableGetFinds<A>(table: Table<A>, press: KeyPress, escape: A)
    ensures press.key == Escape ==> TableGet(table, press, escape) == Some(escape)
    ensures press.key != Escape && Found(table, press).Some? ==>
              TableGet(table, press, escape) == Some(Found(table, press).value.act)
    ensures press.key != Escape && Found(table, press).None? ==>
              var plain := Found(table, KeyPress(press.key, NO_MODIFIERS));
              TableGet(table, press, escape) == if press.key.Char? || plain.None? then None else Some(plain.value.act)
  {
  }

  // -------------------------------------------------------------------------- meanings

  /** What a press means to a client that types. */
  datatype Meaning =
    | Reaches(keys: Path, entry: Entry)
    | Through
    | Leaving
    | Reopens
    | MovesTo(row: nat)
    | Unbound(keys: Path)
    | UnboundInMode

  /** The row a press moves a column's selection to, by a list's own key without modifiers that is no letter. */
  function RowMoved(modes: Modes, press: KeyPress, selected: nat, count: nat): Option<nat> {
    var found := Found(modes.list, press);
    if found.Some? && found.value.act.Moves? && press.mods == NO_MODIFIERS && !press.key.Char?
    then Some(Nearest(selected + Rows(found.value.act.move, count), count))
    else None
  }

  /** What is bound at some keys, or that nothing is. */
  function Reached(root: Map, keys: Path): Meaning {
    match At(Holds(root), keys) case Some(entry) => Reaches(keys, entry) case None => Unbound(keys)
  }

  function MeaningOf(root: Map, modes: Modes, held: Held, press: KeyPress): Meaning
    requires HeldIs(root, held) && Whole(root)
  {
    var keys := From(held) + [press];
    if At(Holds(root), keys).Some? then Reached(root, keys)
    else match held
      case InColumn(path, selected) =>
        ColumnShowsEveryKey(root, path, selected);
        var row := RowMoved(modes, press, selected, |MapAt(root, path).value.keys|);
        if press.Leaves() then Leaving
        else if path[0] == press then Through
        else if row.Some? then MovesTo(row.value)
        else if press == ENTER then Reached(root, path + [ColumnAt(root, path, selected).value.entries[selected].key])
        else Unbound(keys)
      case Repeating(path) =>
        if path[0] == press then Reopens
        else if press.Leaves() || press.PlainKey() == Some(Enter) then Leaving
        else UnboundInMode
      case _ => Through
  }

  /** Whether the map some keys are in repeats. */
  predicate InRepeat(root: Map, keys: Path) {
    |keys| > 1 && MapAt(root, keys[..|keys| - 1]).Some? && MapAt(root, keys[..|keys| - 1]).value.repeat
  }

  /** What is held after a press. */
  function HeldNext(root: Map, held: Held, press: KeyPress, meaning: Meaning): Held {
    match meaning
    case Reaches(keys, Run(_)) => if InRepeat(root, keys) then Repeating(keys[..|keys| - 1]) else Normal
    case Reaches(keys, Holds(_)) => InColumn(keys, 0)
    case Reopens => InColumn([press], 0)
    case MovesTo(row) => InColumn(held.Typed(), row)
    case Unbound(_) => InColumn(held.Typed(), 0)
    case _ => Normal
  }

  /** The drawing of a column or of a mode's bar. */
  function PanelOfHeld(root: Map, held: Held): Option<Panel> {
    match held
    case InColumn(path, selected) => (
      match ColumnAt(root, path, selected) case Some(column) => Some(ColumnPanel(column)) case None => None)
    case Repeating(path) => (match BarAt(root, path) case Some(bar) => Some(RepeatPanel(bar)) case None => None)
    case _ => None
  }

  /** What a press draws: what is held after it, drawn anew but where a selection moved; or a drawing hidden. */
  function Draws(root: Map, held: Held, next: Held, meaning: Meaning): seq<Effect> {
    if meaning.Unbound? || (held.Repeating? && next == held) then []
    else match PanelOfHeld(root, next)
      case Some(panel) => if meaning.MovesTo? then [Screens(Show(panel))] else [Opens(panel)]
      case None => if held.InColumn? || held.Repeating? then [HIDE] else []
  }

  /** What a press runs, sends or says, once drawn. */
  function Does(stroke: Keystroke, meaning: Meaning): seq<Effect> {
    match meaning
    case Reaches(_, Run(binding)) => [RunJob(CodeJob(binding.code, None))]
    case Through => [Send(KeyAct(stroke))]
    case Unbound(keys) => [Send(Notice(NotBoundSaid(keys), true))]
    case UnboundInMode => [Send(Notice(NotInModeSaid(stroke.press), false))]
    case _ => []
  }

  lemma {:induction false} InTurn(draws: seq<Effect>, does: seq<Effect>)
    ensures draws + [] == draws && [] + does == does
    ensures |draws| == 1 && |does| == 1 ==> draws + does == [draws[0], does[0]]
  {
  }

  /** The press of a client that types is what it means: what is held after it, and all it leads to. */
  lemma {:induction false} PressIs(held: Held, root: Map, modes: Modes, stroke: Keystroke)
    requires SoundRoot(root) && HeldIs(root, held)
    ensures var meaning := MeaningOf(root, modes, held, stroke.press);
            var next := HeldNext(root, held, stroke.press, meaning);
            Press(held, root, modes, stroke, false) == (next, Draws(root, held, next, meaning) + Does(stroke, meaning))
  {
    match held
    case InColumn(path, selected) => InColumnIs(root, modes, path, selected, stroke);
    case Repeating(path) => RepeatingIs(root, modes, path, stroke);
    case _ => RootIs(root, modes, held, stroke);
  }

  lemma {:induction false} RootIs(root: Map, modes: Modes, held: Held, stroke: Keystroke)
    requires SoundRoot(root) && HeldIs(root, held) && (held.Normal? || held.Prefixed?)
    ensures var meaning := MeaningOf(root, modes, held, stroke.press);
            var next := HeldNext(root, held, stroke.press, meaning);
            Press(held, root, modes, stroke, false) == (next, Draws(root, held, next, meaning) + Does(stroke, meaning))
  {
    var press := stroke.press;
    var meaning := MeaningOf(root, modes, held, press);
    InTurn(Draws(root, held, HeldNext(root, held, press, meaning), meaning), Does(stroke, meaning));
    assert [] + [press] == [press];
    RootKey(root, press);
    if MapAt(root, [press]).Some? {
      ColumnShowsEveryKey(root, [press], 0);
    }
  }

  /** A press followed in the map at `path`: what it reaches, or that it is unbound there. */
  lemma {:induction false} FollowIs(root: Map, path: Path, selected: nat, press: KeyPress, stroke: Keystroke)
    requires SoundRoot(root) && HeldIs(root, InColumn(path, selected))
    ensures var meaning := Reached(root, path + [press]);
            var next := HeldNext(root, InColumn(path, selected), stroke.press, meaning);
            Follow(root, path, press) ==
            (next, Draws(root, InColumn(path, selected), next, meaning) + Does(stroke, meaning))
  {
    var (held, meaning) := (InColumn(path, selected), Reached(root, path + [press]));
    InTurn(Draws(root, held, HeldNext(root, held, stroke.press, meaning), meaning), Does(stroke, meaning));
    MapBelow(root, path, press);
    BarIs(root, path);
    assert (path + [press])[..|path + [press]| - 1] == path;
    var m := MapAt(root, path).value;
    if Get(m, press).Some? && Get(m, press).value.Run? {
      RunningRun(m.keys);
    } else if Get(m, press).Some? {
      ColumnShowsEveryKey(root, path + [press], 0);
    }
  }

  lemma {:induction false} InColumnIs(root: Map, modes: Modes, path: Path, selected: nat, stroke: Keystroke)
    requires SoundRoot(root) && HeldIs(root, InColumn(path, selected))
    ensures var held := InColumn(path, selected);
            var meaning := MeaningOf(root, modes, held, stroke.press);
            var next := HeldNext(root, held, stroke.press, meaning);
            Press(held, root, modes, stroke, false) == (next, Draws(root, held, next, meaning) + Does(stroke, meaning))
  {
    var press := stroke.press;
    var meaning := MeaningOf(root, modes, InColumn(path, selected), press);
    InTurn(Draws(root, InColumn(path, selected), HeldNext(root, InColumn(path, selected), press, meaning), meaning),
      Does(stroke, meaning));
    NoEscapeBelow(root, path, press);
    MapBelow(root, path, press);
    ColumnShowsEveryKey(root, path, selected);
    if BoundIn(root, path, press).Some? {
      FollowIs(root, path, selected, press, stroke);
    } else if !press.Leaves() && path[0] != press {
      InColumnElse(root, modes, path, selected, stroke);
    }
  }

  /** A press that the column's map does not bind: it moves the selection, enters it, or says it is unbound. */
  lemma {:induction false} InColumnElse(root: Map, modes: Modes, path: Path, selected: nat, stroke: Keystroke)
    requires SoundRoot(root) && HeldIs(root, InColumn(path, selected))
    requires At(Holds(root), path + [stroke.press]).None? && BoundIn(root, path, stroke.press).None?
    requires !stroke.press.Leaves() && path[0] != stroke.press
    ensures var held := InColumn(path, selected);
            var meaning := MeaningOf(root, modes, held, stroke.press);
            var next := HeldNext(root, held, stroke.press, meaning);
            PressInColumn(root, modes, path, selected, stroke) ==
            (next, Draws(root, held, next, meaning) + Does(stroke, meaning))
  {
    ColumnShowsEveryKey(root, path, selected);
    MovingIs(root, modes, path, selected, stroke);
    var row := RowMoved(modes, stroke.press, selected, |MapAt(root, path).value.keys|);
    if row.Some? {
      ColumnShowsEveryKey(root, path, row.value);
      InTurn(Draws(root, InColumn(path, selected), InColumn(path, row.value), MovesTo(row.value)), []);
    } else {
      InColumnFollows(root, modes, path, selected, stroke);
    }
  }

  lemma {:induction false} InColumnFollows(root: Map, modes: Modes, path: Path, selected: nat, stroke: Keystroke)
    requires SoundRoot(root) && HeldIs(root, InColumn(path, selected))
    requires At(Holds(root), path + [stroke.press]).None? && BoundIn(root, path, stroke.press).None?
    requires !stroke.press.Leaves() && path[0] != stroke.press && MoveBy(modes, stroke.press).None?
    requires RowMoved(modes, stroke.press, selected, |MapAt(root, path).value.keys|).None?
    ensures var held := InColumn(path, selected);
            var meaning := MeaningOf(root, modes, held, stroke.press);
            var next := HeldNext(root, held, stroke.press, meaning);
            PressInColumn(root, modes, path, selected, stroke) ==
            (next, Draws(root, held, next, meaning) + Does(stroke, meaning))
  {
    ColumnShowsEveryKey(root, path, selected);
    if stroke.press == ENTER {
      FollowIs(root, path, selected, ColumnAt(root, path, selected).value.entries[selected].key, stroke);
    } else {
      FollowIs(root, path, selected, stroke.press, stroke);
    }
  }

  lemma {:induction false} MovingIs(root: Map, modes: Modes, path: Path, selected: nat, stroke: Keystroke)
    requires SoundRoot(root) && HeldIs(root, InColumn(path, selected)) && !stroke.press.Leaves()
    ensures var row := RowMoved(modes, stroke.press, selected, |MapAt(root, path).value.keys|);
            var move := MoveBy(modes, stroke.press);
            && (row.Some? <==> move.Some?)
            && (row.Some? ==> MoveInColumn(root, path, selected, move.value) ==
                              (InColumn(path, row.value),
                                [Screens(Show(ColumnPanel(ColumnAt(root, path, row.value).value)))]))
  {
    var press := stroke.press;
    TableGetFinds<ListAct>(modes.list, press, Cancel);
    ColumnShowsEveryKey(root, path, 0);
    var move := MoveBy(modes, press);
    if move.Some? {
      MovedIs(move.value, selected, |MapAt(root, path).value.keys|);
      ColumnShowsEveryKey(root, path, Moved(move.value, selected, LastOf(root, path)));
    }
  }

  /** A press that reaches something in a mode's map. */
  lemma {:induction false} RepeatingReaches(root: Map, path: Path, stroke: Keystroke)
    requires SoundRoot(root) && HeldIs(root, Repeating(path)) && BoundIn(root, path, stroke.press).Some?
    ensures var meaning := Reached(root, path + [stroke.press]);
            var next := HeldNext(root, Repeating(path), stroke.press, meaning);
            PressRepeating(root, path, stroke.press) ==
            (next, Draws(root, Repeating(path), next, meaning) + Does(stroke, meaning))
  {
    var (press, keys) := (stroke.press, path + [stroke.press]);
    var (held, meaning) := (Repeating(path), Reached(root, keys));
    NoEscapeBelow(root, path, press);
    MapBelow(root, path, press);
    assert keys[..|keys| - 1] == path;
    if MapAt(root, keys).Some? {
      ColumnShowsEveryKey(root, keys, 0);
    }
    InTurn(Draws(root, held, HeldNext(root, held, press, meaning), meaning), Does(stroke, meaning));
  }

  lemma {:induction false} RepeatingIs(root: Map, modes: Modes, path: Path, stroke: Keystroke)
    requires SoundRoot(root) && HeldIs(root, Repeating(path))
    ensures var held := Repeating(path);
            var meaning := MeaningOf(root, modes, held, stroke.press);
            var next := HeldNext(root, held, stroke.press, meaning);
            Press(held, root, modes, stroke, false) == (next, Draws(root, held, next, meaning) + Does(stroke, meaning))
  {
    MapBelow(root, path, stroke.press);
    if BoundIn(root, path, stroke.press).Some? {
      RepeatingReaches(root, path, stroke);
    } else {
      RepeatingUnbound(root, modes, path, stroke);
    }
  }

  lemma {:induction false} RepeatingUnbound(root: Map, modes: Modes, path: Path, stroke: Keystroke)
    requires SoundRoot(root) && HeldIs(root, Repeating(path))
    requires BoundIn(root, path, stroke.press).None? && At(Holds(root), path + [stroke.press]).None?
    ensures var held := Repeating(path);
            var meaning := MeaningOf(root, modes, held, stroke.press);
            var next := HeldNext(root, held, stroke.press, meaning);
            PressRepeating(root, path, stroke.press) == (next, Draws(root, held, next, meaning) + Does(stroke, meaning))
  {
    var press := stroke.press;
    var meaning := MeaningOf(root, modes, Repeating(path), press);
    InTurn(Draws(root, Repeating(path), HeldNext(root, Repeating(path), press, meaning), meaning),
      Does(stroke, meaning));
    if path[0] == press {
      FirstOfPath(root, path);
      Reopening(root, path[0]);
    }
  }

  lemma {:induction false} Reopening(root: Map, key: KeyPress)
    requires Whole(root) && MapAt(root, [key]).Some?
    ensures OpenColumn(root, [key], 0) == (InColumn([key], 0), [Opens(ColumnPanel(ColumnAt(root, [key], 0).value))])
  {
    ColumnShowsEveryKey(root, [key], 0);
  }

  // ---------------------------------------------------------------- what columns and bars say

  /** The row a column has for a key: its binding's caption and group, or the group of the first binding under it. */
  function RowOf(key: KeyPress, entry: Entry): ColumnEntry
    requires entry.Holds? ==> BoundOf(entry.inner.keys) != []
  {
    match entry
    case Run(binding) => ColumnEntry(key, binding.caption, binding.group, false)
    case Holds(inner) =>
      var group := BoundOf(inner.keys)[0].1.group;
      ColumnEntry(key, group, group, true)
  }

  lemma {:induction false} RowIs(slot: Slot)
    requires WholeEntry(slot.entry)
    ensures slot.entry.Holds? ==> BoundOf(slot.entry.inner.keys) != []
    ensures EntryOf(slot) == Some(RowOf(slot.key, slot.entry))
  {
    if slot.entry.Holds? {
      var p := SomethingRuns(slot.entry);
      BoundHas(slot.entry, p);
      AllOfIs(slot.entry.inner.keys);
    }
  }

  lemma {:induction false} EntriesAre(keys: seq<Slot>)
    requires forall i | 0 <= i < |keys| :: WholeEntry(keys[i].entry)
    ensures |EntriesOf(keys)| == |keys|
    ensures forall i | 0 <= i < |keys| :: EntryOf(keys[i]) == Some(EntriesOf(keys)[i])
  {
    if keys != [] {
      var n := |keys| - 1;
      EntriesAre(keys[..n]);
      RowIs(keys[n]);
      assert EntriesOf(keys) == EntriesOf(keys[..n]) + [EntryOf(keys[n]).value];
      assert forall i | 0 <= i < n :: keys[i] == keys[..n][i];
    }
  }

  /** A column has, for each key of its map, the row that says what it is. */
  lemma {:induction false} RowsAre(root: Map, path: Path, selected: nat, key: KeyPress)
    requires Whole(root) && path != [] && MapAt(root, path).Some? && Get(MapAt(root, path).value, key).Some?
    ensures var entry := Get(MapAt(root, path).value, key).value;
            && (entry.Holds? ==> BoundOf(entry.inner.keys) != [])
            && ColumnAt(root, path, selected).Some?
            && RowOf(key, entry) in ColumnAt(root, path, selected).value.entries
  {
    var m := MapAt(root, path).value;
    WholeAt(Holds(root), path);
    EntriesAre(m.keys);
    var i := Index(m.keys, key);
    RowIs(m.keys[i]);
    assert EntriesOf(m.keys)[i] in EntriesOf(m.keys);
    GroupedIsAll(EntriesOf(m.keys), EntriesOf(m.keys)[i]);
  }

  /** Where the slots that run are. */
  function Places(keys: seq<Slot>): (at: seq<nat>)
    ensures forall i | 0 <= i < |at| :: at[i] < |keys|
    ensures forall i, j | 0 <= i < j < |at| :: at[i] < at[j]
  {
    if keys == [] then []
    else
      var last := |keys| - 1;
      Places(keys[..last]) + if keys[last].entry.Run? then [last] else []
  }

  lemma {:induction false} PlacesRun(keys: seq<Slot>)
    ensures |Places(keys)| == |Running(keys)|
    ensures forall i | 0 <= i < |Places(keys)| ::
              Running(keys)[i] == keys[Places(keys)[i]] && keys[Places(keys)[i]].entry.Run?
  {
    if keys != [] {
      PlacesRun(keys[..|keys| - 1]);
    }
  }

  lemma {:induction false} PlacesHave(keys: seq<Slot>, k: nat)
    requires k < |keys| && keys[k].entry.Run?
    ensures k in Places(keys)
    decreases |keys|
  {
    if k < |keys| - 1 {
      PlacesHave(keys[..|keys| - 1], k);
    }
  }

  /** A mode's bar has its map's keys where they run, in their order. */
  lemma {:induction false} BarKeys(root: Map, path: Path)
    requires Whole(root) && BarAt(root, path).Some?
    ensures MapAt(root, path).Some?
    ensures var (bar, keys) := (BarAt(root, path).value, MapAt(root, path).value.keys);
            && |bar.keys| == |Places(keys)|
            && forall i | 0 <= i < |bar.keys| ::
                 bar.keys[i] == keys[Places(keys)[i]].key && Index(keys, bar.keys[i]) == Places(keys)[i]
                 && keys[Places(keys)[i]].entry.Run?
  {
    var (bar, m) := (BarAt(root, path).value, MapAt(root, path).value);
    if path != [] {
      WholeAt(Holds(root), path);
    }
    var at := Places(m.keys);
    PlacesRun(m.keys);
    forall i | 0 <= i < |at| ensures bar.keys[i] == m.keys[at[i]].key && Index(m.keys, bar.keys[i]) == at[i] {
      IndexIs(m.keys, at[i]);
    }
  }

  /** A mode's bar has the keys of its map that run, in their order, and the group of the first. */
  lemma {:induction false} BarShows(root: Map, path: Path)
    requires Whole(root) && BarAt(root, path).Some?
    ensures MapAt(root, path).Some? && MapAt(root, path).value.repeat
    ensures var (bar, m) := (BarAt(root, path).value, MapAt(root, path).value);
            && bar.keys != []
            && (forall key :: key in bar.keys <==> Runs(Holds(m), [key]).Some?)
            && (forall i, j | 0 <= i < j < |bar.keys| :: Index(m.keys, bar.keys[i]) < Index(m.keys, bar.keys[j]))
            && Runs(Holds(m), [bar.keys[0]]).Some? && bar.title == Runs(Holds(m), [bar.keys[0]]).value.group
  {
    var (bar, m) := (BarAt(root, path).value, MapAt(root, path).value);
    var at := Places(m.keys);
    BarKeys(root, path);
    PlacesRun(m.keys);
    forall key ensures key in bar.keys <==> Runs(Holds(m), [key]).Some? {
      RootKey(m, key);
      var k := Index(m.keys, key);
      if k < |m.keys| && m.keys[k].entry.Run? {
        PlacesHave(m.keys, k);
        var i :| 0 <= i < |at| && at[i] == k;
        assert bar.keys[i] == key;
      }
    }
    RootKey(m, bar.keys[0]);
  }

  // --------------------------------------------------------------------------- a watcher's

  lemma {:induction false} PrefixIs(keys: seq<Slot>)
    ensures Prefix(keys).None? <==> forall i | 0 <= i < |keys| :: keys[i].entry.Run?
    ensures Prefix(keys).Some? ==>
              exists i | 0 <= i < |keys| :: keys[i].entry.Holds? && keys[i].key == Prefix(keys).value
                                            && forall j | 0 <= j < i :: keys[j].entry.Run?
  {
    if keys != [] && keys[0].entry.Run? {
      PrefixIs(keys[1..]);
      if Prefix(keys).Some? {
        var i :| 0 <= i < |keys[1..]| && keys[1..][i].entry.Holds? && keys[1..][i].key == Prefix(keys).value
                 && forall j | 0 <= j < i :: keys[1..][j].entry.Run?;
        assert keys[i + 1] == keys[1..][i];
        assert forall j | 0 <= j < i + 1 :: j > 0 ==> keys[j] == keys[1..][j - 1];
      }
    }
  }

  /** A watcher's press holds a prefix, detaches by `d` after one, or else is answered with the prefix to press. */
  lemma {:induction false} WatchingIs(held: Held, root: Map, modes: Modes, stroke: Keystroke)
    ensures var prefixes := !held.Prefixed? && MapAt(root, [stroke.press]).Some?;
            var detaches := held.Prefixed? && stroke.press == KeyPress(Char('d'), NO_MODIFIERS);
            Press(held, root, modes, stroke, true) ==
            (if prefixes then Prefixed(stroke.press) else Normal,
             if prefixes then []
             else if detaches then [RunJob(CodeJob(DETACH, None))]
             else [Send(Notice(WatchingSaid(Prefix(root.keys)), false))])
  {
    RootKey(root, stroke.press);
  }
}
