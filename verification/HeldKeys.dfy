/**
 * `Held` of src/keymap.rs as a machine: its states are the root, a column, a repeat mode, and a
 * watcher's prefix; a press takes one to the next, with effects.
 */
module HeldKeys {
  import opened Keys
  import opened Trie
  import opened TrieView
  import opened TrieOrder
  import opened Modes
  import opened Keymap
  import opened Columns
  import opened Acts

  datatype Held =
    | Normal
    | InColumn(path: Path, selected: nat)
    | Repeating(path: Path)
    | Prefixed(key: KeyPress)
  {
    /** The path of the open map; the root's, nothing. */
    function Typed(): Path {
      match this
      case Normal => []
      case InColumn(path, _) => path
      case Repeating(path) => path
      case Prefixed(key) => [key]
    }
  }

  const ENTER := KeyPress(Enter, NO_MODIFIERS)
  const ESCAPE := KeyPress(Escape, NO_MODIFIERS)
  const DETACH := Code("(lambda! () (detach (me)))")

  function RunCode(code: Code): Effect { RunJob(CodeJob(code, None)) }

  /** A key typed: what is held after it, and what it leads to. */
  function Press(held: Held, root: Map, modes: Modes, stroke: Keystroke, readOnly: bool): (Held, seq<Effect>) {
    var press := stroke.press;
    if readOnly then Watching(held, root, press)
    else match held
      case InColumn(path, selected) => PressInColumn(root, modes, path, selected, stroke)
      case Repeating(path) => PressRepeating(root, path, press)
      case _ =>
        match Get(root, press)
        case Some(Run(binding)) => (Normal, [RunCode(binding.code)])
        case Some(Holds(_)) => OpenColumn(root, [press], 0)
        case None => (Normal, [Send(KeyAct(stroke))])
  }

  /** Opens a column on a path; a path to no map leaves to the root. */
  function OpenColumn(root: Map, path: Path, selected: nat): (Held, seq<Effect>) {
    match ColumnAt(root, path, selected)
    case Some(column) => (InColumn(path, column.selected), [Opens(ColumnPanel(column))])
    case None => (Normal, [HIDE])
  }

  /** A press looked up in whatever map a path reaches. */
  function BoundIn(root: Map, path: Path, press: KeyPress): Option<Entry> {
    match MapAt(root, path) case None => None case Some(m) => Get(m, press)
  }

  /** A press that moves a column's selection: a bare list key, letters excepted as they may be bound. */
  function MoveBy(modes: Modes, press: KeyPress): Option<Move> {
    var act := TableGet<ListAct>(modes.list, press, Cancel);
    if press.mods == NO_MODIFIERS && !press.key.Char? && act.Some? && act.value.Moves? then Some(act.value.move)
    else None
  }

  /** A press resolved in an open map: run it, go deeper, or say it is unbound. */
  function Follow(root: Map, path: Path, press: KeyPress): (Held, seq<Effect>) {
    match BoundIn(root, path, press)
    case Some(Run(binding)) => (
      match BarAt(root, path)
      case Some(bar) => (Repeating(path), [Opens(RepeatPanel(bar)), RunCode(binding.code)])
      case None => (Normal, [HIDE, RunCode(binding.code)]))
    case Some(Holds(_)) => OpenColumn(root, path + [press], 0)
    case None => (InColumn(path, 0), [Send(Notice(NotBoundSaid(path + [press]), true))])
  }

  function PressInColumn(root: Map, modes: Modes, path: Path, selected: nat, stroke: Keystroke): (Held, seq<Effect>) {
    var press := stroke.press;
    if press.Leaves() then (Normal, [HIDE])
    else if BoundIn(root, path, press).Some? then Follow(root, path, press)
    else if path != [] && path[0] == press then
      // The path's own first key, unbound at its end: it is typed through.
      (Normal, [HIDE, Send(KeyAct(stroke))])
    else
      match MoveBy(modes, press)
      case Some(move) => MoveInColumn(root, path, selected, move)
      case None => if press == ENTER then FollowChosen(root, path, selected) else Follow(root, path, press)
  }

  /** The number of a column's last row. */
  function LastOf(root: Map, path: Path): nat {
    match ColumnAt(root, path, 0)
    case None => 0
    case Some(column) => if column.entries == [] then 0 else |column.entries| - 1
  }

  /** A column's selection moved, and drawn. */
  function MoveInColumn(root: Map, path: Path, selected: nat, move: Move): (Held, seq<Effect>) {
    match ColumnAt(root, path, Moved(move, selected, LastOf(root, path)))
    case Some(column) => (InColumn(path, column.selected), [Screens(Show(ColumnPanel(column)))])
    case None => (Normal, [HIDE])
  }

  /** The entry selected, as if its key were pressed. */
  function FollowChosen(root: Map, path: Path, selected: nat): (Held, seq<Effect>) {
    match Chosen(root, path, selected)
    case Some(key) => Follow(root, path, key)
    case None => (Normal, [HIDE])
  }

  /** The key of the column's selected entry. */
  function Chosen(root: Map, path: Path, selected: nat): Option<KeyPress> {
    match ColumnAt(root, path, selected)
    case None => None
    case Some(column) => if column.selected < |column.entries| then Some(column.entries[column.selected].key) else None
  }

  function PressRepeating(root: Map, path: Path, press: KeyPress): (Held, seq<Effect>) {
    var bound := BoundIn(root, path, press);
    if bound.None? && path != [] && path[0] == press then
      // The path's own first key: back to its column.
      OpenColumn(root, [press], 0)
    else if !press.mods.ctrl && !press.mods.alt && (press.key == Escape || (press.key == Enter && bound.None?)) then
      (Normal, [HIDE])
    else match bound
      case Some(Run(binding)) => (Repeating(path), [RunCode(binding.code)])
      case Some(Holds(_)) => OpenColumn(root, path + [press], 0)
      case None => (Normal, [HIDE, Send(Notice(NotInModeSaid(press), false))])
  }

  /** The prefix shown to a watcher. */
  function Prefix(keys: seq<Slot>): Option<KeyPress> {
    if keys == [] then None else if keys[0].entry.Holds? then Some(keys[0].key) else Prefix(keys[1..])
  }

  predicate Leads(root: Map, key: KeyPress) {
    Get(root, key).Some? && Get(root, key).value.Holds?
  }

  function WatchingNotice(root: Map): Act { Notice(WatchingSaid(Prefix(root.keys)), false) }

  /** A watcher's presses: all but a prefix and the `d` after it only earn a notice. */
  function Watching(held: Held, root: Map, press: KeyPress): (Held, seq<Effect>) {
    if held.Prefixed? && press == KeyPress(Char('d'), NO_MODIFIERS) then (Normal, [RunCode(DETACH)])
    else if !held.Prefixed? && Leads(root, press) then (Prefixed(press), [])
    else (Normal, [Send(WatchingNotice(root))])
  }

  // ------------------------------------------------------------- what is held

  /** What is held names what there is: a map, an entry of its column, a mode with keys that run. */
  ghost predicate HeldIs(root: Map, held: Held) {
    match held
    case Normal => true
    case InColumn(path, selected) =>
      && path != [] && MapAt(root, path).Some?
      && selected < |Grouped(EntriesOf(MapAt(root, path).value.keys))|
    case Repeating(path) =>
      && path != [] && MapAt(root, path).Some?
      && MapAt(root, path).value.repeat
      && Running(MapAt(root, path).value.keys) != []
    case Prefixed(key) => Leads(root, key)
  }

  lemma {:induction false} RunningRun(keys: seq<Slot>)
    ensures forall i | 0 <= i < |Running(keys)| :: Running(keys)[i].entry.Run?
    ensures forall i | 0 <= i < |keys| && keys[i].entry.Run? :: Running(keys) != []
  {
    if keys != [] {
      var last := |keys| - 1;
      RunningRun(keys[..last]);
      assert forall i | 0 <= i < last :: keys[..last][i] == keys[i];
    }
  }

  lemma {:induction false} BarIs(root: Map, path: Path)
    ensures BarAt(root, path).Some? <==>
              MapAt(root, path).Some? && MapAt(root, path).value.repeat && Running(MapAt(root, path).value.keys) != []
  {
    if MapAt(root, path).Some? {
      RunningRun(MapAt(root, path).value.keys);
    }
  }

  lemma {:induction false} MapBelow(root: Map, path: Path, press: KeyPress)
    requires MapAt(root, path).Some?
    ensures At(Holds(root), path + [press]) == Get(MapAt(root, path).value, press)
  {
    AtAppend(Holds(root), path, [press]);
  }

  lemma {:induction false} OpenColumnHolds(root: Map, path: Path, selected: nat)
    requires Whole(root) && path != [] && MapAt(root, path).Some?
    ensures OpenColumn(root, path, selected).0 == InColumn(path, ColumnAt(root, path, selected).value.selected)
    ensures HeldIs(root, OpenColumn(root, path, selected).0)
  {
    ColumnShowsEveryKey(root, path, selected);
  }

  lemma {:induction false} FollowHolds(root: Map, path: Path, press: KeyPress)
    requires Whole(root) && path != [] && MapAt(root, path).Some?
    ensures HeldIs(root, Follow(root, path, press).0)
  {
    MapBelow(root, path, press);
    BarIs(root, path);
    ColumnShowsEveryKey(root, path, 0);
    if Get(MapAt(root, path).value, press).Some? && Get(MapAt(root, path).value, press).value.Holds? {
      OpenColumnHolds(root, path + [press], 0);
    }
  }

  lemma {:induction false} ChosenIsBound(root: Map, path: Path, selected: nat)
    requires Whole(root) && path != [] && MapAt(root, path).Some?
    ensures Chosen(root, path, selected).Some?
    ensures Get(MapAt(root, path).value, Chosen(root, path, selected).value).Some?
  {
    ColumnShowsEveryKey(root, path, selected);
  }

  lemma {:induction false} ColumnHolds(root: Map, path: Path, selected: nat)
    requires Whole(root) && path != [] && MapAt(root, path).Some?
    ensures ColumnAt(root, path, selected).Some?
    ensures HeldIs(root, InColumn(path, ColumnAt(root, path, selected).value.selected))
  {
    ColumnShowsEveryKey(root, path, selected);
  }

  lemma {:induction false} MovingHolds(root: Map, path: Path, selected: nat, move: Move)
    requires Whole(root) && path != [] && MapAt(root, path).Some?
    ensures HeldIs(root, MoveInColumn(root, path, selected, move).0)
  {
    ColumnHolds(root, path, Moved(move, selected, LastOf(root, path)));
  }

  lemma {:induction false} ChoosingHolds(root: Map, path: Path, selected: nat)
    requires Whole(root) && path != [] && MapAt(root, path).Some?
    ensures HeldIs(root, FollowChosen(root, path, selected).0)
  {
    ChosenIsBound(root, path, selected);
    FollowHolds(root, path, Chosen(root, path, selected).value);
  }

  lemma {:induction false} InColumnKeepsHeld(root: Map, modes: Modes, path: Path, selected: nat, stroke: Keystroke)
    requires Whole(root) && path != [] && MapAt(root, path).Some?
    ensures HeldIs(root, PressInColumn(root, modes, path, selected, stroke).0)
  {
    var press := stroke.press;
    var move := MoveBy(modes, press);
    if press.Leaves() {
      return;
    }
    if BoundIn(root, path, press).Some? {
      FollowHolds(root, path, press);
    } else if path[0] != press {
      match move
      case Some(m) => MovingHolds(root, path, selected, m);
      case None =>
        ChoosingHolds(root, path, selected);
        FollowHolds(root, path, press);
    }
  }

  lemma {:induction false} RepeatingKeepsHeld(root: Map, path: Path, press: KeyPress)
    requires Whole(root) && HeldIs(root, Repeating(path))
    ensures HeldIs(root, PressRepeating(root, path, press).0)
  {
    MapBelow(root, path, press);
    if MapAt(root, path + [press]).Some? {
      OpenColumnHolds(root, path + [press], 0);
    }
    FirstOfPath(root, path);
    OpenColumnHolds(root, [path[0]], 0);
  }

  lemma {:induction false} RootKey(root: Map, press: KeyPress)
    ensures At(Holds(root), [press]) == Get(root, press)
  {
    assert [press][1..] == [];
  }

  /** Every key keeps it so, whatever is held, while the keymap stays. */
  lemma {:induction false} PressKeepsHeld(held: Held, root: Map, modes: Modes, stroke: Keystroke, readOnly: bool)
    requires SoundRoot(root) && HeldIs(root, held)
    ensures HeldIs(root, Press(held, root, modes, stroke, readOnly).0)
  {
    if !readOnly {
      match held
      case InColumn(path, selected) => InColumnKeepsHeld(root, modes, path, selected, stroke);
      case Repeating(path) => RepeatingKeepsHeld(root, path, stroke.press);
      case _ =>
        RootKey(root, stroke.press);
        if MapAt(root, [stroke.press]).Some? {
          OpenColumnHolds(root, [stroke.press], 0);
        }
    }
  }

  /** The first of keys that reach a map holds a map. */
  lemma {:induction false} FirstOfPath(root: Map, path: Path)
    requires path != [] && MapAt(root, path).Some?
    ensures MapAt(root, [path[0]]).Some?
  {
    AtBelow(Holds(root), [path[0]], path);
    RootKey(root, path[0]);
  }

  // ------------------------------------------------------------- what it runs

  /** The key a press stands for: Enter, unbound in a column, for the entry selected. */
  function Meant(held: Held, root: Map, modes: Modes, press: KeyPress): KeyPress {
    if held.InColumn? && press == ENTER && BoundIn(root, held.path, press).None?
       && !(held.path != [] && held.path[0] == press)
       && MoveBy(modes, press).None? && Chosen(root, held.path, held.selected).Some?
    then Chosen(root, held.path, held.selected).value
    else press
  }

  /** Where a press is looked up: the root, if none of its maps is open. */
  function From(held: Held): Path {
    if held.Prefixed? then [] else held.Typed()
  }

  function RunsOf(effects: seq<Effect>): seq<Job> {
    if effects == [] then []
    else (if effects[0].RunJob? then [effects[0].job] else []) + RunsOf(effects[1..])
  }

  /** The job of the binding at some keys, if one is. */
  function JobAt(root: Map, keys: Path): seq<Job> {
    match Runs(Holds(root), keys) case None => [] case Some(binding) => [CodeJob(binding.code, None)]
  }

  lemma {:induction false} RunsOfFew(effects: seq<Effect>)
    ensures |effects| == 1 ==> RunsOf(effects) == if effects[0].RunJob? then [effects[0].job] else []
    ensures |effects| == 2 && !effects[0].RunJob? ==>
            RunsOf(effects) == if effects[1].RunJob? then [effects[1].job] else []
  {
    if |effects| == 2 {
      RunsOfFew(effects[1..]);
    }
  }

  lemma {:induction false} FollowRuns(root: Map, path: Path, press: KeyPress)
    requires MapAt(root, path).Some?
    ensures RunsOf(Follow(root, path, press).1) == JobAt(root, path + [press])
  {
    MapBelow(root, path, press);
    RunsOfFew(Follow(root, path, press).1);
  }

  lemma {:induction false} InColumnRuns(root: Map, modes: Modes, path: Path, selected: nat, stroke: Keystroke)
    requires SoundRoot(root) && HeldIs(root, InColumn(path, selected))
    ensures RunsOf(PressInColumn(root, modes, path, selected, stroke).1) ==
            JobAt(root, path + [Meant(InColumn(path, selected), root, modes, stroke.press)])
  {
    var press := stroke.press;
    NoEscapeBelow(root, path, press);
    MapBelow(root, path, press);
    if BoundIn(root, path, press).Some? {
      FollowRuns(root, path, press);
    } else {
      RunsOfFew(PressInColumn(root, modes, path, selected, stroke).1);
      ChosenIsBound(root, path, selected);
      FollowRuns(root, path, Chosen(root, path, selected).value);
    }
  }

  lemma {:induction false} RepeatingRuns(root: Map, path: Path, press: KeyPress)
    requires SoundRoot(root) && HeldIs(root, Repeating(path))
    ensures RunsOf(PressRepeating(root, path, press).1) == JobAt(root, path + [press])
  {
    NoEscapeBelow(root, path, press);
    MapBelow(root, path, press);
    RunsOfFew(PressRepeating(root, path, press).1);
  }

  /** A press runs the binding at the path open and the key meant, if there is one, and no other. */
  lemma {:induction false} PressRunsWhatIsBound(held: Held, root: Map, modes: Modes, stroke: Keystroke)
    requires SoundRoot(root) && HeldIs(root, held)
    ensures RunsOf(Press(held, root, modes, stroke, false).1) ==
            JobAt(root, From(held) + [Meant(held, root, modes, stroke.press)])
  {
    match held
    case InColumn(path, selected) => InColumnRuns(root, modes, path, selected, stroke);
    case Repeating(path) => RepeatingRuns(root, path, stroke.press);
    case _ =>
      assert [] + [stroke.press] == [stroke.press];
      RootKey(root, stroke.press);
      RunsOfFew(Press(held, root, modes, stroke, false).1);
  }

  /** No map a key holds binds a key that leaves it. */
  lemma {:induction false} NoEscapeBelow(root: Map, path: Path, press: KeyPress)
    requires LeavableRoot(root) && path != [] && MapAt(root, path).Some?
    ensures press.Leaves() ==> Get(MapAt(root, path).value, press).None?
  {
    var i := Index(root.keys, path[0]);
    LeavableAt(root.keys[i].entry, path[1..]);
  }

  lemma {:induction false} LeavableAt(entry: Entry, path: Path)
    requires Leavable(entry) && At(entry, path).Some?
    ensures Leavable(At(entry, path).value)
    decreases |path|
  {
    if path != [] {
      LeavableAt(entry.inner.keys[Index(entry.inner.keys, path[0])].entry, path[1..]);
    }
  }

  /** A watcher can run its detach alone, by `d` once a prefix is held. */
  lemma {:induction false} WatchingRunsOnlyDetach(held: Held, root: Map, modes: Modes, stroke: Keystroke)
    ensures RunsOf(Press(held, root, modes, stroke, true).1) ==
            if held.Prefixed? && stroke.press == KeyPress(Char('d'), NO_MODIFIERS) then [CodeJob(DETACH, None)] else []
  {
    var effects := Press(held, root, modes, stroke, true).1;
    RunsOfFew(effects);
  }

  // ------------------------------------------------------------------- leaving

  /**
   * Escape leaves a column, and a repeat mode, unless the first key of the mode's path is the same press:
   * that one opens its column instead.
   */
  lemma {:induction false} EscapeLeaves(root: Map, modes: Modes, held: Held, stroke: Keystroke)
    requires SoundRoot(root) && HeldIs(root, held) && (held.InColumn? || held.Repeating?) && stroke.press.Leaves()
    ensures Press(held, root, modes, stroke, false) == (Normal, [HIDE]) <==>
            !(held.Repeating? && held.path[0] == stroke.press)
    ensures held.Repeating? && held.path[0] == stroke.press ==> Press(held, root, modes, stroke, false).0.InColumn?
  {
    if held.Repeating? {
      NoEscapeBelow(root, held.path, stroke.press);
      FirstOfPath(root, held.path);
      OpenColumnHolds(root, [held.path[0]], 0);
    }
  }

  /** A keymap where Escape does not leave: the root's Escape holds a map that repeats. */
  lemma EscapeMayReopen()
    ensures var inner := Map([Slot(KeyPress(Char('h'), NO_MODIFIERS), Run(NewBinding(DETACH)))], true);
            var root := Map([Slot(ESCAPE, Holds(inner))], false);
            && SoundRoot(root)
            && HeldIs(root, Repeating([ESCAPE]))
            && Press(Repeating([ESCAPE]), root, NO_MODES, Keystroke(ESCAPE, None), false).0.InColumn?
  {
    var inner := Map([Slot(KeyPress(Char('h'), NO_MODIFIERS), Run(NewBinding(DETACH)))], true);
    var root := Map([Slot(ESCAPE, Holds(inner))], false);
    assert Depth(root.keys[0].entry) == 1 + DeepestOf(inner.keys);
    DeepestIs(inner.keys, 1);
    RootKey(root, ESCAPE);
    assert root.keys[0].key == ESCAPE;
    RunningRun(inner.keys);
    assert inner.keys[0].entry.Run?;
    assert Whole(inner) && WholeEntry(root.keys[0].entry);
    assert Leavable(inner.keys[0].entry) && Leavable(root.keys[0].entry);
    EscapeLeaves(root, NO_MODES, Repeating([ESCAPE]), Keystroke(ESCAPE, None));
  }

  /**
   * An unbound press in a column sets its selection to the first without a drawing. What was drawn last
   * agrees with it only if the first was selected before.
   */
  lemma {:induction false} UnboundKeyResetsUndrawn(root: Map, path: Path, selected: nat, press: KeyPress)
    requires BoundIn(root, path, press).None?
    ensures Follow(root, path, press).0 == InColumn(path, selected) <==> selected == 0
    ensures forall effect | effect in Follow(root, path, press).1 :: effect.Send?
  {
  }
}
