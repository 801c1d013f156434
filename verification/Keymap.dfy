/**
 * A client's keymap (`Keymap` of src/keymap.rs) and the statements of a config that change it
 * (`configure` of src/script/words.rs), in place on objects, each against a function of the
 * keymap's value.
 */
module Keymap {
  import opened Keys
  import opened Trie
  import opened TrieOrder
  import opened Modes

  /** `DEPTH` of fux-wire/src/callback.rs: how far values on the wire may nest. */
  const DEPTH: nat := 64

  /** The longest path `PutKeys` allows. */
  const DEEPEST: nat := (DEPTH - 1) / 2

  /** What a binding's group is by default. */
  const OTHER_GROUP := "Other"

  /** What `bind` makes of a code value. */
  function NewBinding(code: Code): Binding {
    Binding(code, code.source, OTHER_GROUP)
  }

  // --------------------------------------------------------- the root's changes

  predicate HasEscape(keys: Path) {
    exists i | 0 <= i < |keys| :: keys[i].Leaves()
  }

  /** `Put` from the root, behind two tests: of Escape past the first key, and of depth. */
  function PutKeys(root: Map, keys: Path, entry: Entry): Result<Map> {
    var deep := (if keys == [] then 0 else |keys| - 1) + Depth(entry);
    if keys != [] && HasEscape(keys[1..]) then Err(EscapeInMap)
    else if deep > DEEPEST then Err(TooDeep(deep))
    else Put(root, keys, keys, entry)
  }

  function Unbind(root: Map, keys: Path): Result<Map> {
    match Take(root, keys)
    case None => Err(NotBound(keys))
    case Some((_, left)) => Ok(left)
  }

  function MoveKeys(root: Map, from: Path, to: Path): Result<Map> {
    if from <= to then Err(Inside(to, from))
    else
      match Take(root, from)
      case None => Err(NotBound(from))
      case Some((entry, left)) => PutKeys(left, to, entry)
  }

  /** `entry` with `new` in place of what `path` below it is. */
  function Replace(entry: Entry, path: Path, new': Entry): Entry
    decreases |path|
  {
    if path == [] then new'
    else match entry
      case Run(_) => entry
      case Holds(m) =>
        var i := Index(m.keys, path[0]);
        if i == |m.keys| then entry
        else Holds(m.(keys := m.keys[i := Slot(path[0], Replace(m.keys[i].entry, path[1..], new'))]))
  }

  /** An entry with one of its maps made to repeat, if the path leads to a map. */
  function Flag(entry: Entry, path: Path): Option<Entry> {
    match At(entry, path)
    case Some(Holds(inner)) => Some(Replace(entry, path, Holds(inner.(repeat := true))))
    case _ => None
  }

  function SetRepeat(root: Map, keys: Path): Result<Map> {
    if keys == [] then Err(HoldsNoMap(keys))
    else match Flag(Holds(root), keys)
      case Some(Holds(changed)) => Ok(changed)
      case _ => Err(HoldsNoMap(keys))
  }

  /** The binding `keys` run becomes `binding`: what `binding_mut` lends is changed. */
  function Rebind(root: Map, keys: Path, binding: Binding): Map {
    var changed := Replace(Holds(root), keys, Run(binding));
    if changed.Holds? then changed.inner else root
  }

  // -------------------------------------------------------------- a config's run

  datatype Statement =
    | UnbindAll
    | BindKey(keys: Path, code: Code)
    | Unbinds(keys: Path)
    | Moving(from: Path, to: Path)
    | Repeat(keys: Path)
    | Caption(text: string)
    | Group(name: string)
    | BindIn(modal: Modal, key: KeyPress, name: string)
    | UnbindIn(modal: Modal, key: KeyPress)
    | BindAction(key: KeyPress, code: Code)

  /** The binding or screen's key just made, which a caption or group changes. */
  datatype Made = Nothing | Keyed(keys: Path) | InModal(modal: Modal, key: KeyPress)

  datatype State = State(root: Map, modes: Modes, made: Made)

  const START := State(EMPTY_MAP, NO_MODES, Nothing)

  datatype Outcome = Done(state: State) | Refused

  function Rooted(s: State, root: Result<Map>, made: Made): Outcome {
    match root case Ok(m) => Done(s.(root := m, made := made)) case Err(_) => Refused
  }

  /** A caption of the binding, or the screen's key, just made. */
  function SetCaption(s: State, text: string): Outcome {
    match s.made
    case Nothing => Refused
    case Keyed(keys) => (
      match Runs(Holds(s.root), keys)
      case None => Refused
      case Some(binding) => Done(s.(root := Rebind(s.root, keys, binding.(caption := text)))))
    case InModal(ListModal, key) =>
      var i := KeyIndex(s.modes.list, key);
      if i == |s.modes.list| then Refused
      else Done(s.(modes := s.modes.(list := s.modes.list[i := s.modes.list[i].(hint := Some(text))])))
    case InModal(LineModal, key) =>
      var i := KeyIndex(s.modes.line, key);
      if i == |s.modes.line| then Refused
      else Done(s.(modes := s.modes.(line := s.modes.line[i := s.modes.line[i].(hint := Some(text))])))
  }

  function SetGroup(s: State, name: string): Outcome {
    match s.made
    case Keyed(keys) => (
      match Runs(Holds(s.root), keys)
      case None => Refused
      case Some(binding) => Done(s.(root := Rebind(s.root, keys, binding.(group := name)))))
    case _ => Refused
  }

  /** One statement of a config. A refusal changes nothing, not even what was just made. */
  function Configure(s: State, statement: Statement): Outcome {
    match statement
    case UnbindAll => Done(s.(root := EMPTY_MAP, modes := NO_MODES))
    case BindKey(keys, code) =>
      if keys == [] then Refused else Rooted(s, PutKeys(s.root, keys, Run(NewBinding(code))), Keyed(keys))
    case Unbinds(keys) => if keys == [] then Refused else Rooted(s, Unbind(s.root, keys), s.made)
    case Moving(from, to) =>
      if from == [] || to == [] then Refused else Rooted(s, MoveKeys(s.root, from, to), s.made)
    case Repeat(keys) => Rooted(s, SetRepeat(s.root, keys), s.made)
    case Caption(text) => SetCaption(s, text)
    case Group(name) => SetGroup(s, name)
    case BindIn(ListModal, key, name) =>
      if key.key == Escape then Refused
      else (
        match Named(LIST_NAMES, name)
        case None => Refused
        case Some(act) =>
          Done(s.(modes := s.modes.(list := TableBind(s.modes.list, key, act)), made := InModal(ListModal, key))))
    case BindIn(LineModal, key, name) =>
      if key.key == Escape then Refused
      else (
        match Named(LINE_NAMES, name)
        case None => Refused
        case Some(act) =>
          Done(s.(modes := s.modes.(line := TableBind(s.modes.line, key, act)), made := InModal(LineModal, key))))
    case UnbindIn(ListModal, key) =>
      if KeyIndex(s.modes.list, key) == |s.modes.list| then Refused
      else Done(s.(modes := s.modes.(list := TableUnbind(s.modes.list, key)), made := InModal(ListModal, key)))
    case UnbindIn(LineModal, key) =>
      if KeyIndex(s.modes.line, key) == |s.modes.line| then Refused
      else Done(s.(modes := s.modes.(line := TableUnbind(s.modes.line, key)), made := InModal(LineModal, key)))
    case BindAction(key, code) =>
      if key.key == Escape then Refused
      else Done(s.(modes := s.modes.(list := TableBind(s.modes.list, key, Action(Callback(code, [])))),
                   made := InModal(ListModal, key)))
  }

  /** A run of statements, each refused one changing nothing. */
  function Ran(s: State, statements: seq<Statement>): State
    decreases |statements|
  {
    if statements == [] then s
    else
      var next := match Configure(s, statements[0]) case Done(done) => done case Refused => s;
      Ran(next, statements[1..])
  }

  // ------------------------------------------------------- what every run keeps

  /** What a keymap always is: whole, its maps left by Escape alone, no key past the deepest. */
  ghost predicate SoundRoot(root: Map) {
    Whole(root) && !root.repeat && LeavableRoot(root) && Within(root, DEEPEST)
  }

  ghost predicate SoundState(s: State) {
    SoundRoot(s.root) && Sound(s.modes)
  }
}
