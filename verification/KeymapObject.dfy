/**
 * The keymap a client holds and a config changes in place, each method against the function of
 * its value in `Keymap`.
 */
module KeymapObject {
  import opened Keys
  import opened Trie
  import opened Modes
  import opened Keymap

  class ClientKeymap {
    /** The tree of bindings. */
    var root: Map
    /** The tables of list and line keys. */
    var modes: Modes

    constructor ()
      ensures root == EMPTY_MAP && modes == NO_MODES
    {
      root, modes := EMPTY_MAP, NO_MODES;
    }

    /** Puts a binding; a refusal leaves the root as it was. */
    method Bind(keys: Path, binding: Binding) returns (refused: Option<Refusal>)
      modifies this`root
      ensures refused == Why(PutKeys(old(root), keys, Run(binding)))
      ensures root == Kept(old(root), PutKeys(old(root), keys, Run(binding)))
    {
      refused := PutEntry(keys, Run(binding));
    }

    method PutEntry(keys: Path, entry: Entry) returns (refused: Option<Refusal>)
      modifies this`root
      ensures refused == Why(PutKeys(old(root), keys, entry))
      ensures root == Kept(old(root), PutKeys(old(root), keys, entry))
    {
      if keys != [] && HasEscape(keys[1..]) {
        return Some(EscapeInMap);
      }
      var deep := (if keys == [] then 0 else |keys| - 1) + Depth(entry);
      if deep > DEEPEST {
        return Some(TooDeep(deep));
      }
      match Put(root, keys, keys, entry) {
        case Ok(changed) => root := changed; return None;
        case Err(why) => return Some(why);
      }
    }

    method UnbindKeys(keys: Path) returns (refused: Option<Refusal>)
      modifies this`root
      ensures refused == Why(Unbind(old(root), keys))
      ensures root == Kept(old(root), Unbind(old(root), keys))
    {
      match Take(root, keys) {
        case None => return Some(NotBound(keys));
        case Some((_, left)) => root := left; return None;
      }
    }

    /** What `from` does, `to` does instead: worked out on a copy, which replaces this one whole. */
    method Move(from: Path, to: Path) returns (refused: Option<Refusal>)
      modifies this`root
      ensures refused == Why(MoveKeys(old(root), from, to))
      ensures root == Kept(old(root), MoveKeys(old(root), from, to))
    {
      if from <= to {
        return Some(Inside(to, from));
      }
      var moved := new ClientKeymap();
      moved.root := root;
      match Take(moved.root, from) {
        case None => return Some(NotBound(from));
        case Some((entry, left)) =>
          moved.root := left;
          refused := moved.PutEntry(to, entry);
          if refused.None? {
            root := moved.root;
          }
      }
    }

    method UnbindAllKeys()
      modifies this
      ensures root == EMPTY_MAP && modes == NO_MODES
    {
      root, modes := EMPTY_MAP, NO_MODES;
    }

    method SetRepeats(keys: Path) returns (refused: Option<Refusal>)
      modifies this`root
      ensures refused == Why(SetRepeat(old(root), keys))
      ensures root == Kept(old(root), SetRepeat(old(root), keys))
    {
      var there := MapAt(root, keys);
      if keys == [] || there.None? {
        return Some(HoldsNoMap(keys));
      }
      root := Replace(Holds(root), keys, Holds(there.value.(repeat := true))).inner;
      refused := None;
    }
  }

  function Why<T>(result: Result<T>): Option<Refusal> {
    match result case Ok(_) => None case Err(why) => Some(why)
  }

  /** What a change leaves: what it came to, or what there was. */
  function Kept<T>(was: T, result: Result<T>): T {
    match result case Ok(changed) => changed case Err(_) => was
  }

  /** A config being run: the keymap it changes, and what it just made. */
  class Config {
    const keymap: ClientKeymap
    var made: Made

    constructor (keymap: ClientKeymap)
      ensures this.keymap == keymap && made == Nothing
    {
      this.keymap := keymap;
      made := Nothing;
    }

    function Value(): State
      reads this, keymap
    {
      State(keymap.root, keymap.modes, made)
    }

    /** Executes a statement on the keymap, which a refusal leaves alone. */
    method Runs(statement: Statement) returns (ok: bool)
      modifies this, keymap
      ensures ok <==> Configure(old(Value()), statement).Done?
      ensures Value() == if ok then Configure(old(Value()), statement).state else old(Value())
    {
      var refused: Option<Refusal> := Some(NoKeys);
      match statement {
        case UnbindAll =>
          keymap.UnbindAllKeys();
          return true;
        case BindKey(keys, code) =>
          if keys != [] {
            refused := keymap.Bind(keys, NewBinding(code));
          }
          if refused.None? {
            made := Keyed(keys);
          }
          return refused.None?;
        case Unbinds(keys) =>
          if keys != [] {
            refused := keymap.UnbindKeys(keys);
          }
          return refused.None?;
        case Moving(from, to) =>
          if from != [] && to != [] {
            refused := keymap.Move(from, to);
          }
          return refused.None?;
        case Repeat(keys) =>
          refused := keymap.SetRepeats(keys);
          return refused.None?;
        case Caption(_) => ok := Changes(SetCaption(Value(), statement.text));
        case Group(_) => ok := Changes(SetGroup(Value(), statement.name));
        case BindIn(_, _, _) => ok := Changes(Configure(Value(), statement));
        case UnbindIn(_, _) => ok := Changes(Configure(Value(), statement));
        case BindAction(_, _) => ok := Changes(Configure(Value(), statement));
      }
    }

    /** Stores what a statement on one binding or one table came to. */
    method Changes(outcome: Outcome) returns (ok: bool)
      modifies this, keymap
      ensures ok <==> outcome.Done?
      ensures Value() == if ok then outcome.state else old(Value())
    {
      ok := outcome.Done?;
      if ok {
        keymap.root, keymap.modes, made := outcome.state.root, outcome.state.modes, outcome.state.made;
      }
    }

    /** Runs a config's statements in order, passing over those refused. */
    method RunsAll(statements: seq<Statement>)
      modifies this, keymap
      ensures Value() == Ran(old(Value()), statements)
    {
      for i := 0 to |statements|
        invariant Ran(old(Value()), statements) == Ran(Value(), statements[i..])
      {
        var ok := Runs(statements[i]);
        assert statements[i..][1..] == statements[i + 1..];
      }
    }
  }
}
