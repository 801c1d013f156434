/** Keys, key presses and the code values keys run (fux-vt/src/keys.rs, fux-wire/src/callback.rs). */
module Keys {
  datatype Option<+T> = None | Some(value: T)

  datatype Direction = Left | Right | Up | Down

  datatype Key =
    | Char(c: char)
    | Enter
    | Tab
    | Escape
    | Backspace
    | Delete
    | Insert
    | Arrow(direction: Direction)
    | Home
    | End
    | PageUp
    | PageDown
    | Function(number: nat)

  datatype Modifiers = Modifiers(ctrl: bool, alt: bool, shift: bool)

  const NO_MODIFIERS := Modifiers(false, false, false)

  /** A key with the modifiers held. Two presses are the same key when they are equal. */
  datatype KeyPress = KeyPress(key: Key, mods: Modifiers) {

    /** The key of a press without Ctrl and without Alt. */
    function PlainKey(): Option<Key> {
      if !mods.ctrl && !mods.alt then Some(key) else None
    }

    /** The key that leaves a map of keys: Escape, with Shift or without. */
    predicate Leaves() {
      PlainKey() == Some(Escape)
    }
  }

  /** Keys typed one after another. */
  type Path = seq<KeyPress>

  /** Code, compared by its text alone. */
  datatype Code = Code(source: string)

  /** Typed inert values, as callbacks are given and the `keys` record is made of. */
  datatype Data =
    | Text(text: string)
    | Names(keys: Path) // text, the names of keys
    | Bool(value: bool)
    | Null
    | CodeData(code: Code)
    | List(items: seq<Data>)
    | Record(fields: seq<(string, Data)>)

  /** Code with arguments already bound. */
  datatype Callback = Callback(code: Code, args: seq<Data>)
}
