/** Key tables of lists and prompts (`Modes` and `Table` of src/keymap.rs), and moves (fux-wire/src/act.rs). */
module Modes {
  import opened Keys

  datatype Move = Up | Down | PageUp | PageDown | First | Last

  /** The rows of a page. */
  const PAGE: nat := 10

  /** Where a move goes from row `at` of `0..last`. */
  function Moved(move: Move, at: nat, last: nat): nat {
    match move
    case Up => if at == 0 then 0 else at - 1
    case Down => Least(at + 1, last)
    case PageUp => if at < PAGE then 0 else at - PAGE
    case PageDown => Least(at + PAGE, last)
    case First => 0
    case Last => last
  }

  function Least(a: nat, b: nat): nat { if a < b then a else b }

  datatype Edit = Insert(text: string) | Backspace | Delete | Left | Right | Home | End

  datatype ListAct = Moves(move: Move) | Choose | Cancel | Action(callback: Callback)

  datatype LineAct = Edits(edit: Edit) | Submit | CancelLine

  datatype Modal = ListModal | LineModal

  /** An entry of a table. */
  datatype TableKey<A> = TableKey(key: KeyPress, act: A, hint: Option<string>)

  type Table<A> = seq<TableKey<A>>

  datatype Modes = Modes(list: Table<ListAct>, line: Table<LineAct>)

  const NO_MODES := Modes([], [])

  /** The actions of a list and of a line by the names a config gives them. */
  const LIST_NAMES: seq<(string, ListAct)> := [
    ("up", Moves(Move.Up)), ("down", Moves(Move.Down)),
    ("page-up", Moves(Move.PageUp)), ("page-down", Moves(Move.PageDown)),
    ("first", Moves(Move.First)), ("last", Moves(Move.Last)), ("choose", Choose), ("cancel", Cancel)
  ]

  const LINE_NAMES: seq<(string, LineAct)> := [
    ("left", Edits(Edit.Left)), ("right", Edits(Edit.Right)), ("home", Edits(Edit.Home)), ("end", Edits(Edit.End)),
    ("backspace", Edits(Edit.Backspace)), ("delete", Edits(Edit.Delete)), ("submit", Submit), ("cancel", CancelLine)
  ]

  /** The action first named `name`. */
  function Named<A>(names: seq<(string, A)>, name: string): Option<A> {
    if names == [] then None else if names[0].0 == name then Some(names[0].1) else Named(names[1..], name)
  }

  /** The first name of `act`, or no text. */
  function NameOf<A(==)>(names: seq<(string, A)>, act: A): string {
    if names == [] then "" else if names[0].1 == act then names[0].0 else NameOf(names[1..], act)
  }

  /** Where `key` is in a table, or how many keys it has. */
  function KeyIndex<A>(table: Table<A>, key: KeyPress): (i: nat)
    ensures i <= |table|
    ensures i < |table| ==> table[i].key == key
    ensures forall j | 0 <= j < i :: table[j].key != key
  {
    if table == [] || table[0].key == key then 0 else 1 + KeyIndex(table[1..], key)
  }

  /** A table with an entry replaced or added, without a hint. */
  function TableBind<A>(table: Table<A>, key: KeyPress, act: A): Table<A> {
    var i := KeyIndex(table, key);
    if i < |table| then table[i := TableKey(key, act, None)] else table + [TableKey(key, act, None)]
  }

  function TableUnbind<A>(table: Table<A>, key: KeyPress): Table<A> {
    if table == [] then []
    else if table[0].key == key then TableUnbind(table[1..], key)
    else [table[0]] + TableUnbind(table[1..], key)
  }

  /** A press looked up: exactly, and then, unless it is a letter, without its modifiers. */
  function TableGet<A>(table: Table<A>, press: KeyPress, escape: A): Option<A> {
    if press.key == Escape then Some(escape)
    else
      var i := KeyIndex(table, press);
      var j := KeyIndex(table, KeyPress(press.key, NO_MODIFIERS));
      if i < |table| then Some(table[i].act)
      else if !press.key.Char? && j < |table| then Some(table[j].act)
      else None
  }

  /** A screen's keys are each bound once, and Escape is none of them: it always leaves. */
  ghost predicate SoundTable<A>(table: Table<A>) {
    && (forall i, j | 0 <= i < j < |table| :: table[i].key != table[j].key)
    && forall i | 0 <= i < |table| :: table[i].key.key != Escape
  }

  /** A config makes no other action: one it names, or a code value given nothing first. */
  ghost predicate Sound(modes: Modes) {
    && SoundTable(modes.list)
    && SoundTable(modes.line)
    && (forall i | 0 <= i < |modes.list| :: ListActConfigured(modes.list[i].act))
    && (forall i | 0 <= i < |modes.line| :: LineActConfigured(modes.line[i].act))
  }

  ghost predicate ListActConfigured(act: ListAct) {
    act.Action? ==> act.callback.args == []
  }

  ghost predicate LineActConfigured(act: LineAct) {
    act.Edits? ==> !act.edit.Insert?
  }

  lemma {:induction false} ListNamesRoundTrip(act: ListAct)
    requires !act.Action?
    ensures Named(LIST_NAMES, NameOf(LIST_NAMES, act)) == Some(act)
  {
    var i := match act
      case Moves(move) => (
        match move case Up => 0 case Down => 1 case PageUp => 2 case PageDown => 3 case First => 4 case Last => 5)
      case Choose => 6
      case _ => 7;
    assert LIST_NAMES[i].1 == act;
    NamedIs(LIST_NAMES, i);
    NameOfIs(LIST_NAMES, i);
  }

  lemma {:induction false} LineNamesRoundTrip(act: LineAct)
    requires LineActConfigured(act)
    ensures Named(LINE_NAMES, NameOf(LINE_NAMES, act)) == Some(act)
  {
    var i := match act
      case Edits(edit) => (
        match edit case Left => 0 case Right => 1 case Home => 2 case End => 3 case Backspace => 4 case _ => 5)
      case Submit => 6
      case CancelLine => 7;
    assert LINE_NAMES[i].1 == act;
    NamedIs(LINE_NAMES, i);
    NameOfIs(LINE_NAMES, i);
  }

  lemma {:induction false} NamedIs<A>(names: seq<(string, A)>, i: nat)
    requires i < |names| && forall j | 0 <= j < i :: names[j].0 != names[i].0
    ensures Named(names, names[i].0) == Some(names[i].1)
  {
    if i > 0 {
      NamedIs(names[1..], i - 1);
    }
  }

  lemma {:induction false} NameOfIs<A>(names: seq<(string, A)>, i: nat)
    requires i < |names| && forall j | 0 <= j < i :: names[j].1 != names[i].1
    ensures NameOf(names, names[i].1) == names[i].0
  {
    if i > 0 {
      NameOfIs(names[1..], i - 1);
    }
  }

  lemma {:induction false} NamedIsConfigured(name: string)
    ensures Named(LIST_NAMES, name).Some? ==> !Named(LIST_NAMES, name).value.Action?
    ensures Named(LINE_NAMES, name).Some? ==> LineActConfigured(Named(LINE_NAMES, name).value)
  {
    NamedIsOne(LIST_NAMES, name);
    NamedIsOne(LINE_NAMES, name);
  }

  lemma {:induction false} NamedIsOne<A>(names: seq<(string, A)>, name: string)
    ensures Named(names, name).Some? ==> exists i | 0 <= i < |names| :: names[i].1 == Named(names, name).value
  {
    if names != [] && names[0].0 != name {
      NamedIsOne(names[1..], name);
    }
  }

  lemma {:induction false} UnbindKeepsSound<A>(table: Table<A>, key: KeyPress)
    requires SoundTable(table)
    ensures SoundTable(TableUnbind(table, key))
    ensures forall t | t in TableUnbind(table, key) :: t in table
  {
    if table != [] {
      UnbindKeepsSound(table[1..], key);
      forall t | t in table[1..] ensures t.key != table[0].key {
        var j :| 0 <= j < |table[1..]| && table[1..][j] == t;
        assert table[j + 1] == t;
      }
    }
  }
}
