/**
 * A reader of the `keys` record, by the names of its fields alone: what it reads back is the keymap, the
 * keys of the client's screens, and the keys held (`record` of src/keymap.rs).
 */
module RecordReader {
  import opened Keys
  import opened Trie
  import opened Modes
  import opened Keymap
  import opened KeymapSound
  import opened KeysRecord

  /** The field of a name, or nothing if there is none or no record. */
  function FieldOf(data: Data, name: string): (field: Option<Data>)
    ensures field.Some? ==> field.value < data
  {
    if data.Record? then FieldAmong(data.fields, name) else None
  }

  function FieldAmong(fields: seq<(string, Data)>, name: string): (field: Option<Data>)
    ensures field.Some? ==> exists i | 0 <= i < |fields| :: fields[i] == (name, field.value)
  {
    if fields == [] then None
    else if fields[0].0 == name then Some(fields[0].1)
    else FieldAmong(fields[1..], name)
  }

  function TextIn(data: Data, name: string): Option<string> {
    match FieldOf(data, name) case Some(Text(text)) => Some(text) case _ => None
  }

  function KeyIn(data: Data): Option<KeyPress> {
    match FieldOf(data, "key") case Some(Names(keys)) => if |keys| == 1 then Some(keys[0]) else None case _ => None
  }

  // ------------------------------------------------------------------------- the keymap

  function ReadEntry(data: Data): Option<Entry>
    decreases data, 1
  {
    match TextIn(data, "kind")
    case None => None
    case Some(kind) =>
      if kind == "binding" then
        match (FieldOf(data, "code"), TextIn(data, "label"), TextIn(data, "group"))
        case (Some(CodeData(code)), Some(caption), Some(group)) => Some(Run(Binding(code, caption, group)))
        case _ => None
      else if kind == "map" then
        match (FieldOf(data, "repeat"), FieldOf(data, "keymap"))
        case (Some(Bool(repeat)), Some(List(items))) => (
          match ReadSlots(items) case Some(slots) => Some(Holds(Map(slots, repeat))) case None => None)
        case _ => None
      else None
  }

  function ReadSlots(items: seq<Data>): Option<seq<Slot>>
    decreases items, 0
  {
    if items == [] then Some([])
    else
      match (KeyIn(items[0]), ReadEntry(items[0]), ReadSlots(items[1..]))
      case (Some(key), Some(entry), Some(rest)) => Some([Slot(key, entry)] + rest)
      case _ => None
  }

  lemma {:induction false} BindingFields(slot: Slot)
    requires slot.entry.Run?
    ensures var (data, binding) := (EntryRecord(slot), slot.entry.binding);
            && FieldOf(data, "kind") == Some(Text("binding")) && FieldOf(data, "key") == Some(Names([slot.key]))
            && FieldOf(data, "code") == Some(CodeData(binding.code))
  {
    var fields := EntryRecord(slot).fields;
    FieldIs(fields, 0);
    FieldIs(fields, 1);
    FieldIs(fields, 2);
  }

  lemma {:induction false} BindingWords(slot: Slot)
    requires slot.entry.Run?
    ensures FieldOf(EntryRecord(slot), "label") == Some(Text(slot.entry.binding.caption))
    ensures FieldOf(EntryRecord(slot), "group") == Some(Text(slot.entry.binding.group))
  {
    var fields := EntryRecord(slot).fields;
    FieldIs(fields, 3);
    FieldIs(fields, 4);
  }

  /** A binding is read back with its code, its label and its group. */
  lemma {:induction false} BindingReads(slot: Slot)
    requires slot.entry.Run?
    ensures KeyIn(EntryRecord(slot)) == Some(slot.key) && ReadEntry(EntryRecord(slot)) == Some(slot.entry)
  {
    BindingFields(slot);
    BindingWords(slot);
  }

  lemma {:induction false} MapFields(slot: Slot)
    requires slot.entry.Holds?
    ensures var (data, inner) := (EntryRecord(slot), slot.entry.inner);
            && FieldOf(data, "kind") == Some(Text("map")) && FieldOf(data, "key") == Some(Names([slot.key]))
            && FieldOf(data, "repeat") == Some(Bool(inner.repeat))
            && FieldOf(data, "keymap") == Some(List(EntryRecords(inner.keys)))
  {
    var fields := EntryRecord(slot).fields;
    FieldIs(fields, 0);
    FieldIs(fields, 1);
    FieldIs(fields, 2);
    FieldIs(fields, 3);
  }

  lemma {:induction false} MapReads(slot: Slot)
    requires slot.entry.Holds?
    requires ReadSlots(EntryRecords(slot.entry.inner.keys)) == Some(slot.entry.inner.keys)
    ensures KeyIn(EntryRecord(slot)) == Some(slot.key) && ReadEntry(EntryRecord(slot)) == Some(slot.entry)
  {
    MapFields(slot);
  }

  lemma {:induction false} FieldIs(fields: seq<(string, Data)>, i: nat)
    requires i < |fields| && forall j | 0 <= j < i :: fields[j].0 != fields[i].0
    ensures FieldAmong(fields, fields[i].0) == Some(fields[i].1)
  {
    if i > 0 {
      FieldIs(fields[1..], i - 1);
    }
  }

  lemma {:induction false} SlotsRead(keys: seq<Slot>)
    ensures ReadSlots(EntryRecords(keys)) == Some(keys)
    decreases keys
  {
    if keys != [] {
      var slot := keys[0];
      match slot.entry {
        case Run(_) => BindingReads(slot);
        case Holds(inner) =>
          assert slot in keys && slot.entry < slot;
          SlotsRead(inner.keys);
          MapReads(slot);
      }
      SlotsRead(keys[1..]);
      SlotsNext(slot, EntryRecord(slot), keys[1..], EntryRecords(keys[1..]));
      assert keys == [slot] + keys[1..];
    }
  }

  lemma {:induction false} SlotsNext(slot: Slot, data: Data, rest: seq<Slot>, items: seq<Data>)
    requires KeyIn(data) == Some(slot.key) && ReadEntry(data) == Some(slot.entry) && ReadSlots(items) == Some(rest)
    ensures ReadSlots([data] + items) == Some([slot] + rest)
  {
    assert ([data] + items)[1..] == items;
  }

  // ---------------------------------------------------------------- the keys of screens

  /** A key of a table, its action by the name given it, or a code value's own. */
  function ReadKey<A>(data: Data, names: seq<(string, A)>, own: Code -> Option<A>): Option<TableKey<A>> {
    var act := match (FieldOf(data, "action"), FieldOf(data, "code"))
      case (Some(Text(name)), Some(Null)) => Named(names, name)
      case (Some(Null), Some(CodeData(code))) => own(code)
      case _ => None;
    var hint := match FieldOf(data, "label")
      case Some(Text(text)) => Some(Some(text))
      case Some(Null) => Some(None)
      case _ => None;
    match (KeyIn(data), act, hint)
    case (Some(key), Some(act), Some(hint)) => Some(TableKey(key, act, hint))
    case _ => None
  }

  function ReadTable<A>(items: seq<Data>, names: seq<(string, A)>, own: Code -> Option<A>): Option<Table<A>> {
    if items == [] then Some([])
    else
      match (ReadKey(items[0], names, own), ReadTable(items[1..], names, own))
      case (Some(key), Some(rest)) => Some([key] + rest)
      case _ => None
  }

  lemma {:induction false} TableNext<A>(t: TableKey<A>, data: Data, rest: Table<A>, items: seq<Data>,
        names: seq<(string, A)>, own: Code -> Option<A>)
    requires ReadKey(data, names, own) == Some(t) && ReadTable(items, names, own) == Some(rest)
    ensures ReadTable([data] + items, names, own) == Some([t] + rest)
  {
    assert ([data] + items)[1..] == items;
  }

  /** In a list a code value may be the action of a key; in a line none is. */
  const LIST_OWN: Code -> Option<ListAct> := code => Some(Action(Callback(code, [])))
  const LINE_OWN: Code -> Option<LineAct> := code => None

  lemma {:induction false} TableFields(key: KeyPress, name: Data, code: Data, hint: Option<string>)
    ensures var data := TableRecord(key, name, code, hint);
            && KeyIn(data) == Some(key)
            && FieldOf(data, "action") == Some(name) && FieldOf(data, "code") == Some(code)
            && FieldOf(data, "label") == Some(match hint case None => Null case Some(text) => Text(text))
  {
    var fields := TableRecord(key, name, code, hint).fields;
    FieldIs(fields, 0);
    FieldIs(fields, 1);
    FieldIs(fields, 2);
    FieldIs(fields, 3);
  }

  /** A key whose action is named, or is code. */
  lemma {:induction false} KeyReads<A>(t: TableKey<A>, name: Data, code: Data, names: seq<(string, A)>,
        own: Code -> Option<A>)
    requires || (name.Text? && code.Null? && Named(names, name.text) == Some(t.act))
             || (name.Null? && code.CodeData? && own(code.code) == Some(t.act))
    ensures ReadKey(TableRecord(t.key, name, code, t.hint), names, own) == Some(t)
  {
    TableFields(t.key, name, code, t.hint);
  }

  lemma {:induction false} ListKeyReads(t: TableKey<ListAct>)
    requires ListActConfigured(t.act)
    ensures ReadKey(ListRecords([t])[0], LIST_NAMES, LIST_OWN) == Some(t)
  {
    if t.act.Action? {
      KeyReads(t, Null, CodeData(t.act.callback.code), LIST_NAMES, LIST_OWN);
    } else {
      ListNamesRoundTrip(t.act);
      KeyReads(t, Text(NameOf(LIST_NAMES, t.act)), Null, LIST_NAMES, LIST_OWN);
    }
  }

  lemma {:induction false} ListReads(table: Table<ListAct>)
    requires forall i | 0 <= i < |table| :: ListActConfigured(table[i].act)
    ensures ReadTable(ListRecords(table), LIST_NAMES, LIST_OWN) == Some(table)
  {
    if table != [] {
      ListKeyReads(table[0]);
      ListReads(table[1..]);
      TableNext(table[0], ListRecords([table[0]])[0], table[1..], ListRecords(table[1..]), LIST_NAMES, LIST_OWN);
      assert table == [table[0]] + table[1..];
    }
  }

  lemma {:induction false} LineKeyReads(t: TableKey<LineAct>)
    requires LineActConfigured(t.act)
    ensures ReadKey(LineRecords([t])[0], LINE_NAMES, LINE_OWN) == Some(t)
  {
    LineNamesRoundTrip(t.act);
    KeyReads(t, Text(NameOf(LINE_NAMES, t.act)), Null, LINE_NAMES, LINE_OWN);
  }

  lemma {:induction false} LineReads(table: Table<LineAct>)
    requires forall i | 0 <= i < |table| :: LineActConfigured(table[i].act)
    ensures ReadTable(LineRecords(table), LINE_NAMES, LINE_OWN) == Some(table)
  {
    if table != [] {
      LineKeyReads(table[0]);
      LineReads(table[1..]);
      TableNext(table[0], LineRecords([table[0]])[0], table[1..], LineRecords(table[1..]), LINE_NAMES, LINE_OWN);
      assert table == [table[0]] + table[1..];
    }
  }

  // ------------------------------------------------------------------------- the record

  /** What a record says: the root's keys, the screens', and the keys held. */
  datatype Told = Told(slots: seq<Slot>, modes: Modes, at: Path)

  function ReadRecord(data: Data): Option<Told> {
    match (FieldOf(data, "at"), FieldOf(data, "keymap"), FieldOf(data, "list"), FieldOf(data, "line"))
    case (Some(Names(at)), Some(List(keys)), Some(List(list)), Some(List(line))) => (
      match (ReadSlots(keys), ReadTable(list, LIST_NAMES, LIST_OWN), ReadTable(line, LINE_NAMES, LINE_OWN))
      case (Some(slots), Some(ofList), Some(ofLine)) => Some(Told(slots, Modes(ofList, ofLine), at))
      case _ => None)
    case _ => None
  }

  lemma {:induction false} RecordFields(root: Map, modes: Modes, at: Path)
    ensures var data := KeysRecord.KeysRecord(root, modes, at);
            && FieldOf(data, "at") == Some(Names(at)) && FieldOf(data, "keymap") == Some(List(EntryRecords(root.keys)))
            && FieldOf(data, "list") == Some(List(ListRecords(modes.list)))
            && FieldOf(data, "line") == Some(List(LineRecords(modes.line)))
  {
    var fields := KeysRecord.KeysRecord(root, modes, at).fields;
    FieldIs(fields, 0);
    FieldIs(fields, 1);
    FieldIs(fields, 2);
    FieldIs(fields, 3);
  }

  /** The record of a keymap is read back as it: its keys at every level, the tables of its screens,
    and the path held. */
  lemma {:induction false} RecordRebuilds(root: Map, modes: Modes, at: Path)
    requires Sound(modes)
    ensures ReadRecord(KeysRecord.KeysRecord(root, modes, at)) == Some(Told(root.keys, modes, at))
  {
    RecordFields(root, modes, at);
    SlotsRead(root.keys);
    ListReads(modes.list);
    LineReads(modes.line);
    RebuildsFrom(KeysRecord.KeysRecord(root, modes, at), EntryRecords(root.keys), ListRecords(modes.list),
      LineRecords(modes.line), Told(root.keys, modes, at));
  }

  lemma {:induction false} RebuildsFrom(data: Data, keys: seq<Data>, list: seq<Data>, line: seq<Data>, told: Told)
    requires FieldOf(data, "at") == Some(Names(told.at)) && FieldOf(data, "keymap") == Some(List(keys))
    requires FieldOf(data, "list") == Some(List(list)) && FieldOf(data, "line") == Some(List(line))
    requires ReadSlots(keys) == Some(told.slots)
    requires ReadTable(list, LIST_NAMES, LIST_OWN) == Some(told.modes.list)
    requires ReadTable(line, LINE_NAMES, LINE_OWN) == Some(told.modes.line)
    ensures ReadRecord(data) == Some(told)
  {
  }

  /** So is that of every keymap a config can make. */
  lemma {:induction false} EveryRecordRebuilds(statements: seq<Statement>, at: Path)
    ensures var made := Ran(START, statements);
            ReadRecord(KeysRecord.KeysRecord(made.root, made.modes, at)) == Some(Told(made.root.keys, made.modes, at))
  {
    EveryKeymapIsSound(START, statements);
    RecordRebuilds(Ran(START, statements).root, Ran(START, statements).modes, at);
  }
}
