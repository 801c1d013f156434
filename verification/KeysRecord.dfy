/**
 * The `keys` record a client answers (`record` of src/keymap.rs), and how deep a value may nest to
 * be read from the wire (`Data::read` of fux-wire/src/callback.rs).
 */
module KeysRecord {
  import opened Keys
  import opened Trie
  import opened TrieOrder
  import opened Modes
  import opened Keymap
  import opened KeymapSound

  function EntryRecord(slot: Slot): Data
    decreases slot, 1
  {
    match slot.entry
    case Run(binding) =>
      Record([("kind", Text("binding")), ("key", Names([slot.key])), ("code", CodeData(binding.code)),
              ("label", Text(binding.caption)), ("group", Text(binding.group))])
    case Holds(m) =>
      Record([("kind", Text("map")), ("key", Names([slot.key])), ("repeat", Bool(m.repeat)),
              ("keymap", List(EntryRecords(m.keys)))])
  }

  /** One record for each slot of a map. */
  function EntryRecords(keys: seq<Slot>): seq<Data>
    decreases keys, 0
  {
    if keys == [] then [] else [EntryRecord(keys[0])] + EntryRecords(keys[1..])
  }

  function TableRecord(key: KeyPress, name: Data, code: Data, hint: Option<string>): Data {
    Record([("key", Names([key])), ("action", name), ("code", code),
            ("label", match hint case None => Null case Some(text) => Text(text))])
  }

  function ListRecords(table: Table<ListAct>): seq<Data> {
    if table == [] then []
    else
      [if table[0].act.Action? then TableRecord(table[0].key, Null, CodeData(table[0].act.callback.code), table[0].hint)
       else TableRecord(table[0].key, Text(NameOf(LIST_NAMES, table[0].act)), Null, table[0].hint)]
      + ListRecords(table[1..])
  }

  function LineRecords(table: Table<LineAct>): seq<Data> {
    if table == [] then []
    else
      [TableRecord(table[0].key, Text(NameOf(LINE_NAMES, table[0].act)), Null, table[0].hint)] + LineRecords(table[1..])
  }

  function KeysRecord(root: Map, modes: Modes, at: Path): Data {
    Record([("at", Names(at)), ("keymap", List(EntryRecords(root.keys))),
            ("list", List(ListRecords(modes.list))), ("line", List(LineRecords(modes.line)))])
  }

  /** Whether a value is read whole, each nested value taking one of `depth`. */
  predicate Reads(data: Data, depth: nat)
    decreases data
  {
    && depth > 0
    && match data
       case List(items) => (forall i | 0 <= i < |items| :: Reads(items[i], depth - 1))
       case Record(fields) =>
         forall i | 0 <= i < |fields| ::
           var (_, value) := fields[i]; assert value < fields[i]; Reads(value, depth - 1)
       case _ => true
  }

  lemma {:induction false} EntryReads(slot: Slot, depth: nat)
    ensures Reads(EntryRecord(slot), depth) <==> 2 * Depth(slot.entry) <= depth
    decreases slot, 1
  {
    match slot.entry
    case Run(binding) =>
      LeavesRead(EntryRecord(slot), depth);
    case Holds(m) =>
      if depth >= 2 {
        EntriesRead(m.keys, depth - 2);
        var fields := EntryRecord(slot).fields;
        assert fields[3].1 == List(EntryRecords(m.keys));
        assert Reads(fields[3].1, depth - 1) <==>
               forall i | 0 <= i < |EntryRecords(m.keys)| :: Reads(EntryRecords(m.keys)[i], depth - 2);
        assert forall i | 0 <= i < 3 :: Reads(fields[i].1, depth - 1);
        assert Reads(EntryRecord(slot), depth) <==> Reads(fields[3].1, depth - 1);
      } else if depth == 1 {
        assert !Reads(EntryRecord(slot).fields[0].1, 0);
      }
  }

  lemma {:induction false} LeavesRead(data: Data, depth: nat)
    requires data.Record? && data.fields != []
    requires forall i | 0 <= i < |data.fields| :: !data.fields[i].1.List? && !data.fields[i].1.Record?
    ensures Reads(data, depth) <==> 2 <= depth
  {
    if depth == 1 {
      assert !Reads(data.fields[0].1, 0);
    }
  }

  lemma {:induction false} EntriesRead(keys: seq<Slot>, depth: nat)
    ensures (forall i | 0 <= i < |EntryRecords(keys)| :: Reads(EntryRecords(keys)[i], depth)) <==>
            2 * DeepestOf(keys) <= depth
    decreases keys, 0
  {
    if keys != [] {
      assert keys[0] in keys;
      EntryReads(keys[0], depth);
      EntriesRead(keys[1..], depth);
      var rest := EntryRecords(keys[1..]);
      assert EntryRecords(keys) == [EntryRecord(keys[0])] + rest;
      assert forall i | 0 <= i < |rest| :: EntryRecords(keys)[i + 1] == rest[i];
      if Reads(EntryRecord(keys[0]), depth) && forall i | 0 <= i < |rest| :: Reads(rest[i], depth) {
        forall i | 0 <= i < |EntryRecords(keys)| ensures Reads(EntryRecords(keys)[i], depth) {
          assert i > 0 ==> EntryRecords(keys)[i] == rest[i - 1];
        }
      } else if i :| 0 <= i < |rest| && !Reads(rest[i], depth) {
        assert !Reads(EntryRecords(keys)[i + 1], depth);
      } else {
        assert !Reads(EntryRecords(keys)[0], depth);
      }
    }
  }

  lemma {:induction false} TablesRead(modes: Modes, depth: nat)
    requires depth >= 2
    ensures forall i | 0 <= i < |ListRecords(modes.list)| :: Reads(ListRecords(modes.list)[i], depth)
    ensures forall i | 0 <= i < |LineRecords(modes.line)| :: Reads(LineRecords(modes.line)[i], depth)
    decreases |modes.list| + |modes.line|
  {
    if modes.list != [] {
      TablesRead(modes.(list := modes.list[1..]), depth);
      LeavesRead(ListRecords(modes.list)[0], depth);
    } else if modes.line != [] {
      TablesRead(modes.(line := modes.line[1..]), depth);
      LeavesRead(LineRecords(modes.line)[0], depth);
    }
  }

  lemma {:induction false} ListReads(items: seq<Data>, depth: nat)
    ensures Reads(List(items), depth + 1) <==> forall i | 0 <= i < |items| :: Reads(items[i], depth)
  {
  }

  lemma {:induction false} FourRead(a: (string, Data), b: (string, Data), c: (string, Data), d: (string, Data),
        depth: nat)
    requires Reads(a.1, depth) && Reads(c.1, depth) && Reads(d.1, depth)
    ensures Reads(Record([a, b, c, d]), depth + 1) <==> Reads(b.1, depth)
  {
    var fields := [a, b, c, d];
    assert fields[0] == a && fields[1] == b && fields[2] == c && fields[3] == d;
  }

  /** The record of a keymap is read from the wire exactly when no key is past the deepest. */
  lemma {:induction false} RecordReads(root: Map, modes: Modes, at: Path)
    ensures Reads(KeysRecord(root, modes, at), DEPTH + 1) <==> Within(root, DEEPEST)
  {
    EntriesRead(root.keys, DEPTH - 1);
    DeepestIs(root.keys, DEEPEST);
    assert Within(root, DEEPEST) <==> 2 * DeepestOf(root.keys) <= DEPTH - 1;
    TablesRead(modes, DEPTH - 1);
    ListReads(EntryRecords(root.keys), DEPTH - 1);
    ListReads(ListRecords(modes.list), DEPTH - 1);
    ListReads(LineRecords(modes.line), DEPTH - 1);
    FourRead(("at", Names(at)), ("keymap", List(EntryRecords(root.keys))), ("list", List(ListRecords(modes.list))),
             ("line", List(LineRecords(modes.line))), DEPTH);
  }

  /** So every keymap a config makes goes on the wire whole. */
  lemma {:induction false} EveryRecordReads(statements: seq<Statement>, at: Path)
    ensures Reads(KeysRecord(Ran(START, statements).root, Ran(START, statements).modes, at), DEPTH + 1)
  {
    EveryKeymapIsSound(START, statements);
    RecordReads(Ran(START, statements).root, Ran(START, statements).modes, at);
  }
}
