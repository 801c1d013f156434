/**
 * Listings of a keymap for drawing, and the loops that build them (`column`, `repeat_bar`,
 * `all` and `first` of src/keymap.rs).
 */
module Columns {
  import opened Keys
  import opened Trie
  import opened TrieView
  import opened Keymap
  import opened Describe

  /** A row of a column. */
  datatype ColumnEntry = ColumnEntry(key: KeyPress, caption: string, group: string, holds: bool)

  /** A column's rows under the keys that led to it. */
  datatype Column = Column(keys: Path, entries: seq<ColumnEntry>, selected: nat)

  /** A repeat mode's bar: its title, before it is put in capitals, and the keys that run. */
  datatype Bar = Bar(title: string, keys: Path)

  /** The binding whose group stands for a map's: the first `AllOf` lists. */
  function First(m: Map): Option<Binding> {
    var runs := RunsIn(AllOf(m.keys));
    if runs == [] then None else Some(runs[0].1)
  }

  function EntryOf(slot: Slot): Option<ColumnEntry> {
    match slot.entry
    case Run(binding) => Some(ColumnEntry(slot.key, binding.caption, binding.group, false))
    case Holds(inner) =>
      match First(inner)
      case None => None
      case Some(binding) => Some(ColumnEntry(slot.key, binding.group, binding.group, true))
  }

  function EntriesOf(keys: seq<Slot>): seq<ColumnEntry> {
    if keys == [] then []
    else
      var last := |keys| - 1;
      EntriesOf(keys[..last]) + match EntryOf(keys[last]) case None => [] case Some(entry) => [entry]
  }

  /** The groups of entries in the order first met, without the one listed last. */
  function GroupsOf(entries: seq<ColumnEntry>): seq<string> {
    if entries == [] then []
    else
      var last := |entries| - 1;
      var groups := GroupsOf(entries[..last]);
      if entries[last].group in groups || entries[last].group == OTHER_GROUP then groups
      else groups + [entries[last].group]
  }

  function Position(groups: seq<string>, group: string): (i: nat)
    ensures i <= |groups|
    ensures i < |groups| ==> groups[i] == group
    ensures forall j | 0 <= j < i :: groups[j] != group
  {
    if groups == [] || groups[0] == group then 0 else 1 + Position(groups[1..], group)
  }

  /** The entries whose group is at `rank`, in order. */
  function AtRank(entries: seq<ColumnEntry>, groups: seq<string>, rank: nat): seq<ColumnEntry> {
    if entries == [] then []
    else (if Position(groups, entries[0].group) == rank then [entries[0]] else []) + AtRank(entries[1..], groups, rank)
  }

  /** The entries whose group is before `ranks`, by the place of their group, else as they were. */
  function ByRank(entries: seq<ColumnEntry>, groups: seq<string>, ranks: nat): seq<ColumnEntry> {
    if ranks == 0 then [] else ByRank(entries, groups, ranks - 1) + AtRank(entries, groups, ranks - 1)
  }

  /** Rows by group: a group stands where its first row did, but for `Other`, which ends them. */
  function Grouped(entries: seq<ColumnEntry>): seq<ColumnEntry> {
    var groups := GroupsOf(entries) + [OTHER_GROUP];
    ByRank(entries, groups, |groups|)
  }

  function Clamp(selected: nat, count: nat): nat {
    var last := if count == 0 then 0 else count - 1;
    if selected < last then selected else last
  }

  function ColumnAt(root: Map, path: Path, selected: nat): Option<Column> {
    match MapAt(root, path)
    case None => None
    case Some(m) =>
      var entries := Grouped(EntriesOf(m.keys));
      Some(Column(path, entries, Clamp(selected, |entries|)))
  }

  /** A map's keys that run, in order. */
  function Running(keys: seq<Slot>): seq<Slot> {
    if keys == [] then []
    else
      var last := |keys| - 1;
      Running(keys[..last]) + if keys[last].entry.Run? then [keys[last]] else []
  }

  function KeysOf(slots: seq<Slot>): Path {
    seq(|slots|, i requires 0 <= i < |slots| => slots[i].key)
  }

  function BarAt(root: Map, path: Path): Option<Bar> {
    match MapAt(root, path)
    case None => None
    case Some(m) =>
      var running := Running(m.keys);
      if !m.repeat || running == [] || !running[0].entry.Run? then None
      else Some(Bar(running[0].entry.binding.group, KeysOf(running)))
  }

  // --------------------------------------------------------------- as they run

  /** Every key below a map, each map's own before its keys. */
  method All(m: Map) returns (all: seq<(Path, Entry)>)
    ensures all == AllOf(m.keys)
    decreases m
  {
    all := [];
    for i := 0 to |m.keys|
      invariant all == AllOf(m.keys[..i])
    {
      var slot := m.keys[i];
      assert slot in m.keys && slot.entry < slot;
      all := all + [([slot.key], slot.entry)];
      if slot.entry.Holds? {
        var below := All(slot.entry.inner);
        all := all + Under(slot.key, below);
      }
      AllOfSnoc(m.keys[..i], slot);
      assert m.keys[..i + 1] == m.keys[..i] + [slot];
    }
    assert m.keys[..|m.keys|] == m.keys;
  }

  lemma {:induction false} AllOfSnoc(keys: seq<Slot>, slot: Slot)
    ensures AllOf(keys + [slot]) == AllOf(keys) + [([slot.key], slot.entry)]
              + (if slot.entry.Holds? then Under(slot.key, AllOf(slot.entry.inner.keys)) else [])
  {
    if keys == [] {
      assert [slot][1..] == [];
      assert [slot.key] + [] == [slot.key];
    } else {
      assert (keys + [slot])[1..] == keys[1..] + [slot];
      AllOfSnoc(keys[1..], slot);
    }
  }

  method FirstOf(m: Map) returns (first: Option<Binding>)
    ensures first == First(m)
  {
    var all := All(m);
    first := None;
    for i := 0 to |all|
      invariant RunsIn(all) == RunsIn(all[i..])
    {
      if all[i].1.Run? {
        return Some(all[i].1.binding);
      }
      assert all[i..][1..] == all[i + 1..];
    }
  }

  method ColumnOf(root: Map, path: Path, selected: nat) returns (column: Option<Column>)
    ensures column == ColumnAt(root, path, selected)
  {
    var map' := MapAt(root, path);
    if map'.None? {
      return None;
    }
    var keys := map'.value.keys;
    var entries := [];
    for i := 0 to |keys|
      invariant entries == EntriesOf(keys[..i])
    {
      assert keys[..i + 1][..i] == keys[..i];
      var entry := None;
      match keys[i].entry {
        case Run(binding) => entry := Some(ColumnEntry(keys[i].key, binding.caption, binding.group, false));
        case Holds(inner) =>
          var first := FirstOf(inner);
          if first.Some? {
            entry := Some(ColumnEntry(keys[i].key, first.value.group, first.value.group, true));
          }
      }
      if entry.Some? {
        entries := entries + [entry.value];
      }
    }
    assert keys[..|keys|] == keys;
    var groups := [];
    for i := 0 to |entries|
      invariant groups == GroupsOf(entries[..i])
    {
      assert entries[..i + 1][..i] == entries[..i];
      if entries[i].group !in groups && entries[i].group != OTHER_GROUP {
        groups := groups + [entries[i].group];
      }
    }
    assert entries[..|entries|] == entries;
    groups := groups + [OTHER_GROUP];
    var sorted := ByRank(entries, groups, |groups|);
    return Some(Column(path, sorted, Clamp(selected, |sorted|)));
  }

  method BarOf(root: Map, path: Path) returns (bar: Option<Bar>)
    ensures bar == BarAt(root, path)
  {
    var map' := MapAt(root, path);
    if map'.None? || !map'.value.repeat {
      return None;
    }
    var slots := map'.value.keys;
    var keys: Path, title: Option<string> := [], None;
    for i := 0 to |slots|
      invariant keys == KeysOf(Running(slots[..i]))
      invariant RunningRuns(slots[..i])
      invariant title == if keys == [] then None else Some(Running(slots[..i])[0].entry.binding.group)
    {
      assert slots[..i + 1][..i] == slots[..i];
      match slots[i].entry {
        case Run(binding) =>
          keys := keys + [slots[i].key];
          if title.None? {
            title := Some(binding.group);
          }
        case Holds(_) =>
      }
    }
    assert slots[..|slots|] == slots;
    return if title.None? then None else Some(Bar(title.value, keys));
  }

  ghost predicate RunningRuns(slots: seq<Slot>) {
    forall i | 0 <= i < |Running(slots)| :: Running(slots)[i].entry.Run?
  }

  // ------------------------------------------------------- what a column shows

  /** Grouping is a stable sort: by the place of each group, and within one as the keys were bound. */
  lemma {:induction false} GroupedIsStable(entries: seq<ColumnEntry>, rank: nat)
    ensures var groups := GroupsOf(entries) + [OTHER_GROUP];
            && AtRank(Grouped(entries), groups, rank) == AtRank(entries, groups, rank)
            && (forall i, j | 0 <= i < j < |Grouped(entries)| ::
                  Position(groups, Grouped(entries)[i].group) <= Position(groups, Grouped(entries)[j].group))
  {
    var groups := GroupsOf(entries) + [OTHER_GROUP];
    GroupsCover(entries);
    ByRankIsSorted(entries, groups, |groups|);
    ByRankKeeps(entries, groups, |groups|, rank);
    AtRankPast(entries, groups, rank);
  }

  lemma {:induction false} GroupsCover(entries: seq<ColumnEntry>)
    ensures forall i | 0 <= i < |entries| :: entries[i].group in GroupsOf(entries) + [OTHER_GROUP]
  {
    if entries != [] {
      GroupsCover(entries[..|entries| - 1]);
      assert forall i | 0 <= i < |entries| - 1 :: entries[i] == entries[..|entries| - 1][i];
    }
  }

  lemma {:induction false} AtRankIs(entries: seq<ColumnEntry>, groups: seq<string>, rank: nat)
    ensures forall i | 0 <= i < |AtRank(entries, groups, rank)| ::
              Position(groups, AtRank(entries, groups, rank)[i].group) == rank
  {
    if entries != [] {
      AtRankIs(entries[1..], groups, rank);
    }
  }

  lemma {:induction false} ByRankIsSorted(entries: seq<ColumnEntry>, groups: seq<string>, ranks: nat)
    ensures forall i | 0 <= i < |ByRank(entries, groups, ranks)| ::
              Position(groups, ByRank(entries, groups, ranks)[i].group) < ranks
    ensures forall i, j | 0 <= i < j < |ByRank(entries, groups, ranks)| ::
              Position(groups, ByRank(entries, groups, ranks)[i].group)
              <= Position(groups, ByRank(entries, groups, ranks)[j].group)
  {
    if ranks > 0 {
      ByRankIsSorted(entries, groups, ranks - 1);
      AtRankIs(entries, groups, ranks - 1);
    }
  }

  lemma {:induction false} AtRankAppend(a: seq<ColumnEntry>, b: seq<ColumnEntry>, groups: seq<string>, rank: nat)
    ensures AtRank(a + b, groups, rank) == AtRank(a, groups, rank) + AtRank(b, groups, rank)
  {
    if a == [] {
      assert a + b == b;
    } else {
      assert (a + b)[1..] == a[1..] + b;
      AtRankAppend(a[1..], b, groups, rank);
    }
  }

  lemma {:induction false} AtRankAll(entries: seq<ColumnEntry>, groups: seq<string>, at: nat, rank: nat)
    requires forall i | 0 <= i < |entries| :: Position(groups, entries[i].group) == at
    ensures AtRank(entries, groups, rank) == if rank == at then entries else []
  {
    if entries != [] {
      AtRankAll(entries[1..], groups, at, rank);
    }
  }

  lemma {:induction false} AtRankOfRank(entries: seq<ColumnEntry>, groups: seq<string>, at: nat, rank: nat)
    ensures AtRank(AtRank(entries, groups, at), groups, rank) == if rank == at then AtRank(entries, groups, at) else []
  {
    AtRankIs(entries, groups, at);
    AtRankAll(AtRank(entries, groups, at), groups, at, rank);
  }

  lemma {:induction false} ByRankKeeps(entries: seq<ColumnEntry>, groups: seq<string>, ranks: nat, rank: nat)
    ensures AtRank(ByRank(entries, groups, ranks), groups, rank) ==
            if rank < ranks then AtRank(entries, groups, rank) else []
  {
    if ranks > 0 {
      ByRankKeeps(entries, groups, ranks - 1, rank);
      AtRankOneMore(ByRank(entries, groups, ranks - 1), entries, groups, ranks - 1, rank);
    }
  }

  lemma {:induction false} AtRankOneMore(before: seq<ColumnEntry>, entries: seq<ColumnEntry>, groups: seq<string>,
        at: nat, rank: nat)
    ensures AtRank(before + AtRank(entries, groups, at), groups, rank) ==
            AtRank(before, groups, rank) + if rank == at then AtRank(entries, groups, at) else []
  {
    AtRankAppend(before, AtRank(entries, groups, at), groups, rank);
    AtRankOfRank(entries, groups, at, rank);
  }

  lemma {:induction false} AtRankPast(entries: seq<ColumnEntry>, groups: seq<string>, rank: nat)
    requires forall i | 0 <= i < |entries| :: entries[i].group in groups
    ensures rank >= |groups| ==> AtRank(entries, groups, rank) == []
  {
    if entries != [] {
      assert forall i | 0 <= i < |entries[1..]| :: entries[1..][i] == entries[i + 1];
      AtRankPast(entries[1..], groups, rank);
      assert entries[0].group in groups;
    }
  }

  lemma {:induction false} InAtRank(entries: seq<ColumnEntry>, groups: seq<string>, rank: nat, entry: ColumnEntry)
    ensures entry in AtRank(entries, groups, rank) <==> entry in entries && Position(groups, entry.group) == rank
  {
    if entries != [] {
      InAtRank(entries[1..], groups, rank, entry);
      assert entry in entries <==> entry == entries[0] || entry in entries[1..];
    }
  }

  lemma {:induction false} InEither<T>(a: seq<T>, b: seq<T>, t: T)
    ensures t in a + b <==> t in a || t in b
  {
  }

  lemma {:induction false} InByRank(entries: seq<ColumnEntry>, groups: seq<string>, ranks: nat, entry: ColumnEntry)
    ensures entry in ByRank(entries, groups, ranks) <==> entry in entries && Position(groups, entry.group) < ranks
  {
    if ranks > 0 {
      InByRank(entries, groups, ranks - 1, entry);
      InAtRank(entries, groups, ranks - 1, entry);
      InEither(ByRank(entries, groups, ranks - 1), AtRank(entries, groups, ranks - 1), entry);
    }
  }

  lemma {:induction false} ByRankLength(entries: seq<ColumnEntry>, groups: seq<string>, ranks: nat)
    requires entries != []
    ensures |ByRank(entries, groups, ranks)| ==
            |ByRank(entries[1..], groups, ranks)| + (if Position(groups, entries[0].group) < ranks then 1 else 0)
  {
    if ranks > 0 {
      ByRankLength(entries, groups, ranks - 1);
    }
  }

  lemma {:induction false} ByRankIsAll(entries: seq<ColumnEntry>, groups: seq<string>)
    requires forall i | 0 <= i < |entries| :: entries[i].group in groups
    ensures |ByRank(entries, groups, |groups|)| == |entries|
  {
    if entries == [] {
      ByRankOfNone(groups, |groups|);
    } else {
      assert forall i | 0 <= i < |entries[1..]| :: entries[1..][i] == entries[i + 1];
      ByRankIsAll(entries[1..], groups);
      assert entries[0].group in groups;
      ByRankLength(entries, groups, |groups|);
    }
  }

  lemma {:induction false} ByRankOfNone(groups: seq<string>, ranks: nat)
    ensures ByRank([], groups, ranks) == []
  {
    if ranks > 0 {
      ByRankOfNone(groups, ranks - 1);
    }
  }

  /** Grouping neither drops nor repeats an entry. */
  lemma {:induction false} GroupedIsAll(entries: seq<ColumnEntry>, entry: ColumnEntry)
    ensures |Grouped(entries)| == |entries|
    ensures entry in Grouped(entries) <==> entry in entries
  {
    var groups := GroupsOf(entries) + [OTHER_GROUP];
    GroupsCover(entries);
    ByRankIsAll(entries, groups);
    InByRank(entries, groups, |groups|, entry);
    if entry in entries {
      var i :| 0 <= i < |entries| && entries[i] == entry;
      assert entries[i].group in groups;
    }
  }

  /** Where a group is first met. */
  function FirstMet(entries: seq<ColumnEntry>, group: string): (i: nat)
    ensures i <= |entries|
    ensures i < |entries| ==> entries[i].group == group
    ensures forall j | 0 <= j < i :: entries[j].group != group
  {
    if entries == [] || entries[0].group == group then 0 else 1 + FirstMet(entries[1..], group)
  }

  /** Groups in the order first met, `Other` not among them. */
  ghost predicate InOrderMet(entries: seq<ColumnEntry>, groups: seq<string>) {
    && OTHER_GROUP !in groups
    && (forall p | 0 <= p < |groups| :: FirstMet(entries, groups[p]) < |entries|)
    && (forall p, q | 0 <= p < q < |groups| :: FirstMet(entries, groups[p]) < FirstMet(entries, groups[q]))
  }

  lemma {:induction false} GroupsAreMet(entries: seq<ColumnEntry>)
    ensures InOrderMet(entries, GroupsOf(entries))
  {
    if entries != [] {
      var n := |entries| - 1;
      GroupsAreMet(entries[..n]);
      StaysMet(entries, GroupsOf(entries[..n]));
      if entries[n].group !in GroupsOf(entries[..n]) && entries[n].group != OTHER_GROUP {
        MetLast(entries);
      }
    }
  }

  lemma {:induction false} StaysMet(entries: seq<ColumnEntry>, groups: seq<string>)
    requires entries != [] && InOrderMet(entries[..|entries| - 1], groups)
    ensures InOrderMet(entries, groups)
    ensures forall p | 0 <= p < |groups| :: FirstMet(entries, groups[p]) < |entries| - 1
  {
    forall p | 0 <= p < |groups| ensures FirstMet(entries, groups[p]) == FirstMet(entries[..|entries| - 1], groups[p]) {
      MetBefore(entries, groups[p]);
    }
  }

  lemma {:induction false} MetBefore(entries: seq<ColumnEntry>, group: string)
    requires entries != [] && FirstMet(entries[..|entries| - 1], group) < |entries| - 1
    ensures FirstMet(entries, group) == FirstMet(entries[..|entries| - 1], group)
  {
    var before := entries[..|entries| - 1];
    var i := FirstMet(before, group);
    assert entries[i] == before[i] && forall j | 0 <= j < i :: entries[j] == before[j];
  }

  lemma {:induction false} MetLast(entries: seq<ColumnEntry>)
    requires entries != [] && entries[|entries| - 1].group != OTHER_GROUP
    requires entries[|entries| - 1].group !in GroupsOf(entries[..|entries| - 1])
    ensures FirstMet(entries, entries[|entries| - 1].group) == |entries| - 1
  {
    var before := entries[..|entries| - 1];
    GroupsCover(before);
    forall i | 0 <= i < |before| ensures entries[i].group != entries[|before|].group {
      assert entries[i] == before[i];
    }
  }

  /** In a column the groups stand in the order first met, whatever is in `Other` last. */
  lemma {:induction false} GroupsInOrder(entries: seq<ColumnEntry>, i: nat, j: nat)
    requires i < j < |Grouped(entries)| && Grouped(entries)[i].group != Grouped(entries)[j].group
    ensures var (first, second) := (Grouped(entries)[i].group, Grouped(entries)[j].group);
            && first != OTHER_GROUP
            && (second == OTHER_GROUP || FirstMet(entries, first) < FirstMet(entries, second))
  {
    var groups := GroupsOf(entries) + [OTHER_GROUP];
    GroupedIsStable(entries, 0);
    GroupsAreMet(entries);
    GroupsCover(entries);
    GroupedIsAll(entries, Grouped(entries)[i]);
    GroupedIsAll(entries, Grouped(entries)[j]);
    PositionIn(groups, Grouped(entries)[i].group);
    PositionIn(groups, Grouped(entries)[j].group);
  }

  lemma {:induction false} PositionIn(groups: seq<string>, group: string)
    requires group in groups
    ensures Position(groups, group) < |groups|
  {
  }

  /** Every map below a sound root has a first binding, so its key is listed. */
  lemma {:induction false} EntriesShowEveryKey(keys: seq<Slot>)
    requires forall i | 0 <= i < |keys| :: WholeEntry(keys[i].entry)
    ensures |EntriesOf(keys)| == |keys|
    ensures forall i | 0 <= i < |keys| :: EntriesOf(keys)[i].key == keys[i].key
    ensures forall i | 0 <= i < |keys| :: EntriesOf(keys)[i].holds == keys[i].entry.Holds?
  {
    if keys != [] {
      var last := |keys| - 1;
      EntriesShowEveryKey(keys[..last]);
      assert WholeEntry(keys[last].entry);
      if keys[last].entry.Holds? {
        var p := SomethingRuns(keys[last].entry);
        BoundHas(keys[last].entry, p);
        AllOfIs(keys[last].entry.inner.keys);
      }
    }
  }

  /** A map's column shows each of its keys once, and nothing else; and no map's column is empty. */
  lemma {:induction false} ColumnShowsEveryKey(root: Map, path: Path, selected: nat)
    requires Whole(root) && path != [] && MapAt(root, path).Some?
    ensures ColumnAt(root, path, selected).Some?
    ensures var column, m := ColumnAt(root, path, selected).value, MapAt(root, path).value;
            && column.keys == path
            && |column.entries| == |m.keys| > 0
            && column.selected < |column.entries|
            && (forall i | 0 <= i < |column.entries| :: Get(m, column.entries[i].key).Some?)
            && (forall k :: Get(m, k).Some? ==> exists i | 0 <= i < |column.entries| :: column.entries[i].key == k)
  {
    var m := MapAt(root, path).value;
    WholeAt(Holds(root), path);
    var entries := EntriesOf(m.keys);
    EntriesShowEveryKey(m.keys);
    var grouped := Grouped(entries);
    GroupedIsAll(entries, entries[0]);
    forall i | 0 <= i < |grouped| ensures Get(m, grouped[i].key).Some? {
      GroupedIsAll(entries, grouped[i]);
      var j :| 0 <= j < |entries| && entries[j] == grouped[i];
      assert m.keys[j].key == grouped[i].key;
    }
    forall k | Get(m, k).Some? ensures exists i | 0 <= i < |grouped| :: grouped[i].key == k {
      GroupedIsAll(entries, entries[Index(m.keys, k)]);
    }
  }
}
