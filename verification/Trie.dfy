/** A map of keys: `Map` and `Entry` of src/keymap.rs, their lookups and their two changes. */
module Trie {
  import opened Keys

  datatype Binding = Binding(code: Code, caption: string, group: string)

  /** A key's entry: a leaf with a binding, or a node. */
  datatype Entry = Run(binding: Binding) | Holds(inner: Map)

  datatype Slot = Slot(key: KeyPress, entry: Entry)

  /** A node: slots in order of insertion, and the flag of a repeat mode. */
  datatype Map = Map(keys: seq<Slot>, repeat: bool)

  const EMPTY_MAP := Map([], false)

  datatype Refusal =
    | NoKeys
    | HoldsMap(keys: Path)
    | Starts(runs: Path, caption: string, keys: Path)
    | EscapeInMap
    | TooDeep(deep: nat)
    | NotBound(keys: Path)
    | Inside(to: Path, from: Path)
    | HoldsNoMap(keys: Path)

  datatype Result<+T> = Ok(value: T) | Err(why: Refusal)

  /** The first slot bound to `key`, or the number of slots. */
  function Index(keys: seq<Slot>, key: KeyPress): (i: nat)
    ensures i <= |keys|
    ensures i < |keys| ==> keys[i].key == key
    ensures forall j | 0 <= j < i :: keys[j].key != key
  {
    if keys == [] || keys[0].key == key then 0 else 1 + Index(keys[1..], key)
  }

  function Get(m: Map, key: KeyPress): Option<Entry> {
    var i := Index(m.keys, key);
    if i < |m.keys| then Some(m.keys[i].entry) else None
  }

  /** What the keys `path` below `entry` are; `entry` itself if there are none. */
  function At(entry: Entry, path: Path): Option<Entry>
    decreases |path|
  {
    if path == [] then Some(entry)
    else match entry
      case Run(_) => None
      case Holds(m) =>
        match Get(m, path[0])
        case None => None
        case Some(below) => At(below, path[1..])
  }

  /** The node a path leads to from `m`, if a node is there. */
  function MapAt(m: Map, path: Path): Option<Map> {
    match At(Holds(m), path)
    case Some(Holds(inner)) => Some(inner)
    case _ => None
  }

  /** The binding at `path` below `entry`, if a binding is what is there. */
  function Runs(entry: Entry, path: Path): Option<Binding> {
    match At(entry, path)
    case Some(Run(binding)) => Some(binding)
    case _ => None
  }

  function Max(a: nat, b: nat): nat { if a < b then b else a }

  /** The height of an entry, a leaf being one high. */
  function Depth(entry: Entry): nat
    decreases entry, 1
  {
    match entry
    case Run(_) => 1
    case Holds(m) => 1 + DeepestOf(m.keys)
  }

  function DeepestOf(keys: seq<Slot>): nat
    decreases keys, 0
  {
    if keys == [] then 0
    else
      var Slot(_, entry) := keys[0];
      assert entry < keys[0];
      Max(Depth(entry), DeepestOf(keys[1..]))
  }

  /** Paths with their entries, in preorder. */
  function AllOf(keys: seq<Slot>): seq<(Path, Entry)>
    decreases keys, 0
  {
    if keys == [] then []
    else
      var Slot(key, entry) := keys[0];
      assert entry < keys[0];
      Under(key, Listed(entry)) + AllOf(keys[1..])
  }

  /** An entry, at no keys, and every entry below it. */
  function Listed(entry: Entry): seq<(Path, Entry)>
    decreases entry, 1
  {
    [([], entry)] + match entry case Run(_) => [] case Holds(m) => AllOf(m.keys)
  }

  /** Listed keys, each begun with `key`. */
  function Under<T>(key: KeyPress, list: seq<(Path, T)>): (r: seq<(Path, T)>)
    ensures |r| == |list|
    ensures forall i | 0 <= i < |r| :: r[i] == ([key] + list[i].0, list[i].1)
  {
    if list == [] then [] else [([key] + list[0].0, list[0].1)] + Under(key, list[1..])
  }

  /**
   * Insertion: `rest` is the part of `keys` still to be followed from `m`. Nodes missing on the way are
   * added, and a leaf at its end is overwritten; a leaf on the way, or a node at the end, is an error.
   */
  function Put(m: Map, keys: Path, rest: Path, entry: Entry): Result<Map>
    requires |rest| <= |keys|
    decreases |rest|
  {
    if rest == [] then Err(NoKeys)
    else
      var key, after := rest[0], rest[1..];
      var i := Index(m.keys, key);
      if i == |m.keys| then
        if after == [] then Ok(m.(keys := m.keys + [Slot(key, entry)]))
        else
          match Put(EMPTY_MAP, keys, after, entry)
          case Err(why) => Err(why)
          case Ok(made) => Ok(m.(keys := m.keys + [Slot(key, Holds(made))]))
      else
        match m.keys[i].entry
        case Holds(inner) =>
          if after == [] then Err(HoldsMap(keys))
          else (
            match Put(inner, keys, after, entry)
            case Err(why) => Err(why)
            case Ok(changed) => Ok(m.(keys := m.keys[i := Slot(key, Holds(changed))])))
        case Run(binding) =>
          if after == [] then Ok(m.(keys := m.keys[i := Slot(key, entry)]))
          else Err(Starts(keys[..|keys| - |after|], binding.caption, keys))
  }

  /** The slots that hold something: all but those whose map is empty. */
  function Retain(keys: seq<Slot>): seq<Slot> {
    if keys == [] then []
    else if keys[0].entry.Holds? && keys[0].entry.inner.keys == [] then Retain(keys[1..])
    else [keys[0]] + Retain(keys[1..])
  }

  /** Deletion: the entry removed, and `m` without it or any node that had nothing else. */
  function Take(m: Map, keys: Path): Option<(Entry, Map)>
    decreases |keys|
  {
    if keys == [] then None
    else
      var i := Index(m.keys, keys[0]);
      if i == |m.keys| then None
      else
        var entry := m.keys[i].entry;
        if |keys| == 1 then
          Some((entry, m.(keys := Retain(m.keys[i := Slot(keys[0], Holds(EMPTY_MAP))]))))
        else
          match entry
          case Run(_) => None
          case Holds(inner) =>
            match Take(inner, keys[1..])
            case None => None
            case Some((taken, left)) =>
              Some((taken, m.(keys := Retain(m.keys[i := Slot(keys[0], Holds(left))]))))
  }

  // ---------------------------------------------------------------- invariants

  /** Each key is bound once, at every level, and no map a key holds is empty. */
  ghost predicate Whole(m: Map) {
    && (forall i, j | 0 <= i < j < |m.keys| :: m.keys[i].key != m.keys[j].key)
    && forall i | 0 <= i < |m.keys| :: WholeEntry(m.keys[i].entry)
  }

  ghost predicate WholeEntry(entry: Entry) {
    entry.Holds? ==> entry.inner.keys != [] && Whole(entry.inner)
  }

  /** No map below, nor this one, binds Escape: it is what leaves a map. */
  ghost predicate Leavable(entry: Entry) {
    entry.Holds? ==>
      forall i | 0 <= i < |entry.inner.keys| ::
        !entry.inner.keys[i].key.Leaves() && Leavable(entry.inner.keys[i].entry)
  }
}
