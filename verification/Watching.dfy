/**
 * What a terminal's reader has seen (`Seen`, `found`, `read` and `Terminal::watch` of
 * bench/src/terminal.rs): paints counted and a pattern watched for, however reads split the stream.
 */
module Watching {
  import opened Sequences
  import opened TextFilter

  datatype Option<T> = None | Some(value: T)

  /** How a paint begins: CSI ? 2026 h. */
  const BEGIN: Bytes := [0x1b, 0x5b, 0x3f, 0x32, 0x30, 0x32, 0x36, 0x68]

  /** How much of what was read is kept, to find what reads split. */
  const KEPT: nat := 64

  // -------------------------------------------------------------------- occurrences

  predicate Starts(window: Bytes, pattern: Bytes, i: nat) {
    i + |pattern| <= |window| && window[i..i + |pattern|] == pattern
  }

  /** How often the pattern starts from `from` to before `past`. */
  function CountStarts(window: Bytes, pattern: Bytes, from: nat, past: nat): nat
    decreases past - from
  {
    if past <= from then 0
    else CountStarts(window, pattern, from, past - 1) + if Starts(window, pattern, past - 1) then 1 else 0
  }

  /** How often a pattern is in a stream, overlapping itself or not; an empty one never is. */
  function Occurrences(window: Bytes, pattern: Bytes): nat {
    if pattern == [] then 0 else CountStarts(window, pattern, 0, |window|)
  }

  /** Where an occurrence that ends past `looked` can start. */
  function FirstPast(looked: nat, pattern: Bytes): nat { if |pattern| > looked then 0 else looked - |pattern| + 1 }

  lemma {:induction false} CountJoins(window: Bytes, pattern: Bytes, a: nat, b: nat, c: nat)
    requires a <= b <= c
    ensures CountStarts(window, pattern, a, c) ==
            CountStarts(window, pattern, a, b) + CountStarts(window, pattern, b, c)
    decreases c
  {
    if b < c {
      CountJoins(window, pattern, a, b, c - 1);
    }
  }

  lemma {:induction false} CountNone(window: Bytes, pattern: Bytes, a: nat, b: nat)
    requires forall i | a <= i < b :: !Starts(window, pattern, i)
    ensures CountStarts(window, pattern, a, b) == 0
    decreases b
  {
    if a < b {
      CountNone(window, pattern, a, b - 1);
    }
  }

  lemma {:induction false} CountSome(window: Bytes, pattern: Bytes, a: nat, b: nat)
    ensures CountStarts(window, pattern, a, b) > 0 <==> exists i | a <= i < b :: Starts(window, pattern, i)
    decreases b
  {
    if a < b {
      CountSome(window, pattern, a, b - 1);
    }
  }

  /** Where a pattern first starts from a place on. */
  method WindowsChecked(window: Bytes, pattern: Bytes, at: nat) returns (found: Option<nat>)
    requires at <= |window|
    ensures match found
            case Some(i) =>
              && at <= i < |window| + 1 && Starts(window, pattern, i)
              && forall j | at <= j < i :: !Starts(window, pattern, j)
            case None => forall j | at <= j <= |window| :: !Starts(window, pattern, j)
  {
    found := None;
    if |window| - at < |pattern| {
      return;
    }
    var i := at;
    while i <= |window| - |pattern|
      invariant at <= i <= |window| - |pattern| + 1
      invariant forall j | at <= j < i :: !Starts(window, pattern, j)
    {
      if window[i..i + |pattern|] == pattern {
        return Some(i);
      }
      i := i + 1;
    }
  }

  /** How many occurrences of a pattern end past the first `looked` bytes, which were looked at before. */
  method Found(window: Bytes, looked: nat, pattern: Bytes) returns (count: nat)
    ensures count == CountPast(window, looked, pattern)
  {
    count := 0;
    if pattern == [] {
      return;
    }
    var at := 0;
    while at <= |window|
      invariant at <= |window| + 1
      invariant count == CountStarts(window, pattern, FirstPast(looked, pattern), at)
      decreases |window| + 1 - at
    {
      var found := WindowsChecked(window, pattern, at);
      match found {
        case None =>
          Passed(window, pattern, FirstPast(looked, pattern), at, |window|);
          return;
        case Some(i) =>
          Passed(window, pattern, FirstPast(looked, pattern), at, i);
          if i + |pattern| > looked {
            count := count + 1;
          }
          at := i + 1;
      }
    }
    Passed(window, pattern, FirstPast(looked, pattern), |window|, |window| + 1);
  }

  function CountPast(window: Bytes, looked: nat, pattern: Bytes): nat {
    if pattern == [] then 0 else CountStarts(window, pattern, FirstPast(looked, pattern), |window|)
  }

  /** Places passed over hold nothing to count. */
  lemma {:induction false} Passed(window: Bytes, pattern: Bytes, from: nat, a: nat, b: nat)
    requires a <= b && forall j | a <= j < b :: !Starts(window, pattern, j)
    ensures CountStarts(window, pattern, from, b) == CountStarts(window, pattern, from, a)
  {
    if from <= a {
      CountJoins(window, pattern, from, a, b);
      CountNone(window, pattern, a, b);
    } else {
      CountNone(window, pattern, from, b);
    }
  }

  // ------------------------------------------------------------------ what was seen

  /** The last of what was read. */
  function Kept(bytes: Bytes): Bytes { if |bytes| <= KEPT then bytes else bytes[|bytes| - KEPT..] }

  datatype Seen = Seen(
    total: nat,
    frames: nat,
    tail: Bytes,
    text: Bytes,
    escape: Escape,
    watch: Option<Bytes>,
    arrived: Option<nat>,
    closed: bool)

  /** Bytes read at `now`; none once the program closed its terminal. */
  function OnRead(s: Seen, chunk: Bytes, now: nat): Seen {
    if chunk == [] then s.(closed := true)
    else
      var counted := s.(total := s.total + |chunk|,
                        frames := s.frames + CountPast(s.tail + chunk, |s.tail|, BEGIN),
                        tail := Kept(s.tail + chunk));
      if s.arrived.None? && s.watch.Some? then
        var (state, more) := Filter(chunk, s.escape);
        counted.(escape := state, text := Kept(s.text + more),
                 arrived := if CountPast(s.text + more, |s.text|, s.watch.value) > 0 then Some(now) else None)
      else counted
  }

  /** A pattern watched for from now on: where the filter is in a sequence is kept. */
  function OnWatch(s: Seen, pattern: Bytes): Seen {
    s.(tail := [], text := [], watch := Some(pattern), arrived := None)
  }

  /** What the reader and its terminal share. */
  class Reader {
    var total: nat
    var frames: nat
    var tail: Bytes
    var text: Bytes
    var escape: Escape
    var watch: Option<Bytes>
    var arrived: Option<nat>
    var closed: bool

    constructor (watched: Option<Bytes>)
      ensures Value() == Seen(0, 0, [], [], InText, watched, None, false)
    {
      total, frames, tail, text, escape := 0, 0, [], [], InText;
      watch, arrived, closed := watched, None, false;
    }

    function Value(): Seen
      reads this
    {
      Seen(total, frames, tail, text, escape, watch, arrived, closed)
    }

    method Watch(pattern: Bytes)
      modifies this
      ensures Value() == OnWatch(old(Value()), pattern)
    {
      tail, text := [], [];
      watch := Some(pattern);
      arrived := None;
    }

    method Read(chunk: Bytes, now: nat)
      modifies this
      ensures Value() == OnRead(old(Value()), chunk, now)
    {
      if chunk == [] {
        closed := true;
        return;
      }
      total := total + |chunk|;
      var looked := |tail|;
      var window := tail + chunk;
      var painted := Found(window, looked, BEGIN);
      frames := frames + painted;
      tail := Kept(window);
      if arrived.None? && watch.Some? {
        var before := |text|;
        var state, written := Text(chunk, escape, text);
        escape := state;
        var count := Found(written, before, watch.value);
        if count > 0 {
          arrived := Some(now);
        }
        text := Kept(written);
      }
    }
  }

  // -------------------------------------------------------------- however reads split

  lemma {:induction false} StartsIn(before: Bytes, after: Bytes, pattern: Bytes, i: nat)
    ensures i + |pattern| <= |before| ==> (Starts(before + after, pattern, i) <==> Starts(before, pattern, i))
    ensures Starts(before + after, pattern, |before| + i) <==> Starts(after, pattern, i)
  {
    var whole := before + after;
    if i + |pattern| <= |before| {
      assert whole[i..i + |pattern|] == before[i..i + |pattern|];
    }
    if i + |pattern| <= |after| {
      assert whole[|before| + i..|before| + i + |pattern|] == after[i..i + |pattern|];
    }
  }

  /** Occurrences within what came first. */
  lemma {:induction false} CountIn(before: Bytes, after: Bytes, pattern: Bytes, past: nat)
    requires past + |pattern| <= |before| + 1
    ensures CountStarts(before + after, pattern, 0, past) == CountStarts(before, pattern, 0, past)
    decreases past
  {
    if past > 0 {
      StartsIn(before, after, pattern, past - 1);
      CountIn(before, after, pattern, past - 1);
    }
  }

  lemma {:induction false} CountShifts(before: Bytes, after: Bytes, pattern: Bytes, a: nat, b: nat)
    ensures CountStarts(before + after, pattern, |before| + a, |before| + b) == CountStarts(after, pattern, a, b)
    decreases b
  {
    if a < b {
      StartsIn(before, after, pattern, b - 1);
      CountShifts(before, after, pattern, a, b - 1);
    }
  }

  /** What is counted past what was looked at is what more there is. */
  lemma {:induction false} CountGrows(before: Bytes, chunk: Bytes, pattern: Bytes)
    ensures Occurrences(before, pattern) + CountPast(before + chunk, |before|, pattern) ==
            Occurrences(before + chunk, pattern)
  {
    if pattern != [] {
      var first := FirstPast(|before|, pattern);
      CountJoins(before + chunk, pattern, 0, first, |before + chunk|);
      if |pattern| <= |before| {
        CountIn(before, chunk, pattern, first);
        CountJoins(before, pattern, 0, first, |before|);
      }
      CountNone(before, pattern, first, |before|);
    }
  }

  lemma {:induction false} KeptSplits(bytes: Bytes)
    ensures bytes == bytes[..|bytes| - |Kept(bytes)|] + Kept(bytes)
  {
  }

  lemma {:induction false} KeptGrows(before: Bytes, chunk: Bytes)
    ensures Kept(Kept(before) + chunk) == Kept(before + chunk)
  {
  }

  /** What was dropped takes no part: no occurrence that ends past what is kept starts before it. */
  lemma {:induction false} KeptIsEnough(before: Bytes, chunk: Bytes, pattern: Bytes)
    requires |pattern| <= KEPT + 1
    ensures CountPast(Kept(before) + chunk, |Kept(before)|, pattern) == CountPast(before + chunk, |before|, pattern)
  {
    if pattern != [] && |before| > KEPT {
      var dropped := before[..|before| - KEPT];
      KeptSplits(before);
      assert before + chunk == dropped + (Kept(before) + chunk);
      var first := FirstPast(KEPT, pattern);
      CountShifts(dropped, Kept(before) + chunk, pattern, first, KEPT + |chunk|);
    }
  }

  function Flat(chunks: seq<Bytes>): Bytes {
    if chunks == [] then [] else chunks[0] + Flat(chunks[1..])
  }

  function ReadAll(s: Seen, chunks: seq<Bytes>, times: seq<nat>): Seen
    requires |chunks| <= |times|
    decreases |chunks|
  {
    if chunks == [] then s else ReadAll(OnRead(s, chunks[0], times[0]), chunks[1..], times[1..])
  }

  lemma {:induction false} ReadCounts(s: Seen, before: Bytes, chunk: Bytes, now: nat)
    requires s.tail == Kept(before)
    ensures OnRead(s, chunk, now).tail == Kept(before + chunk)
    ensures OnRead(s, chunk, now).frames + Occurrences(before, BEGIN) == s.frames + Occurrences(before + chunk, BEGIN)
  {
    KeptGrows(before, chunk);
    KeptIsEnough(before, chunk, BEGIN);
    CountGrows(before, chunk, BEGIN);
    if chunk == [] {
      assert before + chunk == before;
    }
  }

  lemma {:induction false} FlatNext(before: Bytes, chunks: seq<Bytes>)
    requires chunks != []
    ensures before + Flat(chunks) == before + chunks[0] + Flat(chunks[1..])
  {
    Joined(before, chunks[0], Flat(chunks[1..]));
  }

  lemma {:induction false} ReadsCount(s: Seen, before: Bytes, chunks: seq<Bytes>, times: seq<nat>)
    requires s.tail == Kept(before) && |chunks| <= |times|
    ensures ReadAll(s, chunks, times).frames + Occurrences(before, BEGIN) ==
            s.frames + Occurrences(before + Flat(chunks), BEGIN)
    decreases |chunks|
  {
    if chunks == [] {
      assert before + [] == before;
    } else {
      ReadCounts(s, before, chunks[0], times[0]);
      ReadsCount(OnRead(s, chunks[0], times[0]), before + chunks[0], chunks[1..], times[1..]);
      FlatNext(before, chunks);
    }
  }

  /** Paints counted from a start, or a watch, are those in all that was read since, however it was split. */
  lemma {:induction false} PaintsAreOccurrences(s: Seen, chunks: seq<Bytes>, times: seq<nat>)
    requires s.tail == [] && |chunks| <= |times|
    ensures ReadAll(s, chunks, times).frames == s.frames + Occurrences(Flat(chunks), BEGIN)
  {
    ReadsCount(s, [], chunks, times);
    assert [] + Flat(chunks) == Flat(chunks);
  }

  /** Of a watch on, paints are counted anew: none is found that began before it. */
  lemma {:induction false} PaintsSinceWatch(s: Seen, pattern: Bytes, chunks: seq<Bytes>, times: seq<nat>)
    requires |chunks| <= |times|
    ensures ReadAll(OnWatch(s, pattern), chunks, times).frames == s.frames + Occurrences(Flat(chunks), BEGIN)
  {
    PaintsAreOccurrences(OnWatch(s, pattern), chunks, times);
  }

  /** All that was read is counted, and a read of nothing, if one came, closes. */
  lemma {:induction false} ReadsAreCounted(s: Seen, chunks: seq<Bytes>, times: seq<nat>)
    requires |chunks| <= |times|
    ensures ReadAll(s, chunks, times).total == s.total + |Flat(chunks)|
    ensures ReadAll(s, chunks, times).closed <==> s.closed || [] in chunks
    decreases |chunks|
  {
    if chunks != [] {
      ReadsAreCounted(OnRead(s, chunks[0], times[0]), chunks[1..], times[1..]);
      assert chunks == [chunks[0]] + chunks[1..];
    }
  }

  // ------------------------------------------------------------------- a pattern's arrival

  /** When the text read since a watch first has the pattern. */
  function ArrivalOf(pattern: Bytes, state: Escape, before: Bytes, chunks: seq<Bytes>, times: seq<nat>): Option<nat>
    requires |chunks| <= |times|
    decreases |chunks|
  {
    if chunks == [] then None
    else if Occurrences(Filter(before + chunks[0], state).1, pattern) > 0 then Some(times[0])
    else ArrivalOf(pattern, state, before + chunks[0], chunks[1..], times[1..])
  }

  /** Watching from `state`: the pattern has not come in what was read since. */
  ghost predicate Awaits(s: Seen, pattern: Bytes, state: Escape, before: Bytes) {
    && s.watch == Some(pattern) && s.arrived.None?
    && s.escape == Filter(before, state).0
    && s.text == Kept(Filter(before, state).1)
    && Occurrences(Filter(before, state).1, pattern) == 0
  }

  lemma {:induction false} ReadAwaits(s: Seen, pattern: Bytes, state: Escape, before: Bytes, chunk: Bytes, now: nat)
    requires Awaits(s, pattern, state, before) && |pattern| <= KEPT + 1
    ensures var s' := OnRead(s, chunk, now);
            if Occurrences(Filter(before + chunk, state).1, pattern) > 0 then s'.arrived == Some(now)
            else Awaits(s', pattern, state, before + chunk)
  {
    if chunk == [] {
      assert before + chunk == before;
    }
    FilterSplits(before, chunk, state);
    var (text, more) := (Filter(before, state).1, Filter(chunk, s.escape).1);
    KeptGrows(text, more);
    KeptIsEnough(text, more, pattern);
    CountGrows(text, more, pattern);
  }

  /** Nothing is watched for: nothing ever was, or it came. What is read is then not filtered. */
  predicate Rests(s: Seen) { s.arrived.Some? || s.watch.None? }

  lemma {:induction false} RestStays(s: Seen, chunks: seq<Bytes>, times: seq<nat>)
    requires Rests(s) && |chunks| <= |times|
    ensures var after := ReadAll(s, chunks, times);
            after.arrived == s.arrived && after.watch == s.watch && after.escape == s.escape
    decreases |chunks|
  {
    if chunks != [] {
      RestStays(OnRead(s, chunks[0], times[0]), chunks[1..], times[1..]);
    }
  }

  lemma {:induction false} ReadsArrive(s: Seen, pattern: Bytes, state: Escape, before: Bytes, chunks: seq<Bytes>,
        times: seq<nat>)
    requires Awaits(s, pattern, state, before) && |pattern| <= KEPT + 1 && |chunks| <= |times|
    ensures ReadAll(s, chunks, times).arrived == ArrivalOf(pattern, state, before, chunks, times)
    ensures ReadAll(s, chunks, times).arrived.Some? <==>
            Occurrences(Filter(before + Flat(chunks), state).1, pattern) > 0
    ensures ReadAll(s, chunks, times).arrived.None? ==>
            ReadAll(s, chunks, times).escape == Filter(before + Flat(chunks), state).0
    decreases |chunks|
  {
    if chunks == [] {
      assert before + [] == before;
    } else {
      var s' := OnRead(s, chunks[0], times[0]);
      ReadAwaits(s, pattern, state, before, chunks[0], times[0]);
      FlatNext(before, chunks);
      if s'.arrived.Some? {
        RestStays(s', chunks[1..], times[1..]);
        OccurrencesStay(before + chunks[0], Flat(chunks[1..]), state, pattern);
      } else {
        ReadsArrive(s', pattern, state, before + chunks[0], chunks[1..], times[1..]);
      }
    }
  }

  lemma {:induction false} OccurrencesStay(before: Bytes, after: Bytes, state: Escape, pattern: Bytes)
    ensures Occurrences(Filter(before + after, state).1, pattern) >= Occurrences(Filter(before, state).1, pattern)
  {
    FilterSplits(before, after, state);
    CountGrows(Filter(before, state).1, Filter(after, Filter(before, state).0).1, pattern);
  }

  /**
   * A pattern watched for, no longer than what is kept and one more, arrives with the read that first
   * completes it in the text since, however reads split it. Only then does it.
   */
  lemma {:induction false} WatchedArrives(s: Seen, pattern: Bytes, chunks: seq<Bytes>, times: seq<nat>)
    requires |pattern| <= KEPT + 1 && |chunks| <= |times|
    ensures var after := ReadAll(OnWatch(s, pattern), chunks, times);
            && after.arrived == ArrivalOf(pattern, s.escape, [], chunks, times)
            && (after.arrived.Some? <==> Occurrences(Filter(Flat(chunks), s.escape).1, pattern) > 0)
            && (after.arrived.None? ==> after.escape == Filter(Flat(chunks), s.escape).0)
  {
    ReadsArrive(OnWatch(s, pattern), pattern, s.escape, [], chunks, times);
    assert [] + Flat(chunks) == Flat(chunks);
  }

  /** A load's marker arrives, however its frame is split, and whatever the load or the screen before it left open. */
  lemma {:induction false} MarkerArrives(s: Seen, load: Bytes, n: nat, chunks: seq<Bytes>, times: seq<nat>)
    requires |chunks| <= |times| && Flat(chunks) == FramedLoad(load, n)
    ensures ReadAll(OnWatch(s, Marker(n)), chunks, times).arrived.Some?
  {
    MarkerIsText(load, n, s.escape);
    WatchedArrives(s, Marker(n), chunks, times);
    var out := Filter(Flat(chunks), s.escape).1;
    CountSome(out, Marker(n), 0, |out|);
    assert Starts(out, Marker(n), |out| - 18);
  }

  lemma {:induction false} FlatTwo(a: Bytes, b: Bytes)
    ensures Flat([a, b]) == a + b
  {
    var (chunks, last) := ([a, b], [b]);
    assert chunks[1..] == last && last[1..] == [];
    assert Flat(last) == b + Flat([]) == b;
  }

  lemma {:induction false} ReadTwo(s: Seen, a: Bytes, b: Bytes, t: nat, u: nat)
    ensures ReadAll(s, [a, b], [t, u]) == OnRead(OnRead(s, a, t), b, u)
  {
    var (chunks, last, times, end) := ([a, b], [b], [t, u], [u]);
    assert chunks[1..] == last && last[1..] == [] && times[1..] == end && end[1..] == [];
    var s1 := OnRead(s, a, t);
    assert ReadAll(s1, last, end) == ReadAll(OnRead(s1, b, u), [], []);
  }

  lemma {:induction false} ShortHasNone(window: Bytes, looked: nat, pattern: Bytes)
    requires |window| < |pattern|
    ensures CountPast(window, looked, pattern) == 0
  {
    CountNone(window, pattern, FirstPast(looked, pattern), |window|);
  }

  lemma {:induction false} HasItself(pattern: Bytes)
    requires pattern != []
    ensures Occurrences(pattern, pattern) > 0 && CountPast(pattern, 0, pattern) > 0
  {
    CountSome(pattern, pattern, 0, |pattern|);
    assert Starts(pattern, pattern, 0);
  }

  /** Any longer pattern is missed by some split of it: its last byte read alone. */
  lemma {:induction false} LongerIsMissed(s: Seen, pattern: Bytes)
    requires |pattern| > KEPT + 1 && IsText(pattern) && s.escape == InText
    ensures var (a, b) := (pattern[..|pattern| - 1], pattern[|pattern| - 1..]);
            && Occurrences(Filter(Flat([a, b]), InText).1, pattern) > 0
            && ReadAll(OnWatch(s, pattern), [a, b], [0, 0]).arrived.None?
  {
    var (a, b) := (pattern[..|pattern| - 1], pattern[|pattern| - 1..]);
    FlatTwo(a, b);
    assert a + b == pattern;
    TextStays(pattern);
    HasItself(pattern);
    TextStays(a);
    TextStays(b);
    var s1 := OnRead(OnWatch(s, pattern), a, 0);
    assert [] + a == a;
    ShortHasNone(a, 0, pattern);
    ShortHasNone(s1.text + b, |s1.text|, pattern);
    ReadTwo(OnWatch(s, pattern), a, b, 0, 0);
  }

  lemma {:induction false} ReadsItself(s: Seen, pattern: Bytes, now: nat)
    requires s.watch == Some(pattern) && s.arrived.None? && s.text == [] && s.escape == InText
    requires IsText(pattern) && pattern != []
    ensures OnRead(s, pattern, now).arrived == Some(now) && OnRead(s, pattern, now).escape == InText
  {
    TextStays(pattern);
    HasItself(pattern);
    assert [] + pattern == pattern;
  }

  /**
   * A filter in step with the stream so far, and resting while more is read, is in step after it exactly
   * if the state it rests in is one that more would lead back to.
   */
  lemma {:induction false} RestKeepsStep(s: Seen, before: Bytes, chunks: seq<Bytes>, times: seq<nat>)
    requires Rests(s) && s.escape == Filter(before, InText).0 && |chunks| <= |times|
    ensures ReadAll(s, chunks, times).escape == Filter(before + Flat(chunks), InText).0 <==>
            Filter(Flat(chunks), s.escape).0 == s.escape
  {
    RestStays(s, chunks, times);
    FilterSplits(before, Flat(chunks), InText);
  }

  /** In step again at a watch, a pattern arrives exactly if the stream's own text since the watch has it. */
  lemma {:induction false} InStepArrives(s: Seen, before: Bytes, rest: seq<Bytes>, pattern: Bytes, chunks: seq<Bytes>,
        times: seq<nat>)
    requires Rests(s) && s.escape == Filter(before, InText).0 && Filter(Flat(rest), s.escape).0 == s.escape
    requires |pattern| <= KEPT + 1 && |rest| <= |times| && |chunks| <= |times|
    ensures var stream := before + Flat(rest);
            ReadAll(OnWatch(ReadAll(s, rest, times), pattern), chunks, times).arrived.Some? <==>
            Occurrences(Filter(Flat(chunks), Filter(stream, InText).0).1, pattern) > 0
  {
    RestKeepsStep(s, before, rest, times);
    WatchedArrives(ReadAll(s, rest, times), pattern, chunks, times);
  }

  /** An escape sequence of two bytes is no text. */
  lemma {:induction false} EscapeIsNoText(before: Bytes, escape: Bytes, c: Bytes)
    requires Filter(before, InText).0 == InText && escape == [0x1b] && c == [0x63]
    ensures Filter(before + escape + c, InText).1 == Filter(before, InText).1
  {
    FilterSplits(before + escape, c, InText);
    FilterSplits(before, escape, InText);
    assert escape[1..] == [] && c[1..] == [];
    assert Filter(escape, InText) == (Esc, []) && Filter(c, Esc) == (InText, []);
    var written := Filter(before, InText).1;
    assert written + [] + [] == written;
  }

  /** An escape read at rest, and its final byte after the next watch: the byte arrives as text it is not. */
  lemma {:induction false} BehindArrives(s: Seen, before: Bytes, escape: Bytes, c: Bytes)
    requires Rests(s) && s.escape == InText == Filter(before, InText).0 && escape == [0x1b] && c == [0x63]
    ensures OnRead(OnWatch(OnRead(s, escape, 1), c), c, 2).arrived == Some(2)
    ensures Filter(before + escape + c, InText).1 == Filter(before, InText).1
  {
    EscapeIsNoText(before, escape, c);
    ReadsItself(OnWatch(OnRead(s, escape, 1), c), c, 2);
  }

  /** After an arrival the filter may be behind at the next watch, and find text where none was written. */
  lemma {:induction false} FilterMayBeBehind(s: Seen)
    requires s.escape == InText
    ensures var (a, escape, c) := ([0x61 as Byte], [0x1b as Byte], [0x63 as Byte]);
            var arrived := OnRead(OnWatch(s, a), a, 0);
            && arrived.arrived == Some(0)
            && OnRead(OnWatch(OnRead(arrived, escape, 1), c), c, 2).arrived == Some(2)
            && Occurrences(Filter(a + escape + c, InText).1, c) == 0
  {
    var (a, escape, c) := ([0x61 as Byte], [0x1b as Byte], [0x63 as Byte]);
    ReadsItself(OnWatch(s, a), a, 0);
    TextStays(a);
    BehindArrives(OnRead(OnWatch(s, a), a, 0), a, escape, c);
    assert !Starts(a, c, 0);
  }

  /** So it may at the first watch, of a terminal started with none. */
  lemma {:induction false} UnwatchedMayBeBehind(s: Seen)
    requires s == Seen(0, 0, [], [], InText, None, None, false)
    ensures var (escape, c) := ([0x1b as Byte], [0x63 as Byte]);
            && OnRead(OnWatch(OnRead(s, escape, 1), c), c, 2).arrived == Some(2)
            && Occurrences(Filter(escape + c, InText).1, c) == 0
  {
    var (escape, c) := ([0x1b as Byte], [0x63 as Byte]);
    BehindArrives(s, [], escape, c);
    assert [] + escape + c == escape + c;
  }
}
