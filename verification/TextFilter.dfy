/**
 * The text in what a program writes, its escape sequences skipped (`text` of bench/src/terminal.rs),
 * and a load's marker, made text whatever the load leaves open (`framed` of bench/src/helpers.rs).
 */
module TextFilter {
  import opened Sequences

  newtype Byte = b: int | 0 <= b < 256

  type Bytes = seq<Byte>

  /** The filter's states, text first. */
  datatype Escape = InText | Esc | Csi | Str | StrEsc

  /** One byte: where it leaves the filter, and the text it is, if it is. */
  function Next(state: Escape, b: Byte): (Escape, Bytes) {
    if b == 0x18 || b == 0x1a then (InText, [])
    else match state
      case InText => if b == 0x1b then (Esc, []) else if b < 0x20 || b == 0x7f then (InText, []) else (InText, [b])
      case Esc =>
        if b == 0x5b then (Csi, [])
        else if b == 0x5d || b == 0x50 || b == 0x58 || b == 0x5e || b == 0x5f then (Str, [])
        else if 0x20 <= b <= 0x2f then (Esc, [])
        else (InText, [])
      case Csi => if 0x40 <= b <= 0x7e then (InText, []) else (Csi, [])
      case Str => if b == 0x07 then (InText, []) else if b == 0x1b then (StrEsc, []) else (Str, [])
      case StrEsc => if b == 0x07 || b == 0x5c then (InText, []) else if b == 0x1b then (StrEsc, []) else (Str, [])
  }

  function Filter(bytes: Bytes, state: Escape): (Escape, Bytes)
    decreases |bytes|
  {
    if bytes == [] then (state, [])
    else
      var (next, first) := Next(state, bytes[0]);
      var (last, rest) := Filter(bytes[1..], next);
      (last, first + rest)
  }

  /** Filters bytes by a loop, from a state and after a text. */
  method Text(bytes: Bytes, state: Escape, before: Bytes) returns (after: Escape, out: Bytes)
    ensures after == Filter(bytes, state).0 && out == before + Filter(bytes, state).1
  {
    after, out := state, before;
    var k := 0;
    while k < |bytes|
      invariant 0 <= k <= |bytes|
      invariant Filter(bytes, state).0 == Filter(bytes[k..], after).0
      invariant before + Filter(bytes, state).1 == out + Filter(bytes[k..], after).1
    {
      var (next, first) := Next(after, bytes[k]);
      assert bytes[k..][1..] == bytes[k + 1..];
      Joined(out, first, Filter(bytes[k + 1..], next).1);
      after, out := next, out + first;
      k := k + 1;
    }
  }

  /** However reads split what is written, the text is the same. */
  lemma {:induction false} FilterSplits(a: Bytes, b: Bytes, state: Escape)
    ensures Filter(a + b, state).0 == Filter(b, Filter(a, state).0).0
    ensures Filter(a + b, state).1 == Filter(a, state).1 + Filter(b, Filter(a, state).0).1
    decreases |a|
  {
    if a == [] {
      assert a + b == b;
    } else {
      var (next, first) := Next(state, a[0]);
      assert (a + b)[1..] == a[1..] + b;
      FilterSplits(a[1..], b, next);
      Joined(first, Filter(a[1..], next).1, Filter(b, Filter(a[1..], next).0).1);
    }
  }

  // ------------------------------------------------------------------------ markers

  /** One of four glyphs, by a load's number. */
  function Glyph(n: nat): Bytes {
    match n % 4
    case 0 => [0xe2, 0x98, 0x83]
    case 1 => [0xe2, 0x98, 0x85]
    case 2 => [0xe2, 0x99, 0x9e]
    case _ => [0xe2, 0x9a, 0x91]
  }

  function Marker(n: nat): (m: Bytes)
    ensures |m| == 18
  {
    Glyph(n) + Glyph(n) + Glyph(n) + Glyph(n) + Glyph(n) + Glyph(n)
  }

  const RESET: Bytes := [0x1b, 0x63]

  /** What closes any string: ST, and CAN for one that ST does not close. */
  const ENDING: Bytes := [0x1b, 0x5c, 0x18]

  method Framed(load: Bytes, n: nat) returns (all: Bytes)
    ensures all == FramedLoad(load, n)
  {
    all := [];
    all := all + RESET;
    all := all + load;
    all := all + ENDING;
    all := all + Marker(n);
  }

  function FramedLoad(load: Bytes, n: nat): Bytes { RESET + load + ENDING + Marker(n) }

  ghost predicate IsText(bytes: Bytes) {
    forall i | 0 <= i < |bytes| :: bytes[i] >= 0x20 && bytes[i] != 0x7f
  }

  lemma {:induction false} TextStays(bytes: Bytes)
    requires IsText(bytes)
    ensures Filter(bytes, InText) == (InText, bytes)
    decreases |bytes|
  {
    if bytes != [] {
      TextStays(bytes[1..]);
      assert [bytes[0]] + bytes[1..] == bytes;
    }
  }

  /** Whatever state the ending finds, it leaves text. */
  lemma {:induction false} EndingEnds(state: Escape)
    ensures Filter(ENDING, state).0 == InText
  {
    var after := Filter(ENDING[..2], state).0;
    assert ENDING == ENDING[..2] + [0x18];
    FilterSplits(ENDING[..2], [0x18], state);
    assert [0x18 as Byte][1..] == [];
  }

  /** A load's marker is the last text of its frame, whatever the load is and whatever was open before it. */
  lemma {:induction false} MarkerIsText(load: Bytes, n: nat, state: Escape)
    ensures Filter(FramedLoad(load, n), state).0 == InText
    ensures |Filter(FramedLoad(load, n), state).1| >= 18
    ensures var out := Filter(FramedLoad(load, n), state).1; out[|out| - 18..] == Marker(n)
  {
    var open := RESET + load;
    var before := Filter(open, state).0;
    EndingEnds(before);
    FilterSplits(open, ENDING, state);
    FilterSplits(open + ENDING, Marker(n), state);
    MarkerPlain(n);
    TextStays(Marker(n));
  }

  /** Two loads' markers are the same only if they are as many apart as there are glyphs. */
  lemma {:induction false} MarkersDiffer(a: nat, b: nat)
    ensures Marker(a) == Marker(b) <==> a % 4 == b % 4
  {
    assert Marker(a)[..3] == Glyph(a) && Marker(b)[..3] == Glyph(b);
  }

  /** A load that comes in text, or in a control sequence left open, is read from where text begins. */
  lemma {:induction false} LoadIsRead(load: Bytes, n: nat, state: Escape)
    requires state.InText? || state.Csi?
    ensures Filter(load, InText).1 <= Filter(FramedLoad(load, n), state).1
  {
    var (escape, c) := ([0x1b as Byte], [0x63 as Byte]);
    assert RESET == escape + c && escape[1..] == [] && c[1..] == [];
    FilterSplits(escape, c, state);
    assert Filter(RESET, state) == (InText, []);
    FilterSplits(RESET, load, state);
    FilterSplits(RESET + load, ENDING, state);
    FilterSplits(RESET + load + ENDING, Marker(n), state);
  }

  lemma {:induction false} MarkerPlain(n: nat)
    ensures IsText(Marker(n))
  {
    assert IsText(Glyph(n));
  }
}
