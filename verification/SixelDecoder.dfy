/**
 * Reading sixels as DEC STD 070 has them (chapter 9, Sixel Graphics): colours selected and defined
 * by `#`, repeats by `!`, six pixels a character, `$` back to the band's start, `-` to the next band.
 */
module SixelDecoder {
  /** A pixel: its column, its row. */
  type Pixel = (nat, nat)
  type Canvas = map<Pixel, nat>

  /** A command being read, with the numbers it was given so far; else none. */
  datatype Mode = Ground | Reading(command: char, values: seq<nat>)

  datatype Sixels = Sixels(
    canvas: Canvas,
    palette: map<nat, seq<nat>>,
    raster: seq<nat>,
    colour: nat,
    x: nat,
    top: nat,
    repeat: nat,
    mode: Mode)

  const BLANK := Sixels(map[], map[], [], 0, 0, 0, 1, Ground)

  // ------------------------------------------------------------------- six pixels

  /** Whether the `dy`th pixel down is set. */
  predicate Bit(b: nat, dy: nat)
    decreases dy
  {
    if dy == 0 then b % 2 == 1 else Bit(b / 2, dy - 1)
  }

  /** `k` pixels down from a place: those set take the colour; the others keep theirs. */
  function PaintBits(canvas: Canvas, x: nat, y: nat, b: nat, colour: nat, k: nat): Canvas
    decreases k
  {
    if k == 0 then canvas
    else PaintBits(if b % 2 == 1 then canvas[(x, y) := colour] else canvas, x, y + 1, b / 2, colour, k - 1)
  }

  function PaintColumn(canvas: Canvas, x: nat, top: nat, b: nat, colour: nat): Canvas {
    PaintBits(canvas, x, top, b, colour, 6)
  }

  function PaintRun(canvas: Canvas, x: nat, top: nat, b: nat, colour: nat, n: nat): Canvas {
    if n == 0 then canvas else PaintColumn(PaintRun(canvas, x, top, b, colour, n - 1), x + n - 1, top, b, colour)
  }

  function Painted(s: Sixels, b: nat, n: nat): Sixels {
    s.(canvas := PaintRun(s.canvas, s.x, s.top, b, s.colour, n), x := s.x + n)
  }

  // ---------------------------------------------------------------------- reading

  predicate IsDigit(c: char) { '0' <= c <= '9' }

  predicate IsSixel(c: char) { '?' <= c <= '~' }

  function SixelOf(c: char): nat
    requires IsSixel(c)
  {
    c as nat - '?' as nat
  }

  /** A command read whole takes effect. */
  function Settle(s: Sixels): Sixels {
    match s.mode
    case Ground => s
    case Reading(command, values) =>
      var done := s.(mode := Ground);
      if values == [] then done
      else if command == '!' then done.(repeat := if values[0] == 0 then 1 else values[0])
      else if command == '#' then
        var selected := done.(colour := values[0]);
        if |values| == 5 then selected.(palette := s.palette[values[0] := values[1..]]) else selected
      else done.(raster := values)
  }

  /** A character that begins something, with nothing being read. */
  function Begin(s: Sixels, c: char): Sixels {
    if IsSixel(c) then Painted(s, SixelOf(c), s.repeat).(repeat := 1)
    else if c == '$' then s.(x := 0)
    else if c == '-' then s.(x := 0, top := s.top + 6)
    else if c == '#' || c == '!' || c == '"' then s.(mode := Reading(c, [0]))
    else s
  }

  function Read(s: Sixels, c: char): Sixels {
    if s.mode.Reading? && s.mode.values != [] && (IsDigit(c) || c == ';') then
      var values := s.mode.values;
      var n := |values| - 1;
      s.(mode := Reading(s.mode.command,
                         if c == ';' then values + [0] else values[n := values[n] * 10 + (c as nat - '0' as nat)]))
    else Begin(Settle(s), c)
  }

  function Feed(s: Sixels, text: string): Sixels
    decreases |text|
  {
    if text == [] then s else Feed(Read(s, text[0]), text[1..])
  }

  lemma {:induction false} FeedAppend(s: Sixels, a: string, b: string)
    ensures Feed(s, a + b) == Feed(Feed(s, a), b)
    decreases |a|
  {
    if a == [] {
      assert a + b == b;
    } else {
      assert (a + b)[1..] == a[1..] + b;
      FeedAppend(Read(s, a[0]), a[1..], b);
    }
  }

  lemma {:induction false} FeedOne(s: Sixels, c: char)
    ensures Feed(s, [c]) == Read(s, c)
  {
    assert [c][1..] == [];
  }

  // ------------------------------------------------------------- what painting does

  lemma {:induction false} PaintBitsAt(canvas: Canvas, x: nat, y: nat, b: nat, colour: nat, k: nat, p: Pixel)
    ensures var after := PaintBits(canvas, x, y, b, colour, k);
            if p.0 == x && y <= p.1 < y + k && Bit(b, p.1 - y) then p in after && after[p] == colour
            else (p in after <==> p in canvas) && (p in canvas ==> after[p] == canvas[p])
    decreases k
  {
    if k > 0 {
      PaintBitsAt(if b % 2 == 1 then canvas[(x, y) := colour] else canvas, x, y + 1, b / 2, colour, k - 1, p);
    }
  }

  lemma {:induction false} PaintRunAt(canvas: Canvas, x: nat, top: nat, b: nat, colour: nat, n: nat, p: Pixel)
    ensures var after := PaintRun(canvas, x, top, b, colour, n);
            if x <= p.0 < x + n && top <= p.1 < top + 6 && Bit(b, p.1 - top) then p in after && after[p] == colour
            else (p in after <==> p in canvas) && (p in canvas ==> after[p] == canvas[p])
  {
    if n > 0 {
      PaintRunAt(canvas, x, top, b, colour, n - 1, p);
      PaintBitsAt(PaintRun(canvas, x, top, b, colour, n - 1), x + n - 1, top, b, colour, 6, p);
    }
  }

  lemma {:induction false} PaintRunSplits(canvas: Canvas, x: nat, top: nat, b: nat, colour: nat, m: nat, n: nat)
    ensures PaintRun(PaintRun(canvas, x, top, b, colour, m), x + m, top, b, colour, n) ==
            PaintRun(canvas, x, top, b, colour, m + n)
    decreases n
  {
    if n > 0 {
      PaintRunSplits(canvas, x, top, b, colour, m, n - 1);
    }
  }

  lemma {:induction false} PaintedSplits(s: Sixels, b: nat, m: nat, n: nat)
    ensures Painted(Painted(s, b, m), b, n) == Painted(s, b, m + n)
  {
    PaintRunSplits(s.canvas, s.x, s.top, b, s.colour, m, n);
  }

  /** A row of sixels painted, one a column. */
  function PaintRow(s: Sixels, row: seq<nat>): Sixels
    decreases |row|
  {
    if row == [] then s else PaintRow(Painted(s, row[0], 1), row[1..])
  }

  lemma {:induction false} PaintRowAt(s: Sixels, row: seq<nat>, p: Pixel)
    ensures var after := PaintRow(s, row);
            && after == s.(canvas := after.canvas, x := s.x + |row|)
            && if s.x <= p.0 < s.x + |row| && s.top <= p.1 < s.top + 6 && Bit(row[p.0 - s.x], p.1 - s.top)
               then p in after.canvas && after.canvas[p] == s.colour
               else (p in after.canvas <==> p in s.canvas) && (p in s.canvas ==> after.canvas[p] == s.canvas[p])
    decreases |row|
  {
    if row != [] {
      PaintRunAt(s.canvas, s.x, s.top, row[0], s.colour, 1, p);
      PaintRowAt(Painted(s, row[0], 1), row[1..], p);
    }
  }

  function Repeated<T>(t: T, n: nat): seq<T> {
    seq(n, _ => t)
  }
}
