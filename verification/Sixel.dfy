/**
 * The census's sixel frames (`sixel` and `sixel_run` of bench/src/census.rs): what a terminal paints,
 * reading them, is every pixel in the colour it was given.
 */
module Sixel {
  import opened SixelDecoder

  // ------------------------------------------------------------------- numbers

  function Digit(d: nat): char
    requires d < 10
  {
    ('0' as nat + d) as char
  }

  /** A number in decimal. */
  function Decimal(n: nat): string {
    if n < 10 then [Digit(n)] else Decimal(n / 10) + [Digit(n % 10)]
  }

  /** A number read where a command awaits one is that number. */
  lemma {:induction false} ReadsNumber(s: Sixels, command: char, before: seq<nat>, n: nat)
    requires s.mode == Reading(command, before + [0])
    ensures Feed(s, Decimal(n)) == s.(mode := Reading(command, before + [n]))
    decreases n
  {
    var d := n % 10;
    assert (before + [0])[|before| := d] == before + [d];
    if n < 10 {
      FeedOne(s, Digit(n));
    } else {
      ReadsNumber(s, command, before, n / 10);
      var tens := s.(mode := Reading(command, before + [n / 10]));
      FeedAppend(s, Decimal(n / 10), [Digit(d)]);
      FeedOne(tens, Digit(d));
      assert (before + [n / 10])[|before| := n] == before + [n];
    }
  }

  // ------------------------------------------------------------------------ runs

  function Glyph(b: nat): char
    requires b < 64
  {
    ('?' as nat + b) as char
  }

  /** `n` sixels alike: repeated by a count when that is shorter. */
  function Run(b: nat, n: nat): string
    requires b < 64
  {
    if n > 3 then "!" + Decimal(n) + [Glyph(b)] else Repeated(Glyph(b), n)
  }

  ghost predicate Sixes(row: seq<nat>) {
    forall i | 0 <= i < |row| :: row[i] < 64
  }

  /** The runs of a row, `n` sixels `b` before it already. */
  function RunsAfter(b: nat, n: nat, row: seq<nat>): string
    requires b < 64 && Sixes(row)
    decreases |row|
  {
    if row == [] then Run(b, n)
    else if row[0] == b then RunsAfter(b, n + 1, row[1..])
    else Run(b, n) + RunsAfter(row[0], 1, row[1..])
  }

  function Runs(row: seq<nat>): string
    requires Sixes(row)
  {
    if row == [] then [] else RunsAfter(row[0], 1, row[1..])
  }

  /** Nothing but a sixel comes after a count. */
  ghost predicate Ready(s: Sixels) {
    Settle(s).repeat == 1
  }

  lemma {:induction false} ReadsCopies(s: Sixels, b: nat, n: nat)
    requires b < 64 && n > 0 && Ready(s)
    ensures Feed(s, Repeated(Glyph(b), n)) == Painted(Settle(s), b, n)
    decreases n
  {
    var text := Repeated(Glyph(b), n);
    var one := Painted(Settle(s), b, 1);
    assert Read(s, Glyph(b)) == one;
    if n == 1 {
      assert text[1..] == [];
    } else {
      assert text[1..] == Repeated(Glyph(b), n - 1);
      ReadsCopies(one, b, n - 1);
      PaintedSplits(Settle(s), b, 1, n - 1);
    }
  }

  lemma {:induction false} FeedThen(s: Sixels, a: string, b: string, t: Sixels, u: Sixels)
    requires Feed(s, a) == t && Feed(t, b) == u
    ensures Feed(s, a + b) == u
  {
    FeedAppend(s, a, b);
  }

  lemma {:induction false} ReadsCount(s: Sixels, n: nat)
    requires n > 0 && Ready(s)
    ensures Feed(s, "!" + Decimal(n)) == Settle(s).(mode := Reading('!', [n]))
  {
    var counting := Settle(s).(mode := Reading('!', [0]));
    assert [] + [0] == [0] && [] + [n] == [n];
    FeedOne(s, '!');
    ReadsNumber(counting, '!', [], n);
    FeedThen(s, "!", Decimal(n), counting, Settle(s).(mode := Reading('!', [n])));
  }

  lemma {:induction false} ReadsCounted(s: Sixels, b: nat, n: nat)
    requires b < 64 && n > 0 && Ready(s)
    ensures Feed(s, "!" + Decimal(n) + [Glyph(b)]) == Painted(Settle(s), b, n)
  {
    var counted := Settle(s).(mode := Reading('!', [n]));
    ReadsCount(s, n);
    FeedOne(counted, Glyph(b));
    FeedThen(s, "!" + Decimal(n), [Glyph(b)], counted, Painted(Settle(s), b, n));
  }

  lemma {:induction false} ReadsRun(s: Sixels, b: nat, n: nat)
    requires b < 64 && n > 0 && Ready(s)
    ensures Feed(s, Run(b, n)) == Painted(Settle(s), b, n)
  {
    if n > 3 {
      ReadsCounted(s, b, n);
    } else {
      ReadsCopies(s, b, n);
    }
  }

  lemma {:induction false} ReadsRunsAfter(s: Sixels, b: nat, n: nat, row: seq<nat>)
    requires b < 64 && n > 0 && Sixes(row) && Ready(s)
    ensures Feed(s, RunsAfter(b, n, row)) == PaintRow(Painted(Settle(s), b, n), row)
    decreases |row|
  {
    if row == [] {
      ReadsRun(s, b, n);
    } else if row[0] == b {
      ReadsRunsAfter(s, b, n + 1, row[1..]);
      PaintedSplits(Settle(s), b, n, 1);
    } else {
      var painted := Painted(Settle(s), b, n);
      ReadsRun(s, b, n);
      ReadsRunsAfter(painted, row[0], 1, row[1..]);
      FeedThen(s, Run(b, n), RunsAfter(row[0], 1, row[1..]), painted, PaintRow(Painted(painted, row[0], 1), row[1..]));
    }
  }

  /** Reading a row's runs paints the row, a sixel a column, whatever six bits each has. */
  lemma {:induction false} RunsReadBack(s: Sixels, row: seq<nat>)
    requires Sixes(row) && row != [] && Ready(s)
    ensures Feed(s, Runs(row)) == PaintRow(Settle(s), row)
  {
    ReadsRunsAfter(s, row[0], 1, row[1..]);
  }

  // ---------------------------------------------------------------------- images

  /** A picture of the generator's: its size, its colours, and the frame number its stripes are shifted by. */
  datatype Image = Image(width: nat, height: nat, colours: nat, frame: nat)

  function ColourAt(i: Image, x: nat, y: nat): nat {
    if i.colours == 0 then 0 else (x + y + i.frame * 8) / 25 % i.colours
  }

  /** A level of a colour's, of a hundred. */
  function Level(c: nat, k: nat): nat { c * k % 101 }

  predicate InColour(i: Image, c: nat, x: nat, y: nat) {
    y < i.height && ColourAt(i, x, y) == c
  }

  function Pow2(k: nat): (p: nat)
    ensures p > 0
  {
    if k == 0 then 1 else 2 * Pow2(k - 1)
  }

  /** The pixels of a colour, `k` down from a place, as bits. */
  function SixFrom(i: Image, c: nat, x: nat, y: nat, k: nat): (six: nat)
    ensures six < Pow2(k)
    decreases k
  {
    if k == 0 then 0 else (if InColour(i, c, x, y) then 1 else 0) + 2 * SixFrom(i, c, x, y + 1, k - 1)
  }

  lemma {:induction false} SixFromBits(i: Image, c: nat, x: nat, y: nat, k: nat, dy: nat)
    requires dy < k
    ensures Bit(SixFrom(i, c, x, y, k), dy) <==> InColour(i, c, x, y + dy)
    decreases k
  {
    if dy > 0 {
      SixFromBits(i, c, x, y + 1, k - 1, dy - 1);
      assert SixFrom(i, c, x, y, k) / 2 == SixFrom(i, c, x, y + 1, k - 1);
    }
  }

  function RowOf(i: Image, band: nat, c: nat): (row: seq<nat>)
    ensures |row| == i.width && Sixes(row)
  {
    var row := seq(i.width, x requires 0 <= x < i.width => SixFrom(i, c, x, 6 * band, 6));
    assert Pow2(6) == 64;
    assert forall x | 0 <= x < i.width :: row[x] == SixFrom(i, c, x, 6 * band, 6);
    row
  }

  /** A colour's row of a band; left out if the band has none of it. */
  function RowText(i: Image, band: nat, c: nat): string {
    var row := RowOf(i, band, c);
    if forall x | 0 <= x < |row| :: row[x] == 0 then [] else "#" + Decimal(c) + Runs(row) + "$"
  }

  function RowsText(i: Image, band: nat, c: nat): string {
    if c == 0 then [] else RowsText(i, band, c - 1) + RowText(i, band, c - 1)
  }

  function BandText(i: Image, band: nat): string {
    RowsText(i, band, i.colours) + "-"
  }

  function BandsText(i: Image, bands: nat): string {
    if bands == 0 then [] else BandsText(i, bands - 1) + BandText(i, bands - 1)
  }

  /** How many bands of six rows there are, the last perhaps of fewer. */
  function Bands(i: Image): nat { (i.height + 5) / 6 }

  /** Another number of a command. */
  function Next(n: nat): string { ";" + Decimal(n) }

  function Defined(c: nat): string {
    "#" + Decimal(c) + Next(2) + Next(Level(c, 7)) + Next(Level(c, 13)) + Next(Level(c, 29))
  }

  function PaletteText(c: nat): string {
    if c == 0 then [] else PaletteText(c - 1) + Defined(c - 1)
  }

  function RasterText(i: Image): string {
    "\"" + Decimal(1) + Next(1) + Next(i.width) + Next(i.height)
  }

  function ImageText(i: Image): string {
    RasterText(i) + PaletteText(i.colours) + BandsText(i, Bands(i))
  }

  // -------------------------------------------------------------- reading an image

  lemma {:induction false} ReadsNext(s: Sixels, text: string, t: Sixels, n: nat)
    requires Feed(s, text) == t && t.mode.Reading? && t.mode.values != []
    ensures Feed(s, text + Next(n)) == t.(mode := Reading(t.mode.command, t.mode.values + [n]))
  {
    var more := t.(mode := Reading(t.mode.command, t.mode.values + [0]));
    FeedOne(t, ';');
    ReadsNumber(more, t.mode.command, t.mode.values, n);
    FeedThen(t, ";", Decimal(n), more, more.(mode := Reading(t.mode.command, t.mode.values + [n])));
    FeedAppend(s, text, Next(n));
  }

  /** A command and its first number. */
  lemma {:induction false} ReadsCommand(s: Sixels, command: char, n: nat)
    requires command == '#' || command == '!' || command == '"'
    ensures Feed(s, [command] + Decimal(n)) == Settle(s).(mode := Reading(command, [n]))
  {
    FeedOne(s, command);
    FeedAppend(s, [command], Decimal(n));
    assert [] + [0] == [0] && [] + [n] == [n];
    ReadsNumber(Settle(s).(mode := Reading(command, [0])), command, [], n);
  }

  lemma {:induction false} RasterReads(i: Image)
    ensures Feed(BLANK, RasterText(i)) == BLANK.(mode := Reading('"', [1, 1, i.width, i.height]))
  {
    ReadsCommand(BLANK, '"', 1);
    var text := "\"" + Decimal(1);
    var t := BLANK.(mode := Reading('"', [1]));
    ReadsNext(BLANK, text, t, 1);
    ReadsNext(BLANK, text + Next(1), t.(mode := Reading('"', [1] + [1])), i.width);
    ReadsNext(BLANK, text + Next(1) + Next(i.width), t.(mode := Reading('"', [1] + [1] + [i.width])), i.height);
    assert [1] + [1] + [i.width] + [i.height] == [1, 1, i.width, i.height];
  }

  function Levels(c: nat): seq<nat> { [2, Level(c, 7), Level(c, 13), Level(c, 29)] }

  /** A number is what it has over a multiple of 101. */
  lemma {:induction false} OverIs(a: nat, q: int, r: nat)
    requires a == 101 * q + r && r < 101
    ensures a % 101 == r
  {
  }

  /** A level is that of the colour's number under 101. */
  lemma {:induction false} LevelIs(c: nat, k: nat)
    ensures Level(c, k) == Level(c % 101, k)
  {
    var (q, r) := (c / 101, c % 101);
    assert c * k == 101 * (q * k) + r * k by {
      assert c == 101 * q + r;
      assert (101 * q + r) * k == 101 * q * k + r * k;
    }
    OverIs(c * k, q * k + r * k / 101, r * k % 101);
  }

  /** The first level gives that number back: 7 times 29 is one more than twice 101. */
  lemma {:induction false} LevelTells(c: nat)
    ensures Level(c, 7) * 29 % 101 == c % 101
  {
    var q := c * 7 / 101;
    var m := c * 7 % 101;
    assert m == c * 7 - 101 * q;
    OverIs(m * 29, 2 * c - 29 * q + c / 101, c % 101);
  }

  /** Two colours are defined alike exactly if they are a multiple of 101 apart. */
  lemma {:induction false} ColoursAlike(c: nat, d: nat)
    ensures Levels(c) == Levels(d) <==> c % 101 == d % 101
  {
    LevelIs(c, 7);
    LevelIs(d, 7);
    LevelIs(c, 13);
    LevelIs(d, 13);
    LevelIs(c, 29);
    LevelIs(d, 29);
    LevelTells(c);
    LevelTells(d);
    assert Levels(c)[1] == Level(c, 7) && Levels(d)[1] == Level(d, 7);
  }

  lemma {:induction false} DefinedReads(s: Sixels, c: nat)
    ensures Feed(s, Defined(c)) == Settle(s).(mode := Reading('#', [c] + Levels(c)))
  {
    var (a, b, d) := (Level(c, 7), Level(c, 13), Level(c, 29));
    var text := "#" + Decimal(c);
    var t := Settle(s).(mode := Reading('#', [c]));
    ReadsCommand(s, '#', c);
    ReadsNext(s, text, t, 2);
    ReadsNext(s, text + Next(2), t.(mode := Reading('#', [c] + [2])), a);
    ReadsNext(s, text + Next(2) + Next(a), t.(mode := Reading('#', [c] + [2] + [a])), b);
    ReadsNext(s, text + Next(2) + Next(a) + Next(b), t.(mode := Reading('#', [c] + [2] + [a] + [b])), d);
    assert [c] + [2] + [a] + [b] + [d] == [c] + Levels(c);
  }

  lemma {:induction false} DefinedSettles(s: Sixels, c: nat)
    requires s.mode == Reading('#', [c] + Levels(c))
    ensures Settle(s) == s.(mode := Ground, colour := c, palette := s.palette[c := Levels(c)])
  {
    assert ([c] + Levels(c))[1..] == Levels(c);
  }

  /** The first `n` colours defined. */
  function PaletteOf(n: nat): map<nat, seq<nat>> { map c | 0 <= c < n :: Levels(c) }

  lemma {:induction false} PaletteGrows(n: nat)
    ensures PaletteOf(n + 1) == PaletteOf(n)[n := Levels(n)]
  {
  }

  lemma {:induction false} PaletteReads(s: Sixels, n: nat)
    requires Settle(s).palette == map[]
    ensures var t := Settle(Feed(s, PaletteText(n)));
            t == Settle(s).(palette := PaletteOf(n), colour := t.colour)
  {
    if n > 0 {
      PaletteReads(s, n - 1);
      var before := Feed(s, PaletteText(n - 1));
      DefinedReads(before, n - 1);
      FeedThen(s, PaletteText(n - 1), Defined(n - 1), before, Feed(before, Defined(n - 1)));
      DefinedSettles(Feed(before, Defined(n - 1)), n - 1);
      PaletteGrows(n - 1);
    }
  }

  /** The pixels painted once `c` colours of a band are, the bands above it whole. */
  predicate HasPixel(i: Image, band: nat, c: nat, p: Pixel) {
    && p.0 < i.width && p.1 < i.height && i.colours > 0
    && (p.1 < 6 * band || (p.1 < 6 * band + 6 && ColourAt(i, p.0, p.1) < c))
  }

  ghost predicate Shows(i: Image, canvas: Canvas, band: nat, c: nat) {
    forall p: Pixel ::
      (p in canvas <==> HasPixel(i, band, c, p)) && (p in canvas ==> canvas[p] == ColourAt(i, p.0, p.1))
  }

  /** At a band's start, with nothing else changed. */
  ghost predicate AtBand(s: Sixels, t: Sixels, band: nat) {
    t == s.(canvas := t.canvas, colour := t.colour) && t.x == 0 && t.top == 6 * band && t.repeat == 1 && t.mode.Ground?
  }

  lemma {:induction false} RowPaints(s: Sixels, i: Image, band: nat, c: nat)
    requires AtBand(Settle(s), Settle(s), band) && Shows(i, Settle(s).canvas, band, c) && c < i.colours
    ensures var t := Settle(Feed(s, RowText(i, band, c)));
            AtBand(Settle(s), t, band) && Shows(i, t.canvas, band, c + 1)
  {
    var row := RowOf(i, band, c);
    if forall x | 0 <= x < |row| :: row[x] == 0 {
      NoneInRow(i, band, c);
    } else {
      RowTextPaints(s, i, band, c);
    }
  }

  lemma {:induction false} NoneInRow(i: Image, band: nat, c: nat)
    requires forall x | 0 <= x < i.width :: RowOf(i, band, c)[x] == 0
    ensures forall p: Pixel | p.0 < i.width && 6 * band <= p.1 < 6 * band + 6 :: !InColour(i, c, p.0, p.1)
  {
    forall p: Pixel | p.0 < i.width && 6 * band <= p.1 < 6 * band + 6
      ensures !InColour(i, c, p.0, p.1)
    {
      SixFromBits(i, c, p.0, 6 * band, 6, p.1 - 6 * band);
      assert RowOf(i, band, c)[p.0] == 0;
      ZeroHasNone(p.1 - 6 * band);
    }
  }

  lemma {:induction false} ZeroHasNone(dy: nat)
    ensures !Bit(0, dy)
    decreases dy
  {
    if dy > 0 {
      ZeroHasNone(dy - 1);
    }
  }

  /** A colour's row painted is the colour's pixels of the band. */
  lemma {:induction false} RowShows(s: Sixels, i: Image, band: nat, c: nat)
    requires s.x == 0 && s.top == 6 * band && s.colour == c < i.colours && Shows(i, s.canvas, band, c)
    ensures Shows(i, PaintRow(s, RowOf(i, band, c)).canvas, band, c + 1)
  {
    var row := RowOf(i, band, c);
    var after := PaintRow(s, row).canvas;
    forall p: Pixel
      ensures p in after <==> HasPixel(i, band, c + 1, p)
      ensures p in after ==> after[p] == ColourAt(i, p.0, p.1)
    {
      PaintRowAt(s, row, p);
      if p.0 < i.width && 6 * band <= p.1 < 6 * band + 6 {
        SixFromBits(i, c, p.0, 6 * band, 6, p.1 - 6 * band);
      }
    }
  }

  lemma {:induction false} RowTextPaints(s: Sixels, i: Image, band: nat, c: nat)
    requires AtBand(Settle(s), Settle(s), band) && Shows(i, Settle(s).canvas, band, c) && c < i.colours && i.width > 0
    ensures var t := Feed(s, "#" + Decimal(c) + Runs(RowOf(i, band, c)) + "$");
            AtBand(Settle(s), t, band) && Shows(i, t.canvas, band, c + 1)
  {
    var row := RowOf(i, band, c);
    var chosen := Settle(s).(mode := Reading('#', [c]));
    ReadsCommand(s, '#', c);
    RunsReadBack(chosen, row);
    var ready := Settle(chosen);
    var painted := PaintRow(ready, row);
    FeedThen(s, "#" + Decimal(c), Runs(row), chosen, painted);
    PaintRowAt(ready, row, (0, 0));
    FeedOne(painted, '$');
    FeedThen(s, "#" + Decimal(c) + Runs(row), "$", painted, painted.(x := 0));
    RowShows(ready, i, band, c);
  }

  /** `c` colours of a band, read from `s`. */
  ghost predicate RowsPainted(s: Sixels, i: Image, band: nat, c: nat) {
    var t := Settle(Feed(s, RowsText(i, band, c)));
    AtBand(Settle(s), t, band) && Shows(i, t.canvas, band, c)
  }

  lemma {:induction false} NoRowsPaint(s: Sixels, i: Image, band: nat)
    requires AtBand(Settle(s), Settle(s), band) && Shows(i, Settle(s).canvas, band, 0)
    ensures RowsPainted(s, i, band, 0)
  {
  }

  lemma {:induction false} RowsPaintNext(s: Sixels, i: Image, band: nat, c: nat)
    requires RowsPainted(s, i, band, c) && c < i.colours
    ensures RowsPainted(s, i, band, c + 1)
  {
    FeedAppend(s, RowsText(i, band, c), RowText(i, band, c));
    RowPaints(Feed(s, RowsText(i, band, c)), i, band, c);
  }

  lemma {:induction false} RowsPaint(s: Sixels, i: Image, band: nat, c: nat)
    requires RowsPainted(s, i, band, 0) && c <= i.colours
    ensures RowsPainted(s, i, band, c)
  {
    for n := 0 to c
      invariant RowsPainted(s, i, band, n)
    {
      RowsPaintNext(s, i, band, n);
    }
  }

  lemma {:induction false} BandEnds(i: Image, canvas: Canvas, band: nat)
    requires Shows(i, canvas, band, i.colours)
    ensures Shows(i, canvas, band + 1, 0)
  {
    forall p: Pixel ensures HasPixel(i, band, i.colours, p) <==> HasPixel(i, band + 1, 0, p) {
    }
  }

  /** A band's rows, and its end. */
  lemma {:induction false} BandPaints(s: Sixels, i: Image, band: nat)
    requires AtBand(Settle(s), Settle(s), band) && Shows(i, Settle(s).canvas, band, 0)
    ensures var t := Feed(s, BandText(i, band));
            AtBand(Settle(s).(top := 6 * (band + 1)), t, band + 1) && Shows(i, t.canvas, band + 1, 0)
  {
    var rows := RowsText(i, band, i.colours);
    NoRowsPaint(s, i, band);
    RowsPaint(s, i, band, i.colours);
    FeedAppend(s, rows, "-");
    FeedOne(Feed(s, rows), '-');
    BandEnds(i, Settle(Feed(s, rows)).canvas, band);
  }

  /** `bands` bands, read from `s`. */
  ghost predicate BandsPainted(s: Sixels, i: Image, bands: nat) {
    var t := Settle(Feed(s, BandsText(i, bands)));
    AtBand(Settle(s).(top := 6 * bands), t, bands) && Shows(i, t.canvas, bands, 0)
  }

  lemma {:induction false} NoBandsPaint(s: Sixels, i: Image)
    requires AtBand(Settle(s), Settle(s), 0) && Shows(i, Settle(s).canvas, 0, 0)
    ensures BandsPainted(s, i, 0)
  {
  }

  lemma {:induction false} BandsPaintNext(s: Sixels, i: Image, bands: nat)
    requires BandsPainted(s, i, bands)
    ensures BandsPainted(s, i, bands + 1)
  {
    BandPaints(Feed(s, BandsText(i, bands)), i, bands);
    FeedAppend(s, BandsText(i, bands), BandText(i, bands));
  }

  lemma {:induction false} BandsPaint(s: Sixels, i: Image, bands: nat)
    requires BandsPainted(s, i, 0)
    ensures BandsPainted(s, i, bands)
  {
    for n := 0 to bands
      invariant BandsPainted(s, i, n)
    {
      BandsPaintNext(s, i, n);
    }
  }

  /**
   * A terminal that reads an image paints every pixel of it in its colour, and no other, however few
   * rows its last band has; of no colours, it paints none.
   */
  lemma {:induction false} ImagePaints(i: Image)
    ensures var t := Settle(Feed(BLANK, ImageText(i)));
            && t.raster == [1, 1, i.width, i.height]
            && t.palette == PaletteOf(i.colours)
            && (forall p: Pixel :: p in t.canvas <==> p.0 < i.width && p.1 < i.height && i.colours > 0)
            && (forall p: Pixel :: p in t.canvas ==> t.canvas[p] == ColourAt(i, p.0, p.1))
  {
    RasterReads(i);
    var s1 := Feed(BLANK, RasterText(i));
    PaletteReads(s1, i.colours);
    FeedAppend(BLANK, RasterText(i), PaletteText(i.colours));
    var s2 := Feed(s1, PaletteText(i.colours));
    NoBandsPaint(s2, i);
    BandsPaint(s2, i, Bands(i));
    FeedAppend(BLANK, RasterText(i) + PaletteText(i.colours), BandsText(i, Bands(i)));
    assert forall p: Pixel :: HasPixel(i, Bands(i), 0, p) <==> p.0 < i.width && p.1 < i.height && i.colours > 0;
  }
}
