/**
 * The census's sixel payload written as the generator writes it, a loop for each of frames, bands,
 * pixels, colours and runs, and then read back whole.
 */
module SixelFrames {
  import opened SixelDecoder
  import opened Sixel

  const ESC: char := '\U{1B}'

  /** The cursor homed, and a sixel image begun. */
  const OPENING: string := [ESC, '[', 'H', ESC, 'P'] + "0;1;0q"

  function FrameText(i: Image): string {
    OPENING + ImageText(i) + [ESC, '\\']
  }

  /** The `k`th frame after that of `i`. */
  function Later(i: Image, k: nat): Image { i.(frame := i.frame + k) }

  /** `n` frames, from that of `i` on. */
  function Frames(i: Image, n: nat): string {
    if n == 0 then [] else Frames(i, n - 1) + FrameText(Later(i, n - 1))
  }

  // ------------------------------------------------------------------ reading it all

  /** CUP; and DCS 0 ; 1 ; 0 q, of an image that leaves what it does not paint. */
  const HEADER: string := ['\U{1B}', '[', 'H', '\U{1B}', 'P', '0', ';', '1', ';', '0', 'q']

  datatype Read = Images(images: seq<Sixels>) | Garbled

  function FirstEscape(text: string): (at: nat)
    ensures at <= |text|
    ensures at < |text| ==> text[at] == ESC
    ensures forall k | 0 <= k < at :: text[k] != ESC
  {
    if text == [] || text[0] == ESC then 0 else 1 + FirstEscape(text[1..])
  }

  /** A stream of sixel frames, each read from blank, and nothing else. */
  function ReadFrames(text: string): Read
    decreases |text|
  {
    if text == [] then Images([])
    else if HEADER <= text then
      var body := text[|HEADER|..];
      var end := FirstEscape(body);
      if end + 1 < |body| && body[end + 1] == '\\' then
        match ReadFrames(body[end + 2..])
        case Garbled => Garbled
        case Images(rest) => Images([Settle(Feed(BLANK, body[..end]))] + rest)
      else Garbled
    else Garbled
  }

  /** Nothing an image's text has ends it. */
  ghost predicate Plain(text: string) {
    forall k | 0 <= k < |text| :: text[k] != ESC
  }

  lemma {:induction false} DecimalPlain(n: nat)
    ensures Plain(Decimal(n))
    decreases n
  {
    if n >= 10 {
      DecimalPlain(n / 10);
    }
  }

  lemma {:induction false} RunsAfterPlain(b: nat, n: nat, row: seq<nat>)
    requires b < 64 && Sixes(row)
    ensures Plain(RunsAfter(b, n, row))
    decreases |row|
  {
    DecimalPlain(n);
    if row != [] {
      if row[0] == b {
        RunsAfterPlain(b, n + 1, row[1..]);
      } else {
        RunsAfterPlain(row[0], 1, row[1..]);
      }
    }
  }

  lemma {:induction false} RowPlain(i: Image, band: nat, c: nat)
    ensures Plain(RowText(i, band, c))
  {
    var row := RowOf(i, band, c);
    if exists x | 0 <= x < |row| :: row[x] != 0 {
      DecimalPlain(c);
      RunsAfterPlain(row[0], 1, row[1..]);
      PlainBoth("#", Decimal(c));
      PlainBoth("#" + Decimal(c), Runs(row));
      PlainBoth("#" + Decimal(c) + Runs(row), "$");
    }
  }

  lemma {:induction false} RowsPlain(i: Image, band: nat, c: nat)
    ensures Plain(RowsText(i, band, c))
  {
    for n := 0 to c
      invariant Plain(RowsText(i, band, n))
    {
      RowPlain(i, band, n);
      PlainBoth(RowsText(i, band, n), RowText(i, band, n));
    }
  }

  lemma {:induction false} BandPlain(i: Image, band: nat)
    ensures Plain(BandText(i, band))
  {
    RowsPlain(i, band, i.colours);
  }

  lemma {:induction false} PlainBoth(a: string, b: string)
    requires Plain(a) && Plain(b)
    ensures Plain(a + b)
  {
  }

  lemma {:induction false} BandsPlain(i: Image, bands: nat)
    ensures Plain(BandsText(i, bands))
  {
    for n := 0 to bands
      invariant Plain(BandsText(i, n))
    {
      BandPlain(i, n);
      PlainBoth(BandsText(i, n), BandText(i, n));
    }
  }

  lemma {:induction false} PalettePlain(c: nat)
    ensures Plain(PaletteText(c))
  {
    if c > 0 {
      PalettePlain(c - 1);
      DecimalPlain(c - 1);
      DecimalPlain(2);
      DecimalPlain(Level(c - 1, 7));
      DecimalPlain(Level(c - 1, 13));
      DecimalPlain(Level(c - 1, 29));
    }
  }

  lemma {:induction false} ImagePlain(i: Image)
    ensures Plain(ImageText(i))
  {
    DecimalPlain(1);
    DecimalPlain(i.width);
    DecimalPlain(i.height);
    PalettePlain(i.colours);
    BandsPlain(i, Bands(i));
  }

  lemma {:induction false} FirstEscapeIs(text: string, at: nat)
    requires at < |text| && text[at] == ESC && forall k | 0 <= k < at :: text[k] != ESC
    ensures FirstEscape(text) == at
  {
  }

  /** A text that nothing ends, read as a frame, then what comes after it. */
  lemma {:induction false} FrameReads(whole: string, text: string, rest: string)
    requires whole == HEADER + text + [ESC, '\\'] + rest && Plain(text) && ReadFrames(rest).Images?
    ensures ReadFrames(whole) == Images([Settle(Feed(BLANK, text))] + ReadFrames(rest).images)
  {
    var body := whole[|HEADER|..];
    assert whole[..|HEADER|] == HEADER;
    assert body == text + [ESC, '\\'] + rest;
    FirstEscapeIs(body, |text|);
    assert body[..|text|] == text && body[|text| + 2..] == rest;
  }

  lemma {:induction false} Grouped(a: string, b: string, c: string, d: string, e: string)
    ensures a + (b + (c + d)) == a + b + c + d
    ensures a + b + c + d + e == a + b + c + (d + e)
  {
    assert a + (b + (c + d)) == a + b + (c + d) == a + b + c + d;
  }

  lemma {:induction false} Ends(body: string, at: nat)
    requires at + 1 < |body| && body[at] == ESC && body[at + 1] == '\\'
    ensures body == body[..at] + ([ESC, '\\'] + body[at + 2..])
  {
  }

  lemma {:induction false} Begins(a: string, b: string)
    requires a <= b
    ensures b == a + b[|a|..]
  {
  }

  /** The first frame of what reads as frames. */
  lemma {:induction false} FirstFrame(a: string) returns (text: string, rest: string)
    requires ReadFrames(a).Images? && a != []
    ensures Plain(text) && ReadFrames(rest).Images? && a == HEADER + text + [ESC, '\\'] + rest
  {
    var body := a[|HEADER|..];
    var end := FirstEscape(body);
    text, rest := body[..end], body[end + 2..];
    Begins(HEADER, a);
    Ends(body, end);
    Grouped(HEADER, text, [ESC, '\\'], rest, []);
  }

  lemma {:induction false} JoinImages(first: seq<Sixels>, rest: seq<Sixels>, more: seq<Sixels>)
    ensures first + (rest + more) == first + rest + more
  {
  }

  /** Frames after frames read as the first, then the others. */
  lemma {:induction false} ReadsOn(a: string, b: string, whole: string)
    requires ReadFrames(a).Images? && ReadFrames(b).Images? && whole == a + b
    ensures ReadFrames(whole) == Images(ReadFrames(a).images + ReadFrames(b).images)
    decreases |a|
  {
    if a == [] {
      assert whole == b;
    } else {
      var text, rest := FirstFrame(a);
      ReadsOn(rest, b, rest + b);
      ReadsOnNext(a, text, rest, b, whole, rest + b);
    }
  }

  lemma {:induction false} ReadsOnNext(a: string, text: string, rest: string, b: string, whole: string, after: string)
    requires a == HEADER + text + [ESC, '\\'] + rest && whole == a + b && after == rest + b
    requires Plain(text) && ReadFrames(a).Images? && ReadFrames(rest).Images? && ReadFrames(b).Images?
    requires ReadFrames(after) == Images(ReadFrames(rest).images + ReadFrames(b).images)
    ensures ReadFrames(whole) == Images(ReadFrames(a).images + ReadFrames(b).images)
  {
    Grouped(HEADER, text, [ESC, '\\'], rest, b);
    FrameReads(a, text, rest);
    FrameReads(whole, text, after);
    JoinImages([Settle(Feed(BLANK, text))], ReadFrames(rest).images, ReadFrames(b).images);
  }

  /** An image read: its size, its palette, and every pixel of it in its colour. */
  ghost predicate ShowsImage(t: Sixels, i: Image) {
    && t.raster == [1, 1, i.width, i.height]
    && t.palette == PaletteOf(i.colours)
    && (forall p: Pixel :: p in t.canvas <==> p.0 < i.width && p.1 < i.height && i.colours > 0)
    && (forall p: Pixel :: p in t.canvas ==> t.canvas[p] == ColourAt(i, p.0, p.1))
  }

  lemma {:induction false} FrameShows(i: Image)
    ensures ReadFrames(FrameText(i)).Images? && |ReadFrames(FrameText(i)).images| == 1
    ensures ShowsImage(ReadFrames(FrameText(i)).images[0], i)
  {
    ImagePlain(i);
    assert OPENING == HEADER;
    FrameReads(FrameText(i), ImageText(i), []);
    ImagePaints(i);
  }

  ghost predicate ShowsFrom(images: seq<Sixels>, i: Image) {
    forall k | 0 <= k < |images| :: ShowsImage(images[k], Later(i, k))
  }

  lemma {:induction false} ShowsFromNext(images: seq<Sixels>, last: Sixels, i: Image)
    requires ShowsFrom(images, i) && ShowsImage(last, Later(i, |images|))
    ensures ShowsFrom(images + [last], i)
  {
  }

  lemma {:induction false} FramesReadNext(i: Image, before: string, text: string, n: nat)
    requires ReadFrames(before).Images? && |ReadFrames(before).images| == n && ShowsFrom(ReadFrames(before).images, i)
    requires ReadFrames(text).Images? && |ReadFrames(text).images| == 1
             && ShowsImage(ReadFrames(text).images[0], Later(i, n))
    ensures var read := ReadFrames(before + text);
            read.Images? && |read.images| == n + 1 && ShowsFrom(read.images, i)
  {
    ReadsOn(before, text, before + text);
    ShowsFromNext(ReadFrames(before).images, ReadFrames(text).images[0], i);
    assert ReadFrames(text).images == [ReadFrames(text).images[0]];
  }

  /** A payload reads as its frames, in order, each painting its every pixel. */
  lemma {:induction false} FramesReadBack(i: Image, n: nat)
    ensures var read := ReadFrames(Frames(i, n));
            read.Images? && |read.images| == n && ShowsFrom(read.images, i)
  {
    if n > 0 {
      FramesReadBack(i, n - 1);
      FrameShows(Later(i, n - 1));
      FramesReadNext(i, Frames(i, n - 1), FrameText(Later(i, n - 1)), n - 1);
    }
  }

  // ------------------------------------------------------------------- writing it

  /** Writes a row's runs by a loop that holds one run open. */
  method WriteRuns(row: seq<nat>) returns (text: string)
    requires Sixes(row)
    ensures text == Runs(row)
  {
    text := [];
    if row == [] {
      return;
    }
    var (glyph, n) := (row[0], 1);
    var k := 1;
    while k < |row|
      invariant 1 <= k <= |row| && glyph < 64 && n > 0
      invariant Runs(row) == text + RunsAfter(glyph, n, row[k..])
    {
      if row[k] == glyph {
        n := n + 1;
      } else {
        text := text + Run(glyph, n);
        glyph, n := row[k], 1;
      }
      k := k + 1;
    }
    text := text + Run(glyph, n);
  }

  /** How many sixels a band has, of each of its colours. */
  function Size(i: Image): nat
  {
    NotNegative(i.colours, i.width);
    i.colours * i.width
  }

  lemma {:induction false} NotNegative(a: nat, b: nat)
    ensures a * b >= 0
  {
  }

  /** Where a colour's sixel of a column is kept. */
  function Index(width: nat, c: nat, x: nat): nat { c * width + x }

  lemma {:induction false} TimesNext(width: nat, c: nat)
    ensures (c + 1) * width == c * width + width
  {
  }

  lemma {:induction false} TimesGrows(width: nat, c: nat, c': nat)
    requires c <= c'
    ensures c * width <= c' * width
  {
  }

  lemma {:induction false} IndexGrows(width: nat, c: nat, x: nat, c': nat, x': nat)
    requires x < width && c < c'
    ensures Index(width, c, x) < c' * width <= Index(width, c', x')
  {
    TimesNext(width, c);
    TimesGrows(width, c + 1, c');
  }

  lemma {:induction false} IndexIsOne(width: nat, c: nat, x: nat, c': nat, x': nat)
    requires x < width && x' < width
    ensures Index(width, c, x) == Index(width, c', x') ==> c == c' && x == x'
  {
    if c < c' {
      IndexGrows(width, c, x, c', x');
    } else if c' < c {
      IndexGrows(width, c', x', c, x);
    }
  }

  /** A bit set, of those that are not six. */
  function OrBit(b: nat, dy: nat): nat {
    if Bit(b, dy) then b else b + Pow2(dy)
  }

  lemma {:induction false} SixFromNext(i: Image, c: nat, x: nat, y: nat, k: nat)
    ensures SixFrom(i, c, x, y, k + 1) ==
            if InColour(i, c, x, y + k) then OrBit(SixFrom(i, c, x, y, k), k) else SixFrom(i, c, x, y, k)
    decreases k
  {
    SixFromAdds(i, c, x, y, k);
    SmallHasNot(SixFrom(i, c, x, y, k), k);
  }

  lemma {:induction false} SixFromAdds(i: Image, c: nat, x: nat, y: nat, k: nat)
    ensures SixFrom(i, c, x, y, k + 1) == SixFrom(i, c, x, y, k) + if InColour(i, c, x, y + k) then Pow2(k) else 0
    decreases k
  {
    if k > 0 {
      SixFromAdds(i, c, x, y + 1, k - 1);
    }
  }

  lemma {:induction false} SmallHasNot(b: nat, k: nat)
    requires b < Pow2(k)
    ensures !Bit(b, k)
    decreases k
  {
    if k > 0 {
      SmallHasNot(b / 2, k - 1);
    }
  }

  /** Every colour's sixels of the columns before `x`, and of `x` as far as `dy`. */
  ghost predicate Filled(i: Image, bits: seq<nat>, band: nat, x: nat, dy: nat) {
    && |bits| == Size(i)
    && forall c: nat, x': nat | c < i.colours && x' < i.width && Index(i.width, c, x') < |bits| ::
         bits[Index(i.width, c, x')] ==
           if x' < x then SixFrom(i, c, x', 6 * band, 6) else if x' == x then SixFrom(i, c, x', 6 * band, dy) else 0
  }

  lemma {:induction false} FillsPixel(i: Image, bits: seq<nat>, band: nat, x: nat, dy: nat)
    requires Filled(i, bits, band, x, dy) && x < i.width && dy < 6
    ensures var y := 6 * band + dy;
            var at := Index(i.width, ColourAt(i, x, y), x);
            Filled(i, if y < i.height && at < |bits| then bits[at := OrBit(bits[at], dy)] else bits, band, x, dy + 1)
  {
    var y := 6 * band + dy;
    var at := Index(i.width, ColourAt(i, x, y), x);
    var after := if y < i.height && at < |bits| then bits[at := OrBit(bits[at], dy)] else bits;
    forall c: nat, x': nat | c < i.colours && x' < i.width && Index(i.width, c, x') < |bits|
      ensures after[Index(i.width, c, x')] ==
           if x' < x then SixFrom(i, c, x', 6 * band, 6) else if x' == x then SixFrom(i, c, x', 6 * band, dy + 1) else 0
    {
      SixFromNext(i, c, x, 6 * band, dy);
      IndexGrows(i.width, ColourAt(i, x, y), x, i.colours, 0);
      IndexIsOne(i.width, c, x', ColourAt(i, x, y), x);
    }
  }

  /** Fills the array with each colour's sixels, a column of six pixels at a time. */
  method FillBand(i: Image, bits: array<nat>, band: nat)
    requires bits.Length == Size(i)
    modifies bits
    ensures Filled(i, bits[..], band, i.width, 0)
  {
    for k := 0 to bits.Length
      invariant forall j | 0 <= j < k :: bits[j] == 0
    {
      bits[k] := 0;
    }
    for x := 0 to i.width
      invariant Filled(i, bits[..], band, x, 0)
    {
      for dy := 0 to 6
        invariant Filled(i, bits[..], band, x, dy)
      {
        var y := 6 * band + dy;
        var at := Index(i.width, ColourAt(i, x, y), x);
        FillsPixel(i, bits[..], band, x, dy);
        if y < i.height && at < bits.Length {
          bits[at] := OrBit(bits[at], dy);
        }
      }
      assert Filled(i, bits[..], band, x + 1, 0);
    }
  }

  lemma {:induction false} IndexRow(width: nat, colours: nat, c: nat)
    requires c < colours
    ensures Index(width, c, 0) + width == Index(width, c + 1, 0) <= colours * width
  {
    TimesNext(width, c);
    TimesGrows(width, c + 1, colours);
  }

  lemma {:induction false} FilledRow(i: Image, bits: seq<nat>, band: nat, c: nat)
    requires Filled(i, bits, band, i.width, 0) && c < i.colours
    ensures Index(i.width, c, 0) <= Index(i.width, c + 1, 0) <= |bits|
    ensures bits[Index(i.width, c, 0)..Index(i.width, c + 1, 0)] == RowOf(i, band, c)
  {
    IndexRow(i.width, i.colours, c);
    var at := Index(i.width, c, 0);
    var row := bits[at..at + i.width];
    forall x | 0 <= x < i.width ensures row[x] == RowOf(i, band, c)[x] {
      IndexGrows(i.width, c, x, i.colours, 0);
      assert row[x] == bits[at + x] && at + x == Index(i.width, c, x);
    }
  }

  /** A colour's row of the band filled, if the band has any of it. */
  method WriteRow(i: Image, bits: array<nat>, band: nat, c: nat) returns (text: string)
    requires Filled(i, bits[..], band, i.width, 0) && c < i.colours
    ensures text == RowText(i, band, c)
  {
    FilledRow(i, bits[..], band, c);
    var row := bits[Index(i.width, c, 0)..Index(i.width, c + 1, 0)];
    if forall x | 0 <= x < |row| :: row[x] == 0 {
      return [];
    }
    var runs := WriteRuns(row);
    text := "#" + Decimal(c) + runs + "$";
  }

  /** A band: a row for each colour it has. */
  method WriteBand(i: Image, bits: array<nat>, band: nat) returns (text: string)
    requires bits.Length == Size(i)
    modifies bits
    ensures text == BandText(i, band)
  {
    FillBand(i, bits, band);
    text := [];
    for c := 0 to i.colours
      invariant Filled(i, bits[..], band, i.width, 0)
      invariant text == RowsText(i, band, c)
    {
      var row := WriteRow(i, bits, band, c);
      text := text + row;
    }
    text := text + "-";
  }

  method WritePalette(colours: nat) returns (text: string)
    ensures text == PaletteText(colours)
  {
    text := [];
    for c := 0 to colours
      invariant text == PaletteText(c)
    {
      text := text + Defined(c);
    }
  }

  method WriteBands(i: Image) returns (text: string)
    ensures text == BandsText(i, Bands(i))
  {
    text := [];
    var bits := new nat[Size(i)];
    for band := 0 to Bands(i)
      invariant text == BandsText(i, band)
    {
      var written := WriteBand(i, bits, band);
      text := text + written;
    }
  }

  method WriteImage(i: Image) returns (text: string)
    ensures text == ImageText(i)
  {
    var palette := WritePalette(i.colours);
    var bands := WriteBands(i);
    text := RasterText(i) + palette + bands;
  }

  /** Writes frames until the size is reached. */
  method WriteFrames(size: nat, width: nat, height: nat, colours: nat) returns (out: string)
    ensures |out| >= size
    ensures exists n: nat ::
              && out == Frames(Image(width, height, colours, 0), n)
              && (n > 0 ==> |Frames(Image(width, height, colours, 0), n - 1)| < size)
  {
    var first := Image(width, height, colours, 0);
    out := [];
    var frame := 0;
    while |out| < size
      invariant out == Frames(first, frame)
      invariant frame > 0 ==> |Frames(first, frame - 1)| < size
      decreases size - |out|
    {
      var i := Image(width, height, colours, frame);
      assert i == Later(first, frame);
      var text := WriteImage(i);
      out := out + (OPENING + text + [ESC, '\\']);
      frame := frame + 1;
    }
  }
}
