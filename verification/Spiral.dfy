/**
 * The census's spiral (`cursor_motion` of bench/src/census.rs), on a screen of any size: nested
 * rings, and the cells they visit.
 */
module Spiral {
  import opened Sequences

  /** A letter drawn at a cell, the first at line 1 and column 1. */
  datatype Drawn = Drawn(line: int, column: int, letter: char)

  // ----------------------------------------------------------------- the four sides

  function East(c: char, line: int, from: int, until: int): seq<Drawn>
    decreases until - from
  {
    if from >= until then [] else [Drawn(line, from, c)] + East(c, line, from + 1, until)
  }

  function South(c: char, column: int, from: int, until: int): seq<Drawn>
    decreases until - from
  {
    if from >= until then [] else [Drawn(from, column, c)] + South(c, column, from + 1, until)
  }

  function West(c: char, line: int, from: int, until: int): seq<Drawn>
    decreases from - until
  {
    if from <= until then [] else [Drawn(line, from, c)] + West(c, line, from - 1, until)
  }

  function North(c: char, column: int, from: int, until: int): seq<Drawn>
    decreases from - until
  {
    if from <= until then [] else [Drawn(from, column, c)] + North(c, column, from - 1, until)
  }

  /** Once round an edge. */
  function Ring(c: char, left: int, right: int, top: int, bottom: int): seq<Drawn> {
    East(c, top, left, right) + South(c, right, top, bottom)
    + West(c, bottom, right, left) + North(c, left, bottom, top)
  }

  /** Rings, each inside the last, while there is an inside. */
  function Rings(c: char, left: int, right: int, top: int, bottom: int): seq<Drawn>
    decreases right - left
  {
    Ring(c, left, right, top, bottom)
    + if left + 1 > right - 1 || top + 1 > bottom - 1 then [] else Rings(c, left + 1, right - 1, top + 1, bottom - 1)
  }

  lemma {:induction false} RingsFirst(out: seq<Drawn>, c: char, left: int, right: int, top: int, bottom: int)
    ensures out + Rings(c, left, right, top, bottom) ==
            out + Ring(c, left, right, top, bottom)
            + if left + 1 > right - 1 || top + 1 > bottom - 1 then []
              else Rings(c, left + 1, right - 1, top + 1, bottom - 1)
  {
    Joined(out, Ring(c, left, right, top, bottom),
           if left + 1 > right - 1 || top + 1 > bottom - 1 then []
             else Rings(c, left + 1, right - 1, top + 1, bottom - 1));
  }

  function Letter(k: nat): char
    requires k < 26
  {
    ('A' as nat + k) as char
  }

  /** The first `k` letters drawn. */
  function Letters(rows: nat, columns: nat, k: nat): seq<Drawn>
    requires k <= 26
  {
    if k == 0 then [] else Letters(rows, columns, k - 1) + Rings(Letter(k - 1), 1, columns, 1, rows)
  }

  // ------------------------------------------------------------------ the generator

  method DrawRings(c: char, rows: nat, columns: nat) returns (out: seq<Drawn>)
    requires rows > 0 && columns > 0
    ensures out == Rings(c, 1, columns, 1, rows)
  {
    out := [];
    var left, right, top, bottom := 1, columns, 1, rows;
    while true
      invariant 1 <= left <= right && 1 <= top <= bottom
      invariant Rings(c, 1, columns, 1, rows) == out + Rings(c, left, right, top, bottom)
      decreases right - left
    {
      var round := DrawRing(c, left, right, top, bottom);
      RingsFirst(out, c, left, right, top, bottom);
      out := out + round;
      left, top, right, bottom := left + 1, top + 1, right - 1, bottom - 1;
      if left > right || top > bottom {
        break;
      }
    }
  }

  method DrawEast(c: char, line: int, left: int, right: int) returns (out: seq<Drawn>, column: int)
    requires left <= right
    ensures out == East(c, line, left, right) && column == right
  {
    out, column := [], left;
    while column < right
      invariant left <= column <= right
      invariant East(c, line, left, right) == out + East(c, line, column, right)
    {
      out := out + [Drawn(line, column, c)];
      column := column + 1;
    }
  }

  method DrawSouth(c: char, column: int, top: int, bottom: int) returns (out: seq<Drawn>, line: int)
    requires top <= bottom
    ensures out == South(c, column, top, bottom) && line == bottom
  {
    out, line := [], top;
    while line < bottom
      invariant top <= line <= bottom
      invariant South(c, column, top, bottom) == out + South(c, column, line, bottom)
    {
      out := out + [Drawn(line, column, c)];
      line := line + 1;
    }
  }

  method DrawWest(c: char, line: int, right: int, left: int) returns (out: seq<Drawn>, column: int)
    requires left <= right
    ensures out == West(c, line, right, left) && column == left
  {
    out, column := [], right;
    while column > left
      invariant left <= column <= right
      invariant West(c, line, right, left) == out + West(c, line, column, left)
    {
      out := out + [Drawn(line, column, c)];
      column := column - 1;
    }
  }

  method DrawNorth(c: char, column: int, bottom: int, top: int) returns (out: seq<Drawn>, line: int)
    requires top <= bottom
    ensures out == North(c, column, bottom, top) && line == top
  {
    out, line := [], bottom;
    while line > top
      invariant top <= line <= bottom
      invariant North(c, column, bottom, top) == out + North(c, column, line, top)
    {
      out := out + [Drawn(line, column, c)];
      line := line - 1;
    }
  }

  method DrawRing(c: char, left: int, right: int, top: int, bottom: int) returns (out: seq<Drawn>)
    requires left <= right && top <= bottom
    ensures out == Ring(c, left, right, top, bottom)
  {
    var east, column := DrawEast(c, top, left, right);
    var south, line := DrawSouth(c, column, top, bottom);
    var west, north;
    west, column := DrawWest(c, line, column, left);
    north, line := DrawNorth(c, column, line, top);
    out := east + south + west + north;
  }

  method CursorMotion(rows: nat, columns: nat) returns (out: seq<Drawn>)
    requires rows > 0 && columns > 0
    ensures out == Letters(rows, columns, 26)
  {
    out := [];
    for k := 0 to 26
      invariant out == Letters(rows, columns, k)
    {
      var rings := DrawRings(Letter(k), rows, columns);
      out := out + rings;
    }
  }

  // ------------------------------------------------------------------ how often

  function Count(out: seq<Drawn>, d: Drawn): nat {
    if out == [] then 0 else (if out[0] == d then 1 else 0) + Count(out[1..], d)
  }

  lemma {:induction false} CountAppend(a: seq<Drawn>, b: seq<Drawn>, d: Drawn)
    ensures Count(a + b, d) == Count(a, d) + Count(b, d)
  {
    if a == [] {
      assert a + b == b;
    } else {
      assert (a + b)[1..] == a[1..] + b;
      CountAppend(a[1..], b, d);
    }
  }

  lemma {:induction false} CountEast(c: char, line: int, from: int, until: int, d: Drawn)
    ensures Count(East(c, line, from, until), d) ==
            if d.letter == c && d.line == line && from <= d.column < until then 1 else 0
    decreases until - from
  {
    if from < until {
      assert East(c, line, from, until)[1..] == East(c, line, from + 1, until);
      CountEast(c, line, from + 1, until, d);
    }
  }

  lemma {:induction false} CountSouth(c: char, column: int, from: int, until: int, d: Drawn)
    ensures Count(South(c, column, from, until), d) ==
            if d.letter == c && d.column == column && from <= d.line < until then 1 else 0
    decreases until - from
  {
    if from < until {
      assert South(c, column, from, until)[1..] == South(c, column, from + 1, until);
      CountSouth(c, column, from + 1, until, d);
    }
  }

  lemma {:induction false} CountWest(c: char, line: int, from: int, until: int, d: Drawn)
    ensures Count(West(c, line, from, until), d) ==
            if d.letter == c && d.line == line && until < d.column <= from then 1 else 0
    decreases from - until
  {
    if from > until {
      assert West(c, line, from, until)[1..] == West(c, line, from - 1, until);
      CountWest(c, line, from - 1, until, d);
    }
  }

  lemma {:induction false} CountNorth(c: char, column: int, from: int, until: int, d: Drawn)
    ensures Count(North(c, column, from, until), d) ==
            if d.letter == c && d.column == column && until < d.line <= from then 1 else 0
    decreases from - until
  {
    if from > until {
      assert North(c, column, from, until)[1..] == North(c, column, from - 1, until);
      CountNorth(c, column, from - 1, until, d);
    }
  }

  predicate Within(left: int, right: int, top: int, bottom: int, d: Drawn) {
    left <= d.column <= right && top <= d.line <= bottom
  }

  lemma {:induction false} CountSides(c: char, left: int, right: int, top: int, bottom: int, d: Drawn)
    ensures Count(Ring(c, left, right, top, bottom), d) ==
            Count(East(c, top, left, right), d) + Count(South(c, right, top, bottom), d)
            + Count(West(c, bottom, right, left), d) + Count(North(c, left, bottom, top), d)
  {
    var (e, s, w, n) := (East(c, top, left, right), South(c, right, top, bottom), West(c, bottom, right, left),
      North(c, left, bottom, top));
    CountAppend(e + s + w, n, d);
    CountAppend(e + s, w, d);
    CountAppend(e, s, d);
  }

  /** Round an edge of two lines and two columns or more, each cell of it is drawn once. */
  lemma {:induction false} CountRing(c: char, left: int, right: int, top: int, bottom: int, d: Drawn)
    requires left < right && top < bottom
    ensures Count(Ring(c, left, right, top, bottom), d) ==
            if d.letter == c && Within(left, right, top, bottom, d)
               && !Within(left + 1, right - 1, top + 1, bottom - 1, d) then 1
            else 0
  {
    CountSides(c, left, right, top, bottom, d);
    CountEast(c, top, left, right, d);
    CountSouth(c, right, top, bottom, d);
    CountWest(c, bottom, right, left, d);
    CountNorth(c, left, bottom, top, d);
  }

  /** There and back along one line or column: the ends once, what is between them twice; one cell alone, not at all. */
  lemma {:induction false} CountThin(c: char, left: int, right: int, top: int, bottom: int, d: Drawn)
    requires left <= right && top <= bottom && (left == right || top == bottom)
    ensures Count(Ring(c, left, right, top, bottom), d) ==
            if d.letter != c || !Within(left, right, top, bottom, d) || (left == right && top == bottom) then 0
            else if (d.line == top && d.column == left) || (d.line == bottom && d.column == right) then 1
            else 2
  {
    CountSides(c, left, right, top, bottom, d);
    CountEast(c, top, left, right, d);
    CountSouth(c, right, top, bottom, d);
    CountWest(c, bottom, right, left, d);
    CountNorth(c, left, bottom, top, d);
  }

  /** The smaller side even, or one less than the other: no cell is left over or gone back over. */
  predicate Fits(rows: int, columns: int) {
    var (least, most) := if rows < columns then (rows, columns) else (columns, rows);
    least % 2 == 0 || most == least + 1
  }

  lemma {:induction false} CountRings(c: char, left: int, right: int, top: int, bottom: int, d: Drawn)
    requires left <= right && top <= bottom && Fits(bottom - top + 1, right - left + 1)
    ensures Count(Rings(c, left, right, top, bottom), d) ==
            if d.letter == c && Within(left, right, top, bottom, d) then 1 else 0
    decreases right - left
  {
    var ring := Ring(c, left, right, top, bottom);
    if left == right || top == bottom {
      CountThin(c, left, right, top, bottom, d);
      CountAppend(ring, [], d);
    } else {
      CountRing(c, left, right, top, bottom, d);
      if left + 1 > right - 1 || top + 1 > bottom - 1 {
        CountAppend(ring, [], d);
      } else {
        CountAppend(ring, Rings(c, left + 1, right - 1, top + 1, bottom - 1), d);
        CountRings(c, left + 1, right - 1, top + 1, bottom - 1, d);
      }
    }
  }

  /** Of any other size, some cell is drawn twice, or not at all. */
  lemma {:induction false} RingsMiss(c: char, left: int, right: int, top: int, bottom: int) returns (d: Drawn)
    requires left <= right && top <= bottom && !Fits(bottom - top + 1, right - left + 1)
    ensures d.letter == c && Within(left, right, top, bottom, d) && Count(Rings(c, left, right, top, bottom), d) != 1
    decreases right - left
  {
    var ring := Ring(c, left, right, top, bottom);
    if left == right || top == bottom {
      d := if left == right && top == bottom then Drawn(top, left, c)
           else if left == right then Drawn(top + 1, left, c) else Drawn(top, left + 1, c);
      CountThin(c, left, right, top, bottom, d);
      CountAppend(ring, [], d);
    } else {
      d := RingsMiss(c, left + 1, right - 1, top + 1, bottom - 1);
      CountRing(c, left, right, top, bottom, d);
      CountAppend(ring, Rings(c, left + 1, right - 1, top + 1, bottom - 1), d);
    }
  }

  lemma {:induction false} CountLetters(rows: nat, columns: nat, k: nat, d: Drawn)
    requires k <= 26 && rows > 0 && columns > 0
    ensures Count(Letters(rows, columns, k), d) ==
            if 'A' <= d.letter && (d.letter as int) < 'A' as int + k then Count(Rings(d.letter, 1, columns, 1, rows), d)
            else 0
  {
    if k > 0 {
      CountLetters(rows, columns, k - 1, d);
      CountAppend(Letters(rows, columns, k - 1), Rings(Letter(k - 1), 1, columns, 1, rows), d);
      if d.letter != Letter(k - 1) {
        OtherLetters(Letter(k - 1), 1, columns, 1, rows, d);
      }
    }
  }

  lemma {:induction false} OtherLetters(c: char, left: int, right: int, top: int, bottom: int, d: Drawn)
    requires d.letter != c
    ensures Count(Rings(c, left, right, top, bottom), d) == 0
    decreases right - left
  {
    var ring := Ring(c, left, right, top, bottom);
    CountSides(c, left, right, top, bottom, d);
    CountEast(c, top, left, right, d);
    CountSouth(c, right, top, bottom, d);
    CountWest(c, bottom, right, left, d);
    CountNorth(c, left, bottom, top, d);
    if left + 1 > right - 1 || top + 1 > bottom - 1 {
      CountAppend(ring, [], d);
    } else {
      CountAppend(ring, Rings(c, left + 1, right - 1, top + 1, bottom - 1), d);
      OtherLetters(c, left + 1, right - 1, top + 1, bottom - 1, d);
    }
  }

  /** On a screen. */
  predicate OnScreen(rows: nat, columns: nat, d: Drawn) {
    Within(1, columns, 1, rows, d) && 'A' <= d.letter <= 'Z'
  }

  /** Each letter is drawn once in each cell, and nothing else is, exactly on screens that fit. */
  lemma {:induction false} EveryCellOnce(rows: nat, columns: nat)
    requires rows > 0 && columns > 0
    ensures Fits(rows, columns) <==>
            forall d: Drawn :: Count(Letters(rows, columns, 26), d) == if OnScreen(rows, columns, d) then 1 else 0
  {
    forall d: Drawn
      ensures Fits(rows, columns) ==>
              Count(Letters(rows, columns, 26), d) == if OnScreen(rows, columns, d) then 1 else 0
    {
      CountLetters(rows, columns, 26, d);
      if Fits(rows, columns) {
        CountRings(d.letter, 1, columns, 1, rows, d);
      }
    }
    if !Fits(rows, columns) {
      var d := RingsMiss('A', 1, columns, 1, rows);
      CountLetters(rows, columns, 26, d);
    }
  }
}
