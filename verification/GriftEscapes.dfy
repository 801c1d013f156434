/**
 * Strings of grift data with any escape in them (`ESCAPES` and `unescaped` of agentbench/drivers.py): named,
 * by a code in hexadecimal, or a character that stands for itself.
 */
module GriftEscapes {
  import opened GriftText

  /** A character of a string, as it is written. */
  datatype Piece =
    | Plain(c: Rune)
    | Newline
    | Return
    | Tab
    | Itself(c: Rune)
    | Coded(code: nat, upper: bool)

  /** No backslash is plain; and no letter that names an escape, or begins a code, stands for itself. */
  predicate IsPiece(p: Piece) {
    match p
    case Plain(c) => c != 92
    case Itself(c) => c != 110 && c != 114 && c != 116 && c != 120
    case _ => true
  }

  /** One hexadecimal digit. */
  function HexDigit(n: nat, upper: bool): (c: Rune)
    requires n < 16
    ensures IsHex(c) && HexOf(c) == n
  {
    if n < 10 then (48 + n) as Rune else if upper then (55 + n) as Rune else (87 + n) as Rune
  }

  /** A number in hexadecimal. */
  function Hex(n: nat, upper: bool): (digits: Text)
    ensures digits != [] && forall i | 0 <= i < |digits| :: IsHex(digits[i])
  {
    (if n < 16 then [] else Hex(n / 16, upper)) + [HexDigit(n % 16, upper)]
  }

  function WrittenAs(p: Piece): Text {
    match p
    case Plain(c) => [c]
    case Newline => [92, 110]
    case Return => [92, 114]
    case Tab => [92, 116]
    case Itself(c) => [92, c]
    case Coded(code, upper) => [92, 120] + Hex(code, upper) + [59]
  }

  /** The character a piece is; of a code past the last character's, none. */
  function CharacterOf(p: Piece): Option<Rune> {
    match p
    case Plain(c) => Some(c)
    case Newline => Some(10)
    case Return => Some(13)
    case Tab => Some(9)
    case Itself(c) => Some(c)
    case Coded(code, _) => if code <= 0x10ffff then Some(code as Rune) else None
  }

  function WrittenAll(pieces: seq<Piece>): Text {
    if pieces == [] then [] else WrittenAs(pieces[0]) + WrittenAll(pieces[1..])
  }

  function CharactersOf(pieces: seq<Piece>): Option<Text> {
    if pieces == [] then Some([])
    else
      match (CharacterOf(pieces[0]), CharactersOf(pieces[1..]))
      case (Some(c), Some(rest)) => Some([c] + rest)
      case _ => None
  }

  lemma {:induction false} HexIs(n: nat, upper: bool)
    ensures HexValue(Hex(n, upper)) == n
    decreases n
  {
    var digits := Hex(n, upper);
    var last := |digits| - 1;
    if n < 16 {
      assert digits[..last] == [];
    } else {
      HexIs(n / 16, upper);
      assert digits[..last] == Hex(n / 16, upper);
    }
  }

  lemma {:induction false} HexRunIs(digits: Text, rest: Text)
    requires (forall i | 0 <= i < |digits| :: IsHex(digits[i])) && (rest != [] ==> !IsHex(rest[0]))
    ensures HexRun(digits + rest) == |digits|
  {
    if digits == [] {
      assert digits + rest == rest;
    } else {
      assert (digits + rest)[1..] == digits[1..] + rest;
      HexRunIs(digits[1..], rest);
    }
  }

  lemma {:induction false} CodedReads(code: nat, upper: bool, rest: Text)
    ensures Unescaped(WrittenAs(Coded(code, upper)) + rest) ==
            if code <= 0x10ffff then After([code as Rune], Unescaped(rest)) else None
  {
    HexIs(code, upper);
    CodeReads(Hex(code, upper), rest);
  }

  /** Hexadecimal digits between `\\x` and `;` are a character's code. */
  lemma {:induction false} CodeReads(digits: Text, rest: Text)
    requires digits != [] && forall i | 0 <= i < |digits| :: IsHex(digits[i])
    ensures Unescaped([92, 120] + digits + [59] + rest) ==
            if HexValue(digits) <= 0x10ffff then After([HexValue(digits) as Rune], Unescaped(rest)) else None
  {
    var raw := [92, 120] + digits + [59] + rest;
    HexRunIs(digits, [59] + rest);
    assert raw[0] == 92 && raw[1] == 120 && raw[2 + |digits|] == 59;
    assert raw[2..] == digits + ([59] + rest);
    assert raw[2..2 + |digits|] == digits && raw[3 + |digits|..] == rest;
  }

  lemma {:induction false} PieceReads(p: Piece, rest: Text)
    requires IsPiece(p)
    ensures Unescaped(WrittenAs(p) + rest) ==
            match CharacterOf(p) case Some(c) => After([c], Unescaped(rest)) case None => None
  {
    if p.Coded? {
      CodedReads(p.code, p.upper, rest);
    } else {
      assert (WrittenAs(p) + rest)[|WrittenAs(p)|..] == rest;
    }
  }

  /** However each is written, a string reads as its characters; with a code past the last, it does not read. */
  lemma {:induction false} PiecesRead(pieces: seq<Piece>)
    requires forall i | 0 <= i < |pieces| :: IsPiece(pieces[i])
    ensures Unescaped(WrittenAll(pieces)) == CharactersOf(pieces)
  {
    if pieces != [] {
      PieceReads(pieces[0], WrittenAll(pieces[1..]));
      PiecesRead(pieces[1..]);
    }
  }
}
