/**
 * Strings as grift writes them, and read back (`string` and `unescaped` of agentbench/drivers.py), and
 * the words and marks data is made of (`DATA` there).
 */
module GriftText {
  /** A code point. */
  newtype Rune = r: int | 0 <= r <= 0x10_ffff

  type Text = seq<Rune>

  datatype Option<T> = None | Some(value: T)

  const QUOTE: Rune := 0x22
  const BACKSLASH: Rune := 0x5c
  const OPEN: Rune := 0x28
  const CLOSE: Rune := 0x29
  const SEMICOLON: Rune := 0x3b
  const SPACE: Rune := 0x20

  // ---------------------------------------------------------------------- strings

  /** Every `c` in a text replaced. */
  function Replaced(text: Text, c: Rune, with: Text): Text {
    if text == [] then [] else (if text[0] == c then with else [text[0]]) + Replaced(text[1..], c, with)
  }

  /** A quoted, escaped text. */
  function String(text: Text): Text {
    [QUOTE] + Replaced(Replaced(text, BACKSLASH, [BACKSLASH, BACKSLASH]), QUOTE, [BACKSLASH, QUOTE]) + [QUOTE]
  }

  /** The same, a character at a time: a backslash before each backslash and quote. */
  function Escaped(text: Text): Text {
    if text == [] then []
    else (if text[0] == BACKSLASH || text[0] == QUOTE then [BACKSLASH, text[0]] else [text[0]]) + Escaped(text[1..])
  }

  lemma {:induction false} ReplacedAppend(a: Text, b: Text, c: Rune, with: Text)
    ensures Replaced(a + b, c, with) == Replaced(a, c, with) + Replaced(b, c, with)
  {
    if a == [] {
      assert a + b == b;
    } else {
      assert (a + b)[1..] == a[1..] + b;
      ReplacedAppend(a[1..], b, c, with);
    }
  }

  /** Backslashes doubled first, the quotes' own are not. */
  lemma {:induction false} StringIsEscaped(text: Text)
    ensures String(text) == [QUOTE] + Escaped(text) + [QUOTE]
  {
    ReplacedIsEscaped(text);
  }

  lemma {:induction false} ReplacedIsEscaped(text: Text)
    ensures Replaced(Replaced(text, BACKSLASH, [BACKSLASH, BACKSLASH]), QUOTE, [BACKSLASH, QUOTE]) == Escaped(text)
  {
    if text != [] {
      var first := if text[0] == BACKSLASH then [BACKSLASH, BACKSLASH] else [text[0]];
      ReplacedAppend(first, Replaced(text[1..], BACKSLASH, [BACKSLASH, BACKSLASH]), QUOTE, [BACKSLASH, QUOTE]);
      ReplacedIsEscaped(text[1..]);
      assert first[1..] == [] || first[1..] == [BACKSLASH];
      assert [BACKSLASH][1..] == [];
      assert [BACKSLASH] + [] == [BACKSLASH];
      assert Replaced(first, QUOTE, [BACKSLASH, QUOTE]) ==
             if text[0] == BACKSLASH || text[0] == QUOTE then [BACKSLASH, text[0]] else [text[0]];
    }
  }

  predicate IsHex(c: Rune) { 0x30 <= c <= 0x39 || 0x41 <= c <= 0x46 || 0x61 <= c <= 0x66 }

  function HexOf(c: Rune): int
    requires IsHex(c)
  {
    c as int - if c <= 0x39 then 0x30 else if c <= 0x46 then 0x37 else 0x57
  }

  /** How many digits a text begins with. */
  function HexRun(text: Text): (n: nat)
    ensures n <= |text| && forall i | 0 <= i < n :: IsHex(text[i])
  {
    if text == [] || !IsHex(text[0]) then 0 else 1 + HexRun(text[1..])
  }

  function HexValue(digits: Text): (n: int)
    requires forall i | 0 <= i < |digits| :: IsHex(digits[i])
    ensures n >= 0
  {
    if digits == [] then 0 else HexValue(digits[..|digits| - 1]) * 16 + HexOf(digits[|digits| - 1])
  }

  /** What a backslash and a character stand for. */
  function Meant(c: Rune): Rune {
    if c == 0x6e then 0x0a else if c == 0x72 then 0x0d else if c == 0x74 then 0x09 else c
  }

  /** A string's text; of a code that is no character's, none. A last backslash alone stands for itself. */
  function Unescaped(raw: Text): Option<Text>
    decreases |raw|
  {
    if raw == [] then Some([])
    else if raw[0] == BACKSLASH && |raw| > 1 then
      var digits := if raw[1] == 0x78 then HexRun(raw[2..]) else 0;
      if digits > 0 && 2 + digits < |raw| && raw[2 + digits] == SEMICOLON then
        var code := HexValue(raw[2..2 + digits]);
        if code > 0x10_ffff then None else After([code as Rune], Unescaped(raw[3 + digits..]))
      else After([Meant(raw[1])], Unescaped(raw[2..]))
    else After([raw[0]], Unescaped(raw[1..]))
  }

  function After(first: Text, rest: Option<Text>): Option<Text> {
    match rest case None => None case Some(text) => Some(first + text)
  }

  /** Every text written as a string reads back as itself. */
  lemma {:induction false} UnescapedUndoes(text: Text)
    ensures Unescaped(Escaped(text)) == Some(text)
  {
    if text != [] {
      var rest := Escaped(text[1..]);
      UnescapedUndoes(text[1..]);
      assert [text[0]] + text[1..] == text;
      if text[0] == BACKSLASH || text[0] == QUOTE {
        assert Escaped(text)[2..] == rest;
      } else {
        assert Escaped(text)[1..] == rest;
      }
    }
  }

  // ------------------------------------------------------------------------ tokens

  /** White space as Python has it. */
  predicate IsSpace(c: Rune) {
    9 <= c <= 13 || 28 <= c <= 32 || c == 0x85 || c == 0xa0 || c == 0x1680 || 0x2000 <= c <= 0x200a
    || c == 0x2028 || c == 0x2029 || c == 0x202f || c == 0x205f || c == 0x3000
  }

  datatype Token = Opens | Closes | Quoted(raw: Text) | Word(word: Text)

  predicate InWord(c: Rune) { !IsSpace(c) && c != OPEN && c != CLOSE && c != QUOTE }

  function Spaces(text: Text): (n: nat)
    ensures n <= |text| && forall i | 0 <= i < n :: IsSpace(text[i])
    ensures n < |text| ==> !IsSpace(text[n])
  {
    if text == [] || !IsSpace(text[0]) then 0 else 1 + Spaces(text[1..])
  }

  function WordRun(text: Text): (n: nat)
    ensures n <= |text| && forall i | 0 <= i < n :: InWord(text[i])
    ensures n < |text| ==> !InWord(text[n])
  {
    if text == [] || !InWord(text[0]) then 0 else 1 + WordRun(text[1..])
  }

  /** How far the quote that ends a string is, if one does: characters, and pairs a backslash begins. */
  function QuotedRun(text: Text): (n: Option<nat>)
    ensures n.Some? ==> n.value < |text| && text[n.value] == QUOTE
    decreases |text|
  {
    if text == [] then None
    else if text[0] == QUOTE then Some(0)
    else if text[0] == BACKSLASH then
      if |text| == 1 then None else (match QuotedRun(text[2..]) case None => None case Some(n) => Some(n + 2))
    else match QuotedRun(text[1..]) case None => None case Some(n) => Some(n + 1)
  }

  function Trimmed(text: Text): Text { text[Spaces(text)..] }

  /** The next token, past white space, and what is after it. */
  function NextToken(text: Text): (next: Option<(Token, Text)>)
    ensures next.Some? ==> |next.value.1| < |text|
  {
    TokenAt(Trimmed(text))
  }

  function TokenAt(rest: Text): (next: Option<(Token, Text)>)
    requires rest != [] ==> !IsSpace(rest[0])
    ensures next.Some? ==> |next.value.1| < |rest|
  {
    if rest == [] then None
    else if rest[0] == OPEN then Some((Opens, rest[1..]))
    else if rest[0] == CLOSE then Some((Closes, rest[1..]))
    else if rest[0] == QUOTE then
      match QuotedRun(rest[1..])
      case None => None
      case Some(n) => Some((Quoted(rest[1..n + 1]), rest[n + 2..]))
    else
      var n := WordRun(rest);
      Some((Word(rest[..n]), rest[n..]))
  }

  /** Every token of a text, if it is made of tokens. */
  function Scan(text: Text): Option<seq<Token>>
    decreases |text|
  {
    if Spaces(text) == |text| then Some([])
    else match NextToken(text)
      case None => None
      case Some((token, rest)) => (match Scan(rest) case None => None case Some(tokens) => Some([token] + tokens))
  }

  // -------------------------------------------------------------- what is written scans

  /** What a string can hold between its quotes. */
  ghost predicate Proper(raw: Text) {
    QuotedRun(raw + [QUOTE]) == Some(|raw|)
  }

  lemma {:induction false} EscapedProper(text: Text)
    ensures Proper(Escaped(text))
  {
    if text != [] {
      var (raw, rest) := (Escaped(text), Escaped(text[1..]));
      EscapedProper(text[1..]);
      if text[0] == BACKSLASH || text[0] == QUOTE {
        assert (raw + [QUOTE])[2..] == rest + [QUOTE];
      } else {
        assert (raw + [QUOTE])[1..] == rest + [QUOTE];
      }
    }
  }

  /** A backslash takes the quote after it. */
  lemma NoneAlone()
    ensures QuotedRun([BACKSLASH, QUOTE]).None?
  {
    assert [BACKSLASH, QUOTE][2..] == [];
  }

  lemma {:induction false} ProperEnds(raw: Text, rest: Text)
    requires Proper(raw)
    ensures QuotedRun(raw + [QUOTE] + rest) == Some(|raw|)
    decreases |raw|
  {
    var all := raw + [QUOTE] + rest;
    if raw != [] {
      var k := if raw[0] == BACKSLASH then 2 else 1;
      NoneAlone();
      assert raw == [BACKSLASH] ==> raw + [QUOTE] == [BACKSLASH, QUOTE];
      assert (raw + [QUOTE])[k..] == raw[k..] + [QUOTE];
      assert all[k..] == raw[k..] + [QUOTE] + rest;
      ProperEnds(raw[k..], rest);
    }
  }

  lemma {:induction false} NoSpaces(text: Text)
    requires text != [] && !IsSpace(text[0])
    ensures Spaces(text) == 0 && Trimmed(text) == text
  {
  }

  lemma {:induction false} ScanQuoted(raw: Text, rest: Text)
    requires Proper(raw) && Scan(rest).Some?
    ensures Scan([QUOTE] + raw + [QUOTE] + rest) == Some([Quoted(raw)] + Scan(rest).value)
  {
    var text := [QUOTE] + raw + [QUOTE] + rest;
    NoSpaces(text);
    assert text[1..] == raw + [QUOTE] + rest;
    ProperEnds(raw, rest);
    assert text[1..|raw| + 1] == raw && text[|raw| + 2..] == rest;
  }

  lemma {:induction false} WordEnds(word: Text, rest: Text)
    requires (forall i | 0 <= i < |word| :: InWord(word[i])) && (rest == [] || !InWord(rest[0]))
    ensures WordRun(word + rest) == |word|
  {
    if word == [] {
      assert word + rest == rest;
    } else {
      assert (word + rest)[1..] == word[1..] + rest;
      WordEnds(word[1..], rest);
    }
  }

  lemma {:induction false} ScanWord(word: Text, rest: Text)
    requires word != [] && (forall i | 0 <= i < |word| :: InWord(word[i])) && (rest == [] || !InWord(rest[0]))
    requires Scan(rest).Some?
    ensures Scan(word + rest) == Some([Word(word)] + Scan(rest).value)
  {
    var text := word + rest;
    assert text[0] == word[0];
    NoSpaces(text);
    WordEnds(word, rest);
    assert text[..|word|] == word && text[|word|..] == rest;
  }

  lemma {:induction false} ScanMark(c: Rune, rest: Text)
    requires (c == OPEN || c == CLOSE) && Scan(rest).Some?
    ensures Scan([c] + rest) == Some([if c == OPEN then Opens else Closes] + Scan(rest).value)
  {
    NoSpaces([c] + rest);
    assert ([c] + rest)[1..] == rest;
  }

  lemma {:induction false} SpaceTrims(c: Rune, rest: Text)
    requires IsSpace(c)
    ensures Trimmed([c] + rest) == Trimmed(rest)
    ensures Spaces([c] + rest) == |[c] + rest| <==> Spaces(rest) == |rest|
  {
    assert ([c] + rest)[1..] == rest;
    assert Spaces([c] + rest) == 1 + Spaces(rest);
  }

  lemma {:induction false} ScanSpace(c: Rune, rest: Text)
    requires IsSpace(c)
    ensures Scan([c] + rest) == Scan(rest)
  {
    SpaceTrims(c, rest);
  }
}
