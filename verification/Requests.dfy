/**
 * The requests a load's server reads from its terminal, whatever answers the terminal sends between
 * them (`Requests::read` of bench/src/helpers.rs).
 */
module Requests {
  import opened Sequences
  import opened TextFilter

  /** The reader's place in an answer of the terminal's. */
  datatype Sequence = NoSequence | AfterEscape | InCsi | InString | StringEscape

  datatype State = State(digits: Bytes, at: Sequence)

  const NOTHING_READ := State([], NoSequence)

  /** The greatest number a request can name. */
  const LAST_NUMBER: nat := 0xffff_ffff_ffff_ffff

  predicate IsDigit(b: Byte) { 0x30 <= b <= 0x39 }

  predicate IsEnter(b: Byte) { b == 0x0d || b == 0x0a }

  function ValueOf(digits: Bytes): int {
    if digits == [] then 0 else ValueOf(digits[..|digits| - 1]) * 10 + (digits[|digits| - 1] as int - 0x30)
  }

  /** The number typed, if one was, and it is not too great. */
  function Parsed(digits: Bytes): seq<nat> {
    if digits != [] && 0 <= ValueOf(digits) <= LAST_NUMBER then [ValueOf(digits)] else []
  }

  /** Where a byte leaves the sequences. */
  function Followed(at: Sequence, b: Byte): Sequence {
    match at
    case NoSequence => if b == 0x1b then AfterEscape else NoSequence
    case AfterEscape => if b == 0x5b then InCsi else if Opens(b) then InString else NoSequence
    case InCsi => if Finals(b) then NoSequence else InCsi
    case InString => if b == 0x07 then NoSequence else if b == 0x1b then StringEscape else InString
    case StringEscape => if b == 0x5c then NoSequence else if b == 0x1b then StringEscape else InString
  }

  /** A byte outside any sequence is a request's: a digit, or the Enter that ends it. */
  function Take(s: State, b: Byte): (State, seq<nat>) {
    if s.at.NoSequence? && IsDigit(b) then (s.(digits := s.digits + [b]), [])
    else if s.at.NoSequence? && IsEnter(b) then (s.(digits := []), Parsed(s.digits))
    else (s.(at := Followed(s.at, b)), [])
  }

  /** The second byte of an introducer of a string: `]`, `P`, `_`, `^` or `X`. */
  predicate Opens(b: Byte) { b == 0x5d || b == 0x50 || b == 0x5f || b == 0x5e || b == 0x58 }

  /** What ends a control sequence. */
  predicate Finals(b: Byte) { 0x40 <= b <= 0x7e }

  function ReadAll(s: State, bytes: Bytes): (State, seq<nat>)
    decreases |bytes|
  {
    if bytes == [] then (s, [])
    else
      var (next, first) := Take(s, bytes[0]);
      var (last, rest) := ReadAll(next, bytes[1..]);
      (last, first + rest)
  }

  class Reader {
    var digits: Bytes
    var at: Sequence

    constructor ()
      ensures Value() == NOTHING_READ
    {
      digits, at := [], NoSequence;
    }

    function Value(): State
      reads this
    {
      State(digits, at)
    }

    /** Takes bytes in turn, and gathers the numbers they complete. */
    method Read(bytes: Bytes) returns (done: seq<nat>)
      modifies this
      ensures (Value(), done) == ReadAll(old(Value()), bytes)
    {
      done := [];
      ghost var all := ReadAll(Value(), bytes);
      var k := 0;
      while k < |bytes|
        invariant 0 <= k <= |bytes|
        invariant all.0 == ReadAll(Value(), bytes[k..]).0
        invariant all.1 == done + ReadAll(Value(), bytes[k..]).1
      {
        ghost var before := Value();
        ghost var sofar := done;
        var b := bytes[k];
        assert bytes[k..][1..] == bytes[k + 1..];
        if at.NoSequence? && IsEnter(b) {
          done := done + Parsed(digits);
          digits := [];
        } else if at.NoSequence? && IsDigit(b) {
          digits := digits + [b];
        } else {
          at := Followed(at, b);
        }
        assert Value() == Take(before, b).0 && done == sofar + Take(before, b).1;
        Joined(sofar, Take(before, b).1, ReadAll(Value(), bytes[k + 1..]).1);
        k := k + 1;
      }
      assert done + [] == done;
    }
  }

  lemma {:induction false} SilentFirst(s: State, bytes: Bytes)
    requires bytes != [] && Take(s, bytes[0]).1 == []
    ensures ReadAll(s, bytes) == ReadAll(Take(s, bytes[0]).0, bytes[1..])
  {
    var rest := ReadAll(Take(s, bytes[0]).0, bytes[1..]).1;
    assert [] + rest == rest;
  }

  /** However reads split the bytes, they are the same requests. */
  lemma {:induction false} ReadSplits(s: State, a: Bytes, b: Bytes)
    ensures ReadAll(s, a + b).0 == ReadAll(ReadAll(s, a).0, b).0
    ensures ReadAll(s, a + b).1 == ReadAll(s, a).1 + ReadAll(ReadAll(s, a).0, b).1
    decreases |a|
  {
    if a == [] {
      assert a + b == b;
    } else {
      var (next, first) := Take(s, a[0]);
      assert (a + b)[1..] == a[1..] + b;
      ReadSplits(next, a[1..], b);
      Joined(first, ReadAll(next, a[1..]).1, ReadAll(ReadAll(next, a[1..]).0, b).1);
    }
  }

  // ------------------------------------------------------------------- what is asked

  function Digits(n: nat): (digits: Bytes)
    ensures digits != []
    ensures forall i | 0 <= i < |digits| :: IsDigit(digits[i])
  {
    var last := [(0x30 + n % 10) as Byte];
    if n < 10 then last else Digits(n / 10) + last
  }

  lemma {:induction false} DigitsValue(n: nat)
    ensures ValueOf(Digits(n)) == n
    decreases n
  {
    var last := [(0x30 + n % 10) as Byte];
    if n < 10 {
      assert Digits(n)[..0] == [];
    } else {
      DigitsValue(n / 10);
      assert Digits(n)[..|Digits(n)| - 1] == Digits(n / 10);
    }
  }

  lemma {:induction false} DigitsRead(s: State, digits: Bytes)
    requires s.at.NoSequence? && forall i | 0 <= i < |digits| :: IsDigit(digits[i])
    ensures ReadAll(s, digits) == (s.(digits := s.digits + digits), [])
    decreases |digits|
  {
    if digits != [] {
      DigitsRead(Take(s, digits[0]).0, digits[1..]);
      assert s.digits + [digits[0]] + digits[1..] == s.digits + digits;
      SilentFirst(s, digits);
    } else {
      assert s.digits + [] == s.digits;
    }
  }

  /** Numbers typed, an Enter after each. */
  function Typed(numbers: seq<nat>): Bytes {
    if numbers == [] then [] else Digits(numbers[0]) + [0x0d] + Typed(numbers[1..])
  }

  /** An Enter after digits completes the request they are. */
  lemma {:induction false} EnterReads(typed: Bytes, enter: Bytes, digits: Bytes, done: seq<nat>)
    requires ReadAll(NOTHING_READ, typed) == (State(digits, NoSequence), [])
    requires enter == [0x0d] && done == Parsed(digits)
    ensures ReadAll(NOTHING_READ, typed + enter) == (NOTHING_READ, done)
  {
    ReadSplits(NOTHING_READ, typed, enter);
    OneRead(State(digits, NoSequence), 0x0d);
    assert [] + done == done;
  }

  /** The numbers a request can name: those of 64 bits. */
  function Fitting(numbers: seq<nat>): seq<nat> {
    if numbers == [] then []
    else (if numbers[0] < 0x1_0000_0000_0000_0000 then [numbers[0]] else []) + Fitting(numbers[1..])
  }

  lemma {:induction false} ReadsNumber(n: nat)
    ensures ReadAll(NOTHING_READ, Digits(n) + [0x0d]) ==
            (NOTHING_READ, if n < 0x1_0000_0000_0000_0000 then [n] else [])
  {
    var digits := Digits(n);
    DigitsValue(n);
    DigitsRead(NOTHING_READ, digits);
    assert NOTHING_READ.digits + digits == digits;
    EnterReads(digits, [0x0d], digits, if n < 0x1_0000_0000_0000_0000 then [n] else []);
  }

  /** Requests typed are the requests read, but for those no request can name. */
  lemma {:induction false} ReadsWhatIsAsked(numbers: seq<nat>)
    ensures ReadAll(NOTHING_READ, Typed(numbers)) == (NOTHING_READ, Fitting(numbers))
    decreases |numbers|
  {
    if numbers != [] {
      ReadsNumber(numbers[0]);
      ReadsWhatIsAsked(numbers[1..]);
      ReadSplits(NOTHING_READ, Digits(numbers[0]) + [0x0d], Typed(numbers[1..]));
    }
  }

  // ------------------------------------------------------------- what is answered between

  /** What a terminal answers: a control sequence, or a string ended by BEL or ST. */
  datatype Answer = Control(params: Bytes, final: Byte) | Text(opens: Byte, body: Bytes, bell: bool)

  predicate IsAnswer(answer: Answer) {
    match answer
    case Control(params, final) =>
      64 <= final <= 126 && forall i | 0 <= i < |params| :: params[i] < 64 || params[i] > 126
    case Text(opens, body, _) =>
      // DCS, SOS, OSC, PM or APC.
      && (opens == 80 || opens == 88 || opens == 93 || opens == 94 || opens == 95)
      && IsBody(body)
  }

  /** No BEL is in a string's body, nor ST. */
  predicate IsBody(body: Bytes) {
    && (forall i | 0 <= i < |body| :: body[i] != 7)
    && (forall i | 0 <= i < |body| - 1 :: !(body[i] == 27 && body[i + 1] == 92))
  }

  predicate EndsInEscape(body: Bytes) { body != [] && body[|body| - 1] == 27 }

  /** The reader finds an answer's end: it takes a BEL after ESC for a part of the string. */
  predicate IsEnded(answer: Answer) { answer.Text? && answer.bell ==> !EndsInEscape(answer.body) }

  function BytesOf(answer: Answer): Bytes {
    match answer
    case Control(params, final) => [0x1b, 0x5b] + params + [final]
    case Text(opens, body, bell) => [0x1b, opens] + body + if bell then [0x07] else [0x1b, 0x5c]
  }

  lemma {:induction false} ParamsStay(s: State, bytes: Bytes)
    requires s.at.InCsi? && forall i | 0 <= i < |bytes| :: bytes[i] < 64 || bytes[i] > 126
    ensures ReadAll(s, bytes) == (s, [])
    decreases |bytes|
  {
    if bytes != [] {
      ParamsStay(s, bytes[1..]);
      SilentFirst(s, bytes);
    }
  }

  lemma {:induction false} BodyReads(s: State, body: Bytes)
    requires s.at.InString? && IsBody(body)
    ensures ReadAll(s, body) == (if EndsInEscape(body) then s.(at := StringEscape) else s, [])
    decreases |body|
  {
    if body != [] {
      var n := |body| - 1;
      BodyReads(s, body[..n]);
      ReadSplits(s, body[..n], [body[n]]);
      OneRead(if EndsInEscape(body[..n]) then s.(at := StringEscape) else s, body[n]);
      assert body == body[..n] + [body[n]];
    }
  }

  lemma {:induction false} TwoRead(s: State, a: Byte, b: Byte)
    ensures ReadAll(s, [a, b]).0 == Take(Take(s, a).0, b).0
    ensures ReadAll(s, [a, b]).1 == Take(s, a).1 + Take(Take(s, a).0, b).1
  {
    assert [a, b][1..] == [b];
    OneRead(Take(s, a).0, b);
  }

  lemma {:induction false} OneRead(s: State, b: Byte)
    ensures ReadAll(s, [b]) == Take(s, b)
  {
    assert [b][1..] == [];
    assert Take(s, b).1 + [] == Take(s, b).1;
  }

  /** An answer asks nothing, and leaves what was typed of a request as it was, exactly if the reader finds its end. */
  lemma {:induction false} AnswerAsksNothing(s: State, answer: Answer)
    requires s.at.NoSequence? && IsAnswer(answer)
    ensures ReadAll(s, BytesOf(answer)).1 == []
    ensures ReadAll(s, BytesOf(answer)).0 == s <==> IsEnded(answer)
  {
    match answer
    case Control(params, final) =>
      var inside := s.(at := InCsi);
      TwoRead(s, 0x1b, 0x5b);
      ParamsStay(inside, params);
      OneRead(inside, final);
      ReadSplits(s, [0x1b, 0x5b], params);
      ReadSplits(s, [0x1b, 0x5b] + params, [final]);
    case Text(opens, body, bell) =>
      var inside := s.(at := InString);
      TwoRead(s, 0x1b, opens);
      BodyReads(inside, body);
      EndReads(if EndsInEscape(body) then s.(at := StringEscape) else inside, bell);
      ReadSplits(s, [0x1b, opens], body);
      ReadSplits(s, [0x1b, opens] + body, if bell then [0x07] else [0x1b, 0x5c]);
  }

  lemma {:induction false} EndReads(s: State, bell: bool)
    requires s.at.InString? || s.at.StringEscape?
    ensures ReadAll(s, if bell then [0x07] else [0x1b, 0x5c]) ==
            (s.(at := if bell && s.at.StringEscape? then InString else NoSequence), [])
  {
    OneRead(s, 0x07);
    TwoRead(s, 0x1b, 0x5c);
  }

  /** After a string whose BEL it missed, the reader misses a request. */
  lemma RequestMayBeMissed()
    ensures var answer := Text(0x5d, [0x1b], true);
            IsAnswer(answer) && ReadAll(NOTHING_READ, BytesOf(answer) + [0x31, 0x0d]).1 == []
  {
    var inside := State([], InString);
    var answer := Text(0x5d, [0x1b], true);
    AnswerAsksNothing(NOTHING_READ, answer);
    assert BytesOf(answer) == [0x1b, 0x5d] + [0x1b, 0x07];
    ReadSplits(NOTHING_READ, [0x1b, 0x5d], [0x1b, 0x07]);
    TwoRead(NOTHING_READ, 0x1b, 0x5d);
    TwoRead(inside, 0x1b, 0x07);
    TwoRead(inside, 0x31, 0x0d);
    ReadSplits(NOTHING_READ, BytesOf(answer), [0x31, 0x0d]);
  }

  /** What comes from a terminal: a key typed, or an answer. */
  datatype Piece = Key(b: Byte) | Answered(answer: Answer)

  /** A key that begins no sequence, or an answer whose end is found. */
  predicate IsRead(piece: Piece) {
    match piece case Key(b) => b != 27 case Answered(answer) => IsAnswer(answer) && IsEnded(answer)
  }

  function BytesIn(piece: Piece, answers: bool): Bytes {
    match piece case Key(b) => [b] case Answered(answer) => if answers then BytesOf(answer) else []
  }

  function Flat(pieces: seq<Piece>, answers: bool): Bytes {
    if pieces == [] then []
    else BytesIn(pieces[0], answers) + Flat(pieces[1..], answers)
  }

  /** The requests read are those typed, wherever answers come between, even within a number. */
  lemma {:induction false} AnswersAskNothing(s: State, pieces: seq<Piece>)
    requires s.at.NoSequence?
    requires forall i | 0 <= i < |pieces| :: IsRead(pieces[i])
    ensures ReadAll(s, Flat(pieces, true)) == ReadAll(s, Flat(pieces, false))
    decreases |pieces|
  {
    if pieces != [] {
      var rest := pieces[1..];
      match pieces[0]
      case Key(b) =>
        OneRead(s, b);
        AnswersAskNothing(Take(s, b).0, rest);
        ReadSplits(s, [b], Flat(rest, true));
        ReadSplits(s, [b], Flat(rest, false));
      case Answered(answer) =>
        AnswerAsksNothing(s, answer);
        AnswersAskNothing(s, rest);
        ReadSplits(s, BytesOf(answer), Flat(rest, true));
        assert Flat(pieces, false) == Flat(rest, false);
        assert [] + ReadAll(s, Flat(rest, true)).1 == ReadAll(s, Flat(rest, true)).1;
    }
  }
}
