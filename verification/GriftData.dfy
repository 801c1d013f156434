/**
 * Grift data read as Python's (`atom`, `is_record` and `read_data` of agentbench/drivers.py): what
 * reads is one tree of data and nothing else, and what is printed reads back.
 */
module GriftData {
  import opened GriftText
  import opened Sequences

  datatype Value =
    | Str(text: Text)
    | Sym(word: Text)
    | Bool(yes: bool)
    | Nothing
    | Number(numeral: Text)
    | List(items: seq<Value>)
    | Dict(fields: seq<(Text, Value)>)

  datatype Error = NoToken | NothingOpen | NoSuchCharacter | NotOneValue

  datatype Read = Ok(value: Value) | Err(why: Error)

  /** Unfinished lists, the innermost last. */
  type Stack = seq<seq<Value>>

  datatype Stepped = Goes(stack: Stack) | Fails(why: Error)

  const TRUE: Text := [0x23, 0x74, 0x72, 0x75, 0x65]
  const FALSE: Text := [0x23, 0x66, 0x61, 0x6c, 0x73, 0x65]
  const NONE: Text := [0x6e, 0x6f, 0x6e, 0x65]

  /** What an unquoted word stands for; `isNumber` stands for Python's own judgement of numbers. */
  function Atom(word: Text, isNumber: Text -> bool): Value {
    if word == TRUE then Bool(true)
    else if word == FALSE then Bool(false)
    else if word == NONE then Nothing
    else if isNumber(word) then Number(word)
    else Sym(word)
  }

  predicate IsField(item: Value) {
    item.List? && |item.items| == 2 && item.items[0].Sym?
  }

  predicate IsRecord(items: seq<Value>) {
    items != [] && forall i | 0 <= i < |items| :: IsField(items[i])
  }

  /** A field set: where it was, or last. */
  function Set(fields: seq<(Text, Value)>, name: Text, value: Value): seq<(Text, Value)> {
    if fields == [] then [(name, value)]
    else if fields[0].0 == name then [(name, value)] + fields[1..]
    else [fields[0]] + Set(fields[1..], name, value)
  }

  function FieldsOf(items: seq<Value>): seq<(Text, Value)>
    requires forall i | 0 <= i < |items| :: IsField(items[i])
  {
    if items == [] then []
    else
      var last := items[|items| - 1];
      assert IsField(last);
      Set(FieldsOf(items[..|items| - 1]), last.items[0].word, last.items[1])
  }

  /** A list closed: a record as a dict. */
  function Closed(items: seq<Value>): Value {
    if IsRecord(items) then Dict(FieldsOf(items)) else List(items)
  }

  function Push(stack: Stack, value: Value): Stack
    requires stack != []
  {
    stack[..|stack| - 1] + [stack[|stack| - 1] + [value]]
  }

  function OnToken(stack: Stack, token: Token, isNumber: Text -> bool): Stepped
    requires stack != []
  {
    match token
    case Opens => Goes(stack + [[]])
    case Closes =>
      var below := stack[..|stack| - 1];
      if below == [] then Fails(NothingOpen) else Goes(Push(below, Closed(stack[|stack| - 1])))
    case Quoted(raw) =>
      (match Unescaped(raw) case None => Fails(NoSuchCharacter) case Some(text) => Goes(Push(stack, Str(text))))
    case Word(word) => Goes(Push(stack, Atom(word, isNumber)))
  }

  function Finish(stack: Stack): Read {
    if |stack| == 1 && |stack[0]| == 1 then Ok(stack[0][0]) else Err(NotOneValue)
  }

  /** What is left of a text read, with the lists so far. */
  function Loop(text: Text, stack: Stack, isNumber: Text -> bool): Read
    requires stack != []
    decreases |text|
  {
    if Spaces(text) == |text| then Finish(stack)
    else match NextToken(text)
      case None => Err(NoToken)
      case Some((token, rest)) =>
        match OnToken(stack, token, isNumber)
        case Fails(why) => Err(why)
        case Goes(next) => if next == [] then Err(NotOneValue) else Loop(rest, next, isNumber)
  }

  method ReadData(text: Text, isNumber: Text -> bool) returns (read: Read)
    ensures read == Loop(text, [[]], isNumber)
  {
    var stack: Stack := [[]];
    var rest := text;
    while Spaces(rest) != |rest|
      invariant stack != []
      invariant Loop(text, [[]], isNumber) == Loop(rest, stack, isNumber)
      decreases |rest|
    {
      var next := NextToken(rest);
      if next.None? {
        return Err(NoToken);
      }
      var (token, after) := next.value;
      match token {
        case Opens => stack := stack + [[]];
        case Closes =>
          var items := stack[|stack| - 1];
          stack := stack[..|stack| - 1];
          if stack == [] {
            return Err(NothingOpen);
          }
          stack := Push(stack, Closed(items));
        case Quoted(raw) =>
          var unescaped := Unescaped(raw);
          if unescaped.None? {
            return Err(NoSuchCharacter);
          }
          stack := Push(stack, Str(unescaped.value));
        case Word(word) => stack := Push(stack, Atom(word, isNumber));
      }
      rest := after;
    }
    if |stack| != 1 || |stack[0]| != 1 {
      return Err(NotOneValue);
    }
    read := Ok(stack[0][0]);
  }

  // ------------------------------------------------------------------------ trees

  /** A tree of data as it is written: a string or word, or a list. */
  datatype Data = Leaf(token: Token) | Branch(items: seq<Data>)

  function TokensOf(d: Data): seq<Token>
    decreases d, 0
  {
    match d
    case Leaf(token) => [token]
    case Branch(items) => [Opens] + TokensOfAll(items) + [Closes]
  }

  function TokensOfAll(items: seq<Data>): seq<Token>
    decreases items, 1
  {
    if items == [] then []
    else TokensOf(items[0]) + TokensOfAll(items[1..])
  }

  /** Every leaf a string whose codes are characters', or a word. */
  predicate Readable(d: Data)
    decreases d, 0
  {
    match d
    case Leaf(token) => token.Word? || (token.Quoted? && Unescaped(token.raw).Some?)
    case Branch(items) => AllReadable(items)
  }

  predicate AllReadable(items: seq<Data>)
    decreases items, 1
  {
    items == [] || (Readable(items[0]) && AllReadable(items[1..]))
  }

  function ValueOf(d: Data, isNumber: Text -> bool): Value
    requires Readable(d)
    decreases d, 0
  {
    match d
    case Leaf(token) => if token.Word? then Atom(token.word, isNumber) else Str(Unescaped(token.raw).value)
    case Branch(items) => Closed(ValuesOf(items, isNumber))
  }

  function ValuesOf(items: seq<Data>, isNumber: Text -> bool): (values: seq<Value>)
    requires AllReadable(items)
    ensures |values| == |items|
    decreases items, 1
  {
    if items == [] then []
    else [ValueOf(items[0], isNumber)] + ValuesOf(items[1..], isNumber)
  }

  // ----------------------------------------------------------------- reading tokens

  function LoopTokens(tokens: seq<Token>, stack: Stack, isNumber: Text -> bool): Read
    requires stack != []
    decreases |tokens|
  {
    if tokens == [] then Finish(stack)
    else match OnToken(stack, tokens[0], isNumber)
      case Fails(why) => Err(why)
      case Goes(next) => if next == [] then Err(NotOneValue) else LoopTokens(tokens[1..], next, isNumber)
  }

  /** A text reads as its tokens do; one not made of tokens does not read. */
  lemma {:induction false} LoopIsTokens(text: Text, stack: Stack, isNumber: Text -> bool)
    requires stack != []
    ensures Scan(text).Some? ==> Loop(text, stack, isNumber) == LoopTokens(Scan(text).value, stack, isNumber)
    ensures Scan(text).None? ==> Loop(text, stack, isNumber).Err?
    decreases |text|
  {
    if Spaces(text) != |text| && NextToken(text).Some? {
      var (token, rest) := NextToken(text).value;
      var step := OnToken(stack, token, isNumber);
      if step.Goes? && step.stack != [] {
        LoopIsTokens(rest, step.stack, isNumber);
      }
      if Scan(rest).Some? {
        assert ([token] + Scan(rest).value)[1..] == Scan(rest).value;
      }
    }
  }

  /** Values put on a stack. */
  function PushAll(stack: Stack, values: seq<Value>): Stack
    requires stack != []
  {
    stack[..|stack| - 1] + [stack[|stack| - 1] + values]
  }

  lemma {:induction false} PushAllNext(stack: Stack, first: Value, rest: seq<Value>)
    requires stack != []
    ensures PushAll(Push(stack, first), rest) == PushAll(stack, [first] + rest)
    ensures PushAll(stack, []) == stack
  {
    var n := |stack| - 1;
    assert stack[n] + [first] + rest == stack[n] + ([first] + rest);
    assert stack[n] + [] == stack[n];
  }

  /** A tree's tokens read as its value, whatever is open and whatever follows. */
  lemma {:induction false} TreeReads(d: Data, rest: seq<Token>, stack: Stack, isNumber: Text -> bool)
    requires stack != [] && Readable(d)
    ensures LoopTokens(TokensOf(d) + rest, stack, isNumber) ==
            LoopTokens(rest, Push(stack, ValueOf(d, isNumber)), isNumber)
    decreases d, 0
  {
    var tokens := TokensOf(d) + rest;
    match d
    case Leaf(token) => assert tokens[1..] == rest;
    case Branch(items) =>
      var inner := TokensOfAll(items);
      var values := ValuesOf(items, isNumber);
      assert tokens[0] == Opens && tokens[1..] == inner + ([Closes] + rest);
      ForestReads(items, [Closes] + rest, stack + [[]], isNumber);
      var full := PushAll(stack + [[]], values);
      assert full == stack + [values] by {
        assert [] + values == values;
      }
      assert ([Closes] + rest)[1..] == rest;
      assert full[..|full| - 1] == stack;
  }

  lemma {:induction false} ForestReads(items: seq<Data>, rest: seq<Token>, stack: Stack, isNumber: Text -> bool)
    requires stack != [] && AllReadable(items)
    ensures LoopTokens(TokensOfAll(items) + rest, stack, isNumber) ==
            LoopTokens(rest, PushAll(stack, ValuesOf(items, isNumber)), isNumber)
    decreases items, 1
  {
    if items == [] {
      assert TokensOfAll(items) + rest == rest;
      PushAllNext(stack, Nothing, []);
    } else {
      var (first, others) := (TokensOf(items[0]), TokensOfAll(items[1..]));
      assert first + others + rest == first + (others + rest);
      TreeReads(items[0], others + rest, stack, isNumber);
      var next := Push(stack, ValueOf(items[0], isNumber));
      ForestReads(items[1..], rest, next, isNumber);
      PushAllNext(stack, ValueOf(items[0], isNumber), ValuesOf(items[1..], isNumber));
    }
  }

  // ------------------------------------------------------------ only trees are read

  /** The lists being read, as trees. */
  type Shadow = seq<seq<Data>>

  ghost predicate Shadows(shadow: Shadow, stack: Stack, isNumber: Text -> bool) {
    && |shadow| == |stack| > 0
    && forall k | 0 <= k < |shadow| :: AllReadable(shadow[k]) && ValuesOf(shadow[k], isNumber) == stack[k]
  }

  /** The tokens that open them so. */
  function TokensOpen(shadow: Shadow): seq<Token> {
    if shadow == [] then []
    else
      var n := |shadow| - 1;
      TokensOpen(shadow[..n]) + (if n == 0 then [] else [Opens]) + TokensOfAll(shadow[n])
  }

  lemma {:induction false} AllAppend(a: seq<Data>, d: Data, isNumber: Text -> bool)
    requires AllReadable(a) && Readable(d)
    ensures AllReadable(a + [d]) && ValuesOf(a + [d], isNumber) == ValuesOf(a, isNumber) + [ValueOf(d, isNumber)]
    ensures TokensOfAll(a + [d]) == TokensOfAll(a) + TokensOf(d)
    decreases |a|
  {
    if a == [] {
      assert [] + [d] == [d] && [d][1..] == [];
      assert TokensOfAll([d]) == TokensOf(d) + [];
    } else {
      assert (a + [d])[1..] == a[1..] + [d];
      AllAppend(a[1..], d, isNumber);
      assert TokensOf(a[0]) + (TokensOfAll(a[1..]) + TokensOf(d)) == TokensOf(a[0]) + TokensOfAll(a[1..]) + TokensOf(d);
    }
  }

  function PushTree(shadow: Shadow, d: Data): Shadow
    requires shadow != []
  {
    shadow[..|shadow| - 1] + [shadow[|shadow| - 1] + [d]]
  }

  lemma {:induction false} PushTreeShadows(shadow: Shadow, stack: Stack, d: Data, isNumber: Text -> bool)
    requires Shadows(shadow, stack, isNumber) && Readable(d)
    ensures Shadows(PushTree(shadow, d), Push(stack, ValueOf(d, isNumber)), isNumber)
    ensures TokensOpen(PushTree(shadow, d)) == TokensOpen(shadow) + TokensOf(d)
  {
    var n := |shadow| - 1;
    AllAppend(shadow[n], d, isNumber);
    assert shadow == shadow[..n] + [shadow[n]];
    TokensPushed(shadow[..n], shadow[n], d);
  }

  lemma {:induction false} TokensOpenLast(front: Shadow, trees: seq<Data>)
    ensures TokensOpen(front + [trees]) ==
            TokensOpen(front) + (if front == [] then [] else [Opens]) + TokensOfAll(trees)
  {
    assert (front + [trees])[..|front|] == front;
  }

  lemma {:induction false} TokensPushed(front: Shadow, trees: seq<Data>, d: Data)
    requires TokensOfAll(trees + [d]) == TokensOfAll(trees) + TokensOf(d)
    ensures TokensOpen(front + [trees + [d]]) == TokensOpen(front + [trees]) + TokensOf(d)
  {
    TokensOpenLast(front, trees);
    TokensOpenLast(front, trees + [d]);
    Joined(TokensOpen(front) + if front == [] then [] else [Opens], TokensOfAll(trees), TokensOf(d));
  }

  lemma {:induction false} OpenShadows(shadow: Shadow, stack: Stack, isNumber: Text -> bool)
    requires Shadows(shadow, stack, isNumber)
    ensures Shadows(shadow + [[]], stack + [[]], isNumber)
    ensures TokensOpen(shadow + [[]]) == TokensOpen(shadow) + [Opens]
  {
    assert (shadow + [[]])[..|shadow|] == shadow;
  }

  lemma {:induction false} CloseShadows(shadow: Shadow, stack: Stack, isNumber: Text -> bool)
    requires Shadows(shadow, stack, isNumber) && |shadow| > 1
    ensures var n := |shadow| - 1;
            && Readable(Branch(shadow[n])) && ValueOf(Branch(shadow[n]), isNumber) == Closed(stack[n])
            && Shadows(shadow[..n], stack[..n], isNumber)
            && TokensOpen(shadow[..n]) + TokensOf(Branch(shadow[n])) == TokensOpen(shadow) + [Closes]
  {
    var n := |shadow| - 1;
    JoinedThree(TokensOpen(shadow[..n]), [Opens], TokensOfAll(shadow[n]), [Closes]);
  }

  /** A token taken, as trees. */
  lemma {:induction false} StepShadows(shadow: Shadow, stack: Stack, token: Token,
        isNumber: Text -> bool) returns (next: Shadow)
    requires Shadows(shadow, stack, isNumber) && OnToken(stack, token, isNumber).Goes?
    ensures Shadows(next, OnToken(stack, token, isNumber).stack, isNumber)
    ensures TokensOpen(next) == TokensOpen(shadow) + [token]
  {
    match token
    case Opens =>
      next := shadow + [[]];
      OpenShadows(shadow, stack, isNumber);
    case Closes =>
      var n := |shadow| - 1;
      CloseShadows(shadow, stack, isNumber);
      PushTreeShadows(shadow[..n], stack[..n], Branch(shadow[n]), isNumber);
      next := PushTree(shadow[..n], Branch(shadow[n]));
    case _ =>
      PushTreeShadows(shadow, stack, Leaf(token), isNumber);
      next := PushTree(shadow, Leaf(token));
  }

  lemma {:induction false} ReadsATree(tokens: seq<Token>, shadow: Shadow, stack: Stack, isNumber: Text -> bool)
    returns (d: Data)
    requires Shadows(shadow, stack, isNumber) && LoopTokens(tokens, stack, isNumber).Ok?
    ensures Readable(d) && TokensOf(d) == TokensOpen(shadow) + tokens
    ensures LoopTokens(tokens, stack, isNumber) == Ok(ValueOf(d, isNumber))
    decreases |tokens|
  {
    if tokens == [] {
      d := shadow[0][0];
      OneTree(shadow, stack, isNumber);
      assert TokensOpen(shadow) + [] == TokensOpen(shadow);
    } else {
      var next := StepShadows(shadow, stack, tokens[0], isNumber);
      d := ReadsATree(tokens[1..], next, OnToken(stack, tokens[0], isNumber).stack, isNumber);
      JoinFirst(TokensOpen(shadow), tokens);
    }
  }

  lemma {:induction false} JoinFirst(before: seq<Token>, tokens: seq<Token>)
    requires tokens != []
    ensures before + [tokens[0]] + tokens[1..] == before + tokens
  {
  }

  lemma {:induction false} OneTree(shadow: Shadow, stack: Stack, isNumber: Text -> bool)
    requires Shadows(shadow, stack, isNumber) && Finish(stack).Ok?
    ensures |shadow| == 1 && |shadow[0]| == 1 && Readable(shadow[0][0])
    ensures stack[0][0] == ValueOf(shadow[0][0], isNumber) && TokensOpen(shadow) == TokensOf(shadow[0][0])
  {
    var d := shadow[0][0];
    assert shadow[0] == [d] && [d][1..] == [] && shadow[..0] == [];
    assert TokensOfAll([d]) == TokensOf(d) + [] == TokensOf(d);
    assert TokensOpen([]) == [];
    assert [] + [] + TokensOf(d) == TokensOf(d);
  }

  /** A tree's tokens, read. */
  lemma {:induction false} TreeReadsWhole(d: Data, isNumber: Text -> bool)
    requires Readable(d)
    ensures LoopTokens(TokensOf(d), [[]], isNumber) == Ok(ValueOf(d, isNumber))
  {
    TreeReads(d, [], [[]], isNumber);
    assert TokensOf(d) + [] == TokensOf(d);
    var stack: Stack := [[]];
    var value := ValueOf(d, isNumber);
    assert stack[..0] == [] && stack[0] + [value] == [value];
    assert Push(stack, value) == [[value]];
  }

  /** What reads is the tokens of one tree whose codes are characters', and reads as its value. */
  lemma {:induction false} ReadsOneTree(text: Text, isNumber: Text -> bool)
    ensures Loop(text, [[]], isNumber).Ok? <==>
              Scan(text).Some? && exists d: Data :: Readable(d) && TokensOf(d) == Scan(text).value
    ensures forall d: Data | Readable(d) && Scan(text) == Some(TokensOf(d)) ::
            Loop(text, [[]], isNumber) == Ok(ValueOf(d, isNumber))
  {
    LoopIsTokens(text, [[]], isNumber);
    forall d: Data | Readable(d) && Scan(text) == Some(TokensOf(d))
      ensures Loop(text, [[]], isNumber) == Ok(ValueOf(d, isNumber))
    {
      TreeReadsWhole(d, isNumber);
    }
    if Loop(text, [[]], isNumber).Ok? {
      var shadow: Shadow := [[]];
      assert shadow[..0] == [] && TokensOpen(shadow) == [];
      var d := ReadsATree(Scan(text).value, shadow, [[]], isNumber);
      assert [] + Scan(text).value == Scan(text).value;
    }
  }

  function Count(tokens: seq<Token>, token: Token): nat {
    if tokens == [] then 0 else (if tokens[0] == token then 1 else 0) + Count(tokens[1..], token)
  }

  lemma {:induction false} CountAppend(a: seq<Token>, b: seq<Token>, token: Token)
    ensures Count(a + b, token) == Count(a, token) + Count(b, token)
  {
    if a == [] {
      assert a + b == b;
    } else {
      assert (a + b)[1..] == a[1..] + b;
      CountAppend(a[1..], b, token);
    }
  }

  lemma {:induction false} TreeBalances(d: Data)
    requires Readable(d)
    ensures Count(TokensOf(d), Opens) == Count(TokensOf(d), Closes)
    decreases d, 0
  {
    match d
    case Leaf(token) => assert [token][1..] == [];
    case Branch(items) =>
      ForestBalances(items);
      assert [Opens][1..] == [] && [Closes][1..] == [];
      CountAppend([Opens] + TokensOfAll(items), [Closes], Opens);
      CountAppend([Opens] + TokensOfAll(items), [Closes], Closes);
      CountAppend([Opens], TokensOfAll(items), Opens);
      CountAppend([Opens], TokensOfAll(items), Closes);
  }

  lemma {:induction false} ForestBalances(items: seq<Data>)
    requires AllReadable(items)
    ensures Count(TokensOfAll(items), Opens) == Count(TokensOfAll(items), Closes)
    decreases items, 1
  {
    if items != [] {
      TreeBalances(items[0]);
      ForestBalances(items[1..]);
      CountAppend(TokensOf(items[0]), TokensOfAll(items[1..]), Opens);
      CountAppend(TokensOf(items[0]), TokensOfAll(items[1..]), Closes);
    }
  }

  /** Unbalanced, nothing is read. */
  lemma {:induction false} UnbalancedFails(text: Text, isNumber: Text -> bool)
    requires Scan(text).Some? ==> Count(Scan(text).value, Opens) != Count(Scan(text).value, Closes)
    ensures Loop(text, [[]], isNumber).Err?
  {
    ReadsOneTree(text, isNumber);
    if Loop(text, [[]], isNumber).Ok? {
      var d: Data :| Readable(d) && TokensOf(d) == Scan(text).value;
      TreeBalances(d);
    }
  }

  // --------------------------------------------------------------- what is printed reads

  /** Leaves as they are written: strings a quote ends, words nothing does. */
  ghost predicate Written(d: Data)
    decreases d, 0
  {
    match d
    case Leaf(Quoted(raw)) => Proper(raw) && Unescaped(raw).Some?
    case Leaf(Word(word)) => word != [] && forall i | 0 <= i < |word| :: InWord(word[i])
    case Leaf(_) => false
    case Branch(items) => AllWritten(items)
  }

  ghost predicate AllWritten(items: seq<Data>)
    decreases items, 1
  {
    items == [] || (Written(items[0]) && AllWritten(items[1..]))
  }

  lemma {:induction false} WrittenReadable(d: Data)
    requires Written(d)
    ensures Readable(d)
    decreases d, 0
  {
    if d.Branch? {
      AllWrittenReadable(d.items);
    }
  }

  lemma {:induction false} AllWrittenReadable(items: seq<Data>)
    requires AllWritten(items)
    ensures AllReadable(items)
    decreases items, 1
  {
    if items != [] {
      WrittenReadable(items[0]);
      AllWrittenReadable(items[1..]);
    }
  }

  function TextOf(d: Data): Text
    decreases d, 0
  {
    match d
    case Leaf(Quoted(raw)) => [QUOTE] + raw + [QUOTE]
    case Leaf(Word(word)) => word
    case Leaf(_) => []
    case Branch(items) => [OPEN] + TextOfAll(items) + [CLOSE]
  }

  /** Items, a space after each. */
  function TextOfAll(items: seq<Data>): Text
    decreases items, 1
  {
    if items == [] then [] else TextOf(items[0]) + [SPACE] + TextOfAll(items[1..])
  }

  lemma {:induction false} TreeScans(d: Data, rest: Text)
    requires Written(d) && Scan(rest).Some? && (rest == [] || !InWord(rest[0]))
    ensures Scan(TextOf(d) + rest) == Some(TokensOf(d) + Scan(rest).value)
    decreases d, 0
  {
    match d
    case Leaf(Quoted(raw)) => ScanQuoted(raw, rest);
    case Leaf(Word(word)) => ScanWord(word, rest);
    case Branch(items) =>
      ScanMark(CLOSE, rest);
      ForestScans(items, [CLOSE] + rest);
      BranchScans(TextOfAll(items), TokensOfAll(items), rest);
  }

  lemma {:induction false} BranchScans(inner: Text, tokens: seq<Token>, rest: Text)
    requires Scan(rest).Some? && Scan(inner + ([CLOSE] + rest)) == Some(tokens + ([Closes] + Scan(rest).value))
    ensures Scan([OPEN] + inner + [CLOSE] + rest) == Some([Opens] + tokens + [Closes] + Scan(rest).value)
  {
    Grouped([OPEN], inner, [CLOSE], rest);
    Grouped([Opens], tokens, [Closes], Scan(rest).value);
    ScanMark(OPEN, inner + ([CLOSE] + rest));
  }

  lemma {:induction false} ForestScans(items: seq<Data>, rest: Text)
    requires AllWritten(items) && Scan(rest).Some?
    ensures Scan(TextOfAll(items) + rest) == Some(TokensOfAll(items) + Scan(rest).value)
    decreases items, 1
  {
    if items == [] {
      assert TextOfAll(items) + rest == rest && [] + Scan(rest).value == Scan(rest).value;
    } else {
      var after := TextOfAll(items[1..]) + rest;
      ForestScans(items[1..], rest);
      ScanSpace(SPACE, after);
      TreeScans(items[0], [SPACE] + after);
      Grouped(TextOf(items[0]), [SPACE], TextOfAll(items[1..]), rest);
      Joined(TokensOf(items[0]), TokensOfAll(items[1..]), Scan(rest).value);
    }
  }

  /** Any data written reads back as its value: words as their atoms, records as dicts, all as deep as they go. */
  lemma {:induction false} WrittenReadsBack(d: Data, isNumber: Text -> bool)
    requires Written(d)
    ensures Readable(d) && Loop(TextOf(d), [[]], isNumber) == Ok(ValueOf(d, isNumber))
  {
    WrittenReadable(d);
    TreeScans(d, []);
    assert TextOf(d) + [] == TextOf(d) && TokensOf(d) + [] == TokensOf(d);
    ReadsOneTree(TextOf(d), isNumber);
  }

  // ------------------------------------------------------------------------ records

  /** The last field of a name, if any is. */
  function LastOf(items: seq<Value>, name: Text): Option<Value>
    requires forall i | 0 <= i < |items| :: IsField(items[i])
  {
    if items == [] then None
    else
      var last := items[|items| - 1];
      assert IsField(last);
      if last.items[0].word == name then Some(last.items[1]) else LastOf(items[..|items| - 1], name)
  }

  function Field(fields: seq<(Text, Value)>, name: Text): Option<Value> {
    if fields == [] then None else if fields[0].0 == name then Some(fields[0].1) else Field(fields[1..], name)
  }

  ghost predicate NamedOnce(fields: seq<(Text, Value)>) {
    forall i, j | 0 <= i < j < |fields| :: fields[i].0 != fields[j].0
  }

  lemma {:induction false} SetSets(fields: seq<(Text, Value)>, name: Text, value: Value, other: Text)
    ensures Field(Set(fields, name, value), other) == if other == name then Some(value) else Field(fields, other)
  {
    if fields != [] && fields[0].0 != name {
      SetSets(fields[1..], name, value, other);
    }
  }

  lemma {:induction false} SetNamed(fields: seq<(Text, Value)>, name: Text, value: Value, field: (Text, Value))
    requires field in Set(fields, name, value)
    ensures field.0 == name || field in fields
  {
    if fields != [] && fields[0].0 != name && field != fields[0] {
      SetNamed(fields[1..], name, value, field);
    }
  }

  lemma {:induction false} SetNames(fields: seq<(Text, Value)>, name: Text, value: Value)
    requires NamedOnce(fields)
    ensures NamedOnce(Set(fields, name, value))
  {
    if fields != [] && fields[0].0 != name {
      var rest := Set(fields[1..], name, value);
      SetNames(fields[1..], name, value);
      forall j | 0 <= j < |rest| ensures rest[j].0 != fields[0].0 {
        SetNamed(fields[1..], name, value, rest[j]);
      }
    }
  }

  /** A record read names each field once, as its last says. */
  lemma {:induction false} RecordKeepsLast(items: seq<Value>, name: Text)
    requires forall i | 0 <= i < |items| :: IsField(items[i])
    ensures Field(FieldsOf(items), name) == LastOf(items, name)
    ensures NamedOnce(FieldsOf(items))
    decreases |items|
  {
    if items != [] {
      var last := items[|items| - 1];
      assert IsField(last);
      RecordKeepsLast(items[..|items| - 1], name);
      SetSets(FieldsOf(items[..|items| - 1]), last.items[0].word, last.items[1], name);
      SetNames(FieldsOf(items[..|items| - 1]), last.items[0].word, last.items[1]);
    }
  }

  // ------------------------------------------------------------- every value reads back

  /** A list of a symbol and what it names. */
  ghost predicate Names(item: Value) { exists name, value :: item == List([Sym(name), value]) }

  lemma {:induction false} NamesIs(item: Value)
    ensures IsField(item) <==> Names(item)
  {
    if IsField(item) {
      assert item == List([Sym(item.items[0].word), item.items[1]]);
    }
  }

  /** A record is such lists, one at least, and nothing else. */
  lemma {:induction false} RecordIs(items: seq<Value>)
    ensures IsRecord(items) <==> items != [] && forall i | 0 <= i < |items| :: Names(items[i])
  {
    forall i | 0 <= i < |items| ensures IsField(items[i]) <==> Names(items[i]) {
      NamesIs(items[i]);
    }
  }

  predicate IsReserved(word: Text) {
    || word == [0x23, 0x74, 0x72, 0x75, 0x65] // #true
    || word == [0x23, 0x66, 0x61, 0x6c, 0x73, 0x65] // #false
    || word == [0x6e, 0x6f, 0x6e, 0x65] // none
  }

  predicate IsWord(word: Text) { word != [] && forall i | 0 <= i < |word| :: InWord(word[i]) }

  predicate IsSymbol(word: Text, isNumber: Text -> bool) { IsWord(word) && !IsReserved(word) && !isNumber(word) }

  /** What grift data can say: its words words, its records named once, its lists no records. */
  ghost predicate Sayable(v: Value, isNumber: Text -> bool)
    decreases v, 0
  {
    match v
    case Number(word) => IsWord(word) && !IsReserved(word) && isNumber(word)
    case Sym(word) => IsSymbol(word, isNumber)
    case List(items) => AllSayable(items, isNumber) && !IsRecord(items)
    case Dict(fields) => fields != [] && NamedOnce(fields) && FieldsSayable(fields, isNumber)
    case _ => true
  }

  ghost predicate AllSayable(items: seq<Value>, isNumber: Text -> bool)
    decreases items, 1
  {
    items == [] || (Sayable(items[0], isNumber) && AllSayable(items[1..], isNumber))
  }

  ghost predicate FieldsSayable(fields: seq<(Text, Value)>, isNumber: Text -> bool)
    decreases fields, 1
  {
    if fields == [] then true
    else
      var (name, value) := fields[0];
      assert value < fields[0];
      IsSymbol(name, isNumber) && Sayable(value, isNumber) && FieldsSayable(fields[1..], isNumber)
  }

  /** A value printed: texts as strings, a record as its fields, each a name and what it is. */
  function Print(v: Value): Text
    decreases v, 0
  {
    match v
    case Str(text) => String(text)
    case Bool(yes) => if yes then [0x23, 0x74, 0x72, 0x75, 0x65] else [0x23, 0x66, 0x61, 0x6c, 0x73, 0x65]
    case Nothing => [0x6e, 0x6f, 0x6e, 0x65]
    case Number(word) => word
    case Sym(word) => word
    case List(items) => [OPEN] + PrintAll(items) + [CLOSE]
    case Dict(fields) => [OPEN] + PrintFields(fields) + [CLOSE]
  }

  function PrintAll(items: seq<Value>): Text
    decreases items, 1
  {
    if items == [] then [] else Print(items[0]) + [SPACE] + PrintAll(items[1..])
  }

  function PrintFields(fields: seq<(Text, Value)>): Text
    decreases fields, 1
  {
    if fields == [] then []
    else
      var (name, value) := fields[0];
      assert value < fields[0];
      PrintField(name, Print(value)) + [SPACE] + PrintFields(fields[1..])
  }

  function PrintField(name: Text, value: Text): Text { [OPEN] + (name + [SPACE] + (value + [SPACE])) + [CLOSE] }

  /** The tree a value is printed as. */
  function AsData(v: Value): Data
    decreases v, 0
  {
    match v
    case Str(text) => Leaf(Quoted(Escaped(text)))
    case List(items) => Branch(AsDataAll(items))
    case Dict(fields) => Branch(AsDataFields(fields))
    case _ => Leaf(Word(Print(v)))
  }

  function AsDataAll(items: seq<Value>): seq<Data>
    decreases items, 1
  {
    if items == [] then [] else [AsData(items[0])] + AsDataAll(items[1..])
  }

  function AsDataFields(fields: seq<(Text, Value)>): seq<Data>
    decreases fields, 1
  {
    if fields == [] then []
    else
      var (name, value) := fields[0];
      assert value < fields[0];
      [Branch([Leaf(Word(name)), AsData(value)])] + AsDataFields(fields[1..])
  }

  /** Fields as the lists they are read from. */
  function Pairs(fields: seq<(Text, Value)>): seq<Value> {
    seq(|fields|, i requires 0 <= i < |fields| => List([Sym(fields[i].0), fields[i].1]))
  }

  /** A value is printed as its tree is written, and its tree is it. */
  ghost predicate Says(v: Value, isNumber: Text -> bool) {
    && Written(AsData(v)) && Readable(AsData(v))
    && TextOf(AsData(v)) == Print(v) && ValueOf(AsData(v), isNumber) == v
  }

  lemma {:induction false} LeafSays(v: Value, isNumber: Text -> bool)
    requires Sayable(v, isNumber) && !v.List? && !v.Dict?
    ensures Says(v, isNumber)
  {
    if v.Str? {
      EscapedProper(v.text);
      UnescapedUndoes(v.text);
      StringIsEscaped(v.text);
    }
  }

  lemma {:induction false} ValueSays(v: Value, isNumber: Text -> bool)
    requires Sayable(v, isNumber)
    ensures Says(v, isNumber)
    decreases v, 0
  {
    match v
    case List(items) => AllSay(items, isNumber);
    case Dict(fields) =>
      FieldsSay(fields, isNumber);
      PairsAreFields(fields);
    case _ => LeafSays(v, isNumber);
  }

  lemma {:induction false} AllSay(items: seq<Value>, isNumber: Text -> bool)
    requires AllSayable(items, isNumber)
    ensures AllWritten(AsDataAll(items)) && AllReadable(AsDataAll(items))
    ensures TextOfAll(AsDataAll(items)) == PrintAll(items)
    ensures ValuesOf(AsDataAll(items), isNumber) == items
    decreases items, 1
  {
    if items != [] {
      ValueSays(items[0], isNumber);
      AllSay(items[1..], isNumber);
      assert [items[0]] + items[1..] == items;
    }
  }

  lemma {:induction false} FieldsSay(fields: seq<(Text, Value)>, isNumber: Text -> bool)
    requires FieldsSayable(fields, isNumber)
    ensures AllWritten(AsDataFields(fields)) && AllReadable(AsDataFields(fields))
    ensures TextOfAll(AsDataFields(fields)) == PrintFields(fields)
    ensures ValuesOf(AsDataFields(fields), isNumber) == Pairs(fields)
    decreases fields, 1
  {
    if fields != [] {
      var (name, value) := fields[0];
      assert value < fields[0];
      LeafSays(Sym(name), isNumber);
      ValueSays(value, isNumber);
      FieldSays(name, value, isNumber);
      FieldsSay(fields[1..], isNumber);
      assert Pairs(fields) == [List([Sym(name), value])] + Pairs(fields[1..]);
    }
  }

  /** A field is no record: the first of it is no list. */
  lemma {:induction false} FieldSays(name: Text, value: Value, isNumber: Text -> bool)
    requires Says(Sym(name), isNumber) && Says(value, isNumber)
    ensures var field := Branch([Leaf(Word(name)), AsData(value)]);
            && Written(field) && Readable(field)
            && TextOf(field) == PrintField(name, Print(value))
            && ValueOf(field, isNumber) == List([Sym(name), value])
  {
    var (items, last) := ([Leaf(Word(name)), AsData(value)], [AsData(value)]);
    assert items[1..] == last && last[1..] == [];
    assert AllWritten(last) && AllReadable(last) && AllWritten(items) && AllReadable(items);
    assert TextOfAll(last) == Print(value) + [SPACE] + [] == Print(value) + [SPACE];
    assert ValuesOf(last, isNumber) == [value] + [] == [value];
    assert ValuesOf(items, isNumber) == [Sym(name)] + [value] == [Sym(name), value];
    assert !IsField([Sym(name), value][0]);
  }

  lemma {:induction false} SetNew(fields: seq<(Text, Value)>, name: Text, value: Value)
    requires forall i | 0 <= i < |fields| :: fields[i].0 != name
    ensures Set(fields, name, value) == fields + [(name, value)]
  {
    if fields != [] {
      SetNew(fields[1..], name, value);
    }
  }

  lemma {:induction false} PairsAreFields(fields: seq<(Text, Value)>)
    requires NamedOnce(fields)
    ensures (forall i | 0 <= i < |fields| :: IsField(Pairs(fields)[i])) && FieldsOf(Pairs(fields)) == fields
    decreases |fields|
  {
    if fields != [] {
      var n := |fields| - 1;
      PairsAreFields(fields[..n]);
      assert Pairs(fields)[..n] == Pairs(fields[..n]);
      SetNew(fields[..n], fields[n].0, fields[n].1);
      assert fields == fields[..n] + [(fields[n].0, fields[n].1)];
    }
  }

  /** Reading undoes printing, for every value grift data can say: whatever its texts hold and however deep it goes. */
  lemma {:induction false} PrintedReadsBack(v: Value, isNumber: Text -> bool)
    requires Sayable(v, isNumber)
    ensures Loop(Print(v), [[]], isNumber) == Ok(v)
  {
    ValueSays(v, isNumber);
    WrittenReadsBack(AsData(v), isNumber);
  }
}
