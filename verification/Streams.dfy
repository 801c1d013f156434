/**
 * What a program writes as letters, controls and escape sequences, by a grammar of its own (sections 5.4
 * and 5.6 of ECMA-48, with the liberties the filter takes), and the filter against it: its text is the
 * letters, of any stream (`text` of bench/src/terminal.rs).
 */
module Streams {
  import opened Sequences
  import opened TextFilter
  import opened Watching

  // ------------------------------------------------------------------------------ grammar

  const ESCAPE: Byte := 0x1b
  const BELL: Byte := 0x07
  const BACKSLASH: Byte := 0x5c
  const BRACKET: Byte := 0x5b

  /** CAN or SUB, which end whatever is open. */
  predicate Cancels(b: Byte) { b == 24 || b == 26 }

  predicate Intermediate(b: Byte) { 32 <= b <= 47 }

  /** DCS, SOS, OSC, PM or APC. */
  predicate Introduces(b: Byte) { b == 80 || b == 88 || b == 93 || b == 94 || b == 95 }

  predicate Final(b: Byte) { 64 <= b <= 126 }

  /** A sequence not ended yet: of its introducer so far, or of a control sequence's or a string's body. */
  datatype Open =
    | Escaping(lead: Bytes)
    | Controlling(lead: Bytes, body: Bytes)
    | Stringing(lead: Bytes, opens: Byte, body: Bytes)

  /** One thing written. */
  datatype Written =
    | Letter(b: Byte)
    | Control(b: Byte)
    | Escaped(lead: Bytes, last: Byte)
    | Controls(lead: Bytes, body: Bytes, final: Byte)
    | String(lead: Bytes, opens: Byte, body: Bytes, bell: bool)
    | Cancelled(open: Open, cancel: Byte)

  predicate Leads(lead: Bytes) { forall i | 0 <= i < |lead| :: Intermediate(lead[i]) }

  predicate IsOpen(open: Open) {
    Leads(open.lead)
    && match open
       case Escaping(_) => true
       case Controlling(_, body) => forall i | 0 <= i < |body| :: !Final(body[i]) && !Cancels(body[i])
       case Stringing(_, opens, body) => Introduces(opens) && InString(body)
  }

  /** No end of a string is in its body. */
  predicate InString(body: Bytes) {
    && (forall i | 0 <= i < |body| :: body[i] != BELL && !Cancels(body[i]))
    && (forall i | 0 <= i < |body| - 1 :: !(body[i] == ESCAPE && body[i + 1] == BACKSLASH))
  }

  predicate IsWritten(w: Written) {
    match w
    case Letter(b) => b >= 32 && b != 127
    case Control(b) => (b < 32 || b == 127) && b != ESCAPE
    case Escaped(lead, last) =>
      Leads(lead) && !Intermediate(last) && !Cancels(last) && last != BRACKET && !Introduces(last)
    case Controls(lead, body, final) => IsOpen(Controlling(lead, body)) && Final(final)
    case String(lead, opens, body, _) => IsOpen(Stringing(lead, opens, body))
    case Cancelled(open, cancel) => IsOpen(open) && Cancels(cancel)
  }

  function OpenBytes(open: Open): Bytes {
    match open
    case Escaping(lead) => [ESCAPE] + lead
    case Controlling(lead, body) => [ESCAPE] + lead + [BRACKET] + body
    case Stringing(lead, opens, body) => [ESCAPE] + lead + [opens] + body
  }

  function BytesOf(w: Written): Bytes {
    match w
    case Letter(b) => [b]
    case Control(b) => [b]
    case Escaped(lead, last) => OpenBytes(Escaping(lead)) + [last]
    case Controls(lead, body, final) => OpenBytes(Controlling(lead, body)) + [final]
    case String(lead, opens, body, bell) =>
      OpenBytes(Stringing(lead, opens, body)) + if bell then [BELL] else [ESCAPE, BACKSLASH]
    case Cancelled(open, cancel) => OpenBytes(open) + [cancel]
  }

  /** A stream: things written, and what is open after them. */
  datatype Stream = Stream(written: seq<Written>, open: Option<Open>)

  predicate IsStream(s: Stream) {
    (forall i | 0 <= i < |s.written| :: IsWritten(s.written[i])) && (s.open.Some? ==> IsOpen(s.open.value))
  }

  function BytesOfAll(written: seq<Written>): Bytes {
    if written == [] then [] else BytesOfAll(written[..|written| - 1]) + BytesOf(written[|written| - 1])
  }

  function StreamBytes(s: Stream): Bytes {
    BytesOfAll(s.written) + if s.open.Some? then OpenBytes(s.open.value) else []
  }

  /** The letters of what was written. */
  function Letters(written: seq<Written>): Bytes {
    if written == [] then []
    else
      var last := written[|written| - 1];
      Letters(written[..|written| - 1]) + if last.Letter? then [last.b] else []
  }

  // ---------------------------------------------------------------------------- the filter

  /** Where the filter is while something is open. */
  function StateOf(open: Open): Escape {
    match open
    case Escaping(_) => Esc
    case Controlling(_, _) => Csi
    case Stringing(_, _, body) => if body != [] && body[|body| - 1] == ESCAPE then StrEsc else Str
  }

  lemma {:induction false} FilterOne(state: Escape, b: Byte)
    ensures Filter([b], state) == Next(state, b)
  {
    assert [b][1..] == [];
    assert Next(state, b).1 + [] == Next(state, b).1;
  }

  /** One byte more. */
  lemma {:induction false} FilterNext(bytes: Bytes, b: Byte, state: Escape, was: Escape, text: Bytes)
    requires Filter(bytes, state) == (was, text)
    ensures Filter(bytes + [b], state) == (Next(was, b).0, text + Next(was, b).1)
  {
    FilterSplits(bytes, [b], state);
    FilterOne(was, b);
  }

  lemma {:induction false} LeadFilters(lead: Bytes)
    requires Leads(lead)
    ensures Filter([ESCAPE] + lead, InText) == (Esc, [])
    decreases |lead|
  {
    if lead == [] {
      FilterOne(InText, ESCAPE);
      assert [ESCAPE] + [] == [ESCAPE];
    } else {
      var n := |lead| - 1;
      LeadFilters(lead[..n]);
      FilterNext([ESCAPE] + lead[..n], lead[n], InText, Esc, []);
      assert [ESCAPE] + lead[..n] + [lead[n]] == [ESCAPE] + lead;
    }
  }

  lemma {:induction false} ControlFilters(lead: Bytes, body: Bytes)
    requires IsOpen(Controlling(lead, body))
    ensures Filter(OpenBytes(Controlling(lead, body)), InText) == (Csi, [])
    decreases |body|
  {
    if body == [] {
      LeadFilters(lead);
      FilterNext([ESCAPE] + lead, BRACKET, InText, Esc, []);
      assert [ESCAPE] + lead + [BRACKET] + [] == [ESCAPE] + lead + [BRACKET];
    } else {
      var n := |body| - 1;
      ControlFilters(lead, body[..n]);
      FilterNext(OpenBytes(Controlling(lead, body[..n])), body[n], InText, Csi, []);
      assert OpenBytes(Controlling(lead, body[..n])) + [body[n]] == OpenBytes(Controlling(lead, body));
    }
  }

  lemma {:induction false} StringFilters(lead: Bytes, opens: Byte, body: Bytes)
    requires IsOpen(Stringing(lead, opens, body))
    ensures Filter(OpenBytes(Stringing(lead, opens, body)), InText) == (StateOf(Stringing(lead, opens, body)), [])
    decreases |body|
  {
    if body == [] {
      LeadFilters(lead);
      FilterNext([ESCAPE] + lead, opens, InText, Esc, []);
      assert [ESCAPE] + lead + [opens] + [] == [ESCAPE] + lead + [opens];
    } else {
      var n := |body| - 1;
      StringFilters(lead, opens, body[..n]);
      FilterNext(OpenBytes(Stringing(lead, opens, body[..n])), body[n], InText,
        StateOf(Stringing(lead, opens, body[..n])), []);
      assert OpenBytes(Stringing(lead, opens, body[..n])) + [body[n]] == OpenBytes(Stringing(lead, opens, body));
    }
  }

  /** What is open is no text, and leaves the filter in the state of its kind. */
  lemma {:induction false} OpenFilters(open: Open)
    requires IsOpen(open)
    ensures Filter(OpenBytes(open), InText) == (StateOf(open), [])
  {
    match open
    case Escaping(lead) => LeadFilters(lead);
    case Controlling(lead, body) => ControlFilters(lead, body);
    case Stringing(lead, opens, body) => StringFilters(lead, opens, body);
  }

  /** A letter is its own text; all else written is none, and each thing ends where text begins. */
  lemma {:induction false} WrittenFilters(w: Written)
    requires IsWritten(w)
    ensures Filter(BytesOf(w), InText) == (InText, if w.Letter? then [w.b] else [])
  {
    match w
    case Letter(b) => FilterOne(InText, b);
    case Control(b) => FilterOne(InText, b);
    case Escaped(lead, last) => EndFilters(Escaping(lead), last);
    case Controls(lead, body, final) => EndFilters(Controlling(lead, body), final);
    case Cancelled(open, cancel) => EndFilters(open, cancel);
    case String(lead, opens, body, bell) => StringEnds(lead, opens, body, bell);
  }

  lemma {:induction false} EndFilters(open: Open, last: Byte)
    requires IsOpen(open) && Next(StateOf(open), last) == (InText, [])
    ensures Filter(OpenBytes(open) + [last], InText) == (InText, [])
  {
    OpenFilters(open);
    FilterNext(OpenBytes(open), last, InText, StateOf(open), []);
  }

  lemma {:induction false} StringEnds(lead: Bytes, opens: Byte, body: Bytes, bell: bool)
    requires IsOpen(Stringing(lead, opens, body))
    ensures Filter(BytesOf(String(lead, opens, body, bell)), InText) == (InText, [])
  {
    var open := Stringing(lead, opens, body);
    if bell {
      EndFilters(open, BELL);
    } else {
      OpenFilters(open);
      FilterNext(OpenBytes(open), ESCAPE, InText, StateOf(open), []);
      FilterNext(OpenBytes(open) + [ESCAPE], BACKSLASH, InText, StrEsc, []);
      assert OpenBytes(open) + [ESCAPE] + [BACKSLASH] == OpenBytes(open) + [ESCAPE, BACKSLASH];
    }
  }

  lemma {:induction false} AllFilter(written: seq<Written>)
    requires forall i | 0 <= i < |written| :: IsWritten(written[i])
    ensures Filter(BytesOfAll(written), InText) == (InText, Letters(written))
    decreases |written|
  {
    if written != [] {
      var (front, last) := (written[..|written| - 1], written[|written| - 1]);
      AllFilter(front);
      WrittenFilters(last);
      FilterSplits(BytesOfAll(front), BytesOf(last), InText);
    }
  }

  /** The text of a stream is its letters, and the filter is then in the state of what is open. */
  lemma {:induction false} StreamFilters(s: Stream)
    requires IsStream(s)
    ensures Filter(StreamBytes(s), InText) ==
            (if s.open.Some? then StateOf(s.open.value) else InText, Letters(s.written))
  {
    AllFilter(s.written);
    var open := if s.open.Some? then OpenBytes(s.open.value) else [];
    if s.open.Some? {
      OpenFilters(s.open.value);
    }
    FilterSplits(BytesOfAll(s.written), open, InText);
    assert Letters(s.written) + [] == Letters(s.written);
  }

  // ---------------------------------------------------------------------- every stream

  /** What a byte makes of what is open: it is open still, or is written. */
  datatype Longer = StillOpen(open: Open) | Ends(written: Written)

  function MoreOpen(open: Open, b: Byte): Longer {
    if Cancels(b) then Ends(Cancelled(open, b))
    else match open
      case Escaping(lead) =>
        if b == BRACKET then StillOpen(Controlling(lead, []))
        else if Introduces(b) then StillOpen(Stringing(lead, b, []))
        else if Intermediate(b) then StillOpen(Escaping(lead + [b]))
        else Ends(Escaped(lead, b))
      case Controlling(lead, body) =>
        if Final(b) then Ends(Controls(lead, body, b)) else StillOpen(Controlling(lead, body + [b]))
      case Stringing(lead, opens, body) =>
        var n := |body| - 1;
        if b == BELL then Ends(String(lead, opens, body, true))
        else if b == BACKSLASH && body != [] && body[n] == ESCAPE then Ends(String(lead, opens, body[..n], false))
        else StillOpen(Stringing(lead, opens, body + [b]))
  }

  /** A byte more of a stream. */
  function More(s: Stream, b: Byte): Stream {
    match s.open
    case None =>
      if b == ESCAPE then s.(open := Some(Escaping([])))
      else s.(written := s.written + [if b < 32 || b == 127 then Control(b) else Letter(b)])
    case Some(open) =>
      match MoreOpen(open, b)
      case StillOpen(open) => s.(open := Some(open))
      case Ends(written) => Stream(s.written + [written], None)
  }

  lemma {:induction false} BytesSnoc(written: seq<Written>, w: Written)
    ensures BytesOfAll(written + [w]) == BytesOfAll(written) + BytesOf(w)
  {
    assert (written + [w])[..|written|] == written;
  }

  /** As a byte more is to be: what is open has it, or what is written ends with it. */
  ghost predicate Grows(open: Open, b: Byte) {
    match MoreOpen(open, b)
    case StillOpen(next) => IsOpen(next) && OpenBytes(next) == OpenBytes(open) + [b]
    case Ends(written) => IsWritten(written) && BytesOf(written) == OpenBytes(open) + [b]
  }

  lemma {:induction false} StringGrows(lead: Bytes, opens: Byte, body: Bytes, b: Byte)
    requires IsOpen(Stringing(lead, opens, body)) && !Cancels(b)
    ensures Grows(Stringing(lead, opens, body), b)
  {
    var n := |body| - 1;
    if body != [] && body[n] == ESCAPE {
      assert body == body[..n] + [ESCAPE];
      assert OpenBytes(Stringing(lead, opens, body[..n])) + [ESCAPE, b] == [ESCAPE] + lead + [opens] + body + [b];
    }
    Joined([ESCAPE] + lead + [opens], body, [b]);
  }

  lemma {:induction false} MoreOpenIs(open: Open, b: Byte)
    requires IsOpen(open)
    ensures Grows(open, b)
  {
    match open
    case Escaping(lead) =>
      Joined([ESCAPE], lead, [b]);
      assert [ESCAPE] + lead + [b] + [] == [ESCAPE] + lead + [b];
    case Controlling(lead, body) => Joined([ESCAPE] + lead + [BRACKET], body, [b]);
    case Stringing(lead, opens, body) =>
      if !Cancels(b) {
        StringGrows(lead, opens, body, b);
      }
  }

  lemma {:induction false} MoreIs(s: Stream, b: Byte)
    requires IsStream(s)
    ensures IsStream(More(s, b)) && StreamBytes(More(s, b)) == StreamBytes(s) + [b]
  {
    var next := More(s, b);
    if |next.written| > |s.written| {
      BytesSnoc(s.written, next.written[|s.written|]);
    }
    match s.open
    case Some(open) =>
      MoreOpenIs(open, b);
      Joined(BytesOfAll(s.written), OpenBytes(open), [b]);
      assert BytesOfAll(next.written) + [] == BytesOfAll(next.written);
    case None =>
      assert BytesOfAll(s.written) + [] == BytesOfAll(s.written);
      assert BytesOfAll(next.written) + [] == BytesOfAll(next.written);
      assert [ESCAPE] + [] == [ESCAPE];
  }

  /** Whatever bytes are written are such a stream. */
  lemma {:induction false} EveryStreamIs(bytes: Bytes) returns (s: Stream)
    ensures IsStream(s) && StreamBytes(s) == bytes
    decreases |bytes|
  {
    if bytes == [] {
      s := Stream([], None);
    } else {
      var n := |bytes| - 1;
      var before := EveryStreamIs(bytes[..n]);
      MoreIs(before, bytes[n]);
      s := More(before, bytes[n]);
    }
  }

  // ------------------------------------------------------------------------------ a watch

  /** A pattern watched for from where text begins arrives exactly if it is in the letters of what is written. */
  lemma {:induction false} LettersArrive(s: Seen, pattern: Bytes, stream: Stream, chunks: seq<Bytes>, times: seq<nat>)
    requires s.escape == InText && |pattern| <= KEPT + 1 && |chunks| <= |times|
    requires IsStream(stream) && StreamBytes(stream) == Flat(chunks)
    ensures ReadAll(OnWatch(s, pattern), chunks, times).arrived.Some? <==>
            Occurrences(Letters(stream.written), pattern) > 0
  {
    StreamFilters(stream);
    WatchedArrives(s, pattern, chunks, times);
  }
}
