/**
 * What a program's end shows and says, and what the server reads of a client (`ran` and `frame` of
 * `Keyboard`, src/client.rs): by what the client may show, and by what the answer reads back as.
 */
module JobEnds {
  import opened Keys
  import opened Acts
  import opened Modes
  import opened Screens
  import opened Keyboards
  import opened RecordReader

  /** What is said, one thing after another. */
  function Parts(said: Said): seq<Said> {
    match said case BothSaid(first, second) => Parts(first) + Parts(second) case _ => [said]
  }

  /** A program's screen opens: the client does not only watch, and has a number left for it. */
  predicate OpensIt(k: Keyboard, s: Shared, ran: Ran) {
    && ran.shows.Some? && !k.readOnly && k.display.opening != LAST_OPENING
    && PanelOf(ran.shows.value, s.modes).Some?
  }

  /** A list or a prompt closes, as a program that opens none changed the keys its hints name. */
  predicate ClosesIt(k: Keyboard, ran: Ran) {
    ran.shows.None? && ran.rebound && !k.display.screen.KeysScreen?
  }

  /** Why a program's screen does not open. */
  function Refused(k: Keyboard, ran: Ran): seq<Said> {
    if ran.shows.None? then []
    else if k.readOnly then [WatchingOpensNoneSaid]
    else if k.display.opening == LAST_OPENING then [ExhaustedSaid]
    else []
  }

  /** What a program's end draws or hides. */
  function Drawn(k: Keyboard, s: Shared, ran: Ran): seq<Act> {
    if OpensIt(k, s, ran) then [ScreenIs(k.display.opening + 1, Show(PanelOf(ran.shows.value, s.modes).value))]
    else if ClosesIt(k, ran) then [ScreenIs(k.display.opening, Hide)]
    else []
  }

  /** What a program's end says: why its screen did not open, its own notice, and that a screen closed. */
  function Words(k: Keyboard, ran: Ran): seq<Said> {
    var own := if ran.notice.Some? then Parts(ran.notice.value.0) else [];
    Refused(k, ran) + own + if ClosesIt(k, ran) then [ClosedSaid] else []
  }

  /** A program's end as it is to be: it draws at most once, then says all it has to in one notice. */
  ghost predicate Told(k: Keyboard, s: Shared, ran: Ran, k': Keyboard, acts: seq<Act>) {
    var drawn := Drawn(k, s, ran);
    && k' == k.(display := if OpensIt(k, s, ran) then Showing(ran.shows.value, k.display.opening + 1)
                           else if ClosesIt(k, ran) then k.display.(screen := NO_SCREEN)
                           else k.display)
    && |drawn| <= |acts| <= |drawn| + 1 && acts[..|drawn|] == drawn
    && (|acts| == |drawn| <==> Words(k, ran) == [])
    && (|acts| > |drawn| ==>
          && acts[|drawn|].Notice? && Parts(acts[|drawn|].said) == Words(k, ran)
          && (acts[|drawn|].error <==> Refused(k, ran) != [] || (ran.notice.Some? && ran.notice.value.1)))
  }

  lemma {:induction false} ShowedIs(k: Keyboard, s: Shared, ran: Ran)
    ensures var (k', acts) := Showed(k, s, ran); Told(k, s, ran, k', acts)
  {
    if ran.shows.Some? {
      OpenedIs(k, s, ran);
    } else {
      ClosedIs(k, s, ran);
    }
  }

  lemma {:induction false} PartsAre(said: Said)
    ensures Parts(said) != []
  {
    if said.BothSaid? {
      PartsAre(said.first);
    }
  }

  /** What is drawn, then what is said, if anything is. */
  lemma {:induction false} DrawnThenSaid(k: Keyboard, s: Shared, ran: Ran, k': Keyboard, notice: Option<(Said, bool)>)
    requires k' == k.(display := if OpensIt(k, s, ran) then Showing(ran.shows.value, k.display.opening + 1)
                                 else if ClosesIt(k, ran) then k.display.(screen := NO_SCREEN)
                                 else k.display)
    requires notice.None? <==> Words(k, ran) == []
    requires notice.Some? ==>
               && Parts(notice.value.0) == Words(k, ran)
               && (notice.value.1 <==> Refused(k, ran) != [] || (ran.notice.Some? && ran.notice.value.1))
    ensures Told(k, s, ran, k', Drawn(k, s, ran) + NoticeOf(notice))
  {
    var drawn := Drawn(k, s, ran);
    assert (drawn + NoticeOf(notice))[..|drawn|] == drawn;
  }

  /** A notice that says why its screen did not open, or all it says. */
  function Spoken(k: Keyboard, ran: Ran): Option<(Said, bool)> {
    if Refused(k, ran) == [] then ran.notice
    else match ran.notice
      case None => Some((Refused(k, ran)[0], true))
      case Some((said, _)) => Some((BothSaid(Refused(k, ran)[0], said), true))
  }

  lemma {:induction false} OpenedIs(k: Keyboard, s: Shared, ran: Ran)
    requires ran.shows.Some?
    ensures var (k', acts) := Showed(k, s, ran); Told(k, s, ran, k', acts)
  {
    var (k', acts) := Showed(k, s, ran);
    var why := Refused(k, ran);
    assert [] + NoticeOf(Spoken(k, ran)) == NoticeOf(Spoken(k, ran)) && why + [] == why;
    assert acts == Drawn(k, s, ran) + NoticeOf(Spoken(k, ran));
    if ran.notice.Some? {
      PartsAre(ran.notice.value.0);
      assert [] + Parts(ran.notice.value.0) + [] == Parts(ran.notice.value.0);
      assert why + Parts(ran.notice.value.0) + [] == why + Parts(ran.notice.value.0);
    }
    DrawnThenSaid(k, s, ran, k', Spoken(k, ran));
  }

  lemma {:induction false} ClosedIs(k: Keyboard, s: Shared, ran: Ran)
    requires ran.shows.None?
    ensures var (k', acts) := Showed(k, s, ran); Told(k, s, ran, k', acts)
  {
    var own := if ran.notice.Some? then Parts(ran.notice.value.0) else [];
    assert [] + own + [] == own && [] + own + [ClosedSaid] == own + [ClosedSaid] && [] + [ClosedSaid] == [ClosedSaid];
    if ran.notice.Some? {
      PartsAre(ran.notice.value.0);
    }
    var notice := if !ClosesIt(k, ran) then ran.notice
      else match ran.notice
        case Some((said, error)) => Some((BothSaid(said, ClosedSaid), error))
        case None => Some((ClosedSaid, false));
    assert [] + NoticeOf(notice) == NoticeOf(notice);
    DrawnThenSaid(k, s, ran, Showed(k, s, ran).0, notice);
  }

  // ---------------------------------------------------------------------------- answers

  /** The path a read is told: that of a column, a mode or a watcher's prefix; nothing, of a list or a prompt. */
  function HeldBy(screen: Screen): Path {
    if !screen.KeysScreen? then []
    else match screen.held
      case Normal => []
      case InColumn(path, _) => path
      case Repeating(path) => path
      case Prefixed(key) => [key]
  }

  lemma {:induction false} AnswersFirst(k: Keyboard, s: Shared, asked: nat, read: ClientRead)
    ensures var out := TakeFrame(k, s, ReadFrame(asked, read)).1;
            out != [] && out[0] == DoAnswer(asked, Answer(k, s, read))
    ensures Answer(k, s, ReadKeys) == KeysRecord.KeysRecord(s.root, s.modes, HeldBy(k.display.screen))
  {
  }

  /** A read of the keys is answered with what reads back as the keymap and the keys held; of preferences, with them. */
  lemma {:induction false} AnswerReads(k: Keyboard, s: Shared, asked: nat, read: ClientRead)
    requires Sound(s.modes)
    ensures var (k', out) := TakeFrame(k, s, ReadFrame(asked, read));
            && out != [] && out[0].DoAnswer? && out[0].asked == asked
            && match read
               case ReadKeys => ReadRecord(out[0].value) ==
                 Some(RecordReader.Told(s.root.keys, s.modes, HeldBy(k.display.screen)))
               case ReadPreferences => out[0].value == s.preferences
  {
    RecordRebuilds(s.root, s.modes, HeldBy(k.display.screen));
    AnswersFirst(k, s, asked, read);
  }
}
