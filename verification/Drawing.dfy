/** What an attached client draws, in every interleaving: the openings of all it ever emits are in order. */
module Drawing {
  import opened Keys
  import opened Acts
  import opened Screens
  import opened Sequences
  import opened Openings
  import opened Keyboards
  import opened Attachment

  /** The acts of a log, the endings taken left out. */
  function Drawings(log: seq<Mark>): seq<Mark> {
    if log == [] then [] else (if log[0].Drawn? then [log[0]] else []) + Drawings(log[1..])
  }

  lemma {:induction false} DrawingsAppend(a: seq<Mark>, b: seq<Mark>)
    ensures Drawings(a + b) == Drawings(a) + Drawings(b)
  {
    if a == [] {
      assert a + b == b;
    } else {
      assert (a + b)[1..] == a[1..] + b;
      DrawingsAppend(a[1..], b);
    }
  }

  lemma {:induction false} MarksAppend(a: seq<Dispatch>, b: seq<Dispatch>)
    ensures MarksOf(a + b) == MarksOf(a) + MarksOf(b)
  {
    if a == [] {
      assert a + b == b;
    } else {
      assert (a + b)[1..] == a[1..] + b;
      MarksAppend(a[1..], b);
    }
  }

  lemma {:induction false} MarksAreDrawn(out: seq<Dispatch>)
    ensures Drawings(MarksOf(out)) == MarksOf(out)
  {
    if out != [] {
      MarksAreDrawn(out[1..]);
      var first := match out[0] case DoSend(ScreenIs(opening, change)) => [Drawn(opening, change)] case _ => [];
      DrawingsAppend(first, MarksOf(out[1..]));
      assert first == [] || first[1..] == [];
    }
  }

  lemma {:induction false} MarksOfSends(acts: seq<Act>)
    ensures MarksOf(Keyboards.Sends(acts)) == MarksOfActs(acts)
  {
    if acts != [] {
      assert Keyboards.Sends(acts)[1..] == Keyboards.Sends(acts[1..]);
      MarksOfSends(acts[1..]);
    }
  }

  /** What starts a job draws nothing. */
  lemma {:induction false} RouteMarks(k: Keyboard, effects: seq<Dispatch>)
    ensures MarksOf(Route(k, effects).1) == MarksOf(effects)
    ensures Route(k, effects).0.display == k.display && Route(k, effects).0.readOnly == k.readOnly
    decreases |effects|
  {
    if effects != [] {
      var (k', first) := if effects[0].DoRun? then Admit(k, effects[0].job) else (k, [effects[0]]);
      RouteMarks(k', effects[1..]);
      MarksAppend(first, Route(k', effects[1..]).1);
      assert first == [] || first[1..] == [];
      assert MarksOf(effects) == MarksOf(first) + MarksOf(effects[1..]);
    }
  }

  /** A log of what was emitted and ended: it agrees with what is shown, and its acts are those emitted. */
  ghost predicate Draws(k: Keyboard, stream: seq<Dispatch>, log: seq<Mark>) {
    Agrees(k.display, log, k.readOnly) && Drawings(log) == MarksOf(stream)
  }

  /** A display's step, and what is emitted with it. */
  lemma {:induction false} StepDraws(k: Keyboard, k': Keyboard, stream: seq<Dispatch>, log: seq<Mark>,
        out: seq<Dispatch>, step: Openings.Step)
    requires Draws(k, stream, log) && k'.readOnly == k.readOnly
    requires k'.display == Stepped(k.display, step, k.readOnly).0
    requires Drawings(Stepped(k.display, step, k.readOnly).1) == MarksOf(out)
    ensures Draws(k', stream + out, log + Stepped(k.display, step, k.readOnly).1)
  {
    StepAgrees(k.display, log, step, k.readOnly);
    DrawingsAppend(log, Stepped(k.display, step, k.readOnly).1);
    MarksAppend(stream, out);
  }

  /** What draws nothing, while the display stays. */
  lemma {:induction false} StillDraws(k: Keyboard, k': Keyboard, stream: seq<Dispatch>, log: seq<Mark>,
        out: seq<Dispatch>)
    requires Draws(k, stream, log) && k'.readOnly == k.readOnly && k'.display == k.display && MarksOf(out) == []
    ensures Draws(k', stream + out, log + MarksOf(out))
  {
    MarksAppend(stream, out);
    assert log + [] == log;
  }

  lemma {:induction false} HandleDraws(k: Keyboard, s: Shared, input: Input, stream: seq<Dispatch>, log: seq<Mark>)
    requires Draws(k, stream, log)
    ensures var (k', out) := Handle(k, s, input); Draws(k', stream + out, log + MarksOf(out))
  {
    var (display, effects) := TakeInput(k.display, s.root, s.modes, input, k.readOnly);
    RouteMarks(k.(display := display, log := k.log.(handled := k.log.handled + [input])), effects);
    MarksAreDrawn(effects);
    StepDraws(k, Handle(k, s, input).0, stream, log, Handle(k, s, input).1, InputStep(s.root, s.modes, input));
  }

  lemma {:induction false} MarksOfActsAppend(a: seq<Act>, b: seq<Act>)
    ensures MarksOfActs(a + b) == MarksOfActs(a) + MarksOfActs(b)
  {
    if a == [] {
      assert a + b == b;
    } else {
      assert (a + b)[1..] == a[1..] + b;
      MarksOfActsAppend(a[1..], b);
    }
  }

  lemma {:induction false} NoticesDrawNothing(notice: Option<(Said, bool)>)
    ensures MarksOfActs(NoticeOf(notice)) == []
  {
    assert NoticeOf(notice) == [] || NoticeOf(notice)[1..] == [];
  }

  /** The display's part of what a job's end shows. */
  function ShowedStep(k: Keyboard, s: Shared, ran: Ran): Option<Openings.Step> {
    if ran.shows.Some? then (if k.readOnly then None else Some(OpenStep(ran.shows.value, s.modes)))
    else if ran.rebound && !k.display.screen.KeysScreen? then Some(CloseStep)
    else None
  }

  lemma {:induction false} OpenedDraws(k: Keyboard, s: Shared, ran: Ran)
    requires ran.shows.Some?
    ensures MarksOfActs(Showed(k, s, ran).1) == MarksOfActs(OpenFor(k, s, ran.shows.value).1)
    ensures Showed(k, s, ran).0 == OpenFor(k, s, ran.shows.value).0
  {
    var acts := OpenFor(k, s, ran.shows.value).1;
    NoticesDrawNothing(ran.notice);
    MarksOfActsAppend(acts, NoticeOf(ran.notice));
    if acts != [] && acts[0].Notice? && ran.notice.Some? {
      assert Showed(k, s, ran).1[1..] == acts[1..];
    }
  }

  lemma {:induction false} ShowedDraws(k: Keyboard, s: Shared, ran: Ran)
    ensures Showed(k, s, ran).0.readOnly == k.readOnly
    ensures match ShowedStep(k, s, ran)
            case None => Showed(k, s, ran).0.display == k.display && MarksOfActs(Showed(k, s, ran).1) == []
            case Some(step) =>
              (Showed(k, s, ran).0.display, MarksOfActs(Showed(k, s, ran).1)) == Stepped(k.display, step, k.readOnly)
  {
    NoticesDrawNothing(ran.notice);
    if ran.shows.Some? {
      OpenedDraws(k, s, ran);
      NoticesDrawNothing(Some((WatchingOpensNoneSaid, true)));
    } else if ran.rebound && !k.display.screen.KeysScreen? {
      var notice := match ran.notice
        case Some((said, error)) => (BothSaid(said, ClosedSaid), error)
        case None => (ClosedSaid, false);
      var act := CloseScreen(k.display).1;
      NoticesDrawNothing(Some(notice));
      MarksOfActsAppend(match act case None => [] case Some(a) => [a], NoticeOf(Some(notice)));
    }
  }

  lemma {:induction false} ActMarksAreDrawn(acts: seq<Act>)
    ensures Drawings(MarksOfActs(acts)) == MarksOfActs(acts)
  {
    MarksOfSends(acts);
    MarksAreDrawn(Keyboards.Sends(acts));
  }

  /** What a job's end emits draws what it shows, and no more. */
  lemma {:induction false} FinishedMarks(k: Keyboard, s: Shared, ran: Ran)
    ensures var before := k.(running := if k.running == 0 then 0 else k.running - 1);
            var (k', out) := Keyboards.TakeUpdate(k, s, Finished(ran));
            && MarksOf(out) == MarksOfActs(Showed(before, s, ran).1)
            && k'.display == Showed(before, s, ran).0.display && k'.readOnly == Showed(before, s, ran).0.readOnly
  {
    var before := k.(running := if k.running == 0 then 0 else k.running - 1);
    var (k1, acts) := Showed(before, s, ran);
    MarksOfSends(acts);
    if k1.pending != [] {
      MarksAppend(Keyboards.Sends(acts), [DoRun(k1.pending[0])]);
      assert [DoRun(k1.pending[0])][1..] == [];
    }
  }

  lemma {:induction false} FinishedDraws(k: Keyboard, s: Shared, ran: Ran, stream: seq<Dispatch>, log: seq<Mark>)
    requires Draws(k, stream, log)
    ensures var (k', out) := Keyboards.TakeUpdate(k, s, Finished(ran)); Draws(k', stream + out, log + MarksOf(out))
  {
    var before := k.(running := if k.running == 0 then 0 else k.running - 1);
    FinishedMarks(k, s, ran);
    ShowedDraws(before, s, ran);
    ActMarksAreDrawn(Showed(before, s, ran).1);
    var (k', out) := Keyboards.TakeUpdate(k, s, Finished(ran));
    match ShowedStep(before, s, ran)
    case None => StillDraws(k, k', stream, log, out);
    case Some(step) => StepDraws(k, k', stream, log, out, step);
  }

  // ------------------------------------------------------------------- whole runs

  /** What a step adds to the log: the ending it takes, or the screen acts it emits. */
  function StepMarks(s: System, step: Attachment.Step): seq<Mark>
    requires Enabled(s, step)
  {
    var stream := After(s, step).stream;
    if step.TakesFrame? && step.frame.EndedFrame? then [Mark.Ended(step.frame.opening)]
    else if |s.stream| <= |stream| then MarksOf(stream[|s.stream|..])
    else []
  }

  /** The screen acts a run emits and the endings it takes, in order. */
  function LogOf(s: System, steps: seq<Attachment.Step>): seq<Mark>
    requires CanRun(s, steps)
    decreases |steps|
  {
    if steps == [] then [] else StepMarks(s, steps[0]) + LogOf(After(s, steps[0]), steps[1..])
  }

  /** A step goes on with the log. */
  ghost predicate DrawsAfter(s: System, step: Attachment.Step, log: seq<Mark>)
    requires Enabled(s, step)
  {
    var s' := After(s, step);
    Draws(s'.k, s'.stream, log + StepMarks(s, step)) && s.stream <= s'.stream
  }

  lemma {:induction false} MarksEmitted(s: System, step: Attachment.Step, out: seq<Dispatch>)
    requires Enabled(s, step) && !(step.TakesFrame? && step.frame.EndedFrame?)
             && After(s, step).stream == s.stream + out
    ensures StepMarks(s, step) == MarksOf(out)
  {
    assert (s.stream + out)[|s.stream|..] == out;
  }

  lemma {:induction false} FrameDraws(s: System, frame: Frame, log: seq<Mark>)
    requires Draws(s.k, s.stream, log) && Enabled(s, TakesFrame(frame))
    ensures DrawsAfter(s, TakesFrame(frame), log)
  {
    match frame
    case EndedFrame(opening) =>
      StepDraws(s.k, OnFrame(s, frame).k, s.stream, log, [], EndStep(opening));
      assert s.stream + [] == s.stream;
    case OpenFrame(screen) =>
      var (k', out) := Admit(s.k, ScreenJob(screen));
      assert out == [] || out[1..] == [];
      StillDraws(s.k, k', s.stream, log, out);
      MarksEmitted(s, TakesFrame(frame), out);
    case ReadFrame(asked, read) =>
      var answer := [DoAnswer(asked, Answer(s.k, s.shared, read))];
      assert answer[1..] == [];
      StillDraws(s.k, s.k, s.stream, log, answer);
      MarksEmitted(s, TakesFrame(frame), answer);
  }

  lemma {:induction false} ReleaseDraws(s: System, log: seq<Mark>)
    requires Draws(s.k, s.stream, log) && Enabled(s, ReleasesOne)
    ensures DrawsAfter(s, ReleasesOne, log)
  {
    var k := s.k.(waiting := s.k.waiting[1..]);
    assert Draws(k, s.stream, log);
    HandleDraws(k, s.shared, s.k.waiting[0], s.stream, log);
    MarksEmitted(s, ReleasesOne, Handle(k, s.shared, s.k.waiting[0]).1);
  }

  lemma {:induction false} UpdateDraws(s: System, log: seq<Mark>)
    requires Draws(s.k, s.stream, log) && Enabled(s, TakesUpdate)
    ensures DrawsAfter(s, TakesUpdate, log)
  {
    MarksEmitted(s, TakesUpdate, Keyboards.TakeUpdate(s.k, s.shared, s.told[0]).1);
    match s.told[0]
    case Finished(ran) => FinishedDraws(s.k, s.shared, ran, s.stream, log);
    case Presents(v) =>
      var out := Presenting(v);
      assert out[1..] == [DoFence] && [DoFence][1..] == [];
      StillDraws(s.k, OnUpdate(s).k, s.stream, log, out);
  }

  lemma {:induction false} InputDraws(s: System, input: Input, log: seq<Mark>)
    requires Draws(s.k, s.stream, log) && Enabled(s, TakesInput(input))
    ensures DrawsAfter(s, TakesInput(input), log)
  {
    var (k', out) := Arrive(s.k, s.shared, input);
    assert out == [] || out[1..] == [];
    StillDraws(s.k, k', s.stream, log, out);
    MarksEmitted(s, TakesInput(input), out);
  }

  /** Any other step emits nothing. */
  lemma {:induction false} SilentDraws(s: System, step: Attachment.Step, log: seq<Mark>)
    requires Draws(s.k, s.stream, log) && Enabled(s, step)
    requires !step.TakesFrame? && !step.TakesInput? && !step.ReleasesOne? && !step.TakesUpdate?
    ensures DrawsAfter(s, step, log)
  {
    assert s.stream + [] == s.stream;
    MarksEmitted(s, step, []);
    assert log + [] == log;
  }

  lemma {:induction false} AfterDraws(s: System, step: Attachment.Step, log: seq<Mark>)
    requires Draws(s.k, s.stream, log) && Enabled(s, step)
    ensures DrawsAfter(s, step, log)
  {
    if {
      case step.TakesFrame? => FrameDraws(s, step.frame, log);
      case step.TakesInput? => InputDraws(s, step.input, log);
      case step.ReleasesOne? => ReleaseDraws(s, log);
      case step.TakesUpdate? => UpdateDraws(s, log);
      case !step.TakesFrame? && !step.TakesInput? && !step.ReleasesOne? && !step.TakesUpdate? =>
        SilentDraws(s, step, log);
    }
  }

  /** In every interleaving, with programs opening screens and keymaps changing as they may. */
  lemma {:induction false} EveryRunDraws(s: System, steps: seq<Attachment.Step>, log: seq<Mark>)
    requires Draws(s.k, s.stream, log) && CanRun(s, steps)
    ensures Draws(RunOf(s, steps).k, RunOf(s, steps).stream, log + LogOf(s, steps))
            && s.stream <= RunOf(s, steps).stream
    decreases |steps|
  {
    if steps == [] {
      assert log + [] == log;
    } else {
      AfterDraws(s, steps[0], log);
      EveryRunDraws(After(s, steps[0]), steps[1..], log + StepMarks(s, steps[0]));
      Joined(log, StepMarks(s, steps[0]), LogOf(After(s, steps[0]), steps[1..]));
    }
  }

  lemma {:induction false} Place(log: seq<Mark>, i: nat) returns (at: nat)
    requires i < |Drawings(log)|
    ensures at < |log| && log[at] == Drawings(log)[i] && Drawings(log[..at]) == Drawings(log)[..i]
    decreases |log|
  {
    var n := |log| - 1;
    DrawingsAppend(log[..n], [log[n]]);
    assert log == log[..n] + [log[n]] && [log[n]][1..] == [];
    if i < |Drawings(log[..n])| {
      at := Place(log[..n], i);
      assert log[..n][..at] == log[..at];
    } else {
      at := n;
    }
  }

  lemma {:induction false} DrawingsShorter(log: seq<Mark>, a: nat, b: nat)
    requires a <= b <= |log|
    ensures |Drawings(log[..a])| <= |Drawings(log[..b])|
  {
    assert log[..b] == log[..a] + log[a..b];
    DrawingsAppend(log[..a], log[a..b]);
  }

  /** Where an act of a log is among its acts. */
  lemma {:induction false} PlaceOf(log: seq<Mark>, at: nat)
    requires at < |log| && log[at].Drawn?
    ensures |Drawings(log[..at])| < |Drawings(log)| && Drawings(log)[|Drawings(log[..at])|] == log[at]
  {
    assert log == log[..at] + ([log[at]] + log[at + 1..]);
    assert ([log[at]] + log[at + 1..])[1..] == log[at + 1..];
    DrawingsAppend(log[..at], [log[at]] + log[at + 1..]);
  }

  /** Acts in the order drawn: openings never decrease, each starts shown, and is named no more once hidden. */
  ghost predicate InDrawnOrder(marks: seq<Mark>) {
    && (forall i | 0 <= i < |marks| :: marks[i].Drawn?)
    && (forall i, j | 0 <= i < j < |marks| :: marks[i].opening <= marks[j].opening)
    && (forall i, j | 0 <= i < j < |marks| && marks[i].change.Hide? :: marks[i].opening != marks[j].opening)
    && (forall j | 0 <= j < |marks| && marks[j].change.Hide? ::
          exists i | 0 <= i < j :: marks[i].opening == marks[j].opening)
  }

  lemma {:induction false} PairInOrder(log: seq<Mark>, i: nat, j: nat)
    requires Orderly(log) && i < j < |Drawings(log)|
    ensures var marks := Drawings(log);
            && marks[i].Drawn? && marks[j].Drawn? && marks[i].opening <= marks[j].opening
            && (marks[i].change.Hide? ==> marks[i].opening != marks[j].opening)
  {
    var a := Place(log, i);
    var b := Place(log, j);
    if b <= a {
      DrawingsShorter(log, b, a);
    }
    DrawingsAreDrawn(log);
    OpeningsNeverDecrease(log, a, b);
    if log[a].change.Hide? {
      NothingAfterTheEnd(log, a, a, b);
    }
  }

  lemma {:induction false} HidesAfterShow(log: seq<Mark>, j: nat)
    requires Orderly(log) && j < |Drawings(log)| && Drawings(log)[j].Drawn? && Drawings(log)[j].change.Hide?
    ensures exists i | 0 <= i < j :: Drawings(log)[i].Drawn? && Drawings(log)[i].opening == Drawings(log)[j].opening
  {
    var b := Place(log, j);
    if forall a | 0 <= a < b && log[a].Drawn? :: log[a].opening != log[b].opening {
      OpeningsStartShown(log, b);
    } else {
      var a :| 0 <= a < b && log[a].Drawn? && log[a].opening == log[b].opening;
      PlaceOf(log, a);
      PlaceOf(log[..b], a);
      assert log[..b][..a] == log[..a];
      assert Drawings(log)[|Drawings(log[..a])|].opening == Drawings(log)[j].opening;
    }
  }

  /** All a client ever emits, in every interleaving, is in the order drawn. */
  lemma {:induction false} StreamIsInOrder(readOnly: bool, shared: Shared, notices: seq<(Said, bool)>,
        steps: seq<Attachment.Step>)
    requires CanRun(Welcomed(readOnly, shared, notices), steps)
    ensures InDrawnOrder(MarksOf(RunOf(Welcomed(readOnly, shared, notices), steps).stream))
  {
    var s0 := Welcomed(readOnly, shared, notices);
    var log := [] + LogOf(s0, steps);
    WelcomedDraws(readOnly, shared, notices);
    EveryRunDraws(s0, steps, []);
    DrawingsAreDrawn(log);
    forall i, j | 0 <= i < j < |Drawings(log)|
      ensures Drawings(log)[i].opening <= Drawings(log)[j].opening
      ensures Drawings(log)[i].change.Hide? ==> Drawings(log)[i].opening != Drawings(log)[j].opening
    {
      PairInOrder(log, i, j);
    }
    forall j | 0 <= j < |Drawings(log)| && Drawings(log)[j].change.Hide?
      ensures exists i | 0 <= i < j :: Drawings(log)[i].opening == Drawings(log)[j].opening
    {
      HidesAfterShow(log, j);
    }
  }

  // ------------------------------------------------------------- endings, in a run

  predicate Names(d: Dispatch, opening: nat) {
    d.DoSend? && d.act.ScreenIs? && d.act.opening == opening
  }

  lemma {:induction false} NamedIsMarked(out: seq<Dispatch>, j: nat, opening: nat)
    requires j < |out| && Names(out[j], opening)
    ensures exists mark | mark in MarksOf(out) :: mark.Drawn? && mark.opening == opening
  {
    if j == 0 {
      assert MarksOf(out)[0] == Drawn(opening, out[0].act.change);
    } else {
      NamedIsMarked(out[1..], j - 1, opening);
      var mark :| mark in MarksOf(out[1..]) && mark.Drawn? && mark.opening == opening;
      assert mark in MarksOf(out);
    }
  }

  lemma {:induction false} DrawingIsLogged(log: seq<Mark>, mark: Mark)
    requires mark in Drawings(log)
    ensures mark in log
  {
    if mark in Drawings(log[1..]) {
      DrawingIsLogged(log[1..], mark);
    }
  }

  /** Past an ending in a log, what was named before it is named no more. */
  lemma {:induction false} NotNamedPast(before: seq<Mark>, after: seq<Mark>, opening: nat, first: Mark, second: Mark)
    requires Orderly(before + [Mark.Ended(opening)] + after)
    requires first in Drawings(before) && second in Drawings(after)
    requires first.Drawn? && second.Drawn? && first.opening == opening
    ensures second.opening != opening
  {
    var log := before + [Mark.Ended(opening)] + after;
    DrawingIsLogged(before, first);
    DrawingIsLogged(after, second);
    var h :| 0 <= h < |before| && before[h] == first;
    var j :| 0 <= j < |after| && after[j] == second;
    assert log[h] == first && log[|before|] == Mark.Ended(opening) && log[|before| + 1 + j] == second;
    NothingAfterTheEnd(log, h, |before|, |before| + 1 + j);
  }

  /** A client as it takes the server's ending of an opening. */
  function Ending(s: System, opening: nat): System
    requires Enabled(s, TakesFrame(EndedFrame(opening)))
  {
    After(s, TakesFrame(EndedFrame(opening)))
  }

  /**
   * In every interleaving, once the client takes the server's ending of an opening it has named,
   * whatever it does then it emits no act that names that opening.
   */
  lemma {:induction false} EndedIsNamedNoMore(readOnly: bool, shared: Shared, notices: seq<(Said, bool)>,
        steps: seq<Attachment.Step>, opening: nat, more: seq<Attachment.Step>, h: nat, j: nat)
    requires CanRun(Welcomed(readOnly, shared, notices), steps)
    requires Enabled(RunOf(Welcomed(readOnly, shared, notices), steps), TakesFrame(EndedFrame(opening)))
    requires CanRun(Ending(RunOf(Welcomed(readOnly, shared, notices), steps), opening), more)
    ensures var s := RunOf(Welcomed(readOnly, shared, notices), steps);
            var all := RunOf(Ending(s, opening), more).stream;
            h < |s.stream| <= j < |all| && Names(s.stream[h], opening) ==> !Names(all[j], opening)
  {
    var s0 := Welcomed(readOnly, shared, notices);
    var s := RunOf(s0, steps);
    WelcomedDraws(readOnly, shared, notices);
    EveryRunDraws(s0, steps, []);
    var log := [] + LogOf(s0, steps);
    var s' := Ending(s, opening);
    FrameDraws(s, EndedFrame(opening), log);
    EveryRunDraws(s', more, log + [Mark.Ended(opening)]);
    EmittedPast(s.k, s.stream, log, RunOf(s', more).k, RunOf(s', more).stream, LogOf(s', more), opening, h, j);
  }

  lemma {:induction false} EmittedPast(k: Keyboard, before: seq<Dispatch>, log: seq<Mark>, k': Keyboard,
        all: seq<Dispatch>, rest: seq<Mark>, opening: nat, h: nat, j: nat)
    requires Draws(k, before, log) && Draws(k', all, log + [Mark.Ended(opening)] + rest) && before <= all
    ensures h < |before| <= j < |all| && Names(before[h], opening) ==> !Names(all[j], opening)
  {
    if h < |before| <= j < |all| && Names(before[h], opening) && Names(all[j], opening) {
      var later := all[|before|..];
      assert all == before + later && later[j - |before|] == all[j];
      MarksAppend(before, later);
      DrawingsAppend(log + [Mark.Ended(opening)], rest);
      DrawingsAppend(log, [Mark.Ended(opening)]);
      assert [Mark.Ended(opening)][1..] == [];
      assert Drawings(rest) == (MarksOf(before) + [] + Drawings(rest))[|MarksOf(before)|..] == MarksOf(later);
      NamedIsMarked(before, h, opening);
      NamedIsMarked(later, j - |before|, opening);
      var first :| first in MarksOf(before) && first.Drawn? && first.opening == opening;
      var second :| second in MarksOf(later) && second.Drawn? && second.opening == opening;
      NotNamedPast(log, rest, opening, first, second);
    }
  }

  lemma {:induction false} DrawingsAreDrawn(log: seq<Mark>)
    ensures forall i | 0 <= i < |Drawings(log)| :: Drawings(log)[i].Drawn?
  {
    if log != [] {
      DrawingsAreDrawn(log[1..]);
    }
  }

  lemma {:induction false} WelcomedDraws(readOnly: bool, shared: Shared, notices: seq<(Said, bool)>)
    ensures Draws(Welcomed(readOnly, shared, notices).k, Welcomed(readOnly, shared, notices).stream, [])
  {
    var s := Welcomed(readOnly, shared, notices);
    NoticesMark(s.stream);
    assert Agrees(s.k.display, [], readOnly) && Drawings([]) == [];
  }

  lemma {:induction false} NoticesMark(out: seq<Dispatch>)
    requires forall i | 0 <= i < |out| :: out[i].DoSend? && out[i].act.Notice?
    ensures MarksOf(out) == []
  {
    if out != [] {
      NoticesMark(out[1..]);
    }
  }
}
