/**
 * What a client sends of its screens over a whole run: any opens, closes, keys, pastes and delayed
 * endings, the keymap changing between them.
 */
module Openings {
  import opened Keys
  import opened Trie
  import opened Modes
  import opened Keymap
  import opened KeymapSound
  import opened Acts
  import opened HeldKeys
  import opened Screens

  /** A screen act sent, or an ending of the server's taken. */
  datatype Mark = Drawn(opening: nat, change: ScreenAct) | Ended(opening: nat)

  /** The opening the server draws: last shown, and neither hidden nor ended since. */
  function Live(log: seq<Mark>): Option<nat> {
    if log == [] then None
    else
      var before := Live(log[..|log| - 1]);
      match log[|log| - 1]
      case Drawn(opening, Show(_)) => Some(opening)
      case Drawn(_, Hide) => None
      case Ended(opening) => if before == Some(opening) then None else before
  }

  /** The opening last named, 0 before any. */
  function Newest(log: seq<Mark>): nat {
    if log == [] then 0
    else match log[|log| - 1] case Drawn(opening, _) => opening case Ended(_) => Newest(log[..|log| - 1])
  }

  /** Every act is of the live opening, or shows a newer one. */
  ghost predicate Orderly(log: seq<Mark>) {
    log != [] ==>
      var before := log[..|log| - 1];
      && Orderly(before)
      && match log[|log| - 1]
         case Drawn(opening, change) => Live(before) == Some(opening) || (change.Show? && opening > Newest(before))
         case Ended(_) => true
  }

  // ---------------------------------------------------------------- a run's steps

  datatype Step =
    | OpenStep(screen: Screen, modes: Modes)
    | CloseStep
    | EndStep(opening: nat)
    | InputStep(root: Map, modes: Modes, input: Input)

  function MarksOf(out: seq<Dispatch>): seq<Mark> {
    if out == [] then []
    else
      (match out[0] case DoSend(ScreenIs(opening, change)) => [Drawn(opening, change)] case _ => [])
      + MarksOf(out[1..])
  }

  function MarksOfActs(acts: seq<Act>): seq<Mark> {
    if acts == [] then []
    else
      (match acts[0] case ScreenIs(opening, change) => [Drawn(opening, change)] case _ => []) + MarksOfActs(acts[1..])
  }

  function Stepped(d: Showing, step: Step, readOnly: bool): (Showing, seq<Mark>) {
    match step
    case OpenStep(screen, modes) =>
      var (next, acts) := OpenScreen(d, screen, modes);
      (next, MarksOfActs(acts))
    case CloseStep =>
      var (next, act) := CloseScreen(d);
      (next, MarksOfActs(match act case None => [] case Some(a) => [a]))
    case EndStep(opening) => (EndScreen(d, opening), [Mark.Ended(opening)])
    case InputStep(root, modes, input) =>
      var (next, out) := TakeInput(d, root, modes, input, readOnly);
      (next, MarksOf(out))
  }

  function Run(d: Showing, log: seq<Mark>, steps: seq<Step>, readOnly: bool): (Showing, seq<Mark>)
    decreases |steps|
  {
    if steps == [] then (d, log)
    else
      var (next, marks) := Stepped(d, steps[0], readOnly);
      Run(next, log + marks, steps[1..], readOnly)
  }

  // ------------------------------------------------------------- what a run keeps

  /** What a watcher can have on its screen, short of a list or prompt. */
  ghost predicate Watches(screen: Screen) {
    screen.KeysScreen? ==> screen.held.Normal? || screen.held.Prefixed?
  }

  /**
   * The log is orderly, and the display agrees with it: what is shown is the newest opening, live;
   * and the newest is live and not shown only once the last number was given out.
   */
  ghost predicate Agrees(d: Showing, log: seq<Mark>, readOnly: bool) {
    && Orderly(log)
    && d.opening == Newest(log) <= LAST_OPENING
    && (Live(log).Some? ==> Live(log) == Some(d.opening))
    && (d.Shown() ==> Live(log).Some?)
    && (Live(log).Some? && !d.Shown() ==> d.opening == LAST_OPENING)
    && (readOnly ==> Watches(d.screen))
  }

  /** Effects draw or hide at most once, first; nothing they send names an opening. */
  ghost predicate Shaped(effects: seq<Effect>) {
    && (forall i | 0 < i < |effects| :: effects[i].Send? || effects[i].RunJob?)
    && (forall i | 0 <= i < |effects| && effects[i].Send? :: !effects[i].act.ScreenIs?)
  }

  /** Whether a screen is shown after such effects. */
  ghost predicate ActiveAfter(active: bool, effects: seq<Effect>) {
    if effects == [] then active
    else match effects[0]
      case Opens(_) => true
      case Screens(change) => change.Show?
      case _ => active
  }

  ghost predicate Fits(screen: Screen, after: (Screen, seq<Effect>)) {
    && Shaped(after.1)
    && Showing(after.0, 0).Shown() == ActiveAfter(Showing(screen, 0).Shown(), after.1)
  }

  lemma {:induction false} InColumnFits(root: Map, modes: Modes, path: Path, selected: nat, stroke: Keystroke)
    ensures var (after, effects) := PressInColumn(root, modes, path, selected, stroke);
            Fits(KeysScreen(InColumn(path, selected)), (KeysScreen(after), effects))
  {
  }

  lemma {:induction false} RepeatingFits(root: Map, path: Path, press: KeyPress)
    ensures var (after, effects) := PressRepeating(root, path, press);
            Fits(KeysScreen(Repeating(path)), (KeysScreen(after), effects))
  {
  }

  /** A key with no screen open draws what it comes to hold, and hides it when it holds nothing. */
  lemma {:induction false} PressFits(held: Held, root: Map, modes: Modes, stroke: Keystroke, readOnly: bool)
    requires readOnly ==> Watches(KeysScreen(held))
    ensures var (after, effects) := Press(held, root, modes, stroke, readOnly);
            Fits(KeysScreen(held), (KeysScreen(after), effects)) && (readOnly ==> Watches(KeysScreen(after)))
  {
    if !readOnly {
      match held
      case InColumn(path, selected) => InColumnFits(root, modes, path, selected, stroke);
      case Repeating(path) => RepeatingFits(root, path, stroke.press);
      case _ =>
    }
  }

  lemma {:induction false} InListFits(list: ListScreen, modes: Modes, press: KeyPress)
    ensures Fits(ListOpen(list), InList(list, modes, press)) && Watches(InList(list, modes, press).0)
  {
  }

  lemma {:induction false} InPromptFits(prompt: Prompt, modes: Modes, act: LineAct)
    ensures Fits(PromptOpen(prompt), InPrompt(prompt, modes, act)) && Watches(InPrompt(prompt, modes, act).0)
  {
  }

  lemma {:induction false} InputFits(screen: Screen, root: Map, modes: Modes, input: Input, readOnly: bool)
    requires readOnly ==> Watches(screen)
    ensures Fits(screen, InputIn(screen, root, modes, input, readOnly))
    ensures readOnly ==> Watches(InputIn(screen, root, modes, input, readOnly).0)
  {
    match input {
      case KeyInput(stroke) =>
        match screen {
          case KeysScreen(held) => PressFits(held, root, modes, stroke, readOnly);
          case ListOpen(list) => InListFits(list, modes, stroke.press);
          case PromptOpen(prompt) =>
            var act := Typing(modes, stroke.press);
            if act.Some? {
              InPromptFits(prompt, modes, act.value);
            }
        }
      case PasteInput(text) =>
        if screen.PromptOpen? {
          InPromptFits(screen.prompt, modes, Edits(Edit.Insert(text)));
        }
      case _ =>
    }
  }

  // ------------------------------------------------------------------- the log

  lemma {:induction false} LogSnoc(log: seq<Mark>, mark: Mark)
    ensures (log + [mark])[..|log + [mark]| - 1] == log && (log + [mark])[|log + [mark]| - 1] == mark
  {
  }

  lemma {:induction false} NoScreens(d: Showing, active: bool, effects: seq<Effect>)
    requires forall i | 0 <= i < |effects| :: effects[i].Send? || effects[i].RunJob?
    requires forall i | 0 <= i < |effects| && effects[i].Send? :: !effects[i].act.ScreenIs?
    ensures DispatchAll(d, active, effects).0 == d && MarksOf(DispatchAll(d, active, effects).1) == []
    decreases |effects|
  {
    if effects != [] {
      NoScreens(d, active, effects[1..]);
      var first := DispatchOne(d, active, effects[0]).2;
      assert (first + DispatchAll(d, active, effects[1..]).1)[1..] == DispatchAll(d, active, effects[1..]).1;
    }
  }

  /** Effects dispatched come to what their first does. */
  lemma {:induction false} DispatchShaped(d: Showing, active: bool, effects: seq<Effect>)
    requires Shaped(effects) && effects != []
    ensures var (next, _, first) := DispatchOne(d, active, effects[0]);
            DispatchAll(d, active, effects).0 == next && MarksOf(DispatchAll(d, active, effects).1) == MarksOf(first)
  {
    var (next, active', first) := DispatchOne(d, active, effects[0]);
    NoScreens(next, active', effects[1..]);
    var rest := DispatchAll(next, active', effects[1..]).1;
    if first == [] {
      assert first + rest == rest;
    } else {
      assert (first + rest)[1..] == rest && first[1..] == [];
    }
  }

  lemma {:induction false} FirstMark(out: seq<Dispatch>)
    requires |out| <= 1
    ensures MarksOf(out) == if out != [] && out[0].DoSend? && out[0].act.ScreenIs?
                            then [Drawn(out[0].act.opening, out[0].act.change)] else []
  {
    assert out == [] || out[1..] == [];
  }

  /** One screen effect, of what is shown, a new opening, or none left. */
  lemma {:induction false} DispatchScreenAgrees(d: Showing, screen: Screen, change: ScreenAct, anew: bool,
        log: seq<Mark>, readOnly: bool)
    requires Agrees(d, log, readOnly) && (readOnly ==> Watches(screen)) && (anew ==> change.Show?)
    requires d.(screen := screen).Shown() == change.Show?
    ensures var (next, _, out) := DispatchScreen(d.(screen := screen), d.Shown(), change, anew);
            Agrees(next, log + MarksOf(out), readOnly)
  {
    var (next, _, out) := DispatchScreen(d.(screen := screen), d.Shown(), change, anew);
    FirstMark(out);
    if MarksOf(out) == [] {
      assert log + MarksOf(out) == log;
    } else {
      LogSnoc(log, MarksOf(out)[0]);
    }
  }

  lemma {:induction false} DispatchAgrees(d: Showing, screen: Screen, effects: seq<Effect>, log: seq<Mark>,
        readOnly: bool)
    requires Agrees(d, log, readOnly) && Fits(d.screen, (screen, effects)) && (readOnly ==> Watches(screen))
    ensures var (next, out) := DispatchAll(d.(screen := screen), d.Shown(), effects);
            Agrees(next, log + MarksOf(out), readOnly)
  {
    assert d.Shown() == Showing(d.screen, 0).Shown();
    assert d.(screen := screen).Shown() == Showing(screen, 0).Shown();
    assert log + [] == log;
    if effects != [] {
      DispatchShaped(d.(screen := screen), d.Shown(), effects);
      match effects[0] {
        case Opens(panel) => DispatchScreenAgrees(d, screen, Show(panel), true, log, readOnly);
        case Screens(change) => DispatchScreenAgrees(d, screen, change, false, log, readOnly);
        case _ => FirstMark(DispatchOne(d.(screen := screen), d.Shown(), effects[0]).2);
      }
    }
  }

  /** Every step keeps the display and the log in agreement, whatever the keymap it is taken under. */
  lemma {:induction false} StepAgrees(d: Showing, log: seq<Mark>, step: Step, readOnly: bool)
    requires Agrees(d, log, readOnly)
    ensures var (next, marks) := Stepped(d, step, readOnly); Agrees(next, log + marks, readOnly)
  {
    var (next, marks) := Stepped(d, step, readOnly);
    match step {
      case OpenStep(screen, modes) => OpenAgrees(d, log, screen, modes, readOnly);
      case CloseStep =>
        if d.Shown() {
          LogSnoc(log, Drawn(d.opening, Hide));
          var acts := [ScreenIs(d.opening, Hide)];
          assert acts[1..] == [];
          assert marks == MarksOfActs(acts) == [Drawn(d.opening, Hide)];
        } else {
          assert log + marks == log;
        }
      case EndStep(opening) => LogSnoc(log, Mark.Ended(opening));
      case InputStep(root, modes, input) =>
        InputFits(d.screen, root, modes, input, readOnly);
        var (screen, effects) := InputIn(d.screen, root, modes, input, readOnly);
        DispatchAgrees(d, screen, effects, log, readOnly);
    }
  }

  lemma {:induction false} OpenAgrees(d: Showing, log: seq<Mark>, screen: Screen, modes: Modes, readOnly: bool)
    requires Agrees(d, log, readOnly)
    ensures var (next, acts) := OpenScreen(d, screen, modes); Agrees(next, log + MarksOfActs(acts), readOnly)
  {
    var panel := PanelOf(screen, modes);
    if d.opening == LAST_OPENING {
      NothingDrawn(EXHAUSTED);
      assert log + [] == log;
    } else if panel.None? {
      assert log + [] == log;
    } else {
      OpenedAgrees(d, log, screen, panel.value, readOnly);
    }
  }

  lemma {:induction false} NothingDrawn(act: Act)
    requires !act.ScreenIs?
    ensures MarksOfActs([act]) == []
  {
    assert [act][1..] == [];
  }

  /** A screen other than the keys' own, shown under the next number. */
  lemma {:induction false} OpenedAgrees(d: Showing, log: seq<Mark>, screen: Screen, panel: Panel, readOnly: bool)
    requires Agrees(d, log, readOnly) && d.opening < LAST_OPENING && !screen.KeysScreen?
    ensures Agrees(Showing(screen, d.opening + 1), log + MarksOfActs([ScreenIs(d.opening + 1, Show(panel))]), readOnly)
  {
    var act := ScreenIs(d.opening + 1, Show(panel));
    assert [act][1..] == [];
    assert MarksOfActs([act]) == [Drawn(d.opening + 1, Show(panel))];
    LogSnoc(log, Drawn(d.opening + 1, Show(panel)));
  }

  /** Over every run, from nothing shown. */
  lemma {:induction false} EveryRunAgrees(d: Showing, log: seq<Mark>, steps: seq<Step>, readOnly: bool)
    requires Agrees(d, log, readOnly)
    ensures Agrees(Run(d, log, steps, readOnly).0, Run(d, log, steps, readOnly).1, readOnly)
    decreases |steps|
  {
    if steps != [] {
      StepAgrees(d, log, steps[0], readOnly);
      var (next, marks) := Stepped(d, steps[0], readOnly);
      EveryRunAgrees(next, log + marks, steps[1..], readOnly);
    }
  }

  // --------------------------------------------------------- what orderly means

  lemma {:induction false} OrderlyPrefix(log: seq<Mark>, n: nat)
    requires Orderly(log) && n <= |log|
    ensures Orderly(log[..n])
    decreases |log|
  {
    if n == |log| {
      assert log[..n] == log;
    } else {
      OrderlyPrefix(log[..|log| - 1], n);
      assert log[..|log| - 1][..n] == log[..n];
    }
  }

  lemma {:induction false} LiveIsNewest(log: seq<Mark>)
    requires Orderly(log)
    ensures Live(log).Some? ==> Live(log) == Some(Newest(log))
  {
    if log != [] {
      LiveIsNewest(log[..|log| - 1]);
    }
  }

  lemma {:induction false} NewestGrows(log: seq<Mark>, n: nat)
    requires Orderly(log) && n <= |log|
    ensures Newest(log[..n]) <= Newest(log)
    decreases |log|
  {
    if n == |log| {
      assert log[..n] == log;
    } else {
      var before := log[..|log| - 1];
      NewestGrows(before, n);
      LiveIsNewest(before);
      assert before[..n] == log[..n];
    }
  }

  /** The openings acts name never decrease. */
  lemma {:induction false} OpeningsNeverDecrease(log: seq<Mark>, i: nat, j: nat)
    requires Orderly(log) && i < j < |log| && log[i].Drawn? && log[j].Drawn?
    ensures log[i].opening <= log[j].opening
  {
    OrderlyPrefix(log, j + 1);
    NewestGrows(log[..j + 1], i + 1);
    assert log[..j + 1][..i + 1] == log[..i + 1];
  }

  /** The first act that names an opening shows it. */
  lemma {:induction false} OpeningsStartShown(log: seq<Mark>, j: nat)
    requires Orderly(log) && j < |log| && log[j].Drawn?
    requires forall i | 0 <= i < j && log[i].Drawn? :: log[i].opening != log[j].opening
    ensures log[j].change.Show?
  {
    OrderlyPrefix(log, j + 1);
    var before := log[..j];
    assert log[..j + 1][..j] == before;
    if Live(before) == Some(log[j].opening) {
      LiveWasDrawn(before);
    }
  }

  lemma {:induction false} LiveWasDrawn(log: seq<Mark>)
    requires Live(log).Some?
    ensures exists i | 0 <= i < |log| :: log[i].Drawn? && log[i].opening == Live(log).value
  {
    var before := log[..|log| - 1];
    if log[|log| - 1].Drawn? {
      assert log[|log| - 1].opening == Live(log).value;
    } else {
      LiveWasDrawn(before);
      var i :| 0 <= i < |before| && before[i].Drawn? && before[i].opening == Live(before).value;
      assert log[i].Drawn? && log[i].opening == Live(log).value;
    }
  }

  /** An opening that is not live, and no newer than the newest, is never named again. */
  lemma {:induction false} DeadStaysDead(log: seq<Mark>, n: nat, j: nat, opening: nat)
    requires Orderly(log) && n <= j < |log|
    requires Live(log[..n]) != Some(opening) && opening <= Newest(log[..n])
    ensures log[j].Drawn? ==> log[j].opening != opening
    ensures Live(log[..j + 1]) != Some(opening) && opening <= Newest(log[..j + 1])
    decreases j
  {
    if j > n {
      DeadStaysDead(log, n, j - 1, opening);
    }
    OrderlyPrefix(log, j + 1);
    assert log[..j + 1][..j] == log[..j];
    LiveIsNewest(log[..j]);
  }

  /** No act names an opening after it is hidden, or after the server ended it. */
  lemma {:induction false} NothingAfterTheEnd(log: seq<Mark>, h: nat, i: nat, j: nat)
    requires Orderly(log) && h <= i < j < |log| && log[h].Drawn? && log[h].opening == log[i].opening
    requires log[i].Ended? || log[i].change.Hide?
    ensures log[j].Drawn? ==> log[j].opening != log[i].opening
  {
    OrderlyPrefix(log, i + 1);
    NewestGrows(log[..i + 1], h + 1);
    assert log[..i + 1][..h + 1] == log[..h + 1];
    assert log[..i + 1][..i] == log[..i];
    DeadStaysDead(log, i + 1, j, log[i].opening);
  }

  /** An ending changes nothing, of the screen or of what the log has live, unless its opening is live. */
  lemma {:induction false} OldEndingsChangeNothing(d: Showing, log: seq<Mark>, opening: nat, readOnly: bool)
    requires Agrees(d, log, readOnly)
    ensures EndScreen(d, opening) == d <==> !(d.Shown() && Live(log) == Some(opening))
    ensures Live(log + [Mark.Ended(opening)]) == Live(log) <==> Live(log) != Some(opening)
  {
    LogSnoc(log, Mark.Ended(opening));
  }

  // ------------------------------------------------------- once numbers are out

  /** An input would draw a shown screen anew, and no number is left to give it. */
  predicate Exhausts(d: Showing, step: Step, readOnly: bool) {
    && d.opening == LAST_OPENING && d.Shown() && step.InputStep?
    && var effects := InputIn(d.screen, step.root, step.modes, step.input, readOnly).1;
       effects != [] && effects[0].Opens?
  }

  /** What is shown is what the server draws. */
  predicate Matches(d: Showing, log: seq<Mark>) { d.Shown() <==> Live(log).Some? }

  lemma {:induction false} DispatchScreenMatches(d: Showing, screen: Screen, change: ScreenAct, anew: bool,
        log: seq<Mark>)
    requires d.(screen := screen).Shown() == change.Show? && (anew ==> change.Show?)
    requires Matches(d, log) || (d.opening == LAST_OPENING && !d.Shown())
    ensures var (next, _, out) := DispatchScreen(d.(screen := screen), d.Shown(), change, anew);
            Matches(next, log + MarksOf(out)) <==> Matches(d, log) && !(d.opening == LAST_OPENING && d.Shown() && anew)
  {
    var (next, _, out) := DispatchScreen(d.(screen := screen), d.Shown(), change, anew);
    FirstMark(out);
    if MarksOf(out) == [] {
      assert log + MarksOf(out) == log;
    } else {
      LogSnoc(log, MarksOf(out)[0]);
    }
  }

  lemma {:induction false} DispatchMatches(d: Showing, screen: Screen, effects: seq<Effect>, log: seq<Mark>)
    requires Matches(d, log) || (d.opening == LAST_OPENING && !d.Shown())
    requires Fits(d.screen, (screen, effects))
    ensures var (next, out) := DispatchAll(d.(screen := screen), d.Shown(), effects);
            Matches(next, log + MarksOf(out)) <==>
              Matches(d, log) && !(d.opening == LAST_OPENING && d.Shown() && effects != [] && effects[0].Opens?)
  {
    assert d.Shown() == Showing(d.screen, 0).Shown();
    assert d.(screen := screen).Shown() == Showing(screen, 0).Shown();
    assert log + [] == log;
    if effects != [] {
      DispatchShaped(d.(screen := screen), d.Shown(), effects);
      match effects[0] {
        case Opens(panel) => DispatchScreenMatches(d, screen, Show(panel), true, log);
        case Screens(change) => DispatchScreenMatches(d, screen, change, false, log);
        case _ => FirstMark(DispatchOne(d.(screen := screen), d.Shown(), effects[0]).2);
      }
    }
  }

  lemma {:induction false} OpenMatches(d: Showing, log: seq<Mark>, screen: Screen, modes: Modes)
    ensures var (next, acts) := OpenScreen(d, screen, modes);
            Matches(d, log) || d.opening == LAST_OPENING ==>
              (Matches(next, log + MarksOfActs(acts)) <==> Matches(d, log))
  {
    var panel := PanelOf(screen, modes);
    assert log + [] == log;
    if d.opening == LAST_OPENING {
      NothingDrawn(EXHAUSTED);
    } else if panel.Some? {
      assert [ScreenIs(d.opening + 1, Show(panel.value))][1..] == [];
      LogSnoc(log, Drawn(d.opening + 1, Show(panel.value)));
    }
  }

  lemma {:induction false} CloseMatches(d: Showing, log: seq<Mark>)
    requires Matches(d, log) || !d.Shown()
    ensures var (next, act) := CloseScreen(d);
            Matches(next, log + MarksOfActs(match act case None => [] case Some(a) => [a])) <==> Matches(d, log)
  {
    assert log + [] == log;
    if d.Shown() {
      assert [ScreenIs(d.opening, Hide)][1..] == [];
      LogSnoc(log, Drawn(d.opening, Hide));
    }
  }

  /**
   * What is shown stops being what the server draws exactly at an input that finds the numbers out, and
   * is so again exactly at the server's ending of the last.
   */
  lemma {:induction false} StepMatches(d: Showing, log: seq<Mark>, step: Step, readOnly: bool)
    requires Agrees(d, log, readOnly)
    ensures var (next, marks) := Stepped(d, step, readOnly);
            Matches(next, log + marks) <==>
              if Matches(d, log) then !Exhausts(d, step, readOnly) else step == EndStep(LAST_OPENING)
  {
    match step
    case InputStep(root, modes, input) =>
      InputFits(d.screen, root, modes, input, readOnly);
      var (screen, effects) := InputIn(d.screen, root, modes, input, readOnly);
      DispatchMatches(d, screen, effects, log);
    case OpenStep(screen, modes) => OpenMatches(d, log, screen, modes);
    case CloseStep => CloseMatches(d, log);
    case EndStep(opening) => LogSnoc(log, Mark.Ended(opening));
  }

  lemma {:induction false} RunSnoc(d: Showing, log: seq<Mark>, steps: seq<Step>, step: Step, readOnly: bool)
    ensures var (last, all) := Run(d, log, steps, readOnly);
            var (next, marks) := Stepped(last, step, readOnly);
            Run(d, log, steps + [step], readOnly) == (next, all + marks)
    decreases |steps|
  {
    if steps == [] {
      assert [] + [step] == [step] && [step][1..] == [];
    } else {
      var (next, marks) := Stepped(d, steps[0], readOnly);
      assert (steps + [step])[1..] == steps[1..] + [step];
      RunSnoc(next, log + marks, steps[1..], step, readOnly);
    }
  }

  /** Whether a run's step finds the numbers out. */
  predicate ExhaustsAt(steps: seq<Step>, i: nat, readOnly: bool)
    requires i < |steps|
  {
    Exhausts(Run(NOTHING_SHOWN, [], steps[..i], readOnly).0, steps[i], readOnly)
  }

  /** Each step that finds the numbers out is followed by the server's ending of the last. */
  ghost predicate Recovers(steps: seq<Step>, readOnly: bool) {
    forall i | 0 <= i < |steps| && ExhaustsAt(steps, i, readOnly) ::
      exists j | i < j < |steps| :: steps[j] == EndStep(LAST_OPENING)
  }

  lemma {:induction false} RecoversSnoc(steps: seq<Step>, step: Step, readOnly: bool)
    ensures var last := Run(NOTHING_SHOWN, [], steps, readOnly).0;
            Recovers(steps + [step], readOnly) <==>
              if Recovers(steps, readOnly) then !Exhausts(last, step, readOnly) else step == EndStep(LAST_OPENING)
  {
    var (all, n) := (steps + [step], |steps|);
    assert all[..n] == steps;
    forall i | 0 <= i < n ensures ExhaustsAt(all, i, readOnly) == ExhaustsAt(steps, i, readOnly) {
      assert all[..i] == steps[..i];
    }
    if Recovers(steps, readOnly) {
      forall i | 0 <= i < n && ExhaustsAt(all, i, readOnly)
        ensures exists j | i < j < |all| :: all[j] == EndStep(LAST_OPENING)
      {
        var j :| i < j < n && steps[j] == EndStep(LAST_OPENING);
        assert all[j] == EndStep(LAST_OPENING);
      }
      assert ExhaustsAt(all, n, readOnly) == Exhausts(Run(NOTHING_SHOWN, [], steps, readOnly).0, step, readOnly);
    } else {
      var i :| 0 <= i < n && ExhaustsAt(steps, i, readOnly)
               && !exists j | i < j < n :: steps[j] == EndStep(LAST_OPENING);
      assert ExhaustsAt(all, i, readOnly);
      assert forall j | i < j < n :: all[j] == steps[j];
      if step == EndStep(LAST_OPENING) {
        assert all[n] == EndStep(LAST_OPENING);
      }
    }
  }

  lemma {:induction false} RunMatches(steps: seq<Step>, readOnly: bool)
    ensures var (d, log) := Run(NOTHING_SHOWN, [], steps, readOnly); Matches(d, log) <==> Recovers(steps, readOnly)
    decreases |steps|
  {
    if steps != [] {
      var (before, step) := (steps[..|steps| - 1], steps[|steps| - 1]);
      assert before + [step] == steps;
      RunMatches(before, readOnly);
      EveryRunAgrees(NOTHING_SHOWN, [], before, readOnly);
      var (d, log) := Run(NOTHING_SHOWN, [], before, readOnly);
      StepMatches(d, log, step, readOnly);
      RunSnoc(NOTHING_SHOWN, [], before, step, readOnly);
      RecoversSnoc(before, step, readOnly);
    }
  }

  /**
   * After any run, what is shown is what the server still draws exactly if no input found the numbers
   * out, or the server ended the last since: at the least while numbers last.
   */
  lemma {:induction false} ShownIsLive(steps: seq<Step>, readOnly: bool)
    ensures var (d, log) := Run(NOTHING_SHOWN, [], steps, readOnly);
            && Orderly(log)
            && ((d.Shown() <==> Live(log).Some?) <==> Recovers(steps, readOnly))
            && (d.opening < LAST_OPENING ==> Recovers(steps, readOnly))
            && (d.Shown() ==> Live(log) == Some(d.opening))
  {
    EveryRunAgrees(NOTHING_SHOWN, [], steps, readOnly);
    RunMatches(steps, readOnly);
  }

  /** An input that finds them out, whatever it was in, leaves none shown while the server draws the last. */
  lemma {:induction false} ExhaustionLeavesDrawn(d: Showing, log: seq<Mark>, step: Step, readOnly: bool)
    requires Agrees(d, log, readOnly) && Exhausts(d, step, readOnly)
    ensures var (next, marks) := Stepped(d, step, readOnly);
            !next.Shown() && Live(log + marks) == Some(LAST_OPENING)
  {
    StepAgrees(d, log, step, readOnly);
    StepMatches(d, log, step, readOnly);
  }

  /** A map that repeats, at `a`, with another in it, at `b`. */
  function Nested(a: KeyPress, b: KeyPress, c: KeyPress, binding: Binding): Map {
    Map([Slot(a, Holds(Map([Slot(b, Holds(Map([Slot(c, Entry.Run(binding))], false)))], true)))], false)
  }

  lemma {:induction false} NestedIsSound(a: KeyPress, b: KeyPress, c: KeyPress, binding: Binding)
    requires !b.Leaves() && !c.Leaves()
    ensures SoundRoot(Nested(a, b, c, binding))
  {
    var deep := Map([Slot(c, Entry.Run(binding))], false);
    var mode := Map([Slot(b, Holds(deep))], true);
    OneDeep(deep.keys[0]);
    OneDeep(mode.keys[0]);
    assert Depth(Holds(deep)) == 2;
    assert Depth(Holds(mode)) == 1 + Depth(Holds(deep));
    OneWhole(c, Entry.Run(binding));
    OneWhole(b, Holds(deep));
    OneWhole(a, Holds(mode));
  }

  /** A sound keymap, and a key of it, that finds them out in a column, and in a repeat mode. */
  lemma {:induction false} InputMayExhaust(a: KeyPress, b: KeyPress, c: KeyPress, binding: Binding)
    requires !b.Leaves() && !c.Leaves()
    ensures var root := Nested(a, b, c, binding);
            var step := InputStep(root, NO_MODES, KeyInput(Keystroke(b, None)));
            && SoundRoot(root)
            && Exhausts(Showing(KeysScreen(InColumn([a], 0)), LAST_OPENING), step, false)
            && Exhausts(Showing(KeysScreen(Repeating([a])), LAST_OPENING), step, false)
  {
    var root := Nested(a, b, c, binding);
    var mode := root.keys[0].entry.inner;
    NestedIsSound(a, b, c, binding);
    assert root.keys[0].key == a && mode.keys[0].key == b;
    RootKey(root, a);
    MapBelow(root, [a], b);
    assert MapAt(root, [a]) == Some(mode) && MapAt(root, [a] + [b]) == Some(mode.keys[0].entry.inner);
  }
}
