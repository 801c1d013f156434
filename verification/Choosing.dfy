/**
 * What a list chooses and a prompt submits (src/screens.rs): the row and the text last drawn, whatever
 * keys came before.
 */
module Choosing {
  import opened Keys
  import opened Trie
  import opened Modes
  import opened Acts
  import opened HeldKeys
  import opened Screens
  import opened Presses
  import opened Lines
  import opened Sequences

  // -------------------------------------------------------------------------------- lists

  /** A row is selected, if there is any (src/script/callback.rs:153-157). */
  predicate Selects(list: ListScreen) { list.selected < |list.items| || (list.items == [] && list.selected == 0) }

  /** A job of a callback, given the client's value and the payload of the row shown selected. */
  function Chosen(list: ListScreen, callback: Callback): Job
    requires list.selected < |list.items|
  {
    CodeJob(callback.code, Some(callback.args + [list.client, list.items[list.selected].payload]))
  }

  /** A list's drawing has every item's caption in order, and the row selected. */
  lemma {:induction false} ListPanelIs(list: ListScreen, modes: Modes)
    requires list.selected < |list.items|
    ensures var panel := PanelOf(ListOpen(list), modes);
            && panel.Some? && panel.value.ListPanel?
            && panel.value.title == list.title && panel.value.current == list.current && panel.value.hints == modes.list
            && panel.value.selected < |panel.value.items| == |list.items|
            && panel.value.items[panel.value.selected] == list.items[list.selected].caption
            && (forall i | 0 <= i < |list.items| :: panel.value.items[i] == list.items[i].caption)
  {
  }

  /** What a list's key does: cancel, choose, run its own callback, move, or nothing. */
  lemma {:induction false} ListIs(list: ListScreen, modes: Modes, press: KeyPress)
    requires Selects(list)
    ensures var n := |list.items|;
            InList(list, modes, press) ==
            match Looked<ListAct>(modes.list, press, Cancel)
            case Some(Cancel) => (NO_SCREEN, [HIDE])
            case Some(Choose) =>
              if n == 0 then (ListOpen(list), []) else (NO_SCREEN, [HIDE, RunJob(Chosen(list, list.action))])
            case Some(Action(callback)) =>
              if n == 0 then (ListOpen(list), []) else (NO_SCREEN, [HIDE, RunJob(Chosen(list, callback))])
            case Some(Moves(move)) => MovedTo(list, modes, Nearest(list.selected + Rows(move, n), n))
            case None => (ListOpen(list), [])
    ensures InList(list, modes, press).0.ListOpen? ==> Selects(InList(list, modes, press).0.list)
  {
    LookedIs<ListAct>(modes.list, press, Cancel);
    if TableGet<ListAct>(modes.list, press, Cancel).Some? && TableGet<ListAct>(modes.list, press, Cancel).value.Moves? {
      if list.items != [] {
        MovedIs(TableGet<ListAct>(modes.list, press, Cancel).value.move, list.selected, |list.items|);
      }
    }
  }

  /** A list with another row selected, drawn if it is another. */
  function MovedTo(list: ListScreen, modes: Modes, row: nat): (Screen, seq<Effect>) {
    var screen := ListOpen(list.(selected := row));
    (screen, if row == list.selected then [] else [Screens(Show(PanelOf(screen, modes).value))])
  }

  // ------------------------------------------------------------------------------ prompts

  /** What submitting a text runs: the callback on it, or it as a line unless it is blank. */
  function Submits(action: Option<Callback>, text: string): seq<Job> {
    match action
    case Some(callback) => [CodeJob(callback.code, Some(callback.args + [Text(text)]))]
    case None => if forall c | c in text :: IsBlank(c) then [] else [LineJob(text)]
  }

  /** A prompt's drawing is its text on either side of the cursor. */
  lemma {:induction false} PromptPanelIs(prompt: Prompt, modes: Modes)
    ensures var panel := PanelOf(PromptOpen(prompt), modes);
            && panel.Some? && panel.value.PromptPanel?
            && panel.value.title == prompt.title && panel.value.lineHints == modes.line
            && panel.value.before + panel.value.after == TextOf(prompt.line)
            && |panel.value.before| == CursorOf(prompt.line)
  {
  }

  /** What an action does to a prompt: cancel; run its whole text; or edit its line, drawn, and say what was refused. */
  lemma {:induction false} PromptIs(prompt: Prompt, modes: Modes, act: LineAct)
    ensures match act
            case CancelLine => InPrompt(prompt, modes, act) == (NO_SCREEN, [HIDE])
            case Submit =>
              && InPrompt(prompt, modes, act).0 == NO_SCREEN && InPrompt(prompt, modes, act).1 != []
              && InPrompt(prompt, modes, act).1[0] == HIDE
              && RunsOf(InPrompt(prompt, modes, act).1) == Submits(prompt.action, TextOf(prompt.line))
              && |InPrompt(prompt, modes, act).1| == 1 + |Submits(prompt.action, TextOf(prompt.line))|
            case Edits(edit) =>
              var edited := EditLine(prompt.line, edit);
              var after := PromptOpen(if edited.Some? then prompt.(line := edited.value) else prompt);
              InPrompt(prompt, modes, act) ==
              (after, if edited.Some? then [Screens(Show(PanelOf(after, modes).value))]
                      else [Screens(Show(PanelOf(after, modes).value)), Send(Notice(LineSaid, true))])
  {
    match act
    case CancelLine =>
    case Submit => SubmitIs(prompt, modes);
    case Edits(edit) => EditedIs(prompt, modes, edit);
  }

  lemma {:induction false} SubmitIs(prompt: Prompt, modes: Modes)
    ensures var (screen, effects) := InPrompt(prompt, modes, Submit);
            && screen == NO_SCREEN && effects != [] && effects[0] == HIDE
            && RunsOf(effects) == Submits(prompt.action, TextOf(prompt.line))
            && |effects| == 1 + |Submits(prompt.action, TextOf(prompt.line))|
  {
    var text := prompt.line.before + prompt.line.after;
    RunsOfFew(InPrompt(prompt, modes, Submit).1);
    assert (forall c | c in text :: IsBlank(c)) <==> forall i | 0 <= i < |text| :: IsBlank(text[i]);
  }

  lemma {:induction false} EditedIs(prompt: Prompt, modes: Modes, edit: Edit)
    ensures var edited := EditLine(prompt.line, edit);
            var after := PromptOpen(if edited.Some? then prompt.(line := edited.value) else prompt);
            var shown := Screens(Show(PanelOf(after, modes).value));
            InPrompt(prompt, modes, Edits(edit)) ==
            (after, if edited.Some? then [shown] else [shown, Send(Notice(LineSaid, true))])
  {
    var edited := EditLine(prompt.line, edit);
    var after := PromptOpen(if edited.Some? then prompt.(line := edited.value) else prompt);
    var shown := Screens(Show(PanelOf(after, modes).value));
    var said := Send(Notice(LineSaid, true));
    assert [shown] + [] == [shown] && [shown] + [said] == [shown, said];
  }

  // ------------------------------------------------------------------------------- pastes

  /**
   * A paste: told of to a watcher, sent to the pane by the keys' screens, refused by a list, and put in at a
   * prompt's cursor if it is one line.
   */
  lemma {:induction false} PasteIs(screen: Screen, root: Map, modes: Modes, text: string, readOnly: bool)
    ensures var (after, effects) := InputIn(screen, root, modes, PasteInput(text), readOnly);
            if readOnly then after == screen && effects == [Send(Notice(WatchingSaid(Prefix(root.keys)), false))]
            else match screen
              case KeysScreen(held) =>
                && after == KeysScreen(Normal)
                && effects == if held.Normal? then [Send(PasteAct(text))] else [HIDE, Send(PasteAct(text))]
              case ListOpen(_) => after == screen && effects == [Send(Notice(ListOpenSaid, true))]
              case PromptOpen(prompt) =>
                var one := WithoutLineEnd(text);
                var (line, at) := (TextOf(prompt.line), CursorOf(prompt.line));
                && after.PromptOpen?
                && (if '\n' in one || '\r' in one then after == screen
                    else TextOf(after.prompt.line) == line[..at] + WithoutControls(one) + line[at..])
                && effects == [Screens(Show(PanelOf(after, modes).value))]
                              + if '\n' in one || '\r' in one then [Send(Notice(LineSaid, true))] else []
  {
    if screen.PromptOpen? {
      EditIs(screen.prompt.line, Edit.Insert(text));
      EditedIs(screen.prompt, modes, Edit.Insert(text));
    } else if screen.KeysScreen? {
      assert [] + [Send(PasteAct(text))] == [Send(PasteAct(text))];
      assert [HIDE] + [Send(PasteAct(text))] == [HIDE, Send(PasteAct(text))];
    }
  }

  /** No input but a key runs anything. */
  lemma {:induction false} OnlyKeysRun(screen: Screen, root: Map, modes: Modes, input: Input, readOnly: bool)
    requires !input.KeyInput?
    ensures RunsOf(InputIn(screen, root, modes, input, readOnly).1) == []
  {
    RunsOfFew(InputIn(screen, root, modes, input, readOnly).1);
  }

  // ---------------------------------------------------------------------- runs of inputs

  /** Inputs taken one after another by whatever is open. */
  function InputsIn(screen: Screen, root: Map, modes: Modes, inputs: seq<Input>, readOnly: bool): (Screen, seq<Effect>)
    decreases |inputs|
  {
    if inputs == [] then (screen, [])
    else
      var (next, first) := InputIn(screen, root, modes, inputs[0], readOnly);
      var (last, rest) := InputsIn(next, root, modes, inputs[1..], readOnly);
      (last, first + rest)
  }

  /** What is drawn after effects, `was` being drawn before them. */
  function LastDrawn(was: Option<Panel>, effects: seq<Effect>): Option<Panel>
    decreases |effects|
  {
    if effects == [] then was
    else
      var now := match effects[0]
        case Opens(panel) => Some(panel)
        case Screens(Show(panel)) => Some(panel)
        case Screens(Hide) => None
        case _ => was;
      LastDrawn(now, effects[1..])
  }

  lemma {:induction false} LastDrawnAppend(was: Option<Panel>, a: seq<Effect>, b: seq<Effect>)
    ensures LastDrawn(was, a + b) == LastDrawn(LastDrawn(was, a), b)
    decreases |a|
  {
    if a == [] {
      assert a + b == b;
    } else {
      assert (a + b)[0] == a[0] && (a + b)[1..] == a[1..] + b;
      var now := match a[0]
        case Opens(panel) => Some(panel)
        case Screens(Show(panel)) => Some(panel)
        case Screens(Hide) => None
        case _ => was;
      LastDrawnAppend(now, a[1..], b);
    }
  }

  lemma {:induction false} RunsAppend(a: seq<Effect>, b: seq<Effect>)
    ensures RunsOf(a + b) == RunsOf(a) + RunsOf(b)
  {
    if a == [] {
      assert a + b == b;
    } else {
      assert (a + b)[0] == a[0] && (a + b)[1..] == a[1..] + b;
      RunsAppend(a[1..], b);
      Joined(if a[0].RunJob? then [a[0].job] else [], RunsOf(a[1..]), RunsOf(b));
    }
  }

  /** No input opens a list or a prompt, nor changes a list's items or what either is for. */
  lemma {:induction false} StaysOpen(screen: Screen, root: Map, modes: Modes, input: Input, readOnly: bool)
    ensures match InputIn(screen, root, modes, input, readOnly).0
            case KeysScreen(_) => true
            case ListOpen(list) => screen.ListOpen? && list == screen.list.(selected := list.selected)
            case PromptOpen(prompt) => screen.PromptOpen? && prompt == screen.prompt.(line := prompt.line)
  {
  }

  lemma {:induction false} LastDrawnSaid(was: Option<Panel>, effects: seq<Effect>)
    requires |effects| <= 1 && (effects != [] ==> effects[0].Send?)
    ensures LastDrawn(was, effects) == was
  {
    assert effects != [] ==> effects[1..] == [];
  }

  lemma {:induction false} LastDrawnFew(was: Option<Panel>, effects: seq<Effect>)
    ensures effects == [] || (|effects| == 1 && effects[0].Send?) ==> LastDrawn(was, effects) == was
    ensures 1 <= |effects| <= 2 && effects[0].Screens? && effects[0].change.Show?
            && (|effects| == 2 ==> effects[1].Send?) ==>
              LastDrawn(was, effects) == Some(effects[0].change.panel)
  {
    if effects == [] || (|effects| == 1 && effects[0].Send?) {
      LastDrawnSaid(was, effects);
    } else if |effects| <= 2 && effects[0].Screens? && effects[0].change.Show?
      && (|effects| == 2 ==> effects[1].Send?) {
      LastDrawnSaid(Some(effects[0].change.panel), effects[1..]);
    }
  }

  /** An input that leaves a list or a prompt open leaves drawn what it is. */
  lemma {:induction false} InputDraws(screen: Screen, root: Map, modes: Modes, input: Input, readOnly: bool)
    requires !InputIn(screen, root, modes, input, readOnly).0.KeysScreen?
    ensures !screen.KeysScreen?
    ensures var (after, effects) := InputIn(screen, root, modes, input, readOnly);
            LastDrawn(PanelOf(screen, modes), effects) == PanelOf(after, modes)
  {
    StaysOpen(screen, root, modes, input, readOnly);
    LastDrawnFew(PanelOf(screen, modes), InputIn(screen, root, modes, input, readOnly).1);
  }

  /** Whatever was typed and pasted, while a list or a prompt is open what was drawn last is what it is. */
  lemma {:induction false} LastDrawnIs(screen: Screen, root: Map, modes: Modes, inputs: seq<Input>, readOnly: bool)
    requires !InputsIn(screen, root, modes, inputs, readOnly).0.KeysScreen?
    ensures !screen.KeysScreen?
    ensures var (after, effects) := InputsIn(screen, root, modes, inputs, readOnly);
            LastDrawn(PanelOf(screen, modes), effects) == PanelOf(after, modes)
    ensures match InputsIn(screen, root, modes, inputs, readOnly).0
            case ListOpen(list) => screen.ListOpen? && list == screen.list.(selected := list.selected)
            case PromptOpen(prompt) => screen.PromptOpen? && prompt == screen.prompt.(line := prompt.line)
    decreases |inputs|
  {
    if inputs != [] {
      var (next, first) := InputIn(screen, root, modes, inputs[0], readOnly);
      LastDrawnIs(next, root, modes, inputs[1..], readOnly);
      InputDraws(screen, root, modes, inputs[0], readOnly);
      StaysOpen(screen, root, modes, inputs[0], readOnly);
      LastDrawnAppend(PanelOf(screen, modes), first, InputsIn(next, root, modes, inputs[1..], readOnly).1);
    }
  }

  lemma {:induction false} SelectsStays(screen: Screen, root: Map, modes: Modes, inputs: seq<Input>, readOnly: bool)
    requires screen.ListOpen? ==> Selects(screen.list)
    ensures var after := InputsIn(screen, root, modes, inputs, readOnly).0; after.ListOpen? ==> Selects(after.list)
    decreases |inputs|
  {
    if inputs != [] {
      StaysOpen(screen, root, modes, inputs[0], readOnly);
      if screen.ListOpen? && inputs[0].KeyInput? {
        ListIs(screen.list, modes, inputs[0].stroke.press);
      }
      SelectsStays(InputIn(screen, root, modes, inputs[0], readOnly).0, root, modes, inputs[1..], readOnly);
    }
  }

  /** Whatever came before, choosing in a list runs the row of it that was drawn last as selected. */
  lemma {:induction false} ChoosesTheRowDrawn(list: ListScreen, root: Map, modes: Modes, inputs: seq<Input>,
        press: KeyPress, readOnly: bool)
    requires Selects(list) && list.items != [] && Looked<ListAct>(modes.list, press, Cancel) == Some(Choose)
    requires InputsIn(ListOpen(list), root, modes, inputs, readOnly).0.ListOpen?
    ensures var (screen, effects) := InputsIn(ListOpen(list), root, modes, inputs, readOnly);
            var drawn := LastDrawn(PanelOf(ListOpen(list), modes), effects);
            && drawn.Some? && drawn.value.ListPanel? && drawn.value.selected < |list.items|
            && InList(screen.list, modes, press) ==
               (NO_SCREEN, [HIDE, RunJob(CodeJob(list.action.code, Some(
                  list.action.args + [list.client, list.items[drawn.value.selected].payload])))])
  {
    LastDrawnIs(ListOpen(list), root, modes, inputs, readOnly);
    SelectsStays(ListOpen(list), root, modes, inputs, readOnly);
    ListIs(InputsIn(ListOpen(list), root, modes, inputs, readOnly).0.list, modes, press);
  }

  /** Whatever came before, submitting a prompt runs the text of it that was drawn last. */
  lemma {:induction false} SubmitsTheTextDrawn(prompt: Prompt, root: Map, modes: Modes, inputs: seq<Input>,
        readOnly: bool)
    requires InputsIn(PromptOpen(prompt), root, modes, inputs, readOnly).0.PromptOpen?
    ensures var (screen, effects) := InputsIn(PromptOpen(prompt), root, modes, inputs, readOnly);
            var drawn := LastDrawn(PanelOf(PromptOpen(prompt), modes), effects);
            && drawn.Some? && drawn.value.PromptPanel?
            && RunsOf(InPrompt(screen.prompt, modes, Submit).1) ==
               Submits(prompt.action, drawn.value.before + drawn.value.after)
  {
    LastDrawnIs(PromptOpen(prompt), root, modes, inputs, readOnly);
    PromptIs(InputsIn(PromptOpen(prompt), root, modes, inputs, readOnly).0.prompt, modes, Submit);
  }

  // ------------------------------------------------------------------- a line typed whole

  function Keyed(presses: seq<KeyPress>): seq<Input> {
    seq(|presses|, i requires 0 <= i < |presses| => KeyInput(Keystroke(presses[i], None)))
  }

  lemma {:induction false} KeyedFirst(presses: seq<KeyPress>)
    requires presses != []
    ensures Keyed(presses)[0] == KeyInput(Keystroke(presses[0], None)) && Keyed(presses)[1..] == Keyed(presses[1..])
  {
  }

  lemma {:induction false} InputsAppend(screen: Screen, root: Map, modes: Modes, a: seq<Input>, b: seq<Input>,
        readOnly: bool)
    ensures var (mid, first) := InputsIn(screen, root, modes, a, readOnly);
            var (last, rest) := InputsIn(mid, root, modes, b, readOnly);
            InputsIn(screen, root, modes, a + b, readOnly) == (last, first + rest)
    decreases |a|
  {
    if a == [] {
      assert a + b == b;
      var rest := InputsIn(screen, root, modes, b, readOnly).1;
      assert [] + rest == rest;
    } else {
      assert (a + b)[0] == a[0] && (a + b)[1..] == a[1..] + b;
      var (next, first) := InputIn(screen, root, modes, a[0], readOnly);
      InputsAppend(next, root, modes, a[1..], b, readOnly);
      var (mid, more) := InputsIn(next, root, modes, a[1..], readOnly);
      var rest := InputsIn(mid, root, modes, b, readOnly).1;
      assert first + (more + rest) == first + more + rest;
    }
  }

  /** A key that only moves the cursor. */
  predicate MovesCursor(modes: Modes, press: KeyPress) {
    var act := Looked<LineAct>(modes.line, press, CancelLine);
    act.Some? && act.value.Edits?
    && (act.value.edit.Left? || act.value.edit.Right? || act.value.edit.Home? || act.value.edit.End?)
  }

  /** A press that edits, taken: the line edited, and nothing run. */
  lemma {:induction false} EditsOne(prompt: Prompt, root: Map, modes: Modes, press: KeyPress, edit: Edit,
        readOnly: bool)
    requires Typing(modes, press) == Some(Edits(edit)) && EditLine(prompt.line, edit).Some?
    ensures var (screen, effects) := InputIn(PromptOpen(prompt), root, modes, KeyInput(Keystroke(press, None)),
            readOnly);
            screen == PromptOpen(prompt.(line := EditLine(prompt.line, edit).value)) && RunsOf(effects) == []
  {
    PromptIs(prompt, modes, Edits(edit));
    RunsOfFew(InPrompt(prompt, modes, Edits(edit)).1);
  }

  /** The first of some presses, then the rest. */
  lemma {:induction false} KeyedThen(screen: Screen, next: Screen, root: Map, modes: Modes, presses: seq<KeyPress>,
        readOnly: bool)
    requires presses != []
    requires InputIn(screen, root, modes, KeyInput(Keystroke(presses[0], None)), readOnly).0 == next
    requires RunsOf(InputIn(screen, root, modes, KeyInput(Keystroke(presses[0], None)), readOnly).1) == []
    ensures var (last, effects) := InputsIn(screen, root, modes, Keyed(presses), readOnly);
            var (after, rest) := InputsIn(next, root, modes, Keyed(presses[1..]), readOnly);
            last == after && RunsOf(effects) == RunsOf(rest)
  {
    KeyedFirst(presses);
    var first := InputIn(screen, root, modes, KeyInput(Keystroke(presses[0], None)), readOnly).1;
    var rest := InputsIn(next, root, modes, Keyed(presses[1..]), readOnly).1;
    RunsAppend(first, rest);
    assert [] + RunsOf(rest) == RunsOf(rest);
  }

  /** Presses that type a text, a character each. */
  predicate TypesAll(modes: Modes, presses: seq<KeyPress>, text: string) {
    |presses| == |text| && forall i | 0 <= i < |text| :: Types(modes, presses[i], text[i])
  }

  /** A prompt with text put in at its cursor. */
  function Typed(prompt: Prompt, text: string): Prompt {
    prompt.(line := prompt.line.(before := prompt.line.before + text))
  }

  lemma {:induction false} TypesFirst(prompt: Prompt, modes: Modes, presses: seq<KeyPress>, text: string)
    requires TypesAll(modes, presses, text) && text != []
    ensures TypesAll(modes, presses[1..], text[1..])
    ensures Typing(modes, presses[0]) == Some(Edits(Edit.Insert([text[0]])))
    ensures EditLine(prompt.line, Edit.Insert([text[0]])) == Some(Typed(prompt, [text[0]]).line)
    ensures Typed(Typed(prompt, [text[0]]), text[1..]) == Typed(prompt, text)
  {
    assert Types(modes, presses[0], text[0]);
    TypingIs(modes, presses[0]);
    TypedIs(prompt.line, text[0]);
    assert prompt.line.before + [text[0]] + text[1..] == prompt.line.before + text;
  }

  /** Characters typed go in at the cursor, one after another, and run nothing. */
  lemma {:induction false} TypesText(prompt: Prompt, root: Map, modes: Modes, presses: seq<KeyPress>, text: string,
        readOnly: bool)
    requires TypesAll(modes, presses, text)
    ensures var (screen, effects) := InputsIn(PromptOpen(prompt), root, modes, Keyed(presses), readOnly);
            screen == PromptOpen(Typed(prompt, text)) && RunsOf(effects) == []
    decreases |text|
  {
    if text == [] {
      assert Keyed(presses) == [] && prompt.line.before + [] == prompt.line.before;
    } else {
      TypesFirst(prompt, modes, presses, text);
      EditsOne(prompt, root, modes, presses[0], Edit.Insert([text[0]]), readOnly);
      KeyedThen(PromptOpen(prompt), PromptOpen(Typed(prompt, [text[0]])), root, modes, presses, readOnly);
      TypesText(Typed(prompt, [text[0]]), root, modes, presses[1..], text[1..], readOnly);
    }
  }

  /** Moves of the cursor keep the text, and run nothing. */
  lemma {:induction false} MovesKeepText(prompt: Prompt, root: Map, modes: Modes, presses: seq<KeyPress>,
        readOnly: bool)
    requires forall i | 0 <= i < |presses| :: MovesCursor(modes, presses[i])
    ensures var (screen, effects) := InputsIn(PromptOpen(prompt), root, modes, Keyed(presses), readOnly);
            && screen.PromptOpen? && screen.prompt == prompt.(line := screen.prompt.line)
            && TextOf(screen.prompt.line) == TextOf(prompt.line)
            && RunsOf(effects) == []
    decreases |presses|
  {
    if presses == [] {
      assert Keyed(presses) == [];
    } else {
      TypingIs(modes, presses[0]);
      var edit := Looked<LineAct>(modes.line, presses[0], CancelLine).value.edit;
      EditIs(prompt.line, edit);
      EditsOne(prompt, root, modes, presses[0], edit, readOnly);
      var next := prompt.(line := EditLine(prompt.line, edit).value);
      KeyedThen(PromptOpen(prompt), PromptOpen(next), root, modes, presses, readOnly);
      MovesKeepText(next, root, modes, presses[1..], readOnly);
    }
  }

  /** Characters typed at the cursor, then submitted, are the text run, wherever the cursor was moved in between. */
  lemma {:induction false} TypedIsSubmitted(prompt: Prompt, root: Map, modes: Modes, typed: seq<KeyPress>, text: string,
        moves: seq<KeyPress>, enter: KeyPress, readOnly: bool)
    requires TypesAll(modes, typed, text)
    requires forall i | 0 <= i < |moves| :: MovesCursor(modes, moves[i])
    requires Looked<LineAct>(modes.line, enter, CancelLine) == Some(Submit)
    ensures RunsOf(InputsIn(PromptOpen(prompt), root, modes, Keyed(typed) + Keyed(moves) + Keyed([enter]),
            readOnly).1) ==
            Submits(prompt.action, prompt.line.before + text + prompt.line.after)
  {
    TypesText(prompt, root, modes, typed, text, readOnly);
    var (one, first) := InputsIn(PromptOpen(prompt), root, modes, Keyed(typed), readOnly);
    MovesKeepText(one.prompt, root, modes, moves, readOnly);
    var (two, second) := InputsIn(one, root, modes, Keyed(moves), readOnly);
    SubmitsLine(two.prompt, root, modes, enter, readOnly);
    InputsAppend(PromptOpen(prompt), root, modes, Keyed(typed), Keyed(moves), readOnly);
    InputsAppend(PromptOpen(prompt), root, modes, Keyed(typed) + Keyed(moves), Keyed([enter]), readOnly);
    RunsAppend(first, second);
    RunsAppend(first + second, InputsIn(two, root, modes, Keyed([enter]), readOnly).1);
  }

  lemma {:induction false} SubmitsLine(prompt: Prompt, root: Map, modes: Modes, enter: KeyPress, readOnly: bool)
    requires Looked<LineAct>(modes.line, enter, CancelLine) == Some(Submit)
    ensures RunsOf(InputsIn(PromptOpen(prompt), root, modes, Keyed([enter]), readOnly).1) ==
            Submits(prompt.action, TextOf(prompt.line))
  {
    KeyedFirst([enter]);
    assert Keyed([enter][1..]) == [];
    TypingIs(modes, enter);
    PromptIs(prompt, modes, Submit);
    var effects := InPrompt(prompt, modes, Submit).1;
    assert effects + [] == effects;
  }
}
