/**
 * Keys, lists and prompts as screens (src/screens.rs), each a function of an input; and the display,
 * which numbers their drawings.
 */
module Screens {
  import opened Keys
  import opened Sequences
  import opened Trie
  import opened Modes
  import opened Acts
  import opened HeldKeys

  datatype Screen = KeysScreen(held: Held) | ListOpen(list: ListScreen) | PromptOpen(prompt: Prompt)

  const NO_SCREEN := KeysScreen(Normal)

  /** What the client's terminal sent, decoded. */
  datatype Input =
    | KeyInput(stroke: Keystroke)
    | ReplyInput(reply: nat)
    | PasteInput(text: string)
    | PasteTooLong
    | FocusIn
    | FocusOut
    | MouseInput(event: nat)

  function Captions(items: seq<Item>): seq<string> {
    seq(|items|, i requires 0 <= i < |items| => items[i].caption)
  }

  /** A list's or a prompt's drawing. */
  function PanelOf(screen: Screen, modes: Modes): Option<Panel> {
    match screen
    case KeysScreen(_) => None
    case ListOpen(list) => Some(ListPanel(list.title, Captions(list.items), list.current, list.selected, modes.list))
    case PromptOpen(prompt) => Some(PromptPanel(prompt.title, prompt.line.before, prompt.line.after, modes.line))
  }

  // ----------------------------------------------------------- a line being typed

  predicate IsControl(c: char) { c as int < 0x20 || 0x7f <= c as int < 0xa0 }

  /** White space as Unicode has it. */
  predicate IsBlank(c: char) {
    var n := c as int;
    9 <= n <= 13 || n == 32 || n == 0x85 || n == 0xa0 || n == 0x1680 || 0x2000 <= n <= 0x200a
    || n == 0x2028 || n == 0x2029 || n == 0x202f || n == 0x205f || n == 0x3000
  }

  function WithoutControls(text: string): string {
    if text == [] then [] else (if IsControl(text[0]) then [] else [text[0]]) + WithoutControls(text[1..])
  }

  /** Text without the line end it ends in, if it does. */
  function WithoutLineEnd(text: string): string {
    var n := |text|;
    if n >= 2 && text[n - 2] == '\r' && text[n - 1] == '\n' then text[..n - 2]
    else if n >= 1 && (text[n - 1] == '\n' || text[n - 1] == '\r') then text[..n - 1]
    else text
  }

  /** An edit's result, or nothing if its text has a line break inside. */
  function EditLine(line: Line, edit: Edit): Option<Line> {
    match edit
    case Insert(text) =>
      var typed := WithoutLineEnd(text);
      if '\n' in typed || '\r' in typed then None else Some(line.(before := line.before + WithoutControls(typed)))
    case Backspace => Some(line.(before := if line.before == [] then [] else line.before[..|line.before| - 1]))
    case Delete => Some(line.(after := if line.after == [] then [] else line.after[1..]))
    case Left =>
      if line.before == [] then Some(line)
      else Some(Line(line.before[..|line.before| - 1], [line.before[|line.before| - 1]] + line.after))
    case Right => if line.after == [] then Some(line) else Some(Line(line.before + [line.after[0]], line.after[1..]))
    case Home => Some(Line([], line.before + line.after))
    case End => Some(Line(line.before + line.after, []))
  }

  /** A press in a prompt: by its table, or as a character of its own. */
  function Typing(modes: Modes, press: KeyPress): Option<LineAct> {
    var act := TableGet(modes.line, press, CancelLine);
    if act.Some? then act
    else if press.key.Char? && !press.mods.ctrl && !press.mods.alt && !IsControl(press.key.c)
    then Some(Edits(Edit.Insert([press.key.c])))
    else None
  }

  // ------------------------------------------------------------------ the screens

  /** The job of a callback given more arguments. */
  function Call(callback: Callback, args: seq<Data>): Job {
    CodeJob(callback.code, Some(callback.args + args))
  }

  function InList(list: ListScreen, modes: Modes, press: KeyPress): (Screen, seq<Effect>) {
    var at := list.selected;
    var last := if list.items == [] then 0 else |list.items| - 1;
    var act := TableGet<ListAct>(modes.list, press, Cancel);
    if act == Some(Cancel) then (NO_SCREEN, [HIDE])
    else
      var action := match act
        case Some(act) => if act.Choose? then Some(list.action) else if act.Action? then Some(act.callback) else None
        case None => None;
      if action.Some? && at < |list.items| then
        (NO_SCREEN, [HIDE, RunJob(Call(action.value, [list.client, list.items[at].payload]))])
      else
        var moved := if act.Some? && act.value.Moves? then Moved(act.value.move, at, last) else at;
        var screen := ListOpen(list.(selected := moved));
        (screen, if moved != at then [Screens(Show(PanelOf(screen, modes).value))] else [])
  }

  function InPrompt(prompt: Prompt, modes: Modes, act: LineAct): (Screen, seq<Effect>) {
    match act
    case CancelLine => (NO_SCREEN, [HIDE])
    case Submit =>
      var text := prompt.line.before + prompt.line.after;
      var job := match prompt.action
        case Some(action) => [RunJob(Call(action, [Text(text)]))]
        case None => if forall i | 0 <= i < |text| :: IsBlank(text[i]) then [] else [RunJob(LineJob(text))];
      (NO_SCREEN, [HIDE] + job)
    case Edits(edit) =>
      var edited := EditLine(prompt.line, edit);
      var screen := PromptOpen(if edited.Some? then prompt.(line := edited.value) else prompt);
      (screen, [Screens(Show(PanelOf(screen, modes).value))]
               + if edited.None? then [Send(Notice(LineSaid, true))] else [])
  }

  function KeyIn(screen: Screen, root: Map, modes: Modes, stroke: Keystroke, readOnly: bool): (Screen, seq<Effect>) {
    match screen
    case KeysScreen(held) =>
      var (after, effects) := Press(held, root, modes, stroke, readOnly);
      (KeysScreen(after), effects)
    case ListOpen(list) => InList(list, modes, stroke.press)
    case PromptOpen(prompt) =>
      match Typing(modes, stroke.press)
      case Some(act) => InPrompt(prompt, modes, act)
      case None => (screen, [])
  }

  function PasteIn(screen: Screen, modes: Modes, text: string): (Screen, seq<Effect>) {
    match screen
    case KeysScreen(held) =>
      (NO_SCREEN, (if held.Normal? then [] else [HIDE]) + [Send(PasteAct(text))])
    case PromptOpen(prompt) => InPrompt(prompt, modes, Edits(Edit.Insert(text)))
    case ListOpen(_) => (screen, [Send(Notice(ListOpenSaid, true))])
  }

  function InputIn(screen: Screen, root: Map, modes: Modes, input: Input, readOnly: bool): (Screen, seq<Effect>) {
    match input
    case KeyInput(stroke) => KeyIn(screen, root, modes, stroke, readOnly)
    case ReplyInput(reply) => (screen, [Send(ReplyAct(reply))])
    case PasteInput(text) => if readOnly then (screen, [Send(WatchingNotice(root))]) else PasteIn(screen, modes, text)
    case PasteTooLong => (screen, [])
    case FocusIn => (screen, if readOnly then [] else [Send(FocusAct(true))])
    case FocusOut => (screen, if readOnly then [] else [Send(FocusAct(false))])
    case MouseInput(event) => (screen, if readOnly || !screen.KeysScreen? then [] else [Send(MouseAct(event))])
  }

  // ------------------------------------------------------------------ the display

  /** The last number an opening can have. */
  const LAST_OPENING: nat := 0xffff_ffff_ffff_ffff

  datatype Showing = Showing(screen: Screen, opening: nat) {
    /** Whether the server draws a screen of the client's. */
    predicate Shown() {
      !(screen.KeysScreen? && (screen.held.Normal? || screen.held.Prefixed?))
    }
  }

  const NOTHING_SHOWN := Showing(NO_SCREEN, 0)

  /** Output for the loop, drawings numbered. */
  datatype Dispatch = DoSend(act: Act) | DoRun(job: Job) | DoFence | DoAnswer(asked: nat, value: Data)

  const EXHAUSTED := Notice(ExhaustedSaid, true)

  function OpenScreen(d: Showing, screen: Screen, modes: Modes): (Showing, seq<Act>) {
    if d.opening == LAST_OPENING then (d, [EXHAUSTED])
    else
      match PanelOf(screen, modes)
      case None => (d, [])
      case Some(panel) => (Showing(screen, d.opening + 1), [ScreenIs(d.opening + 1, Show(panel))])
  }

  /** An ending taken: it closes nothing but its own opening. */
  function EndScreen(d: Showing, opening: nat): Showing {
    if d.Shown() && d.opening == opening then d.(screen := NO_SCREEN) else d
  }

  function CloseScreen(d: Showing): (Showing, Option<Act>) {
    (d.(screen := NO_SCREEN), if d.Shown() then Some(ScreenIs(d.opening, Hide)) else None)
  }

  /** One effect dispatched, a screen being shown while `active`. */
  function DispatchOne(d: Showing, active: bool, effect: Effect): (Showing, bool, seq<Dispatch>) {
    match effect
    case RunJob(job) => (d, active, [DoRun(job)])
    case Send(act) => (d, active, [DoSend(act)])
    case Opens(panel) => DispatchScreen(d, active, Show(panel), true)
    case Screens(change) => DispatchScreen(d, active, change, false)
  }

  function DispatchScreen(d: Showing, active: bool, change: ScreenAct, anew: bool): (Showing, bool, seq<Dispatch>) {
    if anew || !active then
      if change.Hide? then (d, active, [])
      else if d.opening == LAST_OPENING then (d.(screen := NO_SCREEN), active, [DoSend(EXHAUSTED)])
      else (d.(opening := d.opening + 1), true, [DoSend(ScreenIs(d.opening + 1, change))])
    else (d, change.Show?, [DoSend(ScreenIs(d.opening, change))])
  }

  function DispatchAll(d: Showing, active: bool, effects: seq<Effect>): (Showing, seq<Dispatch>)
    decreases |effects|
  {
    if effects == [] then (d, [])
    else
      var (next, active', first) := DispatchOne(d, active, effects[0]);
      var (last, rest) := DispatchAll(next, active', effects[1..]);
      (last, first + rest)
  }

  lemma {:induction false} DispatchFirst(d: Showing, active: bool, effects: seq<Effect>, out: seq<Dispatch>)
    requires effects != []
    ensures var (next, active', first) := DispatchOne(d, active, effects[0]);
            && DispatchAll(d, active, effects).0 == DispatchAll(next, active', effects[1..]).0
            && out + DispatchAll(d, active, effects).1 == out + first + DispatchAll(next, active', effects[1..]).1
  {
    var (next, active', first) := DispatchOne(d, active, effects[0]);
    Joined(out, first, DispatchAll(next, active', effects[1..]).1);
  }

  function TakeInput(d: Showing, root: Map, modes: Modes, input: Input, readOnly: bool): (Showing, seq<Dispatch>) {
    var (screen, effects) := InputIn(d.screen, root, modes, input, readOnly);
    DispatchAll(d.(screen := screen), d.Shown(), effects)
  }

  /** A client's display, changed in place at the key, ending or program that changes it. */
  class Display {
    var screen: Screen
    var opening: nat

    constructor ()
      ensures Value() == NOTHING_SHOWN
    {
      screen, opening := NO_SCREEN, 0;
    }

    function Value(): Showing
      reads this
    {
      Showing(screen, opening)
    }

    /** Numbers and draws a screen, if a number is left. */
    method Open(started: Screen, modes: Modes) returns (acts: seq<Act>)
      modifies this
      ensures (Value(), acts) == OpenScreen(old(Value()), started, modes)
    {
      if opening == LAST_OPENING {
        return [EXHAUSTED];
      }
      match PanelOf(started, modes) {
        case None => return [];
        case Some(panel) =>
          opening := opening + 1;
          screen := started;
          return [ScreenIs(opening, Show(panel))];
      }
    }

    method Ended(ended: nat)
      modifies this`screen
      ensures Value() == EndScreen(old(Value()), ended)
    {
      if Value().Shown() && opening == ended {
        screen := NO_SCREEN;
      }
    }

    method Close() returns (act: Option<Act>)
      modifies this`screen
      ensures (Value(), act) == CloseScreen(old(Value()))
    {
      act := if Value().Shown() then Some(ScreenIs(opening, Hide)) else None;
      screen := NO_SCREEN;
    }

    /** Gives one effect its opening, a new one if it is drawn anew or nothing is shown. */
    method Stamp(effect: Effect, active: bool) returns (after: bool, out: seq<Dispatch>)
      modifies this
      ensures (Value(), after, out) == DispatchOne(old(Value()), active, effect)
    {
      after := active;
      match effect {
        case RunJob(job) => return active, [DoRun(job)];
        case Send(act) => return active, [DoSend(act)];
        case _ =>
      }
      var anew := effect.Opens?;
      var change := if anew then Show(effect.panel) else effect.change;
      if anew || !active {
        if change.Hide? {
          return active, [];
        }
        if opening == LAST_OPENING {
          screen := NO_SCREEN;
          return active, [DoSend(EXHAUSTED)];
        }
        opening := opening + 1;
        after := true;
      }
      if change.Hide? {
        after := false;
      }
      out := [DoSend(ScreenIs(opening, change))];
    }

    /** A key, paste or report, taken by what is open. */
    method Take(root: Map, modes: Modes, input: Input, readOnly: bool) returns (out: seq<Dispatch>)
      modifies this
      ensures (Value(), out) == TakeInput(old(Value()), root, modes, input, readOnly)
    {
      var active := Value().Shown();
      var (after, effects) := InputIn(screen, root, modes, input, readOnly);
      screen := after;
      out := [];
      ghost var all := DispatchAll(Value(), active, effects);
      while effects != []
        invariant all.0 == DispatchAll(Value(), active, effects).0
        invariant all.1 == out + DispatchAll(Value(), active, effects).1
        decreases |effects|
      {
        DispatchFirst(Value(), active, effects, out);
        var first;
        active, first := Stamp(effects[0], active);
        out := out + first;
        effects := effects[1..];
      }
      assert out + [] == out;
    }
  }
}
