/** What a client's keys lead to: acts for the server and jobs to run (fux-wire/src/act.rs, src/screens.rs). */
module Acts {
  import opened Keys
  import opened Modes
  import opened Columns

  /** A press, with whatever more kitty's protocol told of it. */
  datatype Keystroke = Keystroke(press: KeyPress, kitty: Option<nat>)

  /** What a notice says, its wording aside. */
  datatype Said =
    | NotBoundSaid(keys: Path)
    | NotInModeSaid(key: KeyPress)
    | WatchingSaid(prefix: Option<KeyPress>)
    | ListOpenSaid
    | LineSaid
    | ExhaustedSaid
    | WatchingOpensNoneSaid
    | StoppingSaid
    | ClosedSaid
    | ProgramSaid(text: string)
    | BothSaid(first: Said, second: Said)

  /** A drawing: a list and a prompt carry the whole table their hints are made from. */
  datatype Panel =
    | ColumnPanel(column: Column)
    | RepeatPanel(bar: Bar)
    | ListPanel(title: string, items: seq<string>, current: Option<nat>, selected: nat, hints: Table<ListAct>)
    | PromptPanel(title: string, before: string, after: string, lineHints: Table<LineAct>)

  datatype ScreenAct = Show(panel: Panel) | Hide

  datatype Act =
    | Presentation(version: nat)
    | KeyAct(stroke: Keystroke)
    | PasteAct(text: string)
    | MouseAct(event: nat)
    | FocusAct(gained: bool)
    | ReplyAct(reply: nat)
    | ScreenIs(opening: nat, change: ScreenAct)
    | Notice(said: Said, error: bool)

  datatype Item = Item(caption: string, payload: Data)

  /** An admitted chooser. */
  datatype ListScreen = ListScreen(title: string, items: seq<Item>, current: Option<nat>, selected: nat,
                                   action: Callback, client: Data)

  /** The text on either side of a prompt's cursor. */
  datatype Line = Line(before: string, after: string)

  datatype Prompt = Prompt(title: string, line: Line, action: Option<Callback>)

  datatype Opened = OpenList(list: ListScreen) | OpenPrompt(prompt: Prompt)

  /** Work for the worker: a line or a code value to run, perhaps on values; or a screen to check. */
  datatype Job =
    | LineJob(line: string)
    | CodeJob(code: Code, given: Option<seq<Data>>)
    | ScreenJob(screen: Opened)

  /** A screen's answer to a key, its drawings not yet numbered. */
  datatype Effect =
    | Send(act: Act)
    | Screens(change: ScreenAct)
    | Opens(panel: Panel)
    | RunJob(job: Job)

  const HIDE := Screens(Hide)
}
