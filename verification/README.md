# What fux's client and its benchmarks keep

fux is a terminal multiplexer. Its client reads a person's keys, runs them through a keymap, draws its
own screens, and runs grift programs on a worker beside the connection to the server. Its benchmarks
write streams a terminal must paint, watch what comes back, and judge the numbers. This project models
those parts in Dafny and proves what they keep.

- **The keymap** (`Keys`, `Trie`, `TrieView`, `TrieRefines`, `TrieOrder`, `Modes`, `Keymap`, `KeymapSound`,
  `KeymapObject`, `KeymapLookups`, `Moves`, `Columns`, `Describe`, `Replay`, `KeysRecord`, `RecordReader`): an
  insertion-ordered tree of key bindings. It refines a prefix-free map from key paths to bindings; its config
  lines replay to the identical keymap, and its record is read back as it; moves are all or nothing.
- **Held keys and screens** (`Acts`, `HeldKeys`, `HeldRuns`, `Presses`, `Screens`, `Lines`, `Choosing`,
  `Openings`): what a client's keys are in the middle of, each press by what is bound to it, the row a list
  chooses and the text a prompt submits, and a display that numbers every screen it draws. Claims are about
  whole runs.
- **The keyboard, its worker and the connection** (`Keyboards`, `KeyboardObject`, `JobEnds`, `Attachment`,
  `AttachmentRuns`, `JobRuns`, `CallSteps`, `Drawing`, `Relaying`): three parties stepping in any order, with a
  mailbox, a receipt, a wake and a frame count between them; and what of all that is typed goes on to the server.
- **The terminal's output** (`Output`): a client and a writer thread, partial and interrupted writes.
- **The benchmarks' algorithms** (`SixelDecoder`, `Sixel`, `SixelFrames`, `Spiral`, `TextFilter`, `Watching`,
  `Streams`, `Requests`, `Orders`, `Holm`, `MidRanks`, `Binomial`, `GriftText`, `GriftEscapes`, `GriftData`).

What the client and the benchmarks change in place is a class or a method with loops, proved against a
function of its value; the claims are lemmas about those functions and about every run of their steps.
`Sequences` holds a few equalities of sequences by name. No proof leans on Dafny's automatic induction: lemmas
switch it off.

What comes from outside is a parameter or a step: keys already decoded, frames already parsed, what the
server sends and when, what a program on the worker commits, presents, requests and ends as, how a read
or a write is split, and which words Python takes as numbers. A program takes finitely many steps, as many
as the step that starts it says; progress is claimed of those.

Where the code and what is said of it differ, the model follows the code, and the difference is a lemma:

- Escape leaves a repeat mode, unless the mode was reached by a root key that is that very Escape: then it
  reopens its column (`HeldKeys.EscapeLeaves`, `HeldKeys.EscapeMayReopen`).
- A move that takes the last binding of a map it goes back into makes that map anew, without its repeat
  (`Moves.MoveKeepsRepeats`, `Moves.MoveMayLoseRepeat`); it replaces a binding that `to` itself ran
  (`Moves.MoveLosesOnlyWhatToRan`).
- An input that would draw a shown screen anew, when opening numbers are out, leaves the client showing none
  while the server draws the last, until the server ends it (`Openings.StepMatches`, `Openings.ShownIsLive`,
  `Openings.InputMayExhaust`).
- `last_frames` hands paints over without asking for room (`Output.LastIsUnbounded`); `finish` says all is
  well of output cut short once another call has said so (`Output.FinishSays`, `Output.FinishMaySayWell`).
- A sixel payload of no colours paints nothing (`Sixel.ImagePaints`); the spiral misses or repeats cells on
  screens whose smaller side is odd, but for one less than the other (`Spiral.EveryCellOnce`).
- Colours of a sixel payload are defined alike when their numbers are a multiple of 101 apart: of its 256, 101
  differ (`Sixel.ColoursAlike`).
- A pattern longer than 65 bytes can be missed by a split (`Watching.LongerIsMissed`).
- The escape filter rests while nothing is watched for: before a first watch, and once a pattern has come. It
  is in step at the next watch exactly if what was read meanwhile leads back to where it rests
  (`Watching.RestKeepsStep`, `Watching.FilterMayBeBehind`, `Watching.UnwatchedMayBeBehind`).
- The reader of requests has a string last until BEL or ST, but takes a BEL right after ESC for a part of it, and
  may miss a request after it (`Requests.AnswerAsksNothing`, `Requests.RequestMayBeMissed`).
- Holm's adjusted values and his step-down agree at a level of one exactly if no weighed value is over one
  (`Holm.AgreeAtLevelOne`, `Holm.NotAtLevelOne`).

`dafny verify dfyconfig.toml` checks it all.

## Model

| member | source | states |
|---|---|---|
| TrieRefines.ViewPrefixFree | src/keymap.rs:59-73 | no keys that run a binding start other keys that run one |
| TrieView.PutRefuses | src/keymap.rs:150-183 | putting is refused exactly with no keys, below keys that run, or at keys that hold a map |
| TrieView.PutSays | src/keymap.rs:150-183 | a refusal names its cause: no keys at all, a map in their place, or the first of them that run already and their label |
| TrieView.PutAt | src/keymap.rs:150-183 | what every key path is once an entry is put: the entry's own below it, all else as it was |
| TrieRefines.PutRefinesUpdate | src/keymap.rs:150-183 | binding is the update of the prefix-free map, refused exactly when the map says the keys clash |
| TrieView.PutWhole | src/keymap.rs:150-183 | putting keeps each key bound once at every level, and no inner map empty |
| TrieView.TakeFinds | src/keymap.rs:187-198 | taking finds nothing exactly when nothing is bound there |
| TrieView.TakeAt | src/keymap.rs:187-198 | taking leaves nothing at or below the keys, and every other path's binding as it was |
| TrieRefines.TakeRefinesRemoval | src/keymap.rs:187-198 | unbinding removes from the map exactly the paths that start with the keys |
| TrieView.TakeWhole | src/keymap.rs:187-198 | taking keeps keys unique and leaves no inner map empty |
| TrieRefines.TakeUndoesPut | src/keymap.rs:258-284 | unbinding a binding just made gives the identical keymap back exactly when the keys ran nothing before |
| TrieOrder.PutKeepsOrder | src/keymap.rs:150-183 | what is put is listed together in its own order; every other binding keeps its place among the others |
| TrieOrder.TakeKeepsOrder | src/keymap.rs:187-198 | what is taken and what is left are each listed in the order they were |
| TrieOrder.PutWithin | src/keymap.rs:264-276 | putting an entry keeps the depth bound when path and entry together are within it |
| KeymapSound.ConfigureSound | src/keymap.rs:258-322 | every config statement keeps the keymap whole, its maps left by Escape alone, and no key past the deepest |
| KeymapSound.EveryKeymapIsSound | src/keymap.rs:258-322 | so does every run of statements, refused ones passed over |
| KeymapObject.ClientKeymap.Bind | src/keymap.rs:258-261 | binding in place comes to the specified keymap; a refusal leaves it alone |
| KeymapObject.ClientKeymap.PutEntry | src/keymap.rs:264-276 | putting checks Escape, then depth, then the tree, and refuses whole |
| KeymapObject.ClientKeymap.UnbindKeys | src/keymap.rs:279-284 | unbinding in place, or the refusal |
| KeymapObject.ClientKeymap.Move | src/keymap.rs:288-298 | a move worked out on a copy replaces the keymap whole or not at all |
| KeymapObject.ClientKeymap.SetRepeats | src/keymap.rs:314-322 | repeating in place comes to the specified keymap, or the refusal |
| KeymapLookups.SetRepeatRefuses | src/keymap.rs:314-322 | repeating is refused exactly at no keys or keys that hold no map |
| KeymapLookups.SetRepeatAt | src/keymap.rs:314-322 | after it the map at the keys repeats; every other map's repeat, every binding and their order are as they were |
| KeymapLookups.LabelsWhatWasMade | src/script/words.rs:2284-2296 | a label or a group changes the binding just made and no other, and is refused exactly when that is gone |
| KeymapLookups.TableBindFinds | src/keymap.rs:776-795 | a screen's key bound does its new action without a hint, every other key what it did |
| KeymapLookups.TableUnbindFinds | src/keymap.rs:796-803 | a screen's key unbound is found no more, every other key does what it did |
| KeymapObject.Config.Runs | src/keymap.rs:258-322 | one statement run in place is the specified one |
| KeymapObject.Config.RunsAll | src/keymap.rs:258-322 | statements run in order, each refused one changing nothing |
| Moves.MoveRefusal | src/keymap.rs:288-298 | a move is refused exactly when `to` is in `from` or is no keys, `from` is unbound, an Escape or the depth forbids it, or `to` clashes with what stays |
| Moves.MoveRuns | src/keymap.rs:288-298 | what every path runs after a move |
| Moves.MoveIsWhole | src/keymap.rs:288-298 | the entry at `to` is the very one `from` was, repeats and order in it |
| Moves.MoveLosesOnlyWhatToRan | src/keymap.rs:172-175 | the only binding a move can lose is the one `to` itself ran |
| Moves.MoveKeepsOrder | src/keymap.rs:288-298 | moved bindings and all others each keep the order they are listed in |
| Moves.MoveKeepsRepeats | src/keymap.rs:288-298 | a map outside `to` that is there after a move repeats exactly when it did before and something that did not move runs below it: one `to` makes anew does not |
| Moves.MoveMayLoseRepeat | src/keymap.rs:288-298 | a repeating map whose one binding moves within it comes back not repeating |
| Columns.All | src/keymap.rs:104-114 | the loop lists the whole tree in preorder |
| Columns.FirstOf | src/keymap.rs:140-145 | the first binding depth first, if any |
| Columns.ColumnOf | src/keymap.rs:339-374 | the loops build the specified column, its selection within its entries |
| Columns.BarOf | src/keymap.rs:378-393 | the loop builds a repeat mode's bar, of a map that repeats and runs a key |
| Columns.GroupedIsStable | src/keymap.rs:362-369 | grouping is a stable sort by first appearance, `Other` last |
| Columns.GroupsInOrder | src/keymap.rs:362-369 | rows stand by group, groups in the order first met, whatever is in `Other` after all |
| Columns.GroupedIsAll | src/keymap.rs:362-369 | grouping neither drops nor repeats an entry |
| Columns.ColumnShowsEveryKey | src/keymap.rs:339-374 | a map's column shows each of its keys once, nothing else, and is never empty |
| Presses.RowsAre | src/keymap.rs:339-374 | a key's row has its binding's label and group, or the group of the first binding below it |
| Presses.BarShows | src/keymap.rs:378-393 | a mode's bar has exactly the keys of its map that run, in their order, titled by the group of the first |
| Replay.BindingLinesBind | src/keymap.rs:42-54 | a binding's line makes it again, label and group with it |
| Replay.DescribeReplays | src/keymap.rs:399-416 | a keymap's config lines rebuild it from any state: keys in order at every level, bindings, repeats, screen keys |
| Replay.EveryKeymapReplays | src/keymap.rs:399-416 | so for every keymap a config can make |
| KeysRecord.RecordReads | src/keymap.rs:422-429 | the `keys` record is read from the wire exactly when no key is past the deepest |
| KeysRecord.EveryRecordReads | src/keymap.rs:214-217 | the record of every keymap a config can make is read from the wire |
| RecordReader.RecordRebuilds | src/keymap.rs:422-429 | a reader of the `keys` record by its fields' names gives the keymap back: every key, binding, label, group and repeat at every level, the screens' keys, and the keys held |
| RecordReader.EveryRecordRebuilds | src/keymap.rs:422-429 | so for every keymap a config can make |
| HeldKeys.PressKeepsHeld | src/keymap.rs:463-616 | whatever is pressed, what is held names a map, an entry of its column, or a mode with keys that run |
| HeldKeys.PressRunsWhatIsBound | src/keymap.rs:463-598 | a key runs the code bound at the held path and the key pressed or selected, and no other code |
| Presses.PressIs | src/keymap.rs:463-598 | a press is what a lookup from the root says it means: what is held after it, what is drawn, and what is run, sent to the pane or said, and nothing else |
| Presses.WatchingIs | src/keymap.rs:600-616 | a watcher's press holds a prefix, detaches by `d` after one, or is told the first prefix there is |
| Presses.MovedIs | fux-wire/src/act.rs:165-180 | a move goes as many rows as its name says, and no further than the ends |
| Presses.TableGetFinds | src/keymap.rs:708-718 | a press has its own key's action, else a named key's without modifiers; Escape always its own |
| HeldKeys.WatchingRunsOnlyDetach | src/keymap.rs:600-616 | a watcher runs its detach alone, by `d` once a prefix is held |
| HeldKeys.EscapeLeaves | src/keymap.rs:535-581 | Escape leaves a column, and a repeat mode exactly when the root key that led there is not that Escape |
| HeldKeys.EscapeMayReopen | src/keymap.rs:571-581 | a sound keymap and mode where Escape reopens the column |
| HeldKeys.UnboundKeyResetsUndrawn | src/keymap.rs:518-524 | an unbound key sets the selection held to the first and draws nothing |
| HeldRuns.EveryHeldIs | src/keymap.rs:463-616 | over any run under one keymap, what is held always names what there is |
| Screens.Display.Open | src/screens.rs:62-74 | opening numbers and shows a new screen, or says the numbers are out and changes nothing |
| Screens.Display.Ended | src/screens.rs:76-81 | an ending closes the screen only of the opening it names, while shown |
| Screens.Display.Close | src/screens.rs:82-90 | closing hides what was shown, under its own opening |
| Screens.Display.Stamp | src/screens.rs:100-129 | one effect given its opening |
| Screens.Display.Take | src/screens.rs:95-130 | an input's effects dispatched in order are the specified acts |
| Lines.EditIs | fux-wire/src/act.rs:238-271 | what every edit makes of a line's text and cursor: an insert at the cursor without its line end and controls, one character deleted on either side, the cursor moved; text of more lines is refused |
| Lines.TypingIs | src/keymap.rs:879-885 | a press in a prompt does what its table says, or types its own character, or nothing |
| Choosing.ListIs | src/screens.rs:312-339 | a list's key cancels, or runs the list's action or its own on the client and the payload of the row selected, or moves as named and is drawn if the row is another |
| Choosing.PromptIs | src/screens.rs:341-365 | a prompt's action cancels, runs the whole text or nothing if it is blank and a line, or edits and draws, saying what was refused |
| Choosing.PasteIs | src/screens.rs:298-310 | what a paste does in each screen |
| Choosing.LastDrawnIs | src/screens.rs:256-362 | whatever is typed and pasted, while a list or a prompt is open what was drawn last is what it is |
| Choosing.ChoosesTheRowDrawn | src/screens.rs:312-327 | whatever came before, choosing runs the list's action on the payload of the row last drawn as selected |
| Choosing.SubmitsTheTextDrawn | src/screens.rs:341-351 | whatever came before, submitting runs the text last drawn |
| Choosing.TypedIsSubmitted | src/screens.rs:341-365 | characters typed, the cursor then moved anyhow, and submitted, are the text run, in the place they were typed |
| Openings.InputFits | src/screens.rs:256-362 | an input draws or hides at most once, first, and leaves a screen shown exactly as that says |
| Openings.StepAgrees | src/screens.rs:62-130 | every open, close, ending and input keeps the display in agreement with what was sent |
| Openings.EveryRunAgrees | src/screens.rs:62-130 | so does every run of them, the keymap changing between |
| Openings.OpeningsNeverDecrease | src/screens.rs:100-129 | the openings sent acts name never decrease |
| Openings.OpeningsStartShown | src/screens.rs:100-129 | the first act of an opening shows it |
| Openings.NothingAfterTheEnd | src/screens.rs:76-90 | no act names an opening after its hide or its end |
| Openings.OldEndingsChangeNothing | src/screens.rs:76-81 | an ending of an opening the sent acts and endings do not leave live changes neither the display nor what is live |
| Openings.ShownIsLive | src/screens.rs:91-94 | after any run a screen is shown exactly when the last opening was shown and neither hidden nor ended, if and only if each input that found the numbers out was followed by the server's ending of the last; so always while numbers last |
| Openings.StepMatches | src/screens.rs:62-130 | what is shown stops being what the server draws exactly at an input that draws a shown screen anew with no number left, and is so again exactly at the ending of the last opening |
| Openings.ExhaustionLeavesDrawn | src/screens.rs:111-117 | such an input leaves the client showing none while the server draws the last, whatever screen it was in |
| Openings.InputMayExhaust | src/screens.rs:111-117 | a sound keymap with such an input, in a column and in a repeat mode |
| Keyboards.ArriveSteps | src/client.rs:868-887 | an input sets the stop, and says so, exactly if it is an Escape after a prefix that waits while a program runs; no other input sets it or says anything |
| Keyboards.InputsSteps | src/client.rs:864-899 | after inputs, what was handled and what waits are the arrivals in order but for stop pairs: an Escape stops exactly while a program runs and the last that waits is a key that holds a map, which goes with it; a stop stands exactly if one came since a job was last admitted with none running; none waits while no program runs |
| Keyboards.TakeFrameSteps | src/client.rs:906-929 | so for a frame of the server's |
| Keyboards.TakeRanSteps | src/client.rs:934-981 | so for whatever the worker told, jobs started in the order admitted |
| Keyboards.FinishedSteps | src/client.rs:945-978 | a job's end counts it out and starts the next after all it shows |
| Keyboards.EveryCallKeeps | src/client.rs:827-1014 | so after any calls in any order, the keymap changing between: all jobs ever started, then those pending, are those admitted, in order |
| KeyboardObject.ClientKeyboard.Run | src/client.rs:1002-1014 | a job is started or queued, a stop forgotten when none ran |
| KeyboardObject.ClientKeyboard.TakeOne | src/client.rs:1017-1029 | an input's effects, its jobs run as they come |
| KeyboardObject.ClientKeyboard.ReleaseWaiting | src/client.rs:890-899 | what waits is taken until a program runs |
| KeyboardObject.ClientKeyboard.Came | src/client.rs:868-887 | an input stops the program running, with the stop set and said, or waits |
| KeyboardObject.ClientKeyboard.Inputs | src/client.rs:864-880 | inputs are logged and handled in turn, however reads group them |
| KeyboardObject.ClientKeyboard.OnFrame | src/client.rs:906-929 | a frame comes to the specified acts and state |
| KeyboardObject.ClientKeyboard.Open | src/client.rs:986-998 | a program's screen opens, or a watching client says why not |
| KeyboardObject.ClientKeyboard.OnUpdate | src/client.rs:937-978 | a presentation or a job's end taken |
| KeyboardObject.ClientKeyboard.OnRan | src/client.rs:934-981 | every update told, then what waited |
| KeyboardObject.ClientKeyboard.Fence | src/client.rs:1032-1036 | the receipt awaited is given once, with the count of frames |
| CallSteps.FrameRuns | src/client.rs:906-929 | taking a frame is a run of the attached client's steps: the frame's, then one for each input let go |
| CallSteps.InputsRun | src/client.rs:864-899 | so is taking inputs, however many come at once |
| CallSteps.RanRuns | src/client.rs:934-981 | so is taking all that the worker told |
| JobEnds.ShowedIs | src/client.rs:945-998 | a program's end opens its screen, closes one whose hints changed, or neither; then says in one notice why its screen did not open, what it said itself, and what closed |
| JobEnds.AnswerReads | src/client.rs:912-925 | a read of the keys is answered with what reads back as the keymap and the path held, which is nothing in a list or a prompt; of preferences, with them |
| Attachment.StepKeeps | src/client.rs:1501-1670 | every step of the loop, the worker or the world keeps the schedule, the handshake, the fences and the wakes |
| AttachmentRuns.EveryRunIsSound | src/client.rs:1501-1670 | so does every interleaving from a welcome |
| AttachmentRuns.RequestsAreCovered | src/client.rs:757-787 | every request comes after frames that carry all emitted before its job was sent to the worker and exactly the presentations any job had committed by then, in order; never more frames than were sent, never fewer than the last |
| Attachment.StartsOneFenced | src/client.rs:1576-1584 | a job is sent to the worker with a count of frames that carry all ever emitted, its whole batch, and all ever committed |
| Attachment.FencePresented | src/client.rs:1556-1561 | a receipt's count is of frames that carry exactly what was ever committed |
| AttachmentRuns.WorkerNeverBlocks | src/client.rs:745-803 | the mailbox holds one at most and has room whenever the worker puts, and no receipt is kept when a presentation comes |
| AttachmentRuns.StopLasts | src/client.rs:1002-1014 | a stop lasts while anything runs |
| AttachmentRuns.StopIsForgotten | src/client.rs:1002-1014 | a job that starts while nothing runs starts under no stop |
| Attachment.FinishesKeeps | src/client.rs:1163-1219 | a job's end keeps all of it; one that began, or came to its end, under a stop opens no screen |
| AttachmentRuns.StopOpensNothing | src/client.rs:864-887 | in every interleaving, the prefix and then Escape typed while a program runs says it stops, and until nothing runs no program not at its end by then, nor any the worker takes, opens a screen |
| JobRuns.MayOpen | src/client.rs:1190-1202 | a job at its end may open a screen exactly if it did well and no stop stands |
| JobRuns.EndSaysRebound | src/client.rs:1098-1133 | a job's end says that the screens' keys changed exactly if a commit of that job changed them |
| JobRuns.SharedIsCommitted | src/client.rs:1099-1107 | in every run what is shared is what a program committed last |
| JobRuns.EndsAreHeard | src/client.rs:934-981 | in every interleaving the client takes each job's end, once and in order, but for one it is yet to take |
| AttachmentRuns.NeverStuck | src/client.rs:1128-1138 | while anything is unfinished some step is enabled |
| AttachmentRuns.StepsLeaveLess | src/client.rs:1128-1138 | every step but the world's leaves less to do, by a ten-part measure |
| AttachmentRuns.Drains | src/client.rs:827-829 | in whatever order its parties go the client comes to idle |
| Drawing.EveryRunDraws | src/client.rs:934-1029 | in every interleaving the display agrees with all that was emitted and every ending taken, in order |
| Drawing.StreamIsInOrder | src/screens.rs:95-130 | all a client ever emits, programs' screens and delayed endings among it, names openings in order, each shown first and never after its hide |
| Drawing.EndedIsNamedNoMore | src/screens.rs:76-81 | in every interleaving, once an ending of an opening named is taken, nothing emitted names it again |
| Relaying.InputRelays | src/screens.rs:256-275 | of an input, the server is sent itself or nothing: a key exactly if the root in use does not bind it, or it is a column's own first key unbound in it |
| Relaying.EveryRunRelays | src/client.rs:890-899 | in every interleaving, all a client sends on is each input it handled that was for the pane, once and in order, and all it admits to run is what those inputs led to and the screens it was sent |
| Output.WriteStdout | src/client.rs:1384-1395 | partial and interrupted writes put a prefix of the paint out, all of it exactly when it says so |
| Output.WriteIs | src/client.rs:1384-1395 | a paint is written exactly once writes before any failure took as much; interruptions lose nothing, and what was taken before a failure is all that is out |
| Output.StepKeeps | src/client.rs:1398-1466 | every step of client and writer keeps the account of bytes, the order and the bound |
| Output.EveryRunIsInOrder | src/client.rs:1371-1437 | the terminal has a prefix of the paints, and what is unwritten is what was handed over and not counted, under the bound while frames are read |
| Output.FinishSays | src/client.rs:1451-1466 | finishing says all is well exactly when all was written or a failure was said before |
| Output.FinishMaySayWell | src/client.rs:1442-1466 | a run in which a write fails and finishing then says all is well |
| Output.AttachmentShowsAll | src/client.rs:1297-1303 | an attachment that went well ends well exactly when all it was sent was written |
| Output.LastIsUnbounded | src/client.rs:1720-1729 | once the last frames are read what is unwritten has no bound |
| Output.WriterGoesOn | src/client.rs:1462-1466 | waiting for the writer at the end, the writer has a step |
| Sixel.RunsReadBack | bench/src/census.rs:656-663 | runs written of any row of six-bit values are undone by reading them |
| Sixel.ImagePaints | bench/src/census.rs:591-651 | reading an image paints its every pixel in its colour and no other pixel, the last band short or not |
| Sixel.ColoursAlike | bench/src/census.rs:596-599 | two colours are defined alike exactly if their numbers are a multiple of 101 apart |
| SixelFrames.WriteRuns | bench/src/census.rs:630-644 | the loop over a row writes its runs |
| SixelFrames.FillBand | bench/src/census.rs:611-621 | one pass over a band's pixels fills every colour's sixels |
| SixelFrames.WriteBand | bench/src/census.rs:610-648 | a band is written as its colours' rows |
| SixelFrames.WriteImage | bench/src/census.rs:595-649 | an image is written as its raster, palette and bands |
| SixelFrames.WriteFrames | bench/src/census.rs:591-653 | frames are written until the size is reached, with none past it |
| SixelFrames.FramesReadBack | bench/src/census.rs:591-653 | a payload reads as its frames in order, each painting its every pixel |
| Spiral.DrawRing | bench/src/census.rs:272-291 | four loops draw one ring |
| Spiral.DrawRings | bench/src/census.rs:269-299 | rings spiral in until none is left, and it ends |
| Spiral.CursorMotion | bench/src/census.rs:266-302 | every letter is drawn so |
| Spiral.EveryCellOnce | bench/src/census.rs:266-302 | each letter is drawn once in each cell exactly on screens whose smaller side is even or one less than the other |
| TextFilter.Text | bench/src/terminal.rs:49-71 | the filter's loop is the filter |
| Streams.StreamFilters | bench/src/terminal.rs:49-71 | the text of any stream, by a grammar of letters, controls, control sequences, strings, escapes and what cancels them, is its letters, and the filter is then in the state of what is open |
| Streams.EveryStreamIs | bench/src/terminal.rs:49-71 | whatever bytes are written are such a stream |
| Streams.LettersArrive | bench/src/terminal.rs:256-270 | a pattern watched for from where text begins arrives exactly if it is in the letters written |
| TextFilter.FilterSplits | bench/src/terminal.rs:49-71 | however reads split a stream its text is the same |
| TextFilter.Framed | bench/src/helpers.rs:207-214 | a load is framed by a reset, its ending and its marker |
| TextFilter.MarkerIsText | bench/src/helpers.rs:207-214 | whatever the load and whatever was open before it, its marker is the last text of its frame |
| TextFilter.MarkersDiffer | bench/src/helpers.rs:17-27 | two loads' markers are the same exactly if their numbers are a multiple of four apart |
| TextFilter.LoadIsRead | bench/src/helpers.rs:207-214 | a load that comes in text, or in a control sequence left open, is read from where text begins |
| Watching.WindowsChecked | bench/src/terminal.rs:99-104 | the first place a pattern starts, or that there is none |
| Watching.Found | bench/src/terminal.rs:75-92 | the occurrences that end past what was looked at before |
| Watching.Reader.Read | bench/src/terminal.rs:231-274 | a read updates what was seen as specified |
| Watching.Reader.Watch | bench/src/terminal.rs:176-183 | a watch clears the tails and keeps the escape state |
| Watching.PaintsAreOccurrences | bench/src/terminal.rs:249-255 | paints counted over any split are the overlapping occurrences in the whole stream |
| Watching.PaintsSinceWatch | bench/src/terminal.rs:176-183 | a watch counts paints anew, none found that began before it |
| Watching.ReadsAreCounted | bench/src/terminal.rs:231-248 | all that was read is counted, and the terminal is closed exactly once a read had nothing |
| Watching.WatchedArrives | bench/src/terminal.rs:256-270 | a pattern of 65 bytes or fewer arrives exactly with the read that completes it in the filtered text |
| Watching.MarkerArrives | bench/src/helpers.rs:207-214 | a load's marker arrives, however its frame is split and whatever was open |
| Watching.LongerIsMissed | bench/src/terminal.rs:256-270 | any longer pattern is missed by some split of it |
| Watching.RestKeepsStep | bench/src/terminal.rs:256-270 | bytes read with nothing watched for leave the filter in step with the stream exactly if they lead back to the state it rests in |
| Watching.InStepArrives | bench/src/terminal.rs:256-270 | in step again, a watched pattern arrives exactly if the stream's own text since has it |
| Watching.FilterMayBeBehind | bench/src/terminal.rs:176-183 | after an arrival the filter may be behind at the next watch, and find text that was none |
| Watching.UnwatchedMayBeBehind | bench/src/terminal.rs:256-270 | so it may at the first watch of a terminal started with none |
| Requests.Reader.Read | bench/src/helpers.rs:144-172 | the loop over bytes is the reader |
| Requests.ReadSplits | bench/src/helpers.rs:144-172 | however reads split the bytes the requests are the same |
| Requests.ReadsWhatIsAsked | bench/src/helpers.rs:144-172 | numbers typed are the requests read, but for those past 64 bits, which are none |
| Requests.AnswerAsksNothing | bench/src/helpers.rs:121-172 | an answer of the terminal asks nothing, and leaves what was typed of a request as it was exactly if it is no string that ends in a BEL after ESC |
| Requests.AnswersAskNothing | bench/src/helpers.rs:121-172 | such answers anywhere between, even within a number, leave the requests those typed |
| Requests.RequestMayBeMissed | bench/src/helpers.rs:133-134 | a string ended by a BEL after ESC, and a request after it that is missed |
| Holm.Adjust | agentbench/compare/stats.py:144-153 | each adjusted value is the greatest weighed value of those no greater |
| Holm.AdjustedIsOne | agentbench/compare/stats.py:144-153 | whatever order ties are taken in |
| Holm.AdjustedBounds | agentbench/compare/stats.py:144-153 | adjusted values are probabilities, no less than the raw, in their order |
| Holm.AdjustedIsStepDown | agentbench/compare/stats.py:144-153 | below a level of one they reject exactly what Holm's step-down rejects |
| Holm.AgreeAtLevelOne | agentbench/compare/stats.py:144-153 | at one the adjusted values reject all, and agree with the step-down exactly if no value weighs more than one |
| Holm.NotAtLevelOne | agentbench/compare/stats.py:144-153 | two values of which they reject both and it none |
| MidRanks.Rank | agentbench/compare/stats.py:45-54 | the loops give every value its mid-rank, and Friedman's tie term |
| MidRanks.RanksKeepOrder | agentbench/compare/stats.py:120-133 | ties share a rank, and ranks are in the order of values |
| MidRanks.RanksSum | agentbench/compare/stats.py:45-54 | ranks always sum to n(n+1)/2 |
| Binomial.ChooseNext | bench/src/against.rs:471 | what the running product multiplies by takes each binomial coefficient to the next |
| Binomial.Tail | bench/src/against.rs:464-474 | the loop computes the upper tail |
| Binomial.TailIsShare | bench/src/against.rs:463-474 | the tail is the share of all outcomes of n fair coins with as many heads |
| Binomial.TailFalls | bench/src/against.rs:463-474 | the tail is one at none, falls with each head more, and is nothing past them all |
| Binomial.McNemarIsTwiceTail | agentbench/compare/stats.py:26-32 | McNemar's test is twice the tail from the more of the two on, one at most |
| GriftText.StringIsEscaped | agentbench/drivers.py:370-372 | the two replacements escape each character once |
| GriftText.UnescapedUndoes | agentbench/drivers.py:383-389 | every text written as a string reads back as itself |
| GriftEscapes.PiecesRead | agentbench/drivers.py:379-389 | a string reads as its characters, each written plain, by a named escape, by a code in hexadecimal, or as itself after a backslash; with a code past the last character's it does not read |
| GriftData.ReadData | agentbench/drivers.py:411-430 | the loop over tokens is the reader |
| GriftData.ReadsOneTree | agentbench/drivers.py:411-430 | a text reads exactly when its tokens are one tree, and as that tree's value |
| GriftData.UnbalancedFails | agentbench/drivers.py:419-429 | unbalanced text fails |
| GriftData.WrittenReadsBack | agentbench/drivers.py:392-430 | any data written reads back: words as atoms, records as dicts, to any depth |
| GriftData.PrintedReadsBack | agentbench/drivers.py:370-430 | every value of texts, truths, nothing, numbers, symbols, lists and records, printed, reads back as it was, to any depth |
| GriftData.RecordIs | agentbench/drivers.py:406-408 | a record is one list or more of a symbol and what it names, and nothing else |
| GriftData.RecordKeepsLast | agentbench/drivers.py:406-424 | a record's dict names each field once, as its last says |

## Left out

- KeymapObject: nested maps are values, not nodes on a heap; a map is owned by the one that holds it, so nothing else sees it change in place.
- HeldKeys: `Held` and `Screen` are values the display replaces, one call at a time.
- A code value's place in its file, which equality ignores in the code, is not kept.
- Text: the wording of notices, refusals and config lines, and the names of keys, are kept apart as values, not characters; so are hints.
- A list's preview and its `about`, kitty's extras of a keystroke, and what a mouse event holds are opaque or absent.
- Recency of decoding: escape timing, deadlines and the byte decoder; inputs come decoded.
- Choosing: what is claimed over several inputs is claimed under one keymap.
- Keyboards: preferences are one opaque value, their record; a step says whether a commit changed how they present.
- KeyboardObject: a method takes one snapshot of the shared keymap for its whole call; `Attachment` takes one input at a time, the keymap changing between.
- Attachment: begins at the welcome and stops at the attachment's end; dropping the keyboard, and what the worker asks of the server after it, are not modelled.
- Attachment: a pass of the loop with nothing to send is no step, and what the worker reads of the server is none of it.
- Output: counts of bytes do not wrap, and a writer that panics is not modelled.
- Watching: totals do not saturate at 64 bits.
- Sixel: sizes do not saturate at the machine's width.
- Holm: values are exact reals, not floating point; so are ranks, tails and tests.
- The exact and normal Wilcoxon statistics, Friedman's and Cochran's, Fisher's test, Wilson's interval and the chi-squared tail.
- `signs` and `count_all`: filling a map and slots in parallel is true but easy beside the rest.
- GriftData: where an error is, in characters, is not kept; which words are numbers is a parameter.
- The server's side of screens and fences, sockets, polling, signals, raw mode and PTYs.
