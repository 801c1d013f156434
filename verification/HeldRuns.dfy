/** What is held over a whole run while the keymap stays: it always names what there is. */
module HeldRuns {
  import opened Trie
  import opened Modes
  import opened Keymap
  import opened Acts
  import opened HeldKeys
  import opened Screens
  import opened Openings

  /** Keys taken under `root`, whatever else comes. */
  ghost predicate Under(root: Map, steps: seq<Step>) {
    forall step | step in steps && step.InputStep? :: step.root == root
  }

  ghost predicate NamesWhatIs(root: Map, screen: Screen) {
    screen.KeysScreen? ==> HeldIs(root, screen.held)
  }

  /** Dispatching effects leaves the screen they came with, or none. */
  lemma {:induction false} DispatchLeaves(d: Showing, active: bool, effects: seq<Effect>)
    ensures DispatchAll(d, active, effects).0.screen == d.screen
            || DispatchAll(d, active, effects).0.screen == NO_SCREEN
    decreases |effects|
  {
    if effects != [] {
      var (next, active', _) := DispatchOne(d, active, effects[0]);
      DispatchLeaves(next, active', effects[1..]);
    }
  }

  lemma {:induction false} InputHolds(screen: Screen, root: Map, modes: Modes, input: Input, readOnly: bool)
    requires SoundRoot(root) && NamesWhatIs(root, screen)
    ensures NamesWhatIs(root, InputIn(screen, root, modes, input, readOnly).0)
  {
    if input.KeyInput? && screen.KeysScreen? {
      PressKeepsHeld(screen.held, root, modes, input.stroke, readOnly);
    }
  }

  lemma {:induction false} StepHolds(d: Showing, root: Map, step: Step, readOnly: bool)
    requires SoundRoot(root) && NamesWhatIs(root, d.screen) && (step.InputStep? ==> step.root == root)
    ensures NamesWhatIs(root, Stepped(d, step, readOnly).0.screen)
  {
    match step
    case InputStep(_, modes, input) =>
      InputHolds(d.screen, root, modes, input, readOnly);
      var (screen, effects) := InputIn(d.screen, root, modes, input, readOnly);
      DispatchLeaves(d.(screen := screen), d.Shown(), effects);
    case _ =>
  }

  /**
   * Whatever is typed, pasted, opened and ended under one keymap, what is held names a map of it, an
   * entry of that map's column, or a mode of it with keys that run.
   */
  lemma {:induction false} EveryHeldIs(d: Showing, log: seq<Mark>, root: Map, steps: seq<Step>, readOnly: bool)
    requires SoundRoot(root) && NamesWhatIs(root, d.screen) && Under(root, steps)
    ensures NamesWhatIs(root, Openings.Run(d, log, steps, readOnly).0.screen)
    decreases |steps|
  {
    if steps != [] {
      var (next, marks) := Stepped(d, steps[0], readOnly);
      StepHolds(d, root, steps[0], readOnly);
      EveryHeldIs(next, log + marks, root, steps[1..], readOnly);
    }
  }
}
