/**
 * What a client passes on to the server and what it has run, in every interleaving: of each input handled,
 * what its key is bound to says, once and in order; and of nothing else.
 */
module Relaying {
  import opened Keys
  import opened Sequences
  import opened Trie
  import opened Modes
  import opened Acts
  import opened HeldKeys
  import opened Screens
  import opened Keyboards
  import opened Attachment

  /** A key for the program in the pane: unbound at the root in use, or a column's own first key unbound in it. */
  predicate PassesThrough(screen: Screen, root: Map, press: KeyPress) {
    && screen.KeysScreen?
    && match screen.held
       case InColumn(path, _) =>
         At(Holds(root), path + [press]).None? && path != [] && path[0] == press && !press.Leaves()
       case Repeating(_) => false
       case _ => At(Holds(root), [press]).None?
  }

  /** What an input is to the server: itself, or nothing. */
  function Relay(screen: Screen, root: Map, input: Input, readOnly: bool): seq<Act> {
    match input
    case ReplyInput(reply) => [ReplyAct(reply)]
    case PasteTooLong => []
    case _ =>
      if readOnly then []
      else match input
        case KeyInput(stroke) => if PassesThrough(screen, root, stroke.press) then [KeyAct(stroke)] else []
        case PasteInput(text) => if screen.KeysScreen? then [PasteAct(text)] else []
        case FocusIn => [FocusAct(true)]
        case FocusOut => [FocusAct(false)]
        case MouseInput(event) => if screen.KeysScreen? then [MouseAct(event)] else []
        case _ => []
  }

  /** An input passed on: neither the client's own screens, nor its notices, nor a program's presentations. */
  predicate IsRelayed(act: Act) { !act.Presentation? && !act.ScreenIs? && !act.Notice? }

  function RelayedBy(effects: seq<Effect>): seq<Act> {
    if effects == [] then []
    else (if effects[0].Send? && IsRelayed(effects[0].act) then [effects[0].act] else []) + RelayedBy(effects[1..])
  }

  function RelayedIn(out: seq<Dispatch>): seq<Act> {
    if out == [] then []
    else (if out[0].DoSend? && IsRelayed(out[0].act) then [out[0].act] else []) + RelayedIn(out[1..])
  }

  // ---------------------------------------------------------------------------- one input

  lemma {:induction false} RelayedFew(effects: seq<Effect>)
    ensures |effects| == 1 ==>
              RelayedBy(effects) == if effects[0].Send? && IsRelayed(effects[0].act) then [effects[0].act] else []
    ensures |effects| == 2 && !(effects[0].Send? && IsRelayed(effects[0].act)) ==>
              RelayedBy(effects) == if effects[1].Send? && IsRelayed(effects[1].act) then [effects[1].act] else []
  {
    if |effects| == 2 {
      RelayedFew(effects[1..]);
    }
  }

  /** What is bound where a press is looked up, whether or not a map is there. */
  lemma {:induction false} BoundIs(root: Map, path: Path, press: KeyPress)
    ensures BoundIn(root, path, press) == At(Holds(root), path + [press])
  {
    TrieView.AtAppend(Holds(root), path, [press]);
    RootKey(root, press);
  }

  lemma {:induction false} InColumnRelays(root: Map, modes: Modes, path: Path, selected: nat, stroke: Keystroke)
    ensures RelayedBy(PressInColumn(root, modes, path, selected, stroke).1) ==
            if PassesThrough(KeysScreen(InColumn(path, selected)), root, stroke.press) then [KeyAct(stroke)] else []
  {
    BoundIs(root, path, stroke.press);
    RelayedFew(PressInColumn(root, modes, path, selected, stroke).1);
  }

  lemma {:induction false} PressRelays(held: Held, root: Map, modes: Modes, stroke: Keystroke, readOnly: bool)
    ensures RelayedBy(Press(held, root, modes, stroke, readOnly).1) ==
            Relay(KeysScreen(held), root, KeyInput(stroke), readOnly)
  {
    RootKey(root, stroke.press);
    RelayedFew(Press(held, root, modes, stroke, readOnly).1);
    if held.InColumn? && !readOnly {
      InColumnRelays(root, modes, held.path, held.selected, stroke);
    }
  }

  /** Of an input, what is passed on is what it is to the server. */
  lemma {:induction false} InputRelays(screen: Screen, root: Map, modes: Modes, input: Input, readOnly: bool)
    ensures RelayedBy(InputIn(screen, root, modes, input, readOnly).1) == Relay(screen, root, input, readOnly)
  {
    RelayedFew(InputIn(screen, root, modes, input, readOnly).1);
    if screen.KeysScreen? && input.KeyInput? {
      PressRelays(screen.held, root, modes, input.stroke, readOnly);
    }
  }

  lemma {:induction false} RelayedAppend(a: seq<Dispatch>, b: seq<Dispatch>)
    ensures RelayedIn(a + b) == RelayedIn(a) + RelayedIn(b)
  {
    if a == [] {
      assert a + b == b;
    } else {
      assert (a + b)[1..] == a[1..] + b;
      RelayedAppend(a[1..], b);
    }
  }

  lemma {:induction false} RelayedOne(d: Dispatch)
    ensures RelayedIn([d]) == if d.DoSend? && IsRelayed(d.act) then [d.act] else []
  {
    assert [d][1..] == [];
  }

  /** Numbering its drawings, a display passes on and runs what it is given to. */
  lemma {:induction false} DispatchRelays(d: Showing, active: bool, effects: seq<Effect>)
    ensures RelayedIn(DispatchAll(d, active, effects).1) == RelayedBy(effects)
    ensures Jobs(DispatchAll(d, active, effects).1) == RunsOf(effects)
    decreases |effects|
  {
    if effects != [] {
      var (next, active', first) := DispatchOne(d, active, effects[0]);
      DispatchRelays(next, active', effects[1..]);
      RelayedAppend(first, DispatchAll(next, active', effects[1..]).1);
      JobsAppend(first, DispatchAll(next, active', effects[1..]).1);
      DispatchOneRelays(d, active, effects[0]);
    }
  }

  lemma {:induction false} DispatchOneRelays(d: Showing, active: bool, effect: Effect)
    ensures var out := DispatchOne(d, active, effect).2;
            && RelayedIn(out) == (if effect.Send? && IsRelayed(effect.act) then [effect.act] else [])
            && Jobs(out) == if effect.RunJob? then [effect.job] else []
  {
    var out := DispatchOne(d, active, effect).2;
    if out != [] {
      assert out == [out[0]];
      RelayedOne(out[0]);
      JobsOne(out[0]);
    }
  }

  /** Routed, jobs are admitted and all else goes on. */
  lemma {:induction false} RouteRelays(k: Keyboard, effects: seq<Dispatch>)
    ensures RelayedIn(Route(k, effects).1) == RelayedIn(effects)
    ensures Route(k, effects).0.log.admitted == k.log.admitted + Jobs(effects)
    decreases |effects|
  {
    if effects == [] {
      assert k.log.admitted + [] == k.log.admitted;
    } else {
      var (k', first) := if effects[0].DoRun? then Admit(k, effects[0].job) else (k, [effects[0]]);
      RouteRelays(k', effects[1..]);
      RelayedAppend(first, Route(k', effects[1..]).1);
      RelayedOne(effects[0]);
      assert first == [] || first == [effects[0]];
      var job := if effects[0].DoRun? then [effects[0].job] else [];
      assert k'.log.admitted == k.log.admitted + job;
      Joined(k.log.admitted, job, Jobs(effects[1..]));
    }
  }

  lemma {:induction false} HandleRelays(k: Keyboard, s: Shared, input: Input)
    ensures RelayedIn(Handle(k, s, input).1) == Relay(k.display.screen, s.root, input, k.readOnly)
    ensures Handle(k, s, input).0.log.admitted ==
            k.log.admitted + RunsOf(InputIn(k.display.screen, s.root, s.modes, input, k.readOnly).1)
  {
    var (screen, led) := InputIn(k.display.screen, s.root, s.modes, input, k.readOnly);
    var (display, effects) := TakeInput(k.display, s.root, s.modes, input, k.readOnly);
    InputRelays(k.display.screen, s.root, s.modes, input, k.readOnly);
    DispatchRelays(k.display.(screen := screen), k.display.Shown(), led);
    RouteRelays(k.(display := display, log := k.log.(handled := k.log.handled + [input])), effects);
  }

  // ------------------------------------------------------------------------- what else it does

  lemma {:induction false} SendsRelayNone(acts: seq<Act>)
    requires forall act | act in acts :: !IsRelayed(act)
    ensures RelayedIn(Sends(acts)) == []
  {
    if acts != [] {
      assert acts[0] in acts;
      assert Sends(acts)[1..] == Sends(acts[1..]);
      SendsRelayNone(acts[1..]);
    }
  }

  lemma {:induction false} ShowedRelaysNone(k: Keyboard, s: Shared, ran: Ran)
    ensures forall act | act in Showed(k, s, ran).1 :: !IsRelayed(act)
    ensures Showed(k, s, ran).0.log == k.log
  {
  }

  /** The worker's updates pass nothing on and admit nothing. */
  lemma {:induction false} UpdateRelaysNone(k: Keyboard, s: Shared, update: Update)
    ensures RelayedIn(TakeUpdate(k, s, update).1) == []
    ensures TakeUpdate(k, s, update).0.log.admitted == k.log.admitted
  {
    match update
    case Presents(version) =>
      assert Presenting(version)[1..] == [DoFence];
      RelayedOne(DoFence);
    case Finished(ran) =>
      var before := k.(running := if k.running == 0 then 0 else k.running - 1);
      ShowedRelaysNone(before, s, ran);
      SendsRelayNone(Showed(before, s, ran).1);
      var (k1, acts) := Showed(before, s, ran);
      if k1.pending != [] {
        RelayedAppend(Sends(acts), [DoRun(k1.pending[0])]);
        RelayedOne(DoRun(k1.pending[0]));
      }
  }

  // ------------------------------------------------------------------------------ whole runs

  /** What a step is to pass on: of the input it handles. */
  function RelayAt(s: System, step: Step): seq<Act>
    requires Enabled(s, step)
  {
    if step.ReleasesOne? then Relay(s.k.display.screen, s.shared.root, s.k.waiting[0], s.k.readOnly) else []
  }

  /** What a step is to run: what the input it handles leads to, or a check of the screen the server opens. */
  function AsksToRun(s: System, step: Step): seq<Job>
    requires Enabled(s, step)
  {
    match step
    case ReleasesOne =>
      RunsOf(InputIn(s.k.display.screen, s.shared.root, s.shared.modes, s.k.waiting[0], s.k.readOnly).1)
    case TakesFrame(OpenFrame(screen)) => [ScreenJob(screen)]
    case _ => []
  }

  function RelaysOf(s: System, steps: seq<Step>): seq<Act>
    requires CanRun(s, steps)
    decreases |steps|
  {
    if steps == [] then [] else RelayAt(s, steps[0]) + RelaysOf(After(s, steps[0]), steps[1..])
  }

  function AskedToRun(s: System, steps: seq<Step>): seq<Job>
    requires CanRun(s, steps)
    decreases |steps|
  {
    if steps == [] then [] else AsksToRun(s, steps[0]) + AskedToRun(After(s, steps[0]), steps[1..])
  }

  lemma {:induction false} EmitsNone(s: System, k: Keyboard, d: Dispatch)
    requires !(d.DoSend? && IsRelayed(d.act))
    ensures RelayedIn(Emit(s, (k, [d])).stream) == RelayedIn(s.stream)
    ensures RelayedIn(Emit(s, (k, [])).stream) == RelayedIn(s.stream)
  {
    RelayedAppend(s.stream, [d]);
    RelayedAppend(s.stream, []);
    RelayedOne(d);
    assert RelayedIn(s.stream) + [] == RelayedIn(s.stream);
  }

  lemma {:induction false} FrameRelaysNone(s: System, frame: Frame)
    requires Enabled(s, TakesFrame(frame))
    ensures RelayedIn(OnFrame(s, frame).stream) == RelayedIn(s.stream)
    ensures OnFrame(s, frame).k.log.admitted == s.k.log.admitted + AsksToRun(s, TakesFrame(frame))
  {
    assert s.k.log.admitted + [] == s.k.log.admitted;
    match frame
    case OpenFrame(screen) => EmitsNone(s, Admit(s.k, ScreenJob(screen)).0, DoRun(ScreenJob(screen)));
    case ReadFrame(asked, read) => EmitsNone(s, s.k, DoAnswer(asked, Answer(s.k, s.shared, read)));
    case _ =>
  }

  lemma {:induction false} SilentRelaysNone(s: System, step: Step)
    requires Enabled(s, step) && !step.TakesInput? && !step.TakesFrame? && !step.ReleasesOne? && !step.TakesUpdate?
    ensures After(s, step).stream == s.stream && After(s, step).k.log.admitted == s.k.log.admitted
  {
  }

  lemma {:induction false} StepRelays(s: System, step: Step)
    requires Enabled(s, step)
    ensures RelayedIn(After(s, step).stream) == RelayedIn(s.stream) + RelayAt(s, step)
    ensures After(s, step).k.log.admitted == s.k.log.admitted + AsksToRun(s, step)
  {
    assert RelayedIn(s.stream) + [] == RelayedIn(s.stream) && s.k.log.admitted + [] == s.k.log.admitted;
    if step.ReleasesOne? {
      var k := s.k.(waiting := s.k.waiting[1..]);
      HandleRelays(k, s.shared, s.k.waiting[0]);
      RelayedAppend(s.stream, Handle(k, s.shared, s.k.waiting[0]).1);
    } else if step.TakesUpdate? {
      UpdateRelaysNone(s.k, s.shared, s.told[0]);
      RelayedAppend(s.stream, TakeUpdate(s.k, s.shared, s.told[0]).1);
    } else if step.TakesFrame? {
      FrameRelaysNone(s, step.frame);
    } else if step.TakesInput? {
      EmitsNone(s, Arrive(s.k, s.shared, step.input).0, STOPPING);
    } else {
      SilentRelaysNone(s, step);
    }
  }

  /** All that a run passes on, and all it admits to run, is what its steps are to, in order. */
  lemma {:induction false} RunRelays(s: System, steps: seq<Step>)
    requires CanRun(s, steps)
    ensures RelayedIn(RunOf(s, steps).stream) == RelayedIn(s.stream) + RelaysOf(s, steps)
    ensures RunOf(s, steps).k.log.admitted == s.k.log.admitted + AskedToRun(s, steps)
    decreases |steps|
  {
    if steps == [] {
      assert RelayedIn(s.stream) + [] == RelayedIn(s.stream) && s.k.log.admitted + [] == s.k.log.admitted;
    } else {
      StepRelays(s, steps[0]);
      RunRelays(After(s, steps[0]), steps[1..]);
      Joined(RelayedIn(s.stream), RelayAt(s, steps[0]), RelaysOf(After(s, steps[0]), steps[1..]));
      Joined(s.k.log.admitted, AsksToRun(s, steps[0]), AskedToRun(After(s, steps[0]), steps[1..]));
    }
  }

  lemma {:induction false} NoticesRelayNone(out: seq<Dispatch>)
    requires forall d | d in out :: d.DoSend? && d.act.Notice?
    ensures RelayedIn(out) == []
  {
    if out != [] {
      assert out[0] in out;
      NoticesRelayNone(out[1..]);
    }
  }

  /**
   * In every interleaving, whatever programs run and keymaps they commit, what a client passes on is each
   * input it handled that was for the pane, once and in order, and nothing else; and what it admits to
   * run is what those inputs led to and the screens it was sent.
   */
  lemma {:induction false} EveryRunRelays(readOnly: bool, shared: Shared, notices: seq<(Said, bool)>, steps: seq<Step>)
    requires CanRun(Welcomed(readOnly, shared, notices), steps)
    ensures var s := Welcomed(readOnly, shared, notices);
            && RelayedIn(RunOf(s, steps).stream) == RelaysOf(s, steps)
            && RunOf(s, steps).k.log.admitted == AskedToRun(s, steps)
  {
    var s := Welcomed(readOnly, shared, notices);
    NoticesRelayNone(s.stream);
    RunRelays(s, steps);
    NothingBefore(RelaysOf(s, steps));
    NothingBefore(AskedToRun(s, steps));
  }
}
