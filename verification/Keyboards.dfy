/**
 * `Keyboard` of src/client.rs as a value: a display, jobs of which one at most is running, inputs held
 * back meanwhile, and a log from which its order is judged.
 */
module Keyboards {
  import opened Keys
  import opened Sequences
  import opened Trie
  import opened Modes
  import opened Acts
  import opened HeldKeys
  import opened Screens
  import KeysRecord

  /** A job's result: a notice, a screen, and whether it changed the screens' keys. */
  datatype Ran = Ran(notice: Option<(Said, bool)>, shows: Option<Screen>, rebound: bool)

  /** A committed presentation, awaiting a receipt; or a job's end. */
  datatype Update = Presents(version: nat) | Finished(ran: Ran)

  /**
   * An input that came and whether it stopped what ran; with whether any program did, the map it was
   * judged under, and how many inputs had been handled.
   */
  datatype Arrival = Arrival(input: Input, stops: bool, running: bool, root: Map, taken: nat)

  /**
   * What came; what was taken, in order; what was admitted, in order; and how many had come when a job
   * was last admitted with none running.
   */
  datatype Log = Log(arrived: seq<Arrival>, handled: seq<Input>, admitted: seq<Job>, anew: nat)

  /** What the worker's programs change: the keymap, the screens' keys, and preferences as they are answered. */
  datatype Shared = Shared(root: Map, modes: Modes, preferences: Data)

  datatype Keyboard = Keyboard(
    display: Showing,
    readOnly: bool,
    running: nat,
    pending: seq<Job>,
    waiting: seq<Input>,
    receipt: bool,
    stop: bool,
    log: Log)

  /** What the server sends an attached client, its own keys' part. */
  datatype Frame =
    | EndedFrame(opening: nat)
    | OpenFrame(screen: Opened)
    | KeysFrame(inputs: seq<Input>)
    | ReadFrame(asked: nat, read: ClientRead)

  /** What the server may ask a client for. */
  datatype ClientRead = ReadKeys | ReadPreferences

  const NOTHING_TYPED := Log([], [], [], 0)

  function NewKeyboard(readOnly: bool): Keyboard {
    Keyboard(NOTHING_SHOWN, readOnly, 0, [], [], false, false, NOTHING_TYPED)
  }

  // ------------------------------------------------------------------- programs

  /** A job runs at once, if none does, a stop not meant for it forgotten; else after those running. */
  function Admit(k: Keyboard, job: Job): (Keyboard, seq<Dispatch>) {
    var anew := if k.running == 0 then |k.log.arrived| else k.log.anew;
    var k' := k.(running := k.running + 1, log := k.log.(admitted := k.log.admitted + [job], anew := anew));
    if k.running == 0 then (k'.(stop := false), [DoRun(job)]) else (k'.(pending := k.pending + [job]), [])
  }

  function Route(k: Keyboard, effects: seq<Dispatch>): (Keyboard, seq<Dispatch>)
    decreases |effects|
  {
    if effects == [] then (k, [])
    else
      var (k', first) := if effects[0].DoRun? then Admit(k, effects[0].job) else (k, [effects[0]]);
      var (last, rest) := Route(k', effects[1..]);
      (last, first + rest)
  }

  // ---------------------------------------------------------------------- inputs

  /** An input taken by what is open. */
  function Handle(k: Keyboard, s: Shared, input: Input): (Keyboard, seq<Dispatch>) {
    var (display, effects) := TakeInput(k.display, s.root, s.modes, input, k.readOnly);
    Route(k.(display := display, log := k.log.(handled := k.log.handled + [input])), effects)
  }

  /** What waits, taken in order unless a program runs. */
  function Release(k: Keyboard, s: Shared): (Keyboard, seq<Dispatch>)
    decreases |k.waiting|
  {
    if k.running > 0 || k.waiting == [] then (k, [])
    else
      var (k', first) := Handle(k.(waiting := k.waiting[1..]), s, k.waiting[0]);
      if |k'.waiting| < |k.waiting| then
        var (last, rest) := Release(k', s);
        (last, first + rest)
      else (k', first)
  }

  /** Esc after the prefix, the last key waiting. */
  predicate Stops(k: Keyboard, s: Shared, input: Input) {
    && input.KeyInput? && input.stroke.press == ESCAPE
    && k.waiting != [] && k.waiting[|k.waiting| - 1].KeyInput?
    && Leads(s.root, k.waiting[|k.waiting| - 1].stroke.press)
  }

  const STOPPING := DoSend(Notice(StoppingSaid, false))

  /** An input as it is logged when it comes. */
  function ArrivalOf(k: Keyboard, s: Shared, input: Input): Arrival {
    Arrival(input, k.running > 0 && Stops(k, s, input), k.running > 0, s.root, |k.log.handled|)
  }

  /** One input as it comes: it stops the program running, or waits its turn. */
  function Arrive(k: Keyboard, s: Shared, input: Input): (Keyboard, seq<Dispatch>) {
    var k' := k.(log := k.log.(arrived := k.log.arrived + [ArrivalOf(k, s, input)]));
    if k.running > 0 && Stops(k, s, input) then
      (k'.(waiting := k.waiting[..|k.waiting| - 1], stop := true), [STOPPING])
    else (k'.(waiting := k.waiting + [input]), [])
  }

  /** Inputs logged in turn, with what can be handled after each. */
  function Inputs(k: Keyboard, s: Shared, inputs: seq<Input>): (Keyboard, seq<Dispatch>)
    decreases |inputs|
  {
    if inputs == [] then (k, [])
    else
      var (k1, out1) := Arrive(k, s, inputs[0]);
      var (k2, out2) := Release(k1, s);
      var (k3, out3) := Inputs(k2, s, inputs[1..]);
      (k3, out1 + out2 + out3)
  }

  // ------------------------------------------------------------ frames and results

  /** What a read is answered: the keymap's record, with the keys held unless a screen takes them; or preferences. */
  function Answer(k: Keyboard, s: Shared, read: ClientRead): Data {
    match read
    case ReadKeys =>
      KeysRecord.KeysRecord(s.root, s.modes, match k.display.screen case KeysScreen(held) => held.Typed() case _ => [])
    case ReadPreferences => s.preferences
  }

  function TakeFrame(k: Keyboard, s: Shared, frame: Frame): (Keyboard, seq<Dispatch>) {
    match frame
    case KeysFrame(inputs) => Inputs(k, s, inputs)
    case EndedFrame(opening) => Release(k.(display := EndScreen(k.display, opening)), s)
    case OpenFrame(screen) =>
      var (k1, out1) := Admit(k, ScreenJob(screen));
      var (k2, out2) := Release(k1, s);
      (k2, out1 + out2)
    case ReadFrame(asked, read) =>
      var (k1, out1) := Release(k, s);
      (k1, [DoAnswer(asked, Answer(k, s, read))] + out1)
  }

  function Sends(acts: seq<Act>): seq<Dispatch> {
    seq(|acts|, i requires 0 <= i < |acts| => DoSend(acts[i]))
  }

  /** A job's screen shown, or to a watcher a notice. */
  function OpenFor(k: Keyboard, s: Shared, screen: Screen): (Keyboard, seq<Act>) {
    if k.readOnly then (k, [Notice(WatchingOpensNoneSaid, true)])
    else
      var (display, acts) := OpenScreen(k.display, screen, s.modes);
      (k.(display := display), acts)
  }

  /** What a job's end shows: its screen, and its notice, said with what it could not open if it could not. */
  function Showed(k: Keyboard, s: Shared, ran: Ran): (Keyboard, seq<Act>) {
    if ran.shows.Some? then
      var (k', acts) := OpenFor(k, s, ran.shows.value);
      if acts != [] && acts[0].Notice? && ran.notice.Some? then
        (k', [Notice(BothSaid(acts[0].said, ran.notice.value.0), acts[0].error || ran.notice.value.1)] + acts[1..])
      else (k', acts + NoticeOf(ran.notice))
    else if ran.rebound && !k.display.screen.KeysScreen? then
      // The keys its hints name changed: it closes, and says so.
      var (display, act) := CloseScreen(k.display);
      var notice := match ran.notice
        case Some((said, error)) => (BothSaid(said, ClosedSaid), error)
        case None => (ClosedSaid, false);
      (k.(display := display), (match act case None => [] case Some(a) => [a]) + NoticeOf(Some(notice)))
    else (k, NoticeOf(ran.notice))
  }

  function NoticeOf(notice: Option<(Said, bool)>): seq<Act> {
    match notice case None => [] case Some((said, error)) => [Notice(said, error)]
  }

  /** One update of the worker's. */
  function TakeUpdate(k: Keyboard, s: Shared, update: Update): (Keyboard, seq<Dispatch>) {
    match update
    case Presents(version) => (k.(receipt := true), [DoSend(Presentation(version)), DoFence])
    case Finished(ran) =>
      var (k', acts) := Showed(k.(running := if k.running == 0 then 0 else k.running - 1), s, ran);
      if k'.pending == [] then (k', Sends(acts))
      else (k'.(pending := k'.pending[1..]), Sends(acts) + [DoRun(k'.pending[0])])
  }

  /** The worker's updates taken one after another. */
  function TakeUpdates(k: Keyboard, s: Shared, updates: seq<Update>): (Keyboard, seq<Dispatch>)
    decreases |updates|
  {
    if updates == [] then (k, [])
    else
      var (k', first) := TakeUpdate(k, s, updates[0]);
      var (last, rest) := TakeUpdates(k', s, updates[1..]);
      (last, first + rest)
  }

  /** The worker's updates, then inputs held back. */
  function TakeRan(k: Keyboard, s: Shared, updates: seq<Update>): (Keyboard, seq<Dispatch>) {
    var (k1, out1) := TakeUpdates(k, s, updates);
    var (k2, out2) := Release(k1, s);
    (k2, out1 + out2)
  }

  // -------------------------------------------------------------- what it keeps

  /** How many jobs a run of dispatches starts, and fences it asks. */
  function Jobs(out: seq<Dispatch>): seq<Job> {
    if out == [] then [] else (if out[0].DoRun? then [out[0].job] else []) + Jobs(out[1..])
  }

  function Fences(out: seq<Dispatch>): nat {
    if out == [] then 0 else (if out[0].DoFence? then 1 else 0) + Fences(out[1..])
  }

  /** The presentations a run of dispatches sends. */
  function Presentations(out: seq<Dispatch>): seq<nat> {
    if out == [] then [] else PresentedBy(out[0]) + Presentations(out[1..])
  }

  function PresentedBy(d: Dispatch): seq<nat> {
    match d case DoSend(Presentation(version)) => [version] case _ => []
  }

  lemma {:induction false} PresentationsAppend(a: seq<Dispatch>, b: seq<Dispatch>)
    ensures Presentations(a + b) == Presentations(a) + Presentations(b)
  {
    if a == [] {
      assert a + b == b;
    } else {
      assert (a + b)[1..] == a[1..] + b;
      PresentationsAppend(a[1..], b);
      Joined(PresentedBy(a[0]), Presentations(a[1..]), Presentations(b));
    }
  }

  lemma {:induction false} PresentationsOne(d: Dispatch)
    ensures Presentations([d]) == PresentedBy(d)
  {
    assert [d][1..] == [];
  }

  lemma {:induction false} JobsAppend(a: seq<Dispatch>, b: seq<Dispatch>)
    ensures Jobs(a + b) == Jobs(a) + Jobs(b) && Fences(a + b) == Fences(a) + Fences(b)
  {
    if a == [] {
      assert a + b == b;
    } else {
      assert (a + b)[1..] == a[1..] + b;
      JobsAppend(a[1..], b);
      Joined(if a[0].DoRun? then [a[0].job] else [], Jobs(a[1..]), Jobs(b));
    }
  }

  lemma {:induction false} JobsOne(d: Dispatch)
    ensures Jobs([d]) == (if d.DoRun? then [d.job] else []) && Fences([d]) == if d.DoFence? then 1 else 0
  {
    assert [d][1..] == [];
  }

  lemma {:induction false} JobsOfSends(acts: seq<Act>)
    ensures Jobs(Sends(acts)) == [] && Fences(Sends(acts)) == 0
    ensures (forall a | a in acts :: !a.Presentation?) ==> Presentations(Sends(acts)) == []
  {
    if acts != [] {
      assert Sends(acts)[1..] == Sends(acts[1..]);
      JobsOfSends(acts[1..]);
    }
  }

  /** One job runs, or is on its way, for all that are pending; none, and none is pending. */
  ghost predicate Counts(k: Keyboard) {
    k.running == if k.running == 0 then |k.pending| else 1 + |k.pending|
  }

  /** What came, less what stops took: each Escape that stopped, and the input last left before it. */
  function Reduced(arrived: seq<Arrival>): seq<Input> {
    if arrived == [] then []
    else
      var before := Reduced(arrived[..|arrived| - 1]);
      var last := arrived[|arrived| - 1];
      if !last.stops then before + [last.input] else if before == [] then [] else before[..|before| - 1]
  }

  /** The last of what is left leads to a map of the root, and is past the `taken` handled. */
  ghost predicate PrefixWaits(left: seq<Input>, taken: nat, root: Map) {
    taken < |left| && left[|left| - 1].KeyInput? && Leads(root, left[|left| - 1].stroke.press)
  }

  /** An input stops exactly when a program runs, it is Escape, and the last that waits is a prefix. */
  ghost predicate Paired(arrived: seq<Arrival>) {
    forall i | 0 <= i < |arrived| ::
      arrived[i].stops <==>
        && arrived[i].running
        && arrived[i].input.KeyInput? && arrived[i].input.stroke.press == ESCAPE
        && PrefixWaits(Reduced(arrived[..i]), arrived[i].taken, arrived[i].root)
  }

  /** A stop stands exactly if an input stopped since a job was last admitted with none running. */
  ghost predicate StopIs(k: Keyboard) {
    && k.log.anew <= |k.log.arrived|
    && (k.stop <==> exists i | k.log.anew <= i < |k.log.arrived| :: k.log.arrived[i].stops)
  }

  /**
   * Inputs taken, then waiting, are those that came, in order, less the pairs that stopped; and what
   * stopped is what the stop is of.
   */
  ghost predicate InOrder(k: Keyboard) {
    k.log.handled + k.waiting == Reduced(k.log.arrived) && Paired(k.log.arrived) && StopIs(k)
  }

  /** Nothing came: the stop is as it was, but forgotten if jobs were admitted with none running. */
  ghost predicate StopGoes(k: Keyboard, k': Keyboard) {
    && k'.running >= k.running && k'.log.arrived == k.log.arrived
    && if k.running == 0 < k'.running then !k'.stop && k'.log.anew == |k.log.arrived|
       else k'.stop == k.stop && k'.log.anew == k.log.anew
  }

  /** A step that starts `Jobs(out)` of those admitted, all in the order admitted. */
  ghost predicate Admits(k: Keyboard, k': Keyboard, out: seq<Dispatch>) {
    exists more: seq<Job> ::
      && k'.log.admitted == k.log.admitted + more
      && Jobs(out) + k'.pending == k.pending + more
  }

  lemma {:induction false} AdmitsNone(k: Keyboard)
    ensures Admits(k, k, [])
  {
    assert k.log.admitted == k.log.admitted + [] && Jobs([]) + k.pending == k.pending + [];
  }

  /** Nothing more is admitted. */
  lemma {:induction false} AdmitsSame(k: Keyboard, k': Keyboard, out: seq<Dispatch>)
    requires k'.log.admitted == k.log.admitted && Jobs(out) + k'.pending == k.pending
    ensures Admits(k, k', out)
  {
    assert k'.log.admitted == k.log.admitted + [] && Jobs(out) + k'.pending == k.pending + [];
  }

  lemma {:induction false} StartedThen(a: seq<Job>, b: seq<Job>, p: seq<Job>, p': seq<Job>, p'': seq<Job>,
        more: seq<Job>, more': seq<Job>)
    requires a + p' == p + more && b + p'' == p' + more'
    ensures a + b + p'' == p + (more + more')
  {
    calc {
      a + b + p'';
      a + (b + p'');
      (a + p') + more';
      p + (more + more');
    }
  }

  lemma {:induction false} AdmitsThen(k: Keyboard, k': Keyboard, k'': Keyboard, a: seq<Dispatch>, b: seq<Dispatch>)
    requires Admits(k, k', a) && Admits(k', k'', b)
    ensures Admits(k, k'', a + b)
  {
    JobsAppend(a, b);
    var more: seq<Job> :| k'.log.admitted == k.log.admitted + more && Jobs(a) + k'.pending == k.pending + more;
    var more': seq<Job> :| k''.log.admitted == k'.log.admitted + more' && Jobs(b) + k''.pending == k'.pending + more';
    Joined(k.log.admitted, more, more');
    StartedThen(Jobs(a), Jobs(b), k.pending, k'.pending, k''.pending, more, more');
  }

  /** What every call but a job's end does: keeps the counts, starts a job only when none ran. */
  ghost predicate Steps(k: Keyboard, k': Keyboard, out: seq<Dispatch>) {
    && Counts(k')
    && Admits(k, k', out)
    && Fences(out) == 0 && Presentations(out) == []
    && |Jobs(out)| == (if k'.running > 0 then 1 else 0) - (if k.running > 0 then 1 else 0)
    && k'.readOnly == k.readOnly
    && k'.receipt == k.receipt
    && (k.running > 0 && k.stop ==> k'.stop)
  }

  lemma {:induction false} StepsNone(k: Keyboard)
    requires Counts(k)
    ensures Steps(k, k, [])
  {
    AdmitsNone(k);
  }

  lemma {:induction false} StepsThen(k: Keyboard, k': Keyboard, k'': Keyboard, a: seq<Dispatch>, b: seq<Dispatch>)
    requires Steps(k, k', a) && Steps(k', k'', b)
    ensures Steps(k, k'', a + b)
  {
    JobsAppend(a, b);
    PresentationsAppend(a, b);
    AdmitsThen(k, k', k'', a, b);
  }

  lemma {:induction false} AdmitSteps(k: Keyboard, job: Job)
    requires Counts(k)
    ensures Steps(k, Admit(k, job).0, Admit(k, job).1)
    ensures Admit(k, job).0.waiting == k.waiting && Admit(k, job).0.log.handled == k.log.handled
    ensures StopGoes(k, Admit(k, job).0)
  {
    var (k', out) := Admit(k, job);
    JobsOne(DoRun(job));
    assert k'.log.admitted == k.log.admitted + [job] && Jobs(out) + k'.pending == k.pending + [job];
  }

  lemma {:induction false} RouteSteps(k: Keyboard, effects: seq<Dispatch>)
    requires Counts(k) && Fences(effects) == 0 && Presentations(effects) == []
    ensures Steps(k, Route(k, effects).0, Route(k, effects).1)
    ensures var k' := Route(k, effects).0;
            k'.waiting == k.waiting && k'.log.handled == k.log.handled && StopGoes(k, k')
    decreases |effects|
  {
    if effects == [] {
      StepsNone(k);
    } else {
      var (k', first) := if effects[0].DoRun? then Admit(k, effects[0].job) else (k, [effects[0]]);
      if effects[0].DoRun? {
        AdmitSteps(k, effects[0].job);
      } else {
        JobsOne(effects[0]);
        PresentationsOne(effects[0]);
        SilentSteps(k, k, first);
      }
      RouteSteps(k', effects[1..]);
      StepsThen(k, k', Route(k', effects[1..]).0, first, Route(k', effects[1..]).1);
    }
  }

  /** No act of these is a presentation. */
  ghost predicate Unpresenting(effects: seq<Effect>) {
    forall i | 0 <= i < |effects| && effects[i].Send? :: !effects[i].act.Presentation?
  }

  lemma {:induction false} PressUnpresenting(held: Held, root: Map, modes: Modes, stroke: Keystroke, readOnly: bool)
    ensures Unpresenting(Press(held, root, modes, stroke, readOnly).1)
  {
  }

  lemma {:induction false} InputUnpresenting(screen: Screen, root: Map, modes: Modes, input: Input, readOnly: bool)
    ensures Unpresenting(InputIn(screen, root, modes, input, readOnly).1)
  {
    if screen.KeysScreen? && input.KeyInput? {
      PressUnpresenting(screen.held, root, modes, input.stroke, readOnly);
    }
  }

  lemma {:induction false} NoFencesOne(d: Showing, active: bool, effect: Effect)
    requires effect.Send? ==> !effect.act.Presentation?
    ensures var out := DispatchOne(d, active, effect).2; Fences(out) == 0 && Presentations(out) == []
  {
    var out := DispatchOne(d, active, effect).2;
    if out != [] {
      assert out == [out[0]];
      JobsOne(out[0]);
      PresentationsOne(out[0]);
    }
  }

  /** Nothing an input leads to asks for a fence, or presents. */
  lemma {:induction false} NoFences(d: Showing, active: bool, effects: seq<Effect>)
    requires Unpresenting(effects)
    ensures var out := DispatchAll(d, active, effects).1; Fences(out) == 0 && Presentations(out) == []
    decreases |effects|
  {
    if effects != [] {
      var (next, active', first) := DispatchOne(d, active, effects[0]);
      NoFencesOne(d, active, effects[0]);
      NoFences(next, active', effects[1..]);
      var rest := DispatchAll(next, active', effects[1..]).1;
      JobsAppend(first, rest);
      PresentationsAppend(first, rest);
    }
  }

  lemma {:induction false} HandleSteps(k: Keyboard, s: Shared, input: Input)
    requires Counts(k)
    ensures Steps(k, Handle(k, s, input).0, Handle(k, s, input).1)
    ensures var k' := Handle(k, s, input).0;
            k'.waiting == k.waiting && k'.log.handled == k.log.handled + [input] && StopGoes(k, k')
  {
    var (display, effects) := TakeInput(k.display, s.root, s.modes, input, k.readOnly);
    var (screen, led) := InputIn(k.display.screen, s.root, s.modes, input, k.readOnly);
    InputUnpresenting(k.display.screen, s.root, s.modes, input, k.readOnly);
    NoFences(k.display.(screen := screen), k.display.Shown(), led);
    RouteSteps(k.(display := display, log := k.log.(handled := k.log.handled + [input])), effects);
  }

  /** The first that waits, taken. */
  lemma {:induction false} HandleFirst(k: Keyboard, s: Shared)
    requires Counts(k) && InOrder(k) && k.waiting != []
    ensures var (k', out) := Handle(k.(waiting := k.waiting[1..]), s, k.waiting[0]);
            Steps(k, k', out) && InOrder(k') && k'.waiting == k.waiting[1..]
  {
    var taken := k.(waiting := k.waiting[1..]);
    HandleSteps(taken, s, k.waiting[0]);
    var (k', out) := Handle(taken, s, k.waiting[0]);
    assert k'.log.handled + k'.waiting == k.log.handled + k.waiting;
    assert Steps(k, k', out);
  }

  lemma {:induction false} ReleaseSteps(k: Keyboard, s: Shared)
    requires Counts(k) && InOrder(k)
    ensures Steps(k, Release(k, s).0, Release(k, s).1) && InOrder(Release(k, s).0)
    ensures Release(k, s).0.running == 0 ==> Release(k, s).0.waiting == []
    decreases |k.waiting|
  {
    if k.running > 0 || k.waiting == [] {
      StepsNone(k);
    } else {
      HandleFirst(k, s);
      var (k', first) := Handle(k.(waiting := k.waiting[1..]), s, k.waiting[0]);
      ReleaseSteps(k', s);
      StepsThen(k, k', Release(k', s).0, first, Release(k', s).1);
    }
  }

  lemma {:induction false} PairedNext(arrived: seq<Arrival>, next: Arrival)
    requires Paired(arrived)
    requires next.stops <==>
               && next.running && next.input.KeyInput? && next.input.stroke.press == ESCAPE
               && PrefixWaits(Reduced(arrived), next.taken, next.root)
    ensures Paired(arrived + [next])
  {
    var after := arrived + [next];
    assert after[..|arrived|] == arrived;
    assert forall i | 0 <= i < |arrived| :: after[i] == arrived[i] && after[..i] == arrived[..i];
  }

  lemma {:induction false} ReducedNext(arrived: seq<Arrival>, handled: seq<Input>, waiting: seq<Input>, next: Arrival)
    requires handled + waiting == Reduced(arrived) && (next.stops ==> waiting != [])
    ensures handled + (if next.stops then waiting[..|waiting| - 1] else waiting + [next.input]) ==
            Reduced(arrived + [next])
  {
    assert (arrived + [next])[..|arrived|] == arrived;
    if next.stops {
      assert handled + waiting[..|waiting| - 1] == (handled + waiting)[..|handled + waiting| - 1];
    } else {
      Joined(handled, waiting, [next.input]);
    }
  }

  lemma {:induction false} ArriveInOrder(k: Keyboard, s: Shared, input: Input)
    requires InOrder(k)
    ensures InOrder(Arrive(k, s, input).0)
  {
    var next := ArrivalOf(k, s, input);
    var left := Reduced(k.log.arrived);
    ReducedNext(k.log.arrived, k.log.handled, k.waiting, next);
    assert |k.log.handled| < |left| <==> k.waiting != [];
    assert k.waiting != [] ==> k.waiting[|k.waiting| - 1] == left[|left| - 1];
    PairedNext(k.log.arrived, next);
  }

  /** Nothing admitted, nothing started. */
  lemma {:induction false} SilentSteps(k: Keyboard, k': Keyboard, out: seq<Dispatch>)
    requires Counts(k) && Jobs(out) == [] && Fences(out) == 0 && Presentations(out) == []
    requires k'.running == k.running && k'.pending == k.pending && k'.log.admitted == k.log.admitted
    requires k'.readOnly == k.readOnly && k'.receipt == k.receipt && (k.stop ==> k'.stop)
    ensures Steps(k, k', out)
  {
    assert k'.log.admitted == k.log.admitted + [] && Jobs(out) + k'.pending == k.pending + [];
  }

  /** An input that stops sets the stop and says so, and no other does either. */
  lemma {:induction false} ArriveSteps(k: Keyboard, s: Shared, input: Input)
    requires Counts(k) && InOrder(k)
    ensures Steps(k, Arrive(k, s, input).0, Arrive(k, s, input).1) && InOrder(Arrive(k, s, input).0)
    ensures var (k', out) := Arrive(k, s, input);
            && k'.log.arrived == k.log.arrived + [ArrivalOf(k, s, input)]
            && k'.stop == (k.stop || k'.log.arrived[|k.log.arrived|].stops)
            && out == if k'.log.arrived[|k.log.arrived|].stops then [DoSend(Notice(StoppingSaid, false))] else []
  {
    ArriveInOrder(k, s, input);
    JobsOne(STOPPING);
    PresentationsOne(STOPPING);
    SilentSteps(k, Arrive(k, s, input).0, Arrive(k, s, input).1);
  }

  lemma {:induction false} InputsSteps(k: Keyboard, s: Shared, inputs: seq<Input>)
    requires Counts(k) && InOrder(k) && (k.running == 0 ==> k.waiting == [])
    ensures Steps(k, Inputs(k, s, inputs).0, Inputs(k, s, inputs).1) && InOrder(Inputs(k, s, inputs).0)
    ensures Inputs(k, s, inputs).0.running == 0 ==> Inputs(k, s, inputs).0.waiting == []
    decreases |inputs|
  {
    if inputs == [] {
      StepsNone(k);
    } else {
      var (k1, out1) := Arrive(k, s, inputs[0]);
      var (k2, out2) := Release(k1, s);
      var (k3, out3) := Inputs(k2, s, inputs[1..]);
      ArriveSteps(k, s, inputs[0]);
      ReleaseSteps(k1, s);
      InputsSteps(k2, s, inputs[1..]);
      StepsThen(k, k1, k2, out1, out2);
      StepsThen(k, k2, k3, out1 + out2, out3);
    }
  }

  /** A call of the transport's: it leaves nothing waiting while no program runs. */
  lemma {:induction false} TakeFrameSteps(k: Keyboard, s: Shared, frame: Frame)
    requires Counts(k) && InOrder(k) && (k.running == 0 ==> k.waiting == [])
    ensures Steps(k, TakeFrame(k, s, frame).0, TakeFrame(k, s, frame).1) && InOrder(TakeFrame(k, s, frame).0)
    ensures TakeFrame(k, s, frame).0.running == 0 ==> TakeFrame(k, s, frame).0.waiting == []
  {
    match frame
    case KeysFrame(inputs) => InputsSteps(k, s, inputs);
    case EndedFrame(opening) => ReleaseSteps(k.(display := EndScreen(k.display, opening)), s);
    case OpenFrame(screen) =>
      var (k1, out1) := Admit(k, ScreenJob(screen));
      AdmitSteps(k, ScreenJob(screen));
      ReleaseSteps(k1, s);
      StepsThen(k, k1, Release(k1, s).0, out1, Release(k1, s).1);
    case ReadFrame(_, _) =>
      var (k', out) := TakeFrame(k, s, frame);
      ReleaseSteps(k, s);
      JobsOne(out[0]);
      JobsAppend([out[0]], Release(k, s).1);
      PresentationsOne(out[0]);
      PresentationsAppend([out[0]], Release(k, s).1);
  }

  /** What a job's end shows changes the display alone. */
  lemma {:induction false} ShowedLeaves(k: Keyboard, s: Shared, ran: Ran)
    ensures Showed(k, s, ran).0 == k.(display := Showed(k, s, ran).0.display)
    ensures forall a | a in Showed(k, s, ran).1 :: !a.Presentation?
  {
  }

  /** A job's end starts the next, after what it showed and said. */
  lemma {:induction false} FinishedSteps(k: Keyboard, s: Shared, ran: Ran)
    requires Counts(k) && InOrder(k) && k.running > 0
    ensures var (k', out) := TakeUpdate(k, s, Finished(ran));
            && k' == k.(display := k'.display, running := k.running - 1,
                        pending := if k.pending == [] then [] else k.pending[1..])
            && Counts(k') && InOrder(k')
            && Jobs(out) == (if k.pending == [] then [] else [k.pending[0]])
            && (Jobs(out) != [] ==> out[|out| - 1].DoRun?)
            && Fences(out) == 0 && Presentations(out) == []
  {
    var (k1, acts) := Showed(k.(running := k.running - 1), s, ran);
    ShowedLeaves(k.(running := k.running - 1), s, ran);
    JobsOfSends(acts);
    if k.pending != [] {
      JobsAppend(Sends(acts), [DoRun(k.pending[0])]);
      JobsOne(DoRun(k.pending[0]));
      PresentationsAppend(Sends(acts), [DoRun(k.pending[0])]);
      PresentationsOne(DoRun(k.pending[0]));
    }
  }

  lemma {:induction false} PresentsSteps(k: Keyboard, s: Shared, version: nat)
    requires Counts(k) && InOrder(k)
    ensures var (k', out) := TakeUpdate(k, s, Presents(version)); Counts(k') && InOrder(k') && Admits(k, k', out)
  {
    var out := [DoSend(Presentation(version)), DoFence];
    assert out[1..] == [DoFence];
    JobsOne(DoFence);
    assert Jobs(out) == [];
    AdmitsSame(k, k.(receipt := true), out);
  }

  lemma {:induction false} EndSteps(k: Keyboard, s: Shared, ran: Ran)
    requires Counts(k) && InOrder(k) && k.running > 0
    ensures var (k', out) := TakeUpdate(k, s, Finished(ran)); Counts(k') && InOrder(k') && Admits(k, k', out)
  {
    FinishedSteps(k, s, ran);
    AdmitsSame(k, TakeUpdate(k, s, Finished(ran)).0, TakeUpdate(k, s, Finished(ran)).1);
  }

  /** A job's end, or an update no job is running for, admits nothing; neither takes an input. */
  lemma {:induction false} UpdateSteps(k: Keyboard, s: Shared, update: Update)
    requires Counts(k) && InOrder(k)
    ensures var (k', out) := TakeUpdate(k, s, update); Counts(k') && InOrder(k') && Admits(k, k', out)
  {
    match update
    case Presents(version) => PresentsSteps(k, s, version);
    case Finished(ran) =>
      if k.running > 0 {
        EndSteps(k, s, ran);
      } else {
        UnaskedSteps(k, s, ran);
      }
  }

  lemma {:induction false} UnaskedSteps(k: Keyboard, s: Shared, ran: Ran)
    requires Counts(k) && InOrder(k) && k.running == 0
    ensures var (k', out) := TakeUpdate(k, s, Finished(ran)); Counts(k') && InOrder(k') && Admits(k, k', out)
  {
    var (k', out) := TakeUpdate(k, s, Finished(ran));
    ShowedLeaves(k, s, ran);
    JobsOfSends(Showed(k, s, ran).1);
    AdmitsSame(k, k', out);
  }

  lemma {:induction false} UpdatesSteps(k: Keyboard, s: Shared, updates: seq<Update>)
    requires Counts(k) && InOrder(k)
    ensures var (k', out) := TakeUpdates(k, s, updates); Counts(k') && InOrder(k') && Admits(k, k', out)
    decreases |updates|
  {
    if updates == [] {
      AdmitsNone(k);
    } else {
      UpdateSteps(k, s, updates[0]);
      var (k', first) := TakeUpdate(k, s, updates[0]);
      UpdatesSteps(k', s, updates[1..]);
      AdmitsThen(k, k', TakeUpdates(k', s, updates[1..]).0, first, TakeUpdates(k', s, updates[1..]).1);
    }
  }

  /** What the worker told taken, then what waited: nothing is left waiting while no program runs. */
  lemma {:induction false} TakeRanSteps(k: Keyboard, s: Shared, updates: seq<Update>)
    requires Counts(k) && InOrder(k)
    ensures var (k', out) := TakeRan(k, s, updates);
            Counts(k') && InOrder(k') && Admits(k, k', out) && (k'.running == 0 ==> k'.waiting == [])
  {
    var (k1, out1) := TakeUpdates(k, s, updates);
    UpdatesSteps(k, s, updates);
    ReleaseSteps(k1, s);
    AdmitsThen(k, k1, Release(k1, s).0, out1, Release(k1, s).1);
  }

  // ------------------------------------------------------------------ whole runs

  /** A call of the transport's. */
  datatype Call = InputsCall(inputs: seq<Input>) | FrameCall(frame: Frame) | RanCall(updates: seq<Update>)

  function Called(k: Keyboard, s: Shared, call: Call): (Keyboard, seq<Dispatch>) {
    match call
    case InputsCall(inputs) => Inputs(k, s, inputs)
    case FrameCall(frame) => TakeFrame(k, s, frame)
    case RanCall(updates) => TakeRan(k, s, updates)
  }

  /** Calls in order, each under what is shared then. */
  function Calls(k: Keyboard, calls: seq<(Call, Shared)>): (Keyboard, seq<Dispatch>)
    decreases |calls|
  {
    if calls == [] then (k, [])
    else
      var (k', first) := Called(k, calls[0].1, calls[0].0);
      var (last, rest) := Calls(k', calls[1..]);
      (last, first + rest)
  }

  /** What holds between calls. */
  ghost predicate Rests(k: Keyboard) {
    Counts(k) && InOrder(k) && (k.running == 0 ==> k.waiting == [])
  }

  lemma {:induction false} CallsKeep(k: Keyboard, calls: seq<(Call, Shared)>)
    requires Rests(k)
    ensures Rests(Calls(k, calls).0) && Admits(k, Calls(k, calls).0, Calls(k, calls).1)
    decreases |calls|
  {
    if calls == [] {
      AdmitsNone(k);
    } else {
      var (call, s) := calls[0];
      match call {
        case InputsCall(inputs) => InputsSteps(k, s, inputs);
        case FrameCall(frame) => TakeFrameSteps(k, s, frame);
        case RanCall(updates) => TakeRanSteps(k, s, updates);
      }
      var (k', first) := Called(k, s, call);
      CallsKeep(k', calls[1..]);
      AdmitsThen(k, k', Calls(k', calls[1..]).0, first, Calls(k', calls[1..]).1);
    }
  }

  /**
   * After any calls: jobs were started in the order admitted, those left pending; what was handled and
   * what waits is what came, less prefixes and the Escapes that stopped with them; and nothing waits
   * while no program runs.
   */
  lemma {:induction false} EveryCallKeeps(readOnly: bool, calls: seq<(Call, Shared)>)
    ensures var (k, out) := Calls(NewKeyboard(readOnly), calls);
            && Rests(k)
            && Jobs(out) + k.pending == k.log.admitted
  {
    var k0 := NewKeyboard(readOnly);
    CallsKeep(k0, calls);
    var (k, out) := Calls(k0, calls);
    var more: seq<Job> :| k.log.admitted == k0.log.admitted + more && Jobs(out) + k.pending == k0.pending + more;
    assert [] + more == more;
  }
}
