/**
 * `attached` and the worker thread of src/client.rs as steps of one system: the loop gathers frames,
 * inputs and updates, sends, and starts jobs; the worker has a single job; a mailbox, a wake, a receipt
 * and a queue of jobs lie between. A run is any interleaving of the steps.
 */
module Attachment {
  import opened Keys
  import opened Acts
  import opened Screens
  import opened Keyboards

  /** A frame sent the server on the attachment's own connection. */
  datatype Wire = ResizeFrame(size: nat) | ActFrame(act: Act) | AnswerFrame(asked: nat, value: Data)

  /** A job on its way: where in all the client emitted its start is, and how much was taken up at it. */
  datatype Ticket = Ticket(job: Job, at: nat, upto: nat)

  /** Where the client's loop is. */
  datatype Phase = Gathering | Updating | Sending | Starting | Over

  /** How far the worker's job is: not begun, evaluating, or at its end, which may open a screen. */
  datatype Stage = Fresh | Evaluating | Settled(opens: bool)

  /** What a committed presentation has the worker do: tell it, poke the client, await its receipt. */
  datatype Hand = Free | Telling(version: nat) | Poking(version: nat) | Awaiting(version: nat)

  /**
   * The worker's job: whether it began, or came to its end, under a stop; whether it changed the
   * screens' keys; and how many steps of its own it has left.
   */
  datatype Worker =
    | Idle
    | Leaving
    | Busy(ticket: Ticket, stopped: bool, stage: Stage, hand: Hand, rebound: bool, left: nat)

  /** A request of a job's: the frames it comes after, and all presentations committed before it. */
  datatype Request = Request(ticket: Ticket, fence: nat, committed: seq<nat>)

  /** How a job ended, which of those the worker took it was, and whether it was under a stop. */
  datatype Outcome = Outcome(number: nat, stopped: bool, ran: Ran)

  /** What happened: presentations committed, requests made, jobs the worker took, and their ends, each in order. */
  datatype History = History(committed: seq<nat>, requests: seq<Request>, starts: seq<Job>, ends: seq<Outcome>)

  /** All the client ever emitted is `stream`, of which `next` were taken up to send. */
  datatype System = System(
    k: Keyboard,
    shared: Shared,
    stream: seq<Dispatch>,
    next: nat,
    runs: seq<Ticket>,
    wire: seq<Wire>,
    frames: nat,
    phase: Phase,
    jobs: seq<(Ticket, nat)>,
    told: seq<Update>,
    wake: bool,
    reply: Option<nat>,
    worker: Worker,
    after: nat,
    history: History)
  {
    /** What was emitted and is not yet taken up. */
    function Acts(): seq<Dispatch> {
      if next <= |stream| then stream[next..] else []
    }

    predicate Released() { k.running == 0 ==> k.waiting == [] }
  }

  /** The most frames the count of them can say. */
  const LAST_FRAME: nat := 0xffff_ffff_ffff_ffff

  /** How many updates the worker's mailbox holds. */
  const MAILBOX := 1

  /** A client just welcomed, with notices to pass on. */
  function Welcomed(readOnly: bool, shared: Shared, notices: seq<(Said, bool)>): System {
    System(NewKeyboard(readOnly), shared,
           seq(|notices|, i requires 0 <= i < |notices| => DoSend(Notice(notices[i].0, notices[i].1))),
           0, [], [], 0, Gathering, [], [], false, None, Idle, 0, History([], [], [], []))
  }

  // ---------------------------------------------------------------------- steps

  datatype Step =
    // The client's loop.
    | TakesFrame(frame: Frame)
    | TakesInput(input: Input)
    | ReleasesOne
    | Wakes
    | TakesUpdate
    | UpdatesDone
    | BeginsSending(resize: Option<nat>)
    | SendsOne
    | SendingDone
    | StartsOne
    | StartingDone
    | Ends
    // The worker.
    | Takes(left: nat)
    | Checks
    | Asks
    | Commits(committed: Shared, version: Option<nat>)
    | Tells
    | Pokes
    | Receives
    | Settles(ok: bool)
    | Finishes(ran: Ran)
    | Leaves
  {
    /** Not of the world outside: a frame, a key, a new size, an end. */
    predicate Internal() {
      !TakesFrame? && !TakesInput? && !Ends? && (BeginsSending? ==> resize.None?)
    }
  }

  predicate Working(s: System) { s.worker.Busy? && s.worker.hand.Free? }

  /** What the client takes, it takes between one thing and the next: nothing is left to release. */
  predicate Enabled(s: System, step: Step) {
    && s.phase != Over
    && s.next <= |s.stream|
    && match step
       case TakesFrame(frame) => s.phase == Gathering && s.Released() && !frame.KeysFrame?
       case TakesInput(input) => s.phase == Gathering && s.Released()
       case ReleasesOne => s.phase == Gathering && !s.Released()
       case Wakes => s.phase == Gathering && s.Released() && s.wake
       case TakesUpdate => s.phase == Updating && s.told != []
       case UpdatesDone => s.phase == Updating && s.told == []
       case BeginsSending(resize) => s.phase == Gathering && s.Released() && (resize.Some? || s.Acts() != [])
       case SendsOne => s.phase == Sending && s.next < |s.stream|
       case SendingDone => s.phase == Sending && s.next == |s.stream|
       case StartsOne => s.phase == Starting && s.runs != []
       case StartingDone => s.phase == Starting && s.runs == []
       case Ends => true
       case Takes(_) => s.worker.Idle? && s.jobs != []
       case Checks => Working(s) && s.worker.stage.Fresh?
       case Asks => Working(s) && !s.worker.stage.Fresh? && s.worker.left > 0
       case Commits(_, _) => Working(s) && s.worker.left > 0
         && (s.worker.stage.Evaluating? || s.worker.stage == Settled(true))
       case Tells => s.worker.Busy? && s.worker.hand.Telling? && |s.told| < MAILBOX
       case Pokes => s.worker.Busy? && s.worker.hand.Poking?
       case Receives => s.worker.Busy? && s.worker.hand.Awaiting? && s.reply.Some?
       case Settles(_) => Working(s) && s.worker.stage.Evaluating?
       case Finishes(ran) =>
         && Working(s) && s.worker.stage.Settled? && |s.told| < MAILBOX
         && (ran.shows.Some? ==> s.worker.stage.opens) && ran.rebound == s.worker.rebound
       case Leaves => s.worker.Leaving?
  }

  function Emit(s: System, after: (Keyboard, seq<Dispatch>)): System {
    s.(k := after.0, stream := s.stream + after.1)
  }

  /** A server's frame as one step. Keys it sends are steps of their own, `TakesInput`. */
  function OnFrame(s: System, frame: Frame): System {
    match frame
    case KeysFrame(_) => s
    case EndedFrame(opening) => s.(k := s.k.(display := EndScreen(s.k.display, opening)))
    case OpenFrame(screen) => Emit(s, Admit(s.k, ScreenJob(screen)))
    case ReadFrame(asked, read) => Emit(s, (s.k, [DoAnswer(asked, Answer(s.k, s.shared, read))]))
  }

  /** A frame sent, then counted: past the last count, the attachment ends. */
  function SendFrame(s: System, frame: Wire): System {
    if s.frames >= LAST_FRAME then s.(wire := s.wire + [frame], phase := Over)
    else s.(wire := s.wire + [frame], frames := s.frames + 1)
  }

  /** The next of what was emitted: sent, set aside to start, or acknowledged. */
  function OnDispatch(s: System): System
    requires s.next < |s.stream|
  {
    var taken := s.(next := s.next + 1);
    match s.stream[s.next]
    case DoSend(act) => SendFrame(taken, ActFrame(act))
    case DoAnswer(asked, value) => SendFrame(taken, AnswerFrame(asked, value))
    case DoRun(job) => taken.(runs := s.runs + [Ticket(job, s.next, s.next)])
    case DoFence => if s.k.receipt then taken.(k := s.k.(receipt := false), reply := Some(s.frames)) else taken
  }

  function OnInput(s: System, input: Input): System { Emit(s, Arrive(s.k, s.shared, input)) }

  function OnRelease(s: System): System
    requires s.k.waiting != []
  {
    Emit(s, Handle(s.k.(waiting := s.k.waiting[1..]), s.shared, s.k.waiting[0]))
  }

  function OnUpdate(s: System): System
    requires s.told != []
  {
    Emit(s.(told := s.told[1..]), Keyboards.TakeUpdate(s.k, s.shared, s.told[0]))
  }

  /** A job is sent to the worker with the count of frames, after all that was taken up. */
  function OnStart(s: System): System
    requires s.runs != []
  {
    s.(runs := s.runs[1..], jobs := s.jobs + [(s.runs[0].(upto := s.next), s.frames)])
  }

  function OnClient(s: System, step: Step): System
    requires Enabled(s, step)
  {
    match step
    case TakesFrame(frame) => OnFrame(s, frame)
    case TakesInput(input) => OnInput(s, input)
    case ReleasesOne => OnRelease(s)
    case Wakes => s.(phase := Updating, wake := false)
    case TakesUpdate => OnUpdate(s)
    case UpdatesDone => s.(phase := Gathering)
    case BeginsSending(None) => s.(phase := Sending)
    case BeginsSending(Some(size)) => SendFrame(s.(phase := Sending), ResizeFrame(size))
    case SendsOne => OnDispatch(s)
    case SendingDone => s.(phase := Starting)
    case StartsOne => OnStart(s)
    case StartingDone => s.(phase := Gathering)
    case _ => s.(phase := Over)
  }

  /** The worker takes a job: what it asks comes after the frames counted at its start. */
  function OnTake(s: System, left: nat): System
    requires s.jobs != []
  {
    s.(jobs := s.jobs[1..], after := s.jobs[0].1,
       worker := Busy(s.jobs[0].0, s.k.stop, Fresh, Free, false, left),
       history := s.history.(starts := s.history.starts + [s.jobs[0].0.job]))
  }

  function OnAsk(s: System): System
    requires s.worker.Busy? && s.worker.left > 0
  {
    s.(worker := s.worker.(left := s.worker.left - 1),
       history := s.history.(requests := s.history.requests + [Request(s.worker.ticket, s.after, s.history.committed)]))
  }

  /** What a program commits is shared at once; what it presents is then in its hand until receipted. */
  function OnCommit(s: System, committed: Shared, version: Option<nat>): System
    requires s.worker.Busy? && s.worker.left > 0
  {
    s.(shared := committed,
       worker := s.worker.(left := s.worker.left - 1, rebound := s.worker.rebound || s.shared.modes != committed.modes,
                           hand := match version case None => Free case Some(v) => Telling(v)),
       history := s.history.(
         committed := s.history.committed + match version case None => [] case Some(v) => [v]))
  }

  /** The worker looks whether it is stopped, and goes on to `stage`. */
  function Concludes(s: System, stage: Stage): System
    requires s.worker.Busy?
  {
    s.(worker := s.worker.(stopped := s.worker.stopped || s.k.stop, stage := stage))
  }

  function OnReceive(s: System): System
    requires s.worker.Busy? && s.worker.hand.Awaiting? && s.reply.Some?
  {
    s.(after := s.reply.value, reply := None,
       worker := s.worker.(hand := Free))
  }

  function OnFinish(s: System, ran: Ran): System
    requires s.worker.Busy?
  {
    s.(told := s.told + [Finished(ran)], worker := Leaving,
       history := s.history.(ends := s.history.ends + [Outcome(|s.history.starts|, s.worker.stopped, ran)]))
  }

  function OnWorker(s: System, step: Step): System
    requires Enabled(s, step)
  {
    match step
    case Takes(left) => OnTake(s, left)
    case Checks => Concludes(s, if s.k.stop then Settled(false) else Evaluating)
    case Asks => OnAsk(s)
    case Commits(committed, version) => OnCommit(s, committed, version)
    case Tells =>
      var version := s.worker.hand.version;
      s.(told := s.told + [Presents(version)], worker := s.worker.(hand := Poking(version)))
    case Pokes => s.(wake := true, worker := s.worker.(hand := Awaiting(s.worker.hand.version)))
    case Receives => OnReceive(s)
    case Settles(ok) => Concludes(s, Settled(ok && !s.k.stop))
    case Finishes(ran) => OnFinish(s, ran)
    case Leaves => s.(wake := true, worker := Idle)
    case _ => s
  }

  predicate OfWorker(step: Step) {
    step.Takes? || step.Checks? || step.Asks? || step.Commits? || step.Tells? || step.Pokes? || step.Receives?
    || step.Settles? || step.Finishes? || step.Leaves?
  }

  function After(s: System, step: Step): System
    requires Enabled(s, step)
  {
    if OfWorker(step) then OnWorker(s, step) else OnClient(s, step)
  }

  /** A run: each step enabled where it is taken. */
  predicate CanRun(s: System, steps: seq<Step>)
    decreases |steps|
  {
    steps != [] ==> Enabled(s, steps[0]) && CanRun(After(s, steps[0]), steps[1..])
  }

  function RunOf(s: System, steps: seq<Step>): System
    requires CanRun(s, steps)
    decreases |steps|
  {
    if steps == [] then s else RunOf(After(s, steps[0]), steps[1..])
  }

  // ----------------------------------------------------- what was sent, and of what

  /** What the client emits as it takes a presentation: it, then the fence it is receipted at. */
  function Presenting(version: nat): seq<Dispatch> { [DoSend(Presentation(version)), DoFence] }

  function FrameOf(d: Dispatch): seq<Wire> {
    match d
    case DoSend(act) => [ActFrame(act)]
    case DoAnswer(asked, value) => [AnswerFrame(asked, value)]
    case _ => []
  }

  /** The frames what was emitted comes to. */
  function Sent(out: seq<Dispatch>): seq<Wire> {
    if out == [] then [] else Sent(out[..|out| - 1]) + FrameOf(out[|out| - 1])
  }

  /** The frames sent, but for sizes, which the loop sends of itself. */
  function Framed(wire: seq<Wire>): seq<Wire> {
    if wire == [] then []
    else Framed(wire[..|wire| - 1]) + if wire[|wire| - 1].ResizeFrame? then [] else [wire[|wire| - 1]]
  }

  lemma {:induction false} SentNext(stream: seq<Dispatch>, next: nat)
    requires next < |stream|
    ensures Sent(stream[..next + 1]) == Sent(stream[..next]) + FrameOf(stream[next])
  {
    assert stream[..next + 1][..next] == stream[..next];
  }

  lemma {:induction false} FramedSnoc(wire: seq<Wire>, frame: Wire)
    ensures Framed(wire + [frame]) == Framed(wire) + if frame.ResizeFrame? then [] else [frame]
  {
    assert (wire + [frame])[..|wire|] == wire;
  }

  /** The presentations frames carry. */
  function Carried(wire: seq<Wire>): seq<nat> {
    if wire == [] then [] else Carried(wire[..|wire| - 1]) + CarriedBy(wire[|wire| - 1])
  }

  function CarriedBy(frame: Wire): seq<nat> {
    match frame case ActFrame(Presentation(version)) => [version] case _ => []
  }

  lemma {:induction false} PresentationsLast(out: seq<Dispatch>)
    requires out != []
    ensures Presentations(out) == Presentations(out[..|out| - 1]) + PresentedBy(out[|out| - 1])
  {
    var n := |out| - 1;
    assert out == out[..n] + [out[n]];
    PresentationsAppend(out[..n], [out[n]]);
    PresentationsOne(out[n]);
  }

  lemma {:induction false} CarriedMore(wire: seq<Wire>, d: Dispatch)
    ensures Carried(wire + FrameOf(d)) == Carried(wire) + PresentedBy(d)
  {
    if FrameOf(d) == [] {
      assert wire + [] == wire;
    } else {
      CarriedNext(wire, FrameOf(d)[0]);
    }
  }

  lemma {:induction false} CarriedSent(out: seq<Dispatch>)
    ensures Carried(Sent(out)) == Presentations(out)
  {
    if out != [] {
      CarriedSent(out[..|out| - 1]);
      PresentationsLast(out);
      CarriedMore(Sent(out[..|out| - 1]), out[|out| - 1]);
    }
  }

  lemma {:induction false} CarriedNext(wire: seq<Wire>, frame: Wire)
    ensures Carried(wire + [frame]) == Carried(wire) + CarriedBy(frame)
  {
    assert (wire + [frame])[..|wire|] == wire;
  }

  lemma {:induction false} CarriedFramed(wire: seq<Wire>)
    ensures Carried(Framed(wire)) == Carried(wire)
  {
    if wire != [] {
      var n := |wire| - 1;
      CarriedFramed(wire[..n]);
      if wire[n].ResizeFrame? {
        assert Framed(wire) == Framed(wire[..n]);
      } else {
        CarriedNext(Framed(wire[..n]), wire[n]);
      }
    }
  }

  /** `fence` frames cover all taken up when the job was started, its start among it. */
  ghost predicate Covers(s: System, ticket: Ticket, fence: nat) {
    && ticket.at < ticket.upto <= s.next <= |s.stream| && s.stream[ticket.at] == DoRun(ticket.job)
    && fence <= |s.wire|
    && Sent(s.stream[..ticket.upto]) <= Framed(s.wire[..fence])
  }

  /** `fence` frames carry these presentations, in order, and no others. */
  ghost predicate Presented(s: System, presented: seq<nat>, fence: nat) {
    fence <= |s.wire| && Carried(s.wire[..fence]) == presented
  }

  /** Whether the worker's hand is not free: what it committed last is not receipted. */
  predicate InHand(s: System) { s.worker.Busy? && !s.worker.hand.Free? }

  /** The presentations committed, but for one not yet receipted. */
  function Receipted(s: System): seq<nat> {
    var all := s.history.committed;
    if InHand(s) && all != [] then all[..|all| - 1] else all
  }

  // ------------------------------------------------------------------ invariants

  /** The frames sent are those emitted and taken up, in order. */
  ghost predicate Wired(s: System) {
    s.next <= |s.stream| && s.frames == |s.wire| <= LAST_FRAME && Framed(s.wire) == Sent(s.stream[..s.next])
  }

  function JobsOf(tickets: seq<Ticket>): seq<Job> {
    seq(|tickets|, i requires 0 <= i < |tickets| => tickets[i].job)
  }

  function Queued(jobs: seq<(Ticket, nat)>): seq<Job> {
    seq(|jobs|, i requires 0 <= i < |jobs| => jobs[i].0.job)
  }

  /** The jobs between their start and the client's hearing of their end. */
  function InFlight(s: System): nat {
    |Jobs(s.Acts())| + |s.runs| + |s.jobs| + (if s.worker.Busy? then 1 else 0)
    + if s.told != [] && s.told[0].Finished? then 1 else 0
  }

  /**
   * Nothing runs and nothing is pending or in flight; or one job is in flight, and all others are
   * pending. Starts follow admissions.
   */
  ghost predicate Scheduled(s: System) {
    && s.next <= |s.stream|
    && Counts(s.k) && InOrder(s.k)
    && InFlight(s) == (if s.k.running > 0 then 1 else 0)
    && s.history.starts + Queued(s.jobs) + JobsOf(s.runs) + Jobs(s.Acts()) + s.k.pending == s.k.log.admitted
  }

  /** Nothing waits while nothing runs, but within a call; nothing is set aside but to be started. */
  ghost predicate Phased(s: System) {
    && (s.phase == Sending || s.phase == Starting ==> s.Released())
    && (s.phase == Gathering || s.phase == Updating ==> s.runs == [])
    && (s.phase == Starting ==> s.next == |s.stream|)
  }

  /** A presentation committed is not emitted yet: the client has not taken it. */
  predicate Unemitted(s: System) {
    (s.worker.Busy? && s.worker.hand.Telling?) || (s.told != [] && s.told[0].Presents?)
  }

  /** What was emitted presents what was committed, in order, but for one the client has not taken. */
  ghost predicate Shown(s: System) {
    && (InHand(s) ==> s.history.committed != []
                      && s.history.committed[|s.history.committed| - 1] == s.worker.hand.version)
    && Presentations(s.stream) == (if Unemitted(s) then Receipted(s) else s.history.committed)
  }

  /** Nothing is presented past a fence yet to come. */
  ghost predicate FenceLast(s: System) {
    forall i | s.next <= i < |s.stream| && s.stream[i] == DoFence :: Presentations(s.stream[i..]) == []
  }

  /** The presentation the worker awaits a receipt of is in one place alone; else there is none. */
  ghost predicate Handshake(s: System) {
    && s.next <= |s.stream|
    && if s.worker.Busy? && (s.worker.hand.Poking? || s.worker.hand.Awaiting?) then
         var v := s.worker.hand.version;
         || (s.told == [Presents(v)] && !s.k.receipt && Fences(s.Acts()) == 0 && s.reply == None)
         || (s.told == [] && s.k.receipt && Fences(s.Acts()) == 1 && FenceLast(s) && s.reply == None)
         || (s.told == [] && !s.k.receipt && Fences(s.Acts()) == 0 && s.reply.Some?
             && s.after <= s.reply.value && Presented(s, s.history.committed, s.reply.value))
       else
         && !s.k.receipt && Fences(s.Acts()) == 0 && s.reply == None
         && (s.told == [] || (!s.worker.Busy? && |s.told| == 1 && s.told[0].Finished?))
  }

  /** What is fenced covers what it must; fences only grow. */
  ghost predicate Fenced(s: System) {
    && s.after <= |s.wire|
    && (forall t | t in s.runs :: t.at < s.next <= |s.stream| && s.stream[t.at] == DoRun(t.job))
    && (forall j | j in s.jobs :: s.after <= j.1 && Covers(s, j.0, j.1) && Presented(s, Receipted(s), j.1))
    && (s.worker.Busy? ==> Covers(s, s.worker.ticket, s.after) && Presented(s, Receipted(s), s.after))
  }

  /** Every request made covers what it must, and none comes after fewer frames than one before it. */
  ghost predicate Requested(s: System) {
    && (forall r | r in s.history.requests ::
          Covers(s, r.ticket, r.fence) && Presented(s, r.committed, r.fence) && r.fence <= s.after)
    && (forall i, j | 0 <= i < j < |s.history.requests| :: s.history.requests[i].fence <= s.history.requests[j].fence)
  }

  /** A job that began, or came to its end, under a stop opens no screen. */
  ghost predicate StopHolds(s: System) {
    && (s.worker.Busy? && s.worker.stopped ==>
       s.k.stop && (s.worker.stage == Fresh || s.worker.stage == Settled(false)))
    && (forall e | e in s.history.ends :: e.stopped ==> e.ran.shows.None?)
  }

  /** An update told of is being taken, or the client is woken for it, or about to be. */
  ghost predicate Heard(s: System) {
    s.told != [] && s.phase != Updating ==>
      s.wake || s.worker.Leaving? || (s.worker.Busy? && s.worker.hand.Poking?)
  }

  /** What every run keeps, while the attachment lasts. */
  ghost predicate Steady(s: System) {
    && Wired(s) && Scheduled(s) && Phased(s) && Shown(s) && Handshake(s)
    && Fenced(s) && Requested(s) && StopHolds(s) && Heard(s)
  }

  ghost predicate Kept(s: System) {
    Requested(s) && (s.phase != Over ==> Steady(s))
  }

  /** The handshake after a step of the worker's, with what it told or is to be told of. */
  ghost predicate Shakes(s: System) {
    s.next <= |s.stream| && Shown(s) && Handshake(s) && StopHolds(s) && Heard(s)
  }

  // ------------------------------------------------------------- what steps keep

  /** More was emitted, taken up and sent. */
  ghost predicate Later(s: System, s': System) {
    s.stream <= s'.stream && s.wire <= s'.wire && s.next <= s'.next <= |s'.stream|
  }

  lemma {:induction false} CoversLater(s: System, s': System, ticket: Ticket, fence: nat)
    requires Later(s, s') && Covers(s, ticket, fence)
    ensures Covers(s', ticket, fence)
  {
    assert s'.stream[..ticket.upto] == s.stream[..ticket.upto];
    assert s'.wire[..fence] == s.wire[..fence];
  }

  lemma {:induction false} PresentedLater(s: System, s': System, presented: seq<nat>, fence: nat)
    requires Later(s, s') && Presented(s, presented, fence)
    ensures Presented(s', presented, fence)
  {
    assert s'.wire[..fence] == s.wire[..fence];
  }

  lemma {:induction false} RequestedLater(s: System, s': System)
    requires Later(s, s') && Requested(s) && s'.history.requests == s.history.requests && s.after <= s'.after
    ensures Requested(s')
  {
    forall r | r in s'.history.requests
      ensures Covers(s', r.ticket, r.fence) && Presented(s', r.committed, r.fence)
    {
      CoversLater(s, s', r.ticket, r.fence);
      PresentedLater(s, s', r.committed, r.fence);
    }
  }

  /** Steps that leave the worker's job, its queue and what is receipted keep what their fences cover. */
  lemma {:induction false} FencedLater(s: System, s': System)
    requires Later(s, s') && Fenced(s) && s'.jobs == s.jobs && s'.after == s.after && s'.runs == s.runs
    requires s'.worker.Busy? ==> s.worker.Busy? && s'.worker.ticket == s.worker.ticket
    requires Receipted(s') == Receipted(s)
    ensures Fenced(s')
  {
    forall j | j in s'.jobs ensures Covers(s', j.0, j.1) && Presented(s', Receipted(s'), j.1) {
      CoversLater(s, s', j.0, j.1);
      PresentedLater(s, s', Receipted(s), j.1);
    }
    if s'.worker.Busy? {
      CoversLater(s, s', s.worker.ticket, s.after);
      PresentedLater(s, s', Receipted(s), s.after);
    }
  }

  lemma {:induction false} NoFenceIn(out: seq<Dispatch>)
    requires Fences(out) == 0
    ensures forall i | 0 <= i < |out| :: out[i] != DoFence
  {
    if out != [] {
      NoFenceIn(out[1..]);
    }
  }

  lemma {:induction false} ActsEmitted(s: System, after: (Keyboard, seq<Dispatch>))
    requires s.next <= |s.stream|
    ensures Emit(s, after).Acts() == s.Acts() + after.1
    ensures Jobs(Emit(s, after).Acts()) == Jobs(s.Acts()) + Jobs(after.1)
    ensures Fences(Emit(s, after).Acts()) == Fences(s.Acts()) + Fences(after.1)
  {
    assert Emit(s, after).Acts() == s.Acts() + after.1;
    JobsAppend(s.Acts(), after.1);
  }

  lemma {:induction false} PresentationsPast(stream: seq<Dispatch>, out: seq<Dispatch>, i: nat)
    requires i <= |stream|
    ensures Presentations((stream + out)[i..]) == Presentations(stream[i..]) + Presentations(out)
  {
    assert (stream + out)[i..] == stream[i..] + out;
    PresentationsAppend(stream[i..], out);
  }

  lemma {:induction false} FenceStillLast(s: System, after: (Keyboard, seq<Dispatch>))
    requires s.next <= |s.stream| && FenceLast(s) && Fences(after.1) == 0 && Presentations(after.1) == []
    ensures FenceLast(Emit(s, after))
  {
    var stream := s.stream + after.1;
    NoFenceIn(after.1);
    assert forall i | |s.stream| <= i < |stream| :: stream[i] == after.1[i - |s.stream|];
    forall i | s.next <= i < |s.stream| && s.stream[i] == DoFence
      ensures Presentations(stream[i..]) == []
    {
      PresentationsPast(s.stream, after.1, i);
    }
  }

  lemma {:induction false} WiredEmitted(s: System, after: (Keyboard, seq<Dispatch>))
    requires Wired(s)
    ensures Wired(Emit(s, after)) && Later(s, Emit(s, after))
  {
    assert Emit(s, after).stream[..s.next] == s.stream[..s.next];
  }

  lemma {:induction false} ScheduleShift(a: seq<Job>, b: seq<Job>, c: seq<Job>, d: seq<Job>, e: seq<Job>, x: seq<Job>,
        e': seq<Job>, more: seq<Job>)
    requires x + e' == e + more
    ensures a + b + c + (d + x) + e' == a + b + c + d + e + more
  {
    assert a + b + c + (d + x) + e' == a + b + c + d + (x + e');
  }

  /** Whatever is emitted, jobs start in the order admitted. */
  lemma {:induction false} OrderEmitted(s: System, s': System, out: seq<Dispatch>)
    requires Scheduled(s) && Admits(s.k, s'.k, out) && s'.stream == s.stream + out && s'.next == s.next
    requires s'.jobs == s.jobs && s'.runs == s.runs && s'.history.starts == s.history.starts
    ensures Jobs(s'.Acts()) == Jobs(s.Acts()) + Jobs(out)
    ensures s'.history.starts + Queued(s'.jobs) + JobsOf(s'.runs) + Jobs(s'.Acts()) + s'.k.pending == s'.k.log.admitted
  {
    assert s'.Acts() == s.Acts() + out;
    JobsAppend(s.Acts(), out);
    var more: seq<Job> :| s'.k.log.admitted == s.k.log.admitted + more
      && Jobs(out) + s'.k.pending == s.k.pending + more;
    ScheduleShift(s.history.starts, Queued(s.jobs), JobsOf(s.runs), Jobs(s.Acts()), s.k.pending, Jobs(out),
      s'.k.pending, more);
  }

  lemma {:induction false} ScheduledEmitted(s: System, after: (Keyboard, seq<Dispatch>))
    requires Scheduled(s) && Steps(s.k, after.0, after.1) && InOrder(after.0)
    ensures Scheduled(Emit(s, after))
  {
    OrderEmitted(s, Emit(s, after), after.1);
  }

  lemma {:induction false} HandshakeEmitted(s: System, after: (Keyboard, seq<Dispatch>))
    requires Handshake(s) && Wired(s) && Fences(after.1) == 0 && after.0.receipt == s.k.receipt
    requires Presentations(after.1) == []
    ensures Handshake(Emit(s, after))
  {
    ActsEmitted(s, after);
    WiredEmitted(s, after);
    if FenceLast(s) {
      FenceStillLast(s, after);
    }
    if s.reply.Some? && Presented(s, s.history.committed, s.reply.value) {
      PresentedLater(s, Emit(s, after), s.history.committed, s.reply.value);
    }
  }

  lemma {:induction false} ShownEmitted(s: System, after: (Keyboard, seq<Dispatch>))
    requires Shown(s) && Presentations(after.1) == []
    ensures Shown(Emit(s, after))
  {
    PresentationsAppend(s.stream, after.1);
  }

  /** A frame, an input, or one released, whose call keeps the counts. */
  lemma {:induction false} EmitKeeps(s: System, after: (Keyboard, seq<Dispatch>))
    requires Steady(s) && s.phase == Gathering && Steps(s.k, after.0, after.1) && InOrder(after.0)
    ensures Steady(Emit(s, after))
  {
    WiredEmitted(s, after);
    ScheduledEmitted(s, after);
    HandshakeEmitted(s, after);
    ShownEmitted(s, after);
    FencedLater(s, Emit(s, after));
    RequestedLater(s, Emit(s, after));
  }

  lemma {:induction false} TakesFrameKeeps(s: System, frame: Frame)
    requires Steady(s) && Enabled(s, TakesFrame(frame))
    ensures Steady(OnFrame(s, frame))
  {
    match frame
    case EndedFrame(opening) =>
      var k' := s.k.(display := EndScreen(s.k.display, opening));
      SilentSteps(s.k, k', []);
      EmitKeeps(s, (k', []));
      assert s.stream + [] == s.stream;
    case OpenFrame(screen) =>
      AdmitSteps(s.k, ScreenJob(screen));
      EmitKeeps(s, Admit(s.k, ScreenJob(screen)));
    case ReadFrame(asked, read) =>
      var answer := DoAnswer(asked, Answer(s.k, s.shared, read));
      JobsOne(answer);
      PresentationsOne(answer);
      SilentSteps(s.k, s.k, [answer]);
      EmitKeeps(s, (s.k, [answer]));
  }

  lemma {:induction false} TakesInputKeeps(s: System, input: Input)
    requires Steady(s) && s.phase == Gathering && s.Released()
    ensures Steady(OnInput(s, input))
  {
    ArriveSteps(s.k, s.shared, input);
    EmitKeeps(s, Arrive(s.k, s.shared, input));
  }

  lemma {:induction false} ReleasesOneKeeps(s: System)
    requires Steady(s) && s.phase == Gathering && !s.Released()
    ensures Steady(OnRelease(s))
  {
    HandleFirst(s.k, s.shared);
    EmitKeeps(s, Handle(s.k.(waiting := s.k.waiting[1..]), s.shared, s.k.waiting[0]));
  }

  /** The loop turns from one thing to the next. */
  lemma {:induction false} PhaseKeeps(s: System, s': System)
    requires Steady(s) && s' == s.(phase := s'.phase, wake := s'.wake)
    requires Phased(s') && Heard(s')
    ensures Steady(s')
  {
    FencedLater(s, s');
    RequestedLater(s, s');
    if s.reply.Some? && InHand(s) {
      PresentedLater(s, s', s.history.committed, s.reply.value);
    }
  }

  lemma {:induction false} PresentingIs(version: nat)
    ensures Jobs(Presenting(version)) == [] && Fences(Presenting(version)) == 1
  {
    assert Presenting(version)[1..] == [DoFence];
    JobsOne(DoFence);
  }

  lemma {:induction false} PresentingLast(s: System, s': System, v: nat)
    requires s.next <= |s.stream| && Fences(s.Acts()) == 0
    requires s' == s.(told := [], k := s.k.(receipt := true), stream := s.stream + Presenting(v))
    ensures FenceLast(s')
  {
    NoFenceIn(s.Acts());
    assert forall i | s.next <= i < |s.stream| :: s'.stream[i] == s.Acts()[i - s.next];
    assert s'.stream[|s.stream|] == Presenting(v)[0];
    assert s'.stream[|s.stream| + 1..] == [DoFence];
    PresentationsOne(DoFence);
  }

  lemma {:induction false} PresentingShows(v: nat)
    ensures Presentations(Presenting(v)) == [v]
  {
    assert Presenting(v)[1..] == [DoFence];
    PresentationsOne(DoFence);
  }

  lemma {:induction false} PresentsShown(s: System, s': System, v: nat)
    requires Shown(s) && Unemitted(s) && InHand(s) && s.worker.hand.version == v && !s.worker.hand.Telling?
    requires s' == s.(told := [], k := s.k.(receipt := true), stream := s.stream + Presenting(v))
    ensures Shown(s')
  {
    PresentationsAppend(s.stream, Presenting(v));
    PresentingShows(v);
    LastOf(s.history.committed, v);
  }

  lemma {:induction false} LastOf(all: seq<nat>, last: nat)
    requires all != [] && all[|all| - 1] == last
    ensures all[..|all| - 1] + [last] == all
  {
  }

  lemma {:induction false} PresentsHandshake(s: System, s': System, v: nat)
    requires Handshake(s) && s.told == [Presents(v)]
    requires s' == s.(told := [], k := s.k.(receipt := true), stream := s.stream + Presenting(v))
    ensures Handshake(s') && !s.k.receipt
  {
    PresentingIs(v);
    assert s'.Acts() == s.Acts() + Presenting(v);
    JobsAppend(s.Acts(), Presenting(v));
    PresentingLast(s, s', v);
  }

  lemma {:induction false} PresentsScheduled(s: System, s': System, v: nat)
    requires Scheduled(s) && s.told == [Presents(v)]
    requires s' == s.(told := [], k := s.k.(receipt := true), stream := s.stream + Presenting(v))
    ensures Scheduled(s')
  {
    PresentingIs(v);
    assert s.k.log.admitted + [] == s.k.log.admitted && Jobs(Presenting(v)) + s.k.pending == s.k.pending + [];
    OrderEmitted(s, s', Presenting(v));
  }

  lemma {:induction false} PresentsKept(s: System, s': System, v: nat)
    requires Steady(s) && s.phase == Updating && s.told == [Presents(v)]
    requires s' == s.(told := [], k := s.k.(receipt := true), stream := s.stream + Presenting(v))
    ensures Steady(s')
  {
    PresentsHandshake(s, s', v);
    PresentsShown(s, s', v);
    PresentsScheduled(s, s', v);
    PresentsOthers(s, s', v);
  }

  lemma {:induction false} PresentsKeeps(s: System)
    requires Steady(s) && s.phase == Updating && s.told != [] && s.told[0].Presents?
    ensures Steady(OnUpdate(s))
  {
    var v := s.told[0].version;
    assert s.told == [Presents(v)];
    PresentsKept(s, s.(told := [], k := s.k.(receipt := true), stream := s.stream + Presenting(v)), v);
    UpdateIs(s);
  }

  lemma {:induction false} PresentsOthers(s: System, s': System, v: nat)
    requires Wired(s) && Phased(s) && Fenced(s) && Requested(s) && StopHolds(s) && s.phase == Updating
    requires s' == s.(told := [], k := s.k.(receipt := true), stream := s.stream + Presenting(v))
    ensures Wired(s') && Phased(s') && Fenced(s') && Requested(s') && StopHolds(s') && Heard(s')
  {
    WiredEmitted(s.(told := []), (s'.k, Presenting(v)));
    FencedLater(s, s');
    RequestedLater(s, s');
  }

  /** A job's end, as the schedule is kept by it. */
  ghost predicate EndsOne(k: Keyboard, k': Keyboard, out: seq<Dispatch>) {
    && Counts(k') && InOrder(k') && k'.running == k.running - 1 && k'.log.admitted == k.log.admitted
    && Jobs(out) + k'.pending == k.pending && |Jobs(out)| == (if k'.running > 0 then 1 else 0)
    && k'.stop == k.stop && k'.receipt == k.receipt && Fences(out) == 0 && Presentations(out) == []
  }

  lemma {:induction false} FinishedScheduled(s: System, s': System, out: seq<Dispatch>)
    requires Scheduled(s) && |s.told| == 1 && s.told[0].Finished?
    requires s' == s.(told := [], k := s'.k, stream := s.stream + out)
    requires EndsOne(s.k, s'.k, out)
    ensures Scheduled(s')
  {
    assert s'.k.log.admitted == s.k.log.admitted + [] && Jobs(out) + s'.k.pending == s.k.pending + [];
    OrderEmitted(s, s', out);
  }

  lemma {:induction false} FinishedHandshake(s: System, s': System, out: seq<Dispatch>)
    requires Handshake(s) && |s.told| == 1 && s.told[0].Finished?
    requires s' == s.(told := [], k := s'.k, stream := s.stream + out) && s'.k.receipt == s.k.receipt
             && Fences(out) == 0
    ensures Handshake(s')
  {
    assert s'.Acts() == s.Acts() + out;
    JobsAppend(s.Acts(), out);
  }

  lemma {:induction false} FinishedOthers(s: System, s': System, out: seq<Dispatch>)
    requires Steady(s) && s.phase == Updating && |s.told| == 1 && s.told[0].Finished?
    requires s' == s.(told := [], k := s'.k, stream := s.stream + out) && s'.k.stop == s.k.stop
             && Presentations(out) == []
    ensures Wired(s') && Phased(s') && Shown(s') && Fenced(s') && Requested(s') && StopHolds(s') && Heard(s')
  {
    PresentationsAppend(s.stream, out);
    WiredEmitted(s.(told := []), (s'.k, out));
    FencedLater(s, s');
    RequestedLater(s, s');
  }

  lemma {:induction false} FinishedKept(s: System, s': System, out: seq<Dispatch>)
    requires Steady(s) && s.phase == Updating && |s.told| == 1 && s.told[0].Finished?
    requires s' == s.(told := [], k := s'.k, stream := s.stream + out)
    requires EndsOne(s.k, s'.k, out)
    ensures Steady(s')
  {
    FinishedScheduled(s, s', out);
    FinishedHandshake(s, s', out);
    FinishedOthers(s, s', out);
  }

  lemma {:induction false} UpdateIs(s: System)
    requires |s.told| == 1
    ensures var (k', out) := Keyboards.TakeUpdate(s.k, s.shared, s.told[0]);
            OnUpdate(s) == s.(told := [], k := k', stream := s.stream + out)
  {
    assert s.told[1..] == [];
  }

  lemma {:induction false} FinishedEndsOne(k: Keyboard, s: Shared, ran: Ran)
    requires Counts(k) && InOrder(k) && k.running > 0
    ensures EndsOne(k, Keyboards.TakeUpdate(k, s, Finished(ran)).0, Keyboards.TakeUpdate(k, s, Finished(ran)).1)
  {
    FinishedSteps(k, s, ran);
  }

  lemma {:induction false} FinishedKeeps(s: System)
    requires Steady(s) && s.phase == Updating && s.told != [] && s.told[0].Finished?
    ensures Steady(OnUpdate(s))
  {
    FinishedRuns(s);
    UpdateIs(s);
    FinishedEndsOne(s.k, s.shared, s.told[0].ran);
    var (k', out) := Keyboards.TakeUpdate(s.k, s.shared, s.told[0]);
    FinishedKept(s, s.(told := [], k := k', stream := s.stream + out), out);
  }

  lemma {:induction false} FinishedRuns(s: System)
    requires Scheduled(s) && Handshake(s) && s.told != [] && s.told[0].Finished?
    ensures |s.told| == 1 && s.k.running > 0
  {
  }

  lemma {:induction false} TakesUpdateKeeps(s: System)
    requires Steady(s) && s.phase == Updating && s.told != []
    ensures Steady(OnUpdate(s))
  {
    match s.told[0]
    case Presents(_) => PresentsKeeps(s);
    case Finished(_) => FinishedKeeps(s);
  }

  lemma {:induction false} ActsTaken(s: System)
    requires s.next < |s.stream|
    ensures Jobs(s.Acts()) ==
            (if s.stream[s.next].DoRun? then [s.stream[s.next].job] else []) + Jobs(s.stream[s.next + 1..])
    ensures Fences(s.Acts()) == (if s.stream[s.next].DoFence? then 1 else 0) + Fences(s.stream[s.next + 1..])
  {
    assert s.Acts()[1..] == s.stream[s.next + 1..];
  }

  /** One more frame sent, and as much as it is taken up of what was emitted. */
  ghost predicate SendsFrame(s: System, s': System, frame: Wire) {
    && s.next <= s'.next <= |s.stream|
    && s' == s.(next := s'.next, wire := s.wire + [frame], frames := s'.frames, phase := s'.phase)
    && Sent(s.stream[..s'.next]) == Sent(s.stream[..s.next]) + (if frame.ResizeFrame? then [] else [frame])
    && Jobs(s'.Acts()) == Jobs(s.Acts()) && Fences(s'.Acts()) == Fences(s.Acts())
  }

  lemma {:induction false} FrameHandshake(s: System, s': System, frame: Wire)
    requires Handshake(s) && SendsFrame(s, s', frame)
    ensures Handshake(s')
  {
    if InHand(s) && s.reply.Some? {
      PresentedLater(s, s', s.history.committed, s.reply.value);
    }
  }

  /** What was presented and committed is the same, whatever was taken up of it. */
  lemma {:induction false} ShownStays(s: System, s': System)
    requires Shown(s) && s'.stream == s.stream && s'.told == s.told && s'.worker == s.worker
    requires s'.history.committed == s.history.committed
    ensures Shown(s') && Receipted(s') == Receipted(s) && Unemitted(s') == Unemitted(s)
  {
  }

  lemma {:induction false} FrameOthers(s: System, s': System, frame: Wire)
    requires Wired(s) && Phased(s) && StopHolds(s) && Heard(s)
    requires SendsFrame(s, s', frame) && (s.phase == Gathering || s.phase == Sending) && s.Released()
    requires s'.phase == Sending && s'.frames == s.frames + 1 <= LAST_FRAME
    ensures Wired(s') && Phased(s') && StopHolds(s') && Heard(s')
  {
    FramedSnoc(s.wire, frame);
  }

  lemma {:induction false} FrameScheduled(s: System, s': System, frame: Wire)
    requires Scheduled(s) && SendsFrame(s, s', frame)
    ensures Scheduled(s')
  {
  }

  lemma {:induction false} FrameFenced(s: System, s': System, frame: Wire)
    requires Fenced(s) && Requested(s) && SendsFrame(s, s', frame)
    ensures Fenced(s') && Requested(s')
  {
    FencedLater(s, s');
    RequestedLater(s, s');
  }

  lemma {:induction false} FrameKeeps(s: System, s': System, frame: Wire)
    requires Steady(s) && SendsFrame(s, s', frame) && (s.phase == Gathering || s.phase == Sending) && s.Released()
    requires s'.phase == Over || (s'.phase == Sending && s'.frames == s.frames + 1 <= LAST_FRAME)
    ensures s'.phase != Over ==> Steady(s')
    ensures Requested(s')
  {
    FrameFenced(s, s', frame);
    FrameHandshake(s, s', frame);
    if s'.phase != Over {
      FrameOthers(s, s', frame);
      FrameScheduled(s, s', frame);
      ShownStays(s, s');
    }
  }

  lemma {:induction false} ResizeSends(s: System, size: nat)
    requires s.next <= |s.stream|
    ensures SendsFrame(s, SendFrame(s.(phase := Sending), ResizeFrame(size)), ResizeFrame(size))
  {
  }

  lemma {:induction false} ResizeKeeps(s: System, size: nat)
    requires Steady(s) && s.phase == Gathering && s.Released()
    ensures var s' := SendFrame(s.(phase := Sending), ResizeFrame(size));
            Requested(s') && (s'.phase != Over ==> Steady(s'))
  {
    ResizeSends(s, size);
    FrameKeeps(s, SendFrame(s.(phase := Sending), ResizeFrame(size)), ResizeFrame(size));
  }

  lemma {:induction false} DispatchSends(s: System)
    requires s.next < |s.stream| && (s.stream[s.next].DoSend? || s.stream[s.next].DoAnswer?)
    ensures SendsFrame(s, OnDispatch(s), FrameOf(s.stream[s.next])[0])
    ensures OnDispatch(s) == SendFrame(s.(next := s.next + 1), FrameOf(s.stream[s.next])[0])
  {
    SentNext(s.stream, s.next);
    ActsTaken(s);
  }

  lemma {:induction false} FrameTaken(s: System)
    requires Steady(s) && s.phase == Sending && s.next < |s.stream|
             && (s.stream[s.next].DoSend? || s.stream[s.next].DoAnswer?)
    ensures var s' := OnDispatch(s); Requested(s') && (s'.phase != Over ==> Steady(s'))
  {
    DispatchSends(s);
    FrameKeeps(s, OnDispatch(s), FrameOf(s.stream[s.next])[0]);
  }

  lemma {:induction false} RunScheduled(s: System, s': System)
    requires Scheduled(s) && s.next < |s.stream| && s.stream[s.next].DoRun?
    requires s' == s.(next := s.next + 1, runs := s.runs + [Ticket(s.stream[s.next].job, s.next, s.next)])
    ensures Scheduled(s') && s.runs == []
  {
    ActsTaken(s);
    assert s.runs == [] && s.k.pending + [] == s.k.pending;
    assert JobsOf(s.runs) == [] && JobsOf(s'.runs) == [s.stream[s.next].job];
    assert Jobs(s.Acts()) == JobsOf(s'.runs) + Jobs(s'.Acts());
    assert s.history.starts + Queued(s.jobs) + JobsOf(s.runs) + Jobs(s.Acts()) ==
           s.history.starts + Queued(s.jobs) + JobsOf(s'.runs) + Jobs(s'.Acts());
  }

  lemma {:induction false} RunFenced(s: System, s': System)
    requires Fenced(s) && s.runs == [] && s.next < |s.stream| && s.stream[s.next].DoRun?
    requires s' == s.(next := s.next + 1, runs := [Ticket(s.stream[s.next].job, s.next, s.next)])
    ensures Fenced(s') && Later(s, s')
  {
    FencedLater(s, s'.(runs := []));
  }

  lemma {:induction false} RunHandshake(s: System, s': System)
    requires Handshake(s) && s.next < |s.stream| && s.stream[s.next].DoRun?
    requires s' == s.(next := s.next + 1, runs := s'.runs)
    ensures Handshake(s')
  {
    ActsTaken(s);
    if s.reply.Some? && InHand(s) {
      PresentedLater(s, s', s.history.committed, s.reply.value);
    }
  }

  lemma {:induction false} RunTaken(s: System)
    requires Steady(s) && s.phase == Sending && s.next < |s.stream| && s.stream[s.next].DoRun?
    ensures Steady(OnDispatch(s))
  {
    var s' := OnDispatch(s);
    SentNext(s.stream, s.next);
    RunScheduled(s, s');
    RunFenced(s, s');
    RunHandshake(s, s');
    RequestedLater(s, s');
  }

  /** What is taken up presents what the frames sent carry. */
  lemma {:induction false} CarriedIs(s: System)
    requires Wired(s)
    ensures Carried(s.wire[..s.frames]) == Presentations(s.stream[..s.next])
  {
    CarriedSent(s.stream[..s.next]);
    CarriedFramed(s.wire);
    assert s.wire[..s.frames] == s.wire;
  }

  /** The receipt a fence gives counts frames that carry all that was ever committed, in order. */
  lemma {:induction false} FencePresented(s: System)
    requires Wired(s) && Shown(s) && !Unemitted(s) && FenceLast(s) && s.next < |s.stream| && s.stream[s.next] == DoFence
    ensures Presented(s, s.history.committed, s.frames)
  {
    CarriedIs(s);
    assert s.stream == s.stream[..s.next] + s.stream[s.next..];
    PresentationsAppend(s.stream[..s.next], s.stream[s.next..]);
  }

  lemma {:induction false} FenceHandshake(s: System, s': System)
    requires Handshake(s) && Wired(s) && Shown(s) && Later(s, s')
    requires s.next < |s.stream| && s.stream[s.next] == DoFence && s.k.receipt
    requires s' == s.(next := s.next + 1, k := s.k.(receipt := false), reply := Some(s.frames)) && s.after <= |s.wire|
    ensures Handshake(s')
  {
    ActsTaken(s);
    FencePresented(s);
    PresentedLater(s, s', s.history.committed, s.frames);
  }

  lemma {:induction false} FenceScheduled(s: System, s': System)
    requires Scheduled(s) && s.next < |s.stream| && s.stream[s.next] == DoFence
    requires s' == s.(next := s.next + 1, k := s.k.(receipt := false), reply := Some(s.frames))
    ensures Scheduled(s')
  {
    ActsTaken(s);
    assert s'.Acts() == s.stream[s.next + 1..] && InOrder(s'.k);
  }

  lemma {:induction false} FenceOthers(s: System, s': System)
    requires Wired(s) && Phased(s) && StopHolds(s) && Heard(s)
    requires s.phase == Sending && s.next < |s.stream| && s.stream[s.next] == DoFence
    requires s' == s.(next := s.next + 1, k := s.k.(receipt := false), reply := Some(s.frames))
    ensures Wired(s') && Phased(s') && StopHolds(s') && Heard(s')
  {
    SentNext(s.stream, s.next);
  }

  lemma {:induction false} FenceFenced(s: System, s': System)
    requires Fenced(s) && Requested(s) && s.next < |s.stream|
    requires s' == s.(next := s.next + 1, k := s.k.(receipt := false), reply := Some(s.frames))
    ensures Fenced(s') && Requested(s')
  {
    FencedLater(s, s');
    RequestedLater(s, s');
  }

  /** A fence is come to only while a receipt is awaited, of a presentation already emitted. */
  lemma {:induction false} FenceAwaited(s: System)
    requires Handshake(s) && s.next < |s.stream| && s.stream[s.next] == DoFence
    ensures s.k.receipt && !Unemitted(s) && FenceLast(s)
  {
    ActsTaken(s);
  }

  lemma {:induction false} FenceTaken(s: System)
    requires Steady(s) && s.phase == Sending && s.next < |s.stream| && s.stream[s.next].DoFence?
    ensures Steady(OnDispatch(s)) && s.k.receipt
  {
    FenceAwaited(s);
    FenceScheduled(s, OnDispatch(s));
    FenceOthers(s, OnDispatch(s));
    ShownStays(s, OnDispatch(s));
    FenceFenced(s, OnDispatch(s));
    FenceHandshake(s, OnDispatch(s));
  }

  lemma {:induction false} SendsOneKeeps(s: System)
    requires Steady(s) && s.phase == Sending && s.next < |s.stream|
    ensures var s' := OnDispatch(s); Requested(s') && (s'.phase != Over ==> Steady(s'))
  {
    match s.stream[s.next]
    case DoRun(_) => RunTaken(s);
    case DoFence => FenceTaken(s);
    case _ => FrameTaken(s);
  }

  /** As a job is started all is taken up, and nothing is in hand. */
  lemma {:induction false} StartIsReady(s: System)
    requires Scheduled(s) && Phased(s) && Handshake(s) && s.phase == Starting && s.runs != []
    ensures s.next == |s.stream| && s.jobs == [] && !s.worker.Busy? && !Unemitted(s)
  {
  }

  lemma {:induction false} StartCarries(s: System)
    requires Wired(s) && Shown(s) && s.next == |s.stream| && !InHand(s) && !Unemitted(s)
    ensures Framed(s.wire[..s.frames]) == Sent(s.stream) && Carried(s.wire[..s.frames]) == s.history.committed
  {
    assert s.stream[..s.next] == s.stream && s.wire[..s.frames] == s.wire;
    CarriedIs(s);
  }

  lemma {:induction false} StartFences(s: System)
    requires Wired(s) && Fenced(s) && s.runs != [] && s.next == |s.stream| && s.jobs == [] && !s.worker.Busy?
    requires Framed(s.wire[..s.frames]) == Sent(s.stream) && Carried(s.wire[..s.frames]) == s.history.committed
    ensures Fenced(OnStart(s))
  {
    var s' := OnStart(s);
    var t := s.runs[0];
    assert t in s.runs && s.stream[..s.next] == s.stream;
    assert Covers(s', t.(upto := s.next), s.frames) && Presented(s', Receipted(s'), s.frames);
  }

  /** A job is started after frames that carry all that was ever emitted, its whole batch and all that was committed. */
  lemma {:induction false} StartsOneFenced(s: System)
    requires Steady(s) && s.phase == Starting && s.runs != []
    ensures var (ticket, fence) := OnStart(s).jobs[|s.jobs|];
            && ticket.upto == |s.stream|
            && Framed(s.wire[..fence]) == Sent(s.stream)
            && Carried(s.wire[..fence]) == s.history.committed
    ensures Fenced(OnStart(s))
  {
    StartIsReady(s);
    StartCarries(s);
    StartFences(s);
  }

  lemma {:induction false} StartsOneScheduled(s: System)
    requires Scheduled(s) && s.phase == Starting && s.runs != []
    ensures Scheduled(OnStart(s))
  {
    var s' := OnStart(s);
    assert s.jobs == [] && |s.runs| == 1;
    assert Queued(s.jobs) + JobsOf(s.runs) == [s.runs[0].job] == Queued(s'.jobs) + JobsOf(s'.runs);
    assert s.history.starts + (Queued(s.jobs) + JobsOf(s.runs)) == s.history.starts + Queued(s.jobs) + JobsOf(s.runs);
    assert s.history.starts + (Queued(s'.jobs) + JobsOf(s'.runs)) ==
           s.history.starts + Queued(s'.jobs) + JobsOf(s'.runs);
  }

  lemma {:induction false} StartsOneKeeps(s: System)
    requires Steady(s) && s.phase == Starting && s.runs != []
    ensures Steady(OnStart(s))
  {
    StartsOneFenced(s);
    StartsOneScheduled(s);
    RequestedLater(s, OnStart(s));
  }

  // ------------------------------------------------------------ the worker's steps

  lemma {:induction false} TakesScheduled(s: System, left: nat)
    requires Scheduled(s) && s.worker.Idle? && s.jobs != []
    ensures Scheduled(OnTake(s, left)) && |s.jobs| == 1 && (s.told == [] || !s.told[0].Finished?)
  {
    var s' := OnTake(s, left);
    assert |s.jobs| == 1;
    assert s.history.starts + Queued(s.jobs) == s'.history.starts + Queued(s'.jobs);
  }

  lemma {:induction false} TakesOthers(s: System, left: nat)
    requires Wired(s) && Phased(s) && Shakes(s) && s.worker.Idle? && s.jobs != []
             && (s.told == [] || !s.told[0].Finished?)
    ensures Wired(OnTake(s, left)) && Phased(OnTake(s, left)) && Shakes(OnTake(s, left))
    ensures Receipted(OnTake(s, left)) == Receipted(s)
  {
  }

  lemma {:induction false} TakesFenced(s: System, left: nat)
    requires Fenced(s) && s.worker.Idle? && |s.jobs| == 1 && s.next <= |s.stream|
    ensures Fenced(OnTake(s, left)) && s.after <= OnTake(s, left).after
  {
    var s' := OnTake(s, left);
    assert s.jobs[0] in s.jobs && s'.jobs == [];
    CoversLater(s, s', s.jobs[0].0, s.jobs[0].1);
  }

  lemma {:induction false} TakesKeeps(s: System, left: nat)
    requires Steady(s) && s.phase != Over && s.worker.Idle? && s.jobs != []
    ensures Steady(OnTake(s, left))
  {
    TakesScheduled(s, left);
    TakesFenced(s, left);
    TakesOthers(s, left);
    RequestedLater(s, OnTake(s, left));
  }

  /** Steps of the worker's alone: nothing it is fenced by, nor the client, changes. */
  lemma {:induction false} WorkerKeeps(s: System, s': System)
    requires Steady(s) && s.worker.Busy? && s'.worker.Busy? && s'.worker.ticket == s.worker.ticket
    requires s' == s.(shared := s'.shared, worker := s'.worker, wake := s'.wake, told := s'.told, history := s'.history)
    requires s'.history == s.history.(committed := s'.history.committed)
    requires Receipted(s') == Receipted(s) && Shown(s') && Handshake(s') && StopHolds(s') && Heard(s')
    requires s'.told == s.told || (s.told == [] && |s'.told| == 1 && s'.told[0].Presents?)
    ensures Steady(s')
  {
    WorkerSchedule(s, s');
    FencedLater(s, s');
    RequestedLater(s, s');
  }

  lemma {:induction false} WorkerSchedule(s: System, s': System)
    requires Wired(s) && Scheduled(s) && Phased(s) && s.worker.Busy? && s'.worker.Busy?
    requires s' == s.(shared := s'.shared, worker := s'.worker, wake := s'.wake, told := s'.told, history := s'.history)
    requires s'.history == s.history.(committed := s'.history.committed)
    requires s'.told == s.told || (s.told == [] && |s'.told| == 1 && s'.told[0].Presents?)
    ensures Wired(s') && Scheduled(s') && Phased(s')
  {
  }

  lemma {:induction false} PokesShakes(s: System)
    requires Shakes(s) && Enabled(s, Pokes)
    ensures Shakes(OnWorker(s, Pokes)) && Receipted(OnWorker(s, Pokes)) == Receipted(s)
  {
    var s' := OnWorker(s, Pokes);
    if s.reply.Some? {
      PresentedLater(s, s', s.history.committed, s.reply.value);
    }
  }

  lemma {:induction false} TellsHandshake(s: System)
    requires Handshake(s) && Enabled(s, Tells)
    ensures Handshake(OnWorker(s, Tells)) && s.told == []
  {
  }

  lemma {:induction false} TellsShown(s: System)
    requires Shown(s) && Enabled(s, Tells) && s.told == []
    ensures Shown(OnWorker(s, Tells)) && Receipted(OnWorker(s, Tells)) == Receipted(s)
  {
  }

  lemma {:induction false} TellsHeard(s: System)
    requires StopHolds(s) && Enabled(s, Tells)
    ensures StopHolds(OnWorker(s, Tells)) && Heard(OnWorker(s, Tells))
  {
  }

  lemma {:induction false} TellsShakes(s: System)
    requires Shakes(s) && Enabled(s, Tells)
    ensures Shakes(OnWorker(s, Tells)) && Receipted(OnWorker(s, Tells)) == Receipted(s) && s.told == []
  {
    TellsHandshake(s);
    TellsShown(s);
    TellsHeard(s);
  }

  lemma {:induction false} CommitsShakes(s: System, committed: Shared, version: Option<nat>)
    requires s.phase != Over && Working(s) && s.worker.left > 0 && Shakes(s)
    ensures Shakes(OnCommit(s, committed, version)) && Receipted(OnCommit(s, committed, version)) == Receipted(s)
  {
    assert s.history.committed + [] == s.history.committed;
  }

  lemma {:induction false} PokesKeeps(s: System)
    requires Steady(s) && Enabled(s, Pokes)
    ensures Steady(OnWorker(s, Pokes))
  {
    PokesShakes(s);
    WorkerKeeps(s, OnWorker(s, Pokes));
  }

  /** A request more, that comes after as much as is counted. */
  lemma {:induction false} RequestAdded(s: System, s': System, request: Request)
    requires Later(s, s') && Requested(s) && s'.after == s.after == request.fence
    requires s'.history.requests == s.history.requests + [request]
    requires Covers(s', request.ticket, request.fence) && Presented(s', request.committed, request.fence)
    ensures Requested(s')
  {
    forall r | r in s'.history.requests
      ensures Covers(s', r.ticket, r.fence) && Presented(s', r.committed, r.fence) && r.fence <= s'.after
    {
      if r in s.history.requests {
        CoversLater(s, s', r.ticket, r.fence);
        PresentedLater(s, s', r.committed, r.fence);
      }
    }
    forall i, j | 0 <= i < j < |s'.history.requests|
      ensures s'.history.requests[i].fence <= s'.history.requests[j].fence
    {
      assert s.history.requests[i] in s.history.requests;
    }
  }

  lemma {:induction false} AsksRequested(s: System)
    requires Requested(s) && Fenced(s) && Working(s) && s.worker.left > 0 && s.next <= |s.stream|
    ensures Requested(OnAsk(s))
  {
    RequestAdded(s, OnAsk(s), Request(s.worker.ticket, s.after, s.history.committed));
  }

  lemma {:induction false} AsksFenced(s: System)
    requires Fenced(s) && Working(s) && s.worker.left > 0 && s.next <= |s.stream|
    ensures Fenced(OnAsk(s))
  {
    FencedLater(s, OnAsk(s));
  }

  lemma {:induction false} AsksOthers(s: System)
    requires Wired(s) && Scheduled(s) && Phased(s) && Shakes(s) && Working(s) && s.worker.left > 0
    ensures Wired(OnAsk(s)) && Scheduled(OnAsk(s)) && Phased(OnAsk(s)) && Shakes(OnAsk(s))
  {
  }

  lemma {:induction false} AsksKeeps(s: System)
    requires Steady(s) && s.phase != Over && Working(s) && s.worker.left > 0
    ensures Steady(OnAsk(s))
  {
    AsksRequested(s);
    AsksFenced(s);
    AsksOthers(s);
  }

  lemma {:induction false} ReceivesFenced(s: System)
    requires Fenced(s) && Handshake(s) && s.phase != Over && s.worker.Busy? && s.worker.hand.Awaiting? && s.reply.Some?
    requires s.jobs == []
    ensures Fenced(OnReceive(s)) && s.after <= s.reply.value
  {
    var f := s.reply.value;
    FramedPrefix(s.wire, s.after, f);
    CoversLater(s, OnReceive(s), s.worker.ticket, s.after);
    PresentedLater(s, OnReceive(s), s.history.committed, f);
  }

  lemma {:induction false} FramedPrefix(wire: seq<Wire>, a: nat, b: nat)
    requires a <= b <= |wire|
    ensures Framed(wire[..a]) <= Framed(wire[..b])
    decreases b
  {
    if a < b {
      FramedPrefix(wire, a, b - 1);
      assert wire[..b][..b - 1] == wire[..b - 1];
    }
  }

  lemma {:induction false} ReceivesKeeps(s: System)
    requires Steady(s) && s.phase != Over && s.worker.Busy? && s.worker.hand.Awaiting? && s.reply.Some?
    ensures Steady(OnReceive(s))
  {
    ReceivesFenced(s);
    RequestedLater(s, OnReceive(s));
  }

  lemma {:induction false} FinishesShakes(s: System, ran: Ran)
    requires Shakes(s) && Working(s) && s.worker.stage.Settled? && (ran.shows.Some? ==> s.worker.stage.opens)
    ensures Shakes(OnFinish(s, ran)) && Receipted(OnFinish(s, ran)) == Receipted(s)
    ensures s.told == [] && s.worker.stopped ==> ran.shows.None?
  {
  }

  lemma {:induction false} FinishesSchedule(s: System, ran: Ran)
    requires Wired(s) && Scheduled(s) && Phased(s) && Working(s) && s.told == []
    ensures Wired(OnFinish(s, ran)) && Scheduled(OnFinish(s, ran)) && Phased(OnFinish(s, ran))
  {
  }

  /** A job's end: one that began, or came to its end, under a stop opens no screen. */
  lemma {:induction false} FinishesKeeps(s: System, ran: Ran)
    requires Steady(s) && s.phase != Over && Working(s) && s.worker.stage.Settled?
             && (ran.shows.Some? ==> s.worker.stage.opens)
    ensures Steady(OnFinish(s, ran))
    ensures s.worker.stopped ==> ran.shows.None?
  {
    FinishesShakes(s, ran);
    FinishesSchedule(s, ran);
    FencedLater(s, OnFinish(s, ran));
    RequestedLater(s, OnFinish(s, ran));
  }

  lemma {:induction false} LeavesKeeps(s: System)
    requires Steady(s) && Enabled(s, Leaves)
    ensures Steady(OnWorker(s, Leaves))
  {
    var s' := OnWorker(s, Leaves);
    FencedLater(s, s');
    RequestedLater(s, s');
  }

  // ------------------------------------------------------------------- whole runs

  lemma {:induction false} ClientStepKeeps(s: System, step: Step)
    requires Steady(s) && Enabled(s, step) && !OfWorker(step)
    ensures Kept(OnClient(s, step))
  {
    if step.Wakes? || step.UpdatesDone? || step == BeginsSending(None) || step.SendingDone? || step.StartingDone? {
      PhaseKeeps(s, OnClient(s, step));
    } else if step.Ends? {
      RequestedLater(s, OnClient(s, step));
    } else {
      ClientTakes(s, step);
    }
  }

  lemma {:induction false} ClientTakes(s: System, step: Step)
    requires Steady(s) && Enabled(s, step)
    requires step.TakesFrame? || step.TakesInput? || step.ReleasesOne? || step.TakesUpdate? || step.SendsOne?
             || step.StartsOne?
             || (step.BeginsSending? && step.resize.Some?)
    ensures Kept(OnClient(s, step))
  {
    if {
      case step.TakesFrame? => TakesFrameKeeps(s, step.frame);
      case step.TakesInput? => TakesInputKeeps(s, step.input);
      case step.ReleasesOne? => ReleasesOneKeeps(s);
      case step.TakesUpdate? => TakesUpdateKeeps(s);
      case step.BeginsSending? => ResizeKeeps(s, step.resize.value);
      case step.SendsOne? => SendsOneKeeps(s);
      case step.StartsOne? => StartsOneKeeps(s);
    }
  }

  /** The worker's program goes on, with nothing to await. */
  lemma {:induction false} ConcludesKeeps(s: System, stage: Stage)
    requires Steady(s) && Working(s) && (s.k.stop || s.worker.stopped ==> stage == Settled(false))
    ensures Steady(Concludes(s, stage))
  {
    WorkerKeeps(s, Concludes(s, stage));
  }

  lemma {:induction false} CommitsKeeps(s: System, committed: Shared, version: Option<nat>)
    requires s.phase != Over && Working(s) && s.worker.left > 0 && Steady(s)
    ensures Steady(OnCommit(s, committed, version))
  {
    CommitsShakes(s, committed, version);
    WorkerKeeps(s, OnCommit(s, committed, version));
  }

  lemma {:induction false} TellsKeeps(s: System)
    requires Steady(s) && Enabled(s, Tells)
    ensures Steady(OnWorker(s, Tells))
  {
    TellsShakes(s);
    WorkerKeeps(s, OnWorker(s, Tells));
  }

  lemma {:induction false} WorkerStepKeeps(s: System, step: Step)
    requires Steady(s) && Enabled(s, step) && OfWorker(step)
    ensures Kept(OnWorker(s, step))
  {
    if {
      case step.Takes? => TakesKeeps(s, step.left);
      case step.Asks? => AsksKeeps(s);
      case step.Pokes? => PokesKeeps(s);
      case step.Receives? => ReceivesKeeps(s);
      case step.Finishes? => FinishesKeeps(s, step.ran);
      case step.Leaves? => LeavesKeeps(s);
      case step.Tells? => TellsKeeps(s);
      case step.Commits? => CommitsKeeps(s, step.committed, step.version);
      case step.Checks? => ConcludesKeeps(s, if s.k.stop then Settled(false) else Evaluating);
      case step.Settles? => ConcludesKeeps(s, Settled(step.ok && !s.k.stop));
    }
  }

  /** Every step keeps it all, but one that ends the attachment, which keeps what requests cover. */
  lemma {:induction false} StepKeeps(s: System, step: Step)
    requires Steady(s) && Enabled(s, step)
    ensures Kept(After(s, step))
  {
    if OfWorker(step) {
      WorkerStepKeeps(s, step);
    } else {
      ClientStepKeeps(s, step);
    }
  }
}
