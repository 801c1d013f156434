/**
 * Whole runs of an attached client, in every interleaving: what its requests come after, that its worker
 * never blocks, that a stop holds, and that it drains.
 */
module AttachmentRuns {
  import opened Keys
  import opened Acts
  import opened HeldKeys
  import opened Screens
  import opened Keyboards
  import opened Attachment

  lemma {:induction false} WelcomedSound(readOnly: bool, shared: Shared, notices: seq<(Said, bool)>)
    ensures Steady(Welcomed(readOnly, shared, notices))
  {
    var s := Welcomed(readOnly, shared, notices);
    NoticesStartNothing(s.stream);
    assert s.Acts() == s.stream;
  }

  lemma {:induction false} NoticesStartNothing(out: seq<Dispatch>)
    requires forall d | d in out :: d.DoSend? && !d.act.Presentation?
    ensures Jobs(out) == [] && Fences(out) == 0 && Presentations(out) == []
  {
    if out != [] {
      assert out[0] in out;
      NoticesStartNothing(out[1..]);
    }
  }

  lemma {:induction false} NothingAfterOver(s: System, steps: seq<Step>)
    requires s.phase == Over && CanRun(s, steps)
    ensures steps == []
  {
  }

  lemma {:induction false} RunKeeps(s: System, steps: seq<Step>)
    requires Steady(s) && CanRun(s, steps)
    ensures Kept(RunOf(s, steps))
    decreases |steps|
  {
    if steps != [] {
      StepKeeps(s, steps[0]);
      var s' := After(s, steps[0]);
      if s'.phase == Over {
        NothingAfterOver(s', steps[1..]);
      } else {
        RunKeeps(s', steps[1..]);
      }
    }
  }

  /** In every interleaving, until the attachment ends. */
  lemma {:induction false} EveryRunIsSound(readOnly: bool, shared: Shared, notices: seq<(Said, bool)>, steps: seq<Step>)
    requires CanRun(Welcomed(readOnly, shared, notices), steps)
    ensures Kept(RunOf(Welcomed(readOnly, shared, notices), steps))
  {
    WelcomedSound(readOnly, shared, notices);
    RunKeeps(Welcomed(readOnly, shared, notices), steps);
  }

  /**
   * What the requests made so far come after: all the client had emitted when it sent the job to the
   * worker, the job's start among it; and exactly the presentations committed by then.
   */
  ghost predicate InTime(s: System) {
    forall i, j | 0 <= i <= j < |s.history.requests| ::
      var r := s.history.requests[j];
      && r.ticket.at < r.ticket.upto <= |s.stream| && s.stream[r.ticket.at] == DoRun(r.ticket.job)
      && s.history.requests[i].fence <= r.fence <= |s.wire|
      && Sent(s.stream[..r.ticket.upto]) <= Framed(s.wire[..r.fence])
      && Carried(s.wire[..r.fence]) == r.committed
  }

  lemma {:induction false} RequestedInTime(s: System)
    requires Requested(s)
    ensures InTime(s)
  {
    forall j | 0 <= j < |s.history.requests|
      ensures Covers(s, s.history.requests[j].ticket, s.history.requests[j].fence)
      ensures Presented(s, s.history.requests[j].committed, s.history.requests[j].fence)
    {
      assert s.history.requests[j] in s.history.requests;
    }
  }

  /**
   * In every interleaving, a request comes after frames that carry all the client emitted before its
   * job's start, and all that any job committed before it, in order and nothing else; never more
   * frames than were sent, never fewer than the last request's.
   */
  lemma {:induction false} RequestsAreCovered(readOnly: bool, shared: Shared, notices: seq<(Said, bool)>,
        steps: seq<Step>)
    requires CanRun(Welcomed(readOnly, shared, notices), steps)
    ensures InTime(RunOf(Welcomed(readOnly, shared, notices), steps))
  {
    WelcomedSound(readOnly, shared, notices);
    RunKeeps(Welcomed(readOnly, shared, notices), steps);
    RequestedInTime(RunOf(Welcomed(readOnly, shared, notices), steps));
  }

  /** The mailbox has room whenever the worker has something to put in it, and no receipt is kept but one. */
  lemma {:induction false} WorkerNeverBlocks(s: System)
    requires Steady(s)
    ensures |s.told| <= MAILBOX
    ensures s.worker.Busy? && (s.worker.hand.Telling? || s.worker.hand.Free?) ==> s.told == []
    ensures s.told != [] && s.told[0].Presents? ==> !s.k.receipt && s.reply == None
  {
  }

  lemma {:induction false} StopLastsTaken(s: System, step: Step)
    requires Scheduled(s) && Enabled(s, step) && s.k.stop && s.k.running > 0
    requires step.TakesFrame? || step.TakesInput? || step.TakesUpdate?
    ensures OnClient(s, step).k.running > 0 ==> OnClient(s, step).k.stop
  {
    match step
    case TakesFrame(OpenFrame(screen)) => AdmitSteps(s.k, ScreenJob(screen));
    case TakesInput(input) => ArriveSteps(s.k, s.shared, input);
    case TakesUpdate =>
      if s.told[0].Finished? {
        FinishedSteps(s.k, s.shared, s.told[0].ran);
      }
    case _ =>
  }

  /** A stop lasts while anything runs. */
  lemma {:induction false} StopLasts(s: System, step: Step)
    requires Scheduled(s) && Enabled(s, step) && s.k.stop && s.k.running > 0
    ensures After(s, step).k.running > 0 ==> After(s, step).k.stop
  {
    if step.TakesFrame? || step.TakesInput? || step.TakesUpdate? {
      StopLastsTaken(s, step);
    }
  }

  /** Something runs before each step of a run. */
  predicate KeepsRunning(s: System, steps: seq<Step>)
    requires CanRun(s, steps)
    decreases |steps|
  {
    steps != [] ==> s.k.running > 0 && KeepsRunning(After(s, steps[0]), steps[1..])
  }

  /**
   * A stop stands, no job the worker took after the first `n` is past it without having seen it, and
   * those of them that ended opened nothing.
   */
  ghost predicate Stopped(s: System, n: int) {
    && (s.k.running > 0 ==> s.k.stop)
    && (s.worker.Busy? && |s.history.starts| > n ==> s.worker.stopped || !s.worker.stage.Settled?)
    && (forall e | e in s.history.ends && e.number > n :: e.ran.shows.None?)
  }

  /** The loop's steps leave the worker's job, and what is told of it. */
  lemma {:induction false} ClientLeavesWorker(s: System, step: Step)
    requires Enabled(s, step) && !OfWorker(step)
    ensures OnClient(s, step).worker == s.worker && OnClient(s, step).history == s.history
  {
  }

  lemma {:induction false} WorkerStaysStopped(s: System, step: Step, n: int)
    requires StopHolds(s) && Enabled(s, step) && OfWorker(step) && s.k.stop && Stopped(s, n)
    ensures Stopped(OnWorker(s, step), n)
  {
  }

  lemma {:induction false} StoppedStays(s: System, step: Step, n: int)
    requires Steady(s) && Enabled(s, step) && s.k.running > 0 && Stopped(s, n)
    ensures Stopped(After(s, step), n)
  {
    if OfWorker(step) {
      WorkerStaysStopped(s, step, n);
    } else {
      StopLasts(s, step);
      ClientLeavesWorker(s, step);
    }
  }

  lemma {:induction false} StoppedThrough(s: System, steps: seq<Step>, n: int)
    requires Steady(s) && CanRun(s, steps) && KeepsRunning(s, steps) && Stopped(s, n)
    ensures Stopped(RunOf(s, steps), n)
    decreases |steps|
  {
    if steps != [] {
      StoppedStays(s, steps[0], n);
      StepKeeps(s, steps[0]);
      var s' := After(s, steps[0]);
      if s'.phase == Over {
        NothingAfterOver(s', steps[1..]);
      } else {
        StoppedThrough(s', steps[1..], n);
      }
    }
  }

  /** An Escape comes while a program runs, after a prefix that waits. */
  predicate StopTyped(s: System, input: Input) {
    && s.k.running > 0
    && input.KeyInput? && input.stroke.press == ESCAPE
    && s.k.waiting != [] && s.k.waiting[|s.k.waiting| - 1].KeyInput?
    && Leads(s.shared.root, s.k.waiting[|s.k.waiting| - 1].stroke.press)
  }

  /** How many jobs the worker has done with: all it took, but one it has yet to come to the end of. */
  function DoneWith(s: System): int {
    if s.worker.Busy? && !s.worker.stage.Settled? then |s.history.starts| - 1 else |s.history.starts|
  }

  lemma {:induction false} StopIsSet(s: System, input: Input)
    requires Scheduled(s) && Enabled(s, TakesInput(input)) && StopTyped(s, input)
    ensures var t := After(s, TakesInput(input));
            && t.k.stop && t.k.running == s.k.running && t.worker == s.worker && t.history == s.history
            && t.stream == s.stream + [DoSend(Notice(StoppingSaid, false))]
            && t.k.waiting == s.k.waiting[..|s.k.waiting| - 1]
  {
    ArriveSteps(s.k, s.shared, input);
  }

  /**
   * In every interleaving, a prefix and then Escape typed while a program runs says that it stops, and
   * until nothing runs no program not at its end by then, nor any the worker takes, opens a screen.
   */
  lemma {:induction false} StopOpensNothing(readOnly: bool, shared: Shared, notices: seq<(Said, bool)>,
        before: seq<Step>, input: Input, steps: seq<Step>)
    requires CanRun(Welcomed(readOnly, shared, notices), before)
    requires var s := RunOf(Welcomed(readOnly, shared, notices), before);
             && Enabled(s, TakesInput(input)) && StopTyped(s, input)
             && CanRun(After(s, TakesInput(input)), steps) && KeepsRunning(After(s, TakesInput(input)), steps)
    ensures var s := RunOf(Welcomed(readOnly, shared, notices), before);
            var t := After(s, TakesInput(input));
            && t.stream == s.stream + [DoSend(Notice(StoppingSaid, false))]
            && forall e | e in RunOf(t, steps).history.ends && e.number > DoneWith(s) :: e.ran.shows.None?
  {
    var s0 := Welcomed(readOnly, shared, notices);
    EveryRunIsSound(readOnly, shared, notices, before);
    EndsNumbered(s0, before);
    var s := RunOf(s0, before);
    StopIsSet(s, input);
    StepKeeps(s, TakesInput(input));
    StoppedThrough(After(s, TakesInput(input)), steps, DoneWith(s));
  }

  /** No end is of a job the worker has not taken. */
  ghost predicate Numbered(s: System) {
    forall e | e in s.history.ends :: e.number <= |s.history.starts|
      && (s.worker.Busy? ==> e.number < |s.history.starts|)
  }

  lemma {:induction false} NumberedStays(s: System, step: Step)
    requires Enabled(s, step) && Numbered(s)
    ensures Numbered(After(s, step))
  {
    if !OfWorker(step) {
      ClientLeavesWorker(s, step);
    }
  }

  lemma {:induction false} EndsNumbered(s: System, steps: seq<Step>)
    requires CanRun(s, steps) && Numbered(s)
    ensures Numbered(RunOf(s, steps))
    decreases |steps|
  {
    if steps != [] {
      NumberedStays(s, steps[0]);
      EndsNumbered(After(s, steps[0]), steps[1..]);
    }
  }

  /** A job that starts while nothing runs starts under no stop: a stop is of the jobs it was typed for. */
  lemma {:induction false} StopIsForgotten(s: System, step: Step)
    requires Scheduled(s) && Handshake(s) && Enabled(s, step) && s.k.running == 0 && After(s, step).k.running > 0
    ensures !After(s, step).k.stop
  {
    if step.ReleasesOne? {
      HandleSteps(s.k.(waiting := s.k.waiting[1..]), s.shared, s.k.waiting[0]);
    } else if step.TakesUpdate? && s.told[0].Finished? {
      FinishedRuns(s);
    }
  }

  // --------------------------------------------------------------------- progress

  /** Nothing runs or waits, and nothing is left to send or hear. */
  ghost predicate Quiet(s: System) {
    && s.next == |s.stream| && s.k.running == 0 && s.k.waiting == [] && s.k.pending == []
    && s.phase == Gathering && !s.wake && s.told == [] && s.worker.Idle? && s.jobs == []
  }

  /** A step at hand, whenever anything is unfinished: a program's, its end. */
  function Progress(s: System): Step {
    match s.phase
    case Updating => if s.told != [] then TakesUpdate else UpdatesDone
    case Sending => if s.next < |s.stream| then SendsOne else SendingDone
    case Starting => if s.runs != [] then StartsOne else StartingDone
    case _ =>
      if !s.Released() then ReleasesOne
      else if s.next < |s.stream| then BeginsSending(None)
      else if s.wake then Wakes
      else match s.worker
        case Idle => Takes(0)
        case Leaving => Leaves
        case Busy(_, _, stage, hand, rebound, _) =>
          match hand
          case Telling(_) => Tells
          case Poking(_) => Pokes
          case Awaiting(_) => Receives
          case Free =>
            match stage
            case Fresh => Checks
            case Evaluating => Settles(true)
            case Settled(_) => Finishes(Ran(None, None, rebound))
  }

  /** While anything is unfinished, some step is enabled: no one waits for another in a circle. */
  lemma {:induction false} NeverStuck(s: System)
    requires Steady(s) && s.phase != Over && !Quiet(s)
    ensures Progress(s).Internal() && Enabled(s, Progress(s))
  {
    if s.phase == Gathering && s.Released() && s.next == |s.stream| && !s.wake {
      assert s.Acts() == [];
    }
  }

  /** How far along the job in flight is. */
  function FlightLeft(s: System): nat {
    if Jobs(s.Acts()) != [] then 5 else if s.runs != [] then 4 else if s.jobs != [] then 3 else if s.worker.Busy? then 2
    else if s.told != [] then 1 else 0
  }

  function StageLeft(worker: Worker): nat {
    if worker.Busy? then (match worker.stage case Fresh => 2 case Evaluating => 1 case Settled(_) => 0) else 0
  }

  function HandLeft(worker: Worker): nat {
    match worker
    case Idle => 0
    case Leaving => 1
    case Busy(_, _, _, hand, _, _) =>
      match hand case Free => 0 case Awaiting(_) => 1 case Poking(_) => 2 case Telling(_) => 3
  }

  /** How far along the receipt awaited is. */
  function ReceiptLeft(s: System): nat {
    if s.told != [] && s.told[0].Presents? then 3
    else if Fences(s.Acts()) > 0 then 2
    else if s.reply.Some? then 1
    else 0
  }

  function PhaseLeft(s: System): nat {
    match s.phase
    case Updating => 5
    case Gathering => if s.Acts() != [] then 4 else 1
    case Sending => 3
    case Starting => 2
    case Over => 0
  }

  /** All that is left to do, the least of it last. */
  datatype Rest = Rest(waiting: nat, running: nat, flight: nat, worker: nat, stage: nat, hand: nat, receipt: nat,
    acts: nat, wake: nat, phase: nat)
  {
    predicate Less(than: Rest) {
      || waiting < than.waiting
      || (waiting == than.waiting
          && (|| running < than.running
              || (running == than.running
                  && (|| flight < than.flight
                      || (flight == than.flight
                          && (|| worker < than.worker
                              || (worker == than.worker && LessOfWorker(than))))))))
    }

    predicate LessOfWorker(than: Rest) {
      || stage < than.stage
      || (stage == than.stage
          && (|| hand < than.hand
              || (hand == than.hand
                  && (|| receipt < than.receipt
                      || (receipt == than.receipt
                          && (|| acts < than.acts
                              || (acts == than.acts
                                  && (|| wake < than.wake
                                      || (wake == than.wake && phase < than.phase)))))))))
    }
  }

  function RestOf(s: System): Rest {
    Rest(|s.k.waiting|, s.k.running, FlightLeft(s),
         if s.worker.Busy? then s.worker.left else 0, StageLeft(s.worker), HandLeft(s.worker),
         ReceiptLeft(s), |s.Acts()|, if s.wake then 1 else 0, PhaseLeft(s))
  }

  lemma {:induction false} TakeGoesOn(s: System, left: nat)
    requires Scheduled(s) && Handshake(s) && s.worker.Idle? && s.jobs != []
    ensures RestOf(OnTake(s, left)).Less(RestOf(s))
  {
    assert OnTake(s, left).Acts() == s.Acts();
  }

  lemma {:induction false} FinishGoesOn(s: System, ran: Ran)
    requires Scheduled(s) && Handshake(s) && s.worker.Busy?
    ensures RestOf(OnFinish(s, ran)).Less(RestOf(s))
  {
    assert OnFinish(s, ran).Acts() == s.Acts();
  }

  lemma {:induction false} WorkerGoesOn(s: System, step: Step)
    requires Scheduled(s) && Handshake(s) && Enabled(s, step) && OfWorker(step) && !step.Takes? && !step.Finishes?
    ensures RestOf(OnWorker(s, step)).Less(RestOf(s))
  {
    var s' := OnWorker(s, step);
    assert s'.Acts() == s.Acts() && s'.k == s.k && s'.jobs == s.jobs && s'.runs == s.runs;
    assert FlightLeft(s') <= FlightLeft(s);
  }

  lemma {:induction false} StartGoesOn(s: System)
    requires Scheduled(s) && s.runs != []
    ensures RestOf(OnStart(s)).Less(RestOf(s))
  {
    assert OnStart(s).Acts() == s.Acts();
  }

  /** The loop turned: what else there is, is as it was. */
  lemma {:induction false} PhaseGoesOn(s: System, s': System)
    requires s' == s.(phase := s'.phase, wake := s'.wake)
    requires (s.wake && !s'.wake) || (s.wake == s'.wake && PhaseLeft(s') < PhaseLeft(s))
    ensures RestOf(s').Less(RestOf(s))
  {
    assert s'.Acts() == s.Acts();
  }

  lemma {:induction false} LoopGoesOn(s: System, step: Step)
    requires Scheduled(s) && Phased(s) && Enabled(s, step)
    requires || step.Wakes? || step.UpdatesDone? || step == BeginsSending(None)
             || step.SendingDone? || step.StartingDone? || step.StartsOne?
    ensures RestOf(OnClient(s, step)).Less(RestOf(s))
  {
    if step.StartsOne? {
      StartGoesOn(s);
    } else {
      PhaseGoesOn(s, OnClient(s, step));
    }
  }

  lemma {:induction false} FenceGoesOn(s: System)
    requires Handshake(s) && s.next < |s.stream| && s.stream[s.next] == DoFence && s.k.receipt
    ensures RestOf(OnDispatch(s)).Less(RestOf(s))
  {
    ActsTaken(s);
  }

  lemma {:induction false} RunGoesOn(s: System)
    requires Handshake(s) && s.next < |s.stream| && s.stream[s.next].DoRun?
    ensures RestOf(OnDispatch(s)).Less(RestOf(s))
  {
    ActsTaken(s);
  }

  lemma {:induction false} FrameGoesOn(s: System)
    requires s.next < |s.stream| && (s.stream[s.next].DoSend? || s.stream[s.next].DoAnswer?)
    ensures OnDispatch(s).phase != Over ==> RestOf(OnDispatch(s)).Less(RestOf(s))
  {
    ActsTaken(s);
  }

  lemma {:induction false} SendingGoesOn(s: System)
    requires Steady(s) && s.phase == Sending && s.next < |s.stream|
    ensures OnDispatch(s).phase != Over ==> RestOf(OnDispatch(s)).Less(RestOf(s))
  {
    match s.stream[s.next]
    case DoFence =>
      FenceTaken(s);
      FenceGoesOn(s);
    case DoRun(_) => RunGoesOn(s);
    case _ => FrameGoesOn(s);
  }

  lemma {:induction false} ReleaseGoesOn(s: System)
    requires Scheduled(s) && s.phase == Gathering && !s.Released()
    ensures RestOf(OnRelease(s)).Less(RestOf(s))
  {
    HandleSteps(s.k.(waiting := s.k.waiting[1..]), s.shared, s.k.waiting[0]);
  }

  lemma {:induction false} FinishedGoesOn(s: System)
    requires Scheduled(s) && s.told != [] && s.told[0].Finished? && s.k.running > 0
    ensures RestOf(OnUpdate(s)).Less(RestOf(s))
  {
    FinishedSteps(s.k, s.shared, s.told[0].ran);
  }

  lemma {:induction false} PresentsGoesOn(s: System)
    requires Handshake(s) && s.told != [] && s.told[0].Presents?
    ensures RestOf(OnUpdate(s)).Less(RestOf(s))
  {
    var v := s.told[0].version;
    PresentingIs(v);
    assert OnUpdate(s).Acts() == s.Acts() + Presenting(v);
    JobsAppend(s.Acts(), Presenting(v));
  }

  lemma {:induction false} UpdateGoesOn(s: System)
    requires Scheduled(s) && Handshake(s) && s.told != []
    ensures RestOf(OnUpdate(s)).Less(RestOf(s))
  {
    match s.told[0]
    case Finished(_) =>
      FinishedRuns(s);
      FinishedGoesOn(s);
    case Presents(_) => PresentsGoesOn(s);
  }

  lemma {:induction false} WorkerStepGoesOn(s: System, step: Step)
    requires Steady(s) && Enabled(s, step) && OfWorker(step)
    ensures RestOf(OnWorker(s, step)).Less(RestOf(s))
  {
    if step.Takes? {
      TakeGoesOn(s, step.left);
    } else if step.Finishes? {
      FinishGoesOn(s, step.ran);
    } else {
      WorkerGoesOn(s, step);
    }
  }

  lemma {:induction false} ClientStepGoesOn(s: System, step: Step)
    requires Steady(s) && Enabled(s, step) && !OfWorker(step) && step.Internal()
    ensures OnClient(s, step).phase != Over ==> RestOf(OnClient(s, step)).Less(RestOf(s))
  {
    match step
    case ReleasesOne => ReleaseGoesOn(s);
    case TakesUpdate => UpdateGoesOn(s);
    case SendsOne => SendingGoesOn(s);
    case _ => LoopGoesOn(s, step);
  }

  /** Every step but the world's leaves less to do, or ends the attachment. */
  lemma {:induction false} StepsLeaveLess(s: System, step: Step)
    requires Steady(s) && Enabled(s, step) && step.Internal()
    ensures After(s, step).phase != Over ==> RestOf(After(s, step)).Less(RestOf(s))
  {
    if OfWorker(step) {
      WorkerStepGoesOn(s, step);
    } else {
      ClientStepGoesOn(s, step);
    }
  }

  /** Whoever is let go next: a step at hand, while anything is unfinished. */
  ghost predicate Chooses(choose: System -> Step) {
    forall t: System :: Steady(t) && t.phase != Over && !Quiet(t) ==> choose(t).Internal() && Enabled(t, choose(t))
  }

  /** One step of those chosen, which leaves less to do. */
  lemma {:induction false} ChosenStep(s: System, choose: System -> Step) returns (next: System)
    requires Steady(s) && Chooses(choose) && s.phase != Over && !Quiet(s)
    ensures Enabled(s, choose(s)) && next == After(s, choose(s))
    ensures next.phase == Over || (Steady(next) && RestOf(next).Less(RestOf(s)))
  {
    next := After(s, choose(s));
    StepKeeps(s, choose(s));
    StepsLeaveLess(s, choose(s));
  }

  /**
   * Once nothing more comes from outside the client drains, in whatever order its parties go: after
   * some steps nothing runs or waits, or the attachment has ended.
   */
  lemma {:induction false} Drains(s: System, choose: System -> Step, rest: Rest) returns (steps: seq<Step>)
    requires Steady(s) && Chooses(choose) && rest == RestOf(s)
    ensures CanRun(s, steps)
    ensures RunOf(s, steps).phase == Over || Quiet(RunOf(s, steps))
    decreases rest.waiting, rest.running, rest.flight, rest.worker, rest.stage, rest.hand, rest.receipt, rest.acts,
      rest.wake, rest.phase
  {
    if s.phase == Over || Quiet(s) {
      return [];
    }
    var next := ChosenStep(s, choose);
    var more := [];
    if next.phase != Over {
      more := Drains(next, choose, RestOf(next));
    }
    steps := [choose(s)] + more;
    assert steps[1..] == more;
  }
}
