/** A client's keyboard, changed in place by what comes (src/client.rs): each call keeps to its function. */
module KeyboardObject {
  import opened Keys
  import opened Acts
  import opened HeldKeys
  import opened Screens
  import opened Keyboards
  import opened Sequences

  class ClientKeyboard {
    const screen: Display
    const readOnly: bool
    /** Jobs admitted whose end the client has not heard of. */
    var running: nat
    /** Those of them not yet started, in order. */
    var pending: seq<Job>
    /** Inputs held back, the oldest first. */
    var waiting: seq<Input>
    /** Whether the worker awaits a receipt. */
    var receipt: bool
    var stop: bool
    ghost var log: Log

    constructor (watches: bool)
      ensures Value() == NewKeyboard(watches) && fresh(screen)
    {
      screen := new Display();
      readOnly := watches;
      running, pending, waiting, receipt, stop := 0, [], [], false, false;
      log := NOTHING_TYPED;
    }

    ghost function Value(): Keyboard
      reads this, screen
    {
      Keyboard(screen.Value(), readOnly, running, pending, waiting, receipt, stop, log)
    }

    /** Admits a job: it starts, or is left pending. */
    method Run(job: Job) returns (out: seq<Dispatch>)
      modifies this
      ensures (Value(), out) == Admit(old(Value()), job)
    {
      if running == 0 {
        stop := false;
      }
      var before := running;
      running := running + 1;
      log := log.(admitted := log.admitted + [job], anew := if before == 0 then |log.arrived| else log.anew);
      if before == 0 {
        out := [DoRun(job)];
      } else {
        pending := pending + [job];
        out := [];
      }
    }

    /** Hands an input to the display and admits the jobs it leads to. */
    method TakeOne(s: Shared, input: Input) returns (out: seq<Dispatch>)
      modifies this, screen
      ensures (Value(), out) == Handle(old(Value()), s, input)
    {
      var effects := screen.Take(s.root, s.modes, input, readOnly);
      log := log.(handled := log.handled + [input]);
      out := [];
      ghost var all := Route(Value(), effects);
      while effects != []
        invariant all.0 == Route(Value(), effects).0
        invariant all.1 == out + Route(Value(), effects).1
        decreases |effects|
      {
        var first := [effects[0]];
        if effects[0].DoRun? {
          first := Run(effects[0].job);
        }
        out := out + first;
        effects := effects[1..];
      }
      assert out + [] == out;
    }

    /** Handles inputs held back until one of them starts a job. */
    method ReleaseWaiting(s: Shared) returns (out: seq<Dispatch>)
      modifies this, screen
      ensures (Value(), out) == Keyboards.Release(old(Value()), s)
    {
      out := [];
      ghost var all := Keyboards.Release(Value(), s);
      while running == 0 && waiting != []
        invariant all.0 == Keyboards.Release(Value(), s).0
        invariant all.1 == out + Keyboards.Release(Value(), s).1
        decreases |waiting|
      {
        ReleaseFirst(Value(), s, out);
        var input := waiting[0];
        waiting := waiting[1..];
        var first := TakeOne(s, input);
        out := out + first;
      }
      assert out + [] == out;
    }

    /** Logs an input: it stops what runs and takes a prefix with it, or is held back. */
    method Came(s: Shared, input: Input) returns (said: seq<Dispatch>)
      modifies `waiting, `stop, `log
      ensures (Value(), said) == Arrive(old(Value()), s, input)
    {
      if running > 0 && waiting != [] && input.KeyInput? && input.stroke.press == ESCAPE
         && waiting[|waiting| - 1].KeyInput? && Leads(s.root, waiting[|waiting| - 1].stroke.press) {
        log := log.(arrived := log.arrived + [ArrivalOf(Value(), s, input)]);
        waiting := waiting[..|waiting| - 1];
        stop := true;
        return [STOPPING];
      }
      log := log.(arrived := log.arrived + [ArrivalOf(Value(), s, input)]);
      waiting := waiting + [input];
      said := [];
    }

    /** Logs inputs in turn, handling what can be handled after each. */
    method Inputs(s: Shared, inputs: seq<Input>) returns (out: seq<Dispatch>)
      modifies this, screen
      ensures (Value(), out) == Keyboards.Inputs(old(Value()), s, inputs)
    {
      out := [];
      var left := inputs;
      ghost var all := Keyboards.Inputs(Value(), s, inputs);
      while left != []
        invariant all.0 == Keyboards.Inputs(Value(), s, left).0
        invariant all.1 == out + Keyboards.Inputs(Value(), s, left).1
        decreases |left|
      {
        ghost var came := Value();
        var said := Came(s, left[0]);
        var released := ReleaseWaiting(s);
        InputsFirst(came, s, left, out);
        out := out + said + released;
        left := left[1..];
      }
      assert out + [] == out;
    }

    /** Builds the answer to a read. */
    method Answering(s: Shared, read: ClientRead) returns (value: Data)
      ensures value == Answer(Value(), s, read)
    {
      if read.ReadPreferences? {
        return s.preferences;
      }
      var typed := if screen.screen.KeysScreen? then screen.screen.held.Typed() else [];
      value := KeysRecord.KeysRecord(s.root, s.modes, typed);
    }

    /** Handles a server's frame, and then inputs held back; keys it sends are inputs themselves. */
    method OnFrame(s: Shared, frame: Frame) returns (out: seq<Dispatch>)
      modifies this, screen
      ensures (Value(), out) == TakeFrame(old(Value()), s, frame)
    {
      out := [];
      match frame {
        case EndedFrame(opening) => screen.Ended(opening);
        case OpenFrame(opened') => out := Run(ScreenJob(opened'));
        case KeysFrame(inputs) =>
          out := Inputs(s, inputs);
          return;
        case ReadFrame(asked, read) =>
          var value := Answering(s, read);
          out := [DoAnswer(asked, value)];
      }
      var released := ReleaseWaiting(s);
      assert [] + released == released;
      out := out + released;
    }

    /** Shows a program's screen, or to a watcher a notice. */
    method Open(s: Shared, started: Screen) returns (acts: seq<Act>)
      modifies screen
      ensures (Value(), acts) == OpenFor(old(Value()), s, started)
    {
      if readOnly {
        return [Notice(WatchingOpensNoneSaid, true)];
      }
      acts := screen.Open(started, s.modes);
    }

    /** One update of the worker's: a presentation to send, or a job's end. */
    method OnUpdate(s: Shared, update: Update) returns (out: seq<Dispatch>)
      modifies this, screen
      ensures (Value(), out) == TakeUpdate(old(Value()), s, update)
    {
      if update.Presents? {
        receipt := true;
        return [DoSend(Presentation(update.version)), DoFence];
      }
      var ran := update.ran;
      running := if running == 0 then 0 else running - 1;
      var acts := [];
      var notice := ran.notice;
      if ran.shows.None? && ran.rebound && !screen.screen.KeysScreen? {
        var act := screen.Close();
        acts := match act case None => [] case Some(a) => [a];
        notice := Some(match notice
          case Some((said, error)) => (BothSaid(said, ClosedSaid), error)
          case None => (ClosedSaid, false));
      }
      if ran.shows.Some? {
        acts := Open(s, ran.shows.value);
        if acts != [] && acts[0].Notice? && notice.Some? {
          var first := Notice(BothSaid(acts[0].said, notice.value.0), acts[0].error || notice.value.1);
          acts := [first] + acts[1..];
          notice := None;
        }
      }
      assert acts + [] == acts && [] + NoticeOf(notice) == NoticeOf(notice);
      acts := acts + NoticeOf(notice);
      out := Keyboards.Sends(acts);
      if pending != [] {
        out := out + [DoRun(pending[0])];
        pending := pending[1..];
      }
    }

    /** Handles all the worker told, and then inputs held back. */
    method OnRan(s: Shared, told: seq<Update>) returns (out: seq<Dispatch>)
      modifies this, screen
      ensures (Value(), out) == TakeRan(old(Value()), s, told)
    {
      out := [];
      var left := told;
      ghost var all := TakeUpdates(Value(), s, told);
      while left != []
        invariant all.0 == TakeUpdates(Value(), s, left).0
        invariant all.1 == out + TakeUpdates(Value(), s, left).1
        decreases |left|
      {
        var first := OnUpdate(s, left[0]);
        out := out + first;
        left := left[1..];
      }
      assert out + [] == out;
      var released := ReleaseWaiting(s);
      out := out + released;
    }

    /** Every send before a fence is done: the receipt awaited, if one is, is given. */
    method Fence(frames: nat) returns (sent: Option<nat>)
      modifies this`receipt
      ensures Value() == old(Value()).(receipt := false)
      ensures sent == if old(receipt) then Some(frames) else None
    {
      sent := if receipt then Some(frames) else None;
      receipt := false;
    }
  }

  /** Taking an input leaves those that wait. */
  lemma {:induction false} HandleLeavesWaiting(k: Keyboard, s: Shared, input: Input)
    ensures Handle(k, s, input).0.waiting == k.waiting
  {
    var (display, effects) := TakeInput(k.display, s.root, s.modes, input, k.readOnly);
    RouteLeavesWaiting(k.(display := display, log := k.log.(handled := k.log.handled + [input])), effects);
  }

  lemma {:induction false} RouteLeavesWaiting(k: Keyboard, effects: seq<Dispatch>)
    ensures Route(k, effects).0.waiting == k.waiting
    decreases |effects|
  {
    if effects != [] {
      RouteLeavesWaiting(if effects[0].DoRun? then Admit(k, effects[0].job).0 else k, effects[1..]);
    }
  }

  lemma {:induction false} ReleaseFirst(k: Keyboard, s: Shared, out: seq<Dispatch>)
    requires k.running == 0 && k.waiting != []
    ensures var (k', first) := Handle(k.(waiting := k.waiting[1..]), s, k.waiting[0]);
            && |k'.waiting| < |k.waiting|
            && Keyboards.Release(k, s).0 == Keyboards.Release(k', s).0
            && out + Keyboards.Release(k, s).1 == out + first + Keyboards.Release(k', s).1
  {
    HandleLeavesWaiting(k.(waiting := k.waiting[1..]), s, k.waiting[0]);
    var (k', first) := Handle(k.(waiting := k.waiting[1..]), s, k.waiting[0]);
    Joined(out, first, Keyboards.Release(k', s).1);
  }

  lemma {:induction false} InputsFirst(k: Keyboard, s: Shared, inputs: seq<Input>, out: seq<Dispatch>)
    requires inputs != []
    ensures var (k1, out1) := Arrive(k, s, inputs[0]);
            var (k2, out2) := Keyboards.Release(k1, s);
            && Keyboards.Inputs(k, s, inputs).0 == Keyboards.Inputs(k2, s, inputs[1..]).0
            && out + Keyboards.Inputs(k, s, inputs).1 == out + out1 + out2 + Keyboards.Inputs(k2, s, inputs[1..]).1
  {
    var (k1, out1) := Arrive(k, s, inputs[0]);
    var (k2, out2) := Keyboards.Release(k1, s);
    JoinedThree(out, out1, out2, Keyboards.Inputs(k2, s, inputs[1..]).1);
  }
}
