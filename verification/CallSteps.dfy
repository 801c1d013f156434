/**
 * The calls of a client's keyboard (`frame`, `inputs` and `ran` of src/client.rs) as steps of the attached
 * client: each is a run of its steps, so what every run keeps every call does.
 */
module CallSteps {
  import opened Acts
  import opened Screens
  import opened Keyboards
  import opened Attachment
  import opened AttachmentRuns
  import opened Sequences

  lemma {:induction false} RunAppend(s: System, a: seq<Step>, b: seq<Step>)
    requires CanRun(s, a) && CanRun(RunOf(s, a), b)
    ensures CanRun(s, a + b) && RunOf(s, a + b) == RunOf(RunOf(s, a), b)
    decreases |a|
  {
    if a == [] {
      assert a + b == b;
    } else {
      assert (a + b)[0] == a[0] && (a + b)[1..] == a[1..] + b;
      RunAppend(After(s, a[0]), a[1..], b);
    }
  }

  lemma {:induction false} RunOne(s: System, step: Step)
    requires Enabled(s, step)
    ensures CanRun(s, [step]) && RunOf(s, [step]) == After(s, step)
  {
    assert [step][1..] == [];
  }

  /** A system after a call of its keyboard's. */
  function Called(s: System, done: (Keyboard, seq<Dispatch>)): System { Emit(s, done) }

  /** What waits, let go: as many steps as inputs are handled. */
  lemma {:induction false} ReleaseRuns(s: System) returns (steps: seq<Step>)
    requires s.phase == Gathering && s.next <= |s.stream| && Counts(s.k)
    ensures CanRun(s, steps) && RunOf(s, steps) == Called(s, Release(s.k, s.shared))
    ensures RunOf(s, steps).Released() && Counts(RunOf(s, steps).k)
    decreases |s.k.waiting|
  {
    if s.Released() {
      steps := [];
      assert s.stream + [] == s.stream;
    } else {
      var next := After(s, ReleasesOne);
      HandleSteps(s.k.(waiting := s.k.waiting[1..]), s.shared, s.k.waiting[0]);
      var rest := ReleaseRuns(next);
      steps := [ReleasesOne] + rest;
      RunOne(s, ReleasesOne);
      RunAppend(s, [ReleasesOne], rest);
      var first := Handle(s.k.(waiting := s.k.waiting[1..]), s.shared, s.k.waiting[0]).1;
      Joined(s.stream, first, Release(next.k, s.shared).1);
    }
  }

  /** A step, then what waits let go. */
  lemma {:induction false} StepReleases(s: System, step: Step) returns (steps: seq<Step>)
    requires Enabled(s, step) && Counts(After(s, step).k) && After(s, step).phase == Gathering
    requires After(s, step).next <= |After(s, step).stream|
    ensures CanRun(s, steps)
    ensures var next := After(s, step); RunOf(s, steps) == Called(next, Release(next.k, next.shared))
    ensures RunOf(s, steps).Released() && Counts(RunOf(s, steps).k)
  {
    var rest := ReleaseRuns(After(s, step));
    steps := [step] + rest;
    RunOne(s, step);
    RunAppend(s, [step], rest);
  }

  lemma {:induction false} CalledTwice(s: System, k: Keyboard, first: seq<Dispatch>, done: (Keyboard, seq<Dispatch>))
    ensures Called(Called(s, (k, first)), done) == Called(s, (done.0, first + done.1))
  {
    Joined(s.stream, first, done.1);
  }

  /** A frame of the server's, but for keys, which come as inputs. */
  lemma {:induction false} FrameRuns(s: System, frame: Frame) returns (steps: seq<Step>)
    requires Enabled(s, TakesFrame(frame)) && Counts(s.k)
    ensures CanRun(s, steps) && RunOf(s, steps) == Called(s, TakeFrame(s.k, s.shared, frame))
  {
    match frame {
      case EndedFrame(opening) =>
        assert s.stream + [] == s.stream;
        steps := StepReleases(s, TakesFrame(frame));
      case OpenFrame(screen) =>
        AdmitSteps(s.k, ScreenJob(screen));
        var (k, first) := Admit(s.k, ScreenJob(screen));
        steps := StepReleases(s, TakesFrame(frame));
        CalledTwice(s, k, first, Release(k, s.shared));
      case ReadFrame(asked, read) =>
        var first := [DoAnswer(asked, Answer(s.k, s.shared, read))];
        steps := StepReleases(s, TakesFrame(frame));
        CalledTwice(s, s.k, first, Release(s.k, s.shared));
    }
  }

  /** Inputs, typed or sent by the server, however many come at once. */
  lemma {:induction false} InputsRun(s: System, inputs: seq<Input>) returns (steps: seq<Step>)
    requires s.phase == Gathering && s.next <= |s.stream| && s.Released() && Counts(s.k) && InOrder(s.k)
    ensures CanRun(s, steps) && RunOf(s, steps) == Called(s, Inputs(s.k, s.shared, inputs))
    decreases |inputs|
  {
    if inputs == [] {
      steps := [];
      assert s.stream + [] == s.stream;
    } else {
      var (k1, out1) := Arrive(s.k, s.shared, inputs[0]);
      var (k2, out2) := Release(k1, s.shared);
      ArriveSteps(s.k, s.shared, inputs[0]);
      ReleaseSteps(k1, s.shared);
      var first := StepReleases(s, TakesInput(inputs[0]));
      CalledTwice(s, k1, out1, (k2, out2));
      var next := RunOf(s, first);
      assert next == Called(s, (k2, out1 + out2));
      var rest := InputsRun(next, inputs[1..]);
      steps := first + rest;
      RunAppend(s, first, rest);
      CalledTwice(s, k2, out1 + out2, Inputs(k2, s.shared, inputs[1..]));
    }
  }

  /** Updates the worker told, taken. */
  lemma {:induction false} UpdatesRun(s: System) returns (steps: seq<Step>)
    requires s.phase == Updating && s.next <= |s.stream|
    ensures CanRun(s, steps)
    ensures RunOf(s, steps) == Called(s, TakeUpdates(s.k, s.shared, s.told)).(told := [])
    decreases |s.told|
  {
    if s.told == [] {
      steps := [];
      assert s.stream + [] == s.stream;
    } else {
      var (k, first) := TakeUpdate(s.k, s.shared, s.told[0]);
      var rest := UpdatesRun(After(s, TakesUpdate));
      steps := [TakesUpdate] + rest;
      RunOne(s, TakesUpdate);
      RunAppend(s, [TakesUpdate], rest);
      CalledTwice(s, k, first, TakeUpdates(k, s.shared, s.told[1..]));
    }
  }

  /** Woken, the client takes all that its worker told. */
  lemma {:induction false} WokenRuns(s: System) returns (steps: seq<Step>)
    requires Steady(s) && Enabled(s, Wakes)
    ensures CanRun(s, steps) && Counts(RunOf(s, steps).k)
    ensures RunOf(s, steps) ==
            Called(s, TakeUpdates(s.k, s.shared, s.told)).(told := [], wake := false, phase := Updating)
  {
    var updates := UpdatesRun(After(s, Wakes));
    steps := [Wakes] + updates;
    RunOne(s, Wakes);
    RunAppend(s, [Wakes], updates);
    RunKeeps(s, steps);
  }

  /** Woken, the client takes all that its worker told, then what waited. */
  lemma {:induction false} RanRuns(s: System) returns (steps: seq<Step>)
    requires Steady(s) && Enabled(s, Wakes)
    ensures CanRun(s, steps)
    ensures RunOf(s, steps) == Called(s, TakeRan(s.k, s.shared, s.told)).(told := [], wake := false)
  {
    var (k, first) := TakeUpdates(s.k, s.shared, s.told);
    var updates := WokenRuns(s);
    var rest := StepReleases(RunOf(s, updates), UpdatesDone);
    steps := updates + rest;
    RunAppend(s, updates, rest);
    CalledTwice(s, k, first, Release(k, s.shared));
  }
}
