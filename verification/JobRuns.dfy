/**
 * What the worker's jobs come to in an attached client's runs: what they commit is shared, and how each ends
 * the client hears.
 */
module JobRuns {
  import opened Keys
  import opened Acts
  import opened Screens
  import opened Keyboards
  import opened Attachment
  import opened AttachmentRuns
  import opened Sequences

  /** A job that comes to its end may open a screen exactly if it did well and no stop stands then. */
  lemma {:induction false} MayOpen(s: System, ok: bool, notice: Option<(Said, bool)>, screen: Screen)
    requires Enabled(s, Settles(ok)) && |s.told| < MAILBOX
    ensures Enabled(After(s, Settles(ok)), Finishes(Ran(notice, Some(screen), s.worker.rebound))) <==>
            ok && !s.k.stop
  {
  }

  /** The worker has one job throughout. */
  predicate OneJob(s: System, steps: seq<Step>)
    requires CanRun(s, steps)
    decreases |steps|
  {
    s.worker.Busy? && (steps != [] ==> !steps[0].Finishes? && OneJob(After(s, steps[0]), steps[1..]))
  }

  /** Some step commits other keys of the screens than were shared before it. */
  predicate KeysChange(s: System, steps: seq<Step>)
    requires CanRun(s, steps)
    decreases |steps|
  {
    && steps != []
    && ((steps[0].Commits? && steps[0].committed.modes != s.shared.modes) || KeysChange(After(s, steps[0]), steps[1..]))
  }

  lemma {:induction false} ReboundIs(s: System, steps: seq<Step>)
    requires CanRun(s, steps) && OneJob(s, steps)
    ensures RunOf(s, steps).worker.Busy?
    ensures RunOf(s, steps).worker.rebound <==> s.worker.rebound || KeysChange(s, steps)
    decreases |steps|
  {
    if steps != [] {
      if !OfWorker(steps[0]) {
        ClientLeavesWorker(s, steps[0]);
      }
      ReboundIs(After(s, steps[0]), steps[1..]);
    }
  }

  /** A job's end says that the screens' keys changed exactly if the job changed them, whatever else ran meanwhile. */
  lemma {:induction false} EndSaysRebound(s: System, left: nat, steps: seq<Step>, ran: Ran)
    requires Enabled(s, Takes(left))
    requires CanRun(After(s, Takes(left)), steps) && OneJob(After(s, Takes(left)), steps)
    requires Enabled(RunOf(After(s, Takes(left)), steps), Finishes(ran))
    ensures ran.rebound <==> KeysChange(After(s, Takes(left)), steps)
  {
    ReboundIs(After(s, Takes(left)), steps);
  }

  /** What programs committed last, or what there was before any did. */
  function LastCommitted(shared: Shared, steps: seq<Step>): Shared
    decreases |steps|
  {
    if steps == [] then shared
    else LastCommitted(if steps[0].Commits? then steps[0].committed else shared, steps[1..])
  }

  /** Whatever runs meanwhile, what is shared is what was committed last. */
  lemma {:induction false} SharedIsCommitted(s: System, steps: seq<Step>)
    requires CanRun(s, steps)
    ensures RunOf(s, steps).shared == LastCommitted(s.shared, steps)
    decreases |steps|
  {
    if steps != [] {
      SharedStep(s, steps[0]);
      SharedIsCommitted(After(s, steps[0]), steps[1..]);
    }
  }

  lemma {:induction false} SharedStep(s: System, step: Step)
    requires Enabled(s, step)
    ensures After(s, step).shared == if step.Commits? then step.committed else s.shared
  {
  }

  /** How jobs ended, of those updates that say so. */
  function EndsIn(told: seq<Update>): seq<Ran> {
    if told == [] then [] else (if told[0].Finished? then [told[0].ran] else []) + EndsIn(told[1..])
  }

  function RansOf(ends: seq<Outcome>): seq<Ran> {
    seq(|ends|, i requires 0 <= i < |ends| => ends[i].ran)
  }

  /** The ends the client took, in order. */
  function EndsHeard(s: System, steps: seq<Step>): seq<Ran>
    requires CanRun(s, steps)
    decreases |steps|
  {
    if steps == [] then []
    else (if steps[0].TakesUpdate? then EndsIn(s.told[..1]) else []) + EndsHeard(After(s, steps[0]), steps[1..])
  }

  lemma {:induction false} EndsAppend(a: seq<Update>, b: seq<Update>)
    ensures EndsIn(a + b) == EndsIn(a) + EndsIn(b)
  {
    if a == [] {
      assert a + b == b;
    } else {
      assert (a + b)[1..] == a[1..] + b;
      EndsAppend(a[1..], b);
      Joined(if a[0].Finished? then [a[0].ran] else [], EndsIn(a[1..]), EndsIn(b));
    }
  }

  lemma {:induction false} EndsOne(update: Update)
    ensures EndsIn([update]) == if update.Finished? then [update.ran] else []
  {
    assert [update][1..] == [];
  }

  /** One step: an end comes to be told, or is taken, or neither. */
  lemma {:induction false} EndsStep(s: System, step: Step)
    requires Enabled(s, step)
    ensures var heard := if step.TakesUpdate? then EndsIn(s.told[..1]) else [];
            var ended := if step.Finishes? then [step.ran] else [];
            heard + EndsIn(After(s, step).told) == EndsIn(s.told) + ended
  {
    assert EndsIn(s.told) + [] == EndsIn(s.told) == [] + EndsIn(s.told);
    if OfWorker(step) {
      WorkerEnds(s, step);
    } else if step.TakesUpdate? {
      assert s.told == s.told[..1] + s.told[1..];
      EndsAppend(s.told[..1], s.told[1..]);
    } else {
      ClientTakesNone(s, step);
    }
  }

  lemma {:induction false} ClientTakesNone(s: System, step: Step)
    requires Enabled(s, step) && !OfWorker(step) && !step.TakesUpdate?
    ensures OnClient(s, step).told == s.told
  {
  }

  lemma {:induction false} WorkerEnds(s: System, step: Step)
    requires Enabled(s, step) && OfWorker(step)
    ensures EndsIn(OnWorker(s, step).told) == EndsIn(s.told) + if step.Finishes? then [step.ran] else []
  {
    assert EndsIn(s.told) + [] == EndsIn(s.told);
    if step.Finishes? {
      EndsAppend(s.told, [Finished(step.ran)]);
      EndsOne(Finished(step.ran));
    } else if step.Tells? {
      EndsAppend(s.told, [Presents(s.worker.hand.version)]);
      EndsOne(Presents(s.worker.hand.version));
    }
  }

  lemma {:induction false} RansStep(s: System, step: Step)
    requires Enabled(s, step)
    ensures RansOf(After(s, step).history.ends) ==
            RansOf(s.history.ends) + if step.Finishes? then [step.ran] else []
  {
    assert RansOf(s.history.ends) + [] == RansOf(s.history.ends);
    if !OfWorker(step) {
      ClientLeavesWorker(s, step);
    }
  }

  /** How jobs ended, by the steps that end them. */
  function EndsOf(steps: seq<Step>): seq<Ran> {
    if steps == [] then [] else (if steps[0].Finishes? then [steps[0].ran] else []) + EndsOf(steps[1..])
  }

  lemma {:induction false} EndsTaken(s: System, steps: seq<Step>)
    requires CanRun(s, steps)
    ensures EndsHeard(s, steps) + EndsIn(RunOf(s, steps).told) == EndsIn(s.told) + EndsOf(steps)
    ensures RansOf(RunOf(s, steps).history.ends) == RansOf(s.history.ends) + EndsOf(steps)
    decreases |steps|
  {
    if steps == [] {
      assert [] + EndsIn(s.told) == EndsIn(s.told) + [];
      assert RansOf(s.history.ends) + [] == RansOf(s.history.ends);
    } else {
      var next := After(s, steps[0]);
      var heard := if steps[0].TakesUpdate? then EndsIn(s.told[..1]) else [];
      var ended := if steps[0].Finishes? then [steps[0].ran] else [];
      EndsStep(s, steps[0]);
      RansStep(s, steps[0]);
      EndsTaken(next, steps[1..]);
      Joined(heard, EndsHeard(next, steps[1..]), EndsIn(RunOf(s, steps).told));
      Joined(heard, EndsIn(next.told), EndsOf(steps[1..]));
      Joined(EndsIn(s.told), ended, EndsOf(steps[1..]));
      Joined(RansOf(s.history.ends), ended, EndsOf(steps[1..]));
    }
  }

  /** In every interleaving the client hears of each job's end, once and in order, but for one it is yet to take. */
  lemma {:induction false} EndsAreHeard(readOnly: bool, shared: Shared, notices: seq<(Said, bool)>, steps: seq<Step>)
    requires CanRun(Welcomed(readOnly, shared, notices), steps)
    ensures var s := Welcomed(readOnly, shared, notices);
            var t := RunOf(s, steps);
            && EndsHeard(s, steps) + EndsIn(t.told) == EndsOf(steps) == RansOf(t.history.ends)
            && (t.phase != Over ==> |EndsIn(t.told)| <= 1)
  {
    var s := Welcomed(readOnly, shared, notices);
    EndsTaken(s, steps);
    assert [] + EndsOf(steps) == EndsOf(steps) && RansOf(s.history.ends) == [];
    EveryRunIsSound(readOnly, shared, notices, steps);
    var t := RunOf(s, steps);
    if t.phase != Over {
      WorkerNeverBlocks(t);
      EndsFew(t.told);
    }
  }

  lemma {:induction false} EndsFew(told: seq<Update>)
    requires |told| <= 1
    ensures |EndsIn(told)| <= 1
  {
    assert told != [] ==> told[1..] == [];
  }
}
