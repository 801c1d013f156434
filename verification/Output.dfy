/**
 * The paints a client relays to its terminal (`Output` of src/client.rs): the client hands them to a
 * writer of their own, which waits on the terminal; what is unwritten bounds what is read.
 */
module Output {
  newtype Byte = b: int | 0 <= b < 256

  type Paint = seq<Byte>

  /** At this many bytes unwritten there is no room. */
  const OUTPUT_MAX: nat := 0x10_0000

  /** The bytes of a frame at most (fux-wire), which a paint's are fewer than. */
  const MAX_FRAME: nat := 0x10_0000

  // ------------------------------------------------------------------- one write

  /** What a write of the bytes left says: how many it took, that it was interrupted, or why not. */
  datatype Answer = Took(n: nat) | Interrupted | Refused

  /** How far the writing of a paint is: of its bytes, `at` are written. */
  datatype Writing = Writing(at: nat, ended: Outcome) { predicate Goes() { ended.Unfinished? } }
  datatype Outcome = Unfinished | Written | Failed

  /** One answer, to the bytes from `at` on. */
  function Answered(paint: Paint, at: nat, answer: Answer): (w: Writing)
    requires at < |paint|
    ensures at <= w.at <= |paint| && (w.ended.Written? <==> w.at == |paint|)
  {
    match answer
    case Took(0) => Writing(at, Failed)
    case Took(n) => if at + n < |paint| then Writing(at + n, Unfinished) else Writing(|paint|, Written)
    case Interrupted => Writing(at, Unfinished)
    case Refused => Writing(at, Failed)
  }

  function Started(paint: Paint): Writing { Writing(0, if paint == [] then Written else Unfinished) }

  /** Answers taken while any bytes are left. */
  function Write(paint: Paint, w: Writing, answers: seq<Answer>): (after: Writing)
    requires w.at <= |paint| && (w.ended.Written? <==> w.at == |paint|)
    ensures w.at <= after.at <= |paint| && (after.ended.Written? <==> after.at == |paint|)
    decreases |answers|
  {
    if !w.Goes() || answers == [] then w else Write(paint, Answered(paint, w.at, answers[0]), answers[1..])
  }

  /** Writes all of a paint, a write at a time, as far as the answers go: `shown` is what the terminal took. */
  method WriteStdout(paint: Paint, answers: seq<Answer>) returns (shown: Paint, ended: Outcome)
    ensures Write(paint, Started(paint), answers) == Writing(|shown|, ended)
    ensures shown <= paint
    ensures ended.Written? <==> shown == paint
  {
    var bytes := paint;
    shown, ended := [], if paint == [] then Written else Unfinished;
    var i := 0;
    while bytes != [] && i < |answers|
      invariant 0 <= i <= |answers|
      invariant paint == shown + bytes
      invariant ended == if bytes == [] then Written else Unfinished
      invariant Write(paint, Started(paint), answers) == Write(paint, Writing(|shown|, ended), answers[i..])
      decreases |answers| - i
    {
      match answers[i] {
        case Took(n) =>
          if n == 0 {
            ended := Failed;
            break;
          }
          var took := if n < |bytes| then n else |bytes|;
          shown := shown + bytes[..took];
          bytes := bytes[took..];
          if bytes == [] {
            ended := Written;
          }
        case Interrupted =>
        case Refused =>
          ended := Failed;
          break;
      }
      i := i + 1;
    }
  }

  /** The terminal refuses bytes, or takes none. */
  predicate Cuts(answer: Answer) { answer == Took(0) || answer.Refused? }

  /** How many bytes the answers before a failure take, interruptions aside. */
  function Offered(answers: seq<Answer>): nat {
    if answers == [] || Cuts(answers[0]) then 0
    else (if answers[0].Took? then answers[0].n else 0) + Offered(answers[1..])
  }

  /** A paint is written once answers take as much as is left of it; else one may have failed it. */
  lemma {:induction false} WriteIs(paint: Paint, at: nat, answers: seq<Answer>)
    requires at < |paint|
    ensures Write(paint, Writing(at, Unfinished), answers) ==
            if at + Offered(answers) >= |paint| then Writing(|paint|, Written)
            else Writing(at + Offered(answers), if exists a | a in answers :: Cuts(a) then Failed else Unfinished)
    decreases |answers|
  {
    if answers != [] {
      assert answers == [answers[0]] + answers[1..];
      var next := Answered(paint, at, answers[0]);
      if next.Goes() {
        WriteIs(paint, next.at, answers[1..]);
      }
    }
  }

  // -------------------------------------------------------- the client and its writer

  /**
   * The writer's thread: awaiting a paint, writing one, then counting it as written, saying whether
   * it failed and poking the client, one after another; or at its end.
   */
  datatype Writer =
    | Awaiting
    | Busy(paint: Paint, w: Writing)
    | Counted(ok: bool)
    | Said(ok: bool)
    | Gone(ok: bool)

  /** Where the client is: reading frames, reading the last of them, at its end, or finished. */
  datatype Stage = Reading | Last | Returned(ok: bool) | Closed(ok: bool) | Finished(ok: bool, finished: bool)

  /**
   * Paints `handed` over are `done`, in hand, queued, or, counted already, about to be (`adding`).
   * `joined` once the writer's end was waited for.
   */
  datatype System = System(
    handed: seq<Paint>,
    done: seq<Paint>,
    queue: seq<Paint>,
    adding: seq<Paint>,
    terminal: Paint,
    unwritten: nat,
    failed: bool,
    wake: bool,
    joined: bool,
    writer: Writer,
    stage: Stage)
  {
    /** The paint the writer has in hand. */
    function Hand(): seq<Paint> { if writer.Busy? then [writer.paint] else [] }
  }

  const OPENED := System([], [], [], [], [], 0, false, false, false, Awaiting, Reading)

  datatype Step =
    // The client.
    | Adds(paint: Paint)
    | Sends
    | Wakes
    | ReadsLast
    | Returns(ok: bool)
    | Closes
    | Joins
    // The writer.
    | Takes
    | Writes(answer: Answer)
    | Counts
    | Says
    | Pokes
    | Ends

  predicate Enabled(s: System, step: Step) {
    match step
    case Adds(paint) =>
      s.adding == [] && |paint| < MAX_FRAME && ((s.stage.Reading? && s.unwritten < OUTPUT_MAX) || s.stage.Last?)
    case Sends => s.adding != [] && (s.stage.Reading? || s.stage.Last?) && (s.writer.Gone? || !s.joined)
    case Wakes => s.adding == [] && s.stage.Reading? && s.wake && (s.failed && !s.joined ==> s.writer.Gone?)
    case ReadsLast => s.adding == [] && s.stage.Reading?
    case Returns(_) => s.adding == [] && (s.stage.Reading? || s.stage.Last?)
    case Closes => s.stage.Returned?
    case Joins => s.stage.Closed? && (s.joined || s.writer.Gone?)
    case Takes => s.writer.Awaiting? && s.queue != []
    case Writes(_) => s.writer.Busy? && s.writer.w.Goes() && s.writer.w.at < |s.writer.paint|
    case Counts => s.writer.Busy? && !s.writer.w.Goes()
    case Says => s.writer.Counted?
    case Pokes => s.writer.Said?
    case Ends => s.writer.Awaiting? && s.queue == [] && s.stage.Closed?
  }

  function OnWrite(s: System, answer: Answer): System
    requires s.writer.Busy? && s.writer.w.at < |s.writer.paint|
  {
    var (paint, at) := (s.writer.paint, s.writer.w.at);
    var w := Answered(paint, at, answer);
    s.(writer := Busy(paint, w), terminal := s.terminal + paint[at..w.at])
  }

  function After(s: System, step: Step): System
    requires Enabled(s, step)
  {
    match step
    // The bytes are counted, then the paint is sent: to a writer that ended, it is not, and the end is said.
    case Adds(paint) => s.(adding := [paint], handed := s.handed + [paint], unwritten := s.unwritten + |paint|)
    case Sends =>
      if s.writer.Gone? then s.(joined := true, stage := Returned(false))
      else s.(queue := s.queue + s.adding, adding := [])
    case Wakes =>
      if s.failed && !s.joined then
        s.(wake := false, joined := true, stage := if s.writer.Gone? && s.writer.ok then s.stage else Returned(false))
      else s.(wake := false)
    case ReadsLast => s.(stage := Last)
    case Returns(ok) => s.(stage := Returned(ok))
    case Closes => s.(stage := Closed(s.stage.ok))
    case Joins => s.(joined := true, stage := Finished(s.stage.ok, s.joined || (s.writer.Gone? && s.writer.ok)))
    case Takes => s.(writer := Busy(s.queue[0], Started(s.queue[0])), queue := s.queue[1..])
    case Writes(answer) => OnWrite(s, answer)
    case Counts =>
      var paint := s.writer.paint;
      s.(writer := Counted(s.writer.w.ended.Written?), done := s.done + [paint],
         unwritten := if |paint| <= s.unwritten then s.unwritten - |paint| else 0)
    case Says => s.(writer := Said(s.writer.ok), failed := !s.writer.ok)
    case Pokes => s.(writer := if s.writer.ok then Awaiting else Gone(false), wake := true)
    case Ends => s.(writer := Gone(true))
  }

  predicate CanRun(s: System, steps: seq<Step>)
    decreases |steps|
  {
    steps != [] ==> Enabled(s, steps[0]) && CanRun(After(s, steps[0]), steps[1..])
  }

  function RunOf(s: System, steps: seq<Step>): System
    requires CanRun(s, steps)
    decreases |steps|
  {
    if steps == [] then s else RunOf(After(s, steps[0]), steps[1..])
  }

  // ------------------------------------------------------------------ what it keeps

  function Flat(paints: seq<Paint>): Paint {
    if paints == [] then [] else paints[0] + Flat(paints[1..])
  }

  lemma {:induction false} FlatAppend(a: seq<Paint>, b: seq<Paint>)
    ensures Flat(a + b) == Flat(a) + Flat(b)
  {
    if a == [] {
      assert a + b == b;
    } else {
      assert (a + b)[1..] == a[1..] + b;
      FlatAppend(a[1..], b);
      assert a[0] + (Flat(a[1..]) + Flat(b)) == a[0] + Flat(a[1..]) + Flat(b);
    }
  }

  lemma {:induction false} FlatOne(paint: Paint)
    ensures Flat([paint]) == paint
  {
    assert [paint][1..] == [] && paint + [] == paint;
  }

  /** Every byte handed over is counted done, in the writer's hand, queued, or being added. */
  ghost predicate Accounted(s: System) {
    && s.handed == s.done + s.Hand() + s.queue + s.adding
    && s.unwritten == |Flat(s.Hand())| + |Flat(s.queue)| + |Flat(s.adding)|
    && |s.adding| <= 1
  }

  /** The writer is at the end a failed write brings it to. */
  predicate Fails(s: System) {
    match s.writer
    case Busy(_, w) => w.ended.Failed?
    case Counted(ok) => !ok
    case Said(ok) => !ok
    case Gone(ok) => !ok
    case Awaiting => false
  }

  /** The terminal has the paints done, but that one that failed is cut short, and part of the one in hand. */
  ghost predicate InOrder(s: System) {
    && s.terminal <= Flat(s.handed)
    && (s.writer.Busy? ==>
          && s.writer.w.at <= |s.writer.paint| && (s.writer.w.ended.Written? <==> s.writer.w.at == |s.writer.paint|)
          && s.terminal == Flat(s.done) + s.writer.paint[..s.writer.w.at])
    && (!s.writer.Busy? && !Fails(s) ==> s.terminal == Flat(s.done))
    && (!s.writer.Busy? && Fails(s) ==> |s.terminal| < |Flat(s.done)|)
  }

  /** How the client's stages and the writer's end go together. */
  ghost predicate Staged(s: System) {
    && (s.failed ==> Fails(s))
    && (s.writer.Said? ==> s.failed == !s.writer.ok)
    && (s.writer.Gone? ==> s.failed == !s.writer.ok)
    && (s.writer == Gone(true) ==> s.queue == [] && s.adding == [] && (s.stage.Closed? || s.stage.Finished?))
    && (s.adding != [] && (s.stage.Returned? || s.stage.Closed? || s.stage.Finished?) ==>
       s.joined && s.writer == Gone(false) && !s.stage.ok)
    && (s.joined ==> s.writer.Gone? && (s.stage.Returned? || s.stage.Closed? || s.stage.Finished?))
    && (s.joined && (s.stage.Returned? || s.stage.Closed?) ==> !s.stage.ok && !s.writer.ok)
    && (s.stage.Finished? ==> s.joined)
  }

  /** What is unwritten while frames are read: less than the bound, and a paint more. */
  ghost predicate Bounded(s: System) {
    s.stage.Reading? ==> s.unwritten < OUTPUT_MAX + MAX_FRAME
  }

  ghost predicate Sound(s: System) {
    Accounted(s) && InOrder(s) && Staged(s) && Bounded(s)
  }

  lemma {:induction false} Four(a: seq<Paint>, b: seq<Paint>, c: seq<Paint>, d: seq<Paint>)
    ensures Flat(a + b + c + d) == Flat(a) + Flat(b) + Flat(c) + Flat(d)
  {
    FlatAppend(a + b + c, d);
    FlatAppend(a + b, c);
    FlatAppend(a, b);
  }

  lemma {:induction false} AddsKeeps(s: System, paint: Paint)
    requires Sound(s) && Enabled(s, Adds(paint))
    ensures Sound(After(s, Adds(paint)))
  {
    FlatAppend(s.handed, [paint]);
    FlatOne(paint);
    var s' := After(s, Adds(paint));
    assert s'.handed == s'.done + s'.Hand() + s'.queue + s'.adding;
  }

  lemma {:induction false} SendsKeeps(s: System)
    requires Sound(s) && Enabled(s, Sends)
    ensures Sound(After(s, Sends))
  {
    var s' := After(s, Sends);
    if !s.writer.Gone? {
      FlatAppend(s.queue, s.adding);
      assert s'.handed == s'.done + s'.Hand() + s'.queue + s'.adding;
    }
  }

  lemma {:induction false} TakesKeeps(s: System)
    requires Sound(s) && Enabled(s, Takes)
    ensures Sound(After(s, Takes))
  {
    var s' := After(s, Takes);
    FlatOne(s.queue[0]);
    assert s.queue == s'.Hand() + s'.queue;
    assert s'.handed == s'.done + s'.Hand() + s'.queue + s'.adding;
    assert Flat(s.done) + s.queue[0][..0] == Flat(s.done);
  }

  lemma {:induction false} PrefixGrows(done: Paint, hand: Paint, at: nat, queue: Paint, adding: Paint)
    requires at <= |hand|
    ensures done + hand[..at] <= done + hand + queue + adding
  {
  }

  lemma {:induction false} WritesKeeps(s: System, answer: Answer)
    requires Sound(s) && Enabled(s, Writes(answer))
    ensures Sound(After(s, Writes(answer)))
  {
    var s' := After(s, Writes(answer));
    var (paint, at, at') := (s.writer.paint, s.writer.w.at, s'.writer.w.at);
    WritesOn(Flat(s.done), paint, at, at');
    FlatOne(paint);
    Four(s.done, [paint], s.queue, s.adding);
    PrefixGrows(Flat(s.done), paint, at', Flat(s.queue), Flat(s.adding));
  }

  lemma {:induction false} WritesOn(done: Paint, paint: Paint, at: nat, past: nat)
    requires at <= past <= |paint|
    ensures done + paint[..at] + paint[at..past] == done + paint[..past]
  {
    assert paint[..past] == paint[..at] + paint[at..past];
  }

  lemma {:induction false} CountsKeeps(s: System)
    requires Sound(s) && Enabled(s, Counts)
    ensures Sound(After(s, Counts)) && s.unwritten >= |s.writer.paint|
  {
    var s' := After(s, Counts);
    var paint := s.writer.paint;
    FlatOne(paint);
    FlatAppend(s.done, [paint]);
    assert s'.handed == s'.done + s'.Hand() + s'.queue + s'.adding;
    assert paint[..|paint|] == paint;
  }

  /** Every step keeps it, however the writer and the client are interleaved. */
  lemma {:induction false} StepKeeps(s: System, step: Step)
    requires Sound(s) && Enabled(s, step)
    ensures Sound(After(s, step))
  {
    match step
    case Adds(paint) => AddsKeeps(s, paint);
    case Sends => SendsKeeps(s);
    case Takes => TakesKeeps(s);
    case Writes(answer) => WritesKeeps(s, answer);
    case Counts => CountsKeeps(s);
    case _ =>
  }

  lemma {:induction false} RunKeeps(s: System, steps: seq<Step>)
    requires Sound(s) && CanRun(s, steps)
    ensures Sound(RunOf(s, steps))
    decreases |steps|
  {
    if steps != [] {
      StepKeeps(s, steps[0]);
      RunKeeps(After(s, steps[0]), steps[1..]);
    }
  }

  /** In every run the terminal has a prefix of what was handed over, and what is unwritten is bounded. */
  lemma {:induction false} EveryRunIsInOrder(steps: seq<Step>)
    requires CanRun(OPENED, steps)
    ensures var s := RunOf(OPENED, steps);
            && s.terminal <= Flat(s.handed)
            && s.unwritten == |Flat(s.Hand())| + |Flat(s.queue)| + |Flat(s.adding)|
            && (s.stage.Reading? ==> s.unwritten < OUTPUT_MAX + MAX_FRAME)
  {
    RunKeeps(OPENED, steps);
  }

  lemma {:induction false} GoneSays(s: System)
    requires Sound(s) && s.writer.Gone?
    ensures s.writer.ok <==> s.terminal == Flat(s.handed)
  {
    Four(s.done, s.Hand(), s.queue, s.adding);
    assert s.done + [] + [] + [] == s.done;
  }

  /** `finish` says all is well exactly when all was written, or a failure was said before. */
  lemma {:induction false} FinishSays(s: System)
    requires Sound(s) && Enabled(s, Joins)
    ensures After(s, Joins).stage.finished <==> s.joined || s.terminal == Flat(s.handed)
    ensures s.joined ==> !s.stage.ok && s.terminal != Flat(s.handed)
  {
    GoneSays(s);
  }

  /** A run in which a write fails, the client is woken for it, and `finish` then says all is well. */
  lemma {:induction false} FinishMaySayWell(paint: Paint) returns (steps: seq<Step>)
    requires 0 < |paint| < MAX_FRAME
    ensures CanRun(OPENED, steps)
    ensures var s := RunOf(OPENED, steps);
            s.stage == Finished(false, true) && s.terminal == [] && Flat(s.handed) == paint
  {
    var (hands, fails, ends) :=
      ([Adds(paint), Sends, Takes], [Writes(Refused), Counts, Says, Pokes], [Wakes, Closes, Joins]);
    var s1 := HandsOver(paint);
    var s2 := WriteFails(s1, paint);
    WokenEnds(s2);
    RunJoins(OPENED, hands, fails);
    RunJoins(OPENED, hands + fails, ends);
    FlatOne(paint);
    steps := hands + fails + ends;
  }

  lemma {:induction false} HandsOver(paint: Paint) returns (s: System)
    requires 0 < |paint| < MAX_FRAME
    ensures CanRun(OPENED, [Adds(paint), Sends, Takes]) && s == RunOf(OPENED, [Adds(paint), Sends, Takes])
    ensures s == OPENED.(handed := [paint], unwritten := |paint|, writer := Busy(paint, Writing(0, Unfinished)))
  {
    var steps := [Adds(paint), Sends, Takes];
    assert steps[1..] == [Sends, Takes] && [Sends, Takes][1..] == [Takes] && [Takes][1..] == [];
    s := RunOf(OPENED, steps);
  }

  lemma {:induction false} WriteFails(s: System, paint: Paint) returns (s': System)
    requires s.writer == Busy(paint, Writing(0, Unfinished)) && paint != [] && s.unwritten == |paint|
    ensures CanRun(s, [Writes(Refused), Counts, Says, Pokes]) && s' == RunOf(s, [Writes(Refused), Counts, Says, Pokes])
    ensures s' == s.(done := s.done + [paint], unwritten := 0, failed := true, wake := true, writer := Gone(false))
  {
    var steps := [Writes(Refused), Counts, Says, Pokes];
    assert steps[1..] == [Counts, Says, Pokes] && [Counts, Says, Pokes][1..] == [Says, Pokes];
    assert [Says, Pokes][1..] == [Pokes] && [Pokes][1..] == [];
    assert s.terminal + paint[0..0] == s.terminal;
    s' := RunOf(s, steps);
  }

  lemma {:induction false} WokenEnds(s: System)
    requires s.stage.Reading? && s.adding == [] && s.failed && !s.joined && s.wake && s.writer == Gone(false)
    ensures CanRun(s, [Wakes, Closes, Joins])
    ensures RunOf(s, [Wakes, Closes, Joins]) == s.(wake := false, joined := true, stage := Finished(false, true))
  {
    assert [Wakes, Closes, Joins][1..] == [Closes, Joins] && [Closes, Joins][1..] == [Joins] && [Joins][1..] == [];
  }

  /** An attachment that went well ends well exactly if the terminal was written all it was sent. */
  lemma {:induction false} AttachmentShowsAll(steps: seq<Step>)
    requires CanRun(OPENED, steps) && RunOf(OPENED, steps).stage.Finished?
    ensures var s := RunOf(OPENED, steps);
            s.stage.ok ==> (s.stage.finished <==> s.terminal == Flat(s.handed))
  {
    RunKeeps(OPENED, steps);
    FinishedShows(OPENED, steps);
  }

  /** What a finished attachment says of its output. */
  ghost predicate Honest(s: System) {
    s.stage.Finished? ==> s.writer.Gone? && (s.stage.ok ==> (s.stage.finished <==> s.terminal == Flat(s.handed)))
  }

  lemma {:induction false} FinishedShows(s: System, steps: seq<Step>)
    requires Sound(s) && CanRun(s, steps) && Honest(s)
    ensures Honest(RunOf(s, steps))
    decreases |steps|
  {
    if steps != [] {
      StepKeeps(s, steps[0]);
      if steps[0].Joins? {
        FinishSays(s);
      }
      FinishedShows(After(s, steps[0]), steps[1..]);
    }
  }

  /** The last frames are handed over unasked: what is unwritten then has no bound. */
  lemma {:induction false} LastIsUnbounded(n: nat) returns (steps: seq<Step>)
    ensures CanRun(OPENED, steps)
    ensures RunOf(OPENED, steps).stage.Last? && RunOf(OPENED, steps).unwritten >= n && RunOf(OPENED, steps).adding == []
    ensures RunOf(OPENED, steps).writer.Awaiting? && !RunOf(OPENED, steps).joined
  {
    if n == 0 {
      steps := [ReadsLast];
      assert steps[1..] == [];
    } else {
      var before := LastIsUnbounded(n - 1);
      steps := before + [Adds([0]), Sends];
      RunJoins(OPENED, before, [Adds([0]), Sends]);
      assert [Adds([0]), Sends][1..] == [Sends] && [Sends][1..] == [];
    }
  }

  lemma {:induction false} RunJoins(s: System, a: seq<Step>, b: seq<Step>)
    requires CanRun(s, a)
    ensures CanRun(s, a + b) <==> CanRun(RunOf(s, a), b)
    ensures CanRun(s, a + b) ==> RunOf(s, a + b) == RunOf(RunOf(s, a), b)
    decreases |a|
  {
    if a == [] {
      assert a + b == b;
    } else {
      assert (a + b)[1..] == a[1..] + b;
      RunJoins(After(s, a[0]), a[1..], b);
    }
  }

  /** Waiting for the writer at the end, the client waits for the terminal alone: the writer has a step. */
  lemma {:induction false} WriterGoesOn(s: System)
    requires Sound(s) && s.stage.Closed? && !s.joined && !s.writer.Gone?
    ensures Enabled(s, Takes) || Enabled(s, Writes(Took(1))) || Enabled(s, Counts) || Enabled(s, Says)
            || Enabled(s, Pokes)
            || Enabled(s, Ends)
  {
  }
}
