/**
 * Crash transparency: when what a step does depends only on the step and its data, and no
 * context ends, any schedule of crashes, failed saves and resumptions ends where one
 * uninterrupted run ends, which is what a plain fold over the steps computes.
 */
module Transparency {
  import opened Values
  import opened States
  import opened Records
  import opened Protocol
  import opened RecordShape
  import opened Bookkeeping

  // ---------- the reference ----------

  /** What Action and Compensate of each step do with given data. */
  datatype World = World(act: (nat, Any) -> Answer, undo: (nat, Any) -> Option<Error>)

  /** The data that reaches step `i` if all steps before it succeed. */
  function Fed(w: World, input: Any, i: nat): Any {
    if i == 0 then input else w.act(i - 1, Fed(w, input, i - 1)).out
  }

  predicate Works(w: World, input: Any, i: nat) {
    w.act(i, Fed(w, input, i)).err.None?
  }

  /** The first of the first `n` steps that does not work, or `n`. */
  function FirstBad(w: World, input: Any, n: nat): (f: nat)
    ensures f <= n
    ensures forall i: nat :: i < f ==> Works(w, input, i)
    ensures f < n ==> !Works(w, input, f)
  {
    if n == 0 then 0
    else
      var f := FirstBad(w, input, n - 1);
      if f < n - 1 || !Works(w, input, n - 1) then f else n
  }

  datatype StepEnd = StepEnd(status: StepStatus, output: Any)
  datatype SagaEnd = SagaEnd(status: Status, steps: seq<StepEnd>, output: Any)

  /** How step `i` ends when step `f` is the first bad one of `n`. */
  function StepReference(d: Definition, w: World, input: Any, f: nat, i: nat): StepEnd
    requires i < |d.steps|
  {
    if i < f then
      StepEnd(if f == |d.steps| || !d.steps[i].hasCompensate then StepSucceeded
              else if w.undo(i, Fed(w, input, i + 1)).None? then StepCompensated
              else StepCompensationFailed,
              Fed(w, input, i + 1))
    else if i == f then StepEnd(StepFailed, Nil)
    else StepEnd(StepPending, Nil)
  }

  /** Whether rolling back the first `f` steps meets a failing compensation. */
  ghost predicate UndoFails(d: Definition, w: World, input: Any, f: nat)
    requires f <= |d.steps|
  {
    exists i: nat :: i < f && StepReference(d, w, input, f, i).status == StepCompensationFailed
  }

  /** Run the steps in order; on the first failure undo the ones before it. */
  ghost function Reference(d: Definition, w: World, input: Any): SagaEnd {
    var n := |d.steps|;
    var f := FirstBad(w, input, n);
    SagaEnd(
      if f == n then Completed
      else if f == 0 then Failed
      else if UndoFails(d, w, input, f) then CompensationFailed
      else Compensated,
      seq(n, i requires 0 <= i < n => StepReference(d, w, input, f, i)),
      if f == n then Fed(w, input, n) else Nil)
  }

  function EndOf(r: Record): SagaEnd {
    SagaEnd(r.status, seq(|r.steps|, i requires 0 <= i < |r.steps| => StepEnd(r.steps[i].status, r.steps[i].output)), r.output)
  }

  // ---------- runs in such a world ----------

  ghost predicate Faithful(w: World, s: System, l: Label) {
    && !l.ContextEnds?
    && (s.process.Some? ==>
          var p := s.process.value;
          && (l.Act? && p.pc.Calling? ==> l.answer == w.act(p.pc.i, p.pc.data))
          && (l.Compensate? && p.pc.Invoke? && p.pc.j < |p.exec.steps| ==>
                l.outcome == w.undo(p.pc.j, p.exec.steps[p.pc.j].output)))
  }

  /** Crashes, failed saves and resumptions anywhere, but every call answers as the world does. */
  ghost predicate FaithfulRun(d: Definition, w: World, s0: System, labels: seq<Label>) {
    |labels| == 0 ||
    (&& FaithfulRun(d, w, s0, labels[..|labels| - 1])
     && var before := Replay(d, s0, labels[..|labels| - 1]);
        before.Some? ==> Faithful(w, before.value, labels[|labels| - 1]))
  }

  ghost predicate StepAgrees(w: World, input: Any, f: nat, i: nat, s: Step) {
    && (Passed(s.status) ==> i < f && s.output == Fed(w, input, i + 1))
    && (s.status == StepFailed ==> i == f)
    && (s.status == StepCompensated ==> w.undo(i, Fed(w, input, i + 1)).None?)
    && (s.status == StepCompensationFailed ==> w.undo(i, Fed(w, input, i + 1)).Some?)
  }

  /** The record is on the way to the reference's end. */
  ghost predicate Agrees(w: World, input: Any, f: nat, r: Record) {
    && r.input == input && f <= |r.steps|
    && (forall i: nat :: i < |r.steps| ==> StepAgrees(w, input, f, i, r.steps[i]))
    && (r.status != Pending && r.status != Running && r.status != Completed ==>
          f < |r.steps| && r.steps[f].status == StepFailed)
  }

  ghost predicate ProcessAgrees(w: World, input: Any, f: nat, p: Process) {
    HasStopped(p) ||
    (&& p.ctx.None?
     && Agrees(w, input, f, p.exec)
     && (p.pc.Judging? ==> p.pc.answer == w.act(p.pc.i, p.pc.data))
     && (p.pc.Abort? ==> p.pc.i == f < |p.exec.steps| && p.exec.steps[f].status == StepFailed)
     && (p.pc.Undone? && p.pc.j < |p.exec.steps| ==> p.pc.outcome == w.undo(p.pc.j, p.exec.steps[p.pc.j].output)))
  }

  ghost predicate OnTheWay(d: Definition, w: World, input: Any, s: System) {
    var f := FirstBad(w, input, |d.steps|);
    && Agrees(w, input, f, s.disk)
    && (s.process.Some? ==> ProcessAgrees(w, input, f, s.process.value))
  }

  lemma DataIsFed(d: Definition, w: World, input: Any, f: nat, r: Record, i: nat)
    requires Agrees(w, input, f, r) && Forward(r, i) && i < |r.steps|
    ensures DataInto(r, i) == Fed(w, input, i) && i <= f
  {
    if i > 0 {
      assert StepAgrees(w, input, f, i - 1, r.steps[i - 1]);
    }
  }

  lemma AgreesUpdate(w: World, input: Any, f: nat, r: Record, b: Record, k: nat)
    requires Agrees(w, input, f, r) && k < |r.steps| == |b.steps| && b.input == r.input && b.status == r.status
    requires forall m :: 0 <= m < |r.steps| && m != k ==> b.steps[m] == r.steps[m]
    requires StepAgrees(w, input, f, k, b.steps[k])
    requires r.steps[k].status != StepFailed || b.steps[k].status == StepFailed
    ensures Agrees(w, input, f, b)
  {
    forall i: nat | i < |b.steps| && i != k
      ensures StepAgrees(w, input, f, i, b.steps[i])
    {
      assert StepAgrees(w, input, f, i, r.steps[i]);
    }
  }

  lemma JudgingAgrees(d: Definition, w: World, input: Any, p: Process, disk: Record, now: Time)
    requires p.pc.Judging? && p.stage.Idle? && Placed(d, p, disk)
    requires ProcessAgrees(w, input, FirstBad(w, input, |d.steps|), p)
    ensures ProcessAgrees(w, input, FirstBad(w, input, |d.steps|), FromJudging(d, p, now))
  {
    var f := FirstBad(w, input, |d.steps|);
    var i := p.pc.i;
    hide Placed, FromJudging, Judged, Agrees, StepAgrees;
    JudgingPlace(d, p, disk);
    JudgingEffect(d, p, now);
    DataIsFed(d, w, input, f, p.exec, i);
    assert p.pc.answer.err.None? <==> Works(w, input, i);
    assert Fed(w, input, i + 1) == w.act(i, Fed(w, input, i)).out;
    JudgedAgrees(w, input, f, p.exec, FromJudging(d, p, now).exec, i, p.pc.answer);
  }

  /** The verdict on the next step is the one that `f`, the first bad step, foretells. */
  lemma JudgedAgrees(w: World, input: Any, f: nat, r: Record, b: Record, i: nat, answer: Answer)
    requires Agrees(w, input, f, r) && Judged(r, b, i, answer) && r.status == Running
    requires r.steps[i].status == StepRunning && i <= f
    requires answer.err.None? ==> i < f && answer.out == Fed(w, input, i + 1)
    requires b.steps[i].status == StepFailed ==> i == f
    ensures Agrees(w, input, f, b)
  {
    assert StepAgrees(w, input, f, i, r.steps[i]);
    AgreesUpdate(w, input, f, r, b, i);
  }

  lemma AgreesMoved(w: World, input: Any, f: nat, r: Record, b: Record)
    requires Agrees(w, input, f, r) && b.steps == r.steps && b.input == r.input
    requires r.status == Compensating
    ensures Agrees(w, input, f, b)
  {
  }

  lemma EndedAgrees(w: World, input: Any, f: nat, r: Record, b: Record, j: nat, outcome: Option<Error>)
    requires Agrees(w, input, f, r) && EndsUndo(r, b, j, outcome) && r.steps[j].status == StepCompensating
    requires outcome == w.undo(j, r.steps[j].output)
    ensures Agrees(w, input, f, b)
  {
    assert StepAgrees(w, input, f, j, r.steps[j]);
    AgreesUpdate(w, input, f, r, b, j);
  }

  lemma UndoneAgrees(d: Definition, w: World, input: Any, p: Process, disk: Record, now: Time)
    requires p.pc.Undone? && p.stage.Idle? && Placed(d, p, disk)
    requires ProcessAgrees(w, input, FirstBad(w, input, |d.steps|), p)
    ensures ProcessAgrees(w, input, FirstBad(w, input, |d.steps|), FromUndone(p, now))
  {
    var f := FirstBad(w, input, |d.steps|);
    hide Placed, StepAgrees, Agrees, FirstBad, Fed, FromUndone, EndsUndo;
    UndoPlace(d, p, disk);
    UndoneEffect(p, now);
    EndedAgrees(w, input, f, p.exec, FromUndone(p, now).exec, p.pc.j, p.pc.outcome);
  }

  lemma UndoAgrees(d: Definition, w: World, input: Any, p: Process, disk: Record, now: Time)
    requires p.pc.Undo? && p.stage.Idle? && Placed(d, p, disk)
    requires ProcessAgrees(w, input, FirstBad(w, input, |d.steps|), p)
    ensures ProcessAgrees(w, input, FirstBad(w, input, |d.steps|), FromUndo(d, p, now))
  {
    var f := FirstBad(w, input, |d.steps|);
    hide Placed, StepAgrees, Agrees, FirstBad, Fed, FromUndo, BeginsUndo;
    UndoPlace(d, p, disk);
    var b := FromUndo(d, p, now).exec;
    UndoEffect(d, p, now);
    if b.steps == p.exec.steps {
      AgreesMoved(w, input, f, p.exec, b);
    } else {
      BegunAgrees(w, input, f, p.exec, b, p.pc.j - 1);
    }
  }

  lemma BegunAgrees(w: World, input: Any, f: nat, r: Record, b: Record, j: nat)
    requires Agrees(w, input, f, r) && BeginsUndo(r, b, j) && b.input == r.input
    ensures Agrees(w, input, f, b)
  {
    assert StepAgrees(w, input, f, j, r.steps[j]);
    AgreesUpdate(w, input, f, r, b, j);
  }

  lemma LoopAgrees(d: Definition, w: World, input: Any, p: Process, disk: Record, now: Time)
    requires p.pc.Loop? && p.stage.Idle? && Placed(d, p, disk)
    requires ProcessAgrees(w, input, FirstBad(w, input, |d.steps|), p)
    ensures ProcessAgrees(w, input, FirstBad(w, input, |d.steps|), FromLoop(d, p, now))
  {
    var f := FirstBad(w, input, |d.steps|);
    hide Same, Fits, Sequential, ShapeFor, SameIdentity;
    if p.pc.i < |d.steps| {
      AgreesUpdate(w, input, f, p.exec, FromLoop(d, p, now).exec, p.pc.i);
    }
  }

  lemma RestAgrees(d: Definition, w: World, input: Any, p: Process, disk: Record, now: Time)
    requires p.stage.Idle? && Placed(d, p, disk) && InRange(d, p)
    requires p.pc.Entry? || p.pc.Scan? || p.pc.Try? || p.pc.Abort?
    requires ProcessAgrees(w, input, FirstBad(w, input, |d.steps|), p)
    ensures ProcessAgrees(w, input, FirstBad(w, input, |d.steps|), Working(d, p, now).value)
  {
    var f := FirstBad(w, input, |d.steps|);
    hide Same, Fits, Sequential, SameIdentity;
    if p.pc.Scan? {
      var failed := FirstFailed(p.exec.steps);
      if failed.Some? {
        assert StepAgrees(w, input, f, failed.value, p.exec.steps[failed.value]);
      }
    }
  }

  lemma WorkingAgrees(d: Definition, w: World, input: Any, p: Process, disk: Record, now: Time)
    requires p.stage.Idle? && Placed(d, p, disk) && Working(d, p, now).Some?
    requires ProcessAgrees(w, input, FirstBad(w, input, |d.steps|), p)
    ensures ProcessAgrees(w, input, FirstBad(w, input, |d.steps|), Working(d, p, now).value)
  {
    PlacedIsInRange(d, p, disk);
    hide Placed, ProcessAgrees, InRange, FromEntry, FromScan, FromLoop, FromTry, FromJudging, FromAbort, FromUndo, FromUndone;
    if p.pc.Judging? {
      JudgingAgrees(d, w, input, p, disk, now);
    } else if p.pc.Undone? {
      UndoneAgrees(d, w, input, p, disk, now);
    } else if p.pc.Undo? {
      UndoAgrees(d, w, input, p, disk, now);
    } else if p.pc.Loop? {
      LoopAgrees(d, w, input, p, disk, now);
    } else {
      RestAgrees(d, w, input, p, disk, now);
    }
  }

  lemma ActAgrees(d: Definition, w: World, input: Any, s: System, answer: Answer, s': System)
    requires OnTheWay(d, w, input, s) && Next(d, s, Act(answer)) == Some(s') && Faithful(w, s, Act(answer))
    ensures OnTheWay(d, w, input, s')
  {
    var f := FirstBad(w, input, |d.steps|);
    var p := s.process.value;
    assert StepAgrees(w, input, f, p.pc.i, p.exec.steps[p.pc.i]);
    AgreesUpdate(w, input, f, p.exec, s'.process.value.exec, p.pc.i);
  }

  lemma NextAgrees(d: Definition, w: World, input: Any, s: System, l: Label, s': System)
    requires ShapeInvariant(d, s) && OnTheWay(d, w, input, s) && Next(d, s, l) == Some(s') && Faithful(w, s, l)
    ensures OnTheWay(d, w, input, s')
  {
    hide Working, Placed, Shape, Agrees;
    if l.Work? {
      WorkingAgrees(d, w, input, s.process.value, s.disk, l.now);
    } else if l.Act? {
      ActAgrees(d, w, input, s, l.answer, s');
    } else if l.Save? {
      SaveKeepsShape(d, s, s');
    }
  }

  lemma {:induction false} ReplayAgrees(d: Definition, w: World, input: Any, s0: System, labels: seq<Label>, s: System)
    requires ShapeInvariant(d, s0) && OnTheWay(d, w, input, s0)
    requires Replay(d, s0, labels) == Some(s) && FaithfulRun(d, w, s0, labels)
    ensures OnTheWay(d, w, input, s)
  {
    if |labels| > 0 {
      var before := Replay(d, s0, labels[..|labels| - 1]).value;
      hide Next, ShapeInvariant, OnTheWay, Faithful;
      ReplayAgrees(d, w, input, s0, labels[..|labels| - 1], before);
      ReplayKeepsShape(d, s0, labels[..|labels| - 1], before);
      NextAgrees(d, w, input, before, labels[|labels| - 1], s);
    }
  }

  lemma CreatedAgrees(d: Definition, w: World, id: string, input: Any, now: Time)
    ensures OnTheWay(d, w, input, Created(d, id, input, now))
  {
  }

  // ---------- a terminal record on the way is the end ----------

  lemma PassedBelow(d: Definition, w: World, input: Any, r: Record, i: nat)
    requires Shape(d, r) && Agrees(w, input, FirstBad(w, input, |d.steps|), r) && i < |d.steps|
    requires r.status.IsTerminal()
    ensures i < FirstBad(w, input, |d.steps|) <==> Passed(r.steps[i].status)
  {
    var f := FirstBad(w, input, |d.steps|);
    assert StepAgrees(w, input, f, i, r.steps[i]);
    if r.status == Completed && |d.steps| > 0 {
      assert StepAgrees(w, input, f, |d.steps| - 1, r.steps[|d.steps| - 1]);
    }
  }

  lemma StepIsReference(d: Definition, w: World, input: Any, r: Record, i: nat)
    requires Shape(d, r) && Tidy(d, r) && Agrees(w, input, FirstBad(w, input, |d.steps|), r) && i < |d.steps|
    requires r.status.IsTerminal()
    ensures StepEnd(r.steps[i].status, r.steps[i].output)
            == StepReference(d, w, input, FirstBad(w, input, |d.steps|), i)
    ensures FirstBad(w, input, |d.steps|) == |d.steps| <==> r.status == Completed
  {
    var f := FirstBad(w, input, |d.steps|);
    PassedBelow(d, w, input, r, i);
    PassedBelow(d, w, input, r, |d.steps| - 1);
    assert StepAgrees(w, input, f, i, r.steps[i]);
    assert TidyStep(Tries(d, d.steps[i]), r.steps[i]);
    hide StampedStep, TidyOutput, Stamped;
    if i < f && r.status != Completed {
      assert Settled(d, r.steps, i);
    }
  }

  lemma StatusIsReference(d: Definition, w: World, input: Any, r: Record)
    requires Shape(d, r) && Tidy(d, r) && Agrees(w, input, FirstBad(w, input, |d.steps|), r)
    requires r.status.IsTerminal()
    ensures r.status == Reference(d, w, input).status && r.output == Reference(d, w, input).output
  {
    var n := |d.steps|;
    var f := FirstBad(w, input, n);
    forall i: nat | i < n
      ensures StepEnd(r.steps[i].status, r.steps[i].output) == StepReference(d, w, input, f, i)
      ensures i < f <==> Passed(r.steps[i].status)
      ensures f == n <==> r.status == Completed
    {
      StepIsReference(d, w, input, r, i);
      PassedBelow(d, w, input, r, i);
    }
    if r.status == Completed && n > 0 {
      assert StepAgrees(w, input, f, n - 1, r.steps[n - 1]);
    }
    assert 0 < f ==> Passed(r.steps[0].status);
    assert r.status == Failed ==> f == 0;
    assert r.status == Compensated || r.status == CompensationFailed ==> 0 < f < n;
    assert r.output == if f == n then Fed(w, input, n) else Nil;
    hide StepReference, TopDown, Fits, Sequential, Stamped, TidyStep;
    if r.status == CompensationFailed {
      var i :| 0 <= i < n && r.steps[i].status == StepCompensationFailed;
      assert StepEnd(r.steps[i].status, r.steps[i].output) == StepReference(d, w, input, f, i);
      assert UndoFails(d, w, input, f);
    }
    if UndoFails(d, w, input, f) {
      var i: nat :| i < f && StepReference(d, w, input, f, i).status == StepCompensationFailed;
      assert StepEnd(r.steps[i].status, r.steps[i].output) == StepReference(d, w, input, f, i);
      assert AnyCompensationFailed(r.steps);
    }
  }

  /**
   * Whatever crashes, failed saves and resumptions a life went through, once its record is
   * terminal its status, step statuses, step outputs and output are those of the reference.
   */
  lemma CrashesAreTransparent(
      d: Definition, w: World, id: string, input: Any, now: Time, labels: seq<Label>, s: System)
    requires Lives(d, id, input, now, labels, s) && FaithfulRun(d, w, Created(d, id, input, now), labels)
    requires s.disk.status.IsTerminal()
    ensures EndOf(s.disk) == Reference(d, w, input)
  {
    var s0 := Created(d, id, input, now);
    CreatedHasShape(d, id, input, now);
    CreatedAgrees(d, w, id, input, now);
    ReplayAgrees(d, w, input, s0, labels, s);
    LivesHaveShape(d, id, input, now, labels, s);
    LivesAreTidy(d, id, input, now, labels, s);
    StatusIsReference(d, w, input, s.disk);
    hide Shape, Tidy, Lives, Agrees;
    forall i: nat | i < |d.steps|
      ensures EndOf(s.disk).steps[i] == Reference(d, w, input).steps[i]
    {
      StepIsReference(d, w, input, s.disk, i);
    }
  }

  /**
   * Two lives of the same saga in the same world, on the same input, end alike: one without any
   * crash is the yardstick for all others.
   */
  lemma AllLivesEndAlike(
      d: Definition, w: World, input: Any,
      id: string, now: Time, labels: seq<Label>, s: System,
      id': string, now': Time, labels': seq<Label>, s': System)
    requires Lives(d, id, input, now, labels, s) && FaithfulRun(d, w, Created(d, id, input, now), labels)
    requires Lives(d, id', input, now', labels', s') && FaithfulRun(d, w, Created(d, id', input, now'), labels')
    requires s.disk.status.IsTerminal() && s'.disk.status.IsTerminal()
    ensures EndOf(s.disk) == EndOf(s'.disk)
  {
    CrashesAreTransparent(d, w, id, input, now, labels, s);
    CrashesAreTransparent(d, w, id', input, now', labels', s');
  }
}
