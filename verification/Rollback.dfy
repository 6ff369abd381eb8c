/** Compensation across crashes: where it starts, that it is complete, and what it concludes. */
module Rollback {
  import opened Values
  import opened States
  import opened Records
  import opened Protocol
  import opened RecordShape
  import opened Progress
  import opened History
  import opened Bookkeeping

  // ---------- the boundary ----------

  /** The index of the latest abort. */
  function LastAbort(h: seq<Effect>): Option<nat> {
    if |h| == 0 then None
    else if h[|h| - 1].Aborted? then Some(h[|h| - 1].at)
    else LastAbort(h[..|h| - 1])
  }

  lemma LastAbortAppend(h: seq<Effect>, e: Effect)
    ensures LastAbort(h + [e]) == if e.Aborted? then Some(e.at) else LastAbort(h)
  {
    assert (h + [e])[..|h + [e]| - 1] == h;
  }

  predicate RollingBack(s: Status) {
    s.Compensating? || s.Compensated? || s.CompensationFailed?
  }

  /** A record that rolls back, or did, is cut at the latest abort. */
  ghost predicate CutAtAbort(h: seq<Effect>, r: Record) {
    RollingBack(r.status) ==> LastAbort(h).Some? && Cut(r.steps, LastAbort(h).value)
  }

  ghost predicate BoundaryInvariant(s: System) {
    && CutAtAbort(s.history, s.disk)
    && (s.process.Some? && !HasStopped(s.process.value) ==> CutAtAbort(s.history, s.process.value.exec))
  }

  lemma AbortCuts(d: Definition, p: Process, disk: Record, now: Time)
    requires p.pc.Abort? && p.stage.Idle? && Placed(d, p, disk)
    ensures disk.status == Running
    ensures RollingBack(FromAbort(p, now).exec.status) ==> Cut(FromAbort(p, now).exec.steps, p.pc.i)
  {
  }

  /** Outside an abort, control flow keeps a cut where it is and never starts rolling back. */
  lemma WorkKeepsCut(d: Definition, p: Process, disk: Record, now: Time, f: nat)
    requires !p.pc.Abort? && p.stage.Idle? && Placed(d, p, disk) && Working(d, p, now).Some?
    ensures var p' := Working(d, p, now).value;
            RollingBack(p'.exec.status) ==>
              RollingBack(p.exec.status) && (Cut(p.exec.steps, f) ==> Cut(p'.exec.steps, f))
  {
    PlacedIsInRange(d, p, disk);
    hide Placed, InRange, FromEntry, FromScan, FromLoop, FromTry, FromJudging, FromAbort, FromUndo, FromUndone;
    ForwardKeepsCut(d, p, disk, now, f);
    BackwardKeepsCut(d, p, disk, now, f);
  }

  ghost predicate KeepsCut(p: Process, p': Process, f: nat) {
    RollingBack(p'.exec.status) ==>
      RollingBack(p.exec.status) && (Cut(p.exec.steps, f) ==> Cut(p'.exec.steps, f))
  }

  lemma ForwardKeepsCut(d: Definition, p: Process, disk: Record, now: Time, f: nat)
    requires p.stage.Idle? && Placed(d, p, disk)
    ensures p.pc.Entry? ==> KeepsCut(p, FromEntry(p, now), f)
    ensures p.pc.Scan? ==> KeepsCut(p, FromScan(p), f)
    ensures p.pc.Loop? ==> KeepsCut(p, FromLoop(d, p, now), f)
    ensures p.pc.Try? ==> KeepsCut(p, FromTry(p, now), f)
    ensures p.pc.Judging? ==> KeepsCut(p, FromJudging(d, p, now), f)
  {
    hide Sequential, ShapeFor, InStep, IsNonRetryable;
  }

  lemma BackwardKeepsCut(d: Definition, p: Process, disk: Record, now: Time, f: nat)
    requires p.stage.Idle? && Placed(d, p, disk)
    ensures p.pc.Undo? ==> KeepsCut(p, FromUndo(d, p, now), f)
    ensures p.pc.Undone? ==> KeepsCut(p, FromUndone(p, now), f)
  {
    hide SettledFrom, Sequential, ShapeFor, InStep, AnyCompensationFailed;
  }

  lemma WorkKeepsBoundary(d: Definition, s: System, now: Time, s': System)
    requires ShapeInvariant(d, s) && BoundaryInvariant(s) && Next(d, s, Work(now)) == Some(s')
    ensures BoundaryInvariant(s')
  {
    var p := s.process.value;
    PlacedIsInRange(d, p, s.disk);
    NextTells(d, s, Work(now), s');
    if p.pc.Abort? {
      AbortCuts(d, p, s.disk, now);
      LastAbortAppend(s.history, Aborted(p.pc.i));
      hide Placed, FromAbort, Cut, Shape;
    } else {
      assert !HasStopped(p);
      var f := if LastAbort(s.history).Some? then LastAbort(s.history).value else 0;
      WorkKeepsCut(d, p, s.disk, now, f);
      hide Placed, Working, Cut, Shape;
    }
  }

  lemma NextKeepsBoundary(d: Definition, s: System, l: Label, s': System)
    requires ShapeInvariant(d, s) && BoundaryInvariant(s) && Next(d, s, l) == Some(s')
    ensures BoundaryInvariant(s')
  {
    hide Working, Placed, Shape;
    if l.Work? {
      WorkKeepsBoundary(d, s, l.now, s');
    } else {
      NextTells(d, s, l, s');
      if l.Save? {
        SaveKeepsShape(d, s, s');
      }
      var told := Told(s, l);
      if told == [] {
        assert s'.history == s.history;
      } else {
        LastAbortAppend(s.history, told[0]);
      }
    }
  }

  // ---------- every recorded outcome was really obtained ----------

  ghost predicate Obtained(h: seq<Effect>, r: Record, i: nat)
    requires i < |r.steps|
  {
    var s := r.steps[i];
    && (Passed(s.status) ==> Acted(i, s.attempts, DataInto(r, i), Answer(s.output, None)) in h)
    && (s.status == StepCompensated ==> Reverted(i, s.output, None) in h)
    && (s.status == StepCompensationFailed ==> s.error.Some? && Reverted(i, s.output, s.error) in h)
  }

  ghost predicate AllObtained(h: seq<Effect>, r: Record) {
    forall i: nat :: i < |r.steps| ==> Obtained(h, r, i)
  }

  ghost predicate OutcomeInvariant(s: System) {
    && AllObtained(s.history, s.disk)
    && (s.process.Some? && !HasStopped(s.process.value) ==>
          var p := s.process.value;
          && AllObtained(s.history, p.exec)
          && (p.pc.Judging? ==> Acted(p.pc.i, p.pc.attempt, p.pc.data, p.pc.answer) in s.history)
          && (p.pc.Undone? ==> (p.pc.j < |p.exec.steps|
                && Reverted(p.pc.j, p.exec.steps[p.pc.j].output, p.pc.outcome) in s.history)))
  }

  lemma ObtainedAppend(h: seq<Effect>, told: seq<Effect>, r: Record)
    requires AllObtained(h, r)
    ensures AllObtained(h + told, r)
  {
    forall i: nat | i < |r.steps|
      ensures Obtained(h + told, r, i)
    {
      assert Obtained(h, r, i);
    }
  }

  /** One step changed, no output but possibly its own, and no later step had passed if so. */
  lemma ObtainedUpdate(h: seq<Effect>, r: Record, b: Record, k: nat)
    requires AllObtained(h, r) && k < |r.steps| == |b.steps| && b.input == r.input
    requires forall m :: 0 <= m < |r.steps| && m != k ==> b.steps[m] == r.steps[m]
    requires b.steps[k].output == r.steps[k].output
             || forall m :: k < m < |r.steps| ==> r.steps[m].status == StepPending
    requires Obtained(h, b, k)
    ensures AllObtained(h, b)
  {
    forall i: nat | i < |b.steps| && i != k
      ensures Obtained(h, b, i)
    {
      assert Obtained(h, r, i);
    }
  }

  lemma JudgingObtains(d: Definition, h: seq<Effect>, p: Process, disk: Record, now: Time)
    requires p.pc.Judging? && p.stage.Idle? && Placed(d, p, disk) && TidyProcess(d, p)
    requires AllObtained(h, p.exec) && Acted(p.pc.i, p.pc.attempt, p.pc.data, p.pc.answer) in h
    ensures AllObtained(h, FromJudging(d, p, now).exec)
  {
    var i := p.pc.i;
    var b := FromJudging(d, p, now).exec;
    JudgingPlace(d, p, disk);
    JudgingEffect(d, p, now);
    assert WorkedStep(p.pc.attempt, p.exec.steps[i]);
    hide Placed, TidyProcess, WorkedStep, FromJudging;
    assert Obtained(h, p.exec, i);
    assert Obtained(h, b, i);
    ObtainedUpdate(h, p.exec, b, i);
  }

  lemma UndoneObtains(d: Definition, h: seq<Effect>, p: Process, disk: Record, now: Time)
    requires p.pc.Undone? && p.stage.Idle? && Placed(d, p, disk)
    requires AllObtained(h, p.exec) && Reverted(p.pc.j, p.exec.steps[p.pc.j].output, p.pc.outcome) in h
    ensures AllObtained(h, FromUndone(p, now).exec)
  {
    var j := p.pc.j;
    var b := FromUndone(p, now).exec;
    UndoPlace(d, p, disk);
    UndoneEffect(p, now);
    hide Placed, FromUndone;
    assert Obtained(h, p.exec, j);
    ObtainedUpdate(h, p.exec, b, j);
  }

  lemma UndoObtains(d: Definition, h: seq<Effect>, p: Process, disk: Record, now: Time)
    requires p.pc.Undo? && p.stage.Idle? && Placed(d, p, disk) && AllObtained(h, p.exec)
    ensures AllObtained(h, FromUndo(d, p, now).exec)
  {
    hide Placed, FromUndo;
    UndoPlace(d, p, disk);
    var b := FromUndo(d, p, now).exec;
    UndoEffect(d, p, now);
    if b.steps == p.exec.steps {
      SameStepsObtain(h, p.exec, b);
    } else {
      assert Obtained(h, p.exec, p.pc.j - 1);
      ObtainedUpdate(h, p.exec, b, p.pc.j - 1);
    }
  }

  lemma SameStepsObtain(h: seq<Effect>, a: Record, b: Record)
    requires AllObtained(h, a) && a.steps == b.steps && a.input == b.input
    ensures AllObtained(h, b)
  {
    forall i: nat | i < |b.steps|
      ensures Obtained(h, b, i)
    {
      assert Obtained(h, a, i);
    }
  }

  lemma TryObtains(d: Definition, h: seq<Effect>, p: Process, disk: Record, now: Time)
    requires p.pc.Try? && p.stage.Idle? && Placed(d, p, disk) && AllObtained(h, p.exec)
    ensures AllObtained(h, FromTry(p, now).exec)
  {
    ObtainedUpdate(h, p.exec, FromTry(p, now).exec, p.pc.i);
  }

  lemma LoopObtains(d: Definition, h: seq<Effect>, p: Process, disk: Record, now: Time)
    requires p.pc.Loop? && p.stage.Idle? && Placed(d, p, disk) && AllObtained(h, p.exec)
    ensures AllObtained(h, FromLoop(d, p, now).exec)
  {
    if p.pc.i < |d.steps| {
      ObtainedUpdate(h, p.exec, FromLoop(d, p, now).exec, p.pc.i);
    } else {
      SameStepsObtain(h, p.exec, FromLoop(d, p, now).exec);
    }
  }

  lemma WorkingObtains(d: Definition, h: seq<Effect>, p: Process, disk: Record, now: Time)
    requires p.stage.Idle? && Placed(d, p, disk) && TidyProcess(d, p) && AllObtained(h, p.exec)
    requires p.pc.Judging? ==> Acted(p.pc.i, p.pc.attempt, p.pc.data, p.pc.answer) in h
    requires p.pc.Undone? ==> p.pc.j < |p.exec.steps|
                              && Reverted(p.pc.j, p.exec.steps[p.pc.j].output, p.pc.outcome) in h
    requires Working(d, p, now).Some?
    ensures AllObtained(h, Working(d, p, now).value.exec)
  {
    PlacedIsInRange(d, p, disk);
    hide Placed, TidyProcess, AllObtained;
    if p.pc.Judging? {
      JudgingObtains(d, h, p, disk, now);
    } else if p.pc.Undone? {
      UndoneObtains(d, h, p, disk, now);
    } else if p.pc.Undo? {
      UndoObtains(d, h, p, disk, now);
    } else if p.pc.Try? {
      TryObtains(d, h, p, disk, now);
    } else if p.pc.Loop? {
      LoopObtains(d, h, p, disk, now);
    } else {
      SameStepsObtain(h, p.exec, Working(d, p, now).value.exec);
    }
  }

  lemma WorkingTarget(d: Definition, p: Process, now: Time)
    ensures Working(d, p, now).Some? ==>
              !Working(d, p, now).value.pc.Judging? && !Working(d, p, now).value.pc.Undone?
    ensures Working(d, p, now).Some? ==> !HasStopped(p)
  {
  }

  lemma WorkKeepsOutcomes(d: Definition, s: System, now: Time, s': System)
    requires ShapeInvariant(d, s) && TidyInvariant(d, s) && OutcomeInvariant(s)
    requires Next(d, s, Work(now)) == Some(s')
    ensures OutcomeInvariant(s')
  {
    var p := s.process.value;
    hide Working, Placed, TidyProcess, Tidy, Shape, AllObtained;
    NextTells(d, s, Work(now), s');
    WorkingTarget(d, p, now);
    WorkingObtains(d, s.history, p, s.disk, now);
    ObtainedAppend(s.history, Told(s, Work(now)), s.disk);
    ObtainedAppend(s.history, Told(s, Work(now)), s'.process.value.exec);
  }

  lemma ActKeepsOutcomes(d: Definition, s: System, answer: Answer, s': System)
    requires ShapeInvariant(d, s) && OutcomeInvariant(s) && Next(d, s, Act(answer)) == Some(s')
    ensures OutcomeInvariant(s')
  {
    var p := s.process.value;
    var e := Acted(p.pc.i, p.pc.attempt, p.pc.data, answer);
    ObtainedAppend(s.history, [e], s.disk);
    ObtainedAppend(s.history, [e], p.exec);
    hide Same, Fits, Sequential, ShapeFor;
    ObtainedUpdate(s.history + [e], p.exec, s'.process.value.exec, p.pc.i);
  }

  lemma NextKeepsOutcomes(d: Definition, s: System, l: Label, s': System)
    requires ShapeInvariant(d, s) && TidyInvariant(d, s) && OutcomeInvariant(s) && Next(d, s, l) == Some(s')
    ensures OutcomeInvariant(s')
  {
    hide Working, Placed, TidyInvariant, Shape, AllObtained;
    if l.Work? {
      WorkKeepsOutcomes(d, s, l.now, s');
    } else if l.Act? {
      ActKeepsOutcomes(d, s, l.answer, s');
    } else {
      NextTells(d, s, l, s');
      if l.Save? {
        SaveKeepsShape(d, s, s');
      }
      ObtainedAppend(s.history, Told(s, l), s.disk);
      if s.process.Some? && !HasStopped(s.process.value) {
        ObtainedAppend(s.history, Told(s, l), s.process.value.exec);
      }
    }
  }

  lemma {:induction false} ReplayKeepsRollback(d: Definition, s0: System, labels: seq<Label>, s: System)
    requires ShapeInvariant(d, s0) && TidyInvariant(d, s0) && BoundaryInvariant(s0) && OutcomeInvariant(s0)
    requires Replay(d, s0, labels) == Some(s)
    ensures BoundaryInvariant(s) && OutcomeInvariant(s)
  {
    if |labels| > 0 {
      var before := Replay(d, s0, labels[..|labels| - 1]).value;
      var l := labels[|labels| - 1];
      hide Next, ShapeInvariant, TidyInvariant, BoundaryInvariant, OutcomeInvariant;
      ReplayKeepsRollback(d, s0, labels[..|labels| - 1], before);
      ReplayKeepsShape(d, s0, labels[..|labels| - 1], before);
      ReplayKeepsTidy(d, s0, labels[..|labels| - 1], before);
      NextKeepsBoundary(d, before, l, s);
      NextKeepsOutcomes(d, before, l, s);
    }
  }

  lemma CutIsBoundary(steps: seq<Step>, f: nat)
    requires Cut(steps, f)
    ensures Boundary(steps) == f
  {
  }

  lemma LivesRollBack(d: Definition, id: string, input: Any, now: Time, labels: seq<Label>, s: System)
    requires Lives(d, id, input, now, labels, s)
    ensures BoundaryInvariant(s) && OutcomeInvariant(s)
  {
    CreatedHasShape(d, id, input, now);
    CreatedIsTidy(d, id, input, now);
    ReplayKeepsRollback(d, Created(d, id, input, now), labels, s);
  }

  /**
   * However far compensation got before a crash, the boundary a resume reads off the statuses
   * is the index of the abort that began it.
   */
  lemma BoundaryIsTheAbort(d: Definition, id: string, input: Any, now: Time, labels: seq<Label>, s: System)
    requires Lives(d, id, input, now, labels, s) && s.disk.status == Compensating
    ensures LastAbort(s.history) == Some(Boundary(s.disk.steps))
    ensures 1 <= Boundary(s.disk.steps) < |d.steps|
  {
    LivesRollBack(d, id, input, now, labels, s);
    LivesHaveShape(d, id, input, now, labels, s);
    CutIsBoundary(s.disk.steps, LastAbort(s.history).value);
  }

  /** The record says how step `i` below the abort was rolled back, and that it really was. */
  ghost predicate RolledBackStep(d: Definition, h: seq<Effect>, r: Record, i: nat)
    requires i < |r.steps| == |d.steps|
  {
    var x := r.steps[i];
    if d.steps[i].hasCompensate then
      || (x.status == StepCompensated && Reverted(i, x.output, None) in h)
      || (x.status == StepCompensationFailed && x.error.Some? && Reverted(i, x.output, x.error) in h)
    else x.status == StepSucceeded
  }

  lemma RollbackOf(d: Definition, h: seq<Effect>, r: Record, f: nat)
    requires Shape(d, r) && Cut(r.steps, f) && AllObtained(h, r)
    requires r.status == Compensated || r.status == CompensationFailed
    ensures 1 <= f < |d.steps|
    ensures forall i: nat :: i < f ==> RolledBackStep(d, h, r, i)
    ensures r.status == CompensationFailed <==>
            exists i: nat :: i < f && r.steps[i].status == StepCompensationFailed
  {
    forall i: nat | i < f
      ensures RolledBackStep(d, h, r, i)
    {
      assert Settled(d, r.steps, i) && Obtained(h, r, i);
    }
    if r.status == CompensationFailed {
      var i :| 0 <= i < |r.steps| && r.steps[i].status == StepCompensationFailed;
      assert i < f;
    }
  }

  /**
   * Once rolled back, every step below the abort that has a Compensate was compensated with its
   * own output and its recorded result is what that call returned; steps without one are left
   * as they were; nothing at or above the abort was touched; and the verdict counts every
   * failed compensation, whichever process it happened in.
   */
  lemma RollbackIsComplete(d: Definition, id: string, input: Any, now: Time, labels: seq<Label>, s: System)
    requires Lives(d, id, input, now, labels, s)
    requires s.disk.status == Compensated || s.disk.status == CompensationFailed
    ensures |s.disk.steps| == |d.steps|
    ensures LastAbort(s.history).Some? && 1 <= LastAbort(s.history).value < |d.steps|
    ensures forall i: nat :: i < LastAbort(s.history).value ==> RolledBackStep(d, s.history, s.disk, i)
    ensures forall e :: e in s.history && e.Reverted? ==>
              e.j < LastAbort(s.history).value && d.steps[e.j].hasCompensate
    ensures s.disk.status == CompensationFailed <==>
            exists i: nat :: i < LastAbort(s.history).value && s.disk.steps[i].status == StepCompensationFailed
  {
    LivesRollBack(d, id, input, now, labels, s);
    LivesHaveShape(d, id, input, now, labels, s);
    LivesAreOrdered(d, id, input, now, labels, s);
    var f := LastAbort(s.history).value;
    RollbackOf(d, s.history, s.disk, f);
    hide Lives, Placed, CallsOrdered, WriteAhead, EdgesDistinct, EdgesMatch, Shape, RolledBackStep, AllObtained;
    forall e | e in s.history && e.Reverted?
      ensures e.j < f && d.steps[e.j].hasCompensate
    {
      assert Grounded(d, e, s.disk);
    }
  }
}
