/** Which step a record names as its current one. */
module CurrentStep {
  import opened Values
  import opened States
  import opened Records
  import opened Protocol
  import opened RecordShape
  import opened MachineSteps

  /** Running forward, the step begun last is the current one; rolling back, the one whose undoing was begun last. */
  ghost predicate NamesCurrent(d: Definition, r: Record) {
    && (r.status == Pending ==> r.currentStep == "")
    && (r.status == Running ==> NamesLastBegun(d, r))
    && (r.status == Compensating ==> NamesLastUndone(d, r))
  }

  ghost predicate NamesLastBegun(d: Definition, r: Record) {
    && (forall i :: 0 <= i < |r.steps| && i < |d.steps| && LastBegun(r, i) ==> r.currentStep == d.steps[i].name)
    && ((forall i :: 0 <= i < |r.steps| ==> r.steps[i].status == StepPending) ==> r.currentStep == "")
  }

  predicate LastBegun(r: Record, i: int)
    requires 0 <= i < |r.steps|
  {
    r.steps[i].status != StepPending && forall m :: i < m < |r.steps| ==> r.steps[m].status == StepPending
  }

  /** Rolling back goes from the top down, so that is the lowest one. */
  ghost predicate NamesLastUndone(d: Definition, r: Record) {
    forall j :: 0 <= j < |r.steps| && j < |d.steps| && UndoBegun(r.steps[j].status) && NoneUndoneBelow(r, j)
                ==> r.currentStep == d.steps[j].name
  }

  predicate NoneUndoneBelow(r: Record, j: int) {
    forall k :: 0 <= k < j && k < |r.steps| ==> !UndoBegun(r.steps[k].status)
  }

  ghost predicate Names(d: Definition, p: Process) {
    HasStopped(p) ||
    (&& NamesCurrent(d, p.exec)
     && (p.pc.Try? || p.pc.Calling? || p.pc.Judging? ==>
           p.pc.i < |d.steps| ==> p.exec.currentStep == d.steps[p.pc.i].name)
     && (p.pc.Invoke? || p.pc.Undone? ==>
           p.pc.j < |d.steps| ==> p.exec.currentStep == d.steps[p.pc.j].name))
  }

  ghost predicate NamesInvariant(d: Definition, s: System) {
    NamesCurrent(d, s.disk) && (s.process.Some? ==> Names(d, s.process.value))
  }

  // ---------- the step at hand ----------

  /** The forward loop's own step, once begun, is the one begun last. */
  lemma BegunIsNamed(d: Definition, r: Record, i: nat)
    requires Forward(r, i) && i < |r.steps| == |d.steps| && r.steps[i].status != StepPending
    ensures NamesLastBegun(d, r) <==> r.currentStep == d.steps[i].name
  {
    assert forall m :: 0 <= m < |r.steps| && LastBegun(r, m) <==> m == i;
  }

  /** The undo loop's own step, once begun, is the lowest one begun. */
  lemma UndoneIsNamed(d: Definition, r: Record, j: nat)
    requires j < |r.steps| == |d.steps| && UndoBegun(r.steps[j].status) && NoneUndoneBelow(r, j)
    ensures NamesLastUndone(d, r) <==> r.currentStep == d.steps[j].name
  {
  }

  lemma NothingUndoneBelow(d: Definition, r: Record, j: nat)
    requires Shape(d, r) && r.status == Compensating && j < |r.steps| && d.steps[j].hasCompensate
    requires r.steps[j].status == StepSucceeded || r.steps[j].status == StepCompensating
    ensures NoneUndoneBelow(r, j)
  {
    assert !Settled(d, r.steps, j) && Passed(r.steps[j].status);
  }

  predicate SameStatuses(a: Record, b: Record) {
    && a.status == b.status && a.currentStep == b.currentStep && |a.steps| == |b.steps|
    && forall k :: 0 <= k < |a.steps| ==> a.steps[k].status == b.steps[k].status
  }

  lemma NamesTheSame(d: Definition, a: Record, b: Record)
    requires NamesCurrent(d, a) && SameStatuses(a, b)
    ensures NamesCurrent(d, b)
  {
    if b.status == Running {
      BegunTheSame(d, a, b);
    }
    assert forall j :: NoneUndoneBelow(b, j) ==> NoneUndoneBelow(a, j);
    hide NoneUndoneBelow, NamesLastBegun;
  }

  lemma BegunTheSame(d: Definition, a: Record, b: Record)
    requires NamesLastBegun(d, a) && SameStatuses(a, b)
    ensures NamesLastBegun(d, b)
  {
    assert forall i :: 0 <= i < |b.steps| && LastBegun(b, i) ==> LastBegun(a, i);
  }

  // ---------- the machine ----------

  lemma EntryNames(d: Definition, p: Process, disk: Record, now: Time)
    requires p.stage.Idle? && Placed(d, p, disk) && Names(d, p)
    ensures p.pc.Entry? ==> Names(d, FromEntry(p, now))
    ensures p.pc.Scan? ==> Names(d, FromScan(p))
    ensures p.pc.Abort? ==> Names(d, FromAbort(p, now))
  {
    hide InStep, Sequential, AnySucceeded;
  }

  lemma LoopNames(d: Definition, p: Process, disk: Record, now: Time)
    requires p.stage.Idle? && p.pc.Loop? && Placed(d, p, disk) && Names(d, p)
    ensures Names(d, FromLoop(d, p, now))
  {
    if p.pc.i < |d.steps| && p.ctx.None? {
      LoopBegins(d, p, disk, now);
    }
    hide InStep, Sequential, ShapeFor, NamesLastBegun, Forward;
    if p.pc.i < |d.steps| && p.ctx.None? {
      BegunIsNamed(d, FromLoop(d, p, now).exec, p.pc.i);
    }
  }

  lemma LoopBegins(d: Definition, p: Process, disk: Record, now: Time)
    requires p.stage.Idle? && p.pc.Loop? && Placed(d, p, disk) && p.pc.i < |d.steps| && p.ctx.None?
    ensures var b := FromLoop(d, p, now).exec;
            Forward(b, p.pc.i) && |b.steps| == |d.steps| && b.steps[p.pc.i].status != StepPending
  {
    hide InStep, Sequential, ShapeFor;
  }

  lemma FailedIsNamed(d: Definition, p: Process, i: nat, cause: Error, now: Time)
    requires Forward(p.exec, i) && i < |p.exec.steps| == |d.steps| && p.exec.steps[i].status == StepRunning
    requires p.exec.currentStep == d.steps[i].name
    ensures Names(d, FailStep(p, i, cause, now))
  {
    BegunIsNamed(d, FailStep(p, i, cause, now).exec, i);
  }

  lemma TryNames(d: Definition, p: Process, disk: Record, now: Time)
    requires p.stage.Idle? && p.pc.Try? && Placed(d, p, disk) && Names(d, p)
    ensures Names(d, FromTry(p, now))
  {
    if p.ctx.Some? {
      FailedIsNamed(d, p, p.pc.i, CauseError(p.ctx.value), now);
    }
    hide InStep, Sequential, ShapeFor, NamesLastBegun, FailStep;
  }

  lemma JudgingNames(d: Definition, p: Process, disk: Record, now: Time)
    requires p.stage.Idle? && p.pc.Judging? && Placed(d, p, disk) && Names(d, p)
    ensures Names(d, FromJudging(d, p, now))
  {
    hide Placed, NamesLastBegun, FailStep, IsNonRetryable, Forward;
    var i := p.pc.i;
    JudgingPlace(d, p, disk);
    if p.ctx == Some(OwnTimeout) || (p.ctx.Some? && p.pc.answer.err.Some?) {
      FailedIsNamed(d, p, i, CauseError(p.ctx.value), now);
    } else if p.pc.answer.err.None? {
      SucceededIsNamed(d, p, i, p.pc.answer.out, now);
    } else {
      FailedIsNamed(d, p, i, StepError(d.steps[i].name, p.pc.answer.err.value), now);
    }
  }

  lemma SucceededIsNamed(d: Definition, p: Process, i: nat, out: Any, now: Time)
    requires Forward(p.exec, i) && i < |p.exec.steps| == |d.steps| && p.exec.steps[i].status == StepRunning
    requires p.exec.currentStep == d.steps[i].name
    ensures var r := WithStep(p.exec, i, p.exec.steps[i].(output := out));
            Names(d, MoveStep(p, r, i, StepSucceeded, now, Loop(i + 1, out)))
  {
    var r := WithStep(p.exec, i, p.exec.steps[i].(output := out));
    BegunIsNamed(d, MoveStep(p, r, i, StepSucceeded, now, Loop(i + 1, out)).exec, i);
  }

  lemma UndoNames(d: Definition, p: Process, disk: Record, now: Time)
    requires p.stage.Idle? && p.pc.Undo? && Placed(d, p, disk) && Names(d, p)
    ensures Names(d, FromUndo(d, p, now))
  {
    UndoPlace(d, p, disk);
    hide InStep, Sequential, ShapeFor, SettledFrom, Cut, AnyCompensationFailed, NamesLastUndone;
    if p.pc.j > 0 && Undoable(d, p.exec, p.pc.j - 1) {
      UndoBeginsNamed(d, p, now);
    }
  }

  lemma UndoBeginsNamed(d: Definition, p: Process, now: Time)
    requires p.stage.Idle? && p.pc.Undo? && 0 < p.pc.j <= |p.exec.steps| == |d.steps| && p.pc.failedAt <= |p.exec.steps|
    requires Shape(d, p.exec) && p.exec.status == Compensating && Undoable(d, p.exec, p.pc.j - 1)
    ensures Names(d, FromUndo(d, p, now))
  {
    var j, b := p.pc.j - 1, FromUndo(d, p, now).exec;
    NothingUndoneBelow(d, p.exec, j);
    hide Sequential, ShapeFor, AnyCompensationFailed;
    assert NoneUndoneBelow(b, j);
    UndoneIsNamed(d, b, j);
  }

  lemma UndoneNames(d: Definition, p: Process, disk: Record, now: Time)
    requires p.stage.Idle? && p.pc.Undone? && Placed(d, p, disk) && Names(d, p)
    ensures Names(d, FromUndone(p, now))
  {
    UndoPlace(d, p, disk);
    NothingUndoneBelow(d, p.exec, p.pc.j);
    var b := FromUndone(p, now).exec;
    assert NoneUndoneBelow(b, p.pc.j);
    UndoneIsNamed(d, b, p.pc.j);
    hide InStep, Fits, Sequential, ShapeFor, SettledFrom, NamesLastUndone, NoneUndoneBelow;
  }

  lemma WorkingNames(d: Definition, p: Process, disk: Record, now: Time)
    requires p.stage.Idle? && Placed(d, p, disk) && Names(d, p) && Working(d, p, now).Some?
    ensures Names(d, Working(d, p, now).value)
  {
    PlacedIsInRange(d, p, disk);
    hide Placed, Names, InRange,
         FromEntry, FromScan, FromLoop, FromTry, FromJudging, FromAbort, FromUndo, FromUndone;
    if p.pc.Loop? {
      LoopNames(d, p, disk, now);
    } else if p.pc.Try? {
      TryNames(d, p, disk, now);
    } else if p.pc.Judging? {
      JudgingNames(d, p, disk, now);
    } else if p.pc.Undo? {
      UndoNames(d, p, disk, now);
    } else if p.pc.Undone? {
      UndoneNames(d, p, disk, now);
    } else {
      EntryNames(d, p, disk, now);
    }
  }

  lemma NextNames(d: Definition, s: System, l: Label, s': System)
    requires ShapeInvariant(d, s) && NamesInvariant(d, s) && Next(d, s, l) == Some(s')
    ensures NamesInvariant(d, s')
  {
    hide Working, Placed, Shape, NamesCurrent;
    if l.Work? {
      WorkingNames(d, s.process.value, s.disk, l.now);
    } else if l.Act? {
      NamesTheSame(d, s.process.value.exec, s'.process.value.exec);
    } else if l.Save? {
      SaveKeepsShape(d, s, s');
    }
  }

  lemma {:induction false} ReplayNames(d: Definition, s0: System, labels: seq<Label>, s: System)
    requires ShapeInvariant(d, s0) && NamesInvariant(d, s0) && Replay(d, s0, labels) == Some(s)
    ensures NamesInvariant(d, s)
  {
    if |labels| > 0 {
      hide Next, ShapeInvariant, NamesInvariant;
      var front, l, before := ReplayFront(d, s0, labels, s);
      ReplayNames(d, s0, front, before);
      ReplayKeepsShape(d, s0, front, before);
      NextNames(d, before, l, s);
    }
  }

  /**
   * In every life the record names the step that is worked on: while running, the one begun last, be it
   * running, succeeded or failed; while rolling back, the one whose compensation was begun last.
   */
  lemma LivesNameTheCurrentStep(d: Definition, id: string, input: Any, now: Time, labels: seq<Label>, s: System)
    requires Lives(d, id, input, now, labels, s)
    ensures NamesCurrent(d, s.disk)
  {
    CreatedHasShape(d, id, input, now);
    ReplayNames(d, Created(d, id, input, now), labels, s);
  }
}
