/** Why an execution was given up: what its record says of it, and what the caller of a run is told. */
module Causes {
  import opened Values
  import opened States
  import opened Records
  import opened Protocol
  import opened RecordShape
  import opened MachineSteps
  import opened Failures
  import opened LeftRunning
  import opened LeftCurrent
  import opened Verdicts

  /** The forward run was given up. */
  predicate GivenUpOn(s: Status) {
    s.Failed? || s.Compensating? || s.Compensated? || s.CompensationFailed?
  }

  /**
   * A run over this record is given up for the error of the step that failed, or its stored text if an
   * earlier process recorded it; and if none failed, for the end of the context.
   */
  ghost predicate Because(d: Definition, r: Record, cause: Error) {
    && (forall k :: 0 <= k < |r.steps| && k < |d.steps| && r.steps[k].status == StepFailed ==>
          r.steps[k].error == Some(cause) || cause == StepError(d.steps[k].name, Message(r.steps[k].error)))
    && (NoneFailed(r) ==> cause.Cancelled? || (cause.SagaTimeout? && d.timeout > 0))
  }

  /** The record has an error exactly if it was given up on, and it is the one it was given up for. */
  ghost predicate Noted(d: Definition, r: Record) {
    if GivenUpOn(r.status) then r.error.Some? && Because(d, r, r.error.value) else r.error.None?
  }

  ghost predicate Notes(d: Definition, p: Process) {
    HasStopped(p) ||
    (&& Noted(d, p.exec)
     && (p.ctx == Some(OwnTimeout) ==> d.timeout > 0)
     && (p.pc.Abort? ==> Because(d, p.exec, p.pc.cause)))
  }

  ghost predicate NotesInvariant(d: Definition, s: System) {
    Noted(d, s.disk) && (s.process.Some? ==> Notes(d, s.process.value))
  }

  lemma ScanNotes(d: Definition, p: Process, disk: Record, now: Time)
    requires p.stage.Idle? && Placed(d, p, disk) && Notes(d, p)
    ensures p.pc.Entry? ==> Notes(d, FromEntry(p, now))
    ensures p.pc.Scan? ==> Notes(d, FromScan(p))
  {
    hide InStep, Cut, SettledFrom;
  }

  lemma LoopNotes(d: Definition, p: Process, disk: Record, now: Time)
    requires p.stage.Idle? && Placed(d, p, disk) && Notes(d, p)
    ensures p.pc.Loop? ==> Notes(d, FromLoop(d, p, now))
    ensures p.pc.Try? ==> Notes(d, FromTry(p, now))
  {
    hide InStep, Sequential, ShapeFor;
  }

  lemma JudgingNotes(d: Definition, p: Process, disk: Record, now: Time)
    requires p.stage.Idle? && p.pc.Judging? && Placed(d, p, disk) && Notes(d, p)
    ensures Notes(d, FromJudging(d, p, now))
  {
    hide InStep, Sequential, ShapeFor, IsNonRetryable;
  }

  lemma AbortNotes(d: Definition, p: Process, disk: Record, now: Time)
    requires p.stage.Idle? && p.pc.Abort? && Placed(d, p, disk) && Notes(d, p)
    ensures Notes(d, FromAbort(p, now))
  {
    hide InStep, Sequential, ShapeFor, AnySucceeded;
  }

  /** The same steps failed, for the same reasons. */
  predicate FailuresStay(a: Record, b: Record) {
    && |a.steps| == |b.steps|
    && (forall k :: 0 <= k < |a.steps| ==>
          (a.steps[k].status == StepFailed <==> b.steps[k].status == StepFailed)
          && (a.steps[k].status == StepFailed ==> a.steps[k].error == b.steps[k].error))
  }

  lemma BecauseStays(d: Definition, a: Record, b: Record, cause: Error)
    requires FailuresStay(a, b) && Because(d, a, cause)
    ensures Because(d, b, cause)
  {
  }

  lemma UndoKeepsFailures(d: Definition, p: Process, disk: Record, now: Time)
    requires p.stage.Idle? && Placed(d, p, disk)
    ensures p.pc.Undo? ==> p.exec.status == Compensating && FailuresStay(p.exec, FromUndo(d, p, now).exec)
                           && FromUndo(d, p, now).exec.error == p.exec.error && GivenUpOn(FromUndo(d, p, now).exec.status)
    ensures p.pc.Undone? ==> p.exec.status == Compensating && FailuresStay(p.exec, FromUndone(p, now).exec)
                             && FromUndone(p, now).exec.error == p.exec.error && GivenUpOn(FromUndone(p, now).exec.status)
  {
    hide InStep, Sequential, ShapeFor, AnyCompensationFailed, SettledFrom;
  }

  lemma UndoNotes(d: Definition, p: Process, disk: Record, now: Time)
    requires p.stage.Idle? && Placed(d, p, disk) && Notes(d, p)
    ensures p.pc.Undo? ==> Notes(d, FromUndo(d, p, now))
    ensures p.pc.Undone? ==> Notes(d, FromUndone(p, now))
  {
    PlacedIsInRange(d, p, disk);
    UndoKeepsFailures(d, p, disk, now);
    UndoGoesOn(d, p, now);
    hide Placed, FromUndo, FromUndone, FailuresStay, Because;
    if p.pc.Undo? {
      BecauseStays(d, p.exec, FromUndo(d, p, now).exec, p.exec.error.value);
    } else if p.pc.Undone? {
      BecauseStays(d, p.exec, FromUndone(p, now).exec, p.exec.error.value);
    }
  }

  lemma UndoGoesOn(d: Definition, p: Process, now: Time)
    requires InRange(d, p)
    ensures p.pc.Undo? ==> !FromUndo(d, p, now).pc.Abort? && FromUndo(d, p, now).ctx == p.ctx
    ensures p.pc.Undone? ==> !FromUndone(p, now).pc.Abort? && FromUndone(p, now).ctx == p.ctx
  {
    hide AnyCompensationFailed;
  }

  lemma WorkingNotes(d: Definition, p: Process, disk: Record, now: Time)
    requires p.stage.Idle? && Placed(d, p, disk) && Notes(d, p) && Working(d, p, now).Some?
    ensures Notes(d, Working(d, p, now).value)
  {
    PlacedIsInRange(d, p, disk);
    hide Placed, Notes, InRange,
         FromEntry, FromScan, FromLoop, FromTry, FromJudging, FromAbort, FromUndo, FromUndone;
    if p.pc.Loop? || p.pc.Try? {
      LoopNotes(d, p, disk, now);
    } else if p.pc.Judging? {
      JudgingNotes(d, p, disk, now);
    } else if p.pc.Abort? {
      AbortNotes(d, p, disk, now);
    } else if p.pc.Undo? || p.pc.Undone? {
      UndoNotes(d, p, disk, now);
    } else {
      ScanNotes(d, p, disk, now);
    }
  }

  lemma ActNotes(d: Definition, p: Process, q: Process)
    requires Notes(d, p) && !HasStopped(p) && q.pc.Judging? && q.ctx == p.ctx
    requires FailuresStay(p.exec, q.exec) && q.exec.status == p.exec.status && q.exec.error == p.exec.error
    ensures Notes(d, q)
  {
    hide Because, FailuresStay;
    if GivenUpOn(p.exec.status) {
      BecauseStays(d, p.exec, q.exec, p.exec.error.value);
    }
  }

  lemma NextNotes(d: Definition, s: System, l: Label, s': System)
    requires ShapeInvariant(d, s) && NotesInvariant(d, s) && Next(d, s, l) == Some(s')
    ensures NotesInvariant(d, s')
  {
    hide Working, Placed, Shape;
    if l.Work? {
      WorkingNotes(d, s.process.value, s.disk, l.now);
    } else if l.Act? {
      ActNotes(d, s.process.value, s'.process.value);
    } else if l.Save? {
      SaveKeepsShape(d, s, s');
    }
  }

  lemma {:induction false} ReplayNotes(d: Definition, s0: System, labels: seq<Label>, s: System)
    requires ShapeInvariant(d, s0) && NotesInvariant(d, s0) && Replay(d, s0, labels) == Some(s)
    ensures NotesInvariant(d, s)
  {
    if |labels| > 0 {
      hide Next, ShapeInvariant, NotesInvariant;
      var front, l, before := ReplayFront(d, s0, labels, s);
      ReplayNotes(d, s0, front, before);
      ReplayKeepsShape(d, s0, front, before);
      NextNotes(d, before, l, s);
    }
  }

  /**
   * In every life a stored record has an error exactly if the execution was given up, and then it is
   * that of the step that failed, in its words if an earlier process recorded it, or, if none failed,
   * the saga's timeout or a cancellation.
   */
  lemma LivesNoteTheCause(d: Definition, id: string, input: Any, now: Time, labels: seq<Label>, s: System)
    requires Lives(d, id, input, now, labels, s)
    ensures Noted(d, s.disk)
  {
    CreatedHasShape(d, id, input, now);
    ReplayNotes(d, Created(d, id, input, now), labels, s);
  }

  // ---------- what the caller of one run is told ----------

  /** What a process that found `r` will return, as far as it is decided. */
  ghost predicate WillReport(r: Record, p: Process) {
    HasStopped(p) ||
    (match p.pc
     case Entry => p.exec == r
     case Undo(_, _, cause) => Undoing(r, p.exec, cause)
     case Invoke(_, _, cause) => Undoing(r, p.exec, cause)
     case Undone(_, _, cause, _) => Undoing(r, p.exec, cause)
     case Done(Returned(err)) => Reported(r, p.exec, err)
     case _ => StillForward(r))
  }

  predicate Undoing(r: Record, exec: Record, cause: Error) {
    && (r.status == Compensating ==> cause == Message(r.error) && exec.error == r.error)
    && (r.status != Compensating ==> StillForward(r) && exec.error == Some(cause))
  }

  lemma ForwardReports(d: Definition, r: Record, p: Process, disk: Record, now: Time)
    requires p.stage.Idle? && Placed(d, p, disk) && WillReport(r, p)
    ensures p.pc.Entry? ==> WillReport(r, FromEntry(p, now))
    ensures p.pc.Scan? ==> WillReport(r, FromScan(p))
    ensures p.pc.Loop? ==> WillReport(r, FromLoop(d, p, now))
    ensures p.pc.Try? ==> WillReport(r, FromTry(p, now))
    ensures p.pc.Judging? ==> WillReport(r, FromJudging(d, p, now))
  {
    hide InStep, Sequential, ShapeFor, IsNonRetryable;
  }

  lemma BackwardReports(d: Definition, r: Record, p: Process, disk: Record, now: Time)
    requires p.stage.Idle? && Placed(d, p, disk) && WillReport(r, p)
    ensures p.pc.Abort? ==> WillReport(r, FromAbort(p, now))
    ensures p.pc.Undo? ==> WillReport(r, FromUndo(d, p, now))
  {
    hide InStep, Sequential, ShapeFor, AnySucceeded, AnyCompensationFailed, SettledFrom, Cut;
  }

  lemma UndoneReports(d: Definition, r: Record, p: Process, disk: Record, now: Time)
    requires p.stage.Idle? && Placed(d, p, disk) && WillReport(r, p)
    ensures p.pc.Undone? ==> WillReport(r, FromUndone(p, now))
  {
    hide InStep, Sequential, ShapeFor, SettledFrom;
  }

  lemma WorkingReports(d: Definition, r: Record, p: Process, disk: Record, now: Time)
    requires p.stage.Idle? && Placed(d, p, disk) && WillReport(r, p) && Working(d, p, now).Some?
    ensures WillReport(r, Working(d, p, now).value)
  {
    PlacedIsInRange(d, p, disk);
    ForwardReports(d, r, p, disk, now);
    BackwardReports(d, r, p, disk, now);
    UndoneReports(d, r, p, disk, now);
    hide Placed, WillReport, InRange,
         FromEntry, FromScan, FromLoop, FromTry, FromJudging, FromAbort, FromUndo, FromUndone;
  }

  lemma NextReports(d: Definition, r: Record, s: System, l: Label, s': System)
    requires ShapeInvariant(d, s) && s.process.Some? && WillReport(r, s.process.value)
    requires Next(d, s, l) == Some(s') && !l.Crash? && !l.Resume?
    ensures s'.process.Some? && WillReport(r, s'.process.value)
  {
    hide Working, Placed, Shape, Reported;
    if l.Work? {
      WorkingReports(d, r, s.process.value, s.disk, l.now);
    }
  }

  lemma {:induction false} ReplayReports(d: Definition, r: Record, past: seq<Effect>, labels: seq<Label>, s: System)
    requires Shape(d, r) && Uninterrupted(labels) && Replay(d, Reading(r, past), labels) == Some(s)
    ensures s.process.Some? && WillReport(r, s.process.value)
  {
    var s0 := Reading(r, past);
    ReadingHasShape(d, r, past);
    if |labels| > 0 {
      hide Next, ShapeInvariant, WillReport, Uninterrupted, Shape, Reading, Replay;
      var front, l, before := ReplayFront(d, s0, labels, s);
      UninterruptedSnoc(front, l);
      ReplayReports(d, r, past, front, before);
      ReplayKeepsShape(d, s0, front, before);
      NextReports(d, r, before, l, s);
    }
  }

  ghost predicate OnlyReturns(r: Record, p: Process) {
    p.stage.Idle? && p.exec == r && (p.pc.Entry? || p.pc == Done(Returned(None)))
  }

  lemma NextStaysFinished(d: Definition, r: Record, s: System, l: Label, s': System)
    requires r.status.IsTerminal() && s.process.Some? && OnlyReturns(r, s.process.value)
    requires Next(d, s, l) == Some(s') && !l.Crash? && !l.Resume?
    ensures s'.disk == s.disk && s'.history == s.history && s'.process.Some? && OnlyReturns(r, s'.process.value)
  {
    hide FromScan, FromLoop, FromTry, FromJudging, FromAbort, FromUndo, FromUndone;
  }

  /** A process that found the execution finished does nothing but return. */
  lemma {:induction false} FinishedStays(d: Definition, r: Record, past: seq<Effect>, labels: seq<Label>, s: System)
    requires r.status.IsTerminal() && Uninterrupted(labels) && Replay(d, Reading(r, past), labels) == Some(s)
    ensures s.disk == r && s.history == past && s.process.Some? && OnlyReturns(r, s.process.value)
  {
    if |labels| > 0 {
      hide Uninterrupted, Next, OnlyReturns;
      var front, l, before := ReplayFront(d, Reading(r, past), labels, s);
      UninterruptedSnoc(front, l);
      FinishedStays(d, r, past, front, before);
      NextStaysFinished(d, r, before, l, s);
    }
  }

  /** A run that came to its end returns what the record it leaves says; a finished execution is left alone. */
  lemma ResultIsStored(d: Definition, r: Record, past: seq<Effect>, labels: seq<Label>, s: System, err: Option<Error>)
    requires Shape(d, r) && Uninterrupted(labels) && Replay(d, Reading(r, past), labels) == Some(s)
    requires s.process.Some? && s.process.value.pc == Done(Returned(err)) && s.process.value.stage.Idle?
    ensures Reported(r, s.disk, err) && (r.status.IsTerminal() ==> s.history == past)
  {
    ReplayReports(d, r, past, labels, s);
    if r.status.IsTerminal() {
      FinishedStays(d, r, past, labels, s);
    } else {
      ReplayKeepsName(d, r, past, labels, s);
      hide Shape, Replay, Reported, KeepsName;
    }
  }
}
