/** Exactly when a run to the end leaves the current step named. */
module LeftCurrent {
  import opened Values
  import opened States
  import opened Records
  import opened Protocol
  import opened RecordShape
  import opened LeftRunning
  import opened Verdicts
  import opened MachineSteps

  /** The record of an execution whose first step failed, before the abort was recorded. */
  predicate FailedAtOnce(r: Record) {
    r.status == Running && |r.steps| > 0 && r.steps[0].status == StepFailed
  }

  ghost predicate KeepsName(r: Record, p: Process) {
    HasStopped(p) ||
    (&& (p.pc.Entry? ==> p.exec == r)
     && (p.pc.Scan? ==> p.exec.currentStep == r.currentStep && p.exec.steps == r.steps && StillForward(r))
     && (InLoop(p.pc) ==> !FailedAtOnce(r))
     && (p.pc.Abort? ==> if p.pc.clears then !FailedAtOnce(r)
                         else p.exec.currentStep == r.currentStep && (FailedAtOnce(r) <==> p.pc.i == 0))
     && (p.pc.Undo? || p.pc.Invoke? || p.pc.Undone? ==> !FailedAtOnce(r))
     && (p.pc.Done? ==> p.exec.currentStep == if FailedAtOnce(r) then r.currentStep else ""))
  }

  lemma ScanKeepsName(d: Definition, r: Record, p: Process, disk: Record, now: Time)
    requires p.stage.Idle? && BeforeLoop(p.pc) && Placed(d, p, disk) && KeepsName(r, p)
    requires Shape(d, r) && !r.status.IsTerminal()
    ensures p.pc.Entry? ==> KeepsName(r, FromEntry(p, now))
    ensures p.pc.Scan? ==> KeepsName(r, FromScan(p))
  {
    hide InStep, Fits, Sequential;
  }

  lemma LoopKeepsName(d: Definition, r: Record, p: Process, disk: Record, now: Time)
    requires p.stage.Idle? && InRange(d, p) && KeepsName(r, p)
    ensures p.pc.Loop? ==> KeepsName(r, FromLoop(d, p, now))
    ensures p.pc.Try? ==> KeepsName(r, FromTry(p, now))
    ensures p.pc.Judging? ==> KeepsName(r, FromJudging(d, p, now))
  {
    hide IsNonRetryable, FailedAtOnce;
  }

  lemma AbortKeepsName(d: Definition, r: Record, p: Process, disk: Record, now: Time)
    requires p.stage.Idle? && p.pc.Abort? && Placed(d, p, disk) && KeepsName(r, p)
    ensures KeepsName(r, FromAbort(p, now))
  {
    var below := p.exec.steps[..p.pc.i];
    assert p.pc.i > 0 ==> below[0].status == StepSucceeded;
    hide InStep, Fits, Sequential, ShapeFor, FailedAtOnce;
  }

  lemma UndoKeepsName(d: Definition, r: Record, p: Process, now: Time)
    requires p.stage.Idle? && InRange(d, p) && KeepsName(r, p)
    ensures p.pc.Undo? ==> KeepsName(r, FromUndo(d, p, now))
    ensures p.pc.Undone? ==> KeepsName(r, FromUndone(p, now))
  {
    hide FailedAtOnce, AnyCompensationFailed;
  }

  lemma WorkingKeepsName(d: Definition, r: Record, p: Process, disk: Record, now: Time)
    requires p.stage.Idle? && Placed(d, p, disk) && KeepsName(r, p) && Working(d, p, now).Some?
    requires Shape(d, r) && !r.status.IsTerminal()
    ensures KeepsName(r, Working(d, p, now).value)
  {
    PlacedIsInRange(d, p, disk);
    hide Placed, Shape, KeepsName, InRange,
         FromEntry, FromScan, FromLoop, FromTry, FromJudging, FromAbort, FromUndo, FromUndone;
    if BeforeLoop(p.pc) {
      ScanKeepsName(d, r, p, disk, now);
    } else if p.pc.Abort? {
      AbortKeepsName(d, r, p, disk, now);
    } else if InLoop(p.pc) {
      LoopKeepsName(d, r, p, disk, now);
    } else {
      UndoKeepsName(d, r, p, now);
    }
  }

  /** What was saved last, by a process that has nothing more to save. */
  ghost predicate StoredAsIs(s: System) {
    s.process.Some? ==>
      var p := s.process.value;
      !HasStopped(p) && (p.stage.Publishing? || (p.pc.Done? && p.stage.Idle?)) ==> s.disk == p.exec
  }

  ghost predicate NameInvariant(r: Record, s: System) {
    s.process.Some? && KeepsName(r, s.process.value) && StoredAsIs(s)
  }

  lemma WorkingEndsBySaving(d: Definition, p: Process, now: Time)
    requires p.stage.Idle? && Working(d, p, now).Some? && (p.pc.Entry? ==> !p.exec.status.IsTerminal())
    ensures var q := Working(d, p, now).value;
            !q.stage.Publishing? && (q.pc.Done? ==> q.stage.Saving?)
  {
  }

  lemma NextKeepsName(d: Definition, r: Record, s: System, l: Label, s': System)
    requires ShapeInvariant(d, s) && NameInvariant(r, s) && Next(d, s, l) == Some(s')
    requires Shape(d, r) && !r.status.IsTerminal() && !l.Crash? && !l.Resume?
    ensures NameInvariant(r, s')
  {
    if l.Work? {
      hide Working, Placed, Shape, HasStopped;
      WorkingKeepsName(d, r, s.process.value, s.disk, l.now);
      EntryHasRecord(r, s.process.value);
      WorkingEndsBySaving(d, s.process.value, l.now);
      hide KeepsName;
    } else {
      hide ShapeInvariant, Shape, Working, FailedAtOnce;
    }
  }

  lemma EntryHasRecord(r: Record, p: Process)
    requires KeepsName(r, p)
    ensures p.pc.Entry? ==> p.exec == r
  {
  }

  lemma {:induction false} ReplayKeepsName(d: Definition, r: Record, past: seq<Effect>, labels: seq<Label>, s: System)
    requires Shape(d, r) && !r.status.IsTerminal() && Uninterrupted(labels)
    requires Replay(d, Reading(r, past), labels) == Some(s)
    ensures NameInvariant(r, s)
  {
    var s0 := Reading(r, past);
    ReadingHasShape(d, r, past);
    if |labels| > 0 {
      hide Next, ShapeInvariant, NameInvariant, Uninterrupted, Shape, Reading, Replay;
      var front, l, before := ReplayFront(d, s0, labels, s);
      UninterruptedSnoc(front, l);
      ReplayKeepsName(d, r, past, front, before);
      ReplayKeepsShape(d, s0, front, before);
      NextKeepsName(d, r, before, l, s);
    }
  }

  /**
   * A resume that ran an unfinished execution to its end cleared the current step, unless the
   * record it found said that the first step had failed: then the record's name stays.
   */
  lemma RunLeavesCurrentStepIff(
      d: Definition, r: Record, past: seq<Effect>, labels: seq<Label>, end: System, err: Option<Error>)
    requires Shape(d, r) && !r.status.IsTerminal() && Uninterrupted(labels)
    requires Replay(d, Reading(r, past), labels) == Some(end)
    requires end.process.Some? && end.process.value.pc == Done(Returned(err)) && end.process.value.stage.Idle?
    ensures end.disk.currentStep == if FailedAtOnce(r) then r.currentStep else ""
  {
    ReplayKeepsName(d, r, past, labels, end);
  }
}
