/**
 * What a finished execution can leave behind: a step still recorded as running, and a current
 * step still named. Each can happen, and each happens under one exact condition.
 */
module Leftovers {
  import opened Values
  import opened States
  import opened Records
  import opened Protocol
  import opened RecordShape
  import opened AtMostOnce

  ghost predicate NoneRunning(steps: seq<Step>) {
    forall i :: 0 <= i < |steps| ==> steps[i].status != StepRunning
  }

  // ---------- when nothing is left in flight ----------

  ghost predicate CleanRecord(r: Record) {
    r.status != Pending && r.status != Running ==> NoneRunning(r.steps)
  }

  /** Either this process never takes over a step in flight, or its context never ends. */
  ghost predicate CleanProcess(p: Process, cautious: bool) {
    HasStopped(p) ||
    (&& CleanRecord(p.exec)
     && (cautious || p.ctx.None?)
     && (p.pc.Entry? || p.pc.Scan? || p.pc.Loop? ==> cautious ==> NoneRunning(p.exec.steps))
     && (p.pc.Abort? ==> NoneRunning(p.exec.steps)))
  }

  ghost predicate CleanInvariant(s: System, cautious: bool) {
    CleanRecord(s.disk) && (s.process.Some? ==> CleanProcess(s.process.value, cautious))
  }

  /** Every resumption finds nothing in flight, or no context ever ends. */
  ghost predicate Careful(d: Definition, s0: System, labels: seq<Label>, cautious: bool) {
    if cautious then Cautious(d, s0, labels) else forall l :: l in labels ==> !l.ContextEnds?
  }

  lemma ForwardCleans(d: Definition, p: Process, disk: Record, now: Time, cautious: bool)
    requires p.stage.Idle? && Placed(d, p, disk) && CleanProcess(p, cautious)
    ensures p.pc.Loop? ==> CleanProcess(FromLoop(d, p, now), cautious)
    ensures p.pc.Try? ==> CleanProcess(FromTry(p, now), cautious)
  {
    hide InStep, Sequential, ShapeFor;
  }

  lemma JudgingCleans(d: Definition, p: Process, disk: Record, now: Time, cautious: bool)
    requires p.stage.Idle? && p.pc.Judging? && Placed(d, p, disk) && CleanProcess(p, cautious)
    ensures CleanProcess(FromJudging(d, p, now), cautious)
  {
    hide InStep, Fits, Sequential, ShapeFor, IsNonRetryable;
  }

  lemma ScanCleans(d: Definition, p: Process, disk: Record, now: Time, cautious: bool)
    requires p.stage.Idle? && Placed(d, p, disk) && CleanProcess(p, cautious)
    ensures p.pc.Entry? ==> CleanProcess(FromEntry(p, now), cautious)
    ensures p.pc.Scan? ==> CleanProcess(FromScan(p), cautious)
  {
    hide InStep, Fits, ShapeFor;
  }

  lemma BackwardCleans(d: Definition, p: Process, disk: Record, now: Time, cautious: bool)
    requires p.stage.Idle? && Placed(d, p, disk) && CleanProcess(p, cautious)
    ensures p.pc.Abort? ==> CleanProcess(FromAbort(p, now), cautious)
    ensures p.pc.Undo? ==> CleanProcess(FromUndo(d, p, now), cautious)
    ensures p.pc.Undone? ==> CleanProcess(FromUndone(p, now), cautious)
  {
    hide InStep, Fits, Sequential, ShapeFor, SettledFrom, AnySucceeded, AnyCompensationFailed;
  }

  lemma WorkingCleans(d: Definition, p: Process, disk: Record, now: Time, cautious: bool)
    requires p.stage.Idle? && Placed(d, p, disk) && CleanProcess(p, cautious) && Working(d, p, now).Some?
    ensures CleanProcess(Working(d, p, now).value, cautious)
  {
    PlacedIsInRange(d, p, disk);
    hide Placed, CleanProcess, InRange, FromEntry, FromScan, FromLoop, FromTry, FromJudging, FromAbort, FromUndo, FromUndone;
    if p.pc.Judging? {
      JudgingCleans(d, p, disk, now, cautious);
    } else if p.pc.Loop? || p.pc.Try? {
      ForwardCleans(d, p, disk, now, cautious);
    } else if p.pc.Entry? || p.pc.Scan? {
      ScanCleans(d, p, disk, now, cautious);
    } else {
      BackwardCleans(d, p, disk, now, cautious);
    }
  }

  lemma CallCleans(d: Definition, s: System, l: Label, s': System, cautious: bool)
    requires CleanInvariant(s, cautious) && Next(d, s, l) == Some(s')
    requires l.Act? || l.Compensate?
    ensures CleanInvariant(s', cautious)
  {
    hide Working;
  }

  lemma NextCleans(d: Definition, s: System, l: Label, s': System, cautious: bool)
    requires ShapeInvariant(d, s) && CleanInvariant(s, cautious) && Next(d, s, l) == Some(s')
    requires if cautious then l.Resume? ==> !HasInFlightStep(s.disk) else !l.ContextEnds?
    ensures CleanInvariant(s', cautious)
  {
    hide Working, Placed, Shape;
    if l.Act? || l.Compensate? {
      CallCleans(d, s, l, s', cautious);
    } else if l.Work? {
      WorkingCleans(d, s.process.value, s.disk, l.now, cautious);
    } else if l.Save? {
      SaveKeepsShape(d, s, s');
    } else if l.Resume? && cautious {
      assert NoneRunning(s.disk.steps);
    }
  }

  lemma CarefulFront(d: Definition, s0: System, labels: seq<Label>, cautious: bool)
    requires Careful(d, s0, labels, cautious) && |labels| > 0
    ensures Careful(d, s0, labels[..|labels| - 1], cautious)
    ensures var l := labels[|labels| - 1];
            if cautious then
              l.Resume? ==> var before := Replay(d, s0, labels[..|labels| - 1]);
                            before.Some? && !HasInFlightStep(before.value.disk)
            else !l.ContextEnds?
  {
    assert labels[|labels| - 1] in labels;
    hide Replay;
  }

  lemma {:induction false} ReplayCleans(d: Definition, s0: System, labels: seq<Label>, s: System, cautious: bool)
    requires ShapeInvariant(d, s0) && CleanInvariant(s0, cautious)
    requires Replay(d, s0, labels) == Some(s) && Careful(d, s0, labels, cautious)
    ensures CleanInvariant(s, cautious)
  {
    if |labels| > 0 {
      var front := labels[..|labels| - 1];
      var before := Replay(d, s0, front).value;
      CarefulFront(d, s0, labels, cautious);
      hide Next, ShapeInvariant, CleanInvariant, Careful;
      ReplayCleans(d, s0, front, before, cautious);
      ReplayKeepsShape(d, s0, front, before);
      NextCleans(d, before, labels[|labels| - 1], s, cautious);
    }
  }

  /**
   * If every recovery skips executions with a step in flight, or if no context ever ends, then
   * no finished execution has a step in flight.
   */
  lemma CarefulLivesLeaveNothingInFlight(
      d: Definition, id: string, input: Any, now: Time, labels: seq<Label>, s: System, cautious: bool)
    requires Lives(d, id, input, now, labels, s) && Careful(d, Created(d, id, input, now), labels, cautious)
    requires s.disk.status.IsTerminal()
    ensures !HasInFlightStep(s.disk)
  {
    CreatedHasShape(d, id, input, now);
    assert CleanInvariant(Created(d, id, input, now), cautious);
    ReplayCleans(d, Created(d, id, input, now), labels, s, cautious);
    LivesHaveShape(d, id, input, now, labels, s);
    TerminalIsSettled(d, s.disk);
  }

  lemma TerminalIsSettled(d: Definition, r: Record)
    requires Shape(d, r) && r.status.IsTerminal()
    ensures forall i :: 0 <= i < |r.steps| ==> r.steps[i].status != StepCompensating
  {
    if r.status == Compensated || r.status == CompensationFailed {
      forall i | 0 <= i < |r.steps|
        ensures r.steps[i].status != StepCompensating
      {
        assert Passed(r.steps[i].status) ==> Settled(d, r.steps, i);
      }
    }
  }
}
