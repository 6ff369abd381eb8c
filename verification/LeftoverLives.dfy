/** Lives, of any saga with a step, that leave something behind. */
module LeftoverLives {
  import opened Values
  import opened States
  import opened Records
  import opened Protocol
  import opened MachineSteps

  /** A run of the machine that began as `Created` and got to `s`, with one more label. */
  lemma LiveOn(d: Definition, id: string, input: Any, now: Time, labels: seq<Label>, s: System, l: Label)
    requires Lives(d, id, input, now, labels, s) && Next(d, s, l).Some?
    ensures Lives(d, id, input, now, labels + [l], Next(d, s, l).value)
  {
    hide Next;
    ReplaySnoc(d, Created(d, id, input, now), labels, l);
  }

  /** Does the next thing to do, saves and publishes it. */
  lemma ChangeAndSave(d: Definition, id: string, input: Any, now: Time, labels: seq<Label>, s: System)
    returns (labels': seq<Label>, s': System)
    requires Lives(d, id, input, now, labels, s) && s.process.Some? && s.process.value.stage.Idle?
    requires Working(d, s.process.value, now).Some? && Working(d, s.process.value, now).value.stage.Saving?
    ensures Lives(d, id, input, now, labels', s')
    ensures var p := Working(d, s.process.value, now).value;
            s'.process == Some(p.(stage := Idle)) && s'.disk == p.exec
  {
    hide Working;
    LiveOn(d, id, input, now, labels, s, Work(now));
    var s1 := Next(d, s, Work(now)).value;
    LiveOn(d, id, input, now, labels + [Work(now)], s1, Save);
    var s2 := Next(d, s1, Save).value;
    LiveOn(d, id, input, now, labels + [Work(now)] + [Save], s2, Publish);
    labels', s' := labels + [Work(now)] + [Save] + [Publish], Next(d, s2, Publish).value;
  }

  /** Does the next thing to do when that changes no status. */
  lemma Continue(d: Definition, id: string, input: Any, now: Time, labels: seq<Label>, s: System)
    returns (labels': seq<Label>, s': System)
    requires Lives(d, id, input, now, labels, s) && s.process.Some? && s.process.value.stage.Idle?
    requires Working(d, s.process.value, now).Some?
    ensures Lives(d, id, input, now, labels', s')
    ensures s'.process == Working(d, s.process.value, now) && s'.disk == s.disk
  {
    hide Working;
    LiveOn(d, id, input, now, labels, s, Work(now));
    labels', s' := labels + [Work(now)], Next(d, s, Work(now)).value;
  }

  /** The process goes away and another one takes the record over. */
  lemma TakeOver(d: Definition, id: string, input: Any, now: Time, labels: seq<Label>, s: System)
    returns (labels': seq<Label>, s': System)
    requires Lives(d, id, input, now, labels, s) && s.process.Some?
    ensures Lives(d, id, input, now, labels', s')
    ensures s'.process == Some(Process(Entry, Idle, s.disk, None)) && s'.disk == s.disk
  {
    LiveOn(d, id, input, now, labels, s, Crash);
    var s1 := Next(d, s, Crash).value;
    LiveOn(d, id, input, now, labels + [Crash], s1, Resume);
    labels', s' := labels + [Crash] + [Resume], Next(d, s1, Resume).value;
  }

  /** The first step is about to be tried, RUNNING on disk. */
  lemma FirstStepRuns(d: Definition, id: string, input: Any, now: Time)
    returns (labels: seq<Label>, s: System)
    requires |d.steps| > 0
    ensures Lives(d, id, input, now, labels, s)
    ensures s.process.Some? && s.process.value.stage.Idle? && s.process.value.pc == Try(0, input, 1)
    ensures s.process.value.exec == s.disk && s.process.value.ctx.None?
    ensures s.disk.status == Running && |s.disk.steps| == |d.steps| && s.disk.input == input
    ensures s.disk.steps[0].status == StepRunning && s.disk.currentStep == d.steps[0].name
    ensures forall m :: 0 < m < |s.disk.steps| ==> s.disk.steps[m].status == StepPending
  {
    var s0 := Created(d, id, input, now);
    assert Replay(d, s0, []) == Some(s0);
    var labels1, s1 := ChangeAndSave(d, id, input, now, [], s0);
    var labels2, s2 := Continue(d, id, input, now, labels1, s1);
    assert s2.process.value.pc == Loop(0, input);
    labels, s := ChangeAndSave(d, id, input, now, labels2, s2);
  }

  /**
   * A step RUNNING on disk is taken over by a process whose context ends before it is run again:
   * the saga is FAILED, and the step still RUNNING.
   */
  lemma FinishedWithRunningStep(d: Definition, id: string, input: Any, now: Time)
    returns (labels: seq<Label>, s: System)
    requires |d.steps| > 0
    ensures Lives(d, id, input, now, labels, s)
    ensures s.disk.status == Failed && |s.disk.steps| == |d.steps| && s.disk.steps[0].status == StepRunning
    ensures s.process.Some? && s.process.value.pc == Done(Returned(Some(Cancelled(0))))
  {
    var labels1, s1 := FirstStepRuns(d, id, input, now);
    var labels2, s2 := TakeOver(d, id, input, now, labels1, s1);
    var labels3, s3 := Continue(d, id, input, now, labels2, s2);
    var ends := ContextEnds(Outside(0));
    LiveOn(d, id, input, now, labels3, s3, ends);
    var s4 := Next(d, s3, ends).value;
    var labels5, s5 := Continue(d, id, input, now, labels3 + [ends], s4);
    assert s5.process.value.pc == Loop(0, input);
    var labels6, s6 := Continue(d, id, input, now, labels5, s5);
    assert s6.process.value.pc == Abort(0, Cancelled(0), true);
    labels, s := ChangeAndSave(d, id, input, now, labels6, s6);
  }

  /** The first step failed, and that much is on disk. */
  lemma FirstStepFails(d: Definition, id: string, input: Any, now: Time, e: Error)
    returns (labels: seq<Label>, s: System)
    requires |d.steps| > 0
    ensures Lives(d, id, input, now, labels, s) && s.process.Some?
    ensures s.disk.status == Running && |s.disk.steps| == |d.steps| && s.disk.currentStep == d.steps[0].name
    ensures s.disk.steps[0].status == StepFailed
    ensures s.disk.steps[0].error == Some(StepError(d.steps[0].name, NonRetryable(e)))
  {
    var labels1, s1 := FirstStepRuns(d, id, input, now);
    var labels2, s2 := Continue(d, id, input, now, labels1, s1);
    assert s2.process.value.pc == Calling(0, input, 1);
    var answer := Answer(Nil, Some(NonRetryable(e)));
    LiveOn(d, id, input, now, labels2, s2, Act(answer));
    var s3 := Next(d, s2, Act(answer)).value;
    assert s3.process.value.pc == Judging(0, input, 1, answer);
    labels, s := ChangeAndSave(d, id, input, now, labels2 + [Act(answer)], s3);
  }

  /**
   * A failure of the first step that was saved before the abort was, and taken over by another
   * process: the saga is FAILED with the step still current, and the stored error wrapped once more.
   */
  lemma FinishedWithCurrentStep(d: Definition, id: string, input: Any, now: Time, e: Error)
    returns (labels: seq<Label>, s: System)
    requires |d.steps| > 0
    ensures Lives(d, id, input, now, labels, s)
    ensures s.disk.status == Failed && s.disk.currentStep == d.steps[0].name
    ensures |s.disk.steps| > 0 && s.disk.steps[0].error.Some?
    ensures s.disk.error == Some(StepError(s.disk.steps[0].name, Message(s.disk.steps[0].error)))
  {
    var labels1, s1 := FirstStepFails(d, id, input, now, e);
    var labels2, s2 := TakeOver(d, id, input, now, labels1, s1);
    var labels3, s3 := Continue(d, id, input, now, labels2, s2);
    var labels4, s4 := Continue(d, id, input, now, labels3, s3);
    assert s4.process.value.pc.Abort? && s4.process.value.pc.i == 0 && !s4.process.value.pc.clears;
    labels, s := ChangeAndSave(d, id, input, now, labels4, s4);
  }
}
