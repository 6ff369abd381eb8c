/** What the fields beside the statuses say: outputs, attempt counts and timestamps. */
module Bookkeeping {
  import opened Values
  import opened States
  import opened Retry
  import opened Records
  import opened Protocol
  import opened RecordShape

  /** The timestamps of a step are set exactly as far as its status got. */
  predicate StampedStep(s: Step) {
    && (s.startedAt.Some? <==> s.status != StepPending)
    && (s.completedAt.Some? <==> s.status != StepPending && s.status != StepRunning)
    && (s.compensationStartedAt.Some? <==> UndoBegun(s.status))
    && (s.compensatedAt.Some? <==> s.status == StepCompensated || s.status == StepCompensationFailed)
  }

  predicate Stamped(r: Record) {
    && (r.startedAt.Some? <==> r.status != Pending)
    && (r.completedAt.Some? <==> r.status.IsTerminal())
  }

  /** A step that no retry loop is working on. */
  ghost predicate TidyStep(tries: nat, s: Step) {
    && StampedStep(s)
    && (!Passed(s.status) ==> s.output == Nil)
    && (s.status == StepPending || s.status == StepRunning ==> s.attempts == 0)
    && (Passed(s.status) ==> 1 <= s.attempts)
    && s.attempts <= tries
  }

  /** A running step after `calls` calls of its Action. */
  ghost predicate WorkedStep(calls: nat, s: Step) {
    StampedStep(s) && s.status == StepRunning && s.output == Nil && s.attempts == calls
  }

  ghost predicate TidyOutput(r: Record) {
    && (r.status != Completed ==> r.output == Nil)
    && (r.status == Completed ==> r.output == DataInto(r, |r.steps|))
  }

  ghost predicate TidyBut(d: Definition, r: Record, active: Option<nat>)
    requires |r.steps| == |d.steps|
  {
    && Stamped(r) && TidyOutput(r)
    && forall i :: 0 <= i < |r.steps| && active != Some(i) ==> TidyStep(Tries(d, d.steps[i]), r.steps[i])
  }

  ghost predicate Tidy(d: Definition, r: Record)
    requires |r.steps| == |d.steps|
  {
    TidyBut(d, r, None)
  }

  /** The step whose retry loop the process is in. */
  function Active(p: Process): Option<nat> {
    if !p.stage.Idle? then None
    else
      match p.pc
      case Try(i, _, _) => Some(i)
      case Calling(i, _, _) => Some(i)
      case Judging(i, _, _, _) => Some(i)
      case _ => None
  }

  /** The calls this process has made for its active step. */
  function CallsMade(p: Process): nat {
    match p.pc
    case Try(_, _, attempt) => if attempt == 0 then 0 else attempt - 1
    case Calling(_, _, attempt) => if attempt == 0 then 0 else attempt - 1
    case Judging(_, _, attempt, _) => attempt
    case _ => 0
  }

  ghost predicate TidyProcess(d: Definition, p: Process) {
    HasStopped(p) ||
    (&& |p.exec.steps| == |d.steps|
     && TidyBut(d, p.exec, Active(p))
     && (Active(p).Some? ==>
           Active(p).value < |p.exec.steps| && WorkedStep(CallsMade(p), p.exec.steps[Active(p).value]))
     && (!p.stage.Idle? && p.pc.Try? ==> p.pc.attempt == 1)
     && (!p.stage.Idle? ==> !p.pc.Calling? && !p.pc.Judging?))
  }

  ghost predicate TidyInvariant(d: Definition, s: System) {
    && |s.disk.steps| == |d.steps| && Tidy(d, s.disk)
    && (s.process.Some? ==> TidyProcess(d, s.process.value))
  }

  // ---------- preservation ----------

  lemma FailStepTidy(d: Definition, p: Process, i: nat, cause: Error, now: Time)
    requires |p.exec.steps| == |d.steps| && i < |p.exec.steps|
    requires TidyBut(d, p.exec, Some(i)) && p.exec.status == Running
    requires WorkedStep(p.exec.steps[i].attempts, p.exec.steps[i])
    requires p.exec.steps[i].attempts <= Tries(d, d.steps[i])
    ensures TidyProcess(d, FailStep(p, i, cause, now))
  {
  }

  lemma SucceedTidy(d: Definition, p: Process, i: nat, out: Any, now: Time)
    requires |p.exec.steps| == |d.steps| && i < |p.exec.steps|
    requires TidyBut(d, p.exec, Some(i)) && p.exec.status == Running
    requires WorkedStep(p.exec.steps[i].attempts, p.exec.steps[i])
    requires 1 <= p.exec.steps[i].attempts <= Tries(d, d.steps[i])
    ensures var r := WithStep(p.exec, i, p.exec.steps[i].(output := out));
            TidyProcess(d, MoveStep(p, r, i, StepSucceeded, now, Loop(i + 1, out)))
  {
  }

  lemma JudgingTidy(d: Definition, p: Process, disk: Record, now: Time)
    requires p.pc.Judging? && p.stage.Idle? && Placed(d, p, disk) && TidyProcess(d, p)
    ensures TidyProcess(d, FromJudging(d, p, now))
  {
    var i, a := p.pc.i, p.pc.answer;
    if p.ctx == Some(OwnTimeout) {
      FailStepTidy(d, p, i, SagaTimeout, now);
    } else if a.err.None? {
      SucceedTidy(d, p, i, a.out, now);
    } else if p.ctx.Some? {
      FailStepTidy(d, p, i, CauseError(p.ctx.value), now);
    } else if IsNonRetryable(a.err.value) || p.pc.attempt >= MaxAttempts(RetryPolicyFor(d, d.steps[i])) {
      FailStepTidy(d, p, i, StepError(d.steps[i].name, a.err.value), now);
    }
  }

  lemma TryTidy(d: Definition, p: Process, disk: Record, now: Time)
    requires p.pc.Try? && p.stage.Idle? && Placed(d, p, disk) && TidyProcess(d, p)
    ensures TidyProcess(d, FromTry(p, now))
  {
    if p.ctx.Some? {
      FailStepTidy(d, p, p.pc.i, CauseError(p.ctx.value), now);
    }
  }

  lemma LoopTidy(d: Definition, p: Process, disk: Record, now: Time)
    requires p.pc.Loop? && p.stage.Idle? && Placed(d, p, disk) && TidyProcess(d, p)
    ensures TidyProcess(d, FromLoop(d, p, now))
  {
    if p.pc.i < |d.steps| {
      BeginTidy(d, p, disk, now);
    } else {
      CompleteTidy(d, p, disk, now);
    }
  }

  lemma BeginTidy(d: Definition, p: Process, disk: Record, now: Time)
    requires p.pc.Loop? && p.pc.i < |d.steps| && p.stage.Idle? && Placed(d, p, disk) && TidyProcess(d, p)
    ensures TidyProcess(d, FromLoop(d, p, now))
  {
    assert TidyStep(Tries(d, d.steps[p.pc.i]), p.exec.steps[p.pc.i]);
    hide TidyOutput, InStep, Sequential, ShapeFor, Fits;
  }

  lemma CompleteTidy(d: Definition, p: Process, disk: Record, now: Time)
    requires p.pc.Loop? && p.pc.i >= |d.steps| && p.stage.Idle? && Placed(d, p, disk) && TidyProcess(d, p)
    ensures TidyProcess(d, FromLoop(d, p, now))
  {
    hide InStep, Sequential, ShapeFor, Fits, TidyStep;
  }

  lemma OtherTidy(d: Definition, p: Process, disk: Record, now: Time)
    requires p.pc.Entry? || p.pc.Scan? || p.pc.Abort?
    requires p.stage.Idle? && Placed(d, p, disk) && TidyProcess(d, p)
    ensures p.pc.Entry? ==> TidyProcess(d, FromEntry(p, now))
    ensures p.pc.Scan? ==> TidyProcess(d, FromScan(p))
    ensures p.pc.Abort? ==> TidyProcess(d, FromAbort(p, now))
  {
    hide InStep, Sequential, TidyStep, AnySucceeded;
  }

  lemma UndoTidy(d: Definition, p: Process, disk: Record, now: Time)
    requires p.pc.Undo? && p.stage.Idle? && Placed(d, p, disk) && TidyProcess(d, p)
    ensures TidyProcess(d, FromUndo(d, p, now))
  {
    hide Shape, InStep, TidyStep, MovedStep, Tries, AnyCompensationFailed, SettledFrom;
    if p.pc.j > 0 {
      UndoBegunTidy(Tries(d, d.steps[p.pc.j - 1]), p.exec.steps[p.pc.j - 1], now);
    }
  }

  lemma UndoBegunTidy(tries: nat, s: Step, now: Time)
    ensures TidyStep(tries, s) && s.status == StepSucceeded ==> TidyStep(tries, MovedStep(s, StepCompensating, now))
  {
  }

  lemma UndoneTidy(d: Definition, p: Process, disk: Record, now: Time)
    requires p.pc.Undone? && p.stage.Idle? && Placed(d, p, disk) && TidyProcess(d, p)
    ensures TidyProcess(d, FromUndone(p, now))
  {
    hide Placed, TidyStep, MovedStep, Tries;
    UndoPlace(d, p, disk);
    UndoneStepTidy(Tries(d, d.steps[p.pc.j]), p.exec.steps[p.pc.j], p.pc.outcome, now);
  }

  lemma UndoneStepTidy(tries: nat, s: Step, outcome: Option<Error>, now: Time)
    requires TidyStep(tries, s) && s.status == StepCompensating
    ensures TidyStep(tries, MovedStep(s, StepCompensated, now))
    ensures TidyStep(tries, MovedStep(s.(error := outcome), StepCompensationFailed, now))
  {
  }

  lemma WorkKeepsTidy(d: Definition, s: System, now: Time, s': System)
    requires ShapeInvariant(d, s) && TidyInvariant(d, s) && Next(d, s, Work(now)) == Some(s')
    ensures TidyInvariant(d, s')
  {
    var p := s.process.value;
    PlacedIsInRange(d, p, s.disk);
    hide Placed, InRange, TidyProcess, Tidy, Shape,
         FromEntry, FromScan, FromLoop, FromTry, FromJudging, FromAbort, FromUndo, FromUndone;
    if p.pc.Entry? || p.pc.Scan? || p.pc.Abort? {
      OtherTidy(d, p, s.disk, now);
    } else if p.pc.Loop? {
      LoopTidy(d, p, s.disk, now);
    } else if p.pc.Try? {
      TryTidy(d, p, s.disk, now);
    } else if p.pc.Judging? {
      JudgingTidy(d, p, s.disk, now);
    } else if p.pc.Undo? {
      UndoTidy(d, p, s.disk, now);
    } else if p.pc.Undone? {
      UndoneTidy(d, p, s.disk, now);
    }
  }

  lemma NextKeepsTidy(d: Definition, s: System, l: Label, s': System)
    requires ShapeInvariant(d, s) && TidyInvariant(d, s) && Next(d, s, l) == Some(s')
    ensures TidyInvariant(d, s')
  {
    if l.Work? {
      WorkKeepsTidy(d, s, l.now, s');
    } else {
      hide Working;
      QuietKeepsTidy(d, s, l, s');
    }
  }

  lemma QuietKeepsTidy(d: Definition, s: System, l: Label, s': System)
    requires ShapeInvariant(d, s) && TidyInvariant(d, s) && Next(d, s, l) == Some(s') && !l.Work?
    ensures TidyInvariant(d, s')
  {
    hide Working, TidyOutput, Stamped, Placed;
    if l.Publish? {
      PublishKeepsTidy(d, s, s');
    } else if l.Act? {
      ActKeepsTidy(d, s, l.answer, s');
    } else if l.Save? {
      assert !HasStopped(s.process.value) by {
        SaveKeepsShape(d, s, s');
      }
    }
  }

  lemma PublishKeepsTidy(d: Definition, s: System, s': System)
    requires ShapeInvariant(d, s) && TidyInvariant(d, s) && Next(d, s, Publish) == Some(s')
    ensures TidyInvariant(d, s')
  {
    hide TidyOutput, Stamped;
    if s.process.value.pc.Try? {
      var i := s.process.value.pc.i;
      assert TidyStep(Tries(d, d.steps[i]), s.process.value.exec.steps[i]);
    }
  }

  lemma ActKeepsTidy(d: Definition, s: System, answer: Answer, s': System)
    requires ShapeInvariant(d, s) && TidyInvariant(d, s) && Next(d, s, Act(answer)) == Some(s')
    ensures TidyInvariant(d, s')
  {
  }

  lemma {:induction false} ReplayKeepsTidy(d: Definition, s0: System, labels: seq<Label>, s: System)
    requires ShapeInvariant(d, s0) && TidyInvariant(d, s0) && Replay(d, s0, labels) == Some(s)
    ensures TidyInvariant(d, s)
  {
    if |labels| > 0 {
      var before := Replay(d, s0, labels[..|labels| - 1]).value;
      ReplayKeepsTidy(d, s0, labels[..|labels| - 1], before);
      ReplayKeepsShape(d, s0, labels[..|labels| - 1], before);
      NextKeepsTidy(d, before, labels[|labels| - 1], s);
    }
  }

  lemma CreatedIsTidy(d: Definition, id: string, input: Any, now: Time)
    ensures TidyInvariant(d, Created(d, id, input, now))
  {
  }

  /**
   * On every record that is ever on disk: timestamps are set exactly as far as the statuses
   * got, a step without success has no output, a running step has no attempts yet, a step that
   * succeeded took between one and all of its tries, and the output is the last step's.
   */
  lemma LivesAreTidy(d: Definition, id: string, input: Any, now: Time, labels: seq<Label>, s: System)
    requires Lives(d, id, input, now, labels, s)
    ensures |s.disk.steps| == |d.steps| && Tidy(d, s.disk)
  {
    CreatedHasShape(d, id, input, now);
    CreatedIsTidy(d, id, input, now);
    ReplayKeepsTidy(d, Created(d, id, input, now), labels, s);
  }
}
