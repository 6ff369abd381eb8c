/** Why a step is recorded as failed, over a whole life. */
module Failures {
  import opened Values
  import opened States
  import opened Retry
  import opened Records
  import opened Protocol
  import opened RecordShape
  import opened Progress
  import opened RetryLoop
  import opened MachineSteps

  /**
   * A retry loop that ends on this error after so many calls was right to: the error must not be
   * retried, or that is all the calls the policy allows. The step's own policy counts, if it has one.
   */
  predicate RanOut(d: Definition, i: nat, calls: int, err: Error)
    requires i < |d.steps|
  {
    var own := d.steps[i].retryPolicy;
    var limit := MaxAttempts(if own.Some? then own.value else d.retryPolicy);
    IsNonRetryable(err) || calls == if limit < 1 then 1 else limit
  }

  /** The last call of an Action. */
  function LastAct(h: seq<Effect>): Option<Effect> {
    if |h| == 0 then None
    else if h[|h| - 1].Acted? then Some(h[|h| - 1])
    else LastAct(h[..|h| - 1])
  }

  lemma LastActAppend(h: seq<Effect>, e: Effect)
    ensures LastAct(h + [e]) == if e.Acted? then Some(e) else LastAct(h)
  {
    assert (h + [e])[..|h + [e]| - 1] == h;
  }

  /** The last Action ever called is this step's, it returned this error, and the loop had run out. */
  ghost predicate LastCallFailed(d: Definition, h: seq<Effect>, i: nat, err: Error)
    requires i < |d.steps|
  {
    var last := LastAct(h);
    && last.Some? && last.value.Acted? && last.value.i == i && last.value.answer.err == Some(err)
    && RanOut(d, i, last.value.attempt, err)
  }

  /** What the record of a failed step says about it: the context ended, or the last call failed for good. */
  ghost predicate Explained(d: Definition, h: seq<Effect>, i: nat, err: Option<Error>)
    requires i < |d.steps|
  {
    match err
    case Some(SagaTimeout) => d.timeout > 0
    case Some(Cancelled(_)) => true
    case Some(StepError(name, inner)) => name == d.steps[i].name && LastCallFailed(d, h, i, inner)
    case _ => false
  }

  ghost predicate FailuresExplained(d: Definition, h: seq<Effect>, r: Record) {
    forall i :: 0 <= i < |r.steps| && i < |d.steps| && r.steps[i].status == StepFailed ==>
      Explained(d, h, i, r.steps[i].error)
  }

  ghost predicate FailureInvariant(d: Definition, s: System) {
    && FailuresExplained(d, s.history, s.disk)
    && (s.process.Some? ==>
          && (s.process.value.ctx == Some(OwnTimeout) ==> d.timeout > 0)
          && (HasStopped(s.process.value) || FailuresExplained(d, s.history, s.process.value.exec)))
  }

  predicate NoneFailed(r: Record) {
    forall i :: 0 <= i < |r.steps| ==> r.steps[i].status != StepFailed
  }

  /** While a step is attempted, none has failed, neither in memory nor on disk. */
  lemma AttemptingNoneFailed(d: Definition, p: Process, disk: Record)
    requires Placed(d, p, disk) && p.stage.Idle? && (p.pc.Try? || p.pc.Calling? || p.pc.Judging?)
    ensures NoneFailed(p.exec) && NoneFailed(disk)
  {
    forall i | 0 <= i < |disk.steps|
      ensures disk.steps[i].status != StepFailed
    {
      assert SameStep(p.exec.steps[i], disk.steps[i]);
    }
  }

  /** No step newly failed, and those that had keep their errors. */
  predicate FailsNoMore(a: Record, b: Record) {
    |a.steps| == |b.steps| && forall i :: 0 <= i < |b.steps| && b.steps[i].status == StepFailed ==>
      a.steps[i].status == StepFailed && a.steps[i].error == b.steps[i].error
  }

  lemma ForwardFailsNoMore(d: Definition, p: Process, now: Time)
    ensures p.pc.Entry? ==> FailsNoMore(p.exec, FromEntry(p, now).exec)
    ensures p.pc.Scan? ==> FailsNoMore(p.exec, FromScan(p).exec)
    ensures p.pc.Loop? ==> FailsNoMore(p.exec, FromLoop(d, p, now).exec)
  {
  }

  lemma BackwardFailsNoMore(d: Definition, p: Process, now: Time)
    requires InRange(d, p)
    ensures p.pc.Abort? ==> FailsNoMore(p.exec, FromAbort(p, now).exec)
    ensures p.pc.Undo? ==> FailsNoMore(p.exec, FromUndo(d, p, now).exec)
  {
    hide AnySucceeded, AnyCompensationFailed;
  }

  lemma UndoneFailsNoMore(d: Definition, p: Process, now: Time)
    requires InRange(d, p)
    ensures p.pc.Undone? ==> FailsNoMore(p.exec, FromUndone(p, now).exec)
  {
  }

  lemma FailStepExplains(d: Definition, h: seq<Effect>, p: Process, i: nat, cause: Error, now: Time)
    requires NoneFailed(p.exec) && i < |p.exec.steps| && i < |d.steps| && Explained(d, h, i, Some(cause))
    ensures FailuresExplained(d, h, FailStep(p, i, cause, now).exec)
  {
  }

  lemma CauseExplains(d: Definition, h: seq<Effect>, i: nat, cause: Cause)
    requires i < |d.steps| && (cause.OwnTimeout? ==> d.timeout > 0)
    ensures Explained(d, h, i, Some(CauseError(cause)))
  {
  }

  lemma TryExplains(d: Definition, h: seq<Effect>, p: Process, disk: Record, now: Time)
    requires p.stage.Idle? && p.pc.Try? && Placed(d, p, disk) && (p.ctx == Some(OwnTimeout) ==> d.timeout > 0)
    ensures FailuresExplained(d, h, FromTry(p, now).exec)
  {
    AttemptingNoneFailed(d, p, disk);
    hide Explained, FailStep;
    if p.ctx.Some? {
      CauseExplains(d, h, p.pc.i, p.ctx.value);
      FailStepExplains(d, h, p, p.pc.i, CauseError(p.ctx.value), now);
    }
  }

  lemma LastCallRanOut(d: Definition, h: seq<Effect>, p: Process, disk: Record)
    requires p.pc.Judging? && p.stage.Idle? && Placed(d, p, disk) && p.pc.answer.err.Some?
    requires |h| > 0 && h[|h| - 1] == Acted(p.pc.i, p.pc.attempt, p.pc.data, p.pc.answer)
    requires !MayRetry(d, p.pc.i, p.pc.attempt, p.pc.answer.err.value)
    ensures Explained(d, h, p.pc.i, Some(StepError(d.steps[p.pc.i].name, p.pc.answer.err.value)))
  {
    hide Shape, InStep, IsNonRetryable;
  }

  lemma JudgingExplains(d: Definition, h: seq<Effect>, p: Process, disk: Record, now: Time)
    requires p.stage.Idle? && p.pc.Judging? && Placed(d, p, disk) && (p.ctx == Some(OwnTimeout) ==> d.timeout > 0)
    requires |h| > 0 && h[|h| - 1] == Acted(p.pc.i, p.pc.attempt, p.pc.data, p.pc.answer)
    ensures FailuresExplained(d, h, FromJudging(d, p, now).exec)
  {
    AttemptingNoneFailed(d, p, disk);
    var i, a := p.pc.i, p.pc.answer;
    if p.ctx.Some? {
      CauseExplains(d, h, i, p.ctx.value);
      FailStepExplains(d, h, p, i, CauseError(p.ctx.value), now);
    } else if a.err.Some? && !MayRetry(d, i, p.pc.attempt, a.err.value) {
      LastCallRanOut(d, h, p, disk);
      FailStepExplains(d, h, p, i, StepError(d.steps[i].name, a.err.value), now);
    }
    hide Explained, FailStep, Placed;
  }

  lemma StillExplained(d: Definition, h: seq<Effect>, a: Record, b: Record)
    requires FailuresExplained(d, h, a) && FailsNoMore(a, b)
    ensures FailuresExplained(d, h, b)
  {
    hide Explained;
  }

  lemma WorkingExplains(d: Definition, h: seq<Effect>, p: Process, disk: Record, now: Time)
    requires p.stage.Idle? && Placed(d, p, disk) && !HasStopped(p) && FailuresExplained(d, h, p.exec)
    requires (p.ctx == Some(OwnTimeout) ==> d.timeout > 0) && Working(d, p, now).Some?
    requires p.pc.Judging? ==> |h| > 0 && h[|h| - 1] == Acted(p.pc.i, p.pc.attempt, p.pc.data, p.pc.answer)
    ensures FailuresExplained(d, h, Working(d, p, now).value.exec)
  {
    PlacedIsInRange(d, p, disk);
    if p.pc.Try? {
      TryExplains(d, h, p, disk, now);
    } else if p.pc.Judging? {
      JudgingExplains(d, h, p, disk, now);
    } else {
      ForwardFailsNoMore(d, p, now);
      BackwardFailsNoMore(d, p, now);
      UndoneFailsNoMore(d, p, now);
      hide FailuresExplained, FailsNoMore, Placed,
           FromEntry, FromScan, FromLoop, FromAbort, FromUndo, FromUndone;
      StillExplained(d, h, p.exec, Working(d, p, now).value.exec);
    }
  }

  /** An effect that is not a call of an Action explains as before. */
  lemma ExplainedAfter(d: Definition, h: seq<Effect>, told: seq<Effect>, r: Record)
    requires FailuresExplained(d, h, r) && |told| <= 1 && (|told| == 1 ==> !told[0].Acted?)
    ensures FailuresExplained(d, h + told, r)
  {
    if |told| == 0 {
      assert h + told == h;
    } else {
      assert told == [told[0]];
      LastActAppend(h, told[0]);
    }
  }

  lemma NextExplains(d: Definition, s: System, l: Label, s': System)
    requires ShapeInvariant(d, s) && LoopInvariant(d, s) && FailureInvariant(d, s) && Next(d, s, l) == Some(s')
    ensures FailureInvariant(d, s')
  {
    NextTells(d, s, l, s');
    if l.Act? {
      AttemptingNoneFailed(d, s.process.value, s.disk);
    } else {
      ExplainedAfter(d, s.history, Told(s, l), s.disk);
      if s.process.Some? && !HasStopped(s.process.value) {
        ExplainedAfter(d, s.history, Told(s, l), s.process.value.exec);
        if l.Work? {
          WorkExplains(d, s, l.now, s');
        }
      }
      hide FailuresExplained, Working, ShapeInvariant, LoopInvariant;
    }
  }

  lemma WorkExplains(d: Definition, s: System, now: Time, s': System)
    requires ShapeInvariant(d, s) && LoopInvariant(d, s) && FailureInvariant(d, s) && Next(d, s, Work(now)) == Some(s')
    requires !HasStopped(s.process.value)
    ensures s'.process.Some? && FailuresExplained(d, s'.history, s'.process.value.exec)
    ensures s'.process.value.ctx == s.process.value.ctx
  {
    var p := s.process.value;
    WorkingExplains(d, s.history, p, s.disk, now);
    WorkingKeepsContext(d, p, now);
    var q := Working(d, p, now).value;
    hide FailuresExplained, Working, ShapeInvariant, LoopInvariant;
    ExplainedAfter(d, s.history, Told(s, Work(now)), q.exec);
    NextTells(d, s, Work(now), s');
  }

  lemma WorkingKeepsContext(d: Definition, p: Process, now: Time)
    ensures Working(d, p, now).Some? ==> Working(d, p, now).value.ctx == p.ctx
  {
  }

  lemma {:induction false} ReplayExplains(d: Definition, s0: System, labels: seq<Label>, s: System)
    requires ShapeInvariant(d, s0) && LoopInvariant(d, s0) && FailureInvariant(d, s0)
    requires Replay(d, s0, labels) == Some(s)
    ensures FailureInvariant(d, s)
  {
    if |labels| > 0 {
      hide Next, ShapeInvariant, LoopInvariant, FailureInvariant;
      var front, l, before := ReplayFront(d, s0, labels, s);
      ReplayExplains(d, s0, front, before);
      ReplayKeepsShape(d, s0, front, before);
      ReplayKeepsLoop(d, s0, front, before);
      NextExplains(d, before, l, s);
    }
  }

  /**
   * In every life, the error stored with a FAILED step says why: its saga's timeout, if there is one,
   * a cancellation, or else what the last Action ever called returned, which was this step's, and
   * then that error must not be retried or the calls of its loop were all that the policy allows.
   */
  lemma LivesFailForAReason(d: Definition, id: string, input: Any, now: Time, labels: seq<Label>, s: System)
    requires Lives(d, id, input, now, labels, s)
    ensures FailuresExplained(d, s.history, s.disk)
  {
    CreatedHasShape(d, id, input, now);
    ReplayExplains(d, Created(d, id, input, now), labels, s);
  }
}
