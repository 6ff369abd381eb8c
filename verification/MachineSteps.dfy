/** What the machine does next, case by case, in the engine's own terms. */
module MachineSteps {
  import opened Values
  import opened States
  import opened Records
  import opened Protocol
  import opened RecordShape
  import opened Progress
  import opened Observations

  lemma ReplaySnoc(d: Definition, s0: System, labels: seq<Label>, l: Label)
    ensures Replay(d, s0, labels + [l]) ==
            var before := Replay(d, s0, labels);
            if before.None? then None else Next(d, before.value, l)
  {
    assert (labels + [l])[..|labels + [l]| - 1] == labels;
  }

  /** A run that is not empty had a last label. */
  lemma ReplayFront(d: Definition, s0: System, labels: seq<Label>, s: System)
    returns (front: seq<Label>, l: Label, before: System)
    requires |labels| > 0 && Replay(d, s0, labels) == Some(s)
    ensures labels == front + [l] && |front| < |labels|
    ensures Replay(d, s0, front) == Some(before) && Next(d, before, l) == Some(s)
  {
    front, l := labels[..|labels| - 1], labels[|labels| - 1];
    before := Replay(d, s0, front).value;
    hide Next;
  }

  lemma ContextStays(d: Definition, s: System, l: Label, s': System)
    requires Next(d, s, l) == Some(s')
    ensures s.process.Some? && !l.Crash? && !l.ContextEnds? ==>
              s'.process.Some? && s'.process.value.ctx == s.process.value.ctx
  {
  }

  lemma ContextMayEnd(d: Definition, s: System, cause: Cause)
    requires s.process.Some? && s.process.value.ctx.None? && (cause.OwnTimeout? ==> d.timeout > 0)
    ensures Next(d, s, ContextEnds(cause))
            == Some(s.(process := Some(s.process.value.(ctx := Some(cause)))))
  {
    hide Working;
  }

  lemma WorkIsUnseen(d: Definition, id: string, s: System, now: Time)
    ensures SeenBy(d, id, s, Work(now)) == []
  {
  }

  /** A save stores a record that is one status change deeper. */
  lemma SaveDeepens(d: Definition, s: System)
    requires ShapeInvariant(d, s) && s.process.Some? && s.process.value.stage.Saving?
    ensures Depth(s.process.value.exec) == Depth(s.disk) + 1
  {
    var s' := Next(d, s, Save).value;
    SaveKeepsShape(d, s, s');
    hide ShapeInvariant;
    OneEdgeIsOneUnit(s.disk, s.process.value.exec, s.process.value.stage.edge);
  }

  lemma NeverPanicked(d: Definition, s: System)
    requires ShapeInvariant(d, s) && s.process.Some?
    ensures !s.process.value.pc.Panicked?
  {
  }

  /** The process is about to change the status of `r`, its record touched up, and go on at `next`. */
  ghost predicate MovesExec(d: Definition, p: Process, r: Record, to: Status, next: Pc) {
    p.stage.Idle? && forall now :: Working(d, p, now) == Some(MoveExec(p, r, to, now, next))
  }

  ghost predicate MovesStep(d: Definition, p: Process, r: Record, i: nat, to: StepStatus, next: Pc) {
    && p.stage.Idle? && i < |r.steps|
    && forall now :: Working(d, p, now) == Some(MoveStep(p, r, i, to, now, next))
  }

  function Failing(r: Record, i: nat, cause: Error): Record
    requires i < |r.steps|
  {
    WithStep(r, i, r.steps[i].(error := Some(cause)))
  }

  /** The step is about to be recorded as failed because of `cause`. */
  ghost predicate Fails(d: Definition, p: Process, i: nat, cause: Error) {
    i < |p.exec.steps| && MovesStep(d, p, Failing(p.exec, i, cause), i, StepFailed, Abort(i, cause, true))
  }

  function Succeeding(r: Record, i: nat, out: Any): Record
    requires i < |r.steps|
  {
    WithStep(r, i, r.steps[i].(output := out))
  }

  ghost predicate Succeeds(d: Definition, p: Process, i: nat, out: Any) {
    i < |p.exec.steps| && MovesStep(d, p, Succeeding(p.exec, i, out), i, StepSucceeded, Loop(i + 1, out))
  }

  /** The record once the Action of step `i` was called. */
  function Called(r: Record, i: nat): Record
    requires i < |r.steps|
  {
    WithStep(r, i, r.steps[i].(attempts := r.steps[i].attempts + 1))
  }

  /** The record once it was called `n` times. */
  function CalledTimes(r: Record, i: nat, n: nat): (c: Record)
    requires i < |r.steps|
    ensures |c.steps| == |r.steps| && c.steps[i].attempts == r.steps[i].attempts + n
    ensures c == WithStep(r, i, r.steps[i].(attempts := c.steps[i].attempts))
  {
    WithStep(r, i, r.steps[i].(attempts := r.steps[i].attempts + n))
  }

  lemma CalledOnceMore(r: Record, i: nat, n: nat)
    requires i < |r.steps|
    ensures Called(CalledTimes(r, i, n), i) == CalledTimes(r, i, n + 1)
  {
    var c := CalledTimes(r, i, n);
    assert c.steps[i := c.steps[i].(attempts := c.steps[i].attempts + 1)]
        == r.steps[i := r.steps[i].(attempts := r.steps[i].attempts + n + 1)];
  }

  lemma NotCalledYet(r: Record, i: nat)
    requires i < |r.steps|
    ensures CalledTimes(r, i, 0) == r
  {
    assert r.steps[i := r.steps[i].(attempts := r.steps[i].attempts + 0)] == r.steps;
  }

  ghost predicate AtTry(p: Process) {
    p.pc.Try? && p.stage.Idle? && p.pc.i < |p.exec.steps|
  }

  ghost predicate AtVerdict(d: Definition, p: Process) {
    p.pc.Judging? && p.stage.Idle? && p.pc.i < |p.exec.steps| && p.pc.i < |d.steps|
  }

  lemma TryStops(d: Definition, p: Process)
    requires AtTry(p) && p.ctx.Some?
    ensures Fails(d, p, p.pc.i, CauseError(p.ctx.value))
  {
  }

  lemma TryCalls(d: Definition, p: Process, now: Time)
    requires AtTry(p) && p.ctx.None?
    ensures Working(d, p, now) == Some(p.(pc := Calling(p.pc.i, p.pc.data, p.pc.attempt)))
  {
  }

  lemma VerdictIsCause(d: Definition, p: Process)
    requires AtVerdict(d, p) && p.ctx.Some? && (p.ctx.value.OwnTimeout? || p.pc.answer.err.Some?)
    ensures Fails(d, p, p.pc.i, CauseError(p.ctx.value))
  {
  }

  lemma VerdictIsSuccess(d: Definition, p: Process)
    requires AtVerdict(d, p) && p.ctx != Some(OwnTimeout) && p.pc.answer.err.None?
    ensures Succeeds(d, p, p.pc.i, p.pc.answer.out)
  {
  }

  lemma VerdictIsFinal(d: Definition, p: Process)
    requires AtVerdict(d, p) && p.ctx.None? && p.pc.answer.err.Some?
    requires !MayRetry(d, p.pc.i, p.pc.attempt, p.pc.answer.err.value)
    ensures Fails(d, p, p.pc.i, StepError(d.steps[p.pc.i].name, p.pc.answer.err.value))
  {
  }

  lemma VerdictIsRetry(d: Definition, p: Process, now: Time)
    requires AtVerdict(d, p) && p.ctx.None? && p.pc.answer.err.Some?
    requires MayRetry(d, p.pc.i, p.pc.attempt, p.pc.answer.err.value)
    ensures Working(d, p, now) == Some(p.(pc := Try(p.pc.i, p.pc.data, p.pc.attempt + 1)))
  {
  }

  // ---------- forward ----------

  lemma EntryStarts(d: Definition, p: Process)
    requires p.pc.Entry? && p.stage.Idle? && p.exec.status == Pending
    ensures MovesExec(d, p, p.exec, Running, Scan)
  {
  }

  lemma EntryContinues(d: Definition, p: Process, now: Time)
    requires p.pc.Entry? && p.stage.Idle?
    ensures p.exec.status == Running ==> Working(d, p, now) == Some(p.(pc := Scan))
    ensures p.exec.status == Compensating ==>
              var f := Boundary(p.exec.steps);
              Working(d, p, now) == Some(p.(pc := Undo(f, f, Message(p.exec.error))))
    ensures p.exec.status.IsTerminal() ==> Working(d, p, now) == Some(p.(pc := Done(Returned(None))))
  {
  }

  lemma ScanFindsFailure(d: Definition, p: Process, i: nat, now: Time)
    requires p.pc.Scan? && p.stage.Idle? && FirstFailed(p.exec.steps) == Some(i)
    ensures var s := p.exec.steps[i];
            Working(d, p, now) == Some(p.(pc := Abort(i, StepError(s.name, Message(s.error)), false)))
  {
  }

  lemma ScanFindsStart(d: Definition, p: Process, now: Time)
    requires p.pc.Scan? && p.stage.Idle? && FirstFailed(p.exec.steps) == None
    ensures var start := SucceededPrefix(p.exec.steps);
            Working(d, p, now) == Some(p.(pc := Loop(start, DataInto(p.exec, start))))
  {
  }

  function Completing(r: Record, data: Any): Record {
    r.(currentStep := "", output := data)
  }

  lemma LoopEnds(d: Definition, p: Process)
    requires p.pc.Loop? && p.stage.Idle? && p.pc.i >= |d.steps|
    ensures MovesExec(d, p, Completing(p.exec, p.pc.data), Completed, Done(Returned(None)))
  {
  }

  lemma LoopStops(d: Definition, p: Process, now: Time)
    requires p.pc.Loop? && p.stage.Idle? && p.pc.i < |d.steps| && p.ctx.Some?
    ensures Working(d, p, now) == Some(p.(pc := Abort(p.pc.i, CauseError(p.ctx.value), true)))
  {
  }

  lemma LoopStarts(d: Definition, p: Process)
    requires p.pc.Loop? && p.stage.Idle? && p.pc.i < |d.steps| == |p.exec.steps| && p.ctx.None?
    requires p.exec.steps[p.pc.i].status == StepPending
    ensures MovesStep(d, p, p.exec.(currentStep := d.steps[p.pc.i].name), p.pc.i, StepRunning, Try(p.pc.i, p.pc.data, 1))
  {
  }

  lemma LoopReruns(d: Definition, p: Process, now: Time)
    requires p.pc.Loop? && p.stage.Idle? && p.pc.i < |d.steps| == |p.exec.steps| && p.ctx.None?
    requires p.exec.steps[p.pc.i].status != StepPending
    ensures Working(d, p, now)
            == Some(p.(pc := Try(p.pc.i, p.pc.data, 1), exec := p.exec.(currentStep := d.steps[p.pc.i].name)))
  {
  }

  // ---------- backward ----------

  function Aborting(r: Record, cause: Error, clears: bool): Record {
    r.(error := Some(cause), currentStep := if clears then "" else r.currentStep)
  }

  lemma AbortEnds(d: Definition, p: Process)
    requires p.pc.Abort? && p.stage.Idle? && p.pc.i <= |p.exec.steps|
    ensures var r := Aborting(p.exec, p.pc.cause, p.pc.clears);
            if AnySucceeded(p.exec.steps[..p.pc.i])
            then MovesExec(d, p, r, Compensating, Undo(p.pc.i, p.pc.i, p.pc.cause))
            else MovesExec(d, p, r, Failed, Done(Returned(Some(p.pc.cause))))
  {
  }

  predicate AtUndo(d: Definition, p: Process) {
    p.pc.Undo? && p.stage.Idle? && p.pc.j <= |p.exec.steps| == |d.steps| && p.pc.failedAt <= |p.exec.steps|
  }

  lemma UndoEnds(d: Definition, p: Process)
    requires AtUndo(d, p) && p.pc.j == 0
    ensures var r := p.exec.(currentStep := "");
            if AnyCompensationFailed(p.exec.steps[..p.pc.failedAt])
            then MovesExec(d, p, r, CompensationFailed, Done(Returned(Some(CompensationFailure(p.pc.cause)))))
            else MovesExec(d, p, r, Compensated, Done(Returned(Some(p.pc.cause))))
  {
  }

  predicate Undoable(d: Definition, r: Record, j: nat)
    requires j < |r.steps| == |d.steps|
  {
    (r.steps[j].status == StepSucceeded || r.steps[j].status == StepCompensating) && d.steps[j].hasCompensate
  }

  lemma UndoSkips(d: Definition, p: Process, now: Time)
    requires AtUndo(d, p) && p.pc.j > 0 && !Undoable(d, p.exec, p.pc.j - 1)
    ensures Working(d, p, now) == Some(p.(pc := Undo(p.pc.j - 1, p.pc.failedAt, p.pc.cause)))
  {
  }

  lemma UndoBegins(d: Definition, p: Process)
    requires AtUndo(d, p) && p.pc.j > 0 && Undoable(d, p.exec, p.pc.j - 1)
    requires p.exec.steps[p.pc.j - 1].status == StepSucceeded
    ensures var j := p.pc.j - 1;
            MovesStep(d, p, p.exec.(currentStep := p.exec.steps[j].name), j, StepCompensating,
                      Invoke(j, p.pc.failedAt, p.pc.cause))
  {
  }

  lemma UndoRepeats(d: Definition, p: Process, now: Time)
    requires AtUndo(d, p) && p.pc.j > 0 && Undoable(d, p.exec, p.pc.j - 1)
    requires p.exec.steps[p.pc.j - 1].status != StepSucceeded
    ensures var j := p.pc.j - 1;
            Working(d, p, now)
            == Some(p.(pc := Invoke(j, p.pc.failedAt, p.pc.cause), exec := p.exec.(currentStep := p.exec.steps[j].name)))
  {
  }

  lemma UndoneMoves(d: Definition, p: Process)
    requires p.pc.Undone? && p.stage.Idle? && p.pc.j < |p.exec.steps|
    ensures var next := Undo(p.pc.j, p.pc.failedAt, p.pc.cause);
            if p.pc.outcome.Some?
            then MovesStep(d, p, Failing(p.exec, p.pc.j, p.pc.outcome.value), p.pc.j, StepCompensationFailed, next)
            else MovesStep(d, p, p.exec, p.pc.j, StepCompensated, next)
  {
  }

  /** While a process is not done, its record fits its place. */
  lemma PlaceOf(d: Definition, s: System)
    requires ShapeInvariant(d, s) && s.process.Some? && s.process.value.stage.Idle? && !s.process.value.pc.Done?
    ensures |s.process.value.exec.steps| == |d.steps| && Fits(d, s.process.value.exec)
    ensures Resting(d, s.process.value.pc, s.process.value.exec)
  {
  }
}
