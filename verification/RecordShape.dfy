/**
 * The invariant of every record that reaches the disk and of every process that works on it,
 * over all runs, crashes and failed saves.
 */
module RecordShape {
  import opened Values
  import opened States
  import opened Retry
  import opened Records
  import opened Protocol

  /** The record has the steps of the definition. */
  ghost predicate Fits(d: Definition, r: Record) {
    && r.sagaName == d.name
    && |r.steps| == |d.steps|
    && forall i :: 0 <= i < |r.steps| ==> r.steps[i].name == d.steps[i].name
  }

  /** Only the first step that has not passed may have been started: passed*, one of any kind, pending*. */
  ghost predicate Sequential(steps: seq<Step>) {
    forall i, j :: 0 <= i < j < |steps| && steps[j].status != StepPending ==> Passed(steps[i].status)
  }

  /** Nothing is left to do for passed step `i` when rolling back. */
  ghost predicate Settled(d: Definition, steps: seq<Step>, i: int)
    requires |steps| == |d.steps| && 0 <= i < |steps|
  {
    || steps[i].status == StepCompensated || steps[i].status == StepCompensationFailed
    || (steps[i].status == StepSucceeded && !d.steps[i].hasCompensate)
  }

  /** Rolling back goes from the top down and leaves steps without a Compensate alone. */
  ghost predicate TopDown(d: Definition, steps: seq<Step>)
    requires |steps| == |d.steps|
  {
    && (forall i :: 0 <= i < |steps| && Passed(steps[i].status) && !d.steps[i].hasCompensate
                    ==> steps[i].status == StepSucceeded)
    && (forall i, j :: 0 <= i < j < |steps| && Passed(steps[j].status)
                       && UndoBegun(steps[i].status)
                       ==> Settled(d, steps, j))
  }

  /** At least one step passed and at least one did not. */
  ghost predicate Partial(steps: seq<Step>) {
    |steps| > 0 && Passed(steps[0].status) && !Passed(steps[|steps| - 1].status)
  }

  ghost predicate Shape(d: Definition, r: Record) {
    && Fits(d, r)
    && Sequential(r.steps)
    && ShapeFor(d, r)
  }

  ghost predicate ShapeFor(d: Definition, r: Record)
    requires |r.steps| == |d.steps|
  {
    match r.status
    case Pending => forall i :: 0 <= i < |r.steps| ==> r.steps[i].status == StepPending
    case Running => forall i :: 0 <= i < |r.steps| ==>
        !UndoBegun(r.steps[i].status)
    case Completed => forall i :: 0 <= i < |r.steps| ==> r.steps[i].status == StepSucceeded
    case Failed => |r.steps| > 0 && forall i :: 0 <= i < |r.steps| ==> !Passed(r.steps[i].status)
    case Compensating => Partial(r.steps) && TopDown(d, r.steps)
    case Compensated => RolledBack(d, r.steps) && !AnyCompensationFailed(r.steps)
    case CompensationFailed => RolledBack(d, r.steps) && AnyCompensationFailed(r.steps)
  }

  /** Every step that passed was compensated, or its compensation failed, or it has none. */
  ghost predicate RolledBack(d: Definition, steps: seq<Step>)
    requires |steps| == |d.steps|
  {
    && Partial(steps) && TopDown(d, steps)
    && forall i :: 0 <= i < |steps| && Passed(steps[i].status) ==> Settled(d, steps, i)
  }

  /** What never changes in a record. */
  ghost predicate SameIdentity(a: Record, b: Record) {
    && a.id == b.id && a.sagaName == b.sagaName && a.input == b.input && a.createdAt == b.createdAt
    && |a.steps| == |b.steps|
    && forall i :: 0 <= i < |a.steps| ==> a.steps[i].name == b.steps[i].name
  }

  ghost predicate SameStep(a: Step, b: Step) {
    a.status == b.status && (Ended(a.status) ==> a.output == b.output && a.attempts == b.attempts)
  }

  /** Equal statuses, and equal outcomes of the steps that ended. */
  ghost predicate Same(a: Record, b: Record) {
    && SameIdentity(a, b)
    && a.status == b.status
    && (forall i :: 0 <= i < |a.steps| ==> SameStep(a.steps[i], b.steps[i]))
  }

  /** `b` is `a` after exactly one legal status change. */
  ghost predicate OneEdge(a: Record, b: Record, e: Edge) {
    && SameIdentity(a, b)
    && match e
       case ExecEdge(to) =>
         && CanTransitionStatus(a.status, to) && b.status == to
         && (forall i :: 0 <= i < |a.steps| ==> SameStep(a.steps[i], b.steps[i]))
       case StepEdge(k, to) =>
         && a.status == b.status && k < |a.steps|
         && CanTransitionStepStatus(a.steps[k].status, to) && b.steps[k].status == to
         && (Ended(a.steps[k].status) ==>
               a.steps[k].output == b.steps[k].output && a.steps[k].attempts == b.steps[k].attempts)
         && (forall i :: 0 <= i < |a.steps| && i != k ==> SameStep(a.steps[i], b.steps[i]))
  }

  /** Everything below `i` succeeded, nothing above it was started. */
  ghost predicate Forward(r: Record, i: nat) {
    && r.status == Running && i <= |r.steps|
    && (forall m :: 0 <= m < i ==> r.steps[m].status == StepSucceeded)
    && (forall m :: i < m < |r.steps| ==> r.steps[m].status == StepPending)
  }

  /** `f` separates the steps that passed from the others. */
  ghost predicate Cut(steps: seq<Step>, f: nat) {
    && f <= |steps|
    && (forall m :: 0 <= m < f ==> Passed(steps[m].status))
    && (forall m :: f <= m < |steps| ==> !Passed(steps[m].status))
  }

  ghost predicate SettledFrom(d: Definition, steps: seq<Step>, from: nat, to: nat)
    requires |steps| == |d.steps| && to <= |steps|
  {
    forall m :: from <= m < to ==> Settled(d, steps, m)
  }

  ghost predicate Attempting(d: Definition, r: Record, i: nat, data: Any, attempt: nat)
    requires |r.steps| == |d.steps|
  {
    && i < |r.steps| && Forward(r, i) && r.steps[i].status == StepRunning
    && data == DataInto(r, i)
    && 1 <= attempt <= Tries(d, d.steps[i])
  }

  /** What a process that is not about to save knows about its record. */
  ghost predicate Resting(d: Definition, pc: Pc, r: Record)
    requires |r.steps| == |d.steps|
  {
    match pc
    case Entry => true
    case Scan => r.status == Running
    case Loop(i, data) =>
      && Forward(r, i) && data == DataInto(r, i)
      && (i < |r.steps| ==> r.steps[i].status == StepPending || r.steps[i].status == StepRunning)
    case Try(i, data, attempt) => Attempting(d, r, i, data, attempt)
    case Calling(i, data, attempt) => Attempting(d, r, i, data, attempt)
    case Judging(i, data, attempt, _) => Attempting(d, r, i, data, attempt)
    case Abort(i, _, _) =>
      && i < |r.steps| && Forward(r, i)
      && !Passed(r.steps[i].status)
    case Undo(j, f, _) =>
      && r.status == Compensating && Cut(r.steps, f) && j <= f && SettledFrom(d, r.steps, j, f)
    case Invoke(j, f, _) =>
      && r.status == Compensating && Cut(r.steps, f) && j < f && SettledFrom(d, r.steps, j + 1, f)
      && r.steps[j].status == StepCompensating && d.steps[j].hasCompensate
    case Undone(j, f, _, _) =>
      && r.status == Compensating && Cut(r.steps, f) && j < f && SettledFrom(d, r.steps, j + 1, f)
      && r.steps[j].status == StepCompensating && d.steps[j].hasCompensate
    case Done(Returned(_)) => r.status.IsTerminal()
    case _ => false
  }

  /** The memory copy is the disk's, or one status change ahead of it while that is being saved. */
  ghost predicate InStep(p: Process, disk: Record) {
    && (p.stage.Saving? ==> OneEdge(disk, p.exec, p.stage.edge) && (p.stage.edge.StepEdge? ==> !p.pc.Done?))
    && (!p.stage.Saving? ==> Same(p.exec, disk))
    && (p.pc.Entry? ==> p.exec == disk && p.stage.Idle?)
  }

  /** A failed save ended the process; its memory may be ahead of the disk for good. */
  predicate HasStopped(p: Process) {
    p.pc.Done? && p.pc.result.Stopped?
  }

  ghost predicate Placed(d: Definition, p: Process, disk: Record) {
    if HasStopped(p) then p.stage.Idle?
    else Shape(d, p.exec) && InStep(p, disk) && Resting(d, p.pc, p.exec)
  }

  ghost predicate ShapeInvariant(d: Definition, s: System) {
    && Shape(d, s.disk)
    && (s.process.Some? ==> Placed(d, s.process.value, s.disk))
  }

  // ---------- single status changes keep the shape ----------

  /** `r` is `exec` with other bookkeeping: nothing that a crash preserves differs. */
  ghost predicate Touched(exec: Record, r: Record, i: nat) {
    && SameIdentity(exec, r) && exec.status == r.status && i < |r.steps|
    && (forall m :: 0 <= m < |r.steps| && m != i ==> r.steps[m] == exec.steps[m])
    && SameStep(exec.steps[i], r.steps[i])
  }

  lemma StepEdgeOf(disk: Record, exec: Record, r: Record, i: nat, to: StepStatus, now: Time)
    requires Same(exec, disk) && Touched(exec, r, i)
    requires CanTransitionStepStatus(r.steps[i].status, to)
    ensures OneEdge(disk, WithStep(r, i, MovedStep(r.steps[i], to, now)), StepEdge(i, to))
  {
    var b := WithStep(r, i, MovedStep(r.steps[i], to, now));
    forall m | 0 <= m < |disk.steps| && m != i
      ensures SameStep(disk.steps[m], b.steps[m])
    {
      assert SameStep(exec.steps[m], disk.steps[m]);
    }
    assert SameStep(exec.steps[i], disk.steps[i]);
  }

  lemma ExecEdgeOf(disk: Record, exec: Record, r: Record, to: Status, now: Time)
    requires Same(exec, disk) && r.steps == exec.steps && SameIdentity(exec, r) && r.status == exec.status
    requires CanTransitionStatus(r.status, to)
    ensures OneEdge(disk, Moved(r, to, now), ExecEdge(to))
  {
    forall m | 0 <= m < |disk.steps|
      ensures SameStep(disk.steps[m], r.steps[m])
    {
      assert SameStep(exec.steps[m], disk.steps[m]);
    }
  }

  lemma ForwardStepShape(d: Definition, a: Record, b: Record, i: nat, to: StepStatus)
    requires Shape(d, a) && Forward(a, i) && i < |a.steps|
    requires OneEdge(a, b, StepEdge(i, to)) && (to == StepRunning || to == StepSucceeded || to == StepFailed)
    ensures Shape(d, b) && Forward(b, i)
  {
    assert forall m :: 0 <= m < |a.steps| && m != i ==> SameStep(a.steps[m], b.steps[m]);
  }

  lemma BackwardStepShape(d: Definition, a: Record, b: Record, i: nat, to: StepStatus, f: nat)
    requires Shape(d, a) && a.status == Compensating
    requires Cut(a.steps, f) && i < f && SettledFrom(d, a.steps, i + 1, f) && d.steps[i].hasCompensate
    requires OneEdge(a, b, StepEdge(i, to))
    requires UndoBegun(to)
    ensures Shape(d, b) && Cut(b.steps, f)
    ensures SettledFrom(d, b.steps, i + 1, f)
  {
    assert forall m :: 0 <= m < |a.steps| && m != i ==> SameStep(a.steps[m], b.steps[m]);
    assert forall m :: 0 <= m < |a.steps| && m != i && Settled(d, a.steps, m) ==> Settled(d, b.steps, m);
    forall x, y | 0 <= x < y < |b.steps| && Passed(b.steps[y].status)
                  && UndoBegun(b.steps[x].status)
      ensures Settled(d, b.steps, y)
    {
      if x == i {
        assert Settled(d, a.steps, y);
      } else if y == i {
        assert Settled(d, a.steps, i);
      } else {
        assert Settled(d, a.steps, y);
      }
    }
  }

  // ---------- every step of control flow keeps it ----------

  lemma FromEntryKeeps(d: Definition, p: Process, disk: Record, now: Time)
    requires p.pc.Entry? && p.stage.Idle? && Placed(d, p, disk)
    ensures Placed(d, FromEntry(p, now), disk)
  {
    if p.exec.status == Pending {
      ExecEdgeOf(disk, p.exec, p.exec, Running, now);
      hide Same, OneEdge, Sequential;
    } else {
      EntryContinuesPlaced(d, p, disk, now);
    }
  }

  lemma EntryContinuesPlaced(d: Definition, p: Process, disk: Record, now: Time)
    requires p.pc.Entry? && p.stage.Idle? && Placed(d, p, disk) && p.exec.status != Pending
    ensures Placed(d, FromEntry(p, now), disk)
  {
    if p.exec.status == Compensating {
      CompensatingHasCut(d, p.exec);
    }
    hide Sequential, Same, Cut, SettledFrom, Partial, TopDown;
  }

  /** The boundary read off a record that is being rolled back cuts off the steps that passed. */
  lemma CompensatingHasCut(d: Definition, r: Record)
    requires Shape(d, r) && r.status == Compensating
    ensures var f := Boundary(r.steps); Cut(r.steps, f) && SettledFrom(d, r.steps, f, f)
  {
  }

  lemma FromScanKeeps(d: Definition, p: Process, disk: Record)
    requires p.pc.Scan? && p.stage.Idle? && Placed(d, p, disk)
    ensures Placed(d, FromScan(p), disk)
  {
  }

  lemma FromLoopKeeps(d: Definition, p: Process, disk: Record, now: Time)
    requires p.pc.Loop? && p.stage.Idle? && Placed(d, p, disk)
    ensures Placed(d, FromLoop(d, p, now), disk)
  {
    var i := p.pc.i;
    if i >= |d.steps| {
      ExecEdgeOf(disk, p.exec, p.exec.(currentStep := "", output := p.pc.data), Completed, now);
    } else if p.ctx.None? && p.exec.steps[i].status == StepPending {
      var r := p.exec.(currentStep := d.steps[i].name);
      var b := WithStep(r, i, MovedStep(r.steps[i], StepRunning, now));
      StepEdgeOf(disk, p.exec, r, i, StepRunning, now);
      StepEdgeOf(p.exec, p.exec, r, i, StepRunning, now);
      ForwardStepShape(d, p.exec, b, i, StepRunning);
    }
  }

  lemma FailStepKeeps(d: Definition, p: Process, disk: Record, i: nat, cause: Error, now: Time)
    requires Shape(d, p.exec) && Same(p.exec, disk)
    requires i < |p.exec.steps| && Forward(p.exec, i) && p.exec.steps[i].status == StepRunning
    ensures Placed(d, FailStep(p, i, cause, now), disk)
  {
    var r := WithStep(p.exec, i, p.exec.steps[i].(error := Some(cause)));
    var b := WithStep(r, i, MovedStep(r.steps[i], StepFailed, now));
    StepEdgeOf(disk, p.exec, r, i, StepFailed, now);
    StepEdgeOf(p.exec, p.exec, r, i, StepFailed, now);
    ForwardStepShape(d, p.exec, b, i, StepFailed);
  }

  lemma FromTryKeeps(d: Definition, p: Process, disk: Record, now: Time)
    requires p.pc.Try? && p.stage.Idle? && Placed(d, p, disk)
    ensures Placed(d, FromTry(p, now), disk)
  {
    if p.ctx.Some? {
      FailStepKeeps(d, p, disk, p.pc.i, CauseError(p.ctx.value), now);
    }
  }

  lemma SucceedKeeps(d: Definition, p: Process, disk: Record, i: nat, out: Any, now: Time)
    requires Shape(d, p.exec) && Same(p.exec, disk)
    requires i < |p.exec.steps| && Forward(p.exec, i) && p.exec.steps[i].status == StepRunning
    ensures var r := WithStep(p.exec, i, p.exec.steps[i].(output := out));
            Placed(d, MoveStep(p, r, i, StepSucceeded, now, Loop(i + 1, out)), disk)
  {
    var r := WithStep(p.exec, i, p.exec.steps[i].(output := out));
    var b := WithStep(r, i, MovedStep(r.steps[i], StepSucceeded, now));
    StepEdgeOf(disk, p.exec, r, i, StepSucceeded, now);
    StepEdgeOf(p.exec, p.exec, r, i, StepSucceeded, now);
    ForwardStepShape(d, p.exec, b, i, StepSucceeded);
  }

  lemma FromJudgingKeeps(d: Definition, p: Process, disk: Record, now: Time)
    requires p.pc.Judging? && p.stage.Idle? && Placed(d, p, disk)
    ensures Placed(d, FromJudging(d, p, now), disk)
  {
    var i, a := p.pc.i, p.pc.answer;
    if p.ctx == Some(OwnTimeout) {
      FailStepKeeps(d, p, disk, i, SagaTimeout, now);
    } else if a.err.None? {
      SucceedKeeps(d, p, disk, i, a.out, now);
    } else if p.ctx.Some? {
      FailStepKeeps(d, p, disk, i, CauseError(p.ctx.value), now);
    } else if IsNonRetryable(a.err.value) || p.pc.attempt >= MaxAttempts(RetryPolicyFor(d, d.steps[i])) {
      FailStepKeeps(d, p, disk, i, StepError(d.steps[i].name, a.err.value), now);
    }
  }

  lemma FromAbortKeeps(d: Definition, p: Process, disk: Record, now: Time)
    requires p.pc.Abort? && p.stage.Idle? && Placed(d, p, disk)
    ensures Placed(d, FromAbort(p, now), disk)
  {
    var i := p.pc.i;
    var r := p.exec.(error := Some(p.pc.cause),
                     currentStep := if p.pc.clears then "" else p.exec.currentStep);
    var below := r.steps[..i];
    assert forall m :: 0 <= m < i ==> below[m] == p.exec.steps[m];
    if i == 0 {
      assert !AnySucceeded(below);
      ExecEdgeOf(disk, p.exec, r, Failed, now);
    } else {
      assert below[0].status == StepSucceeded;
      ExecEdgeOf(disk, p.exec, r, Compensating, now);
      AbortShape(d, p.exec, Moved(r, Compensating, now), i);
    }
  }

  lemma AbortShape(d: Definition, a: Record, b: Record, i: nat)
    requires Shape(d, a) && Forward(a, i) && 0 < i < |a.steps| && !Passed(a.steps[i].status)
    requires b.steps == a.steps && b.sagaName == a.sagaName && b.status == Compensating
    ensures Shape(d, b) && Cut(b.steps, i) && SettledFrom(d, b.steps, i, i)
  {
  }

  lemma FromUndoKeeps(d: Definition, p: Process, disk: Record, now: Time)
    requires p.pc.Undo? && p.stage.Idle? && Placed(d, p, disk)
    ensures Placed(d, FromUndo(d, p, now), disk)
  {
    if p.pc.j == 0 {
      UndoEndKeeps(d, p, disk, now);
    } else {
      UndoPlace(d, p, disk);
      hide Placed, FromUndo;
      if p.exec.steps[p.pc.j - 1].status == StepSucceeded && d.steps[p.pc.j - 1].hasCompensate {
        UndoBeginKeeps(d, p, disk, now);
      } else {
        UndoRestKeeps(d, p, disk, now);
      }
    }
  }

  lemma UndoBeginKeeps(d: Definition, p: Process, disk: Record, now: Time)
    requires p.pc.Undo? && p.pc.j > 0 && p.stage.Idle? && Placed(d, p, disk)
    requires p.exec.steps[p.pc.j - 1].status == StepSucceeded && d.steps[p.pc.j - 1].hasCompensate
    ensures Placed(d, FromUndo(d, p, now), disk)
  {
    var j := p.pc.j - 1;
    var r := p.exec.(currentStep := p.exec.steps[j].name);
    var b := WithStep(r, j, MovedStep(r.steps[j], StepCompensating, now));
    StepEdgeOf(disk, p.exec, r, j, StepCompensating, now);
    StepEdgeOf(p.exec, p.exec, r, j, StepCompensating, now);
    BackwardStepShape(d, p.exec, b, j, StepCompensating, p.pc.failedAt);
    hide Sequential, ShapeFor, Same, OneEdge, SettledFrom, Cut, Fits;
  }

  lemma UndoRestKeeps(d: Definition, p: Process, disk: Record, now: Time)
    requires p.pc.Undo? && p.pc.j > 0 && p.stage.Idle? && Placed(d, p, disk)
    requires !(p.exec.steps[p.pc.j - 1].status == StepSucceeded && d.steps[p.pc.j - 1].hasCompensate)
    ensures Placed(d, FromUndo(d, p, now), disk)
  {
    var j := p.pc.j - 1;
    if p.exec.steps[j].status != StepCompensating || !d.steps[j].hasCompensate {
      UndoSkipKeeps(d, p.exec, j, p.pc.failedAt);
    }
    hide Sequential, SettledFrom, Cut, AnyCompensationFailed;
  }

  lemma UndoSkipKeeps(d: Definition, r: Record, j: nat, f: nat)
    requires Shape(d, r) && r.status == Compensating && Cut(r.steps, f) && j < f
    requires SettledFrom(d, r.steps, j + 1, f)
    requires (r.steps[j].status != StepSucceeded && r.steps[j].status != StepCompensating) || !d.steps[j].hasCompensate
    ensures SettledFrom(d, r.steps, j, f)
  {
    assert Settled(d, r.steps, j);
  }

  lemma UndoEndKeeps(d: Definition, p: Process, disk: Record, now: Time)
    requires p.pc.Undo? && p.pc.j == 0 && p.stage.Idle? && Placed(d, p, disk)
    ensures Placed(d, FromUndo(d, p, now), disk)
  {
    var f := p.pc.failedAt;
    var r := p.exec.(currentStep := "");
    var below := r.steps[..f];
    assert forall m :: 0 <= m < f ==> below[m] == r.steps[m];
    assert AnyCompensationFailed(below) == AnyCompensationFailed(r.steps) by {
      if AnyCompensationFailed(r.steps) {
        var m :| 0 <= m < |r.steps| && r.steps[m].status == StepCompensationFailed;
        assert below[m].status == StepCompensationFailed;
      }
    }
    var to := if AnyCompensationFailed(below) then CompensationFailed else Compensated;
    ExecEdgeOf(disk, p.exec, r, to, now);
    assert forall i :: 0 <= i < |r.steps| && Passed(r.steps[i].status) ==> i < f && Settled(d, r.steps, i);
  }

  /** What a verdict makes of step `i`: nothing yet, a success with the answer's output, or a failure. */
  ghost predicate Judged(a: Record, b: Record, i: nat, answer: Answer) {
    && i < |a.steps| == |b.steps| && a.status == b.status && a.input == b.input
    && (forall m :: 0 <= m < |a.steps| && m != i ==> b.steps[m] == a.steps[m])
    && (|| b.steps[i] == a.steps[i]
        || b.steps[i].status == StepFailed
        || (b.steps[i].status == StepSucceeded && answer.err.None? && b.steps[i].output == answer.out
            && b.steps[i].attempts == a.steps[i].attempts))
  }

  lemma JudgingEffect(d: Definition, p: Process, now: Time)
    requires p.pc.Judging? && p.stage.Idle? && p.pc.i < |p.exec.steps| && p.pc.i < |d.steps|
    ensures var q := FromJudging(d, p, now);
            && Judged(p.exec, q.exec, p.pc.i, p.pc.answer) && q.ctx == p.ctx && !HasStopped(q)
            && (q.pc.Try? || q.pc.Loop? || q.pc.Abort? || q.pc.Panicked?)
            && (q.pc.Abort? ==> q.pc.i == p.pc.i && q.exec.steps[p.pc.i].status == StepFailed)
            && (q.pc.Loop? ==> q.pc.i == p.pc.i + 1 && q.exec.steps[p.pc.i].status == StepSucceeded)
            && (q.pc.Try? ==> q.exec.steps == p.exec.steps)
            && (p.exec.steps[p.pc.i].status == StepRunning ==> !q.pc.Panicked?)
            && (p.ctx.None? && q.exec.steps[p.pc.i].status == StepFailed && p.exec.steps[p.pc.i].status == StepRunning
                ==> p.pc.answer.err.Some?)
  {
    hide IsNonRetryable, MaxAttempts;
  }

  lemma JudgingPlace(d: Definition, p: Process, disk: Record)
    requires Placed(d, p, disk) && p.pc.Judging?
    ensures p.pc.i < |p.exec.steps| == |d.steps| && Forward(p.exec, p.pc.i) && p.pc.data == DataInto(p.exec, p.pc.i)
    ensures p.exec.steps[p.pc.i].status == StepRunning
  {
  }

  lemma UndoPlace(d: Definition, p: Process, disk: Record)
    requires Placed(d, p, disk) && (p.pc.Undo? || p.pc.Undone?)
    ensures |p.exec.steps| == |d.steps| && p.exec.status == Compensating
    ensures p.pc.Undo? ==> p.pc.j <= |p.exec.steps| && p.pc.failedAt <= |p.exec.steps|
    ensures p.pc.Undone? ==> p.pc.j < |p.exec.steps| && p.exec.steps[p.pc.j].status == StepCompensating
  {
  }

  /** `b` is `a` with the undoing of step `j` ended this way. */
  ghost predicate EndsUndo(a: Record, b: Record, j: nat, outcome: Option<Error>) {
    && j < |a.steps| == |b.steps| && a.status == b.status && a.input == b.input
    && b.steps[j].status == (if outcome.Some? then StepCompensationFailed else StepCompensated)
    && (outcome.Some? ==> b.steps[j].error == outcome)
    && b.steps[j].output == a.steps[j].output && b.steps[j].attempts == a.steps[j].attempts
    && forall m :: 0 <= m < |a.steps| && m != j ==> b.steps[m] == a.steps[m]
  }

  lemma UndoneEffect(p: Process, now: Time)
    requires p.pc.Undone? && p.pc.j < |p.exec.steps| && p.exec.steps[p.pc.j].status == StepCompensating
    ensures var q := FromUndone(p, now);
            && q.ctx == p.ctx && q.pc.Undo? && EndsUndo(p.exec, q.exec, p.pc.j, p.pc.outcome)
  {
  }

  /** `b` is `a` with the undoing of step `j` begun. */
  ghost predicate BeginsUndo(a: Record, b: Record, j: nat) {
    && j < |a.steps| == |b.steps| && a.status == b.status
    && a.steps[j].status == StepSucceeded && b.steps[j].status == StepCompensating
    && b.steps[j].output == a.steps[j].output && b.steps[j].attempts == a.steps[j].attempts
    && forall m :: 0 <= m < |a.steps| && m != j ==> b.steps[m] == a.steps[m]
  }

  /** What one turn of the undo loop can do: at most begin to undo the step below. */
  lemma UndoEffect(d: Definition, p: Process, now: Time)
    requires p.pc.Undo? && p.stage.Idle? && p.pc.j <= |p.exec.steps| == |d.steps| && p.pc.failedAt <= |p.exec.steps|
    ensures var q := FromUndo(d, p, now);
            && q.ctx == p.ctx && q.exec.input == p.exec.input && !HasStopped(q)
            && (q.pc.Undo? || q.pc.Invoke? || q.pc.Done? || q.pc.Panicked?)
            && (q.exec.steps == p.exec.steps || (p.pc.j > 0 && BeginsUndo(p.exec, q.exec, p.pc.j - 1)))
  {
    hide AnyCompensationFailed;
  }

  lemma FromUndoneKeeps(d: Definition, p: Process, disk: Record, now: Time)
    requires p.pc.Undone? && p.stage.Idle? && Placed(d, p, disk)
    ensures Placed(d, FromUndone(p, now), disk)
  {
    var j := p.pc.j;
    var to := if p.pc.outcome.Some? then StepCompensationFailed else StepCompensated;
    var r := if p.pc.outcome.Some?
             then WithStep(p.exec, j, p.exec.steps[j].(error := p.pc.outcome)) else p.exec;
    var b := WithStep(r, j, MovedStep(r.steps[j], to, now));
    StepEdgeOf(disk, p.exec, r, j, to, now);
    StepEdgeOf(p.exec, p.exec, r, j, to, now);
    BackwardStepShape(d, p.exec, b, j, to, p.pc.failedAt);
    assert Settled(d, b.steps, j);
  }

  // ---------- every step of the system keeps it ----------

  lemma PlacedIsInRange(d: Definition, p: Process, disk: Record)
    requires Placed(d, p, disk)
    ensures InRange(d, p)
  {
  }

  lemma WorkKeepsShape(d: Definition, s: System, now: Time, s': System)
    requires ShapeInvariant(d, s) && Next(d, s, Work(now)) == Some(s')
    ensures ShapeInvariant(d, s')
  {
    PlacedIsInRange(d, s.process.value, s.disk);
    hide Placed, InRange, FromEntry, FromScan, FromLoop, FromTry, FromJudging, FromAbort, FromUndo, FromUndone;
    var p := s.process.value;
    match p.pc
    case Entry => FromEntryKeeps(d, p, s.disk, now);
    case Scan => FromScanKeeps(d, p, s.disk);
    case Loop(_, _) => FromLoopKeeps(d, p, s.disk, now);
    case Try(_, _, _) => FromTryKeeps(d, p, s.disk, now);
    case Judging(_, _, _, _) => FromJudgingKeeps(d, p, s.disk, now);
    case Abort(_, _, _) => FromAbortKeeps(d, p, s.disk, now);
    case Undo(_, _, _) => FromUndoKeeps(d, p, s.disk, now);
    case Undone(_, _, _, _) => FromUndoneKeeps(d, p, s.disk, now);
    case _ =>
  }

  lemma ActKeepsShape(d: Definition, s: System, answer: Answer, s': System)
    requires ShapeInvariant(d, s) && Next(d, s, Act(answer)) == Some(s')
    ensures ShapeInvariant(d, s')
  {
    var p, p' := s.process.value, s'.process.value;
    var i := p.pc.i;
    forall m | 0 <= m < |p'.exec.steps|
      ensures SameStep(p'.exec.steps[m], s.disk.steps[m])
    {
      assert SameStep(p.exec.steps[m], s.disk.steps[m]);
    }
    assert p'.exec.steps[i].status == p.exec.steps[i].status;
  }

  lemma SaveKeepsShape(d: Definition, s: System, s': System)
    requires ShapeInvariant(d, s) && Next(d, s, Save) == Some(s')
    ensures ShapeInvariant(d, s')
    ensures !HasStopped(s.process.value)
    ensures OneEdge(s.disk, s'.disk, s.process.value.stage.edge)
  {
    assert !HasStopped(s.process.value);
  }

  lemma NextKeepsShape(d: Definition, s: System, l: Label, s': System)
    requires ShapeInvariant(d, s) && Next(d, s, l) == Some(s')
    ensures ShapeInvariant(d, s')
  {
    match l
    case Work(now) => WorkKeepsShape(d, s, now, s');
    case Act(answer) => ActKeepsShape(d, s, answer, s');
    case Save => SaveKeepsShape(d, s, s');
    case _ =>
  }

  lemma CreatedHasShape(d: Definition, id: string, input: Any, now: Time)
    ensures ShapeInvariant(d, Created(d, id, input, now))
  {
  }

  lemma {:induction false} ReplayKeepsShape(d: Definition, s0: System, labels: seq<Label>, s: System)
    requires ShapeInvariant(d, s0) && Replay(d, s0, labels) == Some(s)
    ensures ShapeInvariant(d, s)
  {
    if |labels| > 0 {
      var before := Replay(d, s0, labels[..|labels| - 1]).value;
      ReplayKeepsShape(d, s0, labels[..|labels| - 1], before);
      NextKeepsShape(d, before, labels[|labels| - 1], s);
    }
  }

  /** Every record that is ever on disk has the shape, and no process ever panics. */
  lemma LivesHaveShape(d: Definition, id: string, input: Any, now: Time, labels: seq<Label>, s: System)
    requires Lives(d, id, input, now, labels, s)
    ensures ShapeInvariant(d, s)
    ensures Shape(d, s.disk)
    ensures s.process.Some? ==> !s.process.value.pc.Panicked?
  {
    CreatedHasShape(d, id, input, now);
    ReplayKeepsShape(d, Created(d, id, input, now), labels, s);
  }
}
