/**
 * The engine as a state machine over one execution: what a process holds in memory, what is
 * on disk, and what has happened so far. The process can disappear between any two steps and
 * a new one can pick the execution up from the record on disk.
 */
module Protocol {
  import opened Values
  import opened States
  import opened Retry
  import opened Records

  /** Why the context of a resume ended: the saga's own timeout, or something outside it. */
  datatype Cause = OwnTimeout | Outside(code: int)

  function CauseError(c: Cause): Error {
    match c
    case OwnTimeout => SagaTimeout
    case Outside(code) => Cancelled(code)
  }

  /** What one call of an Action came to, after the step timeout was taken into account. */
  datatype Answer = Answer(out: Any, err: Option<Error>)

  /** A status change of the execution or of one of its steps. */
  datatype Edge = ExecEdge(to: Status) | StepEdge(i: nat, step: StepStatus)

  /** How a resume ends: with the caller's result, or cut short by a failed save. */
  datatype Result = Returned(err: Option<Error>) | Stopped(fault: Error)

  /**
   * Where a resume is. An abort out of the forward loop clears the current step; one that
   * re-enters from a step already recorded as failed does not.
   */
  datatype Pc =
    | Entry
    | Scan
    | Loop(i: nat, data: Any)
    | Try(i: nat, data: Any, attempt: nat)
    | Calling(i: nat, data: Any, attempt: nat)
    | Judging(i: nat, data: Any, attempt: nat, answer: Answer)
    | Abort(i: nat, cause: Error, clears: bool)
    | Undo(j: nat, failedAt: nat, cause: Error)
    | Invoke(j: nat, failedAt: nat, cause: Error)
    | Undone(j: nat, failedAt: nat, cause: Error, outcome: Option<Error>)
    | Done(result: Result)
    | Panicked

  /** A status change made in memory is first saved, then published, before anything else happens. */
  datatype Stage = Idle | Saving(edge: Edge) | Publishing(edge: Edge)

  /** A process driving the execution: its position, its copy of the record, its context. */
  datatype Process = Process(pc: Pc, stage: Stage, exec: Record, ctx: Option<Cause>)

  /** What an observer of the execution's whole life can see. */
  datatype Effect =
    | Saved(edge: Edge)
    | Published(edge: Edge)
    | Acted(i: nat, attempt: nat, data: Any, answer: Answer)
    | Reverted(j: nat, data: Any, outcome: Option<Error>)
    | Aborted(at: nat)
    | Resumed

  datatype System = System(process: Option<Process>, disk: Record, history: seq<Effect>)

  /**
   * One step of the world. `Work` is the engine's own control flow, reading the clock when it
   * changes a status; `Crash` drops the process, wherever it is.
   */
  datatype Label =
    | Work(now: Time)
    | ContextEnds(cause: Cause)
    | Save
    | SaveFails(fault: Error)
    | Publish
    | Act(answer: Answer)
    | Compensate(outcome: Option<Error>)
    | Crash
    | Resume

  // ---------- the engine's control flow ----------

  function MoveExec(p: Process, r: Record, to: Status, now: Time, next: Pc): Process {
    if CanTransitionStatus(r.status, to)
    then p.(pc := next, stage := Saving(ExecEdge(to)), exec := Moved(r, to, now))
    else p.(pc := Panicked)
  }

  function MoveStep(p: Process, r: Record, i: nat, to: StepStatus, now: Time, next: Pc): Process
    requires i < |r.steps|
  {
    if CanTransitionStepStatus(r.steps[i].status, to)
    then p.(pc := next, stage := Saving(StepEdge(i, to)), exec := WithStep(r, i, MovedStep(r.steps[i], to, now)))
    else p.(pc := Panicked)
  }

  function FailStep(p: Process, i: nat, cause: Error, now: Time): Process
    requires i < |p.exec.steps|
  {
    var r := WithStep(p.exec, i, p.exec.steps[i].(error := Some(cause)));
    MoveStep(p, r, i, StepFailed, now, Abort(i, cause, true))
  }

  function FromEntry(p: Process, now: Time): Process {
    match p.exec.status
    case Compensating =>
      var failedAt := Boundary(p.exec.steps);
      p.(pc := Undo(failedAt, failedAt, Message(p.exec.error)))
    case Pending => MoveExec(p, p.exec, Running, now, Scan)
    case Running => p.(pc := Scan)
    case _ => p.(pc := Done(Returned(None)))
  }

  function FromScan(p: Process): Process {
    var failed := FirstFailed(p.exec.steps);
    if failed.Some? then
      var s := p.exec.steps[failed.value];
      p.(pc := Abort(failed.value, StepError(s.name, Message(s.error)), false))
    else
      var start := SucceededPrefix(p.exec.steps);
      p.(pc := Loop(start, DataInto(p.exec, start)))
  }

  function FromLoop(d: Definition, p: Process, now: Time): Process
    requires p.pc.Loop?
  {
    var i, data := p.pc.i, p.pc.data;
    if i >= |d.steps| then
      MoveExec(p, p.exec.(currentStep := "", output := data), Completed, now, Done(Returned(None)))
    else if p.ctx.Some? then
      p.(pc := Abort(i, CauseError(p.ctx.value), true))
    else if i >= |p.exec.steps| then
      p.(pc := Panicked)
    else
      var r := p.exec.(currentStep := d.steps[i].name);
      if r.steps[i].status == StepPending
      then MoveStep(p, r, i, StepRunning, now, Try(i, data, 1))
      else p.(pc := Try(i, data, 1), exec := r)
  }

  function FromTry(p: Process, now: Time): Process
    requires p.pc.Try? && p.pc.i < |p.exec.steps|
  {
    if p.ctx.Some? then FailStep(p, p.pc.i, CauseError(p.ctx.value), now)
    else p.(pc := Calling(p.pc.i, p.pc.data, p.pc.attempt))
  }

  function FromJudging(d: Definition, p: Process, now: Time): Process
    requires p.pc.Judging? && p.pc.i < |p.exec.steps| && p.pc.i < |d.steps|
  {
    var i, a := p.pc.i, p.pc.answer;
    if p.ctx == Some(OwnTimeout) then
      FailStep(p, i, SagaTimeout, now)
    else if a.err.None? then
      var r := WithStep(p.exec, i, p.exec.steps[i].(output := a.out));
      MoveStep(p, r, i, StepSucceeded, now, Loop(i + 1, a.out))
    else if p.ctx.Some? then
      FailStep(p, i, CauseError(p.ctx.value), now)
    else if IsNonRetryable(a.err.value) || p.pc.attempt >= MaxAttempts(RetryPolicyFor(d, d.steps[i])) then
      FailStep(p, i, StepError(d.steps[i].name, a.err.value), now)
    else
      p.(pc := Try(i, p.pc.data, p.pc.attempt + 1))
  }

  function FromAbort(p: Process, now: Time): Process
    requires p.pc.Abort? && p.pc.i <= |p.exec.steps|
  {
    var r := p.exec.(error := Some(p.pc.cause),
                     currentStep := if p.pc.clears then "" else p.exec.currentStep);
    if !AnySucceeded(r.steps[..p.pc.i])
    then MoveExec(p, r, Failed, now, Done(Returned(Some(p.pc.cause))))
    else MoveExec(p, r, Compensating, now, Undo(p.pc.i, p.pc.i, p.pc.cause))
  }

  function FromUndo(d: Definition, p: Process, now: Time): Process
    requires p.pc.Undo? && p.pc.j <= |p.exec.steps| == |d.steps| && p.pc.failedAt <= |p.exec.steps|
  {
    var failedAt, cause := p.pc.failedAt, p.pc.cause;
    if p.pc.j == 0 then
      var r := p.exec.(currentStep := "");
      if AnyCompensationFailed(r.steps[..failedAt])
      then MoveExec(p, r, CompensationFailed, now, Done(Returned(Some(CompensationFailure(cause)))))
      else MoveExec(p, r, Compensated, now, Done(Returned(Some(cause))))
    else
      var j := p.pc.j - 1;
      var s := p.exec.steps[j];
      if (s.status != StepSucceeded && s.status != StepCompensating) || !d.steps[j].hasCompensate then
        p.(pc := Undo(j, failedAt, cause))
      else
        var r := p.exec.(currentStep := s.name);
        if s.status == StepSucceeded
        then MoveStep(p, r, j, StepCompensating, now, Invoke(j, failedAt, cause))
        else p.(pc := Invoke(j, failedAt, cause), exec := r)
  }

  function FromUndone(p: Process, now: Time): Process
    requires p.pc.Undone? && p.pc.j < |p.exec.steps|
  {
    var j := p.pc.j;
    var next := Undo(j, p.pc.failedAt, p.pc.cause);
    if p.pc.outcome.Some? then
      var r := WithStep(p.exec, j, p.exec.steps[j].(error := p.pc.outcome));
      MoveStep(p, r, j, StepCompensationFailed, now, next)
    else
      MoveStep(p, p.exec, j, StepCompensated, now, next)
  }

  /** The index the pc works on exists in both the record and the definition. */
  predicate InRange(d: Definition, p: Process) {
    match p.pc
    case Try(i, _, _) => i < |p.exec.steps|
    case Calling(i, _, _) => i < |p.exec.steps|
    case Judging(i, _, _, _) => i < |p.exec.steps| && i < |d.steps|
    case Abort(i, _, _) => i <= |p.exec.steps|
    case Undo(j, failedAt, _) => j <= |p.exec.steps| == |d.steps| && failedAt <= |p.exec.steps|
    case Invoke(j, _, _) => j < |p.exec.steps|
    case Undone(j, _, _, _) => j < |p.exec.steps|
    case _ => true
  }

  /** One step of control flow; an index out of range panics like a refused transition does. */
  function Working(d: Definition, p: Process, now: Time): Option<Process> {
    if !InRange(d, p) then Some(p.(pc := Panicked))
    else
      match p.pc
      case Entry => Some(FromEntry(p, now))
      case Scan => Some(FromScan(p))
      case Loop(_, _) => Some(FromLoop(d, p, now))
      case Try(_, _, _) => Some(FromTry(p, now))
      case Judging(_, _, _, _) => Some(FromJudging(d, p, now))
      case Abort(_, _, _) => Some(FromAbort(p, now))
      case Undo(_, _, _) => Some(FromUndo(d, p, now))
      case Undone(_, _, _, _) => Some(FromUndone(p, now))
      case _ => None
  }

  // ---------- the system ----------

  /** Types of published events; the three unsuccessful ends share one. */
  datatype EventType =
    | SagaStarted
    | SagaCompleted
    | SagaFailed
    | StepStarted
    | StepCompleted
    | StepFailedEvent
    | CompensationStarted
    | CompensationCompleted
    | CompensationFailedEvent

  function SagaEventType(to: Status): Option<EventType> {
    match to
    case Running => Some(SagaStarted)
    case Completed => Some(SagaCompleted)
    case Failed => Some(SagaFailed)
    case Compensated => Some(SagaFailed)
    case CompensationFailed => Some(SagaFailed)
    case _ => None
  }

  function StepEventType(to: StepStatus): Option<EventType> {
    match to
    case StepRunning => Some(StepStarted)
    case StepSucceeded => Some(StepCompleted)
    case StepFailed => Some(StepFailedEvent)
    case StepCompensating => Some(CompensationStarted)
    case StepCompensated => Some(CompensationCompleted)
    case StepCompensationFailed => Some(CompensationFailedEvent)
    case StepPending => None
  }

  /** An event's subject: a step, or the saga when there is none. */
  datatype Event = Event(step: Option<nat>, kind: EventType)

  function EventOf(e: Edge): Option<Event> {
    match e
    case ExecEdge(to) =>
      var k := SagaEventType(to);
      if k.Some? then Some(Event(None, k.value)) else None
    case StepEdge(i, to) =>
      var k := StepEventType(to);
      if k.Some? then Some(Event(Some(i), k.value)) else None
  }

  /** The system after one label, or None if the label cannot happen there. */
  function Next(d: Definition, s: System, l: Label): Option<System> {
    match l
    case Crash =>
      if s.process.Some? then Some(s.(process := None)) else None
    case Resume =>
      if s.process.None?
      then Some(s.(process := Some(Process(Entry, Idle, s.disk, None)), history := s.history + [Resumed]))
      else None
    case _ =>
      if s.process.None? then None else Engine(d, s, s.process.value, l)
  }

  function Engine(d: Definition, s: System, p: Process, l: Label): Option<System> {
    match l
    case Work(now) =>
      if !p.stage.Idle? then None
      else
        var p' := Working(d, p, now);
        if p'.None? then None
        else if p.pc.Abort? then Some(s.(process := p', history := s.history + [Aborted(p.pc.i)]))
        else Some(s.(process := p'))
    case ContextEnds(cause) =>
      if p.ctx.None? && (cause.OwnTimeout? ==> d.timeout > 0)
      then Some(s.(process := Some(p.(ctx := Some(cause)))))
      else None
    case Save =>
      if p.stage.Saving?
      then Some(System(Some(p.(stage := Publishing(p.stage.edge))), p.exec, s.history + [Saved(p.stage.edge)]))
      else None
    case SaveFails(fault) =>
      if p.stage.Saving?
      then Some(s.(process := Some(p.(pc := Done(Stopped(fault)), stage := Idle))))
      else None
    case Publish =>
      if p.stage.Publishing? then
        var told := if EventOf(p.stage.edge).Some? then [Published(p.stage.edge)] else [];
        Some(s.(process := Some(p.(stage := Idle)), history := s.history + told))
      else None
    case Act(answer) =>
      if p.stage.Idle? && p.pc.Calling? && p.pc.i < |p.exec.steps| then
        var i := p.pc.i;
        var called := p.exec.steps[i].(attempts := p.exec.steps[i].attempts + 1);
        Some(s.(process := Some(p.(pc := Judging(i, p.pc.data, p.pc.attempt, answer),
                                   exec := WithStep(p.exec, i, called))),
                history := s.history + [Acted(i, p.pc.attempt, p.pc.data, answer)]))
      else None
    case Compensate(outcome) =>
      if p.stage.Idle? && p.pc.Invoke? && p.pc.j < |p.exec.steps| then
        var j := p.pc.j;
        Some(s.(process := Some(p.(pc := Undone(j, p.pc.failedAt, p.pc.cause, outcome))),
                history := s.history + [Reverted(j, p.exec.steps[j].output, outcome)]))
      else None
    case _ => None
  }

  /** The system after a whole sequence of labels. */
  function Replay(d: Definition, s: System, labels: seq<Label>): Option<System> {
    if |labels| == 0 then Some(s)
    else
      var before := Replay(d, s, labels[..|labels| - 1]);
      if before.None? then None else Next(d, before.value, labels[|labels| - 1])
  }

  /** A new execution just after its first save, about to be resumed by the process that made it. */
  function Created(d: Definition, id: string, input: Any, now: Time): System {
    var r := FreshRecord(d, id, input, now);
    System(Some(Process(Entry, Idle, r, None)), r, [])
  }

  /** `s` is where a life of an execution can be: any runs, crashes, failed saves and resumptions. */
  ghost predicate Lives(d: Definition, id: string, input: Any, now: Time, labels: seq<Label>, s: System) {
    Replay(d, Created(d, id, input, now), labels) == Some(s)
  }

  lemma {:induction false} ReplayConcat(d: Definition, s: System, xs: seq<Label>, ys: seq<Label>)
    ensures Replay(d, s, xs + ys) ==
            var mid := Replay(d, s, xs);
            if mid.None? then None else Replay(d, mid.value, ys)
  {
    if |ys| == 0 {
      assert xs + ys == xs;
    } else {
      var front := ys[..|ys| - 1];
      assert (xs + ys)[..|xs + ys| - 1] == xs + front;
      ReplayConcat(d, s, xs, front);
    }
  }
}
