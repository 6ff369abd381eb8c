/** The live execution record that the engine mutates. */
module Executions {
  import opened Values
  import opened States
  import opened Records

  class Execution {
    const id: string
    const sagaName: string
    var status: Status
    const input: Any
    var output: Any
    const steps: array<Step>
    var currentStep: string
    var error: Option<Error>
    const createdAt: Time
    var updatedAt: Time
    var startedAt: Option<Time>
    var completedAt: Option<Time>

    /** A new execution of `d`, all of whose steps are pending. */
    constructor (d: Definition, id: string, input: Any, now: Time)
      ensures fresh(steps) && Snapshot() == FreshRecord(d, id, input, now)
      ensures this.id == id && sagaName == d.name && status == Pending && this.input == input && createdAt == now
      ensures steps.Length == |d.steps| && updatedAt == now && startedAt.None? && completedAt.None? && error.None?
      ensures forall i :: 0 <= i < |d.steps| ==>
                steps[i] == Step(d.steps[i].name, StepPending, 0, Nil, None, None, None, None, None)
    {
      this.id := id;
      this.sagaName := d.name;
      this.status := Pending;
      this.input := input;
      this.output := Nil;
      this.steps := new Step[|d.steps|](i requires 0 <= i < |d.steps| => FreshStep(d.steps[i].name));
      this.currentStep := "";
      this.error := None;
      this.createdAt := now;
      this.updatedAt := now;
      this.startedAt := None;
      this.completedAt := None;
    }

    constructor Copy(from: Execution, steps: array<Step>)
      ensures this.steps == steps && Snapshot() == from.Snapshot().(steps := steps[..])
    {
      this.id := from.id;
      this.sagaName := from.sagaName;
      this.status := from.status;
      this.input := from.input;
      this.output := from.output;
      this.steps := steps;
      this.currentStep := from.currentStep;
      this.error := from.error;
      this.createdAt := from.createdAt;
      this.updatedAt := from.updatedAt;
      this.startedAt := from.startedAt;
      this.completedAt := from.completedAt;
    }

    /** The record as a value. */
    function Snapshot(): (r: Record)
      reads this, steps
    {
      Record(id, sagaName, status, input, output, steps[..], currentStep, error,
             createdAt, updatedAt, startedAt, completedAt)
    }

    /** A copy that shares nothing mutable with the original. */
    method Clone() returns (cp: Execution)
      ensures fresh(cp) && fresh(cp.steps)
      ensures cp.Snapshot() == Snapshot()
    {
      var copied: array<Step> := new Step[steps.Length](_ => FreshStep(""));
      for i := 0 to steps.Length
        invariant copied[..i] == steps[..i]
      {
        copied[i] := steps[i];
      }
      assert copied[..] == steps[..];
      cp := new Execution.Copy(this, copied);
    }

    /** Changes the status and its timestamps together, or nothing if the tables forbid it. */
    method Transition(to: Status, now: Time) returns (ok: bool)
      modifies this
      ensures ok == CanTransitionStatus(old(status), to)
      ensures Snapshot() == if ok then Moved(old(Snapshot()), to, now) else old(Snapshot())
      ensures ok ==>
                && status == to && updatedAt == now
                && startedAt == (if to == Running then Some(now) else old(startedAt))
                && completedAt == (if to == Completed || to == Failed || to == Compensated || to == CompensationFailed
                                   then Some(now) else old(completedAt))
    {
      ok := LookUpStatus(status, to);
      if !ok {
        return;
      }
      status := to;
      updatedAt := now;
      if to == Running {
        startedAt := Some(now);
      }
      if to.IsTerminal() {
        completedAt := Some(now);
      }
    }

    /** The same for one step; each status but PENDING has its timestamp. */
    method TransitionStep(i: nat, to: StepStatus, now: Time) returns (ok: bool)
      requires i < steps.Length
      modifies steps
      ensures ok == CanTransitionStepStatus(old(steps[i].status), to)
      ensures Snapshot() == if ok then WithStep(old(Snapshot()), i, MovedStep(old(steps[i]), to, now))
                            else old(Snapshot())
      ensures ok ==>
                var s, was := steps[i], old(steps[i]);
                && s.status == to
                && s.startedAt == (if to == StepRunning then Some(now) else was.startedAt)
                && s.completedAt == (if to == StepSucceeded || to == StepFailed then Some(now) else was.completedAt)
                && s.compensationStartedAt == (if to == StepCompensating then Some(now) else was.compensationStartedAt)
                && s.compensatedAt == (if to == StepCompensated || to == StepCompensationFailed
                                       then Some(now) else was.compensatedAt)
    {
      ok := LookUpStepStatus(steps[i].status, to);
      if !ok {
        return;
      }
      steps[i] := steps[i].(status := to);
      match to {
        case StepRunning => steps[i] := steps[i].(startedAt := Some(now));
        case StepSucceeded => steps[i] := steps[i].(completedAt := Some(now));
        case StepFailed => steps[i] := steps[i].(completedAt := Some(now));
        case StepCompensating => steps[i] := steps[i].(compensationStartedAt := Some(now));
        case StepCompensated => steps[i] := steps[i].(compensatedAt := Some(now));
        case StepCompensationFailed => steps[i] := steps[i].(compensatedAt := Some(now));
        case StepPending =>
      }
    }
  }
}
