/** Loops over the steps of a live execution that work out where it was. */
module Scans {
  import opened Values
  import opened States
  import opened Records

  method FindFailed(steps: array<Step>) returns (r: Option<nat>)
    ensures r == FirstFailed(steps[..])
  {
    for i := 0 to steps.Length
      invariant forall m :: 0 <= m < i ==> steps[m].status != StepFailed
    {
      if steps[i].status == StepFailed {
        return Some(i);
      }
    }
    return None;
  }

  /** Where to start, and with what: after the leading succeeded steps, from the last one's output. */
  method SkipSucceeded(steps: array<Step>, input: Any) returns (startAt: nat, data: Any)
    ensures startAt == SucceededPrefix(steps[..])
    ensures data == if startAt == 0 then input else steps[startAt - 1].output
  {
    data, startAt := input, 0;
    for i := 0 to steps.Length
      invariant startAt == i
      invariant forall m :: 0 <= m < i ==> steps[m].status == StepSucceeded
      invariant data == if startAt == 0 then input else steps[startAt - 1].output
    {
      if steps[i].status != StepSucceeded {
        break;
      }
      startAt, data := i + 1, steps[i].output;
    }
  }

  /** One past the highest step that succeeded or was being compensated. */
  method ReconstructBoundary(steps: array<Step>) returns (failedAt: nat)
    ensures failedAt == Boundary(steps[..])
  {
    failedAt := 0;
    for i := 0 to steps.Length
      invariant failedAt <= i
      invariant failedAt > 0 ==> Passed(steps[failedAt - 1].status)
      invariant forall m :: failedAt <= m < i ==> !Passed(steps[m].status)
    {
      match steps[i].status {
        case StepSucceeded => failedAt := i + 1;
        case StepCompensating => failedAt := i + 1;
        case StepCompensated => failedAt := i + 1;
        case StepCompensationFailed => failedAt := i + 1;
        case StepPending =>
        case StepRunning =>
        case StepFailed =>
      }
    }
  }

  method HasSucceeded(steps: array<Step>, before: nat) returns (found: bool)
    requires before <= steps.Length
    ensures found == AnySucceeded(steps[..before])
  {
    for i := 0 to before
      invariant forall m :: 0 <= m < i ==> steps[m].status != StepSucceeded
    {
      if steps[i].status == StepSucceeded {
        assert steps[..before][i].status == StepSucceeded;
        return true;
      }
    }
    return false;
  }

  method AllCompensated(steps: array<Step>, before: nat) returns (ok: bool)
    requires before <= steps.Length
    ensures ok == !AnyCompensationFailed(steps[..before])
  {
    ok := true;
    for i := 0 to before
      invariant ok && forall m :: 0 <= m < i ==> steps[m].status != StepCompensationFailed
    {
      if steps[i].status == StepCompensationFailed {
        assert steps[..before][i].status == StepCompensationFailed;
        ok := false;
        break;
      }
    }
  }

  method FindInFlight(steps: array<Step>) returns (found: bool)
    ensures found <==> exists i :: 0 <= i < steps.Length
                                   && (steps[i].status == StepRunning || steps[i].status == StepCompensating)
  {
    for i := 0 to steps.Length
      invariant forall m :: 0 <= m < i ==> steps[m].status != StepRunning && steps[m].status != StepCompensating
    {
      if steps[i].status == StepRunning || steps[i].status == StepCompensating {
        return true;
      }
    }
    return false;
  }
}
