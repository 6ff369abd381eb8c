/** Saga definitions and execution records as plain values. */
module Records {
  import opened Values
  import opened States
  import opened Retry

  /** One step of a definition: its Action is the environment's, its Compensate may be absent. */
  datatype StepDefinition = StepDefinition(
    name: string,
    hasCompensate: bool,
    retryPolicy: Option<Policy>,
    timeout: int)

  datatype Definition = Definition(
    name: string,
    steps: seq<StepDefinition>,
    retryPolicy: Policy,
    timeout: int,
    lockTTL: int)

  /** The step's own policy if it has one, otherwise the saga's. */
  function RetryPolicyFor(d: Definition, step: StepDefinition): Policy {
    if step.retryPolicy.Some? then step.retryPolicy.value else d.retryPolicy
  }

  /** How often an Action may be called in one retry loop: at least once, whatever the policy says. */
  function Tries(d: Definition, step: StepDefinition): nat {
    var m := MaxAttempts(RetryPolicyFor(d, step));
    if m < 1 then 1 else m
  }

  /** After this failure another attempt follows, unless the context ends. */
  predicate MayRetry(d: Definition, i: nat, attempt: nat, err: Error)
    requires i < |d.steps|
  {
    !IsNonRetryable(err) && attempt < MaxAttempts(RetryPolicyFor(d, d.steps[i]))
  }

  datatype Step = Step(
    name: string,
    status: StepStatus,
    attempts: nat,
    output: Any,
    error: Option<Error>,
    startedAt: Option<Time>,
    completedAt: Option<Time>,
    compensationStartedAt: Option<Time>,
    compensatedAt: Option<Time>)

  datatype Record = Record(
    id: string,
    sagaName: string,
    status: Status,
    input: Any,
    output: Any,
    steps: seq<Step>,
    currentStep: string,
    error: Option<Error>,
    createdAt: Time,
    updatedAt: Time,
    startedAt: Option<Time>,
    completedAt: Option<Time>)

  function FreshStep(name: string): Step {
    Step(name, StepPending, 0, Nil, None, None, None, None, None)
  }

  function FreshRecord(d: Definition, id: string, input: Any, now: Time): Record {
    Record(id, d.name, Pending, input, Nil,
           seq(|d.steps|, i requires 0 <= i < |d.steps| => FreshStep(d.steps[i].name)),
           "", None, now, now, None, None)
  }

  /** A status change and the timestamp that goes with it. */
  function Moved(r: Record, to: Status, now: Time): Record {
    r.(status := to,
       updatedAt := now,
       startedAt := if to == Running then Some(now) else r.startedAt,
       completedAt := if to.IsTerminal() then Some(now) else r.completedAt)
  }

  function MovedStep(s: Step, to: StepStatus, now: Time): Step {
    match to
    case StepPending => s.(status := to)
    case StepRunning => s.(status := to, startedAt := Some(now))
    case StepSucceeded => s.(status := to, completedAt := Some(now))
    case StepFailed => s.(status := to, completedAt := Some(now))
    case StepCompensating => s.(status := to, compensationStartedAt := Some(now))
    case StepCompensated => s.(status := to, compensatedAt := Some(now))
    case StepCompensationFailed => s.(status := to, compensatedAt := Some(now))
  }

  function WithStep(r: Record, i: nat, s: Step): Record
    requires i < |r.steps|
  {
    r.(steps := r.steps[i := s])
  }

  /** The action of such a step ran to success at some point, whatever came after. */
  predicate Passed(s: StepStatus) {
    s.StepSucceeded? || s.StepCompensating? || s.StepCompensated? || s.StepCompensationFailed?
  }

  /** The retry loop of such a step is over. */
  predicate Ended(s: StepStatus) {
    !s.StepPending? && !s.StepRunning?
  }

  /** Its compensation was at least begun. */
  predicate UndoBegun(s: StepStatus) {
    s.StepCompensating? || s.StepCompensated? || s.StepCompensationFailed?
  }

  predicate AnySucceeded(steps: seq<Step>) {
    exists i :: 0 <= i < |steps| && steps[i].status == StepSucceeded
  }

  predicate AnyCompensationFailed(steps: seq<Step>) {
    exists i :: 0 <= i < |steps| && steps[i].status == StepCompensationFailed
  }

  predicate InFlight(s: StepStatus) {
    s.StepRunning? || s.StepCompensating?
  }

  /** A step or compensation whose effect is unknown if the process is gone. */
  predicate HasInFlightStep(r: Record) {
    exists i :: 0 <= i < |r.steps| && InFlight(r.steps[i].status)
  }

  /** The first step recorded as failed. */
  function FirstFailed(steps: seq<Step>, from: nat := 0): (r: Option<nat>)
    requires from <= |steps|
    ensures r.None? ==> forall i :: from <= i < |steps| ==> steps[i].status != StepFailed
    ensures r.Some? ==> from <= r.value < |steps| && steps[r.value].status == StepFailed
    ensures r.Some? ==> forall i :: from <= i < r.value ==> steps[i].status != StepFailed
    decreases |steps| - from
  {
    if from == |steps| then None
    else if steps[from].status == StepFailed then Some(from)
    else FirstFailed(steps, from + 1)
  }

  /** How many leading steps are recorded as succeeded. */
  function SucceededPrefix(steps: seq<Step>, from: nat := 0): (k: nat)
    requires from <= |steps|
    ensures from <= k <= |steps|
    ensures forall i :: from <= i < k ==> steps[i].status == StepSucceeded
    ensures k < |steps| ==> steps[k].status != StepSucceeded
    decreases |steps| - from
  {
    if from == |steps| || steps[from].status != StepSucceeded then from
    else SucceededPrefix(steps, from + 1)
  }

  /** One past the highest step that ever succeeded, as read off the statuses. */
  function Boundary(steps: seq<Step>): (k: nat)
    ensures k <= |steps|
    ensures k > 0 ==> Passed(steps[k - 1].status)
    ensures forall i :: k <= i < |steps| ==> !Passed(steps[i].status)
  {
    if |steps| == 0 then 0
    else if Passed(steps[|steps| - 1].status) then |steps|
    else Boundary(steps[..|steps| - 1])
  }

  /** The data step `i` starts from: the execution's input or the previous step's output. */
  function DataInto(r: Record, i: nat): Any
    requires i <= |r.steps|
  {
    if i == 0 then r.input else r.steps[i - 1].output
  }

  /** A step's distance from a fresh one, summed over all steps. */
  function StepDepth(steps: seq<Step>): nat {
    if |steps| == 0 then 0
    else StepDepth(steps[..|steps| - 1]) + StepRank(steps[|steps| - 1].status)
  }

  function Depth(r: Record): nat {
    Rank(r.status) + StepDepth(r.steps)
  }

  lemma {:induction false} StepDepthUpdate(steps: seq<Step>, i: nat, s: Step)
    requires i < |steps|
    ensures StepDepth(steps[i := s]) == StepDepth(steps) - StepRank(steps[i].status) + StepRank(s.status)
  {
    var last := |steps| - 1;
    if i == last {
      assert steps[i := s][..last] == steps[..last];
    } else {
      assert steps[i := s][..last] == steps[..last][i := s];
      StepDepthUpdate(steps[..last], i, s);
    }
  }
}
