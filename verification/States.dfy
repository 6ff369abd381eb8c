/** The two status alphabets and the transition tables between them. */
module States {

  datatype Status =
    | Pending
    | Running
    | Completed
    | Compensating
    | Compensated
    | Failed
    | CompensationFailed
  {
    predicate IsTerminal() {
      Completed? || Compensated? || Failed? || CompensationFailed?
    }
  }

  datatype StepStatus =
    | StepPending
    | StepRunning
    | StepSucceeded
    | StepFailed
    | StepCompensating
    | StepCompensated
    | StepCompensationFailed

  /** The transition tables. */
  function StatusTransitions(from: Status): seq<Status> {
    match from
    case Pending => [Running]
    case Running => [Completed, Compensating, Failed]
    case Compensating => [Compensated, CompensationFailed]
    case _ => []
  }

  function StepStatusTransitions(from: StepStatus): seq<StepStatus> {
    match from
    case StepPending => [StepRunning]
    case StepRunning => [StepSucceeded, StepFailed]
    case StepSucceeded => [StepCompensating]
    case StepCompensating => [StepCompensated, StepCompensationFailed]
    case _ => []
  }

  /** The lookups in the tables, case by case; the methods below search the tables. */
  predicate CanTransitionStatus(from: Status, to: Status) {
    || (from.Pending? && to.Running?)
    || (from.Running? && (to.Completed? || to.Compensating? || to.Failed?))
    || (from.Compensating? && (to.Compensated? || to.CompensationFailed?))
  }

  predicate CanTransitionStepStatus(from: StepStatus, to: StepStatus) {
    || (from.StepPending? && to.StepRunning?)
    || (from.StepRunning? && (to.StepSucceeded? || to.StepFailed?))
    || (from.StepSucceeded? && to.StepCompensating?)
    || (from.StepCompensating? && (to.StepCompensated? || to.StepCompensationFailed?))
  }

  method LookUpStatus(from: Status, to: Status) returns (ok: bool)
    ensures ok == CanTransitionStatus(from, to)
  {
    var allowed := StatusTransitions(from);
    for i := 0 to |allowed|
      invariant to !in allowed[..i]
    {
      if allowed[i] == to {
        return true;
      }
    }
    assert allowed[..|allowed|] == allowed;
    return false;
  }

  method LookUpStepStatus(from: StepStatus, to: StepStatus) returns (ok: bool)
    ensures ok == CanTransitionStepStatus(from, to)
  {
    var allowed := StepStatusTransitions(from);
    for i := 0 to |allowed|
      invariant to !in allowed[..i]
    {
      if allowed[i] == to {
        return true;
      }
    }
    assert allowed[..|allowed|] == allowed;
    return false;
  }

  /** Both tables are trees; these are the distances from the root. */
  function Rank(s: Status): nat {
    match s
    case Pending => 0
    case Running => 1
    case Completed => 2
    case Compensating => 2
    case Failed => 2
    case Compensated => 3
    case CompensationFailed => 3
  }

  function StepRank(s: StepStatus): nat {
    match s
    case StepPending => 0
    case StepRunning => 1
    case StepSucceeded => 2
    case StepFailed => 2
    case StepCompensating => 3
    case StepCompensated => 4
    case StepCompensationFailed => 4
  }

  /** A change leads one further from the root, and whatever is not terminal can go to all that is one further. */
  lemma TablesAreTrees()
    ensures forall a: Status, b: Status :: CanTransitionStatus(a, b) <==> !a.IsTerminal() && Rank(b) == Rank(a) + 1
    ensures forall a: Status :: a.IsTerminal() <==> StatusTransitions(a) == []
    ensures forall a: StepStatus, b: StepStatus ::
              CanTransitionStepStatus(a, b) <==> !a.StepFailed? && StepRank(b) == StepRank(a) + 1
  {
  }

  /** `to` is entered on the way from the root to `at`. */
  predicate OnPath(to: Status, at: Status) {
    || (to == at && !to.Pending?)
    || (to.Running? && !at.Pending?)
    || (to.Compensating? && (at.Compensated? || at.CompensationFailed?))
  }

  predicate StepOnPath(to: StepStatus, at: StepStatus) {
    || (to == at && !to.StepPending?)
    || (to.StepRunning? && !at.StepPending?)
    || (to.StepSucceeded? && (at.StepCompensating? || at.StepCompensated? || at.StepCompensationFailed?))
    || (to.StepCompensating? && (at.StepCompensated? || at.StepCompensationFailed?))
  }

  /** `b` is `a` or lies beyond it. */
  predicate Leads(a: Status, b: Status) {
    a.Pending? || a == b || OnPath(a, b)
  }

  predicate StepLeads(a: StepStatus, b: StepStatus) {
    a.StepPending? || a == b || StepOnPath(a, b)
  }
}
