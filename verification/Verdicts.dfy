/** What one uninterrupted process returns, and how its run continues the life before it. */
module Verdicts {
  import opened Values
  import opened States
  import opened Records
  import opened Protocol
  import opened RecordShape
  import opened Progress
  import opened Observations

  /** A single process did all of this. */
  predicate Uninterrupted(labels: seq<Label>) {
    forall l :: l in labels ==> !l.Crash? && !l.Resume?
  }

  lemma UninterruptedSnoc(labels: seq<Label>, l: Label)
    ensures Uninterrupted(labels + [l]) <==> Uninterrupted(labels) && !l.Crash? && !l.Resume?
  {
    assert forall x :: x in labels + [l] <==> x in labels || x == l;
  }

  /** A process that has just read `r`, after `past`. */
  function Reading(r: Record, past: seq<Effect>): System {
    System(Some(Process(Entry, Idle, r, None)), r, past)
  }

  lemma ReadingHasShape(d: Definition, r: Record, past: seq<Effect>)
    requires Shape(d, r)
    ensures ShapeInvariant(d, Reading(r, past))
  {
  }

  /** Why a run can fail: the context ended, or a step did, in this process or an earlier one. */
  predicate Original(e: Error) {
    e.SagaTimeout? || e.Cancelled? || e.StepError? || e.Message?
  }

  /** Errors of the store or its lease, which cut a resume short. */
  predicate Disturbed(e: Error) {
    e.Locked? || e.LockFault? || e.StoreFault?
  }

  /** The result a caller gets tells the status the execution ended with. */
  predicate Tells(status: Status, err: Option<Error>) {
    match status
    case Completed => err.None?
    case Failed => err.Some? && Original(err.value)
    case Compensated => err.Some? && Original(err.value)
    case CompensationFailed => err.Some? && err.value.CompensationFailure? && Original(err.value.inner)
    case _ => false
  }

  /**
   * What the caller of a run that found the record `was` and left `r` gets: nothing if there was nothing
   * to do or all went well, and else the error that `r` stores, marked if a compensation failed. A
   * rollback taken over knows the stored error's text only, and leaves it as it is.
   */
  predicate Reported(was: Record, r: Record, err: Option<Error>) {
    if was.status.IsTerminal() then err.None? && r == was
    else if r.status == Completed then err.None?
    else
      && (if was.status == Compensating then r.error == was.error else r.error.Some?)
      && var original := if was.status == Compensating then Message(was.error) else r.error.value;
         err == Some(if r.status == CompensationFailed then CompensationFailure(original) else original)
  }

  ghost predicate OnCourse(p: Process) {
    match p.pc
    case Entry => !p.exec.status.IsTerminal()
    case Abort(_, cause, _) => Original(cause)
    case Undo(_, _, cause) => Original(cause)
    case Invoke(_, _, cause) => Original(cause)
    case Undone(_, _, cause, _) => Original(cause)
    case Done(Returned(err)) => Tells(p.exec.status, err)
    case _ => true
  }

  lemma WorkingKeepsCourse(d: Definition, p: Process, now: Time)
    requires OnCourse(p) && Working(d, p, now).Some?
    ensures OnCourse(Working(d, p, now).value)
  {
  }

  lemma NextKeepsCourse(d: Definition, s: System, l: Label, s': System)
    requires Next(d, s, l) == Some(s') && !l.Resume? && (s.process.Some? ==> OnCourse(s.process.value))
    ensures s'.process.Some? ==> OnCourse(s'.process.value)
  {
    if l.Work? {
      WorkingKeepsCourse(d, s.process.value, l.now);
    }
    hide Working;
  }

  lemma {:induction false} ReplayKeepsCourse(d: Definition, s0: System, labels: seq<Label>, s: System)
    requires Replay(d, s0, labels) == Some(s) && Uninterrupted(labels)
    requires s0.process.Some? ==> OnCourse(s0.process.value)
    ensures s.process.Some? ==> OnCourse(s.process.value)
  {
    if |labels| > 0 {
      var front := labels[..|labels| - 1];
      ReplayKeepsCourse(d, s0, front, Replay(d, s0, front).value);
      NextKeepsCourse(d, Replay(d, s0, front).value, labels[|labels| - 1], s);
    }
  }

  /**
   * A resume of a record that was not terminal returns no error exactly if the execution
   * completed, a compensation failure exactly if one is recorded, and otherwise the original error.
   */
  lemma ResultTellsStatus(
      d: Definition, r: Record, past: seq<Effect>, labels: seq<Label>, s: System, err: Option<Error>)
    requires !r.status.IsTerminal() && Uninterrupted(labels) && Replay(d, Reading(r, past), labels) == Some(s)
    requires s.process.Some? && s.process.value.pc == Done(Returned(err))
    ensures var status := s.process.value.exec.status;
            && Tells(status, err)
            && (status == Completed <==> err.None?)
            && (status == CompensationFailed <==> err.Some? && err.value.CompensationFailure?)
  {
    ReplayKeepsCourse(d, Reading(r, past), labels, s);
  }

  lemma {:induction false} UninterruptedHistory(d: Definition, s0: System, labels: seq<Label>, s: System)
    requires Replay(d, s0, labels) == Some(s) && Uninterrupted(labels) && Resumed !in s0.history
    ensures Resumed !in s.history
  {
    if |labels| > 0 {
      var front := labels[..|labels| - 1];
      UninterruptedHistory(d, s0, front, Replay(d, s0, front).value);
      NextTells(d, Replay(d, s0, front).value, labels[|labels| - 1], s);
    }
  }

  /** The process carries on only such errors as a run can fail with. */
  ghost predicate Untroubled(p: Process) {
    match p.pc
    case Abort(_, cause, _) => Original(cause)
    case Undo(_, _, cause) => Original(cause)
    case Invoke(_, _, cause) => Original(cause)
    case Undone(_, _, cause, _) => Original(cause)
    case Done(Returned(err)) => err.Some? ==> !Disturbed(err.value)
    case _ => true
  }

  lemma NextStaysUntroubled(d: Definition, s: System, l: Label, s': System)
    requires Next(d, s, l) == Some(s') && !l.Resume? && (s.process.Some? ==> Untroubled(s.process.value))
    ensures s'.process.Some? ==> Untroubled(s'.process.value)
  {
  }

  /** A resume that was not cut short by a failed save does not return an error of the store or its lease. */
  lemma {:induction false} ReturnsUndisturbed(d: Definition, r: Record, past: seq<Effect>, labels: seq<Label>, s: System)
    requires Replay(d, Reading(r, past), labels) == Some(s) && Uninterrupted(labels)
    ensures s.process.Some? ==> Untroubled(s.process.value)
  {
    if |labels| > 0 {
      var front, l := labels[..|labels| - 1], labels[|labels| - 1];
      ReturnsUndisturbed(d, r, past, front, Replay(d, Reading(r, past), front).value);
      NextStaysUntroubled(d, Replay(d, Reading(r, past), front).value, l, s);
    }
  }

  /** The labels by which whoever drove the execution is gone and a new process reads the record. */
  function Handover(s: System): seq<Label> {
    if s.process.Some? then [Crash, Resume] else [Resume]
  }

  /** A process that reads the record a life left behind carries that life on. */
  lemma RunContinuesLife(
      d: Definition, id: string, input: Any, now: Time, before: seq<Label>, s: System, labels: seq<Label>, end: System)
    requires Lives(d, id, input, now, before, s)
    requires Replay(d, Reading(s.disk, s.history + [Resumed]), labels) == Some(end)
    ensures Lives(d, id, input, now, before + Handover(s) + labels, end)
  {
    var s0 := Created(d, id, input, now);
    ReplayConcat(d, s0, before, Handover(s));
    ReplayConcat(d, s0, before + Handover(s), labels);
    if s.process.Some? {
      var gone := s.(process := None);
      assert Next(d, s, Crash) == Some(gone);
      assert [Crash, Resume][..1] == [Crash] && [Crash][..0] == [];
      assert Replay(d, s, [Crash]) == Some(gone);
      assert Replay(d, s, [Crash, Resume]) == Next(d, gone, Resume);
    } else {
      assert [Resume][..0] == [];
      assert Replay(d, s, [Resume]) == Next(d, s, Resume);
    }
  }

  // ---------- a resume as its caller sees it ----------

  /** How a resume ended: refused the lease, cut short by a failed save, or at its end. */
  datatype Outcome = Refused | CutShort | Ended

  /** `end` is the end of a run of the machine from `start`, with this outcome and this result. */
  ghost predicate Ran(d: Definition, start: System, labels: seq<Label>, end: System, outcome: Outcome,
                      err: Option<Error>, seen: seq<Observation>)
  {
    && Replay(d, start, labels) == Some(end) && Uninterrupted(labels)
    && Observed(d, start.disk.id, end.history) == Observed(d, start.disk.id, start.history) + seen
    && end.process.Some? && end.process.value.stage.Idle?
    && match outcome
       case Refused => err.Some? && Disturbed(err.value) && end == start && seen == []
       case CutShort => err.Some? && Disturbed(err.value) && end.process.value.pc == Done(Stopped(err.value))
       case Ended =>
         && end.process.value.pc == Done(Returned(err)) && end.disk.status.IsTerminal()
         && Reported(start.disk, end.disk, err) && (start.disk.status.IsTerminal() ==> seen == [])
  }
}
