/** Exactly when a run to the end leaves a step recorded as running. */
module LeftRunning {
  import opened Values
  import opened States
  import opened Records
  import opened Protocol
  import opened RecordShape
  import opened Verdicts
  import opened MachineSteps

  predicate IsRunning(r: Record, i: nat) {
    i < |r.steps| && r.steps[i].status == StepRunning
  }

  /** The forward loop has come to step `i` and finds the context ended. */
  predicate TurnedAway(s: System, i: nat) {
    && s.process.Some? && s.process.value.stage.Idle?
    && s.process.value.pc.Loop? && s.process.value.pc.i == i && s.process.value.ctx.Some?
  }

  /** In the course of this run the loop came to step `i` with its context ended. */
  ghost predicate GivenUp(d: Definition, s0: System, labels: seq<Label>, i: nat) {
    exists k :: 0 <= k < |labels| && labels[k].Work?
                && Replay(d, s0, labels[..k]).Some? && TurnedAway(Replay(d, s0, labels[..k]).value, i)
  }

  lemma GivenUpSnoc(d: Definition, s0: System, labels: seq<Label>, s: System, l: Label, i: nat)
    requires Replay(d, s0, labels) == Some(s)
    ensures GivenUp(d, s0, labels + [l], i) <==> GivenUp(d, s0, labels, i) || (l.Work? && TurnedAway(s, i))
  {
    var all := labels + [l];
    hide Replay, TurnedAway;
    assert forall k :: 0 <= k <= |labels| ==> all[..k] == labels[..k];
    assert all[..|labels|] == labels && labels[..|labels|] == labels;
    if GivenUp(d, s0, labels, i) {
      var k :| 0 <= k < |labels| && labels[k].Work?
               && Replay(d, s0, labels[..k]).Some? && TurnedAway(Replay(d, s0, labels[..k]).value, i);
      assert all[k].Work? && TurnedAway(Replay(d, s0, all[..k]).value, i);
    }
    if l.Work? && TurnedAway(s, i) {
      assert all[|labels|].Work? && TurnedAway(Replay(d, s0, all[..|labels|]).value, i);
    }
  }

  predicate BeforeLoop(pc: Pc) {
    pc.Entry? || pc.Scan?
  }

  predicate InLoop(pc: Pc) {
    pc.Loop? || pc.Try? || pc.Calling? || pc.Judging?
  }

  /** What a process resuming `r` knows of step `i`; `given` says whether the loop gave it up. */
  ghost predicate Knows(r: Record, i: nat, p: Process, given: bool) {
    HasStopped(p) ||
    (&& |p.exec.steps| == |r.steps|
     && (BeforeLoop(p.pc) ==> !given && (IsRunning(p.exec, i) <==> IsRunning(r, i)) && (p.pc.Scan? ==> StillForward(r)))
     && (InLoop(p.pc) ==> !given && StillForward(r) && (IsRunning(r, i) ==> p.exec.steps[i].status != StepPending))
     && (p.pc.Loop? && IsRunning(p.exec, i) ==> IsRunning(r, i))
     && (!BeforeLoop(p.pc) && !InLoop(p.pc) ==>
           (IsRunning(p.exec, i) <==> IsRunning(r, i) && (!StillForward(r) || given))))
  }

  /** Not yet rolling back, and not finished. */
  predicate StillForward(r: Record) {
    r.status == Pending || r.status == Running
  }

  lemma BeforeLoopKnows(d: Definition, r: Record, i: nat, p: Process, disk: Record, now: Time)
    requires p.stage.Idle? && BeforeLoop(p.pc) && Placed(d, p, disk) && Knows(r, i, p, false)
    requires p.pc.Entry? ==> p.exec == r
    ensures p.pc.Entry? ==> Knows(r, i, FromEntry(p, now), false)
    ensures p.pc.Scan? ==> Knows(r, i, FromScan(p), false)
  {
    hide InStep, Fits, ShapeFor;
  }

  lemma LoopKnows(d: Definition, r: Record, i: nat, p: Process, disk: Record, now: Time)
    requires p.stage.Idle? && p.pc.Loop? && Placed(d, p, disk) && Knows(r, i, p, false)
    ensures Knows(r, i, FromLoop(d, p, now), p.ctx.Some? && p.pc.i == i && p.pc.i < |d.steps|)
  {
    hide InStep, Sequential, ShapeFor;
  }

  lemma TryKnows(d: Definition, r: Record, i: nat, p: Process, disk: Record, now: Time)
    requires p.stage.Idle? && p.pc.Try? && Placed(d, p, disk) && Knows(r, i, p, false)
    ensures Knows(r, i, FromTry(p, now), false)
  {
    hide InStep, Fits, Sequential, ShapeFor;
  }

  lemma JudgingKnows(d: Definition, r: Record, i: nat, p: Process, disk: Record, now: Time)
    requires p.stage.Idle? && p.pc.Judging? && Placed(d, p, disk) && Knows(r, i, p, false)
    ensures Knows(r, i, FromJudging(d, p, now), false)
  {
    hide Placed, FromJudging;
    JudgingPlace(d, p, disk);
    JudgingEffect(d, p, now);
  }

  lemma AbortKnows(d: Definition, r: Record, i: nat, p: Process, disk: Record, now: Time, given: bool)
    requires p.stage.Idle? && p.pc.Abort? && Placed(d, p, disk) && Knows(r, i, p, given)
    ensures Knows(r, i, FromAbort(p, now), given)
  {
    hide InStep, Fits, Sequential, ShapeFor, AnySucceeded;
  }

  lemma UndoKnows(d: Definition, r: Record, i: nat, p: Process, disk: Record, now: Time, given: bool)
    requires p.stage.Idle? && p.pc.Undo? && Placed(d, p, disk) && Knows(r, i, p, given)
    ensures Knows(r, i, FromUndo(d, p, now), given)
  {
    hide Placed, FromUndo;
    UndoPlace(d, p, disk);
    UndoEffect(d, p, now);
  }

  lemma UndoneKnows(d: Definition, r: Record, i: nat, p: Process, disk: Record, now: Time, given: bool)
    requires p.stage.Idle? && p.pc.Undone? && Placed(d, p, disk) && Knows(r, i, p, given)
    ensures Knows(r, i, FromUndone(p, now), given)
  {
    hide Placed, FromUndone;
    UndoPlace(d, p, disk);
    UndoneEffect(p, now);
  }

  /** Whether the loop gives step `i` up in this very step. */
  predicate GivesUp(d: Definition, p: Process, i: nat) {
    p.pc.Loop? && p.pc.i == i && p.ctx.Some? && i < |d.steps|
  }

  lemma WorkingKnows(d: Definition, r: Record, i: nat, p: Process, disk: Record, now: Time, given: bool)
    requires p.stage.Idle? && Placed(d, p, disk) && Knows(r, i, p, given) && Working(d, p, now).Some?
    requires p.pc.Entry? ==> p.exec == r
    ensures Knows(r, i, Working(d, p, now).value, given || GivesUp(d, p, i))
  {
    PlacedIsInRange(d, p, disk);
    assert BeforeLoop(p.pc) || InLoop(p.pc) ==> !given by {
      hide Placed, InRange, Working;
    }
    hide Placed, Knows, InRange, FromEntry, FromScan, FromLoop, FromTry, FromJudging, FromAbort, FromUndo, FromUndone;
    if p.pc.Entry? || p.pc.Scan? {
      BeforeLoopKnows(d, r, i, p, disk, now);
    } else if p.pc.Loop? {
      LoopKnows(d, r, i, p, disk, now);
    } else if p.pc.Try? {
      TryKnows(d, r, i, p, disk, now);
    } else if p.pc.Judging? {
      JudgingKnows(d, r, i, p, disk, now);
    } else if p.pc.Abort? {
      AbortKnows(d, r, i, p, disk, now, given);
    } else if p.pc.Undo? {
      UndoKnows(d, r, i, p, disk, now, given);
    } else {
      UndoneKnows(d, r, i, p, disk, now, given);
    }
  }

  ghost predicate KnowsSystem(r: Record, i: nat, s: System, given: bool) {
    s.process.Some? && Knows(r, i, s.process.value, given)
    && (s.process.value.pc.Entry? ==> s.process.value.exec == r)
  }

  lemma WorkingLeavesEntry(d: Definition, p: Process, now: Time)
    ensures Working(d, p, now).Some? ==> !Working(d, p, now).value.pc.Entry?
  {
  }

  lemma QuietKnows(d: Definition, r: Record, i: nat, s: System, l: Label, s': System, given: bool)
    requires KnowsSystem(r, i, s, given) && Next(d, s, l) == Some(s')
    requires !l.Crash? && !l.Resume? && !l.Work?
    ensures KnowsSystem(r, i, s', given)
  {
    hide Working;
  }

  lemma NextKnows(d: Definition, r: Record, i: nat, s: System, l: Label, s': System, given: bool)
    requires ShapeInvariant(d, s) && KnowsSystem(r, i, s, given) && Next(d, s, l) == Some(s')
    requires !l.Crash? && !l.Resume? && i < |d.steps|
    ensures KnowsSystem(r, i, s', given || (l.Work? && TurnedAway(s, i)))
  {
    if l.Work? {
      hide Working, Placed, Knows;
      WorkingKnows(d, r, i, s.process.value, s.disk, l.now, given);
      WorkingLeavesEntry(d, s.process.value, l.now);
    } else {
      hide Next, ShapeInvariant, KnowsSystem;
      QuietKnows(d, r, i, s, l, s', given);
    }
  }

  lemma {:induction false} ReplayKnows(d: Definition, r: Record, past: seq<Effect>, labels: seq<Label>, s: System, i: nat)
    requires Shape(d, r) && i < |d.steps| && Uninterrupted(labels)
    requires Replay(d, Reading(r, past), labels) == Some(s)
    ensures KnowsSystem(r, i, s, GivenUp(d, Reading(r, past), labels, i))
  {
    var s0 := Reading(r, past);
    ReadingHasShape(d, r, past);
    if |labels| > 0 {
      hide Next, ShapeInvariant, KnowsSystem, Uninterrupted, GivenUp, Shape, Reading, Replay;
      var front, l, before := ReplayFront(d, s0, labels, s);
      UninterruptedSnoc(front, l);
      ReplayKnows(d, r, past, front, before, i);
      ReplayKeepsShape(d, s0, front, before);
      GivenUpSnoc(d, s0, front, before, l, i);
      NextKnows(d, r, i, before, l, s, GivenUp(d, s0, front, i));
    }
  }

  /**
   * A resume that came to its end leaves step `i` recorded as running if and only if it found it
   * running and either found the execution past its forward run already, or came to the step's turn
   * in the forward loop with its context ended.
   */
  lemma RunLeavesRunningIff(
      d: Definition, r: Record, past: seq<Effect>, labels: seq<Label>, end: System, i: nat, err: Option<Error>)
    requires Shape(d, r) && i < |d.steps| && Uninterrupted(labels)
    requires Replay(d, Reading(r, past), labels) == Some(end)
    requires end.process.Some? && end.process.value.pc == Done(Returned(err)) && !end.process.value.stage.Saving?
    ensures IsRunning(end.disk, i) <==>
              IsRunning(r, i) && (!StillForward(r) || GivenUp(d, Reading(r, past), labels, i))
  {
    var s0 := Reading(r, past);
    ReadingHasShape(d, r, past);
    ReplayKnows(d, r, past, labels, end, i);
    ReplayKeepsShape(d, s0, labels, end);
    hide Replay, GivenUp, Shape, Resting;
    assert SameStep(end.process.value.exec.steps[i], end.disk.steps[i]);
  }
}
