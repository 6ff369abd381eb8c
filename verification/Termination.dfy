/** An undisturbed resume never gets stuck, takes a bounded number of steps, and ends terminal. */
module Termination {
  import opened Values
  import opened Records
  import opened Protocol
  import opened RecordShape
  import opened Progress

  /** A label by which an undisturbed process moves on; the context may still end. */
  predicate Undisturbed(l: Label) {
    !l.Crash? && !l.Resume? && !l.SaveFails?
  }

  predicate Moves(l: Label) {
    Undisturbed(l) && !l.ContextEnds?
  }

  // ---------- never stuck ----------

  /** A process that is not done can make its next move, whatever a call it makes returns. */
  lemma NeverStuck(d: Definition, s: System, now: Time, answer: Answer, outcome: Option<Error>)
    requires ShapeInvariant(d, s) && s.process.Some? && !s.process.value.pc.Done?
    ensures || Next(d, s, Work(now)).Some? || Next(d, s, Save).Some? || Next(d, s, Publish).Some?
            || Next(d, s, Act(answer)).Some? || Next(d, s, Compensate(outcome)).Some?
  {
    hide Working;
    assert s.process.value.stage.Idle? && !s.process.value.pc.Calling? && !s.process.value.pc.Invoke?
           ==> Working(d, s.process.value, now).Some? by {
      WorksUnlessCalling(d, s.process.value, now);
    }
  }

  lemma WorksUnlessCalling(d: Definition, p: Process, now: Time)
    ensures !p.pc.Calling? && !p.pc.Invoke? && !p.pc.Done? && !p.pc.Panicked? ==> Working(d, p, now).Some?
  {
  }

  /** A resume that returned, rather than being stopped by a failed save, left a terminal record. */
  lemma ReturnedIsTerminal(d: Definition, s: System)
    requires ShapeInvariant(d, s) && s.process.Some?
    requires s.process.value.pc.Done? && s.process.value.pc.result.Returned? && !s.process.value.stage.Saving?
    ensures s.disk.status.IsTerminal() && s.disk.status == s.process.value.exec.status
  {
  }

  // ---------- a bound on its length ----------

  function MostTries(d: Definition, n: nat): (t: nat)
    requires n <= |d.steps|
    ensures forall i :: 0 <= i < n ==> Tries(d, d.steps[i]) <= t
  {
    if n == 0 then 0
    else
      var t := MostTries(d, n - 1);
      if Tries(d, d.steps[n - 1]) > t then Tries(d, d.steps[n - 1]) else t
  }

  /** How far a resume can get without a status change. */
  function Span(d: Definition): nat {
    3 * MostTries(d, |d.steps|) + |d.steps| + 10
  }

  /** How far it can still get from here without one. */
  function Local(d: Definition, p: Process): int {
    var t := MostTries(d, |d.steps|);
    (if p.stage.Saving? then 2 else if p.stage.Publishing? then 1 else 0)
    + match p.pc
      case Entry => 3 * t + |d.steps| + 7
      case Scan => 3 * t + 6
      case Loop(_, _) => 3 * t + 5
      case Try(_, _, attempt) => 3 * (t - attempt) + 4
      case Calling(_, _, attempt) => 3 * (t - attempt) + 3
      case Judging(_, _, attempt, _) => 3 * (t - attempt) + 2
      case Abort(_, _, _) => 1
      case Undo(j, _, _) => j + 3
      case Invoke(_, _, _) => 2
      case Undone(_, _, _, _) => 1
      case _ => 0
  }

  /** The status changes a record of `d` can at most go through after a fresh one. */
  function Ceiling(d: Definition): nat {
    4 * |d.steps| + 2
  }

  /** Status changes left, then steps left within the current one. */
  ghost predicate Shrinks(d: Definition, p: Process, p': Process) {
    || Depth(p'.exec) > Depth(p.exec)
    || (Depth(p'.exec) == Depth(p.exec) && Local(d, p') < Local(d, p))
  }

  lemma LocalInSpan(d: Definition, p: Process, disk: Record)
    requires Placed(d, p, disk)
    ensures 0 <= Local(d, p) < Span(d)
  {
    hide ShapeFor, Sequential, InStep, Forward, SettledFrom;
  }

  lemma SameIsAsDeep(a: Record, b: Record)
    requires Same(a, b)
    ensures Depth(a) == Depth(b)
  {
    forall i | 0 <= i < |a.steps|
      ensures a.steps[i].status == b.steps[i].status
    {
      assert SameStep(a.steps[i], b.steps[i]);
    }
    SameDepth(a.steps, b.steps);
  }

  lemma WorkingKeepsPlace(d: Definition, p: Process, disk: Record, now: Time)
    requires p.stage.Idle? && Placed(d, p, disk) && Shape(d, disk) && Working(d, p, now).Some?
    ensures Placed(d, Working(d, p, now).value, disk) && !HasStopped(Working(d, p, now).value)
    ensures !HasStopped(p) && !Working(d, p, now).value.stage.Publishing?
  {
    var s := System(Some(p), disk, []);
    WorkingRuns(d, p, now);
    hide Working, Placed, Shape;
    WorkKeepsShape(d, s, now, Next(d, s, Work(now)).value);
  }

  lemma WorkingRuns(d: Definition, p: Process, now: Time)
    requires p.stage.Idle?
    ensures Working(d, p, now).Some? ==>
              !HasStopped(p) && !HasStopped(Working(d, p, now).value) && !Working(d, p, now).value.stage.Publishing?
  {
  }

  /** Without a status change, control flow gets nearer to one. */
  lemma SilentIsNearer(d: Definition, p: Process, disk: Record, now: Time)
    requires p.stage.Idle? && Placed(d, p, disk) && Working(d, p, now).Some?
    requires Working(d, p, now).value.stage.Idle?
    ensures !Working(d, p, now).value.pc.Panicked? ==> Local(d, Working(d, p, now).value) < Local(d, p)
  {
    PlacedIsInRange(d, p, disk);
    hide Placed, Local, InRange, FromEntry, FromScan, FromLoop, FromTry, FromJudging, FromAbort, FromUndo, FromUndone;
    SilentForward(d, p, disk, now);
    SilentBackward(d, p, disk, now);
  }

  ghost predicate Nearer(d: Definition, p: Process, p': Process) {
    p'.stage.Idle? && !p'.pc.Panicked? ==> Local(d, p') < Local(d, p)
  }

  lemma SilentForward(d: Definition, p: Process, disk: Record, now: Time)
    requires p.stage.Idle? && Placed(d, p, disk)
    ensures p.pc.Entry? ==> Nearer(d, p, FromEntry(p, now))
    ensures p.pc.Scan? ==> Nearer(d, p, FromScan(p))
    ensures p.pc.Loop? ==> Nearer(d, p, FromLoop(d, p, now))
    ensures p.pc.Try? ==> Nearer(d, p, FromTry(p, now))
    ensures p.pc.Judging? ==> Nearer(d, p, FromJudging(d, p, now))
  {
    hide ShapeFor, Sequential, InStep, Forward, IsNonRetryable, RetryPolicyFor;
  }

  lemma SilentBackward(d: Definition, p: Process, disk: Record, now: Time)
    requires p.stage.Idle? && Placed(d, p, disk)
    ensures p.pc.Abort? ==> Nearer(d, p, FromAbort(p, now))
    ensures p.pc.Undo? ==> Nearer(d, p, FromUndo(d, p, now))
    ensures p.pc.Undone? ==> Nearer(d, p, FromUndone(p, now))
  {
    hide ShapeFor, Sequential, InStep, Forward, SettledFrom, AnySucceeded, AnyCompensationFailed;
  }

  lemma PlacedNeverPanicked(d: Definition, p: Process, disk: Record)
    requires Placed(d, p, disk)
    ensures !p.pc.Panicked?
  {
  }

  /** Control flow either changes one status or gets nearer to doing so. */
  lemma WorkShrinks(d: Definition, p: Process, disk: Record, now: Time)
    requires p.stage.Idle? && Placed(d, p, disk) && Shape(d, disk) && Working(d, p, now).Some?
    ensures Shrinks(d, p, Working(d, p, now).value)
  {
    hide Working, Depth, Local, Shape, Same, OneEdge, Resting;
    var p' := Working(d, p, now).value;
    WorkingKeepsPlace(d, p, disk, now);
    SameIsAsDeep(p.exec, disk);
    if p'.stage.Saving? {
      OneEdgeIsOneUnit(disk, p'.exec, p'.stage.edge);
    } else {
      PlacedNeverPanicked(d, p', disk);
      SilentIsNearer(d, p, disk, now);
      SameIsAsDeep(p'.exec, disk);
    }
  }

  lemma ActIsAsDeep(p: Process, i: nat, s: Step)
    requires i < |p.exec.steps| && s.status == p.exec.steps[i].status
    ensures Depth(WithStep(p.exec, i, s)) == Depth(p.exec)
  {
    StepDepthUpdate(p.exec.steps, i, s);
  }

  lemma ActShrinks(d: Definition, s: System, answer: Answer, s': System)
    requires Next(d, s, Act(answer)) == Some(s')
    ensures Shrinks(d, s.process.value, s'.process.value) && !HasStopped(s'.process.value)
  {
    var p := s.process.value;
    ActIsAsDeep(p, p.pc.i, s'.process.value.exec.steps[p.pc.i]);
  }

  /** The other labels leave the record alone; all but the end of the context advance the process. */
  lemma QuietShrinks(d: Definition, s: System, l: Label, s': System)
    requires Next(d, s, l) == Some(s') && Undisturbed(l) && !l.Work? && !l.Act?
    requires s.process.Some? && !HasStopped(s.process.value)
    ensures s'.process.Some? && !HasStopped(s'.process.value)
    ensures s'.process.value.exec == s.process.value.exec
    ensures if Moves(l) then Local(d, s'.process.value) < Local(d, s.process.value)
            else Local(d, s'.process.value) == Local(d, s.process.value)
  {
    hide Working, MostTries;
  }

  lemma WorkMoveShrinks(d: Definition, s: System, now: Time, s': System)
    requires ShapeInvariant(d, s) && Next(d, s, Work(now)) == Some(s')
    ensures Shrinks(d, s.process.value, s'.process.value) && !HasStopped(s'.process.value)
  {
    hide Working, Shape, Placed, Shrinks;
    WorkingRuns(d, s.process.value, now);
    WorkShrinks(d, s.process.value, s.disk, now);
  }

  lemma MoveShrinks(d: Definition, s: System, l: Label, s': System)
    requires ShapeInvariant(d, s) && Next(d, s, l) == Some(s') && Undisturbed(l)
    requires s.process.Some? && !HasStopped(s.process.value)
    ensures s'.process.Some? && !HasStopped(s'.process.value)
    ensures Moves(l) ==> Shrinks(d, s.process.value, s'.process.value)
    ensures !Moves(l) ==> Depth(s'.process.value.exec) == Depth(s.process.value.exec)
                          && Local(d, s'.process.value) == Local(d, s.process.value)
  {
    StillThere(d, s, l, s');
    hide Next, ShapeInvariant, Depth, Local;
    if l.Work? {
      WorkMoveShrinks(d, s, l.now, s');
    } else if l.Act? {
      ActShrinks(d, s, l.answer, s');
    } else {
      QuietShrinks(d, s, l, s');
    }
  }

  lemma StillThere(d: Definition, s: System, l: Label, s': System)
    requires Next(d, s, l) == Some(s') && Undisturbed(l) && s.process.Some?
    ensures s'.process.Some?
  {
    hide Working;
  }

  function Potential(d: Definition, p: Process): int {
    Depth(p.exec) * Span(d) - Local(d, p)
  }

  lemma PotentialGrows(depth: int, depth': int, span: int, local: int, local': int)
    requires 0 <= local < span && 0 <= local' < span
    requires depth' > depth || (depth' == depth && local' < local)
    ensures depth' * span - local' > depth * span - local
  {
    if depth' > depth {
      assert depth' * span >= (depth + 1) * span == depth * span + span;
    }
  }

  function MoveCount(labels: seq<Label>): nat {
    if |labels| == 0 then 0
    else MoveCount(labels[..|labels| - 1]) + if Moves(labels[|labels| - 1]) then 1 else 0
  }

  lemma {:induction false} MovesRaisePotential(d: Definition, s0: System, labels: seq<Label>, s: System)
    requires ShapeInvariant(d, s0) && s0.process.Some? && !HasStopped(s0.process.value)
    requires Replay(d, s0, labels) == Some(s) && forall l :: l in labels ==> Undisturbed(l)
    ensures s.process.Some? && !HasStopped(s.process.value)
    ensures MoveCount(labels) <= Potential(d, s.process.value) - Potential(d, s0.process.value)
  {
    if |labels| > 0 {
      var front, l := labels[..|labels| - 1], labels[|labels| - 1];
      var before := Replay(d, s0, front).value;
      assert l in labels && forall x :: x in front ==> x in labels;
      hide Next, ShapeFor, Placed, Depth, Local, Span;
      MovesRaisePotential(d, s0, front, before);
      ReplayKeepsShape(d, s0, front, before);
      NextKeepsShape(d, before, l, s);
      MoveShrinks(d, before, l, s);
      var p, p' := before.process.value, s.process.value;
      LocalInSpan(d, p, before.disk);
      LocalInSpan(d, p', s.disk);
      if Moves(l) {
        PotentialGrows(Depth(p.exec), Depth(p'.exec), Span(d), Local(d, p), Local(d, p'));
      }
    }
  }

  /**
   * From wherever a resume is, with no crash and no failed save, however its context and the
   * calls behave, it makes at most (4n+3) * (3t+n+10) moves, for n steps of at most t tries.
   */
  lemma ResumeIsBounded(d: Definition, s0: System, labels: seq<Label>, s: System)
    requires ShapeInvariant(d, s0) && s0.process.Some? && !HasStopped(s0.process.value)
    requires Replay(d, s0, labels) == Some(s) && forall l :: l in labels ==> Undisturbed(l)
    ensures MoveCount(labels) <= (Ceiling(d) + 1) * Span(d)
  {
    hide Next, ShapeInvariant, Placed, Shape, Replay, Depth, Local, Span, MoveCount, Undisturbed, Ceiling;
    MovesRaisePotential(d, s0, labels, s);
    ReplayKeepsShape(d, s0, labels, s);
    Room(d, s0);
    Room(d, s);
    var p0, p := s0.process.value, s.process.value;
    PotentialRange(MoveCount(labels), Depth(p0.exec), Depth(p.exec), Local(d, p0), Local(d, p), Ceiling(d), Span(d));
  }

  /** How far a process is, and how far it can still get. */
  lemma Room(d: Definition, s: System)
    requires ShapeInvariant(d, s) && s.process.Some? && !HasStopped(s.process.value)
    ensures Depth(s.process.value.exec) <= Ceiling(d) && 0 <= Local(d, s.process.value) < Span(d)
  {
    var p := s.process.value;
    assert Placed(d, p, s.disk) && Shape(d, p.exec);
    hide ShapeInvariant, Placed, Shape, Depth, Local, Ceiling, Span;
    LocalInSpan(d, p, s.disk);
    DepthCeiling(d, p.exec);
  }

  lemma DepthCeiling(d: Definition, r: Record)
    requires Shape(d, r)
    ensures Depth(r) <= Ceiling(d)
  {
    ShapeBoundsDepth(d, r);
  }

  lemma PotentialRange(moves: int, depth0: nat, depth: nat, local0: int, local: int, ceiling: nat, span: nat)
    requires moves <= (depth * span - local) - (depth0 * span - local0)
    requires 0 <= local && local0 < span && depth <= ceiling
    ensures moves <= (ceiling + 1) * span
  {
    assert depth * span <= ceiling * span;
    assert depth0 * span >= 0;
  }

  /**
   * An undisturbed resume of any reachable execution therefore ends, and with its record
   * terminal: as long as it is not done it has a next move, and it has boundedly many.
   */
  lemma UndisturbedResumeEnds(
      d: Definition, s0: System, labels: seq<Label>, s: System, now: Time, answer: Answer, outcome: Option<Error>)
    requires ShapeInvariant(d, s0) && s0.process.Some? && !HasStopped(s0.process.value)
    requires Replay(d, s0, labels) == Some(s) && forall l :: l in labels ==> Undisturbed(l)
    ensures MoveCount(labels) <= (Ceiling(d) + 1) * Span(d)
    ensures MoveCount(labels) == (Ceiling(d) + 1) * Span(d) ==> s.process.value.pc.Done?
    ensures s.process.Some? && s.process.value.pc.Done? && !s.process.value.stage.Saving? ==> s.disk.status.IsTerminal()
    ensures s.process.Some? && !s.process.value.pc.Done? ==>
              exists l :: Moves(l) && Next(d, s, l).Some?
  {
    ResumeIsBounded(d, s0, labels, s);
    ReplayKeepsShape(d, s0, labels, s);
    MovesRaisePotential(d, s0, labels, s);
    hide ShapeInvariant, Next, Span, MoveCount, Depth, Local, Ceiling, Potential;
    if s.process.value.pc.Done? {
      if !s.process.value.stage.Saving? {
        ReturnedIsTerminal(d, s);
      }
    } else {
      var l := UndisturbedMove(d, s, now, answer, outcome);
      if MoveCount(labels) == (Ceiling(d) + 1) * Span(d) {
        CountOneMore(labels, l);
        ResumeIsBounded(d, s0, labels + [l], Next(d, s, l).value);
        assert false;
      }
    }
  }

  lemma UndisturbedMove(d: Definition, s: System, now: Time, answer: Answer, outcome: Option<Error>) returns (l: Label)
    requires ShapeInvariant(d, s) && s.process.Some? && !s.process.value.pc.Done?
    ensures Moves(l) && Next(d, s, l).Some?
    ensures (l.Act? ==> l.answer == answer) && (l.Compensate? ==> l.outcome == outcome)
  {
    NeverStuck(d, s, now, answer, outcome);
    hide ShapeInvariant, Next;
    l := if Next(d, s, Work(now)).Some? then Work(now)
         else if Next(d, s, Save).Some? then Save
         else if Next(d, s, Publish).Some? then Publish
         else if Next(d, s, Act(answer)).Some? then Act(answer)
         else Compensate(outcome);
  }

  lemma CountOneMore(labels: seq<Label>, l: Label)
    requires Moves(l)
    ensures MoveCount(labels + [l]) == MoveCount(labels) + 1
  {
    assert (labels + [l])[..|labels + [l]| - 1] == labels;
  }
}
