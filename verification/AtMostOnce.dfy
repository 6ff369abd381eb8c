/** Recovery that skips executions with a step in flight never repeats anything. */
module AtMostOnce {
  import opened Values
  import opened States
  import opened Records
  import opened Protocol
  import opened RecordShape
  import opened Progress
  import opened History

  /** Every resumption finds nothing in flight on disk. */
  ghost predicate Cautious(d: Definition, s0: System, labels: seq<Label>) {
    |labels| == 0 ||
    (&& Cautious(d, s0, labels[..|labels| - 1])
     && (labels[|labels| - 1].Resume? ==>
           var before := Replay(d, s0, labels[..|labels| - 1]);
           before.Some? && !HasInFlightStep(before.value.disk)))
  }

  ghost predicate Entered(h: seq<Effect>, i: nat) {
    exists e :: e in h && e.Acted? && e.i == i
  }

  ghost predicate UndoTried(h: seq<Effect>, j: nat) {
    exists e :: e in h && e.Reverted? && e.j == j
  }

  /** Each retry loop has one first attempt and each Compensate one call. */
  ghost predicate NothingRepeats(h: seq<Effect>) {
    && (forall p, q :: 0 <= p < q < |h| && h[p].Reverted? && h[q].Reverted? ==> h[p].j != h[q].j)
    && (forall p, q :: 0 <= p < q < |h| && h[p].Acted? && h[q].Acted? && h[q].attempt == 1 ==> h[p].i != h[q].i)
  }

  ghost predicate NoneCompensating(r: Record) {
    forall m :: 0 <= m < |r.steps| ==> r.steps[m].status != StepCompensating
  }

  /** What a process that never takes over a step in flight is about to do is new. */
  ghost predicate NewWork(h: seq<Effect>, p: Process) {
    match p.pc
    case Entry => !HasInFlightStep(p.exec)
    case Scan => !HasInFlightStep(p.exec)
    case Loop(i, _) => i < |p.exec.steps| ==> p.exec.steps[i].status == StepPending
    case Try(i, _, attempt) => attempt == 1 ==> !Entered(h, i)
    case Calling(i, _, attempt) => attempt == 1 ==> !Entered(h, i)
    case Undo(_, _, _) => NoneCompensating(p.exec)
    case Invoke(j, _, _) => !UndoTried(h, j)
    case _ => true
  }

  ghost predicate OnceInvariant(s: System) {
    NothingRepeats(s.history) && (s.process.Some? ==> NewWork(s.history, s.process.value))
  }

  lemma NotEntered(d: Definition, s: System, i: nat)
    requires CallInvariant(d, s) && i < |s.disk.steps| && s.disk.steps[i].status == StepPending
    ensures !Entered(s.history, i)
  {
    forall e | e in s.history && e.Acted?
      ensures e.i != i
    {
      assert Grounded(d, e, s.disk);
    }
  }

  lemma UndoNotTried(d: Definition, s: System, j: nat)
    requires CallInvariant(d, s) && j < |s.disk.steps| && s.disk.steps[j].status == StepSucceeded
    ensures !UndoTried(s.history, j)
  {
    forall e | e in s.history && e.Reverted?
      ensures e.j != j
    {
      assert Grounded(d, e, s.disk);
    }
  }

  lemma LoopIsNew(d: Definition, s: System, now: Time)
    requires s.process.Some? && s.process.value.stage.Idle? && s.process.value.pc.Loop?
    requires ShapeInvariant(d, s) && CallInvariant(d, s) && NewWork(s.history, s.process.value)
    ensures NewWork(s.history, FromLoop(d, s.process.value, now))
  {
    var p := s.process.value;
    if p.pc.i < |d.steps| {
      assert SameStep(p.exec.steps[p.pc.i], s.disk.steps[p.pc.i]);
      hide CallInvariant, Shape;
      NotEntered(d, s, p.pc.i);
    }
  }

  lemma UndoIsNew(d: Definition, s: System, now: Time)
    requires s.process.Some? && s.process.value.stage.Idle? && s.process.value.pc.Undo?
    requires ShapeInvariant(d, s) && CallInvariant(d, s) && NewWork(s.history, s.process.value)
    ensures NewWork(s.history, FromUndo(d, s.process.value, now))
  {
    var p := s.process.value;
    if p.pc.j > 0 {
      var j := p.pc.j - 1;
      assert SameStep(p.exec.steps[j], s.disk.steps[j]);
      hide CallInvariant, Shape;
      if p.exec.steps[j].status == StepSucceeded {
        UndoNotTried(d, s, j);
      }
    }
  }

  lemma AbortIsNew(d: Definition, h: seq<Effect>, p: Process, disk: Record, now: Time)
    requires p.stage.Idle? && p.pc.Abort? && Placed(d, p, disk)
    ensures NewWork(h, FromAbort(p, now))
  {
  }

  lemma RestIsNew(d: Definition, h: seq<Effect>, p: Process, disk: Record, now: Time)
    requires p.stage.Idle? && Placed(d, p, disk) && NewWork(h, p) && InRange(d, p)
    requires p.pc.Entry? || p.pc.Scan? || p.pc.Try? || p.pc.Judging?
    ensures p.pc.Entry? ==> NewWork(h, FromEntry(p, now))
    ensures p.pc.Scan? ==> NewWork(h, FromScan(p))
    ensures p.pc.Try? ==> NewWork(h, FromTry(p, now))
    ensures p.pc.Judging? ==> NewWork(h, FromJudging(d, p, now))
  {
    if p.pc.Entry? || p.pc.Scan? {
      ScanIsNew(d, h, p, disk, now);
    } else {
      TryIsNew(d, h, p, disk, now);
    }
  }

  lemma ScanIsNew(d: Definition, h: seq<Effect>, p: Process, disk: Record, now: Time)
    requires p.stage.Idle? && Placed(d, p, disk) && NewWork(h, p)
    ensures p.pc.Entry? ==> NewWork(h, FromEntry(p, now))
    ensures p.pc.Scan? ==> NewWork(h, FromScan(p))
  {
    hide InStep, Fits, Entered, UndoTried;
  }

  lemma TryIsNew(d: Definition, h: seq<Effect>, p: Process, disk: Record, now: Time)
    requires p.stage.Idle? && Placed(d, p, disk) && NewWork(h, p)
    ensures p.pc.Try? ==> NewWork(h, FromTry(p, now))
    ensures p.pc.Judging? ==> NewWork(h, FromJudging(d, p, now))
  {
    hide InStep, Sequential, ShapeFor, Entered, UndoTried, IsNonRetryable;
  }

  lemma UndoneIsNew(d: Definition, h: seq<Effect>, p: Process, disk: Record, now: Time)
    requires p.stage.Idle? && p.pc.Undone? && Placed(d, p, disk)
    ensures NewWork(h, FromUndone(p, now))
  {
    forall m | 0 <= m < |p.exec.steps| && m != p.pc.j
      ensures p.exec.steps[m].status != StepCompensating
    {
      var f := p.pc.failedAt;
      if p.pc.j < m < f {
        assert Settled(d, p.exec.steps, m);
      } else if m < p.pc.j {
        assert !Settled(d, p.exec.steps, p.pc.j);
      }
    }
  }

  lemma AbortedIsNoCall(h: seq<Effect>, told: seq<Effect>, p: Process)
    requires forall e :: e in told ==> !e.Acted? && !e.Reverted?
    requires NewWork(h, p)
    ensures NewWork(h + told, p)
  {
    forall i: nat
      ensures Entered(h + told, i) ==> Entered(h, i)
      ensures UndoTried(h + told, i) ==> UndoTried(h, i)
    {
    }
  }

  lemma QuietRepeatsNothing(h: seq<Effect>, told: seq<Effect>)
    requires NothingRepeats(h) && |told| <= 1 && forall e :: e in told ==> !e.Acted? && !e.Reverted?
    ensures NothingRepeats(h + told)
  {
    assert |told| == 1 ==> told[0] in told;
  }

  lemma WorkIsNew(d: Definition, s: System, now: Time, s': System)
    requires ShapeInvariant(d, s) && CallInvariant(d, s) && OnceInvariant(s)
    requires Next(d, s, Work(now)) == Some(s')
    ensures NewWork(s.history, s'.process.value)
  {
    var p := s.process.value;
    PlacedIsInRange(d, p, s.disk);
    hide Placed, CallInvariant, NothingRepeats, NewWork, InRange,
         FromEntry, FromScan, FromLoop, FromTry, FromJudging, FromAbort, FromUndo, FromUndone;
    if p.pc.Loop? {
      LoopIsNew(d, s, now);
    } else if p.pc.Undo? {
      UndoIsNew(d, s, now);
    } else if p.pc.Abort? {
      AbortIsNew(d, s.history, p, s.disk, now);
    } else if p.pc.Undone? {
      UndoneIsNew(d, s.history, p, s.disk, now);
    } else {
      RestIsNew(d, s.history, p, s.disk, now);
    }
  }

  lemma CallIsNew(d: Definition, s: System, l: Label, s': System)
    requires ShapeInvariant(d, s) && CallInvariant(d, s) && OnceInvariant(s)
    requires (l.Act? || l.Compensate?) && Next(d, s, l) == Some(s')
    ensures OnceInvariant(s')
  {
    var h := s.history;
    hide CallInvariant, ShapeInvariant, Working;
    NextTells(d, s, l, s');
    var e := Told(s, l)[0];
    assert s'.history == h + [e];
    forall q | 0 <= q < |h|
      ensures h[q] in h
    {
    }
  }

  lemma NextKeepsOnce(d: Definition, s: System, l: Label, s': System)
    requires ShapeInvariant(d, s) && CallInvariant(d, s) && OnceInvariant(s) && Next(d, s, l) == Some(s')
    requires l.Resume? ==> !HasInFlightStep(s.disk)
    ensures OnceInvariant(s')
  {
    hide Working, CallInvariant, ShapeInvariant, NothingRepeats;
    if l.Act? || l.Compensate? {
      CallIsNew(d, s, l, s');
    } else {
      NextTells(d, s, l, s');
      QuietRepeatsNothing(s.history, Told(s, l));
      if l.Work? {
        WorkIsNew(d, s, l.now, s');
      }
      if s'.process.Some? && NewWork(s.history, s'.process.value) {
        AbortedIsNoCall(s.history, Told(s, l), s'.process.value);
      }
    }
  }

  lemma {:induction false} ReplayKeepsOnce(d: Definition, s0: System, labels: seq<Label>, s: System)
    requires ShapeInvariant(d, s0) && CallInvariant(d, s0) && OnceInvariant(s0)
    requires Replay(d, s0, labels) == Some(s) && Cautious(d, s0, labels)
    ensures OnceInvariant(s)
  {
    if |labels| > 0 {
      var before := Replay(d, s0, labels[..|labels| - 1]).value;
      hide Next, CallInvariant, ShapeInvariant, OnceInvariant;
      ReplayKeepsOnce(d, s0, labels[..|labels| - 1], before);
      ReplayKeepsShape(d, s0, labels[..|labels| - 1], before);
      ReplayKeepsCalls(d, s0, labels[..|labels| - 1], before);
      NextKeepsOnce(d, before, labels[|labels| - 1], s);
    }
  }

  /**
   * If every recovery skips executions with a step in flight, then over a whole life each
   * Compensate is called at most once and each step's retry loop is entered at most once.
   */
  lemma CautiousLivesRepeatNothing(
      d: Definition, id: string, input: Any, now: Time, labels: seq<Label>, s: System)
    requires Lives(d, id, input, now, labels, s) && Cautious(d, Created(d, id, input, now), labels)
    ensures NothingRepeats(s.history)
  {
    CreatedHasShape(d, id, input, now);
    CreatedHasCalls(d, id, input, now);
    ReplayKeepsOnce(d, Created(d, id, input, now), labels, s);
  }
}
