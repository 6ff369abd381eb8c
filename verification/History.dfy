/**
 * What the whole life of an execution looks like from outside: the order of Action and
 * Compensate calls, what was saved before each of them, and which events are published.
 */
module History {
  import opened Values
  import opened States
  import opened Records
  import opened Protocol
  import opened RecordShape
  import opened Progress

  /** The edges saved so far are exactly those on the way to the record on disk. */
  ghost predicate EdgesMatch(h: seq<Effect>, disk: Record) {
    && (forall to :: Saved(ExecEdge(to)) in h <==> OnPath(to, disk.status))
    && (forall i: nat, to :: Saved(StepEdge(i, to)) in h <==>
          i < |disk.steps| && StepOnPath(to, disk.steps[i].status))
  }

  /** No edge is saved twice. */
  ghost predicate EdgesDistinct(h: seq<Effect>) {
    forall p, q :: 0 <= p < q < |h| && h[p].Saved? && h[q].Saved? ==> h[p] != h[q]
  }

  /** Action calls go up the steps, Compensate calls come down, and no Action follows a Compensate. */
  ghost predicate CallsOrdered(h: seq<Effect>) {
    && (forall p, q :: 0 <= p < q < |h| && h[p].Acted? && h[q].Acted? ==> h[p].i <= h[q].i)
    && (forall p, q :: 0 <= p < q < |h| && h[p].Reverted? && h[q].Reverted? ==> h[p].j >= h[q].j)
    && (forall p, q :: 0 <= p < q < |h| && h[p].Reverted? ==> !h[q].Acted?)
  }

  /** A call happens only after the status that announces it was saved. */
  ghost predicate Announced(h: seq<Effect>, q: int)
    requires 0 <= q < |h|
  {
    match h[q]
    case Acted(i, _, _, _) => Saved(StepEdge(i, StepRunning)) in h[..q]
    case Reverted(j, _, _) =>
      Saved(StepEdge(j, StepSucceeded)) in h[..q] && Saved(StepEdge(j, StepCompensating)) in h[..q]
    case _ => true
  }

  ghost predicate WriteAhead(h: seq<Effect>) {
    forall q :: 0 <= q < |h| ==> Announced(h, q)
  }

  /** Each call received the data that the record prescribes. */
  ghost predicate Grounded(d: Definition, e: Effect, disk: Record)
    requires |disk.steps| == |d.steps|
  {
    match e
    case Acted(i, _, data, _) =>
      && i < |disk.steps| && disk.steps[i].status != StepPending && disk.status != Pending
      && (i > 0 ==> Passed(disk.steps[i - 1].status))
      && data == DataInto(disk, i)
    case Reverted(j, data, _) =>
      && j < |disk.steps| && UndoBegun(disk.steps[j].status) && d.steps[j].hasCompensate
      && data == disk.steps[j].output
      && disk.status != Pending && disk.status != Running
    case _ => true
  }

  ghost predicate CallsGrounded(d: Definition, h: seq<Effect>, disk: Record)
    requires |disk.steps| == |d.steps|
  {
    forall e :: e in h ==> Grounded(d, e, disk)
  }

  ghost predicate CallInvariant(d: Definition, s: System) {
    && |s.disk.steps| == |d.steps|
    && EdgesMatch(s.history, s.disk)
    && EdgesDistinct(s.history)
    && CallsGrounded(d, s.history, s.disk)
    && CallsOrdered(s.history)
    && WriteAhead(s.history)
  }

  // ---------- preservation ----------

  lemma EdgesMatchSave(h: seq<Effect>, a: Record, b: Record, e: Edge)
    requires EdgesMatch(h, a) && OneEdge(a, b, e)
    ensures EdgesMatch(h + [Saved(e)], b)
    ensures Saved(e) !in h
  {
    var h' := h + [Saved(e)];
    forall to
      ensures Saved(ExecEdge(to)) in h' <==> OnPath(to, b.status)
    {
      assert Saved(ExecEdge(to)) in h' <==> Saved(ExecEdge(to)) in h || Saved(ExecEdge(to)) == Saved(e);
    }
    forall i: nat, to
      ensures Saved(StepEdge(i, to)) in h' <==> i < |b.steps| && StepOnPath(to, b.steps[i].status)
    {
      assert Saved(StepEdge(i, to)) in h' <==> Saved(StepEdge(i, to)) in h || Saved(StepEdge(i, to)) == Saved(e);
      if i < |a.steps| && !(e.StepEdge? && e.i == i) {
        assert SameStep(a.steps[i], b.steps[i]);
      }
    }
  }

  lemma EdgesMatchOther(h: seq<Effect>, disk: Record, e: Effect)
    requires EdgesMatch(h, disk) && !e.Saved?
    ensures EdgesMatch(h + [e], disk)
  {
    forall x: Edge
      ensures Saved(x) in h + [e] <==> Saved(x) in h
    {
    }
  }

  lemma EdgesDistinctAppend(h: seq<Effect>, e: Effect)
    requires EdgesDistinct(h) && (e.Saved? ==> e !in h)
    ensures EdgesDistinct(h + [e])
  {
  }

  lemma GroundedLater(d: Definition, e: Effect, a: Record, b: Record)
    requires |a.steps| == |d.steps| && Later(a, b) && Grounded(d, e, a)
    ensures Grounded(d, e, b)
  {
    match e
    case Acted(i, _, _, _) =>
      assert LaterStep(a.steps[i], b.steps[i]);
      if i > 0 {
        assert LaterStep(a.steps[i - 1], b.steps[i - 1]);
      }
    case Reverted(j, _, _) =>
      assert LaterStep(a.steps[j], b.steps[j]);
    case _ =>
  }

  lemma CallsGroundedLater(d: Definition, h: seq<Effect>, a: Record, b: Record)
    requires |a.steps| == |d.steps| && Later(a, b) && CallsGrounded(d, h, a)
    ensures CallsGrounded(d, h, b)
  {
    forall e | e in h
      ensures Grounded(d, e, b)
    {
      GroundedLater(d, e, a, b);
    }
  }

  lemma WriteAheadAppend(h: seq<Effect>, e: Effect)
    requires WriteAhead(h) && Announced(h + [e], |h|)
    ensures WriteAhead(h + [e])
  {
    var h' := h + [e];
    forall q | 0 <= q < |h'|
      ensures Announced(h', q)
    {
      if q < |h| {
        assert h'[..q] == h[..q];
        assert Announced(h, q);
      }
    }
  }

  /** A new Action call is at the step that is running on disk, above all earlier calls. */
  lemma ActIsGrounded(d: Definition, s: System, answer: Answer, s': System)
    requires ShapeInvariant(d, s) && CallInvariant(d, s) && Next(d, s, Act(answer)) == Some(s')
    ensures var e := Acted(s.process.value.pc.i, s.process.value.pc.attempt, s.process.value.pc.data, answer);
            s'.history == s.history + [e] && Grounded(d, e, s.disk)
            && s.disk.steps[e.i].status == StepRunning && s.disk.status == Running
  {
    var p := s.process.value;
    assert SameStep(p.exec.steps[p.pc.i], s.disk.steps[p.pc.i]);
    if p.pc.i > 0 {
      assert SameStep(p.exec.steps[p.pc.i - 1], s.disk.steps[p.pc.i - 1]);
    }
  }

  lemma ActKeepsCalls(d: Definition, s: System, answer: Answer, s': System)
    requires ShapeInvariant(d, s) && CallInvariant(d, s) && Next(d, s, Act(answer)) == Some(s')
    ensures CallInvariant(d, s')
  {
    var p := s.process.value;
    var e := Acted(p.pc.i, p.pc.attempt, p.pc.data, answer);
    ActIsGrounded(d, s, answer, s');
    ActIsOrdered(d, s.history, s.disk, e);
    EdgesMatchOther(s.history, s.disk, e);
    EdgesDistinctAppend(s.history, e);
    assert s'.history[..|s.history|] == s.history;
    WriteAheadAppend(s.history, e);
  }

  lemma ActIsOrdered(d: Definition, h: seq<Effect>, disk: Record, e: Effect)
    requires Shape(d, disk) && CallsGrounded(d, h, disk) && CallsOrdered(h)
    requires e.Acted? && e.i < |disk.steps| && disk.steps[e.i].status == StepRunning && disk.status == Running
    ensures CallsOrdered(h + [e])
  {
    forall p | 0 <= p < |h| && (h[p].Acted? || h[p].Reverted?)
      ensures h[p].Acted? && h[p].i <= e.i
    {
      assert h[p] in h;
      assert Grounded(d, h[p], disk);
    }
  }

  lemma CompensateIsGrounded(d: Definition, s: System, outcome: Option<Error>, s': System)
    requires ShapeInvariant(d, s) && CallInvariant(d, s) && Next(d, s, Compensate(outcome)) == Some(s')
    ensures var p := s.process.value;
            var e := Reverted(p.pc.j, p.exec.steps[p.pc.j].output, outcome);
            s'.history == s.history + [e] && Grounded(d, e, s.disk)
            && s.disk.steps[e.j].status == StepCompensating && s.disk.status == Compensating
  {
    var p := s.process.value;
    assert SameStep(p.exec.steps[p.pc.j], s.disk.steps[p.pc.j]);
  }

  lemma CompensateKeepsCalls(d: Definition, s: System, outcome: Option<Error>, s': System)
    requires ShapeInvariant(d, s) && CallInvariant(d, s) && Next(d, s, Compensate(outcome)) == Some(s')
    ensures CallInvariant(d, s')
  {
    var p := s.process.value;
    var e := Reverted(p.pc.j, p.exec.steps[p.pc.j].output, outcome);
    CompensateIsGrounded(d, s, outcome, s');
    CompensateIsOrdered(d, s.history, s.disk, e);
    EdgesMatchOther(s.history, s.disk, e);
    EdgesDistinctAppend(s.history, e);
    assert s'.history[..|s.history|] == s.history;
    WriteAheadAppend(s.history, e);
  }

  lemma CompensateIsOrdered(d: Definition, h: seq<Effect>, disk: Record, e: Effect)
    requires Shape(d, disk) && CallsGrounded(d, h, disk) && CallsOrdered(h)
    requires e.Reverted? && e.j < |disk.steps|
    requires disk.steps[e.j].status == StepCompensating && disk.status == Compensating
    ensures CallsOrdered(h + [e])
  {
    forall p | 0 <= p < |h| && h[p].Reverted?
      ensures h[p].j >= e.j
    {
      assert h[p] in h;
      assert Grounded(d, h[p], disk);
      assert !Settled(d, disk.steps, e.j);
    }
  }

  lemma SaveKeepsCalls(d: Definition, s: System, s': System)
    requires ShapeInvariant(d, s) && CallInvariant(d, s) && Next(d, s, Save) == Some(s')
    ensures CallInvariant(d, s')
  {
    var e := s.process.value.stage.edge;
    NextTells(d, s, Save, s');
    SaveKeepsShape(d, s, s');
    OneEdgeIsLater(s.disk, s'.disk, e);
    EdgesMatchSave(s.history, s.disk, s'.disk, e);
    EdgesDistinctAppend(s.history, Saved(e));
    CallsGroundedLater(d, s.history, s.disk, s'.disk);
    WriteAheadAppend(s.history, Saved(e));
    QuietIsOrdered(s.history, Saved(e));
  }

  lemma QuietIsOrdered(h: seq<Effect>, e: Effect)
    requires CallsOrdered(h) && !e.Acted? && !e.Reverted?
    ensures CallsOrdered(h + [e])
  {
  }

  lemma QuietKeepsCalls(d: Definition, s: System, s': System, e: Effect)
    requires CallInvariant(d, s) && s'.disk == s.disk && s'.history == s.history + [e]
    requires !e.Acted? && !e.Reverted? && !e.Saved?
    ensures CallInvariant(d, s')
  {
    EdgesMatchOther(s.history, s.disk, e);
    EdgesDistinctAppend(s.history, e);
    WriteAheadAppend(s.history, e);
    QuietIsOrdered(s.history, e);
  }

  lemma NextKeepsCalls(d: Definition, s: System, l: Label, s': System)
    requires ShapeInvariant(d, s) && CallInvariant(d, s) && Next(d, s, l) == Some(s')
    ensures CallInvariant(d, s')
  {
    hide CallInvariant, ShapeInvariant, Working;
    if l.Act? {
      ActKeepsCalls(d, s, l.answer, s');
    } else if l.Compensate? {
      CompensateKeepsCalls(d, s, l.outcome, s');
    } else if l.Save? {
      SaveKeepsCalls(d, s, s');
    } else {
      NextTells(d, s, l, s');
      var told := Told(s, l);
      if told == [] {
        SameKeepsCalls(d, s, s');
      } else {
        QuietKeepsCalls(d, s, s', told[0]);
      }
    }
  }

  lemma SameKeepsCalls(d: Definition, s: System, s': System)
    requires CallInvariant(d, s) && s'.disk == s.disk && s'.history == s.history
    ensures CallInvariant(d, s')
  {
  }

  lemma CreatedHasCalls(d: Definition, id: string, input: Any, now: Time)
    ensures CallInvariant(d, Created(d, id, input, now))
  {
  }

  lemma {:induction false} ReplayKeepsCalls(d: Definition, s0: System, labels: seq<Label>, s: System)
    requires ShapeInvariant(d, s0) && CallInvariant(d, s0) && Replay(d, s0, labels) == Some(s)
    ensures CallInvariant(d, s)
  {
    if |labels| > 0 {
      var before := Replay(d, s0, labels[..|labels| - 1]).value;
      ReplayKeepsCalls(d, s0, labels[..|labels| - 1], before);
      ReplayKeepsShape(d, s0, labels[..|labels| - 1], before);
      NextKeepsCalls(d, before, labels[|labels| - 1], s);
    }
  }

  /**
   * Over a whole life: Action indices never go down, Compensate indices never go up, no Action
   * follows a Compensate, every call was announced by a saved status, a step is compensated
   * only after its success was saved, and no status change is saved twice.
   */
  lemma LivesAreOrdered(d: Definition, id: string, input: Any, now: Time, labels: seq<Label>, s: System)
    requires Lives(d, id, input, now, labels, s)
    ensures CallsOrdered(s.history)
    ensures WriteAhead(s.history)
    ensures EdgesDistinct(s.history)
    ensures EdgesMatch(s.history, s.disk)
    ensures |s.disk.steps| == |d.steps| && CallsGrounded(d, s.history, s.disk)
  {
    CreatedHasShape(d, id, input, now);
    CreatedHasCalls(d, id, input, now);
    ReplayKeepsCalls(d, Created(d, id, input, now), labels, s);
  }
}
