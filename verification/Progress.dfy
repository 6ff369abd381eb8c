/** Saved records only ever move forward, and every save moves them by exactly one unit. */
module Progress {
  import opened Values
  import opened States
  import opened Records
  import opened Protocol
  import opened RecordShape

  ghost predicate LaterStep(a: Step, b: Step) {
    && StepLeads(a.status, b.status)
    && (Ended(a.status) ==> a.output == b.output && a.attempts == b.attempts)
  }

  /** `b` can be the record of the same execution at the same or a later time than `a`. */
  ghost predicate Later(a: Record, b: Record) {
    && SameIdentity(a, b)
    && Leads(a.status, b.status)
    && forall i :: 0 <= i < |a.steps| ==> LaterStep(a.steps[i], b.steps[i])
  }

  lemma LaterIsReflexive(a: Record)
    ensures Later(a, a)
  {
  }

  lemma LaterIsTransitive(a: Record, b: Record, c: Record)
    requires Later(a, b) && Later(b, c)
    ensures Later(a, c)
  {
    forall i | 0 <= i < |a.steps|
      ensures LaterStep(a.steps[i], c.steps[i])
    {
      assert LaterStep(a.steps[i], b.steps[i]) && LaterStep(b.steps[i], c.steps[i]);
    }
  }

  lemma OneEdgeIsLater(a: Record, b: Record, e: Edge)
    requires OneEdge(a, b, e)
    ensures Later(a, b)
  {
    forall i | 0 <= i < |a.steps|
      ensures LaterStep(a.steps[i], b.steps[i])
    {
      if e.StepEdge? && e.i == i {
      } else {
        assert SameStep(a.steps[i], b.steps[i]);
      }
    }
  }

  lemma {:induction false} SameDepth(a: seq<Step>, b: seq<Step>)
    requires |a| == |b| && forall i :: 0 <= i < |a| ==> a[i].status == b[i].status
    ensures StepDepth(a) == StepDepth(b)
  {
    if |a| > 0 {
      SameDepth(a[..|a| - 1], b[..|b| - 1]);
    }
  }

  lemma {:induction false} LaterIsDeeper(a: seq<Step>, b: seq<Step>)
    requires |a| == |b| && forall i :: 0 <= i < |a| ==> StepLeads(a[i].status, b[i].status)
    ensures StepDepth(a) <= StepDepth(b)
    ensures StepDepth(a) == StepDepth(b) ==> forall i :: 0 <= i < |a| ==> a[i].status == b[i].status
  {
    if |a| > 0 {
      LaterIsDeeper(a[..|a| - 1], b[..|b| - 1]);
      assert forall i :: 0 <= i < |a| - 1 ==> a[..|a| - 1][i] == a[i] && b[..|b| - 1][i] == b[i];
    }
  }

  lemma ExecEdgeIsOneUnit(a: Record, b: Record, to: Status)
    requires OneEdge(a, b, ExecEdge(to))
    ensures Depth(b) == Depth(a) + 1
  {
    forall i | 0 <= i < |a.steps|
      ensures a.steps[i].status == b.steps[i].status
    {
      assert SameStep(a.steps[i], b.steps[i]);
    }
    hide SameIdentity, SameStep;
    SameDepth(a.steps, b.steps);
  }

  lemma StepEdgeIsOneUnit(a: Record, b: Record, k: nat, to: StepStatus)
    requires OneEdge(a, b, StepEdge(k, to))
    ensures Depth(b) == Depth(a) + 1
  {
    var c := a.steps[k := a.steps[k].(status := to)];
    forall i | 0 <= i < |c|
      ensures c[i].status == b.steps[i].status
    {
      if i != k {
        assert SameStep(a.steps[i], b.steps[i]);
      }
    }
    hide SameIdentity, SameStep;
    SameDepth(c, b.steps);
    StepDepthUpdate(a.steps, k, a.steps[k].(status := to));
  }

  /** The transition tables are graded: one edge is one unit of depth. */
  lemma OneEdgeIsOneUnit(a: Record, b: Record, e: Edge)
    requires OneEdge(a, b, e)
    ensures Depth(b) == Depth(a) + 1
  {
    if e.ExecEdge? {
      ExecEdgeIsOneUnit(a, b, e.to);
    } else {
      StepEdgeIsOneUnit(a, b, e.i, e.step);
    }
  }

  // ---------- saves ----------

  function Saves(history: seq<Effect>): nat {
    if |history| == 0 then 0
    else Saves(history[..|history| - 1]) + if history[|history| - 1].Saved? then 1 else 0
  }

  lemma SavesAppend(history: seq<Effect>, e: Effect)
    ensures Saves(history + [e]) == Saves(history) + if e.Saved? then 1 else 0
  {
    assert (history + [e])[..|history + [e]| - 1] == history;
  }

  /** What a label appends to the history. */
  function Told(s: System, l: Label): seq<Effect> {
    match l
    case Resume => [Resumed]
    case Work(_) =>
      if s.process.Some? && s.process.value.pc.Abort? then [Aborted(s.process.value.pc.i)] else []
    case Save =>
      if s.process.Some? && s.process.value.stage.Saving? then [Saved(s.process.value.stage.edge)] else []
    case Publish =>
      if s.process.Some? && s.process.value.stage.Publishing? && EventOf(s.process.value.stage.edge).Some?
      then [Published(s.process.value.stage.edge)] else []
    case Act(answer) =>
      if s.process.Some? && s.process.value.pc.Calling?
      then [Acted(s.process.value.pc.i, s.process.value.pc.attempt, s.process.value.pc.data, answer)] else []
    case Compensate(outcome) =>
      if s.process.Some? && s.process.value.pc.Invoke? && s.process.value.pc.j < |s.process.value.exec.steps|
      then [Reverted(s.process.value.pc.j, s.process.value.exec.steps[s.process.value.pc.j].output, outcome)]
      else []
    case _ => []
  }

  lemma NextTells(d: Definition, s: System, l: Label, s': System)
    requires Next(d, s, l) == Some(s')
    ensures s'.history == s.history + Told(s, l)
    ensures l.Save? ==> s.process.Some? && s.process.value.stage.Saving? && s'.disk == s.process.value.exec
    ensures !l.Save? ==> s'.disk == s.disk
  {
    hide Working;
  }

  /** Any run from a sound system is later than where it began, by as many units as it saved. */
  lemma {:induction false} RunsOnlyAdvance(d: Definition, s0: System, labels: seq<Label>, s: System)
    requires ShapeInvariant(d, s0) && Replay(d, s0, labels) == Some(s)
    ensures Later(s0.disk, s.disk)
    ensures Saves(s.history) - Saves(s0.history) == Depth(s.disk) - Depth(s0.disk)
  {
    if |labels| == 0 {
      LaterIsReflexive(s.disk);
    } else {
      var before := Replay(d, s0, labels[..|labels| - 1]).value;
      var l := labels[|labels| - 1];
      RunsOnlyAdvance(d, s0, labels[..|labels| - 1], before);
      ReplayKeepsShape(d, s0, labels[..|labels| - 1], before);
      OneStepAdvances(d, before, l, s);
      LaterIsTransitive(s0.disk, before.disk, s.disk);
    }
  }

  lemma OneStepAdvances(d: Definition, s: System, l: Label, s': System)
    requires ShapeInvariant(d, s) && Next(d, s, l) == Some(s')
    ensures Later(s.disk, s'.disk)
    ensures Saves(s'.history) - Saves(s.history) == Depth(s'.disk) - Depth(s.disk)
  {
    NextTells(d, s, l, s');
    if l.Save? {
      SaveKeepsShape(d, s, s');
      OneEdgeIsLater(s.disk, s'.disk, s.process.value.stage.edge);
      OneEdgeIsOneUnit(s.disk, s'.disk, s.process.value.stage.edge);
    } else {
      LaterIsReflexive(s.disk);
    }
    if |Told(s, l)| == 1 {
      SavesAppend(s.history, Told(s, l)[0]);
      assert Told(s, l) == [Told(s, l)[0]];
    } else {
      assert s'.history == s.history;
    }
  }

  lemma {:induction false} FreshDepth(d: Definition, steps: seq<Step>)
    requires forall i :: 0 <= i < |steps| ==> steps[i].status == StepPending
    ensures StepDepth(steps) == 0
  {
    if |steps| > 0 {
      FreshDepth(d, steps[..|steps| - 1]);
    }
  }

  lemma {:induction false} DepthBound(steps: seq<Step>, top: nat)
    requires forall i :: 0 <= i < |steps| ==> StepRank(steps[i].status) <= top
    ensures StepDepth(steps) <= top * |steps|
  {
    if |steps| > 0 {
      DepthBound(steps[..|steps| - 1], top);
      assert top * |steps| == top * (|steps| - 1) + top;
    }
  }

  /** The most saves an execution of `n` steps can see, its creation included. */
  function MostSaves(n: nat): nat {
    if n == 0 then 3 else if n == 1 then 5 else 4 * n + 2
  }

  lemma ShapeBoundsDepth(d: Definition, r: Record)
    requires Shape(d, r)
    ensures 1 + Depth(r) <= MostSaves(|d.steps|)
  {
    var n := |r.steps|;
    if r.status.Compensating? || r.status.Compensated? || r.status.CompensationFailed? {
      var below := r.steps[..n - 1];
      DepthBound(below, 4);
      assert StepDepth(r.steps) == StepDepth(below) + StepRank(r.steps[n - 1].status);
    } else {
      assert forall i :: 0 <= i < n ==> StepRank(r.steps[i].status) <= 2;
      DepthBound(r.steps, 2);
    }
  }

  /**
   * Over its whole life, whatever crashes and failed saves hit it, an execution of n steps is
   * saved successfully at most 4n+2 times (5 times if n = 1, where nothing can be rolled back, and
   * 3 if n = 0), the creating save included; and the number of saves after creation is exactly
   * the depth of the record on disk.
   */
  lemma LifeSavesAreBounded(d: Definition, id: string, input: Any, now: Time, labels: seq<Label>, s: System)
    requires Lives(d, id, input, now, labels, s)
    ensures Saves(s.history) == Depth(s.disk)
    ensures 1 + Saves(s.history) <= MostSaves(|d.steps|)
  {
    var s0 := Created(d, id, input, now);
    CreatedHasShape(d, id, input, now);
    RunsOnlyAdvance(d, s0, labels, s);
    FreshDepth(d, s0.disk.steps);
    LivesHaveShape(d, id, input, now, labels, s);
    ShapeBoundsDepth(d, s.disk);
  }

  /** A terminal record is never saved over. */
  lemma TerminalIsFinal(d: Definition, s0: System, labels: seq<Label>, s: System)
    requires ShapeInvariant(d, s0) && s0.disk.status.IsTerminal() && Replay(d, s0, labels) == Some(s)
    ensures s.disk == s0.disk
  {
    if |labels| > 0 {
      var before := Replay(d, s0, labels[..|labels| - 1]).value;
      var l := labels[|labels| - 1];
      TerminalIsFinal(d, s0, labels[..|labels| - 1], before);
      ReplayKeepsShape(d, s0, labels[..|labels| - 1], before);
      NextTells(d, before, l, s);
      TerminalHasNoSave(d, before);
    }
  }

  lemma TerminalHasNoSave(d: Definition, s: System)
    requires ShapeInvariant(d, s) && s.disk.status.IsTerminal()
    ensures Next(d, s, Save).None?
  {
  }

  /**
   * A process that works from an earlier record can save a legal next record over the current
   * one exactly when the two have the same statuses: any staleness at all breaks the path.
   */
  lemma StaleSaveIsLegalIffFresh(snapshot: Record, current: Record, next: Record, e: Edge)
    requires Later(snapshot, current) && OneEdge(snapshot, next, e)
    ensures (exists e' :: OneEdge(current, next, e')) <==> Same(snapshot, current)
  {
    if e' :| OneEdge(current, next, e') {
      OneEdgeIsOneUnit(snapshot, next, e);
      OneEdgeIsOneUnit(current, next, e');
      LaterIsDeeper(snapshot.steps, current.steps);
      forall i | 0 <= i < |snapshot.steps|
        ensures SameStep(snapshot.steps[i], current.steps[i])
      {
        assert LaterStep(snapshot.steps[i], current.steps[i]);
      }
    }
    if Same(snapshot, current) {
      forall i | 0 <= i < |current.steps| && !(e.StepEdge? && e.i == i)
        ensures SameStep(current.steps[i], next.steps[i])
      {
        assert SameStep(snapshot.steps[i], current.steps[i]) && SameStep(snapshot.steps[i], next.steps[i]);
      }
      if e.StepEdge? {
        assert SameStep(snapshot.steps[e.i], current.steps[e.i]);
      }
      assert OneEdge(current, next, e);
    }
  }
}
