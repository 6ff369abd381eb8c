/**
 * Every execution can be finished: from wherever its life got to, one process that nothing disturbs
 * brings it to its end. In a world of fixed answers that end is the reference's, and it shows that
 * the bound on saves is reached for every number of steps.
 */
module Completion {
  import opened Values
  import opened States
  import opened Retry
  import opened Records
  import opened Protocol
  import opened RecordShape
  import opened Progress
  import opened Termination
  import opened Transparency
  import opened Verdicts
  import opened MachineSteps

  /** The answer that the world gives the process, if it is about to call. */
  function AnswerTo(w: World, p: Process): Answer {
    if p.pc.Calling? then w.act(p.pc.i, p.pc.data) else Answer(Nil, None)
  }

  function OutcomeFor(w: World, p: Process): Option<Error> {
    if p.pc.Invoke? && p.pc.j < |p.exec.steps| then w.undo(p.pc.j, p.exec.steps[p.pc.j].output) else None
  }

  /** The next undisturbed move, with the answer that the world gives. */
  lemma FaithfulMove(d: Definition, w: World, s: System) returns (l: Label)
    requires ShapeInvariant(d, s) && s.process.Some?
    requires !(s.process.value.pc.Done? && s.process.value.stage.Idle?)
    ensures Moves(l) && Next(d, s, l).Some? && Faithful(w, s, l)
  {
    var p := s.process.value;
    if p.stage.Saving? {
      l := Save;
    } else if p.stage.Publishing? {
      l := Publish;
    } else {
      hide Next, ShapeInvariant;
      l := UndisturbedMove(d, s, 0, AnswerTo(w, p), OutcomeFor(w, p));
    }
  }

  lemma FaithfulSnoc(d: Definition, w: World, s0: System, labels: seq<Label>, s: System, l: Label)
    requires Replay(d, s0, labels) == Some(s) && FaithfulRun(d, w, s0, labels) && Faithful(w, s, l)
    ensures FaithfulRun(d, w, s0, labels + [l])
  {
    assert (labels + [l])[..|labels + [l]| - 1] == labels;
    hide Replay, Faithful;
  }

  /** A faithful run got here. */
  ghost predicate Reached(d: Definition, w: World, s0: System, labels: seq<Label>, s: System) {
    ShapeInvariant(d, s0) && Replay(d, s0, labels) == Some(s) && FaithfulRun(d, w, s0, labels)
  }

  /** A process is at work, this far from creation and this far from its next status change. */
  ghost predicate Underway(d: Definition, s: System, depth: nat, local: nat) {
    && s.process.Some? && !HasStopped(s.process.value)
    && depth == Depth(s.process.value.exec) <= Ceiling(d) && local == Local(d, s.process.value)
  }

  lemma ReachedIsUnderway(d: Definition, w: World, s0: System, labels: seq<Label>, s: System)
    requires Reached(d, w, s0, labels, s) && s.process.Some? && !HasStopped(s.process.value)
    ensures Depth(s.process.value.exec) <= Ceiling(d) && Local(d, s.process.value) >= 0
  {
    hide Next, ShapeInvariant, FaithfulRun, HasStopped, Depth, Local, Ceiling;
    ReplayKeepsShape(d, s0, labels, s);
    Room(d, s);
  }

  lemma ReachedEnds(d: Definition, w: World, s0: System, labels: seq<Label>, s: System)
    requires Reached(d, w, s0, labels, s) && s.process.Some? && !HasStopped(s.process.value)
    requires s.process.value.pc.Done? && s.process.value.stage.Idle?
    ensures s.disk.status.IsTerminal()
  {
    ReplayKeepsShape(d, s0, labels, s);
    hide Replay, FaithfulRun;
    ReturnedIsTerminal(d, s);
  }

  /** One move further. */
  lemma OneStepOut(d: Definition, w: World, s0: System, labels: seq<Label>, s: System) returns (l: Label, s': System)
    requires Reached(d, w, s0, labels, s) && s.process.Some? && !HasStopped(s.process.value)
    requires !(s.process.value.pc.Done? && s.process.value.stage.Idle?)
    ensures Undisturbed(l) && Reached(d, w, s0, labels + [l], s')
    ensures s'.process.Some? && !HasStopped(s'.process.value)
    ensures Shrinks(d, s.process.value, s'.process.value)
  {
    hide Next, ShapeInvariant, FaithfulRun, Faithful, Replay, Shrinks, HasStopped;
    ReplayKeepsShape(d, s0, labels, s);
    l := FaithfulMove(d, w, s);
    s' := Next(d, s, l).value;
    ReplaySnoc(d, s0, labels, l);
    FaithfulSnoc(d, w, s0, labels, s, l);
    MoveShrinks(d, s, l, s');
  }

  /** One process that nothing disturbs brings a run to its end. */
  lemma {:induction false} RunOut(
      d: Definition, w: World, s0: System, labels: seq<Label>, s: System, depth: nat, local: nat)
    returns (more: seq<Label>, end: System)
    requires Reached(d, w, s0, labels, s) && Underway(d, s, depth, local)
    ensures Reached(d, w, s0, labels + more, end)
    ensures (forall l :: l in more ==> Undisturbed(l)) && end.disk.status.IsTerminal()
    decreases Ceiling(d) - depth, local
  {
    hide Reached, Undisturbed, Depth, Local, Ceiling, HasStopped;
    if s.process.value.pc.Done? && s.process.value.stage.Idle? {
      ReachedEnds(d, w, s0, labels, s);
      more, end := [], s;
      assert labels + more == labels;
    } else {
      var l, s' := OneStepOut(d, w, s0, labels, s);
      ReachedIsUnderway(d, w, s0, labels + [l], s');
      var rest;
      rest, end := RunOut(d, w, s0, labels + [l], s', Depth(s'.process.value.exec), Local(d, s'.process.value));
      hide Underway, Shrinks;
      more := [l] + rest;
      assert labels + more == labels + [l] + rest;
    }
  }

  /**
   * Whatever befell an execution so far, a new process that nothing disturbs brings it to the end
   * that the reference computes.
   */
  lemma EveryLifeCanBeFinished(
      d: Definition, w: World, id: string, input: Any, now: Time, labels: seq<Label>, s: System)
    returns (more: seq<Label>, end: System)
    requires Lives(d, id, input, now, labels, s) && FaithfulRun(d, w, Created(d, id, input, now), labels)
    ensures Lives(d, id, input, now, labels + Handover(s) + more, end)
    ensures (forall l :: l in more ==> Undisturbed(l))
    ensures end.disk.status.IsTerminal() && EndOf(end.disk) == Reference(d, w, input)
  {
    var s0 := Created(d, id, input, now);
    CreatedHasShape(d, id, input, now);
    var s1 := TakenOver(d, w, s0, labels, s);
    var rest;
    ReachedIsUnderway(d, w, s0, labels + Handover(s), s1);
    rest, end := RunOut(d, w, s0, labels + Handover(s), s1, Depth(s1.process.value.exec), Local(d, s1.process.value));
    more := rest;
    hide Replay, FaithfulRun, Reference;
    CrashesAreTransparent(d, w, id, input, now, labels + Handover(s) + more, end);
  }

  lemma TakenOver(d: Definition, w: World, s0: System, labels: seq<Label>, s: System) returns (s': System)
    requires Replay(d, s0, labels) == Some(s) && FaithfulRun(d, w, s0, labels)
    ensures Replay(d, s0, labels + Handover(s)) == Some(s') && FaithfulRun(d, w, s0, labels + Handover(s))
    ensures s' == Reading(s.disk, s.history + [Resumed])
  {
    var s1, front := s, labels;
    if s.process.Some? {
      ReplaySnoc(d, s0, labels, Crash);
      FaithfulSnoc(d, w, s0, labels, s, Crash);
      s1, front := Next(d, s, Crash).value, labels + [Crash];
    }
    ReplaySnoc(d, s0, front, Resume);
    FaithfulSnoc(d, w, s0, front, s1, Resume);
    s' := Next(d, s1, Resume).value;
    hide Replay, FaithfulRun;
    assert labels + Handover(s) == front + [Resume];
  }

  // ---------- the bound on saves is reached ----------

  /** A saga of `n` steps that can all be compensated. */
  function Chain(n: nat): Definition {
    Definition("chain", seq(n, i requires 0 <= i < n => StepDefinition(seq(i + 1, _ => 's'), true, None, 0)), NoRetryPolicy, 0, 10)
  }

  /** Every step succeeds but the last, and every compensation does. */
  function LastFails(n: nat): World {
    World((i: nat, data: Any) => if i + 1 < n then Answer(data, None) else Answer(Nil, Some(Fault(0))),
          (j: nat, data: Any) => None)
  }

  lemma {:induction false} UniformDepth(steps: seq<Step>, rank: nat)
    requires forall i :: 0 <= i < |steps| ==> StepRank(steps[i].status) == rank
    ensures StepDepth(steps) == rank * |steps|
  {
    if |steps| > 0 {
      UniformDepth(steps[..|steps| - 1], rank);
      assert rank * |steps| == rank * (|steps| - 1) + rank;
    }
  }

  lemma LastIsBad(n: nat, input: Any)
    requires n > 0
    ensures FirstBad(LastFails(n), input, n) == n - 1
  {
    var w := LastFails(n);
    assert forall i: nat :: Works(w, input, i) <==> i + 1 < n;
  }

  lemma ReferenceSteps(n: nat, input: Any, r: Record, i: nat)
    requires i < n == |r.steps| && EndOf(r) == Reference(Chain(n), LastFails(n), input)
    ensures r.steps[i].status == if i < n - 1 then StepCompensated else StepFailed
    ensures r.status == if n == 1 then Failed else Compensated
  {
    var d, w := Chain(n), LastFails(n);
    LastIsBad(n, input);
    assert !UndoFails(d, w, input, n - 1);
    assert EndOf(r).steps[i] == StepReference(d, w, input, n - 1, i);
    assert EndOf(r).steps[i].status == r.steps[i].status;
  }

  lemma ReferenceDepth(n: nat, input: Any, r: Record)
    requires |r.steps| == n && EndOf(r) == Reference(Chain(n), LastFails(n), input)
    ensures 1 + Depth(r) == MostSaves(n)
  {
    if n > 0 {
      hide Reference, EndOf, Chain, LastFails;
      forall i: nat | i < n
        ensures r.steps[i].status == if i < n - 1 then StepCompensated else StepFailed
        ensures r.status == if n == 1 then Failed else Compensated
      {
        ReferenceSteps(n, input, r, i);
      }
      ReferenceSteps(n, input, r, 0);
      UniformDepth(r.steps[..n - 1], 4);
    } else {
      assert FirstBad(LastFails(n), input, 0) == 0;
    }
  }

  /** For every number of steps some execution is saved exactly as often as the bound allows. */
  lemma BoundIsReached(n: nat, id: string, input: Any, now: Time) returns (labels: seq<Label>, s: System)
    ensures Lives(Chain(n), id, input, now, labels, s)
    ensures |Chain(n).steps| == n && 1 + Saves(s.history) == MostSaves(n)
  {
    var d, w, s0 := Chain(n), LastFails(n), Created(Chain(n), id, input, now);
    CreatedHasShape(d, id, input, now);
    assert Replay(d, s0, []) == Some(s0) && FaithfulRun(d, w, s0, []);
    ReachedIsUnderway(d, w, s0, [], s0);
    labels, s := RunOut(d, w, s0, [], s0, Depth(s0.disk), Local(d, s0.process.value));
    assert [] + labels == labels;
    hide Replay, FaithfulRun, Reference, Chain, LastFails;
    CrashesAreTransparent(d, w, id, input, now, labels, s);
    LifeSavesAreBounded(d, id, input, now, labels, s);
    LivesHaveShape(d, id, input, now, labels, s);
    ChainLength(n);
    ReferenceDepth(n, input, s.disk);
  }

  lemma ChainLength(n: nat)
    ensures |Chain(n).steps| == n
  {
  }
}
