/**
 * Code in a world of fixed answers: an environment whose Actions and Compensates answer by operation
 * and data alone, and in which no context ends, makes every run of the code a faithful run of the
 * machine, so that crash transparency holds of the executions and recoveries themselves.
 */
module Worlds {
  import opened Values
  import opened Records
  import opened Protocol
  import opened Verdicts
  import opened LivedRecords
  import opened OperationKeys
  import opened Environments
  import opened MachineSteps
  import opened Transparency
  import opened Completion

  /** What a call of the Action of step `i` comes to; an answer past the step's own timeout is none. */
  function AnswerOf(fate: Fate, d: Definition, id: string, call: nat, i: nat, data: Any): Answer
    requires i < |d.steps|
  {
    if d.steps[i].timeout > 0 && fate.late(call) then Answer(Nil, Some(StepTimeout(d.steps[i].name)))
    else fate.act(call, OperationID(id, d.steps[i].name), data)
  }

  /** Whatever the call, the operations of this execution answer as they do in `w`; and no context ends. */
  ghost predicate AnswersAs(fate: Fate, d: Definition, id: string, w: World) {
    && (forall call: nat, i: nat, data: Any :: i < |d.steps| ==> AnswerOf(fate, d, id, call, i, data) == w.act(i, data))
    && (forall call: nat, j: nat, data: Any :: j < |d.steps| ==>
          fate.undo(call, CompensationOperationID(id, d.steps[j].name), data) == w.undo(j, data))
    && (forall look: nat :: fate.ends(look).None?)
  }

  /** In whatever world the environment answers as, the label is what happens in that world. */
  ghost predicate Befits(fate: Fate, d: Definition, id: string, s: System, l: Label) {
    forall w: World :: AnswersAs(fate, d, id, w) ==> Faithful(w, s, l)
  }

  ghost predicate Faithfully(fate: Fate, d: Definition, s0: System, labels: seq<Label>) {
    forall w: World :: AnswersAs(fate, d, s0.disk.id, w) ==> FaithfulRun(d, w, s0, labels)
  }

  lemma NothingIsFaithful(fate: Fate, d: Definition, s0: System)
    ensures Faithfully(fate, d, s0, [])
  {
  }

  lemma FaithfullySnoc(fate: Fate, d: Definition, s0: System, labels: seq<Label>, s: System, l: Label)
    requires Replay(d, s0, labels) == Some(s) && Faithfully(fate, d, s0, labels) && Befits(fate, d, s0.disk.id, s, l)
    ensures Faithfully(fate, d, s0, labels + [l])
  {
    forall w: World | AnswersAs(fate, d, s0.disk.id, w)
      ensures FaithfulRun(d, w, s0, labels + [l])
    {
      FaithfulSnoc(d, w, s0, labels, s, l);
    }
  }

  /** What no call and no context has a part in happens in every world. */
  lemma OwnWorkBefits(fate: Fate, d: Definition, id: string, s: System, l: Label)
    requires !l.ContextEnds? && !l.Act? && !l.Compensate?
    ensures Befits(fate, d, id, s, l)
  {
  }

  lemma ActBefits(fate: Fate, d: Definition, id: string, s: System, call: nat, answer: Answer)
    requires s.process.Some? && s.process.value.pc.Calling? && s.process.value.pc.i < |d.steps|
    requires answer == AnswerOf(fate, d, id, call, s.process.value.pc.i, s.process.value.pc.data)
    ensures Befits(fate, d, id, s, Act(answer))
  {
    hide AnswerOf;
  }

  lemma UndoBefits(fate: Fate, d: Definition, id: string, s: System, call: nat, outcome: Option<Error>)
    requires s.process.Some? && s.process.value.pc.Invoke?
    requires var p := s.process.value;
             p.pc.j < |d.steps| && p.pc.j < |p.exec.steps|
             && outcome == fate.undo(call, CompensationOperationID(id, d.steps[p.pc.j].name), p.exec.steps[p.pc.j].output)
    ensures Befits(fate, d, id, s, Label.Compensate(outcome))
  {
    hide CompensationOperationID;
  }

  /** Where a context was seen to end, there is no such world. */
  lemma EndBefits(fate: Fate, d: Definition, id: string, s: System, look: nat, l: Label)
    requires fate.ends(look).Some?
    ensures Befits(fate, d, id, s, l)
  {
  }

  // ---------- whole lives ----------

  ghost predicate FaithfulLife(d: Definition, w: World, l: Life) {
    FaithfulRun(d, w, Created(d, l.id, l.input, l.now), l.labels)
  }

  /** If the life was one in this world and the environment answers as this world, it still is. */
  ghost predicate KeepsFaith(fate: Fate, d: Definition, l: Life, l': Life) {
    l'.id == l.id && l'.input == l.input &&
    forall w: World :: AnswersAs(fate, d, l.id, w) && FaithfulLife(d, w, l) ==> FaithfulLife(d, w, l')
  }

  lemma {:induction false} FaithfulConcat(
      d: Definition, w: World, s0: System, before: seq<Label>, s: System, labels: seq<Label>)
    requires Replay(d, s0, before) == Some(s) && FaithfulRun(d, w, s0, before) && FaithfulRun(d, w, s, labels)
    requires Replay(d, s, labels).Some?
    ensures FaithfulRun(d, w, s0, before + labels)
  {
    if |labels| == 0 {
      assert before + labels == before;
    } else {
      hide Next, Faithful;
      var front, l, mid := ReplayFront(d, s, labels, Replay(d, s, labels).value);
      hide Replay;
      FaithfulConcat(d, w, s0, before, s, front);
      ReplayConcat(d, s0, before, front);
      FaithfulSnoc(d, w, s0, before + front, mid, l);
      assert before + labels == before + front + [l];
    }
  }

  /** A run of the code from the record a life left behind carries the life on in the same world. */
  lemma OnwardKeepsFaith(fate: Fate, d: Definition, l: Life, labels: seq<Label>, end: System)
    requires Lives(d, l.id, l.input, l.now, l.labels, l.end) && l.end.disk.id == l.id
    requires var start := Reading(l.end.disk, l.end.history + [Resumed]);
             Replay(d, start, labels) == Some(end) && Faithfully(fate, d, start, labels)
    ensures KeepsFaith(fate, d, l, Onward(l, labels, end))
  {
    var s0, start := Created(d, l.id, l.input, l.now), Reading(l.end.disk, l.end.history + [Resumed]);
    forall w: World | AnswersAs(fate, d, l.id, w) && FaithfulLife(d, w, l)
      ensures FaithfulLife(d, w, Onward(l, labels, end))
    {
      var taken := TakenOver(d, w, s0, l.labels, l.end);
      assert taken == start;
      hide Replay, FaithfulRun, AnswersAs, Handover;
      FaithfulConcat(d, w, s0, l.labels + Handover(l.end), start, labels);
    }
  }

  lemma KeepsFaithTwice(fate: Fate, d: Definition, l: Life, l': Life, l'': Life)
    requires KeepsFaith(fate, d, l, l') && KeepsFaith(fate, d, l', l'')
    ensures KeepsFaith(fate, d, l, l'')
  {
    hide AnswersAs, FaithfulLife;
  }

  /** A life in this world that is over ended as the reference does. */
  lemma FaithfulEnd(d: Definition, w: World, l: Life)
    requires Lives(d, l.id, l.input, l.now, l.labels, l.end) && FaithfulLife(d, w, l) && l.end.disk.status.IsTerminal()
    ensures EndOf(l.end.disk) == Reference(d, w, l.input)
  {
    CrashesAreTransparent(d, w, l.id, l.input, l.now, l.labels, l.end);
  }

  /** The life of an execution in whatever world the environment answers as, up to the end it has there. */
  ghost predicate LedAsIn(fate: Fate, d: Definition, l: Life) {
    forall w: World :: AnswersAs(fate, d, l.id, w) ==>
      FaithfulLife(d, w, l) && (l.end.disk.status.IsTerminal() ==> EndOf(l.end.disk) == Reference(d, w, l.input))
  }

  lemma RunIsLedAsIn(fate: Fate, d: Definition, l: Life)
    requires Lives(d, l.id, l.input, l.now, l.labels, l.end)
    requires Faithfully(fate, d, Created(d, l.id, l.input, l.now), l.labels)
    ensures LedAsIn(fate, d, l)
  {
    forall w: World | AnswersAs(fate, d, l.id, w)
      ensures FaithfulLife(d, w, l) && (l.end.disk.status.IsTerminal() ==> EndOf(l.end.disk) == Reference(d, w, l.input))
    {
      hide AnswersAs, FaithfulRun, Reference, EndOf;
      if l.end.disk.status.IsTerminal() {
        FaithfulEnd(d, w, l);
      }
    }
  }
}
