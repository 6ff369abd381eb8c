/** How saved records account for the calls that were really made. */
module Accounts {
  import opened Values
  import opened States
  import opened Retry
  import opened Records
  import opened Protocol
  import opened RecordShape
  import opened Progress
  import opened Bookkeeping
  import opened History

  // ---------- attempts ----------

  /**
   * The Action calls of one step: not yet saved, credited to the saved attempt count, and lost
   * with a process that went away before it saved an outcome.
   */
  datatype Tally = Tally(open: nat, credited: nat, lost: nat)

  predicate Settles(e: Edge, i: nat) {
    e == StepEdge(i, StepSucceeded) || e == StepEdge(i, StepFailed)
  }

  function TallyAfter(t: Tally, e: Effect, i: nat): Tally {
    if e.Acted? && e.i == i then t.(open := t.open + 1)
    else if e.Saved? && Settles(e.edge, i) then Tally(0, t.open, t.lost)
    else if e.Resumed? then Tally(0, t.credited, t.lost + t.open)
    else t
  }

  function TallyOf(h: seq<Effect>, i: nat): Tally {
    if |h| == 0 then Tally(0, 0, 0)
    else TallyAfter(TallyOf(h[..|h| - 1], i), h[|h| - 1], i)
  }

  /** How often the Action of step `i` was called. */
  function Calls(h: seq<Effect>, i: nat): nat {
    if |h| == 0 then 0
    else
      var e := h[|h| - 1];
      Calls(h[..|h| - 1], i) + if e.Acted? && e.i == i then 1 else 0
  }

  /** The disk knows the credited calls, a live process also the open ones. */
  ghost predicate Accounted(s: System, i: nat)
    requires i < |s.disk.steps|
  {
    var t := TallyOf(s.history, i);
    && s.disk.steps[i].attempts == t.credited
    && (s.process.Some? && !HasStopped(s.process.value) && i < |s.process.value.exec.steps| ==>
          s.process.value.exec.steps[i].attempts == t.credited + t.open)
    && Calls(s.history, i) == t.credited + t.open + t.lost
  }

  ghost predicate AttemptInvariant(s: System) {
    forall i: nat :: i < |s.disk.steps| ==> Accounted(s, i)
  }

  lemma TallyAppend(h: seq<Effect>, e: Effect, i: nat)
    ensures TallyOf(h + [e], i) == TallyAfter(TallyOf(h, i), e, i)
    ensures Calls(h + [e], i) == Calls(h, i) + if e.Acted? && e.i == i then 1 else 0
  {
    assert (h + [e])[..|h + [e]| - 1] == h;
  }

  ghost predicate SameAttempts(a: Record, b: Record) {
    |a.steps| == |b.steps| && forall i :: 0 <= i < |a.steps| ==> a.steps[i].attempts == b.steps[i].attempts
  }

  lemma WorkingKeepsAttempts(d: Definition, p: Process, now: Time)
    ensures Working(d, p, now).Some? ==> SameAttempts(p.exec, Working(d, p, now).value.exec)
    ensures Working(d, p, now).Some? ==> !HasStopped(p)
  {
    hide FromEntry, FromScan, FromLoop, FromTry, FromJudging, FromAbort, FromUndo, FromUndone;
    if InRange(d, p) {
      RestKeepsAttempts(d, p, now);
      StepsKeepAttempts(d, p, now);
    }
  }

  lemma RestKeepsAttempts(d: Definition, p: Process, now: Time)
    requires InRange(d, p)
    ensures p.pc.Entry? ==> SameAttempts(p.exec, FromEntry(p, now).exec)
    ensures p.pc.Scan? ==> SameAttempts(p.exec, FromScan(p).exec)
    ensures p.pc.Abort? ==> SameAttempts(p.exec, FromAbort(p, now).exec)
  {
    hide AnySucceeded;
  }

  lemma StepsKeepAttempts(d: Definition, p: Process, now: Time)
    requires InRange(d, p)
    ensures p.pc.Loop? ==> SameAttempts(p.exec, FromLoop(d, p, now).exec)
    ensures p.pc.Try? ==> SameAttempts(p.exec, FromTry(p, now).exec)
    ensures p.pc.Judging? ==> SameAttempts(p.exec, FromJudging(d, p, now).exec)
    ensures p.pc.Undo? ==> SameAttempts(p.exec, FromUndo(d, p, now).exec)
    ensures p.pc.Undone? ==> SameAttempts(p.exec, FromUndone(p, now).exec)
  {
    hide AnyCompensationFailed, MaxAttempts, IsNonRetryable;
  }

  lemma EdgeAccounts(a: Record, b: Record, e: Edge, t: Tally, i: nat, tries: nat)
    requires OneEdge(a, b, e) && i < |a.steps|
    requires TidyStep(tries, a.steps[i]) && TidyStep(tries, b.steps[i])
    requires a.steps[i].attempts == t.credited && b.steps[i].attempts == t.credited + t.open
    ensures var t' := TallyAfter(t, Saved(e), i);
            b.steps[i].attempts == t'.credited && t'.open == 0 && t'.lost == t.lost
            && t'.credited + t'.open + t'.lost == t.credited + t.open + t.lost
  {
    if !(e.StepEdge? && e.i == i) {
      assert SameStep(a.steps[i], b.steps[i]);
    }
  }

  lemma BothAreTidy(d: Definition, s: System, i: nat)
    requires TidyInvariant(d, s) && i < |s.disk.steps| && s.process.Some? && s.process.value.stage.Saving?
    ensures i < |d.steps| && TidyStep(Tries(d, d.steps[i]), s.disk.steps[i])
    ensures !HasStopped(s.process.value) ==>
              i < |s.process.value.exec.steps| && TidyStep(Tries(d, d.steps[i]), s.process.value.exec.steps[i])
  {
    hide TidyOutput, Stamped, TidyStep;
  }

  lemma SaveAccounts(d: Definition, s: System, s': System, i: nat)
    requires ShapeInvariant(d, s) && TidyInvariant(d, s) && i < |s.disk.steps|
    requires Accounted(s, i) && Next(d, s, Save) == Some(s')
    ensures i < |s'.disk.steps| && Accounted(s', i)
  {
    hide Working, ShapeInvariant, TidyInvariant, TidyStep, OneEdge, Tries;
    var p := s.process.value;
    SaveKeepsShape(d, s, s');
    BothAreTidy(d, s, i);
    TallyAppend(s.history, Saved(p.stage.edge), i);
    EdgeAccounts(s.disk, p.exec, p.stage.edge, TallyOf(s.history, i), i, Tries(d, d.steps[i]));
  }

  lemma ActAccounts(d: Definition, s: System, answer: Answer, s': System, i: nat)
    requires i < |s.disk.steps| && Accounted(s, i) && Next(d, s, Act(answer)) == Some(s')
    ensures Accounted(s', i)
  {
    var p := s.process.value;
    TallyAppend(s.history, Acted(p.pc.i, p.pc.attempt, p.pc.data, answer), i);
  }

  lemma ResumeAccounts(d: Definition, s: System, s': System, i: nat)
    requires i < |s.disk.steps| && Accounted(s, i) && Next(d, s, Resume) == Some(s')
    ensures Accounted(s', i)
  {
    TallyAppend(s.history, Resumed, i);
  }

  /** A label that changes neither the disk nor any attempt count, and calls no Action. */
  lemma QuietAccounts(s: System, s': System, told: seq<Effect>, i: nat)
    requires i < |s.disk.steps| && Accounted(s, i)
    requires s'.disk == s.disk && s'.history == s.history + told && |told| <= 1
    requires |told| == 1 ==> !told[0].Acted? && !told[0].Saved? && !told[0].Resumed?
    requires s'.process.Some? && !HasStopped(s'.process.value) ==>
               s.process.Some? && !HasStopped(s.process.value)
               && SameAttempts(s.process.value.exec, s'.process.value.exec)
    ensures Accounted(s', i)
  {
    if told == [] {
      assert s'.history == s.history;
    } else {
      TallyAppend(s.history, told[0], i);
      assert s'.history == s.history + [told[0]];
    }
  }

  lemma QuietLabels(d: Definition, s: System, l: Label, s': System)
    requires Next(d, s, l) == Some(s') && !l.Save? && !l.Act? && !l.Resume?
    ensures s'.process.Some? && !HasStopped(s'.process.value) ==>
              s.process.Some? && !HasStopped(s.process.value)
              && SameAttempts(s.process.value.exec, s'.process.value.exec)
  {
    hide Working;
    if l.Work? {
      WorkingKeepsAttempts(d, s.process.value, l.now);
    }
  }

  lemma StepAccounts(d: Definition, s: System, l: Label, s': System, i: nat)
    requires ShapeInvariant(d, s) && TidyInvariant(d, s) && i < |s.disk.steps|
    requires Accounted(s, i) && Next(d, s, l) == Some(s')
    ensures i < |s'.disk.steps| && Accounted(s', i)
  {
    NextTells(d, s, l, s');
    hide Next, ShapeInvariant, TidyInvariant, Accounted;
    if l.Save? {
      SaveKeepsShape(d, s, s');
      SaveAccounts(d, s, s', i);
    } else if l.Act? {
      ActAccounts(d, s, l.answer, s', i);
    } else if l.Resume? {
      ResumeAccounts(d, s, s', i);
    } else {
      QuietLabels(d, s, l, s');
      QuietAccounts(s, s', Told(s, l), i);
    }
  }

  lemma {:induction false} ReplayAccounts(d: Definition, s0: System, labels: seq<Label>, s: System)
    requires ShapeInvariant(d, s0) && TidyInvariant(d, s0) && AttemptInvariant(s0)
    requires Replay(d, s0, labels) == Some(s)
    ensures AttemptInvariant(s)
  {
    if |labels| > 0 {
      var before := Replay(d, s0, labels[..|labels| - 1]).value;
      var l := labels[|labels| - 1];
      ReplayAccounts(d, s0, labels[..|labels| - 1], before);
      ReplayKeepsShape(d, s0, labels[..|labels| - 1], before);
      ReplayKeepsTidy(d, s0, labels[..|labels| - 1], before);
      NextKeepsShape(d, before, l, s);
      OneStepAdvances(d, before, l, s);
      forall i: nat | i < |s.disk.steps|
        ensures Accounted(s, i)
      {
        StepAccounts(d, before, l, s, i);
      }
    }
  }

  // ---------- which calls are missing ----------

  /** A process ended the retry loop of step `i`, or a new process took over. */
  predicate EndsCalls(e: Effect, i: nat) {
    (e.Saved? && Settles(e.edge, i)) || e.Resumed?
  }

  /** The outcome of some call of step `i`'s Action was never saved, by the process that made it. */
  ghost predicate Hanging(h: seq<Effect>, i: nat) {
    exists p :: 0 <= p < |h| && h[p].Acted? && h[p].i == i && forall q :: p < q < |h| ==> !EndsCalls(h[q], i)
  }

  /** Some process was gone before it saved the outcome of a call it had made for step `i`. */
  ghost predicate Interrupted(h: seq<Effect>, i: nat) {
    exists q :: 0 <= q < |h| && h[q].Resumed? && Hanging(h[..q], i)
  }

  lemma HangingAppend(h: seq<Effect>, e: Effect, i: nat)
    ensures Hanging(h + [e], i) <==> (e.Acted? && e.i == i) || (Hanging(h, i) && !EndsCalls(e, i))
  {
    var h' := h + [e];
    assert forall p :: 0 <= p < |h| ==> h'[p] == h[p];
    if Hanging(h', i) {
      var p :| 0 <= p < |h'| && h'[p].Acted? && h'[p].i == i && forall q :: p < q < |h'| ==> !EndsCalls(h'[q], i);
      if p < |h| {
        assert !EndsCalls(h'[|h|], i);
        assert forall q :: p < q < |h| ==> h'[q] == h[q];
      }
    }
    if e.Acted? && e.i == i {
      assert h'[|h|] == e;
    } else if Hanging(h, i) && !EndsCalls(e, i) {
      var p :| 0 <= p < |h| && h[p].Acted? && h[p].i == i && forall q :: p < q < |h| ==> !EndsCalls(h[q], i);
      assert h'[p].Acted? && forall q :: p < q < |h'| ==> !EndsCalls(h'[q], i);
    }
  }

  lemma InterruptedAppend(h: seq<Effect>, e: Effect, i: nat)
    ensures Interrupted(h + [e], i) <==> Interrupted(h, i) || (e.Resumed? && Hanging(h, i))
  {
    var h' := h + [e];
    assert forall q :: 0 <= q <= |h| ==> h'[..q] == h[..q];
    assert h'[..|h|] == h && h[..|h|] == h;
    if Interrupted(h, i) {
      var q :| 0 <= q < |h| && h[q].Resumed? && Hanging(h[..q], i);
      assert h'[q].Resumed? && Hanging(h'[..q], i);
    }
    if e.Resumed? && Hanging(h, i) {
      assert h'[|h|].Resumed? && Hanging(h'[..|h|], i);
    }
  }

  /** The tally's open calls are the hanging ones, and its lost calls those of interrupted loops. */
  lemma {:induction false} TallyTells(h: seq<Effect>, i: nat)
    ensures TallyOf(h, i).open > 0 <==> Hanging(h, i)
    ensures TallyOf(h, i).lost > 0 <==> Interrupted(h, i)
  {
    if |h| > 0 {
      var front, e := h[..|h| - 1], h[|h| - 1];
      assert h == front + [e];
      TallyTells(front, i);
      TallyAppend(front, e, i);
      HangingAppend(front, e, i);
      InterruptedAppend(front, e, i);
    }
  }

  /** Only of the step that is running on disk are there calls without a saved outcome. */
  ghost predicate OpenIsRunning(s: System, i: nat) {
    Hanging(s.history, i) ==> i < |s.disk.steps| && s.disk.steps[i].status == StepRunning
  }

  lemma StepKeepsOpen(d: Definition, s: System, l: Label, s': System, i: nat)
    requires ShapeInvariant(d, s) && CallInvariant(d, s) && OpenIsRunning(s, i) && Next(d, s, l) == Some(s')
    ensures OpenIsRunning(s', i)
  {
    NextTells(d, s, l, s');
    if l.Act? {
      ActIsGrounded(d, s, l.answer, s');
    }
    if l.Save? {
      SaveKeepsShape(d, s, s');
      SavePreservesRunning(s.disk, s'.disk, s.process.value.stage.edge, i);
    }
    hide Next, ShapeInvariant, CallInvariant, Hanging;
    var told := Told(s, l);
    if told == [] {
      assert s'.history == s.history;
    } else {
      assert told == [told[0]];
      HangingAppend(s.history, told[0], i);
    }
  }

  /** A save that does not settle a running step leaves it running. */
  lemma SavePreservesRunning(a: Record, b: Record, e: Edge, i: nat)
    requires OneEdge(a, b, e)
    ensures i < |a.steps| && a.steps[i].status == StepRunning && !Settles(e, i) ==>
              i < |b.steps| && b.steps[i].status == StepRunning
  {
    if i < |a.steps| && !(e.StepEdge? && e.i == i) {
      assert SameStep(a.steps[i], b.steps[i]);
    }
  }

  lemma {:induction false} ReplayKeepsOpen(d: Definition, s0: System, labels: seq<Label>, s: System, i: nat)
    requires ShapeInvariant(d, s0) && CallInvariant(d, s0) && OpenIsRunning(s0, i)
    requires Replay(d, s0, labels) == Some(s)
    ensures OpenIsRunning(s, i)
  {
    if |labels| > 0 {
      var front := labels[..|labels| - 1];
      var before := Replay(d, s0, front).value;
      hide Next, ShapeInvariant, CallInvariant, OpenIsRunning;
      ReplayKeepsOpen(d, s0, front, before, i);
      ReplayKeepsShape(d, s0, front, before);
      ReplayKeepsCalls(d, s0, front, before);
      StepKeepsOpen(d, before, labels[|labels| - 1], s, i);
    }
  }

  /**
   * The attempt count on disk never exceeds the calls really made. Once the step ended it equals
   * them exactly if no process was gone before it saved the outcome of a call; so it does in
   * every life without a resumption. Only of a running step can calls be missing that no crash hit.
   */
  lemma LivesAccountForCalls(
      d: Definition, id: string, input: Any, now: Time, labels: seq<Label>, s: System, i: nat)
    requires Lives(d, id, input, now, labels, s) && i < |s.disk.steps|
    ensures s.disk.steps[i].attempts <= Calls(s.history, i)
    ensures s.disk.steps[i].status != StepRunning ==>
              (s.disk.steps[i].attempts == Calls(s.history, i) <==> !Interrupted(s.history, i))
    ensures s.disk.steps[i].status != StepRunning && Resumed !in s.history ==>
              s.disk.steps[i].attempts == Calls(s.history, i)
    ensures s.disk.steps[i].attempts == Calls(s.history, i) <==>
              !Interrupted(s.history, i) && !Hanging(s.history, i)
  {
    var s0 := Created(d, id, input, now);
    CreatedHasShape(d, id, input, now);
    CreatedIsTidy(d, id, input, now);
    CreatedHasCalls(d, id, input, now);
    assert !Hanging(s0.history, i);
    ReplayAccounts(d, s0, labels, s);
    ReplayKeepsOpen(d, s0, labels, s, i);
    assert Accounted(s, i);
    TallyTells(s.history, i);
    hide Hanging;
    if Interrupted(s.history, i) {
      var q :| 0 <= q < |s.history| && s.history[q].Resumed? && Hanging(s.history[..q], i);
      assert Resumed in s.history;
    }
  }
}
