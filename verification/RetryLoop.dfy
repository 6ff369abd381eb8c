/** Which attempts a retry loop makes, over a whole life. */
module RetryLoop {
  import opened Values
  import opened Records
  import opened Protocol
  import opened RecordShape
  import opened Progress

  /** An answer after which another attempt may follow. */
  predicate Retryable(d: Definition, i: nat, attempt: nat, a: Answer)
    requires i < |d.steps|
  {
    a.err.Some? && MayRetry(d, i, attempt, a.err.value)
  }

  /** A later attempt directly follows the previous one, on the same data, after a retryable failure. */
  ghost predicate Justified(d: Definition, h: seq<Effect>, q: int)
    requires 0 <= q < |h|
  {
    h[q].Acted? ==>
      && h[q].i < |d.steps|
      && 1 <= h[q].attempt <= Tries(d, d.steps[h[q].i])
      && (h[q].attempt > 1 ==> Follows(d, h[..q], h[q].i, h[q].attempt, h[q].data))
  }

  /** The last thing that happened is attempt `attempt - 1`, and it asks for another. */
  ghost predicate Follows(d: Definition, h: seq<Effect>, i: nat, attempt: nat, data: Any) {
    && |h| > 0 && h[|h| - 1].Acted? && i < |d.steps|
    && h[|h| - 1].i == i && h[|h| - 1].attempt + 1 == attempt && h[|h| - 1].data == data
    && Retryable(d, i, h[|h| - 1].attempt, h[|h| - 1].answer)
  }

  ghost predicate AllJustified(d: Definition, h: seq<Effect>) {
    forall q :: 0 <= q < |h| ==> Justified(d, h, q)
  }

  ghost predicate LoopInvariant(d: Definition, s: System) {
    && AllJustified(d, s.history)
    && (s.process.Some? ==>
          var p, h := s.process.value, s.history;
          match p.pc
          case Try(i, data, attempt) => attempt > 1 ==> p.stage.Idle? && Follows(d, h, i, attempt, data)
          case Calling(i, data, attempt) => attempt > 1 ==> p.stage.Idle? && Follows(d, h, i, attempt, data)
          case Judging(i, data, attempt, answer) =>
            p.stage.Idle? && |h| > 0 && h[|h| - 1] == Acted(i, attempt, data, answer)
          case _ => true)
  }

  lemma JustifiedAppend(d: Definition, h: seq<Effect>, e: Effect)
    requires AllJustified(d, h) && Justified(d, h + [e], |h|)
    ensures AllJustified(d, h + [e])
  {
    forall q | 0 <= q < |h + [e]|
      ensures Justified(d, h + [e], q)
    {
      if q < |h| {
        assert (h + [e])[..q] == h[..q];
        assert Justified(d, h, q);
      }
    }
  }

  /** How control flow gets to a further attempt. */
  lemma WayToAttempt(d: Definition, p: Process, now: Time)
    requires p.stage.Idle? && Working(d, p, now).Some?
    ensures var p' := Working(d, p, now).value;
            && !p'.pc.Judging?
            && (p'.pc.Calling? ==> p.pc == Try(p'.pc.i, p'.pc.data, p'.pc.attempt) && p'.stage.Idle?)
            && (p'.pc.Try? && p'.pc.attempt > 1 ==>
                  && p'.stage.Idle? && p.pc.Judging? && p.pc.i < |d.steps|
                  && p.pc.i == p'.pc.i && p.pc.data == p'.pc.data && p.pc.attempt + 1 == p'.pc.attempt
                  && Retryable(d, p.pc.i, p.pc.attempt, p.pc.answer))
  {
  }

  lemma WorkKeepsLoop(d: Definition, s: System, now: Time, s': System)
    requires LoopInvariant(d, s) && Next(d, s, Work(now)) == Some(s')
    ensures LoopInvariant(d, s')
  {
    var p := s.process.value;
    assert p.stage.Idle? && Working(d, p, now).Some?;
    WayToAttempt(d, p, now);
    if p.pc.Abort? {
      JustifiedAppend(d, s.history, Aborted(p.pc.i));
      AbortMakesNoAttempt(d, p, now);
    }
    hide Working, AllJustified, Retryable;
  }

  lemma AbortMakesNoAttempt(d: Definition, p: Process, now: Time)
    requires p.pc.Abort? && Working(d, p, now).Some?
    ensures !Working(d, p, now).value.pc.Try? && !Working(d, p, now).value.pc.Calling?
  {
  }

  lemma ActKeepsLoop(d: Definition, s: System, answer: Answer, s': System)
    requires ShapeInvariant(d, s) && LoopInvariant(d, s) && Next(d, s, Act(answer)) == Some(s')
    ensures LoopInvariant(d, s')
  {
    var p := s.process.value;
    var e := Acted(p.pc.i, p.pc.attempt, p.pc.data, answer);
    assert Attempting(d, p.exec, p.pc.i, p.pc.data, p.pc.attempt);
    assert (s.history + [e])[..|s.history|] == s.history;
    JustifiedAppend(d, s.history, e);
  }

  lemma OtherKeepsLoop(d: Definition, s: System, l: Label, s': System)
    requires LoopInvariant(d, s) && Next(d, s, l) == Some(s') && !l.Work? && !l.Act?
    ensures LoopInvariant(d, s')
  {
    NextTells(d, s, l, s');
    hide Working;
    var told := Told(s, l);
    if told == [] {
      assert s'.history == s.history;
    } else {
      assert s'.history == s.history + [told[0]];
      JustifiedAppend(d, s.history, told[0]);
    }
  }

  lemma {:induction false} ReplayKeepsLoop(d: Definition, s0: System, labels: seq<Label>, s: System)
    requires ShapeInvariant(d, s0) && LoopInvariant(d, s0) && Replay(d, s0, labels) == Some(s)
    ensures LoopInvariant(d, s)
  {
    if |labels| > 0 {
      var before := Replay(d, s0, labels[..|labels| - 1]).value;
      var l := labels[|labels| - 1];
      hide Next, ShapeInvariant, LoopInvariant;
      ReplayKeepsLoop(d, s0, labels[..|labels| - 1], before);
      ReplayKeepsShape(d, s0, labels[..|labels| - 1], before);
      if l.Work? {
        WorkKeepsLoop(d, before, l.now, s);
      } else if l.Act? {
        ActKeepsLoop(d, before, l.answer, s);
      } else {
        OtherKeepsLoop(d, before, l, s);
      }
    }
  }

  /**
   * Over a whole life, every attempt number stays within the policy's limit (and is 1 whatever
   * the policy says), and an attempt after the first directly follows the previous one of the
   * same step, on the same data, which failed with an error that may be retried.
   */
  lemma LivesRetryOnlyWhenAllowed(
      d: Definition, id: string, input: Any, now: Time, labels: seq<Label>, s: System)
    requires Lives(d, id, input, now, labels, s)
    ensures AllJustified(d, s.history)
  {
    CreatedHasShape(d, id, input, now);
    ReplayKeepsLoop(d, Created(d, id, input, now), labels, s);
  }
}
