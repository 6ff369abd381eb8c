/** The lives behind stored records: what every execution and every recovery carries on. */
module LivedRecords {
  import opened Values
  import opened Records
  import opened Protocol
  import opened RecordShape
  import opened Progress
  import opened History
  import opened Events
  import opened Announcements
  import opened RetryLoop
  import opened Observations
  import opened OperationKeys
  import opened Termination
  import opened AtMostOnce
  import opened Verdicts

  /** An execution from its creation to now: what happened, and where it is. */
  datatype Life = Life(id: string, input: Any, now: Time, labels: seq<Label>, end: System)

  /** This life left the record; a cautious one took no step in flight over. */
  ghost predicate Led(d: Definition, l: Life, r: Record, cautious: bool) {
    && Lives(d, l.id, l.input, l.now, l.labels, l.end) && l.end.disk == r && r.id == l.id
    && (cautious ==> Cautious(d, Created(d, l.id, l.input, l.now), l.labels))
  }

  /** The same life, carried on by a process that read the record it had left. */
  function Onward(l: Life, labels: seq<Label>, end: System): Life {
    l.(labels := l.labels + Handover(l.end) + labels, end := end)
  }

  /** All that the Actions, the Compensates and the publisher have seen of this life. */
  function SeenOf(d: Definition, l: Life): seq<Observation> {
    Observed(d, l.id, l.end.history)
  }

  /** One process carried the life on, and the outside saw this of it. */
  ghost predicate Continues(d: Definition, l: Life, l': Life, seen: seq<Observation>) {
    && (exists labels :: Uninterrupted(labels) && l' == Onward(l, labels, l'.end))
    && SeenOf(d, l') == SeenOf(d, l) + seen
    && Later(l.end.disk, l'.end.disk)
  }

  lemma LedHasShape(d: Definition, l: Life, r: Record, cautious: bool)
    requires Led(d, l, r, cautious)
    ensures Shape(d, r)
  {
    LivesHaveShape(d, l.id, l.input, l.now, l.labels, l.end);
  }

  // ---------- what holds of every such life ----------

  /**
   * Whatever processes carried a life on, its calls are ordered and announced, its retries allowed,
   * and its events are those of its saves; and what the outside saw shows exactly these events.
   */
  lemma LedLivesKeepOrder(d: Definition, l: Life, r: Record, cautious: bool)
    requires Led(d, l, r, cautious)
    ensures var h := l.end.history;
            && CallsOrdered(h) && WriteAhead(h) && EdgesDistinct(h) && AllJustified(d, h)
            && EventsIn(SeenOf(d, l)) == Stream(h) && Subsequence(Stream(h), Image(h)) && PublishedAfterSave(h)
            && (forall ev :: ev in EventsIn(SeenOf(d, l)) ==> Happened(ev, r))
  {
    EventsTellTheTruth(d, l.id, l.input, l.now, l.labels, l.end);
    LivesAreOrdered(d, l.id, l.input, l.now, l.labels, l.end);
    LivesRetryOnlyWhenAllowed(d, l.id, l.input, l.now, l.labels, l.end);
    LivesPublish(d, l.id, l.input, l.now, l.labels, l.end);
    ObservedEventsAreTheStream(d, l.id, l.end.history);
  }

  /** In a life carried on by cautious recoveries only, nothing was repeated. */
  lemma CautiousLedLivesRepeatNothing(d: Definition, l: Life, r: Record)
    requires Led(d, l, r, true)
    ensures NothingRepeats(l.end.history)
  {
    CautiousLivesRepeatNothing(d, l.id, l.input, l.now, l.labels, l.end);
  }

  function NamesOf(d: Definition): seq<string> {
    seq(|d.steps|, i requires 0 <= i < |d.steps| => d.steps[i].name)
  }

  /** No Compensate was called twice under the same key. */
  ghost predicate CompensatesOnce(seen: seq<Observation>) {
    forall p, q :: 0 <= p < q < |seen| && seen[p].CompensateCall? && seen[q].CompensateCall? ==> seen[p].key != seen[q].key
  }

  lemma {:induction false} CompensateCallsAreReverts(d: Definition, id: string, h: seq<Effect>, o: Observation)
    requires o in Observed(d, id, h) && o.CompensateCall?
    ensures exists e :: e in h && e.Reverted? && e.j < |d.steps| && o.key == CompensationOperationID(id, d.steps[e.j].name)
  {
    var front, e := h[..|h| - 1], h[|h| - 1];
    if o in Seen(d, id, e) {
      assert e in h && e.Reverted?;
    } else {
      CompensateCallsAreReverts(d, id, front, o);
      var x :| x in front && x.Reverted? && x.j < |d.steps| && o.key == CompensationOperationID(id, d.steps[x.j].name);
      assert x in h;
    }
  }

  lemma CompensationKeysDiffer(d: Definition, id: string, i: nat, j: nat)
    requires Distinct(NamesOf(d)) && i < |d.steps| && j < |d.steps| && i != j
    ensures CompensationOperationID(id, d.steps[i].name) != CompensationOperationID(id, d.steps[j].name)
  {
    var a, b := d.steps[i].name, d.steps[j].name;
    assert NamesOf(d)[i] == a && NamesOf(d)[j] == b;
    if CompensationOperationID(id, a) == CompensationOperationID(id, b) {
      var prefix := id + "/";
      assert prefix + a + COMPENSATE == prefix + (a + COMPENSATE);
      assert prefix + b + COMPENSATE == prefix + (b + COMPENSATE);
      assert (prefix + (a + COMPENSATE))[|prefix|..] == a + COMPENSATE;
      assert (prefix + (b + COMPENSATE))[|prefix|..] == b + COMPENSATE;
      SuffixIsReadable(a, b);
    }
  }

  lemma {:induction false} NoRepeatIsSeenOnce(d: Definition, id: string, h: seq<Effect>)
    requires NothingRepeats(h) && Distinct(NamesOf(d))
    ensures CompensatesOnce(Observed(d, id, h))
  {
    if |h| > 0 {
      var front, e := h[..|h| - 1], h[|h| - 1];
      NoRepeatIsSeenOnce(d, id, front);
      var before, all := Observed(d, id, front), Observed(d, id, h);
      if Seen(d, id, e) == [] {
        assert all == before;
      } else {
        assert Seen(d, id, e) == [Seen(d, id, e)[0]] && all == before + [Seen(d, id, e)[0]];
        forall p | 0 <= p < |before| && before[p].CompensateCall? && all[|before|].CompensateCall?
          ensures before[p].key != all[|before|].key
        {
          CompensateCallsAreReverts(d, id, front, before[p]);
          var x :| x in front && x.Reverted? && x.j < |d.steps|
                   && before[p].key == CompensationOperationID(id, d.steps[x.j].name);
          var k :| 0 <= k < |front| && front[k] == x;
          assert h[k] == x && h[|h| - 1] == e;
          CompensationKeysDiffer(d, id, x.j, e.j);
        }
      }
    }
  }

  /** So over the execution and all its cautious recoveries, the outside saw no Compensate twice. */
  lemma CautiousCompensatesOnce(d: Definition, l: Life, r: Record)
    requires Led(d, l, r, true) && Distinct(NamesOf(d))
    ensures CompensatesOnce(SeenOf(d, l))
  {
    CautiousLedLivesRepeatNothing(d, l, r);
    NoRepeatIsSeenOnce(d, l.id, l.end.history);
  }

  // ---------- carrying a life on ----------

  lemma {:induction false} UninterruptedStaysCautious(d: Definition, s0: System, before: seq<Label>, labels: seq<Label>)
    requires Cautious(d, s0, before) && Uninterrupted(labels)
    ensures Cautious(d, s0, before + labels)
  {
    if |labels| == 0 {
      assert before + labels == before;
    } else {
      var front, l, all := labels[..|labels| - 1], labels[|labels| - 1], before + labels;
      assert labels == front + [l];
      UninterruptedSnoc(front, l);
      hide Replay, Uninterrupted;
      UninterruptedStaysCautious(d, s0, before, front);
      assert all[..|all| - 1] == before + front;
      assert all[|all| - 1] == l;
    }
  }

  lemma CautiousSnoc(d: Definition, s0: System, labels: seq<Label>, s: System, l: Label)
    requires Replay(d, s0, labels) == Some(s) && Cautious(d, s0, labels)
    requires l.Resume? ==> !HasInFlightStep(s.disk)
    ensures Cautious(d, s0, labels + [l])
  {
    assert (labels + [l])[..|labels + [l]| - 1] == labels;
    hide Replay;
  }

  lemma CrashSnoc(d: Definition, s0: System, labels: seq<Label>, s: System)
    requires Replay(d, s0, labels) == Some(s) && s.process.Some?
    ensures Replay(d, s0, labels + [Crash]) == Some(s.(process := None))
  {
    assert (labels + [Crash])[..|labels + [Crash]| - 1] == labels;
  }

  /** Taking over a record with nothing in flight is cautious. */
  lemma HandoverIsCautious(d: Definition, s0: System, before: seq<Label>, s: System)
    requires Replay(d, s0, before) == Some(s) && Cautious(d, s0, before) && !HasInFlightStep(s.disk)
    ensures Cautious(d, s0, before + Handover(s))
  {
    if s.process.Some? {
      CrashSnoc(d, s0, before, s);
    }
    hide Replay, Cautious;
    if s.process.Some? {
      CautiousSnoc(d, s0, before, s, Crash);
      CautiousSnoc(d, s0, before + [Crash], s.(process := None), Resume);
      assert before + Handover(s) == before + [Crash] + [Resume];
    } else {
      CautiousSnoc(d, s0, before, s, Resume);
    }
  }

  /** A resume carries on the very life behind the record it was given. */
  lemma RunKeepsLived(d: Definition, l: Life, labels: seq<Label>, end: System, outcome: Outcome,
                      err: Option<Error>, seen: seq<Observation>, cautious: bool)
    requires Led(d, l, l.end.disk, cautious) && (cautious ==> !HasInFlightStep(l.end.disk))
    requires Ran(d, Reading(l.end.disk, l.end.history + [Resumed]), labels, end, outcome, err, seen)
    ensures Led(d, Onward(l, labels, end), end.disk, cautious)
    ensures Continues(d, l, Onward(l, labels, end), seen)
    ensures !l.end.disk.status.IsTerminal() && !(err.Some? && Disturbed(err.value)) ==> Tells(end.disk.status, err)
  {
    OnwardIsSeen(d, l, labels, end, outcome, err, seen);
    OnwardIsLed(d, l, labels, end, outcome, err, seen, cautious);
    RunAdvances(d, l, Reading(l.end.disk, l.end.history + [Resumed]), labels, end, outcome, err, seen);
    hide Led, SeenOf, Later, Tells, Disturbed, Reading, Handover, Replay, Observed, Uninterrupted;
    assert Onward(l, labels, end) == Onward(l, labels, Onward(l, labels, end).end);
  }

  lemma OnwardIsSeen(d: Definition, l: Life, labels: seq<Label>, end: System, outcome: Outcome,
                     err: Option<Error>, seen: seq<Observation>)
    requires l.end.disk.id == l.id
    requires Ran(d, Reading(l.end.disk, l.end.history + [Resumed]), labels, end, outcome, err, seen)
    ensures SeenOf(d, Onward(l, labels, end)) == SeenOf(d, l) + seen
  {
    hide Replay, Observed, Uninterrupted;
    ObservedAppend(d, l.id, l.end.history, Resumed);
  }

  lemma OnwardIsLed(d: Definition, l: Life, labels: seq<Label>, end: System, outcome: Outcome,
                    err: Option<Error>, seen: seq<Observation>, cautious: bool)
    requires Led(d, l, l.end.disk, cautious) && (cautious ==> !HasInFlightStep(l.end.disk))
    requires Ran(d, Reading(l.end.disk, l.end.history + [Resumed]), labels, end, outcome, err, seen)
    ensures Led(d, Onward(l, labels, end), end.disk, cautious)
  {
    var start := Reading(l.end.disk, l.end.history + [Resumed]);
    RunContinuesLife(d, l.id, l.input, l.now, l.labels, l.end, labels, end);
    OnwardIsCautious(d, l, labels, end, cautious);
    RunAdvances(d, l, start, labels, end, outcome, err, seen);
    hide Replay, Cautious, Uninterrupted, Observed, HasInFlightStep, Tells, Disturbed;
  }

  lemma OnwardIsCautious(d: Definition, l: Life, labels: seq<Label>, end: System, cautious: bool)
    requires Led(d, l, l.end.disk, cautious) && (cautious ==> !HasInFlightStep(l.end.disk)) && Uninterrupted(labels)
    ensures cautious ==> Cautious(d, Created(d, l.id, l.input, l.now), Onward(l, labels, end).labels)
  {
    if cautious {
      var s0 := Created(d, l.id, l.input, l.now);
      hide Cautious, HasInFlightStep, Uninterrupted;
      HandoverIsCautious(d, s0, l.labels, l.end);
      UninterruptedStaysCautious(d, s0, l.labels + Handover(l.end), labels);
    }
  }

  lemma RunAdvances(d: Definition, l: Life, start: System, labels: seq<Label>, end: System, outcome: Outcome,
                    err: Option<Error>, seen: seq<Observation>)
    requires Lives(d, l.id, l.input, l.now, l.labels, l.end)
    requires start == Reading(l.end.disk, l.end.history + [Resumed])
    requires Ran(d, start, labels, end, outcome, err, seen)
    ensures Later(l.end.disk, end.disk)
    ensures !l.end.disk.status.IsTerminal() && !(err.Some? && Disturbed(err.value)) ==> Tells(end.disk.status, err)
  {
    LivesHaveShape(d, l.id, l.input, l.now, l.labels, l.end);
    RunsOnlyAdvance(d, start, labels, end);
    ReplayKeepsShape(d, start, labels, end);
    if !l.end.disk.status.IsTerminal() && outcome.Ended? {
      ResultTellsStatus(d, l.end.disk, start.history, labels, end, err);
      ReturnedIsTerminal(d, end);
    }
  }
}
