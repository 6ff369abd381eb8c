/** What the published events mean: each tells what is on disk, and right when it came to be. */
module Announcements {
  import opened Values
  import opened States
  import opened Records
  import opened Protocol
  import opened RecordShape
  import opened Progress
  import opened History
  import opened Events
  import opened MachineSteps

  /** What an event claims of the record: of its status, or of a step's. */
  predicate Happened(ev: Event, r: Record) {
    match ev
    case Event(None, SagaStarted) => r.status != Pending
    case Event(None, SagaCompleted) => r.status == Completed
    case Event(None, SagaFailed) => r.status == Failed || r.status == Compensated || r.status == CompensationFailed
    case Event(Some(i), kind) => i < |r.steps| && StepHappened(kind, r.steps[i].status)
    case _ => false
  }

  predicate StepHappened(kind: EventType, s: StepStatus) {
    match kind
    case StepStarted => s != StepPending
    case StepCompleted => Passed(s)
    case StepFailedEvent => s == StepFailed
    case CompensationStarted => UndoBegun(s)
    case CompensationCompleted => s == StepCompensated
    case CompensationFailedEvent => s == StepCompensationFailed
    case _ => false
  }

  /** The status change that an event is about. */
  predicate Reports(ev: Event, e: Edge) {
    match ev
    case Event(None, SagaStarted) => e == ExecEdge(Running)
    case Event(None, SagaCompleted) => e == ExecEdge(Completed)
    case Event(None, SagaFailed) => e == ExecEdge(Failed) || e == ExecEdge(Compensated) || e == ExecEdge(CompensationFailed)
    case Event(Some(i), StepStarted) => e == StepEdge(i, StepRunning)
    case Event(Some(i), StepCompleted) => e == StepEdge(i, StepSucceeded)
    case Event(Some(i), StepFailedEvent) => e == StepEdge(i, StepFailed)
    case Event(Some(i), CompensationStarted) => e == StepEdge(i, StepCompensating)
    case Event(Some(i), CompensationCompleted) => e == StepEdge(i, StepCompensated)
    case Event(Some(i), CompensationFailedEvent) => e == StepEdge(i, StepCompensationFailed)
    case _ => false
  }

  /** An event is published for a status change exactly if it is about it; nothing else is left out. */
  lemma EventIffReported(e: Edge, ev: Event)
    ensures EventOf(e) == Some(ev) <==> Reports(ev, e)
  {
  }

  lemma {:induction false} ImageMembers(h: seq<Effect>, ev: Event)
    ensures ev in Image(h) <==> exists e: Edge :: Saved(e) in h && EventOf(e) == Some(ev)
  {
    if |h| > 0 {
      var front, last := h[..|h| - 1], h[|h| - 1];
      ImageMembers(front, ev);
      assert forall x :: x in h <==> x in front || x == last;
    }
  }

  lemma {:induction false} StreamMembers(h: seq<Effect>, ev: Event)
    requires PublishedAfterSave(h)
    ensures ev in Stream(h) ==> ev in Image(h)
  {
    if |h| > 0 {
      var front, last := h[..|h| - 1], h[|h| - 1];
      StreamMembers(front, ev);
      if last.Published? && EventOf(last.edge) == Some(ev) {
        assert h[|h| - 2] == Saved(last.edge);
        ImageMembers(h, ev);
      }
    }
  }

  /** The saves so far stand for an event exactly if what it claims is so on disk. */
  lemma ImageTells(h: seq<Effect>, r: Record, ev: Event)
    requires EdgesMatch(h, r)
    ensures ev in Image(h) <==> Happened(ev, r)
  {
    ImageMembers(h, ev);
    if Happened(ev, r) {
      var e: Edge := HappenedBy(h, r, ev);
      assert Saved(e) in h && EventOf(e) == Some(ev);
    } else {
      forall e: Edge | Saved(e) in h
        ensures EventOf(e) != Some(ev)
      {
        NotHappened(h, r, ev, e);
      }
    }
  }

  lemma HappenedBy(h: seq<Effect>, r: Record, ev: Event) returns (e: Edge)
    requires EdgesMatch(h, r) && Happened(ev, r)
    ensures Saved(e) in h && EventOf(e) == Some(ev)
  {
    match ev.kind
    case SagaStarted => e := ExecEdge(Running);
    case SagaCompleted => e := ExecEdge(Completed);
    case SagaFailed => e := ExecEdge(r.status);
    case StepStarted => e := StepEdge(ev.step.value, StepRunning);
    case StepCompleted => e := StepEdge(ev.step.value, StepSucceeded);
    case StepFailedEvent => e := StepEdge(ev.step.value, StepFailed);
    case CompensationStarted => e := StepEdge(ev.step.value, StepCompensating);
    case CompensationCompleted => e := StepEdge(ev.step.value, StepCompensated);
    case CompensationFailedEvent => e := StepEdge(ev.step.value, StepCompensationFailed);
  }

  lemma NotHappened(h: seq<Effect>, r: Record, ev: Event, e: Edge)
    requires EdgesMatch(h, r) && !Happened(ev, r) && Saved(e) in h
    ensures EventOf(e) != Some(ev)
  {
  }

  // ---------- the first and the last event ----------

  /** The event that tells how an execution ended. */
  function EndEvent(status: Status): Event {
    Event(None, if status == Completed then SagaCompleted else SagaFailed)
  }

  /** The saves stand for a stream that begins with the start of the saga, and ends with its end. */
  ghost predicate Framing(s: System) {
    var image := Image(s.history);
    && (|image| > 0 ==> image[0] == Event(None, SagaStarted))
    && (s.disk.status.IsTerminal() ==> |image| > 0 && image[|image| - 1] == EndEvent(s.disk.status))
  }

  lemma FirstSaveStarts(d: Definition, disk: Record, exec: Record, e: Edge)
    requires Shape(d, disk) && Shape(d, exec) && OneEdge(disk, exec, e) && disk.status == Pending
    ensures e == ExecEdge(Running)
  {
  }

  lemma SaveKeepsFraming(d: Definition, s: System, s': System)
    requires ShapeInvariant(d, s) && CallInvariant(d, s) && Framing(s) && Next(d, s, Save) == Some(s')
    ensures Framing(s')
  {
    var e := s.process.value.stage.edge;
    SaveKeepsShape(d, s, s');
    NextTells(d, s, Save, s');
    StreamAppend(s.history, Saved(e));
    ImageTells(s.history, s.disk, Event(None, SagaStarted));
    if s.disk.status == Pending {
      FirstSaveStarts(d, s.disk, s'.disk, e);
      PendingHasNoImage(s.history, s.disk);
    }
    hide ShapeInvariant, CallInvariant, Image;
    assert Image(s'.history) == Image(s.history) + if EventOf(e).Some? then [EventOf(e).value] else [];
  }

  lemma PendingHasNoImage(h: seq<Effect>, r: Record)
    requires EdgesMatch(h, r) && r.status == Pending && forall i :: 0 <= i < |r.steps| ==> r.steps[i].status == StepPending
    ensures Image(h) == []
  {
    if Image(h) != [] {
      ImageTells(h, r, Image(h)[0]);
    }
  }

  lemma {:induction false} QuietImage(h: seq<Effect>, told: seq<Effect>)
    requires |told| <= 1 && (|told| == 1 ==> !told[0].Saved?)
    ensures Image(h + told) == Image(h)
  {
    if |told| == 0 {
      assert h + told == h;
    } else {
      assert told == [told[0]];
      StreamAppend(h, told[0]);
    }
  }

  lemma {:induction false} ReplayKeepsFraming(d: Definition, s0: System, labels: seq<Label>, s: System)
    requires ShapeInvariant(d, s0) && CallInvariant(d, s0) && Framing(s0) && Replay(d, s0, labels) == Some(s)
    ensures Framing(s)
  {
    if |labels| > 0 {
      hide Next, ShapeInvariant, CallInvariant, Framing;
      var front, l, before := ReplayFront(d, s0, labels, s);
      ReplayKeepsFraming(d, s0, front, before);
      ReplayKeepsShape(d, s0, front, before);
      ReplayKeepsCalls(d, s0, front, before);
      if l.Save? {
        SaveKeepsFraming(d, before, s);
      } else {
        OtherKeepsFraming(d, before, l, s);
      }
    }
  }

  lemma OtherKeepsFraming(d: Definition, s: System, l: Label, s': System)
    requires Framing(s) && Next(d, s, l) == Some(s') && !l.Save?
    ensures Framing(s')
  {
    NextTells(d, s, l, s');
    QuietImage(s.history, Told(s, l));
  }

  /**
   * In every life: an event that was published is true of the record on disk, and directly follows the
   * save of just the status change that it is about; what was saved stands for exactly the events that
   * are true of the record, from the saga's start to its end.
   */
  lemma EventsTellTheTruth(d: Definition, id: string, input: Any, now: Time, labels: seq<Label>, s: System)
    requires Lives(d, id, input, now, labels, s)
    ensures forall ev :: ev in Stream(s.history) ==> Happened(ev, s.disk)
    ensures forall ev :: ev in Image(s.history) <==> Happened(ev, s.disk)
    ensures forall q :: 0 <= q < |s.history| && s.history[q].Published? ==>
              var e := s.history[q].edge;
              q > 0 && s.history[q - 1] == Saved(e) && EventOf(e).Some? && Reports(EventOf(e).value, e)
    ensures Framing(s)
  {
    CreatedHasShape(d, id, input, now);
    CreatedHasCalls(d, id, input, now);
    var s0 := Created(d, id, input, now);
    ReplayKeepsCalls(d, s0, labels, s);
    ReplayKeepsFraming(d, s0, labels, s);
    LivesPublish(d, id, input, now, labels, s);
    ReplayKeepsKinds(d, s0, labels, s);
    forall ev
      ensures ev in Image(s.history) <==> Happened(ev, s.disk)
      ensures ev in Stream(s.history) ==> Happened(ev, s.disk)
    {
      ImageTells(s.history, s.disk, ev);
      StreamMembers(s.history, ev);
    }
    forall q | 0 <= q < |s.history| && s.history[q].Published?
      ensures EventOf(s.history[q].edge).Some? && Reports(EventOf(s.history[q].edge).value, s.history[q].edge)
    {
      EventIffReported(s.history[q].edge, EventOf(s.history[q].edge).value);
    }
  }

  /** Only what has a kind is published. */
  lemma {:induction false} ReplayKeepsKinds(d: Definition, s0: System, labels: seq<Label>, s: System)
    requires Replay(d, s0, labels) == Some(s) && s0.history == []
    ensures forall q :: 0 <= q < |s.history| && s.history[q].Published? ==> EventOf(s.history[q].edge).Some?
  {
    if |labels| > 0 {
      hide Next;
      var front, l, before := ReplayFront(d, s0, labels, s);
      ReplayKeepsKinds(d, s0, front, before);
      NextTells(d, before, l, s);
    }
  }

  /** Where no process was lost, everything true was told: the stream runs from the start to the end. */
  lemma UncrashedLivesTellAll(d: Definition, id: string, input: Any, now: Time, labels: seq<Label>, s: System)
    requires Lives(d, id, input, now, labels, s) && Resumed !in s.history
    requires s.process.Some? && !s.process.value.stage.Publishing?
    ensures var stream := Stream(s.history);
            && (forall ev :: ev in stream <==> Happened(ev, s.disk))
            && (|stream| > 0 ==> stream[0] == Event(None, SagaStarted))
            && (s.disk.status.IsTerminal() ==> |stream| > 0 && stream[|stream| - 1] == EndEvent(s.disk.status))
  {
    EventsTellTheTruth(d, id, input, now, labels, s);
    LivesPublish(d, id, input, now, labels, s);
  }
}
