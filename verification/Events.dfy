/** Published events: each directly follows its own save, and only a crash can swallow one. */
module Events {
  import opened Values
  import opened Records
  import opened Protocol
  import opened RecordShape
  import opened Progress
  import opened History

  /** Every published event comes right after the save it reports. */
  ghost predicate PublishedAfterSave(h: seq<Effect>) {
    forall q :: 0 <= q < |h| && h[q].Published? ==> q > 0 && h[q - 1] == Saved(h[q].edge)
  }

  /** Every reportable save is followed by its event, unless the process died in between. */
  ghost predicate SaveIsReported(h: seq<Effect>, q: int)
    requires 0 <= q < |h| - 1
  {
    h[q].Saved? && EventOf(h[q].edge).Some? ==> h[q + 1] == Published(h[q].edge) || h[q + 1] == Resumed
  }

  ghost predicate SavesReported(h: seq<Effect>) {
    forall q :: 0 <= q < |h| - 1 ==> SaveIsReported(h, q)
  }

  ghost predicate EventInvariant(s: System) {
    && PublishedAfterSave(s.history)
    && SavesReported(s.history)
    && (s.process.Some? && s.process.value.stage.Publishing? ==>
          |s.history| > 0 && s.history[|s.history| - 1] == Saved(s.process.value.stage.edge))
    && (s.process.Some? && !s.process.value.stage.Publishing? && |s.history| > 0 ==>
          !(s.history[|s.history| - 1].Saved? && EventOf(s.history[|s.history| - 1].edge).Some?))
  }

  lemma AppendKeepsReports(h: seq<Effect>, e: Effect)
    requires PublishedAfterSave(h) && SavesReported(h)
    requires e.Published? ==> |h| > 0 && h[|h| - 1] == Saved(e.edge)
    requires |h| > 0 && h[|h| - 1].Saved? && EventOf(h[|h| - 1].edge).Some?
             ==> e == Published(h[|h| - 1].edge) || e == Resumed
    ensures PublishedAfterSave(h + [e]) && SavesReported(h + [e])
  {
    var h' := h + [e];
    forall q | 0 <= q < |h'| - 1
      ensures SaveIsReported(h', q)
    {
      if q < |h| - 1 {
        assert SaveIsReported(h, q);
      }
    }
  }

  /** Where the stage can come from. */
  lemma NextStage(d: Definition, s: System, l: Label, s': System)
    requires ShapeInvariant(d, s) && Next(d, s, l) == Some(s')
    ensures s'.process.Some? && s'.process.value.stage.Publishing? && !l.Save? ==>
              s.process.Some? && s.process.value.stage == s'.process.value.stage && Told(s, l) == []
    ensures l.Save? ==> s'.process.Some? && s'.process.value.stage == Publishing(s.process.value.stage.edge)
    ensures s.process.Some? && s.process.value.stage.Publishing? && !l.Publish? && !l.ContextEnds? ==> l.Crash?
    ensures l.Publish? && EventOf(s.process.value.stage.edge).None? ==> Told(s, l) == []
    ensures l.Publish? ==> s.process.Some? && s.process.value.stage.Publishing? && !s'.process.value.stage.Publishing?
  {
    if l.Work? {
      WorkLeavesPublishing(d, s, l.now, s');
    }
  }

  lemma WorkLeavesPublishing(d: Definition, s: System, now: Time, s': System)
    requires Next(d, s, Work(now)) == Some(s')
    ensures s.process.Some? && s.process.value.stage.Idle?
    ensures s'.process.Some? && !s'.process.value.stage.Publishing?
  {
  }

  lemma NextKeepsEvents(d: Definition, s: System, l: Label, s': System)
    requires ShapeInvariant(d, s) && EventInvariant(s) && Next(d, s, l) == Some(s')
    ensures EventInvariant(s')
  {
    hide Working, ShapeInvariant;
    NextTells(d, s, l, s');
    NextStage(d, s, l, s');
    var told := Told(s, l);
    if told == [] {
      assert s'.history == s.history;
    } else {
      AppendKeepsReports(s.history, told[0]);
    }
  }

  lemma {:induction false} ReplayKeepsEvents(d: Definition, s0: System, labels: seq<Label>, s: System)
    requires ShapeInvariant(d, s0) && EventInvariant(s0) && Replay(d, s0, labels) == Some(s)
    ensures EventInvariant(s)
  {
    if |labels| > 0 {
      var before := Replay(d, s0, labels[..|labels| - 1]).value;
      ReplayKeepsEvents(d, s0, labels[..|labels| - 1], before);
      ReplayKeepsShape(d, s0, labels[..|labels| - 1], before);
      NextKeepsEvents(d, before, labels[|labels| - 1], s);
    }
  }

  // ---------- the event stream ----------

  /** The events that the saves of a history stand for, in order. */
  function Image(h: seq<Effect>): seq<Event> {
    if |h| == 0 then []
    else
      var e := h[|h| - 1];
      Image(h[..|h| - 1])
      + if e.Saved? && EventOf(e.edge).Some? then [EventOf(e.edge).value] else []
  }

  /** The events that were published, in order. */
  function Stream(h: seq<Effect>): seq<Event> {
    if |h| == 0 then []
    else
      var e := h[|h| - 1];
      Stream(h[..|h| - 1])
      + if e.Published? && EventOf(e.edge).Some? then [EventOf(e.edge).value] else []
  }

  predicate Subsequence<T(==)>(a: seq<T>, b: seq<T>) {
    if |a| == 0 then true
    else if |b| == 0 then false
    else
      || (a[|a| - 1] == b[|b| - 1] && Subsequence(a[..|a| - 1], b[..|b| - 1]))
      || Subsequence(a, b[..|b| - 1])
  }

  lemma SubsequenceExtend<T>(a: seq<T>, b: seq<T>, x: T)
    requires Subsequence(a, b)
    ensures Subsequence(a, b + [x]) && Subsequence(a + [x], b + [x])
  {
    assert (b + [x])[..|b + [x]| - 1] == b;
    assert (a + [x])[..|a + [x]| - 1] == a;
  }

  lemma StreamAppend(h: seq<Effect>, e: Effect)
    ensures e.Published? && EventOf(e.edge).Some? ==> Stream(h + [e]) == Stream(h) + [EventOf(e.edge).value]
    ensures !(e.Published? && EventOf(e.edge).Some?) ==> Stream(h + [e]) == Stream(h)
    ensures e.Saved? && EventOf(e.edge).Some? ==> Image(h + [e]) == Image(h) + [EventOf(e.edge).value]
    ensures !(e.Saved? && EventOf(e.edge).Some?) ==> Image(h + [e]) == Image(h)
  {
    assert (h + [e])[..|h + [e]| - 1] == h;
  }

  /** A save and its own event together keep the stream inside the image. */
  lemma SavedThenPublished(h: seq<Effect>, edge: Edge)
    requires Subsequence(Stream(h), Image(h))
    ensures Subsequence(Stream(h + [Saved(edge)] + [Published(edge)]), Image(h + [Saved(edge)] + [Published(edge)]))
  {
    StreamAppend(h, Saved(edge));
    StreamAppend(h + [Saved(edge)], Published(edge));
    if EventOf(edge).Some? {
      SubsequenceExtend(Stream(h), Image(h), EventOf(edge).value);
    }
  }

  lemma NotPublished(h: seq<Effect>, e: Effect)
    requires Subsequence(Stream(h), Image(h)) && !e.Published?
    ensures Subsequence(Stream(h + [e]), Image(h + [e]))
  {
    StreamAppend(h, e);
    if e.Saved? && EventOf(e.edge).Some? {
      SubsequenceExtend(Stream(h), Image(h), EventOf(e.edge).value);
    }
  }

  lemma {:induction false} StreamIsSubsequence(h: seq<Effect>)
    requires PublishedAfterSave(h)
    ensures Subsequence(Stream(h), Image(h))
  {
    if |h| > 0 {
      var front, e := h[..|h| - 1], h[|h| - 1];
      if e.Published? {
        var earlier := h[..|h| - 2];
        StreamIsSubsequence(earlier);
        SavedThenPublished(earlier, e.edge);
        assert h == earlier + [Saved(e.edge)] + [Published(e.edge)];
      } else {
        StreamIsSubsequence(front);
        NotPublished(front, e);
        assert h == front + [e];
      }
    }
  }

  /** Without a resumption nothing is swallowed: the stream is the image, up to one event under way. */
  lemma {:induction false} UncrashedStream(h: seq<Effect>)
    requires PublishedAfterSave(h) && SavesReported(h) && Resumed !in h
    ensures var pending := |h| > 0 && h[|h| - 1].Saved? && EventOf(h[|h| - 1].edge).Some?;
            Image(h) == Stream(h) + if pending then [EventOf(h[|h| - 1].edge).value] else []
  {
    if |h| > 0 {
      var front, e := h[..|h| - 1], h[|h| - 1];
      forall q | 0 <= q < |front| - 1
        ensures SaveIsReported(front, q)
      {
        assert SaveIsReported(h, q);
      }
      UncrashedStream(front);
      if |front| > 0 {
        assert SaveIsReported(h, |h| - 2);
        assert front[|front| - 1] == h[|h| - 2];
        assert e in h;
      }
    }
  }

  /** No event of the stream repeats. */
  lemma NoEventTwice(d: Definition, s: System, p: nat, q: nat)
    requires CallInvariant(d, s) && PublishedAfterSave(s.history)
    requires p < q < |s.history| && s.history[p].Published? && s.history[q].Published?
    requires EventOf(s.history[p].edge).Some? && EventOf(s.history[q].edge).Some?
    ensures EventOf(s.history[p].edge) != EventOf(s.history[q].edge)
  {
    var h := s.history;
    assert h[p - 1] == Saved(h[p].edge) && h[q - 1] == Saved(h[q].edge);
    assert h[p].edge != h[q].edge;
    assert h[p - 1] in h && h[q - 1] in h;
  }

  lemma NoEventsTwice(d: Definition, s: System)
    requires CallInvariant(d, s) && PublishedAfterSave(s.history)
    ensures forall p: nat, q: nat ::
              p < q < |s.history| && s.history[p].Published? && s.history[q].Published?
              && EventOf(s.history[p].edge).Some? && EventOf(s.history[q].edge).Some?
              ==> EventOf(s.history[p].edge) != EventOf(s.history[q].edge)
  {
    forall p: nat, q: nat | p < q < |s.history| && s.history[p].Published? && s.history[q].Published?
                            && EventOf(s.history[p].edge).Some? && EventOf(s.history[q].edge).Some?
      ensures EventOf(s.history[p].edge) != EventOf(s.history[q].edge)
    {
      NoEventTwice(d, s, p, q);
    }
  }

  /**
   * Over a whole life the published events are a subsequence of the image of the saved status
   * changes, each published right after its own save and none twice; a life without a
   * resumption publishes exactly that image once its last event is out.
   */
  lemma LivesPublish(d: Definition, id: string, input: Any, now: Time, labels: seq<Label>, s: System)
    requires Lives(d, id, input, now, labels, s)
    ensures Subsequence(Stream(s.history), Image(s.history))
    ensures PublishedAfterSave(s.history)
    ensures forall p: nat, q: nat ::
              p < q < |s.history| && s.history[p].Published? && s.history[q].Published?
              && EventOf(s.history[p].edge).Some? && EventOf(s.history[q].edge).Some?
              ==> EventOf(s.history[p].edge) != EventOf(s.history[q].edge)
    ensures Resumed !in s.history && s.process.Some? && !s.process.value.stage.Publishing?
            ==> Stream(s.history) == Image(s.history)
  {
    var s0 := Created(d, id, input, now);
    CreatedHasShape(d, id, input, now);
    CreatedHasCalls(d, id, input, now);
    ReplayKeepsEvents(d, s0, labels, s);
    ReplayKeepsCalls(d, s0, labels, s);
    StreamIsSubsequence(s.history);
    NoEventsTwice(d, s);
    hide CallInvariant, EventInvariant, ShapeInvariant, Lives;
    if Resumed !in s.history {
      UncrashedStream(s.history);
    }
  }
}
