/** What is outside the engine gets to see of a life: the calls with their keys, and the events. */
module Observations {
  import opened Values
  import opened Records
  import opened Protocol
  import opened Progress
  import opened Events
  import opened OperationKeys

  datatype Observation =
    | ActionCall(key: string, data: Any)
    | CompensateCall(key: string, data: Any)
    | Heard(event: Event)

  function Seen(d: Definition, id: string, e: Effect): seq<Observation> {
    match e
    case Acted(i, _, data, _) =>
      if i < |d.steps| then [ActionCall(OperationID(id, d.steps[i].name), data)] else []
    case Reverted(j, data, _) =>
      if j < |d.steps| then [CompensateCall(CompensationOperationID(id, d.steps[j].name), data)] else []
    case Published(edge) =>
      if EventOf(edge).Some? then [Heard(EventOf(edge).value)] else []
    case _ => []
  }

  function Observed(d: Definition, id: string, h: seq<Effect>): seq<Observation> {
    if |h| == 0 then []
    else Observed(d, id, h[..|h| - 1]) + Seen(d, id, h[|h| - 1])
  }

  function EventsIn(seen: seq<Observation>): seq<Event> {
    if |seen| == 0 then []
    else
      var o := seen[|seen| - 1];
      EventsIn(seen[..|seen| - 1]) + if o.Heard? then [o.event] else []
  }

  /** What one label lets the outside see. */
  function SeenBy(d: Definition, id: string, s: System, l: Label): seq<Observation> {
    if Told(s, l) == [] then [] else Seen(d, id, Told(s, l)[0])
  }

  lemma ObservedAppend(d: Definition, id: string, h: seq<Effect>, e: Effect)
    ensures Observed(d, id, h + [e]) == Observed(d, id, h) + Seen(d, id, e)
  {
    assert (h + [e])[..|h + [e]| - 1] == h;
  }

  lemma ObservedAfter(d: Definition, id: string, s: System, l: Label, s': System)
    requires Next(d, s, l) == Some(s')
    ensures Observed(d, id, s'.history) == Observed(d, id, s.history) + SeenBy(d, id, s, l)
  {
    NextTells(d, s, l, s');
    var told := Told(s, l);
    if told == [] {
      assert s'.history == s.history;
    } else {
      ObservedAppend(d, id, s.history, told[0]);
      assert told == [told[0]];
    }
  }

  /** The events among the observations are the published stream. */
  lemma {:induction false} ObservedEventsAreTheStream(d: Definition, id: string, h: seq<Effect>)
    ensures EventsIn(Observed(d, id, h)) == Stream(h)
  {
    if |h| > 0 {
      var front, e := h[..|h| - 1], h[|h| - 1];
      ObservedEventsAreTheStream(d, id, front);
      EventsInAppend(Observed(d, id, front), Seen(d, id, e));
      SeenEvent(d, id, e);
      hide Seen, EventsIn;
      assert h == front + [e];
      StreamAppend(front, e);
    }
  }

  lemma EventsInAppend(seen: seq<Observation>, more: seq<Observation>)
    requires |more| <= 1
    ensures EventsIn(seen + more) == EventsIn(seen) + EventsIn(more)
  {
    if |more| == 0 {
      assert seen + more == seen;
    } else {
      assert (seen + more)[..|seen + more| - 1] == seen;
    }
  }

  lemma SeenEvent(d: Definition, id: string, e: Effect)
    ensures |Seen(d, id, e)| <= 1
    ensures EventsIn(Seen(d, id, e)) ==
            if e.Published? && EventOf(e.edge).Some? then [EventOf(e.edge).value] else []
  {
  }
}
