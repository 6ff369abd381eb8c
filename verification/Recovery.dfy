/** Recovery after a restart: list what is incomplete, order it, and resume one after the other. */
module Recovery {
  import opened Values
  import opened Records
  import opened Protocol
  import opened RecordShape
  import opened Progress
  import opened Observations
  import opened Executions
  import opened MemoryStore
  import opened Verdicts
  import opened LivedRecords
  import opened History
  import opened AtMostOnce
  import opened RetryLoop
  import opened Events
  import opened Announcements
  import opened OperationKeys
  import opened Leases
  import opened Environments
  import opened Transparency
  import opened Worlds
  import opened Engine
  import opened Runs
  import opened Scans
  import opened RecoveryOrder

  datatype RecoveryPolicy = RecoverAutomatically | RecoverSkipInFlight

  datatype RecoveryResult = RecoveryResult(execution: Execution, err: Option<Error>)

  function KeyOf(exec: Execution): Key {
    Key(exec.createdAt, exec.id)
  }

  function Keys(list: seq<Execution>): seq<Key> {
    seq(|list|, k requires 0 <= k < |list| => KeyOf(list[k]))
  }

  /** The order in which incomplete records are processed: there is only one. */
  ghost predicate IsRecoveryOrder(keys: seq<Key>, contents: map<string, Record>) {
    && Ascending(keys)
    && (forall k :: k in keys ==> k.id in contents && !contents[k.id].status.IsTerminal()
                                  && k.createdAt == contents[k.id].createdAt)
    && (forall id :: id in contents && !contents[id].status.IsTerminal() ==> Key(contents[id].createdAt, id) in keys)
  }

  /** For every listing order there is one order of processing. */
  lemma RecoveryOrderIsUnique(a: seq<Key>, b: seq<Key>, contents: map<string, Record>)
    requires IsRecoveryOrder(a, contents) && IsRecoveryOrder(b, contents)
    ensures a == b
  {
    AscendingIsUnique(a, b);
  }

  lemma InsertedKeys(list: seq<Execution>, e: Execution, at: nat)
    requires at <= |list|
    ensures var k := Keys(list); Keys(list[..at] + [e] + list[at..]) == k[..at] + [KeyOf(e)] + k[at..]
  {
  }

  /** Puts the executions in order; any sorting algorithm gives the same. */
  method SortByAge(list: seq<Execution>) returns (sorted: seq<Execution>)
    requires Separate(list)
    ensures Ascending(Keys(sorted)) && multiset(sorted) == multiset(list)
  {
    sorted := [];
    for i := 0 to |list|
      invariant Ascending(Keys(sorted)) && multiset(sorted) == multiset(list[..i])
    {
      var at := PlaceFor(sorted, list[i]);
      NewKey(list, i, sorted);
      InsertKeepsAscending(Keys(sorted), KeyOf(list[i]), at);
      InsertedKeys(sorted, list[i], at);
      assert sorted == sorted[..at] + sorted[at..];
      assert list[..i + 1] == list[..i] + [list[i]];
      sorted := sorted[..at] + [list[i]] + sorted[at..];
    }
    assert list[..|list|] == list;
  }

  lemma NewKey(list: seq<Execution>, i: nat, sorted: seq<Execution>)
    requires Separate(list) && i < |list| && multiset(sorted) == multiset(list[..i])
    ensures KeyOf(list[i]) !in Keys(sorted)
  {
    forall k | 0 <= k < |sorted|
      ensures Keys(sorted)[k] != KeyOf(list[i])
    {
      assert sorted[k] in multiset(list[..i]);
    }
  }

  /** How many of the sorted executions come before `e`. */
  method PlaceFor(sorted: seq<Execution>, e: Execution) returns (at: nat)
    ensures at <= |sorted|
    ensures forall k :: 0 <= k < at ==> Before(Keys(sorted)[k], KeyOf(e))
    ensures at < |sorted| ==> !Before(Keys(sorted)[at], KeyOf(e))
  {
    at := 0;
    while at < |sorted| && Before(KeyOf(sorted[at]), KeyOf(e))
      invariant at <= |sorted|
      invariant forall k :: 0 <= k < at ==> Before(Keys(sorted)[k], KeyOf(e))
    {
      at := at + 1;
    }
  }

  lemma SortedIsSeparate(list: seq<Execution>, sorted: seq<Execution>)
    requires Separate(list) && multiset(sorted) == multiset(list) && Ascending(Keys(sorted))
    ensures Separate(sorted) && forall e :: e in sorted <==> e in list
  {
    assert forall e :: e in sorted <==> e in multiset(sorted);
    assert forall e :: e in list <==> e in multiset(list);
    forall j, k | 0 <= j < k < |sorted|
      ensures sorted[j] != sorted[k] && sorted[j].steps != sorted[k].steps && sorted[j].id != sorted[k].id
    {
      var keys := Keys(sorted);
      assert Before(keys[j], keys[k]);
      BeforeIsTotal(keys[j], keys[k]);
      assert sorted[j] in list && sorted[k] in list;
    }
  }

  // ---------- one recovery ----------

  function SagaOf(sagas: map<string, Definition>, r: Record): Option<Definition> {
    if r.sagaName in sagas then Some(sagas[r.sagaName]) else None
  }

  /** The lives behind the stored records of registered sagas, cautious ones under that policy. */
  ghost predicate Sound(sagas: map<string, Definition>, policy: RecoveryPolicy, contents: map<string, Record>,
                        lives: map<string, Life>)
  {
    forall id :: id in contents && SagaOf(sagas, contents[id]).Some? ==>
      id in lives && Led(SagaOf(sagas, contents[id]).value, lives[id], contents[id], policy.RecoverSkipInFlight?)
  }

  /** Lives of registered sagas that were in the world that the environment answers as still are. */
  ghost predicate FaithKept(fate: Fate, sagas: map<string, Definition>, lives: map<string, Life>, lives': map<string, Life>)
  {
    forall id :: id in lives && lives[id].end.disk.sagaName in sagas ==>
      var name := lives[id].end.disk.sagaName;
      id in lives' && lives'[id].end.disk.sagaName == name && KeepsFaith(fate, sagas[name], lives[id], lives'[id])
  }

  lemma FaithKeptTwice(fate: Fate, sagas: map<string, Definition>, lives: map<string, Life>, lives': map<string, Life>,
                       lives'': map<string, Life>)
    requires FaithKept(fate, sagas, lives, lives') && FaithKept(fate, sagas, lives', lives'')
    ensures FaithKept(fate, sagas, lives, lives'')
  {
    hide KeepsFaith;
    forall id | id in lives && lives[id].end.disk.sagaName in sagas
      ensures KeepsFaith(fate, sagas[lives[id].end.disk.sagaName], lives[id], lives''[id])
    {
      KeepsFaithTwice(fate, sagas[lives[id].end.disk.sagaName], lives[id], lives'[id], lives''[id]);
    }
  }

  lemma FaithKeptAtFirst(fate: Fate, sagas: map<string, Definition>, lives: map<string, Life>)
    ensures FaithKept(fate, sagas, lives, lives)
  {
  }

  lemma FaithKeptAfter(fate: Fate, sagas: map<string, Definition>, lives: map<string, Life>, id: string, d: Definition,
                       l: Life)
    requires id in lives && lives[id].end.disk.sagaName in sagas && sagas[lives[id].end.disk.sagaName] == d
    requires l.end.disk.sagaName == lives[id].end.disk.sagaName && KeepsFaith(fate, d, lives[id], l)
    ensures FaithKept(fate, sagas, lives, lives[id := l])
  {
    hide AnswersAs, FaithfulLife;
  }

  /** What one recovery does about one record: its report, and what the outside saw of it. */
  datatype Handling = Handling(result: RecoveryResult, seen: seq<Observation>)

  /** Whether the record is resumed at all. */
  ghost predicate Resumable(sagas: map<string, Definition>, policy: RecoveryPolicy, r: Record) {
    SagaOf(sagas, r).Some? && !(policy.RecoverSkipInFlight? && HasInFlightStep(r))
  }

  /** The life was carried on by one process, or, if the lease was not to be had, left alone. */
  ghost predicate CarriesOn(d: Definition, l: Life, l': Life, err: Option<Error>, seen: seq<Observation>) {
    if err.Some? && err.value.Locked? then l' == l && seen == []
    else Continues(d, l, l', seen) || (l' == l && seen == [] && err.Some? && err.value.LockFault?)
  }

  /** What recovery made of the record `was` and of its life, and what it reported. */
  ghost predicate Handled(sagas: map<string, Definition>, policy: RecoveryPolicy, id: string,
                          was: Record, after: Record, lives: map<string, Life>, lives': map<string, Life>, h: Handling)
  {
    if Resumable(sagas, policy, was) then
      && id in lives && id in lives' && lives[id].end.disk == was && lives'[id].end.disk == after
      && CarriesOn(SagaOf(sagas, was).value, lives[id], lives'[id], h.result.err, h.seen)
      && ((h.result.err.Some? && Disturbed(h.result.err.value))
          || (Tells(after.status, h.result.err) && Reported(was, after, h.result.err)))
    else
      && after == was && Kept(lives, lives', id) && h.seen == []
      && h.result.err == Some(if SagaOf(sagas, was).None? then Unregistered(was.sagaName) else RecoverySkipped)
  }

  ghost predicate Kept(lives: map<string, Life>, lives': map<string, Life>, id: string) {
    (id in lives <==> id in lives') && (id in lives ==> lives[id] == lives'[id])
  }

  lemma SoundAfter(sagas: map<string, Definition>, policy: RecoveryPolicy, contents: map<string, Record>,
                   lives: map<string, Life>, id: string, after: Record, l: Life)
    requires Sound(sagas, policy, contents, lives) && id in contents
    requires SagaOf(sagas, contents[id]).Some?
    requires Led(SagaOf(sagas, contents[id]).value, l, after, policy.RecoverSkipInFlight?)
    requires after.sagaName == contents[id].sagaName
    ensures Sound(sagas, policy, contents[id := after], lives[id := l])
  {
    hide Led;
  }

  lemma SoundAt(sagas: map<string, Definition>, policy: RecoveryPolicy, contents: map<string, Record>,
                lives: map<string, Life>, id: string)
    requires Sound(sagas, policy, contents, lives) && id in contents && SagaOf(sagas, contents[id]).Some?
    ensures id in lives && lives[id].end.disk == contents[id]
    ensures Led(SagaOf(sagas, contents[id]).value, lives[id], contents[id], policy.RecoverSkipInFlight?)
  {
  }

  function Subjects(handled: seq<Handling>): seq<Execution> {
    seq(|handled|, k requires 0 <= k < |handled| => handled[k].result.execution)
  }

  function Results(handled: seq<Handling>): seq<RecoveryResult> {
    seq(|handled|, k requires 0 <= k < |handled| => handled[k].result)
  }

  ghost predicate Touches(handled: seq<Handling>, id: string) {
    exists k :: 0 <= k < |handled| && handled[k].result.execution.id == id
  }

  /** Every record handled was handled as it should be, and no other was touched. */
  ghost predicate Progressed(sagas: map<string, Definition>, policy: RecoveryPolicy, was: map<string, Record>,
                             contents: map<string, Record>, lives: map<string, Life>, lives': map<string, Life>,
                             handled: seq<Handling>)
  {
    && contents.Keys == was.Keys
    && (forall k :: 0 <= k < |handled| ==>
          var id := handled[k].result.execution.id;
          id in was && Handled(sagas, policy, id, was[id], contents[id], lives, lives', handled[k]))
    && (forall id :: !Touches(handled, id) ==>
          Kept(lives, lives', id) && (id in was ==> contents[id] == was[id]))
  }

  lemma NothingProgressed(sagas: map<string, Definition>, policy: RecoveryPolicy, contents: map<string, Record>,
                          lives: map<string, Life>)
    ensures Progressed(sagas, policy, contents, contents, lives, lives, [])
  {
  }

  lemma TouchesSnoc(handled: seq<Handling>, h: Handling)
    ensures forall id :: Touches(handled + [h], id) <==> Touches(handled, id) || id == h.result.execution.id
  {
    var all := handled + [h];
    assert forall k :: 0 <= k < |handled| ==> all[k] == handled[k];
    assert all[|handled|] == h;
  }

  /** What was handled does not depend on what happens to other records. */
  lemma HandledStays(sagas: map<string, Definition>, policy: RecoveryPolicy, id: string, was: Record, after: Record,
                     lives: map<string, Life>, lives': map<string, Life>, lives'': map<string, Life>, h: Handling)
    requires Handled(sagas, policy, id, was, after, lives, lives', h) && Kept(lives', lives'', id)
    ensures Handled(sagas, policy, id, was, after, lives, lives'', h)
  {
    hide CarriesOn, Tells, Reported, Disturbed, HasInFlightStep;
  }

  /** A record whose life was not touched before is handled the same from the first lives on. */
  lemma HandledFirst(sagas: map<string, Definition>, policy: RecoveryPolicy, id: string, was: Record, after: Record,
                     lives: map<string, Life>, lives': map<string, Life>, lives'': map<string, Life>, h: Handling)
    requires Handled(sagas, policy, id, was, after, lives', lives'', h) && Kept(lives, lives', id)
    ensures Handled(sagas, policy, id, was, after, lives, lives'', h)
  {
    hide CarriesOn, Tells, Reported, Disturbed, HasInFlightStep;
  }

  lemma ProgressedSnoc(sagas: map<string, Definition>, policy: RecoveryPolicy, was: map<string, Record>,
                       contents: map<string, Record>, contents': map<string, Record>, lives: map<string, Life>,
                       lives': map<string, Life>, lives'': map<string, Life>, handled: seq<Handling>, h: Handling)
    requires Progressed(sagas, policy, was, contents, lives, lives', handled)
    requires var id := h.result.execution.id;
             && !Touches(handled, id) && id in contents && id in contents'
             && contents' == contents[id := contents'[id]]
             && Handled(sagas, policy, id, contents[id], contents'[id], lives', lives'', h)
             && forall other :: other != id ==> Kept(lives', lives'', other)
    ensures Progressed(sagas, policy, was, contents', lives, lives'', handled + [h])
  {
    hide Handled;
    var id0, all := h.result.execution.id, handled + [h];
    TouchesSnoc(handled, h);
    assert contents[id0] == was[id0] && Kept(lives, lives', id0);
    forall k | 0 <= k < |all|
      ensures var id := all[k].result.execution.id;
              id in was && Handled(sagas, policy, id, was[id], contents'[id], lives, lives'', all[k])
    {
      if k < |handled| {
        var id := handled[k].result.execution.id;
        assert all[k] == handled[k] && Touches(handled, id) && id != id0;
        HandledStays(sagas, policy, id, was[id], contents[id], lives, lives', lives'', handled[k]);
      } else {
        HandledFirst(sagas, policy, id0, contents[id0], contents'[id0], lives, lives', lives'', h);
      }
    }
    forall id | !Touches(all, id)
      ensures Kept(lives, lives'', id) && (id in was ==> contents'[id] == was[id])
    {
      assert Kept(lives, lives', id) && Kept(lives', lives'', id);
    }
  }

  /** Whatever was reported as disturbed by the store or a lease really was, since `from`. */
  ghost predicate AllHindered(fate: Fate, locking: bool, leases: map<string, Lease>, from: Mark, to: Mark,
                              handled: seq<Handling>)
  {
    forall k :: 0 <= k < |handled| && handled[k].result.err.Some? && Disturbed(handled[k].result.err.value) ==>
      var id := handled[k].result.execution.id;
      Hindered(fate, locking, LeaseIn(leases, id), from, to, id, handled[k].result.err.value)
  }

  lemma AllHinderedSnoc(fate: Fate, locking: bool, leases: map<string, Lease>, from: Mark, mid: Mark, to: Mark,
                        handled: seq<Handling>, h: Handling)
    requires AllHindered(fate, locking, leases, from, mid, handled) && Upto(from, mid) && Upto(mid, to)
    requires var id := h.result.execution.id;
             h.result.err.Some? && Disturbed(h.result.err.value) ==>
               Hindered(fate, locking, LeaseIn(leases, id), mid, to, id, h.result.err.value)
    ensures AllHindered(fate, locking, leases, from, to, handled + [h])
  {
    hide Hindered, Disturbed;
    var all := handled + [h];
    forall k | 0 <= k < |all| && all[k].result.err.Some? && Disturbed(all[k].result.err.value)
      ensures var id := all[k].result.execution.id;
              Hindered(fate, locking, LeaseIn(leases, id), from, to, id, all[k].result.err.value)
    {
      var id := all[k].result.execution.id;
      HinderedWider(fate, locking, LeaseIn(leases, id), if k < |handled| then from else mid,
                    if k < |handled| then mid else to, from, to, id, all[k].result.err.value);
    }
  }

  /** From `from` on the store never fails, and no lease on an incomplete record keeps a new name out. */
  ghost predicate Calm(fate: Fate, locking: bool, was: map<string, Record>, leases: map<string, Lease>, from: Mark) {
    && fate.NeverFails(from)
    && (locking ==> forall id :: id in was && !was[id].status.IsTerminal() ==> fate.NeverKeepsOut(LeaseIn(leases, id), from))
  }

  /** Everything that may be resumed is terminal now. */
  ghost predicate Drained(sagas: map<string, Definition>, policy: RecoveryPolicy, was: map<string, Record>,
                          contents: map<string, Record>)
  {
    forall id :: id in was && id in contents && (was[id].status.IsTerminal() || Resumable(sagas, policy, was[id])) ==>
      contents[id].status.IsTerminal()
  }

  /**
   * Recovery drains: where the store does not fail and no lease is in the way, no record is left
   * incomplete that may be resumed at all.
   */
  lemma RecoveryDrains(sagas: map<string, Definition>, policy: RecoveryPolicy, fate: Fate, locking: bool,
                       was: map<string, Record>, leases: map<string, Lease>, from: Mark, to: Mark,
                       contents: map<string, Record>, lives: map<string, Life>, lives': map<string, Life>,
                       handled: seq<Handling>)
    requires Progressed(sagas, policy, was, contents, lives, lives', handled)
    requires IsRecoveryOrder(Keys(Subjects(handled)), was)
    requires AllHindered(fate, locking, leases, from, to, handled) && Calm(fate, locking, was, leases, from)
    ensures Drained(sagas, policy, was, contents)
  {
    hide CarriesOn, HasInFlightStep, Hindered, Reported;
    var keys := Keys(Subjects(handled));
    forall id | id in contents && !was[id].status.IsTerminal() && Resumable(sagas, policy, was[id])
      ensures contents[id].status.IsTerminal()
    {
      var k :| 0 <= k < |keys| && keys[k] == Key(was[id].createdAt, id);
      var h := handled[k];
      assert h.result.execution.id == id;
      if h.result.err.Some? {
        NothingHinders(fate, locking, LeaseIn(leases, id), from, to, id, h.result.err.value);
      }
    }
    forall id | id in contents && was[id].status.IsTerminal()
      ensures contents[id].status.IsTerminal()
    {
      TouchedIsIncomplete(was, handled, id);
    }
  }

  /** With every saga registered and nothing to be skipped, that is all of them. */
  lemma AllDrained(sagas: map<string, Definition>, was: map<string, Record>, contents: map<string, Record>)
    requires Drained(sagas, RecoverAutomatically, was, contents) && was.Keys == contents.Keys
    requires forall id :: id in was ==> SagaOf(sagas, was[id]).Some?
    ensures forall id :: id in contents ==> contents[id].status.IsTerminal()
  {
  }

  lemma TouchedIsIncomplete(was: map<string, Record>, handled: seq<Handling>, id: string)
    requires IsRecoveryOrder(Keys(Subjects(handled)), was)
    ensures Touches(handled, id) ==> id in was && !was[id].status.IsTerminal()
  {
    if Touches(handled, id) {
      var keys := Keys(Subjects(handled));
      var k :| 0 <= k < |handled| && handled[k].result.execution.id == id;
      assert keys[k].id == id && keys[k] in keys;
    }
  }

  /**
   * Every finished record whose life was one in the world that the environment answers as ended as the
   * reference evaluation of its saga does in that world, whatever crashes and recoveries there were.
   */
  ghost predicate EndAsInWorlds(fate: Fate, sagas: map<string, Definition>, was: map<string, Record>,
                                contents: map<string, Record>, lives: map<string, Life>)
  {
    forall id :: id in was && id in contents && id in lives && SagaOf(sagas, was[id]).Some?
                 && contents[id].status.IsTerminal() ==>
      EndsAsInWorlds(fate, SagaOf(sagas, was[id]).value, lives[id], contents[id])
  }

  ghost predicate EndsAsInWorlds(fate: Fate, d: Definition, l: Life, r: Record) {
    forall w: World :: AnswersAs(fate, d, l.id, w) && FaithfulLife(d, w, l) ==> EndOf(r) == Reference(d, w, l.input)
  }

  lemma FaithfulLivesEndAlike(fate: Fate, sagas: map<string, Definition>, policy: RecoveryPolicy, was: map<string, Record>,
                              contents: map<string, Record>, lives: map<string, Life>, lives': map<string, Life>,
                              handled: seq<Handling>)
    requires Sound(sagas, policy, was, lives) && Sound(sagas, policy, contents, lives')
    requires Progressed(sagas, policy, was, contents, lives, lives', handled) && FaithKept(fate, sagas, lives, lives')
    ensures EndAsInWorlds(fate, sagas, was, contents, lives)
  {
    forall id | id in was && id in contents && id in lives && SagaOf(sagas, was[id]).Some?
                && contents[id].status.IsTerminal()
      ensures EndsAsInWorlds(fate, SagaOf(sagas, was[id]).value, lives[id], contents[id])
    {
      var d := SagaOf(sagas, was[id]).value;
      LedEndsThere(d, lives[id], was[id], policy.RecoverSkipInFlight?);
      SagaStays(fate, sagas, policy, was, contents, lives, lives', handled, id);
      FaithfulLifeEnds(fate, d, policy, lives[id], lives'[id], contents[id]);
    }
  }

  lemma SagaStays(fate: Fate, sagas: map<string, Definition>, policy: RecoveryPolicy, was: map<string, Record>,
                  contents: map<string, Record>, lives: map<string, Life>, lives': map<string, Life>,
                  handled: seq<Handling>, id: string)
    requires Progressed(sagas, policy, was, contents, lives, lives', handled) && FaithKept(fate, sagas, lives, lives')
    requires id in was && id in lives && lives[id].end.disk == was[id] && SagaOf(sagas, was[id]).Some?
    ensures id in contents && contents[id].sagaName == was[id].sagaName
  {
    hide CarriesOn, HasInFlightStep, Reported, Tells, KeepsFaith;
    if Touches(handled, id) {
      var k :| 0 <= k < |handled| && handled[k].result.execution.id == id;
      assert Handled(sagas, policy, id, was[id], contents[id], lives, lives', handled[k]);
    }
  }

  lemma FaithfulLifeEnds(fate: Fate, d: Definition, policy: RecoveryPolicy, l: Life, l': Life, r: Record)
    requires Led(d, l', r, policy.RecoverSkipInFlight?) && r.status.IsTerminal() && KeepsFaith(fate, d, l, l')
    ensures EndsAsInWorlds(fate, d, l, r)
  {
    hide AnswersAs, FaithfulLife, Reference, EndOf, Lives;
    forall w: World | AnswersAs(fate, d, l.id, w) && FaithfulLife(d, w, l)
      ensures EndOf(r) == Reference(d, w, l.input)
    {
      FaithfulEnd(d, w, l');
    }
  }

  /** What two recoveries in a row let the outside see of a life is one after the other. */
  lemma ContinuesTwice(d: Definition, l0: Life, l1: Life, l2: Life, seen1: seq<Observation>, seen2: seq<Observation>)
    requires Continues(d, l0, l1, seen1) && Continues(d, l1, l2, seen2)
    ensures SeenOf(d, l2) == SeenOf(d, l0) + (seen1 + seen2) && Later(l0.end.disk, l2.end.disk)
  {
    LaterIsTransitive(l0.end.disk, l1.end.disk, l2.end.disk);
  }

  /**
   * What a sound store says of any of its executions, after however many recoveries: the calls and
   * events that the outside really saw are those of one life, ordered, announced, allowed and told in
   * full; and under RecoverSkipInFlight nothing was done twice.
   */
  lemma SoundStoresKeepOrder(sagas: map<string, Definition>, policy: RecoveryPolicy, contents: map<string, Record>,
                             lives: map<string, Life>, id: string)
    requires Sound(sagas, policy, contents, lives) && id in contents && SagaOf(sagas, contents[id]).Some?
    ensures id in lives
    ensures var d, l := SagaOf(sagas, contents[id]).value, lives[id];
            var h := l.end.history;
            && l.end.disk == contents[id]
            && CallsOrdered(h) && WriteAhead(h) && AllJustified(d, h)
            && EventsIn(SeenOf(d, l)) == Stream(h) && Subsequence(Stream(h), Image(h))
            && (forall ev :: ev in EventsIn(SeenOf(d, l)) ==> Happened(ev, contents[id]))
            && (policy.RecoverSkipInFlight? ==> NothingRepeats(h))
            && (policy.RecoverSkipInFlight? && Distinct(NamesOf(d)) ==> CompensatesOnce(SeenOf(d, l)))
  {
    var d, l, r := SagaOf(sagas, contents[id]).value, lives[id], contents[id];
    var cautious := policy.RecoverSkipInFlight?;
    LedEndsThere(d, l, r, cautious);
    LedLivesKeepOrder(d, l, r, cautious);
    hide Led, CallsOrdered, WriteAhead, AllJustified, EventsIn, SeenOf, Stream, Subsequence, Image, NothingRepeats,
         Distinct, CompensatesOnce;
    if cautious {
      CautiousLedLivesRepeatNothing(d, l, r);
      if Distinct(NamesOf(d)) {
        CautiousCompensatesOnce(d, l, r);
      }
    }
  }

  class RecoveryManager {
    const store: Store
    const locking: bool
    const env: Environment
    const sagas: map<string, Definition>
    const policy: RecoveryPolicy

    constructor (store: Store, locking: bool, env: Environment, sagas: map<string, Definition>, policy: RecoveryPolicy)
      ensures this.store == store && this.locking == locking && this.env == env
      ensures this.sagas == sagas && this.policy == policy
    {
      this.store, this.locking, this.env, this.sagas, this.policy := store, locking, env, sagas, policy;
    }

    /** What this error reports of the store or a lease really happened since the method began. */
    twostate predicate Truthful(id: string, new err: Option<Error>)
      reads env, store
    {
      && Upto(old(env.drawn), env.drawn)
      && store.leases - {id} == old(store.leases) - {id}
      && (err.Some? && Disturbed(err.value) ==>
            Hindered(env.fate, locking, old(store.LeaseOn(id)), old(env.drawn), env.drawn, id, err.value))
    }

    /** Resumes one listed execution, unless its saga is unknown or policy forbids it. */
    method RecoverOne(exec: Execution, ghost lives: map<string, Life>)
      returns (h: Handling, ghost lives': map<string, Life>)
      requires store.Valid() && store.Apart(exec) && store.IsIncomplete(exec)
      requires Sound(sagas, policy, store.contents, lives)
      modifies exec, exec.steps, store, env
      ensures Truthful(exec.id, h.result.err)
      ensures store.Valid() && h.result.execution == exec
      ensures fresh(store.records - old(store.records)) && fresh(store.arrays - old(store.arrays))
      ensures exec.id in store.contents
      ensures store.contents == old(store.contents)[exec.id := store.contents[exec.id]]
      ensures Handled(sagas, policy, exec.id, old(store.contents)[exec.id], store.contents[exec.id], lives, lives', h)
      ensures forall other :: other != exec.id ==> Kept(lives, lives', other)
      ensures Sound(sagas, policy, store.contents, lives') && FaithKept(env.fate, sagas, lives, lives')
    {
      hide Store.Valid, Store.Apart, Led, CarriesOn, Tells, Reported, FaithKept, KeepsFaith, Sound, Hindered;
      ghost var was := store.contents;
      lives' := lives;
      FaithKeptAtFirst(env.fate, sagas, lives);
      if exec.sagaName !in sagas {
        h := Handling(RecoveryResult(exec, Some(Unregistered(exec.sagaName))), []);
        return;
      }
      var d := sagas[exec.sagaName];
      if policy == RecoverSkipInFlight {
        var found := FindInFlight(exec.steps);
        if found {
          h := Handling(RecoveryResult(exec, Some(RecoverySkipped)), []);
          return;
        }
      }
      SoundAt(sagas, policy, was, lives, exec.id);
      ghost var l: Life;
      var err, seen;
      err, seen, l := ResumeOne(d, exec, lives[exec.id]);
      h, lives' := Handling(RecoveryResult(exec, err), seen), lives[exec.id := l];
      SoundAfter(sagas, policy, was, lives, exec.id, store.contents[exec.id], l);
      FaithKeptAfter(env.fate, sagas, lives, exec.id, d, l);
    }

    method ResumeOne(d: Definition, exec: Execution, ghost l: Life)
      returns (err: Option<Error>, seen: seq<Observation>, ghost l': Life)
      requires store.Valid() && store.Apart(exec) && store.IsIncomplete(exec)
      requires Led(d, l, exec.Snapshot(), policy.RecoverSkipInFlight?)
      requires policy.RecoverSkipInFlight? ==> !HasInFlightStep(exec.Snapshot())
      modifies exec, exec.steps, store, env
      ensures Truthful(exec.id, err)
      ensures store.Valid()
      ensures fresh(store.records - old(store.records)) && fresh(store.arrays - old(store.arrays))
      ensures exec.id in store.contents
      ensures store.contents == old(store.contents)[exec.id := store.contents[exec.id]]
      ensures var after := store.contents[exec.id];
              && l'.end.disk == after && after.sagaName == exec.sagaName
              && Led(d, l', after, policy.RecoverSkipInFlight?) && CarriesOn(d, l, l', err, seen)
              && ((err.Some? && Disturbed(err.value))
                  || (Tells(after.status, err) && Reported(old(exec.Snapshot()), after, err)))
      ensures KeepsFaith(env.fate, d, l, l')
    {
      ghost var cautious := policy.RecoverSkipInFlight?;
      ghost var r := exec.Snapshot();
      LedHasShape(d, l, r, cautious);
      hide Led, CarriesOn, Ran, Tells, Reported, Disturbed, Faithfully, KeepsFaith, Store.Valid, Store.Apart, Shape,
           HasInFlightStep, StoredBy;
      ghost var outcome, labels, end;
      err, seen, outcome, labels, end := Runs.Resume(d, store, locking, env, exec, l.end.history + [Resumed]);
      l' := ResumedLife(d, l, r, labels, end, outcome, err, seen, cautious);
      ResumedFaithfully(env.fate, d, l, l', r, labels, end, outcome, err, seen, cautious);
      FreshIsStored(old(store.contents), r, end);
    }

    /** Listed executions, still as they are stored and owned by nobody else. */
    ghost predicate Waiting(list: seq<Execution>, from: nat)
      reads store, list, set e | e in list :: e.steps
    {
      forall k :: from <= k < |list| ==> store.Apart(list[k]) && store.IsIncomplete(list[k])
    }

    lemma ListIsOrdered(list: seq<Execution>, sorted: seq<Execution>)
      requires store.Listing(list, {}) && multiset(sorted) == multiset(list) && Ascending(Keys(sorted))
      ensures IsRecoveryOrder(Keys(sorted), store.contents) && Separate(sorted)
      ensures forall e :: e in sorted ==> e in list && store.IsIncomplete(e)
    {
      SortedIsSeparate(list, sorted);
      forall e | e in sorted
        ensures store.IsIncomplete(e)
      {
        assert e in list;
      }
      forall key | key in Keys(sorted)
        ensures var id := key.id;
                && id in store.contents && !store.contents[id].status.IsTerminal()
                && key.createdAt == store.contents[id].createdAt
      {
        var k :| 0 <= k < |sorted| && Keys(sorted)[k] == key;
        assert sorted[k] in sorted && store.IsIncomplete(sorted[k]);
      }
      forall id | id in store.contents && !store.contents[id].status.IsTerminal()
        ensures Key(store.contents[id].createdAt, id) in Keys(sorted)
      {
        assert Includes(list, id);
        var k :| 0 <= k < |list| && list[k].id == id;
        assert store.IsIncomplete(list[k]) && list[k] in sorted;
        var m :| 0 <= m < |sorted| && sorted[m] == list[k];
        assert Keys(sorted)[m] == KeyOf(sorted[m]);
      }
    }

    method ListInOrder() returns (sorted: seq<Execution>)
      requires store.Valid()
      ensures IsRecoveryOrder(Keys(sorted), store.contents) && Separate(sorted) && Waiting(sorted, 0)
      ensures forall e :: e in sorted ==> fresh(e) && fresh(e.steps)
    {
      var list := store.ListIncomplete();
      sorted := SortByAge(list);
      ListIsOrdered(list, sorted);
      hide Store.Valid, Store.IsIncomplete, Store.Listing, IsRecoveryOrder, Separate;
      assert forall e :: e in sorted ==> fresh(e) && fresh(e.steps) && store.Apart(e);
      assert forall k :: 0 <= k < |sorted| ==> sorted[k] in sorted;
    }

    /** Recovers the `i`-th listed execution. */
    method RecoverNext(sorted: seq<Execution>, i: nat, handled: seq<Handling>, ghost was: map<string, Record>,
                       ghost leases: map<string, Lease>, ghost from: Mark,
                       ghost lives: map<string, Life>, ghost lives': map<string, Life>)
      returns (more: seq<Handling>, ghost lives'': map<string, Life>)
      requires i < |sorted| && Separate(sorted) && Waiting(sorted, i) && Subjects(handled) == sorted[..i]
      requires store.Valid() && Sound(sagas, policy, store.contents, lives')
      requires Progressed(sagas, policy, was, store.contents, lives, lives', handled)
      requires AllHindered(env.fate, locking, leases, from, env.drawn, handled) && Upto(from, env.drawn)
      requires store.LeaseOn(sorted[i].id) == LeaseIn(leases, sorted[i].id) && FaithKept(env.fate, sagas, lives, lives')
      modifies store, env, sorted[i], sorted[i].steps
      ensures AllHindered(env.fate, locking, leases, from, env.drawn, more) && Upto(from, env.drawn)
      ensures store.leases - {sorted[i].id} == old(store.leases) - {sorted[i].id}
      ensures Subjects(more) == sorted[..i + 1] && Waiting(sorted, i + 1)
      ensures store.Valid() && Sound(sagas, policy, store.contents, lives'') && FaithKept(env.fate, sagas, lives, lives'')
      ensures Progressed(sagas, policy, was, store.contents, lives, lives'', more)
      ensures fresh(store.records - old(store.records)) && fresh(store.arrays - old(store.arrays))
    {
      hide Handled, Sound, Store.Valid, Progressed, Kept, AllHindered, Hindered, Disturbed, FaithKept;
      var exec := sorted[i];
      assert Waiting(sorted, i) && store.Apart(exec) && store.IsIncomplete(exec);
      var h;
      h, lives'' := RecoverOne(exec, lives');
      FaithKeptTwice(env.fate, sagas, lives, lives', lives'');
      more := handled + [h];
      NotTouched(sorted, i, handled);
      ProgressedSnoc(sagas, policy, was, old(store.contents), store.contents, lives, lives', lives'', handled, h);
      AllHinderedSnoc(env.fate, locking, leases, from, old(env.drawn), env.drawn, handled, h);
    }

    /**
     * Resumes everything incomplete, oldest first; one failing does not keep the rest from being
     * tried. The lives behind the records are carried on, and what the outside saw is theirs.
     */
    method Recover(ghost lives: map<string, Life>)
      returns (results: seq<RecoveryResult>, err: Option<Error>, handled: seq<Handling>, ghost lives': map<string, Life>)
      requires store.Valid() && Sound(sagas, policy, store.contents, lives)
      modifies store, env
      ensures store.Valid() && Sound(sagas, policy, store.contents, lives')
      ensures results == Results(handled)
      ensures err == if env.fate.fails(old(env.drawn.calls)) then Some(StoreFault("")) else None
      ensures err.Some? ==> results == [] && store.contents == old(store.contents) && lives' == lives
      ensures err.None? ==> IsRecoveryOrder(Keys(Subjects(handled)), old(store.contents))
      ensures err.None? ==> Progressed(sagas, policy, old(store.contents), store.contents, lives, lives', handled)
      ensures AllHindered(env.fate, locking, old(store.leases), old(env.drawn), env.drawn, handled)
      ensures Calm(env.fate, locking, old(store.contents), old(store.leases), old(env.drawn)) ==>
                Drained(sagas, policy, old(store.contents), store.contents)
      ensures FaithKept(env.fate, sagas, lives, lives')
      ensures err.None? ==> EndAsInWorlds(env.fate, sagas, old(store.contents), store.contents, lives)
    {
      hide FaithKept, EndAsInWorlds, Handled, Sound, Store.Valid, Waiting, Progressed, Separate, IsRecoveryOrder,
           AllHindered, Drained;
      handled, lives' := [], lives;
      NothingProgressed(sagas, policy, store.contents, lives);
      FaithKeptAtFirst(env.fate, sagas, lives);
      NothingHandled(env.fate, locking, store.leases, env.drawn, env.drawn);
      var broken := env.StoreFails();
      NothingHandled(env.fate, locking, store.leases, old(env.drawn), env.drawn);
      if broken {
        return [], Some(StoreFault("")), [], lives;
      }
      var sorted := ListInOrder();
      err := None;
      assert Subjects(handled) == sorted[..0];
      for i := 0 to |sorted|
        invariant Subjects(handled) == sorted[..i]
        invariant store.Valid() && Sound(sagas, policy, store.contents, lives') && FaithKept(env.fate, sagas, lives, lives')
        invariant Progressed(sagas, policy, old(store.contents), store.contents, lives, lives', handled)
        invariant Waiting(sorted, i)
        invariant fresh(store.records - old(store.records)) && fresh(store.arrays - old(store.arrays))
        invariant AllHindered(env.fate, locking, old(store.leases), old(env.drawn), env.drawn, handled)
        invariant Upto(old(env.drawn), env.drawn)
        invariant LeasesKept(old(store.leases), store.leases, sorted, i)
      {
        assert sorted[i] in sorted;
        ghost var leases := store.leases;
        handled, lives' := RecoverNext(sorted, i, handled, old(store.contents), old(store.leases), old(env.drawn),
                                       lives, lives');
        LeasesStillKept(old(store.leases), leases, store.leases, sorted, i);
      }
      assert sorted[..|sorted|] == sorted;
      results := Results(handled);
      FaithfulLivesEndAlike(env.fate, sagas, policy, old(store.contents), store.contents, lives, lives', handled);
      if Calm(env.fate, locking, old(store.contents), old(store.leases), old(env.drawn)) {
        RecoveryDrains(sagas, policy, env.fate, locking, old(store.contents), old(store.leases), old(env.drawn), env.drawn,
                       store.contents, lives, lives', handled);
      }
    }
  }

  lemma NothingHandled(fate: Fate, locking: bool, leases: map<string, Lease>, from: Mark, to: Mark)
    ensures AllHindered(fate, locking, leases, from, to, [])
  {
  }

  /** The leases on what is still to be recovered are as they were. */
  ghost predicate LeasesKept(was: map<string, Lease>, leases: map<string, Lease>, sorted: seq<Execution>, from: nat) {
    forall k :: from <= k < |sorted| ==> LeaseIn(leases, sorted[k].id) == LeaseIn(was, sorted[k].id)
  }

  lemma LeasesStillKept(was: map<string, Lease>, leases: map<string, Lease>, leases': map<string, Lease>,
                        sorted: seq<Execution>, i: nat)
    requires Separate(sorted) && i < |sorted| && LeasesKept(was, leases, sorted, i)
    requires leases' - {sorted[i].id} == leases - {sorted[i].id}
    ensures LeasesKept(was, leases', sorted, i + 1)
  {
    forall k | i < k < |sorted|
      ensures LeaseIn(leases', sorted[k].id) == LeaseIn(was, sorted[k].id)
    {
      var id := sorted[k].id;
      assert id in leases - {sorted[i].id} <==> id in leases;
      assert id in leases' - {sorted[i].id} <==> id in leases';
      assert id in leases ==> (leases - {sorted[i].id})[id] == (leases' - {sorted[i].id})[id];
    }
  }

  lemma NotTouched(sorted: seq<Execution>, i: nat, handled: seq<Handling>)
    requires i < |sorted| && Separate(sorted) && Subjects(handled) == sorted[..i]
    ensures !Touches(handled, sorted[i].id)
  {
    forall k | 0 <= k < |handled|
      ensures handled[k].result.execution.id != sorted[i].id
    {
      assert handled[k].result.execution == Subjects(handled)[k] == sorted[k];
    }
  }

  lemma LedEndsThere(d: Definition, l: Life, r: Record, cautious: bool)
    requires Led(d, l, r, cautious)
    ensures l.end.disk == r
  {
  }

  lemma FreshIsStored(was: map<string, Record>, r: Record, end: System)
    requires r.id in was && was[r.id] == r
    ensures StoredBy(was, r, end) == was[r.id := end.disk]
  {
  }

  /** The life after a resume: carried on, unless the lease was refused. */
  lemma ResumedLife(d: Definition, l: Life, r: Record, labels: seq<Label>, end: System, outcome: Outcome,
                    err: Option<Error>, seen: seq<Observation>, cautious: bool) returns (l': Life)
    requires Led(d, l, r, cautious) && (cautious ==> !HasInFlightStep(r)) && !r.status.IsTerminal()
    requires Ran(d, Reading(r, l.end.history + [Resumed]), labels, end, outcome, err, seen)
    requires err.Some? && err.value.Locked? ==> outcome.Refused?
    requires outcome.Refused? ==> err.Some? && (err.value.Locked? || err.value.LockFault?)
    ensures l'.end.disk == end.disk && end.disk.sagaName == r.sagaName && end.disk.id == r.id
    ensures Led(d, l', end.disk, cautious) && CarriesOn(d, l, l', err, seen)
    ensures l' == if outcome.Refused? then l else Onward(l, labels, end)
    ensures (err.Some? && Disturbed(err.value)) || (Tells(end.disk.status, err) && Reported(r, end.disk, err))
  {
    RunKeepsLived(d, l, labels, end, outcome, err, seen, cautious);
    hide Led, Continues, Replay, Observed, HasInFlightStep, Reported;
    l' := if outcome.Refused? then l else Onward(l, labels, end);
  }

  lemma ResumedFaithfully(fate: Fate, d: Definition, l: Life, l': Life, r: Record, labels: seq<Label>, end: System,
                          outcome: Outcome, err: Option<Error>, seen: seq<Observation>, cautious: bool)
    requires Led(d, l, r, cautious) && l' == if outcome.Refused? then l else Onward(l, labels, end)
    requires Ran(d, Reading(r, l.end.history + [Resumed]), labels, end, outcome, err, seen)
    requires Faithfully(fate, d, Reading(r, l.end.history + [Resumed]), labels)
    ensures KeepsFaith(fate, d, l, l')
  {
    hide Replay, Faithfully, FaithfulLife, AnswersAs, Observed, Cautious;
    if !outcome.Refused? {
      OnwardKeepsFaith(fate, d, l, labels, end);
    }
  }
}
