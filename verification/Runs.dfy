/** Whole resumes and whole executions: the lease, the run, and what is stored at the end. */
module Runs {
  import opened Values
  import opened Records
  import opened Protocol
  import opened RecordShape
  import opened Observations
  import opened Leases
  import opened Executions
  import opened MemoryStore
  import opened Verdicts
  import opened LivedRecords
  import opened Events
  import opened Announcements
  import opened Progress
  import opened Termination
  import opened Environments
  import opened Worlds
  import opened Engine

  /** What is stored after a run from `copy` to `end`: its last save, if it saved at all. */
  function StoredBy(was: map<string, Record>, copy: Record, end: System): map<string, Record> {
    if end.disk == copy then was else was[copy.id := end.disk]
  }

  /**
   * Takes the lease if there is one to take, drives the execution, and gives the lease back. Nothing
   * is called, saved or published without the lease. Given a copy of a sound record, up to date or
   * not, this is a run of the machine from that copy.
   */
  method Resume(d: Definition, store: Store, locking: bool, env: Environment, exec: Execution, ghost past: seq<Effect>)
    returns (err: Option<Error>, seen: seq<Observation>,
            ghost outcome: Outcome, ghost labels: seq<Label>, ghost end: System)
    requires store.Valid() && store.Apart(exec) && exec.id != ""
    requires Shape(d, exec.Snapshot())
    modifies exec, exec.steps, store, env
    ensures locking && env.fate.fails(old(env.drawn.calls)) ==> err == Some(LockFault(exec.id)) && outcome.Refused?
    ensures var lease, me, now := old(store.LeaseOn(exec.id)), env.fate.name(old(env.drawn.names)),
                                  env.fate.clock(old(env.drawn.readings));
            locking && !env.fate.fails(old(env.drawn.calls)) ==>
              if lease.Some? && lease.value.owner != me && now < lease.value.expires
              then err == Some(Locked(exec.id)) && outcome.Refused?
              else !(err.Some? && err.value.Locked?) && !outcome.Refused? && store.LeaseOn(exec.id).None?
    ensures !locking ==> !(err.Some? && err.value.Locked?) && !outcome.Refused?
    ensures outcome.Refused? ==>
              && labels == [] && seen == [] && exec.Snapshot() == old(exec.Snapshot())
              && store.contents == old(store.contents) && store.leases == old(store.leases)
    ensures env.fate.NeverFails(old(env.drawn)) ==> outcome.Refused? || outcome.Ended?
    ensures err.Some? && Disturbed(err.value) ==>
              Hindered(env.fate, locking, old(store.LeaseOn(exec.id)), old(env.drawn), env.drawn, exec.id, err.value)
    ensures Upto(old(env.drawn), env.drawn)
    ensures store.Valid() && store.Apart(exec)
    ensures fresh(store.records - old(store.records)) && fresh(store.arrays - old(store.arrays))
    ensures store.contents == StoredBy(old(store.contents), old(exec.Snapshot()), end)
    ensures store.leases - {exec.id} == old(store.leases) - {exec.id} && (!locking ==> store.leases == old(store.leases))
    ensures Ran(d, Reading(old(exec.Snapshot()), past), labels, end, outcome, err, seen)
    ensures Faithfully(env.fate, d, Reading(old(exec.Snapshot()), past), labels)
    ensures outcome.Ended? ==> exec.Snapshot() == end.process.value.exec
  {
    hide Store.Valid, Store.Apart, Ran, Shape, Faithfully, Hindered, Fate.Failed, Fate.NeverFails;
    NothingIsFaithful(env.fate, d, Reading(exec.Snapshot(), past));
    seen, labels, end := [], [], Reading(exec.Snapshot(), past);
    outcome := Refused;
    var owner;
    ghost var began;
    err, owner, began := AcquireFirst(d, store, locking, env, exec.id);
    if err.Some? {
      NothingRan(d, end, err);
      return;
    }
    ghost var since := env.drawn;
    err, seen, outcome, labels, end := DriveToEnd(d, store, locking, env, owner, began, exec, past);
    if locking {
      store.Release(exec.id, owner);
    }
    if env.fate.Failed(since, env.drawn) {
      FailedHinders(env.fate, since, env.drawn, old(env.drawn), env.drawn);
    }
  }

  /** Asks for the lease under a new name, if the store arbitrates one. */
  method AcquireFirst(d: Definition, store: Store, locking: bool, env: Environment, id: string)
    returns (err: Option<Error>, owner: string, ghost began: Time)
    modifies store`leases, env
    ensures !locking ==> err.None?
    ensures locking ==>
              err == if env.fate.fails(old(env.drawn.calls)) then Some(LockFault(id))
                     else if KeepsOut(old(store.LeaseOn(id)), env.fate.name(old(env.drawn.names)),
                                      env.fate.clock(old(env.drawn.readings)))
                     then Some(Locked(id)) else None
    ensures locking && err.None? ==> store.LeaseOn(id) == Some(Lease(owner, began + d.lockTTL))
    ensures locking && err.None? ==>
              owner == env.fate.name(old(env.drawn.names)) && began == env.fate.clock(old(env.drawn.readings))
    ensures !locking || err.Some? ==> store.leases == old(store.leases)
    ensures store.leases - {id} == old(store.leases) - {id}
    ensures Upto(old(env.drawn), env.drawn)
    ensures err.Some? ==> Hindered(env.fate, locking, old(store.LeaseOn(id)), old(env.drawn), env.drawn, id, err.value)
  {
    owner, began := "", 0;
    if locking {
      owner := env.NewName();
      var broken := env.StoreFails();
      if broken {
        return Some(LockFault(id)), owner, began;
      }
      var now := env.Now();
      var acquired := store.Acquire(id, owner, now, d.lockTTL);
      began := now;
      if !acquired {
        return Some(Locked(id)), owner, began;
      }
    }
    return None, owner, began;
  }

  lemma NothingRan(d: Definition, start: System, err: Option<Error>)
    requires start.process.Some? && start.process.value.stage.Idle? && err.Some? && Disturbed(err.value)
    ensures Ran(d, start, [], start, Refused, err, [])
  {
  }

  /** The part of a resume that holds the lease. */
  method DriveToEnd(d: Definition, store: Store, locking: bool, env: Environment, owner: string, ghost began: Time,
                    exec: Execution, ghost past: seq<Effect>)
    returns (err: Option<Error>, seen: seq<Observation>,
            ghost outcome: Outcome, ghost labels: seq<Label>, ghost end: System)
    requires store.Valid() && store.Apart(exec) && exec.id != ""
    requires Shape(d, exec.Snapshot())
    requires locking ==> store.LeaseOn(exec.id) == Some(Lease(owner, began + d.lockTTL))
    modifies exec, exec.steps, store, env
    ensures locking ==> HoldsLease(store.LeaseOn(exec.id), owner)
    ensures err.Some? && Disturbed(err.value) ==>
              ((err.value.LockFault? && locking) || err.value.StoreFault?) && env.fate.Failed(old(env.drawn), env.drawn)
    ensures !outcome.Ended? ==> env.fate.Failed(old(env.drawn), env.drawn)
    ensures Upto(old(env.drawn), env.drawn) && (!locking ==> store.leases == old(store.leases))
    ensures store.Valid() && store.Apart(exec)
    ensures fresh(store.records - old(store.records)) && fresh(store.arrays - old(store.arrays))
    ensures store.contents == StoredBy(old(store.contents), old(exec.Snapshot()), end)
    ensures store.leases - {exec.id} == old(store.leases) - {exec.id}
    ensures Ran(d, Reading(old(exec.Snapshot()), past), labels, end, outcome, err, seen)
    ensures !outcome.Refused? && Faithfully(env.fate, d, Reading(old(exec.Snapshot()), past), labels)
    ensures outcome.Ended? ==> exec.Snapshot() == end.process.value.exec
  {
    hide Store.Valid, Store.Apart, Ran, Shape, HoldsLease, Fate.Failed, Disturbed, Faithfully,
         RunState.Linked, RunState.Finished, RunState.Storing, RunState.Tracking;
    var rs, ctx := Open(d, store, locking, env, owner, began, exec, past);
    err := rs.Drive(exec, ctx);
    seen, labels, end := rs.seen, rs.labels, rs.machine;
    rs.Concluded(exec, ctx, err, past);
    outcome := if rs.Self().pc.result.Returned? then Ended else CutShort;
  }

  method Open(d: Definition, store: Store, locking: bool, env: Environment, owner: string, ghost began: Time,
              exec: Execution, ghost past: seq<Effect>)
    returns (rs: RunState, ctx: Context)
    requires store.Valid() && store.Apart(exec) && exec.id != ""
    requires Shape(d, exec.Snapshot())
    requires locking ==> store.LeaseOn(exec.id) == Some(Lease(owner, began + d.lockTTL))
    ensures rs.env == env && rs.since == env.drawn && rs.lockOwner == owner
    ensures fresh(rs) && fresh(ctx) && rs.d == d && rs.store == store && rs.locking == locking
    ensures rs.base == store.contents
    ensures rs.origin == Reading(exec.Snapshot(), past) && rs.Linked(exec, ctx) && rs.At(Entry)
    ensures exec.steps.Length == |d.steps|
  {
    ctx := new Context(d.timeout > 0);
    rs := new RunState(d, store, locking, owner, env, Reading(exec.Snapshot(), past));
    NothingIsFaithful(env.fate, d, rs.origin);
    assert rs.Tracks(ctx, []);
  }

  /** The publisher heard all that is true of the record, the start first and the end last. */
  ghost predicate ToldInFull(seen: seq<Observation>, err: Option<Error>, r: Record) {
    var events := EventsIn(seen);
    && (forall ev :: ev in events <==> Happened(ev, r))
    && |events| > 0 && events[0] == Event(None, SagaStarted)
    && events[|events| - 1] == Event(None, if err.None? then SagaCompleted else SagaFailed)
  }

  /**
   * What a whole uninterrupted run from creation amounts to: it is a life, its result tells the
   * stored status, and what the publisher heard is exactly the image of what was saved: everything
   * that is true of the stored record, from the start to the end that the result tells.
   */
  lemma WholeRun(d: Definition, id: string, input: Any, now: Time, labels: seq<Label>, end: System,
                 outcome: Outcome, err: Option<Error>, seen: seq<Observation>)
    requires Ran(d, Created(d, id, input, now), labels, end, outcome, err, seen)
    ensures var life := Life(id, input, now, labels, end);
            Led(d, life, end.disk, true) && SeenOf(d, life) == seen
    ensures outcome.Ended? ==>
              && Tells(end.disk.status, err) && end.process.value.exec.status == end.disk.status
              && EventsIn(seen) == Image(end.history) && ToldInFull(seen, err, end.disk)
  {
    var start := Created(d, id, input, now);
    UninterruptedStaysCautious(d, start, [], labels);
    assert [] + labels == labels;
    assert Observed(d, id, start.history) == [];
    assert [] + seen == seen;
    CreatedHasShape(d, id, input, now);
    RunsOnlyAdvance(d, start, labels, end);
    if outcome.Ended? {
      LivesHaveShape(d, id, input, now, labels, end);
      assert start == Reading(start.disk, []);
      ResultTellsStatus(d, start.disk, [], labels, end, err);
      ReturnedIsTerminal(d, end);
      UninterruptedHistory(d, start, labels, end);
      hide Tells, ToldInFull, EventsIn, Image, Observed;
      RunIsTold(d, id, input, now, labels, end, err);
    }
  }

  lemma RunIsTold(d: Definition, id: string, input: Any, now: Time, labels: seq<Label>, end: System, err: Option<Error>)
    requires Lives(d, id, input, now, labels, end) && Resumed !in end.history
    requires end.process.Some? && end.process.value.stage.Idle?
    requires end.disk.status.IsTerminal() && Tells(end.disk.status, err)
    ensures var seen := Observed(d, id, end.history);
            EventsIn(seen) == Image(end.history) && ToldInFull(seen, err, end.disk)
  {
    hide Lives, EventsIn, Image, Observed, Happened;
    LivesPublish(d, id, input, now, labels, end);
    UncrashedLivesTellAll(d, id, input, now, labels, end);
    ObservedEventsAreTheStream(d, id, end.history);
  }

  /** Creates an execution under a new ID, saves it, and resumes it. */
  method Execute(d: Definition, store: Store, locking: bool, env: Environment, id: string, input: Any)
    returns (exec: Execution, err: Option<Error>, seen: seq<Observation>,
             ghost outcome: Outcome, ghost labels: seq<Label>, ghost end: System)
    requires store.Valid() && id != "" && id !in store.contents
    modifies store, env
    ensures fresh(exec) && fresh(exec.steps) && store.Valid() && store.Apart(exec) && exec.id == id
    ensures fresh(store.records - old(store.records)) && fresh(store.arrays - old(store.arrays))
    ensures env.fate.fails(old(env.drawn.calls)) ==>
              err == Some(StoreFault(id)) && seen == [] && store.contents == old(store.contents)
    ensures !env.fate.fails(old(env.drawn.calls)) ==>
              var life := Life(id, input, exec.createdAt, labels, end);
              && store.contents == old(store.contents)[id := end.disk]
              && Ran(d, Created(d, id, input, exec.createdAt), labels, end, outcome, err, seen)
              && Led(d, life, end.disk, true) && SeenOf(d, life) == seen && LedAsIn(env.fate, d, life)
              && (outcome.Ended? ==>
                    Tells(exec.status, err) && end.disk.status == exec.status && ToldInFull(seen, err, end.disk))
    ensures store.leases - {id} == old(store.leases) - {id} && (!locking ==> store.leases == old(store.leases))
    ensures env.fate.NeverFails(old(env.drawn))
            && (locking ==> env.fate.NeverKeepsOut(old(store.LeaseOn(id)), old(env.drawn)))
            ==> outcome.Ended?
    ensures err.Some? && Disturbed(err.value) ==>
              Hindered(env.fate, locking, old(store.LeaseOn(id)), old(env.drawn), env.drawn, id, err.value)
  {
    hide Ran, Store.Valid, Store.Apart, Tells, Shape, Led, SeenOf, EventsIn, Image, ToldInFull, Faithfully, LedAsIn;
    seen, labels, outcome := [], [], Refused;
    exec, err := Create(d, store, env, id, input);
    end := Created(d, id, input, exec.createdAt);
    if err.Some? {
      FailedNow(env.fate, old(env.drawn), env.drawn);
      return;
    }
    ghost var between := env.drawn;
    err, seen, outcome, labels, end := Resume(d, store, locking, env, exec, []);
    if err.Some? && Disturbed(err.value) {
      HinderedWider(env.fate, locking, old(store.LeaseOn(id)), between, env.drawn, old(env.drawn), env.drawn, id, err.value);
    }
    WholeRun(d, id, input, exec.createdAt, labels, end, outcome, err, seen);
    RunInWorlds(env.fate, d, id, input, exec.createdAt, labels, end, outcome, err, seen);
  }

  lemma RunInWorlds(fate: Fate, d: Definition, id: string, input: Any, now: Time, labels: seq<Label>, end: System,
                    outcome: Outcome, err: Option<Error>, seen: seq<Observation>)
    requires Ran(d, Created(d, id, input, now), labels, end, outcome, err, seen)
    requires Faithfully(fate, d, Created(d, id, input, now), labels)
    ensures LedAsIn(fate, d, Life(id, input, now, labels, end))
  {
    hide Replay, Faithfully, LedAsIn;
    RunIsLedAsIn(fate, d, Life(id, input, now, labels, end));
  }

  /** The first save, before any lease: nobody else can know of a new ID. */
  method Create(d: Definition, store: Store, env: Environment, id: string, input: Any)
    returns (exec: Execution, err: Option<Error>)
    requires store.Valid() && id != ""
    modifies store`data, store`contents, store`records, store`arrays, env
    ensures fresh(exec) && fresh(exec.steps) && store.Valid() && store.Apart(exec)
    ensures exec.Snapshot() == FreshRecord(d, id, input, exec.createdAt) && Shape(d, exec.Snapshot())
    ensures err == if env.fate.fails(old(env.drawn.calls)) then Some(StoreFault(id)) else None
    ensures Upto(old(env.drawn), env.drawn) && env.drawn.calls == old(env.drawn.calls) + 1
    ensures fresh(store.records - old(store.records)) && fresh(store.arrays - old(store.arrays))
    ensures store.contents == if err.Some? then old(store.contents) else old(store.contents)[id := exec.Snapshot()]
  {
    var now := env.Now();
    exec := new Execution(d, id, input, now);
    CreatedHasShape(d, id, input, now);
    hide Shape;
    var broken := env.StoreFails();
    if broken {
      err := Some(StoreFault(id));
      return;
    }
    err := store.Save(exec);
  }
}
