/**
 * The engine itself: methods that mutate a live execution, call out, and save. Each method
 * carries along the state of the machine in Protocol and proves that what it does is exactly
 * what the machine does, label by label, so everything proved there holds of this code.
 */
module Engine {
  import opened Values
  import opened States
  import opened Retry
  import opened Records
  import opened Protocol
  import opened RecordShape
  import opened Observations
  import opened Executions
  import opened MemoryStore
  import opened OperationKeys
  import opened Leases
  import opened MachineSteps
  import opened Scans
  import opened Termination
  import opened Verdicts
  import opened Environments
  import opened Failures
  import opened Causes
  import opened Worlds

  /** The context of one resume: it may end at any moment, once and for all. */
  class Context {
    var ended: Option<Cause>
    const bounded: bool
    /** When it was last looked at. */
    ghost var asOf: Mark

    constructor (bounded: bool)
      ensures this.ended.None? && this.bounded == bounded
    {
      this.ended := None;
      this.bounded := bounded;
    }

    /** Looks whether it has ended; without a timeout of the saga it does not end by one. */
    method Poll(env: Environment)
      modifies this, env`drawn
      ensures Upto(old(env.drawn), env.drawn) && env.drawn == old(env.drawn).(looks := env.drawn.looks) && asOf == env.drawn
      ensures old(ended).Some? ==> ended == old(ended)
      ensures old(ended).None? ==>
                var found := env.fate.ends(old(env.drawn.looks));
                ended == if found == Some(OwnTimeout) && !bounded then None else found
    {
      if ended.None? {
        var cause := env.Look();
        if cause != Some(OwnTimeout) || bounded {
          ended := cause;
        }
      }
      asOf := env.drawn;
    }
  }

  /** Where a retry loop stands: its record, what the outside saw, and what the timer was asked for. */
  datatype Standing = Standing(exec: Record, seen: seq<Observation>, waits: nat, slept: seq<int>)

  class RunState {
    const d: Definition
    const store: Store
    const locking: bool
    const lockOwner: string
    const env: Environment
    /** What this run's Actions, Compensates and publisher have seen of it. */
    var seen: seq<Observation>
    ghost const origin: System
    /** What was stored when the run began, not necessarily what it was given. */
    ghost const base: map<string, Record>
    /** How far the environment was drawn then. */
    ghost const since: Mark
    ghost var labels: seq<Label>
    ghost var machine: System

    constructor (d: Definition, store: Store, locking: bool, lockOwner: string, env: Environment, ghost origin: System)
      ensures this.env == env && since == env.drawn
      ensures this.d == d && this.store == store && this.locking == locking && this.lockOwner == lockOwner
      ensures this.origin == origin && this.machine == origin && this.labels == [] && seen == []
      ensures base == store.contents
    {
      this.d, this.store, this.locking, this.lockOwner, this.env := d, store, locking, lockOwner, env;
      this.seen := [];
      this.origin, this.machine, this.labels := origin, origin, [];
      this.base, this.since := store.contents, env.drawn;
    }

    /** The machine got where it is by the labels so far; `extra` is seen but not yet part of it. */
    ghost predicate Tracks(ctx: Context, extra: seq<Observation>)
      reads this, ctx
    {
      && Replay(d, origin, labels) == Some(machine) && Uninterrupted(labels)
      && Faithfully(env.fate, d, origin, labels)
      && ShapeInvariant(d, machine)
      && machine.process.Some?
      && machine.process.value.ctx == ctx.ended
      && ctx.bounded == (d.timeout > 0)
      && Observed(d, origin.disk.id, machine.history) + extra == Observed(d, origin.disk.id, origin.history) + seen
    }

    ghost predicate Tracking(ctx: Context)
      reads this, ctx
    {
      machine.process.Some? && machine.process.value.ctx == ctx.ended && Tracks(ctx, [])
    }

    /** The machine's own process. */
    ghost function Self(): Process
      requires machine.process.Some?
      reads this
    {
      machine.process.value
    }

    /** The machine's disk is what this run saved last; until it saves, everything is as it was. */
    ghost function Saved(): map<string, Record>
      reads this
    {
      if machine.disk == origin.disk then base else base[origin.disk.id := machine.disk]
    }

    /** What is stored is what this run saved, sharing nothing with the live execution; the lease is this run's. */
    ghost predicate Storing(exec: Execution)
      reads this, store, store.records, store.arrays, env
    {
      && Upto(since, env.drawn)
      && (locking ==> HoldsLease(store.LeaseOn(exec.id), lockOwner))
      && store.Valid() && store.Apart(exec)
      && exec.id != "" && exec.id == origin.disk.id
      && store.contents == Saved()
      && (machine.disk == origin.disk || Depth(machine.disk) > Depth(origin.disk))
    }

    ghost predicate Linked(exec: Execution, ctx: Context)
      reads this, ctx, exec, exec.steps, store, store.records, store.arrays, env
    {
      machine.process.Some? && Tracking(ctx) && Storing(exec) && Self().exec == exec.Snapshot()
    }

    /** The machine is at `pc` with nothing left to save or publish. */
    ghost predicate At(pc: Pc)
      reads this
    {
      machine.process.Some? && Self().pc == pc && Self().stage.Idle?
    }

    /** The store failed during this run, and this error says so; a lease that is held is never refused. */
    ghost predicate Faulted(err: Error)
      reads env
    {
      ((err.LockFault? && locking) || err.StoreFault?) && env.fate.Failed(since, env.drawn)
    }

    /** The run was cut short by this error: a save failed. */
    ghost predicate Broken(exec: Execution, ctx: Context, err: Option<Error>)
      reads this, ctx, store, store.records, store.arrays, env
    {
      Tracking(ctx) && Storing(exec) && err.Some? && Faulted(err.value) && At(Done(Stopped(err.value)))
    }

    /** The run is over with this result. */
    ghost predicate Finished(exec: Execution, ctx: Context, err: Option<Error>)
      reads this, ctx, exec, exec.steps, store, store.records, store.arrays, env
    {
      Broken(exec, ctx, err) || (Linked(exec, ctx) && At(Done(Returned(err))))
    }

    /** Of the leases only this execution's was touched, and nothing of the caller's was stored. */
    twostate predicate Framed(exec: Execution)
      reads this, store
    {
      && store.leases - {exec.id} == old(store.leases) - {exec.id}
      && (!locking ==> store.leases == old(store.leases))
      && fresh(store.records - old(store.records)) && fresh(store.arrays - old(store.arrays))
    }

    // ---------- moving the machine along ----------

    /** The machine takes a label by which the outside saw what it did not account for yet. */
    ghost method Take(ctx: Context, l: Label)
      requires machine.process.Some? && Tracks(ctx, SeenBy(d, origin.disk.id, machine, l))
      requires !l.ContextEnds? && !l.Crash? && !l.Resume?
      requires Next(d, machine, l).Some? && Befits(env.fate, d, origin.disk.id, machine, l)
      modifies this`labels, this`machine
      ensures machine == Next(d, old(machine), l).value
      ensures Tracking(ctx)
    {
      hide Next, Replay, ShapeInvariant, Observed, SeenBy, Uninterrupted, Faithfully, Befits;
      FaithfullySnoc(env.fate, d, origin, labels, machine, l);
      var next := Next(d, machine, l).value;
      NextKeepsShape(d, machine, l, next);
      ObservedAfter(d, origin.disk.id, machine, l, next);
      ContextStays(d, machine, l, next);
      ReplaySnoc(d, origin, labels, l);
      UninterruptedSnoc(labels, l);
      labels, machine := labels + [l], next;
    }

    /** One step of control flow, of which nothing can be seen. */
    ghost method TakeWork(ctx: Context, now: Time, p: Process)
      requires Tracking(ctx) && Self().stage.Idle? && Working(d, Self(), now) == Some(p)
      modifies this`labels, this`machine
      ensures Tracking(ctx) && Self() == p && machine.disk == old(machine.disk) && !p.pc.Panicked?
    {
      WorkIsUnseen(d, origin.disk.id, machine, now);
      hide Working, Replay, ShapeInvariant, Observed, SeenBy, Faithfully, Befits;
      OwnWorkBefits(env.fate, d, origin.disk.id, machine, Work(now));
      Take(ctx, Work(now));
      NeverPanicked(d, machine);
    }

    /** One step of control flow that changes no status: the live execution is as it should be then. */
    ghost method Advance(exec: Execution, ctx: Context, p: Process)
      requires Tracking(ctx) && Storing(exec) && Self().stage.Idle?
      requires Working(d, Self(), 0) == Some(p) && p.exec == exec.Snapshot()
      modifies this`labels, this`machine
      ensures Linked(exec, ctx) && Self() == p && machine.disk == old(machine.disk)
    {
      hide Tracks, Depth, Store.Valid, Store.Apart, Working;
      TakeWork(ctx, 0, p);
    }

    /** Whatever reads the context may find that it has ended. */
    method Poll(ctx: Context)
      requires Tracking(ctx)
      modifies this`labels, this`machine, ctx, env`drawn
      ensures Tracking(ctx) && machine.disk == old(machine.disk)
      ensures Self() == old(Self()).(ctx := ctx.ended)
      ensures old(ctx.ended).Some? ==> ctx.ended == old(ctx.ended)
      ensures Upto(old(env.drawn), env.drawn) && env.drawn == old(env.drawn).(looks := env.drawn.looks)
      ensures ctx.asOf == env.drawn
    {
      hide Next, Replay, ShapeInvariant, Observed, Uninterrupted, Faithfully, Befits;
      ghost var look := env.drawn.looks;
      ctx.Poll(env);
      if ctx.ended != Self().ctx {
        ghost var l, next := ContextEnds(ctx.ended.value), machine.(process := Some(Self().(ctx := ctx.ended)));
        ContextMayEnd(d, machine, ctx.ended.value);
        EndBefits(env.fate, d, origin.disk.id, machine, look, l);
        FaithfullySnoc(env.fate, d, origin, labels, machine, l);
        NextKeepsShape(d, machine, l, next);
        ReplaySnoc(d, origin, labels, l);
        UninterruptedSnoc(labels, l);
        labels, machine := labels + [l], next;
      }
    }

    // ---------- saving ----------

    ghost method TakeSaveFails(ctx: Context, fault: Error)
      requires Tracking(ctx) && Self().stage.Saving?
      modifies this`labels, this`machine
      ensures Tracking(ctx) && machine.disk == old(machine.disk)
      ensures Self() == old(Self()).(pc := Done(Stopped(fault)), stage := Idle)
    {
      hide Replay, ShapeInvariant, Observed, Faithfully, Befits;
      OwnWorkBefits(env.fate, d, origin.disk.id, machine, SaveFails(fault));
      Take(ctx, SaveFails(fault));
    }

    ghost method TakeSave(ctx: Context)
      requires Tracking(ctx) && Self().stage.Saving?
      modifies this`labels, this`machine
      ensures Tracking(ctx) && machine.disk == old(Self().exec)
      ensures Depth(machine.disk) == Depth(old(machine.disk)) + 1
      ensures Self() == old(Self()).(stage := Publishing(old(Self().stage.edge)))
    {
      SaveDeepens(d, machine);
      hide Replay, ShapeInvariant, Observed, Depth, Faithfully, Befits;
      OwnWorkBefits(env.fate, d, origin.disk.id, machine, Label.Save);
      Take(ctx, Label.Save);
    }

    /** Renews the lease if the store arbitrates one: refused exactly if somebody else's keeps this run out. */
    method Renew(id: string) returns (err: Option<Error>)
      modifies store`leases, env`drawn
      ensures Upto(old(env.drawn), env.drawn) && store.leases - {id} == old(store.leases) - {id}
      ensures !locking ==> err.None? && store.leases == old(store.leases)
      ensures locking ==>
                var was, now := old(store.LeaseOn(id)), env.fate.clock(old(env.drawn.readings));
                && err == (if env.fate.fails(old(env.drawn.calls)) then Some(LockFault(id))
                           else if KeepsOut(was, lockOwner, now) then Some(Locked(id)) else None)
                && store.LeaseOn(id) == (if err.Some? then was else Some(Lease(lockOwner, now + d.lockTTL)))
      ensures err.Some? && err.value.LockFault? ==> env.fate.Failed(old(env.drawn), env.drawn)
      ensures locking && err.None? ==> Prolonged(store.LeaseOn(id), old(env.drawn), env.drawn)
    {
      if locking {
        var broken := env.StoreFails();
        if broken {
          return Some(LockFault(id));
        }
        var now := env.Now();
        var acquired := store.Acquire(id, lockOwner, now, d.lockTTL);
        if !acquired {
          return Some(Locked(id));
        }
      }
      return None;
    }

    /** What becomes of the lease this run holds when it saves: it runs on from a moment in between. */
    ghost predicate Prolonged(lease: Option<Lease>, from: Mark, to: Mark) {
      exists r :: from.readings <= r < to.readings && lease == Some(Lease(lockOwner, env.fate.clock(r) + d.lockTTL))
    }

    /** Renews the lease and stores the record; a failure of either stores nothing. */
    method Persist(exec: Execution) returns (err: Option<Error>)
      requires store.Valid() && store.Apart(exec) && exec.id != ""
      requires locking ==> HoldsLease(store.LeaseOn(exec.id), lockOwner)
      modifies store, env`drawn
      ensures store.Valid() && store.Apart(exec)
      ensures fresh(store.records - old(store.records)) && fresh(store.arrays - old(store.arrays))
      ensures err.None? ==> store.contents == old(store.contents)[exec.id := exec.Snapshot()]
      ensures err.Some? ==> store.contents == old(store.contents)
      ensures err.Some? ==> (err.value.LockFault? && locking) || err.value.StoreFault?
      ensures err.Some? ==> env.fate.Failed(old(env.drawn), env.drawn)
      ensures store.leases - {exec.id} == old(store.leases) - {exec.id} && Upto(old(env.drawn), env.drawn)
      ensures if locking then HoldsLease(store.LeaseOn(exec.id), lockOwner) else store.leases == old(store.leases)
      ensures locking && err.None? ==> Prolonged(store.LeaseOn(exec.id), old(env.drawn), env.drawn)
    {
      hide Store.Valid, Store.Apart, Store.Holds, Prolonged;
      err := Renew(exec.id);
      if err.Some? {
        return;
      }
      ghost var renewed := env.drawn;
      err := Put(exec);
      if err.Some? {
        FailedWider(env.fate, renewed, env.drawn, old(env.drawn), env.drawn);
      } else if locking {
        ProlongedLater(store.LeaseOn(exec.id), old(env.drawn), renewed, env.drawn);
      }
    }

    lemma ProlongedLater(lease: Option<Lease>, from: Mark, to: Mark, later: Mark)
      requires Prolonged(lease, from, to) && Upto(to, later)
      ensures Prolonged(lease, from, later)
    {
    }

    /** The call of the store's own Save. */
    method Put(exec: Execution) returns (err: Option<Error>)
      requires store.Valid() && store.Apart(exec) && exec.id != ""
      modifies store`data, store`contents, store`records, store`arrays, env`drawn
      ensures store.Valid() && store.Apart(exec)
      ensures fresh(store.records - old(store.records)) && fresh(store.arrays - old(store.arrays))
      ensures err == if env.fate.fails(old(env.drawn.calls)) then Some(StoreFault(exec.id)) else None
      ensures store.contents == if err.None? then old(store.contents)[exec.id := exec.Snapshot()] else old(store.contents)
      ensures err.Some? ==> env.fate.Failed(old(env.drawn), env.drawn)
      ensures env.drawn == old(env.drawn).(calls := old(env.drawn.calls) + 1)
    {
      var broken := env.StoreFails();
      if broken {
        return Some(StoreFault(exec.id));
      }
      err := store.Save(exec);
    }

    method Save(exec: Execution, ctx: Context) returns (err: Option<Error>)
      requires Linked(exec, ctx) && Self().stage.Saving?
      modifies store, this`labels, this`machine, env`drawn
      ensures Framed(exec)
      ensures err.Some? ==> Broken(exec, ctx, err)
      ensures err.None? ==>
                && Linked(exec, ctx) && machine.disk == exec.Snapshot()
                && Self() == old(Self()).(stage := Publishing(old(Self().stage.edge)))
      ensures locking && err.None? ==> Prolonged(store.LeaseOn(exec.id), old(env.drawn), env.drawn)
    {
      hide Tracks, Depth, Store.Valid, Store.Apart, Prolonged;
      err := Persist(exec);
      if err.Some? {
        TakeSaveFails(ctx, err.value);
      } else {
        TakeSave(ctx);
        assert store.contents == base[exec.id := machine.disk];
      }
    }

    // ---------- publishing ----------

    /** The outside sees something that the machine is about to account for. */
    method Show(ctx: Context, o: Observation)
      requires Tracking(ctx)
      modifies this`seen
      ensures seen == old(seen) + [o]
      ensures machine.process.Some? && Tracks(ctx, [o])
    {
      seen := seen + [o];
      hide Replay, ShapeInvariant, Faithfully;
      ghost var was, now := Observed(d, origin.disk.id, origin.history), Observed(d, origin.disk.id, machine.history);
      assert now == now + [] == was + old(seen);
      assert was + seen == (was + old(seen)) + [o];
    }

    /** What the publisher gets for a status change. */
    static function EventsFor(edge: Edge): seq<Observation> {
      if EventOf(edge).Some? then [Heard(EventOf(edge).value)] else []
    }

    method NotifyExec(ctx: Context, to: Status)
      requires Tracking(ctx) && Self().stage == Publishing(ExecEdge(to))
      modifies this`seen, this`labels, this`machine
      ensures seen == old(seen) + EventsFor(ExecEdge(to))
      ensures Tracking(ctx) && machine.disk == old(machine.disk)
      ensures Self() == old(Self()).(stage := Idle)
    {
      hide Replay, ShapeInvariant, Observed, Faithfully, Befits;
      OwnWorkBefits(env.fate, d, origin.disk.id, machine, Publish);
      var kind := SagaEventType(to);
      if kind.Some? {
        Show(ctx, Heard(Event(None, kind.value)));
      }
      Take(ctx, Publish);
    }

    method NotifyStep(ctx: Context, i: nat, to: StepStatus)
      requires Tracking(ctx) && Self().stage == Publishing(StepEdge(i, to))
      modifies this`seen, this`labels, this`machine
      ensures seen == old(seen) + EventsFor(StepEdge(i, to))
      ensures Tracking(ctx) && machine.disk == old(machine.disk)
      ensures Self() == old(Self()).(stage := Idle)
    {
      hide Replay, ShapeInvariant, Observed, Faithfully, Befits;
      OwnWorkBefits(env.fate, d, origin.disk.id, machine, Publish);
      var kind := StepEventType(to);
      if kind.Some? {
        Show(ctx, Heard(Event(Some(i), kind.value)));
      }
      Take(ctx, Publish);
    }

    // ---------- status changes ----------

    /** Changes the status in memory; the tables never refuse what the engine asks for. */
    method ChangeExec(exec: Execution, ctx: Context, to: Status, ghost next: Pc)
      requires Tracking(ctx) && Storing(exec) && MovesExec(d, Self(), exec.Snapshot(), to, next)
      modifies exec, this`labels, this`machine, env`drawn
      ensures exec.Snapshot() == Moved(old(exec.Snapshot()), to, exec.updatedAt)
      ensures Linked(exec, ctx) && Self().pc == next && Self().stage == Saving(ExecEdge(to))
      ensures machine.disk == old(machine.disk)
    {
      hide Tracks, Depth, Store.Valid, Working;
      var now := env.Now();
      TakeWork(ctx, now, MoveExec(Self(), exec.Snapshot(), to, now, next));
      var ok := exec.Transition(to, now);
      if !ok {
        assert false;
      }
    }

    method ChangeStep(exec: Execution, ctx: Context, i: nat, to: StepStatus, ghost next: Pc)
      requires Tracking(ctx) && Storing(exec) && MovesStep(d, Self(), exec.Snapshot(), i, to, next)
      modifies exec.steps, this`labels, this`machine, env`drawn
      ensures i < exec.steps.Length && exec.steps[i].status == to
      ensures exec.Snapshot() == WithStep(old(exec.Snapshot()), i, exec.steps[i])
      ensures Linked(exec, ctx) && Self().pc == next && Self().stage == Saving(StepEdge(i, to))
      ensures machine.disk == old(machine.disk)
    {
      hide Tracks, Depth, Store.Valid, Working;
      var now := env.Now();
      TakeWork(ctx, now, MoveStep(Self(), exec.Snapshot(), i, to, now, next));
      var ok := exec.TransitionStep(i, to, now);
      if !ok {
        assert false;
      }
    }

    /** Changes the status, saves and publishes. */
    method TransitionExec(exec: Execution, ctx: Context, to: Status, ghost next: Pc) returns (err: Option<Error>)
      requires Tracking(ctx) && Storing(exec) && MovesExec(d, Self(), exec.Snapshot(), to, next)
      modifies exec, store, this`seen, this`labels, this`machine, env`drawn
      ensures Framed(exec)
      ensures exec.Snapshot() == Moved(old(exec.Snapshot()), to, exec.updatedAt)
      ensures err.None? ==> Linked(exec, ctx) && At(next)
      ensures err.Some? ==> Broken(exec, ctx, err)
    {
      hide Linked, At, Broken, Storing, Tracking, MovesExec;
      ChangeExec(exec, ctx, to, next);
      err := StoreExec(exec, ctx, to);
    }

    /** Saves a changed status, and publishes it. */
    method StoreExec(exec: Execution, ctx: Context, to: Status) returns (err: Option<Error>)
      requires Linked(exec, ctx) && Self().stage == Saving(ExecEdge(to))
      modifies store, this`seen, this`labels, this`machine, env`drawn
      ensures Framed(exec)
      ensures if err.Some? then Broken(exec, ctx, err) else Linked(exec, ctx) && At(old(Self().pc))
    {
      hide Tracks, Depth, Store.Valid, Store.Apart, Broken;
      err := Save(exec, ctx);
      if err.Some? {
        return;
      }
      NotifyExec(ctx, to);
    }

    method TransitionStep(exec: Execution, ctx: Context, i: nat, to: StepStatus, ghost next: Pc)
      returns (err: Option<Error>)
      requires Tracking(ctx) && Storing(exec) && MovesStep(d, Self(), exec.Snapshot(), i, to, next)
      modifies exec.steps, store, this`seen, this`labels, this`machine, env`drawn
      ensures Framed(exec)
      ensures i < exec.steps.Length && exec.steps[i].status == to
      ensures exec.Snapshot() == WithStep(old(exec.Snapshot()), i, exec.steps[i])
      ensures err.None? ==> Linked(exec, ctx) && At(next)
      ensures err.Some? ==> Broken(exec, ctx, err)
    {
      hide Linked, At, Broken, Storing, Tracking, MovesStep;
      ChangeStep(exec, ctx, i, to, next);
      err := StoreStep(exec, ctx, i, to);
    }

    method StoreStep(exec: Execution, ctx: Context, i: nat, to: StepStatus) returns (err: Option<Error>)
      requires Linked(exec, ctx) && Self().stage == Saving(StepEdge(i, to))
      modifies store, this`seen, this`labels, this`machine, env`drawn
      ensures Framed(exec)
      ensures if err.Some? then Broken(exec, ctx, err) else Linked(exec, ctx) && At(old(Self().pc))
    {
      hide Tracks, Depth, Store.Valid, Store.Apart, Broken;
      err := Save(exec, ctx);
      if err.Some? {
        return;
      }
      NotifyStep(ctx, i, to);
    }

    // ---------- running one step ----------

    /**
     * What an error coming out of a retry loop of so many calls is: why the context ended, or else the
     * last answer's, which must not be retried or came after all the calls that the policy allows. Only
     * the saga's own timeout takes a success back.
     */
    ghost predicate Explains(ctx: Context, i: nat, calls: int, err: Error)
      requires i < |d.steps|
      reads this, ctx
    {
      match ctx.ended
      case Some(OwnTimeout) => err == SagaTimeout
      case Some(Outside(code)) =>
        err == Cancelled(code) && machine.process.Some? && !(Self().pc.Judging? && Self().pc.answer.err.None?)
      case None =>
        && machine.process.Some? && Self().pc.Judging? && Self().pc.answer.err.Some?
        && err == StepError(d.steps[i].name, Self().pc.answer.err.value)
        && RanOut(d, i, calls, Self().pc.answer.err.value)
    }

    /** A context that has ended explains whatever was called. */
    lemma EndExplains(ctx: Context, i: nat, calls: int, err: Error, n: int)
      requires i < |d.steps| && ctx.ended.Some? && Explains(ctx, i, calls, err)
      ensures Explains(ctx, i, n, err)
    {
    }

    lemma AnswerRanOut(exec: Execution, ctx: Context, i: nat, data: Any, attempt: nat, answer: Answer)
      requires Linked(exec, ctx) && At(Judging(i, data, attempt, answer)) && i < |d.steps| && answer.err.Some?
      requires !MayRetry(d, i, attempt, answer.err.value)
      ensures RanOut(d, i, attempt, answer.err.value)
    {
      PlaceOf(d, machine);
    }

    /** The calls of a retry loop look all the same from outside. */
    function RepeatedCalls(exec: Execution, i: nat, data: Any, n: nat): (calls: seq<Observation>)
      requires i < |d.steps|
      ensures |calls| == n
    {
      seq(n, _ => ActionCall(OperationID(exec.id, d.steps[i].name), data))
    }

    lemma OneCall(exec: Execution, i: nat, data: Any)
      requires i < |d.steps|
      ensures RepeatedCalls(exec, i, data, 1) == [ActionCall(OperationID(exec.id, d.steps[i].name), data)]
    {
    }

    lemma CallsOnceMore(exec: Execution, i: nat, data: Any, n: nat, before: seq<Observation>)
      requires i < |d.steps|
      ensures before + RepeatedCalls(exec, i, data, n) + RepeatedCalls(exec, i, data, 1)
           == before + RepeatedCalls(exec, i, data, n + 1)
    {
    }

    /** The Action itself, called only while the context was just seen not to have ended. */
    method CallActionFunc(ctx: Context, key: string, data: Any) returns (out: Any, err: Option<Error>, late: bool)
      requires Tracking(ctx) && ctx.ended.None? && ctx.asOf == env.drawn
      modifies this`seen, env`drawn
      ensures seen == old(seen) + [ActionCall(key, data)]
      ensures machine.process.Some? && Tracks(ctx, [ActionCall(key, data)])
      ensures Answer(out, err) == env.fate.act(old(env.drawn.acts), key, data) && late == env.fate.late(old(env.drawn.acts))
      ensures env.drawn == old(env.drawn).(acts := old(env.drawn.acts) + 1)
    {
      Show(ctx, ActionCall(key, data));
      out, err, late := env.Act(key, data);
    }

    /** One call of the Action; a result that overran the step's own timeout is discarded. */
    method CallAction(exec: Execution, ctx: Context, i: nat, key: string, data: Any, ghost attempt: nat)
      returns (out: Any, err: Option<Error>)
      requires Tracking(ctx) && Storing(exec) && At(Calling(i, data, attempt)) && ctx.ended.None? && ctx.asOf == env.drawn
      requires i < |d.steps| && i < |Self().exec.steps| && exec.Snapshot() == Called(Self().exec, i)
      requires key == OperationID(exec.id, d.steps[i].name)
      modifies ctx, this`seen, this`labels, this`machine, env`drawn
      ensures Linked(exec, ctx) && At(Judging(i, data, attempt, Answer(out, err)))
      ensures machine.disk == old(machine.disk) && ctx.asOf == env.drawn
      ensures seen == old(seen) + [ActionCall(key, data)]
      ensures Upto(old(env.drawn), env.drawn) && env.drawn.waits == old(env.drawn.waits)
      ensures Answer(out, err) ==
              if d.steps[i].timeout > 0 && env.fate.late(old(env.drawn.acts))
              then Answer(Nil, Some(StepTimeout(d.steps[i].name)))
              else env.fate.act(old(env.drawn.acts), key, data)
    {
      hide Tracks, Depth, Store.Valid, Befits;
      var late;
      ghost var call := env.drawn.acts;
      out, err, late := CallActionFunc(ctx, key, data);
      if d.steps[i].timeout > 0 && late {
        out, err := Nil, Some(StepTimeout(d.steps[i].name));
      }
      ActBefits(env.fate, d, origin.disk.id, machine, call, Answer(out, err));
      TakeAct(ctx, i, key, data, attempt, Answer(out, err));
      Poll(ctx);
    }

    ghost method TakeAct(ctx: Context, i: nat, key: string, data: Any, attempt: nat, answer: Answer)
      requires At(Calling(i, data, attempt)) && Tracks(ctx, [ActionCall(key, data)])
      requires i < |d.steps| && i < |Self().exec.steps| && key == OperationID(origin.disk.id, d.steps[i].name)
      requires Befits(env.fate, d, origin.disk.id, machine, Act(answer))
      modifies this`labels, this`machine
      ensures Tracking(ctx) && machine.disk == old(machine.disk)
      ensures Self() == old(Self()).(pc := Judging(i, data, attempt, answer), exec := Called(old(Self().exec), i))
    {
      hide Replay, ShapeInvariant, Observed, Faithfully, Befits;
      Take(ctx, Act(answer));
    }

    /** Waits out the delay before the next attempt, unless the context ends first. */
    method SleepOrDone(ctx: Context, policy: Policy, attempt: nat) returns (err: Option<Error>)
      requires Tracking(ctx)
      modifies this`labels, this`machine, ctx, env
      ensures Tracking(ctx) && machine.disk == old(machine.disk) && Upto(old(env.drawn), env.drawn)
      ensures Self() == old(Self()).(ctx := ctx.ended)
      ensures err == if ctx.ended.Some? then Some(CauseError(ctx.ended.value)) else None
      ensures env.slept == old(env.slept) + [env.fate.Wait(old(env.drawn.waits), policy, attempt)]
      ensures env.drawn.waits == old(env.drawn.waits) + 1
    {
      env.Sleep(policy, attempt);
      Poll(ctx);
      hide *;
      return if ctx.ended.Some? then Some(CauseError(ctx.ended.value)) else None;
    }

    /** What a turn of the retry loop asks of the timer: the delay before the next attempt, if it gets there. */
    twostate predicate Waited(i: nat, attempt: nat, waited: bool)
      requires i < |d.steps|
      reads env
    {
      && Upto(old(env.drawn), env.drawn)
      && env.drawn.waits == old(env.drawn.waits) + (if waited then 1 else 0)
      && env.slept == old(env.slept)
         + (if waited then [env.fate.Wait(old(env.drawn.waits), RetryPolicyFor(d, d.steps[i]), attempt + 1)] else [])
      && (waited ==> attempt < MaxAttempts(RetryPolicyFor(d, d.steps[i])))
    }

    /** One turn of the retry loop: to a verdict on the step, or to the next attempt. */
    method Attempt(exec: Execution, ctx: Context, i: nat, data: Any, attempt: nat)
      returns (again: bool, out: Any, err: Option<Error>, ghost called: bool, ghost waited: bool)
      requires Linked(exec, ctx) && At(Try(i, data, attempt)) && i < |d.steps| == exec.steps.Length
      modifies exec.steps, ctx, this`seen, this`labels, this`machine, env
      ensures machine.process.Some? && Linked(exec, ctx) && machine.disk == old(machine.disk)
      ensures exec.Snapshot() == if called then Called(old(exec.Snapshot()), i) else old(exec.Snapshot())
      ensures seen == if called then old(seen) + RepeatedCalls(exec, i, data, 1) else old(seen)
      ensures old(ctx.ended).Some? ==> !again && err.Some? && !called
      ensures again ==> At(Try(i, data, attempt + 1)) && ctx.ended.None?
      ensures again ==> attempt < MaxAttempts(RetryPolicyFor(d, d.steps[i]))
      ensures again || waited || err.None? || ctx.ended.None? ==> called
      ensures !again && err.Some? ==> Fails(d, Self(), i, err.value) && Explains(ctx, i, attempt, err.value)
      ensures !again && err.None? ==> Succeeds(d, Self(), i, out) && ctx.ended != Some(OwnTimeout) && ctx.asOf == env.drawn
      ensures Waited(i, attempt, waited) && (again ==> waited) && (waited ==> again || ctx.ended.Some?)
    {
      hide Tracks, Depth, Store.Valid, Working, MaxAttempts, Fails, Succeeds, RepeatedCalls, Called;
      Poll(ctx);
      if ctx.ended.Some? {
        TryStops(d, Self());
        return false, Nil, Some(CauseError(ctx.ended.value)), false, false;
      }
      TryCalls(d, Self(), 0);
      Advance(exec, ctx, Self().(pc := Calling(i, data, attempt)));
      called := true;
      again, out, err, waited := MakeCall(exec, ctx, i, data, attempt);
    }

    /** Counts and makes one call, and judges its answer. */
    method MakeCall(exec: Execution, ctx: Context, i: nat, data: Any, attempt: nat)
      returns (again: bool, out: Any, err: Option<Error>, ghost waited: bool)
      requires Linked(exec, ctx) && At(Calling(i, data, attempt)) && i < |d.steps| == exec.steps.Length
      requires ctx.ended.None? && ctx.asOf == env.drawn
      modifies exec.steps, ctx, this`seen, this`labels, this`machine, env
      ensures machine.process.Some? && Linked(exec, ctx) && machine.disk == old(machine.disk)
      ensures exec.Snapshot() == Called(old(exec.Snapshot()), i)
      ensures seen == old(seen) + RepeatedCalls(exec, i, data, 1)
      ensures again ==> At(Try(i, data, attempt + 1)) && ctx.ended.None?
      ensures again ==> attempt < MaxAttempts(RetryPolicyFor(d, d.steps[i]))
      ensures !again && err.Some? ==> Fails(d, Self(), i, err.value) && Explains(ctx, i, attempt, err.value)
      ensures !again && err.None? ==> Succeeds(d, Self(), i, out) && ctx.ended != Some(OwnTimeout) && ctx.asOf == env.drawn
      ensures Waited(i, attempt, waited) && (again ==> waited) && (waited ==> again || ctx.ended.Some?)
    {
      hide Tracks, Depth, Store.Valid, Working, MaxAttempts, Fails, Succeeds, RepeatedCalls;
      exec.steps[i] := exec.steps[i].(attempts := exec.steps[i].attempts + 1);
      OneCall(exec, i, data);
      out, err := CallAction(exec, ctx, i, OperationID(exec.id, d.steps[i].name), data, attempt);
      again, out, err, waited := Judge(exec, ctx, i, data, attempt, out, err);
    }

    /** What the answer of an attempt comes to, given how the context is doing. */
    method Judge(exec: Execution, ctx: Context, i: nat, data: Any, attempt: nat, answer: Any, failure: Option<Error>)
      returns (again: bool, out: Any, err: Option<Error>, ghost waited: bool)
      requires Linked(exec, ctx) && At(Judging(i, data, attempt, Answer(answer, failure)))
      requires i < |d.steps| == exec.steps.Length && ctx.asOf == env.drawn
      modifies ctx, this`labels, this`machine, env
      ensures Linked(exec, ctx) && machine.disk == old(machine.disk)
      ensures again ==> At(Try(i, data, attempt + 1)) && failure.Some? && MayRetry(d, i, attempt, failure.value)
      ensures again ==> ctx.ended.None?
      ensures !again && err.Some? ==> Fails(d, Self(), i, err.value) && Explains(ctx, i, attempt, err.value)
      ensures !again && err.None? ==> Succeeds(d, Self(), i, out) && ctx.ended != Some(OwnTimeout) && failure.None?
      ensures !again && err.None? ==> out == answer && ctx.asOf == env.drawn
      ensures Waited(i, attempt, waited) && (again ==> waited) && (waited ==> again || ctx.ended.Some?)
    {
      hide Tracks, Depth, Store.Valid, Working, MaxAttempts, Fails, Succeeds, RanOut;
      again, waited := false, false;
      if ctx.ended == Some(OwnTimeout) {
        VerdictIsCause(d, Self());
        return false, Nil, Some(SagaTimeout), false;
      }
      if failure.None? {
        VerdictIsSuccess(d, Self());
        return false, answer, None, false;
      }
      Poll(ctx);
      if ctx.ended.Some? {
        VerdictIsCause(d, Self());
        return false, Nil, Some(CauseError(ctx.ended.value)), false;
      }
      if IsNonRetryable(failure.value) || attempt >= MaxAttempts(RetryPolicyFor(d, d.steps[i])) {
        VerdictIsFinal(d, Self());
        AnswerRanOut(exec, ctx, i, data, attempt, Answer(answer, failure));
        return false, Nil, Some(StepError(d.steps[i].name, failure.value)), false;
      }
      again, err := TryAgain(exec, ctx, i, data, attempt, Answer(answer, failure));
      return again, Nil, err, true;
    }

    /** Waits before the next attempt, which takes place unless the context ends meanwhile. */
    method TryAgain(exec: Execution, ctx: Context, i: nat, data: Any, attempt: nat, ghost answer: Answer)
      returns (again: bool, err: Option<Error>)
      requires Linked(exec, ctx) && At(Judging(i, data, attempt, answer)) && i < |d.steps| == exec.steps.Length
      requires ctx.ended.None? && answer.err.Some? && MayRetry(d, i, attempt, answer.err.value)
      modifies ctx, this`labels, this`machine, env
      ensures Linked(exec, ctx) && machine.disk == old(machine.disk)
      ensures again ==> At(Try(i, data, attempt + 1)) && ctx.ended.None?
      ensures !again ==> ctx.ended.Some? && err.Some? && Fails(d, Self(), i, err.value) && Explains(ctx, i, attempt, err.value)
      ensures Waited(i, attempt, true)
    {
      hide Tracks, Depth, Store.Valid, Working, MaxAttempts, Fails, RanOut;
      VerdictIsRetry(d, Self(), 0);
      TakeWork(ctx, 0, Self().(pc := Try(i, data, attempt + 1)));
      err := SleepOrDone(ctx, RetryPolicyFor(d, d.steps[i]), attempt + 1);
      if err.Some? {
        TryStops(d, Self());
      }
      again := err.None?;
    }

    /**
     * What a retry loop of so many calls asked of the timer: after each call but the last the delay
     * that the policy has before the next, and after the last too if the context ended meanwhile. It is
     * the step's own policy, if it has one.
     */
    twostate predicate Slept(ctx: Context, i: nat, calls: int)
      requires i < |d.steps|
      reads env, ctx
    {
      var own := d.steps[i].retryPolicy;
      var policy := if own.Some? then own.value else d.retryPolicy;
      var n := |env.slept| - |old(env.slept)|;
      && 0 <= n < Tries(d, d.steps[i])
      && env.slept == old(env.slept) + env.fate.Waits(old(env.drawn.waits), policy, n)
      && (n == calls - 1 || (n == calls && ctx.ended.Some?))
    }

    ghost function Stands(exec: Execution): Standing
      reads this, exec, exec.steps, env
    {
      Standing(exec.Snapshot(), seen, env.drawn.waits, env.slept)
    }

    /** From the one standing to the other, so many calls and waits were made, and nothing else changed. */
    ghost predicate Counted(was: Standing, now: Standing, exec: Execution, i: nat, data: Any, calls: nat, waits: nat)
      requires i < |d.steps| && i < |was.exec.steps|
    {
      && now.exec == CalledTimes(was.exec, i, calls)
      && now.seen == was.seen + RepeatedCalls(exec, i, data, calls)
      && now.waits == was.waits + waits
      && now.slept == was.slept + env.fate.Waits(was.waits, RetryPolicyFor(d, d.steps[i]), waits)
    }

    lemma NothingCounted(was: Standing, exec: Execution, i: nat, data: Any)
      requires i < |d.steps| && i < |was.exec.steps|
      ensures Counted(was, was, exec, i, data, 0, 0)
    {
      NotCalledYet(was.exec, i);
    }

    lemma CountedOn(outset: Standing, was: Standing, now: Standing, exec: Execution, i: nat, data: Any,
                    calls: nat, waits: nat, called: bool, waited: bool)
      requires i < |d.steps| && i < |outset.exec.steps| && i < |was.exec.steps|
      requires Counted(outset, was, exec, i, data, calls, waits)
      requires now.exec == if called then Called(was.exec, i) else was.exec
      requires now.seen == if called then was.seen + RepeatedCalls(exec, i, data, 1) else was.seen
      requires now.waits == was.waits + if waited then 1 else 0
      requires now.slept == was.slept
               + if waited then [env.fate.Wait(was.waits, RetryPolicyFor(d, d.steps[i]), waits + 2)] else []
      ensures Counted(outset, now, exec, i, data, calls + (if called then 1 else 0), waits + (if waited then 1 else 0))
    {
      hide Called, CalledTimes, RepeatedCalls, Fate.Wait, Fate.Waits;
      if called {
        CalledOnceMore(outset.exec, i, calls);
        CallsOnceMore(exec, i, data, calls, outset.seen);
      }
      if waited {
        env.fate.WaitsOnceMore(outset.waits, RetryPolicyFor(d, d.steps[i]), waits, outset.slept);
      }
    }

    /** What has been counted is the attempts, the calls seen and the delays asked for. */
    lemma CountedInAll(outset: Standing, exec: Execution, i: nat, data: Any, calls: nat, waits: nat)
      requires i < |d.steps| && i < |outset.exec.steps| && Counted(outset, Stands(exec), exec, i, data, calls, waits)
      ensures exec.steps.Length == |outset.exec.steps| && exec.steps[i].attempts == outset.exec.steps[i].attempts + calls
      ensures exec.Snapshot() == WithStep(outset.exec, i, outset.exec.steps[i].(attempts := exec.steps[i].attempts))
      ensures seen == outset.seen + RepeatedCalls(exec, i, data, calls)
      ensures env.slept == outset.slept + env.fate.Waits(outset.waits, RetryPolicyFor(d, d.steps[i]), waits)
    {
      assert exec.Snapshot().steps == exec.steps[..];
    }

    /** One turn of the retry loop, with what it adds to the count. */
    method Turn(ghost outset: Standing, exec: Execution, ctx: Context, i: nat, data: Any, attempt: nat)
      returns (again: bool, out: Any, err: Option<Error>, ghost calls: nat, ghost waits: nat)
      requires Linked(exec, ctx) && At(Try(i, data, attempt)) && i < |d.steps| == exec.steps.Length && attempt > 0
      requires |outset.exec.steps| == |d.steps| && Counted(outset, Stands(exec), exec, i, data, attempt - 1, attempt - 1)
      modifies exec.steps, ctx, this`seen, this`labels, this`machine, env
      ensures machine.process.Some? && Linked(exec, ctx) && machine.disk == old(machine.disk)
      ensures Counted(outset, Stands(exec), exec, i, data, calls, waits)
      ensures again ==> At(Try(i, data, attempt + 1)) && ctx.ended.None? && calls == waits == attempt
      ensures again ==> attempt < MaxAttempts(RetryPolicyFor(d, d.steps[i]))
      ensures attempt - 1 <= calls <= attempt && attempt - 1 <= waits <= attempt
      ensures waits == attempt ==> attempt < MaxAttempts(RetryPolicyFor(d, d.steps[i]))
      ensures !again && err.Some? ==> Fails(d, Self(), i, err.value) && Explains(ctx, i, calls, err.value)
      ensures !again && err.None? ==> Succeeds(d, Self(), i, out) && ctx.ended != Some(OwnTimeout) && ctx.asOf == env.drawn
      ensures !again && err.None? ==> calls == attempt
      ensures !again ==> waits == calls - 1 || (waits == calls && ctx.ended.Some?)
      ensures old(ctx.ended).Some? ==> !again && err.Some? && calls == attempt - 1
    {
      hide Linked, Tracking, Storing, Explains, Fails, Succeeds, MaxAttempts, Counted, RepeatedCalls, Called;
      ghost var was, called, waited := Stands(exec), false, false;
      again, out, err, called, waited := Attempt(exec, ctx, i, data, attempt);
      CountedOn(outset, was, Stands(exec), exec, i, data, attempt - 1, attempt - 1, called, waited);
      calls, waits := if called then attempt else attempt - 1, if waited then attempt else attempt - 1;
      if !again && !called {
        EndExplains(ctx, i, attempt, err.value, calls);
      }
    }

    /**
     * The retry loop. It leaves the machine where the step is about to be recorded as succeeded
     * or failed, has changed nothing but the step's attempts, and counted every call in them.
     */
    method RunStep(exec: Execution, ctx: Context, i: nat, data: Any) returns (out: Any, err: Option<Error>)
      requires Linked(exec, ctx) && At(Try(i, data, 1)) && i < |d.steps| == exec.steps.Length
      modifies exec.steps, ctx, this`seen, this`labels, this`machine, env
      ensures Linked(exec, ctx) && machine.disk == old(machine.disk)
      ensures err.None? ==> Succeeds(d, Self(), i, out) && ctx.ended != Some(OwnTimeout) && ctx.asOf == env.drawn
      ensures err.Some? ==>
                && Fails(d, Self(), i, err.value)
                && Explains(ctx, i, exec.steps[i].attempts - old(exec.steps[i].attempts), err.value)
      ensures var calls := exec.steps[i].attempts - old(exec.steps[i].attempts);
              && calls >= 0 && seen == old(seen) + RepeatedCalls(exec, i, data, calls)
              && (if err.None? then 1 else 0) <= calls <= Tries(d, d.steps[i])
              && (old(ctx.ended).Some? ==> calls == 0 && err.Some?)
              && Slept(ctx, i, calls)
              && exec.Snapshot() == WithStep(old(exec.Snapshot()), i,
                                             old(exec.steps[i]).(attempts := exec.steps[i].attempts))
    {
      hide Linked, Tracking, Storing, Explains, Fails, Succeeds, MaxAttempts, RepeatedCalls, Counted;
      var attempt := 1;
      var again := true;
      out, err := Nil, None;
      ghost var outset, calls: nat, waits: nat := Stands(exec), 0, 0;
      NothingCounted(outset, exec, i, data);
      while again
        invariant 1 <= attempt && (again ==> attempt <= Tries(d, d.steps[i]) && calls == waits == attempt - 1)
        invariant machine.process.Some? && Linked(exec, ctx) && machine.disk == old(machine.disk)
        invariant again ==> At(Try(i, data, attempt))
        invariant !again && err.Some? ==> Fails(d, Self(), i, err.value) && Explains(ctx, i, calls, err.value)
        invariant !again && err.None? ==> Succeeds(d, Self(), i, out) && ctx.ended != Some(OwnTimeout) && calls > 0
        invariant !again && err.None? ==> ctx.asOf == env.drawn
        invariant old(ctx.ended).Some? ==> calls == 0 && if again then ctx.ended.Some? else err.Some?
        invariant calls <= Tries(d, d.steps[i]) && waits < Tries(d, d.steps[i])
        invariant Counted(outset, Stands(exec), exec, i, data, calls, waits)
        invariant !again ==> waits == calls - 1 || (waits == calls && ctx.ended.Some?)
        decreases again, Tries(d, d.steps[i]) - attempt
      {
        again, out, err, calls, waits := Turn(outset, exec, ctx, i, data, attempt);
        attempt := attempt + 1;
      }
      CountedInAll(outset, exec, i, data, calls, waits);
    }

    // ---------- compensating ----------

    /** Calls the Compensate of step `j` with the step's output. */
    method InvokeCompensate(exec: Execution, ctx: Context, j: nat, ghost failedAt: nat, ghost cause: Error)
      returns (failure: Option<Error>)
      requires Linked(exec, ctx) && At(Invoke(j, failedAt, cause)) && j < |d.steps| == exec.steps.Length
      modifies this`seen, this`labels, this`machine, env`drawn
      ensures Linked(exec, ctx) && At(Undone(j, failedAt, cause, failure)) && machine.disk == old(machine.disk)
      ensures var key := CompensationOperationID(exec.id, d.steps[j].name);
              failure == env.fate.undo(old(env.drawn.undos), key, exec.steps[j].output)
      ensures seen == old(seen)
              + [CompensateCall(CompensationOperationID(exec.id, d.steps[j].name), exec.steps[j].output)]
    {
      hide Replay, ShapeInvariant, Observed, Store.Valid, Faithfully, Befits;
      StepIsNamed(exec, ctx, j);
      ghost var call := env.drawn.undos;
      var key := CompensationOperationID(exec.id, exec.steps[j].name);
      Show(ctx, CompensateCall(key, exec.steps[j].output));
      failure := env.Undo(key, exec.steps[j].output);
      UndoBefits(env.fate, d, origin.disk.id, machine, call, failure);
      Take(ctx, Label.Compensate(failure));
    }

    /** Brings step `j` to COMPENSATING, or finds it there. */
    method BeginUndo(exec: Execution, ctx: Context, j: nat, ghost failedAt: nat, ghost cause: Error)
      returns (err: Option<Error>)
      requires Linked(exec, ctx) && At(Undo(j + 1, failedAt, cause)) && j < |d.steps| == exec.steps.Length
      requires failedAt <= exec.steps.Length && Undoable(d, exec.Snapshot(), j)
      modifies exec, exec.steps, store, this`seen, this`labels, this`machine, env`drawn
      ensures Framed(exec)
      ensures if err.Some? then Broken(exec, ctx, err) else Linked(exec, ctx) && At(Invoke(j, failedAt, cause))
    {
      hide Linked, At, Broken, Storing, Tracking, Undoable;
      if exec.steps[j].status == StepSucceeded {
        err := StartUndo(exec, ctx, j, failedAt, cause);
      } else {
        RepeatUndo(exec, ctx, j, failedAt, cause);
        err := None;
      }
    }

    method StartUndo(exec: Execution, ctx: Context, j: nat, ghost failedAt: nat, ghost cause: Error)
      returns (err: Option<Error>)
      requires Linked(exec, ctx) && At(Undo(j + 1, failedAt, cause)) && j < |d.steps| == exec.steps.Length
      requires failedAt <= exec.steps.Length && Undoable(d, exec.Snapshot(), j)
      requires exec.steps[j].status == StepSucceeded
      modifies exec, exec.steps, store, this`seen, this`labels, this`machine, env`drawn
      ensures Framed(exec)
      ensures if err.Some? then Broken(exec, ctx, err) else Linked(exec, ctx) && At(Invoke(j, failedAt, cause))
    {
      hide Tracks, Depth, Store.Valid, Working, MovesStep, Broken;
      UndoBegins(d, Self());
      exec.currentStep := exec.steps[j].name;
      err := TransitionStep(exec, ctx, j, StepCompensating, Invoke(j, failedAt, cause));
    }

    method RepeatUndo(exec: Execution, ctx: Context, j: nat, ghost failedAt: nat, ghost cause: Error)
      requires Linked(exec, ctx) && At(Undo(j + 1, failedAt, cause)) && j < |d.steps| == exec.steps.Length
      requires failedAt <= exec.steps.Length && Undoable(d, exec.Snapshot(), j)
      requires exec.steps[j].status != StepSucceeded
      modifies exec, this`labels, this`machine
      ensures Linked(exec, ctx) && At(Invoke(j, failedAt, cause))
    {
      hide Tracks, Depth, Store.Valid, Working;
      ghost var p := Self();
      UndoRepeats(d, p, 0);
      exec.currentStep := exec.steps[j].name;
      Advance(exec, ctx, p.(pc := Invoke(j, failedAt, cause), exec := exec.Snapshot()));
    }

    /** Records how the compensation of step `j` went. */
    method EndUndo(exec: Execution, ctx: Context, j: nat, failure: Option<Error>, ghost failedAt: nat, ghost cause: Error)
      returns (err: Option<Error>)
      requires Linked(exec, ctx) && At(Undone(j, failedAt, cause, failure)) && j < exec.steps.Length
      modifies exec.steps, store, this`seen, this`labels, this`machine, env`drawn
      ensures Framed(exec)
      ensures if err.Some? then Broken(exec, ctx, err) else Linked(exec, ctx) && At(Undo(j, failedAt, cause))
    {
      hide Tracks, Depth, Store.Valid, Working, MovesStep, Broken;
      UndoneMoves(d, Self());
      if failure.Some? {
        err := FailUndo(exec, ctx, j, failure, failedAt, cause);
      } else {
        err := TransitionStep(exec, ctx, j, StepCompensated, Undo(j, failedAt, cause));
      }
    }

    method FailUndo(exec: Execution, ctx: Context, j: nat, failure: Option<Error>, ghost failedAt: nat, ghost cause: Error)
      returns (err: Option<Error>)
      requires Linked(exec, ctx) && At(Undone(j, failedAt, cause, failure)) && j < exec.steps.Length && failure.Some?
      modifies exec.steps, store, this`seen, this`labels, this`machine, env`drawn
      ensures Framed(exec)
      ensures if err.Some? then Broken(exec, ctx, err) else Linked(exec, ctx) && At(Undo(j, failedAt, cause))
    {
      hide Tracks, Depth, Store.Valid, Working, MovesStep, Broken;
      UndoneMoves(d, Self());
      exec.steps[j] := exec.steps[j].(error := failure);
      err := TransitionStep(exec, ctx, j, StepCompensationFailed, Undo(j, failedAt, cause));
    }

    /** Compensates step `j` unless there is nothing to undo. */
    method UndoStep(exec: Execution, ctx: Context, j: nat, ghost failedAt: nat, ghost cause: Error)
      returns (err: Option<Error>)
      requires Linked(exec, ctx) && At(Undo(j + 1, failedAt, cause)) && j < |d.steps| == exec.steps.Length
      requires failedAt <= exec.steps.Length
      modifies exec, exec.steps, store, this`seen, this`labels, this`machine, env`drawn
      ensures Framed(exec)
      ensures if err.Some? then Broken(exec, ctx, err) else Linked(exec, ctx) && At(Undo(j, failedAt, cause))
    {
      hide Tracks, Depth, Store.Valid, Working, Store.Apart, MovesStep;
      var status := exec.steps[j].status;
      if (status != StepSucceeded && status != StepCompensating) || !d.steps[j].hasCompensate {
        UndoSkips(d, Self(), 0);
        Advance(exec, ctx, Self().(pc := Undo(j, failedAt, cause)));
        return None;
      }
      err := RollBack(exec, ctx, j, failedAt, cause);
    }

    method RollBack(exec: Execution, ctx: Context, j: nat, ghost failedAt: nat, ghost cause: Error)
      returns (err: Option<Error>)
      requires Linked(exec, ctx) && At(Undo(j + 1, failedAt, cause)) && j < |d.steps| == exec.steps.Length
      requires failedAt <= exec.steps.Length && Undoable(d, exec.Snapshot(), j)
      modifies exec, exec.steps, store, this`seen, this`labels, this`machine, env`drawn
      ensures Framed(exec)
      ensures if err.Some? then Broken(exec, ctx, err) else Linked(exec, ctx) && At(Undo(j, failedAt, cause))
    {
      hide Linked, Broken, At, Storing, Tracking, Undoable;
      err := BeginUndo(exec, ctx, j, failedAt, cause);
      if err.Some? {
        return;
      }
      var failure := InvokeCompensate(exec, ctx, j, failedAt, cause);
      err := EndUndo(exec, ctx, j, failure, failedAt, cause);
    }

    lemma StepIsNamed(exec: Execution, ctx: Context, j: nat)
      requires Linked(exec, ctx) && Self().stage.Idle? && !Self().pc.Done? && j < |d.steps|
      ensures exec.steps.Length == |d.steps| && exec.steps[j].name == d.steps[j].name
    {
      PlaceOf(d, machine);
    }

    /** Compensates every step below `failedAt` that needs it, from the top down. */
    method Compensate(exec: Execution, ctx: Context, failedAt: nat, ghost cause: Error)
      returns (ok: bool, err: Option<Error>)
      requires Linked(exec, ctx) && At(Undo(failedAt, failedAt, cause)) && failedAt <= |d.steps| == exec.steps.Length
      modifies exec, exec.steps, store, this`seen, this`labels, this`machine, env`drawn
      ensures Framed(exec)
      ensures err.Some? ==> Broken(exec, ctx, err)
      ensures err.None? ==>
                Linked(exec, ctx) && At(Undo(0, failedAt, cause)) && ok == !AnyCompensationFailed(exec.steps[..failedAt])
    {
      hide Tracks, Depth, Store.Valid, Store.Apart, Broken, Tracking, At, Self, AnyCompensationFailed;
      var j: nat := failedAt;
      while j > 0
        invariant 0 <= j <= failedAt
        invariant Linked(exec, ctx) && At(Undo(j, failedAt, cause)) && Framed(exec)
      {
        j := j - 1;
        err := UndoStep(exec, ctx, j, failedAt, cause);
        if err.Some? {
          return false, err;
        }
      }
      ok := AllCompensated(exec.steps, failedAt);
      err := None;
    }

    /** Compensates, then settles the execution on one of the two ends of a rollback. */
    method FinishCompensating(exec: Execution, ctx: Context, failedAt: nat, originalErr: Error)
      returns (err: Option<Error>)
      requires Linked(exec, ctx) && At(Undo(failedAt, failedAt, originalErr))
      requires failedAt <= |d.steps| == exec.steps.Length
      modifies exec, exec.steps, store, this`seen, this`labels, this`machine, env`drawn
      ensures Framed(exec) && Finished(exec, ctx, err)
    {
      hide Linked, At, Tracks, Tracking, Store.Valid, AnyCompensationFailed;
      var ok;
      ok, err := Compensate(exec, ctx, failedAt, originalErr);
      if err.Some? {
        exec.currentStep := "";
        return;
      }
      err := Settle(exec, ctx, failedAt, originalErr, ok);
    }

    method Settle(exec: Execution, ctx: Context, failedAt: nat, originalErr: Error, ok: bool)
      returns (err: Option<Error>)
      requires Linked(exec, ctx) && At(Undo(0, failedAt, originalErr))
      requires failedAt <= |d.steps| == exec.steps.Length && ok == !AnyCompensationFailed(exec.steps[..failedAt])
      modifies exec, store, this`seen, this`labels, this`machine, env`drawn
      ensures Framed(exec) && Finished(exec, ctx, err)
    {
      hide Tracks, Depth, Store.Valid, Working, MovesExec, AnyCompensationFailed;
      UndoEnds(d, Self());
      exec.currentStep := "";
      if !ok {
        err := EndWith(exec, ctx, CompensationFailed, Some(CompensationFailure(originalErr)));
      } else {
        err := EndWith(exec, ctx, Compensated, Some(originalErr));
      }
    }

    /** The last status change of a run, and its result if that could be saved. */
    method EndWith(exec: Execution, ctx: Context, to: Status, result: Option<Error>) returns (err: Option<Error>)
      requires Tracking(ctx) && Storing(exec) && MovesExec(d, Self(), exec.Snapshot(), to, Done(Returned(result)))
      modifies exec, store, this`seen, this`labels, this`machine, env`drawn
      ensures Framed(exec) && Finished(exec, ctx, err)
    {
      hide Linked, At, Tracking, Storing, MovesExec;
      err := TransitionExec(exec, ctx, to, Done(Returned(result)));
      if err.None? {
        return result;
      }
    }

    /** Ends a run that did not succeed: rolls back if anything succeeded, fails otherwise. */
    method Abort(exec: Execution, ctx: Context, failedAt: nat, originalErr: Error, ghost clears: bool)
      returns (err: Option<Error>)
      requires Tracking(ctx) && Storing(exec) && At(Pc.Abort(failedAt, originalErr, clears))
      requires failedAt <= |d.steps| == exec.steps.Length
      requires exec.Snapshot() == Self().exec.(currentStep := if clears then "" else Self().exec.currentStep)
      modifies exec, exec.steps, store, this`seen, this`labels, this`machine, env`drawn
      ensures Framed(exec) && Finished(exec, ctx, err)
    {
      hide Tracks, Depth, Store.Valid, Working, MovesExec, AnySucceeded, Finished;
      AbortEnds(d, Self());
      exec.error := Some(originalErr);
      var any := HasSucceeded(exec.steps, failedAt);
      if !any {
        err := EndWith(exec, ctx, Failed, Some(originalErr));
        return;
      }
      err := StartCompensating(exec, ctx, failedAt, originalErr);
    }

    method StartCompensating(exec: Execution, ctx: Context, failedAt: nat, originalErr: Error)
      returns (err: Option<Error>)
      requires Tracking(ctx) && Storing(exec) && failedAt <= |d.steps| == exec.steps.Length
      requires MovesExec(d, Self(), exec.Snapshot(), Compensating, Undo(failedAt, failedAt, originalErr))
      modifies exec, exec.steps, store, this`seen, this`labels, this`machine, env`drawn
      ensures Framed(exec) && Finished(exec, ctx, err)
    {
      hide Linked, At, Broken, Tracking, Storing, MovesExec;
      err := TransitionExec(exec, ctx, Compensating, Undo(failedAt, failedAt, originalErr));
      if err.Some? {
        return;
      }
      err := FinishCompensating(exec, ctx, failedAt, originalErr);
    }

    /** Picks up a rollback where the recorded statuses say it is. */
    method ResumeCompensating(exec: Execution, ctx: Context) returns (err: Option<Error>)
      requires Linked(exec, ctx) && At(Entry) && exec.status == Compensating && exec.steps.Length == |d.steps|
      modifies exec, exec.steps, store, this`seen, this`labels, this`machine, env`drawn
      ensures Framed(exec) && Finished(exec, ctx, err)
    {
      hide Tracks, Depth, Store.Valid, Working;
      var failedAt := ReconstructBoundary(exec.steps);
      var cause := Message(exec.error);
      EntryContinues(d, Self(), 0);
      Advance(exec, ctx, Self().(pc := Undo(failedAt, failedAt, cause)));
      err := FinishCompensating(exec, ctx, failedAt, cause);
    }

    // ---------- running forward ----------

    /** Brings step `i` to RUNNING, or finds it there. */
    method BeginStep(exec: Execution, ctx: Context, i: nat, data: Any) returns (err: Option<Error>)
      requires Linked(exec, ctx) && At(Loop(i, data)) && i < |d.steps| == exec.steps.Length
      requires ctx.ended.None? && ctx.asOf == env.drawn
      modifies exec, exec.steps, store, this`seen, this`labels, this`machine, env`drawn
      ensures Framed(exec)
      ensures if err.Some? then Broken(exec, ctx, err) else Linked(exec, ctx) && At(Try(i, data, 1))
    {
      hide Linked, At, Broken, Storing, Tracking;
      if exec.steps[i].status == StepPending {
        err := StartStep(exec, ctx, i, data);
      } else {
        RepeatStep(exec, ctx, i, data);
        err := None;
      }
    }

    method StartStep(exec: Execution, ctx: Context, i: nat, data: Any) returns (err: Option<Error>)
      requires Linked(exec, ctx) && At(Loop(i, data)) && i < |d.steps| == exec.steps.Length
      requires ctx.ended.None? && ctx.asOf == env.drawn
      requires exec.steps[i].status == StepPending
      modifies exec, exec.steps, store, this`seen, this`labels, this`machine, env`drawn
      ensures Framed(exec)
      ensures if err.Some? then Broken(exec, ctx, err) else Linked(exec, ctx) && At(Try(i, data, 1))
    {
      hide Tracks, Depth, Store.Valid, Working, MovesStep, Broken;
      LoopStarts(d, Self());
      exec.currentStep := d.steps[i].name;
      err := TransitionStep(exec, ctx, i, StepRunning, Try(i, data, 1));
    }

    method RepeatStep(exec: Execution, ctx: Context, i: nat, data: Any)
      requires Linked(exec, ctx) && At(Loop(i, data)) && i < |d.steps| == exec.steps.Length
      requires ctx.ended.None? && ctx.asOf == env.drawn
      requires exec.steps[i].status != StepPending
      modifies exec, this`labels, this`machine
      ensures Linked(exec, ctx) && At(Try(i, data, 1))
    {
      hide Tracks, Depth, Store.Valid, Working;
      ghost var p := Self();
      LoopReruns(d, p, 0);
      exec.currentStep := d.steps[i].name;
      Advance(exec, ctx, p.(pc := Try(i, data, 1), exec := exec.Snapshot()));
    }

    /** Records the failure of step `i` and ends the run over it. */
    method FailAt(exec: Execution, ctx: Context, i: nat, stepErr: Error) returns (err: Option<Error>)
      requires Linked(exec, ctx) && Fails(d, Self(), i, stepErr) && i < |d.steps| == exec.steps.Length
      modifies exec, exec.steps, store, this`seen, this`labels, this`machine, env`drawn
      ensures Framed(exec) && Finished(exec, ctx, err)
    {
      hide Linked, At, Broken, Tracking, Storing, Fails;
      err := RecordFailure(exec, ctx, i, stepErr);
      if err.Some? {
        return;
      }
      err := StopAt(exec, ctx, i, stepErr);
    }

    method RecordFailure(exec: Execution, ctx: Context, i: nat, stepErr: Error) returns (err: Option<Error>)
      requires Linked(exec, ctx) && Fails(d, Self(), i, stepErr) && i < |d.steps| == exec.steps.Length
      modifies exec.steps, store, this`seen, this`labels, this`machine, env`drawn
      ensures Framed(exec)
      ensures if err.Some? then Broken(exec, ctx, err) else Linked(exec, ctx) && At(Pc.Abort(i, stepErr, true))
    {
      hide Tracks, Depth, Store.Valid, Working, MovesStep, Broken;
      exec.steps[i] := exec.steps[i].(error := Some(stepErr));
      err := TransitionStep(exec, ctx, i, StepFailed, Pc.Abort(i, stepErr, true));
    }

    /** Leaves the forward loop. */
    method StopAt(exec: Execution, ctx: Context, i: nat, cause: Error) returns (err: Option<Error>)
      requires Linked(exec, ctx) && At(Pc.Abort(i, cause, true)) && i < |d.steps| == exec.steps.Length
      modifies exec, exec.steps, store, this`seen, this`labels, this`machine, env`drawn
      ensures Framed(exec) && Finished(exec, ctx, err)
    {
      hide Tracks, Depth, Store.Valid;
      exec.currentStep := "";
      err := Abort(exec, ctx, i, cause, true);
    }

    method SucceedAt(exec: Execution, ctx: Context, i: nat, out: Any) returns (err: Option<Error>)
      requires Linked(exec, ctx) && Succeeds(d, Self(), i, out) && i < |d.steps| == exec.steps.Length
      modifies exec, exec.steps, store, this`seen, this`labels, this`machine, env`drawn
      ensures Framed(exec)
      ensures if err.Some? then Broken(exec, ctx, err) else Linked(exec, ctx) && At(Loop(i + 1, out))
    {
      hide Tracks, Depth, Store.Valid, Working, MovesStep, Broken;
      exec.steps[i] := exec.steps[i].(output := out);
      err := TransitionStep(exec, ctx, i, StepSucceeded, Loop(i + 1, out));
    }

    /** Looks at the context, staying where it is. */
    method Watch(exec: Execution, ctx: Context, ghost pc: Pc)
      requires Linked(exec, ctx) && At(pc)
      modifies this`labels, this`machine, ctx, env`drawn
      ensures Linked(exec, ctx) && At(pc) && ctx.asOf == env.drawn
    {
      hide Tracks, Depth, Store.Valid;
      Poll(ctx);
    }

    /** Enters step `i` unless the context has ended. */
    method EnterStep(exec: Execution, ctx: Context, i: nat, data: Any) returns (entered: bool, err: Option<Error>)
      requires Linked(exec, ctx) && At(Loop(i, data)) && i < |d.steps| == exec.steps.Length
      modifies exec, exec.steps, store, ctx, this`seen, this`labels, this`machine, env`drawn
      ensures Framed(exec)
      ensures if entered then Linked(exec, ctx) && At(Try(i, data, 1)) else Finished(exec, ctx, err)
    {
      hide Linked, At, Broken, Tracking, Storing;
      Watch(exec, ctx, Loop(i, data));
      if ctx.ended.Some? {
        err := StopBefore(exec, ctx, i, data);
        return false, err;
      }
      err := BeginStep(exec, ctx, i, data);
      return err.None?, err;
    }

    /** The context has ended before step `i` was run, or run again. */
    method StopBefore(exec: Execution, ctx: Context, i: nat, data: Any) returns (err: Option<Error>)
      requires Linked(exec, ctx) && At(Loop(i, data)) && ctx.ended.Some? && i < |d.steps| == exec.steps.Length
      modifies exec, exec.steps, store, this`seen, this`labels, this`machine, env`drawn
      ensures Framed(exec) && Finished(exec, ctx, err)
    {
      hide Tracks, Depth, Store.Valid, Working, Finished;
      var cause := CauseError(ctx.ended.value);
      LoopStops(d, Self(), 0);
      Advance(exec, ctx, Self().(pc := Pc.Abort(i, cause, true)));
      err := StopAt(exec, ctx, i, cause);
    }

    /** Takes step `i` to SUCCEEDED, or the run to its end. */
    method DriveStep(exec: Execution, ctx: Context, i: nat, data: Any)
      returns (succeeded: bool, out: Any, err: Option<Error>)
      requires Linked(exec, ctx) && At(Loop(i, data)) && i < |d.steps| == exec.steps.Length
      modifies exec, exec.steps, store, ctx, this`seen, this`labels, this`machine, env
      ensures Framed(exec)
      ensures if succeeded then Linked(exec, ctx) && At(Loop(i + 1, out)) else Finished(exec, ctx, err)
    {
      hide Linked, At, Broken, Tracking, Storing, Fails, Succeeds, Explains, Tries;
      var entered;
      out := Nil;
      entered, err := EnterStep(exec, ctx, i, data);
      if !entered {
        return false, out, err;
      }
      succeeded, out, err := PerformStep(exec, ctx, i, data);
    }

    /** Runs step `i` and records how it went. */
    method PerformStep(exec: Execution, ctx: Context, i: nat, data: Any)
      returns (succeeded: bool, out: Any, err: Option<Error>)
      requires Linked(exec, ctx) && At(Try(i, data, 1)) && i < |d.steps| == exec.steps.Length
      modifies exec, exec.steps, store, ctx, this`seen, this`labels, this`machine, env
      ensures Framed(exec)
      ensures if succeeded then Linked(exec, ctx) && At(Loop(i + 1, out)) else Finished(exec, ctx, err)
    {
      hide Linked, At, Broken, Tracking, Storing, Fails, Succeeds, Explains, Tries;
      out, err := RunStep(exec, ctx, i, data);
      if err.Some? {
        err := FailAt(exec, ctx, i, err.value);
        return false, out, err;
      }
      err := SucceedAt(exec, ctx, i, out);
      return err.None?, out, err;
    }

    /** The forward loop from step `startAt` on. */
    method RunForward(exec: Execution, ctx: Context, startAt: nat, input: Any) returns (err: Option<Error>)
      requires Linked(exec, ctx) && At(Loop(startAt, input)) && startAt <= |d.steps| == exec.steps.Length
      modifies exec, exec.steps, store, ctx, this`seen, this`labels, this`machine, env
      ensures Framed(exec) && Finished(exec, ctx, err)
    {
      hide Tracks, Depth, Store.Valid, Store.Apart, Finished, Broken, Tracking, At, Self;
      var i, data := startAt, input;
      while i < |d.steps|
        invariant i <= |d.steps|
        invariant Linked(exec, ctx) && At(Loop(i, data)) && Framed(exec)
      {
        var succeeded, out;
        succeeded, out, err := DriveStep(exec, ctx, i, data);
        if !succeeded {
          return;
        }
        i, data := i + 1, out;
      }
      err := Complete(exec, ctx, i, data);
    }

    method Complete(exec: Execution, ctx: Context, i: nat, data: Any) returns (err: Option<Error>)
      requires Linked(exec, ctx) && At(Loop(i, data)) && i == |d.steps| == exec.steps.Length
      modifies exec, store, this`seen, this`labels, this`machine, env`drawn
      ensures Framed(exec) && Finished(exec, ctx, err)
    {
      hide Tracks, Depth, Store.Valid, Working, MovesExec;
      LoopEnds(d, Self());
      exec.currentStep, exec.output := "", data;
      err := EndWith(exec, ctx, Completed, None);
    }

    /** Picks up the forward run where the recorded statuses say it is. */
    method ResumeRunning(exec: Execution, ctx: Context) returns (err: Option<Error>)
      requires Linked(exec, ctx) && At(Scan) && exec.steps.Length == |d.steps|
      modifies exec, exec.steps, store, ctx, this`seen, this`labels, this`machine, env
      ensures Framed(exec) && Finished(exec, ctx, err)
    {
      hide Linked, At, Storing, Tracking, Finished, FirstFailed;
      var failed := FindFailed(exec.steps);
      if failed.Some? {
        err := ReenterAbort(exec, ctx, failed.value);
      } else {
        err := ReenterLoop(exec, ctx);
      }
    }

    /** A failure recorded by an earlier process, whose abort was not. */
    method ReenterAbort(exec: Execution, ctx: Context, i: nat) returns (err: Option<Error>)
      requires Linked(exec, ctx) && At(Scan) && exec.steps.Length == |d.steps| && FirstFailed(exec.steps[..]) == Some(i)
      modifies exec, exec.steps, store, this`seen, this`labels, this`machine, env`drawn
      ensures Framed(exec) && Finished(exec, ctx, err)
    {
      hide Tracks, Depth, Store.Valid, Working, Finished, FirstFailed;
      var cause := StepError(exec.steps[i].name, Message(exec.steps[i].error));
      ScanFindsFailure(d, Self(), i, 0);
      Advance(exec, ctx, Self().(pc := Pc.Abort(i, cause, false)));
      err := Abort(exec, ctx, i, cause, false);
    }

    method ReenterLoop(exec: Execution, ctx: Context) returns (err: Option<Error>)
      requires Linked(exec, ctx) && At(Scan) && exec.steps.Length == |d.steps| && FirstFailed(exec.steps[..]) == None
      modifies exec, exec.steps, store, ctx, this`seen, this`labels, this`machine, env
      ensures Framed(exec) && Finished(exec, ctx, err)
    {
      hide Tracks, Depth, Store.Valid, Working, Finished, FirstFailed, SucceededPrefix;
      var startAt, data := SkipSucceeded(exec.steps, exec.input);
      ScanFindsStart(d, Self(), 0);
      Advance(exec, ctx, Self().(pc := Loop(startAt, data)));
      err := RunForward(exec, ctx, startAt, data);
    }

    /** Drives the execution to its end from wherever its record says it is. */
    method Drive(exec: Execution, ctx: Context) returns (err: Option<Error>)
      requires Linked(exec, ctx) && At(Entry) && exec.steps.Length == |d.steps|
      modifies exec, exec.steps, store, ctx, this`seen, this`labels, this`machine, env
      ensures Framed(exec) && Finished(exec, ctx, err)
    {
      hide Tracks, Depth, Store.Valid, Store.Apart, Working, Boundary;
      if exec.status.IsTerminal() {
        EntryContinues(d, Self(), 0);
        Advance(exec, ctx, Self().(pc := Done(Returned(None))));
        return None;
      } else if exec.status == Compensating {
        err := ResumeCompensating(exec, ctx);
      } else {
        err := DriveForward(exec, ctx);
      }
    }

    method DriveForward(exec: Execution, ctx: Context) returns (err: Option<Error>)
      requires Linked(exec, ctx) && At(Entry) && exec.steps.Length == |d.steps|
      requires exec.status == Pending || exec.status == Running
      modifies exec, exec.steps, store, ctx, this`seen, this`labels, this`machine, env
      ensures Framed(exec) && Finished(exec, ctx, err)
    {
      hide Linked, At, Broken, Tracking, Storing;
      err := EnterRunning(exec, ctx);
      if err.Some? {
        return;
      }
      err := ResumeRunning(exec, ctx);
    }

    /** Brings a pending execution to RUNNING, or finds it there. */
    method EnterRunning(exec: Execution, ctx: Context) returns (err: Option<Error>)
      requires Linked(exec, ctx) && At(Entry) && (exec.status == Pending || exec.status == Running)
      modifies exec, store, this`seen, this`labels, this`machine, env`drawn
      ensures Framed(exec)
      ensures if err.Some? then Broken(exec, ctx, err) else Linked(exec, ctx) && At(Scan)
    {
      hide Tracks, Depth, Store.Valid, Working, Boundary, MovesExec;
      if exec.status == Pending {
        EntryStarts(d, Self());
        err := TransitionExec(exec, ctx, Running, Scan);
      } else {
        EntryContinues(d, Self(), 0);
        Advance(exec, ctx, Self().(pc := Scan));
        err := None;
      }
    }

    /** A finished run, as its caller sees it. */
    lemma Concluded(exec: Execution, ctx: Context, err: Option<Error>, past: seq<Effect>)
      requires Finished(exec, ctx, err) && origin == Reading(origin.disk, past) && Shape(d, origin.disk)
      ensures machine.process.Some? && Self().pc.Done?
      ensures var outcome := if Self().pc.result.Returned? then Ended else CutShort;
              && Ran(d, origin, labels, machine, outcome, err, seen)
              && Faithfully(env.fate, d, origin, labels)
              && (outcome.Ended? ==> exec.Snapshot() == Self().exec)
              && (outcome.CutShort? || (err.Some? && Disturbed(err.value)) ==> err.Some? && Faulted(err.value))
      ensures store.Valid() && store.Apart(exec) && store.contents == Saved() && Upto(since, env.drawn)
      ensures locking ==> HoldsLease(store.LeaseOn(exec.id), lockOwner)
    {
      hide Store.Valid, Store.Apart, Depth;
      var observed := Observed(d, origin.disk.id, machine.history);
      assert observed == observed + [];
      if Self().pc.result.Returned? {
        ReturnedIsTerminal(d, machine);
        ReturnsUndisturbed(d, origin.disk, past, labels, machine);
        ResultIsStored(d, origin.disk, past, labels, machine, err);
        hide Replay, Observed, Reported, Shape, Faithfully;
      }
    }
  }
}
