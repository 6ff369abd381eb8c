/**
 * Many workers around one execution: they list it, compete for its lease, drive it, renew the
 * lease before each save, release it or die. Under two premises the cluster behaves like a
 * single process with crashes; without either of them it does not.
 */
module Cluster {
  import opened Values
  import opened Records
  import opened Protocol
  import opened RecordShape
  import opened Progress
  import opened Leases

  /** One call of resume, under its own fresh owner name. */
  datatype Session =
    | Listed(snapshot: Record)
    | Driving(run: Process, renewed: bool, until: Time)

  datatype Cluster = Cluster(
    now: Time,
    lease: Option<Lease>,
    disk: Record,
    sessions: map<string, Session>,
    used: set<string>,
    history: seq<Effect>)

  datatype Move =
    | Tick(to: Time)
    | List(w: string)
    | Acquire(w: string)
    | Drive(w: string, l: Label)
    | Renew(w: string)
    | Persist(w: string)
    | Release(w: string)
    | Die(w: string)

  predicate IsDriving(c: Cluster, w: string) {
    w in c.sessions && c.sessions[w].Driving?
  }

  function View(c: Cluster, run: Process): System {
    System(Some(run), c.disk, c.history)
  }

  function NextMove(d: Definition, c: Cluster, m: Move): Option<Cluster> {
    match m
    case Tick(to) =>
      if to >= c.now then Some(c.(now := to)) else None
    case List(w) =>
      if w !in c.used && !c.disk.status.IsTerminal()
      then Some(c.(sessions := c.sessions[w := Listed(c.disk)], used := c.used + {w}))
      else None
    case Acquire(w) =>
      if w !in c.sessions || !c.sessions[w].Listed? then None
      else if KeepsOut(c.lease, w, c.now) then Some(c.(sessions := c.sessions - {w}))
      else
        var run := Process(Entry, Idle, c.sessions[w].snapshot, None);
        Some(c.(lease := Acquired(c.lease, w, c.now, d.lockTTL),
                sessions := c.sessions[w := Driving(run, false, c.now + d.lockTTL)],
                history := c.history + [Resumed]))
    case Drive(w, l) =>
      if !IsDriving(c, w) || l.Crash? || l.Resume? || l.Save? then None
      else
        var after := Next(d, View(c, c.sessions[w].run), l);
        if after.None? || after.value.process.None? then None
        else Some(c.(sessions := c.sessions[w := c.sessions[w].(run := after.value.process.value)],
                     history := after.value.history))
    case Renew(w) =>
      if !IsDriving(c, w) || !c.sessions[w].run.stage.Saving? || c.sessions[w].renewed then None
      else if KeepsOut(c.lease, w, c.now) then
        var stopped := c.sessions[w].run.(pc := Done(Stopped(Locked(c.disk.id))), stage := Idle);
        Some(c.(sessions := c.sessions[w := c.sessions[w].(run := stopped)]))
      else
        Some(c.(lease := Acquired(c.lease, w, c.now, d.lockTTL),
                sessions := c.sessions[w := c.sessions[w].(renewed := true, until := c.now + d.lockTTL)]))
    case Persist(w) =>
      if !IsDriving(c, w) || !c.sessions[w].renewed then None
      else
        var after := Next(d, View(c, c.sessions[w].run), Save);
        if after.None? || after.value.process.None? then None
        else Some(c.(disk := after.value.disk,
                     sessions := c.sessions[w := c.sessions[w].(run := after.value.process.value, renewed := false)],
                     history := after.value.history))
    case Release(w) =>
      if !IsDriving(c, w) || !c.sessions[w].run.pc.Done? then None
      else Some(c.(lease := Released(c.lease, w), sessions := c.sessions - {w}))
    case Die(w) =>
      if w !in c.sessions then None else Some(c.(sessions := c.sessions - {w}))
  }

  function Play(d: Definition, c: Cluster, moves: seq<Move>): Option<Cluster> {
    if |moves| == 0 then Some(c)
    else
      var before := Play(d, c, moves[..|moves| - 1]);
      if before.None? then None else NextMove(d, before.value, moves[|moves| - 1])
  }

  /** A fresh execution on disk, its creator about to acquire it. */
  function Start(d: Definition, id: string, input: Any, now: Time, creator: string): Cluster {
    var r := FreshRecord(d, id, input, now);
    Cluster(now, None, r, map[creator := Listed(r)], {creator}, [])
  }

  // ---------- the premises ----------

  /** The clock never reaches the end of a lease that a worker is still driving under. */
  ghost predicate Timely(c: Cluster, m: Move) {
    m.Tick? ==> forall w :: IsDriving(c, w) ==> m.to < c.sessions[w].until
  }

  /** What a worker listed is still what is stored when it gets the lease. */
  ghost predicate Fresh(c: Cluster, m: Move) {
    m.Acquire? && m.w in c.sessions && c.sessions[m.w].Listed? && !KeepsOut(c.lease, m.w, c.now)
    ==> c.sessions[m.w].snapshot == c.disk
  }

  ghost predicate Disciplined(d: Definition, c0: Cluster, moves: seq<Move>) {
    |moves| == 0 ||
    (&& Disciplined(d, c0, moves[..|moves| - 1])
     && var before := Play(d, c0, moves[..|moves| - 1]);
        before.Some? ==> Timely(before.value, moves[|moves| - 1]) && Fresh(before.value, moves[|moves| - 1]))
  }

  // ---------- exclusion ----------

  /** Whoever drives holds the lease, and it has not expired. */
  ghost predicate Exclusive(c: Cluster) {
    && c.sessions.Keys <= c.used
    && forall w :: IsDriving(c, w) ==>
         c.lease == Some(Lease(w, c.sessions[w].until)) && c.now < c.sessions[w].until
  }

  lemma MoveKeepsExclusion(d: Definition, c: Cluster, m: Move, c': Cluster)
    requires d.lockTTL > 0 && Exclusive(c) && Timely(c, m) && NextMove(d, c, m) == Some(c')
    ensures Exclusive(c')
  {
    hide Next;
  }

  /** At most one worker drives the execution at a time. */
  lemma OneDriver(c: Cluster, v: string, w: string)
    requires Exclusive(c) && IsDriving(c, v) && IsDriving(c, w)
    ensures v == w
  {
    assert c.lease == Some(Lease(v, c.sessions[v].until));
    assert c.lease == Some(Lease(w, c.sessions[w].until));
  }

  /**
   * In every state, whether drivers are exclusive or not: what a worker does when it leaves takes
   * nothing from the others. A lease of somebody else stays and keeps out whom it kept out, and
   * whoever else drives or has listed goes on as before.
   */
  lemma LeavingTakesNothing(d: Definition, c: Cluster, m: Move, c': Cluster)
    requires NextMove(d, c, m) == Some(c') && (m.Release? || m.Die?)
    ensures c.lease.Some? && c.lease.value.owner != m.w ==>
              c'.lease == c.lease && forall v :: KeepsOut(c.lease, v, c.now) ==> KeepsOut(c'.lease, v, c'.now)
    ensures m.Release? && c.lease.Some? && c.lease.value.owner == m.w ==> c'.lease.None?
    ensures forall v :: v != m.w ==> (v in c.sessions <==> v in c'.sessions)
                                     && (v in c.sessions ==> c'.sessions[v] == c.sessions[v])
    ensures m.w !in c'.sessions && c'.disk == c.disk && c'.history == c.history
  {
  }

  /** A grant, first or renewed, runs for the full duration from now; a refusal takes nothing. */
  lemma GrantsRunFromNow(d: Definition, c: Cluster, m: Move, c': Cluster)
    requires NextMove(d, c, m) == Some(c') && (m.Acquire? || m.Renew?)
    ensures c'.now == c.now && c'.disk == c.disk
    ensures !KeepsOut(c.lease, m.w, c.now) ==>
              && c'.lease == Some(Lease(m.w, c.now + d.lockTTL))
              && IsDriving(c', m.w) && c'.sessions[m.w].until == c.now + d.lockTTL
    ensures KeepsOut(c.lease, m.w, c.now) ==>
              c'.lease == c.lease && c'.history == c.history
              && (m.w in c'.sessions ==>
                    IsDriving(c', m.w) && c'.sessions[m.w].run.pc == Done(Stopped(Locked(c.disk.id))))
  {
  }

  lemma MoveKeepsLease(d: Definition, c: Cluster, m: Move, c': Cluster, w: string, until: Time)
    requires NextMove(d, c, m) == Some(c') && m != Release(w) && until <= c.now + d.lockTTL
    requires c.now >= until || (HoldsLease(c.lease, w) && c.lease.value.expires >= until)
    ensures until <= c'.now + d.lockTTL
    ensures c'.now >= until || (HoldsLease(c'.lease, w) && c'.lease.value.expires >= until)
  {
    hide Next;
  }

  /**
   * A lease is safe, whatever the workers do and however stale or late they are: until the moment it
   * was granted to, only its owner's own release ends it.
   */
  lemma {:induction false} LeaseIsSafe(d: Definition, c: Cluster, moves: seq<Move>, c': Cluster, w: string)
    requires HoldsLease(c.lease, w) && c.lease.value.expires <= c.now + d.lockTTL
    requires Play(d, c, moves) == Some(c') && Release(w) !in moves
    ensures c'.now >= c.lease.value.expires
            || (HoldsLease(c'.lease, w) && c'.lease.value.expires >= c.lease.value.expires)
    ensures c.lease.value.expires <= c'.now + d.lockTTL
  {
    if |moves| > 0 {
      var front, m := moves[..|moves| - 1], moves[|moves| - 1];
      var before := Play(d, c, front).value;
      LeaseIsSafe(d, c, front, before, w);
      hide NextMove, Play;
      MoveKeepsLease(d, before, m, c', w, c.lease.value.expires);
    }
  }

  // ---------- simulation by the single process ----------

  /** The cluster as one process: the driver, if the lease owner is one. */
  function Abstract(c: Cluster): System {
    System(if c.lease.Some? && IsDriving(c, c.lease.value.owner)
           then Some(c.sessions[c.lease.value.owner].run) else None,
           c.disk, c.history)
  }

  /** What a move is in the life of the single process. */
  function LabelsFor(c: Cluster, m: Move): seq<Label> {
    match m
    case Acquire(w) => if KeepsOut(c.lease, w, c.now) then [] else [Resume]
    case Drive(w, l) => [l]
    case Persist(w) => [Save]
    case Release(w) => [Crash]
    case Die(w) => if IsDriving(c, w) then [Crash] else []
    case _ => []
  }

  lemma OneLabel(d: Definition, s: System, l: Label)
    ensures Replay(d, s, [l]) == Next(d, s, l)
  {
    assert [l][..0] == [];
    assert Replay(d, s, []) == Some(s);
  }

  lemma DriverIsAbstract(c: Cluster, w: string)
    requires Exclusive(c) && IsDriving(c, w)
    ensures Abstract(c) == View(c, c.sessions[w].run)
  {
  }

  lemma DriveSimulates(d: Definition, c: Cluster, w: string, l: Label, c': Cluster)
    requires Exclusive(c) && NextMove(d, c, Drive(w, l)) == Some(c')
    ensures Next(d, Abstract(c), l) == Some(Abstract(c'))
  {
    DriverIsAbstract(c, w);
    KeepsDisk(d, Abstract(c), l);
    hide Next;
  }

  lemma KeepsDisk(d: Definition, s: System, l: Label)
    requires !l.Save?
    ensures Next(d, s, l).Some? ==> Next(d, s, l).value.disk == s.disk
  {
    hide Working;
  }

  lemma StoreSimulates(d: Definition, c: Cluster, w: string, c': Cluster)
    requires Exclusive(c) && NextMove(d, c, Persist(w)) == Some(c')
    ensures Next(d, Abstract(c), Save) == Some(Abstract(c'))
  {
    DriverIsAbstract(c, w);
    hide Next;
  }

  lemma AcquireSimulates(d: Definition, c: Cluster, w: string, c': Cluster)
    requires Exclusive(c) && Fresh(c, Acquire(w)) && NextMove(d, c, Acquire(w)) == Some(c')
    requires !KeepsOut(c.lease, w, c.now)
    ensures Next(d, Abstract(c), Resume) == Some(Abstract(c'))
  {
  }

  lemma LeaveSimulates(d: Definition, c: Cluster, m: Move, c': Cluster)
    requires Exclusive(c) && NextMove(d, c, m) == Some(c')
    requires m.Release? || m.Die?
    ensures if LabelsFor(c, m) == [] then Abstract(c') == Abstract(c)
            else LabelsFor(c, m) == [Crash] && Next(d, Abstract(c), Crash) == Some(Abstract(c'))
  {
    if IsDriving(c, m.w) {
      DriverIsAbstract(c, m.w);
      assert !IsDriving(c', m.w);
    }
  }

  lemma RestSimulates(d: Definition, c: Cluster, m: Move, c': Cluster)
    requires Exclusive(c) && NextMove(d, c, m) == Some(c')
    requires m.Tick? || m.List? || m.Renew? || (m.Acquire? && KeepsOut(c.lease, m.w, c.now))
    ensures Abstract(c') == Abstract(c)
  {
    if m.Renew? {
      DriverIsAbstract(c, m.w);
    }
  }

  lemma MoveSimulates(d: Definition, c: Cluster, m: Move, c': Cluster)
    requires Exclusive(c) && Fresh(c, m) && NextMove(d, c, m) == Some(c')
    ensures Replay(d, Abstract(c), LabelsFor(c, m)) == Some(Abstract(c'))
  {
    hide Next, NextMove, Abstract;
    if m.Drive? {
      DriveSimulates(d, c, m.w, m.l, c');
      OneLabel(d, Abstract(c), m.l);
    } else if m.Persist? {
      StoreSimulates(d, c, m.w, c');
      OneLabel(d, Abstract(c), Save);
    } else if m.Acquire? && !KeepsOut(c.lease, m.w, c.now) {
      AcquireSimulates(d, c, m.w, c');
      OneLabel(d, Abstract(c), Resume);
    } else if m.Release? || m.Die? {
      LeaveSimulates(d, c, m, c');
      OneLabel(d, Abstract(c), Crash);
    } else {
      RestSimulates(d, c, m, c');
    }
  }

  function LabelsOf(d: Definition, c0: Cluster, moves: seq<Move>): seq<Label> {
    if |moves| == 0 then []
    else
      var before := Play(d, c0, moves[..|moves| - 1]);
      LabelsOf(d, c0, moves[..|moves| - 1])
      + if before.None? then [] else LabelsFor(before.value, moves[|moves| - 1])
  }

  lemma {:induction false} PlaySimulates(d: Definition, c0: Cluster, moves: seq<Move>, c: Cluster)
    requires d.lockTTL > 0 && Exclusive(c0) && Disciplined(d, c0, moves) && Play(d, c0, moves) == Some(c)
    ensures Exclusive(c)
    ensures Replay(d, Abstract(c0), LabelsOf(d, c0, moves)) == Some(Abstract(c))
  {
    if |moves| > 0 {
      var front, m := moves[..|moves| - 1], moves[|moves| - 1];
      var before := Play(d, c0, front).value;
      hide NextMove, Abstract, LabelsFor, Exclusive, Timely, Fresh;
      PlaySimulates(d, c0, front, before);
      MoveKeepsExclusion(d, before, m, c);
      MoveSimulates(d, before, m, c);
      ReplayConcat(d, Abstract(c0), LabelsOf(d, c0, front), LabelsFor(before, m));
    }
  }

  /**
   * Under the premises every run of the cluster is a life of a single process: whatever holds
   * over all lives with crashes holds for any number of workers.
   */
  lemma ClusterIsOneLife(
      d: Definition, id: string, input: Any, now: Time, creator: string, moves: seq<Move>, c: Cluster)
    returns (labels: seq<Label>)
    requires d.lockTTL > 0
    requires var c0 := Start(d, id, input, now, creator);
             Disciplined(d, c0, moves) && Play(d, c0, moves) == Some(c)
    ensures Lives(d, id, input, now, labels, Abstract(c))
    ensures forall v, w :: IsDriving(c, v) && IsDriving(c, w) ==> v == w
  {
    var c0 := Start(d, id, input, now, creator);
    PlaySimulates(d, c0, moves, c);
    var s0 := Created(d, id, input, now);
    OneLabel(d, s0, Crash);
    assert Next(d, s0, Crash) == Some(Abstract(c0));
    hide Next, Play, Abstract;
    labels := [Crash] + LabelsOf(d, c0, moves);
    ReplayConcat(d, s0, [Crash], LabelsOf(d, c0, moves));
    forall v, w | IsDriving(c, v) && IsDriving(c, w)
      ensures v == w
    {
      OneDriver(c, v, w);
    }
  }

  /** With any number of workers the stored record only moves along legal edges, and stays once terminal. */
  lemma ClusterAdvancesLegally(
      d: Definition, c0: Cluster, moves: seq<Move>, c: Cluster)
    requires d.lockTTL > 0 && Exclusive(c0) && ShapeInvariant(d, Abstract(c0))
    requires Disciplined(d, c0, moves) && Play(d, c0, moves) == Some(c)
    ensures Later(c0.disk, c.disk) && Shape(d, c.disk)
    ensures Saves(c.history) - Saves(c0.history) == Depth(c.disk) - Depth(c0.disk)
    ensures c0.disk.status.IsTerminal() ==> c.disk == c0.disk
  {
    PlaySimulates(d, c0, moves, c);
    hide Next, Play, ShapeFor, Fits, Sequential, Placed, Later, Saves, Depth;
    var labels := LabelsOf(d, c0, moves);
    RunsOnlyAdvance(d, Abstract(c0), labels, Abstract(c));
    ReplayKeepsShape(d, Abstract(c0), labels, Abstract(c));
    if c0.disk.status.IsTerminal() {
      TerminalIsFinal(d, Abstract(c0), labels, Abstract(c));
    }
  }
}
