/** Runs that show why each premise of the cluster theorem is needed. */
module Premises {
  import opened Values
  import opened States
  import opened Retry
  import opened Records
  import opened Protocol
  import opened RecordShape
  import opened Progress
  import opened Leases
  import opened Cluster

  /** A saga without steps, its lease lasting 10 time units. */
  const EMPTY_SAGA := Definition("empty", [], NoRetryPolicy, 0, 10)

  function Begin(): Cluster {
    Start(EMPTY_SAGA, "x", Nil, 0, "a")
  }

  ghost predicate AllTimely(d: Definition, c0: Cluster, moves: seq<Move>) {
    |moves| == 0 ||
    (&& AllTimely(d, c0, moves[..|moves| - 1])
     && var before := Play(d, c0, moves[..|moves| - 1]);
        before.Some? ==> Timely(before.value, moves[|moves| - 1]))
  }

  ghost predicate AllFresh(d: Definition, c0: Cluster, moves: seq<Move>) {
    |moves| == 0 ||
    (&& AllFresh(d, c0, moves[..|moves| - 1])
     && var before := Play(d, c0, moves[..|moves| - 1]);
        before.Some? ==> Fresh(before.value, moves[|moves| - 1]))
  }

  /** One more move of a run. */
  lemma MoveAfter(d: Definition, c0: Cluster, moves: seq<Move>, c: Cluster, m: Move, c': Cluster)
    requires Play(d, c0, moves) == Some(c) && NextMove(d, c, m) == Some(c')
    ensures Play(d, c0, moves + [m]) == Some(c')
    ensures AllTimely(d, c0, moves) && Timely(c, m) ==> AllTimely(d, c0, moves + [m])
    ensures AllFresh(d, c0, moves) && Fresh(c, m) ==> AllFresh(d, c0, moves + [m])
  {
    assert (moves + [m])[..|moves + [m]| - 1] == moves;
    hide NextMove, Timely, Fresh;
  }

  // ---------- without timely renewal ----------

  lemma ThreeMoves(d: Definition, c: Cluster, a: Move, b: Move, e: Move)
    ensures var c1 := NextMove(d, c, a);
            c1.Some? && NextMove(d, c1.value, b).Some? ==>
              Play(d, c, [a, b, e]) == NextMove(d, NextMove(d, c1.value, b).value, e)
  {
    assert [a, b, e][..2] == [a, b] && [a, b][..1] == [a] && [a][..0] == [];
    assert Play(d, c, []) == Some(c);
    assert Play(d, c, [a]) == NextMove(d, c, a);
    hide NextMove;
  }

  /** What the three moves of a newcomer after a lapse do. */
  lemma NewcomerAcquires(d: Definition, c: Cluster, w: string, to: Time, v: string)
    requires Exclusive(c) && IsDriving(c, w) && to >= c.sessions[w].until
    requires v !in c.used && !c.disk.status.IsTerminal()
    ensures var c1 := NextMove(d, c, Tick(to));
            && c1.Some?
            && var c2 := NextMove(d, c1.value, List(v));
            && c2.Some?
            && var c3 := NextMove(d, c2.value, Acquire(v));
            && c3.Some? && IsDriving(c3.value, w) && IsDriving(c3.value, v)
            && Fresh(c2.value, Acquire(v)) && c3.value.disk == c.disk
  {
    hide Next;
  }

  /**
   * Whenever the clock passes the end of a driver's lease, while the execution is not finished,
   * a newcomer can list it and acquire it, up to date as it is, and then two workers drive it.
   */
  lemma LapseAdmitsTwoDrivers(d: Definition, c: Cluster, w: string, to: Time, v: string)
    requires Exclusive(c) && IsDriving(c, w) && to >= c.sessions[w].until
    requires v !in c.used && !c.disk.status.IsTerminal()
    ensures var after := Play(d, c, [Tick(to), List(v), Acquire(v)]);
            && after.Some? && v != w && IsDriving(after.value, w) && IsDriving(after.value, v)
            && AllFresh(d, c, [Tick(to), List(v), Acquire(v)])
  {
    NewcomerAcquires(d, c, w, to, v);
    ThreeMoves(d, c, Tick(to), List(v), Acquire(v));
    var c1 := NextMove(d, c, Tick(to)).value;
    var c2 := NextMove(d, c1, List(v)).value;
    hide NextMove, Exclusive, IsDriving;
    assert [Tick(to), List(v), Acquire(v)][..2] == [Tick(to), List(v)];
    assert [Tick(to), List(v)][..1] == [Tick(to)] && [Tick(to)][..0] == [];
    assert Play(d, c, []) == Some(c) && Play(d, c, [Tick(to)]) == Some(c1);
    assert Play(d, c, [Tick(to), List(v)]) == Some(c2);
    assert AllFresh(d, c, [Tick(to)]);
    assert AllFresh(d, c, [Tick(to), List(v)]);
  }

  /** Of the moves of the clock exactly the timely ones keep drivers exclusive. */
  lemma TickKeepsExclusionIffTimely(d: Definition, c: Cluster, to: Time)
    requires Exclusive(c) && to >= c.now
    ensures Exclusive(NextMove(d, c, Tick(to)).value) <==> Timely(c, Tick(to))
  {
    var c' := NextMove(d, c, Tick(to)).value;
    assert c'.sessions == c.sessions && c'.lease == c.lease && c'.now == to;
    hide Next, NextMove;
    forall w
      ensures IsDriving(c', w) <==> IsDriving(c, w)
    {
    }
  }

  /** In particular a fresh run gets there: two drivers, although both acquired with fresh snapshots. */
  lemma SlowRenewalAdmitsTwoDrivers() returns (moves: seq<Move>, c: Cluster)
    ensures Play(EMPTY_SAGA, Begin(), moves) == Some(c) && AllFresh(EMPTY_SAGA, Begin(), moves)
    ensures IsDriving(c, "a") && IsDriving(c, "b")
  {
    var d, c0 := EMPTY_SAGA, Begin();
    var c1 := NextMove(d, c0, Acquire("a")).value;
    assert Exclusive(c1) && IsDriving(c1, "a") && c1.sessions["a"].until == 10;
    assert Fresh(c0, Acquire("a")) && "b" !in c1.used && c1.disk == c0.disk;
    assert [Acquire("a")][..0] == [] && Play(d, c0, []) == Some(c0);
    assert Play(d, c0, [Acquire("a")]) == Some(c1) && AllFresh(d, c0, [Acquire("a")]);
    var more := [Tick(10), List("b"), Acquire("b")];
    hide NextMove, Exclusive, IsDriving, Fresh;
    LapseAdmitsTwoDrivers(d, c1, "a", 10, "b");
    c := Play(d, c1, more).value;
    PlayConcat(d, c0, [Acquire("a")], more);
    FreshConcat(d, c0, [Acquire("a")], c1, more);
    moves := [Acquire("a")] + more;
  }

  lemma {:induction false} FreshConcat(d: Definition, c0: Cluster, xs: seq<Move>, c: Cluster, ys: seq<Move>)
    requires AllFresh(d, c0, xs) && Play(d, c0, xs) == Some(c) && AllFresh(d, c, ys)
    ensures AllFresh(d, c0, xs + ys)
  {
    if |ys| == 0 {
      assert xs + ys == xs;
    } else {
      var front, all := ys[..|ys| - 1], xs + ys;
      assert all[..|all| - 1] == xs + front && all[|all| - 1] == ys[|ys| - 1];
      hide NextMove, Fresh;
      FreshConcat(d, c0, xs, c, front);
      PlayConcat(d, c0, xs, front);
    }
  }

  // ---------- without a fresh snapshot ----------

  /** The driver `w` works from `snapshot`, not from what is stored, and has saved nothing yet. */
  ghost predicate WorksFrom(d: Definition, c: Cluster, w: string, snapshot: Record) {
    && w in c.used && (w in c.sessions ==> c.sessions[w].Driving? && Placed(d, c.sessions[w].run, snapshot))
  }

  lemma AcquireWorksFrom(d: Definition, c: Cluster, w: string, c': Cluster)
    requires w in c.sessions && c.sessions[w].Listed? && w in c.used && Shape(d, c.sessions[w].snapshot)
    requires !KeepsOut(c.lease, w, c.now) && NextMove(d, c, Acquire(w)) == Some(c')
    ensures WorksFrom(d, c', w, c.sessions[w].snapshot) && c'.disk == c.disk
  {
  }

  /** What a driver does next does not depend on what is stored. */
  lemma DriveWorksFrom(d: Definition, c: Cluster, w: string, l: Label, c': Cluster, snapshot: Record)
    requires WorksFrom(d, c, w, snapshot) && Shape(d, snapshot) && NextMove(d, c, Drive(w, l)) == Some(c')
    ensures WorksFrom(d, c', w, snapshot) && c'.disk == c.disk
  {
    var p := c.sessions[w].run;
    var own := System(Some(p), snapshot, c.history);
    assert Next(d, own, l).Some? && Next(d, own, l).value.process == Next(d, View(c, p), l).value.process by {
      hide Working;
    }
    hide Next, Placed;
    NextKeepsShape(d, own, l, Next(d, own, l).value);
    KeepsDisk(d, own, l);
  }

  lemma MoveWorksFrom(d: Definition, c: Cluster, w: string, m: Move, c': Cluster, snapshot: Record)
    requires WorksFrom(d, c, w, snapshot) && Shape(d, snapshot) && NextMove(d, c, m) == Some(c') && !m.Persist?
    ensures WorksFrom(d, c', w, snapshot) && c'.disk == c.disk
  {
    if m.Drive? && m.w == w {
      DriveWorksFrom(d, c, w, m.l, c', snapshot);
    } else {
      hide Next, Shape, InStep, Resting;
    }
  }

  lemma {:induction false} PlayWorksFrom(
      d: Definition, c: Cluster, w: string, moves: seq<Move>, c': Cluster, snapshot: Record)
    requires WorksFrom(d, c, w, snapshot) && Shape(d, snapshot) && Play(d, c, moves) == Some(c')
    requires forall m :: m in moves ==> !m.Persist?
    ensures WorksFrom(d, c', w, snapshot) && c'.disk == c.disk
  {
    if |moves| > 0 {
      var front, m := moves[..|moves| - 1], moves[|moves| - 1];
      assert m in moves && forall x :: x in front ==> x in moves;
      var before := Play(d, c, front).value;
      hide NextMove, WorksFrom;
      PlayWorksFrom(d, c, w, front, before, snapshot);
      MoveWorksFrom(d, before, w, m, c', snapshot);
    }
  }

  /**
   * A worker that acquires with an older snapshot first saves, after whatever it and the others do
   * without saving, a legal successor of what is stored if and only if its snapshot still had the
   * stored statuses.
   */
  lemma FirstSaveIsLegalIffFresh(d: Definition, c: Cluster, w: string, c1: Cluster, moves: seq<Move>,
                                 c2: Cluster, c3: Cluster)
    requires w in c.sessions && c.sessions[w].Listed? && w in c.used && !KeepsOut(c.lease, w, c.now)
    requires Shape(d, c.sessions[w].snapshot) && Later(c.sessions[w].snapshot, c.disk)
    requires NextMove(d, c, Acquire(w)) == Some(c1)
    requires Play(d, c1, moves) == Some(c2) && forall m :: m in moves ==> !m.Persist?
    requires NextMove(d, c2, Persist(w)) == Some(c3)
    ensures (exists e :: OneEdge(c.disk, c3.disk, e)) <==> Same(c.sessions[w].snapshot, c.disk)
  {
    var snapshot := c.sessions[w].snapshot;
    AcquireWorksFrom(d, c, w, c1);
    PlayWorksFrom(d, c1, w, moves, c2, snapshot);
    var p := c2.sessions[w].run;
    assert p.stage.Saving? && c3.disk == p.exec && OneEdge(snapshot, p.exec, p.stage.edge) by {
      hide Shape, Resting, Working, Play;
    }
    hide NextMove, OneEdge, Same, Later, Play;
    StaleSaveIsLegalIffFresh(snapshot, c.disk, c3.disk, p.stage.edge);
  }

  /** The moves by which the driver `w` makes one silent step, then one status change. */
  function ChangeStatus(w: string): seq<Move> {
    [Drive(w, Work(0)), Renew(w), Persist(w), Drive(w, Publish)]
  }

  lemma {:induction false} PlayConcat(d: Definition, c: Cluster, xs: seq<Move>, ys: seq<Move>)
    ensures Play(d, c, xs + ys) ==
            var mid := Play(d, c, xs);
            if mid.None? then None else Play(d, mid.value, ys)
  {
    if |ys| == 0 {
      assert xs + ys == xs;
    } else {
      assert (xs + ys)[..|xs + ys| - 1] == xs + ys[..|ys| - 1];
      PlayConcat(d, c, xs, ys[..|ys| - 1]);
    }
  }

  /** Nothing but the clock can break timeliness. */
  lemma {:induction false} NoTickIsTimely(d: Definition, c0: Cluster, moves: seq<Move>)
    requires forall m :: m in moves ==> !m.Tick?
    ensures AllTimely(d, c0, moves)
  {
    if |moves| > 0 {
      assert moves[|moves| - 1] in moves;
      NoTickIsTimely(d, c0, moves[..|moves| - 1]);
    }
  }

  lemma FourMoves(d: Definition, c: Cluster, w: string)
    requires IsDriving(c, w) && c.sessions[w].run.stage.Idle? && !c.sessions[w].renewed
    requires !KeepsOut(c.lease, w, c.now)
    requires Working(d, c.sessions[w].run, 0).Some? && !c.sessions[w].run.pc.Abort?
    requires Working(d, c.sessions[w].run, 0).value.stage.Saving?
    ensures var p := Working(d, c.sessions[w].run, 0).value;
            var e := p.stage.edge;
            var c' := Play(d, c, ChangeStatus(w));
            && c'.Some? && c'.value.disk == p.exec && c'.value.now == c.now
            && IsDriving(c'.value, w) && c'.value.sessions[w].run == p.(stage := Idle)
            && !c'.value.sessions[w].renewed
            && c'.value.lease == Some(Lease(w, c.now + d.lockTTL))
            && (forall v :: v != w ==> (v in c.sessions <==> v in c'.value.sessions)
                                       && (v in c.sessions ==> c'.value.sessions[v] == c.sessions[v]))
  {
    var c1 := WorkMove(d, c, w);
    hide Working;
    var c2 := NextMove(d, c1, Renew(w)).value;
    var c3 := NextMove(d, c2, Persist(w)).value;
    var c4 := NextMove(d, c3, Drive(w, Publish)).value;
    FourPlay(d, c, c1, c2, c3, c4, w);
  }

  lemma WorkMove(d: Definition, c: Cluster, w: string) returns (c': Cluster)
    requires IsDriving(c, w) && c.sessions[w].run.stage.Idle? && !c.sessions[w].run.pc.Abort?
    requires Working(d, c.sessions[w].run, 0).Some?
    ensures NextMove(d, c, Drive(w, Work(0))) == Some(c')
    ensures c' == c.(sessions := c.sessions[w := c.sessions[w].(run := Working(d, c.sessions[w].run, 0).value)])
  {
    hide Working;
    c' := NextMove(d, c, Drive(w, Work(0))).value;
  }

  lemma FourPlay(d: Definition, c: Cluster, c1: Cluster, c2: Cluster, c3: Cluster, c4: Cluster, w: string)
    requires NextMove(d, c, Drive(w, Work(0))) == Some(c1) && NextMove(d, c1, Renew(w)) == Some(c2)
    requires NextMove(d, c2, Persist(w)) == Some(c3) && NextMove(d, c3, Drive(w, Publish)) == Some(c4)
    ensures Play(d, c, ChangeStatus(w)) == Some(c4)
  {
    hide NextMove;
    MoveAfter(d, c, [], c, Drive(w, Work(0)), c1);
    MoveAfter(d, c, [] + [Drive(w, Work(0))], c1, Renew(w), c2);
    MoveAfter(d, c, [] + [Drive(w, Work(0))] + [Renew(w)], c2, Persist(w), c3);
    MoveAfter(d, c, [] + [Drive(w, Work(0))] + [Renew(w)] + [Persist(w)], c3, Drive(w, Publish), c4);
    assert [] + [Drive(w, Work(0))] + [Renew(w)] + [Persist(w)] + [Drive(w, Publish)] == ChangeStatus(w);
  }

  /** Play one more move after a run. */
  lemma Then(d: Definition, c0: Cluster, moves: seq<Move>, c: Cluster, more: seq<Move>, c': Cluster)
    requires Play(d, c0, moves) == Some(c) && Play(d, c, more) == Some(c')
    ensures Play(d, c0, moves + more) == Some(c')
  {
    PlayConcat(d, c0, moves, more);
  }

  lemma Single(d: Definition, c: Cluster, m: Move)
    ensures Play(d, c, [m]) == NextMove(d, c, m)
  {
    assert [m][..0] == [];
    assert Play(d, c, []) == Some(c);
  }

  /** The creator has the lease and saved RUNNING, while `b` holds a listing from before. */
  lemma CreatorStarts() returns (moves: seq<Move>, c: Cluster)
    ensures Play(EMPTY_SAGA, Begin(), moves) == Some(c) && forall m :: m in moves ==> !m.Tick?
    ensures c.sessions.Keys == {"a", "b"} && c.sessions["b"] == Listed(Begin().disk)
    ensures IsDriving(c, "a") && !c.sessions["a"].renewed && c.lease == Some(Lease("a", 10)) && c.now == 0
    ensures c.sessions["a"].run == Process(Scan, Idle, Moved(Begin().disk, Running, 0), None)
  {
    var d, c0 := EMPTY_SAGA, Begin();
    var c1 := NextMove(d, c0, List("b")).value;
    var c2 := NextMove(d, c1, Acquire("a")).value;
    FourMoves(d, c2, "a");
    c := Play(d, c2, ChangeStatus("a")).value;
    Single(d, c0, List("b"));
    Single(d, c1, Acquire("a"));
    assert forall v :: v in c.sessions ==> v == "a" || v == "b";
    hide NextMove;
    Then(d, c0, [List("b")], c1, [Acquire("a")], c2);
    Then(d, c0, [List("b")] + [Acquire("a")], c2, ChangeStatus("a"), c);
    moves := [List("b")] + [Acquire("a")] + ChangeStatus("a");
  }

  lemma CreatorScans() returns (moves: seq<Move>, c: Cluster)
    ensures Play(EMPTY_SAGA, Begin(), moves) == Some(c) && forall m :: m in moves ==> !m.Tick?
    ensures c.sessions.Keys == {"a", "b"} && c.sessions["b"] == Listed(Begin().disk)
    ensures IsDriving(c, "a") && !c.sessions["a"].renewed && c.lease == Some(Lease("a", 10)) && c.now == 0
    ensures c.sessions["a"].run == Process(Loop(0, Nil), Idle, Moved(Begin().disk, Running, 0), None)
  {
    var front, c3 := CreatorStarts();
    c := NextMove(EMPTY_SAGA, c3, Drive("a", Work(0))).value;
    Single(EMPTY_SAGA, c3, Drive("a", Work(0)));
    hide NextMove, Begin;
    Then(EMPTY_SAGA, Begin(), front, c3, [Drive("a", Work(0))], c);
    moves := front + [Drive("a", Work(0))];
  }

  /** The creator runs the empty saga to its end and releases the lease. */
  lemma CreatorCompletes() returns (moves: seq<Move>, c: Cluster)
    ensures Play(EMPTY_SAGA, Begin(), moves) == Some(c) && forall m :: m in moves ==> !m.Tick?
    ensures c.disk.status == Completed
    ensures c.sessions == map["b" := Listed(Begin().disk)] && c.lease == None
  {
    var front, c4 := CreatorScans();
    FourMoves(EMPTY_SAGA, c4, "a");
    var c5 := Play(EMPTY_SAGA, c4, ChangeStatus("a")).value;
    assert c5.disk.status == Completed && c5.sessions["a"].run.pc.Done?;
    hide Play;
    c := NextMove(EMPTY_SAGA, c5, Release("a")).value;
    Single(EMPTY_SAGA, c5, Release("a"));
    assert forall v :: v in c.sessions ==> v == "b";
    hide NextMove, Begin;
    Then(EMPTY_SAGA, Begin(), front, c4, ChangeStatus("a"), c5);
    Then(EMPTY_SAGA, Begin(), front + ChangeStatus("a"), c5, [Release("a")], c);
    moves := front + ChangeStatus("a") + [Release("a")];
  }

  /**
   * If a worker resumes from a listing that has gone stale, it saves RUNNING over a record that
   * was already COMPLETED, although no lease ever expired and no two workers overlapped.
   */
  lemma StaleSnapshotOverwritesTerminal()
    returns (moves: seq<Move>, completed: Cluster, more: seq<Move>, overwritten: Cluster)
    ensures Play(EMPTY_SAGA, Begin(), moves) == Some(completed)
    ensures Play(EMPTY_SAGA, Begin(), moves + more) == Some(overwritten)
    ensures AllTimely(EMPTY_SAGA, Begin(), moves + more)
    ensures completed.disk.status == Completed && overwritten.disk.status == Running
  {
    var d, c0 := EMPTY_SAGA, Begin();
    moves, completed := CreatorCompletes();
    var c1 := NextMove(d, completed, Acquire("b")).value;
    FourMoves(d, c1, "b");
    overwritten := Play(d, c1, ChangeStatus("b")).value;
    Single(d, completed, Acquire("b"));
    hide NextMove;
    Then(d, c0, moves, completed, [Acquire("b")], c1);
    Then(d, c0, moves + [Acquire("b")], c1, ChangeStatus("b"), overwritten);
    more := [Acquire("b")] + ChangeStatus("b");
    assert moves + more == moves + [Acquire("b")] + ChangeStatus("b");
    forall m | m in moves + more
      ensures !m.Tick?
    {
    }
    NoTickIsTimely(d, c0, moves + more);
  }
}
