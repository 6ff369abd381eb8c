/** What the engine asks and does not decide: clock, store faults, new names, answers, the context, chance. */
module Environments {
  import opened Values
  import opened Retry
  import opened Protocol
  import opened Leases

  /** How much of the environment has been drawn so far. */
  datatype Mark = Mark(readings: nat, calls: nat, names: nat, acts: nat, undos: nat, looks: nat, waits: nat)

  predicate Upto(a: Mark, b: Mark) {
    && a.readings <= b.readings && a.calls <= b.calls && a.names <= b.names && a.acts <= b.acts
    && a.undos <= b.undos && a.looks <= b.looks && a.waits <= b.waits
  }

  /**
   * All that will come, whatever it is: what the clock shows at each reading, which calls into the
   * store fail, which new names come up, what each call of an Action or a Compensate returns for its
   * key and data, which calls of an Action outlast their step's timeout, what each look at the context
   * finds, and the draws and choices that delays are made of.
   */
  datatype Fate = Fate(
    clock: nat -> Time,
    fails: nat -> bool,
    name: nat -> string,
    act: (nat, string, Any) -> Answer,
    late: nat -> bool,
    undo: (nat, string, Any) -> Option<Error>,
    ends: nat -> Option<Cause>,
    jitter: nat -> nat -> real,
    chosen: nat -> int)
  {
    /** Some call into the store failed in between. */
    ghost predicate Failed(from: Mark, to: Mark) {
      exists k :: from.calls <= k < to.calls && fails(k)
    }

    /** From here on no call into the store fails. */
    ghost predicate NeverFails(from: Mark) {
      forall k :: from.calls <= k ==> !fails(k)
    }

    /** In between, a new name asked for a lease that somebody else held, unexpired by the clock. */
    ghost predicate KeptOut(lease: Option<Lease>, from: Mark, to: Mark) {
      exists n, r :: from.names <= n < to.names && from.readings <= r < to.readings && KeepsOut(lease, name(n), clock(r))
    }

    /** From here on nobody new is kept out by this lease. */
    ghost predicate NeverKeepsOut(lease: Option<Lease>, from: Mark) {
      forall n, r :: from.names <= n && from.readings <= r ==> !KeepsOut(lease, name(n), clock(r))
    }

    /** The delay that a policy asks for at the `k`-th wait, before attempt `attempt`. */
    function Wait(k: nat, policy: Policy, attempt: nat): int {
      Delay(policy, if attempt < 2 then 0 else attempt - 2, 0, jitter(k), chosen)
    }

    /** The delays before `n` further attempts after the first, from the `k`-th wait on. */
    function Waits(k: nat, policy: Policy, n: nat): (waits: seq<int>)
      ensures |waits| == n
    {
      seq(n, m requires 0 <= m => Wait(k + m, policy, m + 2))
    }

    lemma WaitsOnceMore(k: nat, policy: Policy, n: nat, before: seq<int>)
      ensures before + Waits(k, policy, n) + [Wait(k + n, policy, n + 2)] == before + Waits(k, policy, n + 1)
    {
    }
  }

  class Environment {
    const fate: Fate
    var drawn: Mark
    /** The delays asked of the timer so far. */
    var slept: seq<int>

    constructor (fate: Fate)
      ensures this.fate == fate && drawn == Mark(0, 0, 0, 0, 0, 0, 0) && slept == []
    {
      this.fate, this.drawn, this.slept := fate, Mark(0, 0, 0, 0, 0, 0, 0), [];
    }

    method Now() returns (now: Time)
      modifies this`drawn
      ensures now == fate.clock(old(drawn.readings)) && drawn == old(drawn).(readings := old(drawn.readings) + 1)
    {
      now, drawn := fate.clock(drawn.readings), drawn.(readings := drawn.readings + 1);
    }

    /** Whether this call into the store fails. */
    method StoreFails() returns (b: bool)
      modifies this`drawn
      ensures b == fate.fails(old(drawn.calls)) && drawn == old(drawn).(calls := old(drawn.calls) + 1)
    {
      b, drawn := fate.fails(drawn.calls), drawn.(calls := drawn.calls + 1);
    }

    method NewName() returns (s: string)
      modifies this`drawn
      ensures s == fate.name(old(drawn.names)) && drawn == old(drawn).(names := old(drawn.names) + 1)
    {
      s, drawn := fate.name(drawn.names), drawn.(names := drawn.names + 1);
    }

    /** What an Action returns, and whether it was too late for a step with a timeout. */
    method Act(key: string, data: Any) returns (out: Any, err: Option<Error>, late: bool)
      modifies this`drawn
      ensures Answer(out, err) == fate.act(old(drawn.acts), key, data) && late == fate.late(old(drawn.acts))
      ensures drawn == old(drawn).(acts := old(drawn.acts) + 1)
    {
      var answer := fate.act(drawn.acts, key, data);
      out, err, late := answer.out, answer.err, fate.late(drawn.acts);
      drawn := drawn.(acts := drawn.acts + 1);
    }

    method Undo(key: string, data: Any) returns (err: Option<Error>)
      modifies this`drawn
      ensures err == fate.undo(old(drawn.undos), key, data) && drawn == old(drawn).(undos := old(drawn.undos) + 1)
    {
      err, drawn := fate.undo(drawn.undos, key, data), drawn.(undos := drawn.undos + 1);
    }

    /** What the context of a resume has come to. */
    method Look() returns (cause: Option<Cause>)
      modifies this`drawn
      ensures cause == fate.ends(old(drawn.looks)) && drawn == old(drawn).(looks := old(drawn.looks) + 1)
    {
      cause, drawn := fate.ends(drawn.looks), drawn.(looks := drawn.looks + 1);
    }

    /** Asks the policy for the delay before an attempt, and the timer for that delay. */
    method Sleep(policy: Policy, attempt: nat)
      modifies this
      ensures slept == old(slept) + [fate.Wait(old(drawn.waits), policy, attempt)]
      ensures drawn == old(drawn).(waits := old(drawn.waits) + 1)
    {
      var delay := DelayBefore(policy, attempt, 0, fate.jitter(drawn.waits), fate.chosen);
      slept, drawn := slept + [delay], drawn.(waits := drawn.waits + 1);
    }
  }

  // ---------- what gets in the way ----------

  /** The error tells why something was left undone: the lease was somebody else's, or the store failed. */
  ghost predicate Hindered(fate: Fate, locking: bool, lease: Option<Lease>, from: Mark, to: Mark, id: string, err: Error)
  {
    match err
    case Locked(x) => x == id && locking && fate.KeptOut(lease, from, to)
    case LockFault(_) => locking && fate.Failed(from, to)
    case StoreFault(_) => fate.Failed(from, to)
    case _ => false
  }

  lemma FailedNow(fate: Fate, from: Mark, to: Mark)
    requires fate.fails(from.calls) && from.calls < to.calls
    ensures fate.Failed(from, to)
  {
  }

  lemma FailedWider(fate: Fate, a: Mark, b: Mark, from: Mark, to: Mark)
    requires fate.Failed(a, b) && Upto(from, a) && Upto(b, to)
    ensures fate.Failed(from, to)
  {
  }

  /** A call that failed is what hinders, and from before it there were such calls. */
  lemma FailedHinders(fate: Fate, a: Mark, b: Mark, from: Mark, to: Mark)
    requires fate.Failed(a, b) && Upto(from, a) && Upto(b, to)
    ensures !fate.NeverFails(from)
    ensures forall locking: bool, lease: Option<Lease>, id: string, err: Error ::
              err.StoreFault? || (err.LockFault? && locking) ==> Hindered(fate, locking, lease, from, to, id, err)
  {
    FailedWider(fate, a, b, from, to);
  }

  lemma HinderedWider(fate: Fate, locking: bool, lease: Option<Lease>, a: Mark, b: Mark, from: Mark, to: Mark,
                      id: string, err: Error)
    requires Hindered(fate, locking, lease, a, b, id, err) && Upto(from, a) && Upto(b, to)
    ensures Hindered(fate, locking, lease, from, to, id, err)
  {
    if err.Locked? {
      var n, r :| a.names <= n < b.names && a.readings <= r < b.readings && KeepsOut(lease, fate.name(n), fate.clock(r));
      assert from.names <= n < to.names && from.readings <= r < to.readings;
    }
  }

  /** Where nothing fails and nobody is kept out, nothing is hindered. */
  lemma NothingHinders(fate: Fate, locking: bool, lease: Option<Lease>, from: Mark, to: Mark, id: string, err: Error)
    requires fate.NeverFails(from) && (locking ==> fate.NeverKeepsOut(lease, from))
    ensures !Hindered(fate, locking, lease, from, to, id, err)
  {
  }

  // ---------- what a retry loop waits in all ----------

  function Sum(s: seq<int>): int {
    if |s| == 0 then 0 else Sum(s[..|s| - 1]) + s[|s| - 1]
  }

  /** What the timer was asked for in a loop of `n` waits is what the policy waits over `n + 1` attempts. */
  lemma {:induction false} SumIsTotalWait(fate: Fate, k: nat, policy: Policy, n: nat, draws: nat -> nat -> real)
    requires forall m: nat :: m >= 2 ==> draws(m) == fate.jitter(k + (m - 2))
    ensures Sum(fate.Waits(k, policy, n)) == TotalWait(policy, n + 1, draws, fate.chosen)
  {
    if n > 0 {
      var waits := fate.Waits(k, policy, n);
      SumIsTotalWait(fate, k, policy, n - 1, draws);
      assert waits[..n - 1] == fate.Waits(k, policy, n - 1);
      assert waits[n - 1] == fate.Wait(k + (n - 1), policy, n + 1);
      assert draws(n + 1) == fate.jitter(k + (n - 1));
    }
  }

  /** Under a capped backoff, jittered or not, the waits of a loop are in all at most as many stretched caps. */
  lemma WaitsAreBounded(fate: Fate, k: nat, policy: Policy, n: nat)
    requires Clamped(policy) && Core(policy).ExponentialBackoffPolicy? && Core(policy).maxDelay >= 0
    requires forall m: nat :: FairDraws(fate.jitter(m))
    ensures Sum(fate.Waits(k, policy, n)) as real <= Times(n, Stretched(policy, Core(policy).maxDelay as real))
  {
    var draws: nat -> nat -> real := (m: nat) => fate.jitter(if m < 2 then k else k + (m - 2));
    forall m: nat
      ensures FairDraws(draws(m))
    {
      assert FairDraws(fate.jitter(if m < 2 then k else k + (m - 2)));
    }
    SumIsTotalWait(fate, k, policy, n, draws);
    TotalWaitBound(policy, n + 1, draws, fate.chosen);
  }
}
