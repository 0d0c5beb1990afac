/**
 Retrying a statement while the database reports contention. Times are in
 nanoseconds.
 */
module Sqlite {
  const BASE_DELAY: nat := 100_000_000
  const BACKOFF_MAX_DELAY: nat := 500_000_000

  /** One execution of a statement; Busy carries the random increment drawn before sleeping. */
  datatype Attempt<R, E> = Success(result: R) | Busy(increment: nat) | Failure(error: E)

  /** The outcomes a statement can meet: increments are random draws below BACKOFF_MAX_DELAY. */
  predicate Drawable<R, E>(attempts: seq<Attempt<R, E>>) {
    forall i :: 0 <= i < |attempts| && attempts[i].Busy? ==> attempts[i].increment < BACKOFF_MAX_DELAY
  }

  /** The sleep that follows attempt k, counting attempts from zero. */
  function Delay<R, E>(attempts: seq<Attempt<R, E>>, k: nat): nat
    requires k < |attempts|
  {
    (if k == 0 then BASE_DELAY else Delay(attempts, k - 1)) +
    (if attempts[k].Busy? then attempts[k].increment else 0)
  }

  function TotalDelay<R, E>(attempts: seq<Attempt<R, E>>, n: nat): nat
    requires n <= |attempts|
  {
    if n == 0 then 0 else TotalDelay(attempts, n - 1) + Delay(attempts, n - 1)
  }

  class DelayAccumulator {
    var delay: nat

    constructor ()
      ensures delay == BASE_DELAY
    {
      delay := BASE_DELAY;
    }
  }

  /** Sleeps and asks for a retry on contention; any other outcome is final. */
  method WaitOrErr<R, E>(outcome: Attempt<R, E>, accumulator: DelayAccumulator) returns (retry: bool, slept: nat)
    modifies accumulator
    ensures retry == outcome.Busy?
    ensures retry ==> accumulator.delay == old(accumulator.delay) + outcome.increment && slept == accumulator.delay
    ensures !retry ==> accumulator.delay == old(accumulator.delay) && slept == 0
  {
    if outcome.Busy? {
      accumulator.delay := accumulator.delay + outcome.increment;
      return true, accumulator.delay;
    }
    return false, 0;
  }

  /**
   Returns the first outcome that is not contention and the sleeps taken on the
   way. The precondition says that the contention ends at some point.
   */
  method RetryExec<R, E>(attempts: seq<Attempt<R, E>>) returns (outcome: Attempt<R, E>, sleeps: seq<nat>)
    requires exists i :: 0 <= i < |attempts| && !attempts[i].Busy?
    ensures |sleeps| < |attempts| && outcome == attempts[|sleeps|] && !outcome.Busy?
    ensures forall k :: 0 <= k < |sleeps| ==> attempts[k].Busy? && sleeps[k] == Delay(attempts, k)
  {
    var accumulator := new DelayAccumulator();
    sleeps := [];
    outcome := attempts[0];
    var retry, slept := WaitOrErr(outcome, accumulator);
    while retry
      invariant |sleeps| < |attempts| && outcome == attempts[|sleeps|] && retry == outcome.Busy?
      invariant forall k :: 0 <= k < |sleeps| ==> attempts[k].Busy? && sleeps[k] == Delay(attempts, k)
      invariant retry ==> slept == accumulator.delay == Delay(attempts, |sleeps|)
      decreases |attempts| - |sleeps|
    {
      sleeps := sleeps + [slept];
      outcome := attempts[|sleeps|];
      retry, slept := WaitOrErr(outcome, accumulator);
    }
  }

  /** After k contended attempts the delay has grown by at most k times the largest increment. */
  lemma {:induction false} DelayBounds<R, E>(attempts: seq<Attempt<R, E>>, k: nat)
    requires Drawable(attempts) && k < |attempts|
    ensures BASE_DELAY <= Delay(attempts, k) <= BASE_DELAY + (k + 1) * (BACKOFF_MAX_DELAY - 1)
    ensures k > 0 ==> Delay(attempts, k - 1) <= Delay(attempts, k)
  {
    if k > 0 {
      DelayBounds(attempts, k - 1);
    }
  }

  lemma Triangle(step: nat, n: nat)
    requires n > 0
    ensures step * (n - 1) * n + 2 * (n * step) == step * n * (n + 1)
  {
    assert (n - 1) * n + 2 * n == n * (n + 1);
  }

  /** n contended attempts sleep at most n base delays plus the triangular sum of the increments. */
  lemma {:induction false} TotalDelayBound<R, E>(attempts: seq<Attempt<R, E>>, n: nat)
    requires Drawable(attempts) && n <= |attempts|
    ensures n * BASE_DELAY <= TotalDelay(attempts, n)
    ensures 2 * TotalDelay(attempts, n) <= 2 * n * BASE_DELAY + (BACKOFF_MAX_DELAY - 1) * n * (n + 1)
  {
    if n > 0 {
      TotalDelayBound(attempts, n - 1);
      DelayBounds(attempts, n - 1);
      Triangle(BACKOFF_MAX_DELAY - 1, n);
    }
  }
}
