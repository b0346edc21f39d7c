/** The bounded retry policy that wraps every low-level bus call
    (read byte, read block, write block). The physical call itself is an
    oracle: `o(n)` is what the n-th attempt of this call returns, either a
    value or a failure with the `errno` the C library left behind. */
module Transport {
  import opened Common

  datatype Attempt<R> = Done(value: R) | Failed(errno: int)

  /** Outcome of attempt number n (counting from 0) of one low-level call. */
  type Oracle<R> = nat -> Attempt<R>

  /** `retryCount`: after the first attempt, at most nine more are made. */
  const RetryCount: nat := 9

  /** Attempt k is the first one that succeeds within the allowed attempts. */
  ghost predicate FirstSuccessAt<R>(o: Oracle<R>, k: nat) {
    k <= RetryCount && o(k).Done? && forall j :: 0 <= j < k ==> o(j).Failed?
  }

  /** Every allowed attempt fails. */
  ghost predicate AllAttemptsFail<R>(o: Oracle<R>) {
    forall j :: 0 <= j <= RetryCount ==> o(j).Failed?
  }

  /** What the retry loop ends with, attempt by attempt from attempt n: the
      first success, or the failure of the last allowed attempt. */
  function Retried<R>(o: Oracle<R>, n: nat := 0): (r: Attempt<R>)
    requires n <= RetryCount
    ensures r.Done? <==> exists k :: n <= k <= RetryCount && o(k).Done?
    ensures r.Failed? ==> r == o(RetryCount)
    decreases RetryCount - n
  {
    if n == RetryCount || o(n).Done? then o(n) else Retried(o, n + 1)
  }

  /** The retry loop of the current bus (`for n in 0...retryCount`, sleeping
      only before attempts after the first). It stops at the first success;
      if every attempt fails, the error carries the last attempt's errno.
      `sleeps` counts the `usleep` calls. */
  method RetrySleepingBetween<R>(o: Oracle<R>) returns (r: Attempt<R>, attempts: nat, sleeps: nat)
    ensures 1 <= attempts <= RetryCount + 1
    ensures sleeps == attempts - 1
    ensures r.Done? ==> FirstSuccessAt(o, attempts - 1) && r == o(attempts - 1)
    ensures r.Failed? ==> AllAttemptsFail(o) && attempts == RetryCount + 1 && r == o(RetryCount)
    ensures r == Retried(o)
  {
    r := Failed(0);
    attempts, sleeps := 0, 0;
    var n := 0;
    while n <= RetryCount
      invariant n <= RetryCount + 1
      invariant attempts == n
      invariant sleeps == if n == 0 then 0 else n - 1
      invariant forall j :: 0 <= j < n ==> o(j).Failed?
      invariant n > 0 ==> r == o(n - 1)
      invariant n <= RetryCount ==> Retried(o) == Retried(o, n)
      invariant n == RetryCount + 1 ==> r == Retried(o)
    {
      if n > 0 {
        sleeps := sleeps + 1;
      }
      r := o(n);
      attempts := attempts + 1;
      if r.Done? {
        break;
      }
      n := n + 1;
    }
  }

  /** The retry loop of the earlier revisions, which sleep after every failed
      attempt, including the last one. */
  method RetrySleepingAfterFailure<R>(o: Oracle<R>) returns (r: Attempt<R>, attempts: nat, sleeps: nat)
    ensures 1 <= attempts <= RetryCount + 1
    ensures r.Done? ==> FirstSuccessAt(o, attempts - 1) && r == o(attempts - 1) && sleeps == attempts - 1
    ensures r.Failed? ==> AllAttemptsFail(o) && attempts == RetryCount + 1 && r == o(RetryCount)
    ensures r.Failed? ==> sleeps == RetryCount + 1
    ensures r == Retried(o)
  {
    r := Failed(0);
    attempts, sleeps := 0, 0;
    var n := 0;
    while n <= RetryCount
      invariant n <= RetryCount + 1
      invariant attempts == n && sleeps == n
      invariant forall j :: 0 <= j < n ==> o(j).Failed?
      invariant n > 0 ==> r == o(n - 1)
      invariant n <= RetryCount ==> Retried(o) == Retried(o, n)
      invariant n == RetryCount + 1 ==> r == Retried(o)
    {
      r := o(n);
      attempts := attempts + 1;
      if r.Done? {
        break;
      }
      sleeps := sleeps + 1;
      n := n + 1;
    }
  }
}
