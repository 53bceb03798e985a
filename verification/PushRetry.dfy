/** The retry loop around one upload (internal/workerd/pusher.go, pushFile). */
module PushRetry {
  import opened Prelude
  import S = System

  const BACKOFF_START: nat := 500
  const BACKOFF_CAP: nat := 5000

  /** The wait before retry k, in milliseconds: doubled each time, up to the cap. */
  function Backoff(k: nat): nat
    requires k >= 1
  {
    if k == 1 then BACKOFF_START else Min(2 * Backoff(k - 1), BACKOFF_CAP)
  }

  /** The waits never exceed the cap. */
  lemma {:induction false} BackoffCapped(k: nat)
    requires k >= 1
    ensures BACKOFF_START <= Backoff(k) <= BACKOFF_CAP
    decreases k
  {
    if k > 1 {
      BackoffCapped(k - 1);
    }
  }

  function Max1(n: nat): nat {
    if n == 0 then 1 else n
  }

  /** The retries before attempt number k all met a failure that may pass. */
  predicate AllRetryable(attempts: seq<S.Reply>, k: nat) {
    k <= |attempts| && forall i :: 0 <= i < k ==> attempts[i].Retryable?
  }

  /** Where the loop ends: at the first attempt that is not retried, with its result. */
  predicate EndsPush(attempts: seq<S.Reply>, ok: bool, made: nat) {
    && 1 <= made <= S.PUSH_RETRIES + 1 && made <= |attempts|
    && AllRetryable(attempts, made - 1)
    && (ok <==> attempts[made - 1].Stored?)
    && (attempts[made - 1].Retryable? ==> made == S.PUSH_RETRIES + 1)
  }

  /**
   * pushFile: one attempt and at most three retries, ended by a stored chunk or by a session that is
   * gone. `attempts` says what each attempt would meet.
   */
  method PushFile(attempts: seq<S.Reply>) returns (ok: bool, made: nat, waits: seq<nat>)
    requires |attempts| > S.PUSH_RETRIES
    ensures EndsPush(attempts, ok, made)
    ensures ok <==> exists k :: 0 <= k <= S.PUSH_RETRIES && AllRetryable(attempts, k) && attempts[k].Stored?
    ensures |waits| == made - 1 && forall k :: 1 <= k < made ==> waits[k - 1] == Backoff(k)
    ensures forall k :: 0 <= k < |waits| ==> BACKOFF_START <= waits[k] <= BACKOFF_CAP
  {
    var backoff := BACKOFF_START;
    waits := [];
    var attempt := 0;
    while attempt <= S.PUSH_RETRIES
      invariant 0 <= attempt <= S.PUSH_RETRIES + 1
      invariant AllRetryable(attempts, attempt)
      invariant backoff == Backoff(Max1(attempt))
      invariant |waits| == (if attempt == 0 then 0 else attempt - 1)
      invariant forall k :: 1 <= k <= |waits| ==> waits[k - 1] == Backoff(k)
      invariant forall k :: 0 <= k < |waits| ==> BACKOFF_START <= waits[k] <= BACKOFF_CAP
    {
      if attempt > 0 {
        BackoffCapped(attempt);
        waits := waits + [backoff];
        backoff := Min(2 * backoff, BACKOFF_CAP);
      }
      made := attempt + 1;
      match attempts[attempt] {
        case Stored =>
          return true, made, waits;
        case Gone =>
          return false, made, waits;
        case Retryable =>
      }
      attempt := attempt + 1;
    }
    return false, S.PUSH_RETRIES + 1, waits;
  }
}
