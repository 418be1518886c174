/**
 * The decision made by ApiService's third response interceptor when a request
 * fails: reject the error unchanged, or store a new retry count on the request
 * descriptor and reissue it after a delay. The descriptor's `retryQty` is
 * either unset or a number; zero and unset are different (zero stops, unset
 * starts the default budget).
 */
module RetryPolicy {
  import opened Wrappers

  /** Delay used when `retryDelay` is unset or zero (`config.retryDelay || 3000`). */
  const DefaultRetryDelay: int := 3000
  /** Value an unset `retryQty` is set to on the first retry. */
  const DefaultRetryQuantity: int := 3
  /** Amount a set `retryQty` goes down by on each retry. */
  const RetryDecrement: int := 1

  /** The `retryQty` field of a request descriptor. */
  datatype RetryQty = Unset | Remaining(n: int)

  /** What the retry stage does with one failed attempt. */
  datatype Decision =
    | Propagate                            // reject with the same error
    | Reissue(nextQty: int, delay: int)    // store nextQty, wait delay ms, send the descriptor again
    | MessageTypeError                     // `message.includes` on a missing message throws

  /** `s.includes(part)`: `part` occurs somewhere in `s` (case-sensitive). */
  predicate Includes(s: string, part: string)
    decreases |s|
  {
    part <= s || (s != [] && Includes(s[1..], part))
  }

  /** `part` occurs in `s` at index `i`. */
  predicate OccursAt(s: string, part: string, i: nat)
  {
    i + |part| <= |s| && s[i..i + |part|] == part
  }

  /** The messages of transient failures: network errors and timeouts. */
  predicate IsTransient(message: string)
  {
    Includes(message, "Network Error") || Includes(message, "timeout")
  }

  /** `config.retryDelay || 3000`: an unset or zero override falls back to the default. */
  function RetryDelay(retryDelay: Option<int>): (d: int)
    ensures d != 0
    ensures retryDelay.Some? && retryDelay.value != 0 ==> d == retryDelay.value
    ensures retryDelay == None || retryDelay == Some(0) ==> d == DefaultRetryDelay
  {
    if retryDelay.Some? && retryDelay.value != 0 then retryDelay.value else DefaultRetryDelay
  }

  /** The count stored on a retry: unset starts at 3 (without decrementing), a number goes down by 1. */
  function NextQty(qty: RetryQty): int
  {
    match qty
    case Unset => DefaultRetryQuantity
    case Remaining(n) => n - RetryDecrement
  }

  /**
   * The retry interceptor's decision for an error with the given message (if
   * any), with or without a descriptor attached, whose descriptor holds `qty`
   * and `retryDelay`.
   */
  function Decide(message: Option<string>, hasConfig: bool, qty: RetryQty, retryDelay: Option<int>)
    : (d: Decision)
    ensures d.Reissue? <==> hasConfig && qty != Remaining(0) && message.Some? && IsTransient(message.value)
    ensures d.MessageTypeError? <==> hasConfig && qty != Remaining(0) && message.None?
    ensures d.Reissue? ==> d.delay == RetryDelay(retryDelay)
    ensures d.Reissue? && qty.Unset? ==> d.nextQty == 3
    ensures d.Reissue? && qty.Remaining? ==> d.nextQty == qty.n - 1
  {
    if !hasConfig || qty == Remaining(0) then Propagate
    else if message.None? then MessageTypeError
    else if IsTransient(message.value) then Reissue(NextQty(qty), RetryDelay(retryDelay))
    else Propagate
  }

  /** `Includes` is substring occurrence at some index. */
  lemma {:induction false} IncludesIffOccurs(s: string, part: string)
    ensures Includes(s, part) <==> exists i: nat :: OccursAt(s, part, i)
    decreases |s|
  {
    if part <= s {
      assert OccursAt(s, part, 0);
    } else if s == [] {
      assert forall i: nat :: !OccursAt(s, part, i);
    } else {
      IncludesIffOccurs(s[1..], part);
      if exists i: nat :: OccursAt(s[1..], part, i) {
        var i: nat :| OccursAt(s[1..], part, i);
        assert s[i + 1..i + 1 + |part|] == s[1..][i..i + |part|];
        assert OccursAt(s, part, i + 1);
      }
      if exists i: nat :: OccursAt(s, part, i) {
        var i: nat :| OccursAt(s, part, i);
        assert i != 0;
        assert s[1..][i - 1..i - 1 + |part|] == s[i..i + |part|];
        assert OccursAt(s[1..], part, i - 1);
      }
    }
  }

  /**
   * The count after `k` retries have been stored, starting from `qty`
   * (`k` steps of NextQty).
   */
  function QtyAfter(qty: RetryQty, k: nat): RetryQty
    decreases k
  {
    if k == 0 then qty else QtyAfter(Remaining(NextQty(qty)), k - 1)
  }

  /** One more stored retry is one more NextQty step on the latest count. */
  lemma {:induction false} QtyAfterStep(qty: RetryQty, k: nat)
    ensures QtyAfter(qty, k + 1) == Remaining(NextQty(QtyAfter(qty, k)))
    decreases k
  {
    if k > 0 {
      QtyAfterStep(Remaining(NextQty(qty)), k - 1);
    }
  }

  /** Closed form of the count: a number n becomes n - k; unset becomes 3, 2, 1, 0, ... */
  lemma {:induction false} QtyAfterClosedForm(qty: RetryQty, k: nat)
    ensures qty.Remaining? ==> QtyAfter(qty, k) == Remaining(qty.n - k)
    ensures qty.Unset? && k > 0 ==> QtyAfter(qty, k) == Remaining(4 - k)
    decreases k
  {
    if k > 0 {
      QtyAfterClosedForm(Remaining(NextQty(qty)), k - 1);
    }
  }

  /**
   * Number of reissues when the transport fails every one of `attempts`
   * attempts with a transient error and the descriptor is attached: each
   * attempt either stops the chain (count 0) or stores a new count and reissues.
   */
  function PersistentReissues(qty: RetryQty, attempts: nat): (r: nat)
    ensures r <= attempts
    decreases attempts
  {
    if attempts == 0 || qty == Remaining(0) then 0
    else 1 + PersistentReissues(Remaining(NextQty(qty)), attempts - 1)
  }

  /** A starting count n >= 0 gives exactly n reissues (0 gives none). */
  lemma {:induction false} SetBudgetGivesExactlyN(n: int, attempts: nat)
    requires 0 <= n < attempts
    ensures PersistentReissues(Remaining(n), attempts) == n
    decreases n
  {
    if n > 0 {
      SetBudgetGivesExactlyN(n - 1, attempts - 1);
    }
  }

  /** An unset count gives four reissues: one that stores 3, then three more. */
  lemma UnsetBudgetGivesFour(attempts: nat)
    requires attempts > 4
    ensures PersistentReissues(Unset, attempts) == 4
  {
    SetBudgetGivesExactlyN(3, attempts - 1);
  }

  /** A negative count never reaches zero: every failing attempt is reissued. */
  lemma {:induction false} NegativeBudgetNeverStops(n: int, attempts: nat)
    requires n < 0
    ensures PersistentReissues(Remaining(n), attempts) == attempts
    decreases attempts
  {
    if attempts > 0 {
      NegativeBudgetNeverStops(n - 1, attempts - 1);
    }
  }

  /**
   * While every attempt so far was reissued, one more failing attempt is
   * reissued too exactly when the stored count is not zero.
   */
  lemma {:induction false} PersistentReissuesExtend(qty: RetryQty, k: nat)
    requires PersistentReissues(qty, k) == k
    ensures PersistentReissues(qty, k + 1) == if QtyAfter(qty, k) == Remaining(0) then k else k + 1
    decreases k
  {
    if k > 0 {
      PersistentReissuesExtend(Remaining(NextQty(qty)), k - 1);
    }
  }

  /** Once the count has reached zero, more attempts change nothing: the chain has stopped. */
  lemma {:induction false} PersistentReissuesStop(qty: RetryQty, k: nat, attempts: nat)
    requires k < attempts
    requires PersistentReissues(qty, k) == k && QtyAfter(qty, k) == Remaining(0)
    ensures PersistentReissues(qty, attempts) == k
    decreases k
  {
    if k > 0 {
      PersistentReissuesStop(Remaining(NextQty(qty)), k - 1, attempts - 1);
    }
  }
}
