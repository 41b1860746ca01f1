/** The retry loop around the blocking read of the load-balancer stream, with 64-bit durations. */
module Backoff {
  import opened Wrappers
  import opened Decimal

  /** The fields of `RetryConfig`; delays in nanoseconds. */
  datatype RetryConfig = RetryConfig(maxRetries: int, initial: int, cap: int)

  /** `RetryConfig.Validate`, and all three are 64-bit values. */
  ghost predicate Valid(c: RetryConfig) {
    -1 <= c.maxRetries <= MAX_INT && 0 < c.initial <= c.cap <= MAX_INT
  }

  /** Two's-complement wrap to 64 bits. */
  function Wrap64(n: int): (w: int)
    ensures MIN_INT <= w <= MAX_INT
    ensures MIN_INT <= n <= MAX_INT ==> w == n
  {
    (n - MIN_INT) % 0x1_0000_0000_0000_0000 + MIN_INT
  }

  function NextDelay(c: RetryConfig, delay: int): int {
    var doubled := Wrap64(delay * 2);
    if doubled > c.cap then c.cap else doubled
  }

  /** The delay slept after the k-th error in a row, counting from 0. */
  function Delay(c: RetryConfig, k: nat): int {
    if k == 0 then c.initial else NextDelay(c, Delay(c, k - 1))
  }

  function Pow2(k: nat): (p: nat)
    ensures p > k
  {
    if k == 0 then 1 else 2 * Pow2(k - 1)
  }

  /** initial * 2^k, capped. */
  function Capped(c: RetryConfig, k: nat): int {
    if c.initial * Pow2(k) > c.cap then c.cap else c.initial * Pow2(k)
  }

  lemma CappedDoubles(c: RetryConfig, k: nat)
    requires Valid(c) && 2 * c.cap <= MAX_INT
    ensures 0 < Capped(c, k) <= c.cap
    ensures Capped(c, k + 1) == NextDelay(c, Capped(c, k))
  {
    var p := Pow2(k);
    hide Pow2;
    AtLeast(p, c.initial);
    assert c.initial * (2 * p) == 2 * (c.initial * p);
    assert Pow2(k + 1) == 2 * p by { PowStep(k); }
  }

  lemma PowStep(k: nat)
    ensures Pow2(k + 1) == 2 * Pow2(k)
  {
  }

  lemma {:induction false} ClosedForm(c: RetryConfig, k: nat)
    requires Valid(c) && 2 * c.cap <= MAX_INT
    ensures Delay(c, k) == Capped(c, k)
  {
    hide NextDelay;
    if k > 0 {
      ClosedForm(c, k - 1);
      hide Capped;
      CappedDoubles(c, k - 1);
    }
  }

  lemma AtLeast(a: int, b: nat)
    requires a >= 1
    ensures a * b >= b
  {
    assert (a - 1) * b >= 0;
  }

  /** A streak as long as the cap has certainly reached it. */
  lemma CapReached(c: RetryConfig, k: nat)
    requires Valid(c) && k >= c.cap
    ensures Capped(c, k) == c.cap
  {
    hide Pow2;
    var p := Pow2(k);
    AtLeast(c.initial, p);
  }

  /** The closed form holds for every streak exactly when doubling the cap fits in 64 bits; otherwise the
      delay after the capped one is negative, and the loop retries at once. */
  lemma ClosedFormIff(c: RetryConfig)
    requires Valid(c)
    ensures (forall k: nat :: Delay(c, k) == Capped(c, k)) <==> 2 * c.cap <= MAX_INT
  {
    if 2 * c.cap <= MAX_INT {
      forall k: nat ensures Delay(c, k) == Capped(c, k) { ClosedForm(c, k); }
    } else {
      var k: nat := c.cap;
      CapReached(c, k);
      CapReached(c, k + 1);
      hide Capped, Pow2;
      assert Wrap64(2 * c.cap) < 0;
      assert Delay(c, k + 1) == NextDelay(c, Delay(c, k));
      assert Delay(c, k) != Capped(c, k) || Delay(c, k + 1) != Capped(c, k + 1);
    }
  }

  // ---- The loop ----

  /** What one turn of the loop meets. */
  datatype Turn =
    | ContextDone                    // before the read
    | ReadCanceled                   // the read fails because the context was cancelled
    | ReadError(cancelled: bool)     // any other error; the context may be done during the sleep
    | ReadOk(fatal: bool)            // messages arrived; processing them may fail for good

  datatype Stop = Running | Cancelled | GaveUp | Fatal

  /** How many turns right before turn `i` were errors. */
  function Streak(turns: seq<Turn>, i: nat): (n: nat)
    requires i <= |turns|
    ensures n <= i
  {
    if i > 0 && turns[i - 1].ReadError? then Streak(turns, i - 1) + 1 else 0
  }

  /** An independent reading of `Streak`: the errors are consecutive and the turn before them is none. */
  lemma {:induction false} StreakIsMaximal(turns: seq<Turn>, i: nat)
    requires i <= |turns|
    ensures forall j :: i - Streak(turns, i) <= j < i ==> turns[j].ReadError?
    ensures Streak(turns, i) < i ==> !turns[i - Streak(turns, i) - 1].ReadError?
  {
    if i > 0 && turns[i - 1].ReadError? { StreakIsMaximal(turns, i - 1); }
  }

  /** A turn that the loop completes: messages processed, or an error slept off, with `streak` errors right before
      it, fewer than the limit. */
  predicate GoesOn(c: RetryConfig, t: Turn, streak: nat) {
    t == ReadOk(false) || (t == ReadError(false) && (c.maxRetries >= 0 ==> streak < c.maxRetries))
  }

  /** `readLBSStream`: the loop completes |slept| turns and stops in the next one, or is still running after the
      last; `slept` has the delay slept in each completed turn, if any. */
  method ReadLBSStream(c: RetryConfig, turns: seq<Turn>) returns (slept: seq<Option<int>>, stop: Stop)
    requires Valid(c)
    ensures |slept| <= |turns|
    ensures forall i :: 0 <= i < |slept| ==> GoesOn(c, turns[i], Streak(turns, i))
    ensures stop.Running? <==> |slept| == |turns|
    ensures |slept| < |turns| ==>
      var t, streak := turns[|slept|], Streak(turns, |slept|);
      && !GoesOn(c, t, streak)
      && (stop.GaveUp? <==> t.ReadError? && c.maxRetries >= 0 && streak == c.maxRetries)
      && (stop.Cancelled? <==> t.ContextDone? || t.ReadCanceled? || (t == ReadError(true) && !stop.GaveUp?))
      && (stop.Fatal? <==> t == ReadOk(true))
    ensures forall i :: 0 <= i < |slept| ==>
      slept[i] == if turns[i].ReadError? then Some(Delay(c, Streak(turns, i))) else None
    ensures 2 * c.cap <= MAX_INT ==> forall i :: 0 <= i < |slept| && turns[i].ReadError? ==>
      slept[i] == Some(Capped(c, Streak(turns, i)))
  {
    var consecutiveErrors := 0;
    var currentRetryDelay := c.initial;
    slept, stop := [], Running;
    var done := 0;
    hide Capped, Wrap64, NextDelay, Pow2, Delay, Streak;
    DelayStart(c);
    StreakStart(turns);
    while done < |turns|
      invariant done == |slept| <= |turns| && stop.Running?
      invariant consecutiveErrors == Streak(turns, done)
      invariant currentRetryDelay == Delay(c, consecutiveErrors)
      invariant forall i :: 0 <= i < done ==> GoesOn(c, turns[i], Streak(turns, i))
      invariant forall i :: 0 <= i < done ==>
        slept[i] == if turns[i].ReadError? then Some(Delay(c, Streak(turns, i))) else None
      decreases |turns| - done
    {
      StreakStep(turns, done);
      StreakBounded(c, turns, done);
      match turns[done] {
        case ContextDone =>
          stop := Cancelled;
          break;
        case ReadCanceled =>
          stop := Cancelled;
          break;
        case ReadError(cancelled) =>
          consecutiveErrors := consecutiveErrors + 1;
          if c.maxRetries >= 0 && consecutiveErrors > c.maxRetries {
            stop := GaveUp;
            break;
          }
          if cancelled {
            stop := Cancelled;
            break;
          }
          slept := slept + [Some(currentRetryDelay)];
          currentRetryDelay := Doubled(c, currentRetryDelay);
          DelayStep(c, Streak(turns, done));
        case ReadOk(fatal) =>
          if consecutiveErrors > 0 {
            consecutiveErrors := 0;
            currentRetryDelay := c.initial;
          }
          if fatal {
            stop := Fatal;
            break;
          }
          slept := slept + [None];
      }
      done := done + 1;
    }
    if 2 * c.cap <= MAX_INT {
      forall i | 0 <= i < done && turns[i].ReadError? ensures slept[i] == Some(Capped(c, Streak(turns, i))) {
        ClosedForm(c, Streak(turns, i));
      }
    }
  }

  /** While the loop runs, a streak is never longer than the limit. */
  lemma {:induction false} StreakBounded(c: RetryConfig, turns: seq<Turn>, n: nat)
    requires n <= |turns| && forall i :: 0 <= i < n ==> GoesOn(c, turns[i], Streak(turns, i))
    ensures c.maxRetries >= 0 ==> Streak(turns, n) <= c.maxRetries
  {
    if n > 0 { StreakBounded(c, turns, n - 1); }
  }

  lemma StreakStart(turns: seq<Turn>)
    ensures Streak(turns, 0) == 0
  {
  }

  lemma StreakStep(turns: seq<Turn>, i: nat)
    requires i < |turns|
    ensures Streak(turns, i + 1) == if turns[i].ReadError? then Streak(turns, i) + 1 else 0
  {
  }

  lemma DelayStart(c: RetryConfig)
    ensures Delay(c, 0) == c.initial
  {
  }

  lemma DelayStep(c: RetryConfig, k: nat)
    ensures Delay(c, k + 1) == NextDelay(c, Delay(c, k))
  {
  }

  method Doubled(c: RetryConfig, delay: int) returns (next: int)
    ensures next == NextDelay(c, delay)
  {
    next := Wrap64(delay * 2);
    if next > c.cap {
      next := c.cap;
    }
  }
}
