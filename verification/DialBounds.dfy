// What every run of the readiness loop obeys: how many attempts it can make, and how the caller's
// context, Close and a stopped backend end it. Runs are those of DialLoop.DialRoute, which ends at
// the k with e.LastAttempt(k) after k + 1 backend attempts.
module DialBounds {
  import opened Wrappers
  import opened Errors
  import opened DialLoop

  // Four times the least total delay of the first n waits: the sum of 3 * min(500ms, 25ms * 2^i).
  function LeastWait4(n: nat): int {
    if n == 0 then 0 else LeastWait4(n - 1) + 3 * B.Base(MIN_DELAY, MAX_DELAY, n - 1)
  }

  // n waits can fit into `remaining` nanoseconds.
  predicate Fits(n: nat, remaining: int) {
    n == 0 || LeastWait4(n) <= 4 * remaining
  }

  lemma {:induction false} LeastWaitGrows(m: nat, n: nat)
    requires m <= n
    ensures LeastWait4(m) + (n - m) <= LeastWait4(n)
  {
    if m < n {
      LeastWaitGrows(m, n - 1);
      B.BaseRange(MIN_DELAY, MAX_DELAY, n - 1);
    }
  }

  // The time spent waiting before attempt k is at least the least total delay, and at most what
  // the context had left.
  lemma {:induction false} WaitsTakeTime(e: Env, k: nat)
    requires e.Reaches(k)
    ensures LeastWait4(k) <= 4 * (e.StartsAt(k) - e.start)
    ensures k > 0 ==> e.StartsAt(k) <= e.CtxEnd()
  {
    if k > 0 {
      WaitsTakeTime(e, k - 1);
      DrawPositive(k - 1, e.attempts(k - 1).seed);
      assert e.MayWin(k - 1, TimerFires);
      assert e.ReadyAt(k - 1, ContextDone).Some?;
    }
  }

  // At most 1 + n attempts, n being the largest count that fits the remaining time - whatever mix
  // of retryable errors and failing health checks occurs, and even when a backend marks the
  // caller's own context error retryable.
  lemma AttemptsBounded(e: Env, k: nat, n: nat)
    requires e.Reaches(k)
    requires !Fits(n + 1, e.CtxEnd() - e.start)
    ensures k + 1 <= 1 + n
    ensures Fits(k, e.CtxEnd() - e.start)
  {
    WaitsTakeTime(e, k);
    LeastWaitGrows(n + 1, if k > n then k else n + 1);
  }

  // Every run ends: some reached attempt is the last.
  lemma {:induction false} EveryRunEnds(e: Env, k: nat) returns (last: nat)
    requires e.Reaches(k)
    ensures k <= last && e.LastAttempt(last)
    decreases if 4 * (e.CtxEnd() - e.start) >= k then 4 * (e.CtxEnd() - e.start) - k else -1
  {
    WaitsTakeTime(e, k);
    LeastWaitGrows(0, k);
    if e.Continues(k) {
      WaitsTakeTime(e, k + 1);
      LeastWaitGrows(0, k + 1);
      last := EveryRunEnds(e, k + 1);
    } else {
      last := k;
    }
  }

  lemma {:induction false} LeastWaitPlateau(n: nat)
    requires n >= 5
    ensures LeastWait4(n) == (2325 + 1500 * (n - 5)) * B.MILLISECOND
  {
    if n == 5 {
      assert B.Pow2(n - 1) == 16 && B.Pow2(n - 2) == 8 && B.Pow2(n - 3) == 4 && B.Pow2(n - 4) == 2;
    } else {
      LeastWaitPlateau(n - 1);
      PowerPastCap(n - 1);
    }
  }

  lemma {:induction false} PowerPastCap(n: nat)
    requires n >= 5
    ensures B.Pow2(n) >= 32
  {
    if n == 5 {
      assert B.Pow2(n - 3) == 4;
      assert B.Pow2(n) == 8 * B.Pow2(n - 3);
    } else {
      PowerPastCap(n - 1);
    }
  }

  // 164 attempts within the default ready timeout of 60s.
  lemma DefaultTimeoutBound(e: Env, k: nat)
    requires e.Reaches(k) && e.CtxEnd() - e.start <= 60_000 * B.MILLISECOND
    ensures k + 1 <= 164
  {
    LeastWaitPlateau(164);
    if e.CtxEnd() - e.start >= 0 {
      AttemptsBounded(e, k, 163);
    } else {
      WaitsTakeTime(e, k);
      LeastWaitGrows(0, k);
    }
  }

  // The bound is attained for every remaining time: instant retryable failures with the least
  // jitter and a timer that wins its ties.
  function Hasty(remaining: nat, err: Err): Env {
    Env(0, Ctx(None, None, false), remaining, err, false, None,
        (i: nat) => Attempt(Some(Marker(err)), 0, None, 0, 0, TimerFires))
  }

  lemma {:induction false} BoundAttained(remaining: nat, err: Err, k: nat)
    requires Fits(k, remaining)
    ensures Hasty(remaining, err).Reaches(k)
    ensures 4 * Hasty(remaining, err).StartsAt(k) == LeastWait4(k)
  {
    var e := Hasty(remaining, err);
    if k > 0 {
      LeastWaitGrows(k - 1, k);
      BoundAttained(remaining, err, k - 1);
      LeastJitter(k - 1);
      assert e.Failure(k - 1) == Some(Marker(err));
      assert e.ReadyAt(k - 1, RegistryDone).None?;
      assert e.MayWin(k - 1, TimerFires);
    }
  }

  // Seed 0 draws the least jitter, and every base is divisible by 4.
  lemma LeastJitter(i: nat)
    ensures 4 * B.Jittered(B.Base(MIN_DELAY, MAX_DELAY, i), 0) == 3 * B.Base(MIN_DELAY, MAX_DELAY, i)
  {
    var d := B.Base(MIN_DELAY, MAX_DELAY, i);
    B.BaseRange(MIN_DELAY, MAX_DELAY, i);
    assert d % 4 == 0 by {
      var p := B.Pow2(i);
      assert MIN_DELAY * p == 4 * (6_250_000 * p);
    }
    B.WrapIdentity(d - d / 4);
  }

  // A context that has ended is terminal whatever the error: the marker of a retryable error does
  // not outlive the caller's context.
  lemma EndedContextIsTerminal(e: Env, k: nat)
    requires e.Reaches(k) && e.Failure(k).Some? && e.CtxEnd() <= e.EndsAt(k)
    ensures e.LastAttempt(k) && e.Verdict(k) == Some(WaitError(e.Cause(), e.Failure(k)))
  {
  }

  // With the route's own ready timeout, a wait that ends by it returns a retryable error exactly when
  // the last attempt's error was one.
  lemma ReadyTimeoutRetryableIff(e: Env, k: nat)
    requires e.LastAttempt(k) && e.ctx.deadline.None? && e.ctx.cancel.None? && e.notReadyIn == NOT_READY_IN
    requires e.Verdict(k) == Some(WaitError(e.Cause(), e.Failure(k)))
    ensures IsRetryable(e.Verdict(k)) <==> IsRetryable(e.Failure(k))
  {
    WaitErrorOfTimeout(e.Failure(k));
  }

  // Only the first attempt can start after `done` was closed ...
  lemma NoRetryStartsAfterClose(e: Env, k: nat)
    requires e.Reaches(k) && k > 0 && e.doneAt.Some?
    ensures e.StartsAt(k) <= e.doneAt.value
  {
    DrawPositive(k - 1, e.attempts(k - 1).seed);
    assert e.MayWin(k - 1, TimerFires);
    assert e.ReadyAt(k - 1, RegistryDone).Some?;
  }

  // ... and an attempt in progress at that moment is the last one: if it fails retryably under a
  // live context the loop returns ERR_CLOSED without another backend call. A zero delay would tie
  // with `done`; DrawPositive is what excludes it.
  lemma CloseEndsLoop(e: Env, k: nat)
    requires e.Reaches(k) && e.Waits(k)
    requires e.doneAt.Some? && e.doneAt.value <= e.EndsAt(k)
    ensures e.LastAttempt(k) && e.Verdict(k) == Some(ERR_CLOSED)
  {
    DrawPositive(k, e.attempts(k).seed);
    assert e.ReadyAt(k, RegistryDone) == Some(e.EndsAt(k));
    assert e.MayWin(k, e.Winner(k));
  }

  // A Close during the wait ends it too, before the timer and the context do.
  lemma CloseInterruptsWait(e: Env, k: nat)
    requires e.Reaches(k) && e.Waits(k) && e.doneAt.Some?
    requires e.doneAt.value < e.EndsAt(k) + e.Delay(k) && e.doneAt.value < e.CtxEnd()
    ensures e.LastAttempt(k) && e.Verdict(k) == Some(ERR_CLOSED)
  {
    DrawPositive(k, e.attempts(k).seed);
    assert e.ReadyAt(k, RegistryDone).Some?;
    assert e.MayWin(k, e.Winner(k));
  }

  // When every attempt starting at or after `stopped` meets a terminal error, at most one attempt
  // starts then, and it ends the loop.
  lemma TerminalErrorEndsLoop(e: Env, k: nat, stopped: int, i: nat)
    requires e.Reaches(k) && i <= k && e.StartsAt(i) >= stopped
    requires forall j: nat :: e.StartsAt(j) >= stopped ==> e.attempts(j).dial.Some? && !IsRetryable(e.attempts(j).dial)
    ensures i == k && e.LastAttempt(k) && e.Verdict(k).Some?
    ensures || e.Verdict(k) == Some(Errorf([e.attempts(k).dial.value]))
            || e.Verdict(k) == Some(WaitError(e.Cause(), e.attempts(k).dial))
  {
    assert !e.Waits(i);
    if i < k {
      ReachedFailed(e, k, i);
    }
  }
}
