// What the readiness loop answers, by what it meets: one lemma for each branch of dialRoute, stated
// on the environment's data and times.
module DialAnswers {
  import opened Wrappers
  import opened Errors
  import opened DialLoop

  // ---- The context, lines 307-315 ----

  // A caller's deadline wins over the route's ready timeout, whatever that is.
  lemma CallersDeadlineWins(e: Env, timeout: int, cause: Err)
    requires e.ctx.deadline.Some?
    ensures var f := e.(readyTimeout := timeout, notReadyIn := cause);
            f.CtxEnd() == e.CtxEnd() && f.Cause() == e.Cause()
    ensures e.ctx.cancel.None? ==> (e.CtxEnd(), e.Cause()) == e.ctx.deadline.value
  {
  }

  // Without one the ready timeout ends the wait, and gives its cause.
  lemma ReadyTimeoutCaps(e: Env)
    requires e.ctx.deadline.None? && e.ctx.cancel.None?
    ensures e.CtxEnd() == e.start + e.readyTimeout && e.Cause() == e.notReadyIn
  {
  }

  // A cancellation counts exactly when it comes first; the context reports what ended it.
  lemma CancellationCounts(e: Env)
    requires e.ctx.cancel.Some?
    ensures var (at, cause) := e.ctx.cancel.value;
            var limit := if e.ctx.deadline.Some? then e.ctx.deadline.value.0 else e.start + e.readyTimeout;
            && (at < limit ==> (e.CtxEnd(), e.Cause()) == (at, cause))
            && (limit < at ==>
                  var f := e.(ctx := e.ctx.(cancel := None)); e.CtxEnd() == limit && e.Cause() == f.Cause())
            && (at == limit ==> e.CtxEnd() == at && (e.ctx.cancelFirst ==> e.Cause() == cause))
  {
  }

  // ---- One attempt, lines 328-342 ----

  // It succeeds exactly when the dial returned a connection and no health check failed on it ...
  lemma AttemptSucceedsIff(e: Env, i: nat)
    ensures e.Failure(i).None? <==> e.attempts(i).dial.None? && (e.hasHealth ==> e.attempts(i).health.None?)
  {
  }

  // ... a dial error is passed on as it is; a failing health check is retried, whatever its error,
  // which stays visible.
  lemma AttemptFails(e: Env, i: nat, t: Target)
    ensures e.attempts(i).dial.Some? ==> e.Failure(i) == e.attempts(i).dial
    ensures e.Unhealthy(i) ==>
              IsRetryable(e.Failure(i)) && (Is(e.Failure(i).value, t) <==> Is(e.attempts(i).health.value, t))
  {
    if e.Unhealthy(i) {
      var kids := [e.attempts(i).health.value];
      assert forall k :: k in kids <==> k == e.attempts(i).health.value;
    }
  }

  // The health check runs only on a connection, and takes its own time; the next attempt follows
  // after the drawn delay.
  lemma AttemptTimes(e: Env, i: nat)
    ensures e.StartsAt(0) == e.start
    ensures e.StartsAt(i + 1) == e.EndsAt(i) + e.Delay(i)
    ensures var a := e.attempts(i);
            e.EndsAt(i) == e.StartsAt(i) + a.dialTime + if a.dial.None? && e.hasHealth then a.healthTime else 0
  {
  }

  // ---- The end of the loop ----

  lemma SuccessReturns(e: Env, k: nat)
    requires e.Reaches(k) && e.Failure(k).None?
    ensures e.LastAttempt(k) && e.Verdict(k).None?
  {
  }

  // A terminal error under a live context is returned, wrapped and as it is.
  lemma TerminalErrorReturns(e: Env, k: nat)
    requires e.Reaches(k) && e.Failure(k).Some? && !IsRetryable(e.Failure(k)) && e.EndsAt(k) < e.CtxEnd()
    ensures e.LastAttempt(k) && e.Verdict(k) == Some(Errorf([e.Failure(k).value]))
    ensures !IsRetryable(e.Verdict(k)) && forall t :: Is(e.Verdict(k).value, t) <==> Is(e.Failure(k).value, t)
  {
    var x := e.Failure(k).value;
    var kids := [x];
    assert forall y :: y in kids <==> y == x;
    FirstNetOfOne(x);
  }

  // A context that ends during the wait, before the timer and before Close, ends it with the wait
  // error: the cause and the last backend error.
  lemma ContextEndsWait(e: Env, k: nat)
    requires e.Reaches(k) && e.Waits(k)
    requires e.CtxEnd() < e.EndsAt(k) + e.Delay(k) && (e.doneAt.Some? ==> e.CtxEnd() < e.doneAt.value)
    ensures e.LastAttempt(k) && e.Verdict(k) == Some(WaitError(e.Cause(), e.Failure(k)))
  {
    assert e.MayWin(k, e.Winner(k));
    assert e.ReadyAt(k, ContextDone) == Some(e.CtxEnd());
  }

  // A timer that fires before the context ends and before Close is followed by the next attempt.
  lemma TimerRetries(e: Env, k: nat)
    requires e.Reaches(k) && e.Waits(k)
    requires e.EndsAt(k) + e.Delay(k) < e.CtxEnd()
    requires e.doneAt.Some? ==> e.EndsAt(k) + e.Delay(k) < e.doneAt.value
    ensures e.Continues(k) && e.Reaches(k + 1)
  {
    DrawPositive(k, e.attempts(k).seed);
    assert e.MayWin(k, e.Winner(k));
    assert e.ReadyAt(k, TimerFires) == Some(e.EndsAt(k) + e.Delay(k));
  }

  // Close ended this wait: at the moment the loop stopped `done` was closed, and neither the timer
  // nor the end of the context had come before.
  predicate ClosedDuringWait(e: Env, k: nat) {
    e.Waits(k) && e.doneAt.Some? &&
    var stopped := Later(e.EndsAt(k), e.doneAt.value);
    stopped <= e.EndsAt(k) + e.Delay(k) && stopped <= e.CtxEnd()
  }

  // ErrClosed is answered only then.
  lemma ClosedVerdictMeansDone(e: Env, k: nat)
    requires e.LastAttempt(k)
    ensures e.Verdict(k) == Some(ERR_CLOSED) ==> ClosedDuringWait(e, k)
  {
    assert ERR_CLOSED.matches != {};
    if e.Verdict(k) == Some(ERR_CLOSED) {
      assert e.Waits(k) && e.MayWin(k, e.Winner(k)) && e.Winner(k) == RegistryDone;
      assert e.ReadyAt(k, TimerFires).Some? && e.ReadyAt(k, ContextDone).Some?;
    }
  }

  // Which error ends a wait: exactly one of the two, as the times say; a tie may go either way.
  lemma WaitEndsWith(e: Env, k: nat)
    requires e.LastAttempt(k) && e.Waits(k)
    ensures e.Verdict(k) == Some(ERR_CLOSED) || e.Verdict(k) == Some(WaitError(e.Cause(), e.Failure(k)))
    ensures e.Verdict(k) == Some(ERR_CLOSED) ==> ClosedDuringWait(e, k)
    ensures e.Verdict(k) != Some(ERR_CLOSED) ==>
              && e.CtxEnd() <= e.EndsAt(k) + e.Delay(k)
              && (e.doneAt.Some? ==> e.CtxEnd() <= Later(e.EndsAt(k), e.doneAt.value))
  {
    assert e.MayWin(k, e.Winner(k));
    assert e.ReadyAt(k, TimerFires).Some? && e.ReadyAt(k, ContextDone).Some?;
    assert e.doneAt.Some? ==> e.ReadyAt(k, RegistryDone).Some?;
  }
}
