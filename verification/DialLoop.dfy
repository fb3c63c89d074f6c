// registry.go, dialRoute (lines 306-365): the readiness loop, run against an arbitrary environment.
//
// Time is integer nanoseconds. One environment fixes what the outside world does in one run: the
// outcome and duration of every attempt (every backend dial and health check returns), the jitter
// drawn, when the context ends, and when Close closes `done`. Quantifying over environments is
// quantifying over runs. Event handlers and local computation take no time; `select` returns an
// event with the earliest ready time, and ties are decided by the environment.
module DialLoop {
  import opened Wrappers
  import opened Errors
  import B = Backoff

  const MIN_DELAY: int := 25 * B.MILLISECOND
  const MAX_DELAY: int := 500 * B.MILLISECOND

  datatype Event = DialStart | DialRetry(attempt: nat, err: Err) | DialSuccess | DialError(err: Err)

  // The branch of the select at lines 355-363.
  datatype Branch = TimerFires | ContextDone | RegistryDone

  // What attempt i meets: dial is None when the route dial returned a connection; health is None
  // when the health check passed; seed is the random draw of Next; tie is preferred in the select.
  datatype Attempt = Attempt(dial: Option<Err>, dialTime: nat, health: Option<Err>, healthTime: nat,
                             seed: nat, tie: Branch)

  // The caller's context: its deadline and its cancellation, each with the cause it reports, and
  // which of the two is reported when they coincide.
  datatype Ctx = Ctx(deadline: Option<(int, Err)>, cancel: Option<(int, Err)>, cancelFirst: bool)

  datatype Env = Env(start: int, ctx: Ctx, readyTimeout: int, notReadyIn: Err, hasHealth: bool,
                     doneAt: Option<int>, attempts: nat -> Attempt)
  {
    // Lines 310-315: the ready timeout applies only to a context without a deadline.
    function Limit(): (int, Err) {
      if ctx.deadline.Some? then ctx.deadline.value else (start + readyTimeout, notReadyIn)
    }

    function CtxEnd(): int {
      if ctx.cancel.Some? && ctx.cancel.value.0 < Limit().0 then ctx.cancel.value.0 else Limit().0
    }

    function Cause(): Err {
      if ctx.cancel.Some? && (ctx.cancel.value.0 < Limit().0 || (ctx.cancel.value.0 == Limit().0 && ctx.cancelFirst))
      then ctx.cancel.value.1 else Limit().1
    }

    // Lines 328-338: the error of attempt i, None for success. A failing health check is marked
    // retryable.
    function Failure(i: nat): Option<Err> {
      var a := attempts(i);
      if a.dial.Some? then a.dial
      else if hasHealth && a.health.Some? then Some(Marker(Errorf([a.health.value])))
      else None
    }

    predicate Unhealthy(i: nat) {
      attempts(i).dial.None? && hasHealth && attempts(i).health.Some?
    }

    function Took(i: nat): nat {
      attempts(i).dialTime + if attempts(i).dial.None? && hasHealth then attempts(i).healthTime else 0
    }

    // The delay drawn after attempt i: the i-th call of Next on a fresh backoff.
    function Delay(i: nat): int {
      DrawPositive(i, attempts(i).seed);
      B.Jittered(B.Base(MIN_DELAY, MAX_DELAY, i), attempts(i).seed)
    }

    function StartsAt(i: nat): int
      decreases i, 0
    {
      if i == 0 then start else EndsAt(i - 1) + Delay(i - 1)
    }

    function EndsAt(i: nat): int
      decreases i, 1
    {
      StartsAt(i) + Took(i)
    }

    // When branch b of the select after attempt i becomes ready; None is never.
    function ReadyAt(i: nat, b: Branch): Option<int> {
      match b
      case TimerFires => Some(EndsAt(i) + Delay(i))
      case ContextDone => Some(Later(EndsAt(i), CtxEnd()))
      case RegistryDone => if doneAt.Some? then Some(Later(EndsAt(i), doneAt.value)) else None
    }

    predicate MayWin(i: nat, b: Branch) {
      && ReadyAt(i, b).Some?
      && (forall o: Branch | ReadyAt(i, o).Some? :: ReadyAt(i, b).value <= ReadyAt(i, o).value)
    }

    function Winner(i: nat): (b: Branch)
      ensures MayWin(i, b)
    {
      if MayWin(i, attempts(i).tie) then attempts(i).tie
      else if MayWin(i, ContextDone) then ContextDone
      else if MayWin(i, RegistryDone) then RegistryDone
      else TimerFires
    }

    // Attempt i reaches the select: it failed retryably under a live context.
    predicate Waits(i: nat) {
      Failure(i).Some? && EndsAt(i) < CtxEnd() && IsRetryable(Failure(i))
    }

    // Attempt i is followed by another one.
    predicate Continues(i: nat) {
      Waits(i) && Winner(i) == TimerFires
    }

    // The run makes attempt k.
    predicate Reaches(k: nat) {
      k == 0 || (Reaches(k - 1) && Continues(k - 1))
    }

    predicate LastAttempt(k: nat) {
      Reaches(k) && !Continues(k)
    }

    // The error dialRoute returns when attempt k is its last; None is success.
    function Verdict(k: nat): Option<Err>
      requires !Continues(k)
    {
      if Failure(k).None? then None
      else if CtxEnd() <= EndsAt(k) then Some(WaitError(Cause(), Failure(k)))
      else if !IsRetryable(Failure(k)) then Some(Errorf([Failure(k).value]))
      else if Winner(k) == ContextDone then Some(WaitError(Cause(), Failure(k)))
      else Some(ERR_CLOSED)
    }

    // What attempt i announces: a retry, numbered from 1, when it reaches the select.
    function Emits(i: nat): seq<Event> {
      if Waits(i) then [DialRetry(i + 1, Failure(i).value)] else []
    }

    function Retries(n: nat): seq<Event> {
      if n == 0 then [] else Retries(n - 1) + Emits(n - 1)
    }

    // The connection attempt i closes: one whose health check failed.
    function Shut(i: nat): seq<nat> {
      if Unhealthy(i) then [i] else []
    }

    function Closed(n: nat): seq<nat> {
      if n == 0 then [] else Closed(n - 1) + Shut(n - 1)
    }
  }

  function Later(a: int, b: int): int {
    if a < b then b else a
  }

  lemma DrawPositive(i: nat, seed: nat)
    ensures MIN_DELAY <= B.Base(MIN_DELAY, MAX_DELAY, i) <= MAX_DELAY
    ensures B.Jittered(B.Base(MIN_DELAY, MAX_DELAY, i), seed) >= 1
    ensures 3 * B.Base(MIN_DELAY, MAX_DELAY, i) <= 4 * B.Jittered(B.Base(MIN_DELAY, MAX_DELAY, i), seed)
  {
    B.BaseRange(MIN_DELAY, MAX_DELAY, i);
    B.JitterBounds(B.Base(MIN_DELAY, MAX_DELAY, i), seed);
  }

  // Lines 328-338: one route dial and, on success, the health check; a connection whose check
  // fails is closed on the spot.
  method Try(e: Env, i: nat, now: int) returns (conn: Option<nat>, err: Option<Err>, later: int, closed: seq<nat>)
    ensures err == e.Failure(i) && later == now + e.Took(i)
    ensures conn == if err.None? then Some(i) else None
    ensures closed == if e.attempts(i).dial.None? && err.Some? then [i] else []
  {
    var a := e.attempts(i);
    conn, err, later, closed := if a.dial.None? then Some(i) else None, a.dial, now + a.dialTime, [];
    if err.None? && e.hasHealth {
      later := later + a.healthTime;
      if a.health.Some? {
        closed := [i];
        conn, err := None, Retryable(Some(Errorf([a.health.value])));
      }
    }
  }

  // Lines 343-363 after attempt i failed with err at time now: stop with an error, or wait for the
  // timer. The retry is announced before the wait, so also by a wait that ends the loop.
  method Settle(e: Env, i: nat, err: Err, now: int, bo: B.Backoff)
    returns (stop: Option<Err>, later: int, announced: seq<Event>)
    requires bo.Valid() && bo.calls == i && bo.min == MIN_DELAY && bo.max == MAX_DELAY
    requires e.Failure(i) == Some(err) && now == e.EndsAt(i)
    modifies bo`attempt, bo`calls
    ensures bo.Valid()
    ensures stop.None? <==> e.Continues(i)
    ensures stop.Some? ==> stop == e.Verdict(i)
    ensures stop.None? ==> bo.calls == i + 1 && later == e.StartsAt(i + 1) && now < later && now < e.CtxEnd()
    ensures announced == if e.Waits(i) then [DialRetry(i + 1, err)] else []
  {
    later, announced := now, [];
    if e.CtxEnd() <= now {
      stop := Some(WaitError(e.Cause(), Some(err)));
      return;
    }
    if !IsRetryable(Some(err)) {
      stop := Some(Errorf([err]));
      return;
    }
    announced := [DialRetry(i + 1, err)];
    var d := bo.Next(e.attempts(i).seed);
    DrawPositive(i, e.attempts(i).seed);
    match e.Winner(i)
    case ContextDone =>
      stop := Some(WaitError(e.Cause(), Some(err)));
    case RegistryDone =>
      stop := Some(ERR_CLOSED);
    case TimerFires =>
      stop, later := None, now + d;
  }

  // One iteration: attempt i and what follows it.
  method Round(e: Env, i: nat, now: int, bo: B.Backoff)
    returns (over: bool, conn: Option<nat>, err: Option<Err>, later: int, emitted: seq<Event>, closed: seq<nat>)
    requires bo.Valid() && bo.calls == i && bo.min == MIN_DELAY && bo.max == MAX_DELAY
    requires now == e.StartsAt(i)
    modifies bo`attempt, bo`calls
    ensures bo.Valid() && (!over ==> bo.calls == i + 1)
    ensures over <==> !e.Continues(i)
    ensures over ==> err == e.Verdict(i)
    ensures !over ==> later == e.StartsAt(i + 1) && now < later && now < e.CtxEnd()
    ensures conn == if e.Failure(i).None? then Some(i) else None
    ensures closed == e.Shut(i)
    ensures emitted == e.Emits(i) + if over then [Final(err)] else []
  {
    conn, err, later, closed := Try(e, i, now);
    if err.None? {
      return true, conn, err, later, [Final(err)], closed;
    }
    var stop, announced := None, [];
    stop, later, announced := Settle(e, i, err.value, later, bo);
    over, err := stop.Some?, stop;
    emitted := announced + if over then [Final(err)] else [];
  }

  // The loop itself. `closes` lists the connections (named by the attempt that dialed them) the
  // loop closed; `conn` is the one it returned.
  method DialRoute(e: Env) returns (conn: Option<nat>, err: Option<Err>, calls: nat,
                                    events: seq<Event>, closes: seq<nat>)
    // It ends at the first attempt that is not followed by another ...
    ensures calls >= 1 && e.LastAttempt(calls - 1)
    ensures err == e.Verdict(calls - 1)
    // ... returning a connection exactly on success, of that same attempt, whose health passed.
    ensures conn == if err.None? then Some(calls - 1) else None
    // The connections closed are those whose health check failed.
    ensures closes == e.Closed(calls)
    // DialStart, then the retries, then exactly one of DialSuccess and DialError.
    ensures events == [DialStart] + e.Retries(calls) + [Final(err)]
    ensures events[|events| - 1] == if err.None? then DialSuccess else DialError(err.value)
  {
    var now := e.start;
    events := [DialStart];
    closes := [];
    var bo := new B.Backoff(MIN_DELAY, MAX_DELAY);
    calls := 0;
    while true
      invariant e.Reaches(calls)
      invariant now == e.StartsAt(calls)
      invariant fresh(bo) && bo.Valid() && bo.calls == calls && bo.min == MIN_DELAY && bo.max == MAX_DELAY
      invariant events == [DialStart] + e.Retries(calls)
      invariant closes == e.Closed(calls)
      decreases if calls == 0 then 1 else 0, if e.CtxEnd() - now > 0 then e.CtxEnd() - now else 0
    {
      var over, emitted, closed;
      over, conn, err, now, emitted, closed := Round(e, calls, now, bo);
      EventsSoFar(e, calls, if over then [Final(err)] else []);
      events, closes, calls := events + emitted, closes + closed, calls + 1;
      if over {
        return;
      }
    }
  }

  // The events before attempt n, followed by those of attempt n.
  lemma EventsSoFar(e: Env, n: nat, last: seq<Event>)
    ensures [DialStart] + e.Retries(n) + (e.Emits(n) + last) == [DialStart] + e.Retries(n + 1) + last
  {
  }

  function Final(err: Option<Err>): Event {
    if err.None? then DialSuccess else DialError(err.value)
  }

  // Conservation: of the connections a run with last attempt k obtained from the route dial, each
  // was closed exactly once or is the one it returned, and nothing else was closed.
  lemma EveryConnectionReturnedOrClosed(e: Env, k: nat, i: nat)
    requires e.LastAttempt(k)
    ensures multiset(e.Closed(k + 1))[i] + (if e.Verdict(k).None? && i == k then 1 else 0)
            == if i <= k && e.attempts(i).dial.None? then 1 else 0
  {
    ReachedFailed(e, k, i);
    ClosedCount(e, k + 1, i);
    ObtainedThen(e, k, i);
  }

  lemma ObtainedThen(e: Env, k: nat, i: nat)
    requires e.LastAttempt(k) && (i < k ==> e.Failure(i).Some?)
    ensures (if i < k + 1 && e.Unhealthy(i) then 1 else 0) + (if e.Verdict(k).None? && i == k then 1 else 0)
            == if i <= k && e.attempts(i).dial.None? then 1 else 0
  {
    SuccessIff(e, k);
  }

  lemma SuccessIff(e: Env, k: nat)
    requires e.LastAttempt(k)
    ensures e.Verdict(k).None? <==> e.Failure(k).None?
  {
  }

  lemma {:induction false} ClosedCount(e: Env, n: nat, i: nat)
    ensures multiset(e.Closed(n))[i] == if i < n && e.Unhealthy(i) then 1 else 0
  {
    if n > 0 {
      ClosedCount(e, n - 1, i);
      ShutCount(e, n - 1, i);
      CountOfConcat(e.Closed(n - 1), e.Shut(n - 1), i);
    }
  }

  lemma CountOfConcat(a: seq<nat>, b: seq<nat>, i: nat)
    ensures multiset(a + b)[i] == multiset(a)[i] + multiset(b)[i]
  {
  }

  lemma ShutCount(e: Env, n: nat, i: nat)
    ensures multiset(e.Shut(n))[i] == if i == n && e.Unhealthy(n) then 1 else 0
  {
  }

  // Every attempt before a reached one failed, waited and saw its timer fire.
  lemma {:induction false} ReachedFailed(e: Env, k: nat, i: nat)
    requires e.Reaches(k)
    ensures i < k ==> e.Continues(i) && e.Failure(i).Some? && e.Reaches(i)
  {
    if i < k {
      ReachedFailed(e, k - 1, i);
    }
  }

  // The retries of a run are numbered 1, 2, ..., k without gap, k being the attempts that waited.
  lemma {:induction false} RetriesNumbered(e: Env, n: nat)
    requires n > 0 ==> e.Reaches(n - 1)
    ensures |e.Retries(n)| == if n == 0 || e.Waits(n - 1) then n else n - 1
    ensures forall j :: 0 <= j < |e.Retries(n)| ==>
              e.Failure(j).Some? && e.Retries(n)[j] == DialRetry(j + 1, e.Failure(j).value)
  {
    if n > 0 {
      RetriesNumbered(e, n - 1);
    }
  }
}
