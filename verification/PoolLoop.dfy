// A readiness loop over the port-forward backend: the loop of DialLoop whose attempts are answered
// by DialContext calls of PoolRuns, through middleware that passes errors on unchanged.
module PoolLoop {
  import opened Wrappers
  import opened Errors
  import P = Pool
  import opened PoolRuns
  import opened PoolSafety
  import DialLoop
  import DialBounds
  import DialAnswers

  // The error DialContext returns (lines 152-172); `detail` is the resolver's, dialer's or stream's.
  function ErrorOf(out: Outcome, detail: Err): Option<Err> {
    match out
    case Stream(_) => None
    case Stopped => Some(BACKEND_STOPPED)
    case NotResolved => Some(Unready(detail))
    case StoppedInside => Some(Unready(BACKEND_STOPPED))
    case StreamFailed => Some(Unready(detail))
    case StopReturned => None
  }

  // One run of the pool: states it passes through, in order, and when. Any number of moves may lie
  // between one of them and the next.
  datatype Trace = Trace(states: seq<Sys>, times: seq<int>)

  ghost predicate Later(s: Sys, t: Sys) {
    exists acts :: Leads(s, acts, t)
  }

  ghost predicate Leads(s: Sys, acts: seq<Action>, t: Sys) {
    Runs(s, acts) && After(s, acts) == t
  }

  ghost predicate Follows(tr: Trace, j: nat)
    requires j < |tr.states|
  {
    j > 0 ==> Later(tr.states[j - 1], tr.states[j])
  }

  ghost predicate IsRun(tr: Trace) {
    && |tr.states| == |tr.times| > 0 && tr.states[0] == INIT
    && (forall j: nat | j < |tr.states| :: Follows(tr, j))
    && (forall j: nat, k: nat | j <= k < |tr.times| :: tr.times[j] <= tr.times[k])
  }

  // DialContext call p, from the state in which it has just been made to the one in which it has
  // just returned.
  datatype Span = Span(p: Pid, enter: nat, leave: nat)

  ghost predicate Spans(tr: Trace, c: Span) {
    && 0 < c.enter < c.leave < |tr.states|
    && c.p !in tr.states[c.enter - 1].procs
    && c.p in tr.states[c.enter].procs && tr.states[c.enter].procs[c.p] == Entering
    && c.p in tr.states[c.leave - 1].procs && !tr.states[c.leave - 1].procs[c.p].Returned?
    && c.p in tr.states[c.leave].procs && tr.states[c.leave].procs[c.p].Returned?
  }

  ghost function Answer(tr: Trace, c: Span): Outcome
    requires Spans(tr, c)
  {
    tr.states[c.leave].procs[c.p].out
  }

  // Attempt i of e is call c of the run: it starts and ends when the call does, with its answer.
  ghost predicate Attempted(e: DialLoop.Env, i: nat, tr: Trace, c: Span) {
    && Spans(tr, c) && |tr.times| == |tr.states|
    && tr.times[c.enter] == e.StartsAt(i) && tr.times[c.leave] == e.StartsAt(i) + e.attempts(i).dialTime
    && exists detail :: e.attempts(i).dial == ErrorOf(Answer(tr, c), detail)
  }

  ghost predicate Attempts(e: DialLoop.Env, tr: Trace, calls: seq<Span>) {
    forall i: nat | i < |calls| :: Attempted(e, i, tr, calls[i])
  }

  // The attempts of the loop are calls of one run of the pool.
  ghost predicate Plays(e: DialLoop.Env, tr: Trace, calls: seq<Span>) {
    IsRun(tr) && Attempts(e, tr, calls)
  }

  lemma {:induction false} LaterAlong(tr: Trace, i: nat, j: nat)
    requires IsRun(tr) && i <= j < |tr.states|
    ensures Later(tr.states[i], tr.states[j])
  {
    if i == j {
      assert Leads(tr.states[i], [], tr.states[i]);
    } else {
      LaterAlong(tr, i, j - 1);
      assert Follows(tr, j);
      LaterTransitive(tr.states[i], tr.states[j - 1], tr.states[j]);
    }
  }

  lemma LaterTransitive(s: Sys, t: Sys, u: Sys)
    requires Later(s, t) && Later(t, u)
    ensures Later(s, u)
  {
    var a :| Leads(s, a, t);
    var b :| Leads(t, b, u);
    Concat(s, a, b);
    assert Leads(s, a + b, u);
  }

  lemma LaterIsAfter(tr: Trace, a: nat, b: nat)
    requires IsRun(tr) && a < |tr.states| && b < |tr.states| && tr.times[a] < tr.times[b]
    ensures a < b
  {
  }

  // Once Stop has returned, the latch is set for the rest of the run.
  lemma LatchedFrom(tr: Trace, z: nat, j: nat)
    requires IsRun(tr) && z <= j < |tr.states| && tr.states[z].cache.closed
    ensures tr.states[j].cache.closed
  {
    LaterAlong(tr, z, j);
    var acts :| Leads(tr.states[z], acts, tr.states[j]);
    LatchHolds(tr.states[z], acts);
  }

  lemma LatchSeen(tr: Trace, j: nat, p: Pid)
    requires IsRun(tr) && j < |tr.states| && p in tr.states[j].procs && KnowsLatch(tr.states[j].procs[p])
    ensures tr.states[j].cache.closed
  {
    LaterAlong(tr, 0, j);
    var acts :| Leads(INIT, acts, tr.states[j]);
    LatchIsKnown(INIT, acts, p);
  }

  // A dial made after Stop is refused at entry, by a terminal error.
  lemma LateCallIsRefused(tr: Trace, z: nat, c: Span)
    requires IsRun(tr) && Spans(tr, c) && z <= c.enter && tr.states[z].cache.closed
    ensures Answer(tr, c) == Stopped
  {
    LatchedFrom(tr, z, c.enter);
    LaterAlong(tr, c.enter, c.leave);
    var acts :| Leads(tr.states[c.enter], acts, tr.states[c.leave]);
    ClosedRefuses(tr.states[c.enter], acts, c.p);
  }

  lemma LateAttemptIsRefused(e: DialLoop.Env, tr: Trace, calls: seq<Span>, z: nat, i: nat)
    requires Plays(e, tr, calls) && i < |calls| && z <= calls[i].enter && tr.states[z].cache.closed
    ensures e.attempts(i).dial == Some(BACKEND_STOPPED) && !IsRetryable(e.attempts(i).dial)
  {
    assert Attempted(e, i, tr, calls[i]);
    LateCallIsRefused(tr, z, calls[i]);
    StoppedErrorsDiffer();
  }

  // An attempt that meets a terminal error is the last one.
  lemma RefusalEndsLoop(e: DialLoop.Env, k: nat, i: nat)
    requires e.Reaches(k) && i <= k && e.attempts(i).dial == Some(BACKEND_STOPPED)
    ensures i == k && e.LastAttempt(k) && EndsStopped(e, k)
  {
    StoppedErrorsDiffer();
    assert !e.Waits(i);
    if i < k {
      DialLoop.ReachedFailed(e, k, i);
    }
  }

  // The caller gets the "backend stopped" error, plain or under the context's cause.
  ghost predicate EndsStopped(e: DialLoop.Env, k: nat)
    requires !e.Continues(k)
  {
    || e.Verdict(k) == Some(Errorf([BACKEND_STOPPED]))
    || e.Verdict(k) == Some(WaitError(e.Cause(), Some(BACKEND_STOPPED)))
  }

  // Stopping the backend of an in-flight loop: of its attempts at most one starts after Stop has
  // set the latch, and it ends the loop terminally.
  lemma StopEndsLoop(e: DialLoop.Env, tr: Trace, calls: seq<Span>, z: nat, k: nat, i: nat)
    requires Plays(e, tr, calls) && e.Reaches(k) && i <= k < |calls|
    requires z <= calls[i].enter && tr.states[z].cache.closed
    ensures i == k && e.LastAttempt(k) && EndsStopped(e, k)
  {
    LateAttemptIsRefused(e, tr, calls, z, i);
    RefusalEndsLoop(e, k, i);
  }

  // The same by the clock, for a Stop call q seen to have returned.
  lemma StopEndsLoopByTime(e: DialLoop.Env, tr: Trace, calls: seq<Span>, z: nat, q: Pid, k: nat, i: nat)
    requires Plays(e, tr, calls) && e.Reaches(k) && i <= k < |calls|
    requires z < |tr.states| && q in tr.states[z].procs && tr.states[z].procs[q] == Returned(StopReturned)
    requires tr.times[z] < e.StartsAt(i)
    ensures i == k && e.LastAttempt(k) && EndsStopped(e, k)
  {
    assert Attempted(e, i, tr, calls[i]);
    LaterIsAfter(tr, z, calls[i].enter);
    LatchSeen(tr, z, q);
    StopEndsLoop(e, tr, calls, z, k, i);
  }

  // Attempts come one after the other: the next call starts after the last one has returned.
  lemma NextCallIsLater(e: DialLoop.Env, tr: Trace, calls: seq<Span>, i: nat)
    requires Plays(e, tr, calls) && i + 1 < |calls|
    ensures calls[i].leave < calls[i + 1].enter
  {
    assert Attempted(e, i, tr, calls[i]) && Attempted(e, i + 1, tr, calls[i + 1]);
    DialLoop.DrawPositive(i, e.attempts(i).seed);
    assert e.StartsAt(i + 1) == e.EndsAt(i) + e.Delay(i) && e.EndsAt(i) >= e.StartsAt(i) + e.attempts(i).dialTime;
    LaterIsAfter(tr, calls[i].leave, calls[i + 1].enter);
  }

  // The race inside ensureConn: an attempt answered the retryable "stopped" error is followed by at
  // most one other, which ends the loop terminally.
  lemma RaceEndsLoop(e: DialLoop.Env, tr: Trace, calls: seq<Span>, k: nat, i: nat)
    requires Plays(e, tr, calls) && e.Reaches(k) && i < k < |calls|
    requires Spans(tr, calls[i]) && Answer(tr, calls[i]) == StoppedInside
    ensures k == i + 1 && e.LastAttempt(k) && EndsStopped(e, k)
  {
    LatchSeen(tr, calls[i].leave, calls[i].p);
    NextCallIsLater(e, tr, calls, i);
    StopEndsLoop(e, tr, calls, calls[i].leave, k, i + 1);
  }

  // ---- The one further attempt is real ----

  // Stop q has returned, and dial p with the race's answer.
  predicate Overtook(s: Sys, t: Sys, p: Pid, q: Pid) {
    && t.cache.closed && t.procs.Keys == s.procs.Keys + {q}
    && p in t.procs && t.procs[p] == Returned(StoppedInside) && t.procs[q] == Returned(StopReturned)
  }

  // From any point between its entry and its installation, dial p that finds no live cached
  // connection can be overtaken by a Stop q.
  lemma {:induction false} StopOvertakes(s: Sys, p: Pid, q: Pid, c: P.ConnId) returns (acts: seq<Action>)
    requires !s.cache.closed && p in s.procs && q !in s.procs && c !in s.dialed
    requires var pc := s.procs[p]; pc.Entering? || pc.Ensuring? || pc.Resolving? || pc.Dialing?
    ensures Runs(s, acts) && Overtook(s, After(s, acts), p, q)
    decreases MovesLeft(s.procs[p])
  {
    var a := Step(p, !s.procs[p].Ensuring?, c);
    var t := Do(s, a);
    CallsAreShort(s, p, !s.procs[p].Ensuring?, c);
    var rest;
    if s.procs[p].Dialing? {
      rest := StopBeforeInstall(t, p, q);
    } else {
      rest := StopOvertakes(t, p, q, c);
    }
    acts := [a] + rest;
    Unroll(s, a, rest);
  }

  lemma StopBeforeInstall(s: Sys, p: Pid, q: Pid) returns (acts: seq<Action>)
    requires !s.cache.closed && p in s.procs && q !in s.procs && s.procs[p].Installing?
    ensures Runs(s, acts) && Overtook(s, After(s, acts), p, q)
  {
    var t := Do(s, Call(q, true));
    var u := Do(t, Step(q, true, 0));
    var rest := RefusedInside(u, p);
    acts := [Call(q, true)] + ([Step(q, true, 0)] + rest);
    Unroll(t, Step(q, true, 0), rest);
    Unroll(s, Call(q, true), [Step(q, true, 0)] + rest);
  }

  lemma RefusedInside(s: Sys, p: Pid) returns (acts: seq<Action>)
    requires s.cache.closed && p in s.procs && s.procs[p].Installing?
    ensures Runs(s, acts) && After(s, acts).cache.closed
    ensures After(s, acts).procs == s.procs[p := Returned(StoppedInside)]
    ensures forall i | 0 <= i < |acts| :: acts[i].Step?
  {
    var a := Step(p, true, 0);
    var t := Do(s, a);
    acts := [a] + ([a] + []);
    Unroll(t, a, []);
    Unroll(s, a, [a] + []);
  }

  lemma Unroll(s: Sys, a: Action, rest: seq<Action>)
    ensures Runs(s, [a] + rest) <==> Enabled(s, a) && Runs(Do(s, a), rest)
    ensures Runs(s, [a] + rest) ==> After(s, [a] + rest) == After(Do(s, a), rest)
  {
    assert ([a] + rest)[1..] == rest;
  }

  // A loop whose first dial is overtaken by Stop: the first attempt meets the retryable error, and
  // the second, the one further attempt, the terminal one.
  function Overtaken(cause: Err): DialLoop.Env {
    DialLoop.Env(0, DialLoop.Ctx(None, None, false), 60_000_000_000, cause, false, None,
                 (i: nat) => DialLoop.Attempt(Some(if i == 0 then Unready(BACKEND_STOPPED) else BACKEND_STOPPED),
                                              0, None, 0, 0, DialLoop.TimerFires))
  }

  // The pool meanwhile: dial 0 is made and overtaken by Stop 1, then dial 2 is made and refused.
  lemma OvertakenStates() returns (s1: Sys, s2: Sys, s3: Sys, s4: Sys)
    ensures Later(INIT, s1) && Later(s1, s2) && Later(s2, s3) && Later(s3, s4)
    ensures s1.procs == map[0 := Entering] && s2.cache.closed && 2 !in s2.procs
    ensures 0 in s2.procs && s2.procs[0] == Returned(StoppedInside)
    ensures 2 in s3.procs && s3.procs[2] == Entering && 2 in s4.procs && s4.procs[2] == Returned(Stopped)
  {
    s1 := Do(INIT, Call(0, false));
    var acts := StopOvertakes(s1, 0, 1, 7);
    s2 := After(s1, acts);
    s3 := Do(s2, Call(2, false));
    s4 := Do(s3, Step(2, true, 0));
    assert Leads(INIT, [Call(0, false)], s1) && Leads(s1, acts, s2);
    assert Leads(s2, [Call(2, false)], s3) && Leads(s3, [Step(2, true, 0)], s4);
  }

  // The second dial starts at time `next`.
  lemma OvertakenRun(next: nat) returns (tr: Trace, calls: seq<Span>)
    ensures calls == [Span(0, 1, 2), Span(2, 3, 4)] && |tr.states| == 5 && tr.times == [0, 0, 0, next, next]
    ensures IsRun(tr) && Spans(tr, calls[0]) && Spans(tr, calls[1]) && tr.states[2].cache.closed
    ensures Answer(tr, calls[0]) == StoppedInside && Answer(tr, calls[1]) == Stopped
  {
    var s1, s2, s3, s4 := OvertakenStates();
    tr, calls := Trace([INIT, s1, s2, s3, s4], [0, 0, 0, next, next]), [Span(0, 1, 2), Span(2, 3, 4)];
    FiveStates(tr);
  }

  lemma FiveStates(tr: Trace)
    requires |tr.states| == |tr.times| == 5 && tr.states[0] == INIT
    requires tr.times[0] <= tr.times[1] <= tr.times[2] <= tr.times[3] <= tr.times[4]
    requires Later(tr.states[0], tr.states[1]) && Later(tr.states[1], tr.states[2])
    requires Later(tr.states[2], tr.states[3]) && Later(tr.states[3], tr.states[4])
    ensures IsRun(tr)
  {
    assert Follows(tr, 0) && Follows(tr, 1) && Follows(tr, 2) && Follows(tr, 3) && Follows(tr, 4);
  }

  // A dial that entered before Stop can get the retryable "stopped" error of line 199; refused at
  // entry it gets a terminal one.
  lemma RaceAnswersRetryable(detail: Err)
    ensures exists tr, c :: IsRun(tr) && Spans(tr, c) && Answer(tr, c) == StoppedInside
    ensures IsRetryable(ErrorOf(StoppedInside, detail)) && !IsRetryable(ErrorOf(Stopped, detail))
  {
    var tr, calls := OvertakenRun(0);
  }

  lemma OvertakenWaits(cause: Err)
    ensures var e := Overtaken(cause); e.Continues(0) && e.StartsAt(0) == 0 < e.StartsAt(1)
  {
    var e := Overtaken(cause);
    assert e.Failure(0) == Some(Unready(BACKEND_STOPPED)) && e.EndsAt(0) == 0;
    DialBounds.LeastJitter(0);
    DialLoop.DrawPositive(0, 0);
    assert e.ReadyAt(0, DialLoop.RegistryDone).None?;
    assert e.MayWin(0, DialLoop.TimerFires);
  }

  // The latch was set between the two calls.
  ghost predicate StopBetween(tr: Trace, calls: seq<Span>) {
    |calls| == 2 && calls[0].leave <= calls[1].enter < |tr.states| && tr.states[calls[0].leave].cache.closed
  }

  lemma OneFurtherAttempt(cause: Err)
    ensures exists tr, calls :: Plays(Overtaken(cause), tr, calls) && StopBetween(tr, calls)
    ensures Overtaken(cause).Reaches(1) && Overtaken(cause).LastAttempt(1)
  {
    var e := Overtaken(cause);
    OvertakenWaits(cause);
    var tr, calls := OvertakenRun(e.StartsAt(1));
    assert e.attempts(0).dial == ErrorOf(StoppedInside, cause) && e.attempts(1).dial == ErrorOf(Stopped, cause);
    assert Attempted(e, 0, tr, calls[0]) && Attempted(e, 1, tr, calls[1]);
    assert e.Reaches(0);
    StopEndsLoop(e, tr, calls, calls[0].leave, 1, 1);
  }

  // ---- An absent target ----

  // A loop over a pod or service that is not there ends with an error that says so, unless Close
  // ended its wait.
  lemma TargetNotFoundFromLoop(e: DialLoop.Env, k: nat, detail: Err)
    requires e.LastAttempt(k) && e.attempts(k).dial == ErrorOf(NotResolved, detail) && Is(detail, ERR_TARGET_NOT_FOUND)
    ensures e.Verdict(k).Some?
    ensures Is(e.Verdict(k).value, ERR_TARGET_NOT_FOUND) || DialAnswers.ClosedDuringWait(e, k)
  {
    DialAnswers.ClosedVerdictMeansDone(e, k);
    TargetNotFoundReachesCaller(e.Cause(), detail);
  }

  // What each outcome of a dial is to the loop: a stream is a success; everything else but a refusal
  // at entry is retried, with its cause visible.
  lemma OutcomesToLoop(out: Outcome, detail: Err, t: Target)
    requires !out.StopReturned?
    ensures ErrorOf(out, detail).None? <==> out.Stream?
    ensures !out.Stream? ==> (IsRetryable(ErrorOf(out, detail)) <==> !out.Stopped?)
    ensures out.NotResolved? || out.StreamFailed? ==> (Is(ErrorOf(out, detail).value, t) <==> Is(detail, t))
    ensures out.Stopped? || out.StoppedInside? ==>
              (Is(ErrorOf(out, detail).value, t) <==> Is(BACKEND_STOPPED, t))
  {
    StoppedErrorsDiffer();
    assert forall e: Err, k: Err :: k in [e] <==> k == e;
  }
}
