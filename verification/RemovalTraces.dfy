// A run of RouteRemoval written out: a registry removes a port-forward route under an in-flight
// readiness loop, and the loop makes the one further attempt that RemovalEndsLoop allows.
module RemovalTraces {
  import opened RouteRemoval
  import Errors
  import Pool
  import G = RegistryTraces

  // ---- Runs of the parts are runs of the whole ----

  lemma LaterSelf(s: Sys, id: R.Pid)
    ensures Later(s, s, id)
  {
    assert Leads(s, [], s, id);
  }

  lemma LaterVia(s: Sys, a: Action, t: Sys, id: R.Pid)
    requires Enabled(s, a, id) && Later(Do(s, a, id), t, id)
    ensures Later(s, t, id)
  {
    var rest :| Leads(Do(s, a, id), rest, t, id);
    assert ([a] + rest)[1..] == rest;
    assert Leads(s, [a] + rest, t, id);
  }

  lemma {:induction false} LeadsThen(s: Sys, acts: seq<Action>, t: Sys, u: Sys, id: R.Pid)
    requires Leads(s, acts, t, id) && Later(t, u, id)
    ensures Later(s, u, id)
    decreases |acts|
  {
    if acts != [] {
      LeadsThen(Do(s, acts[0], id), acts[1..], t, u, id);
      LaterVia(s, acts[0], u, id);
    }
  }

  lemma LaterThen(s: Sys, t: Sys, u: Sys, id: R.Pid)
    requires Later(s, t, id) && Later(t, u, id)
    ensures Later(s, u, id)
  {
    var acts :| Leads(s, acts, t, id);
    LeadsThen(s, acts, t, u, id);
  }

  lemma {:induction false} StopsGrow(s: R.Sys, acts: seq<R.Action>, id: R.Pid)
    requires R.Runs(s, acts)
    ensures s.stops[id] <= R.After(s, acts).stops[id]
    decreases |acts|
  {
    if acts != [] {
      StopCounts(s, acts[0], id);
      StopsGrow(R.Do(s, acts[0]), acts[1..], id);
    }
  }

  // Registry moves that do not stop the route's backend leave the pool alone.
  lemma {:induction false} RegistryMoves(s: Sys, acts: seq<R.Action>, t: R.Sys, id: R.Pid)
    requires G.Leads(s.reg, acts, t) && t.stops[id] == s.reg.stops[id]
    ensures Later(s, Sys(t, s.pool), id)
    decreases |acts|
  {
    if acts == [] {
      LaterSelf(s, id);
    } else {
      var r := R.Do(s.reg, acts[0]);
      StopCounts(s.reg, acts[0], id);
      StopsGrow(r, acts[1..], id);
      RegistryMoves(Sys(r, s.pool), acts[1..], t, id);
      LaterVia(s, Reg(acts[0], 0), Sys(t, s.pool), id);
    }
  }

  ghost predicate NoStopCall(acts: seq<P.Action>) {
    forall i | 0 <= i < |acts| :: acts[i].Call? ==> !acts[i].stop
  }

  lemma {:induction false} PoolMoves(s: Sys, acts: seq<P.Action>, t: P.Sys, id: R.Pid)
    requires L.Leads(s.pool, acts, t) && NoStopCall(acts)
    ensures Later(s, s.(pool := t), id)
    decreases |acts|
  {
    if acts == [] {
      LaterSelf(s, id);
    } else {
      var p := P.Do(s.pool, acts[0]);
      assert NoStopCall(acts[1..]) by {
        forall i | 0 <= i < |acts[1..]| ensures acts[1..][i].Call? ==> !acts[1..][i].stop {
          assert acts[1..][i] == acts[i + 1];
        }
      }
      PoolMoves(s.(pool := p), acts[1..], t, id);
      LaterVia(s, Pool(acts[0]), s.(pool := t), id);
    }
  }

  lemma StopMove(s: Sys, a: R.Action, q: P.Pid, id: R.Pid)
    requires R.Enabled(s.reg, a) && CallsStop(s.reg, a, id) && q !in s.pool.procs
    ensures Later(s, Sys(R.Do(s.reg, a), Stopped(s.pool, q)), id)
  {
    var t := Sys(R.Do(s.reg, a), Stopped(s.pool, q));
    LaterSelf(t, id);
    LaterVia(s, Reg(a, q), t, id);
  }

  // ---- The registry's part: Add 0 publishes a route, Remove 1 takes it out ----

  const POD: R.Call := R.Add("pod", true, "", true, false)

  lemma RegistryPart() returns (add: R.Sys, taken: R.Sys, withdrawn: R.Sys)
    ensures exists acts :: G.Leads(R.INIT, acts, add)
    ensures exists acts :: G.Leads(add, acts, taken)
    ensures exists acts :: G.Leads(taken, acts, withdrawn)
    ensures add.stops[0] == 0 == taken.stops[0] == withdrawn.stops[0]
    ensures S.IsStopper(taken, 0) && Removing(taken, 1, 0)
    ensures var stop := R.Step(1, true, 0);
            && R.Enabled(withdrawn, stop) && CallsStop(withdrawn, stop, 0)
            && 1 in R.Do(withdrawn, stop).procs && R.Do(withdrawn, stop).procs[1].pc.Returned?
  {
    add := G.Added(R.Do(R.INIT, R.Spawn(0, POD)), 0);
    G.SoloAdd(R.INIT, 0, POD);
    taken, withdrawn := RemovePart(add);
  }

  lemma RemovePart(s: R.Sys) returns (taken: R.Sys, withdrawn: R.Sys)
    requires 0 in s.procs && s.procs[0].call == POD && 1 !in s.procs && s.table.Shows(R.Key(POD), 0) && s.stops[0] == 0
    ensures exists acts :: G.Leads(s, acts, taken)
    ensures exists acts :: G.Leads(taken, acts, withdrawn)
    ensures 0 == taken.stops[0] == withdrawn.stops[0]
    ensures S.IsStopper(taken, 0) && Removing(taken, 1, 0)
    ensures var stop := R.Step(1, true, 0);
            && R.Enabled(withdrawn, stop) && CallsStop(withdrawn, stop, 0)
            && 1 in R.Do(withdrawn, stop).procs && R.Do(withdrawn, stop).procs[1].pc.Returned?
  {
    var a := R.Step(1, true, 0);
    var called := R.Do(s, R.Spawn(1, R.Remove("pod")));
    taken := G.Taken(called, 1, 0);
    withdrawn := G.Withdrawn(taken, 1, 0);
    G.TakeMove(called, 1, 0);
    G.LeadsNowhere(taken);
    G.LeadsVia(called, a, [], taken);
    G.LeadsVia(s, R.Spawn(1, R.Remove("pod")), [a] + [], taken);
    G.WithdrawMove(taken, 1, 0);
    G.LeadsNowhere(withdrawn);
    G.LeadsVia(taken, a, [], withdrawn);
    G.StopMove(withdrawn, 1, 0);
  }

  // ---- The pool's part: dial 0 gets as far as its installation ----

  lemma {:induction false} DialUp(s: P.Sys, p: P.Pid, c: Pool.ConnId) returns (acts: seq<P.Action>, t: P.Sys)
    requires p in s.procs && c !in s.dialed
    requires var pc := s.procs[p];
             (pc.Entering? && !s.cache.closed) || pc.Ensuring? || pc.Resolving? || pc.Dialing? || pc == P.Installing(c)
    ensures L.Leads(s, acts, t) && t.procs == s.procs[p := P.Installing(c)]
    ensures forall i | 0 <= i < |acts| :: acts[i].Step?
    decreases Q.MovesLeft(s.procs[p])
  {
    if s.procs[p].Installing? {
      acts, t := [], s;
    } else {
      var a := P.Step(p, !s.procs[p].Ensuring?, c);
      Q.CallsAreShort(s, p, !s.procs[p].Ensuring?, c);
      if s.procs[p].Dialing? {
        acts, t := [a], P.Do(s, a);
      } else {
        var rest;
        rest, t := DialUp(P.Do(s, a), p, c);
        acts := [a] + rest;
        L.Unroll(s, a, rest);
      }
    }
  }

  // ---- Together ----

  // After the route is published, dial 0 is made; it is at its installation when Remove takes the
  // route out; Remove stops the pool and returns, and the dial with it; then dial 2 is made.
  lemma RemovalStates() returns (s1: Sys, s2: Sys, s3: Sys, s4: Sys, s5: Sys)
    ensures Later(INIT, s1, 0) && Later(s1, s2, 0) && Later(s2, s3, 0) && Later(s3, s4, 0) && Later(s4, s5, 0)
    ensures s1.pool.procs == map[0 := P.Entering] && s2.pool.procs == map[0 := P.Installing(7)]
    ensures S.IsStopper(s2.reg, 0) && Removing(s2.reg, 1, 0)
    ensures 1 in s3.reg.procs && s3.reg.procs[1].pc.Returned?
    ensures 2 !in s3.pool.procs && 0 in s3.pool.procs && s3.pool.procs[0] == P.Returned(P.StoppedInside)
    ensures 2 in s4.pool.procs && s4.pool.procs[2] == P.Entering
    ensures 2 in s5.pool.procs && s5.pool.procs[2] == P.Returned(P.Stopped)
  {
    var add, taken, withdrawn := RegistryPart();
    s1 := Sys(add, P.Do(P.INIT, P.Call(0, false)));
    DialMade(add);
    s2 := TakenUnder(s1, taken);
    s3 := RefusedUnder(s2, withdrawn);
    s4, s5 := SecondDial(s3);
  }

  lemma DialMade(add: R.Sys)
    requires (exists acts :: G.Leads(R.INIT, acts, add)) && add.stops[0] == 0
    ensures Later(INIT, Sys(add, P.Do(P.INIT, P.Call(0, false))), 0)
  {
    var acts :| G.Leads(R.INIT, acts, add);
    RegistryMoves(INIT, acts, add, 0);
    var call := [P.Call(0, false)];
    PoolMove(P.INIT, P.Call(0, false));
    PoolMoves(Sys(add, P.INIT), call, P.Do(P.INIT, P.Call(0, false)), 0);
    LaterThen(INIT, Sys(add, P.INIT), Sys(add, P.Do(P.INIT, P.Call(0, false))), 0);
  }

  lemma TakenUnder(s: Sys, taken: R.Sys) returns (t: Sys)
    requires s.pool == P.Do(P.INIT, P.Call(0, false))
    requires (exists acts :: G.Leads(s.reg, acts, taken)) && taken.stops[0] == s.reg.stops[0]
    ensures Later(s, t, 0) && t.reg == taken && t.pool.procs == map[0 := P.Installing(7)]
  {
    var acts, pool := DialUp(s.pool, 0, 7);
    PoolMoves(s, acts, pool, 0);
    var moves :| G.Leads(s.reg, moves, taken);
    RegistryMoves(s.(pool := pool), moves, taken, 0);
    t := Sys(taken, pool);
    LaterThen(s, s.(pool := pool), t, 0);
  }

  lemma StoppedUnder(s: Sys, withdrawn: R.Sys) returns (t: Sys)
    requires s.pool.procs == map[0 := P.Installing(7)]
    requires (exists acts :: G.Leads(s.reg, acts, withdrawn)) && withdrawn.stops[0] == s.reg.stops[0]
    requires R.Enabled(withdrawn, R.Step(1, true, 0)) && CallsStop(withdrawn, R.Step(1, true, 0), 0)
    ensures Later(s, t, 0) && t == Sys(R.Do(withdrawn, R.Step(1, true, 0)), Stopped(s.pool, 1))
  {
    var moves :| G.Leads(s.reg, moves, withdrawn);
    RegistryMoves(s, moves, withdrawn, 0);
    var u := Sys(withdrawn, s.pool);
    t := Sys(R.Do(withdrawn, R.Step(1, true, 0)), Stopped(s.pool, 1));
    StopMove(u, R.Step(1, true, 0), 1, 0);
    LaterThen(s, u, t, 0);
  }

  lemma StoppedPool(s: P.Sys)
    requires s.procs == map[0 := P.Installing(7)]
    ensures Stopped(s, 1).cache.closed && Stopped(s, 1).procs == s.procs[1 := P.Returned(P.StopReturned)]
  {
    StopIsRun(s, 1);
  }

  lemma RefusedUnder(s: Sys, withdrawn: R.Sys) returns (t: Sys)
    requires s.pool.procs == map[0 := P.Installing(7)]
    requires (exists acts :: G.Leads(s.reg, acts, withdrawn)) && withdrawn.stops[0] == s.reg.stops[0]
    requires R.Enabled(withdrawn, R.Step(1, true, 0)) && CallsStop(withdrawn, R.Step(1, true, 0), 0)
    ensures Later(s, t, 0) && t.reg == R.Do(withdrawn, R.Step(1, true, 0))
    ensures t.pool.cache.closed && t.pool.procs.Keys == {0, 1} && t.pool.procs[0] == P.Returned(P.StoppedInside)
  {
    var u := StoppedUnder(s, withdrawn);
    StoppedPool(s.pool);
    var acts, pool := DialRefused(u.pool);
    t := u.(pool := pool);
    PoolMoves(u, acts, pool, 0);
    LaterThen(s, u, t, 0);
  }

  lemma DialRefused(s: P.Sys) returns (acts: seq<P.Action>, t: P.Sys)
    requires s.cache.closed && 0 in s.procs && s.procs[0].Installing?
    ensures L.Leads(s, acts, t) && NoStopCall(acts)
    ensures t.cache.closed && t.procs == s.procs[0 := P.Returned(P.StoppedInside)]
  {
    acts := L.RefusedInside(s, 0);
    t := P.After(s, acts);
  }

  lemma SecondDial(s: Sys) returns (t: Sys, u: Sys)
    requires s.pool.cache.closed && 2 !in s.pool.procs
    ensures Later(s, t, 0) && 2 in t.pool.procs && t.pool.procs[2] == P.Entering
    ensures Later(t, u, 0) && 2 in u.pool.procs && u.pool.procs[2] == P.Returned(P.Stopped)
  {
    t := s.(pool := P.Do(s.pool, P.Call(2, false)));
    PoolMove(s.pool, P.Call(2, false));
    PoolMoves(s, [P.Call(2, false)], t.pool, 0);
    u := t.(pool := P.Do(t.pool, P.Step(2, true, 0)));
    PoolMove(t.pool, P.Step(2, true, 0));
    PoolMoves(t, [P.Step(2, true, 0)], u.pool, 0);
  }

  lemma SixStates(tr: Trace, id: R.Pid)
    requires |tr.states| == |tr.times| == 6 && tr.states[0] == INIT
    requires tr.times[0] <= tr.times[1] <= tr.times[2] <= tr.times[3] <= tr.times[4] <= tr.times[5]
    requires Later(tr.states[0], tr.states[1], id) && Later(tr.states[1], tr.states[2], id)
    requires Later(tr.states[2], tr.states[3], id) && Later(tr.states[3], tr.states[4], id)
    requires Later(tr.states[4], tr.states[5], id)
    ensures IsRun(tr, id)
  {
    assert Follows(tr, 0, id) && Follows(tr, 1, id) && Follows(tr, 2, id);
    assert Follows(tr, 3, id) && Follows(tr, 4, id) && Follows(tr, 5, id);
  }

  // The second dial is made at time `next`.
  lemma RemovalRun(next: nat) returns (tr: Trace)
    ensures |tr.states| == 6 && tr.times == [0, 0, 0, 0, next, next] && IsRun(tr, 0)
    ensures S.IsStopper(tr.states[2].reg, 0) && Removing(tr.states[2].reg, 1, 0)
    ensures 1 in tr.states[3].reg.procs && tr.states[3].reg.procs[1].pc.Returned?
    ensures var pools := PoolTrace(tr);
            && L.Spans(pools, FIRST) && L.Answer(pools, FIRST) == P.StoppedInside
            && L.Spans(pools, SECOND) && L.Answer(pools, SECOND) == P.Stopped
  {
    var s1, s2, s3, s4, s5 := RemovalStates();
    tr := Trace([INIT, s1, s2, s3, s4, s5], [0, 0, 0, 0, next, next]);
    assert IsRun(tr, 0) by {
      SixStates(tr, 0);
    }
    TwoSpans(tr);
  }

  const FIRST: L.Span := L.Span(0, 1, 3)
  const SECOND: L.Span := L.Span(2, 4, 5)

  lemma TwoSpans(tr: Trace)
    requires |tr.states| == 6 && tr.states[0] == INIT
    requires tr.states[1].pool.procs == map[0 := P.Entering] && tr.states[2].pool.procs == map[0 := P.Installing(7)]
    requires var s := tr.states[3].pool; 2 !in s.procs && 0 in s.procs && s.procs[0] == P.Returned(P.StoppedInside)
    requires var s := tr.states[4].pool; 2 in s.procs && s.procs[2] == P.Entering
    requires var s := tr.states[5].pool; 2 in s.procs && s.procs[2] == P.Returned(P.Stopped)
    ensures var pools := PoolTrace(tr);
            && L.Spans(pools, FIRST) && L.Answer(pools, FIRST) == P.StoppedInside
            && L.Spans(pools, SECOND) && L.Answer(pools, SECOND) == P.Stopped
  {
  }

  // The bound of RemovalEndsLoop is attained: here the second of the loop's attempts starts after
  // Remove has returned, and it is made.
  lemma OneFurtherAttempt(cause: Errors.Err)
    ensures exists tr :: Attained(L.Overtaken(cause), tr)
  {
    var e := L.Overtaken(cause);
    L.OvertakenWaits(cause);
    var tr := RemovalRun(e.StartsAt(1));
    assert e.attempts(0).dial == L.ErrorOf(P.StoppedInside, cause);
    assert e.attempts(1).dial == L.ErrorOf(P.Stopped, cause);
    assert L.Attempted(e, 0, PoolTrace(tr), FIRST) && L.Attempted(e, 1, PoolTrace(tr), SECOND);
    assert e.Reaches(0);
    assert Attained(e, tr);
  }

  ghost predicate Attained(e: DialLoop.Env, tr: Trace) {
    && IsRun(tr, 0) && |tr.states| == 6
    && S.IsStopper(tr.states[2].reg, 0) && Removing(tr.states[2].reg, 1, 0)
    && 1 in tr.states[3].reg.procs && tr.states[3].reg.procs[1].pc.Returned?
    && L.Attempts(e, PoolTrace(tr), [FIRST, SECOND]) && 3 <= SECOND.enter && e.Reaches(1)
  }
}
