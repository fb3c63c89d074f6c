// One port-forward route of a registry, with its pool: RegistryRuns and PoolRuns side by side. The
// registry is the only one to call the backend's Stop, where RegistryRuns calls it; dials of the
// backend, and the environment of its connections, go on at any time.
module RouteRemoval {
  import opened Wrappers
  import DialLoop
  import R = RegistryRuns
  import S = RegistrySafety
  import T = RegistryTheorems
  import F = RegistryRefinement
  import P = PoolRuns
  import Q = PoolSafety
  import L = PoolLoop

  datatype Sys = Sys(reg: R.Sys, pool: P.Sys)

  const INIT: Sys := Sys(R.INIT, P.INIT)

  // A move of the registry - with q naming the pool's Stop call, if it makes one - or of the pool.
  datatype Action = Reg(move: R.Action, q: P.Pid) | Pool(turn: P.Action)

  // The move calls Stop on the backend of registration id.
  predicate CallsStop(s: R.Sys, a: R.Action, id: R.Pid) {
    a.Step? && a.p in s.procs && R.StopsNow(s, a.p, a.pick) == Some(id)
  }

  predicate Enabled(s: Sys, a: Action, id: R.Pid) {
    match a
    case Reg(move, q) => R.Enabled(s.reg, move) && (CallsStop(s.reg, move, id) ==> q !in s.pool.procs)
    case Pool(turn) => P.Enabled(s.pool, turn) && !(turn.Call? && turn.stop)
  }

  // Stop is one critical section of the pool.
  function Stopped(s: P.Sys, q: P.Pid): P.Sys
    requires q !in s.procs
  {
    P.Do(P.Do(s, P.Call(q, true)), P.Step(q, true, 0))
  }

  function Do(s: Sys, a: Action, id: R.Pid): Sys
    requires Enabled(s, a, id)
  {
    match a
    case Reg(move, q) =>
      Sys(R.Do(s.reg, move), if CallsStop(s.reg, move, id) then Stopped(s.pool, q) else s.pool)
    case Pool(turn) => s.(pool := P.Do(s.pool, turn))
  }

  predicate Runs(s: Sys, acts: seq<Action>, id: R.Pid)
    decreases |acts|
  {
    acts == [] || (Enabled(s, acts[0], id) && Runs(Do(s, acts[0], id), acts[1..], id))
  }

  function After(s: Sys, acts: seq<Action>, id: R.Pid): Sys
    requires Runs(s, acts, id)
    decreases |acts|
  {
    if acts == [] then s else After(Do(s, acts[0], id), acts[1..], id)
  }

  // Both parts make runs of their own, and the pool is stopped exactly when the registry's ledger
  // says its backend was.
  ghost predicate Coupled(s: Sys, id: R.Pid) {
    && T.Reachable(s.reg) && Q.Reachable(s.pool)
    && (s.pool.cache.closed <==> s.reg.stops[id] > 0)
  }

  lemma StopCounts(s: R.Sys, a: R.Action, id: R.Pid)
    requires R.Enabled(s, a)
    ensures R.Do(s, a).stops[id] == s.stops[id] + if CallsStop(s, a, id) then 1 else 0
  {
  }

  lemma StopIsRun(s: P.Sys, q: P.Pid)
    requires q !in s.procs
    ensures L.Leads(s, [P.Call(q, true), P.Step(q, true, 0)], Stopped(s, q)) && Stopped(s, q).cache.closed
  {
    L.Unroll(P.Do(s, P.Call(q, true)), P.Step(q, true, 0), []);
    L.Unroll(s, P.Call(q, true), [P.Step(q, true, 0)] + []);
    assert [P.Call(q, true)] + ([P.Step(q, true, 0)] + []) == [P.Call(q, true), P.Step(q, true, 0)];
  }

  lemma PoolMove(s: P.Sys, a: P.Action)
    requires P.Enabled(s, a)
    ensures L.Leads(s, [a], P.Do(s, a))
  {
  }

  // Only a Stop call sets the latch; nothing takes it back.
  lemma OthersLeaveLatch(s: P.Sys, a: P.Action)
    requires P.Enabled(s, a) && !(a.Step? && s.procs[a.p].Stopping?)
    ensures P.Do(s, a).cache.closed == s.cache.closed
  {
  }

  // Every move of the two is a run of the pool.
  lemma PoolFollows(s: Sys, a: Action, id: R.Pid)
    requires Enabled(s, a, id)
    ensures L.Later(s.pool, Do(s, a, id).pool)
  {
    match a
    case Pool(turn) => PoolMove(s.pool, turn);
    case Reg(move, q) =>
      if CallsStop(s.reg, move, id) {
        StopIsRun(s.pool, q);
      } else {
        assert L.Leads(s.pool, [], s.pool);
      }
  }

  // No Stop call of the pool is ever under way between two moves.
  predicate NoneStopping(s: P.Sys) {
    forall p | p in s.procs :: !s.procs[p].Stopping?
  }

  lemma MoveKeepsCoupled(s: Sys, a: Action, id: R.Pid)
    requires Coupled(s, id) && NoneStopping(s.pool) && Enabled(s, a, id)
    ensures Coupled(Do(s, a, id), id) && NoneStopping(Do(s, a, id).pool)
  {
    var t := Do(s, a, id);
    assert Q.Reachable(t.pool) by {
      PoolFollows(s, a, id);
      PoolReachableOn(s.pool, t.pool);
    }
    assert T.Reachable(t.reg) by {
      if a.Reg? {
        F.ReachableStep(s.reg, a.move);
      }
    }
    LatchFollows(s, a, id);
    NoneIsStopping(s, a, id);
  }

  lemma LatchFollows(s: Sys, a: Action, id: R.Pid)
    requires (s.pool.cache.closed <==> s.reg.stops[id] > 0) && NoneStopping(s.pool) && Enabled(s, a, id)
    ensures var t := Do(s, a, id); t.pool.cache.closed <==> t.reg.stops[id] > 0
  {
    if a.Pool? {
      OthersLeaveLatch(s.pool, a.turn);
    } else {
      StopCounts(s.reg, a.move, id);
      if CallsStop(s.reg, a.move, id) {
        StopIsRun(s.pool, a.q);
      }
    }
  }

  lemma NoneIsStopping(s: Sys, a: Action, id: R.Pid)
    requires NoneStopping(s.pool) && Enabled(s, a, id)
    ensures NoneStopping(Do(s, a, id).pool)
  {
    if a.Pool? {
      OthersStopNothing(s.pool, a.turn);
    }
  }

  lemma OthersStopNothing(s: P.Sys, a: P.Action)
    requires NoneStopping(s) && P.Enabled(s, a) && !(a.Call? && a.stop)
    ensures NoneStopping(P.Do(s, a))
  {
  }

  lemma PoolReachableOn(s: P.Sys, t: P.Sys)
    requires Q.Reachable(s) && L.Later(s, t)
    ensures Q.Reachable(t)
  {
    var acts :| L.Leads(s, acts, t);
    Q.ReachableOn(s, acts);
  }

  lemma InitCoupled(id: R.Pid)
    ensures Coupled(INIT, id) && NoneStopping(INIT.pool)
  {
    assert R.Runs(R.INIT, []) && P.Runs(P.INIT, []);
  }

  lemma {:induction false} RunKeepsCoupled(s: Sys, acts: seq<Action>, id: R.Pid)
    requires Coupled(s, id) && NoneStopping(s.pool) && Runs(s, acts, id)
    ensures Coupled(After(s, acts, id), id)
    decreases |acts|
  {
    if acts != [] {
      MoveKeepsCoupled(s, acts[0], id);
      RunKeepsCoupled(Do(s, acts[0], id), acts[1..], id);
    }
  }

  ghost predicate Reachable(s: Sys, id: R.Pid) {
    exists acts :: Runs(INIT, acts, id) && After(INIT, acts, id) == s
  }

  lemma ReachableCoupled(s: Sys, id: R.Pid)
    requires Reachable(s, id)
    ensures Coupled(s, id)
  {
    var acts :| Runs(INIT, acts, id) && After(INIT, acts, id) == s;
    InitCoupled(id);
    RunKeepsCoupled(INIT, acts, id);
  }

  // ---- Theorems ----

  // As long as a route is published its backend accepts dials.
  lemma VisibleAcceptsDials(s: Sys, id: R.Pid)
    requires Reachable(s, id) && S.Visible(s.reg, id)
    ensures !s.pool.cache.closed
  {
    ReachableCoupled(s, id);
    T.VisibleIsRunning(s.reg, id);
  }

  // When Close and every other call, of the registry and of the backend, have returned, each
  // connection ever dialed for a route whose Start succeeded has been closed, once.
  lemma CloseClosesConnections(s: Sys, id: R.Pid)
    requires Reachable(s, id) && id in s.reg.duty && S.IsStopper(s.reg, id)
    requires T.AllReturned(s.reg) && s.reg.once.Finished?
    requires forall p | p in s.pool.procs :: s.pool.procs[p].Returned?
    ensures forall c | c in s.pool.dialed :: s.pool.closes[c] == 1
    ensures s.pool.cache.conn.None?
  {
    ReachableCoupled(s, id);
    T.CloseStopsEverything(s.reg);
    Q.StoppedForGood(s.pool, []);
  }

  // A removal under way: call r has taken route id out of the table and has yet to stop its backend.
  predicate Removing(s: R.Sys, r: R.Pid, id: R.Pid) {
    r in s.procs && (s.procs[r].pc == R.Withdrawing(id) || s.procs[r].pc == R.StoppingTaken(id))
  }

  // From then on, until it is through with that, or somebody else stopped it first.
  predicate RemovingOrStopped(s: Sys, r: R.Pid, id: R.Pid) {
    s.pool.cache.closed || (S.IsStopper(s.reg, id) && Removing(s.reg, r, id))
  }

  lemma RemovalMove(s: R.Sys, a: R.Action, r: R.Pid, id: R.Pid)
    requires S.IsStopper(s, id) && Removing(s, r, id) && R.Enabled(s, a)
    ensures CallsStop(s, a, id) || (S.IsStopper(R.Do(s, a), id) && Removing(R.Do(s, a), r, id))
  {
  }

  lemma MoveKeepsRemoving(s: Sys, a: Action, r: R.Pid, id: R.Pid)
    requires RemovingOrStopped(s, r, id) && Enabled(s, a, id)
    ensures RemovingOrStopped(Do(s, a, id), r, id)
  {
    if s.pool.cache.closed {
      PoolFollows(s, a, id);
      var moves :| L.Leads(s.pool, moves, Do(s, a, id).pool);
      Q.LatchHolds(s.pool, moves);
    } else if a.Reg? {
      RemovalMove(s.reg, a.move, r, id);
      if CallsStop(s.reg, a.move, id) {
        StopIsRun(s.pool, a.q);
      }
    }
  }

  lemma {:induction false} RunKeepsRemoving(s: Sys, acts: seq<Action>, r: R.Pid, id: R.Pid)
    requires RemovingOrStopped(s, r, id) && Runs(s, acts, id)
    ensures RemovingOrStopped(After(s, acts, id), r, id)
    decreases |acts|
  {
    if acts != [] {
      MoveKeepsRemoving(s, acts[0], r, id);
      RunKeepsRemoving(Do(s, acts[0], id), acts[1..], r, id);
    }
  }

  // When a removal that took the route has returned, the route's pool is stopped.
  lemma RemovalStops(s: Sys, acts: seq<Action>, r: R.Pid, id: R.Pid)
    requires S.IsStopper(s.reg, id) && Removing(s.reg, r, id) && Runs(s, acts, id)
    requires var t := After(s, acts, id); r in t.reg.procs && t.reg.procs[r].pc.Returned?
    ensures After(s, acts, id).pool.cache.closed
  {
    RunKeepsRemoving(s, acts, r, id);
  }

  // ---- The loop ----

  // One run of the two, seen at some of its states, and when.
  datatype Trace = Trace(states: seq<Sys>, times: seq<int>)

  ghost predicate Leads(s: Sys, acts: seq<Action>, t: Sys, id: R.Pid) {
    Runs(s, acts, id) && After(s, acts, id) == t
  }

  ghost predicate Later(s: Sys, t: Sys, id: R.Pid) {
    exists acts :: Leads(s, acts, t, id)
  }

  ghost predicate Follows(tr: Trace, j: nat, id: R.Pid)
    requires j < |tr.states|
  {
    j > 0 ==> Later(tr.states[j - 1], tr.states[j], id)
  }

  ghost predicate IsRun(tr: Trace, id: R.Pid) {
    && |tr.states| == |tr.times| > 0 && tr.states[0] == INIT
    && (forall j: nat | j < |tr.states| :: Follows(tr, j, id))
    && (forall j: nat, k: nat | j <= k < |tr.times| :: tr.times[j] <= tr.times[k])
  }

  function PoolTrace(tr: Trace): L.Trace {
    L.Trace(seq(|tr.states|, i requires 0 <= i < |tr.states| => tr.states[i].pool), tr.times)
  }

  lemma {:induction false} PoolLeads(s: Sys, acts: seq<Action>, id: R.Pid)
    requires Runs(s, acts, id)
    ensures L.Later(s.pool, After(s, acts, id).pool)
    decreases |acts|
  {
    if acts == [] {
      assert L.Leads(s.pool, [], s.pool);
    } else {
      var t := Do(s, acts[0], id);
      PoolFollows(s, acts[0], id);
      PoolLeads(t, acts[1..], id);
      L.LaterTransitive(s.pool, t.pool, After(s, acts, id).pool);
    }
  }

  lemma PoolTraceRuns(tr: Trace, id: R.Pid)
    requires IsRun(tr, id)
    ensures L.IsRun(PoolTrace(tr))
  {
    var pools := PoolTrace(tr);
    forall j: nat | j < |pools.states| ensures L.Follows(pools, j) {
      if j > 0 {
        assert Follows(tr, j, id);
        var acts :| Leads(tr.states[j - 1], acts, tr.states[j], id);
        PoolLeads(tr.states[j - 1], acts, id);
      }
    }
  }

  lemma {:induction false} RemovingAlong(tr: Trace, y: nat, z: nat, r: R.Pid, id: R.Pid)
    requires IsRun(tr, id) && y <= z < |tr.states| && RemovingOrStopped(tr.states[y], r, id)
    ensures RemovingOrStopped(tr.states[z], r, id)
  {
    if y < z {
      RemovingAlong(tr, y, z - 1, r, id);
      assert Follows(tr, z, id);
      var acts :| Leads(tr.states[z - 1], acts, tr.states[z], id);
      RunKeepsRemoving(tr.states[z - 1], acts, r, id);
    }
  }

  // Removing a port-forward route ends its in-flight dials: once call r, which took route id, has
  // returned, at most one attempt of a readiness loop on it starts, and it ends the loop terminally.
  lemma RemovalEndsLoop(e: DialLoop.Env, tr: Trace, calls: seq<L.Span>, r: R.Pid, id: R.Pid, y: nat, z: nat,
                        k: nat, i: nat)
    requires IsRun(tr, id) && y <= z < |tr.states|
    requires S.IsStopper(tr.states[y].reg, id) && Removing(tr.states[y].reg, r, id)
    requires r in tr.states[z].reg.procs && tr.states[z].reg.procs[r].pc.Returned?
    requires L.Attempts(e, PoolTrace(tr), calls) && e.Reaches(k) && i <= k < |calls| && z <= calls[i].enter
    ensures i == k && e.LastAttempt(k) && L.EndsStopped(e, k)
  {
    RemovingAlong(tr, y, z, r, id);
    PoolTraceRuns(tr, id);
    L.StopEndsLoop(e, PoolTrace(tr), calls, z, k, i);
  }
}
