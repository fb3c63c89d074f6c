// What holds in every interleaving of Add, AddReady, Remove and Close.
module RegistryTheorems {
  import opened Wrappers
  import opened RouteTable
  import opened RegistryRuns
  import opened RegistrySafety
  import opened RegistryLedger

  ghost predicate Reachable(s: Sys) {
    exists acts :: Runs(INIT, acts) && After(INIT, acts) == s
  }

  lemma ReachableOk(s: Sys)
    requires Reachable(s)
    ensures Inv(s)
  {
    var acts :| Runs(INIT, acts) && After(INIT, acts) == s;
    InitOk();
    RunKeeps(INIT, acts);
  }

  // The Stop duty of a registration that passed Start belongs to exactly one of the table, one
  // call, or nobody any more; only in the last case has Stop been called, once, and only then.
  lemma OneHolder(s: Sys, id: Id)
    requires Reachable(s) && id in s.duty
    ensures Visible(s, id) || (exists p :: Carries(s, p, id)) || s.duty[id] == Discharged
    ensures Visible(s, id) ==> forall p :: !Carries(s, p, id)
    ensures forall p, q :: Carries(s, p, id) && Carries(s, q, id) ==> p == q
    ensures s.stops[id] == if !Visible(s, id) && (forall p :: !Carries(s, p, id)) && IsStopper(s, id) then 1 else 0
  {
    ReachableOk(s);
    match s.duty[id]
    case InTable => assert Visible(s, id);
    case HeldBy(p) => assert Carries(s, p, id);
    case Discharged =>
  }

  // A visible route is never a stopped one, and Stop is never called for a Start that failed.
  lemma VisibleIsRunning(s: Sys, id: Id)
    requires Reachable(s)
    ensures Visible(s, id) ==> id in s.duty && s.stops[id] == 0
    ensures id !in s.duty ==> s.stops[id] == 0
    ensures s.stops[id] <= 1
  {
    ReachableOk(s);
  }

  ghost predicate AllReturned(s: Sys) {
    forall p | p in s.procs :: s.procs[p].pc.Returned?
  }

  // When every call has returned, one of them a first Close, each Stopper that was started has been
  // stopped exactly once, and the table is empty.
  lemma CloseStopsEverything(s: Sys)
    requires Reachable(s) && AllReturned(s) && s.once.Finished?
    ensures s.table == Table(map[], true) && s.done
    ensures forall id | id in s.duty :: s.stops[id] == if IsStopper(s, id) then 1 else 0
    ensures forall id :: id in s.published ==> id in s.removed || id in s.drained
  {
    ReachableOk(s);
    forall id | id in s.duty
      ensures s.stops[id] == if IsStopper(s, id) then 1 else 0
    {
      OneHolder(s, id);
      assert forall p :: !Carries(s, p, id);
    }
  }

  // publishes = live + removed + drained, at every moment; and when every call has returned, the
  // events say the same, however they were ordered.
  lemma LedgerBalances(s: Sys)
    requires Reachable(s)
    ensures |s.published| == |s.table.Ids()| + |s.removed| + |s.drained|
    ensures AllReturned(s) ==> forall id: Id ::
              s.events[RouteAdded(id)] == (if id in s.published then 1 else 0) &&
              s.events[RouteRemoved(id)] == (if id in s.removed then 1 else 0)
  {
    ReachableOk(s);
    IdsAreVisible(s);
    assert s.published == s.table.Ids() + s.removed + s.drained;
    assert s.table.Ids() !! s.removed && (s.table.Ids() + s.removed) !! s.drained;
  }

  // At most one Add per lowercased key is between its critical sections of an open registry, and
  // the reservation its second section writes or deletes without looking is still there, its own.
  // Once closed there is nothing left to hit. Reservations do not outlive their Adds.
  lemma ReservationIsOwn(s: Sys, p: Pid, key: string)
    requires Reachable(s) && At(s, p, key)
    ensures if s.table.closed then s.table.routes == map[] else
              && key in s.table.routes && s.table.routes[key].Reserved?
              && forall q :: At(s, q, key) ==> q == p
  {
    ReachableOk(s);
  }

  lemma NoReservationLeaks(s: Sys)
    requires Reachable(s) && AllReturned(s)
    ensures forall k | k in s.table.routes :: s.table.routes[k].Published?
  {
    ReachableOk(s);
    assert forall p, k :: !At(s, p, k);
  }

  // What readers see is a published route under its own key whose backend has not been stopped.
  lemma ReadersSeePublishedOnly(s: Sys, key: string, fallback: bool)
    requires Reachable(s)
    ensures forall id: Id :: Find(s.table, key) == Some(id) ==>
              Visible(s, id) && s.procs[id].key == key && s.stops[id] == 0
    ensures forall id: Id :: Dispatch(s.table, key, fallback) == Via(id) <==> Find(s.table, key) == Some(id)
    ensures s.table.closed ==> Find(s.table, key).None? && Dispatch(s.table, key, fallback) == ClosedRegistry
  {
    ReachableOk(s);
  }

  // After Close's critical section no route is ever visible again.
  lemma {:induction false} ClosedForGood(s: Sys, acts: seq<Action>, key: string)
    requires Reachable(s) && s.table.closed && Runs(s, acts)
    ensures After(s, acts).table == Table(map[], true)
    ensures Find(After(s, acts).table, key).None?
  {
    ReachableOk(s);
    LedgerGrowsAlong(s, acts);
    RunKeeps(s, acts);
  }

  lemma {:induction false} LedgerGrowsAlong(s: Sys, acts: seq<Action>)
    requires Runs(s, acts)
    ensures var t := After(s, acts);
            s.removed <= t.removed && s.drained <= t.drained && (s.table.closed ==> t.table.closed)
    decreases |acts|
  {
    if acts != [] {
      LedgerGrows(s, acts[0]);
      LedgerGrowsAlong(Do(s, acts[0]), acts[1..]);
    }
  }

  // Each route object is published at most once ...
  lemma PublishedOnce(s: Sys, p: Pid, ok: bool, pick: Id)
    requires Reachable(s) && Enabled(s, Step(p, ok, pick)) && s.procs[p].pc.Publishing?
    ensures p !in s.published
    ensures forall id :: Visible(Move(s, p, ok, pick), id) && !Visible(s, id) ==> id == p
  {
    ReachableOk(s);
    assert Local(s.procs[p], p in s.published, p in s.wired, s.rewrites);
    MoveFrame(s, p, ok, pick);
  }

  // ... so when AddReady reports a readiness failure its own route object was published and is
  // unpublished for ever, whatever else runs.
  lemma ReadyFailureUnpublishes(s: Sys, p: Pid, acts: seq<Action>)
    requires Reachable(s) && p in s.procs && s.procs[p].pc == Returned(ReadyFailed) && s.procs[p].call.Add?
    requires Runs(s, acts)
    ensures p in s.published && !Visible(After(s, acts), p)
  {
    ReachableOk(s);
    assert Local(s.procs[p], p in s.published, p in s.wired, s.rewrites);
    LedgerGrowsAlong(s, acts);
    RunKeeps(s, acts);
  }

  // Its cleanup is by name: it takes whatever is published under the key, its own route exactly
  // when that one is still visible, and otherwise a newer one.
  lemma CleanupIsByName(s: Sys, p: Pid, ok: bool, pick: Id)
    requires Reachable(s) && Enabled(s, Step(p, ok, pick)) && s.procs[p].pc.Removing? && s.procs[p].call.Add?
    ensures var t := Move(s, p, ok, pick);
            && (t.procs[p].pc == Withdrawing(p) <==> Visible(s, p))
            && (forall id | id != p ::
                  t.procs[p].pc == Withdrawing(id) <==> Visible(s, id) && s.procs[id].key == s.procs[p].key)
            && (t.procs[p].pc == Returned(ReadyFailed) <==> Find(s.table, s.procs[p].key).None?)
  {
    ReachableOk(s);
  }

  lemma LocalOf(s: Sys, p: Pid)
    requires Reachable(s) && p in s.procs
    ensures Local(s.procs[p], p in s.published, p in s.wired, s.rewrites)
  {
    ReachableOk(s);
  }

  // A visible route is that of an Add, under its lowercased name.
  lemma VisibleIsAdd(s: Sys, id: Id)
    requires Reachable(s) && Visible(s, id)
    ensures s.procs[id].call.Add? && s.procs[id].key == ToLower(s.procs[id].call.name)
  {
    ReachableOk(s);
    LocalOf(s, id);
  }

  lemma VisibleIsStarted(s: Sys, id: Id)
    requires Reachable(s) && Visible(s, id)
    ensures !Unstarted(s.procs[id].pc) && s.procs[id].pc != Returned(Invalid)
  {
    ReachableOk(s);
    LocalOf(s, id);
    assert id in s.published;
  }

  // An Add whose arguments are rejected, whose name exists, or that finds the registry closed before
  // it reserves, never wires its backend's sink.
  lemma RejectedAddNeverWired(s: Sys, p: Pid)
    requires Reachable(s) && p in s.procs && s.procs[p].call.Add?
    requires var pc := s.procs[p].pc; pc == Returned(Invalid) || pc == Returned(ClosedBefore) || pc == Returned(Exists)
    ensures p !in s.wired && p !in s.published
  {
    LocalOf(s, p);
  }

  // A visible route that declares a host rewrite has already set the sticky flag.
  lemma RewriteImpliesFlag(s: Sys, id: Id)
    requires Reachable(s) && Visible(s, id) && s.procs[id].call.Add? && s.procs[id].call.rewrite != ""
    ensures s.rewrites
  {
    LocalOf(s, id);
    VisibleIsStarted(s, id);
  }
}
