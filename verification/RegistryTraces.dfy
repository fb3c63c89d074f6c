// Runs of RegistryRuns written out: calls with nobody in between, and one interleaving that shows
// what AddReady does not promise.
module RegistryTraces {
  import opened RouteTable
  import opened RegistryRuns

  // Call p makes n moves in a row, Start and Ready answering ok.
  function Steps(p: Pid, n: nat): seq<Action> {
    if n == 0 then [] else [Step(p, true, 0)] + Steps(p, n - 1)
  }

  // Running acts from s leads to t.
  ghost predicate Leads(s: Sys, acts: seq<Action>, t: Sys) {
    Runs(s, acts) && After(s, acts) == t
  }

  lemma LeadsNowhere(s: Sys)
    ensures Leads(s, [], s)
  {
  }

  lemma LeadsVia(s: Sys, a: Action, rest: seq<Action>, t: Sys)
    requires Enabled(s, a) && Leads(Do(s, a), rest, t)
    ensures Leads(s, [a] + rest, t)
  {
    assert ([a] + rest)[1..] == rest;
  }

  lemma Head(a: seq<Action>, b: seq<Action>)
    requires a != []
    ensures a + b == [a[0]] + (a[1..] + b)
  {
  }

  lemma {:induction false} LeadsThen(s: Sys, a: seq<Action>, t: Sys, b: seq<Action>, u: Sys)
    requires Leads(s, a, t) && Leads(t, b, u)
    ensures Leads(s, a + b, u)
    decreases |a|
  {
    if a == [] {
      assert a + b == b;
    } else {
      LeadsThen(Do(s, a[0]), a[1..], t, b, u);
      LeadsVia(s, a[0], a[1..] + b, u);
      Head(a, b);
    }
  }

  lemma UpdateTwice<K, V>(m: map<K, V>, k: K, x: V, y: V)
    ensures m[k := x][k := y] == m[k := y]
  {
  }

  // ---- Add ----

  // Moves left for an unhindered Add to publish its route and announce it.
  function MovesLeft(pc: Pc): nat {
    match pc
    case Checking => 6
    case Reserving => 5
    case Wiring => 4
    case Starting => 3
    case Publishing => 2
    case Announcing => 1
    case _ => 0
  }

  // What an Add has done by the time it is at pc.
  predicate OnTrack(s: Sys, p: Pid) {
    && !s.table.closed && p in s.procs && s.procs[p].call.Add? && s.procs[p].call.valid
    && var Proc(call, key, pc) := s.procs[p];
    && MovesLeft(pc) > 0
    && (MovesLeft(pc) >= 5 ==> key !in s.table.routes)
    && (MovesLeft(pc) < 6 && call.rewrite != "" ==> s.rewrites)
    && (MovesLeft(pc) < 4 ==> p in s.wired)
    && (pc.Announcing? ==> s.table.Shows(key, p) && p in s.duty && s.duty[p] == InTable && p in s.published)
  }

  function Ended(call: Call): Pc
    requires call.Add?
  {
    if call.ready then Probing else Returned(Succeeded)
  }

  // The state an unhindered Add leaves: its route is published under its key, its registration is
  // the table's to stop, and it is announced; nothing else changes.
  function Added(s: Sys, p: Pid): Sys
    requires p in s.procs && s.procs[p].call.Add?
  {
    var Proc(call, key, _) := s.procs[p];
    s.(table := s.table.(routes := s.table.routes[key := Published(p)]),
       procs := s.procs[p := Proc(call, key, Ended(call))],
       duty := s.duty[p := InTable],
       published := s.published + {p},
       wired := s.wired + {p},
       events := s.events + multiset{RouteAdded(p)},
       rewrites := s.rewrites || call.rewrite != "")
  }

  lemma {:induction false} UnhinderedAdd(s: Sys, p: Pid)
    requires OnTrack(s, p)
    ensures Leads(s, Steps(p, MovesLeft(s.procs[p].pc)), Added(s, p))
    decreases MovesLeft(s.procs[p].pc)
  {
    var a, n := Step(p, true, 0), MovesLeft(s.procs[p].pc);
    assert Leads(Do(s, a), Steps(p, n - 1), Added(s, p)) by {
      if n == 1 {
        AddAnnounces(s, p);
        LeadsNowhere(Added(s, p));
      } else {
        AddAdvances(s, p);
        UnhinderedAdd(Do(s, a), p);
      }
    }
    LeadsVia(s, a, Steps(p, n - 1), Added(s, p));
  }

  lemma AddAnnounces(s: Sys, p: Pid)
    requires OnTrack(s, p) && s.procs[p].pc.Announcing?
    ensures Do(s, Step(p, true, 0)) == Added(s, p)
  {
    assert s.table.routes[s.procs[p].key := Published(p)] == s.table.routes;
    assert s.duty[p := InTable] == s.duty && s.published + {p} == s.published && s.wired + {p} == s.wired;
  }

  lemma AddAdvances(s: Sys, p: Pid)
    requires OnTrack(s, p) && !s.procs[p].pc.Announcing?
    ensures var t := Do(s, Step(p, true, 0));
            OnTrack(t, p) && MovesLeft(t.procs[p].pc) == MovesLeft(s.procs[p].pc) - 1 && Added(t, p) == Added(s, p)
  {
    AddStaysOnTrack(s, p);
    AddAimsAtSame(s, p);
  }

  lemma AddStaysOnTrack(s: Sys, p: Pid)
    requires OnTrack(s, p) && !s.procs[p].pc.Announcing?
    ensures var t := Do(s, Step(p, true, 0));
            OnTrack(t, p) && MovesLeft(t.procs[p].pc) == MovesLeft(s.procs[p].pc) - 1
  {
  }

  lemma AddAimsAtSame(s: Sys, p: Pid)
    requires OnTrack(s, p) && !s.procs[p].pc.Announcing?
    ensures Added(Do(s, Step(p, true, 0)), p) == Added(s, p)
  {
    var t := Do(s, Step(p, true, 0));
    UpdateTwice(s.procs, p, t.procs[p], Added(s, p).procs[p]);
    AddAdvancesTable(s, p);
    assert t.duty[p := InTable] == s.duty[p := InTable];
    assert t.published + {p} == s.published + {p} && t.wired + {p} == s.wired + {p};
  }

  lemma AddAdvancesTable(s: Sys, p: Pid)
    requires OnTrack(s, p) && !s.procs[p].pc.Announcing?
    ensures var Proc(_, key, pc) := s.procs[p];
            Section(s.table, pc, key, p).routes[key := Published(p)] == s.table.routes[key := Published(p)]
  {
  }

  // A valid Add of a free name with nobody in between publishes and announces its route, and does
  // nothing else.
  lemma SoloAdd(s: Sys, p: Pid, call: Call)
    requires !s.table.closed && p !in s.procs && call.Add? && call.valid && Key(call) !in s.table.routes
    ensures Leads(s, [Spawn(p, call)] + Steps(p, 6), Added(Do(s, Spawn(p, call)), p))
  {
    UnhinderedAdd(Do(s, Spawn(p, call)), p);
    LeadsVia(s, Spawn(p, call), Steps(p, 6), Added(Do(s, Spawn(p, call)), p));
  }

  // ---- Remove ----

  // The state an unhindered removal of route id by call p leaves: the route is gone, its removal is
  // announced, and its backend is stopped; nothing else changes.
  function Removed(s: Sys, p: Pid, id: Id): Sys
    requires p in s.procs && s.table.Shows(s.procs[p].key, id) && id in s.procs && s.procs[id].call.Add?
  {
    var Proc(call, key, _) := s.procs[p];
    s.(table := Delete(s.table, key),
       procs := s.procs[p := Proc(call, key, Returned(if call.Add? then ReadyFailed else Succeeded))],
       duty := s.duty[id := Discharged],
       removed := s.removed + {id},
       stops := if s.procs[id].call.stopper then s.stops + multiset{id} else s.stops,
       events := s.events + multiset{RouteRemoved(id)})
  }

  // The same, one move at a time.
  function Taken(s: Sys, p: Pid, id: Id): Sys
    requires p in s.procs
  {
    Go(s.(table := Delete(s.table, s.procs[p].key), duty := s.duty[id := HeldBy(p)], removed := s.removed + {id}),
       p, Withdrawing(id))
  }

  function Withdrawn(s: Sys, p: Pid, id: Id): Sys
    requires p in s.procs
  {
    Go(s.(events := s.events + multiset{RouteRemoved(id)}), p, StoppingTaken(id))
  }

  function Stopped(s: Sys, p: Pid, id: Id): Sys
    requires p in s.procs && id in s.procs && s.procs[id].call.Add?
  {
    var stops := if s.procs[id].call.stopper then s.stops + multiset{id} else s.stops;
    Go(s.(duty := s.duty[id := Discharged], stops := stops),
       p, Returned(if s.procs[p].call.Add? then ReadyFailed else Succeeded))
  }

  lemma TakeMove(s: Sys, p: Pid, id: Id)
    requires p in s.procs && s.procs[p].pc == Removing && s.table.Shows(s.procs[p].key, id)
    ensures Do(s, Step(p, true, 0)) == Taken(s, p, id)
  {
  }

  lemma WithdrawMove(s: Sys, p: Pid, id: Id)
    requires p in s.procs && s.procs[p].pc == Withdrawing(id)
    ensures Do(s, Step(p, true, 0)) == Withdrawn(s, p, id)
  {
  }

  lemma StopMove(s: Sys, p: Pid, id: Id)
    requires p in s.procs && s.procs[p].pc == StoppingTaken(id) && id in s.procs && s.procs[id].call.Add?
    ensures Do(s, Step(p, true, 0)) == Stopped(s, p, id)
  {
  }

  lemma RemovalEnds(s: Sys, p: Pid, id: Id)
    requires p in s.procs && s.procs[p].pc == Removing
    requires s.table.Shows(s.procs[p].key, id) && id in s.procs && s.procs[id].call.Add?
    ensures Stopped(Withdrawn(Taken(s, p, id), p, id), p, id) == Removed(s, p, id)
  {
    var t := Taken(s, p, id);
    var t' := Withdrawn(t, p, id);
    UpdateTwice(s.duty, id, HeldBy(p), Discharged);
    UpdateTwice(s.procs, p, t.procs[p], t'.procs[p]);
    UpdateTwice(s.procs, p, t'.procs[p], Removed(s, p, id).procs[p]);
  }

  // Remove, or AddReady's cleanup, from its critical section on.
  lemma SoloRemove(s: Sys, p: Pid, id: Id)
    requires p in s.procs && s.procs[p].pc == Removing
    requires s.table.Shows(s.procs[p].key, id) && id in s.procs && s.procs[id].call.Add?
    ensures Leads(s, Steps(p, 3), Removed(s, p, id))
  {
    var a, t, end := Step(p, true, 0), Taken(s, p, id), Removed(s, p, id);
    TakeMove(s, p, id);
    assert Leads(t, Steps(p, 2), end) by {
      var t' := Withdrawn(t, p, id);
      WithdrawMove(t, p, id);
      assert Leads(t', Steps(p, 1), end) by {
        StopMove(t', p, id);
        RemovalEnds(s, p, id);
        LeadsNowhere(end);
        LeadsVia(t', a, [], end);
      }
      LeadsVia(t, a, Steps(p, 1), end);
    }
    LeadsVia(s, a, Steps(p, 2), end);
  }

  lemma SoloRemoveCall(s: Sys, p: Pid, name: string, id: Id)
    requires p !in s.procs && s.table.Shows(ToLower(name), id) && id in s.procs && s.procs[id].call.Add?
    ensures Leads(s, [Spawn(p, Remove(name))] + Steps(p, 3), Removed(Do(s, Spawn(p, Remove(name))), p, id))
  {
    SoloRemove(Do(s, Spawn(p, Remove(name))), p, id);
    LeadsVia(s, Spawn(p, Remove(name)), Steps(p, 3), Removed(Do(s, Spawn(p, Remove(name))), p, id));
  }

  // ---- AddReady ----

  // A failed readiness wait.
  function ProbeFails(s: Sys, p: Pid): Sys
    requires p in s.procs
  {
    Go(s, p, Removing)
  }

  // AddReady's failed probe followed by its cleanup.
  lemma SoloCleanup(s: Sys, p: Pid, id: Id)
    requires p in s.procs && s.procs[p].pc == Probing
    requires s.table.Shows(s.procs[p].key, id) && id in s.procs && s.procs[id].call.Add?
    ensures Leads(s, [Step(p, false, 0)] + Steps(p, 3), Removed(ProbeFails(s, p), p, id))
  {
    var a, t := Step(p, false, 0), ProbeFails(s, p);
    assert Do(s, a) == t;
    SoloRemove(t, p, id);
    LeadsVia(s, a, Steps(p, 3), Removed(t, p, id));
  }

  lemma ReadyFailureState(s: Sys, p: Pid, call: Call)
    requires !s.table.closed && p !in s.procs && call.Add? && call.valid && call.ready && Key(call) !in s.table.routes
    ensures var t := Removed(ProbeFails(Added(Do(s, Spawn(p, call)), p), p), p, p);
            t.table == s.table && t.procs == s.procs[p := Proc(call, Key(call), Returned(ReadyFailed))]
  {
    var t := Added(Do(s, Spawn(p, call)), p);
    assert Delete(t.table, Key(call)).routes == s.table.routes;
  }

  // With no concurrent callers, an AddReady whose readiness wait fails leaves the table as it found
  // it: the name is free for the next Add.
  lemma SoloReadyFailureFreesName(s: Sys, p: Pid, call: Call)
    requires !s.table.closed && p !in s.procs && call.Add? && call.valid && call.ready && Key(call) !in s.table.routes
    ensures var t := Removed(ProbeFails(Added(Do(s, Spawn(p, call)), p), p), p, p);
            && Leads(s, [Spawn(p, call)] + Steps(p, 6) + ([Step(p, false, 0)] + Steps(p, 3)), t)
            && t.table == s.table && t.procs == s.procs[p := Proc(call, Key(call), Returned(ReadyFailed))]
  {
    var t := Added(Do(s, Spawn(p, call)), p);
    assert t.table.Shows(t.procs[p].key, p) && t.procs[p].pc == Probing;
    assert Leads(s, [Spawn(p, call)] + Steps(p, 6) + ([Step(p, false, 0)] + Steps(p, 3)),
                 Removed(ProbeFails(t, p), p, p)) by {
      SoloAdd(s, p, call);
      SoloCleanup(t, p, p);
      LeadsThen(s, [Spawn(p, call)] + Steps(p, 6), t,
                [Step(p, false, 0)] + Steps(p, 3), Removed(ProbeFails(t, p), p, p));
    }
    ReadyFailureState(s, p, call);
  }

  // The state after call q removed route `newest` and call r added the name again.
  function Replaced(s: Sys, q: Pid, r: Pid, newest: Id, again: Call): Sys
    requires q !in s.procs && r !in s.procs && q != r && again.Add?
    requires s.table.Shows(Key(again), newest) && newest in s.procs && s.procs[newest].call.Add?
  {
    Added(Do(Removed(Do(s, Spawn(q, Remove(again.name))), q, newest), Spawn(r, again)), r)
  }

  lemma Replace(s: Sys, q: Pid, r: Pid, newest: Id, again: Call)
    requires !s.table.closed && q !in s.procs && r !in s.procs && q != r && again.Add? && again.valid
    requires s.table.Shows(Key(again), newest) && newest in s.procs && s.procs[newest].call.Add?
    ensures Leads(s, [Spawn(q, Remove(again.name))] + Steps(q, 3) + ([Spawn(r, again)] + Steps(r, 6)),
                  Replaced(s, q, r, newest, again))
  {
    var t := Removed(Do(s, Spawn(q, Remove(again.name))), q, newest);
    SoloRemoveCall(s, q, again.name, newest);
    SoloAdd(t, r, again);
    LeadsThen(s, [Spawn(q, Remove(again.name))] + Steps(q, 3), t,
              [Spawn(r, again)] + Steps(r, 6), Replaced(s, q, r, newest, again));
  }

  // AddReady p has failed, and the route of r, whose Add succeeded, has been removed.
  ghost predicate Lost(t: Sys, p: Pid, r: Pid) {
    && p in t.procs && t.procs[p].pc == Returned(ReadyFailed)
    && r in t.procs && t.procs[r].pc == Returned(Succeeded) && r in t.removed
  }

  lemma ReplacedLoses(s: Sys, p: Pid, q: Pid, r: Pid, again: Call)
    requires p in s.procs && s.procs[p].pc == Probing && s.procs[p].call.Add?
    requires q !in s.procs && r !in s.procs && q != r && again.Add? && !again.ready
    requires Key(again) == s.procs[p].key && s.table.Shows(Key(again), p)
    ensures var t := Replaced(s, q, r, p, again);
            && p in t.procs && t.procs[p] == s.procs[p] && r in t.procs && t.procs[r].call == again
            && t.table.Shows(s.procs[p].key, r) && Lost(Removed(ProbeFails(t, p), p, r), p, r)
  {
  }

  lemma LosingRun(s: Sys, p: Pid, q: Pid, r: Pid, again: Call, t: Sys, u: Sys) returns (acts: seq<Action>)
    requires !s.table.closed && q !in s.procs && r !in s.procs && q != r && again.Add? && again.valid
    requires p in s.procs && s.procs[p].call.Add? && s.table.Shows(Key(again), p) && t == Replaced(s, q, r, p, again)
    requires p in t.procs && t.procs[p].pc == Probing && r in t.procs && t.procs[r].call.Add?
    requires t.table.Shows(t.procs[p].key, r) && u == Removed(ProbeFails(t, p), p, r)
    ensures Leads(s, acts, u)
  {
    var swap := [Spawn(q, Remove(again.name))] + Steps(q, 3) + ([Spawn(r, again)] + Steps(r, 6));
    var cleanup := [Step(p, false, 0)] + Steps(p, 3);
    acts := swap + cleanup;
    Replace(s, q, r, p, again);
    SoloCleanup(t, p, r);
    LeadsThen(s, swap, t, cleanup, u);
  }

  // AddReady's cleanup is by name, and with other calls in between a newer route is lost: whenever
  // AddReady p probes its visible route, a Remove q and an Add r of the same name can come first;
  // then p's probe fails, and its cleanup removes route r, whose Add succeeded.
  lemma CleanupCanLoseNewerRoute(s: Sys, p: Pid, q: Pid, r: Pid, again: Call)
    requires !s.table.closed && p in s.procs && s.procs[p].pc == Probing && s.procs[p].call.Add?
    requires q !in s.procs && r !in s.procs && q != r
    requires again.Add? && again.valid && !again.ready && Key(again) == s.procs[p].key
    requires s.table.Shows(Key(again), p)
    ensures exists acts, t :: Leads(s, acts, t) && Lost(t, p, r)
  {
    var t := Replaced(s, q, r, p, again);
    ReplacedLoses(s, p, q, r, again);
    var acts := LosingRun(s, p, q, r, again, t, Removed(ProbeFails(t, p), p, r));
  }

  // Such a run exists from the empty registry.
  lemma NewerRouteIsLost()
    ensures exists acts, t :: Leads(INIT, acts, t) && Lost(t, 0, 2)
  {
    var first, again := Add("db", true, "", true, true), Add("db", true, "", true, false);
    var s := Added(Do(INIT, Spawn(0, first)), 0);
    SoloAdd(INIT, 0, first);
    CleanupCanLoseNewerRoute(s, 0, 1, 2, again);
    var acts, t :| Leads(s, acts, t) && Lost(t, 0, 2);
    LeadsThen(INIT, [Spawn(0, first)] + Steps(0, 6), s, acts, t);
  }
}
