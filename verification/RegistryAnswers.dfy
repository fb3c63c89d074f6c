// What each call of RegistryRuns answers, by its arguments, the answers of Start and Ready, and the
// state it meets: the whole state it leaves when nobody comes in between. The state it starts from
// is arbitrary, so other calls may be waiting anywhere in theirs. Unhindered Adds and Removes that
// find what they need are in RegistryTraces.
module RegistryAnswers {
  import opened Wrappers
  import opened RouteTable
  import opened RegistryRuns
  import opened RegistryTraces

  // The call has returned, and done nothing else.
  function Answered(s: Sys, p: Pid, call: Call, out: Outcome): Sys {
    s.(procs := s.procs[p := Proc(call, Key(call), Returned(out))])
  }

  lemma LeadsOne(s: Sys, a: Action, t: Sys)
    requires Enabled(s, a) && Do(s, a) == t
    ensures Leads(s, [a], t)
  {
    LeadsNowhere(t);
    LeadsVia(s, a, [], t);
    assert [a] + [] == [a];
  }

  lemma TwoSteps(p: Pid)
    ensures Steps(p, 1) == [Step(p, true, 0)] && Steps(p, 2) == [Step(p, true, 0)] + [Step(p, true, 0)]
  {
    assert Steps(p, 1) == [Step(p, true, 0)] + Steps(p, 0);
  }

  // ---- Add ----

  lemma InvalidAdd(s: Sys, p: Pid, call: Call)
    requires p !in s.procs && call.Add? && !call.valid
    ensures Leads(s, [Spawn(p, call)] + [Step(p, true, 0)], Answered(s, p, call, Invalid))
  {
    var t, end := Do(s, Spawn(p, call)), Answered(s, p, call, Invalid);
    UpdateTwice(s.procs, p, t.procs[p], end.procs[p]);
    LeadsOne(t, Step(p, true, 0), end);
    LeadsVia(s, Spawn(p, call), [Step(p, true, 0)], end);
  }

  // An accepted Add of a name that is taken, published or merely reserved, or into a closed registry.
  lemma RefusedAdd(s: Sys, p: Pid, call: Call)
    requires p !in s.procs && call.Add? && call.valid && (s.table.closed || ToLower(call.name) in s.table.routes)
    ensures Leads(s, [Spawn(p, call)] + Steps(p, 2),
                  Answered(s.(rewrites := s.rewrites || call.rewrite != ""), p, call,
                           if s.table.closed then ClosedBefore else Exists))
  {
    var t, out := Do(s, Spawn(p, call)), if s.table.closed then ClosedBefore else Exists;
    var end := Answered(s.(rewrites := s.rewrites || call.rewrite != ""), p, call, out);
    RefusedFrom(t, p, out);
    UpdateTwice(s.procs, p, t.procs[p], end.procs[p]);
    LeadsVia(s, Spawn(p, call), Steps(p, 2), end);
  }

  lemma RefusedFrom(s: Sys, p: Pid, out: Outcome)
    requires p in s.procs && s.procs[p].pc.Checking? && s.procs[p].call.Add? && s.procs[p].call.valid
    requires s.table.closed || s.procs[p].key in s.table.routes
    requires out == if s.table.closed then ClosedBefore else Exists
    ensures Leads(s, Steps(p, 2), Go(s.(rewrites := s.rewrites || s.procs[p].call.rewrite != ""), p, Returned(out)))
  {
    var a, t := Step(p, true, 0), Do(s, Step(p, true, 0));
    var end := Go(s.(rewrites := s.rewrites || s.procs[p].call.rewrite != ""), p, Returned(out));
    CheckMove(s, p);
    UpdateTwice(s.procs, p, t.procs[p], end.procs[p]);
    assert Leads(t, [a], end) by {
      RefuseMove(t, p, out);
      LeadsOne(t, a, end);
    }
    LeadsVia(s, a, [a], end);
    TwoSteps(p);
  }

  lemma RefuseMove(s: Sys, p: Pid, out: Outcome)
    requires p in s.procs && s.procs[p].pc.Reserving? && (s.table.closed || s.procs[p].key in s.table.routes)
    requires out == if s.table.closed then ClosedBefore else Exists
    ensures Do(s, Step(p, true, 0)) == Go(s, p, Returned(out))
  {
  }

  // A failed Start gives the reservation back; only the sink stays wired and the flag set.
  lemma StartFails(s: Sys, p: Pid, call: Call)
    requires p !in s.procs && call.Add? && call.valid && !s.table.closed && ToLower(call.name) !in s.table.routes
    ensures Leads(s, [Spawn(p, call)] + (Steps(p, 3) + [Step(p, false, 0), Step(p, true, 0)]),
                  Answered(s.(rewrites := s.rewrites || call.rewrite != "", wired := s.wired + {p}),
                           p, call, StartFailed))
  {
    var t := Do(s, Spawn(p, call));
    var end := Answered(s.(rewrites := s.rewrites || call.rewrite != "", wired := s.wired + {p}), p, call, StartFailed);
    UpdateTwice(s.procs, p, t.procs[p], end.procs[p]);
    StartFailsFrom(t, p);
    LeadsVia(s, Spawn(p, call), Steps(p, 3) + [Step(p, false, 0), Step(p, true, 0)], end);
  }

  // Up to Start the call has reserved its name and wired the sink.
  function Prepared(s: Sys, p: Pid): Sys
    requires p in s.procs && s.procs[p].call.Add?
  {
    Go(s.(table := s.table.(routes := s.table.routes[s.procs[p].key := Reserved]),
          rewrites := s.rewrites || s.procs[p].call.rewrite != "", wired := s.wired + {p}), p, Starting)
  }

  lemma CheckMove(s: Sys, p: Pid)
    requires p in s.procs && s.procs[p].pc.Checking? && s.procs[p].call.Add? && s.procs[p].call.valid
    ensures Do(s, Step(p, true, 0)) == Go(s.(rewrites := s.rewrites || s.procs[p].call.rewrite != ""), p, Reserving)
  {
  }

  lemma ReserveMove(s: Sys, p: Pid)
    requires p in s.procs && s.procs[p].pc.Reserving? && !s.table.closed && s.procs[p].key !in s.table.routes
    ensures Do(s, Step(p, true, 0))
            == Go(s.(table := s.table.(routes := s.table.routes[s.procs[p].key := Reserved])), p, Wiring)
  {
  }

  lemma WireMove(s: Sys, p: Pid)
    requires p in s.procs && s.procs[p].pc.Wiring?
    ensures Do(s, Step(p, true, 0)) == Go(s.(wired := s.wired + {p}), p, Starting)
  {
  }

  lemma Prepares(s: Sys, p: Pid)
    requires p in s.procs && s.procs[p].pc.Checking? && s.procs[p].call.Add? && s.procs[p].call.valid
    requires !s.table.closed && s.procs[p].key !in s.table.routes
    ensures Leads(s, Steps(p, 3), Prepared(s, p))
  {
    var a, end := Step(p, true, 0), Prepared(s, p);
    var t := Go(s.(rewrites := s.rewrites || s.procs[p].call.rewrite != ""), p, Reserving);
    var u := Go(t.(table := s.table.(routes := s.table.routes[s.procs[p].key := Reserved])), p, Wiring);
    CheckMove(s, p);
    UpdateTwice(s.procs, p, t.procs[p], u.procs[p]);
    UpdateTwice(s.procs, p, u.procs[p], end.procs[p]);
    assert Leads(t, Steps(p, 2), end) by {
      ReserveMove(t, p);
      assert Leads(u, Steps(p, 1), end) by {
        WireMove(u, p);
        LeadsOne(u, a, end);
        TwoSteps(p);
      }
      LeadsVia(t, a, Steps(p, 1), end);
    }
    LeadsVia(s, a, Steps(p, 2), end);
  }

  lemma StartFailsFrom(s: Sys, p: Pid)
    requires p in s.procs && s.procs[p].pc.Checking? && s.procs[p].call.Add? && s.procs[p].call.valid
    requires !s.table.closed && s.procs[p].key !in s.table.routes
    ensures Leads(s, Steps(p, 3) + [Step(p, false, 0), Step(p, true, 0)],
                  Go(s.(rewrites := s.rewrites || s.procs[p].call.rewrite != "", wired := s.wired + {p}),
                     p, Returned(StartFailed)))
  {
    var end := Go(s.(rewrites := s.rewrites || s.procs[p].call.rewrite != "", wired := s.wired + {p}),
                  p, Returned(StartFailed));
    var t := Prepared(s, p);
    Prepares(s, p);
    UpdateTwice(s.procs, p, t.procs[p], end.procs[p]);
    assert Delete(t.table, s.procs[p].key).routes == s.table.routes;
    assert Go(t.(table := s.table), p, Returned(StartFailed)) == end;
    Aborts(t, p);
    LeadsThen(s, Steps(p, 3), t, [Step(p, false, 0), Step(p, true, 0)], end);
  }

  lemma Aborts(s: Sys, p: Pid)
    requires p in s.procs && s.procs[p].pc.Starting?
    ensures Leads(s, [Step(p, false, 0), Step(p, true, 0)],
                  Go(s.(table := Delete(s.table, s.procs[p].key)), p, Returned(StartFailed)))
  {
    var t, end := Go(s, p, Aborting), Go(s.(table := Delete(s.table, s.procs[p].key)), p, Returned(StartFailed));
    assert Do(s, Step(p, false, 0)) == t;
    UpdateTwice(s.procs, p, t.procs[p], end.procs[p]);
    LeadsOne(t, Step(p, true, 0), end);
    LeadsVia(s, Step(p, false, 0), [Step(p, true, 0)], end);
  }

  // A registry closed while Start ran: the Add stops its own backend, and nothing is published.
  lemma ClosedUnderAdd(s: Sys, p: Pid)
    requires p in s.procs && s.procs[p].pc.Publishing? && s.procs[p].call.Add? && s.table.closed
    ensures Leads(s, Steps(p, 2),
                  Go(s.(table := Delete(s.table, s.procs[p].key), duty := s.duty[p := Discharged],
                        stops := if s.procs[p].call.stopper then s.stops + multiset{p} else s.stops),
                     p, Returned(ClosedMeanwhile)))
  {
    var a := Step(p, true, 0);
    var t := Go(s.(table := Delete(s.table, s.procs[p].key)), p, StoppingOwn);
    var end := Go(s.(table := Delete(s.table, s.procs[p].key), duty := s.duty[p := Discharged],
                     stops := if s.procs[p].call.stopper then s.stops + multiset{p} else s.stops),
                  p, Returned(ClosedMeanwhile));
    assert Do(s, a) == t;
    UpdateTwice(s.procs, p, t.procs[p], end.procs[p]);
    LeadsOne(t, a, end);
    LeadsVia(s, a, [a], end);
    TwoSteps(p);
  }

  // ---- AddReady ----

  // A passed probe is the end of it: whatever else is going on, the call succeeds and changes
  // nothing.
  lemma PassedProbeSucceeds(s: Sys, p: Pid, pick: Id)
    requires p in s.procs && s.procs[p].pc.Probing?
    ensures Enabled(s, Step(p, true, pick))
    ensures Do(s, Step(p, true, pick)) == s.(procs := s.procs[p := s.procs[p].(pc := Returned(Succeeded))])
  {
  }

  // A failed probe turns to the cleanup, and has changed nothing yet.
  lemma FailedProbeCleansUp(s: Sys, p: Pid, pick: Id)
    requires p in s.procs && s.procs[p].pc.Probing?
    ensures Enabled(s, Step(p, false, pick))
    ensures Do(s, Step(p, false, pick)) == s.(procs := s.procs[p := s.procs[p].(pc := Removing)])
  {
  }

  // The route is visible, the table's to stop, announced once, and nothing was removed or stopped.
  function AddedBy(s: Sys, p: Pid, call: Call): Sys
    requires call.Add?
  {
    Answered(s, p, call, Succeeded)
    .(table := s.table.(routes := s.table.routes[ToLower(call.name) := Published(p)]),
      duty := s.duty[p := InTable], published := s.published + {p}, wired := s.wired + {p},
      events := s.events + multiset{RouteAdded(p)}, rewrites := s.rewrites || call.rewrite != "")
  }

  // A valid Add of a free name, AddReady with a passing probe included.
  lemma SoloAddSucceeds(s: Sys, p: Pid, call: Call)
    requires !s.table.closed && p !in s.procs && call.Add? && call.valid && ToLower(call.name) !in s.table.routes
    ensures Leads(s, [Spawn(p, call)] + Steps(p, if call.ready then 7 else 6), AddedBy(s, p, call))
  {
    var t, end := Added(Do(s, Spawn(p, call)), p), AddedBy(s, p, call);
    AddedState(s, p, call);
    SoloAdd(s, p, call);
    if call.ready {
      UpdateTwice(s.procs, p, t.procs[p], end.procs[p]);
      assert Leads(t, [Step(p, true, 0)], end) by {
        PassedProbeSucceeds(t, p, 0);
        LeadsOne(t, Step(p, true, 0), end);
      }
      LeadsThen(s, [Spawn(p, call)] + Steps(p, 6), t, [Step(p, true, 0)], end);
      StepsMore(p, 6);
      assert [Spawn(p, call)] + Steps(p, 6) + [Step(p, true, 0)] == [Spawn(p, call)] + Steps(p, 7);
    }
  }

  lemma AddedState(s: Sys, p: Pid, call: Call)
    requires p !in s.procs && call.Add?
    ensures var proc := Proc(call, Key(call), if call.ready then Probing else Returned(Succeeded));
            Added(Do(s, Spawn(p, call)), p) == AddedBy(s, p, call).(procs := s.procs[p := proc])
  {
    var t := Do(s, Spawn(p, call));
    UpdateTwice(s.procs, p, t.procs[p], Added(t, p).procs[p]);
  }

  lemma {:induction false} StepsMore(p: Pid, n: nat)
    ensures Steps(p, n) + [Step(p, true, 0)] == Steps(p, n + 1)
  {
    if n > 0 {
      StepsMore(p, n - 1);
      assert Steps(p, n) + [Step(p, true, 0)] == [Step(p, true, 0)] + (Steps(p, n - 1) + [Step(p, true, 0)]);
    }
  }

  // ---- Remove ----

  // Remove of a name that is not published - unknown, or only reserved - answers not found.
  lemma RemoveMissing(s: Sys, p: Pid, name: string)
    requires p !in s.procs && forall id :: !s.table.Shows(ToLower(name), id)
    ensures Leads(s, [Spawn(p, Remove(name))] + [Step(p, true, 0)], Answered(s, p, Remove(name), NotFound))
  {
    var t, end := Do(s, Spawn(p, Remove(name))), Answered(s, p, Remove(name), NotFound);
    NothingPublished(s.table, ToLower(name));
    UpdateTwice(s.procs, p, t.procs[p], end.procs[p]);
    LeadsOne(t, Step(p, true, 0), end);
    LeadsVia(s, Spawn(p, Remove(name)), [Step(p, true, 0)], end);
  }

  lemma NothingPublished(t: Table, key: string)
    requires forall id :: !t.Shows(key, id)
    ensures Take(t, key) == (t, None) && Find(t, key).None?
  {
    assert key in t.routes && t.routes[key].Published? ==> t.Shows(key, t.routes[key].rt);
  }

  // A published one is removed, and its backend stopped.
  function RemovedBy(s: Sys, p: Pid, name: string, id: Id): Sys {
    Answered(s, p, Remove(name), Succeeded)
    .(table := s.table.(routes := s.table.routes - {ToLower(name)}),
      duty := s.duty[id := Discharged], removed := s.removed + {id},
      stops := if Stoppable(s, id) then s.stops + multiset{id} else s.stops,
      events := s.events + multiset{RouteRemoved(id)})
  }

  lemma RemoveSucceeds(s: Sys, p: Pid, name: string, id: Id)
    requires p !in s.procs && s.table.Shows(ToLower(name), id) && id in s.procs && s.procs[id].call.Add?
    ensures Leads(s, [Spawn(p, Remove(name))] + Steps(p, 3), RemovedBy(s, p, name, id))
  {
    var t := Do(s, Spawn(p, Remove(name)));
    SoloRemoveCall(s, p, name, id);
    UpdateTwice(s.procs, p, t.procs[p], Removed(t, p, id).procs[p]);
  }

  // AddReady's cleanup that finds nothing to remove still reports the readiness failure.
  lemma CleanupMissing(s: Sys, p: Pid)
    requires p in s.procs && s.procs[p].pc.Removing? && s.procs[p].call.Add?
    requires forall id :: !s.table.Shows(s.procs[p].key, id)
    ensures Leads(s, [Step(p, true, 0)], Go(s, p, Returned(ReadyFailed)))
  {
    NothingPublished(s.table, s.procs[p].key);
    LeadsOne(s, Step(p, true, 0), Go(s, p, Returned(ReadyFailed)));
  }

  // ---- Close ----

  lemma CloseAgain(s: Sys, p: Pid)
    requires p !in s.procs && s.once.Finished?
    ensures Leads(s, [Spawn(p, Close)] + [Step(p, true, 0)], Answered(s, p, Close, Succeeded))
  {
    var t, end := Do(s, Spawn(p, Close)), Answered(s, p, Close, Succeeded);
    UpdateTwice(s.procs, p, t.procs[p], end.procs[p]);
    LeadsOne(t, Step(p, true, 0), end);
    LeadsVia(s, Spawn(p, Close), [Step(p, true, 0)], end);
  }

  // Nobody gets past closeOnce while another call is inside.
  lemma CloseWaits(s: Sys, p: Pid, ok: bool, pick: Id)
    requires p in s.procs && s.procs[p].pc.EnteringOnce? && s.once.Running?
    ensures !Enabled(s, Step(p, ok, pick))
  {
  }

  // The first Close: it empties and closes the table, closes `done`, and stops what it took.
  ghost predicate ClosedBy(s: Sys, t: Sys, p: Pid) {
    && t.table == Table(map[], true) && t.done && t.once.Finished?
    && t.procs == s.procs[p := Proc(Close, "", Returned(Succeeded))]
    && t.drained == s.drained + s.table.Ids()
    && (forall id :: id in t.duty <==> id in s.duty || id in s.table.Ids())
    && (forall id | id in t.duty :: t.duty[id] == if id in s.table.Ids() then Discharged else s.duty[id])
    && (forall id :: t.stops[id] == s.stops[id] + if id in s.table.Ids() && Stoppable(s, id) then 1 else 0)
    && t.published == s.published && t.removed == s.removed && t.events == s.events
    && t.wired == s.wired && t.rewrites == s.rewrites
  }

  predicate Stoppable(s: Sys, id: Id) {
    id in s.procs && s.procs[id].call.Add? && s.procs[id].call.stopper
  }

  // After its sections, before its loop.
  function DrainedBy(s: Sys, p: Pid): Sys {
    var ids := s.table.Ids();
    s.(table := Table(map[], true), done := true, once := Running(p), drained := s.drained + ids,
       duty := map id | id in s.duty.Keys + ids :: if id in ids then HeldBy(p) else s.duty[id],
       procs := s.procs[p := Proc(Close, "", StoppingAll(ids))])
  }

  lemma CloseDrains(s: Sys, p: Pid)
    requires p !in s.procs && s.once.Fresh?
    ensures Leads(s, [Spawn(p, Close)] + Steps(p, 3), DrainedBy(s, p))
  {
    var a, end := Step(p, true, 0), DrainedBy(s, p);
    var t := Do(s, Spawn(p, Close));
    var u := Go(t.(once := Running(p)), p, Draining);
    var v := end.(done := s.done, procs := s.procs[p := Proc(Close, "", ClosingDone(s.table.Ids()))]);
    UpdateTwice(s.procs, p, t.procs[p], u.procs[p]);
    UpdateTwice(s.procs, p, u.procs[p], v.procs[p]);
    UpdateTwice(s.procs, p, v.procs[p], end.procs[p]);
    assert Leads(t, Steps(p, 3), end) by {
      assert Do(t, a) == u;
      assert Leads(u, Steps(p, 2), end) by {
        DrainMove(u, p);
        assert Leads(v, Steps(p, 1), end) by {
          LeadsOne(v, a, end);
          TwoSteps(p);
        }
        LeadsVia(u, a, Steps(p, 1), end);
      }
      LeadsVia(t, a, Steps(p, 2), end);
    }
    LeadsVia(s, Spawn(p, Close), Steps(p, 3), end);
  }

  lemma DrainMove(s: Sys, p: Pid)
    requires p in s.procs && s.procs[p].pc.Draining?
    ensures var ids := s.table.Ids();
            Do(s, Step(p, true, 0))
            == Go(s.(table := Table(map[], true), drained := s.drained + ids,
                     duty := map id | id in s.duty.Keys + ids :: if id in ids then HeldBy(p) else s.duty[id]),
                  p, ClosingDone(ids))
  {
  }

  lemma FirstClose(s: Sys, p: Pid) returns (acts: seq<Action>, t: Sys)
    requires p !in s.procs && s.once.Fresh? && p !in s.table.Ids()
    ensures Leads(s, acts, t) && ClosedBy(s, t, p)
  {
    var u := DrainedBy(s, p);
    CloseDrains(s, p);
    var rest;
    rest, t := StopsAll(u, p);
    acts := [Spawn(p, Close)] + Steps(p, 3) + rest;
    LeadsThen(s, [Spawn(p, Close)] + Steps(p, 3), u, rest, t);
    DrainedThenStopped(s, u, t, p);
  }

  // What the loop leaves when it has stopped the backends of `rest`.
  ghost predicate StoppedRest(s: Sys, t: Sys, p: Pid, rest: set<Id>) {
    && p in s.procs
    && t == s.(once := Finished, procs := s.procs[p := s.procs[p].(pc := Returned(Succeeded))],
               duty := t.duty, stops := t.stops)
    && (forall id :: id in t.duty <==> id in s.duty || id in rest)
    && (forall id | id in t.duty :: t.duty[id] == if id in rest then Discharged else s.duty[id])
    && (forall id :: t.stops[id] == s.stops[id] + if id in rest && Stoppable(s, id) then 1 else 0)
  }

  lemma DrainedThenStopped(s: Sys, u: Sys, t: Sys, p: Pid)
    requires p !in s.procs && p !in s.table.Ids() && u == DrainedBy(s, p) && StoppedRest(u, t, p, s.table.Ids())
    ensures ClosedBy(s, t, p)
  {
    UpdateTwice(s.procs, p, u.procs[p], t.procs[p]);
    assert forall id | id in s.table.Ids() :: Stoppable(u, id) <==> Stoppable(s, id);
  }

  // Close's loop, from any point of it and in some order.
  lemma {:induction false} StopsAll(s: Sys, p: Pid) returns (acts: seq<Action>, t: Sys)
    requires p in s.procs && s.procs[p].pc.StoppingAll? && p !in s.procs[p].pc.rest
    ensures Leads(s, acts, t) && StoppedRest(s, t, p, s.procs[p].pc.rest)
    decreases s.procs[p].pc.rest
  {
    var rest := s.procs[p].pc.rest;
    if rest == {} {
      acts, t := [Step(p, true, 0)], Go(s.(once := Finished), p, Returned(Succeeded));
      LeadsOne(s, Step(p, true, 0), t);
    } else {
      var pick :| pick in rest;
      var u := StoppedOne(s, p, pick);
      StopOneMove(s, p, pick);
      var more;
      more, t := StopsAll(u, p);
      acts := [Step(p, true, pick)] + more;
      LeadsVia(s, Step(p, true, pick), more, t);
      StoppedMore(s, p, pick, t);
    }
  }

  function StoppedOne(s: Sys, p: Pid, pick: Id): Sys
    requires p in s.procs && s.procs[p].pc.StoppingAll?
  {
    Go(s.(duty := s.duty[pick := Discharged],
          stops := if Stoppable(s, pick) then s.stops + multiset{pick} else s.stops),
       p, StoppingAll(s.procs[p].pc.rest - {pick}))
  }

  lemma StopOneMove(s: Sys, p: Pid, pick: Id)
    requires p in s.procs && s.procs[p].pc.StoppingAll? && pick in s.procs[p].pc.rest
    ensures Enabled(s, Step(p, true, pick)) && Do(s, Step(p, true, pick)) == StoppedOne(s, p, pick)
  {
  }

  lemma StoppedMore(s: Sys, p: Pid, pick: Id, t: Sys)
    requires p in s.procs && s.procs[p].pc.StoppingAll? && pick in s.procs[p].pc.rest && p !in s.procs[p].pc.rest
    requires StoppedRest(StoppedOne(s, p, pick), t, p, s.procs[p].pc.rest - {pick})
    ensures StoppedRest(s, t, p, s.procs[p].pc.rest)
  {
    var u := StoppedOne(s, p, pick);
    UpdateTwice(s.procs, p, u.procs[p], t.procs[p]);
    assert forall id | id in s.procs[p].pc.rest :: Stoppable(u, id) <==> Stoppable(s, id);
  }
}
