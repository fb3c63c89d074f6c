// Calls of RegistryRuns come to an end: no call waits for ever, and no call moves for ever, whatever
// the others do.
module RegistryLiveness {
  import opened RouteTable
  import opened RegistryRuns
  import opened RegistryTheorems
  import F = RegistryRefinement

  // No call has a move.
  ghost predicate Stuck(s: Sys) {
    forall p, ok, pick :: !Enabled(s, Step(p, ok, pick))
  }

  // Only closeOnce makes a call wait, and the call it waits for always has a move.
  lemma StuckMeansReturned(s: Sys)
    requires Reachable(s) && Stuck(s)
    ensures AllReturned(s)
  {
    forall p | p in s.procs ensures s.procs[p].pc.Returned? {
      if !s.procs[p].pc.Returned? {
        var q, pick := Mover(s, p);
      }
    }
  }

  lemma Mover(s: Sys, p: Pid) returns (q: Pid, pick: Id)
    requires Reachable(s) && p in s.procs && !s.procs[p].pc.Returned?
    ensures Enabled(s, Step(q, true, pick))
  {
    ReachableOk(s);
    q, pick := if s.procs[p].pc.EnteringOnce? && s.once.Running? then s.once.p else p, 0;
    if s.procs[q].pc.StoppingAll? && s.procs[q].pc.rest != {} {
      pick :| pick in s.procs[q].pc.rest;
    }
  }

  // ---- A rank that every move lowers ----

  // Close has yet to take the table, so what it will have to stop is not known.
  predicate Undrained(pc: Pc) {
    pc.EnteringOnce? || pc.Draining?
  }

  ghost function UndrainedCalls(procs: map<Pid, Proc>): set<Pid> {
    set p | p in procs && Undrained(procs[p].pc)
  }

  // The moves a call can still make, at most.
  function Weight(pc: Pc): nat {
    match pc
    case Checking => 10
    case Reserving => 9
    case Wiring => 8
    case Starting => 7
    case Publishing => 6
    case Announcing => 5
    case Probing => 4
    case Removing => 3
    case Withdrawing(_) => 2
    case StoppingTaken(_) => 1
    case StoppingOwn => 1
    case Aborting => 1
    case EnteringOnce => 1
    case Draining => 0
    case ClosingDone(rest) => 2 + |rest|
    case StoppingAll(rest) => 1 + |rest|
    case Returned(_) => 0
  }

  ghost function Work(procs: map<Pid, Proc>): nat {
    if procs == map[] then 0
    else
      var p :| p in procs;
      Weight(procs[p].pc) + Work(procs - {p})
  }

  lemma {:induction false} WorkWithout(procs: map<Pid, Proc>, p: Pid)
    requires p in procs
    ensures Work(procs) == Weight(procs[p].pc) + Work(procs - {p})
    decreases |procs|
  {
    var q :| q in procs && Work(procs) == Weight(procs[q].pc) + Work(procs - {q});
    if q != p {
      WorkWithout(procs - {q}, p);
      WorkWithout(procs - {p}, q);
      assert procs - {q} - {p} == procs - {p} - {q};
    }
  }

  lemma WorkUpdate(procs: map<Pid, Proc>, p: Pid, proc: Proc)
    requires p in procs
    ensures Work(procs[p := proc]) == Work(procs) - Weight(procs[p].pc) + Weight(proc.pc)
  {
    WorkWithout(procs, p);
    WorkWithout(procs[p := proc], p);
    assert procs[p := proc] - {p} == procs - {p};
  }

  lemma NextWeight(s: Sys, p: Pid, ok: bool, pick: Id)
    requires Enabled(s, Step(p, ok, pick))
    ensures var pc, next := s.procs[p].pc, Next(s, p, ok, pick);
            && (Undrained(next) ==> Undrained(pc))
            && (Undrained(next) || !Undrained(pc) ==> Weight(next) < Weight(pc))
  {
    if s.procs[p].pc.StoppingAll? {
      StopWeight(s, p, ok, pick);
    }
  }

  lemma StopWeight(s: Sys, p: Pid, ok: bool, pick: Id)
    requires Enabled(s, Step(p, ok, pick)) && s.procs[p].pc.StoppingAll?
    ensures !Undrained(Next(s, p, ok, pick)) && Weight(Next(s, p, ok, pick)) < Weight(s.procs[p].pc)
  {
  }

  // Lower in rank: fewer calls before Close's section, or as many and less work left.
  ghost predicate Below(t: map<Pid, Proc>, s: map<Pid, Proc>) {
    || |UndrainedCalls(t)| < |UndrainedCalls(s)|
    || (UndrainedCalls(t) == UndrainedCalls(s) && Work(t) < Work(s))
  }

  lemma MoveLowersRank(s: Sys, p: Pid, ok: bool, pick: Id)
    requires Enabled(s, Step(p, ok, pick))
    ensures Below(Move(s, p, ok, pick).procs, s.procs)
  {
    NextWeight(s, p, ok, pick);
    RankLowers(s.procs, p, s.procs[p].(pc := Next(s, p, ok, pick)));
  }

  lemma RankLowers(procs: map<Pid, Proc>, p: Pid, proc: Proc)
    requires p in procs && (Undrained(proc.pc) ==> Undrained(procs[p].pc))
    requires Undrained(proc.pc) || !Undrained(procs[p].pc) ==> Weight(proc.pc) < Weight(procs[p].pc)
    ensures Below(procs[p := proc], procs)
  {
    var s, t := UndrainedCalls(procs), UndrainedCalls(procs[p := proc]);
    if Undrained(procs[p].pc) && !Undrained(proc.pc) {
      assert t == s - {p} && p in s;
    } else {
      assert t == s;
      WorkUpdate(procs, p, proc);
    }
  }

  // ---- Every call can return ----

  ghost predicate OnlyMoves(acts: seq<Action>) {
    forall i | 0 <= i < |acts| :: acts[i].Step?
  }

  // From every reachable state, when no more calls are made, all calls return - by MoveLowersRank in
  // whatever order they move.
  lemma {:induction false} AllReturn(s: Sys) returns (acts: seq<Action>)
    requires Reachable(s)
    ensures OnlyMoves(acts) && Runs(s, acts) && AllReturned(After(s, acts))
    decreases |UndrainedCalls(s.procs)|, Work(s.procs)
  {
    acts := [];
    if p :| p in s.procs && !s.procs[p].pc.Returned? {
      var q, pick := Mover(s, p);
      var a := Step(q, true, pick);
      F.ReachableStep(s, a);
      MoveLowersRank(s, q, true, pick);
      var rest := AllReturn(Do(s, a));
      acts := [a] + rest;
      assert acts[1..] == rest;
    }
  }
}
