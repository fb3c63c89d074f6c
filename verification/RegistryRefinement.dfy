// The locked map with nil reservations refines an atomic registry that keeps published routes and
// pending names apart and checks before it writes.
module RegistryRefinement {
  import opened Wrappers
  import opened RouteTable
  import opened RegistryRuns
  import opened RegistrySafety
  import opened RegistryTheorems

  datatype Atomic = Atomic(live: map<string, Id>, pending: set<string>, closed: bool)

  datatype Op =
    | Stutter
    | Begin(key: string)               // a name becomes pending
    | Commit(key: string, id: Id)      // a pending name gets its route
    | Cancel(key: string)              // a pending name is given up
    | Withdraw(key: string, id: Id)    // a live route is taken out
    | CloseAll

  // Every operation states when it may happen; the registry's own second phase does not check.
  ghost predicate Allows(a: Atomic, op: Op, b: Atomic) {
    match op
    case Stutter => b == a
    case Begin(key) =>
      !a.closed && key !in a.live && key !in a.pending && b == a.(pending := a.pending + {key})
    case Commit(key, id) =>
      && !a.closed && key in a.pending && key !in a.live
      && b == Atomic(a.live[key := id], a.pending - {key}, false)
    case Cancel(key) => !a.closed && key in a.pending && b == a.(pending := a.pending - {key})
    case Withdraw(key, id) => key in a.live && a.live[key] == id && b == a.(live := a.live - {key})
    case CloseAll => b == Atomic(map[], {}, true)
  }

  function View(t: Table): Atomic {
    Atomic(map k | k in t.routes && t.routes[k].Published? :: t.routes[k].rt,
           (set k | k in t.routes && t.routes[k].Reserved?), t.closed)
  }

  // Every move runs its section of the table ...
  lemma MoveRunsSection(s: Sys, p: Pid, ok: bool, pick: Id)
    requires Enabled(s, Step(p, ok, pick))
    ensures Move(s, p, ok, pick).table == Section(s.table, s.procs[p].pc, s.procs[p].key, p)
  {
  }

  // ... and the atomic operation it stands for.
  function OpOf(t: Table, pc: Pc, key: string, p: Pid): Op {
    match pc
    case Reserving => if Reserve(t, key).1.Granted? then Begin(key) else Stutter
    case Aborting => if t.closed then Stutter else Cancel(key)
    case Publishing => if t.closed then Stutter else Commit(key, p)
    case Removing => if Find(t, key).Some? then Withdraw(key, Find(t, key).value) else Stutter
    case Draining => CloseAll
    case _ => Stutter
  }

  function ActionOp(s: Sys, a: Action): Op
    requires Enabled(s, a)
  {
    if a.Spawn? then Stutter else OpOf(s.table, s.procs[a.p].pc, s.procs[a.p].key, a.p)
  }

  // Every move of every run is a legal step of the atomic registry.
  lemma ActionRefines(s: Sys, a: Action)
    requires Reachable(s) && Enabled(s, a)
    ensures Allows(View(s.table), ActionOp(s, a), View(Do(s, a).table))
  {
    if a.Step? {
      var p := a.p;
      var key, pc := s.procs[p].key, s.procs[p].pc;
      if pc.Aborting? || pc.Publishing? {
        assert At(s, p, key);
        ReservationIsOwn(s, p, key);
      }
      MoveRunsSection(s, p, a.ok, a.pick);
      SectionRefines(s.table, pc, key, p);
    }
  }

  lemma SectionRefines(t: Table, pc: Pc, key: string, p: Pid)
    requires pc.Aborting? || pc.Publishing? ==>
               if t.closed then t.routes == map[] else key in t.routes && t.routes[key].Reserved?
    ensures Allows(View(t), OpOf(t, pc, key, p), View(Section(t, pc, key, p)))
  {
    match pc
    case Reserving => ReserveRefines(t, key);
    case Aborting => SecondPhaseRefines(t, key, p);
    case Publishing => SecondPhaseRefines(t, key, p);
    case Removing => TakeRefines(t, key);
    case _ =>
  }

  // The reservation alone makes the unchecked write and delete legal.
  lemma SecondPhaseRefines(t: Table, key: string, id: Id)
    requires if t.closed then t.routes == map[] else key in t.routes && t.routes[key].Reserved?
    ensures if t.closed then View(Delete(t, key)) == View(t) && View(Publish(t, key, id).0) == View(t)
            else && Allows(View(t), Cancel(key), View(Delete(t, key)))
                 && Allows(View(t), Commit(key, id), View(Publish(t, key, id).0))
  {
    if !t.closed {
      var a, b, c := View(t), View(Delete(t, key)), View(Publish(t, key, id).0);
      assert b.live == a.live && b.pending == a.pending - {key};
      assert c.live == a.live[key := id] && c.pending == a.pending - {key};
    }
  }

  lemma ReserveRefines(t: Table, key: string)
    ensures var (u, r) := Reserve(t, key); Allows(View(t), if r.Granted? then Begin(key) else Stutter, View(u))
  {
    if Reserve(t, key).1.Granted? {
      var a, b := View(t), View(Reserve(t, key).0);
      assert b.live == a.live && b.pending == a.pending + {key};
    }
  }

  lemma TakeRefines(t: Table, key: string)
    ensures var (u, taken) := Take(t, key);
            Allows(View(t), if taken.Some? then Withdraw(key, taken.value) else Stutter, View(u))
  {
    if Take(t, key).1.Some? {
      var a, b := View(t), View(Take(t, key).0);
      assert b.live == a.live - {key} && b.pending == a.pending;
    }
  }

  // The answers agree as well: an Add is refused for a live or a pending name, and readers look at
  // live routes only.
  lemma AnswersRefine(t: Table, key: string, fallback: bool)
    ensures var a := View(t);
            && (Reserve(t, key).1 == if a.closed then RefusedClosed
                                     else if key in a.live || key in a.pending then RefusedExists else Granted)
            && (Find(t, key) == if key in a.live then Some(a.live[key]) else None)
            && (Dispatch(t, key, fallback) == if a.closed then ClosedRegistry
                                              else if key in a.live then Via(a.live[key])
                                              else if fallback then Fallback else UnknownRoute)
  {
  }

  // The atomic operations of a run, and the atomic registries it passes through.
  function Ops(s: Sys, acts: seq<Action>): seq<Op>
    requires Runs(s, acts)
    decreases |acts|
  {
    if acts == [] then [] else [ActionOp(s, acts[0])] + Ops(Do(s, acts[0]), acts[1..])
  }

  function Views(s: Sys, acts: seq<Action>): seq<Atomic>
    requires Runs(s, acts)
    decreases |acts|
  {
    [View(s.table)] + if acts == [] then [] else Views(Do(s, acts[0]), acts[1..])
  }

  predicate IsOp(s: Sys, a: Action, op: Op) {
    Enabled(s, a) && op == ActionOp(s, a)
  }

  lemma Prefix(acts: seq<Action>, i: nat)
    requires i <= |acts|
    ensures i > 0 ==> acts[..i] != [] && acts[..i][0] == acts[0] && acts[..i][1..] == acts[1..][..i - 1]
  {
  }

  lemma {:induction false} Lengths(s: Sys, acts: seq<Action>)
    requires Runs(s, acts)
    ensures |Ops(s, acts)| == |acts| && |Views(s, acts)| == |acts| + 1
    decreases |acts|
  {
    if acts != [] {
      Lengths(Do(s, acts[0]), acts[1..]);
    }
  }

  // Each view is what the registry's table looks like at that point of the run ...
  lemma {:induction false} ViewsAlong(s: Sys, acts: seq<Action>, i: nat)
    requires Runs(s, acts) && i <= |acts|
    ensures i < |Views(s, acts)| && Runs(s, acts[..i]) && Views(s, acts)[i] == View(After(s, acts[..i]).table)
    decreases |acts|
  {
    if i > 0 {
      ViewsAlong(Do(s, acts[0]), acts[1..], i - 1);
      Prefix(acts, i);
    }
  }

  // ... and each operation is what the move made there stands for.
  lemma {:induction false} OpsAlong(s: Sys, acts: seq<Action>, i: nat)
    requires Runs(s, acts) && i < |acts|
    ensures i < |Ops(s, acts)| && Runs(s, acts[..i]) && IsOp(After(s, acts[..i]), acts[i], Ops(s, acts)[i])
    decreases |acts|
  {
    if i > 0 {
      OpsAlong(Do(s, acts[0]), acts[1..], i - 1);
      Prefix(acts, i);
    }
  }

  ghost predicate AtomicRun(views: seq<Atomic>, ops: seq<Op>) {
    |views| == |ops| + 1 && forall i: nat | i < |ops| :: Allows(views[i], ops[i], views[i + 1])
  }

  // So every run is a run of the atomic registry, operation by operation.
  lemma {:induction false} RunRefines(s: Sys, acts: seq<Action>)
    requires Reachable(s) && Runs(s, acts)
    ensures AtomicRun(Views(s, acts), Ops(s, acts))
    decreases |acts|
  {
    if acts != [] {
      var t, rest := Do(s, acts[0]), acts[1..];
      ActionRefines(s, acts[0]);
      ReachableStep(s, acts[0]);
      RunRefines(t, rest);
      Lengths(t, rest);
      AtomicRunExtends(View(s.table), ActionOp(s, acts[0]), Views(t, rest), Ops(t, rest));
    }
  }

  lemma AtomicRunExtends(a: Atomic, op: Op, views: seq<Atomic>, ops: seq<Op>)
    requires AtomicRun(views, ops) && Allows(a, op, views[0])
    ensures AtomicRun([a] + views, [op] + ops)
  {
    forall i: nat | i < |ops| + 1
      ensures Allows(([a] + views)[i], ([op] + ops)[i], ([a] + views)[i + 1])
    {
      assert i > 0 ==> Allows(views[i - 1], ops[i - 1], views[i - 1 + 1]);
    }
  }

  lemma ReachableStep(s: Sys, a: Action)
    requires Reachable(s) && Enabled(s, a)
    ensures Reachable(Do(s, a))
  {
    var acts :| Runs(INIT, acts) && After(INIT, acts) == s;
    RunThen(INIT, acts, a);
  }

  lemma {:induction false} RunThen(s: Sys, acts: seq<Action>, a: Action)
    requires Runs(s, acts) && Enabled(After(s, acts), a)
    ensures Runs(s, acts + [a]) && After(s, acts + [a]) == Do(After(s, acts), a)
    decreases |acts|
  {
    if acts != [] {
      RunThen(Do(s, acts[0]), acts[1..], a);
      assert (acts + [a])[1..] == acts[1..] + [a];
    } else {
      assert acts + [a] == [a] && [a][1..] == [];
    }
  }
}
