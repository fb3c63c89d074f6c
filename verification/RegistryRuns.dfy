// registry.go under concurrency: any number of Add, AddReady, Remove and Close calls interleave,
// one critical section or one unlocked call at a time.
module RegistryRuns {
  import opened Wrappers
  import opened RouteTable

  type Pid = nat

  // One call and its arguments. `valid` says whether lines 78-92 accept them; `rewrite` is the
  // host rewrite, empty for none; `stopper` whether the backend implements Stopper; `ready` tells
  // AddReady from Add.
  datatype Call =
    | Add(name: string, valid: bool, rewrite: string, stopper: bool, ready: bool)
    | Remove(name: string)
    | Close

  // An Add can find the registry closed in its first section (ClosedBefore) or its second one.
  datatype Outcome =
    | Succeeded
    | Invalid
    | ClosedBefore
    | Exists
    | StartFailed
    | ClosedMeanwhile
    | NotFound
    | ReadyFailed

  // What a call does next.
  datatype Pc =
    | Checking                      // 78-97, ending with the sticky rewrite flag
    | Reserving                     // 99-111
    | Wiring                        // 115-122
    | Starting                      // 124-125, Start runs unlocked
    | Aborting                      // 126-128
    | Publishing                    // 133-141
    | StoppingOwn                   // 137
    | Announcing                    // 142
    | Probing                       // 156, AddReady's readiness wait
    | Removing                      // 177-182, Remove or AddReady's cleanup at 163
    | Withdrawing(taken: Id)        // 186
    | StoppingTaken(taken: Id)      // 187-190
    | EnteringOnce                  // 249
    | Draining                      // 250-254
    | ClosingDone(rest: set<Id>)    // 255, `rest` is the local map of line 252
    | StoppingAll(rest: set<Id>)    // 265-274
    | Returned(out: Outcome)

  // `key` is the local variable of lines 84 and 176.
  datatype Proc = Proc(call: Call, key: string, pc: Pc)

  datatype Once = Fresh | Running(p: Pid) | Finished

  // Who must still stop a registration whose Start succeeded: the table until somebody takes it
  // out, one call, or nobody any more.
  datatype Holder = InTable | HeldBy(p: Pid) | Discharged

  datatype Event = RouteAdded(id: Id) | RouteRemoved(id: Id)

  // The registry's fields, the calls, and the history of the run.
  datatype Sys = Sys(table: Table, done: bool, once: Once, rewrites: bool, procs: map<Pid, Proc>,
                     duty: map<Id, Holder>, published: set<Id>, removed: set<Id>, drained: set<Id>,
                     stops: multiset<Id>, events: multiset<Event>, wired: set<Id>)

  const INIT: Sys := Sys(Table(map[], false), false, Fresh, false, map[], map[], {}, {}, {},
                         multiset{}, multiset{}, {})

  // Spawn starts a call; Step lets one call make its next move, `ok` being the answer of Start or
  // Ready and `pick` the entry that Close's loop visits next.
  datatype Action = Spawn(p: Pid, call: Call) | Step(p: Pid, ok: bool, pick: Id)

  function Key(call: Call): string {
    match call
    case Add(name, _, _, _, _) => ToLower(name)
    case Remove(name) => ToLower(name)
    case Close => ""
  }

  function FirstPc(call: Call): Pc {
    match call
    case Add(_, _, _, _, _) => Checking
    case Remove(_) => Removing
    case Close => EnteringOnce
  }

  predicate Enabled(s: Sys, a: Action) {
    match a
    case Spawn(p, _) => p !in s.procs
    case Step(p, _, pick) =>
      p in s.procs &&
      match s.procs[p].pc
      case Returned(_) => false
      case EnteringOnce => !s.once.Running?
      case StoppingAll(rest) => rest == {} || pick in rest
      case _ => true
  }

  function Go(s: Sys, p: Pid, pc: Pc): Sys
    requires p in s.procs
  {
    s.(procs := s.procs[p := s.procs[p].(pc := pc)])
  }

  function Do(s: Sys, a: Action): Sys
    requires Enabled(s, a)
  {
    match a
    case Spawn(p, call) => s.(procs := s.procs[p := Proc(call, Key(call), FirstPc(call))])
    case Step(p, ok, pick) => Move(s, p, ok, pick)
  }

  function Move(s: Sys, p: Pid, ok: bool, pick: Id): Sys
    requires Enabled(s, Step(p, ok, pick))
  {
    Go(Effect(s, p, ok, pick), p, Next(s, p, ok, pick))
  }

  // What the move does to everything but the call itself, field by field.
  function Effect(s: Sys, p: Pid, ok: bool, pick: Id): (t: Sys)
    requires Enabled(s, Step(p, ok, pick))
    ensures t.procs == s.procs
  {
    var Proc(call, key, pc) := s.procs[p];
    s.(table := Section(s.table, pc, key, p),
       done := s.done || pc.ClosingDone?,
       once := NextOnce(s.once, pc, p),
       rewrites := s.rewrites || (pc.Checking? && call.Add? && call.valid && call.rewrite != ""),
       duty := NextDuty(s, p, ok, pick),
       published := if pc.Publishing? && !s.table.closed then s.published + {p} else s.published,
       removed := if pc.Removing? && Find(s.table, key).Some? then s.removed + {Find(s.table, key).value}
                  else s.removed,
       drained := if pc.Draining? then s.drained + s.table.Ids() else s.drained,
       stops := if StopsNow(s, p, pick).Some? then s.stops + multiset{StopsNow(s, p, pick).value} else s.stops,
       events := if pc.Announcing? then s.events + multiset{RouteAdded(p)}
                 else if pc.Withdrawing? then s.events + multiset{RouteRemoved(pc.taken)} else s.events,
       wired := if pc.Wiring? then s.wired + {p} else s.wired)
  }

  // The critical section of the route map that a call at pc runs, if any.
  function Section(t: Table, pc: Pc, key: string, p: Pid): Table {
    match pc
    case Reserving => Reserve(t, key).0
    case Aborting => Delete(t, key)
    case Publishing => Publish(t, key, p).0
    case Removing => Take(t, key).0
    case Draining => Drain(t)
    case _ => t
  }

  function NextOnce(once: Once, pc: Pc, p: Pid): Once {
    match pc
    case EnteringOnce => if once.Finished? then once else Running(p)
    case StoppingAll(rest) => if rest == {} then Finished else once
    case _ => once
  }

  // The registration whose backend the move stops ...
  function Discharges(pc: Pc, p: Pid, pick: Id): Option<Id> {
    match pc
    case StoppingOwn => Some(p)
    case StoppingTaken(id) => Some(id)
    case StoppingAll(rest) => if rest == {} then None else Some(pick)
    case _ => None
  }

  // ... if that backend has a Stop to call.
  function StopsNow(s: Sys, p: Pid, pick: Id): Option<Id>
    requires p in s.procs
  {
    var id := Discharges(s.procs[p].pc, p, pick);
    if id.Some? && id.value in s.procs && s.procs[id.value].call.Add? && s.procs[id.value].call.stopper then id
    else None
  }

  function NextDuty(s: Sys, p: Pid, ok: bool, pick: Id): map<Id, Holder>
    requires Enabled(s, Step(p, ok, pick))
  {
    var Proc(_, key, pc) := s.procs[p];
    match pc
    case Starting => if ok then s.duty[p := HeldBy(p)] else s.duty
    case Publishing => if s.table.closed then s.duty else s.duty[p := InTable]
    case Removing =>
      var taken := Find(s.table, key);
      if taken.Some? then s.duty[taken.value := HeldBy(p)] else s.duty
    case Draining =>
      var ids := s.table.Ids();
      map id | id in s.duty.Keys + ids :: if id in ids then HeldBy(p) else s.duty[id]
    case _ =>
      var id := Discharges(pc, p, pick);
      if id.Some? then s.duty[id.value := Discharged] else s.duty
  }

  // Where the call goes next.
  function Next(s: Sys, p: Pid, ok: bool, pick: Id): Pc
    requires Enabled(s, Step(p, ok, pick))
  {
    var call, key := s.procs[p].call, s.procs[p].key;
    match s.procs[p].pc
    case Checking => if call.Add? && call.valid then Reserving else Returned(Invalid)
    case Reserving =>
      (match Reserve(s.table, key).1
       case Granted => Wiring
       case RefusedClosed => Returned(ClosedBefore)
       case RefusedExists => Returned(Exists))
    case Wiring => Starting
    case Starting => if ok then Publishing else Aborting
    case Aborting => Returned(StartFailed)
    case Publishing => if Publish(s.table, key, p).1 then Announcing else StoppingOwn
    case StoppingOwn => Returned(ClosedMeanwhile)
    case Announcing => if call.Add? && call.ready then Probing else Returned(Succeeded)
    case Probing => if ok then Returned(Succeeded) else Removing
    case Removing =>
      var taken := Take(s.table, key).1;
      if taken.Some? then Withdrawing(taken.value) else Returned(if call.Add? then ReadyFailed else NotFound)
    case Withdrawing(id) => StoppingTaken(id)
    case StoppingTaken(id) => Returned(if call.Add? then ReadyFailed else Succeeded)
    case EnteringOnce => if s.once.Finished? then Returned(Succeeded) else Draining
    case Draining => ClosingDone(s.table.Ids())
    case ClosingDone(rest) => StoppingAll(rest)
    case StoppingAll(rest) => if rest == {} then Returned(Succeeded) else StoppingAll(rest - {pick})
    case Returned(out) => Returned(out)
  }

  predicate Runs(s: Sys, acts: seq<Action>)
    decreases |acts|
  {
    acts == [] || (Enabled(s, acts[0]) && Runs(Do(s, acts[0]), acts[1..]))
  }

  function After(s: Sys, acts: seq<Action>): Sys
    requires Runs(s, acts)
    decreases |acts|
  {
    if acts == [] then s else After(Do(s, acts[0]), acts[1..])
  }
}
