// k8s/portforward.go under concurrency.
//
// Any number of DialContext and Stop calls interleave; connections die, resolution and dialing
// fail, whenever the environment likes.
module PoolRuns {
  import opened Wrappers
  import opened Pool

  type Pid = nat

  datatype Outcome =
    | Stream(c: ConnId)     // 171
    | Stopped               // 156, refused at entry: a plain error
    | NotResolved           // 160-163 from resolve or dial: retryable
    | StoppedInside         // 160-163 from line 199: retryable
    | StreamFailed          // 170: retryable
    | StopReturned

  datatype Pc =
    | Entering                                // 152-158
    | Ensuring                                // 178-184
    | Resolving                               // 186-189
    | Dialing                                 // 190-193
    | Installing(born: ConnId)               // 195-212
    | Discarding(born: ConnId, use: Option<ConnId>)   // 198 and 205: close the loser, then go on
    | Recovering(c: ConnId)                   // 215
    | Streaming(c: ConnId)                    // 164-165
    | Dropping(c: ConnId)                     // 168
    | Complaining                             // 169
    | Stopping                                // 132-147
    | Returned(out: Outcome)

  // Where a connection the dialer returned is.
  datatype Place = InCache | InHand(p: Pid) | Closed

  // `closes` counts close() calls; `place` and `installed` are history.
  datatype Sys = Sys(cache: Cache, procs: map<Pid, Pc>, dialed: set<ConnId>, installed: set<ConnId>,
                     closes: multiset<ConnId>, place: map<ConnId, Place>)

  const INIT: Sys := Sys(Cache(None, false), map[], {}, {}, multiset{}, map[])

  // `ok` is the environment's answer: alive(), resolve, dial or dialStream succeeding. `born` names
  // a connection the dialer returns.
  datatype Action = Call(p: Pid, stop: bool) | Step(p: Pid, ok: bool, born: ConnId)

  predicate Enabled(s: Sys, a: Action) {
    match a
    case Call(p, _) => p !in s.procs
    case Step(p, ok, born) =>
      p in s.procs && !s.procs[p].Returned? && (s.procs[p].Dialing? && ok ==> born !in s.dialed)
  }

  // close() is called on this connection, if any.
  function Close(s: Sys, shut: Option<ConnId>): Sys {
    if shut.None? then s
    else s.(closes := s.closes + multiset{shut.value}, place := s.place[shut.value := Closed])
  }

  function Next(s: Sys, p: Pid, ok: bool, born: ConnId): Pc
    requires Enabled(s, Step(p, ok, born))
  {
    match s.procs[p]
    case Entering => if s.cache.closed then Returned(Stopped) else Ensuring
    case Ensuring =>
      var c := Cached(s.cache, ok);
      if c.Some? then Streaming(c.value) else Resolving
    case Resolving => if ok then Dialing else Returned(NotResolved)
    case Dialing => if ok then Installing(born) else Returned(NotResolved)
    case Installing(c) =>
      (match Install(s.cache, c, ok).1
       case Refused => Discarding(c, None)
       case Kept(existing) => Discarding(c, Some(existing))
       case Placed => Recovering(c))
    case Discarding(_, use) => if use.Some? then Streaming(use.value) else Returned(StoppedInside)
    case Recovering(c) => Streaming(c)
    case Streaming(c) => if ok then Returned(Stream(c)) else Dropping(c)
    case Dropping(_) => Complaining
    case Complaining => Returned(StreamFailed)
    case Stopping => Returned(StopReturned)
    case Returned(out) => Returned(out)
  }

  function Effect(s: Sys, p: Pid, ok: bool, born: ConnId): (t: Sys)
    requires Enabled(s, Step(p, ok, born))
    ensures t.procs == s.procs
  {
    match s.procs[p]
    case Dialing => if ok then s.(dialed := s.dialed + {born}, place := s.place[born := InHand(p)]) else s
    case Installing(c) =>
      var (cache, what, shut) := Install(s.cache, c, ok);
      if what.Placed? then
        var t := Close(s, shut);
        t.(cache := cache, installed := t.installed + {c}, place := t.place[c := InCache])
      else s
    case Discarding(c, _) => Close(s, Some(c))
    case Dropping(c) =>
      var (cache, shut) := Drop(s.cache, c);
      Close(s, shut).(cache := cache)
    case Stopping =>
      var (cache, shut) := Stop(s.cache);
      Close(s, shut).(cache := cache)
    case _ => s
  }

  function Do(s: Sys, a: Action): Sys
    requires Enabled(s, a)
  {
    match a
    case Call(p, stop) => s.(procs := s.procs[p := if stop then Stopping else Entering])
    case Step(p, ok, born) => Effect(s, p, ok, born).(procs := s.procs[p := Next(s, p, ok, born)])
  }

  predicate Runs(s: Sys, acts: seq<Action>)
    decreases |acts|
  {
    acts == [] || (Enabled(s, acts[0]) && Runs(Do(s, acts[0]), acts[1..]))
  }

  function After(s: Sys, acts: seq<Action>): Sys
    requires Runs(s, acts)
    decreases |acts|
  {
    if acts == [] then s else After(Do(s, acts[0]), acts[1..])
  }
}
