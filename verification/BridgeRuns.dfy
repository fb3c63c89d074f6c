// listenlocal.go under concurrency: ListenLocal calls, accept loops, callers closing their
// listeners, transient Accept errors, and one Registry.Close (later Close calls do nothing).
module BridgeRuns {
  import opened Wrappers
  import opened BridgeSet

  type Pid = nat

  datatype ListenPc =
    | Looking                       // 47-59
    | Binding                       // 60-63
    | Adding(l: Listener)           // 64
    | Rejecting(l: Listener)        // 65-66
    | Launching(l: Listener)        // 68-69
    | Returned(got: Option<Listener>)

  datatype AcceptPc =
    | Accepting                     // 125
    | BackingOff                    // 132-139, after a transient error
    | Leaving                       // 122: the deferred remove
    | Left

  // registry.go:249-256.
  datatype ClosePc =
    | Unclosed
    | Closed                        // r.closed is set
    | Done                          // r.done is closed
    | Closing(rest: seq<Listener>)  // closeAll's loop
    | Finished

  // The set, the kernel's open listeners, the goroutines; `handed` are listeners returned to
  // callers, `dropped` those their callers closed, and `slipped` those whose accept loop left on
  // `done`, still open, before closeAll took the set.
  datatype Sys = Sys(tracked: seq<Listener>, latched: bool, live: set<Listener>, bound: set<Listener>,
                     listens: map<Pid, ListenPc>, accepts: map<Listener, AcceptPc>, closer: ClosePc,
                     handed: set<Listener>, dropped: set<Listener>, slipped: set<Listener>)

  const INIT: Sys := Sys([], false, {}, {}, map[], map[], Unclosed, {}, {}, {})

  datatype Action =
    | Call(p: Pid)
    | Listen(p: Pid, ok: bool, born: Listener)
    | CallerClose(l: Listener)
    | Accept(l: Listener, transient: bool)
    | Wake(l: Listener, timer: bool)
    | Leave(l: Listener)
    | Close

  predicate Enabled(s: Sys, a: Action) {
    match a
    case Call(p) => p !in s.listens
    case Listen(p, ok, born) =>
      p in s.listens && !s.listens[p].Returned? && (s.listens[p].Binding? && ok ==> born !in s.bound)
    case CallerClose(l) => l in s.handed
    case Accept(l, transient) => l in s.accepts && s.accepts[l].Accepting? && (transient ==> l in s.live)
    case Wake(l, timer) => l in s.accepts && s.accepts[l].BackingOff? && (!timer ==> DoneClosed(s))
    case Leave(l) => l in s.accepts && s.accepts[l].Leaving?
    case Close => !s.closer.Finished?
  }

  predicate DoneClosed(s: Sys) {
    s.closer.Done? || s.closer.Closing? || s.closer.Finished?
  }

  function Do(s: Sys, a: Action): Sys
    requires Enabled(s, a)
  {
    match a
    case Call(p) => s.(listens := s.listens[p := Looking])
    case Listen(p, ok, born) => DoListen(s, p, ok, born)
    case CallerClose(l) => s.(live := s.live - {l}, dropped := s.dropped + {l})
    case Accept(l, transient) =>
      if l !in s.live then s.(accepts := s.accepts[l := Leaving])
      else if transient then s.(accepts := s.accepts[l := BackingOff])
      else s
    case Wake(l, timer) => s.(accepts := s.accepts[l := if timer then Accepting else Leaving])
    case Leave(l) =>
      s.(accepts := s.accepts[l := Left], tracked := RemoveFirst(s.tracked, l),
         slipped := if l in s.live && l in s.tracked then s.slipped + {l} else s.slipped)
    case Close => DoClose(s)
  }

  // `ok`: the route exists and can be bridged, or net.Listen succeeded, giving `born`.
  function DoListen(s: Sys, p: Pid, ok: bool, born: Listener): Sys
    requires Enabled(s, Listen(p, ok, born))
  {
    match s.listens[p]
    case Looking => s.(listens := s.listens[p := if ok && s.closer.Unclosed? then Binding else Returned(None)])
    case Binding =>
      if ok then s.(bound := s.bound + {born}, live := s.live + {born}, listens := s.listens[p := Adding(born)])
      else s.(listens := s.listens[p := Returned(None)])
    case Adding(l) =>
      if s.latched then s.(listens := s.listens[p := Rejecting(l)])
      else s.(tracked := s.tracked + [l], listens := s.listens[p := Launching(l)])
    case Rejecting(l) => s.(live := s.live - {l}, listens := s.listens[p := Returned(None)])
    case Launching(l) =>
      s.(accepts := s.accepts[l := Accepting], handed := s.handed + {l}, listens := s.listens[p := Returned(Some(l))])
    case Returned(_) => s
  }

  function DoClose(s: Sys): Sys {
    match s.closer
    case Unclosed => s.(closer := Closed)
    case Closed => s.(closer := Done)
    case Done => s.(tracked := [], latched := true, closer := Closing(s.tracked))
    case Closing(rest) =>
      if rest == [] then s.(closer := Finished)
      else s.(live := s.live - {rest[0]}, closer := Closing(rest[1..]))
    case Finished => s
  }

  predicate Runs(s: Sys, acts: seq<Action>)
    decreases |acts|
  {
    acts == [] || (Enabled(s, acts[0]) && Runs(Do(s, acts[0]), acts[1..]))
  }

  function After(s: Sys, acts: seq<Action>): Sys
    requires Runs(s, acts)
    decreases |acts|
  {
    if acts == [] then s else After(Do(s, acts[0]), acts[1..])
  }
}
