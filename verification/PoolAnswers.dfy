// What one DialContext call of PoolRuns answers, by the state of the pool and what its environment
// does, when nobody comes in between: its outcome, the cache it leaves, and the connections it closes.
module PoolAnswers {
  import opened Wrappers
  import opened Pool
  import opened PoolRuns
  import opened PoolSafety

  // alive() at lines 179 and 202, whether resolve, dial and dialStream succeed, and the connection
  // dial returns.
  datatype World = World(alive: bool, resolves: bool, dials: bool, born: ConnId, aliveLater: bool, streams: bool)

  function Answer(pc: Pc, w: World): bool {
    match pc
    case Ensuring => w.alive
    case Resolving => w.resolves
    case Dialing => w.dials
    case Installing(_) => w.aliveLater
    case Streaming(_) => w.streams
    case _ => true
  }

  // The call, moving alone until it has returned.
  function Alone(s: Sys, p: Pid, w: World): Sys
    requires p in s.procs && (MovesLeft(s.procs[p]) >= 6 ==> w.born !in s.dialed)
    decreases MovesLeft(s.procs[p])
  {
    if s.procs[p].Returned? then s
    else
      NextIsShort(s, p, Answer(s.procs[p], w), w.born);
      BornStaysFresh(s, p, w);
      Alone(Do(s, Step(p, Answer(s.procs[p], w), w.born)), p, w)
  }

  lemma BornStaysFresh(s: Sys, p: Pid, w: World)
    requires p in s.procs && !s.procs[p].Returned? && (MovesLeft(s.procs[p]) >= 6 ==> w.born !in s.dialed)
    ensures Enabled(s, Step(p, Answer(s.procs[p], w), w.born))
    ensures var t := Do(s, Step(p, Answer(s.procs[p], w), w.born));
            MovesLeft(t.procs[p]) >= 6 ==> w.born !in t.dialed
  {
  }

  lemma {:induction false} AloneIsRun(s: Sys, p: Pid, w: World) returns (acts: seq<Action>)
    requires p in s.procs && (MovesLeft(s.procs[p]) >= 6 ==> w.born !in s.dialed)
    ensures Runs(s, acts) && After(s, acts) == Alone(s, p, w)
    decreases MovesLeft(s.procs[p])
  {
    acts := [];
    if !s.procs[p].Returned? {
      var a := Step(p, Answer(s.procs[p], w), w.born);
      NextIsShort(s, p, Answer(s.procs[p], w), w.born);
      BornStaysFresh(s, p, w);
      var rest := AloneIsRun(Do(s, a), p, w);
      acts := [a] + rest;
      assert acts[1..] == rest;
    }
  }

  // The outcome of a call, the cached connection it leaves, and the connections it closes.
  datatype Result = Result(out: Outcome, conn: Option<ConnId>, shut: multiset<ConnId>)

  // t is s but for call p's answer, the cache, the connections closed, and the history of them.
  predicate Leaves(s: Sys, t: Sys, p: Pid, r: Result) {
    t == s.(procs := s.procs[p := Returned(r.out)], cache := s.cache.(conn := r.conn), closes := s.closes + r.shut,
            dialed := t.dialed, installed := t.installed, place := t.place)
  }

  function Only(c: Option<ConnId>): multiset<ConnId> {
    if c.Some? then multiset{c.value} else multiset{}
  }

  // c was used: a stream that opens is returned, and one that fails drops c, closed.
  function Using(w: World, c: ConnId, shut: multiset<ConnId>): Result {
    if w.streams then Result(Stream(c), Some(c), shut) else Result(StreamFailed, None, shut + multiset{c})
  }

  // A connection was dialed: one that became live meanwhile is used, and the dialed one closed;
  // otherwise the dialed one is used, and a dead one it replaces is closed.
  function UsingDialed(cached: Option<ConnId>, w: World): Result {
    if cached.Some? && w.aliveLater then Using(w, cached.value, multiset{w.born})
    else Using(w, w.born, Only(cached))
  }

  // A whole dial: refused by a stopped pool, served by a live cached connection, or by a dialed one.
  function Expected(cache: Cache, w: World): Result {
    if cache.closed then Result(Stopped, cache.conn, multiset{})
    else if cache.conn.Some? && w.alive then Using(w, cache.conn.value, multiset{})
    else if w.resolves && w.dials then UsingDialed(cache.conn, w)
    else Result(NotResolved, cache.conn, multiset{})
  }

  // ---- Backwards from the stream ----

  lemma AloneStep(s: Sys, p: Pid, w: World, t: Sys)
    requires p in s.procs && !s.procs[p].Returned? && (MovesLeft(s.procs[p]) >= 6 ==> w.born !in s.dialed)
    requires Enabled(s, Step(p, Answer(s.procs[p], w), w.born)) && t == Do(s, Step(p, Answer(s.procs[p], w), w.born))
    ensures p in t.procs && (MovesLeft(t.procs[p]) >= 6 ==> w.born !in t.dialed)
    ensures Alone(s, p, w) == Alone(t, p, w)
  {
    NextIsShort(s, p, Answer(s.procs[p], w), w.born);
    BornStaysFresh(s, p, w);
  }

  lemma FromStreaming(s: Sys, p: Pid, w: World)
    requires p in s.procs && s.procs[p].Streaming? && s.cache.conn == Some(s.procs[p].c)
    ensures Leaves(s, Alone(s, p, w), p, Using(w, s.procs[p].c, multiset{}))
  {
    var t := Do(s, Step(p, w.streams, w.born));
    AloneStep(s, p, w, t);
    if !w.streams {
      FromDropping(t, p, w);
    }
  }

  lemma FromDropping(s: Sys, p: Pid, w: World)
    requires p in s.procs && s.procs[p].Dropping? && s.cache.conn == Some(s.procs[p].c)
    ensures Leaves(s, Alone(s, p, w), p, Result(StreamFailed, None, multiset{s.procs[p].c}))
  {
    var t := Do(s, Step(p, true, w.born));
    AloneStep(s, p, w, t);
    var u := Do(t, Step(p, true, w.born));
    AloneStep(t, p, w, u);
  }

  lemma FromRecovering(s: Sys, p: Pid, w: World)
    requires p in s.procs && s.procs[p].Recovering? && s.cache.conn == Some(s.procs[p].c)
    ensures Leaves(s, Alone(s, p, w), p, Using(w, s.procs[p].c, multiset{}))
  {
    var t := Do(s, Step(p, true, w.born));
    AloneStep(s, p, w, t);
    FromStreaming(t, p, w);
  }

  lemma FromDiscarding(s: Sys, p: Pid, w: World, c: ConnId)
    requires p in s.procs && s.procs[p] == Discarding(w.born, Some(c)) && s.cache.conn == Some(c)
    ensures Leaves(s, Alone(s, p, w), p, Using(w, c, multiset{w.born}))
  {
    var t := Do(s, Step(p, true, w.born));
    AloneStep(s, p, w, t);
    FromStreaming(t, p, w);
  }

  lemma FromInstalling(s: Sys, p: Pid, w: World)
    requires p in s.procs && s.procs[p] == Installing(w.born) && !s.cache.closed
    ensures Leaves(s, Alone(s, p, w), p, UsingDialed(s.cache.conn, w))
  {
    if s.cache.conn.Some? && w.aliveLater {
      KeptInstalling(s, p, w);
    } else {
      PlacedInstalling(s, p, w);
    }
  }

  lemma KeptInstalling(s: Sys, p: Pid, w: World)
    requires p in s.procs && s.procs[p] == Installing(w.born) && !s.cache.closed
    requires s.cache.conn.Some? && w.aliveLater
    ensures Leaves(s, Alone(s, p, w), p, Using(w, s.cache.conn.value, multiset{w.born}))
  {
    var t := s.(procs := s.procs[p := Discarding(w.born, s.cache.conn)]);
    assert t == Do(s, Step(p, w.aliveLater, w.born));
    AloneStep(s, p, w, t);
    FromDiscarding(t, p, w, s.cache.conn.value);
  }

  lemma PlacedInstalling(s: Sys, p: Pid, w: World)
    requires p in s.procs && s.procs[p] == Installing(w.born) && !s.cache.closed
    requires !(s.cache.conn.Some? && w.aliveLater)
    ensures Leaves(s, Alone(s, p, w), p, Using(w, w.born, Only(s.cache.conn)))
  {
    var t := Do(s, Step(p, w.aliveLater, w.born));
    AloneStep(s, p, w, t);
    PlacedState(s, p, w);
    PlacedThen(s, p, w, t);
  }

  lemma PlacedState(s: Sys, p: Pid, w: World)
    requires p in s.procs && s.procs[p] == Installing(w.born) && !s.cache.closed
    requires !(s.cache.conn.Some? && w.aliveLater)
    ensures IsPlaced(s, p, w, Do(s, Step(p, w.aliveLater, w.born)))
  {
  }

  predicate IsPlaced(s: Sys, p: Pid, w: World, t: Sys) {
    t == s.(procs := s.procs[p := Recovering(w.born)], cache := s.cache.(conn := Some(w.born)),
            closes := s.closes + Only(s.cache.conn), installed := t.installed, place := t.place)
  }

  lemma PlacedThen(s: Sys, p: Pid, w: World, t: Sys)
    requires p in s.procs && IsPlaced(s, p, w, t)
    ensures Leaves(s, Alone(t, p, w), p, Using(w, w.born, Only(s.cache.conn)))
  {
    FromRecovering(t, p, w);
    var u := Alone(t, p, w);
    var r := Using(w, w.born, multiset{});
    assert u.procs == s.procs[p := Returned(r.out)];
    assert u.closes == s.closes + (Only(s.cache.conn) + r.shut);
    assert Only(s.cache.conn) + r.shut == Using(w, w.born, Only(s.cache.conn)).shut;
  }

  lemma FromDialing(s: Sys, p: Pid, w: World)
    requires p in s.procs && s.procs[p].Dialing? && !s.cache.closed && w.born !in s.dialed
    ensures Leaves(s, Alone(s, p, w), p,
                   if w.dials then UsingDialed(s.cache.conn, w) else Result(NotResolved, s.cache.conn, multiset{}))
  {
    var t := Do(s, Step(p, w.dials, w.born));
    AloneStep(s, p, w, t);
    if w.dials {
      FromInstalling(t, p, w);
    }
  }

  lemma FromResolving(s: Sys, p: Pid, w: World)
    requires p in s.procs && s.procs[p].Resolving? && !s.cache.closed && w.born !in s.dialed
    ensures Leaves(s, Alone(s, p, w), p,
                   if w.resolves && w.dials then UsingDialed(s.cache.conn, w)
                   else Result(NotResolved, s.cache.conn, multiset{}))
  {
    var t := Do(s, Step(p, w.resolves, w.born));
    AloneStep(s, p, w, t);
    if w.resolves {
      FromDialing(t, p, w);
    }
  }

  lemma FromEnsuring(s: Sys, p: Pid, w: World)
    requires p in s.procs && s.procs[p].Ensuring? && !s.cache.closed && w.born !in s.dialed
    ensures Leaves(s, Alone(s, p, w), p, Expected(s.cache, w))
  {
    var t := Do(s, Step(p, w.alive, w.born));
    AloneStep(s, p, w, t);
    if s.cache.conn.Some? && w.alive {
      FromStreaming(t, p, w);
    } else {
      FromResolving(t, p, w);
    }
  }

  // ---- Theorems ----

  // A live cached connection is used at once, and nothing else changes: in every state, whatever
  // other calls are doing.
  lemma LiveConnectionIsReused(s: Sys, p: Pid, c: ConnId, born: ConnId)
    requires p in s.procs && s.procs[p].Ensuring? && s.cache.conn == Some(c)
    ensures Do(s, Step(p, true, born)) == s.(procs := s.procs[p := Streaming(c)])
  {
  }

  // The whole call, for every pool and environment.
  lemma DialAnswers(s: Sys, p: Pid, w: World)
    requires p !in s.procs && w.born !in s.dialed
    ensures Leaves(s, Alone(Do(s, Call(p, false)), p, w), p, Expected(s.cache, w))
  {
    var start := Do(s, Call(p, false));
    var t := Do(start, Step(p, true, w.born));
    AloneStep(start, p, w, t);
    if !s.cache.closed {
      FromEnsuring(t, p, w);
    }
  }

  // A dial overtaken by Stop before its installation closes what it dialed.
  lemma OvertakenDialCloses(s: Sys, p: Pid, w: World)
    requires p in s.procs && s.procs[p] == Installing(w.born) && s.cache.closed
    ensures Leaves(s, Alone(s, p, w), p, Result(StoppedInside, s.cache.conn, multiset{w.born}))
  {
    var t := Do(s, Step(p, w.aliveLater, w.born));
    AloneStep(s, p, w, t);
    AloneStep(t, p, w, Do(t, Step(p, true, w.born)));
  }

  // Stop, from every state: the first one closes the cached connection and empties the cache.
  lemma StopAnswers(s: Sys, p: Pid)
    requires p !in s.procs
    ensures var t := Do(Do(s, Call(p, true)), Step(p, true, 0));
            && t.procs == s.procs[p := Returned(StopReturned)] && t.cache.closed && t.dialed == s.dialed
            && (s.cache.closed ==> t.cache == s.cache && t.closes == s.closes)
            && (!s.cache.closed ==> t.cache.conn.None? && t.closes == s.closes + Only(s.cache.conn))
  {
  }
}
