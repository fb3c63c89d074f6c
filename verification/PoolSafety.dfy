// Who owns each connection of the pool, in every run of PoolRuns.
module PoolSafety {
  import opened Wrappers
  import opened Pool
  import opened PoolRuns

  // Call p dialed c and has neither installed nor closed it.
  predicate Holds(s: Sys, p: Pid, c: ConnId) {
    p in s.procs &&
    match s.procs[p]
    case Installing(mine) => mine == c
    case Discarding(mine, _) => mine == c
    case _ => false
  }

  predicate IsCached(s: Sys, c: ConnId) {
    s.cache.conn == Some(c)
  }

  // Call p will open, or failed to open, a stream on c.
  predicate Uses(pc: Pc, c: ConnId) {
    match pc
    case Discarding(_, use) => use == Some(c)
    case Recovering(mine) => mine == c
    case Streaming(mine) => mine == c
    case Dropping(mine) => mine == c
    case _ => false
  }

  ghost predicate Inv(s: Sys) {
    && s.place.Keys == s.dialed
    && (forall c: ConnId :: IsCached(s, c) <==> c in s.place && s.place[c] == InCache)
    && (forall p, c :: Holds(s, p, c) <==> c in s.place && s.place[c] == InHand(p))
    && (forall c: ConnId :: s.closes[c] == if c in s.place && s.place[c] == Closed then 1 else 0)
    && (s.cache.closed ==> s.cache.conn.None?)
    && s.installed <= s.dialed
    && (forall c | c in s.place :: s.place[c] == InCache ==> c in s.installed)
    && (forall c | c in s.installed :: !s.place[c].InHand?)
    && (forall p, c | p in s.procs && Uses(s.procs[p], c) :: c in s.installed)
  }

  lemma Frame(s: Sys, p: Pid, ok: bool, born: ConnId)
    requires Enabled(s, Step(p, ok, born))
    ensures var t := Do(s, Step(p, ok, born));
            && t.procs.Keys == s.procs.Keys
            && (forall q | q in s.procs && q != p :: t.procs[q] == s.procs[q])
            && (forall q, c | q != p :: Holds(t, q, c) <==> Holds(s, q, c))
  {
  }

  // One connection moves to another place; the others stay.
  lemma PlaceMoves(s: Sys, t: Sys, p: Pid, c: ConnId, to: Place)
    requires Inv(s) && p in s.procs && p in t.procs
    requires t.place == s.place[c := to] && t.dialed == s.dialed + {c}
    requires forall q, d | q != p :: Holds(t, q, d) <==> Holds(s, q, d)
    requires forall d | d != c :: Holds(t, p, d) <==> Holds(s, p, d)
    requires Holds(t, p, c) <==> to == InHand(p)
    requires to.InHand? ==> to.p == p
    requires c in s.place && s.place[c].InHand? ==> s.place[c].p == p
    requires c in s.place ==> s.place[c] != Closed
    requires forall d: ConnId | d != c :: IsCached(t, d) <==> IsCached(s, d)
    requires IsCached(t, c) <==> to == InCache
    requires t.closes == if to == Closed then s.closes + multiset{c} else s.closes
    requires t.cache.closed ==> t.cache.conn.None?
    requires s.installed <= t.installed <= s.installed + {c}
    requires c in t.installed <==> c in s.installed || to == InCache
    requires to.InHand? ==> c !in s.installed
    requires forall q, d | q in t.procs && Uses(t.procs[q], d) :: d in t.installed
    ensures Inv(t)
  {
  }

  lemma UsesFrame(s: Sys, p: Pid, ok: bool, born: ConnId)
    requires Inv(s) && Enabled(s, Step(p, ok, born))
    ensures var t := Do(s, Step(p, ok, born)); forall q, c | q in t.procs && Uses(t.procs[q], c) :: c in t.installed
  {
    Frame(s, p, ok, born);
    InstalledGrows(s, p, ok, born);
    NextUses(s, p, ok, born);
  }

  lemma InstalledGrows(s: Sys, p: Pid, ok: bool, born: ConnId)
    requires Enabled(s, Step(p, ok, born))
    ensures s.installed <= Effect(s, p, ok, born).installed
  {
  }

  // A call comes to use a connection it used before, the cached one, or the one it installs.
  lemma NextUses(s: Sys, p: Pid, ok: bool, born: ConnId)
    requires Enabled(s, Step(p, ok, born))
    requires forall c :: Uses(s.procs[p], c) ==> c in s.installed
    requires s.cache.conn.Some? ==> s.cache.conn.value in s.installed
    ensures forall c :: Uses(Next(s, p, ok, born), c) ==> c in Effect(s, p, ok, born).installed
  {
  }

  lemma DialingKeeps(s: Sys, p: Pid, ok: bool, born: ConnId)
    requires Inv(s) && Enabled(s, Step(p, ok, born)) && s.procs[p].Dialing?
    ensures Inv(Do(s, Step(p, ok, born)))
  {
    Frame(s, p, ok, born);
    UsesFrame(s, p, ok, born);
    if ok {
      PlaceMoves(s, Do(s, Step(p, ok, born)), p, born, InHand(p));
    }
  }

  lemma DiscardingKeeps(s: Sys, p: Pid, ok: bool, born: ConnId)
    requires Inv(s) && Enabled(s, Step(p, ok, born)) && s.procs[p].Discarding?
    ensures Inv(Do(s, Step(p, ok, born)))
  {
    Frame(s, p, ok, born);
    UsesFrame(s, p, ok, born);
    assert Holds(s, p, s.procs[p].born);
    PlaceMoves(s, Do(s, Step(p, ok, born)), p, s.procs[p].born, Closed);
  }

  // The cached connection is closed and leaves the cache: by a drop, a Stop, or an installation.
  lemma EvictKeeps(s: Sys, t: Sys, p: Pid, c: ConnId)
    requires Inv(s) && p in s.procs && IsCached(s, c)
    requires t.procs.Keys == s.procs.Keys && forall q | q in s.procs && q != p :: t.procs[q] == s.procs[q]
    requires t.cache.conn.None? && t.dialed == s.dialed && t.installed == s.installed
    requires t.closes == s.closes + multiset{c} && t.place == s.place[c := Closed]
    requires forall d :: Holds(t, p, d) <==> Holds(s, p, d)
    requires forall d :: Uses(t.procs[p], d) ==> d in s.installed
    ensures Inv(t)
  {
    assert forall q, d | q != p :: Holds(t, q, d) <==> Holds(s, q, d);
    PlaceMoves(s, t, p, c, Closed);
  }

  lemma SameKeeps(s: Sys, t: Sys, p: Pid)
    requires Inv(s) && p in s.procs
    requires t.procs.Keys == s.procs.Keys && forall q | q in s.procs && q != p :: t.procs[q] == s.procs[q]
    requires t.cache.conn == s.cache.conn && (t.cache.closed ==> t.cache.conn.None?)
    requires t.dialed == s.dialed && t.installed == s.installed && t.closes == s.closes && t.place == s.place
    requires forall d :: Holds(t, p, d) <==> Holds(s, p, d)
    requires forall d :: Uses(t.procs[p], d) ==> d in s.installed
    ensures Inv(t)
  {
    assert forall q, d | q != p :: Holds(t, q, d) <==> Holds(s, q, d);
  }

  lemma DroppingKeeps(s: Sys, p: Pid, ok: bool, born: ConnId)
    requires Inv(s) && Enabled(s, Step(p, ok, born)) && s.procs[p].Dropping?
    ensures Inv(Do(s, Step(p, ok, born)))
  {
    var t, c := Do(s, Step(p, ok, born)), s.procs[p].c;
    if IsCached(s, c) {
      EvictKeeps(s, t, p, c);
    } else {
      SameKeeps(s, t, p);
    }
  }

  lemma StoppingKeeps(s: Sys, p: Pid, ok: bool, born: ConnId)
    requires Inv(s) && Enabled(s, Step(p, ok, born)) && s.procs[p].Stopping?
    ensures Inv(Do(s, Step(p, ok, born)))
  {
    var t := Do(s, Step(p, ok, born));
    if s.cache.conn.Some? && !s.cache.closed {
      EvictKeeps(s, t, p, s.cache.conn.value);
    } else {
      SameKeeps(s, t, p);
    }
  }

  lemma InstallingKeeps(s: Sys, p: Pid, ok: bool, born: ConnId)
    requires Inv(s) && Enabled(s, Step(p, ok, born)) && s.procs[p].Installing?
    ensures Inv(Do(s, Step(p, ok, born)))
  {
    var t, c := Do(s, Step(p, ok, born)), s.procs[p].born;
    assert Holds(s, p, c);
    if Install(s.cache, c, ok).1.Placed? {
      PlacingKeeps(s, t, p, c);
    } else {
      assert Install(s.cache, c, ok).1.Kept? ==> IsCached(s, Install(s.cache, c, ok).1.existing);
      SameKeeps(s, t, p);
    }
  }

  // An installation closes the dead connection it replaces, then puts its own in the cache.
  lemma PlacingKeeps(s: Sys, t: Sys, p: Pid, c: ConnId)
    requires Inv(s) && Holds(s, p, c) && !s.cache.closed
    requires var u := Close(s, s.cache.conn);
             t == u.(cache := u.cache.(conn := Some(c)), installed := u.installed + {c},
                     place := u.place[c := InCache], procs := s.procs[p := Recovering(c)])
    ensures Inv(t)
  {
    var v := Close(s, s.cache.conn).(cache := s.cache.(conn := None));
    if s.cache.conn.Some? {
      EvictKeeps(s, v, p, s.cache.conn.value);
    }
    assert Holds(v, p, c);
    assert forall q, d | q != p :: Holds(t, q, d) <==> Holds(v, q, d);
    PlaceMoves(v, t, p, c, InCache);
  }

  lemma OthersKeep(s: Sys, p: Pid, ok: bool, born: ConnId)
    requires Inv(s) && Enabled(s, Step(p, ok, born))
    requires var pc := s.procs[p]; !pc.Dialing? && !pc.Discarding? && !pc.Dropping? && !pc.Stopping? && !pc.Installing?
    ensures Inv(Do(s, Step(p, ok, born)))
  {
    UsesFrame(s, p, ok, born);
    SameKeeps(s, Do(s, Step(p, ok, born)), p);
  }

  lemma ActionKeeps(s: Sys, a: Action)
    requires Inv(s) && Enabled(s, a)
    ensures Inv(Do(s, a))
  {
    match a
    case Call(p, stop) => CallKeeps(s, p, stop);
    case Step(p, ok, born) =>
      var pc := s.procs[p];
      if pc.Dialing? {
        DialingKeeps(s, p, ok, born);
      } else if pc.Discarding? {
        DiscardingKeeps(s, p, ok, born);
      } else if pc.Dropping? {
        DroppingKeeps(s, p, ok, born);
      } else if pc.Stopping? {
        StoppingKeeps(s, p, ok, born);
      } else if pc.Installing? {
        InstallingKeeps(s, p, ok, born);
      } else {
        OthersKeep(s, p, ok, born);
      }
  }

  lemma CallKeeps(s: Sys, p: Pid, stop: bool)
    requires Inv(s) && p !in s.procs
    ensures Inv(Do(s, Call(p, stop)))
  {
    var t := Do(s, Call(p, stop));
    assert forall q, c :: Holds(t, q, c) <==> Holds(s, q, c);
  }

  lemma {:induction false} RunKeeps(s: Sys, acts: seq<Action>)
    requires Inv(s) && Runs(s, acts)
    ensures Inv(After(s, acts))
    decreases |acts|
  {
    if acts != [] {
      ActionKeeps(s, acts[0]);
      RunKeeps(Do(s, acts[0]), acts[1..]);
    }
  }

  ghost predicate Reachable(s: Sys) {
    exists acts :: Runs(INIT, acts) && After(INIT, acts) == s
  }

  lemma ReachableOk(s: Sys)
    requires Reachable(s)
    ensures Inv(s)
  {
    var acts :| Runs(INIT, acts) && After(INIT, acts) == s;
    RunKeeps(INIT, acts);
  }

  lemma {:induction false} Concat(s: Sys, a: seq<Action>, b: seq<Action>)
    requires Runs(s, a) && Runs(After(s, a), b)
    ensures Runs(s, a + b) && After(s, a + b) == After(After(s, a), b)
    decreases |a|
  {
    if a == [] {
      assert a + b == b;
    } else {
      Concat(Do(s, a[0]), a[1..], b);
      assert (a + b)[1..] == a[1..] + b;
    }
  }

  lemma ReachableOn(s: Sys, acts: seq<Action>)
    requires Reachable(s) && Runs(s, acts)
    ensures Reachable(After(s, acts))
  {
    var first :| Runs(INIT, first) && After(INIT, first) == s;
    Concat(INIT, first, acts);
  }

  // ---- Theorems ----

  // Every connection the dialer ever returned is exactly one of cached, in the hand of one call, or
  // closed; and close() was called on it once in the last case and never before.
  lemma OnePlace(s: Sys, c: ConnId)
    requires Reachable(s) && c in s.dialed
    ensures IsCached(s, c) || (exists p :: Holds(s, p, c)) || s.closes[c] == 1
    ensures s.closes[c] == if IsCached(s, c) || (exists p :: Holds(s, p, c)) then 0 else 1
    ensures IsCached(s, c) ==> forall p :: !Holds(s, p, c)
    ensures forall p, q :: Holds(s, p, c) && Holds(s, q, c) ==> p == q
  {
    ReachableOk(s);
    match s.place[c]
    case InCache => assert IsCached(s, c);
    case InHand(p) => assert Holds(s, p, c);
    case Closed =>
  }

  // close() is called only on connections the dialer returned, and never twice.
  lemma NeverClosedTwice(s: Sys, c: ConnId)
    requires Reachable(s)
    ensures s.closes[c] <= 1 && (c !in s.dialed ==> s.closes[c] == 0)
  {
    ReachableOk(s);
  }

  // What a dial reuses - at lines 178-184, or at 202-207 after losing a race - is the cached
  // connection, alive, installed, never closed, and in no call's hand.
  lemma ReusedIsOpen(s: Sys, p: Pid, ok: bool, born: ConnId, c: ConnId)
    requires Reachable(s) && Enabled(s, Step(p, ok, born)) && (s.procs[p].Ensuring? || s.procs[p].Installing?)
    requires var pc := Next(s, p, ok, born); pc == Streaming(c) || (pc.Discarding? && pc.use == Some(c))
    ensures ok && IsCached(s, c) && c in s.installed && s.closes[c] == 0 && forall q :: !Holds(s, q, c)
  {
    ReachableOk(s);
  }

  // An installed connection that is no longer cached has been closed already; and the connections
  // calls still use are installed ones.
  lemma StaleMeansClosed(s: Sys, p: Pid, c: ConnId)
    requires Reachable(s)
    ensures c in s.installed ==> IsCached(s, c) || s.closes[c] == 1
    ensures p in s.procs && Uses(s.procs[p], c) ==> c in s.installed
  {
    ReachableOk(s);
  }

  // A drop by a stale call closes nothing and keeps a newer cached connection in place.
  lemma DropIsExact(s: Sys, p: Pid, ok: bool, born: ConnId)
    requires Reachable(s) && Enabled(s, Step(p, ok, born)) && s.procs[p].Dropping?
    ensures var t, c := Do(s, Step(p, ok, born)), s.procs[p].c;
            && t.closes[c] == 1
            && (forall d | d != c :: t.closes[d] == s.closes[d])
            && (forall d: ConnId | d != c :: IsCached(s, d) ==> IsCached(t, d))
            && (!IsCached(s, c) ==> t.closes == s.closes && t.cache == s.cache)
            && !IsCached(t, c)
  {
    ReachableOk(s);
    StaleMeansClosed(s, p, s.procs[p].c);
  }

  // Once stopped, nothing is cached again, in any continuation; and when every call has returned,
  // all connections ever dialed are closed, each once.
  lemma StoppedForGood(s: Sys, acts: seq<Action>)
    requires Reachable(s) && s.cache.closed && Runs(s, acts)
    ensures var t := After(s, acts);
            && t.cache == Cache(None, true)
            && ((forall p | p in t.procs :: t.procs[p].Returned?) ==> forall c | c in t.dialed :: t.closes[c] == 1)
  {
    ReachableOn(s, acts);
    ReachableOk(After(s, acts));
    LatchHolds(s, acts);
    if forall p | p in After(s, acts).procs :: After(s, acts).procs[p].Returned? {
      QuiescentPoolKeepsOne(After(s, acts));
    }
  }

  lemma {:induction false} LatchHolds(s: Sys, acts: seq<Action>)
    requires Runs(s, acts) && s.cache.closed
    ensures After(s, acts).cache.closed
    decreases |acts|
  {
    if acts != [] {
      LatchHolds(Do(s, acts[0]), acts[1..]);
    }
  }

  // When every call has returned, the pool holds at most its cached connection: the rest is closed.
  lemma QuiescentPoolKeepsOne(s: Sys)
    requires Reachable(s) && forall p | p in s.procs :: s.procs[p].Returned?
    ensures forall c | c in s.dialed :: s.closes[c] == if IsCached(s, c) then 0 else 1
  {
    ReachableOk(s);
    forall c | c in s.dialed
      ensures s.closes[c] == if IsCached(s, c) then 0 else 1
    {
      OnePlace(s, c);
      assert forall p :: !Holds(s, p, c);
    }
  }

  // A call that met the latch, or set it, leaves it set: Stop has returned, or a dial was told
  // "stopped" at entry or inside.
  predicate KnowsLatch(pc: Pc) {
    match pc
    case Discarding(_, use) => use.None?
    case Returned(out) => out == Stopped || out == StoppedInside || out == StopReturned
    case _ => false
  }

  lemma {:induction false} LatchIsKnown(s: Sys, acts: seq<Action>, p: Pid)
    requires Runs(s, acts) && (forall q | q in s.procs && KnowsLatch(s.procs[q]) :: s.cache.closed)
    requires var t := After(s, acts); p in t.procs && KnowsLatch(t.procs[p])
    ensures After(s, acts).cache.closed
    decreases |acts|
  {
    if acts != [] {
      LatchStep(s, acts[0]);
      LatchIsKnown(Do(s, acts[0]), acts[1..], p);
    }
  }

  lemma LatchStep(s: Sys, a: Action)
    requires Enabled(s, a) && forall q | q in s.procs && KnowsLatch(s.procs[q]) :: s.cache.closed
    ensures forall q | q in Do(s, a).procs && KnowsLatch(Do(s, a).procs[q]) :: Do(s, a).cache.closed
  {
  }

  // A dial that enters a stopped pool is refused at entry, whatever else happens.
  lemma {:induction false} ClosedRefuses(s: Sys, acts: seq<Action>, p: Pid)
    requires Runs(s, acts) && s.cache.closed && p in s.procs
    requires s.procs[p].Entering? || s.procs[p] == Returned(Stopped)
    ensures p in After(s, acts).procs
    ensures After(s, acts).procs[p].Entering? || After(s, acts).procs[p] == Returned(Stopped)
    decreases |acts|
  {
    if acts != [] {
      ClosedRefuses(Do(s, acts[0]), acts[1..], p);
    }
  }

  // Calls have no loop: each move of a call brings its end nearer.
  function MovesLeft(pc: Pc): nat {
    match pc
    case Entering => 9
    case Ensuring => 8
    case Resolving => 7
    case Dialing => 6
    case Installing(_) => 5
    case Discarding(_, _) => 4
    case Recovering(_) => 4
    case Streaming(_) => 3
    case Dropping(_) => 2
    case Complaining => 1
    case Stopping => 1
    case Returned(_) => 0
  }

  lemma NextIsShort(s: Sys, p: Pid, ok: bool, born: ConnId)
    requires Enabled(s, Step(p, ok, born))
    ensures MovesLeft(Next(s, p, ok, born)) < MovesLeft(s.procs[p])
  {
  }

  lemma CallsAreShort(s: Sys, p: Pid, ok: bool, born: ConnId)
    requires Enabled(s, Step(p, ok, born))
    ensures MovesLeft(Do(s, Step(p, ok, born)).procs[p]) < MovesLeft(s.procs[p])
  {
    NextIsShort(s, p, ok, born);
  }
}
