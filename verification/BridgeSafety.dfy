// What Registry.Close guarantees about ListenLocal's listeners, in every run of BridgeRuns.
module BridgeSafety {
  import opened BridgeSet
  import opened BridgeRuns

  // Call p has bound l and not yet returned it or closed it ...
  predicate Has(s: Sys, p: Pid, l: Listener) {
    p in s.listens && (s.listens[p] == Adding(l) || s.listens[p] == Rejecting(l) || s.listens[p] == Launching(l))
  }

  // ... and nobody else knows it.
  predicate InHand(s: Sys, p: Pid, l: Listener) {
    p in s.listens && (s.listens[p] == Adding(l) || s.listens[p] == Rejecting(l))
  }

  // closeAll has still to close l.
  predicate Due(s: Sys, l: Listener) {
    s.closer.Closing? && l in s.closer.rest
  }

  ghost predicate NoDup(ls: seq<Listener>) {
    forall i, j :: 0 <= i < j < |ls| ==> ls[i] != ls[j]
  }

  ghost predicate HandsOk(s: Sys) {
    && (forall p, l | Has(s, p, l) :: l in s.bound && l !in s.handed && l !in s.accepts)
    && (forall p, q, l | Has(s, p, l) && Has(s, q, l) :: p == q)
    && (forall p, l | InHand(s, p, l) :: l in s.live && l !in s.tracked && !Due(s, l))
    && s.live <= s.bound && s.handed <= s.bound && s.accepts.Keys <= s.bound
    && (forall l | l in s.tracked :: l in s.bound)
    && (forall l | Due(s, l) :: l in s.bound)
  }

  ghost predicate LatchOk(s: Sys) {
    && NoDup(s.tracked)
    && (s.latched <==> s.closer.Closing? || s.closer.Finished?)
    && (s.latched ==> s.tracked == [])
  }

  // A slipped listener is in nobody's list; only its caller can still close it.
  ghost predicate SlippedOk(s: Sys) {
    && (forall l | l in s.slipped :: l in s.accepts && l !in s.tracked && !Due(s, l) && (l in s.live || l in s.dropped))
    && s.dropped <= s.handed && s.dropped !! s.live
  }

  // An open listener is somebody's to close, unless it slipped away.
  ghost predicate OpenOk(s: Sys) {
    forall l | l in s.live :: (exists p :: InHand(s, p, l)) || l in s.tracked || Due(s, l) || l in s.slipped
  }

  // A loop that has left has untracked its listener.
  ghost predicate LeftOk(s: Sys) {
    forall l | l in s.accepts && s.accepts[l].Left? :: l !in s.tracked
  }

  ghost predicate Inv(s: Sys) {
    HandsOk(s) && LatchOk(s) && SlippedOk(s) && OpenOk(s) && LeftOk(s)
  }

  lemma {:induction false} RemoveFirstMembers(ls: seq<Listener>, l: Listener)
    requires NoDup(ls)
    ensures NoDup(RemoveFirst(ls, l))
    ensures forall m :: m in RemoveFirst(ls, l) <==> m in ls && m != l
  {
    if ls != [] {
      var rest := ls[1..];
      assert forall m :: m in ls <==> m == ls[0] || m in rest;
      RemoveFirstMembers(rest, l);
      if ls[0] != l {
        var r := RemoveFirst(rest, l);
        assert forall m :: m in [ls[0]] + r <==> m == ls[0] || m in r;
        assert ls[0] !in rest;
      }
    }
  }

  lemma ListenFrame(s: Sys, p: Pid, ok: bool, born: Listener)
    requires Enabled(s, Listen(p, ok, born))
    ensures var t := DoListen(s, p, ok, born);
            && (forall q, l | q != p :: (Has(t, q, l) <==> Has(s, q, l)) && (InHand(t, q, l) <==> InHand(s, q, l)))
            && t.closer == s.closer && t.slipped == s.slipped && t.dropped == s.dropped && t.latched == s.latched
  {
  }

  lemma BindingKeeps(s: Sys, p: Pid, ok: bool, born: Listener)
    requires Inv(s) && Enabled(s, Listen(p, ok, born)) && (s.listens[p].Binding? || s.listens[p].Looking?)
    ensures Inv(DoListen(s, p, ok, born))
  {
    var t := DoListen(s, p, ok, born);
    ListenFrame(s, p, ok, born);
    if ok && s.listens[p].Binding? {
      assert InHand(t, p, born);
    }
    assert forall q, l :: InHand(s, q, l) ==> InHand(t, q, l);
  }

  lemma AddingKeeps(s: Sys, p: Pid, ok: bool, born: Listener)
    requires Inv(s) && Enabled(s, Listen(p, ok, born)) && s.listens[p].Adding?
    ensures Inv(DoListen(s, p, ok, born))
  {
    var t, l := DoListen(s, p, ok, born), s.listens[p].l;
    ListenFrame(s, p, ok, born);
    assert InHand(s, p, l) && Has(s, p, l);
    assert s.latched ==> InHand(t, p, l);
    assert forall q, m | m != l :: InHand(s, q, m) ==> InHand(t, q, m);
  }

  lemma RejectingKeeps(s: Sys, p: Pid, ok: bool, born: Listener)
    requires Inv(s) && Enabled(s, Listen(p, ok, born)) && s.listens[p].Rejecting?
    ensures Inv(DoListen(s, p, ok, born))
  {
    var t, l := DoListen(s, p, ok, born), s.listens[p].l;
    ListenFrame(s, p, ok, born);
    assert InHand(s, p, l) && Has(s, p, l);
    assert forall q, m | m != l :: InHand(s, q, m) ==> InHand(t, q, m);
  }

  lemma LaunchingKeeps(s: Sys, p: Pid, ok: bool, born: Listener)
    requires Inv(s) && Enabled(s, Listen(p, ok, born)) && s.listens[p].Launching?
    ensures Inv(DoListen(s, p, ok, born))
  {
    var t, l := DoListen(s, p, ok, born), s.listens[p].l;
    ListenFrame(s, p, ok, born);
    assert Has(s, p, l);
    assert forall q, m :: InHand(s, q, m) ==> InHand(t, q, m);
  }

  // Accept loops and callers' closes change no list but the set, and hands are left alone.
  lemma HandsFrame(s: Sys, t: Sys)
    requires t.listens == s.listens
    ensures forall p, l :: (Has(t, p, l) <==> Has(s, p, l)) && (InHand(t, p, l) <==> InHand(s, p, l))
  {
  }

  lemma CallerCloseKeeps(s: Sys, l: Listener)
    requires Inv(s) && Enabled(s, CallerClose(l))
    ensures Inv(Do(s, CallerClose(l)))
  {
    HandsFrame(s, Do(s, CallerClose(l)));
    assert forall p :: InHand(s, p, l) ==> Has(s, p, l);
  }

  lemma AcceptKeeps(s: Sys, a: Action)
    requires Inv(s) && Enabled(s, a) && (a.Accept? || a.Wake?)
    ensures Inv(Do(s, a))
  {
    HandsFrame(s, Do(s, a));
  }

  lemma LeaveKeeps(s: Sys, l: Listener)
    requires Inv(s) && Enabled(s, Leave(l))
    ensures Inv(Do(s, Leave(l)))
  {
    var t := Do(s, Leave(l));
    HandsFrame(s, t);
    RemoveFirstMembers(s.tracked, l);
    if s.latched {
      assert t.tracked == [];
    }
  }

  lemma CloseKeeps(s: Sys)
    requires Inv(s) && Enabled(s, Close)
    ensures Inv(Do(s, Close))
  {
    var t := Do(s, Close);
    HandsFrame(s, t);
    if s.closer.Closing? && s.closer.rest != [] {
      assert forall l :: l in s.closer.rest <==> l == s.closer.rest[0] || l in s.closer.rest[1..];
      assert Due(s, s.closer.rest[0]);
    }
  }

  lemma ActionKeeps(s: Sys, a: Action)
    requires Inv(s) && Enabled(s, a)
    ensures Inv(Do(s, a))
  {
    match a
    case Call(p) =>
      assert forall q, l :: (Has(Do(s, a), q, l) <==> Has(s, q, l)) && (InHand(Do(s, a), q, l) <==> InHand(s, q, l));
    case Listen(p, ok, born) =>
      if s.listens[p].Adding? {
        AddingKeeps(s, p, ok, born);
      } else if s.listens[p].Rejecting? {
        RejectingKeeps(s, p, ok, born);
      } else if s.listens[p].Launching? {
        LaunchingKeeps(s, p, ok, born);
      } else {
        BindingKeeps(s, p, ok, born);
      }
    case CallerClose(l) => CallerCloseKeeps(s, l);
    case Accept(_, _) => AcceptKeeps(s, a);
    case Wake(_, _) => AcceptKeeps(s, a);
    case Leave(l) => LeaveKeeps(s, l);
    case Close => CloseKeeps(s);
  }

  lemma {:induction false} RunKeeps(s: Sys, acts: seq<Action>)
    requires Inv(s) && Runs(s, acts)
    ensures Inv(After(s, acts))
    decreases |acts|
  {
    if acts != [] {
      ActionKeeps(s, acts[0]);
      RunKeeps(Do(s, acts[0]), acts[1..]);
    }
  }

  // ---- Theorems ----

  // After Close has returned, a bound listener is still open exactly when its ListenLocal call is
  // still to reject it, or when its accept loop slipped away on `done` before closeAll took the set
  // and its caller has not closed it.
  lemma OpenAfterCloseIff(acts: seq<Action>, l: Listener)
    requires Runs(INIT, acts) && After(INIT, acts).closer.Finished?
    ensures var s := After(INIT, acts);
            l in s.live <==> (exists p :: InHand(s, p, l)) || (l in s.slipped && l !in s.dropped)
  {
    RunKeeps(INIT, acts);
  }

  // The failing case needs a transient Accept error: an accept loop that never backs off leaves
  // only after its listener was closed, so nothing slips.
  ghost predicate Steady(acts: seq<Action>) {
    forall i | 0 <= i < |acts| :: acts[i].Accept? ==> !acts[i].transient
  }

  ghost predicate NoBackoff(s: Sys) {
    && s.slipped == {}
    && (forall l | l in s.accepts :: !s.accepts[l].BackingOff? && (s.accepts[l].Leaving? ==> l !in s.live))
  }

  lemma {:induction false} SteadyNeverSlips(s: Sys, acts: seq<Action>)
    requires Inv(s) && NoBackoff(s) && Runs(s, acts) && Steady(acts)
    ensures NoBackoff(After(s, acts))
    decreases |acts|
  {
    if acts != [] {
      assert acts[0].Accept? ==> !acts[0].transient;
      SteadyStep(s, acts[0]);
      ActionKeeps(s, acts[0]);
      assert Steady(acts[1..]) by {
        forall i | 0 <= i < |acts[1..]| ensures acts[1..][i].Accept? ==> !acts[1..][i].transient {
          assert acts[1..][i] == acts[i + 1];
        }
      }
      SteadyNeverSlips(Do(s, acts[0]), acts[1..]);
    }
  }

  lemma SteadyStep(s: Sys, a: Action)
    requires Inv(s) && NoBackoff(s) && Enabled(s, a) && (a.Accept? ==> !a.transient)
    ensures NoBackoff(Do(s, a))
  {
  }

  // So in runs whose Accept errors all mean "closed", every listener ListenLocal ever bound is
  // closed once Close and the calls in flight have returned.
  lemma CloseClosesEveryBridge(acts: seq<Action>)
    requires Runs(INIT, acts) && Steady(acts)
    requires var s := After(INIT, acts); s.closer.Finished? && forall p | p in s.listens :: s.listens[p].Returned?
    ensures After(INIT, acts).live == {}
  {
    SteadyNeverSlips(INIT, acts);
    forall l ensures l !in After(INIT, acts).live {
      OpenAfterCloseIff(acts, l);
    }
  }

  // Close has returned, l is still open, and its accept loop is gone.
  predicate Leaked(t: Sys, l: Listener) {
    t.closer.Finished? && l in t.live && l in t.accepts && t.accepts[l] == Left
  }

  // Without that restriction the promise fails: any tracked open listener whose loop is accepting
  // when Close starts can survive Close, its loop gone, by one transient error.
  lemma TransientErrorLeaksListener(s: Sys, l: Listener)
    requires Inv(s) && s.closer == Closed && Serving(s, l)
    ensures MayLeak(s, l)
  {
    ActionKeeps(s, Close);
    Leak(Do(s, Close), l);
    MayLeakVia(s, Close, l);
  }

  // Whether a listener can still end like that, once `done` is closed and before closeAll takes the
  // set: it is open and served, or a ListenLocal call is about to serve it, or about to bind it.
  predicate InService(s: Sys, p: Pid, l: Listener) {
    p in s.listens && (s.listens[p] == Adding(l) || s.listens[p] == Launching(l))
  }

  predicate IsBinding(s: Sys, p: Pid) {
    p in s.listens && s.listens[p].Binding?
  }

  ghost predicate CanLeak(s: Sys, l: Listener) {
    || (l in s.live && (l in s.accepts || exists p :: InService(s, p, l)))
    || (l !in s.bound && exists p :: IsBinding(s, p))
  }

  // Nothing else comes to leak later.
  lemma CanLeakBefore(s: Sys, a: Action, l: Listener)
    requires Inv(s) && !s.closer.Unclosed? && Enabled(s, a) && CanLeak(Do(s, a), l)
    ensures CanLeak(s, l) && !Do(s, a).closer.Unclosed?
  {
    if a.Listen? {
      var t := Do(s, a);
      assert InService(t, a.p, l) ==> InService(s, a.p, l) || IsBinding(s, a.p);
      assert forall p | p != a.p ::
          (InService(t, p, l) ==> InService(s, p, l)) && (IsBinding(t, p) ==> IsBinding(s, p));
      assert l in t.accepts ==> l in s.accepts || InService(s, a.p, l);
      assert l in t.live ==> l in s.live || (l !in s.bound && IsBinding(s, a.p));
      assert !IsBinding(t, a.p);
    } else {
      OthersMakeNoLeak(s, a, l);
    }
  }

  lemma OthersMakeNoLeak(s: Sys, a: Action, l: Listener)
    requires Enabled(s, a) && !a.Listen?
    ensures var t := Do(s, a);
            && t.bound == s.bound && t.live <= s.live && t.accepts.Keys == s.accepts.Keys
            && (forall p :: (InService(t, p, l) ==> InService(s, p, l)) && (IsBinding(t, p) ==> IsBinding(s, p)))
  {
  }

  lemma {:induction false} LeakedCould(s: Sys, acts: seq<Action>, l: Listener)
    requires Inv(s) && !s.closer.Unclosed? && Runs(s, acts) && Leaked(After(s, acts), l)
    ensures CanLeak(s, l)
    decreases |acts|
  {
    if acts != [] {
      ActionKeeps(s, acts[0]);
      StaysClosed(s, acts[0]);
      LeakedCould(Do(s, acts[0]), acts[1..], l);
      CanLeakBefore(s, acts[0], l);
    }
  }

  lemma StaysClosed(s: Sys, a: Action)
    requires Enabled(s, a) && !s.closer.Unclosed?
    ensures !Do(s, a).closer.Unclosed?
  {
  }

  ghost predicate Leaks(s: Sys, acts: seq<Action>, l: Listener) {
    Runs(s, acts) && Leaked(After(s, acts), l)
  }

  // Some continuation ends like that.
  ghost predicate MayLeak(s: Sys, l: Listener) {
    exists acts :: Leaks(s, acts, l)
  }

  lemma MayLeakVia(s: Sys, a: Action, l: Listener)
    requires Enabled(s, a) && MayLeak(Do(s, a), l)
    ensures MayLeak(s, l)
  {
    var rest :| Leaks(Do(s, a), rest, l);
    Unroll(s, a, rest);
    assert Leaks(s, [a] + rest, l);
  }

  // Exactly which listeners can be left open by Close from a state in which `done` has been closed
  // and closeAll has not begun.
  lemma LeakPossibleIff(s: Sys, l: Listener)
    requires Inv(s) && s.closer == Done
    ensures MayLeak(s, l) <==> CanLeak(s, l)
  {
    if MayLeak(s, l) {
      var acts :| Leaks(s, acts, l);
      LeakedCould(s, acts, l);
    }
    if CanLeak(s, l) {
      Leak(s, l);
    }
  }

  // Moves that a listener's call and loop still have to make to leak it.
  function LeakMoves(s: Sys, p: Pid, l: Listener): nat {
    if l in s.accepts then
      match s.accepts[l]
      case Accepting => 3
      case BackingOff => 2
      case Leaving => 1
      case Left => 0
    else if p in s.listens then
      match s.listens[p]
      case Binding => 6
      case Adding(_) => 5
      case Launching(_) => 4
      case _ => 0
    else 0
  }

  // p is the ListenLocal call that has l in hand, if there is one.
  predicate OnWay(s: Sys, p: Pid, l: Listener) {
    || (l in s.live && (l in s.accepts || InService(s, p, l)))
    || (l !in s.bound && IsBinding(s, p))
  }

  function LeakMove(s: Sys, p: Pid, l: Listener): Action {
    if l in s.accepts then
      match s.accepts[l]
      case Accepting => Accept(l, true)
      case BackingOff => Wake(l, false)
      case _ => Leave(l)
    else Listen(p, true, l)
  }

  lemma LeakAdvances(s: Sys, p: Pid, l: Listener)
    requires Inv(s) && s.closer == Done && OnWay(s, p, l) && LeakMoves(s, p, l) > 0
    ensures var a := LeakMove(s, p, l);
            Enabled(s, a) && var t := Do(s, a);
            t.closer == Done && OnWay(t, p, l) && LeakMoves(t, p, l) == LeakMoves(s, p, l) - 1
  {
    assert l in s.accepts && s.accepts[l].Leaving? ==> l in s.live;
    assert InService(s, p, l) ==> Has(s, p, l);
  }

  lemma Leak(s: Sys, l: Listener)
    requires Inv(s) && s.closer == Done && CanLeak(s, l)
    ensures MayLeak(s, l)
  {
    var p: Pid := 0;
    if l in s.live && l !in s.accepts {
      p :| InService(s, p, l);
    } else if l !in s.live {
      p :| IsBinding(s, p);
    }
    LeakAlong(s, p, l);
  }

  lemma {:induction false} LeakAlong(s: Sys, p: Pid, l: Listener)
    requires Inv(s) && s.closer == Done && OnWay(s, p, l)
    ensures MayLeak(s, l)
    decreases LeakMoves(s, p, l)
  {
    if LeakMoves(s, p, l) > 0 {
      var a := LeakMove(s, p, l);
      LeakAdvances(s, p, l);
      ActionKeeps(s, a);
      LeakAlong(Do(s, a), p, l);
      MayLeakVia(s, a, l);
    } else {
      CloseOut(Do(s, Close), l);
      MayLeakVia(s, Close, l);
    }
  }

  // closeAll's loop, running alone.
  lemma {:induction false} CloseOut(s: Sys, l: Listener)
    requires s.closer.Closing? && l !in s.closer.rest && l in s.live && l in s.accepts && s.accepts[l].Left?
    ensures MayLeak(s, l)
    decreases |s.closer.rest|
  {
    var t := Do(s, Close);
    if s.closer.rest == [] {
      assert Leaks(t, [], l);
    } else {
      CloseOut(t, l);
    }
    MayLeakVia(s, Close, l);
  }

  lemma Unroll(s: Sys, a: Action, rest: seq<Action>)
    ensures Runs(s, [a] + rest) <==> Enabled(s, a) && Runs(Do(s, a), rest)
    ensures Runs(s, [a] + rest) ==> After(s, [a] + rest) == After(Do(s, a), rest)
  {
    assert ([a] + rest)[1..] == rest;
  }

  // ListenLocal call p, on its way to track and return listener l of an open registry; 0 once done.
  function ListenMoves(s: Sys, p: Pid, l: Listener): nat {
    if p !in s.listens then 0
    else
      match s.listens[p]
      case Looking => if l !in s.bound then 4 else 0
      case Binding => if l !in s.bound then 3 else 0
      case Adding(mine) => if mine == l && l in s.live then 2 else 0
      case Launching(mine) => if mine == l && l in s.live && l in s.tracked then 1 else 0
      case _ => 0
  }

  predicate Serving(s: Sys, l: Listener) {
    l in s.live && l in s.tracked && l in s.accepts && s.accepts[l] == Accepting
  }

  lemma ListenAdvances(s: Sys, p: Pid, l: Listener)
    requires !s.latched && s.closer.Unclosed? && ListenMoves(s, p, l) > 0
    ensures Enabled(s, Listen(p, true, l))
    ensures var t := Do(s, Listen(p, true, l));
            !t.latched && t.closer.Unclosed? && ListenMoves(t, p, l) == ListenMoves(s, p, l) - 1
            && (ListenMoves(s, p, l) == 1 ==> Serving(t, l))
  {
  }

  // The leak is ahead of every such call: it is completed, and Close starts.
  lemma {:induction false} LeakAhead(s: Sys, p: Pid, l: Listener)
    requires Inv(s) && !s.latched && s.closer.Unclosed? && (ListenMoves(s, p, l) > 0 || Serving(s, l))
    ensures MayLeak(s, l)
    decreases ListenMoves(s, p, l)
  {
    var a := if ListenMoves(s, p, l) > 0 then Listen(p, true, l) else Close;
    if ListenMoves(s, p, l) > 0 {
      ListenAdvances(s, p, l);
      ActionKeeps(s, a);
      LeakAhead(Do(s, a), p, l);
    } else {
      ActionKeeps(s, a);
      TransientErrorLeaksListener(Do(s, a), l);
    }
    MayLeakVia(s, a, l);
  }

  // So a run exists from the start after which Close has returned, the listener is open, and its
  // accept loop is gone.
  lemma LeakIsReachable()
    ensures MayLeak(INIT, 0)
  {
    ActionKeeps(INIT, Call(0));
    LeakAhead(Do(INIT, Call(0)), 0, 0);
    MayLeakVia(INIT, Call(0), 0);
  }
}
