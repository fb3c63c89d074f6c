// What the calls and loops of BridgeRuns do, branch by branch, when nobody comes in between.
module BridgeAnswers {
  import opened Wrappers
  import opened BridgeSet
  import opened BridgeRuns

  // Running acts from s leads to t.
  ghost predicate Leads(s: Sys, acts: seq<Action>, t: Sys) {
    Runs(s, acts) && After(s, acts) == t
  }

  lemma LeadsOne(s: Sys, a: Action, t: Sys)
    requires Enabled(s, a) && Do(s, a) == t
    ensures Leads(s, [a], t)
  {
    assert [a][1..] == [];
  }

  lemma LeadsVia(s: Sys, a: Action, rest: seq<Action>, t: Sys)
    requires Enabled(s, a) && Leads(Do(s, a), rest, t)
    ensures Leads(s, [a] + rest, t)
  {
    assert ([a] + rest)[1..] == rest;
  }

  lemma UpdateTwice<K, V>(m: map<K, V>, k: K, x: V, y: V)
    ensures m[k := x][k := y] == m[k := y]
  {
  }

  // ListenLocal of a bridgeable route in an open registry, net.Listen giving l: it returns l, open,
  // tracked and served.
  lemma ListenServes(s: Sys, p: Pid, l: Listener)
    requires p !in s.listens && s.closer.Unclosed? && !s.latched && l !in s.bound
    ensures var a := Listen(p, true, l);
            Leads(s, [Call(p)] + ([a] + ([a] + ([a] + [a]))),
                  s.(bound := s.bound + {l}, live := s.live + {l}, tracked := s.tracked + [l],
                     accepts := s.accepts[l := Accepting], handed := s.handed + {l},
                     listens := s.listens[p := Returned(Some(l))]))
  {
    var a, s1 := Listen(p, true, l), Do(s, Call(p));
    var s2 := s1.(listens := s.listens[p := Binding]);
    var s3 := s2.(bound := s.bound + {l}, live := s.live + {l}, listens := s.listens[p := Adding(l)]);
    var s4 := s3.(tracked := s.tracked + [l], listens := s.listens[p := Launching(l)]);
    var end := s4.(accepts := s.accepts[l := Accepting], handed := s.handed + {l},
                   listens := s.listens[p := Returned(Some(l))]);
    UpdateTwice(s.listens, p, Looking, Binding);
    UpdateTwice(s.listens, p, Binding, Adding(l));
    UpdateTwice(s.listens, p, Adding(l), Launching(l));
    UpdateTwice(s.listens, p, Launching(l), Returned(Some(l)));
    LeadsOne(s4, a, end);
    LeadsVia(s3, a, [a], end);
    LeadsVia(s2, a, [a] + [a], end);
    LeadsVia(s1, a, [a] + ([a] + [a]), end);
    LeadsVia(s, Call(p), [a] + ([a] + ([a] + [a])), end);
  }

  // Nothing is bound for a route that is missing or cannot be bridged, or in a closed registry.
  lemma ListenRefused(s: Sys, p: Pid, ok: bool, l: Listener)
    requires p !in s.listens && (!ok || !s.closer.Unclosed?)
    ensures Leads(s, [Call(p)] + [Listen(p, ok, l)], s.(listens := s.listens[p := Returned(None)]))
  {
    var t, end := Do(s, Call(p)), s.(listens := s.listens[p := Returned(None)]);
    UpdateTwice(s.listens, p, Looking, Returned(None));
    LeadsOne(t, Listen(p, ok, l), end);
    LeadsVia(s, Call(p), [Listen(p, ok, l)], end);
  }

  // A failing net.Listen leaves nothing behind either.
  lemma ListenFails(s: Sys, p: Pid, l: Listener)
    requires p in s.listens && s.listens[p].Binding?
    ensures Leads(s, [Listen(p, false, l)], s.(listens := s.listens[p := Returned(None)]))
  {
    LeadsOne(s, Listen(p, false, l), s.(listens := s.listens[p := Returned(None)]));
  }

  // A ListenLocal overtaken by closeAll closes the listener it bound, and returns none.
  lemma ListenOvertaken(s: Sys, p: Pid, l: Listener, ok: bool, born: Listener)
    requires p in s.listens && s.listens[p] == Adding(l) && s.latched
    ensures Leads(s, [Listen(p, ok, born)] + [Listen(p, ok, born)],
                  s.(live := s.live - {l}, listens := s.listens[p := Returned(None)]))
  {
    var a, t := Listen(p, ok, born), s.(listens := s.listens[p := Rejecting(l)]);
    var end := s.(live := s.live - {l}, listens := s.listens[p := Returned(None)]);
    UpdateTwice(s.listens, p, Rejecting(l), Returned(None));
    LeadsOne(t, a, end);
    LeadsVia(s, a, [a], end);
  }

  // A transient Accept error and the backoff after it change nothing: the loop accepts again. Nor
  // does a connection accepted.
  lemma AcceptLoopGoesOn(s: Sys, l: Listener)
    requires l in s.accepts && s.accepts[l].Accepting? && l in s.live
    ensures Leads(s, [Accept(l, true)] + [Wake(l, true)], s)
    ensures Leads(s, [Accept(l, false)], s)
  {
    var t := s.(accepts := s.accepts[l := BackingOff]);
    UpdateTwice(s.accepts, l, BackingOff, Accepting);
    assert s.accepts[l := Accepting] == s.accepts;
    LeadsOne(t, Wake(l, true), s);
    LeadsVia(s, Accept(l, true), [Wake(l, true)], s);
    LeadsOne(s, Accept(l, false), s);
  }

  // Only Close cuts a backoff wait short, once `done` is closed; the loop then leaves.
  lemma DoneEndsBackoff(s: Sys, l: Listener)
    requires l in s.accepts && s.accepts[l].BackingOff?
    ensures Enabled(s, Wake(l, false)) <==> !s.closer.Unclosed? && !s.closer.Closed?
    ensures Enabled(s, Wake(l, false)) ==>
              Leads(s, [Wake(l, false)] + [Leave(l)],
                    s.(accepts := s.accepts[l := Left], tracked := RemoveFirst(s.tracked, l),
                       slipped := if l in s.live && l in s.tracked then s.slipped + {l} else s.slipped))
  {
    if Enabled(s, Wake(l, false)) {
      var t := s.(accepts := s.accepts[l := Leaving]);
      var end := s.(accepts := s.accepts[l := Left], tracked := RemoveFirst(s.tracked, l),
                    slipped := if l in s.live && l in s.tracked then s.slipped + {l} else s.slipped);
      UpdateTwice(s.accepts, l, Leaving, Left);
      LeadsOne(t, Leave(l), end);
      LeadsVia(s, Wake(l, false), [Leave(l)], end);
    }
  }

  // Once its listener is closed the loop leaves and untracks it.
  lemma ClosedListenerEndsLoop(s: Sys, l: Listener, transient: bool)
    requires l in s.accepts && s.accepts[l].Accepting? && l !in s.live && !transient
    ensures Leads(s, [Accept(l, transient)] + [Leave(l)],
                  s.(accepts := s.accepts[l := Left], tracked := RemoveFirst(s.tracked, l)))
  {
    var t := s.(accepts := s.accepts[l := Leaving]);
    var end := s.(accepts := s.accepts[l := Left], tracked := RemoveFirst(s.tracked, l));
    UpdateTwice(s.accepts, l, Leaving, Left);
    LeadsOne(t, Leave(l), end);
    LeadsVia(s, Accept(l, transient), [Leave(l)], end);
  }

  // A caller's Close closes its listener and nothing else.
  lemma CallerCloses(s: Sys, l: Listener)
    requires l in s.handed
    ensures Leads(s, [CallerClose(l)], s.(live := s.live - {l}, dropped := s.dropped + {l}))
  {
    LeadsOne(s, CallerClose(l), s.(live := s.live - {l}, dropped := s.dropped + {l}));
  }

  function Listeners(ls: seq<Listener>): set<Listener> {
    set l | l in ls
  }

  // Registry.Close with nobody in between closes exactly the tracked listeners, and shuts the set.
  lemma CloseCloses(s: Sys) returns (acts: seq<Action>)
    requires s.closer.Unclosed?
    ensures Leads(s, acts, s.(live := s.live - Listeners(s.tracked), tracked := [], latched := true,
                              closer := Finished))
  {
    var end := s.(live := s.live - Listeners(s.tracked), tracked := [], latched := true, closer := Finished);
    var s1, s2 := s.(closer := Closed), s.(closer := Done);
    var s3 := s.(tracked := [], latched := true, closer := Closing(s.tracked));
    var rest := ClosesRest(s3);
    LeadsVia(s2, Close, rest, end);
    LeadsVia(s1, Close, [Close] + rest, end);
    acts := [Close] + ([Close] + ([Close] + rest));
    LeadsVia(s, Close, [Close] + ([Close] + rest), end);
  }

  lemma {:induction false} ClosesRest(s: Sys) returns (acts: seq<Action>)
    requires s.closer.Closing?
    ensures Leads(s, acts, s.(live := s.live - Listeners(s.closer.rest), closer := Finished))
    decreases |s.closer.rest|
  {
    var ls := s.closer.rest;
    var end := s.(live := s.live - Listeners(ls), closer := Finished);
    if ls == [] {
      acts := [Close];
      assert s.live - Listeners(ls) == s.live;
      LeadsOne(s, Close, end);
    } else {
      var t := s.(live := s.live - {ls[0]}, closer := Closing(ls[1..]));
      var rest := ClosesRest(t);
      assert t.live - Listeners(ls[1..]) == s.live - Listeners(ls) by {
        assert Listeners(ls) == {ls[0]} + Listeners(ls[1..]) by {
          assert ls == [ls[0]] + ls[1..];
        }
      }
      acts := [Close] + rest;
      LeadsVia(s, Close, rest, end);
    }
  }
}
