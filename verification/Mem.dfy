// backend/mem.go: an in-memory listener over an unbuffered channel.
//
// A dial makes a pipe and offers its server half on the channel; an accept takes one offer. A send
// and a receive on an unbuffered channel are one event, and any ready branch of a select may be
// taken. The machine lets a call wait at its select for any time, so it has every run the select
// rules permit; what holds of all its runs holds of the listener.
module Mem {

  type Pid = nat

  // The pipe a dial makes is named after the dial.
  datatype End = Client(pipe: Pid) | Server(pipe: Pid)

  datatype Proc =
    | Offering                          // 31-33
    | ClosingClient(closed: bool)       // 35, 39; `closed`: the listener closed, else the context ended
    | ClosingServer(closed: bool)       // 36, 40
    | Dialed                            // returned the client half
    | DialClosed                        // returned errMemClosed
    | DialCancelled                     // returned ctx.Err()
    | Awaiting                          // 46-48
    | Accepted(from: Pid)               // returned this pipe's server half
    | AcceptClosed

  // `closes` counts Close calls on pipe ends; `matched` is the history of rendezvous.
  datatype Sys = Sys(done: bool, procs: map<Pid, Proc>, closes: multiset<End>, matched: map<Pid, Pid>)

  const INIT: Sys := Sys(false, map[], multiset{}, map[])

  datatype Action =
    | Dial(p: Pid)
    | Accept(p: Pid)
    | Rendezvous(d: Pid, a: Pid)
    | SeeDone(p: Pid)
    | Cancel(p: Pid)
    | CloseEnd(p: Pid)
    | Close

  predicate Enabled(s: Sys, act: Action) {
    match act
    case Dial(p) => p !in s.procs
    case Accept(p) => p !in s.procs
    case Rendezvous(d, a) => d in s.procs && a in s.procs && s.procs[d] == Offering && s.procs[a] == Awaiting
    case SeeDone(p) => s.done && p in s.procs && (s.procs[p] == Offering || s.procs[p] == Awaiting)
    case Cancel(p) => p in s.procs && s.procs[p] == Offering
    case CloseEnd(p) => p in s.procs && (s.procs[p].ClosingClient? || s.procs[p].ClosingServer?)
    case Close => true
  }

  function Do(s: Sys, act: Action): Sys
    requires Enabled(s, act)
  {
    match act
    case Dial(p) => s.(procs := s.procs[p := Offering])
    case Accept(p) => s.(procs := s.procs[p := Awaiting])
    case Rendezvous(d, a) => s.(procs := s.procs[d := Dialed][a := Accepted(d)], matched := s.matched[d := a])
    case SeeDone(p) => s.(procs := s.procs[p := if s.procs[p] == Offering then ClosingClient(true) else AcceptClosed])
    case Cancel(p) => s.(procs := s.procs[p := ClosingClient(false)])
    case CloseEnd(p) =>
      (match s.procs[p]
       case ClosingClient(c) => s.(procs := s.procs[p := ClosingServer(c)], closes := s.closes + multiset{Client(p)})
       case ClosingServer(c) =>
         s.(procs := s.procs[p := if c then DialClosed else DialCancelled], closes := s.closes + multiset{Server(p)})
       case _ => s)
    case Close => s.(done := true)      // closeOnce: closing twice changes nothing
  }

  predicate Runs(s: Sys, acts: seq<Action>)
    decreases |acts|
  {
    acts == [] || (Enabled(s, acts[0]) && Runs(Do(s, acts[0]), acts[1..]))
  }

  function After(s: Sys, acts: seq<Action>): Sys
    requires Runs(s, acts)
    decreases |acts|
  {
    if acts == [] then s else After(Do(s, acts[0]), acts[1..])
  }

  predicate Paired(s: Sys, d: Pid, a: Pid) {
    d in s.matched && s.matched[d] == a
  }

  // Accept call a returned the server half of dial d's pipe.
  predicate Got(s: Sys, a: Pid, d: Pid) {
    a in s.procs && s.procs[a] == Accepted(d)
  }

  predicate Succeeded(s: Sys, d: Pid) {
    d in s.procs && s.procs[d] == Dialed
  }

  // The history pairs exactly the successful dials and the successful accepts.
  ghost predicate MatchOk(s: Sys) {
    && (forall d, a :: Paired(s, d, a) <==> Got(s, a, d))
    && (forall d :: d in s.matched <==> Succeeded(s, d))
  }

  predicate Failed(s: Sys, p: Pid) {
    p in s.procs && (s.procs[p] == DialClosed || s.procs[p] == DialCancelled)
  }

  predicate HalfShut(s: Sys, p: Pid) {
    p in s.procs && s.procs[p].ClosingServer?
  }

  // Ends are closed by the dials that failed, and by nobody else.
  ghost predicate ClosesOk(s: Sys) {
    && (forall p: Pid :: s.closes[Client(p)] == if HalfShut(s, p) || Failed(s, p) then 1 else 0)
    && (forall p: Pid :: s.closes[Server(p)] == if Failed(s, p) then 1 else 0)
  }

  // "Listener closed" is reported only by a closed listener.
  predicate Blames(pr: Proc) {
    pr == AcceptClosed || pr == DialClosed || pr == ClosingClient(true) || pr == ClosingServer(true)
  }

  ghost predicate DoneOk(s: Sys) {
    forall p | p in s.procs && Blames(s.procs[p]) :: s.done
  }

  lemma RendezvousKeepsMatch(s: Sys, d: Pid, a: Pid)
    requires MatchOk(s) && Enabled(s, Rendezvous(d, a))
    ensures MatchOk(Do(s, Rendezvous(d, a)))
  {
    var t := Do(s, Rendezvous(d, a));
    assert !Succeeded(s, d) && d !in s.matched;
    assert forall x :: !Got(s, a, x);
    assert forall x, y :: Got(t, x, y) <==> Got(s, x, y) || (x == a && y == d);
  }

  predicate Has(s: Sys, x: Pid, pr: Proc) {
    x in s.procs && s.procs[x] == pr
  }

  // Nothing else makes or touches a matched call.
  lemma OthersMatchNothing(s: Sys, act: Action, x: Pid, pr: Proc)
    requires Enabled(s, act) && !act.Rendezvous? && (pr.Dialed? || pr.Accepted?)
    ensures Do(s, act).matched == s.matched
    ensures Has(Do(s, act), x, pr) <==> Has(s, x, pr)
  {
  }

  lemma SameMatches(s: Sys, t: Sys)
    requires MatchOk(s) && t.matched == s.matched
    requires forall x, pr: Proc | pr.Dialed? || pr.Accepted? :: Has(t, x, pr) <==> Has(s, x, pr)
    ensures MatchOk(t)
  {
    assert forall x :: Succeeded(t, x) <==> Has(t, x, Dialed);
    assert forall x :: Succeeded(s, x) <==> Has(s, x, Dialed);
    assert forall x, y :: Got(t, x, y) <==> Has(t, x, Accepted(y));
    assert forall x, y :: Got(s, x, y) <==> Has(s, x, Accepted(y));
    assert forall x, y :: Paired(t, x, y) <==> Paired(s, x, y);
  }

  lemma ActionKeepsMatch(s: Sys, act: Action)
    requires MatchOk(s) && Enabled(s, act)
    ensures MatchOk(Do(s, act))
  {
    if act.Rendezvous? {
      RendezvousKeepsMatch(s, act.d, act.a);
    } else {
      var t := Do(s, act);
      forall x, pr: Proc | pr.Dialed? || pr.Accepted?
        ensures t.matched == s.matched && (Has(t, x, pr) <==> Has(s, x, pr))
      {
        OthersMatchNothing(s, act, x, pr);
      }
      SameMatches(s, t);
    }
  }

  lemma CloseEndKeepsCloses(s: Sys, p: Pid)
    requires ClosesOk(s) && Enabled(s, CloseEnd(p))
    ensures ClosesOk(Do(s, CloseEnd(p)))
  {
    var t := Do(s, CloseEnd(p));
    assert forall q | q != p :: (HalfShut(t, q) <==> HalfShut(s, q)) && (Failed(t, q) <==> Failed(s, q));
  }

  lemma OthersKeepCloses(s: Sys, act: Action)
    requires ClosesOk(s) && Enabled(s, act) && !act.CloseEnd?
    ensures ClosesOk(Do(s, act))
  {
    var t := Do(s, act);
    assert forall q :: (HalfShut(t, q) <==> HalfShut(s, q)) && (Failed(t, q) <==> Failed(s, q));
  }

  lemma ActionKeepsDone(s: Sys, act: Action)
    requires DoneOk(s) && Enabled(s, act)
    ensures DoneOk(Do(s, act))
  {
  }

  lemma {:induction false} RunKeeps(s: Sys, acts: seq<Action>)
    requires MatchOk(s) && ClosesOk(s) && DoneOk(s) && Runs(s, acts)
    ensures var t := After(s, acts); MatchOk(t) && ClosesOk(t) && DoneOk(t)
    decreases |acts|
  {
    if acts != [] {
      var t := Do(s, acts[0]);
      ActionKeepsMatch(s, acts[0]);
      if acts[0].CloseEnd? {
        CloseEndKeepsCloses(s, acts[0].p);
      } else {
        OthersKeepCloses(s, acts[0]);
      }
      ActionKeepsDone(s, acts[0]);
      RunKeeps(t, acts[1..]);
    }
  }

  // Successful dials and successful accepts are in bijection: each dial's server half was returned
  // by exactly one accept, and each accept returned the server half of exactly one successful dial.
  lemma RendezvousIsBijection(acts: seq<Action>)
    requires Runs(INIT, acts)
    ensures var s := After(INIT, acts);
            && (forall d :: Succeeded(s, d) ==> d in s.matched && Got(s, s.matched[d], d))
            && (forall d, a :: Got(s, a, d) ==> Succeeded(s, d) && s.matched[d] == a)
            && (forall d, a, b :: Got(s, a, d) && Got(s, b, d) ==> a == b)
            && (forall d, e, a :: Got(s, a, d) && Got(s, a, e) ==> d == e)
  {
    RunKeeps(INIT, acts);
    var s := After(INIT, acts);
    forall d | Succeeded(s, d) ensures Got(s, s.matched[d], d) {
      assert Paired(s, d, s.matched[d]);
    }
    forall d, a | Got(s, a, d) ensures Succeeded(s, d) && s.matched[d] == a {
      assert Paired(s, d, a);
    }
  }

  // Every other pipe whose dial has returned is closed at both ends, once each, and the ends of a
  // successful dial's pipe are never closed by the listener - across Close and cancellation.
  lemma OtherPipesClosed(acts: seq<Action>, d: Pid)
    requires Runs(INIT, acts)
    ensures var s := After(INIT, acts);
            && (Failed(s, d) ==> s.closes[Client(d)] == 1 && s.closes[Server(d)] == 1)
            && (Succeeded(s, d) ==> s.closes[Client(d)] == 0 && s.closes[Server(d)] == 0)
            && (d in s.procs && (s.procs[d] == DialClosed || s.procs[d] == AcceptClosed) ==> s.done)
  {
    RunKeeps(INIT, acts);
  }

  // The select rules alone do not make Close a barrier: a dial and an accept that both reach their
  // select after it may be matched with each other. No theorem here may assume otherwise.
  lemma RendezvousAfterClose()
    ensures exists acts :: Runs(INIT, acts) && var s := After(INIT, acts); s.done && Succeeded(s, 0) && Got(s, 1, 0)
  {
    var s1 := Do(INIT, Close);
    var s2 := Do(s1, Dial(0));
    var s3 := Do(s2, Accept(1));
    var r3 := [Rendezvous(0, 1)] + [];
    Unroll(s3, Rendezvous(0, 1), []);
    Unroll(s2, Accept(1), r3);
    Unroll(s1, Dial(0), [Accept(1)] + r3);
    Unroll(INIT, Close, [Dial(0)] + ([Accept(1)] + r3));
    assert Runs(INIT, [Close] + ([Dial(0)] + ([Accept(1)] + r3)));
  }

  lemma Unroll(s: Sys, a: Action, rest: seq<Action>)
    ensures Runs(s, [a] + rest) <==> Enabled(s, a) && Runs(Do(s, a), rest)
    ensures Runs(s, [a] + rest) ==> After(s, [a] + rest) == After(Do(s, a), rest)
  {
    assert ([a] + rest)[1..] == rest;
  }

  // ---- What each call answers ----

  ghost predicate Leads(s: Sys, acts: seq<Action>, t: Sys) {
    Runs(s, acts) && After(s, acts) == t
  }

  // A dial and an accept that meet return the two ends of the dial's pipe, and close nothing.
  lemma Meet(s: Sys, d: Pid, a: Pid)
    requires d in s.procs && a in s.procs && s.procs[d] == Offering && s.procs[a] == Awaiting
    ensures Leads(s, [Rendezvous(d, a)],
                  s.(procs := s.procs[d := Dialed][a := Accepted(d)], matched := s.matched[d := a]))
  {
    assert [Rendezvous(d, a)][1..] == [];
  }

  // A dial given up, by the listener's Close or by its context, closes both ends of its pipe and
  // says which of the two it was.
  lemma GivenUp(s: Sys, d: Pid, byClose: bool)
    requires d in s.procs && s.procs[d] == Offering && (byClose ==> s.done)
    ensures Leads(s, [if byClose then SeeDone(d) else Cancel(d)] + ([CloseEnd(d)] + [CloseEnd(d)]),
                  s.(procs := s.procs[d := if byClose then DialClosed else DialCancelled],
                     closes := s.closes + multiset{Client(d)} + multiset{Server(d)}))
  {
    var a := if byClose then SeeDone(d) else Cancel(d);
    var t := Do(s, a);
    var u := Do(t, CloseEnd(d));
    var v := Do(u, CloseEnd(d));
    assert v.procs == s.procs[d := if byClose then DialClosed else DialCancelled];
    Unroll(u, CloseEnd(d), []);
    assert [CloseEnd(d)] + [] == [CloseEnd(d)];
    Unroll(t, CloseEnd(d), [CloseEnd(d)]);
    Unroll(s, a, [CloseEnd(d)] + [CloseEnd(d)]);
  }

  // A waiting accept is told of Close, and a listener that is open tells nobody.
  lemma ClosedAccept(s: Sys, a: Pid)
    requires a in s.procs && s.procs[a] == Awaiting
    ensures Enabled(s, SeeDone(a)) <==> s.done
    ensures s.done ==> Do(s, SeeDone(a)) == s.(procs := s.procs[a := AcceptClosed])
  {
  }

  // Close is idempotent and touches no call.
  lemma ClosesTwice(s: Sys)
    ensures Do(s, Close) == s.(done := true) && Do(Do(s, Close), Close) == Do(s, Close)
  {
  }
}
