// What the two relays deliver, in every run of Relay.
module RelaySafety {
  import opened Relay

  ghost predicate Begins(s: Sys) {
    (exists u, d :: s == InitBridge(u, d)) || (exists u, d, b :: s == InitConnect(u, d, b))
  }

  lemma {:induction false} RunKeeps(s: Sys, acts: seq<Action>)
    requires Inv(s) && Runs(s, acts)
    ensures Inv(After(s, acts))
    decreases |acts|
  {
    if acts != [] {
      ActionKeeps(s, acts[0]);
      RunKeeps(Do(s, acts[0]), acts[1..]);
    }
  }

  lemma BeginsOk(s: Sys)
    requires Begins(s)
    ensures Inv(s)
  {
  }

  // t is a later state of the same relay.
  predicate Extends(s: Sys, t: Sys) {
    && t.kind == s.kind && t.canUp == s.canUp && t.canDown == s.canDown
    && s.up.sent <= t.up.sent && s.down.sent <= t.down.sent
  }

  lemma {:induction false} Unchanging(s: Sys, acts: seq<Action>)
    requires Runs(s, acts)
    ensures Extends(s, After(s, acts))
    decreases |acts|
  {
    if acts != [] {
      SentGrows(s, acts[0]);
      Unchanging(Do(s, acts[0]), acts[1..]);
    }
  }

  lemma SentGrows(s: Sys, a: Action)
    requires Enabled(s, a)
    ensures Extends(s, Do(s, a))
  {
    if !a.Act? || !a.m.Send? {
      OnlyPeersSend(s, a);
    }
  }

  predicate SameSent(s: Sys, t: Sys) {
    && t.kind == s.kind && t.canUp == s.canUp && t.canDown == s.canDown
    && t.up.sent == s.up.sent && t.down.sent == s.down.sent
  }

  lemma MovedKeepsSource(f: Flow, m: Move, src: bool, dst: bool, can: bool)
    requires Possible(f, m, src, dst) && !m.Send?
    ensures var g := Moved(f, m, src, dst, can); g.sent == f.sent && (!m.Finish? ==> g.over == f.over)
  {
  }

  lemma AroundKeepsSources(s: Sys, w: Way, m: Move, t: Sys)
    ensures var u := Around(s, w, m, t); SameSent(t, u) && u.up.over == t.up.over && u.down.over == t.down.over
  {
  }

  lemma OnlyPeersSend(s: Sys, a: Action)
    requires Enabled(s, a) && (a.Act? ==> !a.m.Send?)
    ensures SameSent(s, Do(s, a))
    ensures (a.Act? ==> !a.m.Finish?) ==> Do(s, a).up.over == s.up.over && Do(s, a).down.over == s.down.over
  {
    if a.Act? {
      var g := Moved(Of(s, a.w), a.m, SourceClosed(s, a.w), TargetClosed(s, a.w), CanHalfClose(s, a.w));
      MovedKeepsSource(Of(s, a.w), a.m, SourceClosed(s, a.w), TargetClosed(s, a.w), CanHalfClose(s, a.w));
      AroundKeepsSources(s, a.w, a.m, With(s, a.w, g));
    }
  }

  // In each direction what was delivered is a prefix of what was sent, at every moment, whatever
  // fails; over CONNECT the bytes buffered by the hijack come first.
  lemma DeliveredIsPrefix(s: Sys, acts: seq<Action>)
    requires Begins(s) && Runs(s, acts)
    ensures var t := After(s, acts);
            t.up.got <= t.up.sent && t.down.got <= t.down.sent && s.up.sent <= t.up.sent
  {
    BeginsOk(s);
    RunKeeps(s, acts);
    Unchanging(s, acts);
  }

  // All the source sent before it finished has arrived.
  predicate Whole(f: Flow) {
    f.over && f.got == f.sent
  }

  // The bridge closes the upstream fully only after the response copy ended: with all the upstream
  // sent delivered, or by a failure of that copy's own conns, or because the registry closed. A
  // client EOF alone never does it, nor does a failure of the request copy.
  lemma ClientEofKeepsUpstream(canUp: bool, canDown: bool, acts: seq<Action>)
    requires Runs(InitBridge(canUp, canDown), acts)
    ensures var t := After(InitBridge(canUp, canDown), acts);
            t.upstreamClosed ==> t.down.pc.Settled? && (Whole(t.down) || t.down.end.ByNetwork? || t.torn)
  {
    RunKeeps(InitBridge(canUp, canDown), acts);
    Unchanging(InitBridge(canUp, canDown), acts);
  }

  // The client is told the response ended only after it got all of it, unless the response copy
  // itself failed or the registry closed; what becomes of the request copy does not matter.
  lemma ResponseEndsWhole(canUp: bool, canDown: bool, acts: seq<Action>)
    requires Runs(InitBridge(canUp, canDown), acts)
    ensures var t := After(InitBridge(canUp, canDown), acts);
            && (t.down.eof ==> Whole(t.down) || t.down.end.ByNetwork? || t.torn)
            && (t.down.pc.Settled? && !t.down.end.ByNetwork? && !t.torn ==>
                  Whole(t.down) && (t.down.eof || t.clientClosed))
  {
    RunKeeps(InitBridge(canUp, canDown), acts);
    Unchanging(InitBridge(canUp, canDown), acts);
  }

  // ---- Completion ----

  predicate NetworkFailed(s: Sys) {
    s.up.end.ByNetwork? || s.down.end.ByNetwork?
  }

  // A move of the relay itself that the network has no part in: errors only on conns it closed.
  predicate RelayMove(s: Sys, a: Action) {
    match a
    case Act(w, m) =>
      (match m
       case Send(_) => false
       case Finish => false
       case ReadError => SourceClosed(s, w)
       case WriteError(_) => TargetClosed(s, w)
       case _ => true)
    case Unwind => true
    case RegistryClose => false
  }

  // The relay has no move left.
  ghost predicate Stuck(s: Sys) {
    forall a | Enabled(s, a) :: !RelayMove(s, a)
  }

  predicate RelayRuns(s: Sys, acts: seq<Action>)
    decreases |acts|
  {
    acts == [] || (Enabled(s, acts[0]) && RelayMove(s, acts[0]) && RelayRuns(Do(s, acts[0]), acts[1..]))
  }

  lemma {:induction false} RelayRunsRun(s: Sys, acts: seq<Action>)
    requires RelayRuns(s, acts)
    ensures Runs(s, acts)
    decreases |acts|
  {
    if acts != [] {
      RelayRunsRun(Do(s, acts[0]), acts[1..]);
    }
  }

  function FlowRank(f: Flow): int {
    match f.pc
    case Waiting => 2 * (|f.sent| - f.taken) + 3
    case Reading => 2 * (|f.sent| - f.taken) + 2
    case Writing(_) => 2 * (|f.sent| - f.taken) + 3
    case Ended => 1
    case Settled => 0
  }

  function Rank(s: Sys): int {
    FlowRank(s.up) + FlowRank(s.down) + if s.finished then 0 else 1
  }

  lemma MovedLowersRank(f: Flow, m: Move, src: bool, dst: bool, can: bool)
    requires FlowOk(f, can) && Possible(f, m, src, dst) && !m.Send? && !m.Finish?
    ensures FlowRank(Moved(f, m, src, dst, can)) < FlowRank(f)
  {
  }

  lemma MoveLowersRank(s: Sys, a: Action)
    requires Inv(s) && Enabled(s, a) && RelayMove(s, a)
    ensures 0 <= Rank(Do(s, a)) < Rank(s)
  {
    ActionKeeps(s, a);
    RankNonNegative(Do(s, a));
    if a.Act? {
      MovedLowersRank(Of(s, a.w), a.m, SourceClosed(s, a.w), TargetClosed(s, a.w), CanHalfClose(s, a.w));
      ActLowersRank(s, a.w, a.m);
    }
  }

  lemma ActLowersRank(s: Sys, w: Way, m: Move)
    requires Inv(s) && Enabled(s, Act(w, m)) && RelayMove(s, Act(w, m))
    requires var f := Moved(Of(s, w), m, SourceClosed(s, w), TargetClosed(s, w), CanHalfClose(s, w));
             FlowRank(f) < FlowRank(Of(s, w))
    ensures Rank(Do(s, Act(w, m))) < Rank(s)
  {
  }

  lemma RankNonNegative(s: Sys)
    requires Inv(s)
    ensures Rank(s) >= 0
  {
  }

  // Relay moves leave the peers alone, do not fail, and are not Close.
  predicate SamePeers(s: Sys, t: Sys) {
    SameSent(s, t) && t.up.over == s.up.over && t.down.over == s.down.over && t.torn == s.torn
  }

  lemma MoveKeepsPeers(s: Sys, a: Action)
    requires Inv(s) && Enabled(s, a) && RelayMove(s, a)
    ensures SamePeers(s, Do(s, a))
  {
    OnlyPeersSend(s, a);
  }

  lemma MoveFailsNothing(s: Sys, a: Action)
    requires Inv(s) && Enabled(s, a) && RelayMove(s, a)
    ensures FailsNoMore(s.up, Do(s, a).up) && FailsNoMore(s.down, Do(s, a).down)
  {
    if a.Act? {
      var g := Moved(Of(s, a.w), a.m, SourceClosed(s, a.w), TargetClosed(s, a.w), CanHalfClose(s, a.w));
      assert FailsNoMore(Of(s, a.w), g);
    }
  }

  predicate FailsNoMore(f: Flow, g: Flow) {
    g.end.ByNetwork? ==> f.end.ByNetwork?
  }

  // Alone, the relay makes at most Rank moves.
  lemma {:induction false} RelayRunIsShort(s: Sys, acts: seq<Action>)
    requires Inv(s) && RelayRuns(s, acts)
    ensures |acts| <= Rank(s) && Runs(s, acts)
    ensures var t := After(s, acts);
            SamePeers(s, t) && Inv(t) && FailsNoMore(s.up, t.up) && FailsNoMore(s.down, t.down)
    decreases |acts|
  {
    if acts == [] {
      RankNonNegative(s);
    } else {
      ActionKeeps(s, acts[0]);
      MoveKeepsPeers(s, acts[0]);
      MoveFailsNothing(s, acts[0]);
      MoveLowersRank(s, acts[0]);
      RelayRunIsShort(Do(s, acts[0]), acts[1..]);
    }
  }

  // A copier always has a move until it has settled, once its source has finished or been closed.
  lemma CopierMoves(s: Sys, w: Way)
    requires Inv(s) && Stuck(s) && (Of(s, w).over || SourceClosed(s, w))
    ensures Of(s, w).pc.Waiting? || Of(s, w).pc.Settled?
  {
    var f := Of(s, w);
    if f.pc.Reading? {
      assert RelayMove(s, Act(w, Read(1))) && RelayMove(s, Act(w, ReadEof));
      assert !Enabled(s, Act(w, Read(1))) && !Enabled(s, Act(w, ReadEof));
      assert Enabled(s, Act(w, ReadError));
    } else if f.pc.Writing? {
      assert RelayMove(s, Act(w, Write)) && !Enabled(s, Act(w, Write));
      assert Enabled(s, Act(w, WriteError(0)));
    } else if f.pc.Ended? {
      assert Enabled(s, Act(w, Settle)) && RelayMove(s, Act(w, Settle));
    }
  }

  lemma StuckConnectFinished(s: Sys)
    requires Inv(s) && Stuck(s) && s.kind.Connect? && s.up.over && s.down.over
    ensures s.finished
  {
    CopierMoves(s, Up);
    CopierMoves(s, Down);
    assert RelayMove(s, Unwind);
  }

  // All bytes both ways, and the handler returned.
  predicate Delivered(s: Sys) {
    s.finished && Whole(s.up) && Whole(s.down)
  }

  function Other(w: Way): Way {
    if w.Up? then Down else Up
  }

  // Only the end of the other copy can cut a copy off, and only where it cannot half-close.
  lemma StuckConnectWhole(s: Sys, w: Way)
    requires Inv(s) && Stuck(s) && s.kind.Connect? && s.up.over && s.down.over
    requires CanHalfClose(s, Other(w)) && !NetworkFailed(s)
    ensures s.finished && Whole(Of(s, w)) && Of(s, w).eof == CanHalfClose(s, w)
  {
    StuckConnectFinished(s);
  }

  // With CloseWrite on both sides of CONNECT: once both peers have finished and nothing has failed,
  // the relay makes at most Rank moves, and where it can make no more everything was delivered -
  // the buffered bytes, then the rest, to the backend; the answer to the client - and EOF was
  // passed on each way.
  lemma ConnectCompletes(s: Sys, acts: seq<Action>)
    requires Inv(s) && s.kind.Connect? && s.canUp && s.canDown
    requires s.up.over && s.down.over && !NetworkFailed(s) && RelayRuns(s, acts)
    ensures |acts| <= Rank(s) && Runs(s, acts)
    ensures var t := After(s, acts);
            SameSent(s, t) && (Stuck(t) ==> Delivered(t) && t.up.eof && t.down.eof)
  {
    RelayRunIsShort(s, acts);
    if Stuck(After(s, acts)) {
      StuckConnectWhole(After(s, acts), Up);
      StuckConnectWhole(After(s, acts), Down);
    }
  }

  // A run of CONNECT without network failures, to its end: both peers finished, no move left.
  ghost predicate Quiesces(s: Sys, acts: seq<Action>) {
    Runs(s, acts) && var t := After(s, acts); t.up.over && t.down.over && !NetworkFailed(t) && Stuck(t)
  }

  ghost predicate AlwaysWhole(s: Sys, w: Way) {
    forall acts | Quiesces(s, acts) :: Whole(Of(After(s, acts), w))
  }

  ghost predicate AlwaysDelivers(s: Sys) {
    forall acts | Quiesces(s, acts) :: Delivered(After(s, acts))
  }

  // In every such run of CONNECT one direction delivers every byte exactly when the conn that the
  // other direction writes to supports CloseWrite.
  lemma DirectionWholeIff(canUp: bool, canDown: bool, buffered: seq<Byte>, w: Way)
    ensures var s := InitConnect(canUp, canDown, buffered); AlwaysWhole(s, w) <==> CanHalfClose(s, Other(w))
  {
    var s := InitConnect(canUp, canDown, buffered);
    if CanHalfClose(s, Other(w)) {
      forall acts | Quiesces(s, acts) ensures Whole(Of(After(s, acts), w)) {
        RunKeeps(s, acts);
        Unchanging(s, acts);
        StuckConnectWhole(After(s, acts), w);
      }
    } else {
      NoCloseWriteTruncates(canUp, canDown, buffered, Other(w), [0]);
    }
  }

  // So it delivers everything both ways in every such run exactly when both conns support
  // CloseWrite.
  lemma ConnectDeliversIff(canUp: bool, canDown: bool, buffered: seq<Byte>)
    ensures AlwaysDelivers(InitConnect(canUp, canDown, buffered)) <==> canUp && canDown
  {
    var s := InitConnect(canUp, canDown, buffered);
    DirectionWholeIff(canUp, canDown, buffered, Up);
    DirectionWholeIff(canUp, canDown, buffered, Down);
    if canUp && canDown {
      forall acts | Quiesces(s, acts) ensures Delivered(After(s, acts)) {
        RunKeeps(s, acts);
        Unchanging(s, acts);
        StuckConnectFinished(After(s, acts));
      }
    } else {
      assert AlwaysDelivers(s) ==> AlwaysWhole(s, Up) && AlwaysWhole(s, Down);
    }
  }

  // What is lost: where w's destination cannot half-close, some run delivers none of the bytes, any
  // bytes, that the other peer sends after CONNECT's preamble, with every read and write of an open
  // conn succeeding.
  lemma NoCloseWriteTruncates(canUp: bool, canDown: bool, buffered: seq<Byte>, w: Way, bytes: seq<Byte>)
    requires !CanHalfClose(InitConnect(canUp, canDown, buffered), w) && bytes != []
    ensures var s := InitConnect(canUp, canDown, buffered); CanLose(s, Other(w), Of(s, Other(w)).sent, bytes)
  {
    var s := InitConnect(canUp, canDown, buffered);
    CutOff(Do(s, Act(Up, Write)), w, bytes);
    LosesVia(s, Act(Up, Write), Other(w), Of(s, Other(w)).sent, bytes);
  }

  // `early` reached its destination, `bytes`, sent after it, did not.
  predicate Loses(s: Sys, o: Way, early: seq<Byte>, bytes: seq<Byte>) {
    Of(s, o).got == early && Of(s, o).sent == early + bytes
  }

  ghost predicate LosesRun(s: Sys, acts: seq<Action>, o: Way, early: seq<Byte>, bytes: seq<Byte>) {
    Quiesces(s, acts) && Loses(After(s, acts), o, early, bytes)
  }

  // Some run without network failures ends like that.
  ghost predicate CanLose(s: Sys, o: Way, early: seq<Byte>, bytes: seq<Byte>) {
    exists acts :: LosesRun(s, acts, o, early, bytes)
  }

  lemma LosesVia(s: Sys, a: Action, o: Way, early: seq<Byte>, bytes: seq<Byte>)
    requires Enabled(s, a) && CanLose(Do(s, a), o, early, bytes)
    ensures CanLose(s, o, early, bytes)
  {
    var rest :| LosesRun(Do(s, a), rest, o, early, bytes);
    Unroll(s, a, rest);
    assert LosesRun(s, [a] + rest, o, early, bytes);
  }

  // Both copiers are reading and have read all there is; w's destination cannot half-close.
  predicate Poised(s: Sys, w: Way) {
    && s.kind.Connect? && !CanHalfClose(s, w) && !s.clientClosed && !s.upstreamClosed && !s.finished
    && s.up.pc.Reading? && s.down.pc.Reading? && !s.up.over && !s.down.over && !NetworkFailed(s)
    && Of(s, w).taken == |Of(s, w).sent| && Of(s, Other(w)).got == Of(s, Other(w)).sent
  }

  // The peer behind the other copier sends, and before that is read w's source finishes.
  lemma CutOff(s: Sys, w: Way, bytes: seq<Byte>)
    requires Poised(s, w)
    ensures CanLose(s, Other(w), Of(s, Other(w)).sent, bytes)
  {
    var o, early := Other(w), Of(s, Other(w)).sent;
    var s1 := Do(s, Act(o, Send(bytes)));
    var s2 := Do(s1, Act(w, Finish));
    TornDown(Do(s2, Act(w, ReadEof)), w, early, bytes);
    LosesVia(s2, Act(w, ReadEof), o, early, bytes);
    LosesVia(s1, Act(w, Finish), o, early, bytes);
    LosesVia(s, Act(o, Send(bytes)), o, early, bytes);
  }

  // The end of w's copy closes both conns under the other copier.
  lemma TornDown(s: Sys, w: Way, early: seq<Byte>, bytes: seq<Byte>)
    requires s.kind.Connect? && !CanHalfClose(s, w) && !s.finished && !NetworkFailed(s)
    requires Loses(s, Other(w), early, bytes)
    requires var f, g := Of(s, w), Of(s, Other(w)); f.pc.Ended? && f.over && g.pc.Reading? && !g.over
    ensures CanLose(s, Other(w), early, bytes)
  {
    Abandoned(Do(s, Act(w, Settle)), Other(w), early, bytes);
    LosesVia(s, Act(w, Settle), Other(w), early, bytes);
  }

  lemma Abandoned(s: Sys, o: Way, early: seq<Byte>, bytes: seq<Byte>)
    requires s.kind.Connect? && !s.finished && !NetworkFailed(s) && s.clientClosed && s.upstreamClosed
    requires Loses(s, o, early, bytes)
    requires var f, g := Of(s, Other(o)), Of(s, o); f.pc.Settled? && f.over && g.pc.Reading? && !g.over
    ensures CanLose(s, o, early, bytes)
  {
    var s1 := Do(s, Act(o, ReadError));
    Closing(Do(s1, Act(o, Finish)), o, early, bytes);
    LosesVia(s1, Act(o, Finish), o, early, bytes);
    LosesVia(s, Act(o, ReadError), o, early, bytes);
  }

  lemma Closing(s: Sys, o: Way, early: seq<Byte>, bytes: seq<Byte>)
    requires s.kind.Connect? && !s.finished && !NetworkFailed(s) && Loses(s, o, early, bytes)
    requires var f, g := Of(s, Other(o)), Of(s, o); f.pc.Settled? && f.over && g.pc.Ended? && g.over
    ensures CanLose(s, o, early, bytes)
  {
    var s1 := Do(s, Act(o, Settle));
    assert LosesRun(Do(s1, Unwind), [], o, early, bytes);
    LosesVia(s1, Unwind, o, early, bytes);
    LosesVia(s, Act(o, Settle), o, early, bytes);
  }

  lemma Unroll(s: Sys, a: Action, rest: seq<Action>)
    ensures Runs(s, [a] + rest) <==> Enabled(s, a) && Runs(Do(s, a), rest)
    ensures Runs(s, [a] + rest) ==> After(s, [a] + rest) == After(Do(s, a), rest)
  {
    assert ([a] + rest)[1..] == rest;
  }

  // In the bridge the response direction completes whether or not the upstream can half-close, and
  // whatever becomes of the request: once the upstream has finished, the relay makes at most Rank
  // moves, and where it can make no more the client has all bytes, then EOF.
  lemma BridgeResponseCompletes(s: Sys, acts: seq<Action>)
    requires Inv(s) && s.kind.Bridge? && s.down.over && !s.down.end.ByNetwork? && !s.torn && RelayRuns(s, acts)
    ensures |acts| <= Rank(s) && Runs(s, acts)
    ensures var t := After(s, acts);
            && SameSent(s, t)
            && (Stuck(t) ==> t.down.pc.Settled? && Whole(t.down) && (t.down.eof || t.clientClosed))
  {
    RelayRunIsShort(s, acts);
    if Stuck(After(s, acts)) {
      CopierMoves(After(s, acts), Down);
    }
  }

  // The request direction of the bridge, where both conns can half-close: once the client has
  // finished, the upstream gets all bytes, then EOF, whatever becomes of the response.
  lemma BridgeRequestCompletes(s: Sys, acts: seq<Action>)
    requires Inv(s) && s.kind.Bridge? && s.canDown && s.up.over && !s.up.end.ByNetwork? && !s.torn
    requires RelayRuns(s, acts)
    ensures |acts| <= Rank(s) && Runs(s, acts)
    ensures var t := After(s, acts);
            SameSent(s, t) && (Stuck(t) ==> t.up.pc.Settled? && Whole(t.up) && t.up.eof == s.canUp)
  {
    RelayRunIsShort(s, acts);
    if Stuck(After(s, acts)) {
      CopierMoves(After(s, acts), Up);
    }
  }

  // Registry.Close unwinds a bridge: the client conn is closed, so the request copy ends whatever
  // the peers do, and once the upstream has finished too both copies end and the upstream is closed.
  // An idle upstream that ignores EOF is what can keep the response copy waiting.
  lemma BridgeCloseUnwinds(s: Sys, acts: seq<Action>)
    requires Inv(s) && Enabled(s, RegistryClose) && RelayRuns(Do(s, RegistryClose), acts)
    ensures var t := Do(s, RegistryClose);
            && |acts| <= Rank(t) && Runs(t, acts)
            && (Stuck(After(t, acts)) ==>
                  var u := After(t, acts);
                  u.clientClosed && u.up.pc.Settled? && (s.down.over ==> u.finished && u.upstreamClosed))
  {
    var t := Do(s, RegistryClose);
    ActionKeeps(s, RegistryClose);
    RelayRunIsShort(t, acts);
    ClientStaysClosed(t, acts);
    var u := After(t, acts);
    if Stuck(u) {
      CopierMoves(u, Up);
      if s.down.over {
        CopierMoves(u, Down);
        assert RelayMove(u, Unwind);
      }
    }
  }

  lemma {:induction false} ClientStaysClosed(s: Sys, acts: seq<Action>)
    requires Runs(s, acts) && s.clientClosed
    ensures After(s, acts).clientClosed
    decreases |acts|
  {
    if acts != [] {
      ClientStaysClosed(Do(s, acts[0]), acts[1..]);
    }
  }

  // A conn the relay has closed gives no more bytes and no EOF, and takes no more bytes, in any
  // continuation: once the registry has closed, for one, the client gets nothing more.
  lemma {:induction false} ClosedConnIsSilent(s: Sys, acts: seq<Action>, w: Way)
    requires Runs(s, acts)
    ensures TargetClosed(s, w) ==> Of(After(s, acts), w).got == Of(s, w).got
    ensures SourceClosed(s, w) ==> Of(After(s, acts), w).taken == Of(s, w).taken
    ensures SourceClosed(s, w) && Of(After(s, acts), w).end.ByEof? ==> Of(s, w).end.ByEof?
    decreases |acts|
  {
    if acts != [] {
      StaysClosed(s, acts[0], w);
      ClosedConnStep(s, acts[0], w);
      ClosedConnIsSilent(Do(s, acts[0]), acts[1..], w);
    }
  }

  lemma StaysClosed(s: Sys, a: Action, w: Way)
    requires Enabled(s, a)
    ensures (TargetClosed(s, w) ==> TargetClosed(Do(s, a), w)) && (SourceClosed(s, w) ==> SourceClosed(Do(s, a), w))
  {
  }

  lemma MovedIsSilent(f: Flow, m: Move, src: bool, dst: bool, can: bool)
    requires Possible(f, m, src, dst)
    ensures var g := Moved(f, m, src, dst, can);
            && (dst ==> g.got == f.got)
            && (src ==> g.taken == f.taken && (g.end.ByEof? ==> f.end.ByEof?))
  {
    assert m.WriteError? && dst ==> f.pc.buf[..m.n] == [];
  }

  lemma AroundCarriesNothing(s: Sys, v: Way, m: Move, t: Sys, w: Way)
    ensures var f := Of(Around(s, v, m, t), w);
            f.got == Of(t, w).got && f.taken == Of(t, w).taken && (f.end.ByEof? ==> Of(t, w).end.ByEof?)
  {
  }

  lemma ClosedConnStep(s: Sys, a: Action, w: Way)
    requires Enabled(s, a)
    ensures TargetClosed(s, w) ==> Of(Do(s, a), w).got == Of(s, w).got
    ensures SourceClosed(s, w) ==> Of(Do(s, a), w).taken == Of(s, w).taken
    ensures SourceClosed(s, w) && Of(Do(s, a), w).end.ByEof? ==> Of(s, w).end.ByEof?
  {
    if a.Act? {
      var g := Moved(Of(s, a.w), a.m, SourceClosed(s, a.w), TargetClosed(s, a.w), CanHalfClose(s, a.w));
      MovedIsSilent(Of(s, a.w), a.m, SourceClosed(s, a.w), TargetClosed(s, a.w), CanHalfClose(s, a.w));
      AroundCarriesNothing(s, a.w, a.m, With(s, a.w, g), w);
    }
  }

  // CONNECT whose buffered bytes do not get through returns without starting the tunnels: of those
  // bytes the part that was written arrived, and of the answer nothing is ever read.
  lemma PreambleFailureEnds(canUp: bool, canDown: bool, buffered: seq<Byte>, n: nat, acts: seq<Action>)
    requires Runs(InitConnect(canUp, canDown, buffered), [Act(Up, WriteError(n))] + acts)
    ensures n <= |buffered|
    ensures var t := After(InitConnect(canUp, canDown, buffered), [Act(Up, WriteError(n))] + acts);
            && t.up.got == buffered[..n] && t.up.pc.Settled?
            && t.down.got == [] && t.down.taken == 0 && t.down.pc.Settled? && (t.finished || Enabled(t, Unwind))
  {
    var s := InitConnect(canUp, canDown, buffered);
    Unroll(s, Act(Up, WriteError(n)), acts);
    SettledStays(Do(s, Act(Up, WriteError(n))), acts, Up);
    SettledStays(Do(s, Act(Up, WriteError(n))), acts, Down);
  }

  lemma {:induction false} SettledStays(s: Sys, acts: seq<Action>, w: Way)
    requires Runs(s, acts) && Of(s, w).pc.Settled? && Of(s, Other(w)).pc.Settled?
    ensures var f := Of(After(s, acts), w); f.pc.Settled? && f.got == Of(s, w).got && f.taken == Of(s, w).taken
    decreases |acts|
  {
    if acts != [] {
      SettledStep(s, acts[0], w);
      SettledStep(s, acts[0], Other(w));
      SettledStays(Do(s, acts[0]), acts[1..], w);
    }
  }

  lemma SettledStep(s: Sys, a: Action, w: Way)
    requires Enabled(s, a) && Of(s, w).pc.Settled? && Of(s, Other(w)).pc.Settled?
    ensures var f := Of(Do(s, a), w); f.pc.Settled? && f.got == Of(s, w).got && f.taken == Of(s, w).taken
  {
  }
}
