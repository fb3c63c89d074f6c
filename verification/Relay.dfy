// Two concurrent byte copiers between a client and an upstream: listenlocal.go, bridgeConn (lines
// 203-226), and proxy/connect.go, handleConnect after the hijack with tunnel (lines 44-77).
//
// A copier is io.Copy: read some bytes, write them, until EOF or an error. Peers send and finish
// when they like, reads return any nonempty prefix of what is there, and any read or write may fail.
module Relay {

  newtype Byte = b: int | 0 <= b < 256

  datatype Kind = Bridge | Connect

  // Up carries the client's bytes to the upstream, Down the upstream's to the client.
  datatype Way = Up | Down

  datatype Pc =
    | Waiting                     // not started: CONNECT first forwards what the hijack buffered
    | Reading
    | Writing(buf: seq<Byte>)
    | Ended
    | Settled                     // what follows the copy is done

  // How a copy ended: by the source's EOF, by a failing read or write of an open conn, or because
  // the relay itself had closed the conn it was reading or writing.
  datatype End = Running | ByEof | ByNetwork | ByLocal

  // `sent` by the source so far, `over` once it has finished; `taken` bytes were read, `got` reached
  // the destination; `eof` once its write side was half-closed.
  datatype Flow = Flow(sent: seq<Byte>, over: bool, taken: nat, got: seq<Byte>, eof: bool, end: End, pc: Pc)

  // `canUp` and `canDown`: the upstream, the client conn, supports CloseWrite. `torn` once the
  // bridge's watcher closed the client conn because the registry closed.
  datatype Sys = Sys(kind: Kind, canUp: bool, canDown: bool, up: Flow, down: Flow,
                     clientClosed: bool, upstreamClosed: bool, finished: bool, torn: bool)

  const FRESH: Flow := Flow([], false, 0, [], false, Running, Reading)

  // The bridge starts both copiers at once.
  function InitBridge(canUp: bool, canDown: bool): Sys {
    Sys(Bridge, canUp, canDown, FRESH, FRESH, false, false, false, false)
  }

  // CONNECT starts by writing the bytes the client sent before the hijack completed.
  function InitConnect(canUp: bool, canDown: bool, buffered: seq<Byte>): Sys {
    Sys(Connect, canUp, canDown, Flow(buffered, false, |buffered|, [], false, Running, Writing(buffered)),
        FRESH.(pc := Waiting), false, false, false, false)
  }

  datatype Move =
    | Send(bytes: seq<Byte>)      // the peer
    | Finish
    | Read(n: nat)                // the copier
    | ReadEof
    | ReadError
    | Write
    | WriteError(n: nat)
    | Settle

  datatype Action =
    | Act(w: Way, m: Move)
    | Unwind                      // the deferred Close calls, once both copiers are through
    | RegistryClose               // the bridge's watcher, lines 186-193

  function Of(s: Sys, w: Way): Flow {
    if w.Up? then s.up else s.down
  }

  function With(s: Sys, w: Way, f: Flow): Sys {
    s.(up := if w.Up? then f else s.up, down := if w.Up? then s.down else f)
  }

  predicate SourceClosed(s: Sys, w: Way) {
    if w.Up? then s.clientClosed else s.upstreamClosed
  }

  predicate TargetClosed(s: Sys, w: Way) {
    if w.Up? then s.upstreamClosed else s.clientClosed
  }

  predicate CanHalfClose(s: Sys, w: Way) {
    if w.Up? then s.canUp else s.canDown
  }

  // `src` and `dst`: the relay has closed the conn this flow reads from, writes to.
  predicate Possible(f: Flow, m: Move, src: bool, dst: bool) {
    match m
    case Send(_) => !f.over
    case Finish => !f.over
    case Read(n) => f.pc.Reading? && !src && 0 < n && f.taken + n <= |f.sent|
    case ReadEof => f.pc.Reading? && !src && f.over && f.taken == |f.sent|
    case ReadError => f.pc.Reading?
    case Write => f.pc.Writing? && !dst
    case WriteError(n) => f.pc.Writing? && n <= |f.pc.buf| && (dst ==> n == 0)
    case Settle => f.pc.Ended?
  }

  function Moved(f: Flow, m: Move, src: bool, dst: bool, can: bool): Flow
    requires Possible(f, m, src, dst)
  {
    match m
    case Send(bytes) => f.(sent := f.sent + bytes)
    case Finish => f.(over := true)
    case Read(n) => f.(taken := f.taken + n, pc := Writing(f.sent[f.taken..f.taken + n]))
    case ReadEof => f.(pc := Ended, end := ByEof)
    case ReadError => f.(pc := Ended, end := if src then ByLocal else ByNetwork)
    case Write => f.(got := f.got + f.pc.buf, pc := Reading)
    case WriteError(n) =>
      f.(got := f.got + f.pc.buf[..n], pc := Ended, end := if dst then ByLocal else ByNetwork)
    case Settle => f.(pc := Settled, eof := can)
  }

  predicate Enabled(s: Sys, a: Action) {
    match a
    case Act(w, m) => Possible(Of(s, w), m, SourceClosed(s, w), TargetClosed(s, w))
    case Unwind => s.up.pc.Settled? && s.down.pc.Settled? && !s.finished
    case RegistryClose => s.kind.Bridge? && !s.clientClosed
  }

  function Do(s: Sys, a: Action): Sys
    requires Enabled(s, a)
  {
    match a
    case Act(w, m) =>
      var f := Moved(Of(s, w), m, SourceClosed(s, w), TargetClosed(s, w), CanHalfClose(s, w));
      Around(s, w, m, With(s, w, f))
    case Unwind => s.(clientClosed := true, upstreamClosed := true, finished := true)
    case RegistryClose => s.(clientClosed := true, torn := true)
  }

  // What a copier's move does outside its own flow. When the buffered bytes do not get through,
  // the handler returns without starting the tunnels.
  function Around(s: Sys, w: Way, m: Move, t: Sys): Sys {
    var first := s.down.pc.Waiting?;
    t.(up := if first && m.WriteError? then t.up.(pc := Settled) else t.up,
       down := if first && m.Write? then t.down.(pc := Reading)
               else if first && m.WriteError? then t.down.(pc := Settled, end := ByNetwork)
               else t.down,
       clientClosed := t.clientClosed || (m.Settle? && ClosesClient(s, w)),
       upstreamClosed := t.upstreamClosed || (m.Settle? && ClosesUpstream(s, w)))
  }

  // After the copy, without CloseWrite. Bridge: lines 212-214 and 221-225. CONNECT: lines 72-76.
  predicate ClosesClient(s: Sys, w: Way) {
    !CanHalfClose(s, w) && (s.kind.Connect? || w.Down?)
  }

  predicate ClosesUpstream(s: Sys, w: Way) {
    !CanHalfClose(s, w) && s.kind.Connect?
  }

  predicate Runs(s: Sys, acts: seq<Action>)
    decreases |acts|
  {
    acts == [] || (Enabled(s, acts[0]) && Runs(Do(s, acts[0]), acts[1..]))
  }

  function After(s: Sys, acts: seq<Action>): Sys
    requires Runs(s, acts)
    decreases |acts|
  {
    if acts == [] then s else After(Do(s, acts[0]), acts[1..])
  }

  // ---- Invariant ----

  // The copier has delivered, or still holds, exactly what it took, in order; a copy that ended by
  // EOF delivered all there was; and EOF is passed on exactly where CloseWrite exists, unless the
  // copy never started.
  predicate FlowOk(f: Flow, can: bool) {
    && f.taken <= |f.sent|
    && (match f.pc
        case Writing(buf) => f.got + buf == f.sent[..f.taken]
        case Reading => f.got == f.sent[..f.taken]
        case Waiting => f.got == f.sent[..f.taken]
        case _ => f.got <= f.sent)
    && (f.end.Running? <==> !f.pc.Ended? && !f.pc.Settled?)
    && (f.end.ByEof? ==> f.over && f.got == f.sent)
    && (f.eof ==> f.pc.Settled? && can)
    && (f.pc.Settled? && can && !f.end.ByNetwork? ==> f.eof)
  }

  // Why the relay has closed a conn before it finished.
  predicate Cause(s: Sys) {
    || s.torn
    || (!s.canDown && s.down.pc.Settled?)
    || (s.kind.Connect? && !s.canUp && s.up.pc.Settled?)
  }

  predicate ClosedOk(s: Sys) {
    && (s.finished ==> s.up.pc.Settled? && s.down.pc.Settled? && s.clientClosed && s.upstreamClosed)
    && (s.clientClosed || s.upstreamClosed ==> s.finished || Cause(s))
    && (s.kind.Bridge? && s.upstreamClosed ==> s.finished)
    && (s.kind.Bridge? && s.down.pc.Settled? && !s.canDown ==> s.clientClosed)
    && (s.torn ==> s.kind.Bridge?)
  }

  // A copy cut off by the relay itself was cut off by the other one's end, or by the watcher.
  predicate LocalOk(s: Sys) {
    && (s.up.end.ByLocal? ==> s.torn || (!s.canDown && s.down.pc.Settled?))
    && (s.down.end.ByLocal? ==> s.torn || (s.kind.Connect? && !s.canUp && s.up.pc.Settled?))
  }

  predicate StartOk(s: Sys) {
    && (s.down.pc.Waiting? ==> s.kind.Connect? && s.up.pc.Writing?)
    && !s.up.pc.Waiting?
  }

  predicate Inv(s: Sys) {
    && FlowOk(s.up, s.canUp) && FlowOk(s.down, s.canDown)
    && ClosedOk(s) && LocalOk(s) && StartOk(s)
  }

  lemma TakeKeepsFlow(f: Flow, m: Move, src: bool, dst: bool, can: bool)
    requires FlowOk(f, can) && Possible(f, m, src, dst) && (m.Send? || m.Read?)
    ensures FlowOk(Moved(f, m, src, dst, can), can)
  {
    if m.Send? {
      assert (f.sent + m.bytes)[..f.taken] == f.sent[..f.taken];
    } else {
      assert f.sent[..f.taken] + f.sent[f.taken..f.taken + m.n] == f.sent[..f.taken + m.n];
    }
  }

  lemma WriteErrorKeepsFlow(f: Flow, m: Move, src: bool, dst: bool, can: bool)
    requires FlowOk(f, can) && Possible(f, m, src, dst) && m.WriteError?
    ensures FlowOk(Moved(f, m, src, dst, can), can)
  {
    assert f.got + f.pc.buf[..m.n] == f.sent[..|f.got| + m.n];
  }

  lemma MoveKeepsFlow(f: Flow, m: Move, src: bool, dst: bool, can: bool)
    requires FlowOk(f, can) && Possible(f, m, src, dst)
    ensures FlowOk(Moved(f, m, src, dst, can), can)
  {
    if m.Send? || m.Read? {
      TakeKeepsFlow(f, m, src, dst, can);
    } else if m.WriteError? {
      WriteErrorKeepsFlow(f, m, src, dst, can);
    }
  }

  // What a move can do to the parts of a flow that the rest of the invariant looks at.
  lemma MovePc(f: Flow, m: Move, src: bool, dst: bool, can: bool)
    requires Possible(f, m, src, dst)
    ensures var g := Moved(f, m, src, dst, can);
            && (g.pc.Settled? <==> f.pc.Settled? || m.Settle?)
            && (g.pc.Waiting? <==> f.pc.Waiting?)
            && (f.pc.Writing? && !m.Write? && !m.WriteError? ==> g.pc.Writing?)
            && (g.end.ByLocal? ==> f.end.ByLocal? || (!f.pc.Settled? && (src || dst)))
  {
  }

  // While CONNECT forwards the buffered bytes.
  lemma PreambleKeepsFlows(s: Sys, w: Way, m: Move)
    requires Inv(s) && Enabled(s, Act(w, m)) && s.down.pc.Waiting? && (m.Write? || m.WriteError?)
    requires FlowOk(Moved(s.up, m, s.clientClosed, s.upstreamClosed, s.canUp), s.canUp)
    ensures var t := Do(s, Act(w, m)); FlowOk(t.up, t.canUp) && FlowOk(t.down, t.canDown)
  {
  }

  lemma ActKeepsFlows(s: Sys, w: Way, m: Move)
    requires Inv(s) && Enabled(s, Act(w, m))
    ensures var t := Do(s, Act(w, m)); FlowOk(t.up, t.canUp) && FlowOk(t.down, t.canDown)
  {
    MoveKeepsFlow(Of(s, w), m, SourceClosed(s, w), TargetClosed(s, w), CanHalfClose(s, w));
    if s.down.pc.Waiting? && (m.Write? || m.WriteError?) {
      PreambleKeepsFlows(s, w, m);
    }
  }

  lemma ActKeepsGates(s: Sys, w: Way, m: Move)
    requires Inv(s) && Enabled(s, Act(w, m))
    ensures var t := Do(s, Act(w, m)); ClosedOk(t) && LocalOk(t) && StartOk(t)
  {
    MovePc(Of(s, w), m, SourceClosed(s, w), TargetClosed(s, w), CanHalfClose(s, w));
  }

  lemma ActionKeeps(s: Sys, a: Action)
    requires Inv(s) && Enabled(s, a)
    ensures Inv(Do(s, a))
  {
    if a.Act? {
      ActKeepsFlows(s, a.w, a.m);
      ActKeepsGates(s, a.w, a.m);
    }
  }
}
