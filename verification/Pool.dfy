// k8s/portforward.go: the one-slot cache of live connections to a pod.
//
// The functions say what each critical section does to the cached connection, the latch and the
// log of connections closed; class PortForward executes the sections, PoolRuns interleaves them.
module Pool {
  import opened Wrappers

  type ConnId = nat

  datatype Cache = Cache(conn: Option<ConnId>, closed: bool)

  // Lines 178-184: the cached connection, if alive() says it lives.
  function Cached(c: Cache, alive: bool): Option<ConnId> {
    if c.conn.Some? && alive then c.conn else None
  }

  datatype Installed = Refused | Kept(existing: ConnId) | Placed

  // Lines 195-212 with a connection dialed in the meantime. The second result is what happened to
  // it, the third what is closed inside the section.
  function Install(c: Cache, born: ConnId, alive: bool): (Cache, Installed, Option<ConnId>) {
    if c.closed then (c, Refused, None)
    else if c.conn.Some? && alive then (c, Kept(c.conn.value), None)
    else (c.(conn := Some(born)), Placed, c.conn)
  }

  // The log entries of one section.
  function Logged(shut: Option<ConnId>): seq<ConnId> {
    if shut.Some? then [shut.value] else []
  }

  // Lines 219-226.
  function Drop(c: Cache, conn: ConnId): (Cache, Option<ConnId>) {
    if c.conn == Some(conn) then (c.(conn := None), Some(conn)) else (c, None)
  }

  // Lines 132-147.
  function Stop(c: Cache): (Cache, Option<ConnId>) {
    if c.closed then (c, None) else (Cache(None, true), c.conn)
  }

  datatype Signal = Nil | Open | ClosedOnce

  class PortForward {
    var conn: Option<ConnId>
    var closed: bool
    var closedCh: Signal
    var log: seq<ConnId>     // connections whose close() the sections called, in order

    ghost function State(): Cache
      reads this
    {
      Cache(conn, closed)
    }

    // closedCh is closed at most once: by the Stop that sets the latch.
    ghost predicate Valid()
      reads this
    {
      closedCh == ClosedOnce ==> closed
    }

    constructor ()
      ensures Valid() && State() == Cache(None, false) && log == []
    {
      conn, closed, closedCh, log := None, false, Nil, [];
    }

    method Start()
      requires Valid()
      modifies `closedCh
      ensures Valid() && closedCh == if old(closedCh) == Nil then Open else old(closedCh)
    {
      if closedCh == Nil {
        closedCh := Open;
      }
    }

    method StopNow()
      requires Valid()
      modifies this
      ensures Valid() && closed
      ensures State() == Stop(old(State())).0 && log == old(log) + Logged(Stop(old(State())).1)
      ensures old(closed) ==> closedCh == old(closedCh)
      ensures !old(closed) ==> closedCh == if old(closedCh) == Nil then Nil else ClosedOnce
      ensures old(closed) ==> conn == old(conn) && log == old(log)
      ensures !old(closed) ==>
                conn.None? && log == old(log) + if old(conn).Some? then [old(conn).value] else []
    {
      if closed {
        return;
      }
      closed := true;
      if closedCh != Nil {
        assert closedCh == Open;
        closedCh := ClosedOnce;
      }
      if conn.Some? {
        log := log + [conn.value];
        conn := None;
      }
    }

    method CachedConn(alive: bool) returns (c: Option<ConnId>)
      ensures c == Cached(State(), alive)
      ensures c.Some? <==> conn.Some? && alive
      ensures c.Some? ==> c == conn
    {
      c := if conn.Some? && alive then conn else None;
    }

    method InstallConn(born: ConnId, alive: bool) returns (r: Installed)
      modifies `conn, `log
      ensures var (c, what, shut) := Install(old(State()), born, alive);
              State() == c && r == what && log == old(log) + Logged(shut)
      // Refused by a stopped backend, or by a live connection that came first, nothing changes; a
      // dead one is closed and replaced.
      ensures old(closed) ==> r == Refused && conn == old(conn) && log == old(log)
      ensures !old(closed) && old(conn).Some? && alive ==>
                r == Kept(old(conn).value) && conn == old(conn) && log == old(log)
      ensures !old(closed) && !(old(conn).Some? && alive) ==>
                && r == Placed && conn == Some(born)
                && log == old(log) + if old(conn).Some? then [old(conn).value] else []
    {
      if closed {
        return Refused;
      }
      if conn.Some? && alive {
        return Kept(conn.value);
      }
      if conn.Some? {
        log := log + [conn.value];
      }
      conn := Some(born);
      return Placed;
    }

    // Lines 177-217 for a dial that nobody else interferes with: `dialed` is the connection that
    // resolve and dial come up with, if any. A connection that is not installed is closed.
    method EnsureConn(alive: bool, dialed: Option<ConnId>, aliveLater: bool) returns (c: Option<ConnId>)
      modifies `conn, `log
      // A live cached connection is reused, without looking at `dialed`.
      ensures old(conn).Some? && alive ==> c == old(conn) && conn == old(conn) && log == old(log)
      ensures !(old(conn).Some? && alive) && dialed.None? ==> c == None && conn == old(conn) && log == old(log)
      // A dialed one is installed, unless the backend was stopped or another became live meanwhile;
      // then it is closed, and the other one used.
      ensures !(old(conn).Some? && alive) && dialed.Some? && (closed || (old(conn).Some? && aliveLater)) ==>
                && c == (if closed then None else old(conn))
                && conn == old(conn) && log == old(log) + [dialed.value]
      ensures !(old(conn).Some? && alive) && dialed.Some? && !closed && !(old(conn).Some? && aliveLater) ==>
                && c == dialed && conn == dialed
                && log == old(log) + if old(conn).Some? then [old(conn).value] else []
    {
      c := CachedConn(alive);
      if c.Some? || dialed.None? {
        return c;
      }
      var what := InstallConn(dialed.value, aliveLater);
      match what
      case Refused =>
        log := log + [dialed.value];
        return None;
      case Kept(existing) =>
        log := log + [dialed.value];
        return Some(existing);
      case Placed =>
        return dialed;
    }

    method DropConn(c: ConnId)
      modifies `conn, `log
      ensures State() == Drop(old(State()), c).0 && log == old(log) + Logged(Drop(old(State()), c).1)
      ensures if old(conn) == Some(c) then conn.None? && log == old(log) + [c] else conn == old(conn) && log == old(log)
    {
      if conn == Some(c) {
        log := log + [c];
        conn := None;
      }
    }
  }
}
