// middleware.go and route.go: how a route's dial is composed, and which addresses each layer sees.
//
// A DialFunc maps the requested address to a reply (network and context pass through unchanged). A
// reply says which layers saw which address, outermost first, and what came out.
module Chain {
  import opened Wrappers
  import opened HostPort
  import opened Numbers

  type Conn = nat

  datatype Failure = NoPort | BadPort | NotMapped(port: int) | Backend(code: int)

  datatype Visit = Layer(tag: int, address: string) | BackendDial(address: string)

  datatype Reply = Reply(seen: seq<Visit>, out: Result<Conn, Failure>)

  type Dial = string -> Reply

  type Middleware = Dial -> Dial

  // mws[0] is outermost.
  function Compose(base: Dial, mws: seq<Middleware>): Dial {
    if mws == [] then base else mws[0](Compose(base, mws[1..]))
  }

  // middleware.go:33-38.
  method ChainLoop(base: Dial, mws: seq<Middleware>) returns (d: Dial)
    ensures d == Compose(base, mws)
  {
    d := base;
    var i := |mws| - 1;
    assert mws[i + 1..] == [];
    while i >= 0
      invariant -1 <= i < |mws| && d == Compose(base, mws[i + 1..])
    {
      assert mws[i..][1..] == mws[i + 1..];
      d := mws[i](d);
      i := i - 1;
    }
    assert mws[0..] == mws;
  }

  // A concatenated chain is the second chain inside the first.
  lemma {:induction false} ComposeConcat(base: Dial, a: seq<Middleware>, b: seq<Middleware>)
    ensures Compose(base, a + b) == Compose(Compose(base, b), a)
  {
    if a == [] {
      assert a + b == b;
    } else {
      assert (a + b)[1..] == a[1..] + b;
      ComposeConcat(base, a[1..], b);
    }
  }

  datatype Route = Route(name: string, backend: Dial, portMap: map<int, int>, middleware: seq<Middleware>)

  // route.go:25-39.
  function PortMapped(portMap: map<int, int>, backend: Dial): Dial {
    (address: string) =>
      match SplitHostPort(address)
      case None => Reply([], Err(NoPort))
      case Some((host, portStr)) =>
        match Atoi(portStr)
        case None => Reply([], Err(BadPort))
        case Some(port) =>
          if port !in portMap then Reply([], Err(NotMapped(port)))
          else backend(JoinHostPort(host, Itoa(portMap[port])))
  }

  function BaseOf(rt: Route): Dial {
    if rt.portMap == map[] then rt.backend else PortMapped(rt.portMap, rt.backend)
  }

  // route.go:21-45.
  method BuildDial(rt: Route, registryMw: seq<Middleware>) returns (dial: Dial)
    ensures dial == Compose(Compose(BaseOf(rt), rt.middleware), registryMw)
  {
    var base := rt.backend;
    if |rt.portMap| > 0 {
      base := PortMapped(rt.portMap, base);
    }
    dial := ChainLoop(base, registryMw + rt.middleware);
    ComposeConcat(base, registryMw, rt.middleware);
  }

  lemma PortIsPort(n: int)
    ensures IsPort(Itoa(n))
  {
    ItoaText(n);
  }

  // On a bracket-free host the port map hands the backend exactly the mapped port, or refuses.
  lemma PortMapMaps(portMap: map<int, int>, backend: Dial, host: string, port: int)
    requires BracketFree(host) && MIN_INT <= port <= MAX_INT
    ensures var r := PortMapped(portMap, backend)(JoinHostPort(host, Itoa(port)));
            r == if port in portMap then backend(JoinHostPort(host, Itoa(portMap[port])))
                 else Reply([], Err(NotMapped(port)))
  {
    PortIsPort(port);
    RoundTripIff(host, Itoa(port));
    AtoiOfItoa(port);
  }

  // ---- What each layer sees ----

  // A middleware that records the address and passes it on.
  function Observe(tag: int, next: Dial): Dial {
    (address: string) => Reply([Layer(tag, address)] + next(address).seen, next(address).out)
  }

  function Observer(tag: int): Middleware {
    (next: Dial) => Observe(tag, next)
  }

  function Observers(tags: seq<int>): seq<Middleware> {
    if tags == [] then [] else [Observer(tags[0])] + Observers(tags[1..])
  }

  function Visits(tags: seq<int>, address: string): seq<Visit> {
    seq(|tags|, i requires 0 <= i < |tags| => Layer(tags[i], address))
  }

  lemma {:induction false} ObserversSee(base: Dial, tags: seq<int>, address: string)
    ensures Compose(base, Observers(tags))(address)
            == Reply(Visits(tags, address) + base(address).seen, base(address).out)
  {
    var r := base(address);
    if tags == [] {
      assert Visits(tags, address) + r.seen == r.seen;
    } else {
      var rest := tags[1..];
      ObserversSee(base, rest, address);
      ComposeOne(base, Observer(tags[0]), Observers(rest));
      assert Visits(tags, address) == [Layer(tags[0], address)] + Visits(rest, address);
      assert Visits(tags, address) + r.seen == [Layer(tags[0], address)] + (Visits(rest, address) + r.seen);
    }
  }

  lemma ComposeOne(base: Dial, m: Middleware, rest: seq<Middleware>)
    ensures Compose(base, [m] + rest) == m(Compose(base, rest))
  {
    assert ([m] + rest)[1..] == rest;
  }

  function RecordingBackend(out: string -> Result<Conn, Failure>): Dial {
    (address: string) => Reply([BackendDial(address)], out(address))
  }

  // Registry middleware sees a dial before route middleware, both see the requested port, and the
  // backend sees the mapped one.
  lemma LayersSeeRequestedPort(rt: Route, out: string -> Result<Conn, Failure>, outer: seq<int>, inner: seq<int>,
                               port: int)
    requires rt.backend == RecordingBackend(out) && rt.middleware == Observers(inner)
    requires BracketFree(rt.name) && MIN_INT <= port <= MAX_INT && port in rt.portMap
    ensures var asked, mapped := JoinHostPort(rt.name, Itoa(port)), JoinHostPort(rt.name, Itoa(rt.portMap[port]));
            Compose(Compose(BaseOf(rt), rt.middleware), Observers(outer))(asked)
            == Reply(Visits(outer, asked) + (Visits(inner, asked) + [BackendDial(mapped)]), out(mapped))
  {
    var asked := JoinHostPort(rt.name, Itoa(port));
    PortMapMaps(rt.portMap, rt.backend, rt.name, port);
    ObserversSee(BaseOf(rt), inner, asked);
    ObserversSee(Compose(BaseOf(rt), rt.middleware), outer, asked);
  }

  // ---- Ready and bridges ----

  // Middleware that leaves the address unchanged: what it answers at an address depends on the next
  // layer at that address only.
  ghost predicate KeepsAddress(m: Middleware) {
    forall next: Dial, other: Dial, address: string | next(address) == other(address) ::
      m(next)(address) == m(other)(address)
  }

  lemma {:induction false} ChainKeepsAddress(base: Dial, other: Dial, mws: seq<Middleware>, address: string)
    requires forall m | m in mws :: KeepsAddress(m)
    requires base(address) == other(address)
    ensures Compose(base, mws)(address) == Compose(other, mws)(address)
  {
    if mws != [] {
      ChainKeepsAddress(base, other, mws[1..], address);
      assert KeepsAddress(mws[0]);
    }
  }

  lemma SomeKey(m: map<int, int>)
    requires |m| > 0
    ensures exists p :: p in m.Keys
  {
    assert (forall p :: p !in m.Keys) ==> m == map[];
  }

  // route.go:95-105: 0 without a port map, the one requested port of a map with one entry, and
  // otherwise an error.
  method BridgeDialPort(rt: Route) returns (port: Option<int>)
    ensures port.None? <==> |rt.portMap| > 1
    ensures port.Some? ==> if rt.portMap == map[] then port.value == 0 else rt.portMap.Keys == {port.value}
  {
    if |rt.portMap| == 0 {
      return Some(0);
    }
    if |rt.portMap| == 1 {
      var keys := rt.portMap.Keys;
      SomeKey(rt.portMap);
      var p :| p in keys;
      assert keys == {p} by {
        assert |keys - {p}| == 0;
      }
      return Some(p);
    }
    return None;
  }

  // route.go:114-118: any mapped port serves a probe.
  method ReadyPort(rt: Route) returns (port: int)
    ensures Probes(rt, port)
  {
    port := 0;
    if |rt.portMap| != 0 {
      var keys := rt.portMap.Keys;
      SomeKey(rt.portMap);
      port :| port in keys;
    }
  }

  predicate Probes(rt: Route, port: int) {
    if rt.portMap == map[] then port == 0 else port in rt.portMap
  }

  // A probe or bridge dial of a bracket-free route, through middleware that leaves the address
  // unchanged, is answered as if there were no port map and the backend were asked for the mapped
  // address: it never fails on the port map.
  lemma ProbeReachesBackend(rt: Route, registryMw: seq<Middleware>, port: int)
    requires BracketFree(rt.name) && MIN_INT <= port <= MAX_INT && Probes(rt, port)
    requires forall m | m in registryMw + rt.middleware :: KeepsAddress(m)
    ensures var asked := JoinHostPort(rt.name, Itoa(port));
            var answer := rt.backend(if rt.portMap == map[] then asked
                                     else JoinHostPort(rt.name, Itoa(rt.portMap[port])));
            Compose(Compose(BaseOf(rt), rt.middleware), registryMw)(asked)
            == Compose((a: string) => answer, registryMw + rt.middleware)(asked)
  {
    var asked := JoinHostPort(rt.name, Itoa(port));
    var answer := rt.backend(if rt.portMap == map[] then asked else JoinHostPort(rt.name, Itoa(rt.portMap[port])));
    PortMapMaps(rt.portMap, rt.backend, rt.name, port);
    ComposeConcat(BaseOf(rt), registryMw, rt.middleware);
    ChainKeepsAddress(BaseOf(rt), (a: string) => answer, registryMw + rt.middleware, asked);
  }

  // ---- ConnWrapper, middleware.go:20-30 ----

  function WrapConn(wrap: (string, Conn) -> Conn, next: Dial): Dial {
    (address: string) =>
      match next(address).out
      case Err(e) => Reply(next(address).seen, Err(e))
      case Ok(conn) => Reply(next(address).seen, Ok(wrap(HostOf(address), conn)))
  }

  function ConnWrapper(wrap: (string, Conn) -> Conn): Middleware {
    (next: Dial) => WrapConn(wrap, next)
  }

  // Wrappers touch successful connections only, are told the route's name, keep the address, and
  // the registry's wrapper is applied last.
  lemma WrappersNest(base: Dial, outer: (string, Conn) -> Conn, inner: (string, Conn) -> Conn, name: string, port: int)
    requires BracketFree(name)
    ensures KeepsAddress(ConnWrapper(outer))
    ensures var asked := JoinHostPort(name, Itoa(port));
            var r := Compose(Compose(base, [ConnWrapper(inner)]), [ConnWrapper(outer)])(asked);
            && r.seen == base(asked).seen
            && r.out == (match base(asked).out
                         case Err(e) => Err(e)
                         case Ok(c) => Ok(outer(name, inner(name, c))))
  {
    PortIsPort(port);
    RoundTripIff(name, Itoa(port));
    ComposeOne(base, ConnWrapper(inner), []);
    ComposeOne(Compose(base, [ConnWrapper(inner)]), ConnWrapper(outer), []);
    assert [ConnWrapper(inner)] + [] == [ConnWrapper(inner)] && [ConnWrapper(outer)] + [] == [ConnWrapper(outer)];
  }

  // ---- What the port map and hostOf answer ----

  // With a port map, an address without a port, or with one that is no number, never reaches the
  // backend.
  lemma PortMapRefuses(portMap: map<int, int>, backend: Dial, address: string)
    ensures SplitHostPort(address).None? ==> PortMapped(portMap, backend)(address) == Reply([], Err(NoPort))
    ensures SplitHostPort(address).Some? && Atoi(SplitHostPort(address).value.1).None? ==>
              PortMapped(portMap, backend)(address) == Reply([], Err(BadPort))
  {
  }

  // Without one, the backend is asked for the address as it was requested.
  lemma NoPortMapPassesOn(rt: Route, registryMw: seq<Middleware>, out: string -> Result<Conn, Failure>, tags: seq<int>,
                          address: string)
    requires rt.portMap == map[] && rt.backend == RecordingBackend(out) && rt.middleware == Observers(tags)
    ensures Compose(BaseOf(rt), rt.middleware)(address)
            == Reply(Visits(tags, address) + [BackendDial(address)], out(address))
  {
    ObserversSee(BaseOf(rt), tags, address);
  }

  // An address that does not split is its own host.
  lemma HostOfUnsplit(address: string)
    ensures SplitHostPort(address).None? ==> HostOf(address) == address
  {
  }
}
