// registry.go: class Registry executes the critical sections of RouteTable on its own fields.
module Registry {
  import opened Wrappers
  import opened RouteTable
  import opened HostPort

  class Route {
    const id: Id
    const name: string

    constructor (id: Id, name: string)
      ensures this.id == id && this.name == name
    {
      this.id, this.name := id, name;
    }
  }

  class Registry {
    var routes: map<string, Route?>
    var closed: bool
    var done: bool
    var onced: bool

    // The fields as the value the specifications speak about.
    ghost function State(): Table
      reads this
    {
      Table(map k | k in routes :: if routes[k] == null then Reserved else Published(routes[k].id), closed)
    }

    // The entries that readers may see.
    ghost function Visible(): set<string>
      reads this
    {
      set k | k in routes && routes[k] != null
    }

    constructor ()
      ensures State() == Table(map[], false) && !done && !onced
    {
      routes, closed, done, onced := map[], false, false, false;
    }

    method ReserveName(key: string) returns (r: Reservation)
      modifies `routes
      ensures (State(), r) == Reserve(old(State()), key)
      ensures r == if closed then RefusedClosed else if key in old(routes) then RefusedExists else Granted
      ensures routes == if r.Granted? then old(routes)[key := null] else old(routes)
    {
      if closed {
        return RefusedClosed;
      }
      if key in routes {
        return RefusedExists;
      }
      routes := routes[key := null];
      assert State().routes == old(State()).routes[key := Reserved];
      return Granted;
    }

    method AbortReservation(key: string)
      modifies `routes
      ensures State() == Delete(old(State()), key)
    {
      routes := routes - {key};
    }

    method PublishRoute(key: string, rt: Route) returns (published: bool)
      modifies `routes
      ensures (State(), published) == Publish(old(State()), key, rt.id)
      ensures published == !closed
      ensures routes == if closed then old(routes) - {key} else old(routes)[key := rt]
    {
      if closed {
        routes := routes - {key};
        assert State().routes == old(State()).routes - {key};
        return false;
      }
      routes := routes[key := rt];
      assert State().routes == old(State()).routes[key := Published(rt.id)];
      return true;
    }

    method TakeRoute(name: string) returns (rt: Route?)
      modifies `routes
      ensures (State(), if rt == null then None else Some(rt.id)) == Take(old(State()), ToLower(name))
      ensures rt == if ToLower(name) in old(routes) then old(routes)[ToLower(name)] else null
      ensures routes == if rt == null then old(routes) else old(routes) - {ToLower(name)}
    {
      var key := ToLower(name);
      rt := null;
      if key in routes && routes[key] != null {
        rt := routes[key];
        routes := routes - {key};
        assert State().routes == old(State()).routes - {key};
      }
    }

    method Lookup(name: string) returns (rt: Route?, ok: bool)
      ensures ok == (rt != null)
      ensures (if ok then Some(rt.id) else None) == Find(State(), ToLower(name))
      ensures rt == if ToLower(name) in routes then routes[ToLower(name)] else null
    {
      var key := ToLower(name);
      rt := if key in routes then routes[key] else null;
      ok := rt != null;
    }

    // Lines 285-300: where DialContext sends a dial of this address, and through which route.
    method Target(address: string, fallback: bool) returns (d: Destination, rt: Route?)
      ensures d == Dispatch(State(), ToLower(HostOf(address)), fallback)
      ensures if rt == null then !d.Via? else d == Via(rt.id)
      // By the fields: a closed registry refuses, a published route gets the dial, and a name that is
      // not or only reserved goes to the fallback, if there is one.
      ensures closed ==> d == ClosedRegistry
      ensures !closed ==> rt == (var key := ToLower(HostOf(address)); if key in routes then routes[key] else null)
      ensures !closed && rt == null ==> d == if fallback then Fallback else UnknownRoute
    {
      var key := ToLower(HostOf(address));
      rt := if key in routes then routes[key] else null;
      if closed {
        return ClosedRegistry, null;
      }
      if rt == null {
        return if fallback then Fallback else UnknownRoute, null;
      }
      return Via(rt.id), rt;
    }

    // Exactly the published routes, one entry per key.
    method Routes() returns (out: seq<Route>)
      ensures |out| == |Visible()|
      ensures forall rt: Route :: rt in out <==> exists k :: k in Visible() && routes[k] == rt
    {
      out := Collect(routes);
      assert Named(routes) == Visible();
    }

    // The whole of Close except what it does to bridges and the shared transport. `stops` lists the
    // routes whose backends it stops: every published one, once per key, and none on a second call.
    method Close() returns (stops: seq<Route>)
      modifies this
      ensures onced
      ensures old(onced) ==> stops == [] && State() == old(State()) && done == old(done)
      ensures !old(onced) ==> State() == Drain(old(State())) && done
      ensures !old(onced) ==> |stops| == |old(Visible())|
      ensures !old(onced) ==>
                forall rt: Route :: rt in stops <==> exists k :: k in old(Visible()) && old(routes)[k] == rt
    {
      stops := [];
      if onced {
        return;
      }
      onced, closed := true, true;
      var drained := routes;
      routes := map[];
      done := true;
      stops := Collect(drained);
      assert Named(drained) == old(Visible());
    }

    static ghost function Named(m: map<string, Route?>): set<string> {
      set k | k in m && m[k] != null
    }

    // The loops at lines 206-210 and 265-268: range over a map in any order, skipping nil entries.
    static method Collect(m: map<string, Route?>) returns (out: seq<Route>)
      ensures |out| == |Named(m)|
      ensures forall rt: Route :: rt in out <==> exists k :: k in Named(m) && m[k] == rt
    {
      out := [];
      var rest := m.Keys;
      ghost var seen: set<string> := {};
      while rest != {}
        invariant rest <= m.Keys && seen == (set k | k in m && m[k] != null && k !in rest)
        invariant |out| == |seen|
        invariant forall rt: Route :: rt in out <==> exists k :: k in seen && m[k] == rt
        decreases rest
      {
        var key :| key in rest;
        rest := rest - {key};
        var rt := m[key];
        if rt != null {
          ghost var before := out;
          out := out + [rt];
          seen := seen + {key};
          assert forall o: Route :: o in out <==> o in before || o == rt;
        }
      }
      assert seen == Named(m);
    }
  }
}
