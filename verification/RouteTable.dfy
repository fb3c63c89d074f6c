// registry.go: the locked route map. A key maps to nil (a reservation) or to a published Route.
//
// The functions below say what each critical section does to the map, one function per section.
// Class Registry executes the sections on the mutable fields; RegistryRuns interleaves them.
module RouteTable {
  import opened Wrappers

  // The Route object built by one Add call. Every call builds its own, so calls, Route objects and
  // backend registrations share their identity.
  type Id = nat

  datatype Slot = Reserved | Published(rt: Id)

  datatype Table = Table(routes: map<string, Slot>, closed: bool) {
    predicate Shows(key: string, id: Id) {
      key in routes && routes[key] == Published(id)
    }

    function Ids(): set<Id> {
      set k | k in routes && routes[k].Published? :: routes[k].rt
    }
  }

  function Lower(c: char): char {
    if 'A' <= c <= 'Z' then c - 'A' + 'a' else c
  }

  // strings.ToLower on ASCII letters.
  function ToLower(name: string): string {
    seq(|name|, i requires 0 <= i < |name| => Lower(name[i]))
  }

  datatype Reservation = Granted | RefusedClosed | RefusedExists

  // Lines 99-111.
  function Reserve(t: Table, key: string): (Table, Reservation) {
    if t.closed then (t, RefusedClosed)
    else if key in t.routes then (t, RefusedExists)
    else (t.(routes := t.routes[key := Reserved]), Granted)
  }

  // Lines 126-128, and line 135: delete without looking.
  function Delete(t: Table, key: string): Table {
    t.(routes := t.routes - {key})
  }

  // Lines 133-141: delete when closed, otherwise write without looking.
  function Publish(t: Table, key: string, id: Id): (Table, bool) {
    if t.closed then (Delete(t, key), false)
    else (t.(routes := t.routes[key := Published(id)]), true)
  }

  // Lines 177-182.
  function Take(t: Table, key: string): (Table, Option<Id>) {
    if key in t.routes && t.routes[key].Published? then (Delete(t, key), Some(t.routes[key].rt)) else (t, None)
  }

  // Lines 250-254.
  function Drain(t: Table): Table {
    Table(map[], true)
  }

  // Lines 195-198.
  function Find(t: Table, key: string): Option<Id> {
    if key in t.routes && t.routes[key].Published? then Some(t.routes[key].rt) else None
  }

  datatype Destination = ClosedRegistry | UnknownRoute | Fallback | Via(rt: Id)

  // Lines 287-300: where DialContext sends a dial.
  function Dispatch(t: Table, key: string, fallback: bool): Destination {
    if t.closed then ClosedRegistry
    else if key !in t.routes || t.routes[key].Reserved? then (if fallback then Fallback else UnknownRoute)
    else Via(t.routes[key].rt)
  }
}
