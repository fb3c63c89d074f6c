// The invariant of every run of RegistryRuns.
module RegistrySafety {
  import opened RouteTable
  import opened RegistryRuns

  // Between an Add's two critical sections: it owns a reservation.
  predicate Between(pc: Pc) {
    pc.Wiring? || pc.Starting? || pc.Aborting? || pc.Publishing?
  }

  // Start has not succeeded.
  predicate Unstarted(pc: Pc) {
    pc.Checking? || pc.Reserving? || pc.Wiring? || pc.Starting? || pc.Aborting?
  }

  predicate Closing(pc: Pc) {
    pc.Draining? || pc.ClosingDone? || pc.StoppingAll?
  }

  predicate At(s: Sys, p: Pid, key: string) {
    p in s.procs && Between(s.procs[p].pc) && s.procs[p].key == key
  }

  // The published route of call id is visible in the table.
  predicate Visible(s: Sys, id: Id) {
    id in s.procs && s.table.Shows(s.procs[id].key, id)
  }

  // Call p carries the duty to stop registration id.
  predicate Carries(s: Sys, p: Pid, id: Id) {
    p in s.procs && Bears(s.procs[p].pc, p, id)
  }

  predicate Bears(pc: Pc, p: Pid, id: Id) {
    match pc
    case Publishing => id == p
    case StoppingOwn => id == p
    case Withdrawing(taken) => id == taken
    case StoppingTaken(taken) => id == taken
    case ClosingDone(rest) => id in rest
    case StoppingAll(rest) => id in rest
    case _ => false
  }

  predicate IsStopper(s: Sys, id: Id) {
    id in s.procs && s.procs[id].call.Add? && s.procs[id].call.stopper
  }

  // A call is where its kind allows it to be, given whether its route was published, its event sink
  // was wired, and the sticky rewrite flag is set.
  predicate Local(proc: Proc, published: bool, wired: bool, rewrites: bool) {
    && proc.key == Key(proc.call)
    && (match proc.pc
        case EnteringOnce => proc.call.Close?
        case Draining => proc.call.Close?
        case ClosingDone(_) => proc.call.Close?
        case StoppingAll(_) => proc.call.Close?
        case Removing => if proc.call.Add? then published else proc.call.Remove?
        case Withdrawing(_) => if proc.call.Add? then published else proc.call.Remove?
        case StoppingTaken(_) => if proc.call.Add? then published else proc.call.Remove?
        case Announcing => proc.call.Add? && published
        case Probing => proc.call.Add? && published
        case Returned(out) =>
          && (proc.call.Add? ==> (published <==> out == Succeeded || out == ReadyFailed))
          && (out == Invalid || out == ClosedBefore || out == Exists ==> !wired)
        case Checking => proc.call.Add? && !published && !wired
        case Reserving => proc.call.Add? && !published && !wired
        case Wiring => proc.call.Add? && !published && !wired
        case _ => proc.call.Add? && !published)
    && (proc.call.Add? && proc.call.rewrite != "" && !proc.pc.Checking? && proc.pc != Returned(Invalid) ==> rewrites)
  }

  ghost predicate Typed(s: Sys) {
    && (forall p | p in s.procs :: Local(s.procs[p], p in s.published, p in s.wired, s.rewrites))
    && s.published <= s.procs.Keys
    && s.wired <= s.procs.Keys
  }

  // The locked map: what it holds is explained by the calls.
  ghost predicate TableOk(s: Sys) {
    && (s.table.closed ==> s.table.routes == map[])
    && (forall k | k in s.table.routes && s.table.routes[k].Published? ::
          Visible(s, s.table.routes[k].rt) && s.procs[s.table.routes[k].rt].key == k)
    && (forall k | k in s.table.routes && s.table.routes[k].Reserved? :: exists p :: At(s, p, k))
    && (!s.table.closed ==> forall p, k | At(s, p, k) :: k in s.table.routes && s.table.routes[k].Reserved?)
    && (!s.table.closed ==> forall p, q, k | At(s, p, k) && At(s, q, k) :: p == q)
  }

  // closeOnce, `closed` and `done`.
  ghost predicate OnceOk(s: Sys) {
    && (forall p | p in s.procs && Closing(s.procs[p].pc) :: s.once == Running(p))
    && (s.once.Running? ==> s.once.p in s.procs && Closing(s.procs[s.once.p].pc))
    && (s.table.closed <==> s.once.Finished? || (s.once.Running? && !s.procs[s.once.p].pc.Draining?))
    && (s.done <==> s.once.Finished? || (s.once.Running? && s.procs[s.once.p].pc.StoppingAll?))
  }

  // Each started registration has exactly the holder `duty` names.
  ghost predicate DutyOk(s: Sys) {
    && (forall id :: Visible(s, id) <==> id in s.duty && s.duty[id] == InTable)
    && (forall p, id :: Carries(s, p, id) <==> id in s.duty && s.duty[id] == HeldBy(p))
    && (forall id | id in s.duty :: id in s.procs && s.procs[id].call.Add? && !Unstarted(s.procs[id].pc))
    && StopsOk(s)
  }

  ghost predicate StopsOk(s: Sys) {
    forall id :: s.stops[id] == if id in s.duty && s.duty[id] == Discharged && IsStopper(s, id) then 1 else 0
  }

  // Published routes are live, removed or drained, and never two of these.
  ghost predicate HistoryOk(s: Sys) {
    && (forall id :: id in s.published <==> Visible(s, id) || id in s.removed || id in s.drained)
    && (forall id | Visible(s, id) :: id !in s.removed && id !in s.drained)
    && s.removed !! s.drained
    && s.published <= s.duty.Keys
    && (forall p | p in s.procs && s.procs[p].pc.Withdrawing? :: s.procs[p].pc.taken in s.removed)
  }

  // AddReady's cleanup, once past its critical section, leaves its own route unpublished.
  ghost predicate CleanupOk(s: Sys) {
    forall p | p in s.procs && s.procs[p].call.Add? && CleanedUp(s.procs[p].pc) :: Gone(s, p)
  }

  predicate CleanedUp(pc: Pc) {
    pc.Withdrawing? || pc.StoppingTaken? || pc == Returned(ReadyFailed)
  }

  predicate Gone(s: Sys, id: Id) {
    id in s.removed || id in s.drained
  }

  // Route events: one per publication and one per removal, up to those about to be emitted.
  ghost predicate EventsOk(s: Sys) {
    forall id: Id ::
      && s.events[RouteAdded(id)] == (if Announced(s, id) then 1 else 0)
      && s.events[RouteRemoved(id)] == (if id in s.removed && !Unannounced(s, id) then 1 else 0)
  }

  predicate Announced(s: Sys, id: Id) {
    id in s.published && id in s.procs && !s.procs[id].pc.Announcing?
  }

  // The removal of id happened but its event is still to come.
  predicate Unannounced(s: Sys, id: Id) {
    id in s.duty && s.duty[id].HeldBy? && s.duty[id].p in s.procs && s.procs[s.duty[id].p].pc == Withdrawing(id)
  }

  ghost predicate Inv(s: Sys) {
    Typed(s) && TableOk(s) && OnceOk(s) && DutyOk(s) && HistoryOk(s) && CleanupOk(s) && EventsOk(s)
  }

  lemma InitOk()
    ensures Inv(INIT)
  {
  }

  lemma SpawnFrame(s: Sys, p: Pid, call: Call)
    requires p !in s.procs
    ensures var t := Do(s, Spawn(p, call));
            && (forall q, k :: At(t, q, k) <==> At(s, q, k))
            && (forall q, id :: Carries(t, q, id) <==> Carries(s, q, id))
            && (forall id | id != p :: Visible(t, id) <==> Visible(s, id))
  {
  }

  lemma NextLocal(s: Sys, p: Pid, ok: bool, pick: Id)
    requires Enabled(s, Step(p, ok, pick))
    requires Local(s.procs[p], p in s.published, p in s.wired, s.rewrites)
    ensures var t := Move(s, p, ok, pick); Local(t.procs[p], p in t.published, p in t.wired, t.rewrites)
  {
  }

  // The histories behind Local change only for p, and only grow.
  lemma HistoryFrame(s: Sys, p: Pid, ok: bool, pick: Id)
    requires Enabled(s, Step(p, ok, pick))
    ensures var t := Effect(s, p, ok, pick);
            && s.published <= t.published <= s.published + {p}
            && s.wired <= t.wired <= s.wired + {p}
            && (s.rewrites ==> t.rewrites)
  {
  }

  lemma MoveKeepsTyped(s: Sys, p: Pid, ok: bool, pick: Id)
    requires Typed(s) && Enabled(s, Step(p, ok, pick))
    ensures Typed(Move(s, p, ok, pick))
  {
    NextLocal(s, p, ok, pick);
    HistoryFrame(s, p, ok, pick);
    MoveFrame(s, p, ok, pick);
    TypedFrame(s, Move(s, p, ok, pick), p);
  }

  lemma TypedFrame(s: Sys, t: Sys, p: Pid)
    requires Typed(s) && t.procs.Keys == s.procs.Keys && p in s.procs
    requires Local(t.procs[p], p in t.published, p in t.wired, t.rewrites)
    requires forall q | q in s.procs && q != p :: t.procs[q] == s.procs[q]
    requires s.published <= t.published <= s.published + {p}
    requires s.wired <= t.wired <= s.wired + {p}
    requires s.rewrites ==> t.rewrites
    ensures Typed(t)
  {
    forall q | q in t.procs && q != p
      ensures Local(t.procs[q], q in t.published, q in t.wired, t.rewrites)
    {
      assert q in t.published <==> q in s.published;
      assert q in t.wired <==> q in s.wired;
      assert Local(s.procs[q], q in s.published, q in s.wired, s.rewrites);
    }
  }

  lemma SpawnKeepsTyped(s: Sys, p: Pid, call: Call)
    requires Typed(s) && p !in s.procs
    ensures Typed(Do(s, Spawn(p, call)))
  {
    var t := Do(s, Spawn(p, call));
    assert forall q | q in s.procs :: t.procs[q] == s.procs[q];
  }

  // The table stays explained when neither it nor the reservations change.
  lemma TableSame(s: Sys, t: Sys)
    requires TableOk(s) && t.table == s.table
    requires forall q, k :: At(t, q, k) <==> At(s, q, k)
    requires forall q | q in s.procs :: q in t.procs && t.procs[q].key == s.procs[q].key
    ensures TableOk(t)
  {
  }

  // A move of call p leaves the other calls where they are.
  lemma MoveFrame(s: Sys, p: Pid, ok: bool, pick: Id)
    requires Enabled(s, Step(p, ok, pick))
    ensures var t := Move(s, p, ok, pick);
            && t.procs.Keys == s.procs.Keys
            && t.procs[p].call == s.procs[p].call && t.procs[p].key == s.procs[p].key
            && (forall q | q in s.procs && q != p :: t.procs[q] == s.procs[q])
  {
  }

  lemma AtFrame(s: Sys, p: Pid, ok: bool, pick: Id)
    requires Enabled(s, Step(p, ok, pick))
    ensures var t := Move(s, p, ok, pick);
            && (forall q, k | q != p :: At(t, q, k) <==> At(s, q, k))
            && (forall q | q in s.procs :: q in t.procs && t.procs[q].key == s.procs[q].key)
  {
    MoveFrame(s, p, ok, pick);
  }

  // ... so duties change only where p is concerned, and started registrations stay started.
  lemma DutyFrame(s: Sys, p: Pid, ok: bool, pick: Id)
    requires DutyOk(s) && Enabled(s, Step(p, ok, pick))
    ensures var t := Move(s, p, ok, pick);
            && (forall q, id | q != p :: Carries(t, q, id) <==> Carries(s, q, id))
            && (forall id :: IsStopper(t, id) <==> IsStopper(s, id))
            && (forall i | i in s.duty ::
                  i in t.procs && t.procs[i].call == s.procs[i].call && !Unstarted(t.procs[i].pc))
  {
    MoveFrame(s, p, ok, pick);
    if !Unstarted(s.procs[p].pc) {
      NextStarted(s, p, ok, pick);
    }
  }

  lemma NextStarted(s: Sys, p: Pid, ok: bool, pick: Id)
    requires Enabled(s, Step(p, ok, pick)) && !Unstarted(s.procs[p].pc)
    ensures !Unstarted(Next(s, p, ok, pick))
  {
  }

  // An entry leaves the table together with every reservation of its key.
  lemma TableDeleted(s: Sys, t: Sys, key: string)
    requires TableOk(s) && t.table == Delete(s.table, key)
    requires forall q, k :: At(t, q, k) ==> At(s, q, k)
    requires forall q, k | k != key :: At(s, q, k) ==> At(t, q, k)
    requires s.table.closed || forall q :: !At(t, q, key)
    requires forall q | q in s.procs :: q in t.procs && t.procs[q].key == s.procs[q].key
    ensures TableOk(t)
  {
    forall k | k in t.table.routes && t.table.routes[k].Reserved?
      ensures exists q :: At(t, q, k)
    {
      var q :| At(s, q, k);
      assert At(t, q, k);
    }
  }

  // The reservation of call p appears, or turns into its published route.
  lemma TableWritten(s: Sys, t: Sys, p: Pid, slot: Slot)
    requires TableOk(s) && !s.table.closed && p in s.procs
    requires var key := s.procs[p].key; t.table == s.table.(routes := s.table.routes[key := slot])
    requires forall q, k | q != p :: At(t, q, k) <==> At(s, q, k)
    requires forall q | q in s.procs :: q in t.procs && t.procs[q].key == s.procs[q].key
    requires var key := s.procs[p].key;
             if slot.Reserved? then key !in s.table.routes && At(t, p, key)
             else slot.rt == p && At(s, p, key) && !At(t, p, key)
    ensures TableOk(t)
  {
    var key := s.procs[p].key;
    forall q | q != p ensures !At(t, q, key) {
      assert At(s, q, key) ==> key in s.table.routes;
    }
    forall k | k in t.table.routes && t.table.routes[k].Reserved?
      ensures exists q :: At(t, q, k)
    {
      if k == key {
        assert At(t, p, k);
      } else {
        var q :| At(s, q, k);
        assert q != p;
        assert At(t, q, k);
      }
    }
  }

  lemma ReservingKeepsTable(s: Sys, p: Pid, ok: bool, pick: Id)
    requires TableOk(s) && Enabled(s, Step(p, ok, pick)) && s.procs[p].pc.Reserving?
    ensures TableOk(Move(s, p, ok, pick))
  {
    AtFrame(s, p, ok, pick);
    var t, key := Move(s, p, ok, pick), s.procs[p].key;
    if Reserve(s.table, key).1.Granted? {
      assert At(t, p, key);
      TableWritten(s, t, p, Reserved);
    } else {
      TableSame(s, t);
    }
  }

  lemma AbortingKeepsTable(s: Sys, p: Pid, ok: bool, pick: Id)
    requires TableOk(s) && Enabled(s, Step(p, ok, pick)) && s.procs[p].pc.Aborting?
    ensures TableOk(Move(s, p, ok, pick))
  {
    AtFrame(s, p, ok, pick);
    assert At(s, p, s.procs[p].key);
    TableDeleted(s, Move(s, p, ok, pick), s.procs[p].key);
  }

  lemma PublishingKeepsTable(s: Sys, p: Pid, ok: bool, pick: Id)
    requires TableOk(s) && Enabled(s, Step(p, ok, pick)) && s.procs[p].pc.Publishing?
    ensures TableOk(Move(s, p, ok, pick))
  {
    AtFrame(s, p, ok, pick);
    assert At(s, p, s.procs[p].key);
    if s.table.closed {
      TableDeleted(s, Move(s, p, ok, pick), s.procs[p].key);
    } else {
      TableWritten(s, Move(s, p, ok, pick), p, Published(p));
    }
  }

  lemma RemovingKeepsTable(s: Sys, p: Pid, ok: bool, pick: Id)
    requires TableOk(s) && Enabled(s, Step(p, ok, pick)) && s.procs[p].pc.Removing?
    ensures TableOk(Move(s, p, ok, pick))
  {
    AtFrame(s, p, ok, pick);
    assert forall k :: !At(s, p, k) && !At(Move(s, p, ok, pick), p, k);
    if Take(s.table, s.procs[p].key).1.Some? {
      TableDeleted(s, Move(s, p, ok, pick), s.procs[p].key);
    } else {
      TableSame(s, Move(s, p, ok, pick));
    }
  }

  lemma DrainingKeepsTable(s: Sys, p: Pid, ok: bool, pick: Id)
    requires Enabled(s, Step(p, ok, pick)) && s.procs[p].pc.Draining?
    ensures TableOk(Move(s, p, ok, pick))
  {
  }

  lemma OthersKeepTable(s: Sys, p: Pid, ok: bool, pick: Id)
    requires TableOk(s) && Enabled(s, Step(p, ok, pick))
    requires var pc := s.procs[p].pc;
             !pc.Reserving? && !pc.Aborting? && !pc.Publishing? && !pc.Removing? && !pc.Draining?
    ensures TableOk(Move(s, p, ok, pick))
  {
    AtFrame(s, p, ok, pick);
    OtherMovesKeepReservations(s, p, ok, pick);
    TableSame(s, Move(s, p, ok, pick));
  }

  lemma MoveKeepsTable(s: Sys, p: Pid, ok: bool, pick: Id)
    requires TableOk(s) && Enabled(s, Step(p, ok, pick))
    ensures TableOk(Move(s, p, ok, pick))
  {
    var pc := s.procs[p].pc;
    if pc.Reserving? {
      ReservingKeepsTable(s, p, ok, pick);
    } else if pc.Aborting? {
      AbortingKeepsTable(s, p, ok, pick);
    } else if pc.Publishing? {
      PublishingKeepsTable(s, p, ok, pick);
    } else if pc.Removing? {
      RemovingKeepsTable(s, p, ok, pick);
    } else if pc.Draining? {
      DrainingKeepsTable(s, p, ok, pick);
    } else {
      OthersKeepTable(s, p, ok, pick);
    }
  }

  lemma OtherMovesKeepReservations(s: Sys, p: Pid, ok: bool, pick: Id)
    requires Enabled(s, Step(p, ok, pick))
    requires var pc := s.procs[p].pc;
             !pc.Reserving? && !pc.Aborting? && !pc.Publishing? && !pc.Removing? && !pc.Draining?
    ensures var t := Move(s, p, ok, pick); t.table == s.table && (forall k :: At(t, p, k) <==> At(s, p, k))
  {
  }

  lemma SpawnKeepsTable(s: Sys, p: Pid, call: Call)
    requires TableOk(s) && p !in s.procs
    ensures TableOk(Do(s, Spawn(p, call)))
  {
    SpawnFrame(s, p, call);
    TableSame(s, Do(s, Spawn(p, call)));
  }

  // Nothing changes hands.
  lemma DutySame(s: Sys, t: Sys)
    requires DutyOk(s) && t.duty == s.duty && t.stops == s.stops
    requires forall id :: Visible(t, id) <==> Visible(s, id)
    requires forall q, id :: Carries(t, q, id) <==> Carries(s, q, id)
    requires forall id | id in s.duty ::
               id in t.procs && t.procs[id].call == s.procs[id].call && !Unstarted(t.procs[id].pc)
    ensures DutyOk(t)
  {
  }

  lemma StopsMove(s: Sys, t: Sys, id: Id, h: Holder)
    requires StopsOk(s) && t.duty == s.duty[id := h] && (id in s.duty ==> s.duty[id] != Discharged)
    requires forall i | i in s.duty :: i in s.procs && i in t.procs && t.procs[i].call == s.procs[i].call
    requires t.stops == if h == Discharged && IsStopper(t, id) then s.stops + multiset{id} else s.stops
    ensures StopsOk(t)
  {
  }

  // One registration changes hands, or is started.
  lemma DutyMoves(s: Sys, t: Sys, id: Id, h: Holder)
    requires DutyOk(s) && t.duty == s.duty[id := h]
    requires id in t.procs && t.procs[id].call.Add? && !Unstarted(t.procs[id].pc)
    requires forall i | i != id :: Visible(t, i) <==> Visible(s, i)
    requires forall q, i | i != id :: Carries(t, q, i) <==> Carries(s, q, i)
    requires Visible(t, id) <==> h == InTable
    requires forall q :: Carries(t, q, id) <==> h == HeldBy(q)
    requires forall i | i in s.duty :: i in t.procs && t.procs[i].call == s.procs[i].call && !Unstarted(t.procs[i].pc)
    requires id in s.duty ==> s.duty[id] != Discharged
    requires t.stops == if h == Discharged && IsStopper(t, id) then s.stops + multiset{id} else s.stops
    ensures DutyOk(t)
  {
    StopsMove(s, t, id, h);
  }

  lemma StartingKeepsDuty(s: Sys, p: Pid, ok: bool, pick: Id)
    requires TableOk(s) && DutyOk(s) && Typed(s) && Enabled(s, Step(p, ok, pick)) && s.procs[p].pc.Starting?
    ensures DutyOk(Move(s, p, ok, pick))
  {
    DutyFrame(s, p, ok, pick);
    var t := Move(s, p, ok, pick);
    assert !Visible(s, p) && forall q :: !Carries(s, q, p);
    assert forall id :: Visible(t, id) <==> Visible(s, id);
    if ok {
      DutyMoves(s, t, p, HeldBy(p));
    } else {
      DutySame(s, t);
    }
  }

  lemma PublishingKeepsDuty(s: Sys, p: Pid, ok: bool, pick: Id)
    requires TableOk(s) && DutyOk(s) && Typed(s) && Enabled(s, Step(p, ok, pick)) && s.procs[p].pc.Publishing?
    ensures DutyOk(Move(s, p, ok, pick))
  {
    DutyFrame(s, p, ok, pick);
    var t := Move(s, p, ok, pick);
    assert At(s, p, s.procs[p].key) && Carries(s, p, p);
    if s.table.closed {
      assert forall id :: Visible(t, id) <==> Visible(s, id);
      DutySame(s, t);
    } else {
      DutyMoves(s, t, p, InTable);
    }
  }

  lemma StopTakesDuty(s: Sys, p: Pid, ok: bool, pick: Id)
    requires Enabled(s, Step(p, ok, pick)) && Discharges(s.procs[p].pc, p, pick).Some?
    ensures var pc, next, id := s.procs[p].pc, Next(s, p, ok, pick), Discharges(s.procs[p].pc, p, pick).value;
            && Bears(pc, p, id) && !Bears(next, p, id)
            && (forall i | i != id :: Bears(next, p, i) <==> Bears(pc, p, i))
  {
  }

  // A Stop call takes the duty from the call that carries it.
  lemma StopShape(s: Sys, p: Pid, ok: bool, pick: Id)
    requires Enabled(s, Step(p, ok, pick)) && Discharges(s.procs[p].pc, p, pick).Some?
    ensures var t, id := Move(s, p, ok, pick), Discharges(s.procs[p].pc, p, pick).value;
            && Carries(s, p, id) && !Carries(t, p, id) && t.table == s.table
            && (forall i | i != id :: Carries(t, p, i) <==> Carries(s, p, i))
            && t.duty == s.duty[id := Discharged]
            && t.stops == if IsStopper(t, id) then s.stops + multiset{id} else s.stops
  {
    StopTakesDuty(s, p, ok, pick);
  }

  lemma StoppingKeepsDuty(s: Sys, p: Pid, ok: bool, pick: Id)
    requires DutyOk(s) && Enabled(s, Step(p, ok, pick)) && Discharges(s.procs[p].pc, p, pick).Some?
    ensures DutyOk(Move(s, p, ok, pick))
  {
    DutyFrame(s, p, ok, pick);
    StopShape(s, p, ok, pick);
    DutyMoves(s, Move(s, p, ok, pick), Discharges(s.procs[p].pc, p, pick).value, Discharged);
  }

  // Deleting a key hides exactly the route published under it.
  lemma VisibleAfterDelete(s: Sys, t: Sys, key: string, id: Id)
    requires TableOk(s) && t.table == Delete(s.table, key) && s.table.Shows(key, id)
    requires t.procs.Keys == s.procs.Keys && forall q | q in s.procs :: t.procs[q].key == s.procs[q].key
    ensures Visible(s, id) && !Visible(t, id)
    ensures forall i | i != id :: Visible(t, i) <==> Visible(s, i)
  {
  }

  lemma TakingShape(s: Sys, p: Pid, ok: bool, pick: Id)
    requires Enabled(s, Step(p, ok, pick)) && s.procs[p].pc.Removing?
    ensures var t, (table, taken) := Move(s, p, ok, pick), Take(s.table, s.procs[p].key);
            && t.table == table && t.stops == s.stops
            && (forall id :: !Carries(s, p, id))
            && (forall id: Id :: Carries(t, p, id) <==> taken.Some? && taken.value == id)
            && t.duty == (if taken.Some? then s.duty[taken.value := HeldBy(p)] else s.duty)
            && t.removed == (if taken.Some? then s.removed + {taken.value} else s.removed)
            && t.drained == s.drained && t.published == s.published
  {
  }

  lemma TakingKeepsDuty(s: Sys, t: Sys, p: Pid, key: string, id: Id)
    requires TableOk(s) && DutyOk(s) && s.table.Shows(key, id)
    requires t.table == Delete(s.table, key) && t.stops == s.stops && t.duty == s.duty[id := HeldBy(p)]
    requires t.procs.Keys == s.procs.Keys && forall q | q in s.procs :: t.procs[q].key == s.procs[q].key
    requires forall i | i in s.duty :: i in t.procs && t.procs[i].call == s.procs[i].call && !Unstarted(t.procs[i].pc)
    requires forall q, i | q != p :: Carries(t, q, i) <==> Carries(s, q, i)
    requires forall i :: !Carries(s, p, i) && (Carries(t, p, i) <==> i == id)
    ensures DutyOk(t)
  {
    VisibleAfterDelete(s, t, key, id);
    assert forall q :: !Carries(s, q, id);
    DutyMoves(s, t, id, HeldBy(p));
  }

  lemma RemovingKeepsDuty(s: Sys, p: Pid, ok: bool, pick: Id)
    requires TableOk(s) && DutyOk(s) && Enabled(s, Step(p, ok, pick)) && s.procs[p].pc.Removing?
    ensures DutyOk(Move(s, p, ok, pick))
  {
    MoveFrame(s, p, ok, pick);
    DutyFrame(s, p, ok, pick);
    TakingShape(s, p, ok, pick);
    var t, taken := Move(s, p, ok, pick), Take(s.table, s.procs[p].key).1;
    if taken.Some? {
      TakingKeepsDuty(s, t, p, s.procs[p].key, taken.value);
    } else {
      DutySame(s, t);
    }
  }

  lemma DrainingShape(s: Sys, p: Pid, ok: bool, pick: Id)
    requires Enabled(s, Step(p, ok, pick)) && s.procs[p].pc.Draining?
    ensures var t, ids := Move(s, p, ok, pick), s.table.Ids();
            && t.table == Drain(s.table) && t.stops == s.stops
            && (forall id :: !Carries(s, p, id))
            && (forall id :: Carries(t, p, id) <==> id in ids)
            && t.duty.Keys == s.duty.Keys + ids
            && (forall id | id in t.duty :: t.duty[id] == if id in ids then HeldBy(p) else s.duty[id])
            && t.drained == s.drained + ids && t.removed == s.removed && t.published == s.published
  {
  }

  lemma DrainedKeepsDuty(s: Sys, t: Sys, p: Pid)
    requires TableOk(s) && DutyOk(s) && t.table == Drain(s.table) && t.stops == s.stops
    requires t.duty.Keys == s.duty.Keys + s.table.Ids()
    requires forall id | id in t.duty :: t.duty[id] == if id in s.table.Ids() then HeldBy(p) else s.duty[id]
    requires forall i | i in s.duty :: i in t.procs && t.procs[i].call == s.procs[i].call && !Unstarted(t.procs[i].pc)
    requires forall q, i | q != p :: Carries(t, q, i) <==> Carries(s, q, i)
    requires forall i :: !Carries(s, p, i) && (Carries(t, p, i) <==> i in s.table.Ids())
    ensures DutyOk(t)
  {
    IdsAreVisible(s);
    assert forall id :: !Visible(t, id);
  }

  lemma DrainingKeepsDuty(s: Sys, p: Pid, ok: bool, pick: Id)
    requires TableOk(s) && DutyOk(s) && Enabled(s, Step(p, ok, pick)) && s.procs[p].pc.Draining?
    ensures DutyOk(Move(s, p, ok, pick))
  {
    DutyFrame(s, p, ok, pick);
    DrainingShape(s, p, ok, pick);
    DrainedKeepsDuty(s, Move(s, p, ok, pick), p);
  }

  lemma IdsAreVisible(s: Sys)
    requires TableOk(s)
    ensures forall id :: id in s.table.Ids() <==> Visible(s, id)
  {
    forall id | Visible(s, id) ensures id in s.table.Ids() {
      assert s.procs[id].key in s.table.routes;
    }
  }

  lemma OthersKeepDuty(s: Sys, p: Pid, ok: bool, pick: Id)
    requires TableOk(s) && DutyOk(s) && Enabled(s, Step(p, ok, pick))
    requires var pc := s.procs[p].pc; !pc.Starting? && !pc.Publishing? && !pc.Removing? && !pc.Draining?
    requires Discharges(s.procs[p].pc, p, pick).None?
    ensures DutyOk(Move(s, p, ok, pick))
  {
    DutyFrame(s, p, ok, pick);
    var t := Move(s, p, ok, pick);
    OtherMovesCarry(s, p, ok, pick);
    if s.procs[p].pc.Aborting? {
      assert At(s, p, s.procs[p].key);
    }
    assert forall id :: Visible(t, id) <==> Visible(s, id);
    DutySame(s, t);
  }

  lemma OtherMovesCarry(s: Sys, p: Pid, ok: bool, pick: Id)
    requires Enabled(s, Step(p, ok, pick))
    requires var pc := s.procs[p].pc; !pc.Starting? && !pc.Publishing? && !pc.Removing? && !pc.Draining?
    requires Discharges(s.procs[p].pc, p, pick).None?
    ensures var t := Move(s, p, ok, pick);
            && t.duty == s.duty && t.stops == s.stops
            && (forall id :: Carries(t, p, id) <==> Carries(s, p, id))
            && (t.table == s.table || (s.procs[p].pc.Aborting? && t.table == Delete(s.table, s.procs[p].key))
                || (s.procs[p].pc.Reserving? && t.table == Reserve(s.table, s.procs[p].key).0))
  {
  }

  lemma MoveKeepsDuty(s: Sys, p: Pid, ok: bool, pick: Id)
    requires TableOk(s) && DutyOk(s) && Typed(s) && Enabled(s, Step(p, ok, pick))
    ensures DutyOk(Move(s, p, ok, pick))
  {
    var pc := s.procs[p].pc;
    if pc.Starting? {
      StartingKeepsDuty(s, p, ok, pick);
    } else if pc.Publishing? {
      PublishingKeepsDuty(s, p, ok, pick);
    } else if Discharges(pc, p, pick).Some? {
      StoppingKeepsDuty(s, p, ok, pick);
    } else if pc.Removing? {
      RemovingKeepsDuty(s, p, ok, pick);
    } else if pc.Draining? {
      DrainingKeepsDuty(s, p, ok, pick);
    } else {
      OthersKeepDuty(s, p, ok, pick);
    }
  }

  lemma SpawnKeepsDuty(s: Sys, p: Pid, call: Call)
    requires DutyOk(s) && TableOk(s) && p !in s.procs
    ensures DutyOk(Do(s, Spawn(p, call)))
  {
    SpawnFrame(s, p, call);
    var t := Do(s, Spawn(p, call));
    assert !Visible(s, p) && !Visible(t, p);
    DutySame(s, t);
  }
}
