// RegistryRuns, continued: the ledger of publications, removals and events, and Close's latch.
module RegistryLedger {
  import opened RouteTable
  import opened RegistryRuns
  import opened RegistrySafety

  // ---- Published = live + removed + drained ----

  ghost predicate WithdrawsRemoved(s: Sys) {
    forall p | p in s.procs && s.procs[p].pc.Withdrawing? :: s.procs[p].pc.taken in s.removed
  }

  lemma WithdrawsFrame(s: Sys, p: Pid, ok: bool, pick: Id)
    requires WithdrawsRemoved(s) && Enabled(s, Step(p, ok, pick))
    ensures WithdrawsRemoved(Move(s, p, ok, pick))
  {
    MoveFrame(s, p, ok, pick);
    RemovedGrows(s, p, ok, pick);
  }

  lemma RemovedGrows(s: Sys, p: Pid, ok: bool, pick: Id)
    requires Enabled(s, Step(p, ok, pick))
    ensures s.removed <= Effect(s, p, ok, pick).removed
    ensures Next(s, p, ok, pick).Withdrawing? ==>
              s.procs[p].pc.Removing? && Next(s, p, ok, pick).taken in Effect(s, p, ok, pick).removed
  {
  }

  lemma HistorySame(s: Sys, t: Sys)
    requires HistoryOk(s) && t.published == s.published && t.removed == s.removed && t.drained == s.drained
    requires forall id :: Visible(t, id) <==> Visible(s, id)
    requires s.duty.Keys <= t.duty.Keys && WithdrawsRemoved(t)
    ensures HistoryOk(t)
  {
  }

  lemma PublishedHistory(s: Sys, t: Sys, p: Pid)
    requires HistoryOk(s) && t.published == s.published + {p} && t.removed == s.removed && t.drained == s.drained
    requires p !in s.published && Visible(t, p)
    requires forall id | id != p :: Visible(t, id) <==> Visible(s, id)
    requires s.duty.Keys + {p} <= t.duty.Keys && WithdrawsRemoved(t)
    ensures HistoryOk(t)
  {
  }

  // Visible routes become removed, or drained.
  lemma HiddenHistory(s: Sys, t: Sys, ids: set<Id>)
    requires HistoryOk(s) && t.published == s.published
    requires || (t.removed == s.removed + ids && t.drained == s.drained)
             || (t.removed == s.removed && t.drained == s.drained + ids)
    requires forall id :: id in ids ==> Visible(s, id)
    requires forall id :: Visible(t, id) <==> Visible(s, id) && id !in ids
    requires s.duty.Keys <= t.duty.Keys && WithdrawsRemoved(t)
    ensures HistoryOk(t)
  {
  }

  lemma PublishingKeepsHistory(s: Sys, p: Pid, ok: bool, pick: Id)
    requires Typed(s) && TableOk(s) && HistoryOk(s) && Enabled(s, Step(p, ok, pick)) && s.procs[p].pc.Publishing?
    ensures HistoryOk(Move(s, p, ok, pick))
  {
    MoveFrame(s, p, ok, pick);
    WithdrawsFrame(s, p, ok, pick);
    var t := Move(s, p, ok, pick);
    assert At(s, p, s.procs[p].key);
    assert p !in s.published;
    if s.table.closed {
      assert forall id :: Visible(t, id) <==> Visible(s, id);
      HistorySame(s, t);
    } else {
      PublishedHistory(s, t, p);
    }
  }

  lemma RemovingKeepsHistory(s: Sys, p: Pid, ok: bool, pick: Id)
    requires TableOk(s) && HistoryOk(s) && Enabled(s, Step(p, ok, pick)) && s.procs[p].pc.Removing?
    ensures HistoryOk(Move(s, p, ok, pick))
  {
    MoveFrame(s, p, ok, pick);
    WithdrawsFrame(s, p, ok, pick);
    TakingShape(s, p, ok, pick);
    var t, key, taken := Move(s, p, ok, pick), s.procs[p].key, Take(s.table, s.procs[p].key).1;
    if taken.Some? {
      VisibleAfterDelete(s, t, key, taken.value);
      HiddenHistory(s, t, {taken.value});
    } else {
      HistorySame(s, t);
    }
  }

  lemma DrainingKeepsHistory(s: Sys, p: Pid, ok: bool, pick: Id)
    requires TableOk(s) && HistoryOk(s) && Enabled(s, Step(p, ok, pick)) && s.procs[p].pc.Draining?
    ensures HistoryOk(Move(s, p, ok, pick))
  {
    WithdrawsFrame(s, p, ok, pick);
    DrainingShape(s, p, ok, pick);
    IdsAreVisible(s);
    var t := Move(s, p, ok, pick);
    assert forall id :: !Visible(t, id);
    HiddenHistory(s, t, s.table.Ids());
  }

  lemma OthersShape(s: Sys, p: Pid, ok: bool, pick: Id)
    requires Enabled(s, Step(p, ok, pick))
    requires var pc := s.procs[p].pc; !pc.Publishing? && !pc.Removing? && !pc.Draining?
    ensures var t := Effect(s, p, ok, pick);
            && t.published == s.published && t.removed == s.removed && t.drained == s.drained
            && s.duty.Keys <= t.duty.Keys
            && (t.table == s.table || (s.procs[p].pc.Aborting? && t.table == Delete(s.table, s.procs[p].key))
                || (s.procs[p].pc.Reserving? && t.table == Reserve(s.table, s.procs[p].key).0))
  {
  }

  lemma OthersKeepHistory(s: Sys, p: Pid, ok: bool, pick: Id)
    requires TableOk(s) && HistoryOk(s) && Enabled(s, Step(p, ok, pick))
    requires var pc := s.procs[p].pc; !pc.Publishing? && !pc.Removing? && !pc.Draining?
    ensures HistoryOk(Move(s, p, ok, pick))
  {
    OthersShape(s, p, ok, pick);
    WithdrawsFrame(s, p, ok, pick);
    VisibleUnchanged(s, p, ok, pick);
    HistorySame(s, Move(s, p, ok, pick));
  }

  // Reservations come and go without touching a published route.
  lemma VisibleUnchanged(s: Sys, p: Pid, ok: bool, pick: Id)
    requires TableOk(s) && Enabled(s, Step(p, ok, pick))
    requires var pc := s.procs[p].pc; !pc.Publishing? && !pc.Removing? && !pc.Draining?
    ensures forall id :: Visible(Move(s, p, ok, pick), id) <==> Visible(s, id)
  {
    MoveFrame(s, p, ok, pick);
    OthersShape(s, p, ok, pick);
    if s.procs[p].pc.Aborting? {
      assert At(s, p, s.procs[p].key);
    }
  }

  lemma MoveKeepsHistory(s: Sys, p: Pid, ok: bool, pick: Id)
    requires Typed(s) && TableOk(s) && HistoryOk(s) && Enabled(s, Step(p, ok, pick))
    ensures HistoryOk(Move(s, p, ok, pick))
  {
    var pc := s.procs[p].pc;
    if pc.Publishing? {
      PublishingKeepsHistory(s, p, ok, pick);
    } else if pc.Removing? {
      RemovingKeepsHistory(s, p, ok, pick);
    } else if pc.Draining? {
      DrainingKeepsHistory(s, p, ok, pick);
    } else {
      OthersKeepHistory(s, p, ok, pick);
    }
  }

  // Nothing leaves the ledger.
  lemma LedgerGrows(s: Sys, a: Action)
    requires Enabled(s, a)
    ensures var t := Do(s, a); s.removed <= t.removed && s.drained <= t.drained && (s.table.closed ==> t.table.closed)
  {
    if a.Step? {
      LedgerEffect(s, a.p, a.ok, a.pick);
    }
  }

  lemma LedgerEffect(s: Sys, p: Pid, ok: bool, pick: Id)
    requires Enabled(s, Step(p, ok, pick))
    ensures var t := Effect(s, p, ok, pick);
            s.removed <= t.removed && s.drained <= t.drained && (s.table.closed ==> t.table.closed)
  {
  }

  lemma MoveKeepsCleanup(s: Sys, p: Pid, ok: bool, pick: Id)
    requires Typed(s) && TableOk(s) && HistoryOk(s) && CleanupOk(s) && Enabled(s, Step(p, ok, pick))
    ensures CleanupOk(Move(s, p, ok, pick))
  {
    MoveFrame(s, p, ok, pick);
    LedgerGrows(s, Step(p, ok, pick));
    assert Local(s.procs[p], p in s.published, p in s.wired, s.rewrites);
    if s.procs[p].call.Add? {
      CleanupFrom(s, p, ok, pick);
    }
    if s.procs[p].pc.Removing? {
      TakingShape(s, p, ok, pick);
    }
  }

  lemma CleanupFrom(s: Sys, p: Pid, ok: bool, pick: Id)
    requires Enabled(s, Step(p, ok, pick)) && s.procs[p].call.Add?
    requires Local(s.procs[p], p in s.published, p in s.wired, s.rewrites)
    ensures CleanedUp(Next(s, p, ok, pick)) ==> s.procs[p].pc.Removing? || CleanedUp(s.procs[p].pc)
  {
  }

  // ---- Events ----

  lemma EventsSame(s: Sys, t: Sys)
    requires EventsOk(s) && t.events == s.events && t.removed == s.removed
    requires forall id :: Announced(t, id) <==> Announced(s, id)
    requires forall id | id in s.removed :: Unannounced(t, id) <==> Unannounced(s, id)
    ensures EventsOk(t)
  {
  }

  // What a move can do to a duty: only registrations in the table or held by p change holder, and
  // they go to p, to the table, or are discharged.
  lemma DutyChange(s: Sys, p: Pid, ok: bool, pick: Id)
    requires TableOk(s) && DutyOk(s) && Enabled(s, Step(p, ok, pick))
    ensures OwnDuties(s, Effect(s, p, ok, pick), p)
  {
    var pc := s.procs[p].pc;
    if pc.Starting? || pc.Publishing? || pc.Removing? || pc.Draining? {
      TableDuties(s, p, ok, pick);
    } else if pc.StoppingOwn? || pc.StoppingTaken? || pc.StoppingAll? {
      StopDuties(s, p, ok, pick);
    }
  }

  ghost predicate OwnDuties(s: Sys, t: Sys, p: Pid) {
    forall id | id in s.duty ::
      && id in t.duty
      && (t.duty[id] == s.duty[id]
          || ((s.duty[id] == HeldBy(p) || s.duty[id] == InTable)
              && (t.duty[id] == HeldBy(p) || t.duty[id] == InTable || t.duty[id] == Discharged)))
  }

  lemma TableDuties(s: Sys, p: Pid, ok: bool, pick: Id)
    requires TableOk(s) && DutyOk(s) && Enabled(s, Step(p, ok, pick))
    requires var pc := s.procs[p].pc; pc.Starting? || pc.Publishing? || pc.Removing? || pc.Draining?
    ensures OwnDuties(s, Effect(s, p, ok, pick), p)
  {
    var Proc(_, key, pc) := s.procs[p];
    if pc.Draining? {
      IdsAreVisible(s);
    } else {
      assert pc.Publishing? ==> Carries(s, p, p);
      assert pc.Removing? && Find(s.table, key).Some? ==> Visible(s, Find(s.table, key).value);
    }
  }

  lemma StopDuties(s: Sys, p: Pid, ok: bool, pick: Id)
    requires DutyOk(s) && Enabled(s, Step(p, ok, pick))
    requires var pc := s.procs[p].pc; pc.StoppingOwn? || pc.StoppingTaken? || pc.StoppingAll?
    ensures OwnDuties(s, Effect(s, p, ok, pick), p)
  {
    var pc := s.procs[p].pc;
    assert pc.StoppingOwn? ==> Carries(s, p, p);
    assert pc.StoppingTaken? ==> Carries(s, p, pc.taken);
    assert pc.StoppingAll? && pc.rest != {} ==> Carries(s, p, pick);
  }

  lemma AnnouncedFrame(s: Sys, p: Pid, ok: bool, pick: Id)
    requires Typed(s) && Enabled(s, Step(p, ok, pick)) && !s.procs[p].pc.Announcing?
    ensures forall id :: Announced(Move(s, p, ok, pick), id) <==> Announced(s, id)
  {
    MoveFrame(s, p, ok, pick);
    PublishedShape(s, p, ok, pick);
    assert Local(s.procs[p], p in s.published, p in s.wired, s.rewrites);
  }

  lemma PublishedShape(s: Sys, p: Pid, ok: bool, pick: Id)
    requires Enabled(s, Step(p, ok, pick))
    ensures var t := Effect(s, p, ok, pick);
            || t.published == s.published
            || (t.published == s.published + {p} && Next(s, p, ok, pick).Announcing? && s.procs[p].pc.Publishing?)
    ensures Next(s, p, ok, pick).Announcing? ==> s.procs[p].pc.Publishing?
  {
  }

  lemma UnannouncedFrame(s: Sys, p: Pid, ok: bool, pick: Id)
    requires TableOk(s) && DutyOk(s) && HistoryOk(s) && Enabled(s, Step(p, ok, pick))
    requires !s.procs[p].pc.Removing? && !s.procs[p].pc.Withdrawing?
    ensures forall id | id in s.removed :: Unannounced(Move(s, p, ok, pick), id) <==> Unannounced(s, id)
  {
    MoveFrame(s, p, ok, pick);
    DutyChange(s, p, ok, pick);
    RemovedGrows(s, p, ok, pick);
    forall id | id in s.removed
      ensures Unannounced(Move(s, p, ok, pick), id) <==> Unannounced(s, id)
    {
      assert id in s.published && id in s.duty;
    }
  }

  lemma EventsShape(s: Sys, p: Pid, ok: bool, pick: Id)
    requires Enabled(s, Step(p, ok, pick))
    ensures var t, pc := Effect(s, p, ok, pick), s.procs[p].pc;
            && (!pc.Announcing? && !pc.Withdrawing? ==> t.events == s.events)
            && (!pc.Removing? ==> t.removed == s.removed)
            && (pc.Announcing? || pc.Withdrawing? ==> t.duty == s.duty && t.published == s.published)
  {
  }

  lemma AnnouncingKeepsEvents(s: Sys, p: Pid, ok: bool, pick: Id)
    requires Typed(s) && EventsOk(s) && TableOk(s) && DutyOk(s) && HistoryOk(s)
    requires Enabled(s, Step(p, ok, pick)) && s.procs[p].pc.Announcing?
    ensures EventsOk(Move(s, p, ok, pick))
  {
    MoveFrame(s, p, ok, pick);
    UnannouncedFrame(s, p, ok, pick);
    assert Local(s.procs[p], p in s.published, p in s.wired, s.rewrites);
    var t := Move(s, p, ok, pick);
    assert Announced(t, p) && !Announced(s, p);
    assert forall id | id != p :: Announced(t, id) <==> Announced(s, id);
  }

  lemma WithdrawingKeepsEvents(s: Sys, p: Pid, ok: bool, pick: Id)
    requires Typed(s) && EventsOk(s) && DutyOk(s) && HistoryOk(s)
    requires Enabled(s, Step(p, ok, pick)) && s.procs[p].pc.Withdrawing?
    ensures EventsOk(Move(s, p, ok, pick))
  {
    MoveFrame(s, p, ok, pick);
    AnnouncedFrame(s, p, ok, pick);
    var t, taken := Move(s, p, ok, pick), s.procs[p].pc.taken;
    assert Carries(s, p, taken);
    assert Unannounced(s, taken) && !Unannounced(t, taken);
    assert forall id | id != taken :: Unannounced(t, id) <==> Unannounced(s, id);
  }

  lemma RemovingKeepsEvents(s: Sys, p: Pid, ok: bool, pick: Id)
    requires Typed(s) && EventsOk(s) && TableOk(s) && DutyOk(s) && HistoryOk(s)
    requires Enabled(s, Step(p, ok, pick)) && s.procs[p].pc.Removing?
    ensures EventsOk(Move(s, p, ok, pick))
  {
    AnnouncedFrame(s, p, ok, pick);
    RemovingUnannounced(s, p, ok, pick);
    EventsShape(s, p, ok, pick);
    var t := Move(s, p, ok, pick);
    assert forall id | id in t.removed && id !in s.removed :: s.events[RouteRemoved(id)] == 0;
  }

  // A removal starts unannounced and changes no other.
  lemma RemovingUnannounced(s: Sys, p: Pid, ok: bool, pick: Id)
    requires TableOk(s) && DutyOk(s) && HistoryOk(s) && Enabled(s, Step(p, ok, pick)) && s.procs[p].pc.Removing?
    ensures var t := Move(s, p, ok, pick);
            && s.removed <= t.removed
            && (forall id | id in t.removed && id !in s.removed :: Unannounced(t, id))
            && (forall id | id in s.removed :: Unannounced(t, id) <==> Unannounced(s, id))
  {
    MoveFrame(s, p, ok, pick);
    TakingShape(s, p, ok, pick);
    var taken := Take(s.table, s.procs[p].key).1;
    if taken.Some? {
      assert Visible(s, taken.value);
    }
  }

  lemma MoveKeepsEvents(s: Sys, p: Pid, ok: bool, pick: Id)
    requires Typed(s) && EventsOk(s) && TableOk(s) && DutyOk(s) && HistoryOk(s) && Enabled(s, Step(p, ok, pick))
    ensures EventsOk(Move(s, p, ok, pick))
  {
    var pc := s.procs[p].pc;
    if pc.Announcing? {
      AnnouncingKeepsEvents(s, p, ok, pick);
    } else if pc.Withdrawing? {
      WithdrawingKeepsEvents(s, p, ok, pick);
    } else if pc.Removing? {
      RemovingKeepsEvents(s, p, ok, pick);
    } else {
      EventsShape(s, p, ok, pick);
      AnnouncedFrame(s, p, ok, pick);
      UnannouncedFrame(s, p, ok, pick);
      EventsSame(s, Move(s, p, ok, pick));
    }
  }

  // ---- closeOnce ----

  lemma OthersLatch(s: Sys, p: Pid, ok: bool, pick: Id)
    requires Enabled(s, Step(p, ok, pick)) && !Closing(s.procs[p].pc) && !s.procs[p].pc.EnteringOnce?
    ensures var t := Effect(s, p, ok, pick); t.once == s.once && t.done == s.done && t.table.closed == s.table.closed
  {
  }

  lemma OthersStayOut(s: Sys, p: Pid, ok: bool, pick: Id)
    requires Enabled(s, Step(p, ok, pick)) && !Closing(s.procs[p].pc) && !s.procs[p].pc.EnteringOnce?
    ensures !Closing(Next(s, p, ok, pick))
  {
  }

  lemma MoveKeepsOnce(s: Sys, p: Pid, ok: bool, pick: Id)
    requires OnceOk(s) && Enabled(s, Step(p, ok, pick))
    ensures OnceOk(Move(s, p, ok, pick))
  {
    MoveFrame(s, p, ok, pick);
    if !Closing(s.procs[p].pc) && !s.procs[p].pc.EnteringOnce? {
      OthersLatch(s, p, ok, pick);
      OthersStayOut(s, p, ok, pick);
    } else {
      CloserKeepsOnce(s, p, ok, pick);
    }
  }

  lemma CloserKeepsOnce(s: Sys, p: Pid, ok: bool, pick: Id)
    requires OnceOk(s) && Enabled(s, Step(p, ok, pick))
    requires Closing(s.procs[p].pc) || s.procs[p].pc.EnteringOnce?
    ensures OnceOk(Move(s, p, ok, pick))
  {
    MoveFrame(s, p, ok, pick);
  }

  // ---- The whole invariant ----

  lemma SpawnKeeps(s: Sys, p: Pid, call: Call)
    requires Inv(s) && p !in s.procs
    ensures Inv(Do(s, Spawn(p, call)))
  {
    var t := Do(s, Spawn(p, call));
    SpawnKeepsTyped(s, p, call);
    SpawnKeepsTable(s, p, call);
    SpawnKeepsDuty(s, p, call);
    SpawnKeepsLedger(s, p, call);
  }

  lemma SpawnKeepsLedger(s: Sys, p: Pid, call: Call)
    requires Inv(s) && p !in s.procs
    ensures var t := Do(s, Spawn(p, call)); OnceOk(t) && HistoryOk(t) && CleanupOk(t) && EventsOk(t)
  {
    SpawnFrame(s, p, call);
    SpawnKeepsHistory(s, p, call);
    EventsSame(s, Do(s, Spawn(p, call)));
  }

  lemma SpawnKeepsHistory(s: Sys, p: Pid, call: Call)
    requires Typed(s) && TableOk(s) && HistoryOk(s) && p !in s.procs
    ensures HistoryOk(Do(s, Spawn(p, call)))
  {
    var t := Do(s, Spawn(p, call));
    SpawnFrame(s, p, call);
    assert !Visible(t, p) && !Visible(s, p);
    HistorySame(s, t);
  }

  lemma MoveKeeps(s: Sys, p: Pid, ok: bool, pick: Id)
    requires Inv(s) && Enabled(s, Step(p, ok, pick))
    ensures Inv(Move(s, p, ok, pick))
  {
    MoveKeepsTyped(s, p, ok, pick);
    MoveKeepsTable(s, p, ok, pick);
    MoveKeepsOnce(s, p, ok, pick);
    MoveKeepsDuty(s, p, ok, pick);
    MoveKeepsHistory(s, p, ok, pick);
    MoveKeepsCleanup(s, p, ok, pick);
    MoveKeepsEvents(s, p, ok, pick);
  }

  lemma {:induction false} RunKeeps(s: Sys, acts: seq<Action>)
    requires Inv(s) && Runs(s, acts)
    ensures Inv(After(s, acts))
    decreases |acts|
  {
    if acts != [] {
      ActionKeeps(s, acts[0]);
      RunKeeps(Do(s, acts[0]), acts[1..]);
    }
  }

  lemma ActionKeeps(s: Sys, a: Action)
    requires Inv(s) && Enabled(s, a)
    ensures Inv(Do(s, a))
  {
    match a
    case Spawn(p, call) => SpawnKeeps(s, p, call);
    case Step(p, ok, pick) => MoveKeeps(s, p, ok, pick);
  }
}
