/** The atomic steps of registering, committing and answering a send. */
module MpmcSendSteps {
  import opened Common
  import opened MpmcState
  import opened MpmcSteps

  function AddSend(s: State, o: Owner): State {
    SetId(s, o, Some(s.nextS)).(nextS := s.nextS + 1, sw := s.sw + [Entry(s.nextS, o)])
  }

  /** The message of the future is moved out of it, or back into it. */
  function WithItem(s: State, f: nat, item: Option<Payload>): State
    requires f in s.w.sends
  {
    s.(w := s.w.(sends := s.w.sends[f := s.w.sends[f].(item := item)]))
  }

  /** The outcome is recorded; `at` is the place of the item among the accepted ones, if it was sent. */
  function Settle(s: State, f: nat, outcome: SendResult, at: Option<nat>): State
    requires f in s.w.sends && f in s.h.sent
  {
    s.(w := s.w.(sends := s.w.sends[f := s.w.sends[f].(item := None, done := true, outcome := Some(outcome))]),
       h := s.h.(sent := s.h.sent[f := s.h.sent[f].(outcome := Some(outcome), at := at)]))
  }

  /** The id of `o` moves from its cell into a clean-up guard. */
  function ToGuard(s: State, o: Owner): State
    requires o in s.w.ids
  {
    match s.w.ids[o]
    case None => s
    case Some(id) => SetId(s, o, None).(k := s.k.(guards := s.k.guards + {Entry(id, o)}))
  }

  /** The guard removes the entry it holds, if it is still registered. */
  function DropGuard(s: State, e: Entry): State {
    s.(k := s.k.(guards := s.k.guards - {e}),
       rw := if e.waker.OfSend? then s.rw else RemoveId(s.rw, e.id),
       sw := if e.waker.OfSend? then RemoveId(s.sw, e.id) else s.sw)
  }

  /** The outcome is handed to the caller. */
  function Answer(s: State, f: nat): State
    requires f in s.w.sends && f in s.h.sent && s.w.sends[f].outcome.Some?
  {
    s.(w := s.w.(sends := s.w.sends[f := s.w.sends[f].(outcome := None)]),
       h := s.h.(sent := s.h.sent[f := s.h.sent[f].(answers := s.h.sent[f].answers + [s.w.sends[f].outcome.value])]))
  }

  // ---- Registration ----------------------------------------------------------------------------

  lemma AddHolders(s: State, o: Owner)
    requires HoldersOk(s.w.ids, s.k.guards, s.k.issued, s.nextR, s.nextS)
    requires o.OfSend? && o in s.w.ids && s.w.ids[o].None?
    ensures HoldersOk(s.w.ids[o := Some(s.nextS)], s.k.guards, s.k.issued, s.nextR, s.nextS + 1)
  {
    var ids := s.w.ids[o := Some(s.nextS)];
    forall e | Held(ids, s.k.guards, s.k.issued, e)
      ensures e == Entry(s.nextS, o) || (Held(s.w.ids, s.k.guards, s.k.issued, e) && Below(s.nextR, s.nextS, e))
    {
      assert e == Entry(s.nextS, o) || Held(s.w.ids, s.k.guards, s.k.issued, e);
    }
    forall e | e in s.k.guards || e in s.k.issued ensures e.waker in ids ==> ids[e.waker] != Some(e.id) {
      assert Held(s.w.ids, s.k.guards, s.k.issued, e);
    }
  }

  lemma AddLists(s: State, o: Owner)
    requires HoldersOk(s.w.ids, s.k.guards, s.k.issued, s.nextR, s.nextS)
    requires ListOk(s.rw, false, s.w.ids, s.k.guards, s.k.issued)
    requires ListOk(s.sw, true, s.w.ids, s.k.guards, s.k.issued)
    requires o.OfSend? && o in s.w.ids && s.w.ids[o].None?
    ensures ListOk(s.rw, false, s.w.ids[o := Some(s.nextS)], s.k.guards, s.k.issued)
    ensures ListOk(s.sw + [Entry(s.nextS, o)], true, s.w.ids[o := Some(s.nextS)], s.k.guards, s.k.issued)
    ensures forall e <- s.sw :: e.id < s.nextS
  {
    forall e | e in s.rw || e in s.sw
      ensures Held(s.w.ids[o := Some(s.nextS)], s.k.guards, s.k.issued, e) && e != Entry(s.nextS, o)
    {
      assert Held(s.w.ids, s.k.guards, s.k.issued, e);
    }
  }

  lemma AddWakes(s: State, o: Owner)
    requires WakesOk(s.rw, s.sw, s.k.pend, s.k.issued, s.h.woken, s.nextR, s.nextS)
    requires HoldersOk(s.w.ids, s.k.guards, s.k.issued, s.nextR, s.nextS)
    requires o.OfSend?
    ensures WakesOk(s.rw, s.sw + [Entry(s.nextS, o)], s.k.pend, s.k.issued, s.h.woken, s.nextR, s.nextS + 1)
  {
    forall e <- s.k.issued ensures e != Entry(s.nextS, o) {
      assert Held(s.w.ids, s.k.guards, s.k.issued, e);
    }
  }

  lemma AddWaits(s: State, o: Owner)
    requires RecvWaitsOk(s.w.ids, s.h.wait, s.rw, s.k.pend, Disconnected(s), Empty(s))
    requires SendWaitsOk(s.w.ids, s.h.wait, s.sw, s.k.pend, Stuck(s))
    requires o.OfSend? && o in s.w.ids && s.w.ids[o].None?
    ensures var t := AddSend(s, o);
            && RecvWaitsOk(t.w.ids, s.h.wait, s.rw, s.k.pend, Disconnected(s), Empty(s))
            && SendWaitsOk(t.w.ids, s.h.wait, t.sw, s.k.pend, Stuck(s))
  {
    hide Disconnected, Empty, Stuck;
  }

  lemma AddTraced(s: State, o: Owner)
    requires o.OfSend?
    ensures Traced(s.rw, s.sw, s.k.pend, s.rw, s.sw + [Entry(s.nextS, o)], s.k.pend, s.h.woken,
                   s.w.ids[o := Some(s.nextS)], s.k.guards, s.k.issued, s.nextR, s.nextS + 1)
    ensures HeldBefore(s.w.ids, s.k.guards, s.k.issued, s.nextR, s.nextS, s.w.ids[o := Some(s.nextS)], s.k.guards,
                       s.k.issued)
  {
  }

  lemma AddSendKeeps(s: State, o: Owner)
    requires Core(s) && o in s.b.busy && o.OfSend? && o in s.w.ids && s.w.ids[o].None? && !ClosedToSends(s)
    requires o.fut in s.w.sends && !s.w.sends[o.fut].done && WaitOf(s.h.wait, o) != Woken
    ensures Core(AddSend(s, o)) && Changed(o, s, AddSend(s, o))
  {
    hide QueueOk, WorldOk, HoldersOk, ListOk, WakesOk, SendsOk, RecvsOk, TerminatedOk, WaitNamesOk, RecvWaitsOk,
         SendWaitsOk, WokenOk, AllKept, EndedOk, SendIdsOk, FatesOk, TakersOk, VerdictsOk, LogsGrow, Extends,
         GoneStays, Traced, HeldBefore, Undisturbed, Paid, SendersStay, FuturesStay;
    Same(s);
    var t := AddSend(s, o);
    AddHolders(s, o);
    AddLists(s, o);
    AddWakes(s, o);
    AddWaits(s, o);
    AddTraced(s, o);
    IdSetGone(s, o, Some(s.nextS));
    IdSetSends(s, o, Some(s.nextS));
    WorldIdSet(s.w, s.b, o, Some(s.nextS));
    TerminatedIdSet(s, o, Some(s.nextS));
    OthersKept(s, o, t.w.ids, s.h.wait);
    OthersUndisturbed(s, o, t.w.ids, s.h.wait, s.b.busy);
    OthersWoken(s, o, t.w.ids, s.h.wait);
  }

  // ---- Commit ----------------------------------------------------------------------------------

  lemma SettleWorld(s: State, f: nat, r: SendResult, at: Option<nat>)
    requires WorldOk(s.w, s.b) && f in s.w.sends && f in s.h.sent
    ensures WorldOk(Settle(s, f, r, at).w, s.b)
  {
    assert Settle(s, f, r, at).w.sends.Keys == s.w.sends.Keys;
  }

  lemma SettleKept(s: State, f: nat, r: SendResult, at: Option<nat>)
    requires WorldOk(s.w, s.b) && SendsOk(s.w.sends, s.h.sent, s.accepted, s.w.nextName)
    requires f in s.w.sends && f in s.h.sent
    ensures AllKept(s.b.busy - {OfSend(f)}, s.w, s.h, Settle(s, f, r, at).w, Settle(s, f, r, at).h)
  {
    hide WorldOk, SendsOk;
    KeptReflexive(s);
  }

  lemma SettleTerminated(s: State, f: nat, r: SendResult, at: Option<nat>)
    requires TerminatedOk(s.h.terminated, s.w, Drained(s))
    requires f in s.w.sends && f in s.h.sent && !s.w.sends[f].done && OfSend(f) in s.w.ids
    ensures TerminatedOk(s.h.terminated, Settle(s, f, r, at).w, Drained(s))
  {
    hide Drained;
  }

  /** The place recorded for an item that was sent is its own. */
  lemma SettleSends(s: State, f: nat, r: SendResult, at: Option<nat>)
    requires SendsOk(s.w.sends, s.h.sent, s.accepted, s.w.nextName)
    requires f in s.w.sends && f in s.h.sent && !s.w.sends[f].done
    requires
      if at.Some? then
        && r == Sent && at.value < |s.accepted| && s.accepted[at.value] == s.h.sent[f].orig
        && forall g <- s.h.sent :: s.h.sent[g].at != at
      else
        r == Failed(s.h.sent[f].orig)
    ensures var t := Settle(s, f, r, at); SendsOk(t.w.sends, t.h.sent, s.accepted, s.w.nextName)
  {
  }

  /** A send is settled once. */
  lemma SettleLogs(s: State, f: nat, r: SendResult, at: Option<nat>)
    requires SendsOk(s.w.sends, s.h.sent, s.accepted, s.w.nextName)
    requires f in s.w.sends && f in s.h.sent && !s.w.sends[f].done
    ensures LogsGrow(s.h.ready, s.h.sent, s.h.ready, Settle(s, f, r, at).h.sent)
  {
    assert SendFutOk(s.accepted, s.w.sends[f], s.h.sent[f]);
  }

  lemma SettleRest(s: State, f: nat, r: SendResult, at: Option<nat>)
    requires FatesOk(s.w.sends, s.h.sent, s.k.dropping) && SendIdsOk(s.w.sends, s.w.ids)
    requires f in s.w.sends && f in s.h.sent && OfSend(f) in s.w.ids && s.w.ids[OfSend(f)].None?
    ensures var t := Settle(s, f, r, at);
            FatesOk(t.w.sends, t.h.sent, s.k.dropping) && SendIdsOk(t.w.sends, s.w.ids)
  {
  }

  lemma SettleFutures(s: State, f: nat, r: SendResult, at: Option<nat>)
    requires f in s.w.sends && f in s.h.sent && OfSend(f) in s.b.busy
    ensures var t := Settle(s, f, r, at);
            FuturesStay(s.w.recvs, s.h.ready, s.w.sends, s.h.sent, s.h.turns, s.b.busy,
                            t.w.recvs, t.h.ready, t.w.sends, t.h.sent, s.h.turns, t.b.busy)
  {
  }

  /** A send fails only when the channel is closed to sends. */
  lemma SettleVerdicts(s: State, f: nat, r: SendResult, at: Option<nat>)
    requires VerdictsOk(s.h.sent, ClosedToSends(s)) && f in s.w.sends && f in s.h.sent
    requires r.Failed? ==> ClosedToSends(s)
    ensures VerdictsOk(Settle(s, f, r, at).h.sent, ClosedToSends(s))
  {
  }

  lemma SettleRel(s: State, f: nat, r: SendResult, at: Option<nat>)
    requires WorldOk(s.w, s.b) && SendsOk(s.w.sends, s.h.sent, s.accepted, s.w.nextName)
    requires f in s.w.sends && f in s.h.sent && !s.w.sends[f].done && OfSend(f) in s.b.busy
    ensures Changed(OfSend(f), s, Settle(s, f, r, at))
  {
    hide WorldOk, SendsOk, AllKept, LogsGrow, Extends, GoneStays, Traced, HeldBefore, Undisturbed, Paid, SendersStay,
         FuturesStay;
    Same(s);
    SettleKept(s, f, r, at);
    SettleFutures(s, f, r, at);
    SettleLogs(s, f, r, at);
  }

  lemma SettleKeeps(s: State, f: nat, r: SendResult, at: Option<nat>)
    requires Core(s) && OfSend(f) in s.b.busy && OfSend(f) in s.w.ids && s.w.ids[OfSend(f)].None?
    requires f in s.w.sends && f in s.h.sent && !s.w.sends[f].done
    requires
      if at.Some? then
        && r == Sent && at.value < |s.accepted| && s.accepted[at.value] == s.h.sent[f].orig
        && forall g <- s.h.sent :: s.h.sent[g].at != at
      else
        r == Failed(s.h.sent[f].orig) && ClosedToSends(s)
    ensures var t := Settle(s, f, r, at); Core(t) && Changed(OfSend(f), s, t)
  {
    hide QueueOk, WorldOk, HoldersOk, ListOk, WakesOk, SendsOk, RecvsOk, TerminatedOk, WaitNamesOk, RecvWaitsOk,
         SendWaitsOk, WokenOk, AllKept, EndedOk, SendIdsOk, FatesOk, TakersOk, VerdictsOk, LogsGrow, Extends,
         GoneStays, Traced, HeldBefore, Undisturbed, Paid, SendersStay, FuturesStay;
    SettleRel(s, f, r, at);
    hide Rel;
    SettleWorld(s, f, r, at);
    SettleTerminated(s, f, r, at);
    SettleSends(s, f, r, at);
    SettleRest(s, f, r, at);
    SettleVerdicts(s, f, r, at);
  }

  // ---- Clean-up guards -------------------------------------------------------------------------

  lemma GuardHeld(s: State, o: Owner)
    requires o in s.w.ids && s.w.ids[o].Some?
    requires HoldersOk(s.w.ids, s.k.guards, s.k.issued, s.nextR, s.nextS)
    ensures HoldersOk(ToGuard(s, o).w.ids, ToGuard(s, o).k.guards, s.k.issued, s.nextR, s.nextS)
    ensures forall e ::
              Held(ToGuard(s, o).w.ids, ToGuard(s, o).k.guards, s.k.issued, e) <==>
              Held(s.w.ids, s.k.guards, s.k.issued, e)
  {
    var t := ToGuard(s, o);
    forall e
      ensures Held(t.w.ids, t.k.guards, s.k.issued, e) <==> Held(s.w.ids, s.k.guards, s.k.issued, e)
    {
    }
  }

  lemma GuardList(list: seq<Entry>, send: bool, s: State, t: State)
    requires ListOk(list, send, s.w.ids, s.k.guards, s.k.issued)
    requires forall e ::
               Held(t.w.ids, t.k.guards, s.k.issued, e) <==> Held(s.w.ids, s.k.guards, s.k.issued, e)
    ensures ListOk(list, send, t.w.ids, t.k.guards, s.k.issued)
  {
  }

  /** Holders are the same, so nothing is given up. */
  lemma SameHolders(s: State, t: State)
    requires t.rw == s.rw && t.sw == s.sw && t.k.pend == s.k.pend && t.h.woken == s.h.woken
    requires t.k.issued == s.k.issued && t.nextR == s.nextR && t.nextS == s.nextS
    requires forall e ::
               Held(t.w.ids, t.k.guards, s.k.issued, e) <==> Held(s.w.ids, s.k.guards, s.k.issued, e)
    ensures Traced(s.rw, s.sw, s.k.pend, s.rw, s.sw, s.k.pend, s.h.woken, t.w.ids, t.k.guards, s.k.issued, s.nextR,
                   s.nextS)
    ensures HeldBefore(s.w.ids, s.k.guards, s.k.issued, s.nextR, s.nextS, t.w.ids, t.k.guards, s.k.issued)
  {
    hide Held;
  }

  lemma ToGuardRel(s: State, o: Owner)
    requires Core(s) && o in s.w.ids && o in s.b.busy
    ensures Changed(o, s, ToGuard(s, o))
  {
    hide QueueOk, WorldOk, HoldersOk, ListOk, WakesOk, EndedOk, SendsOk, SendIdsOk, FatesOk, TakersOk, VerdictsOk,
         RecvsOk, TerminatedOk, WaitNamesOk, RecvWaitsOk, SendWaitsOk, WokenOk, AllKept, LogsGrow, Extends, GoneStays,
         Traced, HeldBefore, Undisturbed, Paid, SendersStay, FuturesStay;
    var t := ToGuard(s, o);
    Same(s);
    OthersKept(s, o, t.w.ids, s.h.wait);
    if s.w.ids[o].Some? {
      GuardHeld(s, o);
      SameHolders(s, t);
      IdSetGone(s, o, None);
      OthersUndisturbed(s, o, t.w.ids, s.h.wait, s.b.busy);
    }
  }

  lemma ToGuardKeeps(s: State, o: Owner)
    requires Core(s) && o in s.w.ids && o in s.b.busy && WaitOf(s.h.wait, o) != Parked
    ensures Core(ToGuard(s, o)) && Changed(o, s, ToGuard(s, o))
  {
    hide QueueOk, WorldOk, HoldersOk, ListOk, WakesOk, SendsOk, RecvsOk, TerminatedOk, WaitNamesOk, RecvWaitsOk,
         SendWaitsOk, WokenOk, AllKept, EndedOk, SendIdsOk, FatesOk, TakersOk, VerdictsOk, LogsGrow, Extends,
         GoneStays, Traced, HeldBefore, Undisturbed, Paid, SendersStay, FuturesStay;
    ToGuardRel(s, o);
    hide Rel;
    var t := ToGuard(s, o);
    if s.w.ids[o].Some? {
      GuardHeld(s, o);
      GuardList(s.rw, false, s, t);
      GuardList(s.sw, true, s, t);
      ForgetWaits(s, o, t);
      OthersWoken(s, o, t.w.ids, s.h.wait);
      IdSetSends(s, o, None);
      WorldIdSet(s.w, s.b, o, None);
      TerminatedIdSet(s, o, None);
    }
  }

  /** Only the guarded entry carries the id that its guard holds. */
  lemma OnlyGuarded(s: State, e: Entry)
    requires Core(s) && e in s.k.guards
    ensures !e.waker.OfSend? ==> forall x <- s.rw :: x.id == e.id ==> x == e
    ensures e.waker.OfSend? ==> forall x <- s.sw :: x.id == e.id ==> x == e
  {
    hide QueueOk, WorldOk, WakesOk, SendsOk, RecvsOk, TerminatedOk, WaitNamesOk, RecvWaitsOk, SendWaitsOk, WokenOk;
    assert Held(s.w.ids, s.k.guards, s.k.issued, e);
  }

  lemma DropGuardLists(s: State, e: Entry)
    requires Core(s) && e in s.k.guards
    ensures var t := DropGuard(s, e);
            && NoDup(t.rw) && (forall x :: x in t.rw <==> x in s.rw && x != e)
            && NoDup(t.sw) && (forall x :: x in t.sw <==> x in s.sw && x != e)
            && (s.rw == [] ==> t.rw == [])
            && (s.sw == [] ==> t.sw == [])
  {
    hide QueueOk, WorldOk, WakesOk, SendsOk, RecvsOk, TerminatedOk, WaitNamesOk, RecvWaitsOk, SendWaitsOk, WokenOk;
    OnlyGuarded(s, e);
    RemoveIdElems(if e.waker.OfSend? then s.sw else s.rw, e);
  }

  lemma DropGuardHolders(s: State, e: Entry, t: State)
    requires HoldersOk(s.w.ids, s.k.guards, s.k.issued, s.nextR, s.nextS)
    requires ListOk(s.rw, false, s.w.ids, s.k.guards, s.k.issued)
    requires ListOk(s.sw, true, s.w.ids, s.k.guards, s.k.issued)
    requires NoDup(t.rw) && forall x :: x in t.rw <==> x in s.rw && x != e
    requires NoDup(t.sw) && forall x :: x in t.sw <==> x in s.sw && x != e
    ensures HoldersOk(s.w.ids, s.k.guards - {e}, s.k.issued, s.nextR, s.nextS)
    ensures ListOk(t.rw, false, s.w.ids, s.k.guards - {e}, s.k.issued)
    ensures ListOk(t.sw, true, s.w.ids, s.k.guards - {e}, s.k.issued)
  {
    forall x | Held(s.w.ids, s.k.guards - {e}, s.k.issued, x)
      ensures Held(s.w.ids, s.k.guards, s.k.issued, x)
    {
    }
    forall x | x in t.rw || x in t.sw ensures Held(s.w.ids, s.k.guards - {e}, s.k.issued, x) {
      assert Held(s.w.ids, s.k.guards, s.k.issued, x);
    }
  }

  /** The guarded entry is given up, and no other. */
  lemma DropGuardTraced(s: State, e: Entry, t: State)
    requires HoldersOk(s.w.ids, s.k.guards, s.k.issued, s.nextR, s.nextS) && e in s.k.guards
    requires forall x :: x in t.rw <==> x in s.rw && x != e
    requires forall x :: x in t.sw <==> x in s.sw && x != e
    ensures Traced(s.rw, s.sw, s.k.pend, t.rw, t.sw, s.k.pend, s.h.woken, s.w.ids, s.k.guards - {e}, s.k.issued,
                   s.nextR, s.nextS)
    ensures HeldBefore(s.w.ids, s.k.guards, s.k.issued, s.nextR, s.nextS, s.w.ids, s.k.guards - {e}, s.k.issued)
  {
    assert Held(s.w.ids, s.k.guards, s.k.issued, e);
    assert GivenUp(s.w.ids, s.k.guards - {e}, s.k.issued, s.nextR, s.nextS, e);
  }

  lemma DropGuardWaits(s: State, e: Entry, t: State)
    requires RecvWaitsOk(s.w.ids, s.h.wait, s.rw, s.k.pend, Disconnected(s), Empty(s))
    requires SendWaitsOk(s.w.ids, s.h.wait, s.sw, s.k.pend, Stuck(s))
    requires HoldersOk(s.w.ids, s.k.guards, s.k.issued, s.nextR, s.nextS) && e in s.k.guards
    requires forall x :: x in t.rw <==> x in s.rw && x != e
    requires forall x :: x in t.sw <==> x in s.sw && x != e
    ensures RecvWaitsOk(s.w.ids, s.h.wait, t.rw, s.k.pend, Disconnected(s), Empty(s))
    ensures SendWaitsOk(s.w.ids, s.h.wait, t.sw, s.k.pend, Stuck(s))
  {
    hide Disconnected, Empty, Stuck;
  }

  lemma DropGuardKeeps(s: State, e: Entry)
    requires Core(s) && e in s.k.guards
    ensures Core(DropGuard(s, e)) && Rel(s.b.busy, s, DropGuard(s, e))
  {
    hide QueueOk, WorldOk, HoldersOk, ListOk, WakesOk, SendsOk, RecvsOk, TerminatedOk, WaitNamesOk, RecvWaitsOk,
         SendWaitsOk, WokenOk, AllKept, RemoveId, EndedOk, SendIdsOk, FatesOk, TakersOk, VerdictsOk, LogsGrow,
         Extends, GoneStays, Traced, HeldBefore, Undisturbed, Paid, SendersStay, FuturesStay;
    Same(s);
    var t := DropGuard(s, e);
    DropGuardLists(s, e);
    DropGuardHolders(s, e, t);
    DropGuardWaits(s, e, t);
    DropGuardTraced(s, e, t);
    FewerWakes(s, t.rw, t.sw);
    KeptReflexive(s);
  }

  // ---- The answer ------------------------------------------------------------------------------

  lemma AnswerWorld(s: State, f: nat)
    requires WorldOk(s.w, s.b) && f in s.w.sends && f in s.h.sent && s.w.sends[f].outcome.Some?
    ensures WorldOk(Answer(s, f).w, s.b)
  {
    assert Answer(s, f).w.sends.Keys == s.w.sends.Keys;
  }

  lemma AnswerKept(s: State, f: nat)
    requires WorldOk(s.w, s.b) && SendsOk(s.w.sends, s.h.sent, s.accepted, s.w.nextName)
    requires f in s.w.sends && f in s.h.sent && s.w.sends[f].outcome.Some?
    ensures AllKept(s.b.busy - {OfSend(f)}, s.w, s.h, Answer(s, f).w, Answer(s, f).h)
  {
    hide WorldOk, SendsOk;
    KeptReflexive(s);
  }

  lemma AnswerTerminated(s: State, f: nat)
    requires TerminatedOk(s.h.terminated, s.w, Drained(s))
    requires f in s.w.sends && f in s.h.sent && s.w.sends[f].outcome.Some?
    ensures TerminatedOk(s.h.terminated, Answer(s, f).w, Drained(s))
  {
    hide Drained;
  }

  lemma AnswerSends(s: State, f: nat)
    requires SendsOk(s.w.sends, s.h.sent, s.accepted, s.w.nextName)
    requires f in s.w.sends && f in s.h.sent && s.w.sends[f].outcome.Some?
    ensures var t := Answer(s, f); SendsOk(t.w.sends, t.h.sent, s.accepted, s.w.nextName)
  {
  }

  lemma AnswerRest(s: State, f: nat)
    requires FatesOk(s.w.sends, s.h.sent, s.k.dropping) && SendIdsOk(s.w.sends, s.w.ids)
    requires f in s.w.sends && f in s.h.sent && s.w.sends[f].outcome.Some?
    ensures var t := Answer(s, f);
            && FatesOk(t.w.sends, t.h.sent, s.k.dropping) && SendIdsOk(t.w.sends, s.w.ids)
            && LogsGrow(s.h.ready, s.h.sent, s.h.ready, t.h.sent)
  {
  }

  lemma AnswerFutures(s: State, f: nat)
    requires f in s.w.sends && f in s.h.sent && s.w.sends[f].outcome.Some? && OfSend(f) in s.b.busy
    ensures var t := Answer(s, f);
            FuturesStay(s.w.recvs, s.h.ready, s.w.sends, s.h.sent, s.h.turns, s.b.busy,
                            t.w.recvs, t.h.ready, t.w.sends, t.h.sent, s.h.turns, t.b.busy)
    ensures VerdictsOk(s.h.sent, ClosedToSends(s)) ==> VerdictsOk(Answer(s, f).h.sent, ClosedToSends(s))
  {
  }

  lemma AnswerRel(s: State, f: nat)
    requires WorldOk(s.w, s.b) && SendsOk(s.w.sends, s.h.sent, s.accepted, s.w.nextName)
    requires FatesOk(s.w.sends, s.h.sent, s.k.dropping) && SendIdsOk(s.w.sends, s.w.ids)
    requires f in s.w.sends && f in s.h.sent && s.w.sends[f].outcome.Some? && OfSend(f) in s.b.busy
    ensures Changed(OfSend(f), s, Answer(s, f))
  {
    hide WorldOk, SendsOk, FatesOk, SendIdsOk, VerdictsOk, AllKept, LogsGrow, Extends, GoneStays, Traced, HeldBefore,
         Undisturbed, Paid, SendersStay, FuturesStay;
    Same(s);
    AnswerKept(s, f);
    AnswerRest(s, f);
    AnswerFutures(s, f);
  }

  lemma AnswerKeeps(s: State, f: nat)
    requires Core(s) && OfSend(f) in s.b.busy && f in s.w.sends && f in s.h.sent && s.w.sends[f].outcome.Some?
    ensures Core(Answer(s, f)) && Changed(OfSend(f), s, Answer(s, f))
  {
    hide QueueOk, WorldOk, HoldersOk, ListOk, WakesOk, SendsOk, RecvsOk, TerminatedOk, WaitNamesOk, RecvWaitsOk,
         SendWaitsOk, WokenOk, AllKept, EndedOk, SendIdsOk, FatesOk, TakersOk, VerdictsOk, LogsGrow, Extends,
         GoneStays, Traced, HeldBefore, Undisturbed, Paid, SendersStay, FuturesStay;
    AnswerRel(s, f);
    hide Rel;
    AnswerWorld(s, f);
    AnswerTerminated(s, f);
    AnswerSends(s, f);
    AnswerRest(s, f);
    AnswerFutures(s, f);
  }
}
