/** The atomic steps of registering and completing a receive. */
module MpmcRecvSteps {
  import opened Common
  import opened MpmcState
  import opened MpmcSteps

  /** A registration takes an id; its waker is about to be cloned. */
  function IssueRecv(s: State, o: Owner): State {
    SetWait(s, o, Polling).(nextR := s.nextR + 1, k := s.k.(issued := s.k.issued + {Entry(s.nextR, o)}))
  }

  function DropIssued(s: State, e: Entry): State {
    s.(k := s.k.(issued := s.k.issued - {e}))
  }

  /** The cloned waker is stored, and the owner records its id. */
  function StoreRecv(s: State, e: Entry): State {
    SetId(DropIssued(s, e), e.waker, Some(e.id)).(rw := s.rw + [e])
  }

  /** The channel has become terminal: the owner records its id, but nothing is stored. */
  function SkipRecv(s: State, e: Entry): State {
    SetId(DropIssued(s, e), e.waker, Some(e.id))
  }

  function Yield(s: State, f: nat): State
    requires f in s.w.recvs
  {
    s.(w := s.w.(recvs := s.w.recvs[f := s.w.recvs[f].(done := true)]),
       h := s.h.(ready := s.h.ready[f := ReadyOf(s.h.ready, f) + 1]))
  }

  function Report(s: State): State {
    s.(h := s.h.(disconnected := true))
  }

  function Observe(s: State, o: Owner): State {
    s.(h := s.h.(terminated := s.h.terminated + {o}))
  }

  // ---- Issuing an id ---------------------------------------------------------------------------

  lemma IssueHolders(s: State, o: Owner)
    requires HoldersOk(s.w.ids, s.k.guards, s.k.issued, s.nextR, s.nextS) && !o.OfSend?
    ensures HoldersOk(s.w.ids, s.k.guards, s.k.issued + {Entry(s.nextR, o)}, s.nextR + 1, s.nextS)
  {
    var issued := s.k.issued + {Entry(s.nextR, o)};
    forall e | Held(s.w.ids, s.k.guards, issued, e)
      ensures e == Entry(s.nextR, o) || Held(s.w.ids, s.k.guards, s.k.issued, e)
    {
    }
  }

  lemma MoreIssuedList(list: seq<Entry>, send: bool, s: State, issued: set<Entry>)
    requires ListOk(list, send, s.w.ids, s.k.guards, s.k.issued) && s.k.issued <= issued
    ensures ListOk(list, send, s.w.ids, s.k.guards, issued)
  {
    forall e <- list ensures Held(s.w.ids, s.k.guards, issued, e) {
      assert Held(s.w.ids, s.k.guards, s.k.issued, e);
    }
  }

  lemma IssueWakes(s: State, o: Owner)
    requires WakesOk(s.rw, s.sw, s.k.pend, s.k.issued, s.h.woken, s.nextR, s.nextS)
    requires HoldersOk(s.w.ids, s.k.guards, s.k.issued, s.nextR, s.nextS) && !o.OfSend?
    requires ListOk(s.rw, false, s.w.ids, s.k.guards, s.k.issued)
    requires ListOk(s.sw, true, s.w.ids, s.k.guards, s.k.issued)
    ensures WakesOk(s.rw, s.sw, s.k.pend, s.k.issued + {Entry(s.nextR, o)}, s.h.woken, s.nextR + 1, s.nextS)
  {
  }

  lemma IssueTraced(s: State, o: Owner)
    requires !o.OfSend?
    ensures Traced(s.rw, s.sw, s.k.pend, s.rw, s.sw, s.k.pend, s.h.woken, s.w.ids, s.k.guards,
                   s.k.issued + {Entry(s.nextR, o)}, s.nextR + 1, s.nextS)
    ensures HeldBefore(s.w.ids, s.k.guards, s.k.issued, s.nextR, s.nextS, s.w.ids, s.k.guards,
                       s.k.issued + {Entry(s.nextR, o)})
  {
  }

  lemma IssueRecvKeeps(s: State, o: Owner)
    requires Core(s) && o in s.b.busy && !o.OfSend? && o in s.w.ids && s.w.ids[o].None?
    ensures Core(IssueRecv(s, o)) && Changed(o, s, IssueRecv(s, o))
  {
    hide QueueOk, WorldOk, HoldersOk, ListOk, WakesOk, SendsOk, RecvsOk, TerminatedOk, WaitNamesOk, RecvWaitsOk,
         SendWaitsOk, WokenOk, AllKept, EndedOk, SendIdsOk, FatesOk, TakersOk, VerdictsOk, LogsGrow, Extends,
         GoneStays, Traced, HeldBefore, Undisturbed, Paid, SendersStay, FuturesStay;
    Same(s);
    IssueTraced(s, o);
    var t := IssueRecv(s, o);
    IssueHolders(s, o);
    MoreIssuedList(s.rw, false, s, t.k.issued);
    MoreIssuedList(s.sw, true, s, t.k.issued);
    IssueWakes(s, o);
    WaitsSet(s, o, Polling);
    WaitNamesSet(s, o, Polling);
    OthersKept(s, o, s.w.ids, t.h.wait);
    OthersUndisturbed(s, o, s.w.ids, t.h.wait, s.b.busy);
    OthersWoken(s, o, s.w.ids, t.h.wait);
  }

  // ---- Giving the id to its owner --------------------------------------------------------------

  /** An id handed from `issued` to the cell of its owner is held by the same entry as before. */
  lemma HandOverHolders(s: State, e: Entry)
    requires HoldersOk(s.w.ids, s.k.guards, s.k.issued, s.nextR, s.nextS)
    requires e in s.k.issued && e.waker in s.w.ids && s.w.ids[e.waker].None?
    ensures HoldersOk(s.w.ids[e.waker := Some(e.id)], s.k.guards, s.k.issued - {e}, s.nextR, s.nextS)
  {
    forall x | Held(s.w.ids[e.waker := Some(e.id)], s.k.guards, s.k.issued - {e}, x)
      ensures Held(s.w.ids, s.k.guards, s.k.issued, x)
    {
    }
  }

  lemma HandOverList(list: seq<Entry>, list': seq<Entry>, send: bool, s: State, e: Entry)
    requires ListOk(list, send, s.w.ids, s.k.guards, s.k.issued)
    requires e in s.k.issued && e.waker in s.w.ids && s.w.ids[e.waker].None? && e !in list
    requires list' == list || (list' == list + [e] && e.waker.OfSend? == send)
    ensures ListOk(list', send, s.w.ids[e.waker := Some(e.id)], s.k.guards, s.k.issued - {e})
  {
    forall x <- list'
      ensures x.waker.OfSend? == send && Held(s.w.ids[e.waker := Some(e.id)], s.k.guards, s.k.issued - {e}, x)
    {
      assert x != e ==> x in list && Held(s.w.ids, s.k.guards, s.k.issued, x);
    }
  }

  lemma HandOverWakes(s: State, e: Entry, rw: seq<Entry>)
    requires WakesOk(s.rw, s.sw, s.k.pend, s.k.issued, s.h.woken, s.nextR, s.nextS)
    requires e in s.k.issued && (rw == s.rw || rw == s.rw + [e])
    ensures WakesOk(rw, s.sw, s.k.pend, s.k.issued - {e}, s.h.woken, s.nextR, s.nextS)
    ensures e !in s.rw && e !in s.sw
  {
  }

  lemma HandOverWaits(s: State, e: Entry, rw: seq<Entry>)
    requires RecvWaitsOk(s.w.ids, s.h.wait, s.rw, s.k.pend, Disconnected(s), Empty(s))
    requires SendWaitsOk(s.w.ids, s.h.wait, s.sw, s.k.pend, Stuck(s))
    requires e.waker in s.w.ids && !e.waker.OfSend? && s.w.ids[e.waker].None?
    requires (rw == s.rw && Disconnected(s)) || rw == s.rw + [e]
    ensures RecvWaitsOk(s.w.ids[e.waker := Some(e.id)], s.h.wait, rw, s.k.pend, Disconnected(s), Empty(s))
    ensures SendWaitsOk(s.w.ids[e.waker := Some(e.id)], s.h.wait, s.sw, s.k.pend, Stuck(s))
  {
    hide Disconnected, Empty, Stuck;
  }

  lemma HandOverTraced(s: State, e: Entry, rw: seq<Entry>)
    requires e in s.k.issued && (rw == s.rw || rw == s.rw + [e])
    ensures Traced(s.rw, s.sw, s.k.pend, rw, s.sw, s.k.pend, s.h.woken, s.w.ids[e.waker := Some(e.id)], s.k.guards,
                   s.k.issued - {e}, s.nextR, s.nextS)
    ensures HeldBefore(s.w.ids, s.k.guards, s.k.issued, s.nextR, s.nextS, s.w.ids[e.waker := Some(e.id)],
                       s.k.guards, s.k.issued - {e})
  {
  }

  /** The registration step of `add_recv_waker`, for a live channel and for a terminal one. */
  lemma StoreRecvKeeps(s: State, e: Entry)
    requires Core(s) && e in s.k.issued && e.waker in s.b.busy && !e.waker.OfSend?
    requires e.waker in s.w.ids && s.w.ids[e.waker].None?
    requires e.waker !in s.h.terminated && WaitOf(s.h.wait, e.waker) != Woken
    ensures !Disconnected(s) ==> Core(StoreRecv(s, e)) && Changed(e.waker, s, StoreRecv(s, e))
    ensures Disconnected(s) ==> Core(SkipRecv(s, e)) && Changed(e.waker, s, SkipRecv(s, e))
  {
    hide QueueOk, WorldOk, HoldersOk, ListOk, WakesOk, SendsOk, RecvsOk, TerminatedOk, WaitNamesOk, RecvWaitsOk,
         SendWaitsOk, WokenOk, AllKept, EndedOk, SendIdsOk, FatesOk, TakersOk, VerdictsOk, LogsGrow, Extends,
         GoneStays, Traced, HeldBefore, Undisturbed, Paid, SendersStay, FuturesStay;
    Same(s);
    var rw := if Disconnected(s) then s.rw else s.rw + [e];
    HandOverHolders(s, e);
    HandOverWakes(s, e, rw);
    HandOverList(s.rw, rw, false, s, e);
    HandOverList(s.sw, s.sw, true, s, e);
    HandOverWaits(s, e, rw);
    HandOverTraced(s, e, rw);
    IdSetGone(s, e.waker, Some(e.id));
    IdSetSends(s, e.waker, Some(e.id));
    WorldIdSet(s.w, s.b, e.waker, Some(e.id));
    TerminatedIdSet(s, e.waker, Some(e.id));
    OthersKept(s, e.waker, s.w.ids[e.waker := Some(e.id)], s.h.wait);
    OthersUndisturbed(s, e.waker, s.w.ids[e.waker := Some(e.id)], s.h.wait, s.b.busy);
    OthersWoken(s, e.waker, s.w.ids[e.waker := Some(e.id)], s.h.wait);
  }

  lemma DropIssuedTraced(s: State, e: Entry)
    ensures Traced(s.rw, s.sw, s.k.pend, s.rw, s.sw, s.k.pend, s.h.woken, s.w.ids, s.k.guards, s.k.issued - {e},
                   s.nextR, s.nextS)
    ensures HeldBefore(s.w.ids, s.k.guards, s.k.issued, s.nextR, s.nextS, s.w.ids, s.k.guards, s.k.issued - {e})
  {
  }

  /** The clone panicked: the id is never used. */
  lemma DropIssuedKeeps(s: State, e: Entry)
    requires Core(s) && e in s.k.issued
    ensures Core(DropIssued(s, e)) && Rel(s.b.busy, s, DropIssued(s, e))
  {
    hide QueueOk, SendsOk, RecvsOk, TerminatedOk, WorldOk, WaitNamesOk, RecvWaitsOk, SendWaitsOk, WokenOk, AllKept,
         EndedOk, SendIdsOk, FatesOk, TakersOk, VerdictsOk, LogsGrow, Extends, GoneStays, Traced, HeldBefore,
         Undisturbed, Paid, SendersStay, FuturesStay;
    Same(s);
    DropIssuedTraced(s, e);
    KeptReflexive(s);
  }

  // ---- Completion and reports ------------------------------------------------------------------

  lemma YieldWorld(s: State, f: nat)
    requires WorldOk(s.w, s.b) && f in s.w.recvs
    ensures WorldOk(Yield(s, f).w, s.b)
  {
    var w := Yield(s, f).w;
    assert w.recvs.Keys == s.w.recvs.Keys;
  }

  lemma YieldKept(s: State, f: nat)
    requires WorldOk(s.w, s.b) && SendsOk(s.w.sends, s.h.sent, s.accepted, s.w.nextName) && f in s.w.recvs
    ensures AllKept(s.b.busy - {OfRecv(f)}, s.w, s.h, Yield(s, f).w, Yield(s, f).h)
  {
    hide WorldOk, SendsOk;
    KeptReflexive(s);
  }

  lemma YieldTerminated(s: State, f: nat)
    requires TerminatedOk(s.h.terminated, s.w, Drained(s)) && f in s.w.recvs
    ensures TerminatedOk(s.h.terminated, Yield(s, f).w, Drained(s))
  {
    hide Drained;
  }

  lemma YieldLogs(s: State, f: nat)
    requires f in s.w.recvs
    ensures LogsGrow(s.h.ready, s.h.sent, Yield(s, f).h.ready, s.h.sent)
  {
  }

  lemma YieldFutures(s: State, f: nat)
    requires f in s.w.recvs && OfRecv(f) in s.b.busy
    ensures var t := Yield(s, f);
            FuturesStay(s.w.recvs, s.h.ready, s.w.sends, s.h.sent, s.h.turns, s.b.busy,
                            t.w.recvs, t.h.ready, t.w.sends, t.h.sent, s.h.turns, t.b.busy)
  {
  }

  lemma YieldRel(s: State, f: nat)
    requires WorldOk(s.w, s.b) && SendsOk(s.w.sends, s.h.sent, s.accepted, s.w.nextName) && f in s.w.recvs
    requires OfRecv(f) in s.b.busy
    ensures Changed(OfRecv(f), s, Yield(s, f))
  {
    hide WorldOk, SendsOk, AllKept, LogsGrow, Extends, GoneStays, Traced, HeldBefore, Undisturbed, Paid, SendersStay,
         FuturesStay;
    Same(s);
    YieldLogs(s, f);
    YieldFutures(s, f);
    YieldKept(s, f);
  }

  lemma YieldKeeps(s: State, f: nat)
    requires Core(s) && OfRecv(f) in s.b.busy && f in s.w.recvs && !s.w.recvs[f].done
    ensures Core(Yield(s, f)) && Changed(OfRecv(f), s, Yield(s, f))
  {
    hide QueueOk, WorldOk, HoldersOk, ListOk, WakesOk, SendsOk, TerminatedOk, WaitNamesOk, RecvWaitsOk, SendWaitsOk,
         WokenOk, AllKept, EndedOk, SendIdsOk, FatesOk, TakersOk, VerdictsOk, LogsGrow, Extends, GoneStays, Traced,
         HeldBefore, Undisturbed, Paid, SendersStay, FuturesStay;
    YieldRel(s, f);
    hide Rel;
    assert f < s.w.nextName by {
      RecvName(s, f);
    }
    YieldWorld(s, f);
    YieldTerminated(s, f);
  }

  lemma RecvName(s: State, f: nat)
    requires WorldOk(s.w, s.b) && f in s.w.recvs
    ensures f < s.w.nextName
  {
  }

  lemma ReportKeeps(s: State)
    requires Core(s) && Drained(s)
    ensures Core(Report(s)) && Rel(s.b.busy, s, Report(s))
  {
    hide QueueOk, WorldOk, HoldersOk, ListOk, WakesOk, SendsOk, RecvsOk, TerminatedOk, WaitNamesOk, RecvWaitsOk,
         SendWaitsOk, WokenOk, EndedOk, SendIdsOk, FatesOk, TakersOk, VerdictsOk, LogsGrow, Extends, GoneStays,
         Traced, HeldBefore, Undisturbed, Paid, SendersStay, FuturesStay, AllKept;
    Same(s);
    KeptSame(s, Report(s).h);
  }

  lemma ObserveRel(s: State, o: Owner)
    requires WorldOk(s.w, s.b) && SendsOk(s.w.sends, s.h.sent, s.accepted, s.w.nextName) && o !in s.b.busy
    ensures Rel(s.b.busy, s, Observe(s, o))
  {
    hide WorldOk, SendsOk, LogsGrow, Extends, GoneStays, Traced, HeldBefore, Undisturbed, Paid, SendersStay,
         FuturesStay;
    Same(s);
    KeptReflexive(s);
  }

  lemma ObserveKeeps(s: State, o: Owner)
    requires Core(s) && o !in s.b.busy && Terminated(s.w, Drained(s), o)
    ensures Core(Observe(s, o)) && Rel(s.b.busy, s, Observe(s, o))
  {
    hide QueueOk, HoldersOk, ListOk, WakesOk, SendsOk, RecvsOk, WaitNamesOk, RecvWaitsOk, SendWaitsOk, WokenOk,
         EndedOk, SendIdsOk, FatesOk, TakersOk, VerdictsOk, LogsGrow, Extends, GoneStays, Traced, HeldBefore,
         Undisturbed, Paid, SendersStay, FuturesStay;
    ObserveRel(s, o);
    hide Rel;
  }
}
