/** The atomic steps of handles: cloning, dropping, closing, draining, and creating futures. */
module MpmcHandleSteps {
  import opened Common
  import opened MpmcState
  import opened MpmcSteps
  import opened MpmcSendSteps

  function CloneTx(s: State): State {
    s.(senders := s.senders + 1, w := s.w.(txs := s.w.txs + {s.w.nextName}, nextName := s.w.nextName + 1))
  }

  function CloneRx(s: State): State {
    s.(receivers := s.receivers + 1,
       w := s.w.(rxs := s.w.rxs + {s.w.nextName},
                 ids := s.w.ids[OfStream(s.w.nextName) := None],
                 nextName := s.w.nextName + 1))
  }

  function NewRecv(s: State, rx: nat): State {
    s.(w := s.w.(recvs := s.w.recvs[s.w.nextName := RecvFut(rx, false)],
                 ids := s.w.ids[OfRecv(s.w.nextName) := None],
                 nextName := s.w.nextName + 1))
  }

  function NewSend(s: State, tx: nat, item: Payload): State {
    s.(w := s.w.(sends := s.w.sends[s.w.nextName := SendFut(tx, Some(item), false, None)],
                 ids := s.w.ids[OfSend(s.w.nextName) := None],
                 nextName := s.w.nextName + 1),
       h := s.h.(sent := s.h.sent[s.w.nextName := SendLog(item, None, None, [], false)]))
  }

  function DropTx(s: State, tx: nat): State
    requires s.senders > 0
  {
    s.(senders := s.senders - 1, w := s.w.(txs := s.w.txs - {tx}), asks := s.asks - multiset{Leave(tx)})
  }

  predicate HasItem(f: SendFut) {
    f.item.Some? || (f.outcome.Some? && f.outcome.value.Failed?)
  }

  /** `o` is a send that still holds its item: in place, or as a pending error. */
  predicate HoldsItem(sends: map<nat, SendFut>, o: Owner) {
    o.OfSend? && o.fut in sends && HasItem(sends[o.fut])
  }

  /** The item of a dropped send is dropped. */
  function DropHeld(s: State, f: nat): State
    requires f in s.h.sent
  {
    s.(h := s.h.(sent := s.h.sent[f := s.h.sent[f].(dropped := true)]), k := s.k.(dropping := s.k.dropping - {f}))
  }

  function Without(w: World, o: Owner): World {
    match o
    case OfRecv(f) => w.(recvs := w.recvs - {f}, ids := w.ids - {o})
    case OfStream(r) => w.(rxs := w.rxs - {r}, ids := w.ids - {o})
    case OfSend(f) => w.(sends := w.sends - {f}, ids := w.ids - {o})
  }

  /** The owner disappears together with its id, which nothing holds any more. */
  function Bury(s: State, o: Owner): State {
    s.(w := Without(s.w, o),
       b := s.b.(busy := s.b.busy - {o}),
       k := if HoldsItem(s.w.sends, o) then s.k.(dropping := s.k.dropping + {o.fut}) else s.k,
       receivers := if o.OfStream? && s.receivers > 0 then s.receivers - 1 else s.receivers)
  }

  /** The first caller of `close` marks the channel and owes the senders a wake. */
  function Close(s: State): State {
    s.(closed := true, k := s.k.(due := true), h := s.h.(closes := s.h.closes + 1),
       asks := s.asks - multiset{Shut})
  }

  function PayDue(s: State): State {
    s.(k := s.k.(due := false))
  }

  // ---- Pins ------------------------------------------------------------------------------------

  lemma PinKeeps(s: State, b: Borrows)
    requires Core(s) && WorldOk(s.w, b) && b.busy == s.b.busy
    ensures Core(s.(b := b)) && Rel(s.b.busy, s, s.(b := b))
  {
    hide QueueOk, WorldOk, HoldersOk, ListOk, WakesOk, SendsOk, RecvsOk, TerminatedOk, WaitNamesOk, RecvWaitsOk,
         SendWaitsOk, WokenOk, AllKept, EndedOk, SendIdsOk, FatesOk, TakersOk, VerdictsOk, LogsGrow, Extends,
         GoneStays, Traced, HeldBefore, Undisturbed, Paid, SendersStay, FuturesStay;
    Same(s);
    KeptReflexive(s);
  }

  // ---- New objects -----------------------------------------------------------------------------

  lemma NewIsUnknown(s: State, o: Owner)
    requires Core(s) && NameOf(o) == s.w.nextName
    ensures o !in s.w.ids && WaitOf(s.h.wait, o) == Idle
  {
    hide QueueOk, HoldersOk, ListOk, WakesOk, EndedOk, SendsOk, SendIdsOk, FatesOk, TakersOk, VerdictsOk, RecvsOk,
         TerminatedOk, RecvWaitsOk, SendWaitsOk, WokenOk;
  }

  lemma NewHolders(s: State, o: Owner, ids: map<Owner, Option<nat>>)
    requires HoldersOk(s.w.ids, s.k.guards, s.k.issued, s.nextR, s.nextS) && o !in s.w.ids && ids == s.w.ids[o := None]
    ensures HoldersOk(ids, s.k.guards, s.k.issued, s.nextR, s.nextS)
    ensures forall e :: Held(ids, s.k.guards, s.k.issued, e) <==> Held(s.w.ids, s.k.guards, s.k.issued, e)
  {
    forall e
      ensures Held(ids, s.k.guards, s.k.issued, e) <==> Held(s.w.ids, s.k.guards, s.k.issued, e)
    {
    }
  }

  lemma NewWaits(s: State, o: Owner, ids: map<Owner, Option<nat>>)
    requires RecvWaitsOk(s.w.ids, s.h.wait, s.rw, s.k.pend, Disconnected(s), Empty(s))
    requires SendWaitsOk(s.w.ids, s.h.wait, s.sw, s.k.pend, Stuck(s))
    requires ids == s.w.ids[o := None] && WaitOf(s.h.wait, o) == Idle
    ensures RecvWaitsOk(ids, s.h.wait, s.rw, s.k.pend, Disconnected(s), Empty(s))
    ensures SendWaitsOk(ids, s.h.wait, s.sw, s.k.pend, Stuck(s))
  {
    hide Disconnected, Empty, Stuck;
  }

  lemma NewGone(s: State, o: Owner)
    requires NameOf(o) == s.w.nextName
    ensures GoneStays(s.w.ids, s.w.nextName, s.w.ids[o := None])
  {
  }

  lemma NewUndisturbed(s: State, o: Owner)
    requires o !in s.w.ids
    ensures Undisturbed(s.w.ids, s.h.wait, s.h.turns, s.b.busy, s.w.ids[o := None], s.h.wait, s.h.turns,
                        s.b.busy)
  {
  }

  lemma NewWoken(s: State, o: Owner)
    requires WokenOk(s.w.ids, s.h.wait, s.h.woken)
    ensures WokenOk(s.w.ids[o := None], s.h.wait, s.h.woken)
  {
  }

  /** A new owner without a registration changes nothing for the others. */
  lemma NewOwner(s: State, o: Owner, ids: map<Owner, Option<nat>>)
    requires Core(s) && NameOf(o) == s.w.nextName && ids == s.w.ids[o := None]
    ensures o !in s.w.ids && WaitOf(s.h.wait, o) == Idle
    ensures HoldersOk(ids, s.k.guards, s.k.issued, s.nextR, s.nextS)
    ensures ListOk(s.rw, false, ids, s.k.guards, s.k.issued)
    ensures ListOk(s.sw, true, ids, s.k.guards, s.k.issued)
    ensures RecvWaitsOk(ids, s.h.wait, s.rw, s.k.pend, Disconnected(s), Empty(s))
    ensures SendWaitsOk(ids, s.h.wait, s.sw, s.k.pend, Stuck(s))
    ensures WokenOk(ids, s.h.wait, s.h.woken)
    ensures Undisturbed(s.w.ids, s.h.wait, s.h.turns, s.b.busy, ids, s.h.wait, s.h.turns, s.b.busy)
    ensures GoneStays(s.w.ids, s.w.nextName, ids)
    ensures Traced(s.rw, s.sw, s.k.pend, s.rw, s.sw, s.k.pend, s.h.woken, ids, s.k.guards, s.k.issued, s.nextR, s.nextS)
    ensures HeldBefore(s.w.ids, s.k.guards, s.k.issued, s.nextR, s.nextS, ids, s.k.guards, s.k.issued)
  {
    hide QueueOk, WorldOk, HoldersOk, ListOk, WakesOk, EndedOk, SendsOk, SendIdsOk, FatesOk, TakersOk, VerdictsOk,
         RecvsOk, TerminatedOk, WaitNamesOk, RecvWaitsOk, SendWaitsOk, WokenOk, Disconnected, Empty, Stuck, GoneStays,
         Traced, HeldBefore, Undisturbed, Paid, SendersStay, FuturesStay, Held;
    var t := s.(w := s.w.(ids := ids));
    NewIsUnknown(s, o);
    NewHolders(s, o, ids);
    GuardList(s.rw, false, s, t);
    GuardList(s.sw, true, s, t);
    SameHolders(s, t);
    NewWaits(s, o, ids);
    NewGone(s, o);
    NewUndisturbed(s, o);
    NewWoken(s, o);
  }

  lemma NewTerminated(s: State, o: Owner, w: World)
    requires TerminatedOk(s.h.terminated, s.w, Drained(s)) && NameOf(o) == s.w.nextName
    requires w.ids == s.w.ids || w.ids == s.w.ids[o := None]
    requires w.recvs == s.w.recvs || w.recvs.Keys == s.w.recvs.Keys + {s.w.nextName}
    requires w.sends == s.w.sends || w.sends.Keys == s.w.sends.Keys + {s.w.nextName}
    requires forall f <- s.w.recvs :: f in w.recvs && w.recvs[f] == s.w.recvs[f]
    requires forall f <- s.w.sends :: f in w.sends && w.sends[f] == s.w.sends[f]
    requires w.nextName == s.w.nextName + 1
    ensures TerminatedOk(s.h.terminated, w, Drained(s))
  {
    hide Drained;
  }

  lemma NewKept(s: State, o: Owner, w: World, h: History)
    requires WorldOk(s.w, s.b) && SendsOk(s.w.sends, s.h.sent, s.accepted, s.w.nextName) && NameOf(o) == s.w.nextName
    requires w.ids == s.w.ids || w.ids == s.w.ids[o := None]
    requires forall f <- s.w.recvs :: f in w.recvs && w.recvs[f] == s.w.recvs[f]
    requires forall f <- s.w.sends :: f in w.sends && w.sends[f] == s.w.sends[f]
    requires h == s.h.(sent := h.sent) && forall f <- s.h.sent :: f in h.sent && h.sent[f] == s.h.sent[f]
    ensures AllKept(s.b.busy, s.w, s.h, w, h)
  {
    KeptReflexive(s);
    assert o !in s.w.ids;
    hide SendsOk;
  }

  lemma CloneTxKeeps(s: State)
    requires Core(s) && s.senders > 0
    ensures Core(CloneTx(s)) && Rel(s.b.busy, s, CloneTx(s))
  {
    hide QueueOk, WorldOk, HoldersOk, ListOk, WakesOk, SendsOk, RecvsOk, TerminatedOk, WaitNamesOk, RecvWaitsOk,
         SendWaitsOk, WokenOk, AllKept, EndedOk, SendIdsOk, FatesOk, TakersOk, VerdictsOk, LogsGrow, Extends,
         GoneStays, Traced, HeldBefore, Undisturbed, Paid, SendersStay, FuturesStay;
    Same(s);
    var t := CloneTx(s);
    CloneTxWorld(s);
    CloneTxSenders(s);
    LaterNames(s);
    NewTerminated(s, OfStream(s.w.nextName), t.w);
    NewKept(s, OfStream(s.w.nextName), t.w, t.h);
    LaterSends(s);
  }

  lemma CloneTxSenders(s: State)
    ensures SendersStay(s.w.txs, s.closed, s.w.nextName, s.asks, CloneTx(s).w.txs, s.closed, s.asks)
  {
  }

  lemma CloneTxWorld(s: State)
    requires WorldOk(s.w, s.b)
    ensures WorldOk(CloneTx(s).w, s.b) && s.w.nextName !in s.w.txs
  {
  }

  lemma LaterNames(s: State)
    requires RecvsOk(s.w.recvs, s.h.ready, s.w.nextName) && WaitNamesOk(s.h.wait, s.w.nextName)
    ensures RecvsOk(s.w.recvs, s.h.ready, s.w.nextName + 1) && WaitNamesOk(s.h.wait, s.w.nextName + 1)
  {
  }

  lemma LaterSends(s: State)
    requires SendsOk(s.w.sends, s.h.sent, s.accepted, s.w.nextName)
    ensures SendsOk(s.w.sends, s.h.sent, s.accepted, s.w.nextName + 1)
  {
  }

  lemma CloneRxWorld(s: State)
    requires WorldOk(s.w, s.b)
    ensures WorldOk(CloneRx(s).w, s.b) && s.w.nextName !in s.w.rxs
  {
  }

  lemma CloneRxRel(s: State)
    requires Core(s) && s.receivers > 0
    ensures Rel(s.b.busy, s, CloneRx(s))
  {
    hide QueueOk, WorldOk, HoldersOk, ListOk, WakesOk, EndedOk, SendsOk, SendIdsOk, FatesOk, TakersOk, VerdictsOk,
         RecvsOk, TerminatedOk, WaitNamesOk, RecvWaitsOk, SendWaitsOk, WokenOk, AllKept, LogsGrow, Extends, GoneStays,
         Traced, HeldBefore, Undisturbed, Paid, SendersStay, FuturesStay;
    var t, o := CloneRx(s), OfStream(s.w.nextName);
    Same(s);
    NotYet(s);
    NewOwner(s, o, t.w.ids);
    NewKept(s, o, t.w, t.h);
  }

  lemma CloneRxKeeps(s: State)
    requires Core(s) && s.receivers > 0
    ensures Core(CloneRx(s)) && Rel(s.b.busy, s, CloneRx(s))
  {
    hide QueueOk, WorldOk, HoldersOk, ListOk, WakesOk, SendsOk, RecvsOk, TerminatedOk, WaitNamesOk, RecvWaitsOk,
         SendWaitsOk, WokenOk, AllKept, EndedOk, SendIdsOk, FatesOk, TakersOk, VerdictsOk, LogsGrow, Extends,
         GoneStays, Traced, HeldBefore, Undisturbed, Paid, SendersStay, FuturesStay;
    CloneRxRel(s);
    hide Rel;
    LaterNames(s);
    var t, o := CloneRx(s), OfStream(s.w.nextName);
    IdSetSends(s, o, None);
    NewOwner(s, o, t.w.ids);
    NewTerminated(s, o, t.w);
    LaterSends(s);
    CloneRxWorld(s);
  }

  lemma NewRecvWorld(s: State, rx: nat)
    requires WorldOk(s.w, s.b) && rx in s.w.rxs
    ensures WorldOk(NewRecv(s, rx).w, s.b)
  {
  }

  lemma NewRecvRecvs(s: State, rx: nat)
    requires WorldOk(s.w, s.b) && RecvsOk(s.w.recvs, s.h.ready, s.w.nextName)
    ensures RecvsOk(NewRecv(s, rx).w.recvs, s.h.ready, s.w.nextName + 1)
  {
  }

  lemma NewFutures(s: State, recvs: map<nat, RecvFut>, sends: map<nat, SendFut>, sent: map<nat, SendLog>)
    requires forall f <- s.w.recvs :: f in recvs && recvs[f] == s.w.recvs[f]
    requires forall f <- s.w.sends :: f in sends && sends[f] == s.w.sends[f]
    requires forall f <- s.w.sends | f in s.h.sent :: f in sent && sent[f] == s.h.sent[f]
    ensures FuturesStay(s.w.recvs, s.h.ready, s.w.sends, s.h.sent, s.h.turns, s.b.busy,
                        recvs, s.h.ready, sends, sent, s.h.turns, s.b.busy)
  {
  }

  lemma NewRecvRel(s: State, rx: nat)
    requires Core(s)
    ensures Rel(s.b.busy, s, NewRecv(s, rx))
  {
    hide QueueOk, WorldOk, HoldersOk, ListOk, WakesOk, EndedOk, SendsOk, SendIdsOk, FatesOk, TakersOk, VerdictsOk,
         RecvsOk, TerminatedOk, WaitNamesOk, RecvWaitsOk, SendWaitsOk, WokenOk, AllKept, LogsGrow, Extends, GoneStays,
         Traced, HeldBefore, Undisturbed, Paid, SendersStay, FuturesStay;
    var t, o := NewRecv(s, rx), OfRecv(s.w.nextName);
    Same(s);
    NotYet(s);
    NewOwner(s, o, t.w.ids);
    NewFutures(s, t.w.recvs, t.w.sends, t.h.sent);
    NewKept(s, o, t.w, t.h);
  }

  lemma NewRecvKeeps(s: State, rx: nat)
    requires Core(s) && rx in s.w.rxs
    ensures Core(NewRecv(s, rx)) && Rel(s.b.busy, s, NewRecv(s, rx))
  {
    hide QueueOk, WorldOk, HoldersOk, ListOk, WakesOk, SendsOk, RecvsOk, TerminatedOk, RecvWaitsOk, SendWaitsOk,
         WokenOk, AllKept, EndedOk, SendIdsOk, FatesOk, TakersOk, VerdictsOk, LogsGrow, Extends, GoneStays, Traced,
         HeldBefore, Undisturbed, Paid, SendersStay, FuturesStay;
    NewRecvRel(s, rx);
    hide Rel;
    var t, o := NewRecv(s, rx), OfRecv(s.w.nextName);
    NotYet(s);
    IdSetSends(s, o, None);
    NewOwner(s, o, t.w.ids);
    NewTerminated(s, o, t.w);
    LaterSends(s);
    NewRecvWorld(s, rx);
    NewRecvRecvs(s, rx);
  }

  lemma NotYet(s: State)
    requires WorldOk(s.w, s.b) && SendsOk(s.w.sends, s.h.sent, s.accepted, s.w.nextName)
    ensures s.w.nextName !in s.w.recvs && s.w.nextName !in s.w.sends && s.w.nextName !in s.h.sent
  {
  }

  lemma NewSendWorld(s: State, tx: nat, item: Payload)
    requires WorldOk(s.w, s.b) && tx in s.w.txs
    ensures WorldOk(NewSend(s, tx, item).w, s.b)
  {
  }

  lemma NewSendSends(s: State, tx: nat, item: Payload)
    requires WorldOk(s.w, s.b) && SendsOk(s.w.sends, s.h.sent, s.accepted, s.w.nextName)
    ensures var t := NewSend(s, tx, item); SendsOk(t.w.sends, t.h.sent, s.accepted, s.w.nextName + 1)
  {
    NotYet(s);
    hide WorldOk;
  }

  lemma NewSendRest(s: State, tx: nat, item: Payload)
    requires SendIdsOk(s.w.sends, s.w.ids) && RecvsOk(s.w.recvs, s.h.ready, s.w.nextName)
    requires WaitNamesOk(s.h.wait, s.w.nextName)
    ensures SendIdsOk(NewSend(s, tx, item).w.sends, NewSend(s, tx, item).w.ids)
    ensures RecvsOk(s.w.recvs, s.h.ready, s.w.nextName + 1) && WaitNamesOk(s.h.wait, s.w.nextName + 1)
  {
  }

  lemma NewSendVerdicts(s: State, tx: nat, item: Payload)
    requires VerdictsOk(s.h.sent, ClosedToSends(s))
    ensures VerdictsOk(NewSend(s, tx, item).h.sent, ClosedToSends(s))
  {
  }

  lemma NewSendLogs(s: State, tx: nat, item: Payload)
    requires WorldOk(s.w, s.b) && SendsOk(s.w.sends, s.h.sent, s.accepted, s.w.nextName)
    requires FatesOk(s.w.sends, s.h.sent, s.k.dropping)
    ensures var t := NewSend(s, tx, item);
            && FatesOk(t.w.sends, t.h.sent, s.k.dropping)
            && LogsGrow(s.h.ready, s.h.sent, s.h.ready, t.h.sent)
  {
    NotYet(s);
    hide WorldOk;
  }

  lemma NewSendRel(s: State, tx: nat, item: Payload)
    requires Core(s)
    ensures Rel(s.b.busy, s, NewSend(s, tx, item))
  {
    hide QueueOk, WorldOk, HoldersOk, ListOk, WakesOk, EndedOk, SendsOk, SendIdsOk, FatesOk, TakersOk, VerdictsOk,
         RecvsOk, TerminatedOk, WaitNamesOk, RecvWaitsOk, SendWaitsOk, WokenOk, AllKept, LogsGrow, Extends, GoneStays,
         Traced, HeldBefore, Undisturbed, Paid, SendersStay, FuturesStay;
    var t, o := NewSend(s, tx, item), OfSend(s.w.nextName);
    Same(s);
    NotYet(s);
    NewOwner(s, o, t.w.ids);
    NewFutures(s, t.w.recvs, t.w.sends, t.h.sent);
    NewKept(s, o, t.w, t.h);
    NewSendLogs(s, tx, item);
  }

  lemma NewSendKeeps(s: State, tx: nat, item: Payload)
    requires Core(s) && tx in s.w.txs
    ensures Core(NewSend(s, tx, item)) && Rel(s.b.busy, s, NewSend(s, tx, item))
  {
    hide QueueOk, WorldOk, HoldersOk, ListOk, WakesOk, SendsOk, SendIdsOk, RecvsOk, TerminatedOk, WaitNamesOk,
         RecvWaitsOk, SendWaitsOk, WokenOk, AllKept, EndedOk, FatesOk, TakersOk, VerdictsOk, LogsGrow, Extends,
         GoneStays, Traced, HeldBefore, Undisturbed, Paid, SendersStay, FuturesStay;
    NewSendRel(s, tx, item);
    hide Rel;
    var t, o := NewSend(s, tx, item), OfSend(s.w.nextName);
    NewSendRest(s, tx, item);
    NotYet(s);
    NewOwner(s, o, t.w.ids);
    NewTerminated(s, o, t.w);
    NewSendWorld(s, tx, item);
    NewSendSends(s, tx, item);
    NewSendLogs(s, tx, item);
    NewSendVerdicts(s, tx, item);
  }

  // ---- Dropping a sender -----------------------------------------------------------------------

  lemma DropTxWorld(s: State, tx: nat)
    requires WorldOk(s.w, s.b) && s.senders > 0
    requires tx !in s.b.tx && forall f <- s.w.sends :: s.w.sends[f].tx != tx
    ensures WorldOk(DropTx(s, tx).w, s.b)
  {
  }

  /** The last sender to leave wakes every parked receiver; any other leaves the channel as it is. */
  lemma DropTxSenders(s: State, tx: nat)
    requires s.senders > 0 && Leave(tx) in s.asks
    ensures var t := DropTx(s, tx);
            && SendersStay(s.w.txs, s.closed, s.w.nextName, s.asks, t.w.txs, s.closed, t.asks)
            && Paid(s.h.turns, s.asks, s.h.turns, t.asks)
  {
  }

  lemma DropTxRel(s: State, tx: nat)
    requires WorldOk(s.w, s.b) && SendsOk(s.w.sends, s.h.sent, s.accepted, s.w.nextName) && s.senders > 0
    requires Leave(tx) in s.asks
    ensures var t := DropTx(s, tx); Rel(s.b.busy, s, TakeRecvs(t)) && Rel(s.b.busy, s, t)
  {
    hide WorldOk, SendsOk, AllKept, LogsGrow, Extends, GoneStays, Traced, HeldBefore, Undisturbed, Paid, SendersStay,
         FuturesStay;
    Same(s);
    TakesTraced(s);
    KeptReflexive(s);
    DropTxKept(s, tx);
    DropTxSenders(s, tx);
  }

  lemma DropTxKeeps(s: State, tx: nat)
    requires Core(s) && tx in s.w.txs && s.senders > 0 && Leave(tx) in s.asks
    requires tx !in s.b.tx && forall f <- s.w.sends :: s.w.sends[f].tx != tx
    ensures var t := DropTx(s, tx);
            if t.senders == 0 then Core(TakeRecvs(t)) && Rel(s.b.busy, s, TakeRecvs(t))
            else Core(t) && Rel(s.b.busy, s, t)
  {
    hide WorldOk, SendsOk, RecvsOk, WaitNamesOk, AllKept, EndedOk, SendIdsOk, FatesOk, TakersOk, VerdictsOk, LogsGrow,
         Extends, GoneStays, Traced, HeldBefore, Undisturbed, Paid, SendersStay, FuturesStay;
    DropTxRel(s, tx);
    hide Rel;
    DropTxWorld(s, tx);
    var t := DropTx(s, tx);
    assert TerminatedOk(s.h.terminated, t.w, Drained(t)) by {
      DropTxTerminated(s, tx);
    }
  }

  lemma DropTxKept(s: State, tx: nat)
    requires AllKept(s.b.busy, s.w, s.h, s.w, s.h) && s.senders > 0
    ensures AllKept(s.b.busy, s.w, s.h, DropTx(s, tx).w, s.h)
  {
  }

  lemma DropTxTerminated(s: State, tx: nat)
    requires TerminatedOk(s.h.terminated, s.w, Drained(s)) && s.senders > 0
    ensures TerminatedOk(s.h.terminated, DropTx(s, tx).w, Drained(DropTx(s, tx)))
  {
  }

  // ---- Closing ---------------------------------------------------------------------------------

  lemma CloseSenders(s: State)
    requires Shut in s.asks
    ensures SendersStay(s.w.txs, s.closed, s.w.nextName, s.asks, s.w.txs, true, Close(s).asks)
    ensures Paid(s.h.turns, s.asks, s.h.turns, Close(s).asks)
  {
  }

  lemma LaterVerdicts(sent: map<nat, SendLog>, before: bool, after: bool)
    requires VerdictsOk(sent, before) && (before ==> after)
    ensures VerdictsOk(sent, after)
  {
  }

  lemma CloseRel(s: State)
    requires WorldOk(s.w, s.b) && SendsOk(s.w.sends, s.h.sent, s.accepted, s.w.nextName)
    requires Shut in s.asks
    ensures Rel(s.b.busy, s, TakeRecvs(Close(s)))
  {
    hide WorldOk, SendsOk, AllKept, LogsGrow, Extends, GoneStays, Traced, HeldBefore, Undisturbed, Paid, SendersStay,
         FuturesStay;
    Same(s);
    TakesTraced(s);
    CloseSenders(s);
    KeptSame(s, Close(s).h);
  }

  lemma CloseKeeps(s: State)
    requires Core(s) && !s.closed && !s.k.due && Shut in s.asks
    ensures Core(TakeRecvs(Close(s))) && Rel(s.b.busy, s, TakeRecvs(Close(s)))
  {
    hide QueueOk, WorldOk, SendsOk, RecvsOk, WaitNamesOk, AllKept, EndedOk, SendIdsOk, FatesOk, TakersOk, VerdictsOk,
         LogsGrow, Extends, GoneStays, Traced, HeldBefore, Undisturbed, Paid, SendersStay, FuturesStay;
    CloseRel(s);
    hide Rel;
    LaterVerdicts(s.h.sent, ClosedToSends(s), true);
  }

  lemma DropHeldFates(s: State, f: nat)
    requires FatesOk(s.w.sends, s.h.sent, s.k.dropping) && f in s.k.dropping
    ensures FatesOk(s.w.sends, DropHeld(s, f).h.sent, s.k.dropping - {f})
    ensures LogsGrow(s.h.ready, s.h.sent, s.h.ready, DropHeld(s, f).h.sent)
  {
  }

  lemma DropHeldSends(s: State, f: nat)
    requires WorldOk(s.w, s.b) && SendsOk(s.w.sends, s.h.sent, s.accepted, s.w.nextName)
    requires f in s.h.sent && f !in s.w.sends
    ensures SendsOk(s.w.sends, DropHeld(s, f).h.sent, s.accepted, s.w.nextName)
  {
    hide WorldOk, SendFutOk;
  }

  lemma DropHeldKept(s: State, f: nat)
    requires WorldOk(s.w, s.b) && SendsOk(s.w.sends, s.h.sent, s.accepted, s.w.nextName)
    requires f in s.h.sent && f !in s.w.sends
    ensures AllKept(s.b.busy, s.w, s.h, s.w, DropHeld(s, f).h)
  {
    hide WorldOk, SendsOk;
    KeptReflexive(s);
  }

  lemma DropHeldRest(s: State, f: nat)
    requires f in s.h.sent && f !in s.w.sends
    ensures var t := DropHeld(s, f);
            FuturesStay(s.w.recvs, s.h.ready, s.w.sends, s.h.sent, s.h.turns, s.b.busy,
                        s.w.recvs, s.h.ready, s.w.sends, t.h.sent, s.h.turns, s.b.busy)
    ensures VerdictsOk(s.h.sent, ClosedToSends(s)) ==> VerdictsOk(DropHeld(s, f).h.sent, ClosedToSends(s))
  {
  }

  lemma DropHeldKeeps(s: State, f: nat)
    requires Core(s) && f in s.k.dropping
    ensures f in s.h.sent && Core(DropHeld(s, f)) && Rel(s.b.busy, s, DropHeld(s, f))
  {
    hide QueueOk, WorldOk, HoldersOk, ListOk, WakesOk, SendsOk, RecvsOk, TerminatedOk, WaitNamesOk, RecvWaitsOk,
         SendWaitsOk, WokenOk, AllKept, EndedOk, SendIdsOk, TakersOk, VerdictsOk, LogsGrow, Extends, GoneStays,
         Traced, HeldBefore, Undisturbed, Paid, SendersStay, FuturesStay;
    Same(s);
    DropHeldFates(s, f);
    DropHeldSends(s, f);
    DropHeldKept(s, f);
    DropHeldRest(s, f);
  }

  /** The second half of `close`: the senders are taken, and nothing is owed any more. */
  lemma PayDueRel(s: State)
    requires WorldOk(s.w, s.b) && SendsOk(s.w.sends, s.h.sent, s.accepted, s.w.nextName)
    ensures Rel(s.b.busy, s, TakeSends(PayDue(s)))
  {
    hide WorldOk, SendsOk, AllKept, LogsGrow, Extends, GoneStays, Traced, HeldBefore, Undisturbed, Paid, SendersStay,
         FuturesStay;
    Same(s);
    TakesTraced(s);
    KeptSame(s, s.h);
  }

  lemma PayDueKeeps(s: State)
    requires Core(s)
    ensures Core(TakeSends(PayDue(s))) && Rel(s.b.busy, s, TakeSends(PayDue(s)))
  {
    hide QueueOk, WorldOk, SendsOk, RecvsOk, WaitNamesOk, TerminatedOk, AllKept, EndedOk, SendIdsOk, FatesOk,
         TakersOk, VerdictsOk, LogsGrow, Extends, GoneStays, Traced, HeldBefore, Undisturbed, Paid, SendersStay,
         FuturesStay;
    PayDueRel(s);
    hide Rel;
  }

  // ---- Dropping futures and receivers ----------------------------------------------------------

  lemma BuryWorld(s: State, o: Owner)
    requires WorldOk(s.w, s.b)
    requires o.OfStream? ==> o.rx !in s.b.rx && forall f <- s.w.recvs :: s.w.recvs[f].rx != o.rx
    ensures WorldOk(Bury(s, o).w, Bury(s, o).b)
  {
  }

  lemma BuryHolders(s: State, o: Owner)
    requires o in s.w.ids && s.w.ids[o].None?
    requires HoldersOk(s.w.ids, s.k.guards, s.k.issued, s.nextR, s.nextS)
    ensures HoldersOk(s.w.ids - {o}, s.k.guards, s.k.issued, s.nextR, s.nextS)
    ensures forall e ::
              Held(s.w.ids - {o}, s.k.guards, s.k.issued, e) <==> Held(s.w.ids, s.k.guards, s.k.issued, e)
  {
    forall e
      ensures Held(s.w.ids - {o}, s.k.guards, s.k.issued, e) <==> Held(s.w.ids, s.k.guards, s.k.issued, e)
    {
    }
  }

  /** The item that a dropped send still holds is yet to be dropped. */
  lemma BuryFates(s: State, o: Owner)
    requires SendsOk(s.w.sends, s.h.sent, s.accepted, s.w.nextName)
    requires FatesOk(s.w.sends, s.h.sent, s.k.dropping) && SendIdsOk(s.w.sends, s.w.ids)
    ensures FatesOk(Bury(s, o).w.sends, s.h.sent, Bury(s, o).k.dropping)
    ensures SendIdsOk(Bury(s, o).w.sends, Bury(s, o).w.ids)
    ensures GoneStays(s.w.ids, s.w.nextName, Bury(s, o).w.ids)
  {
    hide SendsOk, FatesOk;
    if o.OfSend? {
      BuriedFates(s, o.fut);
    }
  }

  lemma BuriedFates(s: State, f: nat)
    requires SendsOk(s.w.sends, s.h.sent, s.accepted, s.w.nextName)
    requires FatesOk(s.w.sends, s.h.sent, s.k.dropping)
    ensures FatesOk(s.w.sends - {f}, s.h.sent, Bury(s, OfSend(f)).k.dropping)
  {
    if f in s.w.sends {
      assert SendFutOk(s.accepted, s.w.sends[f], s.h.sent[f]);
    }
    hide SendFutOk;
  }

  lemma LaterTakers(s: State, alive: bool)
    requires TakersOk(s.h.takers, |s.out|, s.h.calls, s.k.taking, s.receivers > 0) && (alive ==> s.receivers > 0)
    ensures TakersOk(s.h.takers, |s.out|, s.h.calls, s.k.taking, alive)
  {
  }

  lemma BuryKept(s: State, o: Owner)
    requires WorldOk(s.w, s.b) && SendsOk(s.w.sends, s.h.sent, s.accepted, s.w.nextName)
    ensures AllKept(s.b.busy - {o}, s.w, s.h, Bury(s, o).w, s.h)
  {
    hide WorldOk, SendsOk;
    KeptReflexive(s);
  }

  lemma BuryTerminated(s: State, o: Owner)
    requires TerminatedOk(s.h.terminated, s.w, Drained(s))
    ensures TerminatedOk(s.h.terminated, Bury(s, o).w, Drained(s))
  {
    hide Drained;
  }

  lemma BuryFutures(s: State, o: Owner)
    requires SendsOk(s.w.sends, s.h.sent, s.accepted, s.w.nextName)
    requires RecvsOk(s.w.recvs, s.h.ready, s.w.nextName)
    ensures SendsOk(Bury(s, o).w.sends, s.h.sent, s.accepted, s.w.nextName)
    ensures RecvsOk(Bury(s, o).w.recvs, s.h.ready, s.w.nextName)
  {
  }

  lemma BuryUndisturbed(s: State, o: Owner)
    requires o in s.b.busy
    ensures Undisturbed(s.w.ids, s.h.wait, s.h.turns, s.b.busy, s.w.ids - {o}, s.h.wait, s.h.turns, s.b.busy - {o})
    ensures WokenOk(s.w.ids, s.h.wait, s.h.woken) ==> WokenOk(s.w.ids - {o}, s.h.wait, s.h.woken)
  {
  }

  lemma BuryOthers(s: State, o: Owner)
    requires o in s.b.busy
    ensures var t := Bury(s, o);
            FuturesStay(s.w.recvs, s.h.ready, s.w.sends, s.h.sent, s.h.turns, s.b.busy,
                        t.w.recvs, s.h.ready, t.w.sends, s.h.sent, s.h.turns, t.b.busy)
  {
  }

  lemma BuryWaits(s: State, o: Owner)
    requires RecvWaitsOk(s.w.ids, s.h.wait, s.rw, s.k.pend, Disconnected(s), Empty(s))
    requires SendWaitsOk(s.w.ids, s.h.wait, s.sw, s.k.pend, Stuck(s))
    ensures RecvWaitsOk(s.w.ids - {o}, s.h.wait, s.rw, s.k.pend, Disconnected(s), Empty(s))
    ensures SendWaitsOk(s.w.ids - {o}, s.h.wait, s.sw, s.k.pend, Stuck(s))
  {
    hide Disconnected, Empty, Stuck;
  }

  /** An owner without a registration is dropped, but not as the last receiver. */
  lemma BuryRel(s: State, o: Owner)
    requires Core(s) && o in s.w.ids && s.w.ids[o].None? && o in s.b.busy && (o.OfStream? ==> s.receivers > 1)
    ensures Changed(o, s, Bury(s, o))
  {
    hide QueueOk, WorldOk, HoldersOk, ListOk, WakesOk, EndedOk, SendsOk, SendIdsOk, FatesOk, TakersOk, VerdictsOk,
         RecvsOk, TerminatedOk, WaitNamesOk, RecvWaitsOk, SendWaitsOk, WokenOk, AllKept, LogsGrow, Extends, GoneStays,
         Traced, HeldBefore, Undisturbed, Paid, SendersStay, FuturesStay;
    Same(s);
    BuryHolders(s, o);
    SameHolders(s, Bury(s, o));
    BuryFates(s, o);
    BuryKept(s, o);
    BuryOthers(s, o);
    BuryUndisturbed(s, o);
  }

  lemma BuryKeeps(s: State, o: Owner)
    requires Core(s) && o in s.w.ids && s.w.ids[o].None? && o in s.b.busy
    requires o.OfStream? ==>
               o.rx in s.w.rxs && s.receivers > 1 && o.rx !in s.b.rx && forall f <- s.w.recvs :: s.w.recvs[f].rx != o.rx
    ensures Core(Bury(s, o)) && Changed(o, s, Bury(s, o))
  {
    hide QueueOk, WorldOk, HoldersOk, ListOk, WakesOk, SendsOk, RecvsOk, TerminatedOk, WaitNamesOk, RecvWaitsOk,
         SendWaitsOk, WokenOk, AllKept, EndedOk, SendIdsOk, FatesOk, TakersOk, VerdictsOk, LogsGrow, Extends,
         GoneStays, Traced, HeldBefore, Undisturbed, Paid, SendersStay, FuturesStay;
    BuryRel(s, o);
    hide Rel;
    var t := Bury(s, o);
    BuryWorld(s, o);
    BuryHolders(s, o);
    GuardList(s.rw, false, s, t);
    GuardList(s.sw, true, s, t);
    BuryFates(s, o);
    LaterTakers(s, t.receivers > 0);
    BuryTerminated(s, o);
    BuryFutures(s, o);
    BuryWaits(s, o);
    BuryUndisturbed(s, o);
  }

  lemma BuryTakesTraced(s: State, t: State)
    requires forall e ::
               Held(t.w.ids, s.k.guards, s.k.issued, e) <==> Held(s.w.ids, s.k.guards, s.k.issued, e)
    ensures Traced(s.rw, s.sw, s.k.pend, s.rw, [], s.k.pend + Elems(s.sw), s.h.woken, t.w.ids, s.k.guards,
                   s.k.issued, s.nextR, s.nextS)
    ensures HeldBefore(s.w.ids, s.k.guards, s.k.issued, s.nextR, s.nextS, t.w.ids, s.k.guards, s.k.issued)
  {
    hide Held;
  }

  lemma TakenSendWaits(s: State, ids: map<Owner, Option<nat>>)
    requires SendWaitsOk(ids, s.h.wait, s.sw, s.k.pend, Stuck(s))
    ensures SendWaitsOk(ids, s.h.wait, [], s.k.pend + Elems(s.sw), false)
    ensures forall disconnected: bool, empty: bool ::
              RecvWaitsOk(ids, s.h.wait, s.rw, s.k.pend, disconnected, empty) ==>
              RecvWaitsOk(ids, s.h.wait, s.rw, s.k.pend + Elems(s.sw), disconnected, empty)
  {
    hide Stuck;
  }

  lemma TakenSendWakes(s: State)
    requires WakesOk(s.rw, s.sw, s.k.pend, s.k.issued, s.h.woken, s.nextR, s.nextS)
    requires HoldersOk(s.w.ids, s.k.guards, s.k.issued, s.nextR, s.nextS)
    requires ListOk(s.rw, false, s.w.ids, s.k.guards, s.k.issued)
    requires ListOk(s.sw, true, s.w.ids, s.k.guards, s.k.issued)
    ensures WakesOk(s.rw, [], s.k.pend + Elems(s.sw), s.k.issued, s.h.woken, s.nextR, s.nextS)
  {
  }

  function StartCleaning(s: State): State {
    s.(k := s.k.(cleaning := true))
  }

  function EndCleaning(s: State): State {
    s.(k := s.k.(cleaning := false))
  }

  /** The clean-up is over: nothing is left in the channel. */
  lemma EndCleaningKeeps(s: State)
    requires Core(s) && Empty(s)
    ensures Core(EndCleaning(s))
  {
    hide QueueOk, WorldOk, HoldersOk, ListOk, WakesOk, SendsOk, RecvsOk, TerminatedOk, WaitNamesOk, RecvWaitsOk,
         SendWaitsOk, WokenOk, EndedOk, SendIdsOk, FatesOk, TakersOk, VerdictsOk, LogsGrow, Extends, GoneStays,
         Traced, HeldBefore, Undisturbed, Paid, SendersStay, FuturesStay;
    Same(s);
  }

  /** The last receiver is dropped: every parked sender is taken, to be woken. */
  lemma BuryLastRel(s: State, rx: nat)
    requires Core(s) && s.receivers == 1
    requires OfStream(rx) in s.w.ids && s.w.ids[OfStream(rx)].None? && OfStream(rx) in s.b.busy
    ensures Changed(OfStream(rx), s, TakeSends(StartCleaning(Bury(s, OfStream(rx)))))
  {
    hide QueueOk, WorldOk, HoldersOk, ListOk, WakesOk, EndedOk, SendsOk, SendIdsOk, FatesOk, TakersOk, VerdictsOk,
         RecvsOk, TerminatedOk, WaitNamesOk, RecvWaitsOk, SendWaitsOk, WokenOk, AllKept, LogsGrow, Extends, GoneStays,
         Traced, HeldBefore, Undisturbed, Paid, SendersStay, FuturesStay;
    var o := OfStream(rx);
    Same(s);
    BuryHolders(s, o);
    BuryTakesTraced(s, Bury(s, o));
    BuryFates(s, o);
    BuryKept(s, o);
    BuryOthers(s, o);
    BuryUndisturbed(s, o);
  }

  lemma BuryLastKeeps(s: State, rx: nat)
    requires Core(s) && s.receivers == 1 && rx in s.w.rxs && rx !in s.b.rx
    requires OfStream(rx) in s.w.ids && s.w.ids[OfStream(rx)].None? && OfStream(rx) in s.b.busy
    requires forall f <- s.w.recvs :: s.w.recvs[f].rx != rx
    ensures !s.k.cleaning
    ensures var t := TakeSends(StartCleaning(Bury(s, OfStream(rx)))); Core(t) && Changed(OfStream(rx), s, t)
  {
    hide QueueOk, WorldOk, HoldersOk, ListOk, WakesOk, SendsOk, RecvsOk, TerminatedOk, WaitNamesOk, RecvWaitsOk,
         SendWaitsOk, WokenOk, AllKept, EndedOk, SendIdsOk, FatesOk, TakersOk, VerdictsOk, LogsGrow, Extends,
         GoneStays, Traced, HeldBefore, Undisturbed, Paid, SendersStay, FuturesStay;
    BuryLastRel(s, rx);
    hide Rel;
    var o := OfStream(rx);
    var t := Bury(s, o);
    BuryWorld(s, o);
    BuryHolders(s, o);
    GuardList(s.rw, false, s, t);
    EmptyList(s, t.w.ids);
    BuryFates(s, o);
    LaterTakers(s, false);
    LaterVerdicts(s.h.sent, ClosedToSends(s), true);
    BuryTerminated(s, o);
    BuryFutures(s, o);
    BuryWaits(s, o);
    BuryUndisturbed(s, o);
    TakenSendWaits(s, t.w.ids);
    TakenSendWakes(s);
  }

  lemma EmptyList(s: State, ids: map<Owner, Option<nat>>)
    ensures ListOk([], true, ids, s.k.guards, s.k.issued)
  {
  }
}
