/**
What the `mpmc` channel promises, as consequences of what holds at every moment at which user
code runs (`Inv`), between two top-level calls (`Quiescent`), and over whole runs (`IsRun`).
 */
module MpmcTheorems {
  import opened Common
  import opened MpmcState
  import opened MpmcSteps
  import opened MpmcCalls

  // ---- No lost wake ----------------------------------------------------------------------------

  /**
  Whenever no channel call is in progress, a receive that parked and has not been woken since is
  registered, under its own id, and the channel has nothing to tell it.
   */
  lemma NoLostReceive(s: State, o: Owner)
    requires Quiescent(s) && o in s.w.ids && !o.OfSend? && WaitOf(s.h.wait, o) == Parked
    ensures s.w.ids[o].Some? && Entry(s.w.ids[o].value, o) in s.rw
    ensures s.accepted == s.out && s.senders > 0 && !s.closed
  {
    hide WorldOk, HoldersOk, ListOk, WakesOk, SendsOk, RecvsOk, TerminatedOk, WaitNamesOk, SendWaitsOk, WokenOk;
  }

  /** The same for a send: it is registered, and the queue is full and open. */
  lemma NoLostSend(s: State, o: Owner)
    requires Quiescent(s) && o in s.w.ids && o.OfSend? && WaitOf(s.h.wait, o) == Parked
    ensures s.w.ids[o].Some? && Entry(s.w.ids[o].value, o) in s.sw
    ensures s.cap.Some? && |s.q| == s.cap.value && s.receivers > 0 && !s.closed
  {
    hide QueueOk, WorldOk, HoldersOk, ListOk, WakesOk, SendsOk, RecvsOk, TerminatedOk, WaitNamesOk, RecvWaitsOk;
  }

  /**
  At every moment at which user code runs, a parked owner that could make progress is about to be
  woken: by a call in progress that has taken its waker, or by a `close` that has yet to take it.
   */
  lemma NoLostWakeNested(s: State, o: Owner)
    requires Inv(s) && o in s.w.ids && WaitOf(s.h.wait, o) == Parked
    ensures s.w.ids[o].Some?
    ensures var e := Entry(s.w.ids[o].value, o);
            if o.OfSend? then
              !Full(s) || s.receivers == 0 || s.closed ==> e in s.k.pend || (s.k.due && e in s.sw)
            else
              !Empty(s) || Disconnected(s) ==> e in s.k.pend
  {
    hide QueueOk, WorldOk, HoldersOk, ListOk, WakesOk, SendsOk, RecvsOk, TerminatedOk, WaitNamesOk;
  }

  // ---- Conservation ----------------------------------------------------------------------------

  /** Where the `i`-th accepted item is. */
  datatype Place = WentOut | InSlot | InQueue(at: nat)

  function PlaceOf(s: State, i: nat): Place {
    if i < |s.out| then WentOut
    else if i < Popped(s) then InSlot
    else InQueue(i - Popped(s))
  }

  /** Nothing is lost, duplicated or reordered: each accepted item is in one place, in order. */
  lemma EveryItemHasItsPlace(s: State, i: nat)
    requires Inv(s) && i < |s.accepted|
    ensures match PlaceOf(s, i)
            case WentOut => s.out[i] == s.accepted[i]
            case InSlot => s.slot == Some(s.accepted[i])
            case InQueue(at) => at < |s.q| && s.q[at] == s.accepted[i]
    ensures |s.out| + (if s.slot.Some? then 1 else 0) + |s.q| == |s.accepted|
  {
    hide WorldOk, HoldersOk, ListOk, WakesOk, SendsOk, RecvsOk, TerminatedOk, WaitNamesOk, RecvWaitsOk, SendWaitsOk,
         WokenOk;
  }

  /** The backing queue stays within the capacity, and the contents within one more. */
  lemma ContentsBounded(s: State)
    requires Inv(s) && s.cap.Some?
    ensures |s.q| <= s.cap.value && |s.accepted| - |s.out| <= s.cap.value + 1
  {
    hide WorldOk, HoldersOk, ListOk, WakesOk, SendsOk, RecvsOk, TerminatedOk, WaitNamesOk, RecvWaitsOk, SendWaitsOk,
         WokenOk;
  }

  // ---- Registrations ---------------------------------------------------------------------------

  /** The entry at `i` belongs to a live owner that holds its id, and to no other entry or owner. */
  ghost predicate OwnedOnce(s: State, list: seq<Entry>, send: bool, i: nat)
    requires i < |list|
  {
    var e := list[i];
    && e.waker.OfSend? == send
    && e.waker in s.w.ids && s.w.ids[e.waker] == Some(e.id)
    && (forall o <- s.w.ids :: o.OfSend? == send && s.w.ids[o] == Some(e.id) ==> o == e.waker)
    && (forall j | 0 <= j < |list| && j != i :: list[j].id != e.id && list[j].waker != e.waker)
  }

  /** Between calls, every registration is owned by one live future or receiver, and owners own at most one. */
  lemma RegistrationsOwned(s: State)
    requires Quiescent(s)
    ensures forall i | 0 <= i < |s.rw| :: OwnedOnce(s, s.rw, false, i)
    ensures forall i | 0 <= i < |s.sw| :: OwnedOnce(s, s.sw, true, i)
  {
    hide QueueOk, WorldOk, WakesOk, SendsOk, RecvsOk, TerminatedOk, WaitNamesOk, RecvWaitsOk, SendWaitsOk, WokenOk;
    forall i | 0 <= i < |s.rw| ensures OwnedOnce(s, s.rw, false, i) {
      ListOwned(s, s.rw, false, i);
    }
    forall i | 0 <= i < |s.sw| ensures OwnedOnce(s, s.sw, true, i) {
      ListOwned(s, s.sw, true, i);
    }
  }

  lemma ListOwned(s: State, list: seq<Entry>, send: bool, i: nat)
    requires s.k.guards == {} && s.k.issued == {} && i < |list|
    requires HoldersOk(s.w.ids, {}, {}, s.nextR, s.nextS) && ListOk(list, send, s.w.ids, {}, {})
    ensures OwnedOnce(s, list, send, i)
  {
    var e := list[i];
    assert e in list && Held(s.w.ids, {}, {}, e);
    forall o <- s.w.ids | o.OfSend? == send && s.w.ids[o] == Some(e.id) ensures o == e.waker {
      assert Held(s.w.ids, {}, {}, Entry(e.id, o));
    }
    forall j | 0 <= j < |list| && j != i ensures list[j].id != e.id && list[j].waker != e.waker {
      assert list[j] in list && Held(s.w.ids, {}, {}, list[j]);
    }
  }

  /** A dropped or terminated future or receiver has left no registration behind. */
  lemma NoRegistrationLeft(s: State, o: Owner)
    requires Quiescent(s) && (o !in s.w.ids || Terminated(s.w, Drained(s), o))
    ensures forall e <- s.rw :: e.waker != o
    ensures forall e <- s.sw :: e.waker != o
  {
    hide Core;
    RegistrationsOwned(s);
    DecidedSends(s);
    forall e <- s.rw ensures e.waker != o {
      var i :| 0 <= i < |s.rw| && s.rw[i] == e;
      assert OwnedOnce(s, s.rw, false, i);
    }
    forall e <- s.sw ensures e.waker != o {
      var i :| 0 <= i < |s.sw| && s.sw[i] == e;
      assert OwnedOnce(s, s.sw, true, i);
    }
  }

  lemma DecidedSends(s: State)
    requires Core(s)
    ensures SendIdsOk(s.w.sends, s.w.ids)
  {
    hide QueueOk, WorldOk, HoldersOk, ListOk, WakesOk, SendsOk, SendIdsOk, RecvsOk, TerminatedOk, WaitNamesOk,
         RecvWaitsOk, SendWaitsOk, WokenOk;
  }

  /** A stale id never removes another's registration: removing `o`'s id touches only `o`'s entry. */
  lemma RemovalIsOwn(s: State, o: Owner, e: Entry)
    requires Inv(s) && o in s.w.ids && s.w.ids[o].Some? && e != Entry(s.w.ids[o].value, o)
    ensures var list := if o.OfSend? then s.sw else s.rw;
            e in RemoveId(list, s.w.ids[o].value) <==> e in list
  {
    hide QueueOk, WorldOk, WakesOk, SendsOk, RecvsOk, TerminatedOk, WaitNamesOk, RecvWaitsOk, SendWaitsOk, WokenOk,
         RemoveId;
    var own := Entry(s.w.ids[o].value, o);
    assert Held(s.w.ids, s.k.guards, s.k.issued, own);
    RemoveIdElems(if o.OfSend? then s.sw else s.rw, own);
  }

  /**
  Exactly-once delivery: at every moment at which user code runs, an item that went out was taken
  by one receive call, which took no other item, or was dropped with no receiver left.
   */
  lemma DeliveredOnce(s: State, i: nat, j: nat)
    requires Inv(s) && i < j < |s.out|
    ensures |s.h.takers| == |s.out|
    ensures s.h.takers[i].Some? ==> s.h.takers[i] != s.h.takers[j]
    ensures s.h.takers[i].None? || s.h.takers[j].None? ==> s.receivers == 0
  {
    hide QueueOk, WorldOk, HoldersOk, ListOk, WakesOk, EndedOk, SendsOk, SendIdsOk, FatesOk, RecvsOk, TerminatedOk,
         WaitNamesOk, RecvWaitsOk, SendWaitsOk, WokenOk;
  }

  // ---- The Send future -------------------------------------------------------------------------

  /** Who has the item that a send was created with; `Leaving` while the future is being dropped. */
  datatype Holder = Future | Channel | PendingError | Caller | Leaving | Dropped

  function HolderOf(s: State, f: nat): Holder
    requires f in s.h.sent
  {
    var g := s.h.sent[f];
    if g.at.Some? then Channel
    else if g.dropped then Dropped
    else if g.answers != [] then Caller
    else if f !in s.w.sends then Leaving
    else if s.w.sends[f].item.Some? then Future
    else PendingError
  }

  /**
  At every moment at which user code runs, and whether the future still exists or not, the item of
  a send is with exactly one holder, and the answer given, if any, says with whom.
   */
  lemma SendHasOneHolder(s: State, f: nat)
    requires Inv(s) && f in s.h.sent
    ensures var g, h := s.h.sent[f], HolderOf(s, f);
            && (h == Channel <==> exists i :: g.at == Some(i) && i < |s.accepted| && s.accepted[i] == g.orig)
            && (h == Caller <==> g.answers == [Failed(g.orig)])
            && (h == Dropped <==> g.dropped)
            && (h == Leaving <==> f in s.k.dropping)
            && (h == Future <==> f in s.w.sends && s.w.sends[f].item == Some(g.orig))
            && (h == PendingError <==> f in s.w.sends && s.w.sends[f].outcome == Some(Failed(g.orig)))
            && (g.answers == [] || g.answers == [Failed(g.orig)] || (g.answers == [Sent] && h == Channel))
  {
    hide QueueOk, WorldOk, HoldersOk, ListOk, WakesOk, EndedOk, SendIdsOk, TakersOk, VerdictsOk, RecvsOk,
         TerminatedOk, WaitNamesOk, RecvWaitsOk, SendWaitsOk, WokenOk;
    if f in s.w.sends {
      assert SendFutOk(s.accepted, s.w.sends[f], s.h.sent[f]);
    } else if f !in s.k.dropping {
      assert FateOk(s.h.sent[f]);
    }
    assert PlaceOk(s.accepted, s.h.sent[f]);
  }

  /** A send reports termination exactly when its answer has been given. */
  lemma TerminatedIffAnswered(s: State, f: nat)
    requires Inv(s) && f in s.w.sends
    ensures f in s.h.sent && (|s.h.sent[f].answers| == 1 <==> Terminated(s.w, Drained(s), OfSend(f)))
  {
    hide QueueOk, HoldersOk, ListOk, WakesOk, EndedOk, FatesOk, TakersOk, VerdictsOk, RecvsOk, TerminatedOk,
         WaitNamesOk, RecvWaitsOk, SendWaitsOk, WokenOk;
    assert SendFutOk(s.accepted, s.w.sends[f], s.h.sent[f]);
  }

  /** A receive future reports termination exactly when it has returned Ready and holds no registration. */
  lemma TerminatedIffReady(s: State, f: nat)
    requires Inv(s) && f in s.w.recvs
    ensures OfRecv(f) in s.w.ids
    ensures Terminated(s.w, Drained(s), OfRecv(f)) <==> ReadyOf(s.h.ready, f) == 1 && s.w.ids[OfRecv(f)].None?
  {
    hide Core;
    OwnersExist(s);
    ReadyBounded(s, f);
  }

  /** At every moment at which user code runs, a send has failed only if the channel is closed to sends. */
  lemma FailedMeansClosed(s: State, f: nat)
    requires Inv(s) && f in s.h.sent && s.h.sent[f].outcome.Some? && s.h.sent[f].outcome.value.Failed?
    ensures s.closed || s.receivers == 0
  {
    hide QueueOk, WorldOk, HoldersOk, ListOk, WakesOk, EndedOk, SendsOk, SendIdsOk, FatesOk, TakersOk, RecvsOk,
         TerminatedOk, WaitNamesOk, RecvWaitsOk, SendWaitsOk, WokenOk;
  }

  /** Two sends never share a place in the channel. */
  lemma SendsShareNoPlace(s: State, f: nat, g: nat)
    requires Inv(s) && f in s.h.sent && g in s.h.sent && f != g
    ensures s.h.sent[f].at.None? || s.h.sent[f].at != s.h.sent[g].at
  {
    hide QueueOk, WorldOk, HoldersOk, ListOk, WakesOk, RecvsOk, TerminatedOk, WaitNamesOk, RecvWaitsOk, SendWaitsOk,
         WokenOk;
  }

  // ---- Terminal channels -----------------------------------------------------------------------

  /** At every moment at which user code runs, a disconnected channel keeps no receiver's waker. */
  lemma TerminalKeepsNoWaker(s: State)
    requires Inv(s)
    ensures Disconnected(s) ==> s.rw == []
    ensures s.receivers == 0 || (s.closed && !s.k.due) ==> s.sw == []
  {
    hide QueueOk, WorldOk, HoldersOk, ListOk, WakesOk, SendsOk, RecvsOk, TerminatedOk, WaitNamesOk, RecvWaitsOk,
         SendWaitsOk, WokenOk;
  }

  // ---- Whole runs ------------------------------------------------------------------------------

  lemma {:induction false} RunOrdered(cap: Option<nat>, seen: seq<State>, i: nat, j: nat)
    requires IsRun(cap, seen) && i <= j < |seen|
    ensures After(seen[i], seen[j])
    decreases j - i
  {
    hide Core, Rel;
    if i == j {
      NothingRan(seen[i]);
    } else {
      RunOrdered(cap, seen, i, j - 1);
      AfterTransitive(seen[i], seen[j - 1], seen[j]);
    }
  }

  /** The capacity never changes, and items only ever join the end of what was accepted and leave from its front. */
  lemma RunIsFifo(cap: Option<nat>, seen: seq<State>, i: nat, j: nat)
    requires IsRun(cap, seen) && i <= j < |seen|
    ensures seen[j].cap == cap
    ensures seen[i].accepted <= seen[j].accepted && seen[i].out <= seen[j].out <= seen[j].accepted
    ensures cap.Some? ==> |seen[j].accepted| - |seen[j].out| <= cap.value + 1
  {
    hide Core, Rel;
    RunOrdered(cap, seen, 0, j);
    RunOrdered(cap, seen, i, j);
    Histories(seen[0], seen[j]);
    Histories(seen[i], seen[j]);
    OutIsPrefix(seen[j]);
    if cap.Some? {
      ContentsBounded(seen[j]);
    }
  }

  lemma Histories(a: State, b: State)
    requires After(a, b)
    ensures a.cap == b.cap && a.accepted <= b.accepted && a.out <= b.out
    ensures Disconnected(a) || a.receivers == 0 ==> b.accepted == a.accepted
    ensures a.receivers == 0 ==> b.receivers == 0
    ensures a.closed ==> b.closed
    ensures a.h.terminated <= b.h.terminated && (a.h.disconnected ==> b.h.disconnected)
    ensures a.h.takers <= b.h.takers
  {
    hide Core, AllKept, LogsGrow, Extends, GoneStays, Traced, HeldBefore, Undisturbed, Paid, SendersStay, FuturesStay;
  }

  lemma OutIsPrefix(s: State)
    requires Core(s)
    ensures s.out <= s.accepted
  {
    hide WorldOk, HoldersOk, ListOk, WakesOk, SendsOk, RecvsOk, TerminatedOk, WaitNamesOk, RecvWaitsOk, SendWaitsOk,
         WokenOk;
  }

  /** Nothing is enqueued after a close, or after the last receiver or the last sender is gone. */
  lemma ClosureIsAbsorbing(cap: Option<nat>, seen: seq<State>, i: nat, j: nat)
    requires IsRun(cap, seen) && i <= j < |seen|
    requires seen[i].closed || seen[i].receivers == 0 || seen[i].senders == 0
    ensures seen[j].accepted == seen[i].accepted
    ensures seen[j].h.closes <= 1 && (seen[i].closed ==> seen[j].closed && seen[i].h.closes == seen[j].h.closes)
  {
    hide Core, Rel;
    RunOrdered(cap, seen, i, j);
    Histories(seen[i], seen[j]);
    ReportedDrained(seen[i]);
    ReportedDrained(seen[j]);
  }

  /** Once a receive has reported disconnection, the channel stays disconnected and empty. */
  lemma DisconnectIsForever(cap: Option<nat>, seen: seq<State>, i: nat, j: nat)
    requires IsRun(cap, seen) && i <= j < |seen| && seen[i].h.disconnected
    ensures Drained(seen[j]) && seen[j].out == seen[j].accepted == seen[i].accepted
  {
    hide Core, Rel;
    RunOrdered(cap, seen, i, j);
    Histories(seen[i], seen[j]);
    ReportedDrained(seen[i]);
    ReportedDrained(seen[j]);
    EmptyIsOut(seen[j]);
  }

  /** Once the last receiver is gone, nothing is left in the channel or in its lists, ever again. */
  lemma NothingOutlivesReceivers(cap: Option<nat>, seen: seq<State>, i: nat, j: nat)
    requires IsRun(cap, seen) && i <= j < |seen| && seen[i].receivers == 0
    ensures Empty(seen[j]) && seen[j].rw == [] && seen[j].sw == []
    ensures seen[j].out == seen[j].accepted == seen[i].accepted
  {
    hide Core, Rel;
    RunOrdered(cap, seen, i, j);
    Histories(seen[i], seen[j]);
    NoReceiversWait(seen[j]);
    NoSendersWait(seen[j]);
    CleanedUp(seen[j]);
    EmptyIsOut(seen[j]);
  }

  lemma CleanedUp(s: State)
    requires Quiescent(s) && s.receivers == 0
    ensures Empty(s)
  {
    hide QueueOk, WorldOk, HoldersOk, ListOk, WakesOk, SendsOk, RecvsOk, TerminatedOk, WaitNamesOk, RecvWaitsOk,
         SendWaitsOk, WokenOk;
  }

  /** Fusion: what has once been seen terminated reports so for as long as it lives, and waits for nothing. */
  lemma TerminationIsForever(cap: Option<nat>, seen: seq<State>, i: nat, j: nat, o: Owner)
    requires IsRun(cap, seen) && i <= j < |seen| && o in seen[i].h.terminated && o in seen[j].w.ids
    ensures Terminated(seen[j].w, Drained(seen[j]), o) && seen[j].w.ids[o].None?
    ensures WaitOf(seen[j].h.wait, o) != Parked
    ensures forall e <- seen[j].rw + seen[j].sw :: e.waker != o
  {
    hide Core, Rel;
    RunOrdered(cap, seen, i, j);
    Histories(seen[i], seen[j]);
    TerminatedStays(seen[j], o);
    DecidedSends(seen[j]);
    NoRegistrationLeft(seen[j], o);
    if WaitOf(seen[j].h.wait, o) == Parked {
      ParkedHasId(seen[j], o);
    }
  }

  /** A future or receiver that has been dropped never comes back, and leaves no registration behind. */
  lemma DroppedForGood(cap: Option<nat>, seen: seq<State>, i: nat, j: nat, o: Owner)
    requires IsRun(cap, seen) && i <= j < |seen| && o !in seen[i].w.ids && NameOf(o) < seen[i].w.nextName
    ensures o !in seen[j].w.ids
    ensures forall e <- seen[j].rw + seen[j].sw :: e.waker != o
  {
    hide Core, Rel;
    RunOrdered(cap, seen, i, j);
    StaysDropped(seen[i].b.busy, seen[i], seen[j], o);
    NoRegistrationLeft(seen[j], o);
  }

  lemma ParkedHasId(s: State, o: Owner)
    requires Inv(s) && o in s.w.ids && WaitOf(s.h.wait, o) == Parked
    ensures s.w.ids[o].Some?
  {
    hide QueueOk, WorldOk, HoldersOk, ListOk, WakesOk, SendsOk, RecvsOk, TerminatedOk, WaitNamesOk;
  }

  /** Over a run a `Recv` returns Ready at most once: the count never falls, and done stays done. */
  lemma ReadyAtMostOnce(cap: Option<nat>, seen: seq<State>, i: nat, j: nat, f: nat)
    requires IsRun(cap, seen) && i <= j < |seen|
    ensures ReadyOf(seen[i].h.ready, f) <= ReadyOf(seen[j].h.ready, f) <= 1
    ensures f in seen[j].w.recvs ==> (seen[j].w.recvs[f].done <==> ReadyOf(seen[j].h.ready, f) == 1)
    ensures f in seen[i].w.recvs && f in seen[j].w.recvs && seen[i].w.recvs[f].done ==> seen[j].w.recvs[f].done
  {
    hide Core, Rel;
    RunOrdered(cap, seen, i, j);
    ReadyGrows(seen[i].b.busy, seen[i], seen[j], f);
    ReadyBounded(seen[i], f);
    ReadyBounded(seen[j], f);
  }

  lemma ReadyGrows(busy: set<Owner>, a: State, b: State, f: nat)
    requires Rel(busy, a, b)
    ensures ReadyOf(a.h.ready, f) <= ReadyOf(b.h.ready, f)
  {
    hide AllKept, Extends, GoneStays, Traced, HeldBefore, Undisturbed, Paid, SendersStay, FuturesStay;
  }

  /**
  Over a run a send has one outcome: once decided it stays decided the same way, at most one answer
  is ever given, no answer is ever taken back, and the place of its item never changes.
   */
  lemma AnsweredAtMostOnce(cap: Option<nat>, seen: seq<State>, i: nat, j: nat, f: nat)
    requires IsRun(cap, seen) && i <= j < |seen| && f in seen[i].h.sent
    ensures f in seen[j].h.sent
    ensures var g, g' := seen[i].h.sent[f], seen[j].h.sent[f];
            && g'.orig == g.orig
            && g.answers <= g'.answers && |g'.answers| <= 1
            && (g.outcome.Some? ==> g'.outcome == g.outcome && g'.at == g.at)
            && (g.dropped ==> g'.dropped)
    ensures f in seen[i].w.sends && f in seen[j].w.sends && seen[i].w.sends[f].done ==> seen[j].w.sends[f].done
  {
    hide Core, Rel;
    RunOrdered(cap, seen, i, j);
    LogStays(seen[i].b.busy, seen[i], seen[j], f);
    SendHasOneHolder(seen[j], f);
    if f in seen[i].w.sends && f in seen[j].w.sends {
      SendLogged(seen[i], f);
      SendLogged(seen[j], f);
    }
  }

  /**
  No lost wake, over a run: a receive that was parked, and that user code has not asked to poll or
  drop since, is still there and still holds its registration; its waker has been woken, or it is
  registered on a channel that is empty and connected.
   */
  lemma ReceiveWaitsUntilWoken(cap: Option<nat>, seen: seq<State>, i: nat, j: nat, o: Owner)
    requires IsRun(cap, seen) && i <= j < |seen| && o in seen[i].w.ids && !o.OfSend?
    requires WaitOf(seen[i].h.wait, o) == Parked && seen[j].asks[Turn(o)] == seen[i].asks[Turn(o)]
    ensures o in seen[j].w.ids && seen[i].w.ids[o].Some? && seen[j].w.ids[o] == seen[i].w.ids[o]
    ensures var e := Entry(seen[i].w.ids[o].value, o);
            e in seen[j].h.woken ||
            (e in seen[j].rw && seen[j].accepted == seen[j].out && seen[j].senders > 0 && !seen[j].closed)
  {
    hide Core, Rel;
    WaitsOn(cap, seen, i, j, o);
    if WaitOf(seen[j].h.wait, o) == Parked {
      NoLostReceive(seen[j], o);
    } else {
      WokenEntry(seen[j], o);
    }
  }

  /** The same for a send: its waker has been woken, or it is registered on a full and open channel. */
  lemma SendWaitsUntilWoken(cap: Option<nat>, seen: seq<State>, i: nat, j: nat, o: Owner)
    requires IsRun(cap, seen) && i <= j < |seen| && o in seen[i].w.ids && o.OfSend?
    requires WaitOf(seen[i].h.wait, o) == Parked && seen[j].asks[Turn(o)] == seen[i].asks[Turn(o)]
    ensures o in seen[j].w.ids && seen[i].w.ids[o].Some? && seen[j].w.ids[o] == seen[i].w.ids[o]
    ensures var e := Entry(seen[i].w.ids[o].value, o);
            e in seen[j].h.woken ||
            (e in seen[j].sw && Full(seen[j]) && seen[j].receivers > 0 && !seen[j].closed)
  {
    hide Core, Rel;
    WaitsOn(cap, seen, i, j, o);
    if WaitOf(seen[j].h.wait, o) == Parked {
      NoLostSend(seen[j], o);
    } else {
      WokenEntry(seen[j], o);
    }
  }

  lemma WaitsOn(cap: Option<nat>, seen: seq<State>, i: nat, j: nat, o: Owner)
    requires IsRun(cap, seen) && i <= j < |seen| && o in seen[i].w.ids
    requires WaitOf(seen[i].h.wait, o) == Parked && seen[j].asks[Turn(o)] == seen[i].asks[Turn(o)]
    ensures o in seen[j].w.ids && seen[i].w.ids[o].Some? && seen[j].w.ids[o] == seen[i].w.ids[o]
    ensures WaitOf(seen[j].h.wait, o) == Parked || WaitOf(seen[j].h.wait, o) == Woken
  {
    hide Core, Rel;
    RunOrdered(cap, seen, i, j);
    ParkedHasId(seen[i], o);
    LeftAlone(seen[i].b.busy, seen[i], seen[j], o);
  }

  /**
  Over a run: a sender is there for as long as user code does not ask to drop it, one that is gone
  never comes back, and the channel closes only if user code asks for it.
   */
  lemma SendersAndClosure(cap: Option<nat>, seen: seq<State>, i: nat, j: nat, tx: nat)
    requires IsRun(cap, seen) && i <= j < |seen|
    ensures tx in seen[i].w.txs && seen[j].asks[Leave(tx)] == seen[i].asks[Leave(tx)] ==> tx in seen[j].w.txs
    ensures tx !in seen[i].w.txs && tx < seen[i].w.nextName ==> tx !in seen[j].w.txs
    ensures seen[j].closed && seen[j].asks[Shut] == seen[i].asks[Shut] ==> seen[i].closed
    ensures seen[j].senders == |seen[j].w.txs|
  {
    hide Core, Rel;
    RunOrdered(cap, seen, i, j);
    SendersLeft(seen[i].b.busy, seen[i], seen[j], tx);
    SendersCounted(seen[j]);
  }

  lemma SendersLeft(busy: set<Owner>, a: State, b: State, tx: nat)
    requires Rel(busy, a, b)
    ensures tx in a.w.txs && b.asks[Leave(tx)] == a.asks[Leave(tx)] ==> tx in b.w.txs
    ensures tx !in a.w.txs && tx < a.w.nextName ==> tx !in b.w.txs
    ensures b.closed && b.asks[Shut] == a.asks[Shut] ==> a.closed
  {
    hide AllKept, LogsGrow, Extends, GoneStays, Traced, HeldBefore, Undisturbed, Paid, FuturesStay;
  }

  lemma SendersCounted(s: State)
    requires Core(s)
    ensures s.senders == |s.w.txs| && s.receivers == |s.w.rxs|
  {
    hide QueueOk, WorldOk, HoldersOk, ListOk, WakesOk, EndedOk, SendsOk, SendIdsOk, FatesOk, TakersOk, VerdictsOk,
         RecvsOk, TerminatedOk, WaitNamesOk, RecvWaitsOk, SendWaitsOk, WokenOk;
  }

  /** Over a run: a future that user code does not ask to poll or drop is as it was, and has returned nothing more. */
  lemma FuturesLeftAlone(cap: Option<nat>, seen: seq<State>, i: nat, j: nat, f: nat)
    requires IsRun(cap, seen) && i <= j < |seen|
    ensures f in seen[i].w.recvs && seen[j].asks[Turn(OfRecv(f))] == seen[i].asks[Turn(OfRecv(f))] ==>
              && f in seen[j].w.recvs && seen[j].w.recvs[f] == seen[i].w.recvs[f]
              && ReadyOf(seen[j].h.ready, f) == ReadyOf(seen[i].h.ready, f)
    ensures f in seen[i].w.sends && seen[j].asks[Turn(OfSend(f))] == seen[i].asks[Turn(OfSend(f))] ==>
              && f in seen[j].w.sends && seen[j].w.sends[f] == seen[i].w.sends[f]
              && f in seen[i].h.sent && f in seen[j].h.sent && seen[j].h.sent[f] == seen[i].h.sent[f]
  {
    hide Core, Rel;
    RunOrdered(cap, seen, i, j);
    FuturesLeft(seen[i].b.busy, seen[i], seen[j], f);
    if f in seen[i].w.sends {
      SendLogged(seen[i], f);
    }
  }

  lemma FuturesLeft(busy: set<Owner>, a: State, b: State, f: nat)
    requires Rel(busy, a, b) && a.b.busy == {}
    ensures f in a.w.recvs && b.asks[Turn(OfRecv(f))] == a.asks[Turn(OfRecv(f))] ==>
              f in b.w.recvs && b.w.recvs[f] == a.w.recvs[f] && ReadyOf(b.h.ready, f) == ReadyOf(a.h.ready, f)
    ensures f in a.w.sends && f in a.h.sent && b.asks[Turn(OfSend(f))] == a.asks[Turn(OfSend(f))] ==>
              f in b.w.sends && b.w.sends[f] == a.w.sends[f] && f in b.h.sent && b.h.sent[f] == a.h.sent[f]
  {
    hide AllKept, LogsGrow, Extends, GoneStays, Traced, HeldBefore, SendersStay;
    forall o ensures b.asks[Turn(o)] == a.asks[Turn(o)] ==> TurnsOf(b.h.turns, o) == TurnsOf(a.h.turns, o) {
      assert TurnsOf(b.h.turns, o) + b.asks[Turn(o)] <= TurnsOf(a.h.turns, o) + a.asks[Turn(o)];
    }
  }

  /** Nobody is polled or dropped, loses a registration or forgets a wake, but by what user code asks for. */
  lemma LeftAlone(busy: set<Owner>, a: State, b: State, o: Owner)
    requires Rel(busy, a, b) && o in a.w.ids && o !in a.b.busy && b.asks[Turn(o)] == a.asks[Turn(o)]
    ensures o in b.w.ids && b.w.ids[o] == a.w.ids[o]
    ensures WaitOf(b.h.wait, o) == WaitOf(a.h.wait, o) || (WaitOf(b.h.wait, o) == Woken && a.w.ids[o].Some?)
  {
    hide AllKept, LogsGrow, Extends, GoneStays, Traced, HeldBefore;
    assert TurnsOf(b.h.turns, o) + b.asks[Turn(o)] <= TurnsOf(a.h.turns, o) + a.asks[Turn(o)];
  }

  /** Over a run, which call took an item is never revised. */
  lemma DeliveriesStand(cap: Option<nat>, seen: seq<State>, i: nat, j: nat)
    requires IsRun(cap, seen) && i <= j < |seen|
    ensures seen[i].h.takers <= seen[j].h.takers && |seen[j].h.takers| == |seen[j].out|
  {
    hide Core, Rel;
    RunOrdered(cap, seen, i, j);
    Histories(seen[i], seen[j]);
    TakersCount(seen[j]);
  }

  /** Over a run, a registered waker stays registered until it is woken or its owner gives it up. */
  lemma NoWakerVanishes(cap: Option<nat>, seen: seq<State>, i: nat, j: nat, e: Entry)
    requires IsRun(cap, seen) && i <= j < |seen| && (e in seen[i].rw || e in seen[i].sw)
    ensures e in seen[j].rw || e in seen[j].sw || e in seen[j].h.woken || Abandoned(seen[j], e)
  {
    hide Core, Rel;
    RunOrdered(cap, seen, i, j);
    EntryTraced(seen[i].b.busy, seen[i], seen[j], e);
  }

  lemma EntryTraced(busy: set<Owner>, a: State, b: State, e: Entry)
    requires Rel(busy, a, b) && (e in a.rw || e in a.sw)
    ensures e in b.rw || e in b.sw || e in b.k.pend || e in b.h.woken || Abandoned(b, e)
  {
    hide AllKept, LogsGrow, Extends, GoneStays, HeldBefore, Undisturbed, Paid, SendersStay, FuturesStay, GivenUp;
  }
}
