/**
The atomic steps of the `mpmc` channel: what happens between two moments at which user code may
run. Each step is a function on states, with a lemma that it re-establishes the invariant and
changes only what the calls below it on the stack allow to change.
 */
module MpmcSteps {
  import opened Common
  import opened MpmcState

  // ---- Waker lists -----------------------------------------------------------------------------

  function Elems(list: seq<Entry>): set<Entry> {
    set e | e in list
  }

  /** The index of the first entry with this id. */
  function Position(list: seq<Entry>, id: nat): (r: Option<nat>)
    ensures r.Some? ==> r.value < |list| && list[r.value].id == id
    ensures r.None? ==> forall e <- list :: e.id != id
  {
    if list == [] then None
    else if list[0].id == id then Some(0)
    else
      match Position(list[1..], id)
      case None => None
      case Some(i) => Some(i + 1)
  }

  /** The list that remains after the removal of the entry with this id, if there is one. */
  function RemoveId(list: seq<Entry>, id: nat): seq<Entry> {
    match Position(list, id)
    case None => list
    case Some(i) => SwapRemove(list, i)
  }

  /** When `x` is the only entry with its id, exactly `x` is removed. */
  lemma RemoveIdElems(list: seq<Entry>, x: Entry)
    requires NoDup(list)
    requires forall e <- list :: e.id == x.id ==> e == x
    ensures NoDup(RemoveId(list, x.id))
    ensures forall e :: e in RemoveId(list, x.id) <==> e in list && e != x
    ensures x !in list ==> RemoveId(list, x.id) == list
  {
    match Position(list, x.id)
    case None =>
    case Some(i) => SwapRemoveElems(list, i);
  }

  // ---- Items -----------------------------------------------------------------------------------

  function Push(s: State, x: Payload): State {
    s.(q := s.q + [x], accepted := s.accepted + [x])
  }

  function TakeRecvs(s: State): State {
    s.(rw := [], k := s.k.(pend := s.k.pend + Elems(s.rw)))
  }

  function TakeSends(s: State): State {
    s.(sw := [], k := s.k.(pend := s.k.pend + Elems(s.sw)))
  }

  /** The receive call that takes an item takes no other; nobody takes an item that is dropped. */
  function Taken(s: State, c: Option<nat>): State {
    s.(h := s.h.(takers := s.h.takers + [c]),
       k := if c.Some? then s.k.(taking := s.k.taking - {c.value}) else s.k)
  }

  function PopOut(s: State, c: Option<nat>): State
    requires s.q != []
  {
    Taken(s.(q := s.q[1..], out := s.out + [s.q[0]]), c)
  }

  function PopToSlot(s: State): State
    requires s.q != []
  {
    s.(q := s.q[1..], slot := Some(s.q[0]))
  }

  function TakeSlot(s: State, c: Option<nat>): State
    requires s.slot.Some?
  {
    Taken(s.(slot := None, out := s.out + [s.slot.value]), c)
  }

  /** A receive call begins, and gets a number of its own. */
  function OpenCall(s: State): State {
    s.(h := s.h.(calls := s.h.calls + 1), k := s.k.(taking := s.k.taking + {s.h.calls}))
  }

  /** The call ends, or takes an item. */
  function CloseCall(s: State, c: nat): State {
    s.(k := s.k.(taking := s.k.taking - {c}))
  }

  /** A change to the parts of the history that owners do not see. */
  lemma KeptSame(s: State, h: History)
    requires WorldOk(s.w, s.b) && SendsOk(s.w.sends, s.h.sent, s.accepted, s.w.nextName)
    requires h.wait == s.h.wait && h.terminated == s.h.terminated && h.ready == s.h.ready && h.sent == s.h.sent
    ensures AllKept(s.b.busy, s.w, s.h, s.w, h)
  {
    KeptReflexive(s);
    hide WorldOk, SendsOk;
  }

  /** `Rel` without the promise to leave the items of a receiver-less channel alone. */
  ghost predicate Passed(a: State, b: State) {
    Mono(a, b) && AllKept(a.b.busy, a.w, a.h, b.w, b.h)
  }

  // The growing parts of `Mono`, and the takers, under each kind of change.

  lemma TakesTraced(s: State)
    ensures Traced(s.rw, s.sw, s.k.pend, [], s.sw, s.k.pend + Elems(s.rw), s.h.woken, s.w.ids, s.k.guards,
                   s.k.issued, s.nextR, s.nextS)
    ensures Traced(s.rw, s.sw, s.k.pend, s.rw, [], s.k.pend + Elems(s.sw), s.h.woken, s.w.ids, s.k.guards,
                   s.k.issued, s.nextR, s.nextS)
  {
  }

  lemma TakenTakers(s: State, c: Option<nat>)
    requires TakersOk(s.h.takers, |s.out|, s.h.calls, s.k.taking, s.receivers > 0)
    requires if c.Some? then c.value in s.k.taking else s.receivers == 0
    ensures TakersOk(s.h.takers + [c], |s.out| + 1, s.h.calls, Taken(s, c).k.taking, s.receivers > 0)
  {
  }

  lemma OpenCallKeeps(s: State)
    requires Core(s)
    ensures Core(OpenCall(s)) && Rel(s.b.busy, s, OpenCall(s)) && s.h.calls !in s.k.taking
    ensures Some(s.h.calls) !in s.h.takers
  {
    hide QueueOk, WorldOk, HoldersOk, ListOk, WakesOk, EndedOk, SendsOk, SendIdsOk, FatesOk, RecvsOk, TerminatedOk,
         WaitNamesOk, RecvWaitsOk, SendWaitsOk, WokenOk, AllKept, LogsGrow, Extends, GoneStays, Traced, HeldBefore,
         Undisturbed, Paid, SendersStay, FuturesStay;
    Same(s);
    KeptSame(s, OpenCall(s).h);
  }

  lemma CloseCallKeeps(s: State, c: nat)
    requires Core(s)
    ensures Core(CloseCall(s, c)) && Rel(s.b.busy, s, CloseCall(s, c))
    ensures c in s.k.taking ==> Some(c) !in s.h.takers
  {
    hide QueueOk, WorldOk, HoldersOk, ListOk, WakesOk, EndedOk, SendsOk, SendIdsOk, FatesOk, RecvsOk, TerminatedOk,
         WaitNamesOk, RecvWaitsOk, SendWaitsOk, WokenOk, AllKept, LogsGrow, Extends, GoneStays, Traced, HeldBefore,
         Undisturbed, Paid, SendersStay, FuturesStay;
    Same(s);
    KeptSame(s, CloseCall(s, c).h);
  }

  /** User code gives up some of what it might have asked for. */
  lemma ForfeitKeeps(s: State, asks: multiset<Ask>)
    requires Core(s) && asks <= s.asks
    ensures Core(s.(asks := asks)) && Rel(s.b.busy, s, s.(asks := asks))
  {
    hide QueueOk, WorldOk, HoldersOk, ListOk, WakesOk, EndedOk, SendsOk, SendIdsOk, FatesOk, TakersOk, VerdictsOk,
         RecvsOk, TerminatedOk, WaitNamesOk, RecvWaitsOk, SendWaitsOk, WokenOk, AllKept, LogsGrow, Extends, GoneStays,
         Traced, HeldBefore, Undisturbed;
    Same(s);
    KeptReflexive(s);
  }

  /** An accepted item wakes every parked receiver. */
  lemma PushKeeps(s: State, x: Payload)
    requires Core(s) && !Disconnected(s) && s.receivers > 0 && !Full(s)
    ensures Core(TakeRecvs(Push(s, x))) && Rel(s.b.busy, s, TakeRecvs(Push(s, x)))
  {
    hide WorldOk, RecvsOk, WaitNamesOk, AllKept, TerminatedOk, EndedOk, SendIdsOk, FatesOk, TakersOk, VerdictsOk,
         LogsGrow, Extends, GoneStays, Traced, HeldBefore, Undisturbed, Paid, SendersStay, FuturesStay;
    Same(s);
    TakesTraced(s);
    KeptReflexive(s);
  }

  lemma PopOutRel(s: State, c: Option<nat>)
    requires Core(s) && s.slot.None? && s.q != []
    ensures Passed(s, PopOut(s, c)) && (s.receivers > 0 ==> Rel(s.b.busy, s, PopOut(s, c)))
  {
    hide QueueOk, WorldOk, HoldersOk, ListOk, WakesOk, EndedOk, SendsOk, SendIdsOk, FatesOk, TakersOk, VerdictsOk,
         RecvsOk, TerminatedOk, WaitNamesOk, RecvWaitsOk, SendWaitsOk, WokenOk, AllKept, LogsGrow, Extends, GoneStays,
         Traced, HeldBefore, Undisturbed, Paid, SendersStay, FuturesStay;
    Same(s);
    KeptSame(s, PopOut(s, c).h);
  }

  lemma PopOutKeeps(s: State, c: Option<nat>)
    requires Core(s) && s.slot.None? && s.q != [] && s.sw == []
    requires if c.Some? then c.value in s.k.taking else s.receivers == 0
    ensures Core(PopOut(s, c)) && Passed(s, PopOut(s, c))
    ensures s.receivers > 0 ==> Rel(s.b.busy, s, PopOut(s, c))
  {
    hide WorldOk, HoldersOk, RecvsOk, WaitNamesOk, AllKept, ListOk, WakesOk, SendsOk, EndedOk, SendIdsOk, FatesOk,
         TakersOk, VerdictsOk, LogsGrow, Extends, GoneStays, Traced, HeldBefore, Undisturbed, Paid, SendersStay,
         FuturesStay;
    PopOutRel(s, c);
    hide Rel, Passed;
    TakenTakers(s, c);
  }

  /** A freed place wakes every parked sender. */
  lemma PopToSlotKeeps(s: State)
    requires Core(s) && s.slot.None? && s.q != [] && s.receivers > 0
    ensures Core(TakeSends(PopToSlot(s))) && Rel(s.b.busy, s, TakeSends(PopToSlot(s)))
  {
    hide WorldOk, RecvsOk, WaitNamesOk, AllKept, SendsOk, EndedOk, SendIdsOk, FatesOk, TakersOk, VerdictsOk, LogsGrow,
         Extends, GoneStays, Traced, HeldBefore, Undisturbed, Paid, SendersStay, FuturesStay;
    Same(s);
    TakesTraced(s);
    KeptReflexive(s);
  }

  lemma TakeSlotRel(s: State, c: Option<nat>)
    requires Core(s) && s.slot.Some?
    ensures Passed(s, TakeSlot(s, c)) && (s.receivers > 0 ==> Rel(s.b.busy, s, TakeSlot(s, c)))
  {
    hide QueueOk, WorldOk, HoldersOk, ListOk, WakesOk, EndedOk, SendsOk, SendIdsOk, FatesOk, TakersOk, VerdictsOk,
         RecvsOk, TerminatedOk, WaitNamesOk, RecvWaitsOk, SendWaitsOk, WokenOk, AllKept, LogsGrow, Extends, GoneStays,
         Traced, HeldBefore, Undisturbed, Paid, SendersStay, FuturesStay;
    Same(s);
    KeptSame(s, TakeSlot(s, c).h);
  }

  lemma TakeSlotKeeps(s: State, c: Option<nat>)
    requires Core(s) && s.slot.Some?
    requires if c.Some? then c.value in s.k.taking else s.receivers == 0
    ensures Core(TakeSlot(s, c)) && Passed(s, TakeSlot(s, c))
    ensures s.receivers > 0 ==> Rel(s.b.busy, s, TakeSlot(s, c))
  {
    hide WorldOk, HoldersOk, RecvsOk, WaitNamesOk, AllKept, ListOk, WakesOk, SendsOk, SendWaitsOk, WokenOk, EndedOk,
         SendIdsOk, FatesOk, TakersOk, VerdictsOk, LogsGrow, Extends, GoneStays, Traced, HeldBefore, Undisturbed,
         Paid, SendersStay, FuturesStay;
    TakeSlotRel(s, c);
    hide Rel, Passed;
    TakenTakers(s, c);
  }

  // ---- Wakes -----------------------------------------------------------------------------------

  /** The waker of a taken entry is woken; its owner notices if this is still its registration. */
  function Wake(s: State, e: Entry): State {
    s.(k := s.k.(pend := s.k.pend - {e}, waking := s.k.waking + {e}),
       h := s.h.(
         woken := s.h.woken + {e},
         wait := if e.waker in s.w.ids && s.w.ids[e.waker] == Some(e.id) then s.h.wait[e.waker := Woken] else s.h.wait))
  }

  lemma WakeWaits(s: State, e: Entry)
    requires RecvWaitsOk(s.w.ids, s.h.wait, s.rw, s.k.pend, Disconnected(s), Empty(s))
    requires SendWaitsOk(s.w.ids, s.h.wait, s.sw, s.k.pend, Stuck(s))
    ensures var t := Wake(s, e);
            && RecvWaitsOk(s.w.ids, t.h.wait, s.rw, t.k.pend, Disconnected(s), Empty(s))
            && SendWaitsOk(s.w.ids, t.h.wait, s.sw, t.k.pend, Stuck(s))
  {
    hide Disconnected, Empty, Stuck;
  }

  lemma WakeKept(s: State, e: Entry)
    requires WorldOk(s.w, s.b) && SendsOk(s.w.sends, s.h.sent, s.accepted, s.w.nextName)
    ensures AllKept(s.b.busy, s.w, s.h, s.w, Wake(s, e).h)
  {
    KeptReflexive(s);
    hide WorldOk, SendsOk;
  }

  lemma WakeTraced(s: State, e: Entry)
    ensures Traced(s.rw, s.sw, s.k.pend, s.rw, s.sw, s.k.pend - {e}, s.h.woken + {e}, s.w.ids, s.k.guards,
                   s.k.issued, s.nextR, s.nextS)
  {
  }

  lemma WakeEnded(s: State, e: Entry)
    requires EndedOk(s.h.ended, s.k.waking, s.h.woken) && e !in s.h.woken
    ensures EndedOk(s.h.ended, s.k.waking + {e}, s.h.woken + {e})
  {
  }

  lemma WakeUndisturbed(s: State, e: Entry)
    ensures Undisturbed(s.w.ids, s.h.wait, s.h.turns, s.b.busy, s.w.ids, Wake(s, e).h.wait, s.h.turns,
                        s.b.busy)
  {
  }

  lemma WakeWoken(s: State, e: Entry)
    requires WokenOk(s.w.ids, s.h.wait, s.h.woken)
    ensures WokenOk(s.w.ids, Wake(s, e).h.wait, s.h.woken + {e})
  {
  }

  lemma WakeRel(s: State, e: Entry)
    requires WorldOk(s.w, s.b) && SendsOk(s.w.sends, s.h.sent, s.accepted, s.w.nextName)
    ensures Rel(s.b.busy, s, Wake(s, e))
  {
    hide WorldOk, SendsOk, AllKept, LogsGrow, Extends, GoneStays, Traced, HeldBefore, Undisturbed, Paid, SendersStay,
         FuturesStay;
    Same(s);
    WakeTraced(s, e);
    WakeUndisturbed(s, e);
    WakeKept(s, e);
  }

  lemma WakeKeeps(s: State, e: Entry)
    requires Core(s) && e in s.k.pend
    ensures Core(Wake(s, e)) && Rel(s.b.busy, s, Wake(s, e))
  {
    hide QueueOk, HoldersOk, ListOk, SendsOk, RecvsOk, TerminatedOk, RecvWaitsOk, SendWaitsOk, WokenOk, AllKept,
         EndedOk, SendIdsOk, FatesOk, TakersOk, VerdictsOk, LogsGrow, Extends, GoneStays, Traced, HeldBefore,
         Undisturbed, Paid, SendersStay, FuturesStay;
    WakeRel(s, e);
    hide Rel;
    WakeEnded(s, e);
    WakeWoken(s, e);
    WakeWaits(s, e);
  }

  /** The wake is over. */
  function EndWake(s: State, e: Entry, outcome: Option<nat>): State {
    s.(k := s.k.(waking := s.k.waking - {e}), h := s.h.(ended := s.h.ended[e := outcome]))
  }

  lemma EndWakeKeeps(s: State, e: Entry, outcome: Option<nat>)
    requires Core(s) && e in s.k.waking
    ensures Core(EndWake(s, e, outcome)) && Rel(s.b.busy, s, EndWake(s, e, outcome))
  {
    hide QueueOk, WorldOk, HoldersOk, ListOk, WakesOk, SendsOk, RecvsOk, TerminatedOk, WaitNamesOk, RecvWaitsOk,
         SendWaitsOk, WokenOk, SendIdsOk, FatesOk, TakersOk, VerdictsOk, LogsGrow, GoneStays, Traced, HeldBefore,
         Undisturbed, Paid, SendersStay, FuturesStay;
    Same(s);
    KeptReflexive(s);
  }

  /** Some call in progress borrows a receiver, so one is alive. */
  ghost predicate Receiving(b: Borrows) {
    b.rx != multiset{} || exists o <- b.busy :: !o.OfSend?
  }

  lemma ReceivingAlive(s: State)
    requires Core(s) && Receiving(s.b)
    ensures s.receivers > 0
  {
    if s.b.rx != multiset{} {
      var n :| n in s.b.rx;
      assert n in s.w.rxs;
    } else {
      var o :| o in s.b.busy && !o.OfSend?;
      assert o in s.w.ids;
      match o
      case OfRecv(f) => assert s.w.recvs[f].rx in s.w.rxs;
      case OfStream(r) => assert r in s.w.rxs;
      case OfSend(_) =>
    }
  }

  /** The call in progress may also have changed the owner `o` that it borrows itself. */
  ghost predicate Changed(o: Owner, a: State, b: State) {
    Rel(a.b.busy - {o}, a, b)
  }

  // ---- One owner -------------------------------------------------------------------------------

  function SetId(s: State, o: Owner, id: Option<nat>): State {
    s.(w := s.w.(ids := s.w.ids[o := id]))
  }

  function SetWait(s: State, o: Owner, v: Wait): State {
    s.(h := s.h.(wait := s.h.wait[o := v]))
  }

  /** It is the turn of `o`: it is polled, or dropped, and waits for nothing any more. */
  function Reset(s: State, o: Owner): State {
    s.(h := s.h.(wait := s.h.wait[o := Idle], turns := s.h.turns[o := TurnsOf(s.h.turns, o) + 1]),
       asks := s.asks - multiset{Turn(o)})
  }

  /** A poll of `o`, or its drop, begins. */
  function Begin(s: State, o: Owner): State {
    Reset(s, o).(b := s.b.(busy := s.b.busy + {o}))
  }

  /** The poll of `o` ends with `o` in this position. */
  function End(s: State, o: Owner, v: Wait): State {
    SetWait(s, o, v).(b := s.b.(busy := s.b.busy - {o}))
  }

  /** `o` gives up its registration, if it has one. */
  function Forget(s: State, o: Owner): State
    requires o in s.w.ids
  {
    match s.w.ids[o]
    case None => s
    case Some(id) =>
      if o.OfSend? then SetId(s, o, None).(sw := RemoveId(s.sw, id))
      else SetId(s, o, None).(rw := RemoveId(s.rw, id))
  }

  // Each component of the invariant, under a change to one owner.

  lemma WaitsSet(s: State, o: Owner, v: Wait)
    requires RecvWaitsOk(s.w.ids, s.h.wait, s.rw, s.k.pend, Disconnected(s), Empty(s))
    requires SendWaitsOk(s.w.ids, s.h.wait, s.sw, s.k.pend, Stuck(s))
    requires o in s.w.ids
    requires
      match v
      case Idle => true
      case Woken => true
      case Polling => s.w.ids[o].None?
      case Parked =>
        s.w.ids[o].Some? &&
        if o.OfSend? then Entry(s.w.ids[o].value, o) in s.sw && Stuck(s)
        else Listed(s.rw, s.k.pend, Entry(s.w.ids[o].value, o)) && Empty(s) && !Disconnected(s)
    ensures RecvWaitsOk(s.w.ids, s.h.wait[o := v], s.rw, s.k.pend, Disconnected(s), Empty(s))
    ensures SendWaitsOk(s.w.ids, s.h.wait[o := v], s.sw, s.k.pend, Stuck(s))
  {
    hide Disconnected, Empty, Stuck;
  }

  lemma WaitNamesSet(s: State, o: Owner, v: Wait)
    requires WorldOk(s.w, s.b) && WaitNamesOk(s.h.wait, s.w.nextName) && o in s.w.ids
    ensures WaitNamesOk(s.h.wait[o := v], s.w.nextName)
  {
  }

  /** Owners other than `o` do not notice a change to the id and the wait of `o`. */
  lemma OthersKept(s: State, o: Owner, ids: map<Owner, Option<nat>>, wait: map<Owner, Wait>)
    requires WorldOk(s.w, s.b) && SendsOk(s.w.sends, s.h.sent, s.accepted, s.w.nextName)
    requires forall x <- s.w.ids | x != o :: x in ids && ids[x] == s.w.ids[x]
    requires forall x | x != o :: WaitOf(wait, x) == WaitOf(s.h.wait, x)
    ensures AllKept(s.b.busy - {o}, s.w, s.h, s.w.(ids := ids), s.h.(wait := wait))
  {
    KeptReflexive(s);
    hide WorldOk, SendsOk;
  }

  lemma WorldBusy(w: World, b: Borrows, o: Owner)
    requires WorldOk(w, b)
    ensures o in w.ids ==> WorldOk(w, b.(busy := b.busy + {o}))
    ensures WorldOk(w, b.(busy := b.busy - {o}))
    ensures o in b.busy ==> o in w.ids
  {
  }

  lemma BeginKept(s: State, o: Owner)
    requires WorldOk(s.w, s.b) && SendsOk(s.w.sends, s.h.sent, s.accepted, s.w.nextName) && o !in s.b.busy
    ensures AllKept(s.b.busy, s.w, s.h, s.w, Begin(s, o).h)
  {
    KeptReflexive(s);
    hide WorldOk, SendsOk;
  }

  lemma BeginUndisturbed(s: State, o: Owner)
    ensures var t := Begin(s, o);
            Undisturbed(s.w.ids, s.h.wait, s.h.turns, s.b.busy, s.w.ids, t.h.wait, t.h.turns, t.b.busy)
  {
  }

  /** A change to an owner that a call in progress borrows does not disturb the others. */
  lemma OthersUndisturbed(
    s: State, o: Owner, ids: map<Owner, Option<nat>>, wait: map<Owner, Wait>, busy: set<Owner>)
    requires o in s.b.busy && busy <= s.b.busy
    requires forall x <- s.w.ids | x != o :: x in ids && ids[x] == s.w.ids[x]
    requires forall x | x != o :: WaitOf(wait, x) == WaitOf(s.h.wait, x)
    ensures Undisturbed(s.w.ids, s.h.wait, s.h.turns, s.b.busy, ids, wait, s.h.turns, busy)
  {
  }

  /** Nor does it make them look woken. */
  lemma OthersWoken(s: State, o: Owner, ids: map<Owner, Option<nat>>, wait: map<Owner, Wait>)
    requires WokenOk(s.w.ids, s.h.wait, s.h.woken)
    requires forall x <- ids | x != o :: x in s.w.ids && ids[x] == s.w.ids[x]
    requires forall x | x != o :: WaitOf(wait, x) == WaitOf(s.h.wait, x)
    requires o in ids && WaitOf(wait, o) == Woken && ids[o].Some? ==> Entry(ids[o].value, o) in s.h.woken
    ensures WokenOk(ids, wait, s.h.woken)
  {
  }

  lemma BeginPaid(s: State, o: Owner)
    requires Turn(o) in s.asks
    ensures SendersStay(s.w.txs, s.closed, s.w.nextName, s.asks, s.w.txs, s.closed, Begin(s, o).asks)
    ensures Paid(s.h.turns, s.asks, Begin(s, o).h.turns, Begin(s, o).asks)
  {
  }

  lemma BeginFutures(s: State, o: Owner)
    ensures var t := Begin(s, o);
            FuturesStay(s.w.recvs, s.h.ready, s.w.sends, s.h.sent, s.h.turns, s.b.busy,
                        s.w.recvs, s.h.ready, s.w.sends, s.h.sent, t.h.turns, t.b.busy)
  {
  }

  lemma EndFutures(s: State, o: Owner)
    requires o in s.b.busy
    ensures FuturesStay(s.w.recvs, s.h.ready, s.w.sends, s.h.sent, s.h.turns, s.b.busy,
                        s.w.recvs, s.h.ready, s.w.sends, s.h.sent, s.h.turns, s.b.busy - {o})
  {
  }

  lemma BeginRel(s: State, o: Owner)
    requires WorldOk(s.w, s.b) && SendsOk(s.w.sends, s.h.sent, s.accepted, s.w.nextName) && o !in s.b.busy
    requires Turn(o) in s.asks
    ensures Rel(s.b.busy, s, Begin(s, o))
  {
    hide WorldOk, SendsOk, AllKept, LogsGrow, Extends, GoneStays, Traced, HeldBefore, Undisturbed, Paid, SendersStay,
         FuturesStay;
    Same(s);
    BeginKept(s, o);
    BeginUndisturbed(s, o);
    BeginPaid(s, o);
    BeginFutures(s, o);
  }

  lemma BeginKeeps(s: State, o: Owner)
    requires Core(s) && o in s.w.ids && o !in s.b.busy && Turn(o) in s.asks
    ensures Core(Begin(s, o)) && Rel(s.b.busy, s, Begin(s, o))
  {
    hide QueueOk, WorldOk, HoldersOk, ListOk, WakesOk, SendsOk, RecvsOk, TerminatedOk, WaitNamesOk, RecvWaitsOk,
         SendWaitsOk, WokenOk, AllKept, EndedOk, SendIdsOk, FatesOk, TakersOk, VerdictsOk, LogsGrow, Extends,
         GoneStays, Traced, HeldBefore, Undisturbed, Paid, SendersStay, FuturesStay;
    BeginRel(s, o);
    hide Rel;
    WorldBusy(s.w, s.b, o);
    WaitsSet(s, o, Idle);
    WaitNamesSet(s, o, Idle);
    OthersWoken(s, o, s.w.ids, s.h.wait[o := Idle]);
  }

  /** An owner that is being polled, and holds no registration, is woken through the waker of that poll. */
  lemma WokenKeeps(s: State, o: Owner)
    requires Core(s) && o in s.b.busy && o in s.w.ids && s.w.ids[o].None?
    ensures Core(SetWait(s, o, Woken)) && Changed(o, s, SetWait(s, o, Woken))
  {
    hide QueueOk, WorldOk, HoldersOk, ListOk, WakesOk, SendsOk, RecvsOk, TerminatedOk, WaitNamesOk, RecvWaitsOk,
         SendWaitsOk, WokenOk, AllKept, EndedOk, SendIdsOk, FatesOk, TakersOk, VerdictsOk, LogsGrow, Extends,
         GoneStays, Traced, HeldBefore, Undisturbed, Paid, SendersStay, FuturesStay;
    Same(s);
    WaitsSet(s, o, Woken);
    WaitNamesSet(s, o, Woken);
    OthersKept(s, o, s.w.ids, s.h.wait[o := Woken]);
    OthersUndisturbed(s, o, s.w.ids, s.h.wait[o := Woken], s.b.busy);
    OthersWoken(s, o, s.w.ids, s.h.wait[o := Woken]);
  }

  lemma EndRel(s: State, o: Owner, v: Wait)
    requires WorldOk(s.w, s.b) && SendsOk(s.w.sends, s.h.sent, s.accepted, s.w.nextName) && o in s.b.busy
    ensures Changed(o, s, End(s, o, v))
  {
    hide WorldOk, SendsOk, AllKept, LogsGrow, Extends, GoneStays, Traced, HeldBefore, Undisturbed, Paid, SendersStay,
         FuturesStay;
    Same(s);
    OthersKept(s, o, s.w.ids, s.h.wait[o := v]);
    OthersUndisturbed(s, o, s.w.ids, s.h.wait[o := v], s.b.busy - {o});
    EndFutures(s, o);
  }

  lemma EndKeeps(s: State, o: Owner, v: Wait)
    requires Core(s) && o in s.b.busy
    requires v == Idle ||
             (v == Woken && o in s.w.ids &&
              (s.w.ids[o].Some? ==> Entry(s.w.ids[o].value, o) in s.h.woken)) ||
             (v == Parked && o in s.w.ids && s.w.ids[o].Some? &&
              if o.OfSend? then Entry(s.w.ids[o].value, o) in s.sw && Stuck(s)
              else Listed(s.rw, s.k.pend, Entry(s.w.ids[o].value, o)) && Empty(s) && !Disconnected(s))
    ensures Core(End(s, o, v)) && Changed(o, s, End(s, o, v))
  {
    hide QueueOk, WorldOk, HoldersOk, ListOk, WakesOk, SendsOk, RecvsOk, TerminatedOk, WaitNamesOk, RecvWaitsOk,
         SendWaitsOk, WokenOk, AllKept, EndedOk, SendIdsOk, FatesOk, TakersOk, VerdictsOk, LogsGrow, Extends,
         GoneStays, Traced, HeldBefore, Undisturbed, Paid, SendersStay, FuturesStay;
    EndRel(s, o, v);
    hide Rel;
    WorldBusy(s.w, s.b, o);
    WaitsSet(s, o, v);
    WaitNamesSet(s, o, v);
    OthersWoken(s, o, s.w.ids, s.h.wait[o := v]);
  }

  /** Only the entry of `o` carries the id that `o` holds. */
  lemma OnlyEntry(s: State, o: Owner)
    requires Core(s) && o in s.w.ids && s.w.ids[o].Some?
    ensures var e := Entry(s.w.ids[o].value, o);
            && (!o.OfSend? ==> forall x <- s.rw :: x.id == e.id ==> x == e)
            && (o.OfSend? ==> forall x <- s.sw :: x.id == e.id ==> x == e)
  {
    assert Held(s.w.ids, s.k.guards, s.k.issued, Entry(s.w.ids[o].value, o));
  }

  /** A world in which only the id of `o` has changed. */
  lemma WorldIdSet(w: World, b: Borrows, o: Owner, id: Option<nat>)
    requires WorldOk(w, b) && o in w.ids
    ensures WorldOk(w.(ids := w.ids[o := id]), b)
  {
  }

  lemma TerminatedIdSet(s: State, o: Owner, id: Option<nat>)
    requires TerminatedOk(s.h.terminated, s.w, Drained(s))
    requires id.None? || o !in s.h.terminated || o.OfSend?
    requires o in s.w.ids
    ensures TerminatedOk(s.h.terminated, s.w.(ids := s.w.ids[o := id]), Drained(s))
  {
    hide Drained;
  }

  lemma ForgetHolders(s: State, o: Owner)
    requires HoldersOk(s.w.ids, s.k.guards, s.k.issued, s.nextR, s.nextS)
    ensures HoldersOk(s.w.ids[o := None], s.k.guards, s.k.issued, s.nextR, s.nextS)
  {
    forall e | Held(s.w.ids[o := None], s.k.guards, s.k.issued, e)
      ensures Held(s.w.ids, s.k.guards, s.k.issued, e)
    {
    }
  }

  lemma ForgetList(list: seq<Entry>, list': seq<Entry>, send: bool, s: State, e: Entry)
    requires ListOk(list, send, s.w.ids, s.k.guards, s.k.issued) && NoDup(list')
    requires HoldersOk(s.w.ids, s.k.guards, s.k.issued, s.nextR, s.nextS)
    requires e.waker in s.w.ids && s.w.ids[e.waker] == Some(e.id)
    requires forall x :: x in list' <==> x in list && x != e
    ensures ListOk(list', send, s.w.ids[e.waker := None], s.k.guards, s.k.issued)
  {
    forall x <- list' ensures Held(s.w.ids[e.waker := None], s.k.guards, s.k.issued, x) {
      assert Held(s.w.ids, s.k.guards, s.k.issued, x);
    }
  }

  lemma ForgetWaits(s: State, o: Owner, t: State)
    requires RecvWaitsOk(s.w.ids, s.h.wait, s.rw, s.k.pend, Disconnected(s), Empty(s))
    requires SendWaitsOk(s.w.ids, s.h.wait, s.sw, s.k.pend, Stuck(s))
    requires o in s.w.ids && WaitOf(s.h.wait, o) != Parked
    requires forall x | x in s.rw && x.waker != o :: x in t.rw
    requires forall x | x in s.sw && x.waker != o :: x in t.sw
    ensures RecvWaitsOk(s.w.ids[o := None], s.h.wait, t.rw, s.k.pend, Disconnected(s), Empty(s))
    ensures SendWaitsOk(s.w.ids[o := None], s.h.wait, t.sw, s.k.pend, Stuck(s))
  {
    hide Disconnected, Empty, Stuck;
  }

  /** What the removal of an owner's registration does to the two lists. */
  lemma ForgetLists(s: State, o: Owner)
    requires Core(s) && o in s.w.ids && s.w.ids[o].Some?
    ensures var e, t := Entry(s.w.ids[o].value, o), Forget(s, o);
            && NoDup(t.rw) && (forall x :: x in t.rw <==> x in s.rw && x != e)
            && NoDup(t.sw) && (forall x :: x in t.sw <==> x in s.sw && x != e)
            && (s.rw == [] ==> t.rw == [])
            && (s.sw == [] ==> t.sw == [])
  {
    hide QueueOk, WorldOk, WakesOk, SendsOk, RecvsOk, TerminatedOk, WaitNamesOk, RecvWaitsOk, SendWaitsOk, WokenOk;
    OnlyEntry(s, o);
    RemoveIdElems(if o.OfSend? then s.sw else s.rw, Entry(s.w.ids[o].value, o));
  }

  lemma FewerWakes(s: State, rw: seq<Entry>, sw: seq<Entry>)
    requires WakesOk(s.rw, s.sw, s.k.pend, s.k.issued, s.h.woken, s.nextR, s.nextS)
    requires forall x <- rw :: x in s.rw
    requires forall x <- sw :: x in s.sw
    ensures WakesOk(rw, sw, s.k.pend, s.k.issued, s.h.woken, s.nextR, s.nextS)
  {
  }

  /** Only the id of `o` has changed, or is gone. */
  lemma IdSetGone(s: State, o: Owner, id: Option<nat>)
    requires o in s.w.ids
    ensures GoneStays(s.w.ids, s.w.nextName, s.w.ids[o := id])
  {
  }

  lemma IdSetSends(s: State, o: Owner, id: Option<nat>)
    requires SendIdsOk(s.w.sends, s.w.ids)
    requires id.None? || !o.OfSend? || (o.fut in s.w.sends && !s.w.sends[o.fut].done)
    ensures SendIdsOk(s.w.sends, s.w.ids[o := id])
  {
  }

  /** The entry of `o` is given up, and no other. */
  lemma ForgetTraced(s: State, o: Owner, t: State)
    requires HoldersOk(s.w.ids, s.k.guards, s.k.issued, s.nextR, s.nextS)
    requires o in s.w.ids && s.w.ids[o].Some?
    requires forall x | x in s.rw && x != Entry(s.w.ids[o].value, o) :: x in t.rw
    requires forall x | x in s.sw && x != Entry(s.w.ids[o].value, o) :: x in t.sw
    ensures Traced(s.rw, s.sw, s.k.pend, t.rw, t.sw, s.k.pend, s.h.woken, s.w.ids[o := None], s.k.guards, s.k.issued,
                   s.nextR, s.nextS)
    ensures HeldBefore(s.w.ids, s.k.guards, s.k.issued, s.nextR, s.nextS, s.w.ids[o := None], s.k.guards, s.k.issued)
  {
    var e := Entry(s.w.ids[o].value, o);
    assert Held(s.w.ids, s.k.guards, s.k.issued, e);
    assert GivenUp(s.w.ids[o := None], s.k.guards, s.k.issued, s.nextR, s.nextS, e);
  }

  lemma ForgetRel(s: State, o: Owner)
    requires Core(s) && o in s.w.ids && o in s.b.busy
    ensures Changed(o, s, Forget(s, o))
  {
    hide QueueOk, WorldOk, HoldersOk, ListOk, WakesOk, EndedOk, SendsOk, SendIdsOk, FatesOk, TakersOk, VerdictsOk,
         RecvsOk, TerminatedOk, WaitNamesOk, RecvWaitsOk, SendWaitsOk, WokenOk, AllKept, LogsGrow, Extends, GoneStays,
         Traced, HeldBefore, Undisturbed, Paid, SendersStay, FuturesStay, RemoveId;
    var t := Forget(s, o);
    Same(s);
    OthersKept(s, o, t.w.ids, s.h.wait);
    if s.w.ids[o].Some? {
      ForgetLists(s, o);
      ForgetTraced(s, o, t);
      IdSetGone(s, o, None);
      OthersUndisturbed(s, o, t.w.ids, s.h.wait, s.b.busy);
    }
  }

  lemma ForgetKeeps(s: State, o: Owner)
    requires Core(s) && o in s.w.ids && o in s.b.busy && WaitOf(s.h.wait, o) != Parked
    ensures Core(Forget(s, o)) && Changed(o, s, Forget(s, o))
  {
    hide QueueOk, WorldOk, HoldersOk, ListOk, WakesOk, SendsOk, RecvsOk, TerminatedOk, WaitNamesOk, RecvWaitsOk,
         SendWaitsOk, WokenOk, AllKept, RemoveId, EndedOk, SendIdsOk, FatesOk, TakersOk, VerdictsOk, LogsGrow,
         Extends, GoneStays, Traced, HeldBefore, Undisturbed, Paid, SendersStay, FuturesStay;
    ForgetRel(s, o);
    hide Rel;
    if s.w.ids[o].Some? {
      var e, t := Entry(s.w.ids[o].value, o), Forget(s, o);
      ForgetLists(s, o);
      ForgetList(s.rw, t.rw, false, s, e);
      ForgetList(s.sw, t.sw, true, s, e);
      ForgetHolders(s, o);
      FewerWakes(s, t.rw, t.sw);
      ForgetWaits(s, o, t);
      OthersWoken(s, o, t.w.ids, s.h.wait);
      IdSetSends(s, o, None);
      WorldIdSet(s.w, s.b, o, None);
      TerminatedIdSet(s, o, None);
    }
  }
}
