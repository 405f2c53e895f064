/**
What the calls in progress know: how the steps of a call and the user code it lets run combine
into the promise of the whole call.
 */
module MpmcCalls {
  import opened Common
  import opened MpmcState
  import opened MpmcSteps
  import opened MpmcRecvSteps
  import opened MpmcSendSteps
  import opened MpmcHandleSteps

  /** From `a`, with obligations `k` left, the channel was taken to `b`; every borrowed owner is kept. */
  ghost predicate Ran(a: State, k: Stack, b: State) {
    Inv(b) && b.b == a.b && b.k == k && Rel(a.b.busy, a, b)
  }

  /** User code, or a call that borrows nothing any more, took the channel from `a` to `b`. */
  ghost predicate After(a: State, b: State) {
    Ran(a, a.k, b)
  }

  /** What remains true of `o` while the call that borrows it is in progress. */
  ghost predicate FutKept(o: Owner, a: State, b: State) {
    && o in b.w.ids
    && (o in b.h.terminated ==> o in a.h.terminated)
    && match o
       case OfRecv(f) =>
         && f in a.w.recvs && f in b.w.recvs && b.w.recvs[f] == a.w.recvs[f]
         && ReadyOf(b.h.ready, f) == ReadyOf(a.h.ready, f)
       case OfStream(_) => true
       case OfSend(f) =>
         && f in a.w.sends && f in b.w.sends && b.w.sends[f] == a.w.sends[f]
         && f in a.h.sent && f in b.h.sent && b.h.sent[f] == a.h.sent[f]
  }

  /** A call that borrows `o` has taken the channel from `a` to `b`. */
  ghost predicate During(o: Owner, a: State, b: State) {
    Inv(b) && b.b == a.b && b.k == a.k && o in a.b.busy && Rel(a.b.busy - {o}, a, b)
  }

  /** The call has changed of `o` only its registration so far. */
  ghost predicate Mid(o: Owner, a: State, b: State) {
    During(o, a, b) && FutKept(o, a, b) && WaitOf(b.h.wait, o) != Parked
  }

  /** No item has been accepted, only `taken` has gone out, if it is an item, and no handle has come or gone. */
  ghost predicate Moved(a: State, b: State, taken: Option<Payload>) {
    && b.accepted == a.accepted
    && b.out == (if taken.Some? then a.out + [taken.value] else a.out)
    && b.closed == a.closed && b.w.txs == a.w.txs && b.w.rxs == a.w.rxs
  }

  // ---- General ---------------------------------------------------------------------------------

  lemma RelFewer(busy: set<Owner>, fewer: set<Owner>, a: State, b: State)
    requires Rel(busy, a, b) && fewer <= busy
    ensures Rel(fewer, a, b)
  {
    hide Mono, Kept;
  }

  lemma NothingRan(s: State)
    requires Inv(s)
    ensures After(s, s)
  {
    hide Core, Rel;
    RelReflexive(s);
  }

  lemma AfterTransitive(a: State, b: State, c: State)
    requires After(a, b) && After(b, c)
    ensures After(a, c)
  {
    hide Core, Rel;
    RelTransitive(a.b.busy, a, b, c);
  }

  /** A step that borrows nothing, then a call. */
  lemma StepThenRan(a: State, b: State, k: Stack, c: State)
    requires Rel(a.b.busy, a, b) && b.b == a.b && Ran(b, k, c)
    ensures Ran(a, k, c)
  {
    hide Core, Rel;
    RelTransitive(a.b.busy, a, b, c);
  }

  lemma NotWoken(s: State, e: Entry)
    requires Core(s) && e in s.k.pend
    ensures e !in s.h.woken && e !in s.k.waking
  {
    hide QueueOk, WorldOk, HoldersOk, ListOk, SendsOk, RecvsOk, TerminatedOk, WaitNamesOk, RecvWaitsOk, SendWaitsOk,
         WokenOk;
  }

  lemma WokenStays(busy: set<Owner>, a: State, b: State)
    requires Rel(busy, a, b)
    ensures a.h.woken <= b.h.woken && Extends(a.h.ended, b.h.ended)
  {
    hide AllKept;
  }

  lemma OutGrows(busy: set<Owner>, a: State, b: State)
    requires Rel(busy, a, b)
    ensures |a.out| <= |b.out| && Popped(a) <= Popped(b)
  {
    hide AllKept;
  }

  /** The panic that a wake of several wakers resumes: the one of the first wake that panicked. */
  function FirstPanic(ended: map<Entry, Option<nat>>, list: seq<Entry>): Option<nat> {
    if list == [] then None
    else if list[0] in ended && ended[list[0]].Some? then ended[list[0]]
    else FirstPanic(ended, list[1..])
  }

  lemma {:induction false} FirstPanicConcat(ended: map<Entry, Option<nat>>, xs: seq<Entry>, ys: seq<Entry>)
    ensures FirstPanic(ended, xs + ys) ==
            if FirstPanic(ended, xs).Some? then FirstPanic(ended, xs) else FirstPanic(ended, ys)
  {
    if xs == [] {
      assert xs + ys == ys;
    } else {
      assert (xs + ys)[1..] == xs[1..] + ys;
      FirstPanicConcat(ended, xs[1..], ys);
    }
  }

  lemma {:induction false} FirstPanicStays(m: map<Entry, Option<nat>>, n: map<Entry, Option<nat>>, list: seq<Entry>)
    requires Extends(m, n) && forall e <- list :: e in m
    ensures FirstPanic(n, list) == FirstPanic(m, list)
  {
    if list != [] {
      assert list[0] in list;
      FirstPanicStays(m, n, list[1..]);
    }
  }

  /** Wakes that are over stay as they ended. */
  lemma WakesOver(list: seq<Entry>, a: History, b: History)
    requires a.woken <= b.woken && Extends(a.ended, b.ended) && forall e <- list :: e in a.woken && e in a.ended
    ensures forall e <- list :: e in b.woken && e in b.ended
    ensures FirstPanic(b.ended, list) == FirstPanic(a.ended, list)
  {
    FirstPanicStays(a.ended, b.ended, list);
  }

  /** One more wake is over. */
  lemma FirstPanicNext(m: map<Entry, Option<nat>>, n: map<Entry, Option<nat>>, done: seq<Entry>, e: Entry)
    requires Extends(m, n) && (forall x <- done :: x in m) && e in n
    ensures FirstPanic(n, done + [e]) == if FirstPanic(m, done).Some? then FirstPanic(m, done) else n[e]
  {
    FirstPanicStays(m, n, done);
    FirstPanicConcat(n, done, [e]);
    assert [e][1..] == [];
  }

  /** A list that can be taken: no entry twice, and none of them taken already. */
  ghost predicate Takeable(list: seq<Entry>, pend: set<Entry>) {
    NoDup(list) && forall e <- list :: e !in pend
  }

  lemma CoreTakeable(s: State)
    requires Core(s)
    ensures Takeable(s.rw, s.k.pend) && Takeable(s.sw, s.k.pend)
  {
    hide QueueOk, WorldOk, HoldersOk, SendsOk, RecvsOk, TerminatedOk, WaitNamesOk, RecvWaitsOk, SendWaitsOk, WokenOk;
  }

  // ---- try_take --------------------------------------------------------------------------------

  /** The last item that went out is `x`, and it is the one that the call `c` took. */
  ghost predicate TakenBy(out: seq<Payload>, takers: seq<Option<nat>>, c: nat, x: Payload) {
    |takers| == |out| > 0 && takers[|out| - 1] == Some(c) && out[|out| - 1] == x
  }

  /** What user code may do does not depend on which receive calls are in progress. */
  lemma CallClosed(busy: set<Owner>, a: State, b: State, c: nat)
    requires Rel(busy, a, b)
    ensures Rel(busy, CloseCall(a, c), b)
  {
    hide AllKept, LogsGrow, Extends, GoneStays, Traced, HeldBefore, Undisturbed, Paid, SendersStay, FuturesStay;
  }

  lemma TakersCount(s: State)
    requires Core(s)
    ensures |s.h.takers| == |s.out|
    ensures forall c <- s.k.taking :: Some(c) !in s.h.takers
  {
    hide QueueOk, WorldOk, HoldersOk, ListOk, WakesOk, EndedOk, SendsOk, SendIdsOk, FatesOk, RecvsOk, TerminatedOk,
         WaitNamesOk, RecvWaitsOk, SendWaitsOk, WokenOk;
  }

  lemma TookSlot(s: State, t: State, c: nat)
    requires After(s, t) && Receiving(s.b) && t.slot.Some? && c in t.k.taking
    ensures var u := TakeSlot(t, Some(c));
            After(CloseCall(s, c), u) && TakenBy(u.out, u.h.takers, c, t.slot.value)
  {
    hide Core, Rel, Receiving;
    ReceivingAlive(t);
    TakersCount(t);
    TakeSlotKeeps(t, Some(c));
    RelTransitive(s.b.busy, s, t, TakeSlot(t, Some(c)));
    CallClosed(s.b.busy, s, TakeSlot(t, Some(c)), c);
  }

  lemma TookFront(s: State, t: State, c: nat)
    requires After(s, t) && Receiving(s.b) && t.slot.None? && t.q != [] && t.sw == [] && c in t.k.taking
    ensures var u := PopOut(t, Some(c));
            After(CloseCall(s, c), u) && TakenBy(u.out, u.h.takers, c, t.q[0])
  {
    hide Core, Rel, Receiving;
    ReceivingAlive(t);
    TakersCount(t);
    PopOutKeeps(t, Some(c));
    RelTransitive(s.b.busy, s, t, PopOut(t, Some(c)));
    CallClosed(s.b.busy, s, PopOut(t, Some(c)), c);
  }

  lemma ParkedFront(s: State, t: State)
    requires After(s, t) && Receiving(s.b) && t.slot.None? && t.q != []
    ensures Inv(TakeSends(PopToSlot(t))) && Takeable(t.sw, t.k.pend)
  {
    hide Core, Rel, Receiving;
    ReceivingAlive(t);
    PopToSlotKeeps(t);
    CoreTakeable(t);
  }

  /** A lap of `try_take` that finds its slot drained is paid for by an item handed out meanwhile. */
  lemma LapEnds(s: State, t: State, u: State)
    requires After(s, t) && Receiving(s.b) && t.slot.None? && t.q != []
    requires Ran(TakeSends(PopToSlot(t)), t.k, u)
    ensures After(s, u) && After(t, u) && |u.out| >= |t.out| && (u.slot.None? ==> |u.out| > |t.out|)
  {
    hide Core, Rel, Receiving;
    ReceivingAlive(t);
    PopToSlotKeeps(t);
    RelTransitive(s.b.busy, t, TakeSends(PopToSlot(t)), u);
    RelTransitive(s.b.busy, s, t, u);
    OutGrows(s.b.busy, TakeSends(PopToSlot(t)), u);
  }

  /** Every waker of `taken` was woken between `a` and `b`, and its wake is over. */
  ghost predicate WokenSince(
    taken: seq<Entry>, before: set<Entry>, woken: set<Entry>, ended: map<Entry, Option<nat>>)
  {
    forall e <- taken :: e in woken && e !in before && e in ended
  }

  lemma NoWakes(s: State)
    ensures FirstPanic(s.h.ended, []).None? && WokenSince([], s.h.woken, s.h.woken, s.h.ended)
  {
  }

  /** A lap wakes the senders it found parked; no earlier lap has ended in a panic. */
  lemma LapWakes(s: State, t: State, u: State, taken: seq<Entry>)
    requires After(s, t) && After(t, u) && FirstPanic(t.h.ended, taken).None?
    requires WokenSince(taken, s.h.woken, t.h.woken, t.h.ended)
    requires forall e <- t.sw :: e in u.h.woken && e in u.h.ended
    ensures WokenSince(taken + t.sw, s.h.woken, u.h.woken, u.h.ended)
    ensures FirstPanic(u.h.ended, taken + t.sw) == FirstPanic(u.h.ended, t.sw)
  {
    hide Core, Rel, FirstPanic;
    WokenStays(s.b.busy, s, t);
    WokenStays(t.b.busy, t, u);
    ListedNotWoken(t);
    FirstPanicStays(t.h.ended, u.h.ended, taken);
    FirstPanicConcat(u.h.ended, taken, t.sw);
  }

  lemma ListedNotWoken(s: State)
    requires Core(s)
    ensures forall e <- s.h.woken :: e !in s.rw && e !in s.sw
  {
    hide QueueOk, WorldOk, HoldersOk, ListOk, SendsOk, RecvsOk, TerminatedOk, WaitNamesOk, RecvWaitsOk, SendWaitsOk,
         WokenOk;
  }

  // ---- Polls -----------------------------------------------------------------------------------

  /** A poll starts from a state in which nothing has happened to its owner. */
  lemma PollBegins(a: State, o: Owner)
    requires Inv(a) && o in a.w.ids && o !in a.b.busy && Turn(o) in a.asks
    ensures Mid(o, Begin(a, o), Begin(a, o)) && WaitOf(Begin(a, o).h.wait, o) == Idle
    ensures forall e <- a.k.issued :: e.waker != o
  {
    hide Core, Rel;
    BeginKeeps(a, o);
    RelReflexive(Begin(a, o));
    RelFewer(Begin(a, o).b.busy, Begin(a, o).b.busy - {o}, Begin(a, o), Begin(a, o));
    OwnerFut(a, o);
  }

  lemma OwnerFut(s: State, o: Owner)
    requires Core(s) && o in s.w.ids
    ensures FutKept(o, s, s)
  {
    hide QueueOk, HoldersOk, ListOk, WakesOk, RecvsOk, TerminatedOk, WaitNamesOk, RecvWaitsOk, SendWaitsOk, WokenOk;
  }

  lemma KeptOf(o: Owner, a: State, b: State)
    requires Rel(a.b.busy, a, b) && o in a.b.busy
    ensures o in a.w.ids && FutKept(o, a, b) && b.w.ids[o] == a.w.ids[o]
    ensures WaitOf(b.h.wait, o) == WaitOf(a.h.wait, o) || (WaitOf(b.h.wait, o) == Woken && a.w.ids[o].Some?)
  {
    hide Mono;
    assert Kept(o, a.w, a.h, b.w, b.h);
  }

  /** User code runs in the middle of a poll. */
  lemma MidAfter(o: Owner, a: State, b: State, c: State)
    requires Mid(o, a, b) && After(b, c)
    ensures Mid(o, a, c) && c.w.ids[o] == b.w.ids[o]
    ensures WaitOf(c.h.wait, o) == WaitOf(b.h.wait, o) || (WaitOf(c.h.wait, o) == Woken && b.w.ids[o].Some?)
  {
    hide Core, Rel;
    KeptOf(o, b, c);
    RelFewer(b.b.busy, b.b.busy - {o}, b, c);
    RelTransitive(a.b.busy - {o}, a, b, c);
  }

  /** A step of the poll itself, on the registration of its owner. */
  lemma MidStep(o: Owner, a: State, b: State, c: State)
    requires Mid(o, a, b)
    requires Inv(c) && c.b == b.b && c.k == b.k && Changed(o, b, c) && FutKept(o, b, c)
    requires WaitOf(c.h.wait, o) != Parked
    ensures Mid(o, a, c)
  {
    hide Core, Rel;
    RelTransitive(a.b.busy - {o}, a, b, c);
  }

  lemma DuringStep(o: Owner, a: State, b: State, c: State)
    requires During(o, a, b) && Inv(c) && c.b == b.b && c.k == b.k && Changed(o, b, c)
    ensures During(o, a, c)
  {
    hide Core, Rel;
    RelTransitive(a.b.busy - {o}, a, b, c);
  }

  lemma MidForget(o: Owner, a: State, b: State)
    requires Mid(o, a, b)
    ensures Mid(o, a, Forget(b, o)) && Forget(b, o).w.ids[o].None?
  {
    hide Core, Rel, RemoveId;
    ForgetKeeps(b, o);
    MidStep(o, a, b, Forget(b, o));
  }

  lemma MidWoken(o: Owner, a: State, b: State)
    requires Mid(o, a, b) && b.w.ids[o].None?
    ensures Mid(o, a, SetWait(b, o, Woken)) && WaitOf(SetWait(b, o, Woken).h.wait, o) == Woken
  {
    hide Core, Rel;
    WokenKeeps(b, o);
    MidStep(o, a, b, SetWait(b, o, Woken));
  }

  /** The poll of `o` ends. */
  lemma PollEnds(a: State, o: Owner, c: State, v: Wait)
    requires Inv(a) && o in a.w.ids && o !in a.b.busy && Turn(o) in a.asks
    requires During(o, Begin(a, o), c)
    requires v == Idle ||
             (v == Woken && o in c.w.ids &&
              (c.w.ids[o].Some? ==> Entry(c.w.ids[o].value, o) in c.h.woken)) ||
             (v == Parked && o in c.w.ids && c.w.ids[o].Some? &&
              if o.OfSend? then Entry(c.w.ids[o].value, o) in c.sw && Stuck(c)
              else Listed(c.rw, c.k.pend, Entry(c.w.ids[o].value, o)) && Empty(c) && !Disconnected(c))
    ensures After(a, End(c, o, v)) && HadTurn(o, a, End(c, o, v))
  {
    hide Core, Rel;
    TurnTaken(a, o, c);
    BeginKeeps(a, o);
    EndKeeps(c, o, v);
    assert c.b.busy - {o} == a.b.busy;
    RelTransitive(a.b.busy, a, Begin(a, o), c);
    RelTransitive(a.b.busy, a, c, End(c, o, v));
    assert End(c, o, v).b == a.b;
  }

  /** `o` has been polled or dropped between `a` and `b`. */
  ghost predicate HadTurn(o: Owner, a: State, b: State) {
    TurnsOf(a.h.turns, o) < TurnsOf(b.h.turns, o)
  }

  lemma TurnTaken(a: State, o: Owner, c: State)
    requires During(o, Begin(a, o), c)
    ensures HadTurn(o, a, c)
  {
    hide Core, AllKept, LogsGrow, Extends, GoneStays, Traced, HeldBefore, Paid, SendersStay, FuturesStay;
    assert TurnsOf(Begin(a, o).h.turns, o) <= TurnsOf(c.h.turns, o);
  }

  /** The same poll, seen from the moment its receive call has taken an item. */
  lemma MidClosed(o: Owner, a: State, b: State, c: nat)
    requires Mid(o, a, b)
    ensures Mid(o, CloseCall(a, c), CloseCall(b, c))
  {
    hide Core, Rel;
    CloseCallKeeps(b, c);
    RelFewer(b.b.busy, a.b.busy - {o}, b, CloseCall(b, c));
    RelTransitive(a.b.busy - {o}, a, b, CloseCall(b, c));
    CallClosed(a.b.busy - {o}, a, CloseCall(b, c), c);
  }

  /** A poll opens a receive call. */
  lemma MidOpens(o: Owner, s: State)
    requires Mid(o, s, s)
    ensures Mid(o, OpenCall(s), OpenCall(s)) && Mid(o, s, CloseCall(OpenCall(s), s.h.calls))
    ensures CloseCall(OpenCall(s), s.h.calls).k == s.k
  {
    hide Core, Rel;
    var t, c := OpenCall(s), s.h.calls;
    OpenCallKeeps(s);
    CloseCallKeeps(t, c);
    RelReflexive(t);
    RelFewer(t.b.busy, t.b.busy - {o}, t, t);
    RelTransitive(s.b.busy, s, t, CloseCall(t, c));
    RelFewer(s.b.busy, s.b.busy - {o}, s, CloseCall(t, c));
    assert s.k.taking + {c} - {c} == s.k.taking;
  }

  lemma MidFut(o: Owner, a: State, b: State)
    requires Mid(o, a, b)
    ensures o in b.w.ids
    ensures o.OfRecv? ==>
              && o.fut in a.w.recvs && o.fut in b.w.recvs && b.w.recvs[o.fut] == a.w.recvs[o.fut]
              && ReadyOf(b.h.ready, o.fut) == ReadyOf(a.h.ready, o.fut)
    ensures o.OfSend? ==>
              && o.fut in a.w.sends && o.fut in b.w.sends && b.w.sends[o.fut] == a.w.sends[o.fut]
              && o.fut in a.h.sent && o.fut in b.h.sent && b.h.sent[o.fut] == a.h.sent[o.fut]
  {
    hide Core, Rel;
  }

  /** The receive call of a poll is over, with an item or without. */
  lemma MidCloses(o: Owner, s: State, n: State)
    requires Mid(o, s, s)
    ensures Mid(o, CloseCall(OpenCall(s), s.h.calls), n) ==> Mid(o, s, n)
    ensures Mid(o, OpenCall(s), n) ==> Mid(o, s, CloseCall(n, s.h.calls)) && Some(s.h.calls) !in n.h.takers
  {
    hide Core, Rel, Mid;
    var t, c := OpenCall(s), s.h.calls;
    MidOpens(o, s);
    if Mid(o, CloseCall(t, c), n) {
      MidMid(o, s, CloseCall(t, c), n);
    }
    if Mid(o, t, n) {
      MidClosed(o, t, n, c);
      MidMid(o, s, CloseCall(t, c), CloseCall(n, c));
      MidCalls(o, t, n);
    }
  }

  lemma MidCalls(o: Owner, t: State, n: State)
    requires Mid(o, t, n)
    ensures forall c <- t.k.taking :: Some(c) !in n.h.takers
  {
    hide Core, Rel;
    TakersCount(n);
  }

  /** The same for a receive call that is not a poll. */
  lemma CallOpens(s: State)
    requires Inv(s)
    ensures Inv(OpenCall(s)) && After(s, CloseCall(OpenCall(s), s.h.calls))
  {
    hide Core, Rel;
    var t, c := OpenCall(s), s.h.calls;
    OpenCallKeeps(s);
    CloseCallKeeps(t, c);
    RelTransitive(s.b.busy, s, t, CloseCall(t, c));
    assert s.k.taking + {c} - {c} == s.k.taking;
  }

  lemma CallsGrow(a: State, b: State)
    requires After(a, b)
    ensures a.h.calls <= b.h.calls
  {
    hide Core, AllKept, LogsGrow, Extends, GoneStays, Traced, HeldBefore, Undisturbed, Paid, SendersStay, FuturesStay;
  }

  lemma CallCloses(s: State, n: State)
    requires Inv(s)
    ensures After(CloseCall(OpenCall(s), s.h.calls), n) ==> After(s, n) && s.h.calls < n.h.calls
    ensures After(OpenCall(s), n) ==>
              s.h.calls < n.h.calls && After(s, CloseCall(n, s.h.calls)) && Some(s.h.calls) !in n.h.takers
  {
    hide Core, Rel, After;
    var t, c := OpenCall(s), s.h.calls;
    CallOpens(s);
    if After(CloseCall(t, c), n) {
      CallsGrow(CloseCall(t, c), n);
      AfterTransitive(s, CloseCall(t, c), n);
    }
    if After(t, n) {
      CallsGrow(t, n);
      AfterClosed(t, n, c);
      AfterTransitive(s, CloseCall(t, c), CloseCall(n, c));
    }
  }

  lemma AfterClosed(a: State, b: State, c: nat)
    requires After(a, b)
    ensures After(CloseCall(a, c), CloseCall(b, c)) && (c in a.k.taking ==> Some(c) !in b.h.takers)
  {
    hide Core, Rel;
    CloseCallKeeps(b, c);
    RelTransitive(a.b.busy, a, b, CloseCall(b, c));
    CallClosed(a.b.busy, a, CloseCall(b, c), c);
  }

  lemma MidMid(o: Owner, a: State, b: State, c: State)
    requires Mid(o, a, b) && Mid(o, b, c)
    ensures Mid(o, a, c)
  {
    hide Core, Rel;
    RelTransitive(a.b.busy - {o}, a, b, c);
  }

  lemma MidSelf(o: Owner, a: State, b: State)
    requires Mid(o, a, b)
    ensures Mid(o, b, b)
  {
    hide Core, Rel;
    RelReflexive(b);
    RelFewer(b.b.busy, b.b.busy - {o}, b, b);
    OwnerFut(b, o);
  }

  // ---- Registration of a receive ---------------------------------------------------------------

  lemma RegisterBegins(o: Owner, s: State)
    requires Inv(s) && o in s.b.busy && !o.OfSend? && o in s.w.ids && s.w.ids[o].None?
    ensures Inv(IssueRecv(s, o)) && Entry(s.nextR, o) !in s.k.issued
    ensures FutKept(o, s, IssueRecv(s, o))
  {
    hide Rel, QueueOk, WorldOk, ListOk, WakesOk, SendsOk, RecvsOk, TerminatedOk, WaitNamesOk, RecvWaitsOk,
         SendWaitsOk, WokenOk;
    IssueRecvKeeps(s, o);
    OwnerFut(s, o);
    assert Entry(s.nextR, o) in s.k.issued ==> Held(s.w.ids, s.k.guards, s.k.issued, Entry(s.nextR, o));
  }

  /** The clone of the waker has run: the id is dropped, recorded only, or recorded and stored. */
  lemma RegisterEnds(o: Owner, s: State, u: State)
    requires Inv(s) && o in s.b.busy && !o.OfSend? && o in s.w.ids && s.w.ids[o].None? && o !in s.h.terminated
    requires After(IssueRecv(s, o), u)
    ensures var e := Entry(s.nextR, o);
            && Mid(o, s, DropIssued(u, e)) && u.w.ids[o].None?
            && (Disconnected(u) ==> Mid(o, s, SkipRecv(u, e)))
            && (!Disconnected(u) ==> Mid(o, s, StoreRecv(u, e)))
            && WaitOf(u.h.wait, o) == Polling
  {
    hide Core, Rel;
    var t, e := IssueRecv(s, o), Entry(s.nextR, o);
    RegisterBegins(o, s);
    IssueRecvKeeps(s, o);
    KeptOf(o, t, u);
    RelFewer(t.b.busy, t.b.busy - {o}, t, u);
    RelTransitive(s.b.busy - {o}, s, t, u);
    assert u.k.issued - {e} == s.k.issued;
    DropIssuedKeeps(u, e);
    StoreRecvKeeps(u, e);
    RelFewer(u.b.busy, u.b.busy - {o}, u, DropIssued(u, e));
    RelTransitive(s.b.busy - {o}, s, u, DropIssued(u, e));
    if Disconnected(u) {
      RelTransitive(s.b.busy - {o}, s, u, SkipRecv(u, e));
    } else {
      RelTransitive(s.b.busy - {o}, s, u, StoreRecv(u, e));
    }
  }

  // ---- poll_recv -------------------------------------------------------------------------------

  /** Disconnection and emptiness of a disconnected channel survive whatever user code does. */
  lemma DrainedStays(busy: set<Owner>, a: State, b: State)
    requires Core(a) && Core(b) && Rel(busy, a, b)
    ensures Disconnected(a) ==> Disconnected(b)
    ensures Drained(a) ==> Drained(b)
  {
    hide WorldOk, HoldersOk, ListOk, WakesOk, SendsOk, RecvsOk, TerminatedOk, WaitNamesOk, RecvWaitsOk, SendWaitsOk,
         WokenOk, AllKept;
    if Drained(a) {
      assert a.out == a.accepted;
      assert |b.out| == |b.accepted|;
    }
  }

  /** An owner that registers is not terminated: its future is not done, its channel not drained. */
  lemma NotTerminated(s: State, o: Owner)
    requires Core(s) && o in s.w.ids
    requires match o
             case OfRecv(f) => f in s.w.recvs && !s.w.recvs[f].done
             case OfStream(_) => !Disconnected(s)
             case OfSend(_) => false
    ensures o !in s.h.terminated
  {
    hide QueueOk, WorldOk, HoldersOk, ListOk, WakesOk, SendsOk, RecvsOk, WaitNamesOk, RecvWaitsOk, SendWaitsOk,
         WokenOk;
  }

  /** A receive that is still waiting at the end of its poll is registered. */
  lemma StillListed(s: State, o: Owner)
    requires Core(s) && o in s.w.ids && !o.OfSend? && s.w.ids[o].Some?
    requires WaitOf(s.h.wait, o) == Polling && !Disconnected(s)
    ensures Listed(s.rw, s.k.pend, Entry(s.w.ids[o].value, o))
  {
    hide QueueOk, WorldOk, HoldersOk, ListOk, WakesOk, SendsOk, RecvsOk, TerminatedOk, WaitNamesOk, SendWaitsOk,
         WokenOk;
  }

  /** The waker of the registration that `o` holds is registered, about to be woken, or has been woken. */
  ghost predicate Wakeable(s: State, o: Owner) {
    && o in s.w.ids && s.w.ids[o].Some?
    && var e := Entry(s.w.ids[o].value, o);
       (if o.OfSend? then Listed(s.sw, s.k.pend, e) else Listed(s.rw, s.k.pend, e)) || e in s.h.woken
  }

  lemma WokenEntry(s: State, o: Owner)
    requires Core(s) && o in s.w.ids && s.w.ids[o].Some? && WaitOf(s.h.wait, o) == Woken
    ensures Entry(s.w.ids[o].value, o) in s.h.woken
  {
    hide QueueOk, WorldOk, HoldersOk, ListOk, WakesOk, EndedOk, SendsOk, SendIdsOk, FatesOk, TakersOk, VerdictsOk,
         RecvsOk, TerminatedOk, WaitNamesOk, RecvWaitsOk, SendWaitsOk;
  }

  /** A receive that has registered on a channel that is still connected can be woken, or has been. */
  lemma StillWakeable(s: State, o: Owner)
    requires Core(s) && o in s.w.ids && !o.OfSend? && s.w.ids[o].Some? && !Disconnected(s)
    requires WaitOf(s.h.wait, o) == Polling || WaitOf(s.h.wait, o) == Woken
    ensures Wakeable(s, o)
    ensures WaitOf(s.h.wait, o) == Polling ==> Listed(s.rw, s.k.pend, Entry(s.w.ids[o].value, o))
    ensures WaitOf(s.h.wait, o) == Woken ==> Entry(s.w.ids[o].value, o) in s.h.woken
  {
    hide Core;
    if WaitOf(s.h.wait, o) == Polling {
      StillListed(s, o);
    } else {
      WokenEntry(s, o);
    }
  }

  lemma ReadyBounded(s: State, f: nat)
    requires Core(s)
    ensures ReadyOf(s.h.ready, f) <= 1
    ensures f in s.w.recvs ==> (s.w.recvs[f].done <==> ReadyOf(s.h.ready, f) == 1)
  {
    hide QueueOk, WorldOk, HoldersOk, ListOk, WakesOk, EndedOk, SendsOk, SendIdsOk, FatesOk, TakersOk, VerdictsOk,
         TerminatedOk, WaitNamesOk, RecvWaitsOk, SendWaitsOk, WokenOk;
  }

  /** A receive completes, and reports disconnection if that is what it saw. */
  lemma YieldDuring(a: State, f: nat, b: State)
    requires Mid(OfRecv(f), a, b) && !b.w.recvs[f].done
    ensures During(OfRecv(f), a, Yield(b, f))
    ensures Drained(b) ==> During(OfRecv(f), a, Report(Yield(b, f)))
  {
    hide Core, Rel;
    YieldKeeps(b, f);
    DuringStep(OfRecv(f), a, b, Yield(b, f));
    if Drained(b) {
      ReportDuring(OfRecv(f), a, Yield(b, f));
    }
  }

  lemma ReportDuring(o: Owner, a: State, b: State)
    requires During(o, a, b) && Drained(b)
    ensures During(o, a, Report(b))
  {
    hide Core, Rel;
    ReportKeeps(b);
    RelFewer(b.b.busy, b.b.busy - {o}, b, Report(b));
    DuringStep(o, a, b, Report(b));
  }

  // ---- Calls on handles ------------------------------------------------------------------------

  lemma SendersAlive(s: State)
    requires Core(s)
    ensures s.w.txs != {} ==> s.senders > 0
    ensures s.w.rxs != {} ==> s.receivers > 0
    ensures s.b.tx != multiset{} ==> s.senders > 0
    ensures (exists o <- s.b.busy :: o.OfSend?) ==> s.senders > 0
  {
    hide QueueOk, HoldersOk, ListOk, WakesOk, SendsOk, RecvsOk, TerminatedOk, WaitNamesOk, RecvWaitsOk, SendWaitsOk,
         WokenOk;
    if s.b.tx != multiset{} {
      var n :| n in s.b.tx;
      assert n in s.w.txs;
    }
    if o :| o in s.b.busy && o.OfSend? {
      assert o in s.w.ids;
      assert s.w.sends[o.fut].tx in s.w.txs;
    }
  }

  /** More of the handles are borrowed for the duration of a call. */
  predicate Pins(b: Borrows, c: Borrows) {
    c.busy == b.busy && b.tx <= c.tx && b.rx <= c.rx
  }

  lemma PinBegins(s: State, b: Borrows)
    requires Inv(s) && Pins(s.b, b)
    requires forall n <- b.tx :: n in s.b.tx || n in s.w.txs
    requires forall n <- b.rx :: n in s.b.rx || n in s.w.rxs
    ensures Inv(s.(b := b)) && Rel(s.b.busy, s, s.(b := b))
  {
    hide Rel;
    PinnedWorld(s, b);
    hide Core;
    PinKeeps(s, b);
  }

  lemma PinnedWorld(s: State, b: Borrows)
    requires Core(s) && Pins(s.b, b)
    requires forall n <- b.tx :: n in s.b.tx || n in s.w.txs
    requires forall n <- b.rx :: n in s.b.rx || n in s.w.rxs
    ensures WorldOk(s.w, b)
  {
    hide QueueOk, HoldersOk, ListOk, WakesOk, SendsOk, RecvsOk, TerminatedOk, WaitNamesOk, RecvWaitsOk, SendWaitsOk,
         WokenOk;
  }

  lemma UnpinnedWorld(s: State, b: Borrows)
    requires Core(s) && Pins(b, s.b)
    ensures WorldOk(s.w, b)
  {
    hide QueueOk, HoldersOk, ListOk, WakesOk, SendsOk, RecvsOk, TerminatedOk, WaitNamesOk, RecvWaitsOk, SendWaitsOk,
         WokenOk;
  }

  lemma PinEnds(s: State, b: Borrows, t: State)
    requires Inv(s) && Pins(s.b, b)
    requires forall n <- b.tx :: n in s.b.tx || n in s.w.txs
    requires forall n <- b.rx :: n in s.b.rx || n in s.w.rxs
    requires After(s.(b := b), t)
    ensures After(s, t.(b := s.b))
  {
    hide Core, Rel;
    PinBegins(s, b);
    UnpinnedWorld(t, s.b);
    PinKeeps(t, s.b);
    RelTransitive(s.b.busy, s, s.(b := b), t);
    RelTransitive(s.b.busy, s, t, t.(b := s.b));
  }

  lemma ReportAfter(s: State, t: State)
    requires After(s, t) && Drained(t)
    ensures After(s, Report(t))
  {
    hide Core, Rel;
    ReportKeeps(t);
    RelTransitive(s.b.busy, s, t, Report(t));
  }

  lemma ReportedDrained(s: State)
    requires Core(s)
    ensures s.h.disconnected ==> Drained(s)
    ensures s.h.closes == if s.closed then 1 else 0
    ensures s.k.due ==> s.closed
  {
    hide QueueOk, WorldOk, HoldersOk, ListOk, WakesOk, SendsOk, RecvsOk, TerminatedOk, WaitNamesOk, RecvWaitsOk,
         SendWaitsOk, WokenOk;
  }

  lemma AcceptedStays(busy: set<Owner>, a: State, b: State)
    requires Rel(busy, a, b)
    ensures a.accepted <= b.accepted && (a.closed ==> b.closed) && (a.receivers == 0 ==> b.receivers == 0)
  {
    hide AllKept;
  }

  lemma PushBegins(s: State, x: Payload)
    requires Inv(s) && s.senders > 0 && !ClosedToSends(s) && !Full(s)
    ensures Inv(TakeRecvs(Push(s, x))) && Takeable(s.rw, s.k.pend) && Rel(s.b.busy, s, TakeRecvs(Push(s, x)))
  {
    hide Core, Rel;
    PushKeeps(s, x);
    CoreTakeable(s);
  }

  lemma CloseBegins(s: State)
    requires Inv(s) && !s.closed && Shut in s.asks
    ensures !s.k.due && Inv(TakeRecvs(Close(s))) && Takeable(s.rw, s.k.pend) && Rel(s.b.busy, s, TakeRecvs(Close(s)))
  {
    hide Core, Rel;
    ReportedDrained(s);
    CloseKeeps(s);
    CoreTakeable(s);
  }

  /** Nobody holds the id of `e` any more. */
  ghost predicate Abandoned(s: State, e: Entry) {
    GivenUp(s.w.ids, s.k.guards, s.k.issued, s.nextR, s.nextS, e)
  }

  /** What has become of the registered senders between the two halves of `close`. */
  lemma SendersTraced(s: State, t: State)
    requires Core(s) && Core(t) && Rel(s.b.busy, s, t) && t.k.pend == s.k.pend
    ensures forall e <- s.sw :: e in t.sw || e in t.h.woken || Abandoned(t, e)
  {
    hide QueueOk, WorldOk, HoldersOk, EndedOk, SendsOk, SendIdsOk, FatesOk, TakersOk, VerdictsOk, RecvsOk,
         TerminatedOk, WaitNamesOk, RecvWaitsOk, SendWaitsOk, WokenOk, AllKept, LogsGrow, Extends, GoneStays,
         HeldBefore, Undisturbed, Paid, SendersStay, FuturesStay, GivenUp, Held;
  }

  lemma AbandonedStays(busy: set<Owner>, a: State, b: State)
    requires Rel(busy, a, b)
    ensures forall e | Abandoned(a, e) :: Abandoned(b, e)
  {
    hide AllKept, LogsGrow, Extends, GoneStays, Traced, Held, Undisturbed, Paid, SendersStay, FuturesStay;
  }

  lemma CloseMiddle(s: State)
    requires Inv(s)
    ensures Inv(TakeSends(PayDue(s))) && Takeable(s.sw, s.k.pend) && Rel(s.b.busy, s, TakeSends(PayDue(s)))
  {
    hide Core, Rel;
    PayDueKeeps(s);
    CoreTakeable(s);
  }

  // ---- Send::commit ----------------------------------------------------------------------------

  /** The state in which `commit` first lets user code run. */
  ghost function Committed(s: State, f: nat, r: SendResult): State
    requires f in s.w.sends && f in s.h.sent && OfSend(f) in s.w.ids
    requires r.Sent? ==> s.accepted != []
  {
    if r.Sent? then TakeRecvs(ToGuard(Settle(s, f, r, Some(|s.accepted| - 1)), OfSend(f)))
    else Forget(Settle(s, f, r, None), OfSend(f))
  }

  /** `commit` may be called with this result. */
  ghost predicate Committing(s: State, f: nat, r: SendResult) {
    && f in s.w.sends && f in s.h.sent && OfSend(f) in s.w.ids && OfSend(f) in s.b.busy
    && (s.w.ids[OfSend(f)].Some? ==> Entry(s.w.ids[OfSend(f)].value, OfSend(f)) !in s.k.guards)
    && (r.Sent? ==> s.accepted != [] && Takeable(s.rw, s.k.pend))
    && Inv(Committed(s, f, r))
  }

  lemma CommittedFacts(s: State, f: nat, r: SendResult)
    requires Committing(s, f, r)
    ensures f in s.w.sends && f in s.h.sent && OfSend(f) in s.w.ids && OfSend(f) in s.b.busy
    ensures r.Sent? ==> s.accepted != []
    ensures var c := Committed(s, f, r);
            && c.b == s.b && f in c.w.sends && c.w.sends[f].done && c.w.sends[f].outcome == Some(r)
            && f in c.h.sent && c.h.sent[f].outcome == Some(r)
            && c.h.sent[f].at == (if r.Sent? then Some(|s.accepted| - 1) else None)
            && c.h.sent[f].orig == s.h.sent[f].orig && c.accepted == s.accepted
  {
    hide Core, RemoveId, Takeable;
  }

  /** The `Send` future `f` that is being polled still holds its item. */
  ghost predicate Undecided(s: State, f: nat) {
    && Inv(s) && OfSend(f) in s.b.busy && OfSend(f) in s.w.ids
    && f in s.w.sends && f in s.h.sent && !s.w.sends[f].done
    && s.w.sends[f].item == Some(s.h.sent[f].orig)
    && WaitOf(s.h.wait, OfSend(f)) != Parked
  }

  /** There is room for an item in an open channel. */
  predicate WillWake(s: State) {
    !ClosedToSends(s) && !Full(s)
  }

  /**
  What a poll from `a` to `b` makes of a send that was undecided: it fails if the channel was closed to
  sends, and is sent, as the next item, if there was room; `quiet` says that user code made no choice.
   */
  ghost predicate Verdict(f: nat, a: State, b: State, quiet: bool, pending: bool)
    requires f in b.h.sent
  {
    && f in a.h.sent
    && var x := a.h.sent[f].orig;
       if ClosedToSends(a) then
         && b.h.sent[f].outcome == Some(Failed(x)) && !pending
         && (quiet ==> b.accepted == a.accepted)
       else if !Full(a) then
         && b.h.sent[f].outcome == Some(Sent) && !pending
         && b.h.sent[f].at == Some(|a.accepted|) && a.accepted + [x] <= b.accepted
         && (quiet ==> b.accepted == a.accepted + [x])
         && forall e <- a.rw :: e in b.h.woken
       else
         quiet ==> pending && b.accepted == a.accepted
  }

  lemma FailedVerdict(f: nat, a: State, b: State, quiet: bool)
    requires f in a.h.sent && f in b.h.sent && ClosedToSends(a)
    requires b.h.sent[f].outcome == Some(Failed(a.h.sent[f].orig)) && (quiet ==> b.accepted == a.accepted)
    ensures Verdict(f, a, b, quiet, false)
  {
  }

  lemma SentVerdict(f: nat, a: State, b: State, quiet: bool)
    requires f in a.h.sent && f in b.h.sent && WillWake(a)
    requires b.h.sent[f].outcome == Some(Sent) && b.h.sent[f].at == Some(|a.accepted|)
    requires a.accepted + [a.h.sent[f].orig] <= b.accepted && forall e <- a.rw :: e in b.h.woken
    requires quiet ==> b.accepted == a.accepted + [a.h.sent[f].orig]
    ensures Verdict(f, a, b, quiet, false)
  {
  }

  lemma FullVerdict(f: nat, a: State, b: State, quiet: bool, pending: bool)
    requires f in a.h.sent && f in b.h.sent && !ClosedToSends(a) && Full(a)
    requires quiet ==> pending && b.accepted == a.accepted
    ensures Verdict(f, a, b, quiet, pending)
  {
  }

  lemma VerdictAccepted(f: nat, a: State, b: State, quiet: bool, pending: bool)
    requires f in b.h.sent && Verdict(f, a, b, quiet, pending) && quiet && !ClosedToSends(a) && Full(a)
    ensures b.accepted == a.accepted && pending
  {
  }

  /** The one result that `f` has ever returned is `x`. */
  ghost predicate Answered(s: State, f: nat, x: SendResult) {
    f in s.h.sent && s.h.sent[f].answers == [x]
  }

  lemma UnguardedId(s: State, o: Owner)
    requires Core(s) && o in s.w.ids && s.w.ids[o].Some?
    ensures Entry(s.w.ids[o].value, o) !in s.k.guards
  {
    hide QueueOk, WorldOk, ListOk, WakesOk, SendsOk, RecvsOk, TerminatedOk, WaitNamesOk, RecvWaitsOk, SendWaitsOk,
         WokenOk;
  }

  lemma EarlierPlaces(s: State)
    requires Core(s)
    ensures forall g <- s.h.sent :: s.h.sent[g].at.Some? ==> s.h.sent[g].at.value < |s.accepted|
  {
    hide QueueOk, WorldOk, HoldersOk, ListOk, WakesOk, RecvsOk, TerminatedOk, WaitNamesOk, RecvWaitsOk, SendWaitsOk,
         WokenOk;
  }

  /** The order in which `commit` settles the outcome and takes the receivers' wakers does not matter. */
  lemma CommittedSent(s: State, f: nat, x: Payload)
    requires f in s.w.sends && f in s.h.sent && OfSend(f) in s.w.ids
    ensures Committed(Push(s, x), f, Sent) ==
            Settle(ToGuard(TakeRecvs(Push(s, x)), OfSend(f)), f, Sent, Some(|s.accepted|))
  {
  }

  /** The item has just been pushed: its place is the last one, and every parked receiver is taken. */
  lemma CommitSentBegins(s: State, f: nat)
    requires Undecided(s, f) && !ClosedToSends(s) && !Full(s)
    ensures var p := Push(s, s.h.sent[f].orig);
            && Committing(p, f, Sent)
            && Changed(OfSend(f), s, Committed(p, f, Sent))
  {
    hide Core, Rel, Committed, Takeable;
    var o, x := OfSend(f), s.h.sent[f].orig;
    var p := Push(s, x);
    var t := TakeRecvs(p);
    var at := Some(|s.accepted|);
    SendersAlive(s);
    EarlierPlaces(s);
    PushKeeps(s, x);
    CoreTakeable(s);
    ToGuardKeeps(t, o);
    SettleKeeps(ToGuard(t, o), f, Sent, at);
    if s.w.ids[o].Some? {
      UnguardedId(s, o);
    }
    CommittedSent(s, f, x);
    RelFewer(s.b.busy, s.b.busy - {o}, s, t);
    RelTransitive(s.b.busy - {o}, s, t, ToGuard(t, o));
    RelTransitive(s.b.busy - {o}, s, ToGuard(t, o), Committed(p, f, Sent));
  }

  lemma CommitFailedBegins(s: State, f: nat)
    requires Undecided(s, f) && ClosedToSends(s)
    ensures var r := Failed(s.h.sent[f].orig);
            Committing(s, f, r) && Changed(OfSend(f), s, Committed(s, f, r))
  {
    hide Core, Rel, RemoveId;
    var o, r := OfSend(f), Failed(s.h.sent[f].orig);
    var t := Forget(s, o);
    ForgetKeeps(s, o);
    SettleKeeps(t, f, r, None);
    if s.w.ids[o].Some? {
      UnguardedId(s, o);
    }
    assert Committed(s, f, r) == Settle(t, f, r, None);
    RelTransitive(s.b.busy - {o}, s, t, Settle(t, f, r, None));
  }

  lemma SkipSendId(s: State)
    requires Core(s)
    ensures Core(s.(nextS := s.nextS + 1)) && Rel(s.b.busy, s, s.(nextS := s.nextS + 1))
  {
    hide QueueOk, WorldOk, ListOk, SendsOk, RecvsOk, TerminatedOk, WaitNamesOk, RecvWaitsOk, SendWaitsOk, WokenOk,
         AllKept;
    KeptReflexive(s);
  }

  lemma {:induction false} PositionOfLast(list: seq<Entry>, e: Entry)
    requires forall x <- list :: x.id != e.id
    ensures Position(list + [e], e.id) == Some(|list|)
    ensures RemoveId(list + [e], e.id) == list
  {
    if list != [] {
      assert (list + [e])[1..] == list[1..] + [e];
      PositionOfLast(list[1..], e);
    }
  }

  /** The next id to be issued is not in use. */
  lemma NextSendIdUnused(s: State)
    requires Core(s)
    ensures forall x <- s.sw :: x.id != s.nextS
    ensures forall x <- s.k.guards :: x.waker.OfSend? ==> x.id != s.nextS
  {
    hide QueueOk, WorldOk, WakesOk, SendsOk, RecvsOk, TerminatedOk, WaitNamesOk, RecvWaitsOk, SendWaitsOk, WokenOk;
    forall x | x in s.sw || x in s.k.guards ensures x.waker.OfSend? ==> x.id != s.nextS {
      assert x in s.sw || x in s.k.guards;
      assert Held(s.w.ids, s.k.guards, s.k.issued, x) ==> Below(s.nextR, s.nextS, x);
    }
  }

  /** Registering and failing at once is failing, but for the id. */
  lemma AddedThenFailed(s: State, f: nat, r: SendResult)
    requires f in s.w.sends && f in s.h.sent && OfSend(f) in s.w.ids && s.w.ids[OfSend(f)].None? && r.Failed?
    requires forall x <- s.sw :: x.id != s.nextS
    ensures Committed(AddSend(s, OfSend(f)), f, r) == Committed(s.(nextS := s.nextS + 1), f, r)
  {
    hide RemoveId;
    var o, e := OfSend(f), Entry(s.nextS, OfSend(f));
    PositionOfLast(s.sw, e);
    assert s.w.ids[o := Some(s.nextS)][o := None] == s.w.ids[o := None];
    assert s.w.ids[o := None] == s.w.ids;
  }

  /** The channel closed while the send was registering: its entry is removed again at once. */
  lemma CommitFailedAfterAdd(s: State, f: nat)
    requires Undecided(s, f) && s.w.ids[OfSend(f)].None? && ClosedToSends(s)
    ensures var o, r := OfSend(f), Failed(s.h.sent[f].orig);
            && Committing(AddSend(s, o), f, r)
            && Changed(o, s, Committed(AddSend(s, o), f, r))
  {
    hide Core, Rel, Committed;
    var o, r := OfSend(f), Failed(s.h.sent[f].orig);
    var t := s.(nextS := s.nextS + 1);
    SkipSendId(s);
    CommitFailedBegins(t, f);
    NextSendIdUnused(s);
    AddedThenFailed(s, f, r);
    RelFewer(s.b.busy, s.b.busy - {o}, s, t);
    RelTransitive(s.b.busy - {o}, s, t, Committed(t, f, r));
  }

  /** User code has run since the commit; the guard, if there is one, now removes its entry. */
  lemma CommitCleans(c: State, u: State, e: Entry)
    requires Inv(u) && e in u.k.guards && Ran(c, u.k, u)
    ensures Inv(DropGuard(u, e)) && DropGuard(u, e).b == c.b && Rel(c.b.busy, c, DropGuard(u, e))
  {
    hide Core, Rel;
    DropGuardKeeps(u, e);
    RelTransitive(c.b.busy, c, u, DropGuard(u, e));
  }

  /** The committed outcome is taken out of the future and returned. */
  lemma CommitAnswers(f: nat, c: State, v: State)
    requires Inv(v) && v.b == c.b && Rel(c.b.busy, c, v) && OfSend(f) in c.b.busy
    requires f in c.w.sends && c.w.sends[f].outcome.Some?
    ensures f in v.w.sends && v.w.sends[f] == c.w.sends[f] && OfSend(f) in v.w.ids
    ensures f in v.h.sent && f in c.h.sent && v.h.sent[f] == c.h.sent[f]
    ensures Rel(c.b.busy - {OfSend(f)}, c, v)
    ensures Inv(Answer(v, f)) && Rel(c.b.busy - {OfSend(f)}, c, Answer(v, f))
  {
    hide Core, Rel;
    KeptOf(OfSend(f), c, v);
    AnswerKeeps(v, f);
    RelFewer(c.b.busy, c.b.busy - {OfSend(f)}, c, v);
    RelTransitive(c.b.busy - {OfSend(f)}, c, v, Answer(v, f));
  }

  /** It makes no difference to `commit` that the message has already been moved out of the future. */
  lemma CommittingWithout(s: State, f: nat, r: SendResult)
    requires Committing(s, f, r)
    ensures Committing(WithItem(s, f, None), f, r)
    ensures Committed(WithItem(s, f, None), f, r) == Committed(s, f, r)
  {
    hide Core, RemoveId, NoDup;
    var t := WithItem(s, f, None);
    assert t.w.sends[f := s.w.sends[f].(item := None, done := true, outcome := Some(r))] ==
           s.w.sends[f := s.w.sends[f].(item := None, done := true, outcome := Some(r))];
  }

  lemma CommittedBorrows(s: State, f: nat, r: SendResult)
    requires Committing(s, f, r)
    ensures Committed(s, f, r).b == s.b && f in s.w.sends && f in s.h.sent
    ensures f in WithItem(s, f, None).w.sends && WithItem(s, f, None).w.sends[f].item.None?
  {
    hide Core;
  }

  lemma MidUndecided(f: nat, a: State, s: State)
    requires Mid(OfSend(f), a, s) && !s.w.sends[f].done
    ensures Undecided(s, f)
  {
    hide Rel;
    MessagePresent(s, f);
  }

  /** A send that is not done holds its message, so no `expect` can fail. */
  lemma MessagePresent(s: State, f: nat)
    requires Core(s) && f in s.w.sends
    ensures f in s.h.sent && (!s.w.sends[f].done ==> s.w.sends[f].item == Some(s.h.sent[f].orig))
    ensures s.w.sends[f].outcome.Some? ==> s.w.sends[f].done
    ensures s.h.sent[f].answers == [] || (s.w.sends[f].done && s.w.sends[f].outcome.None?)
  {
    hide QueueOk, WorldOk, HoldersOk, ListOk, WakesOk, RecvsOk, TerminatedOk, WaitNamesOk, RecvWaitsOk, SendWaitsOk,
         WokenOk;
  }

  lemma CommitDuring(f: nat, a: State, s: State, c: State, n: State)
    requires During(OfSend(f), a, s) && Changed(OfSend(f), s, c) && c.b == s.b
    requires Inv(n) && n.b == s.b && n.k == s.k && Rel(c.b.busy - {OfSend(f)}, c, n)
    ensures During(OfSend(f), a, n)
  {
    hide Core, Rel;
    var busy := a.b.busy - {OfSend(f)};
    RelTransitive(busy, s, c, n);
    RelTransitive(busy, a, s, n);
  }

  lemma AddSendMid(o: Owner, a: State, s: State)
    requires Mid(o, a, s) && o.OfSend? && s.w.ids[o].None? && !ClosedToSends(s) && !s.w.sends[o.fut].done
    requires WaitOf(s.h.wait, o) != Woken
    ensures Mid(o, a, AddSend(s, o))
  {
    hide Core, Rel;
    AddSendKeeps(s, o);
    MidStep(o, a, s, AddSend(s, o));
  }

  lemma AnswerDuring(f: nat, a: State, s: State)
    requires Mid(OfSend(f), a, s) && s.w.sends[f].outcome.Some?
    ensures During(OfSend(f), a, Answer(s, f))
  {
    hide Core, Rel;
    AnswerKeeps(s, f);
    DuringStep(OfSend(f), a, s, Answer(s, f));
  }

  // ---- Dropping --------------------------------------------------------------------------------

  /** An owner that nothing borrows goes away, and its registration with it. */
  ghost function Retired(s: State, o: Owner): State
    requires o in s.w.ids
  {
    Bury(Forget(Begin(s, o), o), o)
  }

  lemma RetireKeeps(s: State, o: Owner)
    requires Inv(s) && o in s.w.ids && o !in s.b.busy && Turn(o) in s.asks
    requires o.OfStream? ==>
               o.rx in s.w.rxs && s.receivers > 1 && o.rx !in s.b.rx && forall f <- s.w.recvs :: s.w.recvs[f].rx != o.rx
    ensures Inv(Retired(s, o)) && Rel(s.b.busy, s, Retired(s, o)) && Retired(s, o).b == s.b
  {
    hide Core, Rel, RemoveId;
    var a := Begin(s, o);
    var b := Forget(a, o);
    BeginKeeps(s, o);
    ForgetKeeps(a, o);
    assert s.b.busy + {o} - {o} == s.b.busy;
    BuryKeeps(b, o);
    RelTransitive(s.b.busy, s, a, b);
    RelTransitive(s.b.busy, s, b, Retired(s, o));
  }

  /** The last receiver goes away; a guard keeps the id of its stream registration. */
  ghost function LastRetired(s: State, rx: nat): State
    requires OfStream(rx) in s.w.ids
  {
    StartCleaning(Bury(ToGuard(Begin(s, OfStream(rx)), OfStream(rx)), OfStream(rx)))
  }

  lemma LastRetireKeeps(s: State, rx: nat)
    requires Inv(s) && OfStream(rx) in s.w.ids && OfStream(rx) !in s.b.busy && Turn(OfStream(rx)) in s.asks
    requires rx in s.w.rxs && s.receivers == 1 && rx !in s.b.rx && forall f <- s.w.recvs :: s.w.recvs[f].rx != rx
    ensures var t := LastRetired(s, rx);
            && t.receivers == 0 && t.b == s.b
            && !s.k.cleaning && Inv(TakeSends(t)) && Takeable(t.sw, t.k.pend) && Rel(s.b.busy, s, TakeSends(t))
    ensures s.w.ids[OfStream(rx)].Some? ==> Entry(s.w.ids[OfStream(rx)].value, OfStream(rx)) !in s.k.guards
  {
    hide Core, Rel;
    var o := OfStream(rx);
    var a := Begin(s, o);
    var b := ToGuard(a, o);
    BeginKeeps(s, o);
    ToGuardKeeps(a, o);
    assert s.b.busy + {o} - {o} == s.b.busy;
    BuryLastKeeps(b, rx);
    CoreTakeable(s);
    if s.w.ids[o].Some? {
      UnguardedId(s, o);
    }
    RelTransitive(s.b.busy, s, a, b);
    RelTransitive(s.b.busy, s, b, TakeSends(LastRetired(s, rx)));
  }

  lemma LastRetiredIs(s: State, rx: nat)
    requires OfStream(rx) in s.w.ids
    ensures var t := LastRetired(s, rx);
            var e := if s.w.ids[OfStream(rx)].Some? then {Entry(s.w.ids[OfStream(rx)].value, OfStream(rx))} else {};
            && t.sw == s.sw && t.accepted == s.accepted
            && t.k == s.k.(guards := s.k.guards + e, cleaning := true)
  {
  }

  /** User code, then items leaving a channel without receivers: all that `Rel` says, except of the items. */
  ghost predicate Drains(a: State, b: State) {
    && Inv(b) && b.b == a.b && b.k == a.k && Passed(a, b)
    && a.receivers == 0 && b.receivers == 0 && b.accepted == a.accepted
    && b.out + OptSeq(b.slot) + b.q == a.out + OptSeq(a.slot) + a.q
  }

  lemma PassedTransitive(a: State, b: State, c: State)
    requires Passed(a, b) && Passed(b, c) && b.b == a.b
    ensures Passed(a, c)
  {
    hide Mono, AllKept;
    MonoTransitive(a, b, c);
    KeptTransitive(a.b.busy, a, b, c);
  }

  lemma NothingDrained(s: State)
    requires Inv(s) && s.receivers == 0
    ensures Drains(s, s)
  {
    hide Core, Mono, AllKept;
    RelReflexive(s);
  }

  lemma DrainsAfter(a: State, b: State, c: State)
    requires Drains(a, b) && After(b, c)
    ensures Drains(a, c) && c.q == b.q && c.slot == b.slot && c.out == b.out
  {
    hide Core, AllKept;
    PassedTransitive(a, b, c);
  }

  lemma DrainsDrains(a: State, b: State, c: State)
    requires Drains(a, b) && Drains(b, c)
    ensures Drains(a, c)
  {
    hide Core, Passed;
    PassedTransitive(a, b, c);
  }

  /** One more item is taken out and is about to be dropped. */
  lemma DrainsItem(a: State, b: State)
    requires Drains(a, b)
    ensures b.slot.Some? ==> Drains(a, TakeSlot(b, None))
    ensures b.slot.None? && b.q != [] ==> Drains(a, PopOut(b, None))
  {
    hide Core, Passed;
    if b.slot.Some? {
      TakeSlotKeeps(b, None);
      PassedTransitive(a, b, TakeSlot(b, None));
    } else if b.q != [] {
      NoSendersWait(b);
      PopOutKeeps(b, None);
      PassedTransitive(a, b, PopOut(b, None));
    }
  }

  lemma NoSendersWait(s: State)
    requires Core(s) && s.receivers == 0
    ensures s.sw == []
  {
    hide QueueOk, WorldOk, HoldersOk, ListOk, WakesOk, SendsOk, RecvsOk, TerminatedOk, WaitNamesOk, RecvWaitsOk,
         SendWaitsOk, WokenOk;
  }

  lemma SomeEntry(list: seq<Entry>)
    ensures list == [] || exists e :: e in list
  {
    if list != [] {
      assert list[0] in list;
    }
  }

  /** With no receiver and no receiver's guard left, no receive is registered. */
  lemma NoReceiversWait(s: State)
    requires Inv(s) && s.receivers == 0 && forall e <- s.k.guards :: e.waker.OfSend?
    ensures s.rw == []
  {
    hide QueueOk, HoldersOk, WakesOk, SendsOk, RecvsOk, TerminatedOk, WaitNamesOk, RecvWaitsOk, SendWaitsOk, WokenOk;
    assert s.w.rxs == {};
    assert forall e <- s.rw :: Held(s.w.ids, s.k.guards, s.k.issued, e);
    SomeEntry(s.rw);
  }

  /** From the first user code of the last receiver's drop to its end. */
  lemma LastDropEnds(s: State, t: State, u: State, v: State)
    requires Inv(s) && s.receivers > 0 && Rel(s.b.busy, s, t) && t.b == s.b && t.receivers == 0
    requires Rel(s.b.busy, t, u) && u.b == s.b && Passed(u, v) && v.b == s.b
    requires Inv(v) && v.k == s.k.(cleaning := true) && !s.k.cleaning && v.receivers == 0 && Empty(v)
    ensures After(s, EndCleaning(v)) && v.rw == [] && u.h.woken <= v.h.woken && Extends(u.h.ended, v.h.ended)
  {
    hide Core, AllKept;
    PassedTransitive(s, t, u);
    PassedTransitive(s, u, v);
    EndCleaningKeeps(v);
    assert forall e <- s.k.guards :: e.waker.OfSend?;
    NoReceiversWait(v);
  }

  /** What has been dropped stays dropped. */
  /** A sender that is gone stays gone. */
  lemma SenderStaysGone(busy: set<Owner>, a: State, b: State, n: nat)
    requires Rel(busy, a, b) && n !in a.w.txs && n < a.w.nextName
    ensures n !in b.w.txs
  {
    hide AllKept, LogsGrow, Extends, GoneStays, Traced, HeldBefore, Undisturbed, Paid, FuturesStay;
  }

  lemma SenderNamed(s: State, n: nat)
    requires Core(s) && n in s.w.txs
    ensures n < s.w.nextName
  {
    hide QueueOk, HoldersOk, ListOk, WakesOk, EndedOk, SendsOk, SendIdsOk, FatesOk, TakersOk, VerdictsOk, RecvsOk,
         TerminatedOk, WaitNamesOk, RecvWaitsOk, SendWaitsOk, WokenOk;
  }

  lemma NewNames(s: State)
    requires Core(s)
    ensures s.w.nextName !in s.w.txs && s.w.nextName !in s.w.rxs
    ensures s.w.nextName !in s.w.recvs && s.w.nextName !in s.w.sends
  {
    hide QueueOk, HoldersOk, ListOk, WakesOk, EndedOk, SendsOk, SendIdsOk, FatesOk, TakersOk, VerdictsOk, RecvsOk,
         TerminatedOk, WaitNamesOk, RecvWaitsOk, SendWaitsOk, WokenOk;
  }

  lemma StaysDropped(busy: set<Owner>, a: State, b: State, o: Owner)
    requires Rel(busy, a, b) && o !in a.w.ids && NameOf(o) < a.w.nextName
    ensures o !in b.w.ids
  {
    hide AllKept;
  }

  lemma NamesGrow(busy: set<Owner>, a: State, b: State)
    requires Rel(busy, a, b)
    ensures a.w.nextName <= b.w.nextName
  {
    hide AllKept;
  }

  lemma NoReceiverLeft(s: State)
    requires Core(s) && s.receivers == 0
    ensures forall o <- s.w.ids :: o.OfSend?
  {
    hide QueueOk, HoldersOk, ListOk, WakesOk, SendsOk, RecvsOk, TerminatedOk, WaitNamesOk, RecvWaitsOk, SendWaitsOk,
         WokenOk;
    assert s.w.rxs == {};
  }

  lemma OwnerNamed(s: State, o: Owner)
    requires Core(s) && o in s.w.ids
    ensures NameOf(o) < s.w.nextName
  {
    hide QueueOk, HoldersOk, ListOk, WakesOk, SendsOk, RecvsOk, TerminatedOk, WaitNamesOk, RecvWaitsOk, SendWaitsOk,
         WokenOk;
  }

  lemma RetiredItem(s: State, f: nat)
    requires Core(s) && f in s.w.sends && OfSend(f) in s.w.ids
    ensures Retired(s, OfSend(f)).k == if HasItem(s.w.sends[f]) then s.k.(dropping := s.k.dropping + {f}) else s.k
    ensures f in s.h.sent && f !in s.k.dropping
  {
    hide QueueOk, WorldOk, HoldersOk, ListOk, WakesOk, EndedOk, SendIdsOk, TakersOk, VerdictsOk, RecvsOk,
         TerminatedOk, WaitNamesOk, RecvWaitsOk, SendWaitsOk, WokenOk, RemoveId;
  }

  lemma BuryMoved(s: State, f: nat)
    ensures Moved(s, Bury(s, OfSend(f)), None)
  {
    hide HoldsItem;
  }

  lemma ForgetMoved(s: State, o: Owner)
    requires o in s.w.ids
    ensures Moved(s, Forget(s, o), None) && Moved(s, Begin(s, o), None) && Begin(s, o).w == s.w
  {
    hide RemoveId;
  }

  lemma RetiredMoved(s: State, f: nat)
    requires OfSend(f) in s.w.ids
    ensures Moved(s, Retired(s, OfSend(f)), None)
  {
    hide Bury, Forget, Begin;
    var o := OfSend(f);
    ForgetMoved(s, o);
    ForgetMoved(Begin(s, o), o);
    BuryMoved(Forget(Begin(s, o), o), f);
  }

  /** The item of a dropped send has been dropped, and user code has run. */
  lemma ItemDropped(s: State, t: State, f: nat, n: State)
    requires Inv(s) && OfSend(f) in s.w.ids && f !in s.k.dropping && OfSend(f) !in t.w.ids
    requires Ran(s, s.k.(dropping := s.k.dropping + {f}), t) && f in t.h.sent && After(DropHeld(t, f), n)
    ensures After(s, n) && OfSend(f) !in n.w.ids && f in n.h.sent && n.h.sent[f].dropped
  {
    hide Core, Rel;
    DropHeldKeeps(t, f);
    assert s.k.dropping + {f} - {f} == s.k.dropping;
    RelTransitive(s.b.busy, s, t, DropHeld(t, f));
    RelTransitive(s.b.busy, s, DropHeld(t, f), n);
    OwnerNamed(s, OfSend(f));
    NamesGrow(s.b.busy, s, t);
    StaysDropped(s.b.busy, DropHeld(t, f), n, OfSend(f));
    LogStays(s.b.busy, DropHeld(t, f), n, f);
  }

  lemma LogStays(busy: set<Owner>, a: State, b: State, f: nat)
    requires Rel(busy, a, b) && f in a.h.sent
    ensures f in b.h.sent && LogGrows(a.h.sent[f], b.h.sent[f])
  {
    hide AllKept, Extends, GoneStays, Traced, HeldBefore, Undisturbed, Paid, SendersStay, FuturesStay, LogGrows;
  }

  /** Once a send is gone, its log says what became of its item. */
  lemma SendFate(s: State, n: State, f: nat)
    requires Inv(s) && f in s.w.sends && f !in s.k.dropping && After(s, n) && OfSend(f) !in n.w.ids
    ensures f in n.h.sent && FateOk(n.h.sent[f])
    ensures !HasItem(s.w.sends[f]) ==> !n.h.sent[f].dropped
  {
    hide Core, Rel;
    SendLogged(s, f);
    LogStays(s.b.busy, s, n, f);
    FateOfGone(n, f);
  }

  lemma SendLogged(s: State, f: nat)
    requires Core(s) && f in s.w.sends
    ensures f in s.h.sent && SendFutOk(s.accepted, s.w.sends[f], s.h.sent[f])
  {
    hide QueueOk, WorldOk, HoldersOk, ListOk, WakesOk, EndedOk, SendIdsOk, FatesOk, TakersOk, VerdictsOk, RecvsOk,
         TerminatedOk, WaitNamesOk, RecvWaitsOk, SendWaitsOk, WokenOk, SendFutOk;
  }

  lemma FateOfGone(s: State, f: nat)
    requires Core(s) && f in s.h.sent && OfSend(f) !in s.w.ids && f !in s.k.dropping
    ensures FateOk(s.h.sent[f])
  {
    hide QueueOk, HoldersOk, ListOk, WakesOk, EndedOk, SendsOk, SendIdsOk, TakersOk, VerdictsOk, RecvsOk,
         TerminatedOk, WaitNamesOk, RecvWaitsOk, SendWaitsOk, WokenOk, FateOk;
  }

  lemma RetiredIsGone(s: State, o: Owner)
    requires o in s.w.ids
    ensures o !in Retired(s, o).w.ids && Retired(s, o).w.nextName == s.w.nextName
  {
    hide RemoveId;
  }

  lemma BuryBorrowed(t: State, o: Owner)
    ensures Bury(t.(b := t.b.(busy := t.b.busy + {o})), o) == Bury(t, o)
  {
    hide Without;
    assert t.b.busy + {o} - {o} == t.b.busy - {o};
  }

  lemma ForgetBorrowed(t: State, o: Owner, b: Borrows)
    requires o in t.w.ids
    ensures Forget(t.(b := b), o) == Forget(t, o).(b := b) && Forget(t, o).b == t.b
    ensures ToGuard(t.(b := b), o) == ToGuard(t, o).(b := b) && ToGuard(t, o).b == t.b
  {
    hide RemoveId;
  }

  /** A drop borrows its owner only for as long as it takes away the registration. */
  lemma DropTurn(s: State, o: Owner)
    requires o in s.w.ids
    ensures Bury(Forget(Begin(s, o), o), o) == Bury(Forget(Reset(s, o), o), o)
    ensures Bury(ToGuard(Begin(s, o), o), o) == Bury(ToGuard(Reset(s, o), o), o)
    ensures Reset(s, o).w == s.w && Reset(s, o).k == s.k
  {
    hide Forget, ToGuard, Bury;
    var r := Reset(s, o);
    ForgetBorrowed(r, o, s.b.(busy := s.b.busy + {o}));
    BuryBorrowed(Forget(r, o), o);
    BuryBorrowed(ToGuard(r, o), o);
  }

  lemma BuryForgotten(s: State, o: Owner)
    requires o in s.w.ids
    ensures var t := Bury(s, o);
            Bury(Forget(s, o), o) ==
            match s.w.ids[o]
            case None => t
            case Some(id) => if o.OfSend? then t.(sw := RemoveId(t.sw, id)) else t.(rw := RemoveId(t.rw, id))
  {
    hide RemoveId;
    assert s.w.ids[o := None] - {o} == s.w.ids - {o};
  }

  /** Taking the id out of a cell that disappears, and then its entry out of the list. */
  lemma ForgetThenBury(s: State, o: Owner)
    requires o in s.w.ids && o !in s.b.busy
    ensures var t := Bury(Reset(s, o), o);
            Retired(s, o) ==
            match s.w.ids[o]
            case None => t
            case Some(id) => if o.OfSend? then t.(sw := RemoveId(t.sw, id)) else t.(rw := RemoveId(t.rw, id))
  {
    hide RemoveId, Reset, Bury, Forget, Begin, ToGuard;
    DropTurn(s, o);
    BuryForgotten(Reset(s, o), o);
  }

  lemma BuryGuarded(s: State, o: Owner)
    requires o in s.w.ids && o.OfStream?
    ensures var t := Bury(s, o);
            StartCleaning(Bury(ToGuard(s, o), o)) ==
            match s.w.ids[o]
            case None => StartCleaning(t)
            case Some(id) => t.(k := t.k.(guards := t.k.guards + {Entry(id, o)}, cleaning := true))
  {
    assert s.w.ids[o := None] - {o} == s.w.ids - {o};
  }

  lemma GuardThenBury(s: State, rx: nat)
    requires OfStream(rx) in s.w.ids && OfStream(rx) !in s.b.busy
    ensures var o := OfStream(rx);
            var t := Bury(Reset(s, o), o);
            LastRetired(s, rx) ==
            match s.w.ids[o]
            case None => StartCleaning(t)
            case Some(id) => t.(k := t.k.(guards := t.k.guards + {Entry(id, o)}, cleaning := true))
  {
    hide Reset, Bury, Forget, Begin, ToGuard, StartCleaning;
    DropTurn(s, OfStream(rx));
    BuryGuarded(Reset(s, OfStream(rx)), OfStream(rx));
  }

  lemma EmptyIsOut(s: State)
    requires Core(s) && Empty(s)
    ensures s.out == s.accepted
  {
    hide WorldOk, HoldersOk, ListOk, WakesOk, SendsOk, RecvsOk, TerminatedOk, WaitNamesOk, RecvWaitsOk, SendWaitsOk,
         WokenOk;
  }

  lemma SendersGone(busy: set<Owner>, a: State, b: State)
    requires Rel(busy, a, b)
    ensures a.senders == 0 ==> b.senders == 0
  {
    hide AllKept;
  }

  lemma StillGone(busy: set<Owner>, a: State, b: State)
    requires Rel(busy, a, b) && a.receivers == 0
    ensures b.receivers == 0 && b.q == a.q && b.slot == a.slot && b.out == a.out && b.accepted == a.accepted
  {
    hide AllKept;
  }

  lemma DrainedGuard(u: State, v: State, e: Entry)
    requires Drains(u, v) && e in v.k.guards
    ensures Inv(DropGuard(v, e)) && Passed(u, DropGuard(v, e))
  {
    hide Core, Mono, AllKept;
    DropGuardKeeps(v, e);
    PassedTransitive(u, v, DropGuard(v, e));
  }

  lemma GuardDropped(u: State, v: State, e: Entry, n: State)
    requires Drains(u, v) && e in v.k.guards && After(DropGuard(v, e), n)
    ensures Passed(u, n) && n.b == u.b && n.receivers == 0
    ensures n.q == v.q && n.slot == v.slot && n.out == v.out && n.accepted == v.accepted
  {
    hide Core, AllKept;
    DrainedGuard(u, v, e);
    PassedTransitive(u, DropGuard(v, e), n);
  }

  // ---- Whole runs ------------------------------------------------------------------------------

  lemma OwnersExist(s: State)
    requires Core(s)
    ensures forall f <- s.w.recvs :: OfRecv(f) in s.w.ids
    ensures forall r <- s.w.rxs :: OfStream(r) in s.w.ids
    ensures forall f <- s.w.sends :: OfSend(f) in s.w.ids
  {
    hide QueueOk, HoldersOk, ListOk, WakesOk, SendsOk, RecvsOk, TerminatedOk, WaitNamesOk, RecvWaitsOk, SendWaitsOk,
         WokenOk;
  }

  lemma TerminatedStays(s: State, o: Owner)
    requires Core(s) && o in s.w.ids
    ensures o in s.h.terminated ==> Terminated(s.w, Drained(s), o)
  {
    hide QueueOk, WorldOk, HoldersOk, ListOk, WakesOk, SendsOk, RecvsOk, WaitNamesOk, RecvWaitsOk, SendWaitsOk,
         WokenOk;
  }

  /** A new channel: one sender, named 0, and one receiver, named 1. */
  function Initial(cap: Option<nat>, asks: multiset<Ask>): State {
    State(cap, [], None, 1, 1, false, [], 0, [], 0,
          World({0}, {1}, map[], map[], map[OfStream(1) := None], 2),
          Borrows({}, multiset{}, multiset{}), [], [],
          History(map[], map[], map[], map[], {}, map[], {}, false, 0, [], 0),
          Stack({}, {}, {}, {}, false, false, {}, {}), asks)
  }

  lemma InitialOk(cap: Option<nat>, asks: multiset<Ask>)
    ensures Inv(Initial(cap, asks))
  {
  }

  /** No channel call is in progress. */
  ghost predicate Quiescent(s: State) {
    Inv(s) && s.k == Stack({}, {}, {}, {}, false, false, {}, {}) && s.b == Borrows({}, multiset{}, multiset{})
  }

  /** The states between the top-level calls of one run on a new channel. */
  ghost predicate IsRun(cap: Option<nat>, seen: seq<State>) {
    && seen != [] && seen[0] == Initial(cap, seen[0].asks)
    && (forall i | 0 <= i < |seen| :: Quiescent(seen[i]))
    && (forall i | 0 <= i < |seen| - 1 :: After(seen[i], seen[i + 1]))
  }

  lemma RunBegins(cap: Option<nat>, asks: multiset<Ask>)
    ensures IsRun(cap, [Initial(cap, asks)])
  {
    hide Core;
    InitialOk(cap, asks);
  }

  lemma RunAlive(cap: Option<nat>, seen: seq<State>)
    requires IsRun(cap, seen)
    ensures seen != [] && Inv(seen[|seen| - 1])
  {
    hide Core, Rel;
  }

  lemma RunGoesOn(cap: Option<nat>, seen: seq<State>, s: State)
    requires IsRun(cap, seen) && After(seen[|seen| - 1], s)
    ensures IsRun(cap, seen + [s])
  {
    hide Core, Rel;
  }
}
