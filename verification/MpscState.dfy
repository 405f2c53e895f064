/**
The receive side of the single-consumer channel, for runs in which no user code panics: its
state, what holds whenever user code runs, and what user code may change.
 */
module MpscState {
  import opened Common

  datatype Hand = Held | InUse | Released

  datatype Wait = Idle | Polling | Parked | Woken

  /**
  The cells of `Chan` (`waker` names the poll whose waker is stored, `parked` lists the ids of the
  registered sends), who has the receiver, the number of polls, and history as for `mpmc`: `woken` are
  the polls whose waker has been woken, `sendsWoken` and `sendsGone` the sends that were woken and
  those that removed their own registration.
   */
  datatype State = State(
    cap: Option<nat>,
    q: seq<Payload>,
    senders: nat,
    alive: bool,
    closed: bool,
    waker: Option<nat>,
    parked: seq<nat>,
    nextPark: nat,
    rx: Hand,
    polls: nat,
    wait: Wait,
    woken: set<nat>,
    sendsWoken: set<nat>,
    sendsGone: set<nat>,
    accepted: seq<Payload>,
    out: seq<Payload>)

  predicate Disconnected(s: State) {
    s.senders == 0 || s.closed
  }

  predicate Full(s: State) {
    s.cap == Some(|s.q|)
  }

  /** What holds whenever user code runs. */
  ghost predicate Inv(s: State) {
    && s.accepted == s.out + s.q
    && (s.cap.Some? ==> |s.q| <= s.cap.value)
    && (s.rx == Held ==> s.alive)
    && (s.rx == Released ==> !s.alive && s.q == [])
    && (!s.alive ==> s.wait == Idle)
    && (Disconnected(s) || s.rx == Released ==> s.waker.None?)
    && (s.wait == Polling ==> s.rx == InUse && s.waker == Some(s.polls))
    && (s.wait == Parked ==> s.rx == Held && s.waker == Some(s.polls) && s.q == [] && !Disconnected(s))
    && (s.wait == Woken && s.rx == InUse ==> s.q != [] || Disconnected(s))
    && (s.wait == Woken ==> s.polls in s.woken)
    && (s.waker.Some? ==> s.waker.value <= s.polls && s.waker.value !in s.woken)
    && (forall p <- s.woken :: p <= s.polls)
    && ParkedOk(s)
  }

  /** A registered send was given its own id, and has been neither woken nor removed. */
  ghost predicate ParkedOk(s: State) {
    && NoDup(s.parked)
    && (forall id <- s.parked :: id < s.nextPark && id !in s.sendsWoken && id !in s.sendsGone)
    && (forall id <- s.sendsWoken :: id < s.nextPark)
    && (forall id <- s.sendsGone :: id < s.nextPark)
  }

  /** The poll in progress has not stored its waker. */
  ghost predicate Unregistered(s: State) {
    s.polls !in s.woken && s.waker != Some(s.polls)
  }

  /**
  A receiver that is neither polled nor dropped keeps its place with the executor: it stays parked
  until it is woken, and it is woken only when an item was accepted or the channel disconnected.
   */
  ghost predicate WaitKept(a: State, b: State) {
    a.rx == Held && b.polls == a.polls && b.alive ==>
      && b.rx == Held
      && (b.wait == a.wait || (a.wait == Parked && b.wait == Woken && (|b.accepted| > |a.accepted| || Disconnected(b))))
  }

  /** Ids are not used again, and a send that was woken or removed stays so. */
  ghost predicate ParkedGrow(a: State, b: State) {
    && a.nextPark <= b.nextPark
    && a.sendsWoken <= b.sendsWoken && a.sendsGone <= b.sendsGone
    && (forall id <- b.parked :: id in a.parked || a.nextPark <= id)
  }

  /** A registered send stays registered until it is woken, or removes its own registration. */
  ghost predicate ParkedTraced(a: State, b: State) {
    forall id <- a.parked :: id in b.parked || id in b.sendsWoken || id in b.sendsGone
  }

  /** Histories grow, and closing and dropping are final. */
  ghost predicate Mono(a: State, b: State) {
    && WaitKept(a, b)
    && ParkedGrow(a, b) && ParkedTraced(a, b)
    && b.cap == a.cap
    && a.accepted <= b.accepted && a.out <= b.out && a.polls <= b.polls && a.woken <= b.woken
    && (a.closed ==> b.closed)
    && (a.senders == 0 ==> b.senders == 0)
    && (!a.alive ==> !b.alive)
    && (a.rx == Released ==> b.rx == Released)
    && (Disconnected(a) || !a.alive ==> b.accepted == a.accepted)
  }

  /** A receiver in use is left alone, except that its waker may be woken. */
  ghost predicate ReceiverKept(a: State, b: State) {
    a.rx == InUse ==>
      && b.rx == InUse && b.alive == a.alive && b.polls == a.polls && b.out == a.out
      && (b.wait == a.wait || (a.wait == Polling && b.wait == Woken))
      && (b.waker == a.waker || (b.waker.None? && a.waker.Some? && a.waker.value in b.woken))
      && (Unregistered(a) ==> Unregistered(b))
  }

  ghost predicate After(a: State, b: State) {
    Inv(b) && Mono(a, b) && ReceiverKept(a, b)
  }

  /** A call that uses the receiver, and lets user code run, took the channel from `a` to `b`. */
  ghost predicate ReceiverRan(a: State, b: State) {
    Inv(b) && Mono(a, b)
  }

  lemma AfterTransitive(a: State, b: State, c: State)
    requires After(a, b) && After(b, c)
    ensures After(a, c)
  {
    hide Inv;
  }

  lemma ReceiverRanTransitive(a: State, b: State, c: State)
    requires ReceiverRan(a, b) && ReceiverRan(b, c)
    ensures ReceiverRan(a, c)
  {
    hide Inv;
  }

  lemma NothingRan(s: State)
    requires Inv(s)
    ensures After(s, s)
  {
    hide Inv;
  }

  lemma RanIsAfter(a: State, b: State)
    ensures ReceiverRan(a, b) && a.rx != InUse ==> After(a, b)
  {
    hide Inv, Mono;
  }

  /** While the receiver is in use nothing is taken out, so items only join the queue. */
  lemma QueueGrows(a: State, b: State)
    requires Inv(a) && After(a, b) && a.rx == InUse
    ensures b.rx == InUse && b.alive == a.alive && b.polls == a.polls && b.out == a.out && a.q <= b.q
    ensures b.wait == a.wait || (a.wait == Polling && b.wait == Woken)
    ensures b.waker == a.waker || (b.waker.None? && a.waker.Some? && a.waker.value in b.woken)
    ensures Unregistered(a) ==> Unregistered(b)
    ensures Disconnected(a) ==> Disconnected(b)
    ensures Disconnected(a) || !a.alive ==> b.q == a.q
  {
    assert a.q == a.accepted[|a.out|..] && b.q == b.accepted[|a.out|..];
  }

  lemma AcceptedGrows(a: State, b: State)
    requires After(a, b)
    ensures a.accepted <= b.accepted
  {
    hide Inv;
  }

  /** What has been woken stays woken. */
  lemma WokenStays(a: State, b: State)
    requires ReceiverRan(a, b)
    ensures a.woken <= b.woken && a.sendsWoken <= b.sendsWoken
  {
    hide Inv;
  }

  lemma PollsGrow(a: State, b: State)
    requires ReceiverRan(a, b)
    ensures a.polls <= b.polls
  {
    hide Inv;
  }

  lemma ClosedStays(a: State, b: State)
    requires After(a, b) && a.closed
    ensures b.closed
  {
    hide Inv;
  }

  /** On a disconnected channel nobody is parked, and no waker is kept. */
  lemma NobodyParked(s: State)
    requires Inv(s) && Disconnected(s)
    ensures s.waker.None? && s.wait != Parked
  {
  }

  lemma SendersGone(a: State, b: State)
    requires After(a, b) && a.senders == 0
    ensures b.senders == 0
  {
    hide Inv;
  }

  lemma DeadIsIdle(s: State)
    requires Inv(s) && !s.alive
    ensures s.wait == Idle
  {
  }

  lemma AllOut(a: State, b: State)
    requires ReceiverRan(a, b) && !a.alive && b.q == []
    ensures b.out == b.accepted == a.accepted
  {
  }

  // ---- Steps without user code -----------------------------------------------------------------

  function TakeWaker(s: State): State {
    s.(waker := None,
       wait := if s.wait == Polling || s.wait == Parked then Woken else s.wait,
       woken := if s.waker.Some? then s.woken + {s.waker.value} else s.woken)
  }

  function Push(s: State, x: Payload): State {
    s.(q := s.q + [x], accepted := s.accepted + [x])
  }

  lemma PushKeeps(s: State, x: Payload)
    requires Inv(s) && s.alive && !Disconnected(s) && !Full(s)
    ensures After(s, TakeWaker(Push(s, x)))
  {
    assert s.out + (s.q + [x]) == s.out + s.q + [x];
  }

  lemma CloseKeeps(s: State)
    requires Inv(s)
    ensures After(s, TakeWaker(s.(closed := true)))
  {
  }

  lemma SendersKeeps(s: State, n: nat)
    requires Inv(s) && s.senders > 0
    ensures n > 0 ==> After(s, s.(senders := n))
    ensures n == 0 ==> After(s, TakeWaker(s.(senders := 0)))
  {
  }

  /** The registration of a send, once its waker is cloned. */
  function Park(s: State): State {
    s.(parked := s.parked + [s.nextPark], nextPark := s.nextPark + 1)
  }

  lemma ParkKeeps(s: State)
    requires Inv(s)
    ensures After(s, Park(s))
  {
    forall i | 0 <= i < |s.parked| ensures s.parked[i] != s.nextPark {
      assert s.parked[i] in s.parked;
    }
  }

  /** The index of this id. */
  function Position(list: seq<nat>, id: nat): (r: Option<nat>)
    ensures r.Some? ==> r.value < |list| && list[r.value] == id
    ensures r.None? ==> id !in list
  {
    if list == [] then None
    else if list[0] == id then Some(0)
    else
      match Position(list[1..], id)
      case None => None
      case Some(i) => Some(i + 1)
  }

  /** A send removes its own registration, if it is still there. */
  function Unpark(s: State, id: nat): State {
    match Position(s.parked, id)
    case None => s
    case Some(i) => s.(parked := SwapRemove(s.parked, i), sendsGone := s.sendsGone + {id})
  }

  lemma UnparkKeeps(s: State, id: nat)
    requires Inv(s)
    ensures After(s, Unpark(s, id)) && id !in Unpark(s, id).parked
  {
    match Position(s.parked, id)
    case None => NothingRan(s);
    case Some(i) => SwapRemoveElems(s.parked, i);
  }

  /** The waking of every registered send, when no user code has anything to do. */
  function WakeParked(s: State, n: nat): State
    requires n <= |s.parked|
  {
    s.(parked := [], sendsWoken := s.sendsWoken + set id | id in s.parked[..n])
  }

  lemma TakenKeeps(s: State)
    requires Inv(s)
    ensures Inv(s.(parked := [])) && WakeParked(s, 0) == s.(parked := [])
  {
  }

  /** A send whose id was taken out of the list is woken. */
  lemma WakeKeeps(s: State, t: State, id: nat)
    requires After(s.(parked := []), t) && id < s.nextPark
    ensures id !in t.parked && After(s.(parked := []), t.(sendsWoken := t.sendsWoken + {id}))
  {
  }

  lemma WokenUpTo(s: State, i: nat)
    requires i < |s.parked|
    ensures var t := WakeParked(s, i);
            WakeParked(s, i + 1) == t.(sendsWoken := t.sendsWoken + {s.parked[i]})
  {
    assert s.parked[..i + 1] == s.parked[..i] + [s.parked[i]];
  }

  /** When all of them have been woken, none has vanished. */
  lemma AllWoken(s: State, t: State)
    requires Inv(s) && After(s.(parked := []), t) && forall id <- s.parked :: id in t.sendsWoken
    ensures After(s, t)
  {
    hide Inv;
  }

  lemma ParkedAre(s: State)
    requires Inv(s)
    ensures forall id <- s.parked :: id < s.nextPark
  {
  }

  lemma NextIds(a: State, b: State)
    requires After(a, b)
    ensures a.nextPark <= b.nextPark
  {
    hide Inv;
  }

  lemma NotParkedAgain(a: State, b: State, id: nat)
    requires After(a, b) && id !in a.parked && id < a.nextPark
    ensures id !in b.parked && a.sendsGone <= b.sendsGone
  {
    hide Inv;
  }

  /** A send that was registered has been woken, or has removed its registration, once all are woken. */
  lemma SendsAccounted(a: State, b: State, c: State)
    requires After(a, b) && After(b, c) && forall id <- b.parked :: id in c.sendsWoken
    ensures forall id <- a.parked :: id in c.sendsWoken || id in c.sendsGone
  {
    hide Inv;
  }

  function BeginPoll(s: State): State {
    s.(rx := InUse, wait := Idle, polls := s.polls + 1)
  }

  lemma BeginPollKeeps(s: State)
    requires Inv(s) && s.rx == Held
    ensures ReceiverRan(s, BeginPoll(s)) && s.alive && Unregistered(BeginPoll(s))
  {
  }

  function Pop(s: State): State
    requires s.q != []
  {
    s.(q := s.q[1..], out := s.out + [s.q[0]])
  }

  /** What taking an item amounts to when no user code has anything to do. */
  function Taken(s: State): State
    requires s.q != []
  {
    WakeParked(Pop(s.(polls := s.polls + 1, wait := Idle)), |s.parked|)
  }

  /** A canceled receive, likewise. */
  function Canceled(s: State): State {
    s.(polls := s.polls + 1, wait := Idle, waker := None)
  }

  /** A poll, likewise: it takes an item, or ends on a disconnected channel, or parks. */
  function Polled(s: State): State {
    if s.q != [] then Taken(s)
    else if Disconnected(s) then Canceled(s)
    else s.(polls := s.polls + 1, wait := Parked, waker := Some(s.polls + 1))
  }

  /** Nobody waits for the receiver's waker while an item is taken out. */
  lemma PopKeeps(s: State)
    requires Inv(s) && s.rx == InUse && s.wait != Woken && s.q != []
    ensures ReceiverRan(s, Pop(s))
  {
    assert s.out + [s.q[0]] + s.q[1..] == s.out + s.q;
  }

  lemma IdleKeeps(s: State)
    requires Inv(s) && s.rx == InUse
    ensures ReceiverRan(s, s.(wait := Idle))
    ensures ReceiverRan(s, s.(wait := Idle, waker := None))
  {
  }

  function StoreWaker(s: State): State {
    s.(waker := Some(s.polls), wait := Polling)
  }

  lemma StoreWakerKeeps(s: State)
    requires Inv(s) && s.rx == InUse && s.alive && !Disconnected(s) && Unregistered(s)
    ensures ReceiverRan(s, StoreWaker(s))
  {
  }

  lemma EndPollKeeps(s: State)
    requires Inv(s) && s.rx == InUse && s.alive
    ensures ReceiverRan(s, s.(rx := Held, wait := Idle))
    ensures s.wait == Polling && s.q == [] && !Disconnected(s) ==> ReceiverRan(s, s.(rx := Held, wait := Parked))
    ensures s.wait == Woken ==> s.q != [] || Disconnected(s)
  {
  }

  function ReceiverDrops(s: State): State {
    s.(rx := InUse, alive := false, wait := Idle)
  }

  lemma ReceiverDropsKeeps(s: State)
    requires Inv(s) && s.rx == Held
    ensures ReceiverRan(s, ReceiverDrops(s))
  {
  }

  lemma ReleaseKeeps(s: State)
    requires Inv(s) && s.rx == InUse && !s.alive && s.q == [] && s.waker.None?
    ensures ReceiverRan(s, s.(rx := Released))
  {
  }

  // ---- What the channel promises ---------------------------------------------------------------

  /** A receiver that was parked, and has been neither polled nor dropped since, is parked or was woken for a reason. */
  lemma WaitsUntilWoken(s: State, t: State)
    requires Inv(s) && s.wait == Parked && After(s, t) && t.polls == s.polls && t.alive
    ensures if t.wait == Parked then t.waker == Some(s.polls) && t.q == [] && !Disconnected(t)
            else t.wait == Woken && s.polls in t.woken && (|t.accepted| > |s.accepted| || Disconnected(t))
  {
  }

  /** A parked receiver: the queue is empty, the channel is open, and its last waker is stored. */
  lemma ParkedCanBeWoken(s: State)
    requires Inv(s) && s.wait == Parked
    ensures s.accepted == s.out && s.senders > 0 && !s.closed && s.waker == Some(s.polls)
  {
  }

  /** A registered send is registered until it is woken or gives up, and is never registered again. */
  lemma SendWaitsUntilWoken(s: State, t: State, id: nat)
    requires Inv(s) && After(s, t) && id < s.nextPark
    ensures if id in s.parked then (id in t.parked) != (id in t.sendsWoken || id in t.sendsGone) else id !in t.parked
  {
  }

  /** A drained channel stays drained and keeps no waker. */
  lemma DrainedIsForever(s: State, t: State)
    requires Inv(s) && Disconnected(s) && s.q == [] && After(s, t)
    ensures Disconnected(t) && t.q == [] && t.out == s.out && t.waker.None?
  {
    assert s.accepted == s.out;
    assert |t.accepted| == |t.out| + |t.q|;
  }
}
