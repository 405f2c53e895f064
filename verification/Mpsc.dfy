/** The receive side of the single-consumer channel as an object; user code is played from a script. */
module Mpsc {
  import opened Common
  import opened MpscState

  /** `OpParkSend` and `OpUnparkSend` are what the `Send` futures do with their wakers. */
  datatype Op =
    | OpTrySend(item: Payload)
    | OpCloseTx
    | OpCloneTx
    | OpDropTx
    | OpParkSend
    | OpUnparkSend(id: nat)
    | OpPollRecv
    | OpTryRecv
    | OpCancelRecv
    | OpCloseRx
    | OpDropRx

  datatype Choice = Call(op: Op) | Return

  datatype SendResult = Accepted | IsFull(item: Payload) | IsClosed(item: Payload)

  datatype RecvResult = Item(item: Payload) | NoItem | Hangup

  /** The mark that a call leaves between `a` and `b`, whatever user code does meanwhile; none without the handle. */
  ghost predicate Performed(op: Op, a: State, b: State) {
    match op
    case OpTrySend(item) =>
      a.senders > 0 && a.alive && !a.closed && !Full(a) ==> a.accepted + [item] <= b.accepted
    case OpCloseTx => a.senders > 0 && a.alive ==> b.closed
    case OpCloneTx => a.senders > 0 ==> b == a.(senders := a.senders + 1)
    case OpDropTx => a.senders > 0 ==> if a.senders == 1 then b.senders == 0 else b == a.(senders := a.senders - 1)
    case OpParkSend => exists id | id in b.parked :: a.nextPark <= id
    case OpUnparkSend(id) => id !in b.parked
    case OpPollRecv => a.rx == Held ==> a.polls < b.polls
    case OpTryRecv => a.rx == Held && a.q != [] ==> b.out == a.out + [a.q[0]]
    case OpCancelRecv => a.rx == Held ==> b.waker.None? && b.wait == Idle
    case OpCloseRx => a.rx == Held && a.senders > 0 ==> b.closed
    case OpDropRx => a.rx == Held ==> b.rx == Released
  }

  class Chan {
    const cap: Option<nat>
    var flavor: seq<Payload>
    var senders: nat
    var receiverAlive: bool
    var closed: bool
    var recvWaker: Option<nat>
    var sendWakers: seq<nat>
    var nextSendId: nat

    var rx: Hand
    var polls: nat
    var script: seq<Choice>

    ghost var wait: Wait
    ghost var woken: set<nat>
    ghost var sendsWoken: set<nat>
    ghost var sendsGone: set<nat>
    ghost var accepted: seq<Payload>
    ghost var out: seq<Payload>
    ghost var borrowed: bool  // some cell is borrowed at this moment

    ghost function Now(): State
      reads this
    {
      State(cap, flavor, senders, receiverAlive, closed, recvWaker, sendWakers, nextSendId, rx, polls, wait, woken,
            sendsWoken, sendsGone, accepted, out)
    }

    constructor (cap: Option<nat>, script: seq<Choice>)
      requires cap != Some(0)
      ensures Inv(Now()) && !borrowed && this.script == script
      ensures Now().rx == Held && Now().q == [] && Now().senders == 1
    {
      this.cap, flavor, senders, receiverAlive, closed, recvWaker := cap, [], 1, true, false, None;
      sendWakers, nextSendId, sendsWoken, sendsGone := [], 0, {}, {};
      rx, polls, this.script := Held, 0, script;
      wait, woken, accepted, out, borrowed := Idle, {}, [], [], false;
    }

    // ---- Cells: no user code runs in any of these -----------------------------------------------

    predicate IsDisconnected()
      reads this
      ensures IsDisconnected() == Disconnected(Now())
    {
      senders == 0 || closed
    }

    predicate HasItems()
      reads this
      ensures HasItems() == (Now().q != [])
    {
      flavor != []
    }

    predicate IsAlive()
      reads this
      ensures IsAlive() == Now().alive
    {
      receiverAlive
    }

    predicate IsMarkedClosed()
      reads this
      ensures IsMarkedClosed() == Now().closed
    {
      closed
    }

    function Senders(): nat
      reads this
      ensures Senders() == Now().senders
    {
      senders
    }

    function Receiver(): Hand
      reads this
      ensures Receiver() == Now().rx
    {
      rx
    }

    method TryPush(item: Payload) returns (ok: bool)
      requires !borrowed
      modifies this
      ensures ok == !Full(old(Now())) && Now() == if ok then Push(old(Now()), item) else old(Now())
      ensures script == old(script) && !borrowed
    {
      borrowed := true;
      ok := !(cap == Some(|flavor|));
      if ok {
        flavor := flavor + [item];
        accepted := accepted + [item];
      }
      borrowed := false;
    }

    /** Takes the oldest item out; the poll in progress, if any, waits no longer. */
    method PopFront() returns (item: Option<Payload>)
      requires !borrowed
      modifies this
      ensures var s := old(Now());
              if s.q == [] then item.None? && Now() == s
              else item == Some(s.q[0]) && Now() == Pop(s.(wait := Idle))
      ensures script == old(script) && !borrowed
    {
      borrowed := true;
      if flavor == [] {
        item := None;
      } else {
        item := Some(flavor[0]);
        out := out + [flavor[0]];
        flavor := flavor[1..];
        wait := Idle;
      }
      borrowed := false;
    }

    method TakeStored() returns (waker: Option<nat>)
      requires !borrowed
      modifies this
      ensures waker == old(Now()).waker && Now() == old(Now()).(waker := None)
      ensures script == old(script) && !borrowed
    {
      borrowed := true;
      waker := recvWaker;
      recvWaker := None;
      borrowed := false;
    }

    method Replace() returns (replaced: Option<nat>)
      requires !borrowed
      modifies this
      ensures replaced == old(Now()).waker && Now() == StoreWaker(old(Now()))
      ensures script == old(script) && !borrowed
    {
      borrowed := true;
      replaced := recvWaker;
      recvWaker := Some(polls);
      wait := Polling;
      borrowed := false;
    }

    method TakeSendWakers() returns (ids: seq<nat>)
      requires !borrowed
      modifies this
      ensures ids == old(Now()).parked && Now() == old(Now()).(parked := [])
      ensures script == old(script) && !borrowed
    {
      borrowed := true;
      ids := sendWakers;
      sendWakers := [];
      borrowed := false;
    }

    method PushSendWaker() returns (id: nat)
      requires !borrowed
      modifies this
      ensures id == old(Now()).nextPark && Now() == Park(old(Now()))
      ensures script == old(script) && !borrowed
    {
      id := nextSendId;
      nextSendId := id + 1;
      borrowed := true;
      sendWakers := sendWakers + [id];
      borrowed := false;
    }

    method RemoveSendEntry(id: nat) returns (found: bool)
      requires !borrowed
      modifies this
      ensures found == (id in old(Now()).parked) && Now() == Unpark(old(Now()), id)
      ensures script == old(script) && !borrowed
    {
      borrowed := true;
      var position := Position(sendWakers, id);
      found := position.Some?;
      if found {
        sendWakers := SwapRemove(sendWakers, position.value);
        sendsGone := sendsGone + {id};
      }
      borrowed := false;
    }

    method SetSenders(n: nat)
      modifies this
      ensures Now() == old(Now()).(senders := n)
      ensures script == old(script) && borrowed == old(borrowed)
    {
      senders := n;
    }

    method SetClosed()
      modifies this
      ensures Now() == old(Now()).(closed := true)
      ensures script == old(script) && borrowed == old(borrowed)
    {
      closed := true;
    }

    method StartPoll()
      modifies this
      ensures Now() == BeginPoll(old(Now()))
      ensures script == old(script) && borrowed == old(borrowed)
    {
      rx, wait, polls := InUse, Idle, polls + 1;
    }

    method SetReceiver(hand: Hand, ghost w: Wait)
      modifies this
      ensures Now() == old(Now()).(rx := hand, wait := w)
      ensures script == old(script) && borrowed == old(borrowed)
    {
      rx, wait := hand, w;
    }

    method ClearReceiver()
      modifies this
      ensures Now() == ReceiverDrops(old(Now()))
      ensures script == old(script) && borrowed == old(borrowed)
    {
      rx, receiverAlive, wait := InUse, false, Idle;
    }

    ghost method SetWait(w: Wait)
      modifies this
      ensures Now() == old(Now()).(wait := w)
      ensures script == old(script) && borrowed == old(borrowed)
    {
      wait := w;
    }

    /** History only: the waker of this poll is woken. */
    ghost method NoteWoken(p: nat)
      modifies this
      ensures Now() == old(Now()).(woken := old(Now()).woken + {p})
      ensures script == old(script) && borrowed == old(borrowed)
    {
      woken := woken + {p};
    }

    /** History only: this send is woken. */
    ghost method NoteSendWoken(id: nat)
      modifies this
      ensures Now() == old(Now()).(sendsWoken := old(Now()).sendsWoken + {id})
      ensures script == old(script) && borrowed == old(borrowed)
    {
      sendsWoken := sendsWoken + {id};
    }

    // ---- User code ------------------------------------------------------------------------------

    method UserCode()
      requires Inv(Now()) && !borrowed
      modifies this
      ensures After(old(Now()), Now()) && !borrowed && |script| <= old(|script|)
      ensures |script| == old(|script|) ==> Now() == old(Now())
      ensures Played(old(|script|), |script|, 1)
      decreases |script|, 0
    {
      hide Inv, Mono, ReceiverKept;
      NothingRan(Now());
      while script != []
        invariant After(old(Now()), Now()) && !borrowed && |script| <= old(|script|)
        invariant |script| == old(|script|) ==> Now() == old(Now())
        decreases |script|
      {
        var choice := script[0];
        script := script[1..];
        match choice
        case Return => return;
        case Call(op) =>
          ghost var before := Now();
          Perform(op);
          AfterTransitive(old(Now()), before, Now());
      }
    }

    /** One call by user code, if it holds the handle that the call needs. */
    method Perform(op: Op)
      requires Inv(Now()) && !borrowed
      modifies this
      ensures After(old(Now()), Now()) && !borrowed && |script| <= old(|script|)
      ensures Performed(op, old(Now()), Now())
      decreases |script|, 10
    {
      hide Inv, Mono, ReceiverKept, Now;
      ghost var s := Now();
      NothingRan(s);
      match op
      case OpTrySend(item) => if Senders() > 0 { var r := TrySend(item); }
      case OpCloseTx => if Senders() > 0 { var r := CloseBy(true); }
      case OpCloneTx => if Senders() > 0 { CloneSender(); }
      case OpDropTx => if Senders() > 0 { DropSender(); }
      case OpParkSend => var id := AddSendWaker();
      case OpUnparkSend(id) => RemoveSendWaker(id);
      case OpPollRecv => if Receiver() == Held { var r := PollRecv(); }
      case OpTryRecv => if Receiver() == Held { var r := TryRecv(); }
      case OpCancelRecv => if Receiver() == Held { CancelRecv(); }
      case OpCloseRx => if Receiver() == Held { var r := CloseBy(false); }
      case OpDropRx => if Receiver() == Held { DropReceiver(); }
    }

    // ---- Waking ---------------------------------------------------------------------------------

    method WakeReceiver()
      requires Inv(TakeWaker(Now())) && !borrowed
      modifies this
      ensures After(TakeWaker(old(Now())), Now()) && !borrowed && |script| <= old(|script|)
      ensures |script| == old(|script|) ==> Now() == TakeWaker(old(Now()))
      ensures Woke(old(Now()).waker, old(|script|))
      ensures old(Now()).waker.None? ==> script == old(script)
      decreases |script|, 1
    {
      hide Inv, Mono, ReceiverKept, Now;
      ghost var t := TakeWaker(Now());
      NothingRan(t);
      var waker := TakeStored();
      SetWait(t.wait);
      if waker.Some? {
        NoteWoken(waker.value);
        UserCode();
        WokenStays(t, Now());
      }
    }

    /** The waker that was stored has been woken, and the choice that this gave user code was played. */
    ghost predicate Woke(waker: Option<nat>, before: nat)
      reads this
    {
      waker.Some? ==> waker.value in Now().woken && Played(before, |script|, 1)
    }

    /** Every parked send is woken; the list is taken first. */
    method WakeSenders()
      requires Inv(Now()) && !borrowed
      modifies this
      ensures After(old(Now()), Now()) && !borrowed && |script| <= old(|script|)
      ensures |script| == old(|script|) ==> Now() == WakeParked(old(Now()), |old(Now()).parked|)
      ensures Played(old(|script|), |script|, |old(Now()).parked|)
      ensures forall id <- old(Now()).parked :: id in Now().sendsWoken
      decreases |script|, 1
    {
      hide Inv, Mono, ReceiverKept, Now;
      ghost var s := Now();
      ghost var taken := s.(parked := []);
      TakenKeeps(s);
      NothingRan(taken);
      ParkedAre(s);
      var ids := TakeSendWakers();
      for i := 0 to |ids|
        invariant After(taken, Now()) && !borrowed && |script| <= old(|script|)
        invariant |script| == old(|script|) ==> Now() == WakeParked(s, i)
        invariant Played(old(|script|), |script|, i)
        invariant forall k | 0 <= k < i :: ids[k] in Now().sendsWoken
      {
        assert ids[i] in s.parked;
        WakeKeeps(s, Now(), ids[i]);
        WokenUpTo(s, i);
        NoteSendWoken(ids[i]);
        ghost var before := Now();
        UserCode();
        WokenStays(before, Now());
        AfterTransitive(taken, before, Now());
      }
      AllWoken(s, Now());
    }

    // ---- What the `Send` futures do -------------------------------------------------------------

    /** `add_send_waker`: the clone is user code. */
    method AddSendWaker() returns (id: nat)
      requires Inv(Now()) && !borrowed
      modifies this
      ensures After(old(Now()), Now()) && !borrowed && |script| <= old(|script|)
      ensures old(Now()).nextPark <= id && id in Now().parked && Played(old(|script|), |script|, 1)
      ensures |script| == old(|script|) ==> Now() == Park(old(Now()))
      decreases |script|, 1
    {
      hide Inv, Mono, ReceiverKept, Now;
      ghost var s := Now();
      UserCode();
      ghost var t := Now();
      ParkKeeps(t);
      AfterTransitive(s, t, Park(t));
      NextIds(s, t);
      id := PushSendWaker();
    }

    /** `remove_send_waker`: the waker that is removed is dropped after the borrow has ended. */
    method RemoveSendWaker(id: nat)
      requires Inv(Now()) && !borrowed
      modifies this
      ensures After(old(Now()), Now()) && !borrowed && |script| <= old(|script|) && id !in Now().parked
      ensures |script| == old(|script|) ==> Now() == Unpark(old(Now()), id)
      ensures if id in old(Now()).parked then id in Now().sendsGone && Played(old(|script|), |script|, 1)
              else Now() == old(Now()) && script == old(script)
      decreases |script|, 1
    {
      hide Inv, Mono, ReceiverKept, Now;
      ghost var s := Now();
      ParkedAre(s);
      UnparkKeeps(s, id);
      var found := RemoveSendEntry(id);
      ghost var t := Now();
      if found {
        UserCode();
        AfterTransitive(s, t, Now());
        NotParkedAgain(t, Now(), id);
      }
    }

    // ---- The sender -----------------------------------------------------------------------------

    method TrySend(item: Payload) returns (r: SendResult)
      requires Inv(Now()) && !borrowed && Now().senders > 0
      modifies this
      ensures After(old(Now()), Now()) && !borrowed && |script| <= old(|script|)
      ensures var s := old(Now());
              if !s.alive || s.closed then r == IsClosed(item) && Now() == s
              else if Full(s) then r == IsFull(item) && Now() == s
              else
                && r == Accepted && s.accepted + [item] <= Now().accepted
                && (|script| == old(|script|) ==> Now() == TakeWaker(Push(s, item)))
                && Woke(s.waker, old(|script|))
      decreases |script|, 2
    {
      hide Inv, Mono, ReceiverKept, Now;
      ghost var s := Now();
      NothingRan(s);
      if !IsAlive() || IsMarkedClosed() {
        return IsClosed(item);
      }
      var ok := TryPush(item);
      if !ok {
        return IsFull(item);
      }
      PushKeeps(s, item);
      WakeReceiver();
      AfterTransitive(s, TakeWaker(Push(s, item)), Now());
      AcceptedGrows(TakeWaker(Push(s, item)), Now());
      r := Accepted;
    }

    /** `close` of a sender or of the receiver: marks the channel, then wakes both halves. */
    method CloseBy(bySender: bool) returns (r: bool)
      requires Inv(Now()) && !borrowed
      modifies this
      ensures After(old(Now()), Now()) && !borrowed && |script| <= old(|script|)
      ensures r == !(old(Now()).closed || if bySender then !old(Now()).alive else old(Now()).senders == 0)
      ensures if r then Now().closed && Now().waker.None? && Now().wait != Parked else Now() == old(Now())
      ensures r ==> Woke(old(Now()).waker, old(|script|))
      ensures r ==> forall id <- old(Now()).parked :: id in Now().sendsWoken || id in Now().sendsGone
      ensures r && old(Now()).waker.None? ==> Played(old(|script|), |script|, |old(Now()).parked|)
      ensures r && |script| == old(|script|) ==>
                Now() == WakeParked(TakeWaker(old(Now()).(closed := true)), |old(Now()).parked|)
      decreases |script|, 3
    {
      hide Inv, Mono, ReceiverKept, Now;
      ghost var s := Now();
      NothingRan(s);
      if IsMarkedClosed() || (if bySender then !IsAlive() else Senders() == 0) {
        return false;
      }
      CloseKeeps(s);
      SetClosed();
      WakeReceiver();
      ghost var t := Now();
      AfterTransitive(s, TakeWaker(s.(closed := true)), t);
      ClosedStays(TakeWaker(s.(closed := true)), t);
      WakeSenders();
      AfterTransitive(s, t, Now());
      SendsAccounted(s, t, Now());
      ClosedStays(t, Now());
      WokenStays(t, Now());
      NobodyParked(Now());
      r := true;
    }

    method CloneSender()
      requires Inv(Now()) && Now().senders > 0
      modifies this
      ensures After(old(Now()), Now()) && Now() == old(Now()).(senders := old(Now()).senders + 1)
      ensures script == old(script) && borrowed == old(borrowed)
    {
      hide Inv, Mono, ReceiverKept, Now;
      SendersKeeps(Now(), Now().senders + 1);
      SetSenders(Senders() + 1);
    }

    method DropSender()
      requires Inv(Now()) && !borrowed && Now().senders > 0
      modifies this
      ensures After(old(Now()), Now()) && !borrowed && |script| <= old(|script|)
      ensures if old(Now()).senders == 1 then Now().senders == 0 && Now().waker.None? && Now().wait != Parked
              else Now() == old(Now()).(senders := old(Now()).senders - 1)
      ensures old(Now()).senders == 1 ==> Woke(old(Now()).waker, old(|script|))
      ensures old(Now()).senders == 1 && |script| == old(|script|) ==> Now() == TakeWaker(old(Now()).(senders := 0))
      decreases |script|, 2
    {
      hide Inv, Mono, ReceiverKept, Now;
      ghost var s := Now();
      var before := Senders();
      SendersKeeps(s, before - 1);
      SetSenders(before - 1);
      if before == 1 {
        WakeReceiver();
        AfterTransitive(s, TakeWaker(s.(senders := 0)), Now());
        SendersGone(TakeWaker(s.(senders := 0)), Now());
        NobodyParked(Now());
      }
    }

    // ---- The receiver ---------------------------------------------------------------------------

    /** Takes an item, if there is one, and then wakes the parked senders. */
    method PopAndWake() returns (item: Option<Payload>)
      requires Inv(Now()) && !borrowed && Now().rx == InUse
      modifies this
      ensures ReceiverRan(old(Now()), Now()) && !borrowed && |script| <= old(|script|)
      ensures Now().rx == InUse && Now().alive == old(Now()).alive
      ensures var s := old(Now());
              if s.q == [] then item.None? && Now() == s
              else
                && item == Some(s.q[0]) && Now().out == s.out + [s.q[0]]
                && Played(old(|script|), |script|, |s.parked|) && (forall id <- s.parked :: id in Now().sendsWoken)
                && (|script| == old(|script|) ==> Now() == WakeParked(Pop(s.(wait := Idle)), |s.parked|))
      decreases |script|, 2
    {
      hide Inv, Mono, ReceiverKept, Now;
      ghost var s := Now();
      NothingRan(s);
      item := PopFront();
      if item.Some? {
        IdleKeeps(s);
        PopKeeps(s.(wait := Idle));
        ghost var t := Now();
        WakeSenders();
        QueueGrows(t, Now());
        ReceiverRanTransitive(s, s.(wait := Idle), t);
        ReceiverRanTransitive(s, t, Now());
      }
    }

    /** `try_recv`. */
    method TryRecv() returns (r: RecvResult)
      requires Inv(Now()) && !borrowed && Now().rx == Held
      modifies this
      ensures After(old(Now()), Now()) && !borrowed && |script| <= old(|script|) && Now().rx == Held
      ensures match r
              case Item(x) =>
                && old(Now()).q != [] && x == old(Now()).q[0] && Now().out == old(Now()).out + [x]
                && Played(old(|script|), |script|, |old(Now()).parked|)
                && (forall id <- old(Now()).parked :: id in Now().sendsWoken)
                && (|script| == old(|script|) ==> Now() == Taken(old(Now())))
              case NoItem => Now().q == [] && !Disconnected(Now()) && Now() == old(Now())
              case Hangup => Now().q == [] && Disconnected(Now()) && Now() == old(Now())
      decreases |script|, 3
    {
      hide Inv, Mono, ReceiverKept, Now;
      ghost var s := Now();
      NothingRan(s);
      if !HasItems() {
        return if IsDisconnected() then Hangup else NoItem;
      }
      BeginPollKeeps(s);
      StartPoll();
      var item := PopAndWake();
      ghost var t := Now();
      ReceiverRanTransitive(s, BeginPoll(s), t);
      EndPollKeeps(t);
      ReceiverRanTransitive(s, t, t.(rx := Held, wait := Idle));
      SetReceiver(Held, Idle);
      RanIsAfter(s, Now());
      r := Item(item.value);
    }

    /** `register_recv_waker`; on a channel that is or becomes terminal, nothing is stored. */
    method Register()
      requires Inv(Now()) && !borrowed && Now().rx == InUse && Now().alive && Now().wait == Idle && Unregistered(Now())
      modifies this
      ensures ReceiverRan(old(Now()), Now()) && !borrowed && |script| <= old(|script|)
      ensures Now().rx == InUse && Now().alive && Now().out == old(Now()).out
      ensures Disconnected(Now()) || Now().wait == Polling || Now().wait == Woken
      ensures !Disconnected(old(Now())) ==> Played(old(|script|), |script|, 1)
      ensures Disconnected(old(Now())) ==> Now() == old(Now())
      ensures !Disconnected(old(Now())) && Now().wait == Idle ==> Played(old(|script|), |script|, 2)
      ensures !Disconnected(old(Now())) && old(Now()).waker.Some? ==>
                Played(old(|script|), |script|, 2) || old(Now()).waker.value in Now().woken
      ensures !Disconnected(old(Now())) && |script| == old(|script|) ==> Now() == StoreWaker(old(Now()))
      decreases |script|, 1
    {
      hide Inv, Mono, ReceiverKept, Now;
      ghost var s := Now();
      NothingRan(s);
      if !IsAlive() || IsDisconnected() {
        return;
      }
      UserCode();
      ghost var t := Now();
      QueueGrows(s, t);
      if !IsAlive() || IsDisconnected() {
        UserCode();
        QueueGrows(t, Now());
        ReceiverRanTransitive(s, t, Now());
        return;
      }
      StoreWakerKeeps(t);
      NothingRan(StoreWaker(t));
      var replaced := Replace();
      if replaced.Some? {
        UserCode();
      }
      WokenStays(StoreWaker(t), Now());
      QueueGrows(StoreWaker(t), Now());
      ReceiverRanTransitive(s, t, StoreWaker(t));
      ReceiverRanTransitive(s, StoreWaker(t), Now());
    }

    /** `clear_recv_waker`. */
    method ClearWaker()
      requires Inv(Now()) && !borrowed && Now().rx == InUse
      modifies this
      ensures ReceiverRan(old(Now()), Now()) && !borrowed && |script| <= old(|script|)
      ensures Now().rx == InUse && Now().alive == old(Now()).alive && Now().out == old(Now()).out
      ensures Now().waker.None? && old(Now()).q <= Now().q
      ensures Disconnected(old(Now())) || !old(Now()).alive ==> Now().q == old(Now()).q
      ensures Disconnected(old(Now())) ==> Disconnected(Now())
      ensures old(Now()).waker.Some? ==> Played(old(|script|), |script|, 1)
      ensures |script| == old(|script|) ==> Now() == old(Now()).(wait := Idle, waker := None)
      decreases |script|, 1
    {
      hide Inv, Mono, ReceiverKept, Now;
      ghost var s := Now();
      IdleKeeps(s);
      ghost var t := s.(wait := Idle, waker := None);
      NothingRan(t);
      SetWait(Idle);
      var waker := TakeStored();
      if waker.Some? {
        UserCode();
      }
      QueueGrows(t, Now());
      ReceiverRanTransitive(s, t, Now());
    }

    /**
    `poll_recv`. A poll that returns Pending leaves an empty queue, an open channel, and its own
    waker in the slot.
     */
    method PollRecv() returns (r: Option<RecvResult>)
      requires Inv(Now()) && !borrowed && Now().rx == Held
      modifies this
      ensures After(old(Now()), Now()) && !borrowed && |script| <= old(|script|) && Now().rx == Held
      ensures match r
              case None =>
                && Now().q == [] && !Disconnected(Now()) && Now().waker == Some(Now().polls)
                && Now().wait == Parked && Now().out == old(Now()).out
              case Some(Item(x)) => Now().out == old(Now()).out + [x] && (old(Now()).q != [] ==> x == old(Now()).q[0])
              case Some(Hangup) =>
                && Now().q == [] && Disconnected(Now()) && Now().waker.None? && Now().out == old(Now()).out
              case Some(NoItem) => false
      ensures r.None? ==> Played(old(|script|), |script|, 1)
      ensures old(Now()).polls < Now().polls
      ensures old(Now()).q != [] ==>
                && r.Some? && r.value.Item? && Played(old(|script|), |script|, |old(Now()).parked|)
                && forall id <- old(Now()).parked :: id in Now().sendsWoken
      ensures |script| == old(|script|) ==> Now() == Polled(old(Now()))
      decreases |script|, 4
    {
      hide Inv, Mono, ReceiverKept, Now;
      ghost var s := Now();
      BeginPollKeeps(s);
      StartPoll();
      var item := PopAndWake();
      ghost var t := Now();
      ReceiverRanTransitive(s, BeginPoll(s), t);
      PollsGrow(BeginPoll(s), t);
      if item.None? {
        if !IsDisconnected() {
          Register();
          ReceiverRanTransitive(s, t, Now());
          ghost var u := Now();
          PollsGrow(t, u);
          item := PopAndWake();
          PollsGrow(u, Now());
          ReceiverRanTransitive(s, u, Now());
        }
        if item.None? && IsDisconnected() {
          ghost var v := Now();
          ClearWaker();
          PollsGrow(v, Now());
          ReceiverRanTransitive(s, v, Now());
        }
      }
      r := FinishPoll(item, s);
    }

    /** The end of a poll that has taken `item`, or has found the queue empty. */
    method FinishPoll(item: Option<Payload>, ghost s: State) returns (r: Option<RecvResult>)
      requires ReceiverRan(s, Now()) && s.rx == Held && Now().rx == InUse && Now().alive && !borrowed
      requires item.None? && !Disconnected(Now()) ==> Now().wait == Polling || Now().wait == Woken
      requires item.None? ==> Now().q == []
      modifies this
      ensures After(s, Now()) && !borrowed && script == old(script) && Now().rx == Held
      ensures Now() == old(Now()).(rx := Held, wait := if r.None? then Parked else Idle)
      ensures Disconnected(Now()) == Disconnected(old(Now()))
      ensures r == if item.Some? then Some(Item(item.value)) else if Disconnected(Now()) then Some(Hangup) else None
      ensures r.None? ==> Now().wait == Parked && Now().waker == Some(Now().polls) && !Disconnected(Now())
    {
      hide Inv, Mono, ReceiverKept, Now;
      ghost var t := Now();
      EndPollKeeps(t);
      if item.Some? || IsDisconnected() {
        ReceiverRanTransitive(s, t, t.(rx := Held, wait := Idle));
        SetReceiver(Held, Idle);
        r := Some(if item.Some? then Item(item.value) else Hangup);
      } else {
        ReceiverRanTransitive(s, t, t.(rx := Held, wait := Parked));
        SetReceiver(Held, Parked);
        ParkedCanBeWoken(Now());
        r := None;
      }
      RanIsAfter(s, Now());
    }

    /** A `Recv` is dropped before it has completed: its waker is not retained. */
    method CancelRecv()
      requires Inv(Now()) && !borrowed && Now().rx == Held
      modifies this
      ensures After(old(Now()), Now()) && !borrowed && |script| <= old(|script|)
      ensures Now().rx == Held && Now().waker.None? && Now().wait == Idle
      ensures Now().out == old(Now()).out && old(Now()).q <= Now().q
      ensures old(Now()).waker.Some? ==> Played(old(|script|), |script|, 1)
      ensures |script| == old(|script|) ==> Now() == Canceled(old(Now()))
      decreases |script|, 2
    {
      hide Inv, Mono, ReceiverKept, Now;
      ghost var s := Now();
      BeginPollKeeps(s);
      StartPoll();
      ClearWaker();
      ghost var t := Now();
      ReceiverRanTransitive(s, BeginPoll(s), t);
      EndPollKeeps(t);
      ReceiverRanTransitive(s, t, t.(rx := Held, wait := Idle));
      SetReceiver(Held, Idle);
      RanIsAfter(s, Now());
    }

    /** `Receiver::drop`: no send succeeds any more, so the drain ends, and nothing is left. */
    method DropReceiver()
      requires Inv(Now()) && !borrowed && Now().rx == Held
      modifies this
      ensures After(old(Now()), Now()) && !borrowed && |script| <= old(|script|)
      ensures Now().rx == Released && Now().q == [] && Now().waker.None?
      ensures Now().out == Now().accepted == old(Now()).accepted
      ensures Played(old(|script|), |script|, |old(Now()).parked| + |old(Now()).q|)
      ensures forall id <- old(Now()).parked :: id in Now().sendsWoken
      ensures |script| == old(|script|) ==> Now().parked == [] && Now().senders == old(Now()).senders
      decreases |script|, 4
    {
      hide Inv, Mono, ReceiverKept, Now;
      ghost var s := Now();
      ReceiverDropsKeeps(s);
      ClearReceiver();
      ghost var t := Now();
      WakeSenders();
      ghost var u := Now();
      QueueGrows(t, u);
      ClearWaker();
      Drain(u);
      ghost var v := Now();
      WokenStays(u, v);
      ReceiverRanTransitive(t, u, v);
      DeadIsIdle(v);
      ReleaseKeeps(v);
      AllOut(t, v);
      ReceiverRanTransitive(s, t, v);
      ReceiverRanTransitive(s, v, v.(rx := Released));
      SetReceiver(Released, Idle);
      RanIsAfter(s, Now());
    }

    /** `drain`: dropping an item is user code. */
    method Drain(ghost t: State)
      requires ReceiverRan(t, Now()) && !borrowed && Now().rx == InUse && !Now().alive && Now().waker.None?
      modifies this
      ensures ReceiverRan(t, Now()) && !borrowed && |script| <= old(|script|)
      ensures Now().rx == InUse && !Now().alive && Now().waker.None? && Now().q == []
      ensures Played(old(|script|), |script|, |old(Now()).q|)
      ensures |script| == old(|script|) ==>
                Now().parked == old(Now()).parked && Now().senders == old(Now()).senders
      decreases |script|, 1
    {
      hide Inv, Mono, ReceiverKept, Now;
      while true
        invariant ReceiverRan(t, Now()) && !borrowed && |script| <= old(|script|)
        invariant Now().rx == InUse && !Now().alive && Now().waker.None?
        invariant |Now().q| <= |old(Now()).q|
        invariant Played(old(|script|), |script|, |old(Now()).q| - |Now().q|)
        invariant |script| == old(|script|) ==>
                    Now().parked == old(Now()).parked && Now().senders == old(Now()).senders
        decreases |Now().q|
      {
        ghost var u := Now();
        DeadIsIdle(u);
        var item := PopFront();
        if item.None? {
          return;
        }
        ghost var v := Now();
        assert v == Pop(u);
        PopKeeps(u);
        UserCode();
        DeadIsIdle(v);
        QueueGrows(v, Now());
        ReceiverRanTransitive(t, u, v);
        ReceiverRanTransitive(t, v, Now());
      }
    }
  }

  /** A whole run: `seen` are the states between two calls of the program. */
  method Run(cap: Option<nat>, script: seq<Choice>) returns (chan: Chan, ghost seen: seq<State>)
    requires cap != Some(0)
    ensures fresh(chan) && seen != [] && seen[|seen| - 1] == chan.Now()
    ensures forall i | 0 <= i < |seen| :: Inv(seen[i])
    ensures forall i | 0 <= i < |seen| - 1 :: After(seen[i], seen[i + 1])
  {
    hide Inv, Mono, ReceiverKept;
    chan := new Chan(cap, script);
    seen := [chan.Now()];
    while chan.script != []
      invariant fresh(chan) && !chan.borrowed && seen != [] && seen[|seen| - 1] == chan.Now()
      invariant forall i | 0 <= i < |seen| :: Inv(seen[i])
      invariant forall i | 0 <= i < |seen| - 1 :: After(seen[i], seen[i + 1])
      decreases |chan.script|
    {
      var choice := chan.script[0];
      chan.script := chan.script[1..];
      if choice.Call? {
        chan.Perform(choice.op);
        seen := seen + [chan.Now()];
      }
    }
  }
}
