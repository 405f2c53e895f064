/** The one-shot channel as an object; user code is played from a script, as for `mpmc`. */
module Oneshot {
  import opened Common
  import opened OneshotState

  datatype Op = OpSend(value: Payload) | OpDropSender | OpPoll | OpTryRecv | OpTakeValue | OpDropReceiver

  datatype Choice = Call(op: Op) | Return | Panic(payload: nat)

  datatype Outcome = Got(value: Payload) | Canceled

  datatype Poll<+T> = Pending | Ready(value: T)

  /** The mark that a call leaves between `a` and `b`, whatever user code does meanwhile; none without the handle. */
  ghost predicate Performed(op: Op, a: State, b: State) {
    match op
    case OpSend(v) =>
      a.tx == Held ==> b.tx == Released && b.accepted == if a.receiverDropped then None else Some(v)
    case OpDropSender => a.tx == Held ==> b.tx == Released && b.accepted.None?
    case OpPoll => a.rx == Held && !a.done ==> b.done || a.polls < b.polls
    case OpTryRecv =>
      a.rx == Held && !a.done ==>
        if a.value.Some? then b == ReceiverTakes(a) else if a.senderDropped then b == Cancel(a) else b == a
    case OpTakeValue => a.rx == Held && !a.done ==> b == if a.value.Some? then ReceiverTakes(a) else a
    case OpDropReceiver => a.rx == Held ==> b.rx == Released
  }

  class Channel {
    // The cells of the source's `Inner`, and the receiver's `done`.
    var value: Option<Payload>
    var valuePresent: bool
    var senderDropped: bool
    var receiverDropped: bool
    var recvWaker: Option<nat>
    var done: bool

    // Who has the two handles, the number of polls so far, and what user code will do.
    var tx: Hand
    var rx: Hand
    var polls: nat
    var script: seq<Choice>

    ghost var wait: Wait
    ghost var woken: set<nat>
    ghost var accepted: Option<Payload>
    ghost var got: seq<Payload>
    ghost var gone: seq<Payload>
    ghost var canceled: bool
    ghost var borrowed: bool  // the waker cell is borrowed at this moment
    ghost var inFlight: nat   // panics of user code that nothing has caught yet

    ghost function Now(): State
      reads this
    {
      State(value, valuePresent, senderDropped, receiverDropped, recvWaker, done, tx, rx, polls, wait, woken, accepted,
            got, gone, canceled)
    }

    constructor (script: seq<Choice>)
      ensures Inv(Now()) && !borrowed && this.script == script
      ensures tx == Held && rx == Held && accepted.None? && !done && got == [] && gone == []
    {
      value, valuePresent, senderDropped, receiverDropped, recvWaker, done := None, false, false, false, None, false;
      tx, rx, polls, this.script := Held, Held, 0, script;
      wait, woken, accepted, got, gone, canceled, borrowed, inFlight := Idle, {}, None, [], [], false, false, 0;
    }

    // ---- Cells: no user code runs in any of these -----------------------------------------------

    predicate IsPresent()
      reads this
      ensures IsPresent() == Now().present
    {
      valuePresent
    }

    predicate IsSenderDropped()
      reads this
      ensures IsSenderDropped() == Now().senderDropped
    {
      senderDropped
    }

    predicate IsReceiverDropped()
      reads this
      ensures IsReceiverDropped() == Now().receiverDropped
    {
      receiverDropped
    }

    predicate IsDone()
      reads this
      ensures IsDone() == Now().done
    {
      done
    }

    function Tx(): Hand
      reads this
      ensures Tx() == Now().tx
    {
      tx
    }

    function Rx(): Hand
      reads this
      ensures Rx() == Now().rx
    {
      rx
    }

    method SetSender(hand: Hand)
      modifies this
      ensures Now() == old(Now()).(tx := hand)
      ensures script == old(script) && borrowed == old(borrowed) && inFlight == old(inFlight)
    {
      tx := hand;
    }

    method SetReceiver(hand: Hand)
      modifies this
      ensures Now() == old(Now()).(rx := hand)
      ensures script == old(script) && borrowed == old(borrowed) && inFlight == old(inFlight)
    {
      rx := hand;
    }

    /** Takes the stored waker out of its cell. */
    method TakeStored() returns (waker: Option<nat>)
      requires !borrowed
      modifies this
      ensures waker == old(Now()).waker && Now() == old(Now()).(waker := None)
      ensures script == old(script) && !borrowed && inFlight == old(inFlight)
    {
      borrowed := true;
      waker := recvWaker;
      recvWaker := None;
      borrowed := false;
    }

    /** Stores the waker of the poll in progress; the waker that it replaces is not yet dropped. */
    method Replace() returns (replaced: Option<nat>)
      requires !borrowed
      modifies this
      ensures replaced == old(Now()).waker && Now() == old(Now()).(waker := Some(old(Now()).polls))
      ensures script == old(script) && !borrowed && inFlight == old(inFlight)
    {
      borrowed := true;
      replaced := recvWaker;
      recvWaker := Some(polls);
      borrowed := false;
    }

    /** Writes the value into the slot, which must be empty, and then sets its flag. */
    method WriteValue(v: Payload)
      requires Now().value.None?
      modifies this
      ensures Now() == old(Now()).(value := Some(v), present := true, accepted := Some(v))
      ensures script == old(script) && borrowed == old(borrowed) && inFlight == old(inFlight)
    {
      value := Some(v);
      valuePresent := true;
      accepted := Some(v);
    }

    /** Clears the flag, and then moves the value out of the slot. */
    method MoveOut(ghost toReceiver: bool) returns (v: Payload)
      requires Now().value.Some?
      modifies this
      ensures Some(v) == old(Now()).value
      ensures var s := old(Now());
              var t := s.(present := false, value := None);
              Now() == if toReceiver then t.(got := s.got + [v]) else t.(gone := s.gone + [v])
      ensures script == old(script) && borrowed == old(borrowed) && inFlight == old(inFlight)
    {
      valuePresent := false;
      v := value.value;
      value := None;
      if toReceiver {
        got := got + [v];
      } else {
        gone := gone + [v];
      }
    }

    method MarkSenderDropped()
      modifies this
      ensures Now() == old(Now()).(senderDropped := true)
      ensures script == old(script) && borrowed == old(borrowed) && inFlight == old(inFlight)
    {
      senderDropped := true;
    }

    method MarkReceiverDropped()
      modifies this
      ensures Now() == old(Now()).(receiverDropped := true)
      ensures script == old(script) && borrowed == old(borrowed) && inFlight == old(inFlight)
    {
      receiverDropped := true;
    }

    method MarkDone(ghost byCancel: bool)
      modifies this
      ensures Now() == old(Now()).(done := true, canceled := byCancel || old(Now()).canceled)
      ensures script == old(script) && borrowed == old(borrowed) && inFlight == old(inFlight)
    {
      done := true;
      canceled := byCancel || canceled;
    }

    method CountPoll()
      modifies this
      ensures Now() == old(Now()).(polls := old(Now()).polls + 1)
      ensures script == old(script) && borrowed == old(borrowed) && inFlight == old(inFlight)
    {
      polls := polls + 1;
    }

    /** History only. */
    ghost method SetWait(w: Wait)
      modifies this
      ensures Now() == old(Now()).(wait := w)
      ensures script == old(script) && borrowed == old(borrowed) && inFlight == old(inFlight)
    {
      wait := w;
    }

    /** History only: the waker of this poll is woken. */
    ghost method NoteWoken(p: nat)
      modifies this
      ensures Now() == old(Now()).(woken := old(Now()).woken + {p})
      ensures script == old(script) && borrowed == old(borrowed) && inFlight == old(inFlight)
    {
      woken := woken + {p};
    }

    // ---- User code ------------------------------------------------------------------------------

    method UserCode(mayPanic: bool) returns (panic: Option<nat>)
      requires Inv(Now()) && !borrowed
      modifies this
      ensures After(old(Now()), Now()) && !borrowed
      ensures |script| == old(|script|) ==> Now() == old(Now())
      ensures Played(old(|script|), |script|, 1)
      ensures |script| <= old(|script|) && (panic.Some? ==> mayPanic && |script| < old(|script|))
      ensures inFlight == old(inFlight) + if panic.Some? then 1 else 0
      decreases |script|, 0
    {
      hide Inv, Mono, SenderKept, ReceiverKept;
      NothingRan(Now());
      while script != []
        invariant After(old(Now()), Now()) && !borrowed
        invariant |script| <= old(|script|) && inFlight == old(inFlight)
        invariant |script| == old(|script|) ==> Now() == old(Now())
        decreases |script|
      {
        var choice := script[0];
        script := script[1..];
        match choice
        case Return => return None;
        case Panic(p) =>
          if mayPanic {
            inFlight := inFlight + 1;
            return Some(p);
          }
        case Call(op) =>
          ghost var before := Now();
          Perform(op);
          inFlight := old(inFlight);
          AfterTransitive(old(Now()), before, Now());
      }
      panic := None;
    }

    /** One call by user code, if it holds the handle that the call needs. */
    method Perform(op: Op)
      requires Inv(Now()) && !borrowed
      modifies this
      ensures After(old(Now()), Now()) && !borrowed
      ensures |script| <= old(|script|) && Performed(op, old(Now()), Now())
      decreases |script|, 10
    {
      hide Inv, Mono, SenderKept, ReceiverKept, Now;
      NothingRan(Now());
      match op
      case OpSend(v) => if Tx() == Held { var r := Send(v); }
      case OpDropSender => if Tx() == Held { var r := DropSender(); }
      case OpPoll => if Rx() == Held { var r := PollReceiver(); }
      case OpTryRecv => if Rx() == Held { var r := TryRecv(); }
      case OpTakeValue => if Rx() == Held { var r := TakeIfPresent(); }
      case OpDropReceiver => if Rx() == Held { var r := DropReceiver(); }
    }

    /** `wake_receiver`: the waker is taken out of its cell before it is woken. */
    method WakeReceiver(mayPanic: bool) returns (panic: Option<nat>)
      requires Inv(TakeWaker(Now())) && !borrowed
      modifies this
      ensures After(TakeWaker(old(Now())), Now()) && !borrowed
      ensures |script| == old(|script|) ==> Now() == TakeWaker(old(Now()))
      ensures old(Now()).waker.Some? ==>
                Played(old(|script|), |script|, 1) && old(Now()).waker.value in Now().woken
      ensures |script| <= old(|script|) && (panic.Some? ==> mayPanic && |script| < old(|script|))
      ensures inFlight == old(inFlight) + if panic.Some? then 1 else 0
      decreases |script|, 1
    {
      hide Inv, Mono, SenderKept, ReceiverKept, Now;
      ghost var t := TakeWaker(Now());
      var waker := TakeStored();
      SetWait(t.wait);
      panic := None;
      NothingRan(t);
      if waker.Some? {
        NoteWoken(waker.value);
        panic := UserCode(mayPanic);
        RanIsAfter(t, Now());
        WokenStays(t, Now());
      }
    }

    /** `drop_value`: the flag is cleared before the value's `Drop` runs. */
    method DropPresent(mayPanic: bool) returns (panic: Option<nat>)
      requires Inv(DropValue(Now())) && (Now().present <==> Now().value.Some?) && !borrowed
      modifies this
      ensures After(DropValue(old(Now())), Now()) && !borrowed
      ensures |script| == old(|script|) ==> Now() == DropValue(old(Now()))
      ensures old(Now()).value.Some? ==> Played(old(|script|), |script|, 1)
      ensures |script| <= old(|script|) && (panic.Some? ==> mayPanic && |script| < old(|script|))
      ensures inFlight == old(inFlight) + if panic.Some? then 1 else 0
      decreases |script|, 1
    {
      hide Inv, Mono, SenderKept, ReceiverKept, Now;
      NothingRan(DropValue(Now()));
      panic := None;
      if IsPresent() {
        var v := MoveOut(false);
        panic := UserCode(mayPanic);
      }
    }

    // ---- The sender -----------------------------------------------------------------------------

    /** `send`, and the drop of the sender that it consumes. */
    method Send(v: Payload) returns (r: Exit<Option<Payload>>)
      requires Inv(Now()) && !borrowed && Now().tx == Held
      modifies this
      ensures After(old(Now()), Now()) && !borrowed && Now().tx == Released
      ensures r.Unwind? || r == Ret(if old(Now()).receiverDropped then Some(v) else None)
      ensures Now().accepted == if old(Now()).receiverDropped then None else Some(v)
      ensures |script| == old(|script|) ==> Now() == Sent(old(Now()), v)
      ensures !old(Now()).receiverDropped && old(Now()).waker.Some? ==>
                Played(old(|script|), |script|, 1) && old(Now()).waker.value in Now().woken
      ensures |script| <= old(|script|) && (r.Unwind? ==> |script| < old(|script|))
      ensures inFlight == old(inFlight) + if r.Unwind? then 1 else 0
      decreases |script|, 4
    {
      hide Inv, Mono, SenderKept, ReceiverKept, Now;
      ghost var s := Now();
      NoSendYet(s);
      var rejected := IsReceiverDropped();
      var panic := None;
      SetSender(InUse);
      if rejected {
        RejectKeeps(s);
      } else {
        WriteKeeps(s, v);
        WriteValue(v);
        assert Now() == Write(s, v);
        panic := WakeReceiver(true);
        SenderStill(TakeWaker(Write(s, v)), Now());
        SenderRanTransitive(s, TakeWaker(Write(s, v)), Now());
      }
      ghost var u := Now();
      var second := FinishSender(panic.None?);
      SenderRanTransitive(s, u, Now());
      RanIsAfter(s, Now());
      AcceptedStays(u, Now());
      WokenStays(u, Now());
      panic := if panic.Some? then panic else second;
      r := if panic.Some? then Unwind(panic.value) else if rejected then Ret(Some(v)) else Ret(None);
    }

    /** `Drop` of a sender that has sent nothing. */
    method DropSender() returns (panic: Option<nat>)
      requires Inv(Now()) && !borrowed && Now().tx == Held
      modifies this
      ensures After(old(Now()), Now()) && !borrowed && Now().tx == Released && Now().accepted.None?
      ensures |script| == old(|script|) ==> Now() == ReleaseSender(SenderDrops(old(Now())))
      ensures old(Now()).waker.Some? ==>
                Played(old(|script|), |script|, 1) && old(Now()).waker.value in Now().woken
      ensures |script| <= old(|script|) && (panic.Some? ==> |script| < old(|script|))
      ensures inFlight == old(inFlight) + if panic.Some? then 1 else 0
      decreases |script|, 4
    {
      hide Inv, Mono, SenderKept, ReceiverKept, Now;
      ghost var s := Now();
      NoSendYet(s);
      panic := FinishSender(true);
      RanIsAfter(s, Now());
      SenderDropsKeeps(s);
      AcceptedStays(SenderDrops(s), Now());
    }

    /** `Sender::drop`, then the release of its share of `Inner`, even while unwinding. */
    method FinishSender(mayPanic: bool) returns (panic: Option<nat>)
      requires Inv(Now()) && !borrowed && Now().tx != Released
      modifies this
      ensures SenderRan(old(Now()), Now()) && SenderRan(SenderDrops(old(Now())), Now())
      ensures !borrowed && Now().tx == Released
      ensures |script| == old(|script|) ==> Now() == ReleaseSender(SenderDrops(old(Now())))
      ensures !old(Now()).present && old(Now()).waker.Some? ==>
                Played(old(|script|), |script|, 1) && old(Now()).waker.value in Now().woken
      ensures |script| <= old(|script|) && (panic.Some? ==> mayPanic && |script| < old(|script|))
      ensures inFlight == old(inFlight) + if panic.Some? then 1 else 0
      decreases |script|, 3
    {
      hide Inv, Mono, SenderKept, ReceiverKept, Now;
      ghost var s := Now();
      ghost var t := SenderDrops(s);
      SenderDropsKeeps(s);
      NothingRan(t);
      SetSender(InUse);
      MarkSenderDropped();
      panic := None;
      if !IsPresent() {
        panic := WakeReceiver(mayPanic);
      }
      ghost var u := Now();
      SenderStill(t, u);
      ReleaseSenderKeeps(u);
      SenderRanTransitive(t, u, ReleaseSender(u));
      NothingRan(ReleaseSender(u));
      SetSender(Released);
      if Rx() == Released {
        SlotFlag(u);
        var second := DropPresent(mayPanic && panic.None?);
        panic := if panic.Some? then panic else second;
      }
      SenderStill(ReleaseSender(u), Now());
      RanIsAfter(ReleaseSender(u), Now());
      SenderRanTransitive(t, ReleaseSender(u), Now());
      SenderRanTransitive(s, t, Now());
      WokenStays(ReleaseSender(u), Now());
    }

    // ---- The receiver ---------------------------------------------------------------------------

    /** `take_value`: takes a value that is present, without observing cancellation. */
    method TakeIfPresent() returns (v: Option<Payload>)
      requires Inv(Now()) && !borrowed && Now().rx == Held
      modifies this
      ensures After(old(Now()), Now()) && !borrowed && script == old(script) && inFlight == old(inFlight)
      ensures v == if old(Now()).done then None else old(Now()).value
      ensures Now() == if v.Some? then ReceiverTakes(old(Now())) else old(Now())
      ensures v.Some? ==> Now().accepted == v && Now().got == [v.value]
    {
      hide Inv, Mono, SenderKept, ReceiverKept, Now;
      ghost var s := Now();
      NothingRan(s);
      SlotFlag(s);
      if IsDone() || !IsPresent() {
        return None;
      }
      ReceiverTakesKeeps(s);
      RanIsAfter(s, ReceiverTakes(s));
      var x := MoveOut(true);
      MarkDone(false);
      v := Some(x);
    }

    /** `try_recv`. */
    method TryRecv() returns (r: Option<Outcome>)
      requires Inv(Now()) && !borrowed && Now().rx == Held
      modifies this
      ensures After(old(Now()), Now()) && !borrowed && Now().rx == Held
      ensures script == old(script) && inFlight == old(inFlight)
      ensures match r
              case Some(Got(v)) =>
                && !old(Now()).done && Now().done && Now().accepted == Some(v) && Now().got == [v]
                && old(Now()).value == Some(v) && Now() == ReceiverTakes(old(Now()))
              case Some(Canceled) =>
                && !old(Now()).done && Now().accepted.None? && Now().senderDropped
                && old(Now()).value.None? && Now() == Cancel(old(Now()))
              case None =>
                && Now() == old(Now())
                && (Now().done ||
                    (Now().tx == Held && Now().accepted.None? && Now().value.None? && !Now().senderDropped))
    {
      hide Inv, Mono, SenderKept, ReceiverKept, Now;
      ghost var s := Now();
      NothingRan(s);
      SlotFlag(s);
      var v := TakeIfPresent();
      if v.Some? {
        return Some(Got(v.value));
      }
      if !IsDone() && IsSenderDropped() {
        CancelKeeps(s);
        RanIsAfter(s, Cancel(s));
        MarkDone(true);
        return Some(Canceled);
      }
      if !IsDone() {
        HeldAlive(s);
        NothingYet(s);
        NothingAccepted(s);
      }
      return None;
    }

    /** `register_recv_waker`: the clone and the drop of the replaced waker run outside the borrow. */
    method Register() returns (panic: Option<nat>)
      requires Inv(Now()) && !borrowed && Now().rx == InUse && Now().wait == Idle
      modifies this
      ensures ReceiverRan(old(Now()), Now()) && !borrowed
      ensures Now().rx == InUse && Now().done == old(Now()).done && Now().receiverDropped == old(Now()).receiverDropped
      ensures panic.None? && !Now().receiverDropped ==> Now().wait == Polling || Now().wait == Woken
      ensures !old(Now()).receiverDropped ==> Played(old(|script|), |script|, 1)
      ensures panic.None? && !old(Now()).receiverDropped && old(Now()).waker.Some? ==>
                Played(old(|script|), |script|, 2) || old(Now()).waker.value in Now().woken
      ensures |script| == old(|script|) && !old(Now()).receiverDropped ==> Now() == StoreWaker(old(Now()))
      ensures |script| <= old(|script|) && (panic.Some? ==> |script| < old(|script|))
      ensures inFlight == old(inFlight) + if panic.Some? then 1 else 0
      decreases |script|, 1
    {
      hide Inv, Mono, SenderKept, ReceiverKept, Now;
      ghost var s := Now();
      NothingRan(s);
      if IsReceiverDropped() {
        return None;
      }
      panic := UserCode(true);
      ghost var t := Now();
      RanIsAfter(s, t);
      ReceiverStill(s, t);
      if panic.Some? {
        return;
      }
      StoreWakerKeeps(t);
      NothingRan(StoreWaker(t));
      var replaced := Replace();
      SetWait(Polling);
      if replaced.Some? {
        panic := UserCode(true);
      }
      RanIsAfter(StoreWaker(t), Now());
      WokenStays(StoreWaker(t), Now());
      ReceiverStill(StoreWaker(t), Now());
      ReceiverRanTransitive(s, t, StoreWaker(t));
      ReceiverRanTransitive(s, StoreWaker(t), Now());
    }

    /** `poll`. A poll that has to wait leaves its own waker stored, no value, and a live sender. */
    method PollReceiver() returns (r: Exit<Poll<Outcome>>)
      requires Inv(Now()) && !borrowed && Now().rx == Held
      modifies this
      ensures After(old(Now()), Now()) && !borrowed && Now().rx == Held
      ensures match r
              case Ret(Ready(Got(v))) => !old(Now()).done && Now().done && Now().accepted == Some(v) && Now().got == [v]
              case Ret(Ready(Canceled)) =>
                !old(Now()).done && Now().done && Now().accepted.None? && Now().senderDropped && Now().canceled
              case Ret(Pending) => Now().done == old(Now()).done && (Now().done || Now().wait == Parked)
              case Unwind(_) => !old(Now()).done && !Now().done
      ensures r == Ret(Pending) && !Now().done ==> Played(old(|script|), |script|, 1)
      ensures !old(Now()).done ==> Now().done || old(Now()).polls < Now().polls
      ensures old(Now()).value.Some? && !old(Now()).done ==>
                r == Ret(Ready(Got(old(Now()).value.value))) && Now() == ReceiverTakes(old(Now()))
      ensures r == Ret(Pending) && |script| == old(|script|) ==>
                Now() == if old(Now()).done then old(Now()) else Waiting(old(Now()))
      ensures |script| <= old(|script|) && (r.Unwind? ==> |script| < old(|script|))
      ensures inFlight == old(inFlight) + if r.Unwind? then 1 else 0
      decreases |script|, 4
    {
      hide Inv, Mono, SenderKept, ReceiverKept, Now;
      ghost var s := Now();
      NothingRan(s);
      if IsDone() {
        return Ret(Pending);
      }
      var early := TryRecv();
      if early.Some? {
        return Ret(Ready(early.value));
      }
      BeginPollKeeps(s);
      CountPoll();
      SetReceiver(InUse);
      SetWait(Idle);
      var panic := Register();
      ghost var t := Now();
      HeldAlive(s);
      ReceiverRanTransitive(s, BeginPoll(s), t);
      WokenStays(BeginPoll(s), t);
      EndPollKeeps(t);
      ReceiverRanTransitive(s, t, EndPoll(t));
      RanIsAfter(s, EndPoll(t));
      SetReceiver(Held);
      SetWait(Idle);
      if panic.Some? {
        return Unwind(panic.value);
      }
      var late := TryRecv();
      AfterTransitive(s, EndPoll(t), Now());
      if late.Some? {
        return Ret(Ready(late.value));
      }
      SlotFlag(t);
      ReceiverRanTransitive(s, t, EndPoll(t).(wait := Parked));
      RanIsAfter(s, EndPoll(t).(wait := Parked));
      SetWait(Parked);
      return Ret(Pending);
    }

    /** `Receiver::drop`, then the release of its share of `Inner`, even while unwinding. */
    method DropReceiver() returns (panic: Option<nat>)
      requires Inv(Now()) && !borrowed && Now().rx == Held
      modifies this
      ensures After(old(Now()), Now()) && !borrowed && Now().rx == Released && Now().receiverDropped
      ensures panic.None? || Now().tx == Released ==> Now().value.None?
      ensures |script| == old(|script|) ==> Now() == ReleaseReceiver(DropValue(ReceiverDrops(old(Now()))))
      ensures old(Now()).waker.Some? ==> Played(old(|script|), |script|, 1)
      ensures |script| <= old(|script|) && (panic.Some? ==> |script| < old(|script|))
      ensures inFlight == old(inFlight) + if panic.Some? then 1 else 0
      decreases |script|, 4
    {
      hide Inv, Mono, SenderKept, ReceiverKept, Now;
      ghost var s := Now();
      panic := ClearForDrop();
      if panic.None? {
        ghost var t := Now();
        panic := DropUnreceived();
        ReceiverRanTransitive(s, t, Now());
      }
      ghost var u := Now();
      var second := ReleaseRx(panic.None?);
      panic := if panic.Some? then panic else second;
      ReceiverRanTransitive(s, u, Now());
      RanIsAfter(s, Now());
    }

    /** The receiver is marked dropped, and its waker goes first. */
    method ClearForDrop() returns (panic: Option<nat>)
      requires Inv(Now()) && !borrowed && Now().rx == Held
      modifies this
      ensures ReceiverRan(old(Now()), Now()) && !borrowed && Now().rx == InUse && Now().receiverDropped
      ensures old(Now()).waker.Some? ==> Played(old(|script|), |script|, 1)
      ensures |script| == old(|script|) ==> Now() == ReceiverDrops(old(Now()))
      ensures |script| <= old(|script|) && (panic.Some? ==> |script| < old(|script|))
      ensures inFlight == old(inFlight) + if panic.Some? then 1 else 0
      decreases |script|, 1
    {
      hide Inv, Mono, SenderKept, ReceiverKept, Now;
      ghost var s := Now();
      ghost var t := ReceiverDrops(s);
      ReceiverDropsKeeps(s);
      NothingRan(t);
      SetReceiver(InUse);
      MarkReceiverDropped();
      SetWait(Idle);
      var waker := TakeStored();
      panic := None;
      if waker.Some? {
        panic := UserCode(true);
      }
      RanIsAfter(t, Now());
      ReceiverStill(t, Now());
      ReceiverRanTransitive(s, t, Now());
    }

    /** A value that was sent and never received is dropped. */
    method DropUnreceived() returns (panic: Option<nat>)
      requires Inv(Now()) && !borrowed && Now().rx == InUse && Now().receiverDropped
      modifies this
      ensures ReceiverRan(old(Now()), Now()) && !borrowed && Now().rx == InUse && Now().receiverDropped
      ensures Now().value.None?
      ensures old(Now()).value.Some? ==> Played(old(|script|), |script|, 1)
      ensures |script| == old(|script|) ==> Now() == DropValue(old(Now()))
      ensures |script| <= old(|script|) && (panic.Some? ==> |script| < old(|script|))
      ensures inFlight == old(inFlight) + if panic.Some? then 1 else 0
      decreases |script|, 2
    {
      hide Inv, Mono, SenderKept, ReceiverKept, Now;
      ghost var t := Now();
      DropValueKeeps(t);
      SlotFlag(t);
      panic := DropPresent(true);
      RanIsAfter(DropValue(t), Now());
      ReceiverStill(DropValue(t), Now());
      ReceiverRanTransitive(t, DropValue(t), Now());
    }

    /** The release of the receiver's share of `Inner`, even while unwinding. */
    method ReleaseRx(mayPanic: bool) returns (panic: Option<nat>)
      requires Inv(Now()) && !borrowed && Now().rx == InUse && Now().receiverDropped
      modifies this
      ensures ReceiverRan(old(Now()), Now()) && !borrowed && Now().rx == Released && Now().receiverDropped
      ensures old(Now()).value.None? || Now().tx == Released ==> Now().value.None?
      ensures |script| == old(|script|) ==> Now() == ReleaseReceiver(old(Now()))
      ensures |script| <= old(|script|) && (panic.Some? ==> mayPanic && |script| < old(|script|))
      ensures inFlight == old(inFlight) + if panic.Some? then 1 else 0
      decreases |script|, 2
    {
      hide Inv, Mono, SenderKept, ReceiverKept, Now;
      ghost var u := Now();
      ReleaseReceiverKeeps(u);
      SlotFlag(u);
      panic := None;
      SetReceiver(Released);
      if Tx() != Released {
        return;
      }
      panic := DropPresent(mayPanic);
      RanIsAfter(ReleaseReceiver(u), Now());
      ReceiverStill(ReleaseReceiver(u), Now());
      SenderStill(ReleaseReceiver(u), Now());
      ReceiverRanTransitive(u, ReleaseReceiver(u), Now());
      OverIsEmpty(Now());
    }
  }

  /** A whole run: `seen` are the states between two calls of the program. */
  method Run(script: seq<Choice>) returns (chan: Channel, ghost seen: seq<State>)
    ensures fresh(chan) && seen != [] && seen[|seen| - 1] == chan.Now()
    ensures forall i | 0 <= i < |seen| :: Inv(seen[i])
    ensures forall i | 0 <= i < |seen| - 1 :: After(seen[i], seen[i + 1])
  {
    hide Inv, Mono, SenderKept, ReceiverKept;
    chan := new Channel(script);
    seen := [chan.Now()];
    while chan.script != []
      invariant fresh(chan) && !chan.borrowed && seen != [] && seen[|seen| - 1] == chan.Now()
      invariant forall i | 0 <= i < |seen| :: Inv(seen[i])
      invariant forall i | 0 <= i < |seen| - 1 :: After(seen[i], seen[i + 1])
      decreases |chan.script|
    {
      var choice := chan.script[0];
      chan.script := chan.script[1..];
      if choice.Call? {
        chan.Perform(choice.op);
        seen := seen + [chan.Now()];
      }
    }
  }
}
