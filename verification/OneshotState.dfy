/**
The state of a one-shot channel and of its two handles, what holds whenever user code (a waker's
`clone`, `wake` or `drop`, the value's `Drop`) runs, and what user code may change.
 */
module OneshotState {
  import opened Common

  /** A handle is held by user code, in use by a call in progress, or gone. */
  datatype Hand = Held | InUse | Released

  /**
  Where the receiver stands with its executor: `Polling` once the poll in progress has stored its
  waker, `Parked` once that poll has returned `Pending`, `Woken` when the stored waker is woken.
   */
  datatype Wait = Idle | Polling | Parked | Woken

  /**
  The cells of `Inner` first (`value` is `None` while the slot is uninitialised, `waker` names the
  poll whose waker is stored), then the handles, then history: the value a send was accepted with,
  the values the receiver got, the values dropped in the slot, whether `Canceled` was reported. `woken` are the
  polls whose waker has been woken.
   */
  datatype State = State(
    value: Option<Payload>,
    present: bool,
    senderDropped: bool,
    receiverDropped: bool,
    waker: Option<nat>,
    done: bool,
    tx: Hand,
    rx: Hand,
    polls: nat,
    wait: Wait,
    woken: set<nat>,
    accepted: Option<Payload>,
    got: seq<Payload>,
    gone: seq<Payload>,
    canceled: bool)

  function OptSeq<T>(o: Option<T>): seq<T> {
    if o.Some? then [o.value] else []
  }

  /** Both handles are gone: `Inner` has been dropped. */
  predicate Over(s: State) {
    s.tx == Released && s.rx == Released
  }

  ghost predicate SlotOk(s: State) {
    && (s.present <==> s.value.Some?)
    && OptSeq(s.accepted) == s.got + s.gone + OptSeq(s.value)
    && (s.gone != [] ==> s.receiverDropped)
    && (s.done <==> s.got != [] || s.canceled)
    && (s.canceled ==> s.accepted.None? && s.senderDropped)
    && (Over(s) ==> !s.present)
  }

  ghost predicate HandsOk(s: State) {
    && (s.tx == Held ==> s.accepted.None? && !s.senderDropped)
    && (s.tx == InUse ==> s.accepted.Some? || s.senderDropped || s.receiverDropped)
    && (s.tx == Released ==> s.senderDropped)
    && (s.rx == Held ==> !s.receiverDropped)
    && (s.rx == Released ==> s.receiverDropped)
  }

  ghost predicate WakerOk(s: State) {
    && (s.receiverDropped ==> s.waker.None? && s.wait == Idle)
    && (s.wait == Polling ==> s.rx == InUse && s.waker == Some(s.polls))
    && (s.wait == Parked ==>
          s.rx == Held && s.waker == Some(s.polls) && !s.present && !s.senderDropped && !s.done && s.tx == Held)
    && (s.wait == Woken && s.rx == InUse ==> s.present || s.senderDropped)
    && (s.wait == Woken ==> s.polls in s.woken)
    && (s.wait == Idle && s.rx == InUse && !s.receiverDropped ==> s.polls !in s.woken && s.waker != Some(s.polls))
    && (s.waker.Some? ==> s.waker.value <= s.polls && s.waker.value !in s.woken)
    && (forall p <- s.woken :: p <= s.polls)
  }

  /** What holds whenever user code runs. */
  ghost predicate Inv(s: State) {
    SlotOk(s) && HandsOk(s) && WakerOk(s)
  }

  /**
  A receiver that is neither polled nor dropped keeps its place with the executor: it stays parked
  until it is woken, and it is woken only when there is a value or the sender is gone.
   */
  ghost predicate WaitKept(a: State, b: State) {
    a.rx == Held && b.polls == a.polls && !b.receiverDropped ==>
      && b.rx == Held
      && (b.wait == a.wait || (a.wait == Parked && b.wait == Woken && (b.accepted.Some? || b.senderDropped)))
  }

  /** Histories grow, and drops are final. */
  ghost predicate Mono(a: State, b: State) {
    && WaitKept(a, b)
    && (a.accepted.Some? || a.tx != Held || a.receiverDropped ==> b.accepted == a.accepted)
    && a.got <= b.got && a.gone <= b.gone && a.polls <= b.polls && a.woken <= b.woken
    && (a.done ==> b.done)
    && (a.canceled ==> b.canceled)
    && (a.senderDropped ==> b.senderDropped)
    && (a.receiverDropped ==> b.receiverDropped)
    && (a.tx != Held ==> b.tx != Held)
    && (a.tx == Released ==> b.tx == Released)
    && (a.rx == Released ==> b.rx == Released)
  }

  /** A sender in use by a call in progress is left alone. */
  ghost predicate SenderKept(a: State, b: State) {
    a.tx == InUse ==> b.tx == InUse && b.senderDropped == a.senderDropped
  }

  /** A receiver in use is left alone, except that its waker may be woken. */
  ghost predicate ReceiverKept(a: State, b: State) {
    a.rx == InUse ==>
      && b.rx == InUse && b.done == a.done && b.receiverDropped == a.receiverDropped
      && b.got == a.got && b.gone == a.gone && b.canceled == a.canceled && b.polls == a.polls
      && (b.wait == a.wait || (a.wait == Polling && b.wait == Woken))
      && (b.waker == a.waker || (b.waker.None? && a.waker.Some? && a.waker.value in b.woken))
      && (a.present ==> b.present)
  }

  /** What user code may have done between `a` and `b`. */
  ghost predicate After(a: State, b: State) {
    Inv(b) && Mono(a, b) && SenderKept(a, b) && ReceiverKept(a, b)
  }

  /** A call that uses the sender, and lets user code run, took the channel from `a` to `b`. */
  ghost predicate SenderRan(a: State, b: State) {
    Inv(b) && Mono(a, b) && ReceiverKept(a, b)
  }

  /** A call that uses the receiver, and lets user code run, took the channel from `a` to `b`. */
  ghost predicate ReceiverRan(a: State, b: State) {
    Inv(b) && Mono(a, b) && SenderKept(a, b)
  }

  lemma AfterTransitive(a: State, b: State, c: State)
    requires After(a, b) && After(b, c)
    ensures After(a, c)
  {
    hide Inv;
  }

  lemma SenderRanTransitive(a: State, b: State, c: State)
    requires SenderRan(a, b) && SenderRan(b, c)
    ensures SenderRan(a, c)
  {
    hide Inv;
  }

  lemma ReceiverRanTransitive(a: State, b: State, c: State)
    requires ReceiverRan(a, b) && ReceiverRan(b, c)
    ensures ReceiverRan(a, c)
  {
    hide Inv;
  }

  lemma RanIsAfter(a: State, b: State)
    ensures SenderRan(a, b) && a.tx != InUse ==> After(a, b)
    ensures ReceiverRan(a, b) && a.rx != InUse ==> After(a, b)
    ensures After(a, b) ==> SenderRan(a, b) && ReceiverRan(a, b)
  {
    hide Inv, Mono;
  }

  lemma NothingRan(s: State)
    requires Inv(s)
    ensures After(s, s)
  {
    hide Inv;
  }

  lemma SenderStill(a: State, b: State)
    requires Inv(a) && After(a, b) && a.tx != Held
    ensures a.tx == InUse ==> b.tx == InUse && b.senderDropped == a.senderDropped
    ensures a.tx == Released ==> b.tx == Released
    ensures b.accepted == a.accepted
  {
    hide Inv;
  }

  lemma ReceiverStill(a: State, b: State)
    requires Inv(a) && After(a, b) && a.rx != Held
    ensures a.rx == InUse ==> b.rx == InUse && b.done == a.done && b.receiverDropped == a.receiverDropped
    ensures a.rx == InUse ==> b.waker == a.waker || (b.waker.None? && a.waker.Some? && a.waker.value in b.woken)
    ensures a.rx == InUse ==> b.wait == a.wait || (a.wait == Polling && b.wait == Woken)
    ensures a.receiverDropped && a.value.None? && a.rx == InUse ==> b.value.None?
    ensures a.rx == Released ==> b.rx == Released
    ensures a.receiverDropped ==> b.receiverDropped
  {
    if a.receiverDropped && a.value.None? && a.rx == InUse {
      assert |OptSeq(b.accepted)| == |a.got| + |a.gone| + 0;
    }
  }

  lemma AcceptedStays(a: State, b: State)
    requires SenderRan(a, b)
    ensures a.accepted.Some? || a.tx != Held ==> b.accepted == a.accepted
  {
    hide Inv;
  }

  lemma NoSendYet(s: State)
    requires Inv(s) && s.tx == Held
    ensures s.accepted.None? && !s.present && !s.senderDropped
  {
    assert |s.got| + |s.gone| + |OptSeq(s.value)| == 0;
  }

  /** What has been woken stays woken, and polls are counted. */
  lemma WokenStays(a: State, b: State)
    requires SenderRan(a, b) || ReceiverRan(a, b)
    ensures a.woken <= b.woken && a.polls <= b.polls
  {
    hide Inv;
  }

  lemma HeldAlive(s: State)
    requires Inv(s) && s.rx == Held
    ensures !s.receiverDropped
  {
  }

  lemma OverIsEmpty(s: State)
    requires Inv(s) && Over(s)
    ensures s.value.None?
  {
  }

  lemma SlotFlag(s: State)
    requires Inv(s)
    ensures s.present <==> s.value.Some?
  {
  }

  // ---- Steps without user code -----------------------------------------------------------------

  function TakeWaker(s: State): State {
    s.(waker := None,
       wait := if s.wait == Polling || s.wait == Parked then Woken else s.wait,
       woken := if s.waker.Some? then s.woken + {s.waker.value} else s.woken)
  }

  function DropValue(s: State): State {
    if s.value.Some? then s.(present := false, value := None, gone := s.gone + [s.value.value]) else s
  }

  /** The write of `send`. */
  function Write(s: State, v: Payload): State {
    s.(tx := InUse, value := Some(v), present := true, accepted := Some(v))
  }

  /** A slot is empty when it is written. */
  lemma WriteKeeps(s: State, v: Payload)
    requires Inv(s) && s.tx == Held && !s.receiverDropped
    ensures s.value.None? && SenderRan(s, TakeWaker(Write(s, v)))
  {
  }

  lemma RejectKeeps(s: State)
    requires Inv(s) && s.tx == Held && s.receiverDropped
    ensures SenderRan(s, s.(tx := InUse))
  {
  }

  /** The first step of `Sender::drop`. */
  function SenderDrops(s: State): State {
    var t := s.(tx := InUse, senderDropped := true);
    if s.present then t else TakeWaker(t)
  }

  lemma SenderDropsKeeps(s: State)
    requires Inv(s) && s.tx != Released
    ensures SenderRan(s, SenderDrops(s))
  {
  }

  /** The sender's share of `Inner` is released, and `Inner` with it if it was the last. */
  function ReleaseSender(s: State): State {
    var t := s.(tx := Released);
    if Over(t) then DropValue(t) else t
  }

  lemma ReleaseSenderKeeps(s: State)
    requires Inv(s) && s.senderDropped
    ensures SenderRan(s, ReleaseSender(s))
  {
    assert s.value.Some? ==> s.got + (s.gone + [s.value.value]) + [] == s.got + s.gone + [s.value.value];
  }

  /** What `send`, with the drop of the sender, amounts to when no user code has anything to do. */
  function Sent(s: State, v: Payload): State {
    ReleaseSender(SenderDrops(if s.receiverDropped then s.(tx := InUse) else TakeWaker(Write(s, v))))
  }

  function ReceiverTakes(s: State): State
    requires s.value.Some?
  {
    s.(present := false, value := None, done := true, got := s.got + [s.value.value])
  }

  lemma ReceiverTakesKeeps(s: State)
    requires Inv(s) && s.rx == Held && s.value.Some?
    ensures ReceiverRan(s, ReceiverTakes(s))
    ensures s.accepted == s.value && ReceiverTakes(s).got == OptSeq(s.value)
  {
    AcceptedOnce(s, s.accepted.value);
    assert [] + [s.value.value] + [] + [] == [s.value.value];
  }

  function Cancel(s: State): State {
    s.(done := true, canceled := true)
  }

  lemma CancelKeeps(s: State)
    requires Inv(s) && s.rx == Held && !s.present && !s.done && s.senderDropped
    ensures ReceiverRan(s, Cancel(s)) && s.accepted.None?
  {
    NothingAccepted(s);
  }

  function BeginPoll(s: State): State {
    s.(rx := InUse, polls := s.polls + 1, wait := Idle)
  }

  lemma BeginPollKeeps(s: State)
    requires Inv(s) && s.rx == Held
    ensures ReceiverRan(s, BeginPoll(s))
  {
  }

  function StoreWaker(s: State): State {
    s.(waker := Some(s.polls), wait := Polling)
  }

  lemma StoreWakerKeeps(s: State)
    requires Inv(s) && s.rx == InUse && s.wait == Idle && !s.receiverDropped
    ensures ReceiverRan(s, StoreWaker(s))
  {
  }

  /** What a poll that has to wait amounts to when no user code has anything to do. */
  function Waiting(s: State): State {
    s.(polls := s.polls + 1, wait := Parked, waker := Some(s.polls + 1))
  }

  function EndPoll(s: State): State {
    s.(rx := Held, wait := Idle)
  }

  lemma EndPollKeeps(s: State)
    requires Inv(s) && s.rx == InUse && !s.receiverDropped
    ensures ReceiverRan(s, EndPoll(s))
    ensures s.wait == Polling && !s.present && !s.senderDropped && !s.done ==>
              ReceiverRan(s, EndPoll(s).(wait := Parked))
    ensures s.wait == Woken ==> s.present || s.senderDropped
  {
    if !s.present && !s.senderDropped && !s.done {
      NothingYet(s);
    }
  }

  /** The first step of `Receiver::drop`. */
  function ReceiverDrops(s: State): State {
    s.(rx := InUse, receiverDropped := true, waker := None, wait := Idle)
  }

  lemma ReceiverDropsKeeps(s: State)
    requires Inv(s) && s.rx == Held
    ensures ReceiverRan(s, ReceiverDrops(s))
  {
  }

  lemma DropValueKeeps(s: State)
    requires Inv(s) && s.receiverDropped
    ensures ReceiverRan(s, DropValue(s))
  {
    assert s.value.Some? ==> s.got + (s.gone + [s.value.value]) + [] == s.got + s.gone + [s.value.value];
  }

  function ReleaseReceiver(s: State): State {
    var t := s.(rx := Released);
    if Over(t) then DropValue(t) else t
  }

  lemma ReleaseReceiverKeeps(s: State)
    requires Inv(s) && s.receiverDropped
    ensures ReceiverRan(s, ReleaseReceiver(s))
  {
    DropValueKeeps(s);
  }

  // ---- What the channel promises ---------------------------------------------------------------

  /** An accepted value is in the slot, or with the receiver, or dropped: exactly one of these. */
  lemma AcceptedOnce(s: State, v: Payload)
    requires Inv(s) && s.accepted == Some(v)
    ensures (s.value == Some(v) && s.got == [] && s.gone == []) ||
            (s.value == None && s.got == [v] && s.gone == []) ||
            (s.value == None && s.got == [] && s.gone == [v])
  {
    assert |s.got| + |s.gone| + |OptSeq(s.value)| == 1;
    assert (s.got + s.gone + OptSeq(s.value))[0] == v;
  }

  /** When both handles are gone, it has left the slot, and no waker is retained. */
  lemma OverLeavesNothing(s: State)
    requires Inv(s) && Over(s)
    ensures s.value.None? && s.waker.None? && s.got + s.gone == OptSeq(s.accepted)
  {
    assert s.got + s.gone + [] == s.got + s.gone;
  }

  /** `Canceled` is reported only if no send was accepted, and then none ever will be. */
  lemma CanceledIsFinal(s: State, t: State)
    requires Inv(s) && s.canceled && After(s, t)
    ensures t.canceled && t.accepted.None? && t.got == []
  {
  }

  /**
  A receiver that was parked, and has been neither polled nor dropped since, is still parked, or the
  waker of its last poll has been woken, for a reason.
   */
  lemma WaitsUntilWoken(s: State, t: State)
    requires Inv(s) && s.wait == Parked && After(s, t) && t.polls == s.polls && !t.receiverDropped
    ensures if t.wait == Parked then t.waker == Some(s.polls) && t.tx == Held && t.accepted.None?
            else t.wait == Woken && s.polls in t.woken && (t.accepted.Some? || t.senderDropped)
  {
  }

  /** A parked receiver: there is no value, the sender is alive, and the receiver's last waker is stored. */
  lemma ParkedCanBeWoken(s: State)
    requires Inv(s) && s.wait == Parked
    ensures s.accepted.None? && s.value.None? && s.tx == Held && s.waker == Some(s.polls)
  {
  }

  /** A receiver that is not done and finds neither value nor sender: no send was ever accepted. */
  lemma NothingAccepted(s: State)
    requires Inv(s) && !s.present && !s.done && !s.receiverDropped
    ensures s.accepted.None?
  {
    assert s.got + s.gone + [] == [];
  }

  /** A receiver that has neither value nor news and is not done has a sender that can still act. */
  lemma NothingYet(s: State)
    requires Inv(s) && !s.present && !s.senderDropped && !s.done && !s.receiverDropped
    ensures s.tx == Held
  {
    NothingAccepted(s);
  }
}
