/**
The `mpmc` channel as an object, with user code as a player that may call back into it.

Whenever the channel hands control to user code, `UserCode` plays the next choices of `script`:
call any operation the borrow rules allow, return, or panic. A script is an arbitrary finite
sequence, so a contract proved here holds for every behaviour of wakers and payloads, however
deeply they re-enter the channel.
 */
module MpmcChan {
  import opened Common
  import opened MpmcState
  import opened MpmcSteps
  import opened MpmcRecvSteps
  import opened MpmcSendSteps
  import opened MpmcHandleSteps
  import opened MpmcCalls
  import F = Flavor

  /** The operations of the public surface, on handles and futures named by numbers. */
  datatype Op =
    | OpTrySend(tx: nat, item: Payload)
    | OpCloseTx(tx: nat)
    | OpCloneTx(tx: nat)
    | OpDropTx(tx: nat)
    | OpSend(tx: nat, item: Payload)
    | OpPollSend(f: nat)
    | OpDropSend(f: nat)
    | OpTryRecv(rx: nat)
    | OpCloseRx(rx: nat)
    | OpCloneRx(rx: nat)
    | OpDropRx(rx: nat)
    | OpRecv(rx: nat)
    | OpPollRecv(f: nat)
    | OpDropRecv(f: nat)
    | OpPollNext(rx: nat)
    | OpIsTerminated(o: Owner)

  /** What the operation asks for, of the things that only user code can ask for. */
  function AskOf(op: Op): multiset<Ask> {
    match op
    case OpPollSend(f) => multiset{Turn(OfSend(f))}
    case OpDropSend(f) => multiset{Turn(OfSend(f))}
    case OpPollRecv(f) => multiset{Turn(OfRecv(f))}
    case OpDropRecv(f) => multiset{Turn(OfRecv(f))}
    case OpPollNext(rx) => multiset{Turn(OfStream(rx))}
    case OpDropRx(rx) => multiset{Turn(OfStream(rx))}
    case OpDropTx(tx) => multiset{Leave(tx)}
    case OpCloseTx(_) => multiset{Shut}
    case OpCloseRx(_) => multiset{Shut}
    case _ => multiset{}
  }

  predicate OnSender(op: Op) {
    op.OpTrySend? || op.OpCloseTx? || op.OpCloneTx? || op.OpDropTx? || op.OpSend? || op.OpPollSend? || op.OpDropSend?
  }

  /** The borrow rules: shared use needs no mutable borrow, mutable use and dropping no borrow at all. */
  predicate Legal(w: World, b: Borrows, op: Op) {
    match op
    case OpTrySend(tx, _) => tx in w.txs
    case OpCloseTx(tx) => tx in w.txs
    case OpCloneTx(tx) => tx in w.txs
    case OpDropTx(tx) => tx in w.txs && tx !in b.tx && forall f <- w.sends :: w.sends[f].tx != tx
    case OpSend(tx, _) => tx in w.txs
    case OpPollSend(f) => f in w.sends && OfSend(f) !in b.busy
    case OpDropSend(f) => f in w.sends && OfSend(f) !in b.busy
    case OpTryRecv(rx) => rx in w.rxs && OfStream(rx) !in b.busy
    case OpCloseRx(rx) => rx in w.rxs && OfStream(rx) !in b.busy
    case OpCloneRx(rx) => rx in w.rxs && OfStream(rx) !in b.busy
    case OpRecv(rx) => rx in w.rxs && OfStream(rx) !in b.busy
    case OpDropRx(rx) => Unshared(w, b, rx)
    case OpPollNext(rx) => Unshared(w, b, rx)
    case OpPollRecv(f) => f in w.recvs && OfRecv(f) !in b.busy
    case OpDropRecv(f) => f in w.recvs && OfRecv(f) !in b.busy
    case OpIsTerminated(o) => o in w.ids && o !in b.busy
  }

  /** The mark that a legal call leaves between `a` and `b`, whatever user code does meanwhile. */
  ghost predicate Performed(op: Op, a: State, b: State) {
    match op
    case OpTrySend(_, item) => !ClosedToSends(a) && !Full(a) ==> a.accepted + [item] <= b.accepted
    case OpCloseTx(_) => !ClosedToSends(a) ==> b.closed
    case OpCloseRx(_) => !Disconnected(a) ==> b.closed
    case OpCloneTx(_) => b.senders == a.senders + 1 && b.w.txs == a.w.txs + {a.w.nextName}
    case OpCloneRx(_) => b.receivers == a.receivers + 1 && b.w.rxs == a.w.rxs + {a.w.nextName}
    case OpDropTx(tx) => tx !in b.w.txs
    case OpDropRx(rx) => OfStream(rx) !in b.w.ids
    case OpSend(tx, item) => b.w.sends == a.w.sends[a.w.nextName := SendFut(tx, Some(item), false, None)]
    case OpRecv(rx) => b.w.recvs == a.w.recvs[a.w.nextName := RecvFut(rx, false)]
    case OpPollSend(f) => f in a.w.sends && (a.w.sends[f].done || HadTurn(OfSend(f), a, b))
    case OpPollRecv(f) => f in a.w.recvs && (a.w.recvs[f].done || HadTurn(OfRecv(f), a, b))
    case OpPollNext(rx) => HadTurn(OfStream(rx), a, b)
    case OpDropSend(f) => OfSend(f) !in b.w.ids
    case OpDropRecv(f) => OfRecv(f) !in b.w.ids
    case OpTryRecv(_) => a.h.calls < b.h.calls
    case OpIsTerminated(o) => Terminated(a.w, Drained(a), o) ==> o in b.h.terminated
  }

  /** Nothing borrows the receiver `rx`. */
  predicate Unshared(w: World, b: Borrows, rx: nat) {
    rx in w.rxs && rx !in b.rx && OfStream(rx) !in b.busy && forall f <- w.recvs :: w.recvs[f].rx != rx
  }

  /** What user code does next. */
  datatype Choice = Call(op: Op) | Return | Panic(payload: nat)

  /** The polls, drops and closes that a script asks for. */
  function AsksOf(script: seq<Choice>): multiset<Ask> {
    if script == [] then multiset{}
    else (if script[0].Call? then AskOf(script[0].op) else multiset{}) + AsksOf(script[1..])
  }

  /** Granting what the first choice asks for takes it out of the rest. */
  lemma NextAsks(rest: seq<Choice>, before: multiset<Ask>, rest': seq<Choice>, granted: multiset<Ask>)
    requires (rest' == rest && granted == multiset{}) ||
             (rest != [] && rest' == rest[1..] &&
              granted == if rest[0].Call? then AskOf(rest[0].op) else multiset{})
    ensures AsksOf(rest') + granted <= AsksOf(rest) + before
  {
  }

  /** The cells of the channel whose borrows must not overlap. */
  datatype Cell = Flavor | Redelivery | RecvWakers | SendWakers

  datatype RecvResult = Item(item: Payload) | NoItem | Hangup

  datatype TrySendResult = Accepted | IsFull(item: Payload) | IsClosed(item: Payload)

  datatype Poll<+T> = Pending | Ready(value: T)

  function ItemOf(r: Exit<Poll<Option<Payload>>>): Option<Payload> {
    if TookItem(r) then r.value.value else None
  }

  /** The receive returned an item. */
  predicate TookItem(r: Exit<Poll<Option<Payload>>>) {
    r.Ret? && r.value.Ready? && r.value.value.Some?
  }

  class Chan {
    // The cells of the source's `Chan`.
    const cap: Option<nat>
    var flavor: seq<Payload>
    var redelivery: Option<Payload>
    var senders: nat
    var receivers: nat
    var closed: bool
    var recvWakers: seq<Entry>
    var nextRecvId: nat
    var sendWakers: seq<Entry>
    var nextSendId: nat

    // What user code holds, what it will do, and what calls in progress borrow from it.
    var world: World
    var borrows: Borrows
    const script: seq<Choice>
    var left: nat  // how many choices of the script are left

    // History and proof obligations; `cells` are the channel cells borrowed at this moment.
    ghost var accepted: seq<Payload>
    ghost var out: seq<Payload>
    ghost var history: History
    ghost var stack: Stack
    ghost var cells: set<Cell>
    ghost var lastExit: Option<nat>  // how the last user code to run ended
    ghost var inFlight: nat          // panics of user code that nothing has caught yet
    ghost var granted: multiset<Ask>  // what user code has just asked for

    /** What is left of the script. */
    function Rest(): seq<Choice>
      reads this`left
    {
      if left <= |script| then script[|script| - left..] else script
    }

    /** What user code may still ask for: the rest of the script, and what was just granted. */
    ghost function Asks(): multiset<Ask>
      reads this`left, this`granted
    {
      AsksOf(Rest()) + granted
    }

    ghost function Now(): State
      reads this
    {
      State(cap, flavor, redelivery, senders, receivers, closed, recvWakers, nextRecvId, sendWakers, nextSendId,
            world, borrows, accepted, out, history, stack, Asks())
    }

    // ---- Cells: no user code runs in any of these -----------------------------------------------

    predicate IsDisconnected()
      reads this
      ensures IsDisconnected() == Disconnected(Now())
    {
      senders == 0 || closed
    }

    function Borrowed(): Borrows
      reads this
      ensures Borrowed() == Now().b
    {
      borrows
    }

    predicate IsLegal(op: Op)
      reads this
      ensures IsLegal(op) == Legal(Now().w, Now().b, op)
    {
      Legal(world, borrows, op)
    }

    predicate IsLastReceiver()
      reads this
      ensures IsLastReceiver() == (Now().receivers == 1)
    {
      receivers == 1
    }

    predicate IsClosedToSends()
      reads this
      ensures IsClosedToSends() == ClosedToSends(Now())
    {
      receivers == 0 || closed
    }

    predicate IsTerminal()
      reads this
      ensures IsTerminal() == (Disconnected(Now()) || Now().receivers == 0)
    {
      senders == 0 || closed || receivers == 0
    }

    predicate RecvDone(f: nat)
      requires f in Now().w.recvs
      reads this
      ensures RecvDone(f) == Now().w.recvs[f].done
    {
      world.recvs[f].done
    }

    function SendState(f: nat): SendFut
      requires f in Now().w.sends
      reads this
      ensures SendState(f) == Now().w.sends[f]
    {
      world.sends[f]
    }

    predicate HasId(o: Owner)
      requires o in Now().w.ids
      reads this
      ensures HasId(o) == Now().w.ids[o].Some?
    {
      world.ids[o].Some?
    }

    predicate IsMarkedClosed()
      reads this
      ensures IsMarkedClosed() == Now().closed
    {
      closed
    }

    predicate HasParkedReceivers()
      reads this
      ensures HasParkedReceivers() == (Now().rw != [])
    {
      recvWakers != []
    }

    predicate HasParkedSenders()
      reads this
      ensures HasParkedSenders() == (Now().sw != [])
    {
      sendWakers != []
    }

    method TakeRedelivery() returns (item: Option<Payload>)
      requires Redelivery !in cells
      modifies this
      ensures item == old(Now()).slot && Now() == old(Now()).(slot := None)
      ensures left == old(left) && cells == old(cells) && inFlight == old(inFlight)
    {
      hide Asks;
      cells := cells + {Redelivery};
      item := redelivery;
      redelivery := None;
      cells := cells - {Redelivery};
    }

    /** The assignment drops what the slot held, under the borrow: so it must hold nothing. */
    method FillRedelivery(item: Payload)
      requires Redelivery !in cells && Now().slot.None?
      modifies this
      ensures Now() == old(Now()).(slot := Some(item))
      ensures left == old(left) && cells == old(cells) && inFlight == old(inFlight)
    {
      hide Asks;
      cells := cells + {Redelivery};
      redelivery := Some(item);
      cells := cells - {Redelivery};
    }

    method Pop() returns (item: Option<Payload>)
      requires Flavor !in cells
      modifies this
      ensures var s := old(Now());
              if s.q == [] then item.None? && Now() == s
              else item == Some(s.q[0]) && Now() == s.(q := s.q[1..])
      ensures (Now().q, F.Popped(item)) == F.Step(old(Now()).cap, old(Now()).q, F.OpPop)
      ensures left == old(left) && cells == old(cells) && inFlight == old(inFlight)
    {
      hide Asks;
      cells := cells + {Flavor};
      if flavor == [] {
        item := None;
      } else {
        item := Some(flavor[0]);
        flavor := flavor[1..];
      }
      cells := cells - {Flavor};
    }

    method TryPush(item: Payload) returns (ok: bool)
      requires Flavor !in cells
      modifies this
      ensures ok == !Full(old(Now()))
      ensures Now() == if ok then Push(old(Now()), item) else old(Now())
      ensures (Now().q, if ok then F.Pushed else F.Full(item)) == F.Step(old(Now()).cap, old(Now()).q, F.OpPush(item))
      ensures left == old(left) && cells == old(cells) && inFlight == old(inFlight)
    {
      hide Asks;
      cells := cells + {Flavor};
      ok := !(cap.Some? && |flavor| == cap.value);
      if ok {
        flavor := flavor + [item];
        accepted := accepted + [item];
      }
      cells := cells - {Flavor};
    }

    method TakeRecvWakers() returns (wakers: seq<Entry>)
      requires RecvWakers !in cells
      modifies this
      ensures wakers == old(Now()).rw && Now() == TakeRecvs(old(Now()))
      ensures left == old(left) && cells == old(cells) && inFlight == old(inFlight)
    {
      hide Asks;
      cells := cells + {RecvWakers};
      wakers := recvWakers;
      recvWakers := [];
      stack := stack.(pend := stack.pend + Elems(wakers));
      cells := cells - {RecvWakers};
    }

    /** `closed.replace(true)` on an open channel. */
    method SetClosed()
      requires Shut in granted
      modifies this
      ensures Now() == Close(old(Now()))
      ensures left == old(left) && cells == old(cells) && inFlight == old(inFlight)
    {
      hide Now;
      ghost var t := Close(Now());
      Spend(Shut);
      MarkClosed();
      Note(t.h, t.k);
    }

    method MarkClosed()
      modifies this
      ensures Now() == old(Now()).(closed := true)
      ensures left == old(left) && cells == old(cells) && inFlight == old(inFlight)
    {
      hide Asks;
      closed := true;
    }

    method TakeSendWakers() returns (wakers: seq<Entry>)
      requires SendWakers !in cells
      modifies this
      ensures wakers == old(Now()).sw && Now() == TakeSends(old(Now()))
      ensures left == old(left) && cells == old(cells) && inFlight == old(inFlight)
    {
      hide Asks;
      cells := cells + {SendWakers};
      wakers := sendWakers;
      sendWakers := [];
      stack := stack.(pend := stack.pend + Elems(wakers));
      cells := cells - {SendWakers};
    }

    /** Removes the entry with this id, if it is still registered; its waker is not yet dropped. */
    method RemoveRecvEntry(id: nat) returns (found: bool)
      requires RecvWakers !in cells
      modifies this
      ensures Now() == old(Now()).(rw := RemoveId(old(Now()).rw, id))
      ensures found == Position(old(Now()).rw, id).Some?
      ensures left == old(left) && cells == old(cells) && inFlight == old(inFlight)
    {
      hide Asks;
      cells := cells + {RecvWakers};
      var position := Position(recvWakers, id);
      found := position.Some?;
      if found {
        recvWakers := SwapRemove(recvWakers, position.value);
      }
      cells := cells - {RecvWakers};
    }

    method RemoveSendEntry(id: nat) returns (found: bool)
      requires SendWakers !in cells
      modifies this
      ensures Now() == old(Now()).(sw := RemoveId(old(Now()).sw, id))
      ensures found == Position(old(Now()).sw, id).Some?
      ensures left == old(left) && cells == old(cells) && inFlight == old(inFlight)
    {
      hide Asks;
      cells := cells + {SendWakers};
      var position := Position(sendWakers, id);
      found := position.Some?;
      if found {
        sendWakers := SwapRemove(sendWakers, position.value);
      }
      cells := cells - {SendWakers};
    }

    method IssueRecvId(o: Owner) returns (id: nat)
      modifies this
      ensures id == old(Now()).nextR && Now() == IssueRecv(old(Now()), o)
      ensures left == old(left) && cells == old(cells) && inFlight == old(inFlight)
    {
      hide Asks;
      id := nextRecvId;
      nextRecvId := id + 1;
      history := history.(wait := history.wait[o := Polling]);
      stack := stack.(issued := stack.issued + {Entry(id, o)});
    }

    method PushRecvWaker(e: Entry)
      requires RecvWakers !in cells
      modifies this
      ensures Now() == old(Now()).(rw := old(Now()).rw + [e])
      ensures left == old(left) && cells == old(cells) && inFlight == old(inFlight)
    {
      hide Asks;
      cells := cells + {RecvWakers};
      recvWakers := recvWakers + [e];
      cells := cells - {RecvWakers};
    }

    /** `waker_id.take()`. */
    method TakeId(o: Owner) returns (id: Option<nat>)
      requires o in Now().w.ids
      modifies this
      ensures id == old(Now()).w.ids[o] && Now() == SetId(old(Now()), o, None)
      ensures left == old(left) && cells == old(cells) && inFlight == old(inFlight)
    {
      hide Asks;
      id := world.ids[o];
      world := world.(ids := world.ids[o := None]);
    }

    /** `waker_id.set(Some(id))`. */
    method RecordId(o: Owner, id: nat)
      modifies this
      ensures Now() == SetId(old(Now()), o, Some(id))
      ensures left == old(left) && cells == old(cells) && inFlight == old(inFlight)
    {
      hide Asks;
      world := world.(ids := world.ids[o := Some(id)]);
    }

    method Borrow(b: Borrows)
      modifies this
      ensures Now() == old(Now()).(b := b)
      ensures granted == old(granted)
      ensures left == old(left) && cells == old(cells) && inFlight == old(inFlight)
    {
      hide Asks;
      borrows := b;
    }

    /** A poll borrows its future mutably. */
    method BeginPoll(o: Owner)
      requires Turn(o) in granted
      modifies this
      ensures Now() == Begin(old(Now()), o)
      ensures left == old(left) && cells == old(cells) && inFlight == old(inFlight)
    {
      hide Now;
      ghost var t := Begin(Now(), o);
      Spend(Turn(o));
      Note(t.h, t.k);
      var b := Borrowed();
      Borrow(b.(busy := b.busy + {o}));
    }

    method EndPoll(o: Owner, ghost v: Wait)
      modifies this
      ensures Now() == End(old(Now()), o, v)
      ensures left == old(left) && cells == old(cells) && inFlight == old(inFlight)
    {
      hide Asks;
      borrows := borrows.(busy := borrows.busy - {o});
      history := history.(wait := history.wait[o := v]);
    }

    /** `this.done = true`, as the future is about to return Ready. */
    method MarkDone(f: nat)
      requires f in Now().w.recvs
      modifies this
      ensures Now() == Yield(old(Now()), f)
      ensures left == old(left) && cells == old(cells) && inFlight == old(inFlight)
    {
      hide Asks;
      world := world.(recvs := world.recvs[f := world.recvs[f].(done := true)]);
      history := history.(ready := history.ready[f := ReadyOf(history.ready, f) + 1]);
    }

    /** `item.take().expect("message present")`. */
    method TakeMessage(f: nat) returns (item: Payload)
      requires f in Now().w.sends && Now().w.sends[f].item.Some?
      modifies this
      ensures Some(item) == old(Now()).w.sends[f].item && Now() == WithItem(old(Now()), f, None)
      ensures left == old(left) && cells == old(cells) && inFlight == old(inFlight)
    {
      hide Asks;
      item := world.sends[f].item.value;
      world := world.(sends := world.sends[f := world.sends[f].(item := None)]);
    }

    method RestoreMessage(f: nat, item: Payload)
      requires f in Now().w.sends
      modifies this
      ensures Now() == WithItem(old(Now()), f, Some(item))
      ensures left == old(left) && cells == old(cells) && inFlight == old(inFlight)
    {
      hide Asks;
      world := world.(sends := world.sends[f := world.sends[f].(item := Some(item))]);
    }

    /** The terminal result is recorded in the future. */
    method RecordOutcome(f: nat, r: SendResult)
      requires f in Now().w.sends && f in Now().h.sent && Now().w.sends[f].item.None?
      requires r.Sent? ==> Now().accepted != []
      modifies this
      ensures Now() == Settle(old(Now()), f, r, if r.Sent? then Some(|old(Now()).accepted| - 1) else None)
      ensures left == old(left) && cells == old(cells) && inFlight == old(inFlight)
    {
      hide Asks;
      world := world.(sends := world.sends[f := world.sends[f].(done := true, outcome := Some(r))]);
      history := history.(sent :=
        history.sent[f := history.sent[f].(outcome := Some(r), at := if r.Sent? then Some(|accepted| - 1) else None)]);
    }

    /** `outcome.take()`, as the future is about to return Ready. */
    method TakeOutcome(f: nat) returns (r: SendResult)
      requires f in Now().w.sends && f in Now().h.sent && Now().w.sends[f].outcome.Some?
      modifies this
      ensures Some(r) == old(Now()).w.sends[f].outcome && Now() == Answer(old(Now()), f)
      ensures left == old(left) && cells == old(cells) && inFlight == old(inFlight)
    {
      hide Asks;
      r := world.sends[f].outcome.value;
      world := world.(sends := world.sends[f := world.sends[f].(outcome := None)]);
      history := history.(sent := history.sent[f := history.sent[f].(answers := history.sent[f].answers + [r])]);
    }

    method PushSendWaker(o: Owner) returns (id: nat)
      requires SendWakers !in cells
      modifies this
      ensures id == old(Now()).nextS
      ensures Now() == old(Now()).(nextS := id + 1, sw := old(Now()).sw + [Entry(id, o)])
      ensures left == old(left) && cells == old(cells) && inFlight == old(inFlight)
    {
      hide Asks;
      id := nextSendId;
      nextSendId := id + 1;
      cells := cells + {SendWakers};
      sendWakers := sendWakers + [Entry(id, o)];
      cells := cells - {SendWakers};
    }

    /** The handle or future behind `o` disappears; what its `waker_id` cell held is returned. */
    method Remove(o: Owner) returns (id: Option<nat>)
      requires o in Now().w.ids && o !in Now().b.busy && Turn(o) in granted
      modifies this
      ensures id == old(Now()).w.ids[o] && Now() == Bury(Reset(old(Now()), o), o)
      ensures left == old(left) && cells == old(cells) && inFlight == old(inFlight)
    {
      hide Now, Without;
      ghost var t := Bury(Reset(Now(), o), o);
      assert Now().b.busy - {o} == Now().b.busy;
      Spend(Turn(o));
      id := Detach(o);
      Note(t.h, t.k);
    }

    /** `decr_receivers` for a receiver; a future only disappears. */
    method Detach(o: Owner) returns (id: Option<nat>)
      requires o in Now().w.ids
      modifies this
      ensures id == old(Now()).w.ids[o]
      ensures Now() == old(Now()).(w := Bury(old(Now()), o).w, receivers := Bury(old(Now()), o).receivers)
      ensures left == old(left) && cells == old(cells) && inFlight == old(inFlight)
    {
      hide Without;
      id := world.ids[o];
      receivers := if o.OfStream? && receivers > 0 then receivers - 1 else receivers;
      world := Without(world, o);
    }

    /** `decr_senders`: the count before the decrement is returned. */
    method DecrSenders(tx: nat) returns (before: nat)
      requires Now().senders > 0 && Leave(tx) in granted
      modifies this
      ensures before == old(Now()).senders && Now() == DropTx(old(Now()), tx)
      ensures left == old(left) && cells == old(cells) && inFlight == old(inFlight)
    {
      hide Now;
      Spend(Leave(tx));
      before := TakeSender(tx);
    }

    method TakeSender(tx: nat) returns (before: nat)
      requires Now().senders > 0
      modifies this
      ensures before == old(Now()).senders
      ensures Now() == old(Now()).(senders := before - 1, w := old(Now()).w.(txs := old(Now()).w.txs - {tx}))
      ensures left == old(left) && cells == old(cells) && inFlight == old(inFlight)
    {
      hide Asks;
      before := senders;
      senders := senders - 1;
      world := world.(txs := world.txs - {tx});
    }

    method AddSender()
      modifies this
      ensures Now() == CloneTx(old(Now()))
      ensures left == old(left) && cells == old(cells) && inFlight == old(inFlight)
    {
      hide Asks;
      senders := senders + 1;
      world := world.(txs := world.txs + {world.nextName}, nextName := world.nextName + 1);
    }

    method AddReceiver()
      modifies this
      ensures Now() == CloneRx(old(Now()))
      ensures left == old(left) && cells == old(cells) && inFlight == old(inFlight)
    {
      hide Asks;
      receivers := receivers + 1;
      world := world.(rxs := world.rxs + {world.nextName},
                      ids := world.ids[OfStream(world.nextName) := None],
                      nextName := world.nextName + 1);
    }

    method AddRecvFuture(rx: nat)
      modifies this
      ensures Now() == NewRecv(old(Now()), rx)
      ensures left == old(left) && cells == old(cells) && inFlight == old(inFlight)
    {
      hide Asks;
      world := world.(recvs := world.recvs[world.nextName := RecvFut(rx, false)],
                      ids := world.ids[OfRecv(world.nextName) := None],
                      nextName := world.nextName + 1);
    }

    method AddSendFuture(tx: nat, item: Payload)
      modifies this
      ensures Now() == NewSend(old(Now()), tx, item)
      ensures left == old(left) && cells == old(cells) && inFlight == old(inFlight)
    {
      hide Asks;
      history := history.(sent := history.sent[world.nextName := SendLog(item, None, None, [], false)]);
      world := world.(sends := world.sends[world.nextName := SendFut(tx, Some(item), false, None)],
                      ids := world.ids[OfSend(world.nextName) := None],
                      nextName := world.nextName + 1);
    }

    /** History only: an item leaves the channel, taken by the receive call `c` or dropped. */
    ghost method HandOut(item: Payload, c: Option<nat>)
      modifies this
      ensures Now() == Taken(old(Now()).(out := old(Now()).out + [item]), c)
      ensures left == old(left) && cells == old(cells) && inFlight == old(inFlight)
    {
      hide Asks;
      out := out + [item];
      history := history.(takers := history.takers + [c]);
      if c.Some? {
        stack := stack.(taking := stack.taking - {c.value});
      }
    }

    /** History only: a receive call begins. */
    ghost method NoteCall()
      modifies this
      ensures Now() == OpenCall(old(Now())) && lastExit == old(lastExit)
      ensures left == old(left) && cells == old(cells) && inFlight == old(inFlight)
    {
      hide Asks;
      stack := stack.(taking := stack.taking + {history.calls});
      history := history.(calls := history.calls + 1);
    }

    /** History only: it ends without an item. */
    ghost method NoteCallEnd(c: nat)
      modifies this
      ensures Now() == CloseCall(old(Now()), c) && lastExit == old(lastExit)
      ensures left == old(left) && cells == old(cells) && inFlight == old(inFlight)
    {
      hide Asks;
      stack := stack.(taking := stack.taking - {c});
    }

    /** History and obligations only. */
    ghost method Note(h: History, k: Stack)
      modifies this
      ensures Now() == old(Now()).(h := h, k := k) && lastExit == old(lastExit)
      ensures left == old(left) && cells == old(cells) && inFlight == old(inFlight)
    {
      hide Asks;
      history, stack := h, k;
    }

    ghost method NoteWake(e: Entry)
      modifies this
      ensures Now() == Wake(old(Now()), e) && lastExit == old(lastExit)
      ensures left == old(left) && cells == old(cells) && inFlight == old(inFlight)
    {
      hide Now;
      Note(Wake(Now(), e).h, Wake(Now(), e).k);
    }

    ghost method NoteWakeEnd(e: Entry, panic: Option<nat>)
      modifies this
      ensures Now() == EndWake(old(Now()), e, panic) && lastExit == old(lastExit)
      ensures left == old(left) && cells == old(cells) && inFlight == old(inFlight)
    {
      hide Now;
      Note(EndWake(Now(), e, panic).h, EndWake(Now(), e, panic).k);
    }

    /** `catch_unwind` has caught this panic, if there is one. */
    ghost method Caught(panic: Option<nat>)
      requires panic.Some? ==> inFlight > 0
      modifies this`inFlight
      ensures inFlight == old(inFlight) - if panic.Some? then 1 else 0
      ensures Now() == old(Now()) && lastExit == old(lastExit) && left == old(left) && cells == old(cells)
    {
      hide Asks;
      inFlight := inFlight - if panic.Some? then 1 else 0;
    }

    /** `resume_unwind`. */
    ghost method Resumed(panic: Option<nat>)
      modifies this`inFlight
      ensures inFlight == old(inFlight) + if panic.Some? then 1 else 0
      ensures Now() == old(Now()) && lastExit == old(lastExit) && left == old(left) && cells == old(cells)
    {
      hide Asks;
      inFlight := inFlight + if panic.Some? then 1 else 0;
    }

    /** History only: the item of a dropped send is dropped. */
    ghost method NoteItemDropped(f: nat)
      requires f in Now().h.sent
      modifies this
      ensures Now() == DropHeld(old(Now()), f) && lastExit == old(lastExit)
      ensures left == old(left) && cells == old(cells) && inFlight == old(inFlight)
    {
      hide Now;
      Note(DropHeld(Now(), f).h, DropHeld(Now(), f).k);
    }

    // ---- User code ------------------------------------------------------------------------------

    /** The next choice of user code; if it is a call, what it asks for is granted. */
    method NextChoice() returns (choice: Choice)
      requires left > 0
      modifies this
      ensures left == old(left) - 1 && cells == old(cells) && inFlight == old(inFlight) && lastExit == old(lastExit)
      ensures Now() == old(Now()).(asks := Now().asks) && Now().asks <= old(Now()).asks
      ensures granted == if choice.Call? then AskOf(choice.op) else multiset{}
    {
      hide Asks, AsksOf, AskOf;
      AsksAre();
      ghost var rest := Rest();
      choice := if left <= |script| then script[|script| - left] else Return;
      left := left - 1;
      granted := if choice.Call? then AskOf(choice.op) else multiset{};
      assert if old(left) <= |script| then Rest() == rest[1..] && choice == rest[0] else Rest() == rest;
      NextAsks(rest, old(granted), Rest(), granted);
      AsksAre();
    }

    lemma AsksAre()
      ensures Asks() == AsksOf(Rest()) + granted
    {
    }

    /** How user code has ended, with this many panics in flight before. */
    ghost method NoteExit(panic: Option<nat>, before: nat)
      modifies this
      ensures Now() == old(Now()) && left == old(left) && cells == old(cells)
      ensures lastExit == panic && inFlight == before + if panic.Some? then 1 else 0
    {
      hide Asks;
      lastExit := panic;
      inFlight := before + if panic.Some? then 1 else 0;
    }

    ghost method LoseGrants()
      modifies this`granted
      ensures granted == multiset{}
      ensures Now() == old(Now()).(asks := Now().asks) && Now().asks <= old(Now()).asks
    {
      hide AsksOf;
      granted := multiset{};
    }

    /** What has been granted, user code has asked for. */
    lemma GrantedAsks()
      ensures granted <= Now().asks
    {
      hide AsksOf;
    }

    /** What has been granted is used. */
    ghost method Spend(k: Ask)
      requires k in granted
      modifies this`granted
      ensures Now() == old(Now()).(asks := old(Now()).asks - multiset{k})
    {
      hide AsksOf;
      granted := granted - multiset{k};
      assert AsksOf(Rest()) + granted == AsksOf(Rest()) + old(granted) - multiset{k};
    }

    /** One turn of the program: its next choice, if it is a call. */
    method NextTurn()
      requires Inv(Now()) && cells == {} && left > 0
      modifies this
      ensures After(old(Now()), Now()) && cells == {} && left < old(left) && Now().asks == AsksOf(Rest())
    {
      hide Core, Rel, Now;
      ghost var s := Now();
      var choice := NextChoice();
      ghost var t := Now();
      ForfeitKeeps(s, t.asks);
      RelReflexive(t);
      if choice.Call? {
        PerformAsked(choice.op);
      }
      RelTransitive(s.b.busy, s, t, Now());
      AllGranted();
    }

    lemma AllGranted()
      requires granted == multiset{}
      ensures Now().asks == AsksOf(Rest())
    {
      hide AsksOf;
    }

    method UserCode(mayPanic: bool) returns (panic: Option<nat>)
      requires Inv(Now()) && cells == {}
      modifies this
      ensures After(old(Now()), Now()) && cells == {}
      ensures Played(old(left), left, 1)
      ensures left <= old(left)
      ensures left == old(left) ==> Now() == old(Now())
      ensures panic.Some? ==> mayPanic && left < old(left)
      ensures panic == lastExit
      ensures inFlight == old(inFlight) + if panic.Some? then 1 else 0
      decreases left, 0
    {
      hide Core, Rel, Now;
      RelReflexive(Now());
      panic := None;
      while left > 0
        invariant After(old(Now()), Now()) && cells == {}
        invariant left <= old(left)
        invariant left == old(left) ==> Now() == old(Now())
        invariant panic.None? && inFlight == old(inFlight)
        decreases left
      {
        ghost var before := Now();
        var choice := NextChoice();
        ForfeitKeeps(before, Now().asks);
        RelTransitive(before.b.busy, old(Now()), before, Now());
        match choice
        case Return =>
          NoteExit(None, inFlight);
          return;
        case Panic(p) =>
          if mayPanic {
            NoteExit(Some(p), inFlight);
            return Some(p);
          }
        case Call(op) =>
          ghost var asked := Now();
          PerformAsked(op);
          NoteExit(None, old(inFlight));
          RelTransitive(asked.b.busy, old(Now()), asked, Now());
      }
      NoteExit(None, inFlight);
    }

    /** A call that user code has asked for; what it did not use of the turn it was given, it loses. */
    method PerformAsked(op: Op)
      requires Inv(Now()) && cells == {} && AskOf(op) <= granted
      modifies this
      ensures After(old(Now()), Now()) && cells == {}
      ensures left <= old(left) && granted == multiset{}
      decreases left, 21
    {
      hide Core, Rel, Now;
      ghost var s := Now();
      Perform(op);
      ghost var t := Now();
      LoseGrants();
      ForfeitKeeps(t, Now().asks);
      RelTransitive(s.b.busy, s, t, Now());
    }

    /** One call by user code, if the borrow rules allow it. */
    method Perform(op: Op)
      requires Inv(Now()) && cells == {} && AskOf(op) <= granted
      modifies this
      ensures After(old(Now()), Now()) && cells == {}
      ensures left <= old(left)
      ensures if Legal(old(Now()).w, old(Now()).b, op) then Performed(op, old(Now()), Now()) else Now() == old(Now())
      decreases left, 20
    {
      hide Core, Rel, Now, Performed;
      NothingRan(Now());
      if IsLegal(op) {
        OwnersExist(Now());
        if OnSender(op) {
          PerformSend(op);
        } else {
          PerformRecv(op);
        }
      }
    }

    method PerformSend(op: Op)
      requires Inv(Now()) && cells == {} && Legal(Now().w, Now().b, op) && AskOf(op) <= granted
      requires OnSender(op)
      requires forall f <- Now().w.sends :: OfSend(f) in Now().w.ids
      modifies this
      ensures After(old(Now()), Now()) && cells == {}
      ensures left <= old(left) && Performed(op, old(Now()), Now())
      decreases left, 19
    {
      hide Core, Rel, Now;
      match op
      case OpTrySend(tx, item) => var r := TrySend(tx, item);
      case OpCloseTx(tx) =>
        var r;
        ghost var taken;
        r, taken := CloseBy(tx, true);
      case OpCloneTx(tx) => CloneSender(tx);
      case OpDropTx(tx) => var r := DropSender(tx);
      case OpSend(tx, item) => StartSend(tx, item);
      case OpPollSend(f) => var r := PollSend(f);
      case OpDropSend(f) => var r := DropSend(f);
    }

    method PerformRecv(op: Op)
      requires Inv(Now()) && cells == {} && Legal(Now().w, Now().b, op) && AskOf(op) <= granted
      requires !OnSender(op)
      requires forall f <- Now().w.recvs :: OfRecv(f) in Now().w.ids
      requires forall r <- Now().w.rxs :: OfStream(r) in Now().w.ids
      modifies this
      ensures After(old(Now()), Now()) && cells == {}
      ensures left <= old(left) && Performed(op, old(Now()), Now())
      decreases left, 19
    {
      hide Core, Rel, Now;
      SendersAlive(Now());
      match op
      case OpTryRecv(rx) =>
        var r;
        ghost var woken;
        r, woken := TryRecv(rx);
      case OpCloseRx(rx) =>
        var r;
        ghost var taken;
        r, taken := CloseBy(rx, false);
      case OpCloneRx(rx) => CloneReceiver(rx);
      case OpDropRx(rx) =>
        if IsLastReceiver() {
          var r := DropLastReceiver(rx);
        } else {
          var r := Discard(OfStream(rx));
        }
      case OpRecv(rx) => StartRecv(rx);
      case OpPollRecv(f) => var r := PollRecv(f);
      case OpDropRecv(f) => var r := Discard(OfRecv(f));
      case OpPollNext(rx) => var r := PollNext(rx);
      case OpIsTerminated(o) => var r := IsTerminated(o);
    }

    // ---- Waking ---------------------------------------------------------------------------------

    /** One waker of a taken list is woken; a panic is caught. */
    method WakeOne(e: Entry) returns (panic: Option<nat>)
      requires Inv(Now()) && cells == {} && e in Now().k.pend
      modifies this
      ensures Ran(old(Now()), old(Now()).k.(pend := old(Now()).k.pend - {e}), Now()) && cells == {}
      ensures e in Now().h.woken && e !in old(Now()).h.woken
      ensures e in Now().h.ended && Now().h.ended[e] == panic == lastExit
      ensures Played(old(left), left, 1)
      ensures left <= old(left) && (panic.Some? ==> left < old(left))
      ensures inFlight == old(inFlight)
      ensures left == old(left) ==> Now().slot == old(Now()).slot && Moved(old(Now()), Now(), None)
      decreases left, 1
    {
      hide Core, Rel, Now, Extends;
      ghost var s := Now();
      WakeKeeps(s, e);
      NotWoken(s, e);
      NoteWake(e);
      ghost var t := Now();
      panic := UserCode(true);
      Caught(panic);
      ghost var u := Now();
      EndWakeKeeps(u, e, panic);
      NoteWakeEnd(e, panic);
      assert u.k.waking - {e} == s.k.waking;
      RelTransitive(s.b.busy, t, u, Now());
      RelTransitive(s.b.busy, s, t, Now());
      WokenStays(t.b.busy, t, Now());
    }

    /** Wakes every waker of a taken list, whatever each wake does, and resumes the first panic. */
    method WakeAll(wakers: seq<Entry>) returns (first: Option<nat>)
      requires Inv(Now()) && cells == {}
      requires NoDup(wakers) && forall e <- wakers :: e in Now().k.pend
      modifies this
      ensures Ran(old(Now()), old(Now()).k.(pend := old(Now()).k.pend - Elems(wakers)), Now()) && cells == {}
      ensures forall e <- wakers :: e in Now().h.woken && e !in old(Now()).h.woken
      ensures (forall e <- wakers :: e in Now().h.ended) && first == FirstPanic(Now().h.ended, wakers)
      ensures Played(old(left), left, |wakers|)
      ensures left <= old(left) && (first.Some? ==> left < old(left))
      ensures inFlight == old(inFlight) + if first.Some? then 1 else 0
      ensures left == old(left) ==> Now().slot == old(Now()).slot && Moved(old(Now()), Now(), None)
      decreases left, 2
    {
      hide Core, Rel, Now;
      ghost var s := Now();
      RelReflexive(s);
      first := None;
      for i := 0 to |wakers|
        invariant Ran(s, s.k.(pend := s.k.pend - Elems(wakers[..i])), Now()) && cells == {}
        invariant forall e <- wakers[..i] :: e in Now().h.woken && e !in s.h.woken && e in Now().h.ended
        invariant first == FirstPanic(Now().h.ended, wakers[..i])
        invariant inFlight == old(inFlight) && Played(old(left), left, i)
        invariant left <= old(left) && (first.Some? ==> left < old(left))
        invariant left == old(left) ==> Now().slot == s.slot && Moved(s, Now(), None)
      {
        ghost var t := Now();
        var e := wakers[i];
        assert e !in wakers[..i];
        var panic := WakeOne(e);
        RelTransitive(s.b.busy, s, t, Now());
        WokenStays(s.b.busy, s, t);
        WokenStays(s.b.busy, t, Now());
        FirstPanicNext(t.h.ended, Now().h.ended, wakers[..i], e);
        if first.None? {
          first := panic;
        }
        assert wakers[..i + 1] == wakers[..i] + [e];
        assert Elems(wakers[..i + 1]) == Elems(wakers[..i]) + {e};
      }
      assert wakers[..|wakers|] == wakers;
      Resumed(first);
    }

    method WakeReceivers() returns (panic: Option<nat>)
      requires Inv(TakeRecvs(Now())) && cells == {} && Takeable(Now().rw, Now().k.pend)
      modifies this
      ensures Ran(TakeRecvs(old(Now())), old(Now()).k, Now()) && cells == {}
      ensures forall e <- old(Now()).rw :: e in Now().h.woken && e in Now().h.ended
      ensures panic == FirstPanic(Now().h.ended, old(Now()).rw)
      ensures left == old(left) ==> Moved(old(Now()), Now(), None)
      ensures Played(old(left), left, |old(Now()).rw|)
      ensures left <= old(left) && (panic.Some? ==> left < old(left))
      ensures inFlight == old(inFlight) + if panic.Some? then 1 else 0
      decreases left, 3
    {
      hide Core, Rel, Now;
      ghost var s := Now();
      if !HasParkedReceivers() {
        assert TakeRecvs(s) == s;
        RelReflexive(s);
        return None;
      }
      var wakers := TakeRecvWakers();
      assert TakeRecvs(s).k.pend - Elems(wakers) == s.k.pend;
      panic := WakeAll(wakers);
    }

    method WakeSenders() returns (panic: Option<nat>)
      requires Inv(TakeSends(Now())) && cells == {} && Takeable(Now().sw, Now().k.pend)
      modifies this
      ensures Ran(TakeSends(old(Now())), old(Now()).k, Now()) && cells == {}
      ensures forall e <- old(Now()).sw :: e in Now().h.woken && e in Now().h.ended
      ensures panic == FirstPanic(Now().h.ended, old(Now()).sw)
      ensures Played(old(left), left, |old(Now()).sw|)
      ensures left <= old(left) && (panic.Some? ==> left < old(left))
      ensures inFlight == old(inFlight) + if panic.Some? then 1 else 0
      ensures left == old(left) ==> Now().slot == old(Now()).slot && Moved(old(Now()), Now(), None)
      decreases left, 3
    {
      hide Core, Rel, Now;
      ghost var s := Now();
      if !HasParkedSenders() {
        assert TakeSends(s) == s;
        RelReflexive(s);
        return None;
      }
      var wakers := TakeSendWakers();
      assert TakeSends(s).k.pend - Elems(wakers) == s.k.pend;
      panic := WakeAll(wakers);
    }

    /** Takes the item in the slot, if there is one, to hand it out. */
    method Reclaim(ghost c: nat) returns (item: Option<Payload>)
      requires Redelivery !in cells
      modifies this
      ensures item == old(Now()).slot
      ensures Now() == if item.Some? then TakeSlot(old(Now()), Some(c)) else old(Now())
      ensures left == old(left) && cells == old(cells) && inFlight == old(inFlight)
    {
      hide Now;
      ghost var s := Now();
      item := TakeRedelivery();
      if item.Some? {
        HandOut(item.value, Some(c));
      } else {
        assert Now() == s;
      }
    }

    /** A lap of `try_take` up to the wakes: an item that has to wait for the senders goes into the slot. */
    method TakeNext(ghost a: State, ghost c: nat) returns (item: Option<Payload>, waiting: bool)
      requires After(a, Now()) && Receiving(a.b) && cells == {} && c in Now().k.taking
      modifies this
      ensures var s := old(Now());
              if waiting then s.slot.None? && s.q != [] && Now() == PopToSlot(s)
              else if item.None? then Empty(s) && Now() == s
              else
                && After(CloseCall(a, c), Now()) && TakenBy(Now().out, Now().h.takers, c, item.value) && !Empty(s)
                && Now().out == s.out + [item.value] && Moved(s, Now(), item)
                && Now().h.woken == s.h.woken && Now().h.ended == s.h.ended
      ensures left == old(left) && cells == {} && inFlight == old(inFlight)
    {
      hide Core, Rel, Now, Receiving, OptSeq, NoDup;
      ghost var s := Now();
      waiting := false;
      item := Reclaim(c);
      if item.Some? {
        TookSlot(a, s, c);
        return;
      }
      item := Pop();
      if item.None? {
        return;
      }
      if !HasParkedSenders() {
        HandOut(item.value, Some(c));
        TookFront(a, s, c);
        return;
      }
      FillRedelivery(item.value);
      waiting := true;
    }

    /** `try_take`. `lost` counts the laps that lost their item; `taken` are the senders it has woken. */
    method TryTake(ghost c: nat) returns (r: Exit<Option<Payload>>, ghost lost: nat, ghost taken: seq<Entry>)
      requires Inv(Now()) && cells == {}
      requires Receiving(Now().b) && c in Now().k.taking
      modifies this
      ensures After(if r.Ret? && r.value.Some? then CloseCall(old(Now()), c) else old(Now()), Now()) && cells == {}
      ensures r.Ret? && r.value.Some? ==> TakenBy(Now().out, Now().h.takers, c, r.value.value)
      ensures r == Ret(None) ==> Empty(Now())
      ensures Empty(old(Now())) ==> r == Ret(None) && Now() == old(Now())
      ensures |Now().out| >= |old(Now()).out| + lost + if r.Ret? && r.value.Some? then 1 else 0
      ensures WokenSince(taken, old(Now()).h.woken, Now().h.woken, Now().h.ended)
      ensures match FirstPanic(Now().h.ended, taken) case Some(p) => r == Unwind(p) case None => r.Ret?
      ensures left == old(left) && r.Ret? ==> Moved(old(Now()), Now(), r.value)
      ensures Played(old(left), left, |taken|)
      ensures left <= old(left) && (r.Unwind? ==> left < old(left))
      ensures inFlight == old(inFlight) + if r.Unwind? then 1 else 0
      decreases left, 4
    {
      hide Core, Rel, Now, Receiving, OptSeq, NoDup, FirstPanic, WokenSince;
      ghost var s := Now();
      RelReflexive(s);
      lost, taken := 0, [];
      NoWakes(s);
      while true
        invariant After(s, Now()) && cells == {}
        invariant |Now().out| >= |s.out| + lost
        invariant Empty(s) ==> Now() == s
        invariant WokenSince(taken, s.h.woken, Now().h.woken, Now().h.ended)
        invariant FirstPanic(Now().h.ended, taken).None?
        invariant left <= old(left) && inFlight == old(inFlight) && Played(old(left), left, |taken|)
        invariant left == old(left) ==> Now() == s
        decreases left
      {
        ghost var s0 := Now();
        var next, waiting := TakeNext(s, c);
        if !waiting {
          return Ret(next), lost, taken;
        }
        ParkedFront(s, s0);
        var panic := WakeSenders();
        ghost var s1 := Now();
        LapEnds(s, s0, s1);
        LapWakes(s, s0, s1, taken);
        taken := taken + s0.sw;
        if panic.Some? {
          return Unwind(panic.value), lost, taken;
        }
        var reclaimed := Reclaim(c);
        if reclaimed.Some? {
          TookSlot(s, s1, c);
          return Ret(reclaimed), lost, taken;
        }
        lost := lost + 1;
      }
    }

    // ---- Receiving ------------------------------------------------------------------------------

    /** Removes a registration, then drops its waker, which is user code. */
    method RemoveRecvWaker(id: nat, mayPanic: bool) returns (panic: Option<nat>)
      requires Inv(Now().(rw := RemoveId(Now().rw, id))) && cells == {}
      modifies this
      ensures After(old(Now()).(rw := RemoveId(old(Now()).rw, id)), Now()) && cells == {}
      ensures panic.Some? ==> mayPanic
      ensures left == old(left) ==> Now() == old(Now()).(rw := RemoveId(old(Now()).rw, id))
      ensures Position(old(Now()).rw, id).Some? ==> Played(old(left), left, 1)
      ensures left <= old(left) && (panic.Some? ==> left < old(left))
      ensures inFlight == old(inFlight) + if panic.Some? then 1 else 0
      decreases left, 1
    {
      hide Core, Rel, Now, RemoveId;
      panic := None;
      var found := RemoveRecvEntry(id);
      NothingRan(Now());
      if found {
        panic := UserCode(mayPanic);
      }
    }

    /** Obligations only: an issued id is not used any more. */
    ghost method NoteUnissued(e: Entry)
      modifies this
      ensures Now() == DropIssued(old(Now()), e)
      ensures left == old(left) && cells == old(cells) && inFlight == old(inFlight)
    {
      hide Now;
      Note(Now().h, DropIssued(Now(), e).k);
    }

    /** The owner records its id, and nothing is stored. */
    method RecordOnly(e: Entry)
      modifies this
      ensures Now() == SkipRecv(old(Now()), e)
      ensures left == old(left) && cells == old(cells) && inFlight == old(inFlight)
    {
      hide Now;
      RecordId(e.waker, e.id);
      NoteUnissued(e);
    }

    /** The waker is stored, and the owner records its id. */
    method Store(e: Entry)
      requires RecvWakers !in cells
      modifies this
      ensures Now() == StoreRecv(old(Now()), e)
      ensures left == old(left) && cells == old(cells) && inFlight == old(inFlight)
    {
      hide Now;
      PushRecvWaker(e);
      RecordId(e.waker, e.id);
      NoteUnissued(e);
    }

    /** Registers the waker of `o` and records the id in its cell; cloning the waker is user code. */
    method AddRecvWaker(o: Owner) returns (r: Exit<nat>)
      requires Inv(Now()) && cells == {}
      requires o in Now().b.busy && !o.OfSend? && o in Now().w.ids && Now().w.ids[o].None? && o !in Now().h.terminated
      modifies this
      ensures Mid(o, old(Now()), Now()) && cells == {}
      ensures if r.Ret? then Now().w.ids[o] == Some(r.value) else Now().w.ids[o].None?
      ensures r.Ret? ==> WaitOf(Now().h.wait, o) == Polling && (Disconnected(Now()) || Entry(r.value, o) in Now().rw)
      ensures left == old(left) ==> Moved(old(Now()), Now(), None)
      ensures !Disconnected(old(Now())) ==> Played(old(left), left, 1)
      ensures left <= old(left) && (r.Unwind? ==> left < old(left))
      ensures inFlight == old(inFlight) + if r.Unwind? then 1 else 0
      decreases left, 2
    {
      hide Core, Rel, Now;
      ghost var s := Now();
      RegisterBegins(o, s);
      var id := IssueRecvId(o);
      var e := Entry(id, o);
      NothingRan(Now());
      RegisterEnds(o, s, Now());
      ReceivingAlive(Now());
      if IsTerminal() {
        RecordOnly(e);
        return Ret(id);
      }
      var panic := UserCode(true);
      ghost var u := Now();
      RegisterEnds(o, s, u);
      ReceivingAlive(u);
      if panic.Some? {
        NoteUnissued(e);
        return Unwind(panic.value);
      }
      if IsTerminal() {
        r := DropClone(o, id, s);
        return;
      }
      Store(e);
      return Ret(id);
    }

    /** The channel became terminal while the waker was cloned: the clone is dropped, and nothing is stored. */
    method DropClone(o: Owner, id: nat, ghost s: State) returns (r: Exit<nat>)
      requires Inv(s) && o in s.b.busy && !o.OfSend? && o in s.w.ids && s.w.ids[o].None? && o !in s.h.terminated
      requires id == s.nextR && After(IssueRecv(s, o), Now()) && Disconnected(Now()) && cells == {}
      modifies this
      ensures Mid(o, s, Now()) && cells == {}
      ensures if r.Ret? then Now().w.ids[o] == Some(r.value) else Now().w.ids[o].None?
      ensures r.Ret? ==> WaitOf(Now().h.wait, o) == Polling && Disconnected(Now())
      ensures left == old(left) ==> Moved(old(Now()), Now(), None)
      ensures Played(old(left), left, 1)
      ensures left <= old(left) && (r.Unwind? ==> left < old(left))
      ensures inFlight == old(inFlight) + if r.Unwind? then 1 else 0
      decreases left, 1
    {
      hide Core, Rel, Now;
      var e := Entry(id, o);
      ghost var u := Now();
      var panic := UserCode(true);
      ghost var v := Now();
      AfterTransitive(IssueRecv(s, o), u, v);
      RegisterEnds(o, s, v);
      DrainedStays(u.b.busy, u, v);
      if panic.None? {
        RecordOnly(e);
      } else {
        NoteUnissued(e);
      }
      return if panic.None? then Ret(id) else Unwind(panic.value);
    }

    /** Gives up the registration of `o`, if it has one. */
    method ForgetRecv(o: Owner) returns (panic: Option<nat>)
      requires Mid(o, Now(), Now()) && !o.OfSend? && cells == {}
      modifies this
      ensures Mid(o, old(Now()), Now()) && Now().w.ids[o].None? && cells == {}
      ensures old(Now()).w.ids[o].None? ==> panic.None? && Now() == old(Now())
      ensures left == old(left) ==> Now() == Forget(old(Now()), o) && Moved(old(Now()), Now(), None)
      ensures left <= old(left) && (panic.Some? ==> left < old(left))
      ensures inFlight == old(inFlight) + if panic.Some? then 1 else 0
      decreases left, 2
    {
      hide Core, Rel, Now, RemoveId;
      ghost var s := Now();
      panic := None;
      MidForget(o, s, s);
      var id := TakeId(o);
      if id.Some? {
        panic := RemoveRecvWaker(id.value, true);
        MidAfter(o, s, Forget(s, o), Now());
      } else {
        assert s.w.ids[o := None] == s.w.ids;
      }
    }

    /** `poll_recv`, for the future or stream `o`. */
    method PollOwner(o: Owner, ghost c: nat) returns (r: Exit<Poll<Option<Payload>>>)
      requires Mid(o, Now(), Now()) && !o.OfSend? && cells == {} && c in Now().k.taking
      requires o.OfRecv? ==> !Now().w.recvs[o.fut].done
      modifies this
      ensures Mid(o, if TookItem(r) then CloseCall(old(Now()), c) else old(Now()), Now()) && cells == {}
      ensures match r
              case Unwind(_) => true
              case Ret(Pending) =>
                && Empty(Now()) && !Disconnected(Now()) && Wakeable(Now(), o)
                && (WaitOf(Now().h.wait, o) == Polling || WaitOf(Now().h.wait, o) == Woken)
              case Ret(Ready(None)) => Drained(Now()) && Now().w.ids[o].None?
              case Ret(Ready(Some(item))) => TakenBy(Now().out, Now().h.takers, c, item)
      ensures Drained(old(Now())) && old(Now()).w.ids[o].None? ==> r == Ret(Ready(None))
      ensures left == old(left) ==> Moved(old(Now()), Now(), ItemOf(r))
      ensures r == Ret(Pending) ==> Played(old(left), left, 1)
      ensures left <= old(left) && (r.Unwind? ==> left < old(left))
      ensures inFlight == old(inFlight) + if r.Unwind? then 1 else 0
      decreases left, 6
    {
      hide Core, Rel, Now;
      ghost var s := Now();
      var panic := ForgetRecv(o);
      ghost var s1 := Now();
      if panic.Some? {
        return Unwind(panic.value);
      }
      var taken;
      ghost var lost, woken;
      taken, lost, woken := TryTake(c);
      ghost var s2 := Now();
      if taken.Ret? && taken.value.Some? {
        MidClosed(o, s, s1, c);
        MidAfter(o, CloseCall(s, c), CloseCall(s1, c), s2);
        return Ret(Ready(taken.value));
      }
      MidAfter(o, s, s1, s2);
      if taken.Unwind? {
        return Unwind(taken.panic);
      }
      if IsDisconnected() {
        return Ret(Ready(None));
      }
      MidSelf(o, s, s2);
      r := RegisterAndRecheck(o, c);
      if TookItem(r) {
        MidClosed(o, s, s2, c);
        MidMid(o, CloseCall(s, c), CloseCall(s2, c), Now());
      } else {
        MidMid(o, s, s2, Now());
      }
    }

    /** The second half of `poll_recv`: register on a channel found empty, and look again. */
    method RegisterAndRecheck(o: Owner, ghost c: nat) returns (r: Exit<Poll<Option<Payload>>>)
      requires Mid(o, Now(), Now()) && !o.OfSend? && cells == {} && c in Now().k.taking
      requires o.OfRecv? ==> !Now().w.recvs[o.fut].done
      requires !Disconnected(Now()) && Now().w.ids[o].None?
      modifies this
      ensures Mid(o, if TookItem(r) then CloseCall(old(Now()), c) else old(Now()), Now()) && cells == {}
      ensures match r
              case Unwind(_) => true
              case Ret(Pending) =>
                && Empty(Now()) && !Disconnected(Now()) && Wakeable(Now(), o)
                && (WaitOf(Now().h.wait, o) == Polling || WaitOf(Now().h.wait, o) == Woken)
              case Ret(Ready(None)) => Drained(Now()) && Now().w.ids[o].None?
              case Ret(Ready(Some(item))) => TakenBy(Now().out, Now().h.takers, c, item)
      ensures left == old(left) ==> Moved(old(Now()), Now(), ItemOf(r))
      ensures Played(old(left), left, 1)
      ensures left <= old(left) && (r.Unwind? ==> left < old(left))
      ensures inFlight == old(inFlight) + if r.Unwind? then 1 else 0
      decreases left, 5
    {
      hide Core, Rel, Now;
      ghost var s := Now();
      NotTerminated(s, o);
      var added := AddRecvWaker(o);
      ghost var s1 := Now();
      if added.Unwind? {
        return Unwind(added.panic);
      }
      var taken;
      ghost var lost, woken;
      taken, lost, woken := TryTake(c);
      ghost var s2 := Now();
      if taken.Ret? && taken.value.Some? {
        MidClosed(o, s, s1, c);
        MidAfter(o, CloseCall(s, c), CloseCall(s1, c), s2);
        return Ret(Ready(taken.value));
      }
      MidAfter(o, s, s1, s2);
      if taken.Unwind? {
        return Unwind(taken.panic);
      }
      if IsDisconnected() {
        MidSelf(o, s, s2);
        var panic := ForgetRecv(o);
        MidMid(o, s, s2, Now());
        DrainedStays(s.b.busy - {o}, s2, Now());
        if panic.Some? {
          return Unwind(panic.value);
        }
        return Ret(Ready(None));
      }
      StillWakeable(s2, o);
      return Ret(Pending);
    }

    /** `poll_recv` as one receive call, with a number of its own. */
    method PollTaking(o: Owner) returns (r: Exit<Poll<Option<Payload>>>)
      requires Mid(o, Now(), Now()) && !o.OfSend? && cells == {}
      requires o.OfRecv? ==> !Now().w.recvs[o.fut].done
      modifies this
      ensures Mid(o, old(Now()), Now()) && cells == {}
      ensures match r
              case Unwind(_) => true
              case Ret(Pending) =>
                && Empty(Now()) && !Disconnected(Now()) && Wakeable(Now(), o)
                && (WaitOf(Now().h.wait, o) == Polling || WaitOf(Now().h.wait, o) == Woken)
              case Ret(Ready(None)) => Drained(Now()) && Now().w.ids[o].None?
              case Ret(Ready(Some(item))) => TakenBy(Now().out, Now().h.takers, old(Now()).h.calls, item)
      ensures !TookItem(r) ==> Some(old(Now()).h.calls) !in Now().h.takers
      ensures Drained(old(Now())) && old(Now()).w.ids[o].None? ==> r == Ret(Ready(None))
      ensures left == old(left) ==> Moved(old(Now()), Now(), ItemOf(r))
      ensures r == Ret(Pending) ==> Played(old(left), left, 1)
      ensures left <= old(left) && (r.Unwind? ==> left < old(left))
      ensures inFlight == old(inFlight) + if r.Unwind? then 1 else 0
      decreases left, 7
    {
      hide Core, Rel, Now, Mid, TakenBy;
      ghost var s := Now();
      ghost var c := s.h.calls;
      MidOpens(o, s);
      MidFut(o, s, s);
      NoteCall();
      r := PollOwner(o, c);
      ghost var n := Now();
      MidCloses(o, s, n);
      if !TookItem(r) {
        NoteCallEnd(c);
      }
    }

    /** A poll of a completed receive: clear a stale registration, and wake so that it is noticed. */
    method PollDone(o: Owner) returns (r: Exit<Poll<Option<Payload>>>)
      requires Mid(o, Now(), Now()) && !o.OfSend? && cells == {}
      modifies this
      ensures Mid(o, old(Now()), Now()) && cells == {}
      ensures r.Unwind? || r == Ret(Pending)
      ensures if old(Now()).w.ids[o].None? then r == Ret(Pending) && Now() == old(Now())
              else
                r == Ret(Pending) ==>
                  Played(old(left), left, 1) && Now().w.ids[o].None? && WaitOf(Now().h.wait, o) == Woken
      ensures left == old(left) ==> Moved(old(Now()), Now(), None)
      ensures left <= old(left) && (r.Unwind? ==> left < old(left))
      ensures inFlight == old(inFlight) + if r.Unwind? then 1 else 0
      decreases left, 3
    {
      hide Core, Rel, Now;
      ghost var s := Now();
      var stale := HasId(o);
      var panic := ForgetRecv(o);
      ghost var s1 := Now();
      if panic.None? && stale {
        MidWoken(o, s, s1);
        Note(SetWait(s1, o, Woken).h, s1.k);
        ghost var s2 := Now();
        panic := UserCode(true);
        MidAfter(o, s, s2, Now());
      }
      return if panic.Some? then Unwind(panic.value) else Ret(Pending);
    }

    /** A poll of a receive returns Pending. */
    method EndPending(o: Owner, ghost s: State) returns (ghost v: Wait)
      requires Inv(s) && o in s.w.ids && o !in s.b.busy && !o.OfSend? && Mid(o, Begin(s, o), Now())
      requires Turn(o) in s.asks && Empty(Now()) && !Disconnected(Now()) && Wakeable(Now(), o)
      requires WaitOf(Now().h.wait, o) == Polling || WaitOf(Now().h.wait, o) == Woken
      modifies this
      ensures v in {Parked, Woken} && Now() == End(old(Now()), o, v) && After(s, Now()) && HadTurn(o, s, Now())
      ensures left == old(left) && cells == old(cells) && inFlight == old(inFlight)
    {
      hide Core, Rel, Now;
      v := if WaitOf(Now().h.wait, o) == Polling then Parked else Woken;
      StillWakeable(Now(), o);
      PollEnds(s, o, Now(), v);
      EndPoll(o, v);
    }

    /** A poll of a `Recv` returns Ready, with an item or with the news that there will be none. */
    method EndReady(f: nat, hangup: bool, ghost s: State)
      requires Inv(s) && OfRecv(f) in s.w.ids && OfRecv(f) !in s.b.busy && Mid(OfRecv(f), Begin(s, OfRecv(f)), Now())
      requires Turn(OfRecv(f)) in s.asks && f in Now().w.recvs && !Now().w.recvs[f].done && (hangup ==> Drained(Now()))
      modifies this
      ensures var t := Yield(old(Now()), f);
              Now() == End(if hangup then Report(t) else t, OfRecv(f), Idle)
      ensures After(s, Now()) && HadTurn(OfRecv(f), s, Now())
      ensures left == old(left) && cells == old(cells) && inFlight == old(inFlight)
    {
      hide Core, Rel, Now, HadTurn;
      YieldDuring(Begin(s, OfRecv(f)), f, Now());
      MarkDone(f);
      if hangup {
        Note(Report(Now()).h, Now().k);
      }
      PollEnds(s, OfRecv(f), Now(), Idle);
      EndPoll(OfRecv(f), Idle);
    }

    /** `Recv::poll` of a future that has completed. */
    method PollCompleted(f: nat) returns (r: Exit<Poll<Option<Payload>>>)
      requires Inv(Now()) && cells == {}
      requires f in Now().w.recvs && OfRecv(f) in Now().w.ids && OfRecv(f) !in Now().b.busy
      requires Turn(OfRecv(f)) in granted && Now().w.recvs[f].done
      modifies this
      ensures After(old(Now()), Now()) && cells == {}
      ensures f in Now().w.recvs && Now().w.recvs[f].done
      ensures ReadyOf(Now().h.ready, f) == ReadyOf(old(Now()).h.ready, f)
      ensures r.Unwind? || r == Ret(Pending)
      ensures r == Ret(Pending) ==>
                && OfRecv(f) in Now().w.ids && Now().w.ids[OfRecv(f)].None?
                && (old(Now()).w.ids[OfRecv(f)].Some? ==>
                      WaitOf(Now().h.wait, OfRecv(f)) == Woken && Played(old(left), left, 1))
      ensures left == old(left) ==> Moved(old(Now()), Now(), None)
      ensures left <= old(left) && (r.Unwind? ==> left < old(left))
      ensures inFlight == old(inFlight) + if r.Unwind? then 1 else 0
      decreases left, 7
    {
      hide Core, Rel, Now;
      var o := OfRecv(f);
      ghost var s := Now();
      GrantedAsks();
      PollBegins(s, o);
      BeginPoll(o);
      ghost var s0 := Now();
      r := PollDone(o);
      MidFut(o, s0, Now());
      ghost var v := if r == Ret(Pending) && s.w.ids[o].Some? then Woken else Idle;
      PollEnds(s, o, Now(), v);
      EndPoll(o, v);
    }

    /** `Recv::poll`. */
    method PollRecv(f: nat) returns (r: Exit<Poll<Option<Payload>>>)
      requires Inv(Now()) && cells == {}
      requires f in Now().w.recvs && OfRecv(f) in Now().w.ids && OfRecv(f) !in Now().b.busy
      requires Turn(OfRecv(f)) in granted
      modifies this
      ensures After(old(Now()), Now()) && cells == {}
      ensures f in Now().w.recvs
      ensures old(Now()).w.recvs[f].done ==> r.Unwind? || r == Ret(Pending)
      ensures old(Now()).w.recvs[f].done && r == Ret(Pending) ==>
                && OfRecv(f) in Now().w.ids && Now().w.ids[OfRecv(f)].None?
                && (old(Now()).w.ids[OfRecv(f)].Some? ==> WaitOf(Now().h.wait, OfRecv(f)) == Woken)
      ensures !old(Now()).w.recvs[f].done ==> HadTurn(OfRecv(f), old(Now()), Now())
      ensures r.Ret? && r.value.Ready? ==> ReadyOf(old(Now()).h.ready, f) == 0 && ReadyOf(Now().h.ready, f) == 1
      ensures r.Ret? && r.value.Ready? ==> Now().w.recvs[f].done
      ensures !(r.Ret? && r.value.Ready?) ==>
                && Now().w.recvs[f].done == old(Now()).w.recvs[f].done
                && ReadyOf(Now().h.ready, f) == ReadyOf(old(Now()).h.ready, f)
      ensures r == Ret(Pending) && !old(Now()).w.recvs[f].done ==>
                && Empty(Now()) && !Disconnected(Now()) && Wakeable(Now(), OfRecv(f))
                && WaitOf(Now().h.wait, OfRecv(f)) in {Parked, Woken}
      ensures r == Ret(Ready(None)) ==> Drained(Now()) && Now().h.disconnected
      ensures TookItem(r) ==> TakenBy(Now().out, Now().h.takers, old(Now()).h.calls, r.value.value.value)
      ensures !TookItem(r) && !old(Now()).w.recvs[f].done ==> Some(old(Now()).h.calls) !in Now().h.takers
      ensures left == old(left) ==> Moved(old(Now()), Now(), ItemOf(r))
      ensures r == Ret(Pending) && !old(Now()).w.recvs[f].done ==> Played(old(left), left, 1)
      ensures left <= old(left) && (r.Unwind? ==> left < old(left))
      ensures inFlight == old(inFlight) + if r.Unwind? then 1 else 0
      decreases left, 8
    {
      hide Core, Rel, Now;
      if RecvDone(f) {
        r := PollCompleted(f);
        return;
      }
      var o := OfRecv(f);
      ghost var s := Now();
      GrantedAsks();
      PollBegins(s, o);
      BeginPoll(o);
      ghost var s0 := Now();
      r := PollTaking(o);
      MidFut(o, s0, Now());
      ghost var s1 := Now();
      if r.Unwind? {
        PollEnds(s, o, s1, Idle);
        EndPoll(o, Idle);
      } else if r.value.Pending? {
        ghost var v := EndPending(o, s);
      } else {
        ReadyBounded(s, f);
        EndReady(f, r.value.value.None?, s);
        ReadyBounded(Now(), f);
      }
    }

    /** `poll_next` of a receiver used as a stream. */
    method PollNext(rx: nat) returns (r: Exit<Poll<Option<Payload>>>)
      requires Inv(Now()) && cells == {}
      requires OfStream(rx) in Now().w.ids && OfStream(rx) !in Now().b.busy && Turn(OfStream(rx)) in granted
      modifies this
      ensures After(old(Now()), Now()) && cells == {}
      ensures r == Ret(Pending) ==>
                && Empty(Now()) && !Disconnected(Now()) && Wakeable(Now(), OfStream(rx))
                && WaitOf(Now().h.wait, OfStream(rx)) in {Parked, Woken}
      ensures HadTurn(OfStream(rx), old(Now()), Now())
      ensures r == Ret(Ready(None)) ==> Terminated(Now().w, Drained(Now()), OfStream(rx)) && Now().h.disconnected
      ensures TookItem(r) ==> TakenBy(Now().out, Now().h.takers, old(Now()).h.calls, r.value.value.value)
      ensures !TookItem(r) ==> Some(old(Now()).h.calls) !in Now().h.takers
      ensures Terminated(old(Now()).w, Drained(old(Now())), OfStream(rx)) ==> r == Ret(Ready(None))
      ensures left == old(left) ==> Moved(old(Now()), Now(), ItemOf(r))
      ensures r == Ret(Pending) ==> Played(old(left), left, 1)
      ensures left <= old(left) && (r.Unwind? ==> left < old(left))
      ensures inFlight == old(inFlight) + if r.Unwind? then 1 else 0
      decreases left, 8
    {
      hide Core, Rel, Now;
      var o := OfStream(rx);
      ghost var s := Now();
      GrantedAsks();
      PollBegins(s, o);
      BeginPoll(o);
      ghost var s0 := Now();
      r := PollTaking(o);
      ghost var s1 := Now();
      if r.Ret? && r.value.Pending? {
        ghost var v := EndPending(o, s);
      } else {
        if r == Ret(Ready(None)) {
          ReportDuring(o, s0, s1);
          Note(Report(s1).h, s1.k);
        }
        PollEnds(s, o, Now(), Idle);
        EndPoll(o, Idle);
      }
    }

    /** `Receiver::try_recv`. */
    method TryRecv(rx: nat) returns (r: Exit<RecvResult>, ghost woken: seq<Entry>)
      requires Inv(Now()) && cells == {} && rx in Now().w.rxs
      modifies this
      ensures After(old(Now()), Now()) && cells == {}
      ensures match r
              case Unwind(_) => true
              case Ret(NoItem) => Empty(Now()) && !Disconnected(Now())
              case Ret(Hangup) => Drained(Now()) && Now().h.disconnected
              case Ret(Item(item)) => TakenBy(Now().out, Now().h.takers, old(Now()).h.calls, item)
      ensures r.Unwind? || !r.value.Item? ==> Some(old(Now()).h.calls) !in Now().h.takers
      ensures old(Now()).h.disconnected ==> r == Ret(Hangup)
      ensures old(Now()).h.calls < Now().h.calls
      ensures WokenSince(woken, old(Now()).h.woken, Now().h.woken, Now().h.ended)
      ensures match FirstPanic(Now().h.ended, woken) case Some(p) => r == Unwind(p) case None => r.Ret?
      ensures left == old(left) ==>
                Moved(old(Now()), Now(), if r.Ret? && r.value.Item? then Some(r.value.item) else None)
      ensures Played(old(left), left, |woken|)
      ensures left <= old(left) && (r.Unwind? ==> left < old(left))
      ensures inFlight == old(inFlight) + if r.Unwind? then 1 else 0
      decreases left, 6
    {
      hide Core, Rel, Now, FirstPanic, TakenBy, WokenSince;
      ghost var s := Now();
      ReportedDrained(s);
      var kept := Borrowed();
      var b := kept.(rx := kept.rx + multiset{rx});
      PinBegins(s, b);
      Borrow(b);
      ghost var s0 := Now();
      assert rx in s0.b.rx;
      ghost var c := s0.h.calls;
      CallOpens(s0);
      NoteCall();
      var taken;
      ghost var lost;
      taken, lost, woken := TryTake(c);
      CallCloses(s0, Now());
      if !(taken.Ret? && taken.value.Some?) {
        NoteCallEnd(c);
      }
      ghost var s1 := Now();
      if taken.Unwind? {
        r := Unwind(taken.panic);
      } else if taken.value.Some? {
        r := Ret(Item(taken.value.value));
      } else if IsDisconnected() {
        ReportAfter(s0, s1);
        Note(Report(s1).h, s1.k);
        r := Ret(Hangup);
      } else {
        r := Ret(NoItem);
      }
      PinEnds(s, b, Now());
      Borrow(kept);
    }

    // ---- Sending and closing --------------------------------------------------------------------

    /** `Sender::try_send`. */
    method TrySend(tx: nat, item: Payload) returns (r: Exit<TrySendResult>)
      requires Inv(Now()) && cells == {} && tx in Now().w.txs
      modifies this
      ensures After(old(Now()), Now()) && cells == {}
      ensures var s := old(Now());
              if ClosedToSends(s) then r == Ret(IsClosed(item)) && Now() == s
              else if Full(s) then r == Ret(IsFull(item)) && Now() == s
              else
                && s.accepted + [item] <= Now().accepted
                && (left == old(left) ==> Moved(s.(accepted := s.accepted + [item]), Now(), None))
                && Played(old(left), left, |s.rw|)
                && (forall e <- s.rw :: e in Now().h.woken && e in Now().h.ended)
                && match FirstPanic(Now().h.ended, s.rw) case Some(p) => r == Unwind(p) case None => r == Ret(Accepted)
      ensures left <= old(left) && (r.Unwind? ==> left < old(left))
      ensures inFlight == old(inFlight) + if r.Unwind? then 1 else 0
      decreases left, 6
    {
      hide Core, Rel, Now, FirstPanic;
      ghost var s := Now();
      NothingRan(s);
      if IsClosedToSends() {
        return Ret(IsClosed(item));
      }
      var kept := Borrowed();
      var b := kept.(tx := kept.tx + multiset{tx});
      PinBegins(s, b);
      Borrow(b);
      ghost var s0 := Now();
      NothingRan(s0);
      var ok := TryPush(item);
      if ok {
        SendersAlive(s0);
        PushBegins(s0, item);
        var panic := WakeReceivers();
        StepThenRan(s0, TakeRecvs(Push(s0, item)), s0.k, Now());
        AcceptedStays(s.b.busy, TakeRecvs(Push(s0, item)), Now());
        r := if panic.Some? then Unwind(panic.value) else Ret(Accepted);
      } else {
        r := Ret(IsFull(item));
      }
      PinEnds(s, b, Now());
      Borrow(kept);
    }

    /**
    `Chan::close`: marks the channel, then wakes both halves, whatever the first wakes do; `taken`
    are the wakers of both halves, in the order in which they are woken.
     */
    method CloseChan() returns (panic: Option<nat>, ghost taken: seq<Entry>)
      requires Inv(Now()) && cells == {} && Shut in granted
      modifies this
      ensures After(old(Now()), Now()) && cells == {}
      ensures Now().closed
      ensures old(Now()).closed ==> Now() == old(Now()) && panic.None?
      ensures !old(Now()).closed ==>
                && old(Now()).rw <= taken && Played(old(left), left, |taken|)
                && (forall e <- old(Now()).sw :: e in Now().h.woken || Abandoned(Now(), e))
                && (forall e <- taken :: e in Now().h.woken && e in Now().h.ended)
                && panic == FirstPanic(Now().h.ended, taken)
      ensures left == old(left) ==> Moved(old(Now()).(closed := true), Now(), None)
      ensures left <= old(left) && (panic.Some? ==> left < old(left))
      ensures inFlight == old(inFlight) + if panic.Some? then 1 else 0
      decreases left, 4
    {
      hide Core, Rel, Now, Abandoned, FirstPanic, Extends;
      ghost var s := Now();
      NothingRan(s);
      if IsMarkedClosed() {
        return None, [];
      }
      GrantedAsks();
      CloseBegins(s);
      SetClosed();
      var first := WakeReceivers();
      Caught(first);
      ghost var s1 := Now();
      StepThenRan(s, TakeRecvs(Close(s)), Close(s).k, s1);
      SendersTraced(s, s1);
      CloseMiddle(s1);
      Note(s1.h, s1.k.(due := false));
      var second := WakeSenders();
      Caught(second);
      ghost var s2 := Now();
      StepThenRan(s1, TakeSends(PayDue(s1)), s.k, s2);
      RelTransitive(s.b.busy, s, s1, s2);
      WokenStays(s.b.busy, s1, s2);
      AbandonedStays(s.b.busy, s1, s2);
      AcceptedStays(s.b.busy, TakeRecvs(Close(s)), s1);
      AcceptedStays(s.b.busy, s1, s2);
      WakesOver(s.rw, s1.h, s2.h);
      FirstPanicConcat(s2.h.ended, s.rw, s1.sw);
      taken := s.rw + s1.sw;
      panic := if first.Some? then first else second;
      Resumed(panic);
    }

    /** `Sender::close` (for a sender) and `Receiver::close` (for a receiver). */
    method CloseBy(handle: nat, bySender: bool) returns (r: Exit<bool>, ghost taken: seq<Entry>)
      requires Inv(Now()) && cells == {} && Shut in granted
      requires if bySender then handle in Now().w.txs else handle in Now().w.rxs
      modifies this
      ensures After(old(Now()), Now()) && cells == {}
      ensures var s := old(Now());
              var seenClosed := if bySender then ClosedToSends(s) else Disconnected(s);
              if seenClosed then r == Ret(false) && Now() == s
              else
                && !s.closed && Now().closed && s.h.closes == 0 && Now().h.closes == 1
                && s.rw <= taken && Played(old(left), left, |taken|)
                && (forall e <- s.sw :: e in Now().h.woken || Abandoned(Now(), e))
                && (forall e <- taken :: e in Now().h.woken && e in Now().h.ended)
                && match FirstPanic(Now().h.ended, taken) case Some(p) => r == Unwind(p) case None => r == Ret(true)
      ensures left == old(left) && old(Now()) != Now() ==> Moved(old(Now()).(closed := true), Now(), None)
      ensures left <= old(left) && (r.Unwind? ==> left < old(left))
      ensures inFlight == old(inFlight) + if r.Unwind? then 1 else 0
      decreases left, 6
    {
      hide Core, Rel, Now, FirstPanic;
      ghost var s := Now();
      NothingRan(s);
      ReportedDrained(s);
      if if bySender then IsClosedToSends() else IsDisconnected() {
        return Ret(false), [];
      }
      var kept := Borrowed();
      var b := if bySender then kept.(tx := kept.tx + multiset{handle}) else kept.(rx := kept.rx + multiset{handle});
      PinBegins(s, b);
      Borrow(b);
      var panic;
      panic, taken := CloseChan();
      ReportedDrained(Now());
      PinEnds(s, b, Now());
      Borrow(kept);
      r := if panic.Some? then Unwind(panic.value) else Ret(true);
    }

    // ---- The Send future ------------------------------------------------------------------------

    method RemoveSendWaker(id: nat, mayPanic: bool) returns (panic: Option<nat>)
      requires Inv(Now().(sw := RemoveId(Now().sw, id))) && cells == {}
      modifies this
      ensures After(old(Now()).(sw := RemoveId(old(Now()).sw, id)), Now()) && cells == {}
      ensures panic.Some? ==> mayPanic
      ensures left == old(left) ==> Now() == old(Now()).(sw := RemoveId(old(Now()).sw, id))
      ensures Position(old(Now()).sw, id).Some? ==> Played(old(left), left, 1)
      ensures left <= old(left) && (panic.Some? ==> left < old(left))
      ensures inFlight == old(inFlight) + if panic.Some? then 1 else 0
      decreases left, 1
    {
      hide Core, Rel, Now, RemoveId;
      panic := None;
      var found := RemoveSendEntry(id);
      NothingRan(Now());
      if found {
        panic := UserCode(mayPanic);
      }
    }

    method ForgetSend(o: Owner) returns (panic: Option<nat>)
      requires Mid(o, Now(), Now()) && o.OfSend? && cells == {}
      modifies this
      ensures Mid(o, old(Now()), Now()) && Now().w.ids[o].None? && cells == {}
      ensures WaitOf(Now().h.wait, o) == WaitOf(old(Now()).h.wait, o)
      ensures left == old(left) ==> Now() == Forget(old(Now()), o) && Moved(old(Now()), Now(), None)
      ensures left <= old(left) && (panic.Some? ==> left < old(left))
      ensures inFlight == old(inFlight) + if panic.Some? then 1 else 0
      decreases left, 2
    {
      hide Core, Rel, Now, RemoveId;
      ghost var s := Now();
      panic := None;
      MidForget(o, s, s);
      var id := TakeId(o);
      if id.Some? {
        panic := RemoveSendWaker(id.value, true);
        MidAfter(o, s, Forget(s, o), Now());
      } else {
        assert s.w.ids[o := None] == s.w.ids;
      }
    }

    /** Wakes the receivers; a guard then removes the send's registration, even while unwinding. */
    method Announce(o: Owner, id: Option<nat>) returns (panic: Option<nat>)
      requires Inv(TakeRecvs(Now())) && cells == {} && Takeable(Now().rw, Now().k.pend) && o.OfSend?
      requires id.Some? ==> Entry(id.value, o) in Now().k.guards
      modifies this
      ensures var c := TakeRecvs(old(Now())); Inv(Now()) && Now().b == c.b && Rel(c.b.busy, c, Now())
      ensures Now().k ==
              if id.None? then old(Now()).k
              else old(Now()).k.(guards := old(Now()).k.guards - {Entry(id.value, o)})
      ensures forall e <- old(Now()).rw :: e in Now().h.woken
      ensures Played(old(left), left, |old(Now()).rw|)
      ensures left == old(left) ==> Moved(old(Now()), Now(), None)
      ensures cells == {} && left <= old(left) && (panic.Some? ==> left < old(left))
      ensures inFlight == old(inFlight) + if panic.Some? then 1 else 0
      decreases left, 4
    {
      hide Core, Rel, Now, RemoveId, Takeable;
      ghost var c := TakeRecvs(Now());
      panic := WakeReceivers();
      ghost var u := Now();
      if id.Some? {
        ghost var e := Entry(id.value, o);
        CommitCleans(c, u, e);
        Note(u.h, u.k.(guards := u.k.guards - {e}));
        var second := RemoveSendWaker(id.value, panic.None?);
        panic := if panic.Some? then panic else second;
        RelTransitive(c.b.busy, c, DropGuard(u, e), Now());
        WokenStays(c.b.busy, DropGuard(u, e), Now());
      }
    }

    /** The first step of `commit`: the outcome is recorded, and the registration leaves its cell. */
    method Decide(f: nat, result: SendResult) returns (id: Option<nat>)
      requires f in Now().w.sends && f in Now().h.sent && Now().w.sends[f].item.None? && OfSend(f) in Now().w.ids
      requires result.Sent? ==> Now().accepted != []
      modifies this
      ensures id == old(Now()).w.ids[OfSend(f)]
      ensures var t := Settle(old(Now()), f, result, if result.Sent? then Some(|old(Now()).accepted| - 1) else None);
              Now() == if result.Sent? then ToGuard(t, OfSend(f)) else SetId(t, OfSend(f), None)
      ensures left == old(left) && cells == old(cells) && inFlight == old(inFlight)
    {
      hide Now;
      var o := OfSend(f);
      ghost var s := Now();
      RecordOutcome(f, result);
      id := TakeId(o);
      if result.Sent? {
        if id.Some? {
          Note(Now().h, Now().k.(guards := Now().k.guards + {Entry(id.value, o)}));
        } else {
          assert s.w.ids[o := None] == s.w.ids;
        }
      }
    }

    /** `Send::commit`: the outcome is recorded before any user code runs, and survives a panic. */
    method Commit(f: nat, result: SendResult) returns (r: Exit<SendResult>)
      requires Committing(Now(), f, result) && Now().w.sends[f].item.None? && cells == {}
      modifies this
      ensures Inv(Now()) && Now().b == old(Now()).b && Now().k == old(Now()).k && cells == {}
      ensures Rel(old(Now()).b.busy - {OfSend(f)}, Committed(old(Now()), f, result), Now())
      ensures f in Now().w.sends && Now().w.sends[f].done
      ensures match r
              case Ret(x) => x == result && Now().w.sends[f].outcome.None? && Answered(Now(), f, x)
              case Unwind(_) => Now().w.sends[f].outcome == Some(result)
      ensures result.Sent? ==>
                (forall e <- old(Now()).rw :: e in Now().h.woken) && Played(old(left), left, |old(Now()).rw|)
      ensures f in Now().h.sent && Now().h.sent[f].outcome == Some(result)
      ensures Now().h.sent[f].at == if result.Sent? then Some(|old(Now()).accepted| - 1) else None
      ensures old(Now()).accepted <= Now().accepted
      ensures left == old(left) ==> Moved(old(Now()), Now(), None)
      ensures left <= old(left) && (r.Unwind? ==> left < old(left))
      ensures inFlight == old(inFlight) + if r.Unwind? then 1 else 0
      decreases left, 6
    {
      hide Core, Rel, Now, Committing, Committed;
      ghost var s := Now();
      CommittedFacts(s, f, result);
      ghost var c := Committed(s, f, result);
      var id := Decide(f, result);
      var panic := Conclude(f, result, id, s);
      r := Deliver(f, c, panic);
      AcceptedStays(c.b.busy - {OfSend(f)}, c, Now());
    }

    /** Wakes the receivers, if the item was sent, and gives up the registration. */
    method Conclude(f: nat, result: SendResult, id: Option<nat>, ghost s: State) returns (panic: Option<nat>)
      requires Committing(s, f, result) && cells == {} && id == s.w.ids[OfSend(f)]
      requires var t := Settle(s, f, result, if result.Sent? then Some(|s.accepted| - 1) else None);
               Now() == if result.Sent? then ToGuard(t, OfSend(f)) else SetId(t, OfSend(f), None)
      modifies this
      ensures var c := Committed(s, f, result); Inv(Now()) && Now().b == c.b && Rel(c.b.busy, c, Now())
      ensures Now().k == s.k && cells == {}
      ensures result.Sent? ==> (forall e <- s.rw :: e in Now().h.woken) && Played(old(left), left, |s.rw|)
      ensures left == old(left) ==> Moved(old(Now()), Now(), None)
      ensures left <= old(left) && (panic.Some? ==> left < old(left))
      ensures inFlight == old(inFlight) + if panic.Some? then 1 else 0
      decreases left, 5
    {
      hide Core, Rel, Now, RemoveId, Takeable;
      var o := OfSend(f);
      NothingRan(Committed(s, f, result));
      panic := None;
      if result.Sent? {
        panic := Announce(o, id);
        assert Now().k.guards == s.k.guards;
      } else if id.Some? {
        panic := RemoveSendWaker(id.value, true);
      } else {
        assert s.w.ids[o := None] == s.w.ids;
      }
    }

    /** Returns the recorded outcome, or leaves it in the future for the next poll if user code panicked. */
    method Deliver(f: nat, ghost c: State, panic: Option<nat>) returns (r: Exit<SendResult>)
      requires Inv(Now()) && Now().b == c.b && Rel(c.b.busy, c, Now()) && OfSend(f) in c.b.busy && cells == {}
      requires f in c.w.sends && c.w.sends[f].outcome.Some? && c.w.sends[f].done
      modifies this
      ensures Inv(Now()) && Now().b == c.b && Now().k == old(Now()).k && cells == {}
      ensures left == old(left) && inFlight == old(inFlight)
      ensures forall e <- old(Now()).h.woken :: e in Now().h.woken
      ensures Rel(c.b.busy - {OfSend(f)}, c, Now()) && Moved(old(Now()), Now(), None)
      ensures f in Now().w.sends && Now().w.sends[f].done
      ensures f in Now().h.sent && f in c.h.sent
      ensures Now().h.sent[f].outcome == c.h.sent[f].outcome && Now().h.sent[f].at == c.h.sent[f].at
      ensures match panic
              case None =>
                var x := c.w.sends[f].outcome.value;
                r == Ret(x) && Now().w.sends[f].outcome.None? && Answered(Now(), f, x)
              case Some(p) => r == Unwind(p) && Now().w.sends[f].outcome == c.w.sends[f].outcome
    {
      hide Core, Rel, Now;
      CommitAnswers(f, c, Now());
      MessagePresent(Now(), f);
      if panic.Some? {
        return Unwind(panic.value);
      }
      var x := TakeOutcome(f);
      return Ret(x);
    }

    /** Moves the message into the queue if there is room, and back into the future if there is not. */
    method TryPushMessage(f: nat) returns (ok: bool)
      requires f in Now().w.sends && Now().w.sends[f].item.Some? && cells == {}
      modifies this
      ensures var s := old(Now());
              && ok == !Full(s)
              && Now() == if ok then WithItem(Push(s, s.w.sends[f].item.value), f, None) else s
      ensures left == old(left) && cells == {} && inFlight == old(inFlight)
    {
      hide Now;
      ghost var s := Now();
      var item := TakeMessage(f);
      ok := TryPush(item);
      if !ok {
        RestoreMessage(f, item);
        assert Now().w.sends == s.w.sends;
      }
    }

    /** Settles the send whose message has been pushed, or that found the channel closed. */
    method Settled(f: nat, ghost a: State, ghost s: State, result: SendResult)
      returns (r: Exit<Poll<SendResult>>)
      requires During(OfSend(f), a, s) && f in s.h.sent
      requires Committing(Now(), f, result) && Now().w.sends[f].item.None? && cells == {}
      requires Changed(OfSend(f), s, Committed(Now(), f, result)) && Now().b == s.b && Now().k == s.k
      requires Committed(Now(), f, result).b == s.b
      modifies this
      ensures During(OfSend(f), a, Now()) && cells == {}
      ensures f in Now().w.sends && Now().w.sends[f].done
      ensures match r
              case Ret(Ready(x)) => x == result && Now().w.sends[f].outcome.None? && Answered(Now(), f, x)
              case Ret(Pending) => false
              case Unwind(_) => Now().w.sends[f].outcome == Some(result)
      ensures result.Sent? ==>
                (forall e <- old(Now()).rw :: e in Now().h.woken) && Played(old(left), left, |old(Now()).rw|)
      ensures f in Now().h.sent && Now().h.sent[f].outcome == Some(result)
      ensures Now().h.sent[f].at == if result.Sent? then Some(|old(Now()).accepted| - 1) else None
      ensures old(Now()).accepted <= Now().accepted
      ensures left == old(left) ==> Moved(old(Now()), Now(), None)
      ensures left <= old(left) && (r.Unwind? ==> left < old(left))
      ensures inFlight == old(inFlight) + if r.Unwind? then 1 else 0
      decreases left, 7
    {
      hide Core, Rel, Now, Committed, Takeable;
      ghost var c := Committed(Now(), f, result);
      var x := Commit(f, result);
      CommitDuring(f, a, s, c, Now());
      r := if x.Ret? then Ret(Ready(x.value)) else Unwind(x.panic);
    }

    /** `Send::poll` from the closure check on, for a send that is not done. */
    method PollUndecided(f: nat) returns (r: Exit<Poll<SendResult>>)
      requires Mid(OfSend(f), Now(), Now()) && Undecided(Now(), f) && cells == {}
      requires WaitOf(Now().h.wait, OfSend(f)) == Idle
      modifies this
      ensures During(OfSend(f), old(Now()), Now()) && cells == {}
      ensures f in Now().w.sends
      ensures match r
              case Ret(Ready(x)) => Now().w.sends[f].done && Now().w.sends[f].outcome.None? && Answered(Now(), f, x)
              case Ret(Pending) =>
                && OfSend(f) in Now().w.ids && Now().w.ids[OfSend(f)].Some? && !Now().w.sends[f].done
                && Entry(Now().w.ids[OfSend(f)].value, OfSend(f)) in Now().sw && Stuck(Now()) && !Now().closed
              case Unwind(_) => !Now().w.sends[f].done || Now().w.sends[f].outcome.Some?
      ensures f in Now().h.sent
      ensures Verdict(f, old(Now()), Now(), left == old(left), r == Ret(Pending))
      ensures WillWake(old(Now())) ==> Played(old(left), left, |old(Now()).rw|)
      ensures left == old(left) ==> Now().out == old(Now()).out
      ensures r == Ret(Pending) ==> Played(old(left), left, 1)
      ensures left <= old(left) && (r.Unwind? ==> left < old(left))
      ensures inFlight == old(inFlight) + if r.Unwind? then 1 else 0
      decreases left, 9
    {
      hide Core, Rel, Now, Committing, Committed, Verdict;
      var o := OfSend(f);
      ghost var s := Now();
      if IsClosedToSends() {
        CommitFailedBegins(s, f);
        CommittingWithout(s, f, Failed(s.h.sent[f].orig));
        CommittedBorrows(s, f, Failed(s.h.sent[f].orig));
        var item := TakeMessage(f);
        r := Settled(f, s, s, Failed(item));
        FailedVerdict(f, s, Now(), left == old(left));
        return;
      }
      var ok := TryPushMessage(f);
      if ok {
        CommitSentBegins(s, f);
        CommittingWithout(Push(s, s.h.sent[f].orig), f, Sent);
        CommittedBorrows(Push(s, s.h.sent[f].orig), f, Sent);
        r := Settled(f, s, s, Sent);
        SentVerdict(f, s, Now(), left == old(left));
        return;
      }
      var panic := ForgetSend(o);
      ghost var s1 := Now();
      if panic.Some? {
        MidFut(o, s, s1);
        FullVerdict(f, s, s1, left == old(left), false);
        return Unwind(panic.value);
      }
      panic := UserCode(true);
      ghost var s2 := Now();
      MidAfter(o, s, s1, s2);
      MidFut(o, s, s2);
      if panic.Some? {
        FullVerdict(f, s, s2, left == old(left), false);
        return Unwind(panic.value);
      }
      r := RegisterSend(f, s);
      if left == old(left) {
        VerdictAccepted(f, s2, Now(), true, r == Ret(Pending));
      }
      FullVerdict(f, s, Now(), left == old(left), r == Ret(Pending));
    }

    /** The waker has been cloned: register it, and look again at closure and capacity. */
    method RegisterSend(f: nat, ghost a: State) returns (r: Exit<Poll<SendResult>>)
      requires Mid(OfSend(f), a, Now()) && !Now().w.sends[f].done && Now().w.ids[OfSend(f)].None? && cells == {}
      requires WaitOf(Now().h.wait, OfSend(f)) == Idle
      modifies this
      ensures During(OfSend(f), a, Now()) && cells == {}
      ensures f in Now().w.sends
      ensures match r
              case Ret(Ready(x)) => Now().w.sends[f].done && Now().w.sends[f].outcome.None? && Answered(Now(), f, x)
              case Ret(Pending) =>
                && OfSend(f) in Now().w.ids && Now().w.ids[OfSend(f)].Some? && !Now().w.sends[f].done
                && Entry(Now().w.ids[OfSend(f)].value, OfSend(f)) in Now().sw && Stuck(Now()) && !Now().closed
              case Unwind(_) => Now().w.sends[f].outcome.Some?
      ensures f in Now().h.sent && Verdict(f, old(Now()), Now(), left == old(left), r == Ret(Pending))
      ensures !ClosedToSends(old(Now())) && Full(old(Now())) ==> r == Ret(Pending) && left == old(left)
      ensures left == old(left) ==> Now().out == old(Now()).out
      ensures left <= old(left) && (r.Unwind? ==> left < old(left))
      ensures inFlight == old(inFlight) + if r.Unwind? then 1 else 0
      decreases left, 8
    {
      hide Core, Rel, Now, Committing, Committed, Verdict;
      var o := OfSend(f);
      ghost var s := Now();
      MidUndecided(f, a, s);
      var id := PushSendWaker(o);
      RecordId(o, id);
      ghost var t := Now();
      assert t == AddSend(s, o);
      if IsClosedToSends() {
        CommitFailedAfterAdd(s, f);
        CommittingWithout(t, f, Failed(s.h.sent[f].orig));
        CommittedBorrows(t, f, Failed(s.h.sent[f].orig));
        var item := TakeMessage(f);
        r := Settled(f, a, s, Failed(item));
        FailedVerdict(f, s, Now(), left == old(left));
        return;
      }
      AddSendMid(o, a, s);
      MidUndecided(f, a, t);
      var ok := TryPushMessage(f);
      if ok {
        CommitSentBegins(t, f);
        CommittingWithout(Push(t, t.h.sent[f].orig), f, Sent);
        CommittedBorrows(Push(t, t.h.sent[f].orig), f, Sent);
        r := Settled(f, a, t, Sent);
        SentVerdict(f, s, Now(), left == old(left));
        return;
      }
      FullVerdict(f, s, Now(), left == old(left), true);
      return Ret(Pending);
    }

    /** `Send::poll` of a send that is decided: its result is returned, or has been. */
    method PollDecided(f: nat) returns (r: Exit<Poll<SendResult>>)
      requires Inv(Now()) && cells == {}
      requires f in Now().w.sends && OfSend(f) in Now().w.ids && OfSend(f) !in Now().b.busy
      requires Turn(OfSend(f)) in granted && Now().w.sends[f].done
      modifies this
      ensures After(old(Now()), Now()) && cells == {}
      ensures f in Now().w.sends && f in Now().h.sent && f in old(Now()).h.sent && Now().w.sends[f].done
      ensures match old(Now()).w.sends[f].outcome
              case Some(x) =>
                && r == Ret(Ready(x)) && Now().w.sends[f].outcome.None?
                && old(Now()).h.sent[f].answers == [] && Answered(Now(), f, x)
              case None =>
                && r == Ret(Pending) && Now().w.sends[f] == old(Now()).w.sends[f]
                && Now().h.sent[f] == old(Now()).h.sent[f]
      ensures left == old(left) && inFlight == old(inFlight) && Moved(old(Now()), Now(), None)
    {
      hide Core, Rel, Now;
      var o := OfSend(f);
      ghost var s := Now();
      GrantedAsks();
      PollBegins(s, o);
      BeginPoll(o);
      ghost var s0 := Now();
      MessagePresent(s0, f);
      var fut := SendState(f);
      if fut.outcome.Some? {
        AnswerDuring(f, s0, s0);
        var x := TakeOutcome(f);
        r := Ret(Ready(x));
      } else {
        r := Ret(Pending);
      }
      PollEnds(s, o, Now(), Idle);
      EndPoll(o, Idle);
    }

    /** `Send::poll`. */
    method PollSend(f: nat) returns (r: Exit<Poll<SendResult>>)
      requires Inv(Now()) && cells == {}
      requires f in Now().w.sends && OfSend(f) in Now().w.ids && OfSend(f) !in Now().b.busy
      requires Turn(OfSend(f)) in granted
      modifies this
      ensures After(old(Now()), Now()) && cells == {}
      ensures f in Now().w.sends
      ensures old(Now()).w.sends[f].outcome.Some? ==> r == Ret(Ready(old(Now()).w.sends[f].outcome.value))
      ensures old(Now()).w.sends[f].done && old(Now()).w.sends[f].outcome.None? ==> r == Ret(Pending)
      ensures old(Now()).w.sends[f].done ==> left == old(left) && Moved(old(Now()), Now(), None)
      ensures !old(Now()).w.sends[f].done ==> HadTurn(OfSend(f), old(Now()), Now())
      ensures f in Now().h.sent
      ensures !old(Now()).w.sends[f].done ==> Verdict(f, old(Now()), Now(), left == old(left), r == Ret(Pending))
      ensures !old(Now()).w.sends[f].done && WillWake(old(Now())) ==> Played(old(left), left, |old(Now()).rw|)
      ensures !(r.Ret? && r.value.Ready?) ==>
                f in old(Now()).h.sent && Now().h.sent[f].answers == old(Now()).h.sent[f].answers
      ensures left == old(left) ==> Now().out == old(Now()).out
      ensures r.Ret? && r.value.Ready? ==> f in old(Now()).h.sent && old(Now()).h.sent[f].answers == []
      ensures match r
              case Ret(Ready(x)) => Now().w.sends[f].done && Now().w.sends[f].outcome.None? && Answered(Now(), f, x)
              case Ret(Pending) =>
                if old(Now()).w.sends[f].done then Now().w.sends[f] == old(Now()).w.sends[f]
                else
                  && !Now().w.sends[f].done && Stuck(Now()) && !Now().closed
                  && WaitOf(Now().h.wait, OfSend(f)) == Parked && Wakeable(Now(), OfSend(f))
              case Unwind(_) => !Now().w.sends[f].done || Now().w.sends[f].outcome.Some?
      ensures r == Ret(Pending) && !old(Now()).w.sends[f].done ==> Played(old(left), left, 1)
      ensures left <= old(left) && (r.Unwind? ==> left < old(left))
      ensures inFlight == old(inFlight) + if r.Unwind? then 1 else 0
      decreases left, 10
    {
      hide Core, Rel, Now;
      var o := OfSend(f);
      ghost var s := Now();
      MessagePresent(s, f);
      var fut := SendState(f);
      if fut.done {
        r := PollDecided(f);
        return;
      }
      GrantedAsks();
      PollBegins(s, o);
      BeginPoll(o);
      MessagePresent(Now(), f);
      r := PollUndecided(f);
      ghost var v := if r == Ret(Pending) then Parked else Idle;
      PollEnds(s, o, Now(), v);
      EndPoll(o, v);
      MessagePresent(Now(), f);
    }

    // ---- Dropping handles and futures -----------------------------------------------------------

    /** `Drop` of a `Recv`, of a `Send`, or of a receiver that is not the last one. */
    method Discard(o: Owner) returns (panic: Option<nat>)
      requires Inv(Now()) && cells == {} && o in Now().w.ids && o !in Now().b.busy && Turn(o) in granted
      requires o.OfStream? ==>
                 && o.rx in Now().w.rxs && Now().receivers > 1 && o.rx !in Now().b.rx
                 && forall f <- Now().w.recvs :: Now().w.recvs[f].rx != o.rx
      modifies this
      ensures Ran(old(Now()), Retired(old(Now()), o).k, Now()) && cells == {} && o !in Now().w.ids
      ensures !o.OfSend? ==> After(old(Now()), Now())
      ensures left == old(left) ==> Moved(Retired(old(Now()), o), Now(), None)
      ensures o.OfStream? ==> o.rx !in Now().w.rxs
      ensures left <= old(left) && (panic.Some? ==> left < old(left))
      ensures inFlight == old(inFlight) + if panic.Some? then 1 else 0
      decreases left, 5
    {
      hide Core, Rel, Now, RemoveId;
      ghost var s := Now();
      GrantedAsks();
      RetireKeeps(s, o);
      ghost var t := Retired(s, o);
      panic := None;
      var id := Remove(o);
      ForgetThenBury(s, o);
      if id.None? {
        NothingRan(t);
      } else if o.OfSend? {
        panic := RemoveSendWaker(id.value, true);
      } else {
        panic := RemoveRecvWaker(id.value, true);
      }
      StepThenRan(s, t, t.k, Now());
      OwnerNamed(s, o);
      RetiredIsGone(s, o);
      StaysDropped(s.b.busy, t, Now(), o);
      OwnersExist(Now());
    }

    /**
    `Drop` of a `Send`: its registration, then the message or the error it still holds. From then
    on the log of the send says what became of its item, and no more is added to it.
     */
    method DropSend(f: nat) returns (panic: Option<nat>)
      requires Inv(Now()) && cells == {} && f in Now().w.sends && OfSend(f) in Now().w.ids && OfSend(f) !in Now().b.busy
      requires Turn(OfSend(f)) in granted
      modifies this
      ensures After(old(Now()), Now()) && cells == {} && OfSend(f) !in Now().w.ids
      ensures f in Now().h.sent && FateOk(Now().h.sent[f])
      ensures Now().h.sent[f].dropped == HasItem(old(Now()).w.sends[f])
      ensures left == old(left) ==> Moved(old(Now()), Now(), None)
      ensures HasItem(old(Now()).w.sends[f]) ==> Played(old(left), left, 1)
      ensures left <= old(left) && (panic.Some? ==> left < old(left))
      ensures inFlight == old(inFlight) + if panic.Some? then 1 else 0
      decreases left, 6
    {
      hide Core, Rel, Now, FateOk, Retired;
      ghost var s := Now();
      var fut := SendState(f);
      RetiredItem(s, f);
      RetiredMoved(s, f);
      panic := Discard(OfSend(f));
      ghost var t := Now();
      if HasItem(fut) {
        DropHeldKeeps(t, f);
        NoteItemDropped(f);
        var second := UserCode(panic.None?);
        ItemDropped(s, t, f, Now());
        panic := if panic.Some? then panic else second;
      }
      SendFate(s, Now(), f);
    }

    /** `Sender::drop`. */
    method DropSender(tx: nat) returns (panic: Option<nat>)
      requires Inv(Now()) && cells == {} && tx in Now().w.txs && tx !in Now().b.tx && Leave(tx) in granted
      requires forall f <- Now().w.sends :: Now().w.sends[f].tx != tx
      modifies this
      ensures After(old(Now()), Now()) && cells == {}
      ensures if old(Now()).senders == 1 then
                && Now().senders == 0 && Played(old(left), left, |old(Now()).rw|)
                && (forall e <- old(Now()).rw :: e in Now().h.woken && e in Now().h.ended)
                && panic == FirstPanic(Now().h.ended, old(Now()).rw)
              else
                && panic.None? && Now().senders == old(Now()).senders - 1 && Now().senders > 0
                && Now().w == old(Now()).w.(txs := old(Now()).w.txs - {tx})
                && Now() == old(Now()).(senders := Now().senders, w := Now().w, asks := Now().asks)
      ensures tx !in Now().w.txs
      ensures left == old(left) ==> Moved(old(Now()).(w := old(Now()).w.(txs := old(Now()).w.txs - {tx})), Now(), None)
      ensures left <= old(left) && (panic.Some? ==> left < old(left))
      ensures inFlight == old(inFlight) + if panic.Some? then 1 else 0
      decreases left, 6
    {
      hide Core, Rel, Now;
      ghost var s := Now();
      SendersAlive(s);
      GrantedAsks();
      DropTxKeeps(s, tx);
      CoreTakeable(s);
      var before := DecrSenders(tx);
      ghost var t := Now();
      SenderNamed(s, tx);
      panic := None;
      if before == 1 {
        panic := WakeReceivers();
        StepThenRan(s, TakeRecvs(t), s.k, Now());
        SendersGone(s.b.busy, TakeRecvs(t), Now());
        SenderStaysGone(s.b.busy, TakeRecvs(t), Now(), tx);
      }
    }

    /**
    `Chan::drain` of a channel without receivers. When a payload's `Drop` panics, the guard drains
    the rest while the panic unwinds; a second panic would abort the process.
     */
    method Drain(mayPanic: bool) returns (panic: Option<nat>)
      requires Inv(Now()) && cells == {} && Now().receivers == 0
      modifies this
      ensures Drains(old(Now()), Now()) && cells == {}
      ensures Empty(Now()) && Now().out == old(Now()).out + OptSeq(old(Now()).slot) + old(Now()).q
      ensures panic.Some? ==> mayPanic
      ensures Played(old(left), left, |Now().out| - |old(Now()).out|)
      ensures left <= old(left) && (panic.Some? ==> left < old(left))
      ensures inFlight == old(inFlight) + if panic.Some? then 1 else 0
      decreases left, 2, mayPanic
    {
      hide Core, Now, Passed;
      ghost var s := Now();
      NothingDrained(s);
      panic := None;
      var parked := TakeRedelivery();
      if parked.Some? {
        HandOut(parked.value, None);
        panic := DropItem(mayPanic, s, s);
      } else {
        assert Now() == s;
      }
      while panic.None?
        invariant Drains(s, Now()) && cells == {} && Now().slot.None?
        invariant panic.Some? ==> mayPanic
        invariant inFlight == old(inFlight) + if panic.Some? then 1 else 0
        invariant |Now().out| >= |s.out| && Played(old(left), left, |Now().out| - |s.out|)
        invariant left <= old(left) && (panic.Some? ==> left < old(left))
        decreases panic.None?, |Now().q|
      {
        ghost var t := Now();
        var item := Pop();
        if item.None? {
          break;
        }
        HandOut(item.value, None);
        panic := DropItem(mayPanic, s, t);
      }
      if panic.Some? {
        ghost var t := Now();
        var second := Drain(false);
        DrainsDrains(s, t, Now());
      }
    }

    /** The `Drop` of an item just taken out of the channel, which is user code. */
    method DropItem(mayPanic: bool, ghost a: State, ghost b: State) returns (panic: Option<nat>)
      requires Drains(a, b) && cells == {}
      requires if b.slot.Some? then Now() == TakeSlot(b, None) else b.q != [] && Now() == PopOut(b, None)
      modifies this
      ensures Drains(a, Now()) && cells == {} && Now().slot.None?
      ensures Now().q == old(Now()).q && Now().out == old(Now()).out
      ensures panic.Some? ==> mayPanic
      ensures Played(old(left), left, 1)
      ensures left <= old(left) && (panic.Some? ==> left < old(left))
      ensures inFlight == old(inFlight) + if panic.Some? then 1 else 0
      decreases left, 1
    {
      hide Core, Passed, Now;
      DrainsItem(a, b);
      ghost var t := Now();
      panic := UserCode(mayPanic);
      DrainsAfter(a, t, Now());
    }

    /** The clean-up guard of the last receiver: drain, then remove the stream registration it holds. */
    method Cleanup(rx: nat, streamId: Option<nat>, mayPanic: bool) returns (panic: Option<nat>)
      requires Inv(Now()) && cells == {} && Now().receivers == 0
      requires streamId.Some? ==> Entry(streamId.value, OfStream(rx)) in Now().k.guards
      modifies this
      ensures Inv(Now()) && Passed(old(Now()), Now()) && Now().b == old(Now()).b && cells == {}
      ensures Now().receivers == 0 && Empty(Now()) && Now().accepted == old(Now()).accepted
      ensures Now().k ==
              if streamId.None? then old(Now()).k
              else old(Now()).k.(guards := old(Now()).k.guards - {Entry(streamId.value, OfStream(rx))})
      ensures panic.Some? ==> mayPanic
      ensures left <= old(left) && (panic.Some? ==> left < old(left))
      ensures inFlight == old(inFlight) + if panic.Some? then 1 else 0
      decreases left, 5
    {
      hide Core, Rel, Now, RemoveId, Passed;
      ghost var u := Now();
      panic := Drain(mayPanic);
      ghost var v := Now();
      if streamId.Some? {
        ghost var e := Entry(streamId.value, OfStream(rx));
        DrainedGuard(u, v, e);
        Note(v.h, v.k.(guards := v.k.guards - {e}));
        var second := RemoveRecvWaker(streamId.value, mayPanic && panic.None?);
        panic := if panic.Some? then panic else second;
        GuardDropped(u, v, e, Now());
      }
    }

    /** The last receiver disappears; a clean-up guard holds the id of its stream registration. */
    method RetireLast(rx: nat) returns (id: Option<nat>)
      requires OfStream(rx) in Now().w.ids && OfStream(rx) !in Now().b.busy && Turn(OfStream(rx)) in granted
      modifies this
      ensures id == old(Now()).w.ids[OfStream(rx)] && Now() == LastRetired(old(Now()), rx)
      ensures left == old(left) && cells == old(cells) && inFlight == old(inFlight)
    {
      hide Now;
      var o := OfStream(rx);
      ghost var s := Now();
      id := Remove(o);
      if id.Some? {
        Note(Now().h, Now().k.(guards := Now().k.guards + {Entry(id.value, o)}));
      }
      Note(Now().h, Now().k.(cleaning := true));
      GuardThenBury(s, rx);
    }

    /** The second half of the last receiver's drop, after the senders have been woken. */
    method FinishLast(rx: nat, id: Option<nat>, first: Option<nat>, ghost s: State, ghost t: State)
      returns (panic: Option<nat>)
      requires Inv(s) && s.receivers > 0 && !s.k.cleaning && Inv(Now()) && cells == {} && Now().b == s.b
      requires Rel(s.b.busy, s, t) && t.b == s.b && t.receivers == 0 && Rel(s.b.busy, t, Now())
      requires var e := if id.Some? then {Entry(id.value, OfStream(rx))} else {};
               e !! s.k.guards && Now().k == s.k.(guards := s.k.guards + e, cleaning := true)
      modifies this
      ensures After(s, Now()) && cells == {}
      ensures Now().receivers == 0 && Empty(Now()) && Now().rw == [] && OfStream(rx) !in Now().w.ids
      ensures Now().out == Now().accepted == t.accepted
      ensures old(Now()).h.woken <= Now().h.woken && Extends(old(Now()).h.ended, Now().h.ended)
      ensures first.Some? ==> panic == first
      ensures left <= old(left) && (panic.Some? ==> first.Some? || left < old(left))
      ensures inFlight == old(inFlight) + if panic.Some? && first.None? then 1 else 0
      decreases left, 6
    {
      hide Core, Rel, Now, RemoveId, Passed, Extends;
      ghost var u := Now();
      StillGone(s.b.busy, t, u);
      var second := Cleanup(rx, id, first.None?);
      panic := if first.Some? then first else second;
      assert Now().k.guards == s.k.guards;
      ghost var v := Now();
      LastDropEnds(s, t, u, v);
      Note(v.h, EndCleaning(v).k);
      NoReceiverLeft(Now());
      EmptyIsOut(Now());
    }

    /** `Receiver::drop` of the last receiver: wake the senders, then clean up, even while unwinding. */
    method DropLastReceiver(rx: nat) returns (panic: Option<nat>)
      requires Inv(Now()) && cells == {}
      requires OfStream(rx) in Now().w.ids && OfStream(rx) !in Now().b.busy && Turn(OfStream(rx)) in granted
      requires rx in Now().w.rxs && Now().receivers == 1 && rx !in Now().b.rx
      requires forall f <- Now().w.recvs :: Now().w.recvs[f].rx != rx
      modifies this
      ensures After(old(Now()), Now()) && cells == {}
      ensures Now().receivers == 0 && Empty(Now()) && Now().rw == [] && OfStream(rx) !in Now().w.ids
      ensures Now().out == Now().accepted == old(Now()).accepted
      ensures forall e <- old(Now()).sw :: e in Now().h.woken && e in Now().h.ended
      ensures FirstPanic(Now().h.ended, old(Now()).sw).Some? ==> panic == FirstPanic(Now().h.ended, old(Now()).sw)
      ensures Played(old(left), left, |old(Now()).sw|)
      ensures left <= old(left) && (panic.Some? ==> left < old(left))
      ensures inFlight == old(inFlight) + if panic.Some? then 1 else 0
      decreases left, 7
    {
      hide Core, Rel, Now, RemoveId, Passed, FirstPanic, Takeable, Extends, LastRetired;
      ghost var s := Now();
      GrantedAsks();
      LastRetireKeeps(s, rx);
      LastRetiredIs(s, rx);
      var id := RetireLast(rx);
      ghost var t := TakeSends(Now());
      var first := WakeSenders();
      ghost var u := Now();
      panic := FinishLast(rx, id, first, s, t);
      WakesOver(s.sw, u.h, Now().h);
    }

    // ---- New handles and futures, and queries ---------------------------------------------------

    method CloneSender(tx: nat)
      requires Inv(Now()) && cells == {} && tx in Now().w.txs
      modifies this
      ensures After(old(Now()), Now()) && cells == {} && left == old(left) && inFlight == old(inFlight)
      ensures var n := old(Now()).w.nextName;
              && n !in old(Now()).w.txs && Now().senders == old(Now()).senders + 1
              && Now().w == old(Now()).w.(txs := old(Now()).w.txs + {n}, nextName := n + 1)
              && Now() == old(Now()).(senders := Now().senders, w := Now().w)
    {
      hide Core, Rel, Now;
      SendersAlive(Now());
      CloneTxKeeps(Now());
      NewNames(Now());
      AddSender();
    }

    method CloneReceiver(rx: nat)
      requires Inv(Now()) && cells == {} && rx in Now().w.rxs
      modifies this
      ensures After(old(Now()), Now()) && cells == {} && left == old(left) && inFlight == old(inFlight)
      ensures var n := old(Now()).w.nextName;
              && n !in old(Now()).w.rxs && Now().receivers == old(Now()).receivers + 1
              && OfStream(n) in Now().w.ids && Now().w.ids[OfStream(n)].None?
              && Now().w == old(Now()).w.(rxs := old(Now()).w.rxs + {n}, ids := Now().w.ids, nextName := n + 1)
              && Now() == old(Now()).(receivers := Now().receivers, w := Now().w)
    {
      hide Core, Rel, Now;
      SendersAlive(Now());
      CloneRxKeeps(Now());
      NewNames(Now());
      AddReceiver();
    }

    /** `Sender::send`. */
    method StartSend(tx: nat, item: Payload)
      requires Inv(Now()) && cells == {} && tx in Now().w.txs
      modifies this
      ensures After(old(Now()), Now()) && cells == {} && left == old(left) && inFlight == old(inFlight)
      ensures var n := old(Now()).w.nextName;
              && n !in old(Now()).w.sends && n in Now().h.sent
              && Now().w.sends == old(Now()).w.sends[n := SendFut(tx, Some(item), false, None)]
              && Now().h.sent[n].orig == item && Now().h.sent[n].answers == []
              && OfSend(n) in Now().w.ids && Now().w.ids[OfSend(n)].None?
              && Now().w == old(Now()).w.(sends := Now().w.sends, ids := Now().w.ids, nextName := n + 1)
              && Now() == old(Now()).(w := Now().w, h := Now().h)
    {
      hide Core, Rel, Now;
      NewSendKeeps(Now(), tx, item);
      NewNames(Now());
      AddSendFuture(tx, item);
    }

    /** `Receiver::recv`. */
    method StartRecv(rx: nat)
      requires Inv(Now()) && cells == {} && rx in Now().w.rxs
      modifies this
      ensures After(old(Now()), Now()) && cells == {} && left == old(left) && inFlight == old(inFlight)
      ensures var n := old(Now()).w.nextName;
              && n !in old(Now()).w.recvs
              && Now().w.recvs == old(Now()).w.recvs[n := RecvFut(rx, false)]
              && OfRecv(n) in Now().w.ids && Now().w.ids[OfRecv(n)].None?
              && Now().w == old(Now()).w.(recvs := Now().w.recvs, ids := Now().w.ids, nextName := n + 1)
              && Now() == old(Now()).(w := Now().w)
    {
      hide Core, Rel, Now;
      NewRecvKeeps(Now(), rx);
      NewNames(Now());
      AddRecvFuture(rx);
    }

    /** `is_terminated` of a future or stream; once it holds, it holds forever. */
    method IsTerminated(o: Owner) returns (r: bool)
      requires Inv(Now()) && cells == {} && o in Now().w.ids && o !in Now().b.busy
      modifies this
      ensures After(old(Now()), Now()) && cells == {} && left == old(left) && inFlight == old(inFlight)
      ensures Now() == if r then Observe(old(Now()), o) else old(Now())
      ensures r == Terminated(old(Now()).w, Drained(old(Now())), o)
      ensures r == (o in Now().h.terminated)
      ensures o in old(Now()).h.terminated ==> r
    {
      hide Core, Rel, Now;
      ghost var s := Now();
      NothingRan(s);
      TerminatedStays(s, o);
      r := Reports(o);
      if r {
        ObserveKeeps(s, o);
        Note(Observe(s, o).h, s.k);
      }
    }

    predicate Reports(o: Owner)
      reads this
      ensures Reports(o) == Terminated(Now().w, Drained(Now()), o)
    {
      Terminated(world, (senders == 0 || closed) && redelivery.None? && flavor == [], o)
    }

    /** `len`: exactly the items accepted and not yet handed out; at most one more than the capacity. */
    function Len(): (n: nat)
      reads this
      ensures Inv(Now()) ==> n == |accepted| - |out|
      ensures Inv(Now()) && cap.Some? ==> n <= cap.value + 1
    {
      |flavor| + if redelivery.Some? then 1 else 0
    }

    /** `is_empty`: everything accepted has been handed out. */
    predicate IsEmpty()
      reads this
      ensures Inv(Now()) ==> (IsEmpty() <==> accepted == out)
    {
      redelivery.None? && flavor == []
    }

    // ---- Whole runs -----------------------------------------------------------------------------

    /** A new channel, bounded or not, with one sender (named 0) and one receiver (named 1). */
    constructor (cap: Option<nat>, script: seq<Choice>)
      requires cap != Some(0)
      ensures Now() == Initial(cap, AsksOf(script)) && Now().asks == AsksOf(script) && Inv(Now()) && cells == {}
      ensures this.script == script && left == |script|
    {
      hide Core, Asks, AsksOf;
      this.cap := cap;
      flavor, redelivery, senders, receivers, closed := [], None, 1, 1, false;
      recvWakers, nextRecvId, sendWakers, nextSendId := [], 0, [], 0;
      world := Initial(cap, multiset{}).w;
      borrows := Initial(cap, multiset{}).b;
      this.script, left := script, |script|;
      accepted, out, cells, inFlight, granted := [], [], {}, 0, multiset{};
      history, stack := Initial(cap, multiset{}).h, Initial(cap, multiset{}).k;
      new;
      assert script[0..] == script;
      AsksAre();
      InitialOk(cap, AsksOf(script));
    }
  }

  /** Each state is further in the script than the one before, and what it may ask for is in the rest. */
  ghost predicate Marked(script: seq<Choice>, seen: seq<State>, at: seq<nat>) {
    && |at| == |seen|
    && (forall i, j | 0 <= i < j < |at| :: at[i] < at[j])
    && (forall i | 0 <= i < |at| :: at[i] <= |script| && seen[i].asks == AsksOf(script[at[i]..]))
  }

  lemma MarkedFirst(script: seq<Choice>, s: State)
    requires s.asks == AsksOf(script)
    ensures Marked(script, [s], [0])
  {
    assert script[0..] == script;
  }

  lemma MarkedNext(script: seq<Choice>, seen: seq<State>, at: seq<nat>, s: State, n: nat)
    requires Marked(script, seen, at) && n <= |script| && s.asks == AsksOf(script[n..])
    requires at != [] ==> at[|at| - 1] < n
    ensures Marked(script, seen + [s], at + [n])
  {
    hide AsksOf;
    var seen', at' := seen + [s], at + [n];
    forall i | 0 <= i < |at'| ensures at'[i] <= |script| && seen'[i].asks == AsksOf(script[at'[i]..]) {
      if i < |at| {
        assert at'[i] == at[i] && seen'[i] == seen[i];
      }
    }
  }

  /**
  A whole run: a new channel, and a program that makes the calls of `script` one after the other,
  with every waker and payload playing from the same script whenever it gets control. `seen` are
  the states between two calls of the program, when no channel call is in progress, and `at` says
  how far in the script each of them is.
   */
  method Run(cap: Option<nat>, script: seq<Choice>) returns (chan: Chan, ghost seen: seq<State>, ghost at: seq<nat>)
    requires cap != Some(0)
    ensures fresh(chan) && chan.left == 0
    ensures IsRun(cap, seen) && seen[|seen| - 1] == chan.Now() && Marked(script, seen, at)
  {
    hide Core, Rel, AsksOf, IsRun, Initial, Marked, Chan.Now;
    chan := new Chan(cap, script);
    seen, at := [chan.Now()], [0];
    RunBegins(cap, AsksOf(script));
    MarkedFirst(script, chan.Now());
    while chan.left > 0
      invariant fresh(chan) && chan.cells == {} && chan.script == script && chan.left <= |script|
      invariant IsRun(cap, seen) && seen != [] && seen[|seen| - 1] == chan.Now()
      invariant Marked(script, seen, at) && |at| > 0 && at[|at| - 1] == |script| - chan.left
      decreases chan.left
    {
      RunAlive(cap, seen);
      chan.NextTurn();
      RunGoesOn(cap, seen, chan.Now());
      MarkedNext(script, seen, at, chan.Now(), |script| - chan.left);
      seen, at := seen + [chan.Now()], at + [|script| - chan.left];
    }
  }
}
