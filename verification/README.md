# Verification of the lochan channels

`lochan` is a library of single-threaded (`!Send`) channels for async Rust: a multi-consumer
channel (`mpmc`), a single-consumer channel (`mpsc`) and a one-shot channel, over two queues. Nothing
runs in parallel, yet these are concurrent protocols: wakers (`clone`, `wake`, `drop`) and payloads
(`Drop`) are user code, they run in the middle of most operations, they may call back into the
channel at any depth, and they may panic. This project models the channels with that user code as an
adversary and proves that no behaviour of it can lose, duplicate or reorder an item, strand a parked
future, leave a registration behind, or find a cell of the channel borrowed.

## How user code is modelled

Each channel is a class with the cells of the source as fields. Wherever the source hands control to
user code, the class calls `UserCode`, which plays the next choices of a `script`: call any operation
that the borrow rules allow on any handle or future, return, or panic. A call that is asked for and
allowed does happen: `Performed` names the mark it leaves, whatever the callbacks inside it do.
Scripts are arbitrary finite sequences, so each contract is a statement about every finite behaviour
of every waker and payload.
`UserCode` requires the invariant `Inv` and that no cell is borrowed, so both hold at every such
moment, however deep the nesting; after it, an operation may rely on no more than `After`: the
invariant, histories that have only grown, closure and drops that are final, and the owners borrowed
by calls in progress left as they were, except that they may have been woken. Panics are accounted
for (`inFlight`): every call unwinds exactly when it leaves one more panic of user code uncaught, so none
is swallowed, none is made up, and no call leaves two. Ghost history records the items
accepted and handed out, the wakers woken and how each wake ended, the results each send returned,
and where each future stands with its executor. Each receive call has a number, and each item that
goes out is marked with the call that took it; each dropped send is marked when its item is dropped.

Where a future stands with its executor is not a free flag. It counts as woken only if the waker of
the registration it holds is among those woken; it changes only when it is woken or gets a turn, that is,
is polled or dropped; every turn, every drop of a sender and every close is paid for by a choice of the
script that asks for it (`asks`), and a future without a turn is left as it is. In all three channels
every wake and every drop of an item gives user code at least one choice of the script to play, if any
is left (`Played`), the polls (and, in `mpsc`, the parked sends) whose wakers were woken are recorded,
and contracts say what a call changes when user code has nothing to do.

- `Common` has the types shared by all models.
- `MpmcState` has the state of an `mpmc` channel with all handles and futures, `Inv` and `Rel`;
  `MpmcSteps`, `MpmcRecvSteps`, `MpmcSendSteps` and `MpmcHandleSteps` have the steps between two
  user-code points, each with a lemma (`...Keeps`) that it keeps the invariant; `MpmcCalls` combines
  steps and user code into whole calls; `MpmcChan` has the class; `MpmcTheorems` has what follows for
  every state and every run.
- `Ring`, `BlockList` and `Flavor` have the two queues, proved to refine a sequence.
- `OneshotState` and `Oneshot` have the one-shot channel; `MpscState` and `Mpsc` the receive side of
  the single-consumer channel, for runs without panics.

Assumptions, all of them facts of the language or of the documentation: a future that is being polled
cannot be used re-entrantly, a `Recv` keeps its receiver alive and a `Send` its sender, handles are
not leaked with `mem::forget`, and fewer than 2^64 registrations are made, so ids are unbounded
numbers here. The `std` variants are modelled. Where a panic during clean-up would be a second one
and abort the process, the model lets user code only return (`mayPanic` is false): the states of an
aborted run up to the abort are states of a run in which it returns.

One claim is not true of the code for all inputs, and is proved with its exact condition: the index
that `Ring::push` computes is right for every state of a ring if and only if the capacity is at most
2^63 (`Ring.PushIsExactIff`; beyond that `head + len` overflows, and `Ring.Ring.Push` says what
happens then, and `Ring.ReachOverflow` that it can). Such a ring can be built only for zero-sized items.

## Model

| member | source | states |
|---|---|---|
| `MpmcTheorems.NoLostReceive` | src/mpmc/channel.rs:187-232 | no lost wake: between calls, a receive that is parked (its last poll returned Pending, and it has been neither woken nor polled since) is registered under its own id, everything accepted has gone out, and the channel is connected |
| `MpmcTheorems.NoLostSend` | src/mpmc/send.rs:86-136 | the same for a send: it is registered, the queue is full, the channel is open and has a receiver |
| `MpmcTheorems.ReceiveWaitsUntilWoken` | src/mpmc/channel.rs:187-232 | over a run, a receive that was parked, and that user code has not asked to poll or drop since, still holds its registration; its waker has been woken, or it is registered on an empty and connected channel |
| `MpmcTheorems.SendWaitsUntilWoken` | src/mpmc/send.rs:86-136 | the same for a send: its waker has been woken, or it is registered on a full and open channel |
| `MpmcTheorems.LeftAlone` | src/mpmc/chan.rs:209-220 | an owner that user code does not ask to poll or drop stays alive and keeps its registration, and its place with the executor changes only by a wake |
| `MpmcTheorems.NoLostWakeNested` | src/mpmc/chan.rs:226-298 | at every user-code point, a parked owner that could progress has its waker in the hands of a call that is going to wake it |
| `MpmcTheorems.EveryItemHasItsPlace` | src/mpmc/chan.rs:302-373 | conservation: the i-th accepted item is handed out, in the slot or in the queue, at the index that FIFO order gives it, and nowhere else |
| `MpmcTheorems.ContentsBounded` | src/mpmc/chan.rs:73-78 | the backing queue stays within the capacity and the contents within one more, at every user-code point |
| `MpmcTheorems.DeliveredOnce` | src/mpmc/chan.rs:323-373 | at every user-code point, an item that went out was taken by one receive call, which took no other, or was dropped with no receiver left |
| `MpmcTheorems.DeliveriesStand` | src/mpmc/chan.rs:323-348 | over a run, which call took which item is never revised |
| `MpmcTheorems.RegistrationsOwned` | src/mpmc/chan.rs:188-265 | every registration belongs to one live owner of the right kind that holds its id; ids are distinct and no owner has two |
| `MpmcTheorems.NoRegistrationLeft` | src/mpmc/recv.rs:69-87 | a dropped or terminated future or receiver has no registration |
| `MpmcTheorems.RemovalIsOwn` | src/mpmc/chan.rs:212-220 | removing an owner's id, stale or not, removes no other entry |
| `MpmcTheorems.NoWakerVanishes` | src/mpmc/chan.rs:226-298 | over a run, a registered waker stays registered until it is woken or given up by its owner |
| `MpmcTheorems.SendHasOneHolder` | src/mpmc/send.rs:45-79 | the item of a send, live or already dropped, is in exactly one of the future, the channel, a pending error, the caller's hands, a drop in progress and the dropped items; the answer given, if any, says which |
| `MpmcTheorems.TerminatedIffAnswered` | src/mpmc/send.rs:141-147 | `is_terminated` of a send holds exactly when its answer has been given |
| `MpmcTheorems.TerminatedIffReady` | src/mpmc/recv.rs:68-76 | `is_terminated` of a receive holds exactly when it has returned Ready and holds no registration |
| `MpmcTheorems.AnsweredAtMostOnce` | src/mpmc/send.rs:86-147 | between any two states of a run, a decided send stays decided the same way, its item keeps its place, no answer is taken back, and there is never a second one (`MpmcChan.Chan.PollSend` returns Ready only by adding the first) |
| `MpmcTheorems.SendsShareNoPlace` | src/mpmc/send.rs:105-110 | no two sends are answered for by the same item in the channel |
| `MpmcTheorems.FailedMeansClosed` | src/mpmc/send.rs:101-128 | at every user-code point, a send has failed only on a channel that is closed or has no receiver (`ClosureIsAbsorbing` says that it stays so) |
| `MpmcTheorems.TerminalKeepsNoWaker` | src/mpmc/chan.rs:191-206 | at every user-code point a disconnected channel keeps no receive waker, and one without receivers, or whose close has reached the senders, no send waker |
| `MpmcTheorems.RunOrdered` | src/mpmc/chan.rs:54-66 | any two states of a run are related by what user code may do |
| `MpmcTheorems.RunIsFifo` | src/mpmc/chan.rs:323-348 | over a run, items join what was accepted at the end and leave it at the front |
| `MpmcTheorems.ClosureIsAbsorbing` | src/mpmc/channel.rs:35-46 | once closed, or without receivers or senders, nothing is ever enqueued again; at most one close takes effect in a run |
| `MpmcTheorems.DisconnectIsForever` | src/mpmc/channel.rs:157-163 | once any receive, future or stream has reported disconnection the channel stays disconnected and empty |
| `MpmcTheorems.NothingOutlivesReceivers` | src/mpmc/channel.rs:286-347 | once the last receiver is gone, queue, slot and both waker lists are empty forever, and every accepted item has been handed out or dropped |
| `MpmcTheorems.TerminationIsForever` | src/mpmc/channel.rs:375-379 | what has once reported termination does so for as long as it lives, holds no registration and waits for nothing |
| `MpmcTheorems.DroppedForGood` | src/mpmc/send.rs:150-159 | what has been dropped never comes back and leaves no registration |
| `MpmcTheorems.SendersAndClosure` | src/mpmc/channel.rs:114-132 | over a run, a sender is there until user code asks to drop it, one that is gone never comes back, the count is that of the senders there, and the channel closes only if user code asks for it |
| `MpmcTheorems.FuturesLeftAlone` | src/mpmc/recv.rs:40-65 | over a run, a future that user code does not ask to poll or drop is as it was and has returned nothing more |
| `MpmcTheorems.ReadyAtMostOnce` | src/mpmc/recv.rs:40-65 | between any two states of a run the number of Ready results of a `Recv` does not fall and is at most one; it is done exactly when that is one, and stays done |
| `MpmcChan.Run` | src/mpmc/chan.rs:54-66 | every script yields a run: its states between calls satisfy the invariant with no call in progress, each follows from the one before, and what each may still ask for is what is left of the script |
| `MpmcChan.Chan.constructor` | src/mpmc/chan.rs:54-66 | a new channel satisfies the invariant |
| `MpmcChan.Chan.UserCode` | src/cell.rs:4-8 | user code runs only under the invariant and with no cell borrowed, and keeps both, whatever it calls; it makes at least one choice, if one is left |
| `MpmcChan.Chan.Perform` | src/mpmc/channel.rs:35-46 | a call of user code that the borrow rules allow takes place and leaves its mark (a push, a closed channel, a handle or future made or gone, a poll, a receive call), and one that they do not allow changes nothing |
| `MpmcChan.Chan.WakeAll` | src/mpmc/chan.rs:389-409 | every taken waker is woken exactly once whatever the others do, each wake gives user code control, and the panic that is resumed is the first one, or none |
| `MpmcChan.Chan.WakeReceivers` | src/mpmc/chan.rs:226-241 | the list is taken before any waker runs; all its wakers are woken; the first panic is resumed |
| `MpmcChan.Chan.WakeSenders` | src/mpmc/chan.rs:282-298 | the same for the senders; if no user code ran, the slot is as it was |
| `MpmcChan.Chan.CloseChan` | src/mpmc/chan.rs:138-163 | both halves are woken whichever wakes panic: every receiver registered before, and every sender registered before unless it has given up its registration; the first panic over both is resumed; a repeat does nothing |
| `MpmcChan.Chan.FillRedelivery` | src/mpmc/chan.rs:339-339 | the slot is empty whenever it is filled, so the assignment drops nothing under the borrow |
| `MpmcChan.Chan.TakeNext` | src/mpmc/chan.rs:324-339 | a lap up to the wakes takes the slot first, then the front of the queue, and parks the item only if senders wait |
| `MpmcChan.Chan.TryTake` | src/mpmc/chan.rs:323-348 | returns None only with slot and queue empty at return; otherwise the item that this very call took, marked with its number; each lap lost is paid for by an item handed out meanwhile; it unwinds exactly with the first panic of a sender it woke, having taken nothing |
| `MpmcChan.Chan.AddRecvWaker` | src/mpmc/chan.rs:188-207 | the id ends up in its owner's cell and the waker in the list, unless the channel is or becomes terminal during the clone; when the clone, or the drop of a clone that is not needed, unwinds, the cell is left empty |
| `MpmcChan.Chan.DropClone` | src/mpmc/chan.rs:198-204 | on a channel that became terminal during the clone, the clone is dropped and nothing is stored |
| `MpmcChan.Chan.RemoveRecvWaker` | src/mpmc/chan.rs:212-220 | the entry with this id, if any, is removed before its waker is dropped |
| `MpmcChan.Chan.RemoveSendWaker` | src/mpmc/chan.rs:257-265 | the same for the send list |
| `MpmcChan.Chan.PollOwner` | src/mpmc/channel.rs:187-232 | Pending only on an empty, connected channel, with the owner's own waker registered, about to be woken, or woken; None only on a drained channel and without a registration; an item is one that this receive call took; a drained channel gives None |
| `MpmcChan.Chan.RegisterAndRecheck` | src/mpmc/channel.rs:209-231 | the recheck after registration: the same promise, whatever the clone did |
| `MpmcChan.Chan.PollTaking` | src/mpmc/channel.rs:187-232 | a poll is one receive call: an item returned is the one marked with its number, and without an item its number marks none |
| `MpmcChan.Chan.PollDone` | src/mpmc/recv.rs:44-55 | a completed receive takes no item; a stale registration is cleared and the consumer woken |
| `MpmcChan.Chan.PollCompleted` | src/mpmc/recv.rs:44-55 | a poll of a completed `Recv` takes no item and returns Pending, after which the future holds no registration; if it held one, the consumer has been woken |
| `MpmcChan.Chan.PollRecv` | src/mpmc/recv.rs:40-65 | Ready at most once, with an item only if this poll took it, and no item is taken otherwise; a poll that does not return Ready, because it unwinds or is Pending, leaves done and the Ready count as they were; None is a report of disconnection; Pending leaves the future's own waker registered or woken; a completed future takes nothing, stays Pending and becomes terminated |
| `MpmcChan.Chan.PollNext` | src/mpmc/channel.rs:356-362 | the same for a stream; after None, a report of disconnection, it is terminated, and a terminated stream yields None |
| `MpmcChan.Chan.TryRecv` | src/mpmc/channel.rs:157-163 | an item only if this call took it, and none is taken otherwise, also when it unwinds; Empty and Disconnected are reported exactly of the state at return; once any receive has reported disconnection this one does too |
| `MpmcChan.Chan.TrySend` | src/mpmc/channel.rs:35-46 | closed first, then full, with the item handed back and nothing changed; otherwise the item is the next accepted one, and the only one unless user code ran; every receiver parked before is woken, and the result is the first panic or Ok |
| `MpmcChan.Chan.CloseBy` | src/mpmc/channel.rs:92-98 | true (or an unwind) exactly for the one call that finds the channel open, after which it is closed |
| `MpmcChan.Chan.Commit` | src/mpmc/send.rs:45-79 | whatever wakers do, the outcome is returned once, or is kept for replay if user code panicked; a sent item has the last place, every receiver parked before is woken; no registration is left |
| `MpmcChan.Chan.Conclude` | src/mpmc/send.rs:70-77 | after the outcome is recorded, the receivers are woken if the item was sent, and the registration is given up, also while unwinding |
| `MpmcChan.Chan.TryPushMessage` | src/mpmc/send.rs:107-113 | the message moves into the queue, or is back in the future when there is no room |
| `MpmcChan.Chan.PollUndecided` | src/mpmc/send.rs:100-135 | what becomes of an undecided send: it fails if the channel is closed to sends; if there is room it is sent, as the next accepted item, and every parked receiver is woken; on a full open channel it is Pending, registered, unless user code changes that |
| `MpmcChan.Chan.RegisterSend` | src/mpmc/send.rs:117-133 | the recheck after registration, closure first: the same verdict on the state that the registration left |
| `MpmcChan.Chan.PollDecided` | src/mpmc/send.rs:92-99 | a poll of a decided send returns the pending outcome, its first answer, or Pending, and moves nothing |
| `MpmcChan.Chan.PollSend` | src/mpmc/send.rs:86-136 | an undecided send fails exactly when the channel is closed to sends at the time, is sent as the next accepted item if there is room, every parked receiver being woken, and otherwise waits, unless user code changes that; a pending outcome is replayed; Ready is returned only by a send that has returned nothing before; an answered one returns Pending; Pending of an undecided one leaves it registered, parked, full and open; after an unwind the send is undecided or has its outcome pending; neither `expect` can fail |
| `MpmcChan.Chan.Discard` | src/mpmc/recv.rs:78-88 | the dropped owner and its registration are gone, also if dropping the waker panics |
| `MpmcChan.Chan.DropSend` | src/mpmc/send.rs:150-159 | the same for a send; its message or pending error is then dropped, and its log says for good what became of its item |
| `MpmcChan.Chan.DropSender` | src/mpmc/channel.rs:126-131 | this sender, and no other, is gone and the count is one less; the last one wakes every parked receiver and resumes the first panic; any other changes nothing else |
| `MpmcChan.Chan.Drain` | src/mpmc/chan.rs:356-373 | every item left is dropped once, in order, also when payload drops panic; it ends although payload drops may call back |
| `MpmcChan.Chan.Cleanup` | src/mpmc/channel.rs:309-338 | the guard empties the channel and removes the stream registration, on the normal path and while unwinding |
| `MpmcChan.Chan.DropLastReceiver` | src/mpmc/channel.rs:293-347 | returning or unwinding, it leaves queue, slot and receive list empty and everything accepted out; all parked senders are woken, and a panic among them is the one resumed |
| `MpmcChan.Chan.FinishLast` | src/mpmc/channel.rs:339-346 | the second half of that drop: a panic of the wakes, if there was one, is the one that goes on, and the clean-up runs all the same |
| `MpmcChan.Chan.IsTerminated` | src/mpmc/channel.rs:375-379 | what `is_terminated` has reported once it always reports, and asking changes nothing else |
| `MpmcChan.Chan.Len` | src/mpmc/chan.rs:74-78 | the number of accepted items that have not gone out, at most the capacity plus one |
| `MpmcChan.Chan.IsEmpty` | src/mpmc/chan.rs:81-86 | everything accepted has gone out |
| `MpmcChan.Chan.CloneSender` | src/mpmc/channel.rs:116-121 | one more sender, under a name never used before, and nothing else |
| `MpmcChan.Chan.CloneReceiver` | src/mpmc/channel.rs:277-283 | one more receiver, under a name never used before and without a registration, and nothing else |
| `MpmcChan.Chan.StartSend` | src/mpmc/send.rs:30-38 | a new future, undecided and not registered, holds the item; nothing else changes |
| `MpmcChan.Chan.StartRecv` | src/mpmc/recv.rs:27-33 | a new future is not done and not registered; nothing else changes |
| `MpmcCalls.LapEnds` | src/mpmc/chan.rs:336-346 | a lap of `try_take` that finds its slot drained handed at least one item to somebody else |
| `MpmcCalls.DrainedStays` | src/mpmc/channel.rs:205-208 | disconnection, and emptiness of a disconnected channel, survive any user code |
| `MpmcCalls.CommitSentBegins` | src/mpmc/send.rs:108-109 | when a send commits its push, the invariant holds as its first waker runs: its place is the last accepted one and every parked receiver is about to be woken |
| `MpmcCalls.CommitFailedAfterAdd` | src/mpmc/send.rs:117-125 | a send that finds the channel closed right after registering leaves no entry |
| `MpmcCalls.FirstPanicNext` | src/mpmc/chan.rs:397-405 | keeping the first panic while waking one more waker |
| `MpmcSteps.RemoveIdElems` | src/mpmc/chan.rs:215-218 | find by id and `swap_remove` take out exactly the entry with that id, and keep the rest |
| `MpmcSteps.PopToSlotKeeps` | src/mpmc/chan.rs:330-340 | parking the front item and taking the senders' wakers keeps the invariant |
| `MpmcSteps.PushKeeps` | src/mpmc/channel.rs:39-41 | pushing and taking the receivers' wakers keeps the invariant |
| `MpmcRecvSteps.StoreRecvKeeps` | src/mpmc/chan.rs:202-206 | storing the cloned waker and its id, on a channel still open, keeps the invariant |
| `MpmcSendSteps.SettleKeeps` | src/mpmc/send.rs:50-52 | recording an outcome keeps the item with one holder |
| `MpmcHandleSteps.CloseKeeps` | src/mpmc/chan.rs:139-150 | marking the channel closed and taking the receivers' wakers keeps the invariant |
| `MpmcHandleSteps.BuryLastKeeps` | src/mpmc/channel.rs:293-345 | the last receiver leaving and the senders' wakers being taken keeps the invariant |
| `Ring.PushIsExactIff` | src/queue/ring/mod.rs:54-54 | the index computed by every push into a ring that is not full is right if and only if the capacity is at most 2^63 |
| `Ring.ReachOverflow` | src/queue/ring/mod.rs:50-82 | above that, pushes and pops alone bring a new ring to a state, not full, in which the next push overflows |
| `Ring.TailIsExact` | src/queue/ring/mod.rs:54-54 | one push computes the right index exactly when `head + len` fits in a `usize` |
| `Ring.WriteAppends` | src/queue/ring/mod.rs:50-61 | the slot behind the last item is uninitialised, and writing it appends |
| `Ring.ReadRemoves` | src/queue/ring/mod.rs:65-76 | the slot at `head` is initialised and holds the oldest item; moving it out leaves the others |
| `Ring.Ring.constructor` | src/queue/ring/mod.rs:17-26 | a new ring is empty |
| `Ring.Ring.Push` | src/queue/ring/mod.rs:50-61 | refused exactly when full; otherwise appends, with exactly the slots from `head` on initialised; if the sum overflows it hits a slot in use |
| `Ring.Ring.Pop` | src/queue/ring/mod.rs:65-76 | removes the oldest item and moves `head` on around the ring, or reports that there is none |
| `Ring.Ring.Clear` | src/queue/ring/mod.rs:80-82 | drops every item, oldest first, and leaves no slot initialised |
| `BlockList.MemoryTracksUse` | src/queue/list/mod.rs:3-8 | k >= 2 blocks of n slots are in use only if more than (k - 2) * n items are queued |
| `BlockList.BlockList.BlocksBounded` | src/queue/list/mod.rs:3-8 | the same for the blocks linked in a list, in terms of `len` |
| `BlockList.BlockList.NoneFreed` | src/queue/list/mod.rs:132-138 | no block reachable from the list has been freed |
| `BlockList.Block.Write` | src/queue/list/mod.rs:96-98 | only an untouched slot is written, once |
| `BlockList.Block.Take` | src/queue/list/mod.rs:121-124 | only a written slot is read, once |
| `BlockList.Block.Release` | src/queue/list/mod.rs:50-57 | dropping a block drops exactly its unread items, in order |
| `BlockList.BlockList.constructor` | src/queue/list/mod.rs:70-78 | a new list is one empty block |
| `BlockList.BlockList.Push` | src/queue/list/mod.rs:91-111 | appends, adding a block only when the last one is full, for every block size of at least one |
| `BlockList.BlockList.Pop` | src/queue/list/mod.rs:114-140 | removes the oldest item or reports that there is none; at most two laps, and a block is freed exactly in the second |
| `BlockList.BlockList.Drop` | src/queue/list/mod.rs:144-152 | releases the items left, in order, and frees every block once |
| `Flavor.TryPush` | src/queue/mod.rs:68-76 | either queue answers as the sequence it stands for, if and only if the ring's index does not overflow, which a capacity of at most 2^63 rules out |
| `Flavor.Pop` | src/queue/mod.rs:79-84 | either queue answers as the sequence it stands for |
| `Flavor.Replay` | src/queue/mod.rs:16-19 | any sequence of operations on either queue is answered as by its sequence, for every capacity up to 2^63 |
| `Flavor.NeverFullIsUnbounded` | src/queue/mod.rs:68-84 | on a run in which the ring never reports full, both queues give the same answers and end with the same items |
| `Flavor.FirstInFirstOut` | src/queue/mod.rs:68-84 | over any run, what was there and what was pushed is what came out followed by what is left |
| `Flavor.StaysWithin` | src/queue/mod.rs:58-63 | a bounded queue never exceeds its capacity |
| `Flavor.NewBounded` | src/queue/mod.rs:23-25 | an empty queue with this capacity, for every capacity that a `usize` can hold |
| `Flavor.NewUnbounded` | src/queue/mod.rs:28-30 | an empty queue without a capacity |
| `Flavor.Len` | src/queue/mod.rs:33-38 | the number of queued items |
| `Flavor.IsEmpty` | src/queue/mod.rs:41-46 | no item is queued |
| `Flavor.IsFull` | src/queue/mod.rs:58-63 | a push would be refused |
| `OneshotState.AcceptedOnce` | src/oneshot/mod.rs:119-129 | an accepted value is in the slot, with the receiver, or dropped: exactly one of these, at every user-code point |
| `OneshotState.OverLeavesNothing` | src/oneshot/mod.rs:85-92 | when both handles are gone the value has left the slot and no waker is retained |
| `OneshotState.CanceledIsFinal` | src/oneshot/mod.rs:225-228 | Canceled is reported only if no send was accepted, and none is later |
| `OneshotState.ParkedCanBeWoken` | src/oneshot/mod.rs:229-246 | a parked receiver: no value, a live sender, and the waker of its last poll stored |
| `OneshotState.WaitsUntilWoken` | src/oneshot/mod.rs:119-147 | a receiver that was parked, and has been neither polled nor dropped since, is still parked with its waker stored and a live sender, or the waker of its last poll has been woken because a value came or the sender went |
| `OneshotState.NothingYet` | src/oneshot/mod.rs:242-246 | with no value, no news and an unfinished receiver, the sender can still act |
| `OneshotState.WriteKeeps` | src/oneshot/mod.rs:125-127 | the slot is empty when it is written |
| `Oneshot.Channel.WakeReceiver` | src/oneshot/mod.rs:53-61 | the waker leaves its cell before it is woken; if one was stored, its poll is among those woken and user code has had control |
| `Oneshot.Channel.Send` | src/oneshot/mod.rs:119-146 | fails with the value exactly when the receiver has been dropped; otherwise the value is accepted, whatever its wakes do, and a stored waker is woken; without user code the effect is exact |
| `Oneshot.Channel.FinishSender` | src/oneshot/mod.rs:138-147 | the receiver is told, its stored waker being woken if there is no value, and the sender's share released, also while unwinding |
| `Oneshot.Channel.DropSender` | src/oneshot/mod.rs:138-147 | a sender dropped without sending leaves no value, and a stored waker is woken |
| `Oneshot.Channel.TakeIfPresent` | src/oneshot/mod.rs:179-191 | takes the accepted value once, without observing cancellation |
| `Oneshot.Channel.TryRecv` | src/oneshot/mod.rs:160-171 | the accepted value, or Canceled if there was none and the sender is gone, or nothing while the sender lives |
| `Oneshot.Channel.Register` | src/oneshot/mod.rs:36-51 | after the clone and the drop of the replaced waker the new one is stored, or has been woken; the clone is user code |
| `Oneshot.Channel.PollReceiver` | src/oneshot/mod.rs:212-247 | Ready once with the accepted value or Canceled, and with the value if it is there; Pending leaves an unfinished receiver parked; an unwind leaves it unfinished |
| `Oneshot.Channel.DropPresent` | src/oneshot/mod.rs:76-82 | a value present is dropped once, its flag cleared first |
| `Oneshot.Channel.DropReceiver` | src/oneshot/mod.rs:257-266 | the value is dropped here, or when the last handle goes if the waker's drop panicked; without user code the effect is exact |
| `Oneshot.Channel.ClearForDrop` | src/oneshot/mod.rs:259-261 | the receiver is marked dropped before its waker is dropped, so no send succeeds from then on |
| `Oneshot.Channel.DropUnreceived` | src/oneshot/mod.rs:262-264 | a value sent and never received is dropped |
| `Oneshot.Channel.Perform` | src/oneshot/mod.rs:119-147 | a call of user code that holds the handle takes place and leaves its mark |
| `Oneshot.Run` | src/oneshot/mod.rs:95-109 | every script yields states that satisfy the invariant, each following from the one before |
| `MpscState.ParkedCanBeWoken` | src/mpsc/channel.rs:182-201 | a parked receiver: everything accepted has gone out, the channel is open, its last waker is in the slot |
| `MpscState.WaitsUntilWoken` | src/mpsc/chan.rs:154-167 | a receiver that was parked, and has been neither polled nor dropped since, is still parked on an empty, open channel with its waker stored, or the waker of its last poll has been woken because an item came or the channel disconnected |
| `MpscState.SendWaitsUntilWoken` | src/mpsc/chan.rs:216-286 | a registered send is registered until it is woken or removes its registration, and its id is not used again |
| `MpscState.DrainedIsForever` | src/mpsc/channel.rs:276-283 | a drained channel stays drained and keeps no waker |
| `Mpsc.Chan.WakeReceiver` | src/mpsc/chan.rs:154-167 | the waker leaves its slot before it is woken; if one was stored, its poll is among those woken and user code has had control |
| `Mpsc.Chan.WakeSenders` | src/mpsc/chan.rs:238-286 | the list is taken first; every send that was registered is woken, each wake giving user code control |
| `Mpsc.Chan.AddSendWaker` | src/mpsc/chan.rs:216-222 | after the clone, which is user code, the send is registered under an id not used before |
| `Mpsc.Chan.RemoveSendWaker` | src/mpsc/chan.rs:227-235 | the entry with this id, if any, and no other is removed before its waker is dropped |
| `Mpsc.Chan.PollRecv` | src/mpsc/channel.rs:169-202 | Pending only with an empty queue, an open channel and this poll's waker in the slot; an item is the oldest one, and all parked sends are woken for it; None only when drained, with the slot cleared; without user code the effect is exact |
| `Mpsc.Chan.Register` | src/mpsc/chan.rs:170-193 | unless the channel is or becomes terminal, the waker is stored or has been woken; a clone that is not needed is dropped; on a terminal channel nothing changes |
| `Mpsc.Chan.TryRecv` | src/mpsc/channel.rs:140-149 | the oldest item, after which all parked sends are woken, or Empty or Disconnected as the state has it, which then does not change |
| `Mpsc.Chan.TrySend` | src/mpsc/channel.rs:34-45 | closed first, then full, with the item back; otherwise the item is accepted next, and no other unless user code ran, and a stored receiver's waker is woken |
| `Mpsc.Chan.CloseBy` | src/mpsc/channel.rs:83-89 | true exactly for a call that finds the channel open; then a stored receiver's waker is woken, every send that was registered is woken or has removed its registration, and the receiver is not left parked |
| `Mpsc.Chan.DropSender` | src/mpsc/channel.rs:117-122 | the count is one less; the last sender wakes a stored receiver's waker and leaves a disconnected channel that keeps none; any other changes nothing else |
| `Mpsc.Chan.CloneSender` | src/mpsc/channel.rs:105-113 | one more sender, and nothing else |
| `Mpsc.Chan.CancelRecv` | src/mpsc/recv.rs:55-64 | a receive dropped before completion leaves no waker, and takes no item |
| `Mpsc.Chan.DropReceiver` | src/mpsc/channel.rs:243-262 | every registered send is woken and every queued item dropped; queue and waker slot end empty and every accepted item has gone out |
| `Mpsc.Chan.Perform` | src/mpsc/channel.rs:34-45 | the same for this channel |
| `Mpsc.Run` | src/mpsc/channel.rs:169-202 | every script yields states that satisfy the invariant, each following from the one before |

## Left out

- The `no_std` variants of `wake_all` and `close`, where two panicking wakers abort by design.
- Panics of user code in `mpsc`, which has no redelivery slot; its `Send` future, a simpler relative of that of `mpmc`, appears only as user code that registers and removes send wakers, and its `Recv` only as polls and cancellations.
- `TryIter`, error types and their formatting, panic payloads and their disposal, the cell types themselves, pinning, allocation and pointer provenance.
- Executor fairness: wake guarantees are stated as safety, not as eventual completion.
- Infinite behaviours of user code: a script is finite, though of any length, so termination of `try_take` and `drain` is proved for callbacks that themselves do finitely much.
- The futures and handles of `mpmc` are entries of tables in the channel's class rather than objects of their own; a dropped owner disappears from its table before its waker is dropped, which allows user code more than the source does.
- In the channel classes the queue is the sequence that `Flavor` proves both queues to refine, not the queue objects themselves.
- A panic in an item's `Drop` while a `Ring`, a `Block` or a `BlockList` is itself being dropped.
- MpmcChan.Chan.PollSend: Pending of a send that is already done, which the source returns without a wake, promises only that nothing changed.
- MpmcChan.Chan.PollRecv: the no-lost-wake promise is for receives that are not done; a completed one returns Pending without waiting for anything.
- Wrap-around of the registration ids after 2^64 registrations.
