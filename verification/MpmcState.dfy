/**
The state of one `mpmc` channel together with every handle and future that refers to it, the
invariant that holds whenever user code runs, and the relation between two such moments.

User code (waker `clone`, `wake` and `drop`, payload `Drop`) runs in the middle of most
operations and may call back into the channel. `Inv` is what every operation establishes before
it lets user code run; `Rel` is what the operation may rely on when user code is done.
 */
module MpmcState {
  import opened Common

  /** What a registered waker wakes: a `Recv` future, a receiver used as a stream, a `Send` future. */
  datatype Owner = OfRecv(fut: nat) | OfStream(rx: nat) | OfSend(fut: nat)

  /** What user code asks for: that an owner be polled or dropped, a sender be dropped, the channel be closed. */
  datatype Ask = Turn(o: Owner) | Leave(tx: nat) | Shut

  /** One element of `recv_wakers` or `send_wakers`. */
  datatype Entry = Entry(id: nat, waker: Owner)

  datatype RecvFut = RecvFut(rx: nat, done: bool)

  datatype SendResult = Sent | Failed(item: Payload)

  datatype SendFut = SendFut(tx: nat, item: Option<Payload>, done: bool, outcome: Option<SendResult>)

  /**
  The handles and futures that user code holds. `ids` holds every `waker_id` cell: one for each
  live future and one (`stream_waker_id`) for each live receiver. `nextName` names the next object.
   */
  datatype World = World(
    txs: set<nat>,
    rxs: set<nat>,
    recvs: map<nat, RecvFut>,
    sends: map<nat, SendFut>,
    ids: map<Owner, Option<nat>>,
    nextName: nat)

  /** The borrows taken by calls in progress: `busy` owners are mutably borrowed by a poll. */
  datatype Borrows = Borrows(busy: set<Owner>, tx: multiset<nat>, rx: multiset<nat>)

  /**
  Where an owner stands with its executor: `Polling` from the start of a poll, `Parked` once that
  poll has returned `Pending`, `Woken` as soon as the waker it registered has been woken.
   */
  datatype Wait = Idle | Polling | Woken | Parked

  /**
  The item a `Send` was created with, its outcome once decided, its place among the accepted items,
  the results returned, and whether the item was dropped together with the future.
   */
  datatype SendLog = SendLog(
    orig: Payload, outcome: Option<SendResult>, at: Option<nat>, answers: seq<SendResult>, dropped: bool)

  /** History of the run so far; no operation reads it. */
  datatype History = History(
    wait: map<Owner, Wait>,
    turns: map<Owner, nat>,     // how often each owner has been polled or dropped
    ready: map<nat, nat>,       // how often each Recv has returned Ready
    sent: map<nat, SendLog>,
    woken: set<Entry>,          // entries whose waker has been woken
    ended: map<Entry, Option<nat>>, // how each wake that is over ended: in a return, or in a panic
    terminated: set<Owner>,     // owners whose is_terminated has been observed to hold
    disconnected: bool,         // some receive has reported disconnect
    closes: nat,                // how many close calls found the channel open
    takers: seq<Option<nat>>,   // for each item of `out`, the receive call that took it, if not `drain`
    calls: nat)                 // how many receive calls have been made

  /**
  Obligations of the calls in progress: entries taken out of a list and still to be woken, entries
  being woken, entries whose id is held by a clean-up guard, ids issued by a registration that is
  cloning its waker, whether `close` has yet to wake the senders, whether the clean-up of the
  last receiver is in progress, the dropped sends whose item is yet to be dropped, and
  the receive calls in progress that have not taken an item.
   */
  datatype Stack = Stack(
    pend: set<Entry>, waking: set<Entry>, guards: set<Entry>, issued: set<Entry>, due: bool, cleaning: bool,
    dropping: set<nat>, taking: set<nat>)

  /**
  The cells of `Chan` first, then what user code holds, then history. `accepted` is every item
  pushed so far and `out` every item handed out by `try_take` or dropped by `drain`, in order;
  `asks` are the polls, the drops (senders included) and the closes that user code has yet to ask for.
   */
  datatype State = State(
    cap: Option<nat>,
    q: seq<Payload>,
    slot: Option<Payload>,
    senders: nat,
    receivers: nat,
    closed: bool,
    rw: seq<Entry>,
    nextR: nat,
    sw: seq<Entry>,
    nextS: nat,
    w: World,
    b: Borrows,
    accepted: seq<Payload>,
    out: seq<Payload>,
    h: History,
    k: Stack,
    asks: multiset<Ask>)

  // ---- Views of a state ------------------------------------------------------------------------

  function OptSeq<T>(o: Option<T>): seq<T> {
    if o.Some? then [o.value] else []
  }

  predicate Empty(s: State) {
    s.slot.None? && s.q == []
  }

  predicate Full(s: State) {
    s.cap.Some? && |s.q| == s.cap.value
  }

  predicate Disconnected(s: State) {
    s.senders == 0 || s.closed
  }

  predicate ClosedToSends(s: State) {
    s.receivers == 0 || s.closed
  }

  predicate Drained(s: State) {
    Disconnected(s) && Empty(s)
  }

  function WaitOf(wait: map<Owner, Wait>, o: Owner): Wait {
    if o in wait then wait[o] else Idle
  }

  function TurnsOf(turns: map<Owner, nat>, o: Owner): nat {
    if o in turns then turns[o] else 0
  }

  function ReadyOf(ready: map<nat, nat>, f: nat): nat {
    if f in ready then ready[f] else 0
  }

  /** How many items have left the queue, whether handed out or parked in the slot. */
  function Popped(s: State): nat {
    |s.out| + |OptSeq(s.slot)|
  }

  /** `e`'s id is in the cell of its owner, in a clean-up guard, or issued and not yet stored. */
  predicate Held(ids: map<Owner, Option<nat>>, guards: set<Entry>, issued: set<Entry>, e: Entry) {
    (e.waker in ids && ids[e.waker] == Some(e.id)) || e in guards || e in issued
  }

  predicate Below(nextR: nat, nextS: nat, e: Entry) {
    e.id < if e.waker.OfSend? then nextS else nextR
  }

  /** What `is_terminated` reports for `o`, given whether the channel is drained. */
  predicate Terminated(w: World, drained: bool, o: Owner) {
    o in w.ids &&
    match o
    case OfRecv(f) => f in w.recvs && w.recvs[f].done && w.ids[o].None?
    case OfStream(_) => w.ids[o].None? && drained
    case OfSend(f) => f in w.sends && w.sends[f].done && w.sends[f].outcome.None?
  }

  function NameOf(o: Owner): nat {
    match o
    case OfRecv(f) => f
    case OfStream(r) => r
    case OfSend(f) => f
  }

  // ---- The invariant ---------------------------------------------------------------------------

  /** Conservation: what was accepted is what went out, then the slot, then the queue, in order. */
  ghost predicate QueueOk(
    cap: Option<nat>, q: seq<Payload>, slot: Option<Payload>, accepted: seq<Payload>, out: seq<Payload>)
  {
    && accepted == out + OptSeq(slot) + q
    && (cap.Some? ==> |q| <= cap.value)
  }

  ghost predicate WorldOk(w: World, b: Borrows) {
    && (forall n <- w.txs :: n < w.nextName)
    && (forall n <- w.rxs :: n < w.nextName)
    && (forall f <- w.recvs :: f < w.nextName && w.recvs[f].rx in w.rxs && OfRecv(f) in w.ids)
    && (forall f <- w.sends :: f < w.nextName && w.sends[f].tx in w.txs && OfSend(f) in w.ids)
    && (forall r <- w.rxs :: OfStream(r) in w.ids)
    && (forall o <- w.ids ::
          match o
          case OfRecv(f) => f in w.recvs
          case OfStream(r) => r in w.rxs
          case OfSend(f) => f in w.sends)
    && (forall o <- b.busy :: o in w.ids)
    && (forall n <- b.tx :: n in w.txs)
    && (forall n <- b.rx :: n in w.rxs)
  }

  /** Every held id was issued, and has exactly one holder: a cell, a guard or a registration. */
  ghost predicate HoldersOk(
    ids: map<Owner, Option<nat>>, guards: set<Entry>, issued: set<Entry>, nextR: nat, nextS: nat)
  {
    && (forall e | Held(ids, guards, issued, e) :: Below(nextR, nextS, e))
    && (forall e, e' | Held(ids, guards, issued, e) && Held(ids, guards, issued, e') ::
          e.id == e'.id && e.waker.OfSend? == e'.waker.OfSend? ==> e == e')
    && (forall e <- guards :: (e.waker in ids ==> ids[e.waker] != Some(e.id)) && e !in issued)
    && (forall e <- issued :: e.waker in ids ==> ids[e.waker] != Some(e.id))
  }

  /** Every registration belongs to exactly one live owner (or clean-up guard) that holds its id. */
  ghost predicate ListOk(
    list: seq<Entry>, send: bool, ids: map<Owner, Option<nat>>, guards: set<Entry>, issued: set<Entry>)
  {
    && NoDup(list)
    && (forall e <- list :: e.waker.OfSend? == send && Held(ids, guards, issued, e))
  }

  /** An entry is issued, or in a list, or taken and still to be woken, or woken: never two of these. */
  ghost predicate WakesOk(
    rw: seq<Entry>, sw: seq<Entry>, pend: set<Entry>, issued: set<Entry>, woken: set<Entry>, nextR: nat, nextS: nat)
  {
    && (forall e <- pend :: Below(nextR, nextS, e) && e !in rw && e !in sw && e !in woken)
    && (forall e <- woken :: Below(nextR, nextS, e) && e !in rw && e !in sw)
    && (forall e <- issued :: e !in rw && e !in sw && e !in pend && e !in woken)
  }

  /** A wake ends once. */
  ghost predicate EndedOk(ended: map<Entry, Option<nat>>, waking: set<Entry>, woken: set<Entry>) {
    && (forall e <- ended :: e in woken && e !in waking)
    && (forall e <- waking :: e in woken)
  }

  /** A terminal channel keeps no waker. */
  ghost predicate TerminalOk(s: State) {
    && (Disconnected(s) ==> s.rw == [])
    && (s.receivers == 0 || (s.closed && !s.k.due) ==> s.sw == [])
    && (s.k.due ==> s.closed)
  }

  /** A channel without receivers is empty, once the clean-up of the last one is over. */
  ghost predicate CleanOk(s: State) {
    && (s.k.cleaning ==> s.receivers == 0)
    && (s.receivers == 0 && !s.k.cleaning ==> Empty(s))
  }

  /** `e` is registered or about to be woken. */
  ghost predicate Listed(list: seq<Entry>, pend: set<Entry>, e: Entry) {
    e in list || e in pend
  }

  /** A send fails only on a channel that is closed to sends. */
  ghost predicate VerdictsOk(sent: map<nat, SendLog>, closedToSends: bool) {
    forall f <- sent | sent[f].outcome.Some? && sent[f].outcome.value.Failed? :: closedToSends
  }

  /**
  No lost wake for receives: a parked one is about to be woken, or is registered on an empty,
  connected channel; one still being polled is registered unless the channel has disconnected.
   */
  ghost predicate RecvWaitsOk(
    ids: map<Owner, Option<nat>>, wait: map<Owner, Wait>, rw: seq<Entry>, pend: set<Entry>,
    disconnected: bool, empty: bool)
  {
    forall o <- ids | !o.OfSend? ::
      && (WaitOf(wait, o) == Polling && ids[o].Some? ==> disconnected || Listed(rw, pend, Entry(ids[o].value, o)))
      && (WaitOf(wait, o) == Parked ==>
            && ids[o].Some?
            && Listed(rw, pend, Entry(ids[o].value, o))
            && (Entry(ids[o].value, o) in pend || (empty && !disconnected)))
  }

  /** No lost wake for sends: a parked one is about to be woken, or is registered and stuck. */
  ghost predicate SendWaitsOk(
    ids: map<Owner, Option<nat>>, wait: map<Owner, Wait>, sw: seq<Entry>, pend: set<Entry>, stuck: bool)
  {
    forall o <- ids | o.OfSend? && WaitOf(wait, o) == Parked ::
      && ids[o].Some?
      && Listed(sw, pend, Entry(ids[o].value, o))
      && (Entry(ids[o].value, o) in pend || stuck)
  }

  /** An owner counts as woken only if the waker of the registration it holds has been woken. */
  ghost predicate WokenOk(ids: map<Owner, Option<nat>>, wait: map<Owner, Wait>, woken: set<Entry>) {
    forall o <- ids | WaitOf(wait, o) == Woken && ids[o].Some? :: Entry(ids[o].value, o) in woken
  }

  /** A send cannot progress: the queue is full and open, or `close` has yet to wake the senders. */
  predicate Stuck(s: State) {
    Full(s) && s.receivers > 0 && (s.closed ==> s.k.due)
  }

  ghost predicate PlaceOk(accepted: seq<Payload>, g: SendLog) {
    g.at.Some? ==> g.at.value < |accepted| && accepted[g.at.value] == g.orig
  }

  /** The item of a `Send` is in the future, in the channel, in a pending outcome, or answered for. */
  ghost predicate SendFutOk(accepted: seq<Payload>, f: SendFut, g: SendLog) {
    && PlaceOk(accepted, g)
    && if !f.done then
         f.item == Some(g.orig) && f.outcome.None? && g.outcome.None? && g.at.None? && g.answers == []
       else
         && f.item.None?
         && g.outcome == Some(if g.at.Some? then Sent else Failed(g.orig))
         && match f.outcome
            case Some(r) => g.answers == [] && r == g.outcome.value
            case None => g.answers == [g.outcome.value]
  }

  ghost predicate SendsOk(
    sends: map<nat, SendFut>, sent: map<nat, SendLog>, accepted: seq<Payload>, nextName: nat)
  {
    && (forall f <- sends :: f in sent && SendFutOk(accepted, sends[f], sent[f]))
    && (forall f, g | f in sent && g in sent && f != g && sent[f].at.Some? :: sent[f].at != sent[g].at)
    && (forall f <- sent :: f < nextName && PlaceOk(accepted, sent[f]))
  }

  /**
  Exactly-once delivery: every item that went out was taken by one receive call, which took no
  other, or was dropped after the last receiver had left.
   */
  ghost predicate TakersOk(takers: seq<Option<nat>>, out: nat, calls: nat, taking: set<nat>, alive: bool) {
    && |takers| == out
    && (forall i | 0 <= i < |takers| ::
          if takers[i].Some? then takers[i].value < calls && takers[i].value !in taking else !alive)
    && (forall i, j | 0 <= i < j < |takers| && takers[i].Some? :: takers[i] != takers[j])
    && (forall c <- taking :: c < calls)
  }

  /** A send that is gone: its item was accepted, or handed back, or dropped with it. */
  ghost predicate FateOk(g: SendLog) {
    if g.dropped then g.at.None? && g.answers == []
    else if g.at.Some? then g.answers == [] || g.answers == [Sent]
    else g.answers == [Failed(g.orig)]
  }

  ghost predicate FatesOk(sends: map<nat, SendFut>, sent: map<nat, SendLog>, dropping: set<nat>) {
    && (forall f <- sent ::
          if f in sends then !sent[f].dropped && f !in dropping
          else if f in dropping then !sent[f].dropped && sent[f].at.None? && sent[f].answers == []
          else FateOk(sent[f]))
    && (forall f <- dropping :: f in sent)
  }

  /** A send that is decided holds no registration. */
  ghost predicate SendIdsOk(sends: map<nat, SendFut>, ids: map<Owner, Option<nat>>) {
    forall f <- sends | sends[f].done :: OfSend(f) in ids && ids[OfSend(f)].None?
  }

  ghost predicate RecvsOk(recvs: map<nat, RecvFut>, ready: map<nat, nat>, nextName: nat) {
    && (forall f <- recvs :: ReadyOf(ready, f) == if recvs[f].done then 1 else 0)
    && (forall f <- ready :: f < nextName && ready[f] <= 1)
  }

  /** What `is_terminated` once reported still holds. */
  ghost predicate TerminatedOk(terminated: set<Owner>, w: World, drained: bool) {
    && (forall o <- terminated | o in w.ids :: Terminated(w, drained, o))
    && (forall o <- terminated :: NameOf(o) < w.nextName)
  }

  ghost predicate WaitNamesOk(wait: map<Owner, Wait>, nextName: nat) {
    forall o <- wait :: NameOf(o) < nextName
  }

  ghost predicate Core(s: State) {
    && QueueOk(s.cap, s.q, s.slot, s.accepted, s.out)
    && s.senders == |s.w.txs|
    && s.receivers == |s.w.rxs|
    && WorldOk(s.w, s.b)
    && HoldersOk(s.w.ids, s.k.guards, s.k.issued, s.nextR, s.nextS)
    && ListOk(s.rw, false, s.w.ids, s.k.guards, s.k.issued)
    && ListOk(s.sw, true, s.w.ids, s.k.guards, s.k.issued)
    && WakesOk(s.rw, s.sw, s.k.pend, s.k.issued, s.h.woken, s.nextR, s.nextS)
    && EndedOk(s.h.ended, s.k.waking, s.h.woken)
    && TerminalOk(s)
    && CleanOk(s)
    && RecvWaitsOk(s.w.ids, s.h.wait, s.rw, s.k.pend, Disconnected(s), Empty(s))
    && SendWaitsOk(s.w.ids, s.h.wait, s.sw, s.k.pend, Stuck(s))
    && WokenOk(s.w.ids, s.h.wait, s.h.woken)
    && WaitNamesOk(s.h.wait, s.w.nextName)
    && SendsOk(s.w.sends, s.h.sent, s.accepted, s.w.nextName)
    && SendIdsOk(s.w.sends, s.w.ids)
    && FatesOk(s.w.sends, s.h.sent, s.k.dropping)
    && VerdictsOk(s.h.sent, ClosedToSends(s))
    && TakersOk(s.h.takers, |s.out|, s.h.calls, s.k.taking, s.receivers > 0)
    && RecvsOk(s.w.recvs, s.h.ready, s.w.nextName)
    && TerminatedOk(s.h.terminated, s.w, Drained(s))
    && (s.h.disconnected ==> Drained(s))
    && s.h.closes == (if s.closed then 1 else 0)
  }

  /** Only a registration by a borrowed owner is in progress; only the last receiver leaves a guard behind. */
  ghost predicate ObligationsOk(k: Stack, busy: set<Owner>, alive: bool) {
    && (forall e <- k.issued :: e.waker in busy)
    && (alive ==> forall e <- k.guards :: e.waker.OfSend?)
  }

  /** What holds at every moment at which user code runs, however deeply calls are nested. */
  ghost predicate Inv(s: State) {
    Core(s) && ObligationsOk(s.k, s.b.busy, s.receivers > 0)
  }

  // ---- What user code may do -------------------------------------------------------------------

  ghost predicate Extends(m: map<Entry, Option<nat>>, n: map<Entry, Option<nat>>) {
    forall e <- m :: e in n && n[e] == m[e]
  }

  /**
  An owner that gets no turn to be polled or dropped stays alive, and keeps its registration and its
  place with the executor: it stays parked until it is woken, and woken once it is.
   */
  ghost predicate Undisturbed(
    ids: map<Owner, Option<nat>>, wait: map<Owner, Wait>, turns: map<Owner, nat>, busy: set<Owner>,
    ids': map<Owner, Option<nat>>, wait': map<Owner, Wait>, turns': map<Owner, nat>, busy': set<Owner>)
  {
    && (forall o :: TurnsOf(turns, o) <= TurnsOf(turns', o))
    && (forall o <- ids | o !in busy && TurnsOf(turns', o) == TurnsOf(turns, o) ::
          && o in ids' && o !in busy'
          && ids'[o] == ids[o]
          && (WaitOf(wait', o) == WaitOf(wait, o) || (WaitOf(wait', o) == Woken && ids[o].Some?)))
  }

  /** Whoever gets a turn has been asked: no owner is polled or dropped but by user code. */
  ghost predicate Paid(
    turns: map<Owner, nat>, asks: multiset<Ask>, turns': map<Owner, nat>, asks': multiset<Ask>)
  {
    forall o :: TurnsOf(turns', o) + asks'[Turn(o)] <= TurnsOf(turns, o) + asks[Turn(o)]
  }

  /**
  Senders go, and the channel closes, only if user code asks for it, and the name of a sender that is
  gone is not used again.
   */
  ghost predicate SendersStay(
    txs: set<nat>, closed: bool, nextName: nat, asks: multiset<Ask>,
    txs': set<nat>, closed': bool, asks': multiset<Ask>)
  {
    && (forall k :: asks'[k] <= asks[k])
    && (forall n <- txs :: n in txs' || asks'[Leave(n)] < asks[Leave(n)])
    && (forall n <- txs' :: n in txs || nextName <= n)
    && (closed' ==> closed || asks'[Shut] < asks[Shut])
  }

  /** A future whose owner gets no turn is left as it is, and so is what it has returned. */
  ghost predicate FuturesStay(
    recvs: map<nat, RecvFut>, ready: map<nat, nat>, sends: map<nat, SendFut>, sent: map<nat, SendLog>,
    turns: map<Owner, nat>, busy: set<Owner>,
    recvs': map<nat, RecvFut>, ready': map<nat, nat>, sends': map<nat, SendFut>, sent': map<nat, SendLog>,
    turns': map<Owner, nat>, busy': set<Owner>)
  {
    && (forall f <- recvs | OfRecv(f) !in busy && TurnsOf(turns', OfRecv(f)) == TurnsOf(turns, OfRecv(f)) ::
          && f in recvs' && recvs'[f] == recvs[f] && ReadyOf(ready', f) == ReadyOf(ready, f)
          && OfRecv(f) !in busy')
    && (forall f <- sends | OfSend(f) !in busy && TurnsOf(turns', OfSend(f)) == TurnsOf(turns, OfSend(f)) ::
          && f in sends' && sends'[f] == sends[f] && (f in sent ==> f in sent' && sent'[f] == sent[f])
          && OfSend(f) !in busy')
  }

  /** What has been dropped stays dropped: names are not used again. */
  ghost predicate GoneStays(ids: map<Owner, Option<nat>>, nextName: nat, ids': map<Owner, Option<nat>>) {
    forall o <- ids' :: o in ids || nextName <= NameOf(o)
  }

  ghost predicate LogGrows(g: SendLog, g': SendLog) {
    && g'.orig == g.orig
    && g.answers <= g'.answers
    && (g.outcome.Some? ==> g'.outcome == g.outcome && g'.at == g.at)
    && (g.at.Some? ==> g'.at == g.at)
    && (g.dropped ==> g'.dropped)
  }

  /** No result that a future has returned is ever forgotten or replaced. */
  ghost predicate LogsGrow(
    ready: map<nat, nat>, sent: map<nat, SendLog>, ready': map<nat, nat>, sent': map<nat, SendLog>)
  {
    && (forall f <- ready :: f in ready' && ready[f] <= ready'[f])
    && (forall f <- sent :: f in sent' && LogGrows(sent[f], sent'[f]))
  }

  /** A registered waker is still registered, or has been or is about to be woken, or was given up. */
  ghost predicate Traced(
    rw: seq<Entry>, sw: seq<Entry>, pend: set<Entry>,
    rw': seq<Entry>, sw': seq<Entry>, pend': set<Entry>, woken': set<Entry>,
    ids': map<Owner, Option<nat>>, guards': set<Entry>, issued': set<Entry>, nextR': nat, nextS': nat)
  {
    forall e | e in rw || e in sw || e in pend ::
      e in rw' || e in sw' || e in pend' || e in woken' || GivenUp(ids', guards', issued', nextR', nextS', e)
  }

  /** The entry was issued, and nobody holds its id any more. */
  ghost predicate GivenUp(
    ids: map<Owner, Option<nat>>, guards: set<Entry>, issued: set<Entry>, nextR: nat, nextS: nat, e: Entry)
  {
    Below(nextR, nextS, e) && !Held(ids, guards, issued, e)
  }

  /** An id that nobody holds any more is never held again. */
  ghost predicate HeldBefore(
    ids: map<Owner, Option<nat>>, guards: set<Entry>, issued: set<Entry>, nextR: nat, nextS: nat,
    ids': map<Owner, Option<nat>>, guards': set<Entry>, issued': set<Entry>)
  {
    forall e | Held(ids', guards', issued', e) && Below(nextR, nextS, e) :: Held(ids, guards, issued, e)
  }

  /** Facts that never revert: histories grow, closure and disconnection are absorbing. */
  ghost predicate Mono(a: State, b: State) {
    && a.cap == b.cap
    && a.accepted <= b.accepted
    && a.out <= b.out
    && Popped(a) <= Popped(b)
    && (a.closed ==> b.closed)
    && (a.senders == 0 ==> b.senders == 0)
    && (a.receivers == 0 ==> b.receivers == 0)
    && (Disconnected(a) || a.receivers == 0 ==> b.accepted == a.accepted)
    && a.nextR <= b.nextR
    && a.nextS <= b.nextS
    && a.w.nextName <= b.w.nextName
    && GoneStays(a.w.ids, a.w.nextName, b.w.ids)
    && Undisturbed(a.w.ids, a.h.wait, a.h.turns, a.b.busy, b.w.ids, b.h.wait, b.h.turns, b.b.busy)
    && Paid(a.h.turns, a.asks, b.h.turns, b.asks)
    && SendersStay(a.w.txs, a.closed, a.w.nextName, a.asks, b.w.txs, b.closed, b.asks)
    && FuturesStay(a.w.recvs, a.h.ready, a.w.sends, a.h.sent, a.h.turns, a.b.busy,
                   b.w.recvs, b.h.ready, b.w.sends, b.h.sent, b.h.turns, b.b.busy)
    && LogsGrow(a.h.ready, a.h.sent, b.h.ready, b.h.sent)
    && a.h.takers <= b.h.takers
    && a.h.calls <= b.h.calls
    && Traced(a.rw, a.sw, a.k.pend, b.rw, b.sw, b.k.pend, b.h.woken, b.w.ids, b.k.guards, b.k.issued, b.nextR, b.nextS)
    && HeldBefore(a.w.ids, a.k.guards, a.k.issued, a.nextR, a.nextS, b.w.ids, b.k.guards, b.k.issued)
    && a.h.woken <= b.h.woken
    && Extends(a.h.ended, b.h.ended)
    && a.h.terminated <= b.h.terminated
    && (a.h.disconnected ==> b.h.disconnected)
  }

  /** Owner `o`, borrowed by a call in progress, is as it was, except that it may have been woken. */
  ghost predicate Kept(o: Owner, w: World, h: History, w': World, h': History) {
    && o in w.ids
    && o in w'.ids
    && w'.ids[o] == w.ids[o]
    && (WaitOf(h'.wait, o) == WaitOf(h.wait, o) || (WaitOf(h'.wait, o) == Woken && w.ids[o].Some?))
    && (o in h'.terminated ==> o in h.terminated)
    && match o
       case OfRecv(f) =>
         f in w.recvs && f in w'.recvs && w'.recvs[f] == w.recvs[f] && ReadyOf(h'.ready, f) == ReadyOf(h.ready, f)
       case OfStream(_) => true
       case OfSend(f) =>
         && f in w.sends && f in w'.sends && w'.sends[f] == w.sends[f]
         && f in h.sent && f in h'.sent && h'.sent[f] == h.sent[f]
  }

  ghost predicate AllKept(busy: set<Owner>, w: World, h: History, w': World, h': History) {
    forall o <- busy :: Kept(o, w, h, w', h')
  }

  ghost predicate Rel(busy: set<Owner>, a: State, b: State) {
    && Mono(a, b)
    && AllKept(busy, a.w, a.h, b.w, b.h)
    && (a.receivers == 0 ==> b.q == a.q && b.slot == a.slot && b.out == a.out)
  }

  lemma KeptReflexive(s: State)
    requires WorldOk(s.w, s.b) && SendsOk(s.w.sends, s.h.sent, s.accepted, s.w.nextName)
    ensures AllKept(s.b.busy, s.w, s.h, s.w, s.h)
  {
  }

  /** The growing parts of `Mono`, where nothing has changed. */
  lemma Same(s: State)
    ensures LogsGrow(s.h.ready, s.h.sent, s.h.ready, s.h.sent)
    ensures Extends(s.h.ended, s.h.ended)
    ensures GoneStays(s.w.ids, s.w.nextName, s.w.ids)
    ensures Paid(s.h.turns, s.asks, s.h.turns, s.asks)
    ensures SendersStay(s.w.txs, s.closed, s.w.nextName, s.asks, s.w.txs, s.closed, s.asks)
    ensures FuturesStay(s.w.recvs, s.h.ready, s.w.sends, s.h.sent, s.h.turns, s.b.busy,
                        s.w.recvs, s.h.ready, s.w.sends, s.h.sent, s.h.turns, s.b.busy)
    ensures Undisturbed(s.w.ids, s.h.wait, s.h.turns, s.b.busy, s.w.ids, s.h.wait, s.h.turns, s.b.busy)
    ensures Traced(s.rw, s.sw, s.k.pend, s.rw, s.sw, s.k.pend, s.h.woken, s.w.ids, s.k.guards, s.k.issued, s.nextR,
                   s.nextS)
    ensures HeldBefore(s.w.ids, s.k.guards, s.k.issued, s.nextR, s.nextS, s.w.ids, s.k.guards, s.k.issued)
  {
  }

  lemma RelReflexive(s: State)
    requires Core(s)
    ensures Rel(s.b.busy, s, s)
  {
    hide Core, AllKept, LogsGrow, Extends, GoneStays, Traced, HeldBefore, Undisturbed, Paid, SendersStay, FuturesStay;
    KeptReflexiveCore(s);
    Same(s);
  }

  lemma KeptReflexiveCore(s: State)
    requires Core(s)
    ensures AllKept(s.b.busy, s.w, s.h, s.w, s.h)
  {
    hide QueueOk, WorldOk, HoldersOk, ListOk, WakesOk, EndedOk, SendsOk, SendIdsOk, FatesOk, TakersOk, VerdictsOk,
         RecvsOk, TerminatedOk, WaitNamesOk, RecvWaitsOk, SendWaitsOk, WokenOk, AllKept;
    KeptReflexive(s);
  }

  lemma TracedTransitive(a: State, b: State, c: State)
    requires Mono(a, b) && Mono(b, c)
    ensures Traced(a.rw, a.sw, a.k.pend, c.rw, c.sw, c.k.pend, c.h.woken, c.w.ids, c.k.guards, c.k.issued, c.nextR,
                   c.nextS)
    ensures HeldBefore(a.w.ids, a.k.guards, a.k.issued, a.nextR, a.nextS, c.w.ids, c.k.guards, c.k.issued)
  {
    hide LogsGrow, Extends, GoneStays, Held;
    forall e | e in a.rw || e in a.sw || e in a.k.pend
      ensures e in c.rw || e in c.sw || e in c.k.pend || e in c.h.woken ||
              GivenUp(c.w.ids, c.k.guards, c.k.issued, c.nextR, c.nextS, e)
    {
      assert e in b.rw || e in b.sw || e in b.k.pend || e in b.h.woken ||
             GivenUp(b.w.ids, b.k.guards, b.k.issued, b.nextR, b.nextS, e);
    }
  }

  lemma UndisturbedTransitive(a: State, b: State, c: State)
    requires Mono(a, b) && Mono(b, c)
    ensures Undisturbed(a.w.ids, a.h.wait, a.h.turns, a.b.busy, c.w.ids, c.h.wait, c.h.turns, c.b.busy)
  {
    hide LogsGrow, Extends, GoneStays, Traced, HeldBefore, Paid, SendersStay, FuturesStay, TurnsOf, WaitOf;
    forall o <- a.w.ids | o !in a.b.busy && TurnsOf(c.h.turns, o) == TurnsOf(a.h.turns, o)
      ensures o in c.w.ids && o !in c.b.busy && c.w.ids[o] == a.w.ids[o]
      ensures WaitOf(c.h.wait, o) == WaitOf(a.h.wait, o) || (WaitOf(c.h.wait, o) == Woken && a.w.ids[o].Some?)
    {
      assert TurnsOf(a.h.turns, o) <= TurnsOf(b.h.turns, o) <= TurnsOf(c.h.turns, o);
    }
  }

  lemma PaidTransitive(a: State, b: State, c: State)
    requires Mono(a, b) && Mono(b, c)
    ensures Paid(a.h.turns, a.asks, c.h.turns, c.asks)
  {
    hide LogsGrow, Extends, GoneStays, Traced, HeldBefore, Undisturbed, TurnsOf;
    forall o ensures TurnsOf(c.h.turns, o) + c.asks[Turn(o)] <= TurnsOf(a.h.turns, o) + a.asks[Turn(o)] {
      assert TurnsOf(b.h.turns, o) + b.asks[Turn(o)] <= TurnsOf(a.h.turns, o) + a.asks[Turn(o)];
    }
  }

  lemma SendersTransitive(a: State, b: State, c: State)
    requires Mono(a, b) && Mono(b, c)
    ensures SendersStay(a.w.txs, a.closed, a.w.nextName, a.asks, c.w.txs, c.closed, c.asks)
  {
    hide LogsGrow, Extends, GoneStays, Traced, HeldBefore, Undisturbed, Paid, FuturesStay;
    assert forall k :: c.asks[k] <= b.asks[k] <= a.asks[k];
  }

  lemma FuturesTransitive(a: State, b: State, c: State)
    requires Mono(a, b) && Mono(b, c)
    ensures FuturesStay(a.w.recvs, a.h.ready, a.w.sends, a.h.sent, a.h.turns, a.b.busy,
                        c.w.recvs, c.h.ready, c.w.sends, c.h.sent, c.h.turns, c.b.busy)
  {
    hide LogsGrow, Extends, GoneStays, Traced, HeldBefore, Paid, SendersStay, TurnsOf, ReadyOf;
    forall o | TurnsOf(c.h.turns, o) == TurnsOf(a.h.turns, o)
      ensures TurnsOf(b.h.turns, o) == TurnsOf(a.h.turns, o)
    {
      assert TurnsOf(a.h.turns, o) <= TurnsOf(b.h.turns, o) <= TurnsOf(c.h.turns, o);
    }
  }

  lemma MonoTransitive(a: State, b: State, c: State)
    requires Mono(a, b) && Mono(b, c)
    ensures Mono(a, c)
  {
    hide Traced, HeldBefore, Undisturbed, Paid, SendersStay, FuturesStay;
    UndisturbedTransitive(a, b, c);
    PaidTransitive(a, b, c);
    SendersTransitive(a, b, c);
    FuturesTransitive(a, b, c);
    TracedTransitive(a, b, c);
  }

  lemma RelTransitive(busy: set<Owner>, a: State, b: State, c: State)
    requires Rel(busy, a, b) && Rel(busy, b, c)
    ensures Rel(busy, a, c)
  {
    hide LogsGrow, Extends, GoneStays, Traced, HeldBefore, Undisturbed, Paid, SendersStay, FuturesStay;
    MonoTransitive(a, b, c);
    KeptTransitive(busy, a, b, c);
  }

  lemma KeptTransitive(busy: set<Owner>, a: State, b: State, c: State)
    requires AllKept(busy, a.w, a.h, b.w, b.h) && AllKept(busy, b.w, b.h, c.w, c.h)
    ensures AllKept(busy, a.w, a.h, c.w, c.h)
  {
    forall o <- busy ensures Kept(o, a.w, a.h, c.w, c.h) {
      assert Kept(o, a.w, a.h, b.w, b.h) && Kept(o, b.w, b.h, c.w, c.h);
    }
  }
}
