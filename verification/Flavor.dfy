/** The storage of a channel: a ring when it is bounded, a list of blocks when it is not. */
module Flavor {
  import opened Common
  import R = Ring
  import L = BlockList

  /** The block size of an unbounded channel. */
  const BlockSize: nat := 32

  datatype Flavor<T> = Bounded(ring: R.Ring<T>) | Unbounded(list: L.BlockList<T>)

  // ---- The queue that a flavor stands for ------------------------------------------------------

  datatype Op<+T> = OpPush(item: T) | OpPop

  datatype Answer<+T> = Pushed | Full(rejected: T) | Popped(item: Option<T>)

  /** One operation on a queue of at most `cap` items. */
  function Step<T>(cap: Option<nat>, q: seq<T>, op: Op<T>): (seq<T>, Answer<T>) {
    match op
    case OpPush(item) => if cap == Some(|q|) then (q, Full(item)) else (q + [item], Pushed)
    case OpPop => if q == [] then (q, Popped(None)) else (q[1..], Popped(Some(q[0])))
  }

  /** The answers to a sequence of operations, and the queue at the end. */
  function Play<T>(cap: Option<nat>, q: seq<T>, ops: seq<Op<T>>): (seq<T>, seq<Answer<T>>)
    decreases |ops|
  {
    if ops == [] then (q, [])
    else
      var (q1, a) := Step(cap, q, ops[0]);
      var (q2, rest) := Play(cap, q1, ops[1..]);
      (q2, [a] + rest)
  }

  /** On any run in which a bounded queue never reports full, an unbounded one gives the same answers. */
  lemma {:induction false} NeverFullIsUnbounded<T>(cap: nat, q: seq<T>, ops: seq<Op<T>>)
    requires forall a <- Play(Some(cap), q, ops).1 :: !a.Full?
    ensures Play(Some(cap), q, ops) == Play(None, q, ops)
    decreases |ops|
  {
    if ops != [] {
      var (q1, a) := Step(Some(cap), q, ops[0]);
      assert a in Play(Some(cap), q, ops).1;
      NeverFullIsUnbounded(cap, q1, ops[1..]);
    }
  }

  /** A queue that starts within its capacity stays within it, however it is used. */
  lemma {:induction false} StaysWithin<T>(cap: nat, q: seq<T>, ops: seq<Op<T>>)
    requires |q| <= cap
    ensures |Play(Some(cap), q, ops).0| <= cap
    decreases |ops|
  {
    if ops != [] {
      StaysWithin(cap, Step(Some(cap), q, ops[0]).0, ops[1..]);
    }
  }

  function Pushes<T>(ops: seq<Op<T>>, answers: seq<Answer<T>>): seq<T>
    requires |ops| == |answers|
  {
    if ops == [] then []
    else (if ops[0].OpPush? && answers[0].Pushed? then [ops[0].item] else []) + Pushes(ops[1..], answers[1..])
  }

  function Pops<T>(answers: seq<Answer<T>>): seq<T> {
    if answers == [] then []
    else (if answers[0].Popped? && answers[0].item.Some? then [answers[0].item.value] else []) + Pops(answers[1..])
  }

  /** First in, first out: what was there and what was pushed is what came out and what is left. */
  lemma {:induction false} FirstInFirstOut<T>(cap: Option<nat>, q: seq<T>, ops: seq<Op<T>>)
    ensures |Play(cap, q, ops).1| == |ops|
    ensures q + Pushes(ops, Play(cap, q, ops).1) == Pops(Play(cap, q, ops).1) + Play(cap, q, ops).0
    decreases |ops|
  {
    if ops == [] {
      assert q + [] == [] + q;
    } else {
      var (q1, a) := Step(cap, q, ops[0]);
      var (q2, rest) := Play(cap, q1, ops[1..]);
      FirstInFirstOut(cap, q1, ops[1..]);
      assert ([a] + rest)[1..] == rest;
      var pushed := if ops[0].OpPush? && a.Pushed? then [ops[0].item] else [];
      var popped := if a.Popped? && a.item.Some? then [a.item.value] else [];
      assert q + pushed == popped + q1;
      Regroup(q, pushed, popped, q1, Pushes(ops[1..], rest), Pops(rest), q2);
    }
  }

  lemma Regroup<T>(q: seq<T>, pushed: seq<T>, popped: seq<T>, q1: seq<T>, later: seq<T>, out: seq<T>, q2: seq<T>)
    requires q + pushed == popped + q1 && q1 + later == out + q2
    ensures q + (pushed + later) == (popped + out) + q2
  {
    assert q + (pushed + later) == (q + pushed) + later;
    assert (popped + q1) + later == popped + (q1 + later);
    assert popped + (out + q2) == (popped + out) + q2;
  }

  // ---- The flavors -----------------------------------------------------------------------------

  ghost predicate Valid<T>(f: Flavor<T>)
    reads Objects(f)
  {
    match f
    case Bounded(r) => r.Valid()
    case Unbounded(l) => l.Valid()
  }

  ghost function Objects<T>(f: Flavor<T>): set<object>
    reads match f case Bounded(r) => {r} case Unbounded(l) => {l}
  {
    match f
    case Bounded(r) => {r, r.slots}
    case Unbounded(l) => l.Repr()
  }

  ghost function Queue<T>(f: Flavor<T>): seq<T>
    requires Valid(f)
    reads Objects(f)
  {
    match f
    case Bounded(r) => r.Contents()
    case Unbounded(l) => l.Contents()
  }

  function Cap<T>(f: Flavor<T>): Option<nat> {
    match f
    case Bounded(r) => Some(r.Cap())
    case Unbounded(_) => None
  }

  /** The capacities for which a ring never overflows its indices: all of them, but for zero-sized items. */
  predicate Fits<T>(f: Flavor<T>) {
    f.Bounded? ==> f.ring.Cap() <= R.UsizeSize / 2
  }

  /** The next push computes its index without overflow, or is refused. */
  ghost predicate Pushable<T>(f: Flavor<T>)
    requires Valid(f)
    reads Objects(f)
  {
    f.Bounded? ==> f.ring.IsFull() || f.ring.head + f.ring.len < R.UsizeSize
  }

  lemma FitsIsPushable<T>(f: Flavor<T>)
    requires Valid(f) && Fits(f)
    ensures Pushable(f)
  {
    if f.Bounded? {
      R.RegionBounds(f.ring.slots[..], f.ring.head, f.ring.len);
    }
  }

  /** `len`, `is_empty` and `is_full` are those of the queue. */
  function Len<T>(f: Flavor<T>): (n: nat)
    requires Valid(f)
    reads Objects(f)
    ensures n == |Queue(f)|
  {
    match f
    case Bounded(r) => r.len
    case Unbounded(l) => l.len
  }

  predicate IsEmpty<T>(f: Flavor<T>)
    requires Valid(f)
    reads Objects(f)
    ensures IsEmpty(f) <==> Queue(f) == []
  {
    match f
    case Bounded(r) => r.len == 0
    case Unbounded(l) => l.len == 0
  }

  predicate IsFull<T>(f: Flavor<T>)
    requires Valid(f)
    reads Objects(f)
    ensures IsFull(f) <==> Cap(f) == Some(|Queue(f)|)
  {
    match f
    case Bounded(r) => r.IsFull()
    case Unbounded(_) => false
  }

  method NewBounded<T>(cap: nat) returns (f: Flavor<T>)
    requires 0 < cap < R.UsizeSize
    ensures Valid(f) && fresh(Objects(f)) && Cap(f) == Some(cap) && Queue(f) == []
  {
    var r := new R.Ring<T>(cap);
    f := Bounded(r);
  }

  method NewUnbounded<T>() returns (f: Flavor<T>)
    ensures Valid(f) && fresh(Objects(f)) && Cap(f) == None && Queue(f) == []
  {
    var l := new L.BlockList<T>(BlockSize);
    f := Unbounded(l);
  }

  method TryPush<T>(f: Flavor<T>, item: T) returns (ok: bool)
    requires Valid(f)
    modifies Objects(f)
    ensures fresh(Objects(f) - old(Objects(f)))
    ensures Valid(f) <==> old(Pushable(f))
    ensures old(Pushable(f)) ==>
              (Queue(f), if ok then Pushed else Full(item)) == Step(Cap(f), old(Queue(f)), OpPush(item))
  {
    match f
    case Bounded(r) =>
      ok := r.Push(item);
    case Unbounded(l) =>
      l.Push(item);
      ok := true;
  }

  method Pop<T>(f: Flavor<T>) returns (item: Option<T>)
    requires Valid(f)
    modifies Objects(f)
    ensures Valid(f) && fresh(Objects(f) - old(Objects(f)))
    ensures (Queue(f), Popped(item)) == Step(Cap(f), old(Queue(f)), OpPop)
  {
    match f
    case Bounded(r) =>
      item := r.Pop();
    case Unbounded(l) =>
      ghost var laps;
      item, laps := l.Pop();
  }

  /** Any sequence of operations, on either flavor, is answered as by the queue it stands for. */
  method Replay<T>(f: Flavor<T>, ops: seq<Op<T>>) returns (answers: seq<Answer<T>>)
    requires Valid(f) && Fits(f)
    modifies Objects(f)
    ensures Valid(f) && fresh(Objects(f) - old(Objects(f)))
    ensures (Queue(f), answers) == Play(Cap(f), old(Queue(f)), ops)
  {
    if ops == [] {
      return [];
    }
    var first: Answer<T>;
    match ops[0] {
      case OpPush(item) =>
        FitsIsPushable(f);
        var ok := TryPush(f, item);
        first := if ok then Pushed else Full(item);
      case OpPop =>
        var item := Pop(f);
        first := Popped(item);
    }
    var rest := Replay(f, ops[1..]);
    answers := [first] + rest;
  }
}
