/** The ring buffer behind a bounded channel: a fixed array used through indices modulo its length. */
module Ring {
  import opened Common

  /** What a `MaybeUninit` slot holds. An item that has been read out has been moved: its slot holds nothing. */
  datatype Slot<+T> = Uninit | Init(value: T)

  /** One more than the largest `usize`. */
  const UsizeSize: nat := 0x1_0000_0000_0000_0000

  /** `usize` addition in a build without overflow checks. */
  function WrappingAdd(a: nat, b: nat): nat {
    (a + b) % UsizeSize
  }

  /** The slot `k` places after `head` in a ring of `cap` slots. */
  function Nth(head: nat, k: nat, cap: nat): (i: nat)
    requires head < cap && k <= cap
    ensures i < cap
  {
    if head + k < cap then head + k else head + k - cap
  }

  /** How many places slot `i` is after `head`: `Nth` backwards. */
  function Distance(head: nat, i: nat, cap: nat): (k: nat)
    requires head < cap && i < cap
    ensures k < cap && Nth(head, k, cap) == i
  {
    if head <= i then i - head else i + cap - head
  }

  lemma NthIsRemainder(x: nat, cap: nat)
    requires 0 < cap && x < 2 * cap
    ensures x % cap == if x < cap then x else x - cap
  {
    if x >= cap {
      assert x == cap + (x - cap);
      RemainderShift(x - cap, cap);
    }
  }

  lemma RemainderShift(y: nat, cap: nat)
    requires y < cap
    ensures (cap + y) % cap == y
  {
    var q := (cap + y) / cap;
    assert cap * q + (cap + y) % cap == cap + y;
    assert q >= 2 ==> cap * q >= cap * 2;
    assert q == 0 ==> cap * q == 0;
  }

  /** The index that `push` writes to. */
  function TailIndex(head: nat, len: nat, cap: nat): nat
    requires 0 < cap
  {
    WrappingAdd(head, len) % cap
  }

  /** The sum that `push` forms is the right one exactly when it fits in a `usize`. */
  lemma TailIsExact(head: nat, len: nat, cap: nat)
    requires head < cap < UsizeSize && len < cap
    ensures TailIndex(head, len, cap) == Nth(head, len, cap) <==> head + len < UsizeSize
  {
    if head + len < UsizeSize {
      NthIsRemainder(head + len, cap);
    } else {
      NthIsRemainder(head + len, UsizeSize);
      NthIsRemainder(head + len - UsizeSize, cap);
    }
  }

  /** When it does not fit, `push` writes to a slot among the first `len`. */
  lemma OverflowHits(head: nat, len: nat, cap: nat)
    requires head < cap < UsizeSize && len < cap && head + len >= UsizeSize
    ensures TailIndex(head, len, cap) < cap && Distance(head, TailIndex(head, len, cap), cap) < len
  {
    NthIsRemainder(head + len, UsizeSize);
    NthIsRemainder(head + len - UsizeSize, cap);
  }

  /** So every push into a ring that is not full is right if and only if the capacity is at most 2^63. */
  lemma PushIsExactIff(cap: nat)
    requires 0 < cap < UsizeSize
    ensures (forall head: nat, len: nat | head < cap && len < cap ::
               TailIndex(head, len, cap) == Nth(head, len, cap))
            <==> cap <= UsizeSize / 2
  {
    if cap <= UsizeSize / 2 {
      forall head: nat, len: nat | head < cap && len < cap
        ensures TailIndex(head, len, cap) == Nth(head, len, cap)
      {
        TailIsExact(head, len, cap);
      }
    } else {
      TailIsExact(cap - 1, cap - 1, cap);
    }
  }

  // ---- The ring as a sequence of slots ---------------------------------------------------------

  /** Exactly the slots `[head, head + len)`, modulo the capacity, are initialised. */
  ghost predicate RegionOk<T>(slots: seq<Slot<T>>, head: nat, len: nat) {
    && head < |slots|
    && len <= |slots|
    && forall i | 0 <= i < |slots| :: slots[i].Init? <==> Distance(head, i, |slots|) < len
  }

  /** The items, oldest first. */
  ghost function Items<T>(slots: seq<Slot<T>>, head: nat, len: nat): (s: seq<T>)
    requires RegionOk(slots, head, len)
    ensures |s| == len
    ensures forall k | 0 <= k < len :: slots[Nth(head, k, |slots|)] == Init(s[k])
  {
    seq(len, (k: nat) requires k < len =>
      assert Distance(head, Nth(head, k, |slots|), |slots|) == k;
      slots[Nth(head, k, |slots|)].value)
  }

  /** Writing behind the last item, into a slot that is not initialised, appends. */
  lemma WriteAppends<T>(slots: seq<Slot<T>>, head: nat, len: nat, item: T)
    requires RegionOk(slots, head, len) && len < |slots|
    ensures var tail := Nth(head, len, |slots|);
            var after := slots[tail := Init(item)];
            && slots[tail].Uninit?
            && RegionOk(after, head, len + 1)
            && Items(after, head, len + 1) == Items(slots, head, len) + [item]
  {
    var tail := Nth(head, len, |slots|);
    var after := slots[tail := Init(item)];
    forall i | 0 <= i < |slots| ensures after[i].Init? <==> Distance(head, i, |slots|) < len + 1 {
    }
    forall k | 0 <= k < len ensures Items(after, head, len + 1)[k] == Items(slots, head, len)[k] {
      assert Nth(head, k, |slots|) != tail;
    }
  }

  /** Moving out the item at `head` leaves the others where they are. */
  lemma ReadRemoves<T>(slots: seq<Slot<T>>, head: nat, len: nat)
    requires RegionOk(slots, head, len) && len > 0
    ensures var next := Nth(head, 1, |slots|);
            var after := slots[head := Uninit];
            && slots[head] == Init(Items(slots, head, len)[0])
            && RegionOk(after, next, len - 1)
            && Items(after, next, len - 1) == Items(slots, head, len)[1..]
  {
    var next := Nth(head, 1, |slots|);
    var after := slots[head := Uninit];
    assert Nth(head, 0, |slots|) == head;
    forall i | 0 <= i < |slots| ensures after[i].Init? <==> Distance(next, i, |slots|) < len - 1 {
      assert i != head ==> Distance(head, i, |slots|) == Distance(next, i, |slots|) + 1;
    }
    var rest := Items(slots, head, len)[1..];
    forall k | 0 <= k < len - 1 ensures Items(after, next, len - 1)[k] == rest[k] {
      assert Nth(next, k, |slots|) == Nth(head, k + 1, |slots|);
    }
  }

  lemma RegionBounds<T>(slots: seq<Slot<T>>, head: nat, len: nat)
    requires RegionOk(slots, head, len)
    ensures head < |slots| && len <= |slots|
  {
  }

  /** `pop` moves `head` to the next slot, around the end of the ring. */
  lemma NextHead(head: nat, cap: nat)
    requires head < cap
    ensures (head + 1) % cap == Nth(head, 1, cap)
  {
    NthIsRemainder(head + 1, cap);
  }

  /** When `head + len` overflows, `push` writes to a slot in use. */
  lemma OverflowHitsItem<T>(slots: seq<Slot<T>>, head: nat, len: nat)
    requires RegionOk(slots, head, len) && len < |slots| < UsizeSize && head + len >= UsizeSize
    ensures TailIndex(head, len, |slots|) < |slots| && slots[TailIndex(head, len, |slots|)].Init?
  {
    OverflowHits(head, len, |slots|);
  }

  lemma NoneInitialised<T>(slots: seq<Slot<T>>, head: nat)
    requires RegionOk(slots, head, 0)
    ensures forall i | 0 <= i < |slots| :: slots[i].Uninit?
  {
  }

  /** What is left of the items when `k` of them have been taken out. */
  ghost function Rest<T>(all: seq<T>, k: nat): (r: seq<T>)
    ensures |r| == if k <= |all| then |all| - k else 0
  {
    if k <= |all| then all[k..] else []
  }

  lemma RestAll<T>(all: seq<T>)
    ensures Rest(all, 0) == all && (|all| == 0 ==> all == [])
  {
  }

  lemma RestNext<T>(all: seq<T>, k: nat)
    ensures k < |all| ==> Rest(all, k)[0] == all[k] && Rest(all, k)[1..] == Rest(all, k + 1)
    ensures k < |all| ==> all[..k] + [all[k]] == all[..k + 1]
    ensures k == |all| ==> all[..k] == all
  {
  }

  /** Writing anywhere else than behind the last item breaks the ring. */
  lemma WriteElsewhere<T>(slots: seq<Slot<T>>, head: nat, len: nat, i: nat, item: T)
    requires RegionOk(slots, head, len) && len < |slots| && i < |slots| && i != Nth(head, len, |slots|)
    ensures !RegionOk(slots[i := Init(item)], head, len + 1)
  {
    var tail := Nth(head, len, |slots|);
    assert Distance(head, tail, |slots|) == len;
    assert slots[i := Init(item)][tail].Uninit?;
  }

  class Ring<T> {
    const slots: array<Slot<T>>
    var head: nat
    var len: nat

    ghost predicate Valid()
      reads this, slots
    {
      slots.Length < UsizeSize && RegionOk(slots[..], head, len)
    }

    ghost function Contents(): (s: seq<T>)
      requires Valid()
      reads this, slots
      ensures |s| == len
    {
      Items(slots[..], head, len)
    }

    /** `with_capacity`. */
    constructor (cap: nat)
      requires 0 < cap < UsizeSize
      ensures Valid() && fresh(slots) && Cap() == cap && Contents() == [] && head == 0
    {
      slots := new Slot<T>[cap](_ => Uninit);
      head, len := 0, 0;
    }

    function Cap(): nat {
      slots.Length
    }

    predicate IsFull()
      reads this
    {
      len == slots.Length
    }

    /**
    Appends an item unless the ring is full. When `head + len` overflows, which a capacity of at
    most 2^63 rules out, the item lands on a slot that is still in use.
     */
    method Push(item: T) returns (ok: bool)
      requires Valid()
      modifies this`len, slots
      ensures ok == (old(len) < Cap())
      ensures len == old(len) + if ok then 1 else 0
      ensures !ok ==> Valid() && Contents() == old(Contents())
      ensures ok && old(head) + old(len) < UsizeSize ==> Valid() && Contents() == old(Contents()) + [item]
      ensures ok && old(head) + old(len) >= UsizeSize ==>
                !Valid() && old(slots[TailIndex(head, len, slots.Length)]).Init?
    {
      hide RegionOk, Items, Nth, TailIndex, Distance;
      RegionBounds(slots[..], head, len);
      if IsFull() {
        return false;
      }
      var tail := TailIndex(head, len, slots.Length);
      TailIsExact(head, len, slots.Length);
      if head + len < UsizeSize {
        WriteAppends(slots[..], head, len, item);
      } else {
        OverflowHitsItem(slots[..], head, len);
        WriteElsewhere(slots[..], head, len, tail, item);
      }
      slots[tail] := Init(item);
      len := len + 1;
      ok := true;
    }

    /** Removes the oldest item; the slot it reads is initialised. */
    method Pop() returns (item: Option<T>)
      requires Valid()
      modifies this`head, this`len, slots
      ensures Valid()
      ensures if old(len) == 0 then item.None? && Contents() == old(Contents()) && head == old(head)
              else
                && item == Some(old(Contents())[0]) && Contents() == old(Contents())[1..]
                && head == Nth(old(head), 1, Cap())
    {
      hide RegionOk, Items, Nth;
      RegionBounds(slots[..], head, len);
      if len == 0 {
        return None;
      }
      ReadRemoves(slots[..], head, len);
      NextHead(head, slots.Length);
      item := Some(slots[head].value);
      slots[head] := Uninit;
      head := (head + 1) % slots.Length;
      len := len - 1;
    }

    /** Drops every item, oldest first; no slot is left initialised. */
    method Clear() returns (dropped: seq<T>)
      requires Valid()
      modifies this`head, this`len, slots
      ensures Valid() && Contents() == [] && dropped == old(Contents())
      ensures forall i | 0 <= i < slots.Length :: slots[i].Uninit?
    {
      hide RegionOk, Items, Nth, Distance, Rest;
      dropped := [];
      ghost var all := Contents();
      RestAll(all);
      var item := Pop();
      RestNext(all, 0);
      while item.Some?
        invariant Valid() && |dropped| <= |all| && dropped == all[..|dropped|]
        invariant if item.None? then |dropped| == |all| && len == 0
                  else |dropped| < |all| && item.value == all[|dropped|] && Contents() == Rest(all, |dropped| + 1)
        decreases item.Some?, len
      {
        dropped := dropped + [item.value];
        RestNext(all, |dropped|);
        item := Pop();
      }
      RestAll(Contents());
      NoneInitialised(slots[..], head);
    }
  }

  /**
  The condition of `PushIsExactIff` is not only sufficient for a ring in use: above it, pushing and
  popping alone bring a new ring to where the next push overflows. (Only a ring of zero-sized items
  can be that long.)
   */
  method ReachOverflow<T>(cap: nat, item: T) returns (ring: Ring<T>)
    requires UsizeSize / 2 < cap < UsizeSize
    ensures fresh(ring) && fresh(ring.slots) && ring.Cap() == cap
    ensures ring.Valid() && !ring.IsFull() && ring.head + ring.len >= UsizeSize
  {
    hide RegionOk, Items;
    ring := new Ring<T>(cap);
    while ring.head < cap - 1
      invariant fresh(ring) && fresh(ring.slots) && ring.Cap() == cap && ring.Valid()
      invariant ring.len == 0 && ring.head < cap
      decreases cap - ring.head
    {
      var ok := ring.Push(item);
      var popped := ring.Pop();
    }
    while ring.head + ring.len < UsizeSize
      invariant fresh(ring) && fresh(ring.slots) && ring.Cap() == cap && ring.Valid()
      invariant ring.head == cap - 1 && ring.head + ring.len <= UsizeSize
      decreases UsizeSize - ring.len
    {
      var ok := ring.Push(item);
    }
  }
}
