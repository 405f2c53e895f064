/** The segmented queue behind an unbounded channel: a linked list of blocks of `n` slots each. */
module BlockList {
  import opened Common

  /** A slot is written once and read at most once. */
  datatype Cell<+T> = Untouched | Written(value: T) | Read

  // ---- The queue as the live items of each block -----------------------------------------------

  function Flatten<T>(live: seq<seq<T>>): seq<T> {
    if live == [] then [] else live[0] + Flatten(live[1..])
  }

  lemma {:induction false} FlattenConcat<T>(a: seq<seq<T>>, b: seq<seq<T>>)
    ensures Flatten(a + b) == Flatten(a) + Flatten(b)
  {
    if a == [] {
      assert a + b == b;
    } else {
      assert (a + b)[1..] == a[1..] + b;
      FlattenConcat(a[1..], b);
    }
  }

  lemma FlattenNext<T>(live: seq<seq<T>>, i: nat)
    requires i < |live|
    ensures Flatten(live[..i + 1]) == Flatten(live[..i]) + live[i]
  {
    assert live[..i + 1] == live[..i] + [live[i]];
    FlattenConcat(live[..i], [live[i]]);
    assert [live[i]][1..] == [];
  }

  /** An item written to the last block joins the end of the queue. */
  lemma FlattenGrowLast<T>(live: seq<seq<T>>, item: T)
    requires live != []
    ensures Flatten(live[|live| - 1 := live[|live| - 1] + [item]]) == Flatten(live) + [item]
  {
    var front, last := live[..|live| - 1], live[|live| - 1];
    assert live == front + [last] && live[|live| - 1 := last + [item]] == front + [last + [item]];
    FlattenConcat(front, [last]);
    FlattenConcat(front, [last + [item]]);
    assert [last][1..] == [] && [last + [item]][1..] == [];
  }

  /** So does an item that starts a new block. */
  lemma FlattenNewBlock<T>(live: seq<seq<T>>, item: T)
    ensures Flatten(live + [[item]]) == Flatten(live) + [item]
  {
    FlattenConcat(live, [[item]]);
    assert [[item]][1..] == [];
  }

  /** The item read from the first block is the oldest. */
  lemma FlattenShrinkFirst<T>(live: seq<seq<T>>)
    requires live != [] && live[0] != []
    ensures var rest := live[0 := live[0][1..]];
            Flatten(live) == [live[0][0]] + Flatten(rest) && |Flatten(rest)| == |Flatten(live)| - 1
  {
    var rest := live[0 := live[0][1..]];
    assert rest[1..] == live[1..];
    assert live[0] == [live[0][0]] + rest[0];
  }

  lemma FlattenNone<T>(live: seq<seq<T>>)
    requires live == []
    ensures Flatten(live) == []
  {
  }

  lemma FlattenOne<T>(live: seq<seq<T>>)
    requires |live| == 1
    ensures Flatten(live) == live[0]
  {
    assert live[1..] == [];
  }

  /** Every block but the first and the last is full, and every block but the first holds an item. */
  ghost predicate Packed<T>(live: seq<seq<T>>, n: nat) {
    && (forall i | 0 < i < |live| - 1 :: |live[i]| == n)
    && (forall i | 0 < i < |live| :: |live[i]| > 0)
  }

  /** Memory tracks use: `k` blocks are in use only if more than `(k - 2) * n` items are queued. */
  lemma MemoryTracksUse<T>(live: seq<seq<T>>, n: nat)
    requires Packed(live, n) && |live| >= 2
    ensures (|live| - 2) * n < |Flatten(live)|
  {
    FullBlocks(live[1..], n);
  }

  /** From the second block on, all blocks but the last are full. */
  lemma {:induction false} FullBlocks<T>(live: seq<seq<T>>, n: nat)
    requires |live| >= 1 && |live[|live| - 1]| > 0 && forall i | 0 <= i < |live| - 1 :: |live[i]| == n
    ensures (|live| - 1) * n < |Flatten(live)|
  {
    if |live| == 1 {
      assert live[1..] == [];
    } else {
      FullBlocks(live[1..], n);
      assert (|live| - 1) * n == n + (|live| - 2) * n;
    }
  }

  // ---- Blocks ----------------------------------------------------------------------------------

  /** The slots below `begin` were read, those below `end` hold `items`, the others are untouched. */
  ghost predicate Holds<T>(values: seq<Cell<T>>, begin: nat, end: nat, items: seq<T>) {
    && begin <= end <= |values|
    && |items| == end - begin
    && (forall i | 0 <= i < begin :: values[i] == Read)
    && (forall i | begin <= i < end :: values[i] == Written(items[i - begin]))
    && (forall i | end <= i < |values| :: values[i] == Untouched)
  }

  lemma HoldsCount<T>(values: seq<Cell<T>>, begin: nat, end: nat, items: seq<T>)
    requires Holds(values, begin, end, items)
    ensures |items| == end - begin && end <= |values|
  {
  }

  /** The slots are stored inline, so they are a field of the block; `serial` is the order of allocation. */
  class Block<T> {
    var next: Block?<T>
    var values: seq<Cell<T>>
    var begin: nat
    var end: nat
    ghost const serial: nat

    /** `alloc`. */
    constructor (n: nat, ghost serial: nat)
      ensures next == null && |values| == n && begin == 0 && end == 0 && this.serial == serial
      ensures Holds(values, begin, end, [])
    {
      next, values, begin, end := null, seq(n, _ => Untouched), 0, 0;
      this.serial := serial;
    }

    /** Writes an untouched slot. */
    method Write(item: T, ghost items: seq<T>)
      requires Holds(values, begin, end, items) && end < |values|
      modifies this`values, this`end
      ensures Holds(values, begin, end, items + [item]) && end == old(end) + 1 && |values| == old(|values|)
    {
      values := values[end := Written(item)];
      end := end + 1;
    }

    /** Moves the item out of a written slot. */
    method Take(ghost items: seq<T>) returns (item: T)
      requires Holds(values, begin, end, items) && begin < end
      modifies this`values, this`begin
      ensures item == items[0] && Holds(values, begin, end, items[1..])
      ensures begin == old(begin) + 1 && |values| == old(|values|)
    {
      item := values[begin].value;
      values := values[begin := Read];
      begin := begin + 1;
    }

    /** `Drop`: the items not yet read, in order. */
    method Release(ghost items: seq<T>) returns (dropped: seq<T>)
      requires Holds(values, begin, end, items)
      modifies this`values
      ensures dropped == items
      ensures forall i | 0 <= i < |values| :: !values[i].Written?
    {
      dropped := [];
      for i := begin to end
        invariant dropped == items[..i - begin] && |values| == old(|values|)
        invariant forall j | 0 <= j < i :: values[j] == Read
        invariant forall j | i <= j < |values| :: values[j] == old(values)[j]
      {
        dropped := dropped + [values[i].value];
        values := values[i := Read];
      }
    }
  }

  /** Blocks linked one to the next, in the order in which they were allocated. */
  ghost predicate Chain<T>(blocks: seq<Block<T>>)
    reads Front(blocks)`next
  {
    && (forall i {:trigger blocks[i].serial} | 0 <= i < |blocks| :: blocks[i].serial == blocks[0].serial + i)
    && (forall i {:trigger blocks[i].next} | 0 <= i < |blocks| - 1 :: blocks[i].next == blocks[i + 1])
  }

  ghost function Front<T>(blocks: seq<Block<T>>): (front: seq<Block<T>>)
    ensures forall i | 0 <= i < |blocks| - 1 :: blocks[i] in front
  {
    if blocks == [] then [] else blocks[..|blocks| - 1]
  }

  /** No block is linked twice. */
  lemma Distinct<T>(blocks: seq<Block<T>>, i: nat)
    requires Chain(blocks) && i < |blocks|
    ensures forall j | 0 <= j < |blocks| && j != i :: blocks[j] != blocks[i]
    ensures i == |blocks| - 1 ==> blocks[i] !in Front(blocks)
  {
    assert forall j | 0 <= j < |blocks| :: blocks[j].serial == blocks[0].serial + j;
  }

  lemma ChainSnoc<T>(blocks: seq<Block<T>>, block: Block<T>)
    requires Chain(blocks) && blocks != [] && blocks[|blocks| - 1].next == block
    requires block.serial == blocks[|blocks| - 1].serial + 1
    ensures Chain(blocks + [block])
  {
    assert blocks[|blocks| - 1].serial == blocks[0].serial + |blocks| - 1;
  }

  lemma ChainNext<T>(blocks: seq<Block<T>>, i: nat)
    requires Chain(blocks) && i < |blocks|
    ensures i + 1 < |blocks| ==> blocks[i].next == blocks[i + 1]
  {
  }

  lemma ChainTail<T>(blocks: seq<Block<T>>)
    requires Chain(blocks) && |blocks| > 1
    ensures Chain(blocks[1..]) && blocks[0].next == blocks[1] && blocks[1].serial == blocks[0].serial + 1
  {
  }

  ghost predicate BlockOk<T>(n: nat, b: Block<T>, items: seq<T>)
    reads b`values, b`begin, b`end
  {
    |b.values| == n && Holds(b.values, b.begin, b.end, items)
  }

  /** All blocks but the last are filled up, and all but the first are unread and not empty. */
  ghost predicate Filled<T>(n: nat, blocks: seq<Block<T>>, live: seq<seq<T>>)
    reads blocks`values, blocks`begin, blocks`end
  {
    && |live| == |blocks|
    && (forall i | 0 <= i < |blocks| :: BlockOk(n, blocks[i], live[i]))
    && (forall i | 0 <= i < |blocks| - 1 :: blocks[i].end == n)
    && (forall i | 0 < i < |blocks| :: blocks[i].begin == 0 && blocks[i].end > 0)
  }

  ghost predicate Full<T>(n: nat, blocks: seq<Block<T>>)
    reads blocks`end
  {
    forall i | 0 <= i < |blocks| :: blocks[i].end == n
  }

  lemma FilledFront<T>(n: nat, blocks: seq<Block<T>>, live: seq<seq<T>>)
    requires Filled(n, blocks, live) && blocks != []
    ensures Filled(n, blocks[..|blocks| - 1], live[..|blocks| - 1]) && Full(n, blocks[..|blocks| - 1])
    ensures BlockOk(n, blocks[|blocks| - 1], live[|blocks| - 1])
    ensures blocks[|blocks| - 1].end >= n ==> Full(n, blocks)
    ensures |blocks| > 1 ==> blocks[|blocks| - 1].begin == 0
  {
    assert BlockOk(n, blocks[|blocks| - 1], live[|blocks| - 1]);
  }

  /** Full blocks, and one more that starts unread, unless it is the only one. */
  lemma FilledSnoc<T>(n: nat, blocks: seq<Block<T>>, live: seq<seq<T>>, block: Block<T>, items: seq<T>)
    requires Filled(n, blocks, live) && Full(n, blocks) && BlockOk(n, block, items)
    requires blocks != [] ==> block.begin == 0 && block.end > 0
    ensures Filled(n, blocks + [block], live + [items])
  {
  }

  lemma Unreleased<T>(n: nat, blocks: seq<Block<T>>, live: seq<seq<T>>)
    requires Filled(n, blocks, live)
    ensures |live| == |blocks| && forall i | 0 <= i < |blocks| :: BlockOk(n, blocks[i], live[i])
  {
  }

  /** Something has been written to the last block. */
  lemma FilledLast<T>(n: nat, blocks: seq<Block<T>>, live: seq<seq<T>>, items: seq<T>)
    requires blocks != [] && |live| == |blocks|
    requires var last := |blocks| - 1;
             && Filled(n, blocks[..last], live[..last]) && Full(n, blocks[..last])
             && BlockOk(n, blocks[last], items) && blocks[last].end > 0 && (last > 0 ==> blocks[last].begin == 0)
    ensures Filled(n, blocks, live[|blocks| - 1 := items])
  {
    var last := |blocks| - 1;
    FilledSnoc(n, blocks[..last], live[..last], blocks[last], items);
    assert blocks[..last] + [blocks[last]] == blocks;
    assert live[..last] + [items] == live[last := items];
  }

  lemma FilledTail<T>(n: nat, blocks: seq<Block<T>>, live: seq<seq<T>>)
    requires Filled(n, blocks, live) && blocks != []
    ensures Filled(n, blocks[1..], live[1..])
  {
  }

  ghost function BlockSet<T>(blocks: seq<Block<T>>): set<Block<T>> {
    set b <- blocks
  }

  lemma BlockSetNext<T>(blocks: seq<Block<T>>, i: nat)
    requires i < |blocks|
    ensures BlockSet(blocks[..i + 1]) == BlockSet(blocks[..i]) + {blocks[i]}
  {
    assert blocks[..i + 1] == blocks[..i] + [blocks[i]];
  }

  lemma BlockSetNone<T>(blocks: seq<Block<T>>)
    requires blocks == []
    ensures BlockSet(blocks) == {}
  {
  }

  class BlockList<T> {
    const n: nat
    var head: Block<T>
    var tail: Block<T>
    var len: nat

    /** The linked blocks, what each still holds, and the blocks returned to the allocator. */
    ghost var spine: seq<Block<T>>
    ghost var live: seq<seq<T>>
    ghost var freed: set<Block<T>>

    /** The linked blocks are the spine; those freed came before. */
    ghost predicate Linked()
      reads this, spine`next
    {
      && spine != [] && head == spine[0] && tail == spine[|spine| - 1] && tail.next == null
      && Chain(spine)
      && (forall b <- freed :: b.serial < head.serial)
    }

    ghost predicate Valid()
      reads this, spine
    {
      0 < n && Linked() && Filled(n, spine, live) && len == |Contents()|
    }

    /** The objects that make up the list. */
    ghost function Repr(): (r: set<object>)
      reads this
      ensures this in r && forall b <- spine :: b in r
    {
      {this} + set b <- spine :: b as object
    }

    ghost function Contents(): seq<T>
      reads this
    {
      Flatten(live)
    }

    constructor (n: nat)
      requires 0 < n
      ensures Valid() && fresh(Repr()) && this.n == n && Contents() == [] && |spine| == 1 && freed == {}
    {
      var first := new Block<T>(n, 0);
      this.n := n;
      head, tail, len := first, first, 0;
      spine, live, freed := [first], [[]], {};
    }

    /** A block is returned to the allocator once. */
    ghost method Free(b: Block<T>)
      requires b !in freed
      modifies this`freed
      ensures freed == old(freed) + {b}
    {
      freed := freed + {b};
    }

    /** Memory tracks use, for the blocks that are linked. */
    lemma BlocksBounded()
      requires Valid() && |spine| >= 2
      ensures (|spine| - 2) * n < len
    {
      hide Flatten, Linked;
      forall i | 0 < i < |live| ensures |live[i]| == spine[i].end && live[i] != [] {
        assert BlockOk(n, spine[i], live[i]);
      }
      MemoryTracksUse(live, n);
    }

    /** Every block that can be reached from the list is allocated: following `next` never leaves the spine. */
    lemma NoneFreed()
      requires Valid()
      ensures head !in freed && tail !in freed
      ensures forall b <- spine :: b !in freed && (b.next != null ==> b.next in spine)
    {
      hide Filled;
      forall b <- spine ensures b !in freed && (b.next != null ==> b.next in spine) {
        var i :| 0 <= i < |spine| && spine[i] == b;
        assert spine[i].serial == head.serial + i;
        assert i + 1 < |spine| ==> spine[i].next == spine[i + 1];
      }
    }

    method PushInTail(item: T)
      requires Valid() && tail.end < n
      modifies this`len, this`live, tail`values, tail`end
      ensures Valid() && Contents() == old(Contents()) + [item]
    {
      hide Chain, Filled, Full, Holds, Flatten;
      Unreleased(n, spine, live);
      ghost var last := |spine| - 1;
      Distinct(spine, last);
      FilledFront(n, spine, live);
      FlattenGrowLast(live, item);
      tail.Write(item, live[last]);
      FilledLast(n, spine, live, live[last] + [item]);
      live := live[last := live[last] + [item]];
      len := len + 1;
    }

    /** A fresh block that starts with this item. */
    method StartBlock(item: T, ghost serial: nat) returns (block: Block<T>)
      requires 0 < n
      ensures fresh(block) && block.next == null && block.serial == serial
      ensures BlockOk(n, block, [item]) && block.begin == 0 && block.end == 1
    {
      hide Holds;
      block := new Block<T>(n, serial);
      block.Write(item, []);
      assert [] + [item] == [item];
    }

    method PushInNewBlock(item: T)
      requires Valid() && tail.end >= n
      modifies this`tail, this`len, this`spine, this`live, tail`next
      ensures Valid() && Contents() == old(Contents()) + [item]
      ensures spine == old(spine) + [tail] && fresh(tail)
    {
      hide Chain, Filled, Full, Holds, Flatten;
      FilledFront(n, spine, live);
      var block := StartBlock(item, tail.serial + 1);
      Append(block, item);
    }

    /** Links a block that holds one item behind a list whose blocks are all full. */
    method Append(block: Block<T>, ghost item: T)
      requires Valid() && Full(n, spine) && block !in spine
      requires BlockOk(n, block, [item]) && block.begin == 0 && block.end == 1
      requires block.next == null && block.serial == tail.serial + 1
      modifies this`tail, this`len, this`spine, this`live, tail`next
      ensures Valid() && Contents() == old(Contents()) + [item]
      ensures spine == old(spine) + [block] && tail == block
    {
      hide Chain, Filled, Full, Holds, Flatten;
      Distinct(spine, |spine| - 1);
      FlattenNewBlock(live, item);
      tail.next := block;
      ChainSnoc(spine, block);
      FilledSnoc(n, spine, live, block, [item]);
      tail := block;
      spine, live := spine + [block], live + [[item]];
      len := len + 1;
    }

    /** Appends an item, in the last block if it has room, in a new one otherwise. */
    method Push(item: T)
      requires Valid()
      modifies this, spine
      ensures Valid() && fresh(Repr() - old(Repr()))
      ensures Contents() == old(Contents()) + [item]
      ensures freed == old(freed) && old(spine) <= spine && |spine| <= old(|spine|) + 1
    {
      hide Linked, Filled, Chain, Flatten;
      EndsLinked();
      if tail.end < n {
        PushInTail(item);
      } else {
        PushInNewBlock(item);
        assert forall b <- spine :: b in old(spine) || b == tail;
      }
    }

    lemma EndsLinked()
      requires Linked()
      ensures head in spine && tail in spine
    {
    }

    /** The first block is used up: goes on to the next one and frees it. */
    method Advance()
      requires Valid() && head.begin == head.end && head != tail
      modifies this
      ensures Valid() && len == old(len)
      ensures |old(spine)| > 1 && spine == old(spine)[1..] && live == old(live)[1..] && Contents() == old(Contents())
      ensures freed == old(freed) + {old(head)} && head == old(spine)[1]
    {
      hide Holds;
      var used := head;
      assert |spine| > 1;
      ChainTail(spine);
      FilledTail(n, spine, live);
      HoldsCount(head.values, head.begin, head.end, live[0]);
      head := head.next;
      spine, live := spine[1..], live[1..];
      Free(used);
    }

    /** Reads the oldest item out of the first block. */
    method TakeFirst() returns (item: T)
      requires Valid() && head.begin < head.end
      modifies this`len, this`live, head
      ensures Valid()
      ensures old(Contents()) != [] && item == old(Contents())[0] && Contents() == old(Contents())[1..]
    {
      hide Holds, Flatten;
      Distinct(spine, 0);
      assert BlockOk(n, head, live[0]);
      HoldsCount(head.values, head.begin, head.end, live[0]);
      FlattenShrinkFirst(live);
      item := head.Take(live[0]);
      live := live[0 := live[0][1..]];
      len := len - 1;
    }

    /** A single block that is used up holds nothing, and any other block holds something. */
    lemma UsedUp()
      requires Valid() && head.begin >= head.end
      ensures head == tail ==> Contents() == []
      ensures head != tail ==> |spine| > 1 && spine[1].begin < spine[1].end && head.begin == head.end
    {
      hide Flatten;
      Distinct(spine, 0);
      assert BlockOk(n, head, live[0]);
      if head == tail {
        FlattenOne(live);
      }
    }

    /** Removes the oldest item, in at most two laps and freeing at most one block. */
    method Pop() returns (item: Option<T>, ghost laps: nat)
      requires Valid()
      modifies this, spine
      ensures Valid() && Repr() <= old(Repr())
      ensures if old(Contents()) == [] then item.None? && Contents() == []
              else item == Some(old(Contents())[0]) && Contents() == old(Contents())[1..]
      ensures if laps == 2 then freed == old(freed) + {old(head)} && spine == old(spine)[1..]
              else laps == 1 && freed == old(freed) && spine == old(spine)
    {
      hide Linked, Filled, Chain, Flatten;
      laps := 0;
      while true
        invariant Valid() && Contents() == old(Contents()) && laps <= 1
        invariant if laps == 1 then
                    && |old(spine)| > 1 && head.begin < head.end
                    && freed == old(freed) + {old(head)} && spine == old(spine)[1..]
                  else freed == old(freed) && spine == old(spine) && head == old(head)
        invariant forall b <- spine :: b in old(spine)
        decreases 1 - laps
      {
        laps := laps + 1;
        EndsLinked();
        if head.begin < head.end {
          var x := TakeFirst();
          return Some(x), laps;
        }
        UsedUp();
        if head == tail {
          return None, laps;
        }
        Advance();
      }
    }

    /** `Drop`: walks the chain, releases what each block still holds, and frees every block once. */
    method Drop() returns (dropped: seq<T>)
      requires Valid()
      modifies this`freed, spine`values
      ensures dropped == old(Contents())
      ensures freed == old(freed) + BlockSet(old(spine))
    {
      hide Filled, Holds, Flatten, BlockSet;
      dropped := [];
      var cur: Block?<T> := head;
      ghost var i := 0;
      FlattenNone(live[..0]);
      BlockSetNone(spine[..0]);
      Unreleased(n, spine, live);
      NoneFreed();
      while cur != null
        invariant 0 <= i <= |spine|
        invariant cur == if i < |spine| then spine[i] else null
        invariant dropped == Flatten(live[..i])
        invariant forall j | i <= j < |spine| :: BlockOk(n, spine[j], live[j])
        invariant forall j | i <= j < |spine| :: spine[j] !in freed
        invariant freed == old(freed) + BlockSet(spine[..i])
        modifies this`freed, spine`values
        decreases |spine| - i
      {
        assert cur in spine;
        Distinct(spine, i);
        ChainNext(spine, i);
        BlockSetNext(spine, i);
        FlattenNext(live, i);
        var next := cur.next;
        var items := cur.Release(live[i]);
        dropped := dropped + items;
        Free(cur);
        cur := next;
        i := i + 1;
      }
      assert live[..i] == live && spine[..i] == spine;
    }
  }
}
