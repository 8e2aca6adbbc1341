/**
 The FIFO of a pipe: a block deque that is pushed at its left end and popped at its right end
 (src/buffer.c, default dynamic configuration).
 */
module Fifo {
  import opened Arithmetic
  import opened BlockChain
  import opened Buffers
  import opened FifoShape

  type Block = array<Buffer>

  class Fifo {
    const policy: Policy
    var blocks: array<array?<Buffer>> // the block vector
    var n: nat                        // claimed blocks, at the right end of the vector
    var size: nat
    var f: nat                        // slot of the newest element

    ghost var chain: seq<Block>       // the claimed blocks from left to right
    ghost var rows: seq<seq<Buffer>>  // their contents
    ghost var queue: seq<Buffer>      // what the deque stands for, oldest first
    ghost var claimed: set<Block>     // every block the allocator ever handed out
    ghost var moved: nat              // elements copied by right shifts so far

    ghost function Repr(): set<object>
      reads this`blocks, this`claimed
    {
      {this, blocks} + claimed
    }

    ghost function Shape(): Shape
      reads this`blocks, this`n, this`f, this`size
    {
      FifoShape.Shape.Shape(n, blocks.Length, f, size)
    }

    /** The vector ends with the chain: distinct blocks, all those ever handed out. */
    ghost predicate Aligned()
      reads this`blocks, this`n, this`chain, this`claimed, blocks
    {
      && |chain| == n <= blocks.Length
      && (forall i | 0 <= i < n :: blocks[blocks.Length - n + i] == chain[i])
      && (forall i, j | 0 <= i < j < n :: chain[i] != chain[j])
      && claimed == Elements(chain)
    }

    ghost predicate Mirrored()
      reads this`chain, this`rows, chain
    {
      && policy.b > 0
      && |rows| == |chain|
      && (forall i | 0 <= i < |chain| :: chain[i].Length == policy.b && chain[i][..] == rows[i])
    }

    ghost predicate Valid()
      reads Repr()
    {
      && policy.Valid()
      && Aligned()
      && Mirrored()
      && WellShaped(policy, Shape())
      && |queue| == size
      && Holds(Flat(rows), f, queue)
    }

    constructor Init(policy: Policy)
      requires policy.Valid()
      ensures Valid() && fresh(Repr())
      ensures this.policy == policy
      ensures queue == [] && Shape() == Fresh(policy) && moved == 0
    {
      this.policy := policy;
      var vec := new array?<Buffer>[1];
      var block := new Buffer[policy.b];
      blocks := vec;
      n := 1;
      size := 0;
      f := policy.b;
      chain := [block];
      rows := [block[..]];
      queue := [];
      claimed := {block};
      moved := 0;
      new;
      blocks[0] := block;
      FreshIsWellShaped(policy);
      FlatLength(rows, policy.b);
    }

    /** Writes slot `k`, which is entry `o` of `block`. */
    method WriteSlot(ghost k: nat, block: Block, o: nat, e: Buffer)
      requires Aligned() && Mirrored() && k < |Flat(rows)|
      requires k / policy.b < n && block == chain[k / policy.b] && o == k % policy.b < policy.b
      modifies block, this`rows
      ensures Aligned() && Mirrored()
      ensures Flat(rows) == old(Flat(rows))[k := e]
    {
      WrittenFlat(rows, policy.b, k, e);
      block[o] := e;
      rows := Written(rows, policy.b, k, e);
    }

    /** One round of the right shift: copies slot `i + delta` to slot `i`, counted from the right. */
    method CopyToTheRight(i: nat, delta: nat)
      requires Aligned() && Mirrored()
      requires i + delta < |Flat(rows)|
      modifies claimed, this`rows, this`moved
      ensures Aligned() && Mirrored() && moved == old(moved) + 1
      ensures Flat(rows) == var was := old(Flat(rows));
                            was[|was| - 1 - i := was[|was| - 1 - (i + delta)]]
    {
      var b := policy.b;
      var capacity := blocks.Length - 1;
      FlatLength(rows, b);
      MirrorSlot(i, n, b);
      MirrorSlot(i + delta, n, b);
      var rightmostBlock := blocks[capacity - i / b];
      var frontBlock := blocks[capacity - (i + delta) / b];
      assert rightmostBlock == chain[n - 1 - i / b];
      assert frontBlock == chain[n - 1 - (i + delta) / b];
      var e := frontBlock[b - 1 - (i + delta) % b];
      FlatAt(rows, b, n * b - 1 - (i + delta));
      WriteSlot(n * b - 1 - i, rightmostBlock, b - 1 - i % b, e);
      moved := moved + 1;
    }

    /** A round moves one more element to its place and loses none of those still to be moved. */
    method ShiftRound(i: nat, delta: nat)
      requires Aligned() && Mirrored()
      requires Shifting(Flat(rows), f, queue, i) && i < |queue|
      requires f + |queue| + delta == |Flat(rows)|
      modifies claimed, this`rows, this`moved
      ensures Aligned() && Mirrored() && moved == old(moved) + 1
      ensures |Flat(rows)| == old(|Flat(rows)|) && Shifting(Flat(rows), f, queue, i + 1)
    {
      ShiftOneMore(Flat(rows), f, queue, i);
      CopyToTheRight(i, delta);
    }

    /** Moves all elements to the right end of the claimed blocks, src/buffer.c:241-280. */
    method RightShift()
      requires Aligned() && Mirrored()
      requires |queue| == size && Holds(Flat(rows), f, queue)
      modifies claimed, this`f, this`rows, this`moved
      ensures Aligned() && Mirrored()
      ensures f == n * policy.b - size && moved == old(moved) + size
      ensures Holds(Flat(rows), f, queue)
    {
      FlatLength(rows, policy.b);
      var bufferCapacity := n * policy.b;
      var delta := bufferCapacity - (f + size);
      for i := 0 to size
        invariant f == old(f) && moved == old(moved) + i
        invariant Aligned() && Mirrored()
        invariant |Flat(rows)| == bufferCapacity
        invariant Shifting(Flat(rows), f, queue, i)
      {
        ShiftRound(i, delta);
      }
      ShiftedAll(Flat(rows), f, queue);
      f := f + delta;
    }

    /** Copies the first `k` entries of the vector to its right end, src/buffer.c:306-309. */
    static method AlignRight(vec: array<array?<Buffer>>, k: nat)
      requires 2 * k <= vec.Length
      modifies vec
      ensures vec[..k] == vec[vec.Length - k..] == old(vec[..k])
    {
      for i := 1 to k + 1
        invariant vec[..k] == old(vec[..k])
        invariant vec[vec.Length - (i - 1)..] == vec[k - (i - 1)..k]
      {
        vec[vec.Length - i] := vec[k - i];
        assert vec[vec.Length - i..] == [vec[vec.Length - i]] + vec[vec.Length - (i - 1)..];
      }
    }

    /**
     Makes room for one more entry in the block vector, src/buffer.c:292-313. A grown vector
     still shows the old prefix, so the claimed blocks are found from the old capacity too.
     */
    method TryReserveABlock(vectorOk: bool) returns (ok: bool)
      requires Aligned() && IsPow2(blocks.Length) && n > 0
      modifies this`blocks
      ensures ok == (n < old(blocks.Length) || vectorOk)
      ensures blocks == old(blocks) || fresh(blocks)
      ensures blocks.Length == if ok && n == old(blocks.Length) then 2 * n else old(blocks.Length)
      ensures Aligned()
      ensures forall i | 0 <= i < n :: blocks[old(blocks.Length) - n + i] == chain[i]
    {
      ok := true;
      if blocks.Length == n {
        var cap := GrownCapacity(blocks.Length);
        GrowthDoubles(n);
        ok := vectorOk;
        if ok {
          var tmp := new array?<Buffer>[cap];
          forall i | 0 <= i < n {
            tmp[i] := blocks[i];
          }
          assert forall i | 0 <= i < n :: tmp[..n][i] == blocks[blocks.Length - n + i];
          AlignRight(tmp, n);
          forall i | 0 <= i < n ensures tmp[i] == tmp[tmp.Length - n + i] == chain[i] {
            assert tmp[..n][i] == tmp[tmp.Length - n..][i] == chain[i];
          }
          blocks := tmp;
        }
      }
    }

    /** Puts a block the allocator has granted at the left end of the claimed ones. */
    method LinkBlock(block: Block)
      requires Aligned() && Mirrored() && n < blocks.Length
      requires block.Length == policy.b && block !in claimed
      modifies this`n, this`chain, this`rows, this`claimed, blocks
      ensures Aligned() && Mirrored()
      ensures n == old(n) + 1 && claimed == old(claimed) + {block}
      ensures rows == [block[..]] + old(rows)
    {
      n := n + 1;
      blocks[blocks.Length - n] := block;
      PrependedElements(block, chain);
      chain := [block] + chain;
      rows := [block[..]] + rows;
      claimed := claimed + {block};
    }

    /** The allocator grants a block: there is room for `b` elements on the left now. */
    method ClaimBlock()
      requires Valid() && f == 0 && n < blocks.Length && size > 0 && size > (n - 1) * policy.b
      modifies this`n, this`f, this`chain, this`rows, this`claimed, blocks
      ensures Valid() && fresh(claimed - old(claimed))
      ensures old(claimed) <= claimed && claimed != old(claimed)
      ensures Shape() == FifoShape.Shape.Shape(old(n) + 1, blocks.Length, policy.b, size)
    {
      var block := new Buffer[policy.b];
      PrependedHolds(rows, block[..], f, queue);
      ghost var s := Shape();
      ClaimKeepsShape(policy, s);
      LinkBlock(block);
      f := policy.b;
      assert Shape() == FifoShape.Shape.Shape(s.n + 1, s.c, policy.b, s.size);
    }

    /** The claimed blocks are found when the vector is indexed with this capacity. */
    ghost predicate Reachable(capacity: nat)
      reads this`blocks, this`n, this`chain, blocks
    {
      && n <= capacity <= blocks.Length
      && |chain| == n
      && forall i | 0 <= i < n :: blocks[capacity - n + i] == chain[i]
    }

    /** Asks the allocator for a block, and for a larger vector if it needs one. */
    method AskForABlock(vectorOk: bool, blockOk: bool) returns (claimedOne: bool)
      requires Valid() && WantsBlock(policy, Shape())
      modifies this, blocks
      ensures Valid() && fresh(Repr() - old(Repr()))
      ensures old(claimed) <= claimed && fresh(claimed - old(claimed))
      ensures claimed != old(claimed) <==> n == old(n) + 1
      ensures queue == old(queue) && moved == old(moved)
      ensures Shape() == AfterReserve(policy, old(Shape()), vectorOk, blockOk)
      ensures claimedOne == (f != 0)
      ensures Reachable(if claimedOne then blocks.Length else old(blocks.Length))
    {
      hide Holds, Flat, Mirrored;
      ghost var s := Shape();
      WantsMeansOthersInUse(policy, s);
      ReserveCases(policy, s, vectorOk, blockOk);
      var reserved := TryReserveABlock(vectorOk);
      assert Shape() == s.(c := if s.n == s.c && reserved then 2 * s.c else s.c);
      claimedOne := reserved && blockOk;
      assert Reachable(s.c) && Valid();
      if claimedOne {
        ClaimBlock();
        assert Reachable(blocks.Length);
      }
    }

    /**
     The first branch of a push, src/buffer.c:357-378: claims a block if one is wanted. The
     second result is the caller's local copy of the capacity, which is stale when the vector
     grew and the block was refused; the claimed blocks are found through it all the same.
     */
    method Reserve(vectorOk: bool, blockOk: bool) returns (freeSpaceOnTheLeft: bool, capacity: nat)
      requires Valid()
      modifies this, blocks
      ensures Valid() && fresh(Repr() - old(Repr()))
      ensures old(claimed) <= claimed && fresh(claimed - old(claimed))
      ensures claimed != old(claimed) <==> n == old(n) + 1
      ensures queue == old(queue) && moved == old(moved)
      ensures Shape() == AfterReserve(policy, old(Shape()), vectorOk, blockOk)
      ensures freeSpaceOnTheLeft == (f != 0)
      ensures Reachable(capacity)
    {
      capacity := blocks.Length;
      freeSpaceOnTheLeft := f != 0;
      if !freeSpaceOnTheLeft && size * policy.den >= n * policy.b * policy.num {
        freeSpaceOnTheLeft := AskForABlock(vectorOk, blockOk);
        if freeSpaceOnTheLeft {
          capacity := blocks.Length;
        }
      }
    }

    /** The second branch of a push, src/buffer.c:384-387: shifts if there is still no room. */
    method ShiftForRoom(capacity: nat)
      requires Valid() && Reachable(capacity)
      modifies claimed, this`f, this`rows, this`moved
      ensures Valid() && Reachable(capacity)
      ensures Shape() == AfterShift(policy, old(Shape()))
      ensures moved == old(moved) + (if MustShift(policy, old(Shape())) then size else 0)
    {
      if f == 0 && size != n * policy.b {
        FlatLength(rows, policy.b);
        ShiftKeepsShape(policy, Shape());
        RightShift();
      }
    }

    /** The part of a push before the slot is taken, src/buffer.c:333-387. */
    method MakeRoom(vectorOk: bool, blockOk: bool) returns (capacity: nat, ghost o: Outcome)
      requires Valid()
      modifies Repr()
      ensures Valid() && fresh(Repr() - old(Repr())) && queue == old(queue)
      ensures old(claimed) <= claimed && fresh(claimed - old(claimed))
      ensures claimed != old(claimed) <==> n == old(n) + 1
      ensures Reachable(capacity)
      ensures o == AfterPush(policy, old(Shape()), vectorOk, blockOk)
      ensures moved == old(moved) + o.moved && o.stored == (f != 0)
      ensures o.shape == if f == 0 then Shape() else FifoShape.Shape.Shape(n, blocks.Length, f - 1, size + 1)
    {
      o := AfterPush(policy, Shape(), vectorOk, blockOk);
      var freeSpaceOnTheLeft;
      freeSpaceOnTheLeft, capacity := Reserve(vectorOk, blockOk);
      ShiftForRoom(capacity);
    }

    /** Takes the slot on the left of the others, src/buffer.c:393-398. */
    method TakeSlot(capacity: nat) returns (tmpBlock: Block, at: nat)
      requires Valid() && Reachable(capacity) && f != 0
      modifies this`f, this`size
      ensures f == old(f) - 1 && size == old(size) + 1
      ensures policy.Valid() && Aligned() && Mirrored() && WellShaped(policy, Shape())
      ensures |queue| + 1 == size && f < |Flat(rows)| && Holds(Flat(rows), f + 1, queue)
      ensures |chain| == n && 0 <= f / policy.b < n && 0 <= f % policy.b < policy.b
      ensures tmpBlock == chain[f / policy.b] && at == f % policy.b
    {
      size := size + 1;
      f := f - 1;
      BlockBound(f, n, policy.b);
      SplitSlot(f, policy.b);
      FlatLength(rows, policy.b);
      ghost var i := f / policy.b;
      assert blocks[capacity - n + i] == chain[i];
      tmpBlock := blocks[capacity - n + f / policy.b];
      at := f % policy.b;
    }

    /** Takes the slot and stores the element in it, src/buffer.c:393-411. */
    method FillSlot(capacity: nat, e: Buffer)
      requires Valid() && Reachable(capacity) && f != 0
      modifies claimed, this`f, this`size, this`rows, this`queue
      ensures Valid() && queue == old(queue) + [e]
      ensures f == old(f) - 1 && size == old(size) + 1
    {
      HoldsOneMore(Flat(rows), f, queue, e);
      var back, at := TakeSlot(capacity);
      WriteSlot(f, back, at, e);
      queue := queue + [e];
    }

    lemma ValidShape()
      requires Valid()
      ensures policy.Valid() && WellShaped(policy, Shape())
    {
    }

    /** Appends `e` to the queue, src/buffer.c:317-412. The flags are the allocator's answers. */
    method PushBack(e: Buffer, vectorOk: bool, blockOk: bool) returns (ok: bool)
      requires Valid()
      modifies Repr()
      ensures Valid() && fresh(Repr() - old(Repr()))
      ensures old(claimed) <= claimed && fresh(claimed - old(claimed))
      ensures claimed != old(claimed) <==> n == old(n) + 1
      ensures queue == if ok then old(queue) + [e] else old(queue)
      ensures var o := AfterPush(policy, old(Shape()), vectorOk, blockOk);
              ok == o.stored && Shape() == o.shape && moved == old(moved) + o.moved
      ensures var asks := old(f) == 0 && old(size) * policy.den >= old(n) * policy.b * policy.num;
              var full := old(n) == old(blocks.Length);
              && (claimed != old(claimed) <==> asks && blockOk && (!full || vectorOk))
              && blocks.Length == if asks && full && vectorOk then 2 * old(blocks.Length) else old(blocks.Length)
    {
      hide AfterPush, WellShaped, Holds, Flat, Aligned, Mirrored;
      ValidShape();
      PushExactly(policy, Shape(), vectorOk, blockOk);
      ghost var o;
      var capacity;
      capacity, o := MakeRoom(vectorOk, blockOk);
      ok := f != 0;
      if ok {
        FillSlot(capacity, e);
      }
    }

    /** Moves the last entry of the vector `k` places to the left, src/buffer.c:451-456. */
    static method RotateVector(vec: array<array?<Buffer>>, k: nat)
      requires k < vec.Length
      modifies vec
      ensures forall j | 0 <= j < vec.Length :: vec[j] == old(vec[Source(vec.Length, vec.Length - 1 - k, j)])
    {
      var capacity := vec.Length;
      var last := vec[capacity - 1];
      var i := 1;
      while i <= k
        invariant 1 <= i <= k + 1
        invariant forall j | 0 <= j <= capacity - i :: vec[j] == old(vec[j])
        invariant forall j | capacity - i < j < capacity :: vec[j] == old(vec[j - 1])
      {
        vec[capacity - i] := vec[capacity - i - 1];
        i := i + 1;
      }
      vec[capacity - i] := last;
    }

    /** Moves the last block to position `m` of the chain. */
    method RotateBlocks(ghost m: nat, k: nat)
      requires Aligned() && Mirrored() && m < n && k == n - 1 - m
      modifies blocks, this`chain, this`rows
      ensures Aligned() && Mirrored()
      ensures rows == Rotated(old(rows), m) && chain == Rotated(old(chain), m)
    {
      hide Flat, Holds, Elements, Rotated;
      RotateVector(blocks, k);
      RotatedElements(chain, m);
      chain := Rotated(chain, m);
      rows := Rotated(rows, m);
      forall i | 0 <= i < n ensures blocks[blocks.Length - n + i] == chain[i] {
        ghost var c := blocks.Length;
        assert Source(c, c - n + m, c - n + i) == c - n + Source(n, m, i);
      }
    }

    /** The last block has just been emptied: it becomes a free block on the left of the queue. */
    method ExposeLastBlock()
      requires policy.Valid() && Aligned() && Mirrored() && n > 1
      requires |queue| == size && Holds(Flat(rows), f, queue)
      requires f + size == (n - 1) * policy.b
      modifies blocks, this`f, this`chain, this`rows
      ensures Aligned() && Mirrored()
      ensures f == old(f) + policy.b && Holds(Flat(rows), f, queue)
    {
      var b := policy.b;
      OccupiedBlocks(f, size, n, b);
      FlatLength(rows, b);
      NextBlock(n - 1, b);
      RotatedHolds(rows, b, f, queue);
      RotateBlocks(f / b, (f % b + size) / b);
      f := f + b;
    }

    /** Where the oldest element is: entry `at` of the last block, src/buffer.c:436-438. */
    method FrontSlot() returns (lastBlock: Block, at: nat, frontIndexInBlock: nat)
      requires Valid() && size > 0
      ensures lastBlock in claimed && at < lastBlock.Length && lastBlock[at] == queue[0]
      ensures f + size + frontIndexInBlock == n * policy.b && at == FrontEntry(policy, Shape())
      ensures at + frontIndexInBlock + 1 == policy.b
    {
      var b := policy.b;
      NextBlock(n - 1, b);
      FlatLength(rows, b);
      frontIndexInBlock := n * b - (size + f);
      assert blocks[blocks.Length - n + (n - 1)] == chain[n - 1];
      lastBlock := blocks[blocks.Length - 1];
      at := b - frontIndexInBlock - 1;
      JoinSlot(n - 1, at, b);
      FlatAt(rows, b, f + size - 1);
      HoldsOneLess(Flat(rows), f, queue);
    }

    /** Drops the oldest element and frees its block when that was the last one in it. */
    method ShiftFrontLeft(frontIndexInBlock: nat)
      requires Valid() && size > 0 && f + size + frontIndexInBlock == n * policy.b
      modifies this, blocks
      ensures Valid() && Repr() == old(Repr()) && moved == old(moved) && claimed == old(claimed)
      ensures queue == old(queue)[1..] && Shape() == AfterPop(policy, old(Shape()))
    {
      PopKeepsShape(policy, Shape());
      NextBlock(n - 1, policy.b);
      HoldsOneLess(Flat(rows), f, queue);
      size := size - 1;
      queue := queue[1..];
      if frontIndexInBlock == policy.b - 1 && n != 1 {
        ExposeLastBlock();
      }
    }

    /** Removes the oldest element, src/buffer.c:414-473; None stands for the result false. */
    method PopFront() returns (e: Option<Buffer>)
      requires Valid()
      modifies this, blocks
      ensures Valid() && Repr() == old(Repr()) && moved == old(moved) && claimed == old(claimed)
      ensures old(size) == 0 ==> e == None && queue == [] && Shape() == old(Shape())
      ensures old(size) > 0 ==>
                && e == Some(old(queue)[0])
                && queue == old(queue)[1..]
                && Shape() == AfterPop(policy, old(Shape()))
    {
      e := None;
      if size > 0 {
        var lastBlock, at, frontIndexInBlock := FrontSlot();
        ShiftFrontLeft(frontIndexInBlock);
        e := Some(lastBlock[at]);
      }
    }

    /** Releases every block, src/buffer.c:224-229: each one the allocator handed out, once. */
    method Destroy() returns (released: seq<array?<Buffer>>)
      requires Valid()
      modifies this
      ensures |released| == old(n) && forall x: Block :: x in released <==> x in old(claimed)
      ensures forall i, j | 0 <= i < j < |released| :: released[i] != released[j]
    {
      released := [];
      for i := 0 to n
        invariant n == old(n) && blocks == old(blocks) && chain == old(chain) && Aligned()
        invariant |released| == i
        invariant forall j | 0 <= j < i :: released[j] == chain[n - 1 - j]
      {
        released := released + [blocks[blocks.Length - i - 1]];
      }
      forall x | x in claimed ensures x in released {
        var i :| 0 <= i < n && chain[i] == x;
        assert released[n - 1 - i] == x;
      }
      n := 0;
    }
  }
}
