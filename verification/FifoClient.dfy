/**
 A client of the FIFO: the black box test of test/fifo.c for every sequence of pushes and pops
 and every pattern of allocation failures.
 */
module FifoClient {
  import opened Buffers
  import opened FifoShape
  import opened Fifo
  import BlockChain

  /** The deque has followed the run `ops`. */
  ghost predicate Follows(d: Fifo, ops: seq<Op>)
    reads d, d.Repr()
  {
    && d.Valid()
    && d.Shape() == Run(d.policy, ops).shape
    && d.moved == Run(d.policy, ops).moved
  }

  lemma NoBlockWhenRefused(p: Policy, s: Shape, op: Op)
    ensures op.Push? && !op.blockOk ==> AfterPush(p, s, op.vectorOk, op.blockOk).shape.n == s.n
  {
  }

  /** One more operation; the result holds the element popped, if there is one. */
  method Apply(d: Fifo, ghost ops: seq<Op>, op: Op) returns (popped: seq<Buffer>, ghost added: seq<Buffer>)
    requires Follows(d, ops)
    modifies d.Repr()
    ensures Follows(d, ops + [op]) && fresh(d.Repr() - old(d.Repr()))
    ensures old(d.claimed) <= d.claimed && fresh(d.claimed - old(d.claimed))
    ensures d.claimed != old(d.claimed) ==> op.Push? && op.blockOk
    ensures Stored(d.policy, ops + [op]) == Stored(d.policy, ops) + added
    ensures popped + d.queue == old(d.queue) + added
  {
    NoBlockWhenRefused(d.policy, d.Shape(), op);
    hide AfterPush, AfterPop, WellShaped, BlockChain.Holds, BlockChain.Flat, Fifo.Aligned, Fifo.Mirrored;
    assert (ops + [op])[..|ops|] == ops;
    popped, added := [], [];
    match op {
      case Push(e, v, k) =>
        var ok := d.PushBack(e, v, k);
        added := if ok then [e] else [];
      case Pop =>
        var e := d.PopFront();
        if e.Some? {
          popped := [e.value];
        }
    }
  }

  /** The memory held and the elements moved by a real deque, over any run it has followed. */
  lemma WithinBounds(d: Fifo, ops: seq<Op>)
    requires Follows(d, ops)
    ensures d.n <= Run(d.policy, ops).peak / d.policy.b + 2
    ensures d.n <= d.blocks.Length <= 2 * d.n
    ensures 2 * d.policy.num <= d.policy.den && (forall i | 0 <= i < |ops| :: ops[i].Granted()) ==>
              d.moved <= Run(d.policy, ops).pushes
  {
    MemoryBound(d.policy, ops);
    if 2 * d.policy.num <= d.policy.den && forall i | 0 <= i < |ops| :: ops[i].Granted() {
      AmortisedCost(d.policy, ops);
    }
  }

  lemma InThenOut(popped: seq<Buffer>, more: seq<Buffer>, now: seq<Buffer>, was: seq<Buffer>, added: seq<Buffer>)
    requires more + now == was + added
    ensures (popped + more) + now == (popped + was) + added
  {
    assert (popped + more) + now == popped + (more + now);
    assert (popped + was) + added == popped + (was + added);
  }

  lemma FollowsNothing(d: Fifo)
    requires d.Valid() && d.queue == [] && d.Shape() == Fresh(d.policy) && d.moved == 0
    ensures Follows(d, []) && Stored(d.policy, []) == []
  {
    hide Fifo.Valid;
  }

  /**
   Runs the operations on a fresh deque. What comes out, followed by what is still inside, is
   exactly what was stored, in order.
   */
  method Replay(policy: Policy, ops: seq<Op>) returns (d: Fifo, popped: seq<Buffer>)
    requires policy.Valid()
    ensures fresh(d.Repr()) && d.policy == policy && Follows(d, ops)
    ensures popped + d.queue == Stored(policy, ops)
  {
    hide Follows, Stored, Fifo.Valid;
    d := new Fifo.Init(policy);
    FollowsNothing(d);
    popped := [];
    ghost var done: seq<Op> := [];
    for i := 0 to |ops|
      invariant done == ops[..i]
      invariant fresh(d.Repr()) && d.policy == policy && Follows(d, done)
      invariant popped + d.queue == Stored(policy, done)
    {
      ghost var queue := d.queue;
      var more, added := Apply(d, done, ops[i]);
      InThenOut(popped, more, d.queue, queue, added);
      done, popped := done + [ops[i]], popped + more;
    }
    assert done == ops;
  }

  /** All that the allocator has handed out: to the constructor, and to each operation. */
  ghost function HandedOut(first: set<Block>, handed: seq<set<Block>>): set<Block> {
    if |handed| == 0 then first else HandedOut(first, handed[..|handed| - 1]) + handed[|handed| - 1]
  }

  /**
   Runs the operations on a fresh deque and destroys it. Every block that the allocator has handed
   out, to the constructor or to any push of the run, is released exactly once, and no other.
   */
  method ReplayAndDestroy(policy: Policy, ops: seq<Op>)
    returns (released: seq<array?<Buffer>>, ghost first: set<Block>, ghost handed: seq<set<Block>>)
    requires policy.Valid()
    ensures |handed| == |ops|
    ensures forall i | 0 <= i < |ops| :: handed[i] != {} ==> ops[i].Push? && ops[i].blockOk
    ensures forall x: Block :: x in released <==> x in HandedOut(first, handed)
    ensures forall i, j | 0 <= i < j < |released| :: released[i] != released[j]
    ensures |released| == Run(policy, ops).shape.n
  {
    hide Follows, Stored, Fifo.Valid;
    var d := new Fifo.Init(policy);
    FollowsNothing(d);
    first, handed := d.claimed, [];
    ghost var done: seq<Op> := [];
    for i := 0 to |ops|
      invariant done == ops[..i] && |handed| == i
      invariant fresh(d.Repr()) && d.policy == policy && Follows(d, done)
      invariant d.claimed == HandedOut(first, handed)
      invariant forall j | 0 <= j < i :: handed[j] != {} ==> ops[j].Push? && ops[j].blockOk
    {
      ghost var before := d.claimed;
      var more, added := Apply(d, done, ops[i]);
      assert (handed + [d.claimed - before])[..|handed|] == handed;
      handed := handed + [d.claimed - before];
      done := done + [ops[i]];
    }
    assert done == ops;
    FollowingIsValid(d, ops);
    released := d.Destroy();
  }

  lemma FollowingIsValid(d: Fifo, ops: seq<Op>)
    requires Follows(d, ops)
    ensures d.Valid() && d.n == Run(d.policy, ops).shape.n
  {
  }
}
