/**
 The pipe of src/pipe.c on the real pool and the real deque. Each method is one critical section
 and does to the view of the pipe what `Channel` says.
 */
module PipeImpl {
  import opened Arithmetic
  import opened Buffers
  import opened Program
  import opened FifoShape
  import opened Fifo
  import opened Pool
  import BlockChain
  import Channel

  lemma FullBlocks(n: nat, b: nat)
    requires n > 0 && b > 0
    ensures n * b > 0 && (n * b) % b == 0
  {
    JoinSlot(n, 0, b);
  }

  class Pipe {
    const pool: Pool
    const fifo: Fifo
    var permits: nat
    var totalBuffers: nat

    var mem: Buffer -> Value // what the buffers of this pipe point to
    ghost var sent: seq<Value>
    ghost var received: seq<Value>

    ghost var Repr: set<object> // the pipe and everything it is made of

    ghost predicate Valid()
      reads this, Repr
      ensures Valid() ==> this in Repr
    {
      && this in Repr && pool in Repr && fifo in Repr
      && Repr == {this, pool, pool.buffers} + fifo.Repr()
      && pool.Valid()
      && fifo.Valid()
      && pool.buffers !in fifo.claimed
    }

    /** The pipe as the transition system sees it. */
    ghost function View(): Channel.Pipe
      reads this, Repr
      requires Valid()
    {
      Channel.Pipe(pool.Contents(), fifo.queue, permits, totalBuffers, pool.buffers.Length, mem, sent, received)
    }

    /** The array of the pool, which the user has been given (src/pipe.c:122-127). */
    ghost function Array(): array<Buffer>
      reads this, Repr
      requires Valid()
    {
      pool.buffers
    }

    /** Every slot of the deque is taken. */
    ghost predicate Full()
      reads this, Repr
      requires Valid()
    {
      fifo.size == fifo.n * fifo.policy.b
    }

    /** Every entry of the block vector is taken. */
    ghost predicate VectorFull()
      reads this, Repr
      requires Valid()
    {
      fifo.n == fifo.blocks.Length
    }

    /** The filling ratio is at most 1, so a full deque asks for a block. */
    ghost predicate AsksWhenFull() {
      fifo.policy.num <= fifo.policy.den
    }

    /** A push is refused: there is no slot left, and no block is asked for or granted. */
    ghost predicate Refuses(vectorOk: bool, blockOk: bool)
      reads this, Repr
      requires Valid()
    {
      Full() && (!AsksWhenFull() || !blockOk || (VectorFull() && !vectorOk))
    }

    lemma FullFillsBlocks()
      requires Valid() && Full()
      ensures |View().fifo| > 0 && |View().fifo| % fifo.policy.b == 0
    {
      hide BlockChain.Holds, BlockChain.Flat, Fifo.Aligned, Fifo.Mirrored;
      FullBlocks(fifo.n, fifo.policy.b);
    }

    /** What the two containers do not hold. */
    ghost function Rest(): (nat, nat, Buffer -> Value, seq<Value>, seq<Value>)
      reads this
    {
      (permits, totalBuffers, mem, sent, received)
    }

    /** `total` is what `total_buffers` happens to hold: src/pipe.c:148-172 does not write it. */
    constructor Init(policy: Policy, mem: Buffer -> Value, total: nat)
      requires policy.Valid()
      ensures Valid() && fresh(Repr) && fifo.policy == policy
      ensures View() == Channel.FreshPipe([], mem).(total := total)
    {
      hide WellShaped, BlockChain.Holds, BlockChain.Flat, Fifo.Aligned, Fifo.Mirrored, Fifo.Valid;
      var p := new Pool.Init();
      var q := new Fifo.Init(policy);
      pool, fifo := p, q;
      permits, totalBuffers := 0, total;
      this.mem, sent, received := mem, [], [];
      new;
      Repr := {this, pool, pool.buffers} + fifo.Repr();
    }

    /** src/pipe.c:184-196. */
    method GetEmptyBuffer() returns (out: Option<Buffer>)
      requires Valid()
      modifies Repr
      ensures Valid() && Repr == old(Repr) && Array() == old(Array())
      ensures out == Channel.EmptyBuffer(old(View())) && View() == Channel.GetEmptyBuffer(old(View()))
    {
      out := pool.PopBack();
    }

    /** src/pipe.c:198-210; the flags are what the allocator answers to the deque. */
    method PushBuffer(buf: Buffer, vectorOk: bool, blockOk: bool) returns (out: bool)
      requires Valid()
      modifies Repr
      ensures Valid() && fresh(Repr - old(Repr))
      ensures View() == if out then Channel.PushBuffer(old(View()), buf) else old(View())
      ensures !out <==> old(Refuses(vectorOk, blockOk))
      ensures !out ==> Refuses(vectorOk, blockOk)
      ensures Array() == old(Array())
    {
      hide AfterPush, WellShaped, BlockChain.Holds, BlockChain.Flat, Fifo.Aligned, Fifo.Mirrored, Pool.Contents;
      PushFailsExactlyWhen(fifo.policy, fifo.Shape(), vectorOk, blockOk);
      PushExactly(fifo.policy, fifo.Shape(), vectorOk, blockOk);
      out := fifo.PushBack(buf, vectorOk, blockOk);
      if out {
        sent := sent + [mem(buf)];
      }
      Repr := {this, pool, pool.buffers} + fifo.Repr();
    }

    /** src/pipe.c:212-224. */
    method GetFullBuffer() returns (out: Option<Buffer>)
      requires Valid()
      modifies Repr
      ensures Valid() && Repr == old(Repr) && Array() == old(Array())
      ensures out == Channel.FullBuffer(old(View())) && View() == Channel.GetFullBuffer(old(View()))
    {
      out := fifo.PopFront();
      if out.Some? {
        received := received + [mem(out.value)];
      }
    }

    /** src/pipe.c:226-238; the flag is what the allocator answers to the pool. */
    method PutBack(buf: Buffer, granted: bool) returns (out: bool)
      requires Valid()
      modifies Repr
      ensures Valid() && fresh(Repr - old(Repr))
      ensures out == Channel.CanPutBack(old(View()), granted)
      ensures View() == Channel.PutBack(old(View()), buf, granted)
      ensures |old(View()).pool| < old(View()).capacity ==> Array() == old(Array()) && Repr == old(Repr)
    {
      out := pool.PushBack(buf, granted);
      Repr := {this, pool, pool.buffers} + fifo.Repr();
    }

    /** What a callback finds in the buffer it has been given. */
    function Read(buf: Buffer): (v: Value)
      reads this, Repr
      requires Valid()
      ensures v == View().mem(buf)
    {
      mem(buf)
    }

    /** What a callback writes to the buffer it has been given. */
    method Write(buf: Buffer, v: Value)
      requires Valid()
      modifies Repr
      ensures Valid() && Repr == old(Repr) && Array() == old(Array())
      ensures View() == old(View()).(mem := Channel.Store(old(View()).mem, buf, v))
    {
      mem := Channel.Store(mem, buf, v);
    }

    /** `mtdp_semaphore_release`. */
    method Release()
      requires Valid()
      modifies Repr
      ensures Valid() && Repr == old(Repr) && Array() == old(Array())
      ensures View() == old(View()).(permits := old(View()).permits + 1)
    {
      permits := permits + 1;
    }

    /** `mtdp_semaphore_try_acquire_for`: fails when there is no permit in time. */
    method TryAcquire(undisturbed: bool) returns (ok: bool)
      requires Valid()
      modifies Repr
      ensures Valid() && Repr == old(Repr) && Array() == old(Array())
      ensures ok == (undisturbed && old(View()).permits > 0)
      ensures View() == if ok then old(View()).(permits := old(View()).permits - 1) else old(View())
    {
      ok := undisturbed && permits > 0;
      if ok {
        permits := permits - 1;
      }
    }

    /** `mtdp_pipe_check_invariants`, src/pipe.c:54-70. */
    method CheckInvariants() returns (out: bool)
      requires Valid()
      ensures out == Channel.CheckInvariants(View())
    {
      var total := fifo.size + pool.size;
      out := totalBuffers == total || totalBuffers == total + 1 || totalBuffers == total + 2;
    }

    /** One round of clearing a pipe. */
    method MoveOldest(granted: bool)
      requires Valid() && fifo.size > 0
      modifies Repr
      ensures Valid() && Rest() == old(Rest())
      ensures fresh(Repr - old(Repr))
      ensures fifo.queue == old(fifo.queue)[1..]
      ensures pool.Contents() == old(pool.Contents()) +
                (if granted || old(pool.size) < old(pool.buffers.Length) then [old(fifo.queue)[0]] else [])
      ensures old(pool.size) < old(pool.buffers.Length) || !granted ==> Array() == old(Array()) && Repr == old(Repr)
    {
      hide AfterPop, WellShaped, BlockChain.Holds, BlockChain.Flat, Fifo.Aligned, Fifo.Mirrored;
      var tmp := fifo.PopFront();
      var ok := pool.PushBack(tmp.value, granted);
      Repr := {this, pool, pool.buffers} + fifo.Repr();
    }

    /**
     Moves every queued buffer to the pool, oldest first, src/pipe.c:130-146. The results of the
     put-backs are ignored: only with neither room nor memory is a buffer lost.
     */
    method Clear(granted: bool)
      requires Valid()
      modifies Repr
      ensures Valid() && fresh(Repr - old(Repr)) && Rest() == old(Rest())
      ensures fifo.queue == []
      ensures var room := old(pool.buffers.Length) - old(pool.size);
              pool.Contents() == old(pool.Contents()) +
                if granted || old(fifo.size) <= room then old(fifo.queue) else old(fifo.queue)[..room]
      ensures |old(View()).pool| + |old(View()).fifo| <= old(View()).capacity ==>
                View() == Channel.Clear(old(View())) && Array() == old(Array()) && Repr == old(Repr)
    {
      hide WellShaped, BlockChain.Holds, BlockChain.Flat, Fifo.Aligned, Fifo.Mirrored;
      ghost var kept := pool.Contents();
      ghost var queue := fifo.queue;
      ghost var room := pool.buffers.Length - pool.size;
      var i := fifo.size;
      while i > 0
        invariant Valid() && fresh(Repr - old(Repr)) && Rest() == old(Rest())
        invariant i == fifo.size <= |queue| && fifo.queue == queue[|queue| - i..]
        invariant granted || |queue| - i <= room ==> pool.Contents() == kept + queue[..|queue| - i]
        invariant |queue| - i <= room || !granted ==> Array() == old(Array()) && Repr == old(Repr)
        invariant !granted && |queue| - i > room ==>
                    pool.Contents() == kept + queue[..room] && pool.size == pool.buffers.Length
      {
        i := i - 1;
        assert queue[..|queue| - i] == queue[..|queue| - i - 1] + [fifo.queue[0]];
        MoveOldest(granted);
      }
    }

    /**
     Growing the pipe to `nBuffers`, or leaving it as it is, src/pipe.c:72-120. The total is set even
     when the memory is refused, and the buffers really there match it exactly when nothing had to
     be done or the pool was full and grew; the last clause says exactly when the library's own
     assertion holds afterwards. A fresh pipe has a full pool. In a pool with spare capacity the size
     would move by what the capacity gains or loses; the precondition says that it does not wrap.
     */
    method Resize(nBuffers: nat, granted: bool) returns (ok: bool)
      requires Valid() && nBuffers >= pool.size + fifo.size
      requires nBuffers > pool.size + fifo.size ==>
                 ResizedSize(pool.size, pool.buffers.Length, nBuffers - fifo.size) >= 0
      modifies Repr
      ensures Valid() && fresh(Repr - old(Repr))
      ensures totalBuffers == nBuffers && Rest() == old(Rest()).(1 := nBuffers)
      ensures fifo.queue == old(fifo.queue) && fifo.size == old(fifo.size)
      ensures old(pool.size) == old(pool.buffers.Length) ==> old(pool.Contents()) <= pool.Contents()
      ensures var grows := nBuffers > old(pool.size) + fifo.size;
              && ok == (granted || !grows || nBuffers <= old(pool.buffers.Length) + fifo.size)
              && pool.size == (if !ok || !grows then old(pool.size)
                               else ResizedSize(old(pool.size), old(pool.buffers.Length), nBuffers - fifo.size))
              && (pool.size + fifo.size == nBuffers <==> !grows || (ok && old(pool.size) == old(pool.buffers.Length)))
              && (ok && old(pool.size) == old(pool.buffers.Length) ==> pool.buffers.Length == pool.size)
              && (Channel.CheckInvariants(View()) <==>
                    || !grows
                    || if ok then old(pool.buffers.Length) - old(pool.size) <= 2
                       else nBuffers <= old(pool.size) + fifo.size + 2)
    {
      var empty := pool.size;
      var nonempty := fifo.size;
      var delta := nBuffers - (empty + nonempty);
      ok := true;
      if delta > 0 {
        ResizeExactWhenFull(pool.size, pool.buffers.Length, empty + delta);
        ok := pool.Resize(empty + delta, granted);
      }
      totalBuffers := nBuffers;
      Repr := {this, pool, pool.buffers} + fifo.Repr();
    }

    /** The user stores its buffers in the array that a resize has returned. */
    method Fill(bs: seq<Buffer>)
      requires Valid() && |bs| == pool.size == pool.buffers.Length
      modifies Repr
      ensures Valid() && Repr == old(Repr) && pool.buffers == old(pool.buffers)
      ensures fifo.queue == old(fifo.queue) && Rest() == old(Rest())
      ensures pool.Contents() == bs
    {
      for i := 0 to |bs|
        invariant Valid() && Repr == old(Repr) && Rest() == old(Rest()) && fifo.queue == old(fifo.queue)
        invariant pool.size == pool.buffers.Length == |bs| && pool.buffers == old(pool.buffers)
        invariant pool.buffers[..i] == bs[..i]
      {
        pool.buffers[i] := bs[i];
      }
    }
  }

  /**
   A pipe that is sized once and filled: what the transition system starts from. `given` is the
   array that the user gets from the library and fills (src/pipe.c:92, 122-127).
   */
  method NewPipe(policy: Policy, mem: Buffer -> Value, total: nat, bs: seq<Buffer>, granted: bool)
    returns (pipe: Pipe, given: array<Buffer>, ok: bool)
    requires policy.Valid()
    ensures pipe.Valid() && fresh(pipe.Repr) && pipe.fifo.policy == policy && ok == (granted || |bs| == 0)
    ensures given == pipe.Array()
    ensures ok ==> pipe.View() == Channel.FreshPipe(bs, mem)
  {
    pipe := new Pipe.Init(policy, mem, total);
    ok := pipe.Resize(|bs|, granted);
    given := pipe.pool.buffers;
    if ok {
      pipe.Fill(bs);
    }
  }

  lemma Sizes(pipe: Pipe)
    requires pipe.Valid()
    ensures |pipe.View().pool| == pipe.pool.size && |pipe.View().fifo| == pipe.fifo.size
    ensures pipe.View().capacity == pipe.pool.buffers.Length && pipe.View().total == pipe.totalBuffers
  {
  }

  /** Takes an empty buffer and pushes it. */
  method FillOne(pipe: Pipe)
    requires pipe.Valid() && pipe.AsksWhenFull() && |pipe.View().pool| > 0
    modifies pipe.Repr
    ensures pipe.Valid() && fresh(pipe.Repr - old(pipe.Repr))
    ensures |pipe.View().pool| == old(|pipe.View().pool|) - 1 && |pipe.View().fifo| == old(|pipe.View().fifo|) + 1
    ensures pipe.View().capacity == old(pipe.View().capacity)
  {
    hide Pipe.Valid, Pipe.View;
    var b := pipe.GetEmptyBuffer();
    var pushed := pipe.PushBuffer(b.value, true, true);
  }

  /**
   The input that misses: a pipe of four buffers, three of them queued, resized to six with all
   memory granted has three buffers left, and the library's own assertion fails.
   */
  method ResizeMisses(policy: Policy, mem: Buffer -> Value, total: nat) returns (pipe: Pipe)
    requires policy.Valid() && policy.num <= policy.den
    ensures pipe.Valid() && fresh(pipe.Repr)
    ensures pipe.View().total == 6 && |pipe.View().pool| + |pipe.View().fifo| == 3
    ensures !Channel.CheckInvariants(pipe.View())
  {
    hide Pipe.Valid, Pipe.View;
    var given, sized;
    pipe, given, sized := NewPipe(policy, mem, total, [1, 2, 3, 4], true);
    for i := 0 to 3
      invariant pipe.Valid() && fresh(pipe.Repr) && pipe.AsksWhenFull()
      invariant |pipe.View().pool| == 4 - i && |pipe.View().fifo| == i && pipe.View().capacity == 4
    {
      FillOne(pipe);
    }
    Sizes(pipe);
    var ok := pipe.Resize(6, true);
    Sizes(pipe);
  }
}
