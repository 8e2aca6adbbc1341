/**
 A pipe as the workers see it: the pool of empty buffers, the FIFO of full ones and the
 semaphore (src/pipe.c:184-238). Every operation is one critical section of the library; the
 class `Pipe` is proved to do the same on the real pool and deque.
 */
module Channel {
  import opened Arithmetic
  import opened Buffers
  import opened Program

  /**
   `sent` and `received` record the contents pushed to and popped from the FIFO so far; the
   library does not keep them.
   */
  datatype Pipe = Pipe(
    pool: seq<Buffer>,
    fifo: seq<Buffer>,
    permits: nat,
    total: nat,
    capacity: nat,
    mem: Buffer -> Value,
    sent: seq<Value>,
    received: seq<Value>)

  /** A pipe that has just been sized: every buffer is in the pool, and the pool is full. */
  function FreshPipe(buffers: seq<Buffer>, mem: Buffer -> Value): Pipe {
    Pipe(buffers, [], 0, |buffers|, |buffers|, mem, [], [])
  }

  function Store(mem: Buffer -> Value, b: Buffer, v: Value): Buffer -> Value {
    x => if x == b then v else mem(x)
  }

  /** `mtdp_pipe_push_buffer`, when the deque accepts the buffer. */
  function PushBuffer(p: Pipe, b: Buffer): Pipe {
    p.(fifo := p.fifo + [b], sent := p.sent + [p.mem(b)])
  }

  /** `mtdp_pipe_get_full_buffer`. */
  function FullBuffer(p: Pipe): Option<Buffer> {
    if |p.fifo| == 0 then None else Some(p.fifo[0])
  }

  function GetFullBuffer(p: Pipe): Pipe {
    if |p.fifo| == 0 then p
    else p.(fifo := p.fifo[1..], received := p.received + [p.mem(p.fifo[0])])
  }

  /** `mtdp_pipe_get_empty_buffer`: the pool is a stack. */
  function EmptyBuffer(p: Pipe): Option<Buffer> {
    if |p.pool| == 0 then None else Some(p.pool[|p.pool| - 1])
  }

  function GetEmptyBuffer(p: Pipe): Pipe {
    if |p.pool| == 0 then p else p.(pool := p.pool[..|p.pool| - 1])
  }

  const MIN_ALLOC_CAP: nat := 16

  /** The capacity a pool of `size` buffers grows to when it is full, src/buffer.c:65-67. */
  function GrownPool(size: nat): nat {
    var cap := Pow2(CeilLog2(size + 1));
    if cap > MIN_ALLOC_CAP then cap else MIN_ALLOC_CAP
  }

  /** It is the least power of two that has room for one more, but never less than 16. */
  lemma GrownPoolIsLeast(size: nat)
    ensures GrownPool(size) > size && GrownPool(size) >= 16 && IsPow2(GrownPool(size))
    ensures GrownPool(size) > 16 ==> exists e: nat :: GrownPool(size) == 2 * Pow2(e) && Pow2(e) <= size
  {
    CeilLog2IsLeast(size + 1);
    assert Pow2(4) == 16;
    if GrownPool(size) > 16 {
      var e := CeilLog2(size + 1) - 1;
      assert GrownPool(size) == 2 * Pow2(e) && Pow2(e) <= size;
    }
  }

  /** Whether `mtdp_pipe_put_back` succeeds; `ok` is the allocator's answer, if it is asked. */
  predicate CanPutBack(p: Pipe, ok: bool) {
    |p.pool| < p.capacity || ok
  }

  /** `mtdp_pipe_put_back`. */
  function PutBack(p: Pipe, b: Buffer, ok: bool): Pipe {
    if |p.pool| < p.capacity then p.(pool := p.pool + [b])
    else if ok then p.(pool := p.pool + [b], capacity := GrownPool(|p.pool|))
    else p
  }

  /** `mtdp_pipe_clear`, when the pool has room for every queued buffer. */
  function Clear(p: Pipe): Pipe
    requires |p.pool| + |p.fifo| <= p.capacity
  {
    p.(pool := p.pool + p.fifo, fifo := [])
  }

  /** The condition the library asserts around every operation, src/pipe.c:54-70. */
  predicate CheckInvariants(p: Pipe) {
    var total := |p.fifo| + |p.pool|;
    p.total == total || p.total == total + 1 || p.total == total + 2
  }
}
