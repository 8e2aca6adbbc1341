/** The pool of empty buffers of a pipe: a growable stack (src/buffer.c:31-149). */
module Pool {
  import opened Arithmetic
  import opened Buffers
  import opened Channel

  class Pool {
    var buffers: array<Buffer> // its length is the capacity
    var size: nat

    ghost predicate Valid()
      reads this
    {
      size <= buffers.Length
    }

    /** The buffers in the pool, the next one to be taken last. */
    ghost function Contents(): (s: seq<Buffer>)
      reads this, buffers
      requires Valid()
      ensures |s| == size
    {
      buffers[..size]
    }

    constructor Init()
      ensures Valid() && fresh(buffers) && Contents() == [] && buffers.Length == 0
    {
      buffers := new Buffer[0];
      size := 0;
    }

    /** `realloc` or `calloc`: keeps the old entries, src/buffer.c:31-43. */
    method Realloc(elements: nat, granted: bool) returns (ok: bool)
      requires Valid() && elements >= buffers.Length
      modifies this`buffers
      ensures Valid() && ok == granted
      ensures if ok then fresh(buffers) && buffers.Length == elements else buffers == old(buffers)
      ensures Contents() == old(Contents())
    {
      ok := granted;
      if ok {
        var tmp := new Buffer[elements];
        forall i | 0 <= i < buffers.Length {
          tmp[i] := buffers[i];
        }
        buffers := tmp;
      }
    }

    /** Makes sure that one more buffer fits, src/buffer.c:58-71. */
    method PreventiveRealloc(granted: bool) returns (ok: bool)
      requires Valid()
      modifies this`buffers
      ensures Valid() && Contents() == old(Contents())
      ensures ok == (size < old(buffers.Length) || granted)
      ensures ok ==> size < buffers.Length
      ensures if ok && size == old(buffers.Length)
              then fresh(buffers) && buffers.Length == GrownPool(size)
              else buffers == old(buffers)
    {
      ok := true;
      if buffers.Length - size < 1 {
        CeilLog2IsLeast(size + 1);
        var cap := Pow2(CeilLog2(size + 1));
        ok := Realloc(if cap > MIN_ALLOC_CAP then cap else MIN_ALLOC_CAP, granted);
      }
    }

    /** Puts a buffer on the pool, src/buffer.c:96-104. With room in it the array stays the same. */
    method PushBack(e: Buffer, granted: bool) returns (ok: bool)
      requires Valid()
      modifies this, buffers
      ensures Valid()
      ensures ok == (old(size) < old(buffers.Length) || granted)
      ensures Contents() == if ok then old(Contents()) + [e] else old(Contents())
      ensures if ok && old(size) == old(buffers.Length)
              then fresh(buffers) && buffers.Length == GrownPool(old(size))
              else buffers == old(buffers)
    {
      ok := PreventiveRealloc(granted);
      if ok {
        buffers[size] := e;
        size := size + 1;
      }
    }

    /** Takes the last buffer, src/buffer.c:106-113. */
    method PopBack() returns (e: Option<Buffer>)
      requires Valid()
      modifies this`size
      ensures Valid()
      ensures old(size) == 0 ==> e == None && Contents() == []
      ensures old(size) > 0 ==>
                && e == Some(old(Contents())[old(size) - 1])
                && Contents() == old(Contents())[..old(size) - 1]
    {
      e := None;
      if size > 0 {
        size := size - 1;
        e := Some(buffers[size]);
      }
    }

    /** Resizes the pool, src/buffer.c:124-149; a capacity in excess is not given back. */
    method Resize(request: nat, granted: bool) returns (ok: bool)
      requires Valid() && ResizedSize(size, buffers.Length, request) >= 0
      modifies this
      ensures Valid()
      ensures ok == (request <= old(buffers.Length) || granted)
      ensures size == if ok then ResizedSize(old(size), old(buffers.Length), request) else old(size)
      ensures if size <= old(size) then Contents() == old(Contents())[..size] else old(Contents()) <= Contents()
      ensures buffers.Length == if ok && request > old(buffers.Length) then request else old(buffers.Length)
      ensures buffers == old(buffers) || fresh(buffers)
    {
      ok := true;
      var delta := request - buffers.Length;
      if delta < 0 {
        size := size + delta;
      } else if delta > 0 {
        ok := Realloc(request, granted);
        if ok {
          size := size + delta;
        }
      }
    }
  }

  /** The size a resize computes, were it an integer: it adds what the capacity gains or loses. */
  function ResizedSize(size: nat, capacity: nat, request: nat): int {
    size + (request - capacity)
  }

  /**
   A resize gives the size asked for exactly when the pool was full; a shrink of a pool that is
   not full enough would even go below zero.
   */
  lemma ResizeExactWhenFull(size: nat, capacity: nat, request: nat)
    requires size <= capacity
    ensures ResizedSize(size, capacity, request) == request <==> size == capacity
    ensures ResizedSize(size, capacity, request) < 0 <==> request < capacity - size
  {
  }
}
