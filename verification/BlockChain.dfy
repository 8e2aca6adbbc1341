/**
 The contents of a chain of equally long blocks, as values: slot numbering, and what writing a
 slot, adding a block on the left and rotating the blocks do to the queue stored in the slots.
 */
module BlockChain {
  import opened Arithmetic
  import opened Buffers

  /** Every row has `b` slots. */
  ghost predicate Sized(rows: seq<seq<Buffer>>, b: nat) {
    b > 0 && forall i | 0 <= i < |rows| :: |rows[i]| == b
  }

  /** All slots from left to right. */
  ghost function Flat(rows: seq<seq<Buffer>>): seq<Buffer> {
    if |rows| == 0 then [] else rows[0] + Flat(rows[1..])
  }

  lemma {:induction false} FlatLength(rows: seq<seq<Buffer>>, b: nat)
    requires Sized(rows, b)
    ensures |Flat(rows)| == |rows| * b
  {
    if |rows| > 0 {
      FlatLength(rows[1..], b);
      NextBlock(|rows| - 1, b);
    }
  }

  /** Slot `k` is in block `k / b` at offset `k % b`. */
  lemma {:induction false} FlatAt(rows: seq<seq<Buffer>>, b: nat, k: nat)
    requires Sized(rows, b) && k < |Flat(rows)|
    ensures k / b < |rows| && k % b < b
    ensures Flat(rows)[k] == rows[k / b][k % b]
  {
    SplitSlot(k, b);
    if k < b {
      JoinSlot(0, k, b);
    } else {
      FlatAt(rows[1..], b, k - b);
      PreviousBlock(k, b);
    }
  }

  lemma PreviousBlock(k: nat, b: nat)
    requires b > 0 && k >= b
    ensures k / b == (k - b) / b + 1 && k % b == (k - b) % b
  {
    SplitSlot(k - b, b);
    NextBlock((k - b) / b, b);
    JoinSlot((k - b) / b + 1, (k - b) % b, b);
  }

  lemma {:induction false} FlatConcat(x: seq<seq<Buffer>>, y: seq<seq<Buffer>>)
    ensures Flat(x + y) == Flat(x) + Flat(y)
  {
    if |x| == 0 {
      assert x + y == y;
    } else {
      assert (x + y)[1..] == x[1..] + y;
      FlatConcat(x[1..], y);
      assert x[0] + (Flat(x[1..]) + Flat(y)) == (x[0] + Flat(x[1..])) + Flat(y);
    }
  }

  /** The rows after a write to slot `k`. */
  ghost function Written(rows: seq<seq<Buffer>>, b: nat, k: nat, e: Buffer): (r: seq<seq<Buffer>>)
    requires b > 0 && k / b < |rows| && k % b < |rows[k / b]|
    ensures |r| == |rows|
  {
    rows[k / b := rows[k / b][k % b := e]]
  }

  /** A write changes the one slot it names. */
  lemma {:induction false} WrittenFlat(rows: seq<seq<Buffer>>, b: nat, k: nat, e: Buffer)
    requires Sized(rows, b) && k < |Flat(rows)|
    requires k / b < |rows| && k % b < b
    ensures Sized(Written(rows, b, k, e), b)
    ensures Flat(Written(rows, b, k, e)) == Flat(rows)[k := e]
  {
    SplitSlot(k, b);
    var w := Written(rows, b, k, e);
    if k < b {
      JoinSlot(0, k, b);
      assert w[1..] == rows[1..];
    } else {
      PreviousBlock(k, b);
      WrittenFlat(rows[1..], b, k - b, e);
      assert w[1..] == Written(rows[1..], b, k - b, e);
    }
  }

  /** Slot `n * b - 1 - i`, counted from the right: the arithmetic of src/buffer.c:270-274. */
  lemma MirrorSlot(i: nat, n: nat, b: nat)
    requires b > 0 && i < n * b
    ensures i / b < n && i % b < b
    ensures (n * b - 1 - i) / b == n - 1 - i / b
    ensures (n * b - 1 - i) % b == b - 1 - i % b
  {
    SplitSlot(i, b);
    BlockBound(i, n, b);
    var q, r := n - 1 - i / b, b - 1 - i % b;
    assert n * b == (n - i / b) * b + (i / b) * b;
    NextBlock(q, b);
    assert n * b - 1 - i == q * b + r;
    JoinSlot(q, r, b);
  }

  // ------------------------------------------------------------------------------------------
  // The queue in the slots
  // ------------------------------------------------------------------------------------------

  /** Slots `[lo, lo + |q|)` hold the queue `q`, oldest element rightmost. */
  ghost predicate Holds(slots: seq<Buffer>, lo: nat, q: seq<Buffer>) {
    && lo + |q| <= |slots|
    && forall j | 0 <= j < |q| :: slots[lo + |q| - 1 - j] == q[j]
  }

  /** A right shift of the queue `q` from slot `lo` on, after its first `i` rounds. */
  ghost predicate Shifting(slots: seq<Buffer>, lo: nat, q: seq<Buffer>, i: nat) {
    && lo + |q| <= |slots|
    && i <= |q|
    && (forall j | 0 <= j < i :: slots[|slots| - 1 - j] == q[j])
    && (forall j | i <= j < |q| :: slots[lo + |q| - 1 - j] == q[j])
  }

  /** The overlapping move is right: a round never overwrites an element still to be read. */
  lemma ShiftOneMore(slots: seq<Buffer>, lo: nat, q: seq<Buffer>, i: nat)
    requires Shifting(slots, lo, q, i) && i < |q|
    ensures Shifting(slots[|slots| - 1 - i := slots[lo + |q| - 1 - i]], lo, q, i + 1)
  {
  }

  lemma ShiftedAll(slots: seq<Buffer>, lo: nat, q: seq<Buffer>)
    requires Shifting(slots, lo, q, |q|)
    ensures Holds(slots, |slots| - |q|, q)
  {
  }

  /** The newest element goes to the slot on the left of the others. */
  lemma HoldsOneMore(slots: seq<Buffer>, lo: nat, q: seq<Buffer>, e: Buffer)
    requires lo > 0 && Holds(slots, lo, q)
    ensures Holds(slots[lo - 1 := e], lo - 1, q + [e])
  {
  }

  /** The oldest element is the rightmost one. */
  lemma HoldsOneLess(slots: seq<Buffer>, lo: nat, q: seq<Buffer>)
    requires |q| > 0 && Holds(slots, lo, q)
    ensures slots[lo + |q| - 1] == q[0]
    ensures Holds(slots, lo, q[1..])
  {
    forall j | 0 <= j < |q| - 1 ensures slots[lo + |q| - 1 - 1 - j] == q[1..][j] {
      assert slots[lo + |q| - 1 - (j + 1)] == q[j + 1];
    }
  }

  /** A new block on the left moves every slot one block to the right. */
  lemma PrependedHolds(rows: seq<seq<Buffer>>, row: seq<Buffer>, lo: nat, q: seq<Buffer>)
    requires Holds(Flat(rows), lo, q)
    ensures Holds(Flat([row] + rows), lo + |row|, q)
  {
    assert ([row] + rows)[1..] == rows;
  }

  /** Where entry `i` comes from when the last of `n` entries moves to position `m`. */
  function Source(n: nat, m: nat, i: nat): nat
    requires m < n && i < n
  {
    if i < m then i else if i == m then n - 1 else i - 1
  }

  /** `xs` with its last entry moved to position `m`: the block rotation of a pop. */
  ghost function Rotated<T>(xs: seq<T>, m: nat): (r: seq<T>)
    requires m < |xs|
    ensures |r| == |xs|
    ensures forall i | 0 <= i < |xs| :: r[i] == xs[Source(|xs|, m, i)]
  {
    xs[..m] + [xs[|xs| - 1]] + xs[m..|xs| - 1]
  }

  ghost function Elements<T>(xs: seq<T>): set<T> {
    set x | x in xs
  }

  /** Rotating loses no entry and adds none. */
  lemma RotatedElements<T>(xs: seq<T>, m: nat)
    requires m < |xs|
    ensures Elements(Rotated(xs, m)) == Elements(xs)
  {
    forall x | x in xs ensures x in Rotated(xs, m) {
      var i :| 0 <= i < |xs| && xs[i] == x;
      var j := if i < m then i else if i == |xs| - 1 then m else i + 1;
      assert Rotated(xs, m)[j] == x;
    }
  }

  lemma PrependedElements<T>(x: T, xs: seq<T>)
    ensures Elements([x] + xs) == {x} + Elements(xs)
  {
  }

  /** Rotating the last block to position `m` moves the slots from `m * b` on by a block. */
  lemma RotatedFlat(rows: seq<seq<Buffer>>, b: nat, m: nat)
    requires Sized(rows, b) && m < |rows|
    ensures m * b + b <= |Flat(rows)| == |Flat(Rotated(rows, m))|
    ensures Flat(Rotated(rows, m))[m * b + b..] == Flat(rows)[m * b..|Flat(rows)| - b]
  {
    var left, mid, last := rows[..m], rows[m..|rows| - 1], [rows[|rows| - 1]];
    assert rows == left + mid + last;
    FlatConcat(left + mid, last);
    FlatConcat(left, mid);
    FlatConcat(left + last, mid);
    FlatConcat(left, last);
    FlatLength(left, b);
    assert Flat(last) == last[0] + Flat(last[1..]);
    assert Flat(rows) == Flat(left) + Flat(mid) + Flat(last);
    assert Flat(Rotated(rows, m)) == Flat(left) + Flat(last) + Flat(mid);
  }

  /** Once the last block is empty, rotating it keeps the queue, one block further to the right. */
  lemma RotatedHolds(rows: seq<seq<Buffer>>, b: nat, lo: nat, q: seq<Buffer>)
    requires Sized(rows, b) && lo / b < |rows|
    requires Holds(Flat(rows), lo, q) && lo + |q| <= |Flat(rows)| - b
    ensures Sized(Rotated(rows, lo / b), b)
    ensures Holds(Flat(Rotated(rows, lo / b)), lo + b, q)
  {
    var m := lo / b;
    RotatedFlat(rows, b, m);
    SplitSlot(lo, b);
    var was, now := Flat(rows), Flat(Rotated(rows, m));
    forall j | 0 <= j < |q| ensures now[lo + b + |q| - 1 - j] == q[j] {
      var k := lo + |q| - 1 - j;
      assert now[k + b] == now[m * b + b..][k - m * b];
      assert was[k] == was[m * b..|was| - b][k - m * b];
    }
  }

  /**
   When the queue ends where the last block begins, the loop bound of src/buffer.c:452 is the
   number of blocks right of the queue's first one, and so exactly those still occupied.
   */
  lemma OccupiedBlocks(lo: nat, size: nat, n: nat, b: nat)
    requires b > 0 && n > 1 && lo + size == (n - 1) * b
    ensures lo / b < n
    ensures (lo % b + size) / b == n - 1 - lo / b
  {
    SplitSlot(lo, b);
    if lo / b >= n {
      MulMono(n, lo / b, b);
      NextBlock(n - 1, b);
      assert false;
    }
    assert (n - 1 - lo / b) * b == (n - 1) * b - (lo / b) * b;
    JoinSlot(n - 1 - lo / b, 0, b);
  }
}
