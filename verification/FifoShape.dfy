/**
 The shape of the block deque of src/buffer.c: how many blocks it has claimed, the capacity of
 its block vector, the offset of its newest element and its size. What every operation does to
 the shape is a function here; the class `Fifo` is proved to follow it, and the bounds over
 whole runs are proved about it.
 */
module FifoShape {
  import opened Arithmetic
  import opened Buffers

  /** Block size and filling ratio (`num / den`), fixed when the library is built. */
  datatype Policy = Policy(b: nat, num: nat, den: nat) {
    predicate Valid() {
      b > 0 && num > 0 && den > 0
    }
  }

  /** `n` claimed blocks in a vector of `c` entries; `size` elements from slot `f` on. */
  datatype Shape = Shape(n: nat, c: nat, f: nat, size: nat)

  datatype Outcome = Outcome(shape: Shape, stored: bool, moved: nat)

  /** A new deque: one block, all of it free. */
  function Fresh(p: Policy): Shape {
    Shape.Shape(1, 1, p.b, 0)
  }

  /** Slots of the claimed blocks. */
  function Slots(p: Policy, s: Shape): nat {
    s.n * p.b
  }

  /** The invariant of the deque: the elements fit, and the oldest one is in the last block. */
  ghost predicate WellShaped(p: Policy, s: Shape) {
    && 1 <= s.n <= s.c <= 2 * s.n
    && IsPow2(s.c)
    && s.f + s.size <= Slots(p, s)
    && (s.n == 1 || s.f + s.size > (s.n - 1) * p.b)
  }

  /** The filling ratio is reached, so more memory is preferred to shifting. */
  predicate WantsBlock(p: Policy, s: Shape) {
    s.f == 0 && s.size * p.den >= Slots(p, s) * p.num
  }

  /** First part of a push: ask for a block. The two flags are the allocator's answers. */
  function AfterReserve(p: Policy, s: Shape, vectorOk: bool, blockOk: bool): Shape {
    if !WantsBlock(p, s) then s
    else if s.n == s.c && !vectorOk then s
    else
      var c := if s.n == s.c then GrownCapacity(s.c) else s.c;
      if blockOk then Shape(s.n + 1, c, p.b, s.size) else s.(c := c)
  }

  /** Second part of a push: no room on the left but not full. */
  predicate MustShift(p: Policy, s: Shape) {
    s.f == 0 && s.size != Slots(p, s)
  }

  function AfterShift(p: Policy, s: Shape): Shape {
    if MustShift(p, s) && s.size <= Slots(p, s) then s.(f := Slots(p, s) - s.size) else s
  }

  /** The whole push, src/buffer.c:317-412. */
  function AfterPush(p: Policy, s: Shape, vectorOk: bool, blockOk: bool): Outcome {
    var r := AfterReserve(p, s, vectorOk, blockOk);
    var t := AfterShift(p, r);
    var moved := if MustShift(p, r) then r.size else 0;
    if t.f == 0 then Outcome(t, false, moved)
    else Outcome(t.(f := t.f - 1, size := t.size + 1), true, moved)
  }

  /** The block rotation of a pop takes place when the last block has just been emptied. */
  predicate Rotates(p: Policy, s: Shape) {
    s.n != 1 && s.f + s.size == (s.n - 1) * p.b + 1
  }

  /** The whole pop of a non-empty deque, src/buffer.c:414-473. */
  function AfterPop(p: Policy, s: Shape): Shape
    requires s.size > 0
  {
    Shape(s.n, s.c, if Rotates(p, s) then s.f + p.b else s.f, s.size - 1)
  }

  lemma FreshIsWellShaped(p: Policy)
    requires p.Valid()
    ensures WellShaped(p, Fresh(p))
  {
    assert Pow2(0) == 1;
  }

  /** The ratio is positive, so an empty deque never asks for a block. */
  lemma WantsMeansNonEmpty(p: Policy, s: Shape)
    requires p.Valid() && s.n > 0 && WantsBlock(p, s)
    ensures s.size > 0
  {
    PositiveProduct(s.n, p.b);
    PositiveProduct(Slots(p, s), p.num);
    assert 0 * p.den == 0;
  }

  /** One more block on the left of a deque whose other blocks are all in use. */
  lemma ClaimKeepsShape(p: Policy, s: Shape)
    requires p.Valid() && WellShaped(p, s)
    requires s.f == 0 && s.n < s.c && s.size > 0 && s.size > (s.n - 1) * p.b
    ensures WellShaped(p, Shape.Shape(s.n + 1, s.c, p.b, s.size))
  {
    NextBlock(s.n, p.b);
    NextBlock(s.n - 1, p.b);
  }

  /** A deque that asks for a block has all its other blocks in use. */
  lemma WantsMeansOthersInUse(p: Policy, s: Shape)
    requires p.Valid() && WellShaped(p, s) && WantsBlock(p, s)
    ensures s.f == 0 && s.size > 0 && s.size > (s.n - 1) * p.b
  {
    WantsMeansNonEmpty(p, s);
  }

  /** What asking for a block comes to, by the allocator's answers. */
  lemma ReserveCases(p: Policy, s: Shape, vectorOk: bool, blockOk: bool)
    requires p.Valid() && WellShaped(p, s) && WantsBlock(p, s)
    ensures var reserved := s.n < s.c || vectorOk;
            var grown := s.(c := if s.n == s.c && reserved then 2 * s.c else s.c);
            && WellShaped(p, grown)
            && (reserved ==> grown.n < grown.c)
            && AfterReserve(p, s, vectorOk, blockOk) ==
                 if reserved && blockOk then Shape.Shape(s.n + 1, grown.c, p.b, s.size) else grown
  {
    GrowthDoubles(s.c);
  }

  /** Asking for a block keeps the invariant; one is added only when the others are in use. */
  lemma ReserveKeepsShape(p: Policy, s: Shape, vectorOk: bool, blockOk: bool)
    requires p.Valid() && WellShaped(p, s)
    ensures var r := AfterReserve(p, s, vectorOk, blockOk);
            && WellShaped(p, r)
            && r.size == s.size
            && (r.n == s.n || (r.n == s.n + 1 && s.f == 0 && s.size > 0 && s.size > (s.n - 1) * p.b))
  {
    GrowthDoubles(s.c);
    if WantsBlock(p, s) {
      WantsMeansOthersInUse(p, s);
      ClaimKeepsShape(p, s.(c := if s.n == s.c then 2 * s.c else s.c));
    }
  }

  lemma PositiveProduct(x: nat, y: nat)
    requires x > 0 && y > 0
    ensures x * y > 0
  {
  }

  lemma ShiftKeepsShape(p: Policy, s: Shape)
    requires p.Valid() && WellShaped(p, s)
    ensures WellShaped(p, AfterShift(p, s)) && AfterShift(p, s).size == s.size
  {
    NextBlock(s.n - 1, p.b);
  }

  /** A push keeps the invariant whatever the allocator answers. */
  lemma PushKeepsShape(p: Policy, s: Shape, vectorOk: bool, blockOk: bool)
    requires p.Valid() && WellShaped(p, s)
    ensures WellShaped(p, AfterPush(p, s, vectorOk, blockOk).shape)
  {
    ReserveKeepsShape(p, s, vectorOk, blockOk);
    ShiftKeepsShape(p, AfterReserve(p, s, vectorOk, blockOk));
  }

  /** A push is refused exactly when every slot is taken and no block could be added to it. */
  lemma PushFailsExactlyWhen(p: Policy, s: Shape, vectorOk: bool, blockOk: bool)
    requires p.Valid() && WellShaped(p, s)
    ensures !AfterPush(p, s, vectorOk, blockOk).stored <==>
              && s.size == Slots(p, s)
              && (p.num > p.den || !blockOk || (s.n == s.c && !vectorOk))
  {
    ReserveKeepsShape(p, s, vectorOk, blockOk);
    var slots := Slots(p, s);
    PositiveProduct(s.n, p.b);
    if s.size == slots {
      if p.num <= p.den {
        assert slots * p.den >= slots * p.num by { ProductMono(slots, p.num, p.den); }
      } else {
        assert slots * p.den < slots * p.num by { ProductStrict(slots, p.den, p.num); }
      }
    }
  }

  /**
   The filling ratio decides, in numbers: with no room on the left, memory is asked for exactly when the
   elements have reached that part of the slots. Then a granted block takes the push without moving
   anything; in all other cases elements move to the right end, exactly when there is room there.
   */
  lemma PushExactly(p: Policy, s: Shape, vectorOk: bool, blockOk: bool)
    requires p.Valid() && WellShaped(p, s)
    ensures var o := AfterPush(p, s, vectorOk, blockOk);
            var asks := s.f == 0 && s.size * p.den >= s.n * p.b * p.num;
            var claims := asks && blockOk && (s.n < s.c || vectorOk);
            && o.shape.n == (if claims then s.n + 1 else s.n)
            && o.shape.c == (if asks && s.n == s.c && vectorOk then 2 * s.c else s.c)
            && (s.f > 0 ==> o == Outcome(s.(f := s.f - 1, size := s.size + 1), true, 0))
            && (claims ==> o.stored && o.moved == 0 && o.shape.f == p.b - 1)
            && (s.f == 0 && !claims ==>
                  && o.moved == (if s.size < s.n * p.b then s.size else 0)
                  && o.stored == (s.size < s.n * p.b)
                  && o.shape.f == if o.stored then s.n * p.b - s.size - 1 else 0)
            && o.shape.size == if o.stored then s.size + 1 else s.size
  {
    GrowthDoubles(s.c);
    PositiveProduct(s.n, p.b);
    if WantsBlock(p, s) {
      WantsMeansNonEmpty(p, s);
      NextBlock(s.n, p.b);
    }
  }

  lemma ProductMono(x: nat, y: nat, z: nat)
    requires y <= z
    ensures x * y <= x * z
  {
  }

  lemma ProductStrict(x: nat, y: nat, z: nat)
    requires y < z && x > 0
    ensures x * y < x * z
  {
  }

  /** A pop keeps the invariant. */
  lemma PopKeepsShape(p: Policy, s: Shape)
    requires p.Valid() && WellShaped(p, s) && s.size > 0
    ensures WellShaped(p, AfterPop(p, s))
  {
    if s.n > 1 {
      assert s.n * p.b == (s.n - 1) * p.b + p.b;
    }
  }

  // ------------------------------------------------------------------------------------------
  // Whole runs
  // ------------------------------------------------------------------------------------------

  /** One operation on the deque, a push with the allocator's two answers. */
  datatype Op = Push(e: Buffer, vectorOk: bool, blockOk: bool) | Pop {
    predicate Granted() {
      Push? ==> vectorOk && blockOk
    }
  }

  /** What a run of operations has done so far. */
  datatype Totals = Totals(shape: Shape, pushes: nat, moved: nat, peak: nat)

  function Start(p: Policy): Totals {
    Totals(Fresh(p), 0, 0, 0)
  }

  function Max(x: nat, y: nat): nat {
    if x < y then y else x
  }

  function Step(p: Policy, t: Totals, op: Op): Totals {
    match op
    case Push(_, v, k) =>
      var o := AfterPush(p, t.shape, v, k);
      Totals(o.shape, t.pushes + 1, t.moved + o.moved, Max(t.peak, o.shape.size))
    case Pop =>
      if t.shape.size == 0 then t else t.(shape := AfterPop(p, t.shape))
  }

  function Run(p: Policy, ops: seq<Op>): Totals {
    if |ops| == 0 then Start(p) else Step(p, Run(p, ops[..|ops| - 1]), ops[|ops| - 1])
  }

  /** The elements a run of operations stores, in order: those of the pushes not refused. */
  function Stored(p: Policy, ops: seq<Op>): seq<Buffer> {
    if |ops| == 0 then []
    else
      var pre, op := ops[..|ops| - 1], ops[|ops| - 1];
      if op.Push? && AfterPush(p, Run(p, pre).shape, op.vectorOk, op.blockOk).stored
      then Stored(p, pre) + [op.e]
      else Stored(p, pre)
  }

  /** The peak is the largest size that was ever reached, and the pushes are counted. */
  lemma {:induction false} PeakIsReached(p: Policy, ops: seq<Op>)
    ensures exists i | 0 <= i <= |ops| :: Run(p, ops[..i]).shape.size == Run(p, ops).peak
    ensures forall i | 0 <= i <= |ops| :: Run(p, ops[..i]).shape.size <= Run(p, ops).peak
  {
    hide AfterPush, AfterPop;
    if |ops| == 0 {
      assert ops[..0] == ops;
      assert Run(p, ops[..0]).shape.size == 0;
    } else {
      var pre := ops[..|ops| - 1];
      PeakIsReached(p, pre);
      assert pre[..|pre|] == pre;
      PeakStep(p, Run(p, pre), ops[|ops| - 1]);
      assert ops[..|ops|] == ops;
      forall i | 0 <= i <= |ops| ensures Run(p, ops[..i]).shape.size <= Run(p, ops).peak {
        if i <= |pre| {
          assert ops[..i] == pre[..i];
        }
      }
      if Run(p, ops).peak == Run(p, ops).shape.size {
        assert Run(p, ops[..|ops|]).shape.size == Run(p, ops).peak;
      } else {
        var i :| 0 <= i <= |pre| && Run(p, pre[..i]).shape.size == Run(p, pre).peak;
        assert ops[..i] == pre[..i];
      }
    }
  }

  lemma PeakStep(p: Policy, t: Totals, op: Op)
    requires t.shape.size <= t.peak
    ensures var t' := Step(p, t, op);
            && t'.shape.size <= t'.peak && t.peak <= t'.peak && (t'.peak == t.peak || t'.peak == t'.shape.size)
  {
  }

  lemma {:induction false} PushesAreCounted(p: Policy, ops: seq<Op>)
    ensures Run(p, ops).pushes == |set i | 0 <= i < |ops| && ops[i].Push?|
  {
    hide AfterPush, AfterPop;
    if |ops| > 0 {
      var m := |ops| - 1;
      PushesAreCounted(p, ops[..m]);
      var before, all := set i | 0 <= i < m && ops[..m][i].Push?, set i | 0 <= i < |ops| && ops[i].Push?;
      assert all == if ops[m].Push? then before + {m} else before;
    }
  }

  /** What every run keeps: the invariant, and a claimed block is paid for by the peak size. */
  ghost predicate Bounded(p: Policy, t: Totals) {
    && WellShaped(p, t.shape)
    && t.shape.size <= t.peak
    && (t.shape.n >= 2 ==> (t.shape.n - 2) * p.b < t.peak)
  }

  lemma {:induction false} RunIsBounded(p: Policy, ops: seq<Op>)
    requires p.Valid()
    ensures Bounded(p, Run(p, ops))
  {
    if |ops| == 0 {
      FreshIsWellShaped(p);
    } else {
      RunIsBounded(p, ops[..|ops| - 1]);
      StepKeepsBounds(p, Run(p, ops[..|ops| - 1]), ops[|ops| - 1]);
    }
  }

  lemma StepKeepsBounds(p: Policy, t: Totals, op: Op)
    requires p.Valid() && Bounded(p, t)
    ensures Bounded(p, Step(p, t, op))
  {
    match op
    case Push(_, v, k) =>
      PushKeepsShape(p, t.shape, v, k);
      ReserveKeepsShape(p, t.shape, v, k);
    case Pop =>
      if t.shape.size > 0 {
        PopKeepsShape(p, t.shape);
      }
  }

  // ------------------------------------------------------------------------------------------
  // The filling ratio
  // ------------------------------------------------------------------------------------------

  /** Where a pop looks for the oldest element in the last block, src/buffer.c:436-438, were it an integer. */
  function FrontEntry(p: Policy, s: Shape): int {
    p.b - (Slots(p, s) - (s.size + s.f)) - 1
  }

  lemma FrontEntryIsInside(p: Policy, s: Shape)
    requires p.Valid() && WellShaped(p, s) && s.size > 0
    ensures 0 <= FrontEntry(p, s) < p.b
  {
    NextBlock(s.n - 1, p.b);
  }

  /** `k` pushes that are granted whatever they ask for. */
  function Pushes(k: nat): seq<Op> {
    if k == 0 then [] else Pushes(k - 1) + [Push(0, true, true)]
  }

  function Pops(k: nat): seq<Op> {
    if k == 0 then [] else Pops(k - 1) + [Pop]
  }

  lemma RunOneMore(p: Policy, ops: seq<Op>, op: Op)
    ensures Run(p, ops + [op]) == Step(p, Run(p, ops), op)
  {
    assert (ops + [op])[..|ops|] == ops;
  }

  /** The first block fills from the right end to the left one. */
  lemma {:induction false} FillsFirstBlock(p: Policy, k: nat)
    requires k <= p.b
    ensures Run(p, Pushes(k)).shape == Shape.Shape(1, 1, p.b - k, k)
  {
    if k > 0 {
      FillsFirstBlock(p, k - 1);
      RunOneMore(p, Pushes(k - 1), Push(0, true, true));
    }
  }

  /** Popping from a deque of one block leaves the offset where it is. */
  lemma {:induction false} EmptiesFirstBlock(p: Policy, k: nat)
    requires k <= p.b
    ensures Run(p, Pushes(p.b) + Pops(k)).shape == Shape.Shape(1, 1, 0, p.b - k)
  {
    hide Run, AfterPush;
    if k == 0 {
      FillsFirstBlock(p, p.b);
      assert Pushes(p.b) + Pops(0) == Pushes(p.b);
    } else {
      EmptiesFirstBlock(p, k - 1);
      RunOneMore(p, Pushes(p.b) + Pops(k - 1), Pop);
      assert Pushes(p.b) + Pops(k) == (Pushes(p.b) + Pops(k - 1)) + [Pop];
    }
  }

  /** One block filled, emptied, and pushed to again. */
  function Refill(p: Policy): seq<Op> {
    Pushes(p.b) + Pops(p.b) + [Push(0, true, true)]
  }

  /**
   With filling ratio 0 the run `Refill` breaks the invariant: the emptied deque claims a second
   block although its first one is free. The next pop then computes an entry before the last block.
   */
  lemma RatioZeroBreaksTheInvariant(p: Policy)
    requires p.b > 0 && p.num == 0
    ensures var s := Run(p, Refill(p)).shape;
            !WellShaped(p, s) && s.size > 0 && FrontEntry(p, s) == -1
  {
    var s := Shape.Shape(1, 1, 0, 0);
    EmptiesFirstBlock(p, p.b);
    RunOneMore(p, Pushes(p.b) + Pops(p.b), Push(0, true, true));
    assert Pow2(0) == 1;
    GrowthDoubles(1);
    assert Slots(p, s) * p.num == 0;
    assert WantsBlock(p, s);
    assert AfterReserve(p, s, true, true) == Shape.Shape(2, 2, p.b, 0);
  }

  /** Every run keeps the invariant exactly when the filling ratio is positive. */
  lemma PositiveRatioExactly(p: Policy)
    requires p.b > 0 && p.den > 0
    ensures (forall ops :: WellShaped(p, Run(p, ops).shape)) <==> p.num > 0
  {
    if p.num > 0 {
      forall ops ensures WellShaped(p, Run(p, ops).shape) {
        RunIsBounded(p, ops);
      }
    } else {
      RatioZeroBreaksTheInvariant(p);
    }
  }

  /** After every run the next pop stays inside the last block exactly when the filling ratio is positive. */
  lemma PopsStayInsideExactly(p: Policy)
    requires p.b > 0 && p.den > 0
    ensures (forall ops :: Run(p, ops).shape.size > 0 ==> 0 <= FrontEntry(p, Run(p, ops).shape) < p.b) <==> p.num > 0
  {
    if p.num > 0 {
      forall ops | Run(p, ops).shape.size > 0 ensures 0 <= FrontEntry(p, Run(p, ops).shape) < p.b {
        RunIsBounded(p, ops);
        FrontEntryIsInside(p, Run(p, ops).shape);
      }
    } else {
      RatioZeroBreaksTheInvariant(p);
    }
  }

  /**
   Memory bound over whole runs and every pattern of allocation failures: the blocks never
   exceed what the largest size reached needs by more than two, and the vector is at most half
   empty.
   */
  lemma MemoryBound(p: Policy, ops: seq<Op>)
    requires p.Valid()
    ensures var t := Run(p, ops);
            && t.shape.n <= t.peak / p.b + 2
            && t.shape.n <= t.shape.c <= 2 * t.shape.n
  {
    RunIsBounded(p, ops);
    BoundedMeansSmall(p, Run(p, ops));
  }

  lemma BoundedMeansSmall(p: Policy, t: Totals)
    requires p.Valid() && Bounded(p, t)
    ensures t.shape.n <= t.peak / p.b + 2
  {
    BlockAtLeast(t.peak, 0, p.b);
    if t.shape.n >= 2 {
      AtLeastPerBlock(t.peak, t.shape.n - 2, p.b);
    }
  }

  lemma AtLeastPerBlock(k: nat, m: nat, b: nat)
    requires b > 0 && m * b < k
    ensures m <= k / b
  {
    BlockAtLeast(k, m, b);
  }

  /** Potential of a shape: how far the newest element is past the middle of the first block. */
  function Potential(p: Policy, s: Shape): nat {
    if 2 * s.f < p.b then p.b - 2 * s.f else 0
  }

  lemma StepPaysForShifts(p: Policy, t: Totals, op: Op)
    requires p.Valid() && 2 * p.num <= p.den
    requires WellShaped(p, t.shape) && op.Granted()
    requires 2 * t.moved + Potential(p, t.shape) <= 2 * t.pushes
    ensures var u := Step(p, t, op);
            2 * u.moved + Potential(p, u.shape) <= 2 * u.pushes
    ensures op.Push? && AfterPush(p, t.shape, true, true).moved > 0 ==> t.shape.n == 1
  {
    var s := t.shape;
    if op.Push? && !WantsBlock(p, s) && s.f == 0 {
      ShiftOnlyInOneBlock(p, s);
    }
  }

  /** With a ratio of at most one half, a deque of two or more blocks never wants to shift. */
  lemma ShiftOnlyInOneBlock(p: Policy, s: Shape)
    requires p.Valid() && 2 * p.num <= p.den
    requires WellShaped(p, s) && s.f == 0 && !WantsBlock(p, s)
    ensures s.n == 1 && 2 * s.size < p.b
  {
    var slots := Slots(p, s);
    HalfRatio(s.size, slots, p.num, p.den);
    if s.n >= 2 {
      NextBlock(s.n - 1, p.b);
      MulMono(1, s.n - 1, p.b);
      assert false;
    }
  }

  /** Below a ratio of at most one half, less than half of the slots are taken. */
  lemma HalfRatio(size: nat, slots: nat, num: nat, den: nat)
    requires size * den < slots * num && 2 * num <= den
    ensures 2 * size < slots
  {
    ProductMono(slots, 2 * num, den);
    assert den * (2 * size) == 2 * (size * den);
    assert slots * (2 * num) == 2 * (slots * num);
    if 2 * size >= slots {
      ProductMono(den, slots, 2 * size);
      assert false;
    }
  }

  lemma {:induction false} RunPaysForShifts(p: Policy, ops: seq<Op>)
    requires p.Valid() && 2 * p.num <= p.den
    requires forall i | 0 <= i < |ops| :: ops[i].Granted()
    ensures var t := Run(p, ops);
            2 * t.moved + Potential(p, t.shape) <= 2 * t.pushes
  {
    if |ops| > 0 {
      var pre := ops[..|ops| - 1];
      RunPaysForShifts(p, pre);
      RunIsBounded(p, pre);
      StepPaysForShifts(p, Run(p, pre), ops[|ops| - 1]);
    }
  }

  /**
   Amortised cost: with a filling ratio of at most one half (the default) and an allocator that
   does not refuse, a run never moves more elements than it pushes.
   */
  lemma AmortisedCost(p: Policy, ops: seq<Op>)
    requires p.Valid() && 2 * p.num <= p.den
    requires forall i | 0 <= i < |ops| :: ops[i].Granted()
    ensures Run(p, ops).moved <= Run(p, ops).pushes
  {
    RunPaysForShifts(p, ops);
  }
}
