/** What every step of the pipeline keeps. */
module Invariant {
  import opened Buffers
  import opened Channel
  import opened Program
  import opened Machine

  // ------------------------------------------------------------------------------------------
  // Who owns a buffer
  // ------------------------------------------------------------------------------------------

  /** The buffer in the producer's hand: between push and reset the FIFO owns it already. */
  function ProducerHand(w: Worker): seq<Buffer> {
    if w.output == None || w.pc == Post || w.pc == ResetOut then [] else [w.output.value]
  }

  /** The buffer in the consumer's hand: between put-back and reset the pool owns it already. */
  function ConsumerHand(w: Worker): seq<Buffer> {
    if w.input == None || w.pc == ResetIn then [] else [w.input.value]
  }

  /** Every buffer of the pipe is in exactly one place. */
  ghost predicate Conserved(buffers: seq<Buffer>, prod: Worker, p: Pipe, cons: Worker) {
    multiset(p.pool) + multiset(p.fifo) + multiset(ProducerHand(prod)) + multiset(ConsumerHand(cons))
      == multiset(buffers)
  }

  // ------------------------------------------------------------------------------------------
  // The pipe
  // ------------------------------------------------------------------------------------------

  /** Pushed, but the permit is not released yet. */
  function Owed(prod: Worker): nat {
    if prod.pc == Post then 1 else 0
  }

  /** A permit is acquired, but the buffer is not popped yet. */
  function Due(cons: Worker): nat {
    if cons.pc == Pull then 1 else 0
  }

  /** The semaphore counts the full buffers, up to the operations in progress. */
  ghost predicate Ledger(prod: Worker, p: Pipe, cons: Worker) {
    |p.fifo| == p.permits + Owed(prod) + Due(cons)
  }

  /** What was pushed and not popped is in the FIFO, in order and not overwritten. */
  ghost predicate Intact(p: Pipe) {
    && |p.sent| == |p.received| + |p.fifo|
    && p.received <= p.sent
    && forall i | 0 <= i < |p.fifo| :: p.mem(p.fifo[i]) == p.sent[|p.received| + i]
  }

  /** The consumer works on the last buffer it popped, and that still holds what was pushed. */
  ghost predicate InHandIntact(p: Pipe, cons: Worker) {
    cons.input != None && !cons.readyToPull ==>
      |p.received| > 0 && p.mem(cons.input.value) == p.received[|p.received| - 1]
  }

  ghost predicate PipeInv(buffers: seq<Buffer>, prod: Worker, p: Pipe, cons: Worker) {
    && Conserved(buffers, prod, p, cons)
    && p.total == p.capacity == |buffers|
    && Ledger(prod, p, cons)
    && Intact(p)
    && InHandIntact(p, cons)
  }

  // ------------------------------------------------------------------------------------------
  // The workers
  // ------------------------------------------------------------------------------------------

  /** What the producer has flagged for pushing and not pushed yet. */
  function Pending(w: Worker, out: Pipe): seq<Value> {
    if w.readyToPush && w.output != None && w.pc != Post && w.pc != ResetOut then [out.mem(w.output.value)] else []
  }

  /** Inputs the consumer has popped and not finished with. */
  function Unfinished(w: Worker): nat {
    if w.readyToPull then 0 else 1
  }

  /** How the output flag goes with the program counter. */
  ghost predicate OutputFlags(w: Worker) {
    && (w.readyToPush ==> w.output != None)
    && (w.pc == Post || w.pc == ResetOut ==> w.readyToPush)
    && (w.pc in {Acquire, Pull, Reput, Take, Call} ==> !w.readyToPush)
  }

  ghost predicate SourceInv(prog: Program, w: Worker, out: Pipe) {
    && w.pc in {Top, Gate, Recheck, Exited, Push, Post, ResetOut, Take, Call}
    && OutputFlags(w)
    && (w.pc == Exited ==> w.destroyed)
    && w.input == None
    && var r := RunSource(prog, w.calls);
       && r.user == w.user
       && (r.finished ==> w.destroyed && w.pc in {Top, Exited})
       && r.outs == out.sent + (if r.finished then [] else Pending(w, out))
  }

  ghost predicate StageInv(prog: Program, k: nat, w: Worker, inp: Pipe, out: Pipe) {
    && w.pc != Reput
    && OutputFlags(w)
    && (w.pc == Exited ==> w.destroyed)
    && (w.readyToPull && w.pc !in {PutBack, ResetIn} ==> w.input == None)
    && (!w.readyToPull || w.pc in {PutBack, ResetIn} ==> w.input != None)
    && (w.pc in {Pull, PutBack, ResetIn} ==> w.readyToPull)
    && (w.pc in {Take, Call} ==> !w.readyToPull)
    && var r := RunStage(prog, k, inp.received, w.calls);
       && r.used == w.calls
       && r.user == w.user
       && r.outs == out.sent + Pending(w, out)
       && r.next + Unfinished(w) == |inp.received|
  }

  ghost predicate SinkInv(prog: Program, w: Worker, inp: Pipe) {
    && w.pc in {Top, Gate, Recheck, Exited, Acquire, Pull, Call, PutBack, ResetIn}
    && w.output == None
    && (w.pc == Exited ==> w.destroyed)
    && (w.readyToPull && w.pc in {Acquire, Pull} ==> w.input == None)
    && (!w.readyToPull || w.pc == ResetIn ==> w.input != None)
    && (w.pc in {Pull, ResetIn} ==> w.readyToPull)
    && (w.pc == Call ==> !w.readyToPull)
    && var r := RunSink(prog, inp.received, w.calls);
       && r.used == w.calls
       && r.user == w.user
       && r.next + Unfinished(w) == |inp.received|
  }

  ghost predicate WorkerInv(prog: Program, s: State, k: nat)
    requires Shaped(prog, s) && k <= prog.n + 1
  {
    if k == 0 then SourceInv(prog, s.workers[0], s.pipes[0])
    else if k == prog.n + 1 then SinkInv(prog, s.workers[k], s.pipes[k - 1])
    else StageInv(prog, k, s.workers[k], s.pipes[k - 1], s.pipes[k])
  }

  ghost predicate Inv(setup: Setup, s: State)
  {
    && setup.Valid()
    && Shaped(setup.prog, s)
    && (forall p | 0 <= p <= setup.prog.n ::
          PipeInv(setup.buffers[p], s.workers[p], s.pipes[p], s.workers[p + 1]))
    && (forall k | 0 <= k <= setup.prog.n + 1 :: WorkerInv(setup.prog, s, k))
  }

  lemma InvIsShaped(setup: Setup, s: State)
    requires Inv(setup, s)
    ensures setup.Valid() && Shaped(setup.prog, s)
  {
  }

  lemma WorkerHolds(setup: Setup, s: State, k: nat)
    requires Inv(setup, s) && k <= setup.prog.n + 1
    ensures Shaped(setup.prog, s) && WorkerInv(setup.prog, s, k)
  {
  }

  lemma FreshPipeHolds(prog: Program, buffers: seq<Buffer>, mem: Buffer -> Value, k: nat)
    ensures PipeInv(buffers, FreshWorker(prog, k), FreshPipe(buffers, mem), FreshWorker(prog, k + 1))
  {
  }

  lemma FreshWorkerHolds(setup: Setup, k: nat)
    requires setup.Valid() && k <= setup.prog.n + 1
    ensures WorkerInv(setup.prog, Init(setup), k)
  {
  }

  lemma InitHolds(setup: Setup)
    requires setup.Valid()
    ensures Inv(setup, Init(setup))
  {
    var s := Init(setup);
    forall p | 0 <= p <= setup.prog.n
      ensures PipeInv(setup.buffers[p], s.workers[p], s.pipes[p], s.workers[p + 1])
    {
      FreshPipeHolds(setup.prog, setup.buffers[p], setup.contents[p], p);
    }
    forall k | 0 <= k <= setup.prog.n + 1 ensures WorkerInv(setup.prog, s, k) {
      FreshWorkerHolds(setup, k);
    }
  }

  // ------------------------------------------------------------------------------------------
  // What one worker's step does to the pipe on its left and the pipe on its right
  // ------------------------------------------------------------------------------------------

  lemma InOnePlace(buffers: seq<Buffer>, prod: Worker, p: Pipe, cons: Worker, b: Buffer)
    requires Distinct(buffers) && Conserved(buffers, prod, p, cons)
    ensures multiset(p.pool)[b] + multiset(p.fifo)[b]
            + multiset(ProducerHand(prod))[b] + multiset(ConsumerHand(cons))[b] <= 1
  {
    AtMostOnce(buffers, b);
    assert multiset(buffers)[b] <= 1;
  }

  lemma {:induction false} AtMostOnce(s: seq<Buffer>, b: Buffer)
    requires Distinct(s)
    ensures multiset(s)[b] <= 1
  {
    if |s| > 0 {
      AtMostOnce(s[1..], b);
      assert s == [s[0]] + s[1..];
      if s[0] == b {
        assert b !in s[1..];
        assert b !in multiset(s[1..]);
      }
    }
  }

  lemma PushConserves(buffers: seq<Buffer>, w: Worker, p: Pipe, cons: Worker, skip: PC, ok: bool)
    requires Conserved(buffers, w, p, cons) && w.pc == Push
    requires skip != Post && skip != ResetOut
    ensures var (w', p') := PushStep(w, p, skip, ok); Conserved(buffers, w', p', cons)
  {
  }

  lemma PushKeepsPipe(buffers: seq<Buffer>, w: Worker, p: Pipe, cons: Worker, skip: PC, ok: bool)
    requires PipeInv(buffers, w, p, cons) && w.pc == Push
    requires skip != Post && skip != ResetOut
    ensures var (w', p') := PushStep(w, p, skip, ok); PipeInv(buffers, w', p', cons)
  {
    hide Conserved;
    PushConserves(buffers, w, p, cons, skip, ok);
  }

  lemma PostKeepsPipe(buffers: seq<Buffer>, w: Worker, p: Pipe, cons: Worker)
    requires PipeInv(buffers, w, p, cons) && w.pc == Post
    ensures var (w', p') := PostStep(w, p); PipeInv(buffers, w', p', cons)
  {
  }

  lemma ResetOutKeepsPipe(buffers: seq<Buffer>, w: Worker, p: Pipe, cons: Worker, skip: PC)
    requires PipeInv(buffers, w, p, cons) && w.pc == ResetOut && skip != Post
    ensures PipeInv(buffers, ResetOutStep(w, skip), p, cons)
  {
  }

  lemma TakeConserves(buffers: seq<Buffer>, w: Worker, p: Pipe, cons: Worker)
    requires Conserved(buffers, w, p, cons) && w.pc == Take
    ensures var (w', p') := TakeStep(w, p); Conserved(buffers, w', p', cons)
  {
    if w.output == None && |p.pool| > 0 {
      var rest, b := p.pool[..|p.pool| - 1], p.pool[|p.pool| - 1];
      assert p.pool == rest + [b];
      assert multiset(p.pool) == multiset(rest) + multiset([b]);
      var (w', p') := TakeStep(w, p);
      assert ProducerHand(w) == [] && ProducerHand(w') == [b];
      assert p'.pool == rest && p'.fifo == p.fifo;
      hide TakeStep, ProducerHand;
    } else {
      hide ConsumerHand;
    }
  }

  lemma TakeKeepsPipe(buffers: seq<Buffer>, w: Worker, p: Pipe, cons: Worker)
    requires PipeInv(buffers, w, p, cons) && w.pc == Take
    ensures var (w', p') := TakeStep(w, p); PipeInv(buffers, w', p', cons)
  {
    hide Conserved;
    TakeConserves(buffers, w, p, cons);
  }

  /** The producer writes only the buffer in its hand, so what others rely on stays intact. */
  lemma WriteKeepsPipe(buffers: seq<Buffer>, w: Worker, p: Pipe, cons: Worker, v: Value)
    requires Distinct(buffers) && PipeInv(buffers, w, p, cons)
    requires w.pc != Post && w.pc != ResetOut && w.output != None
    requires cons.pc != ResetIn || cons.readyToPull
    ensures PipeInv(buffers, w, p.(mem := Store(p.mem, w.output.value, v)), cons)
  {
    var b := w.output.value;
    InOnePlace(buffers, w, p, cons, b);
    assert b !in multiset(p.fifo) && b !in multiset(ConsumerHand(cons));
    assert b !in p.fifo && b !in ConsumerHand(cons);
  }

  /** Only the program counter and the hand of the producer matter to its pipe. */
  lemma ProducerFrame(buffers: seq<Buffer>, w: Worker, w': Worker, p: Pipe, cons: Worker)
    requires PipeInv(buffers, w, p, cons)
    requires ProducerHand(w') == ProducerHand(w) && Owed(w') == Owed(w)
    ensures PipeInv(buffers, w', p, cons)
  {
  }

  lemma AcquireKeepsPipe(buffers: seq<Buffer>, prod: Worker, p: Pipe, w: Worker, skip: PC, ok: bool)
    requires PipeInv(buffers, prod, p, w) && w.pc == Acquire
    requires skip != Pull && skip != ResetIn
    ensures var (w', p') := AcquireStep(w, p, skip, ok); PipeInv(buffers, prod, p', w')
  {
  }

  lemma PullKeepsPipe(buffers: seq<Buffer>, prod: Worker, p: Pipe, w: Worker, next: PC)
    requires PipeInv(buffers, prod, p, w) && w.pc == Pull && w.input == None
    requires next != Pull && next != ResetIn
    ensures |p.fifo| > 0
    ensures var (w', p') := PullStep(w, p, next); PipeInv(buffers, prod, p', w')
  {
    assert p.fifo == [p.fifo[0]] + p.fifo[1..];
  }

  /** A put-back finds room: the pool never has to grow. */
  lemma PutBackHasRoom(buffers: seq<Buffer>, prod: Worker, p: Pipe, w: Worker)
    requires PipeInv(buffers, prod, p, w) && w.input != None && w.pc != ResetIn
    ensures |p.pool| < p.capacity
  {
    assert |multiset(p.pool) + multiset(p.fifo) + multiset(ProducerHand(prod)) + multiset(ConsumerHand(w))|
        == |multiset(buffers)|;
  }

  lemma PutBackConserves(buffers: seq<Buffer>, prod: Worker, p: Pipe, w: Worker, ok: bool)
    requires Conserved(buffers, prod, p, w) && w.input != None && w.pc == PutBack && |p.pool| < p.capacity
    ensures Conserved(buffers, prod, Channel.PutBack(p, w.input.value, ok), w.(pc := ResetIn))
  {
    assert multiset(p.pool + [w.input.value]) == multiset(p.pool) + multiset([w.input.value]);
    assert ConsumerHand(w) == [w.input.value] && ConsumerHand(w.(pc := ResetIn)) == [];
    hide ProducerHand;
  }

  lemma PutBackKeepsPipe(buffers: seq<Buffer>, prod: Worker, p: Pipe, w: Worker, w': Worker, ok: bool)
    requires PipeInv(buffers, prod, p, w) && w.input != None && w.pc == PutBack && w.readyToPull
    requires w' == w.(pc := ResetIn)
    ensures PipeInv(buffers, prod, Channel.PutBack(p, w.input.value, ok), w')
  {
    hide Conserved;
    PutBackHasRoom(buffers, prod, p, w);
    PutBackConserves(buffers, prod, p, w, ok);
  }

  /** Only the program counter and the hand of the consumer matter to its pipe. */
  lemma ConsumerFrame(buffers: seq<Buffer>, prod: Worker, p: Pipe, w: Worker, w': Worker)
    requires PipeInv(buffers, prod, p, w)
    requires ConsumerHand(w') == ConsumerHand(w) && Due(w') == Due(w)
    requires w'.input == None || w'.readyToPull || (w'.input == w.input && !w.readyToPull)
    ensures PipeInv(buffers, prod, p, w')
  {
  }
}
