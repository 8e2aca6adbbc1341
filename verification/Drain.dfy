/**
 What happens after the source has exited: the work in flight shrinks with every productive step,
 every fair schedule uses it up, and what the sink has then received is everything.
 */
module Drain {
  import opened Arithmetic
  import opened Buffers
  import opened Channel
  import opened Program
  import opened Machine
  import opened Invariant
  import opened Reachable
  import opened Progress
  import opened Safety

  /** Every stage and the sink are done with their input after one call, pushing or not. */
  ghost predicate AlwaysPulls(prog: Program) {
    && (forall k: nat, u: User, x: Value :: prog.stage(k, u, x).pull)
    && (forall u: User, x: Value :: prog.sink(u, x).pull)
  }

  /** The source worker has exited and the others are enabled. */
  ghost predicate Draining(prog: Program, s: State)
    requires Shaped(prog, s)
  {
    && s.workers[0].pc == Exited
    && forall k | 0 < k <= prog.n + 1 :: Running(s.workers[k])
  }

  // ------------------------------------------------------------------------------------------
  // The work in flight
  // ------------------------------------------------------------------------------------------

  const ITEM: nat := 16

  /** What an item in the FIFO of pipe `p` still costs. */
  function ItemWeight(n: nat, p: nat): nat
    requires p <= n + 1
  {
    ITEM * (n + 1 - p)
  }

  /** What is left to do for a stage; `next` is what an item in its output FIFO costs. */
  function StageWeight(w: Worker, next: nat): nat {
    (if !w.readyToPull then next + (if w.output == None || w.readyToPush then 8 else 7)
     else if w.pc == Pull then 0
     else 1)
    + (if w.pc == Post then 2 else if w.pc == ResetOut then 1 else if w.readyToPush then next + 3 else 0)
    + (if w.pc == PutBack then 2 else if w.pc == ResetIn then 1 else 0)
  }

  function SinkWeight(w: Worker): nat {
    if !w.readyToPull then 8
    else if w.pc == Pull then 0
    else 1 + (if w.pc == ResetIn then 1 else if w.input != None then 2 else 0)
  }

  function WorkerWeight(prog: Program, s: State, k: nat): nat
    requires Shaped(prog, s) && k <= prog.n + 1
  {
    if k == 0 then 0
    else if k == prog.n + 1 then SinkWeight(s.workers[k])
    else StageWeight(s.workers[k], ItemWeight(prog.n, k))
  }

  function FifoWeight(prog: Program, s: State, p: nat): nat
    requires Shaped(prog, s) && p <= prog.n
  {
    |s.pipes[p].fifo| * ItemWeight(prog.n, p)
  }

  /** The work of worker `k` together with what is queued on its right. */
  function Cell(prog: Program, s: State, k: nat): nat
    requires Shaped(prog, s) && k <= prog.n + 1
  {
    WorkerWeight(prog, s, k) + if k <= prog.n then FifoWeight(prog, s, k) else 0
  }

  /** The work in flight at the workers 0 to `k - 1`. */
  function InFlightUpTo(prog: Program, s: State, k: nat): nat
    requires Shaped(prog, s) && k <= prog.n + 2
  {
    if k == 0 then 0 else InFlightUpTo(prog, s, k - 1) + Cell(prog, s, k - 1)
  }

  function InFlight(prog: Program, s: State): nat
    requires Shaped(prog, s)
  {
    InFlightUpTo(prog, s, prog.n + 2)
  }

  // ------------------------------------------------------------------------------------------
  // One step
  // ------------------------------------------------------------------------------------------

  /** The work goes down by a productive step and stays as it is by any other. */
  ghost predicate Shrinks(was: nat, now: nat, productive: bool) {
    if productive then now < was else now == was
  }

  /** Items taken from the input FIFO cost `next + ITEM` each, items put into the output FIFO `next`. */
  lemma StageShrinks(prog: Program, k: nat, w: Worker, inp: Pipe, out: Pipe, next: nat)
    requires AlwaysPulls(prog) && StageInv(prog, k, w, inp, out)
    requires w.pc == Pull ==> |inp.fifo| > 0
    ensures var (w', inp', out') := StageStep(prog, k, w, inp, out, true);
            var taken, put := |inp.fifo| - |inp'.fifo|, |out'.fifo| - |out.fifo|;
            && 0 <= taken <= 1 && 0 <= put <= 1
            && Shrinks(StageWeight(w, next) + (if taken == 1 then next + ITEM else 0),
                       StageWeight(w', next) + (if put == 1 then next else 0),
                       !StageBlocked(w, inp, out) && (HandingOver(w.pc) || w.pc == StageGoal(w)))
  {
    hide RunStage;
  }

  lemma SinkShrinks(prog: Program, w: Worker, inp: Pipe)
    requires AlwaysPulls(prog) && SinkInv(prog, w, inp)
    requires w.pc == Pull ==> |inp.fifo| > 0
    requires w.pc == PutBack && w.input != None ==> |inp.pool| < inp.capacity
    ensures var (w', inp') := SinkStep(prog, w, inp, true);
            Shrinks(|inp.fifo| * ITEM + SinkWeight(w), |inp'.fifo| * ITEM + SinkWeight(w'),
                    !SinkBlocked(w, inp) && (w.pc == Pull || w.pc == ResetIn || w.pc == SinkGoal(w)))
  {
    hide RunSink;
  }

  /** The sum over all workers changes as the two cells next to the step do. */
  lemma {:induction false} SumChanges(prog: Program, s: State, s': State, k: nat, upTo: nat, productive: bool)
    requires Shaped(prog, s) && Shaped(prog, s') && 0 < k < upTo <= prog.n + 2
    requires forall j | 0 <= j <= prog.n + 1 && j != k && j != k - 1 :: Cell(prog, s', j) == Cell(prog, s, j)
    requires Shrinks(Cell(prog, s, k - 1) + Cell(prog, s, k), Cell(prog, s', k - 1) + Cell(prog, s', k), productive)
    ensures Shrinks(InFlightUpTo(prog, s, upTo), InFlightUpTo(prog, s', upTo), productive)
  {
    hide Cell;
    if upTo == k + 1 {
      SumUnchanged(prog, s, s', k - 1);
    } else {
      SumChanges(prog, s, s', k, upTo - 1, productive);
    }
  }

  lemma {:induction false} SumUnchanged(prog: Program, s: State, s': State, upTo: nat)
    requires Shaped(prog, s) && Shaped(prog, s') && upTo <= prog.n + 2
    requires forall j | 0 <= j < upTo :: Cell(prog, s', j) == Cell(prog, s, j)
    ensures InFlightUpTo(prog, s', upTo) == InFlightUpTo(prog, s, upTo)
  {
    hide Cell;
    if upTo > 0 {
      SumUnchanged(prog, s, s', upTo - 1);
    }
  }

  lemma Products(inNow: nat, taken: nat, outWas: nat, put: nat, next: nat)
    requires taken <= 1 && put <= 1
    ensures (inNow + taken) * (next + ITEM) == inNow * (next + ITEM) + (if taken == 1 then next + ITEM else 0)
    ensures (outWas + put) * next == outWas * next + (if put == 1 then next else 0)
  {
    NextBlock(inNow, next + ITEM);
    NextBlock(outWas, next);
  }

  lemma StageProductive(prog: Program, s: State, k: nat)
    requires Shaped(prog, s) && 0 < k <= prog.n
    ensures Productive(prog, s, k) <==>
              var w := s.workers[k];
              !StageBlocked(w, s.pipes[k - 1], s.pipes[k]) && (HandingOver(w.pc) || w.pc == StageGoal(w))
  {
  }

  lemma SinkProductive(prog: Program, s: State)
    requires Shaped(prog, s) && s.workers[prog.n + 1].pc != Push
    ensures Productive(prog, s, prog.n + 1) <==>
              var w := s.workers[prog.n + 1];
              !SinkBlocked(w, s.pipes[prog.n]) && (w.pc == Pull || w.pc == ResetIn || w.pc == SinkGoal(w))
  {
  }

  lemma StageCells(setup: Setup, s: State, k: nat)
    requires Inv(setup, s) && AlwaysPulls(setup.prog) && 0 < k <= setup.prog.n
    ensures var prog, s' := setup.prog, Step(setup.prog, s, Work(k, true));
            && WorkerWeight(prog, s', k - 1) == WorkerWeight(prog, s, k - 1)
            && Shrinks(FifoWeight(prog, s, k - 1) + WorkerWeight(prog, s, k) + FifoWeight(prog, s, k),
                       FifoWeight(prog, s', k - 1) + WorkerWeight(prog, s', k) + FifoWeight(prog, s', k),
                       Productive(prog, s, k))
  {
    hide PipeInv, StageInv, SourceInv, SinkInv, StageStep, StageWeight, StageBlocked, StageGoal, Productive;
    var prog, w, inp, out, next := setup.prog, s.workers[k], s.pipes[k - 1], s.pipes[k], ItemWeight(setup.prog.n, k);
    assert WorkerInv(prog, s, k);
    RoomForPutBack(setup, s, k);
    StageProductive(prog, s, k);
    StageShrinks(prog, k, w, inp, out, next);
    var (w', inp', out') := StageStep(prog, k, w, inp, out, true);
    Products(|inp'.fifo|, |inp.fifo| - |inp'.fifo|, |out.fifo|, |out'.fifo| - |out.fifo|, next);
    assert ItemWeight(prog.n, k - 1) == next + ITEM;
  }

  lemma NeverPushes(prog: Program, w: Worker, inp: Pipe)
    requires SinkInv(prog, w, inp)
    ensures w.pc != Push
  {
    hide RunSink;
  }

  lemma SinkCells(setup: Setup, s: State)
    requires Inv(setup, s) && AlwaysPulls(setup.prog)
    ensures var prog, k := setup.prog, setup.prog.n + 1;
            var s' := Step(prog, s, Work(k, true));
            && WorkerWeight(prog, s', k - 1) == WorkerWeight(prog, s, k - 1)
            && Shrinks(FifoWeight(prog, s, k - 1) + WorkerWeight(prog, s, k),
                       FifoWeight(prog, s', k - 1) + WorkerWeight(prog, s', k),
                       Productive(prog, s, k))
  {
    hide PipeInv, StageInv, SourceInv, SinkInv, SinkStep, SinkWeight, SinkBlocked, SinkGoal, Productive;
    var prog, k := setup.prog, setup.prog.n + 1;
    assert WorkerInv(prog, s, k);
    NeverPushes(prog, s.workers[k], s.pipes[k - 1]);
    RoomForPutBack(setup, s, k);
    SinkProductive(prog, s);
    SinkShrinks(prog, s.workers[k], s.pipes[k - 1]);
    assert ItemWeight(prog.n, k - 1) == ITEM;
  }

  /** What a step of worker `k` leaves alone: the cells that are not next to it. */
  lemma OtherCells(prog: Program, s: State, k: nat)
    requires Shaped(prog, s) && k <= prog.n + 1
    ensures var s' := Step(prog, s, Work(k, true));
            forall j | 0 <= j <= prog.n + 1 && j != k && j != k - 1 :: Cell(prog, s', j) == Cell(prog, s, j)
  {
    hide SourceStep, StageStep, SinkStep, StageWeight, SinkWeight;
  }

  /** An exited source does nothing. */
  lemma ExitedSourceRests(prog: Program, s: State, ok: bool)
    requires Shaped(prog, s) && s.workers[0].pc == Exited
    ensures Step(prog, s, Work(0, ok)) == s
  {
    var s' := Step(prog, s, Work(0, ok));
    assert s'.workers == s.workers && s'.pipes == s.pipes;
  }

  /** Once the source has exited, the work in flight drops exactly at the productive steps. */
  lemma WorkInFlightShrinks(setup: Setup, s: State, k: nat)
    requires Inv(setup, s) && Shaped(setup.prog, s) && AlwaysPulls(setup.prog)
    requires s.workers[0].pc == Exited && k <= setup.prog.n + 1
    ensures var s' := Step(setup.prog, s, Work(k, true));
            Shrinks(InFlight(setup.prog, s), InFlight(setup.prog, s'), k > 0 && Productive(setup.prog, s, k))
  {
    hide Inv, Productive, StageStep, SinkStep, SourceStep, WorkerWeight, FifoWeight;
    var prog, s' := setup.prog, Step(setup.prog, s, Work(k, true));
    if k == 0 {
      ExitedSourceRests(prog, s, true);
    } else {
      OtherCells(prog, s, k);
      if k == prog.n + 1 {
        SinkCells(setup, s);
      } else {
        StageCells(setup, s, k);
      }
      SumChanges(prog, s, s', k, prog.n + 2, Productive(prog, s, k));
    }
  }

  // ------------------------------------------------------------------------------------------
  // Fair schedules
  // ------------------------------------------------------------------------------------------

  /** Each stage and the sink get at least seven turns, in any order. */
  ghost predicate FairRound(prog: Program, acts: seq<Action>) {
    Granted(prog, acts) && forall k | 0 < k <= prog.n + 1 :: Turns(acts, k) >= 7
  }

  /** No worker but the source can get anything done any more. */
  ghost predicate Quiescent(prog: Program, s: State)
    requires Shaped(prog, s)
  {
    forall k | 0 < k <= prog.n + 1 :: Blocked(prog, s, k)
  }

  /** A granted step keeps the invariant and the draining, and never adds work. */
  lemma GrantedStep(setup: Setup, s: State, k: nat)
    requires Inv(setup, s) && Shaped(setup.prog, s) && AlwaysPulls(setup.prog)
    requires Draining(setup.prog, s) && k <= setup.prog.n + 1
    ensures var s' := Step(setup.prog, s, Work(k, true));
            && Inv(setup, s') && Draining(setup.prog, s')
            && InFlight(setup.prog, s') <= InFlight(setup.prog, s)
  {
    StepKeepsInv(setup, s, Work(k, true));
    WorkInFlightShrinks(setup, s, k);
    StepKeepsDraining(setup.prog, s, k);
  }

  lemma StepKeepsDraining(prog: Program, s: State, k: nat)
    requires Shaped(prog, s) && Draining(prog, s) && k <= prog.n + 1
    ensures Draining(prog, Step(prog, s, Work(k, true)))
  {
    if k == 0 {
      ExitedSourceRests(prog, s, true);
    }
  }

  /**
   While the work in flight does not shrink, a worker that is not blocked stays so and comes
   closer to its next productive step with every turn it gets.
   */
  lemma {:induction false} TurnsBringCloser(setup: Setup, s: State, acts: seq<Action>, k: nat)
    requires Inv(setup, s) && Shaped(setup.prog, s) && AlwaysPulls(setup.prog) && Draining(setup.prog, s)
    requires Granted(setup.prog, acts) && 0 < k <= setup.prog.n + 1 && !Blocked(setup.prog, s, k)
    ensures var s' := Exec(setup.prog, s, acts);
            && Inv(setup, s') && Draining(setup.prog, s')
            && (|| InFlight(setup.prog, s') < InFlight(setup.prog, s)
                || (&& InFlight(setup.prog, s') == InFlight(setup.prog, s)
                    && !Blocked(setup.prog, s', k)
                    && Distance(setup.prog, s', k) + Turns(acts, k) <= Distance(setup.prog, s, k)))
  {
    hide Inv, Step, Blocked, Distance, InFlight;
    var prog := setup.prog;
    if |acts| > 0 {
      var pre, a := acts[..|acts| - 1], acts[|acts| - 1];
      var mid := Exec(prog, s, pre);
      TurnsBringCloser(setup, s, pre, k);
      GrantedStep(setup, mid, a.k);
      assert a == Work(a.k, true);
      WorkInFlightShrinks(setup, mid, a.k);
      if InFlight(prog, mid) == InFlight(prog, s) {
        if a.k != k {
          OtherStepHelps(prog, mid, a.k, true, k);
        } else if Distance(prog, mid, k) > 0 {
          WalkStep(setup, mid, k);
        }
      }
    }
  }

  /** Unless nothing can be done any more, a fair round gets something done. */
  lemma RoundShrinks(setup: Setup, s: State, acts: seq<Action>)
    requires Inv(setup, s) && Shaped(setup.prog, s) && AlwaysPulls(setup.prog) && Draining(setup.prog, s)
    requires FairRound(setup.prog, acts) && !Quiescent(setup.prog, s)
    ensures var s' := Exec(setup.prog, s, acts);
            Inv(setup, s') && Draining(setup.prog, s') && InFlight(setup.prog, s') < InFlight(setup.prog, s)
  {
    hide Inv, Step, Blocked, Distance, InFlight;
    var k :| 0 < k <= setup.prog.n + 1 && !Blocked(setup.prog, s, k);
    TurnsBringCloser(setup, s, acts, k);
    DistanceIsSmall(setup.prog, s, k);
  }

  /** Once nothing can be done any more, that stays so. */
  lemma {:induction false} QuiescenceLasts(setup: Setup, s: State, acts: seq<Action>)
    requires Inv(setup, s) && Shaped(setup.prog, s) && Draining(setup.prog, s)
    requires Granted(setup.prog, acts) && Quiescent(setup.prog, s)
    ensures var s' := Exec(setup.prog, s, acts);
            && Inv(setup, s') && Draining(setup.prog, s') && Quiescent(setup.prog, s')
            && s'.pipes == s.pipes
  {
    hide Inv, Step;
    if |acts| > 0 {
      var pre, a := acts[..|acts| - 1], acts[|acts| - 1];
      QuiescenceLasts(setup, s, pre);
      QuiescentStep(setup, Exec(setup.prog, s, pre), a.k);
    }
  }

  lemma QuiescentStep(setup: Setup, s: State, k: nat)
    requires Inv(setup, s) && Shaped(setup.prog, s) && Draining(setup.prog, s)
    requires k <= setup.prog.n + 1 && Quiescent(setup.prog, s)
    ensures var s' := Step(setup.prog, s, Work(k, true));
            && Inv(setup, s') && Draining(setup.prog, s') && Quiescent(setup.prog, s')
            && s'.pipes == s.pipes
  {
    StepKeepsInv(setup, s, Work(k, true));
    StepKeepsDraining(setup.prog, s, k);
    if k == 0 {
      ExitedSourceRests(setup.prog, s, true);
    } else {
      var s' := Step(setup.prog, s, Work(k, true));
      BlockedStep(setup, s, k);
      OthersStand(setup.prog, s, k);
      hide Step;
      forall j | 0 < j <= setup.prog.n + 1 ensures Blocked(setup.prog, s', j) {
        assert Blocked(setup.prog, s, j);
      }
    }
  }

  lemma OthersStand(prog: Program, s: State, k: nat)
    requires Shaped(prog, s)
    ensures forall j | 0 <= j <= prog.n + 1 && j != k ::
              Step(prog, s, Work(k, true)).workers[j] == s.workers[j]
  {
  }

  /** A blocked worker walks round its loop: it stays blocked and changes no pipe. */
  lemma BlockedStep(setup: Setup, s: State, k: nat)
    requires Inv(setup, s) && Shaped(setup.prog, s) && 0 < k <= setup.prog.n + 1
    requires Blocked(setup.prog, s, k)
    ensures var s' := Step(setup.prog, s, Work(k, true));
            Blocked(setup.prog, s', k) && s'.pipes == s.pipes
  {
    hide PipeInv, RunSource, RunStage, RunSink;
    assert WorkerInv(setup.prog, s, k);
  }

  /** One fair round after the other. */
  function ExecRounds(prog: Program, s: State, rounds: seq<seq<Action>>): (s': State)
    requires Shaped(prog, s)
    ensures Shaped(prog, s')
  {
    if |rounds| == 0 then s
    else Exec(prog, ExecRounds(prog, s, rounds[..|rounds| - 1]), rounds[|rounds| - 1])
  }

  lemma {:induction false} RoundsDrain(setup: Setup, s: State, rounds: seq<seq<Action>>)
    requires Inv(setup, s) && Shaped(setup.prog, s) && AlwaysPulls(setup.prog) && Draining(setup.prog, s)
    requires forall i | 0 <= i < |rounds| :: FairRound(setup.prog, rounds[i])
    ensures var s' := ExecRounds(setup.prog, s, rounds);
            && Inv(setup, s') && Draining(setup.prog, s')
            && (Quiescent(setup.prog, s') || InFlight(setup.prog, s') + |rounds| <= InFlight(setup.prog, s))
  {
    hide Inv, Exec, InFlight, Quiescent;
    if |rounds| > 0 {
      var pre, last := rounds[..|rounds| - 1], rounds[|rounds| - 1];
      RoundsDrain(setup, s, pre);
      var mid := ExecRounds(setup.prog, s, pre);
      if Quiescent(setup.prog, mid) {
        QuiescenceLasts(setup, mid, last);
      } else {
        RoundShrinks(setup, mid, last);
      }
    }
  }

  // ------------------------------------------------------------------------------------------
  // What quiescence means
  // ------------------------------------------------------------------------------------------

  /** What comes out of pipe `p` when everything on the left of it is used up. */
  function Whole(prog: Program, items: seq<Value>, p: nat): seq<Value> {
    if p == 0 then items
    else
      var xs := Whole(prog, items, p - 1);
      RunStage(prog, p, xs, |xs|).outs
  }

  lemma QuiescentPipe(setup: Setup, s: State, p: nat)
    requires Inv(setup, s) && Shaped(setup.prog, s) && p <= setup.prog.n
    requires s.workers[0].pc == Exited && Quiescent(setup.prog, s)
    requires forall q | 0 <= q <= setup.prog.n :: |setup.buffers[q]| > 0
    ensures |s.pipes[p].fifo| == 0 && s.workers[p + 1].readyToPull
    ensures s.pipes[p].received == s.pipes[p].sent
    ensures p > 0 ==> !s.workers[p].readyToPush
  {
    hide RunSource, RunStage, RunSink, Conserved;
    if p > 0 {
      assert Blocked(setup.prog, s, p);
    }
    BlockedMeansStarved(setup, s, p);
    assert PipeInv(setup.buffers[p], s.workers[p], s.pipes[p], s.workers[p + 1]);
  }

  lemma {:induction false} PullingRunUsesAll(prog: Program, k: nat, xs: seq<Value>, c: nat)
    requires AlwaysPulls(prog)
    ensures RunStage(prog, k, xs, c).used == RunStage(prog, k, xs, c).next
  {
    if c > 0 {
      PullingRunUsesAll(prog, k, xs, c - 1);
    }
  }

  /** Everything that entered a stage has left it. */
  lemma QuiescentStage(setup: Setup, s: State, k: nat)
    requires Inv(setup, s) && Shaped(setup.prog, s) && AlwaysPulls(setup.prog) && 0 < k <= setup.prog.n
    requires s.workers[0].pc == Exited && Quiescent(setup.prog, s)
    requires forall q | 0 <= q <= setup.prog.n :: |setup.buffers[q]| > 0
    ensures var xs := s.pipes[k - 1].sent;
            s.pipes[k].sent == RunStage(setup.prog, k, xs, |xs|).outs
  {
    hide RunSource, RunStage, RunSink, PipeInv, Quiescent;
    QuiescentPipe(setup, s, k - 1);
    QuiescentPipe(setup, s, k);
    assert WorkerInv(setup.prog, s, k);
    PullingRunUsesAll(setup.prog, k, s.pipes[k - 1].received, s.workers[k].calls);
  }

  lemma {:induction false} QuiescentIsWhole(setup: Setup, s: State, p: nat)
    requires Inv(setup, s) && Shaped(setup.prog, s) && AlwaysPulls(setup.prog) && p <= setup.prog.n
    requires s.workers[0].pc == Exited && Quiescent(setup.prog, s)
    requires forall q | 0 <= q <= setup.prog.n :: |setup.buffers[q]| > 0
    ensures s.pipes[p].sent == Whole(setup.prog, s.pipes[0].sent, p)
  {
    hide Inv, RunStage, Quiescent;
    if p > 0 {
      QuiescentIsWhole(setup, s, p - 1);
      QuiescentStage(setup, s, p);
    }
  }

  /** Every callback has been called once for every item it was given. */
  lemma QuiescentCalls(setup: Setup, s: State, k: nat)
    requires Inv(setup, s) && Shaped(setup.prog, s) && AlwaysPulls(setup.prog) && 0 < k <= setup.prog.n + 1
    requires s.workers[k].readyToPull
    ensures s.workers[k].calls == |s.pipes[k - 1].received|
  {
    hide PipeInv, RunStage, RunSink;
    assert WorkerInv(setup.prog, s, k);
    if k <= setup.prog.n {
      PullingRunUsesAll(setup.prog, k, s.pipes[k - 1].received, s.workers[k].calls);
    } else {
      PullingSinkUsesAll(setup.prog, s.pipes[k - 1].received, s.workers[k].calls);
    }
  }

  lemma {:induction false} PullingSinkUsesAll(prog: Program, xs: seq<Value>, c: nat)
    requires AlwaysPulls(prog)
    ensures RunSink(prog, xs, c).used == RunSink(prog, xs, c).next
  {
    if c > 0 {
      PullingSinkUsesAll(prog, xs, c - 1);
    }
  }

  /** After its exit the source pushes nothing more, not even a buffer it has flagged. */
  lemma SourceStaysSilent(prog: Program, s: State, k: nat)
    requires Shaped(prog, s) && s.workers[0].pc == Exited && k <= prog.n + 1
    ensures var s' := Step(prog, s, Work(k, true));
            s'.workers[0].pc == Exited && s'.pipes[0].sent == s.pipes[0].sent
  {
    if k == 0 {
      ExitedSourceRests(prog, s, true);
    }
  }

  lemma {:induction false} SourceSilentInRound(prog: Program, s: State, acts: seq<Action>)
    requires Shaped(prog, s) && s.workers[0].pc == Exited && Granted(prog, acts)
    ensures var s' := Exec(prog, s, acts);
            s'.workers[0].pc == Exited && s'.pipes[0].sent == s.pipes[0].sent
  {
    hide Step;
    if |acts| > 0 {
      var a := acts[|acts| - 1];
      SourceSilentInRound(prog, s, acts[..|acts| - 1]);
      SourceStaysSilent(prog, Exec(prog, s, acts[..|acts| - 1]), a.k);
      assert a == Work(a.k, true);
    }
  }

  lemma {:induction false} SourceSilentInRounds(prog: Program, s: State, rounds: seq<seq<Action>>)
    requires Shaped(prog, s) && s.workers[0].pc == Exited
    requires forall i | 0 <= i < |rounds| :: Granted(prog, rounds[i])
    ensures var s' := ExecRounds(prog, s, rounds);
            s'.workers[0].pc == Exited && s'.pipes[0].sent == s.pipes[0].sent
  {
    hide Exec, Granted;
    if |rounds| > 0 {
      SourceSilentInRounds(prog, s, rounds[..|rounds| - 1]);
      SourceSilentInRound(prog, ExecRounds(prog, s, rounds[..|rounds| - 1]), rounds[|rounds| - 1]);
    }
  }

  /**
   Drain: after the source has exited, any schedule made of as many fair rounds as there is work
   in flight empties every FIFO, the sink has received exactly what the stages make of everything
   the source pushed, and every callback was called once for every item.
   */
  lemma EverythingDrains(setup: Setup, s: State, rounds: seq<seq<Action>>)
    requires IsReachable(setup, s) && AlwaysPulls(setup.prog) && Draining(setup.prog, s)
    requires forall q | 0 <= q <= setup.prog.n :: |setup.buffers[q]| > 0
    requires forall i | 0 <= i < |rounds| :: FairRound(setup.prog, rounds[i])
    requires |rounds| > InFlight(setup.prog, s)
    ensures var s', n := ExecRounds(setup.prog, s, rounds), setup.prog.n;
            && (forall p | 0 <= p <= n :: |s'.pipes[p].fifo| == 0)
            && s'.pipes[0].sent == s.pipes[0].sent
            && s'.pipes[n].received == Whole(setup.prog, s.pipes[0].sent, n)
            && (forall k | 0 < k <= n + 1 :: s'.workers[k].calls == |s'.pipes[k - 1].sent|)
  {
    hide InFlight, Whole, RunSource, RunStage, RunSink, PipeInv;
    ReachableInv(setup, s);
    RoundsDrain(setup, s, rounds);
    var s', n := ExecRounds(setup.prog, s, rounds), setup.prog.n;
    assert Quiescent(setup.prog, s');
    SourceSilentInRounds(setup.prog, s, rounds);
    hide Inv, Quiescent, ExecRounds;
    forall p | 0 <= p <= n
      ensures |s'.pipes[p].fifo| == 0 && s'.pipes[p].received == s'.pipes[p].sent
      ensures s'.workers[p + 1].calls == |s'.pipes[p].sent|
    {
      QuiescentPipe(setup, s', p);
      QuiescentCalls(setup, s', p + 1);
    }
    forall k | 0 < k <= n + 1 ensures s'.workers[k].calls == |s'.pipes[k - 1].sent| {
      assert s'.workers[(k - 1) + 1].calls == |s'.pipes[k - 1].sent|;
    }
    QuiescentIsWhole(setup, s', n);
  }
  // ------------------------------------------------------------------------------------------
  // One item in, one item out
  // ------------------------------------------------------------------------------------------

  lemma {:induction false} MappedWhole(prog: Program, f: (nat, Value) -> Value, items: seq<Value>, p: nat)
    requires MapsItems(prog, f)
    ensures var out := Whole(prog, items, p);
            |out| == |items| && forall j | 0 <= j < |items| :: out[j] == Through(f, p, items[j])
  {
    if p > 0 {
      MappedWhole(prog, f, items, p - 1);
      var xs := Whole(prog, items, p - 1);
      MappedRun(prog, f, p, xs, |xs|);
      MappedRunUsesAll(prog, f, p, xs, |xs|);
    }
  }

  lemma {:induction false} MappedRunUsesAll(prog: Program, f: (nat, Value) -> Value, k: nat, xs: seq<Value>, c: nat)
    requires MapsItems(prog, f) && c <= |xs|
    ensures RunStage(prog, k, xs, c).next == c
  {
    if c > 0 {
      MappedRunUsesAll(prog, f, k, xs, c - 1);
    }
  }

  /**
   End of stream: when the source has declared the end, its stages map each item and the sink
   takes one item a call, then after enough fair rounds the sink has been given, in order, every
   item the source flagged before its last call, each of them after all stages, and nothing else.
   */
  lemma EveryItemArrives(setup: Setup, s: State, rounds: seq<seq<Action>>, f: (nat, Value) -> Value)
    requires IsReachable(setup, s) && MapsItems(setup.prog, f) && Draining(setup.prog, s)
    requires forall u: User, x: Value :: setup.prog.sink(u, x).pull
    requires RunSource(setup.prog, s.workers[0].calls).finished
    requires forall q | 0 <= q <= setup.prog.n :: |setup.buffers[q]| > 0
    requires forall i | 0 <= i < |rounds| :: FairRound(setup.prog, rounds[i])
    requires |rounds| > InFlight(setup.prog, s)
    ensures var got := ExecRounds(setup.prog, s, rounds).pipes[setup.prog.n].received;
            var items := RunSource(setup.prog, s.workers[0].calls).outs;
            |got| == |items| && forall j | 0 <= j < |items| :: got[j] == Through(f, setup.prog.n, items[j])
  {
    hide InFlight, RunSource, RunStage, RunSink, Inv, ExecRounds, Whole;
    assert AlwaysPulls(setup.prog) by {
      forall k: nat, u: User, x: Value ensures setup.prog.stage(k, u, x).pull {
        assert setup.prog.stage(k, u, x).push;
      }
    }
    EverythingDrains(setup, s, rounds);
    FinishedSourceHasSentAll(setup, s);
    MappedWhole(setup.prog, f, s.pipes[0].sent, setup.prog.n);
  }

  // ------------------------------------------------------------------------------------------
  // A stream of one item
  // ------------------------------------------------------------------------------------------

  /** The source has made its first call and not pushed yet. */
  ghost predicate Flagging(prog: Program, s: State, u': User, v: Value, a: Buffer, b: Buffer) {
    && Shaped(prog, s) && prog.n == 0
    && s.workers[0] == Worker(Top, true, false, None, Some(b), false, true, u', 1)
    && s.workers[1] == FreshWorker(prog, 1).(enabled := true)
    && s.pipes[0].pool == [a] && s.pipes[0].fifo == [] && s.pipes[0].mem(b) == v
  }

  lemma FirstCall(u: User, u': User, v: Value, a: Buffer, b: Buffer, mem: Buffer -> Value)
    returns (setup: Setup, acts: seq<Action>)
    requires u != u' && a != b
    ensures setup == Setup(TwoCalls(u, u', v), [[a, b]], [mem]) && setup.Valid()
    ensures Flagging(setup.prog, Exec(setup.prog, Init(setup), acts), u', v, a, b)
  {
    var prog := TwoCalls(u, u', v);
    setup := Setup(prog, [[a, b]], [mem]);
    acts := [];
    var s := Init(setup);
    var w := FreshWorker(prog, 0).(enabled := true);
    var todo: seq<Action> := [SetEnabled(0, true), SetEnabled(1, true)] + seq(6, i => Work(0, true));
    for i := 0 to 8
      invariant Shaped(prog, s) && s == Exec(prog, Init(setup), acts)
      invariant s.workers[1] == if i < 2 then FreshWorker(prog, 1) else FreshWorker(prog, 1).(enabled := true)
      invariant i == 0 ==> s.workers[0] == FreshWorker(prog, 0)
      invariant i <= 6 ==> s.pipes[0] == FreshPipe([a, b], mem)
      invariant 0 < i < 8 ==>
                  s.workers[0] == w.(pc := [Top, Top, Gate, Recheck, Push, Take, PC.Call][i - 1],
                                     output := if i == 7 then Some(b) else None)
      invariant i == 7 ==> s.pipes[0] == FreshPipe([a, b], mem).(pool := [a])
      invariant i == 8 ==> Flagging(prog, s, u', v, a, b)
    {
      ExecNext(prog, Init(setup), acts, todo[i]);
      s := Step(prog, s, todo[i]);
      acts := acts + [todo[i]];
    }
  }

  lemma SecondCall(u: User, u': User, v: Value, a: Buffer, b: Buffer, s0: State) returns (acts: seq<Action>)
    requires u != u' && a != b && Flagging(TwoCalls(u, u', v), s0, u', v, a, b)
    ensures var prog := TwoCalls(u, u', v);
            var s := Exec(prog, s0, acts);
            Draining(prog, s) && s.workers[0].calls == 2 && |s.pipes[0].fifo| == 1
  {
    var prog := TwoCalls(u, u', v);
    acts := [];
    var s := s0;
    for i := 0 to 9
      invariant Shaped(prog, s) && s == Exec(prog, s0, acts) && s.workers[1] == s0.workers[1]
      invariant i <= 4 ==> s.workers[0] == s0.workers[0].(pc := [Top, Gate, Recheck, Push, Post][i])
      invariant i == 5 ==> s.workers[0] == s0.workers[0].(pc := ResetOut)
      invariant i <= 3 ==> s.pipes[0] == s0.pipes[0]
      invariant i > 3 ==> s.pipes[0].fifo == [b]
      invariant 3 < i <= 6 ==> s.pipes[0].pool == [a]
      invariant i == 6 || i == 7 ==>
                  s.workers[0] == s0.workers[0].(pc := if i == 6 then Take else PC.Call, readyToPush := false,
                                                 output := if i == 6 then None else Some(a))
      invariant i >= 8 ==> s.workers[0].calls == 2 && s.workers[0].destroyed
      invariant i >= 8 ==> s.workers[0].pc == if i == 8 then Top else Exited
    {
      ExecNext(prog, s0, acts, Work(0, true));
      s := Step(prog, s, Work(0, true));
      acts := acts + [Work(0, true)];
    }
  }

  /**
   What is said about draining is said of something: with two buffers this source gets to its exit with
   its item still queued, and then every fair schedule, of which there are, brings it to the sink.
   */
  lemma OneItemArrives(u: User, u': User, v: Value, a: Buffer, b: Buffer, mem: Buffer -> Value)
    returns (setup: Setup, s: State, round: seq<Action>)
    requires u != u' && a != b
    ensures setup.prog == TwoCalls(u, u', v) && IsReachable(setup, s) && |s.pipes[0].fifo| == 1
    ensures FairRound(setup.prog, round)
    ensures forall rounds: seq<seq<Action>> ::
              && |rounds| > InFlight(setup.prog, s)
              && (forall i | 0 <= i < |rounds| :: FairRound(setup.prog, rounds[i]))
              ==>
                ExecRounds(setup.prog, s, rounds).pipes[0].received == [v]
  {
    hide FairRound, InFlight, ExecRounds;
    var acts, more;
    setup, acts := FirstCall(u, u', v, a, b, mem);
    more := SecondCall(u, u', v, a, b, Exec(setup.prog, Init(setup), acts));
    ExecConcat(setup.prog, Init(setup), acts, more);
    s := Exec(setup.prog, Init(setup), acts + more);
    round := SomeFairRound(setup.prog);
    TwoCallsRun(u, u', v);
    forall rounds: seq<seq<Action>> |
      |rounds| > InFlight(setup.prog, s) && forall i | 0 <= i < |rounds| :: FairRound(setup.prog, rounds[i])
      ensures ExecRounds(setup.prog, s, rounds).pipes[0].received == [v]
    {
      EveryItemArrives(setup, s, rounds, (k, x) => x);
    }
  }

  lemma TwoCallsRun(u: User, u': User, v: Value)
    requires u != u'
    ensures RunSource(TwoCalls(u, u', v), 2) == SourceRun(u', [v], true)
  {
    var prog := TwoCalls(u, u', v);
    assert RunSource(prog, 0) == SourceRun(u, [], false);
    RunSourceNext(prog, 0);
    RunSourceNext(prog, 1);
  }

  lemma SomeFairRound(prog: Program) returns (round: seq<Action>)
    ensures FairRound(prog, round)
  {
    round := EverybodyCanHaveTurns(prog, prog.n + 2, 7);
  }
}
