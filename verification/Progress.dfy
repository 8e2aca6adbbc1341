/**
 When a worker can get on with its work. A step is productive when it moves a buffer or a
 permit, resets a context field after that, or calls the callback; all the others only walk
 round the worker loop.
 */
module Progress {
  import opened Buffers
  import opened Channel
  import opened Program
  import opened Machine
  import opened Invariant
  import opened Reachable

  // ------------------------------------------------------------------------------------------
  // Waiting
  // ------------------------------------------------------------------------------------------

  /** In the middle of handing a buffer over: the next step is productive. */
  predicate HandingOver(pc: PC) {
    pc in {Post, ResetOut, Pull, PutBack, ResetIn}
  }

  /** The source has nothing to push and no buffer to fill. */
  predicate SourceBlocked(w: Worker, out: Pipe) {
    !w.readyToPush && !HandingOver(w.pc) && w.output == None && |out.pool| == 0
  }

  /** A stage has nothing to push, and it waits for an input or for an empty output buffer. */
  predicate StageBlocked(w: Worker, inp: Pipe, out: Pipe) {
    && !w.readyToPush
    && !HandingOver(w.pc)
    && if w.readyToPull then inp.permits == 0 else w.output == None && |out.pool| == 0
  }

  /** The sink has given its buffer back and waits for the next one. */
  predicate SinkBlocked(w: Worker, inp: Pipe) {
    w.readyToPull && w.input == None && w.pc != Pull && w.pc != ResetIn && inp.permits == 0
  }

  predicate Blocked(prog: Program, s: State, k: nat)
    requires Shaped(prog, s) && k <= prog.n + 1
  {
    if k == 0 then SourceBlocked(s.workers[0], s.pipes[0])
    else if k == prog.n + 1 then SinkBlocked(s.workers[k], s.pipes[k - 1])
    else StageBlocked(s.workers[k], s.pipes[k - 1], s.pipes[k])
  }

  // ------------------------------------------------------------------------------------------
  // How far the next productive step is
  // ------------------------------------------------------------------------------------------

  /** Where a program counter is in one round of the loop. */
  function Round(pc: PC): nat {
    match pc
    case Top => 0
    case Gate => 1
    case Recheck => 2
    case Push => 3
    case PutBack => 3
    case Acquire => 4
    case Take => 5
    case Call => 6
    case _ => 0
  }

  /** Steps from `pc` to the next visit of `goal`. */
  function Ahead(pc: PC, goal: PC): nat {
    if Round(pc) <= Round(goal) then Round(goal) - Round(pc) else 7 - Round(pc) + Round(goal)
  }

  function SourceGoal(w: Worker): PC {
    if w.readyToPush then Push else if w.output == None then Take else Call
  }

  function StageGoal(w: Worker): PC {
    if w.readyToPush then Push
    else if w.readyToPull then Acquire
    else if w.output == None then Take
    else Call
  }

  function SinkGoal(w: Worker): PC {
    if !w.readyToPull then Call else if w.input != None then PutBack else Acquire
  }

  /** An upper bound on the steps of worker `k` before its next productive one. */
  function Distance(prog: Program, s: State, k: nat): nat
    requires Shaped(prog, s) && k <= prog.n + 1
  {
    var w := s.workers[k];
    if k == prog.n + 1 then
      if w.pc == Pull || w.pc == ResetIn then 0 else Ahead(w.pc, SinkGoal(w))
    else if HandingOver(w.pc) then 0
    else Ahead(w.pc, if k == 0 then SourceGoal(w) else StageGoal(w))
  }

  ghost predicate Running(w: Worker) {
    w.enabled && !w.destroyed
  }

  /** Worker `k` is about to take a productive step. */
  ghost predicate Productive(prog: Program, s: State, k: nat)
    requires Shaped(prog, s) && k <= prog.n + 1
  {
    !Blocked(prog, s, k) && Distance(prog, s, k) == 0
  }

  // ------------------------------------------------------------------------------------------
  // A worker that is not blocked gets to its next productive step
  // ------------------------------------------------------------------------------------------

  lemma DistanceIsSmall(prog: Program, s: State, k: nat)
    requires Shaped(prog, s) && k <= prog.n + 1
    ensures Distance(prog, s, k) <= 6
  {
  }

  lemma SourceWalks(prog: Program, w: Worker, out: Pipe)
    requires SourceInv(prog, w, out) && Running(w) && !SourceBlocked(w, out)
    requires !HandingOver(w.pc) && w.pc != SourceGoal(w)
    ensures var (w', out') := SourceStep(prog, w, out, true);
            && out' == out && !SourceBlocked(w', out) && Running(w')
            && !HandingOver(w'.pc) && SourceGoal(w') == SourceGoal(w)
            && Ahead(w'.pc, SourceGoal(w)) < Ahead(w.pc, SourceGoal(w))
  {
    hide RunSource;
  }

  lemma StageWalks(prog: Program, k: nat, w: Worker, inp: Pipe, out: Pipe)
    requires StageInv(prog, k, w, inp, out) && Running(w) && !StageBlocked(w, inp, out)
    requires !HandingOver(w.pc) && w.pc != StageGoal(w)
    ensures var (w', inp', out') := StageStep(prog, k, w, inp, out, true);
            && inp' == inp && out' == out && !StageBlocked(w', inp, out) && Running(w')
            && !HandingOver(w'.pc) && StageGoal(w') == StageGoal(w)
            && Ahead(w'.pc, StageGoal(w)) < Ahead(w.pc, StageGoal(w))
  {
    hide RunStage;
  }

  lemma SinkWalks(prog: Program, w: Worker, inp: Pipe)
    requires SinkInv(prog, w, inp) && Running(w) && !SinkBlocked(w, inp)
    requires w.pc != Pull && w.pc != ResetIn && w.pc != SinkGoal(w)
    ensures var (w', inp') := SinkStep(prog, w, inp, true);
            && inp' == inp && !SinkBlocked(w', inp) && Running(w')
            && w'.pc != Pull && w'.pc != ResetIn && SinkGoal(w') == SinkGoal(w)
            && Ahead(w'.pc, SinkGoal(w)) < Ahead(w.pc, SinkGoal(w))
  {
    hide RunSink;
  }

  /** A step towards the next productive one: nothing but the program counter changes. */
  lemma WalkStep(setup: Setup, s: State, k: nat)
    requires Inv(setup, s) && k <= setup.prog.n + 1
    requires Running(s.workers[k]) && !Blocked(setup.prog, s, k) && Distance(setup.prog, s, k) > 0
    ensures var s' := Step(setup.prog, s, Work(k, true));
            && !Blocked(setup.prog, s', k) && Running(s'.workers[k])
            && Distance(setup.prog, s', k) < Distance(setup.prog, s, k)
            && s'.pipes == s.pipes
  {
    hide PipeInv, SourceInv, StageInv, SinkInv, SourceStep, StageStep, SinkStep;
    assert WorkerInv(setup.prog, s, k);
    if k == 0 {
      SourceWalks(setup.prog, s.workers[k], s.pipes[k]);
    } else if k == setup.prog.n + 1 {
      SinkWalks(setup.prog, s.workers[k], s.pipes[k - 1]);
    } else {
      StageWalks(setup.prog, k, s.workers[k], s.pipes[k - 1], s.pipes[k]);
    }
  }

  /** Other workers only ever add permits to the pipe on the left and buffers to the pool on the right. */
  lemma OtherStepHelps(prog: Program, s: State, j: nat, ok: bool, k: nat)
    requires Shaped(prog, s) && j <= prog.n + 1 && k <= prog.n + 1 && j != k
    requires !Blocked(prog, s, k)
    ensures var s' := Step(prog, s, Work(j, ok));
            && !Blocked(prog, s', k) && Distance(prog, s', k) == Distance(prog, s, k)
            && s'.workers[k] == s.workers[k]
  {
    var s' := Step(prog, s, Work(j, ok));
    assert s'.workers[k] == s.workers[k];
    ProducersAddPermits(prog, s, j, ok);
    ConsumersAddEmpties(prog, s, j, ok);
    hide Step;
  }

  lemma ProducersAddPermits(prog: Program, s: State, j: nat, ok: bool)
    requires Shaped(prog, s) && j <= prog.n + 1
    ensures var s' := Step(prog, s, Work(j, ok));
            forall p | 0 <= p <= prog.n && p + 1 != j :: s'.pipes[p].permits >= s.pipes[p].permits
  {
  }

  lemma ConsumersAddEmpties(prog: Program, s: State, j: nat, ok: bool)
    requires Shaped(prog, s) && j <= prog.n + 1
    ensures var s' := Step(prog, s, Work(j, ok));
            forall p | 0 <= p <= prog.n && p != j :: |s'.pipes[p].pool| >= |s.pipes[p].pool|
  {
  }

  /** What can be counted in a pipe. */
  function Counts(q: Pipe): (nat, nat, nat) {
    (|q.pool|, |q.fifo|, q.permits)
  }

  /** The callback was called once more, or a context field was reset after a hand-over. */
  predicate ContextAdvances(w: Worker, w': Worker) {
    || w'.calls == w.calls + 1
    || (w.pc == ResetOut && w'.output == None && !w'.readyToPush)
    || (w.pc == ResetIn && w'.input == None)
  }

  lemma SourceAdvances(prog: Program, w: Worker, out: Pipe)
    requires SourceInv(prog, w, out) && !SourceBlocked(w, out)
    requires HandingOver(w.pc) || Ahead(w.pc, SourceGoal(w)) == 0
    ensures var (w', out') := SourceStep(prog, w, out, true);
            ContextAdvances(w, w') || Counts(out') != Counts(out)
  {
    hide RunSource;
  }

  lemma StageAdvances(prog: Program, k: nat, w: Worker, inp: Pipe, out: Pipe)
    requires StageInv(prog, k, w, inp, out) && !StageBlocked(w, inp, out)
    requires HandingOver(w.pc) || Ahead(w.pc, StageGoal(w)) == 0
    requires w.pc == PutBack && w.input != None ==> |inp.pool| < inp.capacity
    requires w.pc == Pull ==> |inp.fifo| > 0
    ensures var (w', inp', out') := StageStep(prog, k, w, inp, out, true);
            ContextAdvances(w, w') || Counts(out') != Counts(out) || Counts(inp') != Counts(inp)
  {
    hide RunStage;
  }

  lemma SinkAdvances(prog: Program, w: Worker, inp: Pipe)
    requires SinkInv(prog, w, inp) && !SinkBlocked(w, inp)
    requires w.pc == Pull || w.pc == ResetIn || Ahead(w.pc, SinkGoal(w)) == 0
    requires w.pc == PutBack && w.input != None ==> |inp.pool| < inp.capacity
    requires w.pc == Pull ==> |inp.fifo| > 0
    ensures var (w', inp') := SinkStep(prog, w, inp, true);
            ContextAdvances(w, w') || Counts(inp') != Counts(inp)
  {
    hide RunSink;
  }

  /**
   A productive step gets something done: the callback is called once more, a context field is
   reset, or a buffer or a permit is moved in one of the worker's two pipes.
   */
  lemma ProductiveStepAdvances(setup: Setup, s: State, k: nat)
    requires Inv(setup, s) && k <= setup.prog.n + 1
    requires Productive(setup.prog, s, k)
    ensures var s' := Step(setup.prog, s, Work(k, true));
            || ContextAdvances(s.workers[k], s'.workers[k])
            || (k <= setup.prog.n && Counts(s'.pipes[k]) != Counts(s.pipes[k]))
            || (k > 0 && Counts(s'.pipes[k - 1]) != Counts(s.pipes[k - 1]))
  {
    hide Inv, SourceInv, StageInv, SinkInv, SourceStep, StageStep, SinkStep;
    WorkerHolds(setup, s, k);
    if k == 0 {
      SourceAdvances(setup.prog, s.workers[0], s.pipes[0]);
    } else {
      RoomForPutBack(setup, s, k);
      if k == setup.prog.n + 1 {
        SinkAdvances(setup.prog, s.workers[k], s.pipes[k - 1]);
      } else {
        StageAdvances(setup.prog, k, s.workers[k], s.pipes[k - 1], s.pipes[k]);
      }
    }
  }

  lemma RoomForPutBack(setup: Setup, s: State, k: nat)
    requires Inv(setup, s) && 0 < k <= setup.prog.n + 1
    ensures s.workers[k].pc == PutBack && s.workers[k].input != None ==> |s.pipes[k - 1].pool| < s.pipes[k - 1].capacity
    ensures s.workers[k].pc == Pull ==> |s.pipes[k - 1].fifo| > 0
  {
    hide WorkerInv, Intact, InHandIntact;
    assert PipeInv(setup.buffers[k - 1], s.workers[k - 1], s.pipes[k - 1], s.workers[k]);
    if s.workers[k].pc == PutBack && s.workers[k].input != None {
      PutBackHasRoom(setup.buffers[k - 1], s.workers[k - 1], s.pipes[k - 1], s.workers[k]);
    }
  }

  // ------------------------------------------------------------------------------------------
  // Deadlock freedom
  // ------------------------------------------------------------------------------------------

  /** `m` granted steps of worker `k` alone. */
  function Solo(k: nat, m: nat): seq<Action> {
    if m == 0 then [] else [Work(k, true)] + Solo(k, m - 1)
  }

  lemma NoStepNeeded(prog: Program, s: State, k: nat)
    requires Shaped(prog, s) && k <= prog.n + 1 && !Blocked(prog, s, k) && Distance(prog, s, k) == 0
    ensures Productive(prog, Exec(prog, s, Solo(k, 0)), k)
  {
    hide Blocked, Distance;
  }

  /** A worker that is not blocked is about to take a productive step after at most six steps. */
  lemma {:induction false} SoloProgress(setup: Setup, s: State, k: nat) returns (m: nat)
    requires Inv(setup, s) && k <= setup.prog.n + 1
    requires Running(s.workers[k]) && !Blocked(setup.prog, s, k)
    ensures m <= Distance(setup.prog, s, k) <= 6
    ensures Productive(setup.prog, Exec(setup.prog, s, Solo(k, m)), k)
    decreases Distance(setup.prog, s, k)
  {
    hide Inv, Step, Exec, Blocked, Distance, Productive;
    InvIsShaped(setup, s);
    DistanceIsSmall(setup.prog, s, k);
    if Distance(setup.prog, s, k) == 0 {
      m := 0;
      NoStepNeeded(setup.prog, s, k);
    } else {
      var s' := Step(setup.prog, s, Work(k, true));
      WalkStep(setup, s, k);
      StepKeepsInv(setup, s, Work(k, true));
      m := SoloProgress(setup, s', k);
      ExecFirst(setup.prog, s, Work(k, true), Solo(k, m));
      m := m + 1;
    }
  }

  /** A schedule can be cut after its first action. */
  lemma {:induction false} ExecFirst(prog: Program, s: State, a: Action, acts: seq<Action>)
    requires Shaped(prog, s)
    ensures Exec(prog, s, [a] + acts) == Exec(prog, Step(prog, s, a), acts)
  {
    var all := [a] + acts;
    if |acts| == 0 {
      assert all[..0] == [];
    } else {
      ExecFirst(prog, s, a, acts[..|acts| - 1]);
      assert all[..|all| - 1] == [a] + acts[..|acts| - 1];
    }
  }

  /** The pipe a blocked consumer waits for is empty, unless its producer is in between. */
  lemma StarvedPipeIsEmpty(setup: Setup, s: State, p: nat)
    requires Inv(setup, s) && p <= setup.prog.n
    requires s.workers[p].pc != Post && s.workers[p + 1].pc != Pull && s.pipes[p].permits == 0
    requires ConsumerHand(s.workers[p + 1]) == []
    ensures |s.pipes[p].fifo| == 0
    ensures |setup.buffers[p]| == |s.pipes[p].pool| + |ProducerHand(s.workers[p])|
  {
    hide WorkerInv, Intact, InHandIntact;
    var prod, q, cons := s.workers[p], s.pipes[p], s.workers[p + 1];
    assert PipeInv(setup.buffers[p], prod, q, cons);
    assert |multiset(q.pool) + multiset(q.fifo) + multiset(ProducerHand(prod)) + multiset(ConsumerHand(cons))|
        == |multiset(setup.buffers[p])|;
  }

  /** If all consumers to the right of pipe `p` are blocked, they are starved and the FIFO empty. */
  lemma {:induction false} BlockedMeansStarved(setup: Setup, s: State, p: nat)
    requires Inv(setup, s) && p <= setup.prog.n
    requires forall q | 0 <= q <= setup.prog.n :: |setup.buffers[q]| > 0
    requires forall k | p < k <= setup.prog.n + 1 :: Blocked(setup.prog, s, k)
    requires s.workers[p].pc != Post
    ensures s.workers[p + 1].readyToPull && s.workers[p + 1].pc != Pull && s.workers[p + 1].input == None
    ensures !s.workers[p + 1].readyToPush || p == setup.prog.n
    ensures |s.pipes[p].fifo| == 0
    ensures |s.pipes[p].pool| + |ProducerHand(s.workers[p])| > 0
    decreases setup.prog.n - p
  {
    hide PipeInv, RunSource, RunStage, RunSink;
    var k := p + 1;
    assert Blocked(setup.prog, s, k);
    assert WorkerInv(setup.prog, s, k);
    if p < setup.prog.n {
      BlockedMeansStarved(setup, s, p + 1);
    }
    StarvedPipeIsEmpty(setup, s, p);
  }

  /**
   Deadlock freedom: while the workers are enabled, the source is alive and every pipe has a
   buffer, some worker is not blocked; memory being granted, that worker takes a productive step
   after at most six steps of its own.
   */
  lemma DeadlockFreedom(setup: Setup, s: State) returns (k: nat, m: nat)
    requires IsReachable(setup, s)
    requires forall q | 0 <= q <= setup.prog.n :: |setup.buffers[q]| > 0
    requires forall j | 0 <= j <= setup.prog.n + 1 :: Running(s.workers[j])
    ensures k <= setup.prog.n + 1 && m <= 6
    ensures !Blocked(setup.prog, s, k)
    ensures Productive(setup.prog, Exec(setup.prog, s, Solo(k, m)), k)
  {
    ReachableInv(setup, s);
    if forall j | 0 <= j <= setup.prog.n + 1 :: Blocked(setup.prog, s, j) {
      assert Blocked(setup.prog, s, 0);
      BlockedMeansStarved(setup, s, 0);
      assert false;
    }
    k :| 0 <= k <= setup.prog.n + 1 && !Blocked(setup.prog, s, k);
    m := SoloProgress(setup, s, k);
  }

  // ------------------------------------------------------------------------------------------
  // Fair schedules
  // ------------------------------------------------------------------------------------------

  /** Only steps of workers, none of them refused memory or disturbed while waiting. */
  ghost predicate Granted(prog: Program, acts: seq<Action>) {
    forall i | 0 <= i < |acts| :: acts[i].Work? && acts[i].ok && acts[i].k <= prog.n + 1
  }

  lemma {:induction false} TurnsConcat(x: seq<Action>, y: seq<Action>, k: nat)
    ensures Turns(x + y, k) == Turns(x, k) + Turns(y, k)
  {
    if |y| == 0 {
      assert x + y == x;
    } else {
      TurnsConcat(x, y[..|y| - 1], k);
      assert (x + y)[..|x + y| - 1] == x + y[..|y| - 1];
    }
  }

  lemma {:induction false} SoloTurns(k: nat, m: nat, j: nat)
    ensures Turns(Solo(k, m), j) == if j == k then m else 0
  {
    if m > 0 {
      SoloTurns(k, m - 1, j);
      TurnsConcat([Work(k, true)], Solo(k, m - 1), j);
      assert [Work(k, true)][..0] == [];
    }
  }

  /** Every worker can be given `m` granted turns. */
  lemma {:induction false} EverybodyCanHaveTurns(prog: Program, upTo: nat, m: nat) returns (acts: seq<Action>)
    requires upTo <= prog.n + 2
    ensures Granted(prog, acts) && forall k | 0 <= k < upTo :: Turns(acts, k) >= m
  {
    if upTo == 0 {
      acts := [];
    } else {
      var rest := EverybodyCanHaveTurns(prog, upTo - 1, m);
      acts := rest + Solo(upTo - 1, m);
      SoloIsGranted(prog, upTo - 1, m);
      forall k | 0 <= k < upTo ensures Turns(acts, k) >= m {
        TurnsConcat(rest, Solo(upTo - 1, m), k);
        SoloTurns(upTo - 1, m, k);
      }
    }
  }

  lemma {:induction false} SoloIsGranted(prog: Program, k: nat, m: nat)
    requires k <= prog.n + 1
    ensures Granted(prog, Solo(k, m))
  {
    if m > 0 {
      SoloIsGranted(prog, k, m - 1);
    }
  }

  /** Some step of the schedule is productive. */
  ghost predicate GetsSomethingDone(prog: Program, s: State, acts: seq<Action>)
    requires Shaped(prog, s)
  {
    exists i | 0 <= i < |acts| :: ProductiveAt(prog, s, acts, i)
  }

  ghost predicate ProductiveAt(prog: Program, s: State, acts: seq<Action>, i: nat)
    requires Shaped(prog, s) && i < |acts|
  {
    && acts[i].Work? && acts[i].k <= prog.n + 1
    && Productive(prog, Exec(prog, s, acts[..i]), acts[i].k)
  }

  lemma LongerGetsItDone(prog: Program, s: State, acts: seq<Action>, a: Action)
    requires Shaped(prog, s)
    ensures GetsSomethingDone(prog, s, acts) ==> GetsSomethingDone(prog, s, acts + [a])
    ensures a.Work? && a.k <= prog.n + 1 && Productive(prog, Exec(prog, s, acts), a.k) ==>
              GetsSomethingDone(prog, s, acts + [a])
  {
    hide Exec, Productive;
    var more := acts + [a];
    if GetsSomethingDone(prog, s, acts) {
      var i :| 0 <= i < |acts| && ProductiveAt(prog, s, acts, i);
      assert more[..i] == acts[..i];
      assert ProductiveAt(prog, s, more, i);
    }
    assert more[..|acts|] == acts;
    if a.Work? && a.k <= prog.n + 1 && Productive(prog, Exec(prog, s, acts), a.k) {
      assert ProductiveAt(prog, s, more, |acts|);
    }
  }

  /** A worker that is not blocked comes closer with each of its turns, or somebody is productive. */
  lemma {:induction false} TurnsOrProgress(setup: Setup, s: State, acts: seq<Action>, k: nat)
    requires Inv(setup, s) && Shaped(setup.prog, s) && Granted(setup.prog, acts)
    requires k <= setup.prog.n + 1 && Running(s.workers[k]) && !Blocked(setup.prog, s, k)
    ensures var s' := Exec(setup.prog, s, acts);
            || GetsSomethingDone(setup.prog, s, acts)
            || (&& Inv(setup, s') && Running(s'.workers[k]) && !Blocked(setup.prog, s', k)
                && Distance(setup.prog, s', k) + Turns(acts, k) <= Distance(setup.prog, s, k))
  {
    hide Inv, Step, Blocked, Distance, Productive, GetsSomethingDone;
    var prog := setup.prog;
    if |acts| > 0 {
      var pre, a := acts[..|acts| - 1], acts[|acts| - 1];
      TurnsOrProgress(setup, s, pre, k);
      assert acts == pre + [a] && a == Work(a.k, true);
      LongerGetsItDone(prog, s, pre, a);
      if !GetsSomethingDone(prog, s, acts) {
        OneTurn(setup, Exec(prog, s, pre), a.k, k);
      }
    }
  }

  lemma OneTurn(setup: Setup, s: State, j: nat, k: nat)
    requires Inv(setup, s) && Shaped(setup.prog, s) && j <= setup.prog.n + 1 && k <= setup.prog.n + 1
    requires Running(s.workers[k]) && !Blocked(setup.prog, s, k) && !Productive(setup.prog, s, j)
    ensures var s' := Step(setup.prog, s, Work(j, true));
            && Inv(setup, s') && Running(s'.workers[k]) && !Blocked(setup.prog, s', k)
            && Distance(setup.prog, s', k) + (if j == k then 1 else 0) <= Distance(setup.prog, s, k)
  {
    hide Inv, Step, Blocked, Distance;
    StepKeepsInv(setup, s, Work(j, true));
    if j == k {
      WalkStep(setup, s, k);
    } else {
      OtherStepHelps(setup.prog, s, j, true, k);
    }
  }

  /**
   Progress under every fair schedule: while the workers are enabled, the source is alive and every
   pipe has a buffer, any schedule without refusals that gives each worker seven turns, in whatever
   order, contains a productive step.
   */
  lemma FairProgress(setup: Setup, s: State, acts: seq<Action>)
    requires IsReachable(setup, s) && Shaped(setup.prog, s)
    requires forall q | 0 <= q <= setup.prog.n :: |setup.buffers[q]| > 0
    requires forall j | 0 <= j <= setup.prog.n + 1 :: Running(s.workers[j])
    requires Granted(setup.prog, acts) && forall j | 0 <= j <= setup.prog.n + 1 :: Turns(acts, j) >= 7
    ensures GetsSomethingDone(setup.prog, s, acts)
  {
    hide Inv, Exec, Blocked, Distance, GetsSomethingDone, Productive;
    ReachableInv(setup, s);
    var k, m := DeadlockFreedom(setup, s);
    TurnsOrProgress(setup, s, acts, k);
    DistanceIsSmall(setup.prog, s, k);
  }
}
