/** What a worker still does after it has been disabled or destroyed (src/worker.c:86-96 and 141-163). */
module Stopping {
  import opened Buffers
  import opened Channel
  import opened Program
  import opened Machine
  import opened Invariant
  import opened Reachable

  // ------------------------------------------------------------------------------------------
  // After a disable or a destroy
  // ------------------------------------------------------------------------------------------

  /** Steps a destroyed worker can still take. */
  function StepsLeft(isSink: bool, pc: PC): nat {
    match pc
    case Exited => 0
    case Top => 1
    case Recheck => 1
    case Gate => 2
    case Reput => 2
    case Push => 10
    case Post => 9
    case ResetOut => 8
    case Acquire => if isSink then 4 else 7
    case Pull => if isSink then 3 else 6
    case Take => 5
    case Call => if isSink then 2 else 4
    case PutBack => if isSink then 6 else 3
    case ResetIn => if isSink then 5 else 2
  }

  /** Whether the round a worker is in can still reach the callback. */
  predicate CallAhead(isSink: bool, pc: PC) {
    if isSink then pc in {PutBack, ResetIn, Acquire, Pull, Call}
    else pc in {Push, Post, ResetOut, Acquire, Pull, Take, Call}
  }

  /** Callbacks a worker that is not to go on can still begin: those of the round it is in. */
  function CallsLeft(prog: Program, w: Worker, k: nat): nat {
    if CallAhead(k == prog.n + 1, w.pc) || (w.pc == Recheck && !w.destroyed) then 1 else 0
  }

  /** What a step of its own does to the flags, the place and the calls of a worker. */
  ghost predicate WindsDown(prog: Program, w: Worker, w': Worker, k: nat) {
    var isSink := k == prog.n + 1;
    && (w.destroyed ==>
          && w'.destroyed
          && (StepsLeft(isSink, w'.pc) < StepsLeft(isSink, w.pc) || w'.pc == w.pc == Exited))
    && w'.enabled == w.enabled
    && (w.destroyed || !w.enabled ==>
          w'.calls + CallsLeft(prog, w', k) <= w.calls + CallsLeft(prog, w, k))
  }

  lemma SourceWindsDown(prog: Program, w: Worker, out: Pipe, ok: bool)
    requires SourceInv(prog, w, out)
    ensures WindsDown(prog, w, SourceStep(prog, w, out, ok).0, 0)
  {
    hide RunSource;
  }

  lemma LoopWindsDown(prog: Program, w: Worker, start: PC, k: nat)
    requires AtLoop(w.pc) && start == if k == prog.n + 1 then PutBack else Push
    ensures WindsDown(prog, w, LoopStep(w, start), k)
  {
  }

  lemma StageWindsDownInside(prog: Program, k: nat, w: Worker, inp: Pipe, out: Pipe, ok: bool)
    requires StageInv(prog, k, w, inp, out) && 0 < k <= prog.n && !AtLoop(w.pc)
    ensures WindsDown(prog, w, StageStep(prog, k, w, inp, out, ok).0, k)
  {
    hide RunStage, LoopStep;
  }

  lemma StageWindsDown(prog: Program, k: nat, w: Worker, inp: Pipe, out: Pipe, ok: bool)
    requires StageInv(prog, k, w, inp, out) && 0 < k <= prog.n
    ensures WindsDown(prog, w, StageStep(prog, k, w, inp, out, ok).0, k)
  {
    hide RunStage, LoopStep, WindsDown;
    if AtLoop(w.pc) {
      LoopWindsDown(prog, w, Push, k);
    } else {
      StageWindsDownInside(prog, k, w, inp, out, ok);
    }
  }

  lemma SinkWindsDown(prog: Program, w: Worker, inp: Pipe, ok: bool)
    requires SinkInv(prog, w, inp)
    ensures WindsDown(prog, w, SinkStep(prog, w, inp, ok).0, prog.n + 1)
  {
    hide RunSink;
  }

  lemma OwnTurn(setup: Setup, s: State, k: nat, ok: bool)
    requires Inv(setup, s) && Shaped(setup.prog, s) && k <= setup.prog.n + 1
    ensures WindsDown(setup.prog, s.workers[k], Step(setup.prog, s, Work(k, ok)).workers[k], k)
  {
    hide PipeInv, SourceInv, StageInv, SinkInv, WindsDown, SourceStep, StageStep, SinkStep;
    assert WorkerInv(setup.prog, s, k);
    if k == 0 {
      SourceWindsDown(setup.prog, s.workers[0], s.pipes[0], ok);
    } else if k == setup.prog.n + 1 {
      SinkWindsDown(setup.prog, s.workers[k], s.pipes[k - 1], ok);
    } else {
      StageWindsDown(setup.prog, k, s.workers[k], s.pipes[k - 1], s.pipes[k], ok);
    }
  }

  /** Whatever others do, a worker keeps its place, and a destroyed one stays destroyed. */
  lemma OthersTurn(prog: Program, s: State, a: Action, k: nat)
    requires Shaped(prog, s) && k <= prog.n + 1 && !(a.Work? && a.k == k)
    ensures var w, w' := s.workers[k], Step(prog, s, a).workers[k];
            && (w.destroyed ==> w'.destroyed)
            && (a != SetEnabled(k, true) && !w.enabled ==> !w'.enabled)
            && w'.pc == w.pc && w'.calls == w.calls
            && CallsLeft(prog, w', k) <= CallsLeft(prog, w, k)
  {
    hide SourceStep, StageStep, SinkStep;
  }

  /**
   A destroyed worker exits after at most ten turns, whatever the schedule, and begins at most
   one more callback; so joining it comes to an end.
   */
  lemma {:induction false} DestroyedExits(setup: Setup, s: State, acts: seq<Action>, k: nat)
    requires Inv(setup, s) && Shaped(setup.prog, s) && k <= setup.prog.n + 1 && s.workers[k].destroyed
    ensures var w, s' := s.workers[k], Exec(setup.prog, s, acts);
            var w' := s'.workers[k];
            && Inv(setup, s') && w'.destroyed
            && (Turns(acts, k) >= 10 ==> w'.pc == Exited)
            && w'.calls <= w.calls + 1
            && w'.calls + CallsLeft(setup.prog, w', k) <= w.calls + CallsLeft(setup.prog, w, k)
            && var sink := k == setup.prog.n + 1;
               (w'.pc == Exited || StepsLeft(sink, w'.pc) + Turns(acts, k) <= StepsLeft(sink, w.pc))
  {
    hide Inv, Step, CallsLeft;
    assert CallsLeft(setup.prog, s.workers[k], k) <= 1 by {
      AtMostOneLeft(setup.prog, s.workers[k], k);
    }
    if |acts| > 0 {
      var pre, a := acts[..|acts| - 1], acts[|acts| - 1];
      DestroyedExits(setup, s, pre, k);
      var mid := Exec(setup.prog, s, pre);
      StepKeepsInv(setup, mid, a);
      if a.Work? && a.k == k {
        OwnTurn(setup, mid, k, a.ok);
      } else {
        OthersTurn(setup.prog, mid, a, k);
      }
    }
  }

  lemma AtMostOneLeft(prog: Program, w: Worker, k: nat)
    ensures CallsLeft(prog, w, k) <= 1
  {
  }

  /** A stopped worker that nobody enables again begins at most one more callback. */
  lemma {:induction false} StoppedSleeps(setup: Setup, s: State, acts: seq<Action>, k: nat)
    requires Inv(setup, s) && Shaped(setup.prog, s) && k <= setup.prog.n + 1
    requires !s.workers[k].enabled && forall i | 0 <= i < |acts| :: acts[i] != SetEnabled(k, true)
    ensures var w, s' := s.workers[k], Exec(setup.prog, s, acts);
            var w' := s'.workers[k];
            && Inv(setup, s') && !w'.enabled
            && w'.calls + CallsLeft(setup.prog, w', k) <= w.calls + CallsLeft(setup.prog, w, k) <= w.calls + 1
  {
    hide Inv, Step, CallsLeft;
    AtMostOneLeft(setup.prog, s.workers[k], k);
    if |acts| > 0 {
      var pre, a := acts[..|acts| - 1], acts[|acts| - 1];
      StoppedSleeps(setup, s, pre, k);
      var mid := Exec(setup.prog, s, pre);
      StepKeepsInv(setup, mid, a);
      if a.Work? && a.k == k {
        OwnTurn(setup, mid, k, a.ok);
      } else {
        OthersTurn(setup.prog, mid, a, k);
      }
    }
  }

  // ------------------------------------------------------------------------------------------
  // Before the start
  // ------------------------------------------------------------------------------------------

  /** A worker that nobody has enabled yet: its callback has not begun and its context is empty. */
  ghost predicate NotBegun(w: Worker) {
    && !w.enabled && AtLoop(w.pc) && (w.pc == Recheck ==> w.destroyed)
    && w.calls == 0 && w.input == None && w.output == None
  }

  lemma StepKeepsNotBegun(prog: Program, s: State, a: Action, k: nat)
    requires Shaped(prog, s) && k <= prog.n + 1 && NotBegun(s.workers[k]) && a != SetEnabled(k, true)
    ensures NotBegun(Step(prog, s, a).workers[k])
  {
    if a.Work? && a.k == k {
      LoopIsLoopStep(prog, s, k, a.ok);
    } else {
      hide SourceStep, StageStep, SinkStep;
    }
  }

  lemma LoopIsLoopStep(prog: Program, s: State, k: nat, ok: bool)
    requires Shaped(prog, s) && k <= prog.n + 1 && AtLoop(s.workers[k].pc)
    ensures Step(prog, s, Work(k, ok)).workers[k] == LoopStep(s.workers[k], if k == prog.n + 1 then PutBack else Push)
  {
    hide LoopStep, PushStep, PostStep, ResetOutStep, TakeStep, AcquireStep, PullStep, ReputStep, ResetInStep;
  }

  /**
   An enabled pipeline is stopped: whatever the schedule, a worker that has not been enabled has never
   begun its callback and has taken no buffer.
   */
  lemma {:induction false} NothingBeforeStart(setup: Setup, acts: seq<Action>, k: nat)
    requires setup.Valid() && k <= setup.prog.n + 1
    requires forall i | 0 <= i < |acts| :: acts[i] != SetEnabled(k, true)
    ensures var w := Exec(setup.prog, Init(setup), acts).workers[k];
            && !w.enabled && AtLoop(w.pc) && (w.pc == Recheck ==> w.destroyed)
            && w.calls == 0 && w.input == None && w.output == None
  {
    hide Step;
    if |acts| > 0 {
      var pre, a := acts[..|acts| - 1], acts[|acts| - 1];
      NothingBeforeStart(setup, pre, k);
      StepKeepsNotBegun(setup.prog, Exec(setup.prog, Init(setup), pre), a, k);
    }
  }

  // ------------------------------------------------------------------------------------------
  // Falling asleep
  // ------------------------------------------------------------------------------------------

  /** Steps a worker that is not enabled can still take before it rests at the gate or has exited. */
  function StepsToRest(isSink: bool, w: Worker): nat {
    if w.destroyed then StepsLeft(isSink, w.pc)
    else if w.pc == Gate then 0
    else if w.pc == Recheck || w.pc == Exited then 11
    else StepsLeft(isSink, w.pc)
  }

  predicate Resting(w: Worker) {
    w.pc == if w.destroyed then Exited else Gate
  }

  /** A step of its own brings a worker that is not enabled closer to its rest, and leaves it there. */
  ghost predicate FallsAsleep(isSink: bool, w: Worker, w': Worker) {
    && w'.enabled == w.enabled
    && (!w.enabled ==> if Resting(w) then w' == w else StepsToRest(isSink, w') < StepsToRest(isSink, w))
  }

  lemma SourceFallsAsleep(prog: Program, w: Worker, out: Pipe, ok: bool)
    requires SourceInv(prog, w, out)
    ensures FallsAsleep(false, w, SourceStep(prog, w, out, ok).0)
  {
    hide RunSource;
  }

  lemma LoopFallsAsleep(w: Worker, start: PC, isSink: bool)
    requires AtLoop(w.pc) && (w.pc == Exited ==> w.destroyed) && start == if isSink then PutBack else Push
    ensures FallsAsleep(isSink, w, LoopStep(w, start))
  {
  }

  lemma StageFallsAsleepInside(prog: Program, k: nat, w: Worker, inp: Pipe, out: Pipe, ok: bool)
    requires StageInv(prog, k, w, inp, out) && !AtLoop(w.pc)
    ensures FallsAsleep(false, w, StageStep(prog, k, w, inp, out, ok).0)
  {
    hide RunStage, LoopStep;
  }

  lemma StageFallsAsleep(prog: Program, k: nat, w: Worker, inp: Pipe, out: Pipe, ok: bool)
    requires StageInv(prog, k, w, inp, out)
    ensures FallsAsleep(false, w, StageStep(prog, k, w, inp, out, ok).0)
  {
    hide RunStage, LoopStep, FallsAsleep;
    if AtLoop(w.pc) {
      LoopFallsAsleep(w, Push, false);
    } else {
      StageFallsAsleepInside(prog, k, w, inp, out, ok);
    }
  }

  lemma SinkFallsAsleep(prog: Program, w: Worker, inp: Pipe, ok: bool)
    requires SinkInv(prog, w, inp)
    ensures FallsAsleep(true, w, SinkStep(prog, w, inp, ok).0)
  {
    hide RunSink;
  }

  lemma OwnTurnFallsAsleep(setup: Setup, s: State, k: nat, ok: bool)
    requires Inv(setup, s) && Shaped(setup.prog, s) && k <= setup.prog.n + 1
    ensures FallsAsleep(k == setup.prog.n + 1, s.workers[k], Step(setup.prog, s, Work(k, ok)).workers[k])
  {
    hide Inv, SourceInv, StageInv, SinkInv, FallsAsleep, SourceStep, StageStep, SinkStep;
    WorkerHolds(setup, s, k);
    if k == 0 {
      SourceFallsAsleep(setup.prog, s.workers[0], s.pipes[0], ok);
    } else if k == setup.prog.n + 1 {
      SinkFallsAsleep(setup.prog, s.workers[k], s.pipes[k - 1], ok);
    } else {
      StageFallsAsleep(setup.prog, k, s.workers[k], s.pipes[k - 1], s.pipes[k], ok);
    }
  }

  lemma OthersKeepFlags(prog: Program, s: State, a: Action, k: nat)
    requires Shaped(prog, s) && k <= prog.n + 1 && !s.workers[k].enabled
    requires !(a.Work? && a.k == k) && a != SetEnabled(k, true) && a != SetDestroyed(k)
    ensures Step(prog, s, a).workers[k] == s.workers[k]
  {
    hide SourceStep, StageStep, SinkStep;
  }

  /**
   A stopped worker that nobody enables or destroys is at rest after at most eleven turns of its
   own, whatever the schedule, and it stays there: at the gate, or exited if it has been destroyed
   (the source may have destroyed itself in its last callback).
   */
  lemma {:induction false} StoppedRests(setup: Setup, s: State, acts: seq<Action>, k: nat)
    requires Inv(setup, s) && Shaped(setup.prog, s) && k <= setup.prog.n + 1
    requires !s.workers[k].enabled
    requires forall i | 0 <= i < |acts| :: acts[i] != SetEnabled(k, true) && acts[i] != SetDestroyed(k)
    ensures var w, w' := s.workers[k], Exec(setup.prog, s, acts).workers[k];
            var sink := k == setup.prog.n + 1;
            && Inv(setup, Exec(setup.prog, s, acts)) && !w'.enabled
            && (Resting(w') || StepsToRest(sink, w') + Turns(acts, k) <= StepsToRest(sink, w))
            && (Turns(acts, k) >= 11 ==> Resting(w'))
  {
    hide Inv, Step, StepsToRest, Resting;
    RestIsNear(k == setup.prog.n + 1, s.workers[k]);
    if |acts| > 0 {
      var pre, a := acts[..|acts| - 1], acts[|acts| - 1];
      StoppedRests(setup, s, pre, k);
      var mid := Exec(setup.prog, s, pre);
      StepKeepsInv(setup, mid, a);
      if a.Work? && a.k == k {
        OwnTurnFallsAsleep(setup, mid, k, a.ok);
        assert a == Work(k, a.ok);
      } else {
        OthersKeepFlags(setup.prog, mid, a, k);
      }
    }
    RestIsNear(k == setup.prog.n + 1, Exec(setup.prog, s, acts).workers[k]);
  }

  lemma RestIsNear(isSink: bool, w: Worker)
    ensures StepsToRest(isSink, w) <= 11
    ensures StepsToRest(isSink, w) == 0 ==> Resting(w)
  {
  }
}
