/** The invariant holds in every state of every schedule. */
module Reachable {
  import opened Channel
  import opened Program
  import opened Machine
  import opened Invariant
  import opened Steps

  /** A stage looks only at what it has received, what it has sent and its output buffers. */
  lemma StageFrame(prog: Program, k: nat, w: Worker, inp: Pipe, out: Pipe, inp': Pipe, out': Pipe)
    requires StageInv(prog, k, w, inp, out)
    requires inp'.received == inp.received && out'.sent == out.sent && out'.mem == out.mem
    ensures StageInv(prog, k, w, inp', out')
  {
    hide RunStage;
  }

  lemma SourceFrame(prog: Program, w: Worker, out: Pipe, out': Pipe)
    requires SourceInv(prog, w, out)
    requires out'.sent == out.sent && out'.mem == out.mem
    ensures SourceInv(prog, w, out')
  {
    hide RunSource;
  }

  lemma SinkFrame(prog: Program, w: Worker, inp: Pipe, inp': Pipe)
    requires SinkInv(prog, w, inp) && inp'.received == inp.received
    ensures SinkInv(prog, w, inp')
  {
    hide RunSink;
  }

  /** What a step of worker `k` leaves as it was for the others. */
  ghost predicate OthersUntouched(prog: Program, s: State, s': State, k: nat)
    requires Shaped(prog, s) && Shaped(prog, s') && k <= prog.n + 1
  {
    && (forall j | 0 <= j <= prog.n + 1 && j != k :: s'.workers[j] == s.workers[j])
    && (forall p | 0 <= p <= prog.n && p != k && p != k - 1 :: s'.pipes[p] == s.pipes[p])
    && (k <= prog.n ==> s'.pipes[k].received == s.pipes[k].received)
    && (k > 0 ==> s'.pipes[k - 1].sent == s.pipes[k - 1].sent && s'.pipes[k - 1].mem == s.pipes[k - 1].mem)
  }

  lemma OthersKeepTheirs(prog: Program, s: State, s': State, k: nat, j: nat)
    requires Shaped(prog, s) && Shaped(prog, s') && k <= prog.n + 1 && j <= prog.n + 1 && j != k
    requires OthersUntouched(prog, s, s', k) && WorkerInv(prog, s, j)
    ensures WorkerInv(prog, s', j)
  {
    hide SourceInv, StageInv, SinkInv;
    if j == 0 {
      SourceFrame(prog, s.workers[j], s.pipes[j], s'.pipes[j]);
    } else if j == prog.n + 1 {
      SinkFrame(prog, s.workers[j], s.pipes[j - 1], s'.pipes[j - 1]);
    } else {
      StageFrame(prog, j, s.workers[j], s.pipes[j - 1], s.pipes[j], s'.pipes[j - 1], s'.pipes[j]);
    }
  }

  /** The invariant after a step of worker `k` follows from what the step does next to it. */
  lemma Assemble(setup: Setup, s: State, s': State, k: nat)
    requires Inv(setup, s) && Shaped(setup.prog, s') && k <= setup.prog.n + 1
    requires OthersUntouched(setup.prog, s, s', k)
    requires WorkerInv(setup.prog, s', k)
    requires k <= setup.prog.n ==> PipeInv(setup.buffers[k], s'.workers[k], s'.pipes[k], s'.workers[k + 1])
    requires k > 0 ==> PipeInv(setup.buffers[k - 1], s'.workers[k - 1], s'.pipes[k - 1], s'.workers[k])
    ensures Inv(setup, s')
  {
    hide PipeInv, WorkerInv;
    forall j | 0 <= j <= setup.prog.n + 1 ensures WorkerInv(setup.prog, s', j) {
      if j != k {
        OthersKeepTheirs(setup.prog, s, s', k, j);
      }
    }
  }

  lemma ResettingMeansReady(setup: Setup, s: State, k: nat)
    requires Inv(setup, s) && 0 < k <= setup.prog.n + 1 && s.workers[k].pc == ResetIn
    ensures s.workers[k].readyToPull
  {
    hide PipeInv, RunStage, RunSink;
    assert WorkerInv(setup.prog, s, k);
  }

  lemma SourceStepKeepsInv(setup: Setup, s: State, ok: bool)
    requires Inv(setup, s)
    ensures Inv(setup, Step(setup.prog, s, Work(0, ok)))
  {
    hide PipeInv, SourceInv, StageInv, SinkInv, SourceStep;
    var prog, w, out, cons := setup.prog, s.workers[0], s.pipes[0], s.workers[1];
    assert WorkerInv(prog, s, 0);
    if cons.pc == ResetIn {
      ResettingMeansReady(setup, s, 1);
    }
    SourceKeepsPipe(prog, setup.buffers[0], w, out, cons, ok);
    SourceKeepsItself(prog, w, out, ok);
    Assemble(setup, s, Step(prog, s, Work(0, ok)), 0);
  }

  lemma StageStepKeepsInv(setup: Setup, s: State, k: nat, ok: bool)
    requires Inv(setup, s) && 0 < k <= setup.prog.n
    ensures Inv(setup, Step(setup.prog, s, Work(k, ok)))
  {
    hide PipeInv, SourceInv, StageInv, SinkInv, StageStep;
    var prog, w := setup.prog, s.workers[k];
    var inp, out, prod, cons := s.pipes[k - 1], s.pipes[k], s.workers[k - 1], s.workers[k + 1];
    assert WorkerInv(prog, s, k);
    if cons.pc == ResetIn {
      ResettingMeansReady(setup, s, k + 1);
    }
    StageKeepsOut(prog, k, setup.buffers[k], w, inp, out, cons, ok);
    StageKeepsIn(prog, k, setup.buffers[k - 1], prod, w, inp, out, ok);
    StageKeepsItself(prog, k, setup.buffers[k - 1], prod, w, inp, out, ok);
    Assemble(setup, s, Step(prog, s, Work(k, ok)), k);
  }

  lemma SinkStepKeepsInv(setup: Setup, s: State, ok: bool)
    requires Inv(setup, s)
    ensures Inv(setup, Step(setup.prog, s, Work(setup.prog.n + 1, ok)))
  {
    hide PipeInv, SourceInv, StageInv, SinkInv, SinkStep;
    var prog, k := setup.prog, setup.prog.n + 1;
    var w, inp, prod := s.workers[k], s.pipes[k - 1], s.workers[k - 1];
    assert WorkerInv(prog, s, k);
    SinkKeepsPipe(prog, setup.buffers[k - 1], prod, w, inp, ok);
    SinkKeepsItself(prog, setup.buffers[k - 1], prod, w, inp, ok);
    Assemble(setup, s, Step(prog, s, Work(k, ok)), k);
  }

  /** Enabling, disabling and destroying change no more than the flags of one worker. */
  lemma ControlKeepsInv(setup: Setup, s: State, k: nat, w': Worker)
    requires Inv(setup, s) && k <= setup.prog.n + 1
    requires var w := s.workers[k]; w' == w.(enabled := w'.enabled, destroyed := w'.destroyed)
    requires s.workers[k].destroyed ==> w'.destroyed
    ensures Inv(setup, s.(workers := s.workers[k := w']))
  {
    hide PipeInv, SourceInv, StageInv, SinkInv;
    var prog, s', w := setup.prog, s.(workers := s.workers[k := w']), s.workers[k];
    FlagsKeepWorker(prog, s, k, w');
    if k <= prog.n {
      ProducerFrame(setup.buffers[k], w, w', s.pipes[k], s.workers[k + 1]);
    }
    if k > 0 {
      ConsumerFrame(setup.buffers[k - 1], s.workers[k - 1], s.pipes[k - 1], w, w');
    }
    Assemble(setup, s, s', k);
  }

  lemma FlagsKeepWorker(prog: Program, s: State, k: nat, w': Worker)
    requires Shaped(prog, s) && k <= prog.n + 1 && WorkerInv(prog, s, k)
    requires var w := s.workers[k]; w' == w.(enabled := w'.enabled, destroyed := w'.destroyed)
    requires s.workers[k].destroyed ==> w'.destroyed
    ensures WorkerInv(prog, s.(workers := s.workers[k := w']), k)
  {
    hide RunSource, RunStage, RunSink;
  }

  lemma StepKeepsInv(setup: Setup, s: State, a: Action)
    requires Inv(setup, s)
    ensures Inv(setup, Step(setup.prog, s, a))
  {
    hide Inv, SourceStep, StageStep, SinkStep;
    InvIsShaped(setup, s);
    if a.k <= setup.prog.n + 1 {
      match a
      case SetEnabled(k, on) => ControlKeepsInv(setup, s, k, s.workers[k].(enabled := on));
      case SetDestroyed(k) => ControlKeepsInv(setup, s, k, s.workers[k].(destroyed := true));
      case Work(k, ok) =>
        if k == 0 {
          SourceStepKeepsInv(setup, s, ok);
        } else if k == setup.prog.n + 1 {
          SinkStepKeepsInv(setup, s, ok);
        } else {
          StageStepKeepsInv(setup, s, k, ok);
        }
    }
  }

  /** From any state that satisfies it, every schedule keeps the invariant. */
  lemma {:induction false} ExecKeepsInv(setup: Setup, s: State, acts: seq<Action>)
    requires Inv(setup, s)
    ensures Inv(setup, Exec(setup.prog, s, acts))
  {
    if |acts| > 0 {
      ExecKeepsInv(setup, s, acts[..|acts| - 1]);
      StepKeepsInv(setup, Exec(setup.prog, s, acts[..|acts| - 1]), acts[|acts| - 1]);
    }
  }

  /** A state some schedule leads to from the enabled pipeline. */
  ghost predicate IsReachable(setup: Setup, s: State) {
    setup.Valid() && exists acts: seq<Action> :: s == Exec(setup.prog, Init(setup), acts)
  }

  lemma ReachableInv(setup: Setup, s: State)
    requires IsReachable(setup, s)
    ensures Inv(setup, s)
  {
    var acts: seq<Action> :| s == Exec(setup.prog, Init(setup), acts);
    InitHolds(setup);
    ExecKeepsInv(setup, Init(setup), acts);
  }

  /** A schedule can be cut anywhere. */
  lemma {:induction false} ExecConcat(prog: Program, s: State, x: seq<Action>, y: seq<Action>)
    requires Shaped(prog, s)
    ensures Exec(prog, s, x + y) == Exec(prog, Exec(prog, s, x), y)
  {
    hide Step;
    if |y| == 0 {
      assert x + y == x;
    } else {
      ExecConcat(prog, s, x, y[..|y| - 1]);
      assert (x + y)[..|x + y| - 1] == x + y[..|y| - 1];
    }
  }
}
