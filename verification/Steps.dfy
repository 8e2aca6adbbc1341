/** Every step of the pipeline keeps the invariant. */
module Steps {
  import opened Buffers
  import opened Channel
  import opened Program
  import opened Machine
  import opened Invariant

  // ------------------------------------------------------------------------------------------
  // The source
  // ------------------------------------------------------------------------------------------

  lemma SourceCallKeepsPipe(prog: Program, buffers: seq<Buffer>, w: Worker, out: Pipe, cons: Worker)
    requires Distinct(buffers) && PipeInv(buffers, w, out, cons) && w.pc == Call
    requires cons.pc == ResetIn ==> cons.readyToPull
    ensures var (w', out') := SourceStep(prog, w, out, true); PipeInv(buffers, w', out', cons)
  {
    hide PipeInv;
    var (w', out') := SourceStep(prog, w, out, true);
    if w.output != None {
      var r := prog.source(prog.Given(0, w.user, w.calls));
      WriteKeepsPipe(buffers, w, out, cons, r.written);
    }
    ProducerFrame(buffers, w, w', out', cons);
  }

  lemma SourceKeepsPipe(prog: Program, buffers: seq<Buffer>, w: Worker, out: Pipe, cons: Worker, ok: bool)
    requires Distinct(buffers) && PipeInv(buffers, w, out, cons) && SourceInv(prog, w, out)
    requires cons.pc == ResetIn ==> cons.readyToPull
    ensures var (w', out') := SourceStep(prog, w, out, ok); PipeInv(buffers, w', out', cons)
  {
    hide PipeInv, RunSource, PushStep, PostStep, ResetOutStep, TakeStep;
    var (w', out') := SourceStep(prog, w, out, ok);
    match w.pc
    case Push => PushKeepsPipe(buffers, w, out, cons, Take, ok);
    case Post => PostKeepsPipe(buffers, w, out, cons);
    case ResetOut => ResetOutKeepsPipe(buffers, w, out, cons, Take);
    case Take => TakeKeepsPipe(buffers, w, out, cons);
    case Call => SourceCallKeepsPipe(prog, buffers, w, out, cons);
    case _ => ProducerFrame(buffers, w, w', out, cons);
  }

  /** One more call of the source is one more call of its sequential run. */
  lemma SourceCallKeepsItself(prog: Program, w: Worker, out: Pipe)
    requires SourceInv(prog, w, out) && w.pc == Call
    ensures var (w', out') := SourceStep(prog, w, out, true); SourceInv(prog, w', out')
  {
  }

  lemma SourceMoveKeepsItself(prog: Program, w: Worker, out: Pipe, ok: bool)
    requires SourceInv(prog, w, out) && w.pc != Call
    ensures var (w', out') := SourceStep(prog, w, out, ok); SourceInv(prog, w', out')
  {
    hide RunSource;
  }

  lemma SourceKeepsItself(prog: Program, w: Worker, out: Pipe, ok: bool)
    requires SourceInv(prog, w, out)
    ensures var (w', out') := SourceStep(prog, w, out, ok);
            SourceInv(prog, w', out') && out'.received == out.received
  {
    hide SourceInv, RunSource;
    if w.pc == Call {
      SourceCallKeepsItself(prog, w, out);
    } else {
      SourceMoveKeepsItself(prog, w, out, ok);
    }
  }

  // ------------------------------------------------------------------------------------------
  // A stage
  // ------------------------------------------------------------------------------------------

  lemma StageCallKeepsOut(prog: Program, k: nat, buffers: seq<Buffer>, w: Worker, inp: Pipe, out: Pipe, cons: Worker)
    requires Distinct(buffers) && PipeInv(buffers, w, out, cons) && w.pc == Call
    requires cons.pc == ResetIn ==> cons.readyToPull
    ensures var (w', inp', out') := StageStep(prog, k, w, inp, out, true); PipeInv(buffers, w', out', cons)
  {
    hide PipeInv;
    var (w', inp', out') := StageStep(prog, k, w, inp, out, true);
    if w.output != None && w.input != None {
      var r := prog.stage(k, prog.Given(k, w.user, w.calls), inp.mem(w.input.value));
      WriteKeepsPipe(buffers, w, out, cons, r.written);
    }
    ProducerFrame(buffers, w, w', out', cons);
  }

  lemma StageKeepsOut(prog: Program, k: nat, buffers: seq<Buffer>, w: Worker, inp: Pipe, out: Pipe, cons: Worker,
                      ok: bool)
    requires Distinct(buffers) && PipeInv(buffers, w, out, cons) && StageInv(prog, k, w, inp, out)
    requires cons.pc == ResetIn ==> cons.readyToPull
    ensures var (w', inp', out') := StageStep(prog, k, w, inp, out, ok); PipeInv(buffers, w', out', cons)
  {
    hide PipeInv, RunStage, PushStep, PostStep, ResetOutStep, TakeStep, Channel.PutBack;
    var (w', inp', out') := StageStep(prog, k, w, inp, out, ok);
    match w.pc
    case Push => PushKeepsPipe(buffers, w, out, cons, Acquire, ok);
    case Post => PostKeepsPipe(buffers, w, out, cons);
    case ResetOut => ResetOutKeepsPipe(buffers, w, out, cons, Acquire);
    case Take => TakeKeepsPipe(buffers, w, out, cons);
    case Call => StageCallKeepsOut(prog, k, buffers, w, inp, out, cons);
    case _ => ProducerFrame(buffers, w, w', out, cons);
  }

  lemma StageSparesIn(prog: Program, k: nat, w: Worker, inp: Pipe, out: Pipe, ok: bool)
    ensures var inp' := StageStep(prog, k, w, inp, out, ok).1;
            inp'.sent == inp.sent && inp'.mem == inp.mem
  {
  }

  lemma StageKeepsIn(prog: Program, k: nat, buffers: seq<Buffer>, prod: Worker, w: Worker, inp: Pipe, out: Pipe,
                     ok: bool)
    requires Distinct(buffers) && PipeInv(buffers, prod, inp, w) && StageInv(prog, k, w, inp, out)
    ensures var (w', inp', out') := StageStep(prog, k, w, inp, out, ok);
            PipeInv(buffers, prod, inp', w') && inp'.sent == inp.sent && inp'.mem == inp.mem
  {
    StageSparesIn(prog, k, w, inp, out, ok);
    hide PipeInv, RunStage, AcquireStep, PullStep, Channel.PutBack;
    var (w', inp', out') := StageStep(prog, k, w, inp, out, ok);
    match w.pc
    case Acquire => AcquireKeepsPipe(buffers, prod, inp, w, Take, ok);
    case Pull => PullKeepsPipe(buffers, prod, inp, w, Take);
    case PutBack => PutBackKeepsPipe(buffers, prod, inp, w, w', ok);
    case _ => ConsumerFrame(buffers, prod, inp, w, w');
  }

  /** One more call of a stage is one more call of its sequential run. */
  lemma StageCallKeepsItself(prog: Program, k: nat, w: Worker, inp: Pipe, out: Pipe)
    requires StageInv(prog, k, w, inp, out) && w.pc == Call && InHandIntact(inp, w)
    ensures var (w', inp', out') := StageStep(prog, k, w, inp, out, true);
            StageInv(prog, k, w', inp', out')
  {
    hide RunStage;
    if w.output != None {
      RunStageNext(prog, k, inp.received, w.calls);
    }
  }

  /** A pop gives the sequential run one more input. */
  lemma StagePullKeepsItself(prog: Program, k: nat, w: Worker, inp: Pipe, out: Pipe)
    requires StageInv(prog, k, w, inp, out) && w.pc == Pull && |inp.fifo| > 0
    ensures var (w', inp', out') := StageStep(prog, k, w, inp, out, true);
            StageInv(prog, k, w', inp', out')
  {
    hide RunStage;
    RunStageExtends(prog, k, inp.received, GetFullBuffer(inp).received, w.calls);
  }

  lemma StageMoveKeepsItself(prog: Program, k: nat, w: Worker, inp: Pipe, out: Pipe, ok: bool)
    requires StageInv(prog, k, w, inp, out) && w.pc != Pull && w.pc != Call
    ensures var (w', inp', out') := StageStep(prog, k, w, inp, out, ok);
            StageInv(prog, k, w', inp', out')
  {
    hide RunStage;
  }

  lemma StageKeepsItself(prog: Program, k: nat, buffers: seq<Buffer>, prod: Worker, w: Worker, inp: Pipe, out: Pipe,
                         ok: bool)
    requires PipeInv(buffers, prod, inp, w) && StageInv(prog, k, w, inp, out)
    ensures var (w', inp', out') := StageStep(prog, k, w, inp, out, ok);
            StageInv(prog, k, w', inp', out') && out'.received == out.received
  {
    hide RunStage;
    assert InHandIntact(inp, w);
    if w.pc == Pull {
      PullKeepsPipe(buffers, prod, inp, w, Take);
      hide PipeInv, StageInv;
      StagePullKeepsItself(prog, k, w, inp, out);
    } else if w.pc == Call {
      hide PipeInv, StageInv;
      StageCallKeepsItself(prog, k, w, inp, out);
    } else {
      hide PipeInv, StageInv;
      StageMoveKeepsItself(prog, k, w, inp, out, ok);
    }
  }

  // ------------------------------------------------------------------------------------------
  // The sink
  // ------------------------------------------------------------------------------------------

  lemma SinkKeepsPipe(prog: Program, buffers: seq<Buffer>, prod: Worker, w: Worker, inp: Pipe, ok: bool)
    requires Distinct(buffers) && PipeInv(buffers, prod, inp, w) && SinkInv(prog, w, inp)
    ensures var (w', inp') := SinkStep(prog, w, inp, ok);
            PipeInv(buffers, prod, inp', w') && inp'.sent == inp.sent && inp'.mem == inp.mem
  {
    hide PipeInv, RunSink;
    var (w', inp') := SinkStep(prog, w, inp, ok);
    match w.pc
    case Acquire => AcquireKeepsPipe(buffers, prod, inp, w, Call, ok);
    case Pull => PullKeepsPipe(buffers, prod, inp, w, Call);
    case PutBack =>
      if w.readyToPull && w.input != None {
        PutBackHasRoom(buffers, prod, inp, w);
        PutBackKeepsPipe(buffers, prod, inp, w, w', ok);
      } else {
        ConsumerFrame(buffers, prod, inp, w, w');
      }
    case _ => ConsumerFrame(buffers, prod, inp, w, w');
  }

  lemma SinkCallKeepsItself(prog: Program, w: Worker, inp: Pipe)
    requires SinkInv(prog, w, inp) && w.pc == Call && InHandIntact(inp, w)
    ensures var (w', inp') := SinkStep(prog, w, inp, true); SinkInv(prog, w', inp')
  {
    hide RunSink;
    RunSinkNext(prog, inp.received, w.calls);
  }

  lemma SinkPullKeepsItself(prog: Program, w: Worker, inp: Pipe)
    requires SinkInv(prog, w, inp) && w.pc == Pull && |inp.fifo| > 0
    ensures var (w', inp') := SinkStep(prog, w, inp, true); SinkInv(prog, w', inp')
  {
    hide RunSink;
    RunSinkExtends(prog, inp.received, GetFullBuffer(inp).received, w.calls);
  }

  lemma SinkMoveKeepsItself(prog: Program, w: Worker, inp: Pipe, ok: bool)
    requires SinkInv(prog, w, inp) && w.pc != Pull && w.pc != Call
    ensures var (w', inp') := SinkStep(prog, w, inp, ok); SinkInv(prog, w', inp')
  {
    hide RunSink;
  }

  lemma SinkKeepsItself(prog: Program, buffers: seq<Buffer>, prod: Worker, w: Worker, inp: Pipe, ok: bool)
    requires PipeInv(buffers, prod, inp, w) && SinkInv(prog, w, inp)
    ensures var (w', inp') := SinkStep(prog, w, inp, ok); SinkInv(prog, w', inp')
  {
    hide RunSink;
    assert InHandIntact(inp, w);
    if w.pc == Pull {
      PullKeepsPipe(buffers, prod, inp, w, Call);
      hide PipeInv, SinkInv;
      SinkPullKeepsItself(prog, w, inp);
    } else if w.pc == Call {
      hide PipeInv, SinkInv;
      SinkCallKeepsItself(prog, w, inp);
    } else {
      hide PipeInv, SinkInv;
      SinkMoveKeepsItself(prog, w, inp, ok);
    }
  }
}
