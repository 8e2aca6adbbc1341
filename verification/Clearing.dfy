/** `mtdp_pipeline_clear` on the pipes and contexts of a session whose threads have exited (src/pipeline.c:60-84). */
module Clearing {
  import opened Buffers
  import opened Program
  import opened Machine
  import opened Invariant
  import opened PipeImpl
  import opened Session
  import Channel

  /** Every buffer of pipe `p` is somewhere, and the pool has been sized for all of them. */
  ghost predicate Kept(setup: Setup, workers: seq<Worker>, pipes: seq<Channel.Pipe>, p: nat)
    requires p < |setup.buffers| && p < |pipes| && p + 1 < |workers|
  {
    && Conserved(setup.buffers[p], workers[p], pipes[p], workers[p + 1])
    && pipes[p].capacity == |setup.buffers[p]|
  }

  /** The consumer's buffer moves from its hand to the pool. */
  lemma InputReturned(buffers: seq<Buffer>, prod: Worker, q: Channel.Pipe, cons: Worker, granted: bool)
    requires Conserved(buffers, prod, q, cons) && q.capacity == |buffers|
    requires cons.pc == Exited && cons.input != None
    ensures var q' := Channel.PutBack(q, cons.input.value, granted);
            && |q.pool| < q.capacity
            && Conserved(buffers, prod, q', cons.(input := None))
            && q'.capacity == |buffers| && q'.fifo == q.fifo
  {
    assert |multiset(q.pool) + multiset(q.fifo) + multiset(ProducerHand(prod)) + multiset(ConsumerHand(cons))|
        == |multiset(buffers)|;
  }

  /** The producer's buffer moves from its hand to the pool. */
  lemma OutputReturned(buffers: seq<Buffer>, prod: Worker, q: Channel.Pipe, cons: Worker, granted: bool)
    requires Conserved(buffers, prod, q, cons) && q.capacity == |buffers|
    requires prod.pc == Exited && prod.output != None
    ensures var q' := Channel.PutBack(q, prod.output.value, granted);
            && |q.pool| < q.capacity
            && Conserved(buffers, prod.(output := None), q', cons)
            && q'.capacity == |buffers| && q'.fifo == q.fifo
  {
    assert |multiset(q.pool) + multiset(q.fifo) + multiset(ProducerHand(prod)) + multiset(ConsumerHand(cons))|
        == |multiset(buffers)|;
  }

  /** The queued buffers move to the pool. */
  lemma FifoCleared(buffers: seq<Buffer>, prod: Worker, q: Channel.Pipe, cons: Worker)
    requires Conserved(buffers, prod, q, cons) && q.capacity == |buffers|
    ensures |q.pool| + |q.fifo| <= q.capacity
    ensures Conserved(buffers, prod, Channel.Clear(q), cons)
  {
    assert |multiset(q.pool) + multiset(q.fifo) + multiset(ProducerHand(prod)) + multiset(ConsumerHand(cons))|
        == |multiset(buffers)|;
  }

  /** The output of a consumer and the input of a producer belong to other pipes. */
  lemma OtherHand(buffers: seq<Buffer>, prod: Worker, prod': Worker, q: Channel.Pipe, cons: Worker, cons': Worker)
    requires Conserved(buffers, prod, q, cons)
    requires prod' == prod.(input := prod'.input) && cons' == cons.(output := cons'.output)
    ensures Conserved(buffers, prod', q, cons')
  {
  }

  /** All buffers are in the pool, whose array is the one the pipe was sized with. */
  ghost predicate AllHome(buffers: seq<Buffer>, q: Channel.Pipe) {
    && q.fifo == []
    && multiset(q.pool) == multiset(buffers)
    && q.capacity == |buffers|
  }

  lemma HandsEmpty(buffers: seq<Buffer>, prod: Worker, q: Channel.Pipe, cons: Worker)
    requires Conserved(buffers, prod, q, cons) && q.capacity == |buffers|
    requires q.fifo == [] && prod.output == None && cons.input == None
    ensures AllHome(buffers, q)
  {
  }

  // ------------------------------------------------------------------------------------------
  // All pipes
  // ------------------------------------------------------------------------------------------

  /** The workers have exited and every buffer is accounted for. */
  ghost predicate Accounted(setup: Setup, workers: seq<Worker>, views: seq<Channel.Pipe>) {
    && |setup.buffers| == |views| == setup.prog.n + 1 && |workers| == setup.prog.n + 2
    && (forall k | 0 <= k < |workers| :: workers[k].pc == Exited)
    && workers[0].input == None && workers[setup.prog.n + 1].output == None
    && forall p | 0 <= p < |views| :: Kept(setup, workers, views, p)
  }

  /** Nobody has an input on the left of the source or an output on the right of the sink. */
  lemma EndsOfThePipeline(setup: Setup, s: State)
    requires Inv(setup, s) && Shaped(setup.prog, s)
    ensures s.workers[0].input == None && s.workers[setup.prog.n + 1].output == None
  {
    hide PipeInv, RunSource, RunStage, RunSink;
    assert WorkerInv(setup.prog, s, 0);
    assert WorkerInv(setup.prog, s, setup.prog.n + 1);
  }

  lemma InvIsAccounted(setup: Setup, s: State)
    requires Inv(setup, s) && Shaped(setup.prog, s) && |setup.buffers| == setup.prog.n + 1
    requires forall k | 0 <= k < |s.workers| :: s.workers[k].pc == Exited
    ensures Accounted(setup, s.workers, s.pipes)
  {
    hide Conserved, WorkerInv;
    forall p | 0 <= p <= setup.prog.n ensures Kept(setup, s.workers, s.pipes, p) {
      assert PipeInv(setup.buffers[p], s.workers[p], s.pipes[p], s.workers[p + 1]);
    }
    EndsOfThePipeline(setup, s);
  }

  lemma ClearedIsAccounted(setup: Setup, workers: seq<Worker>, views: seq<Channel.Pipe>, p: nat)
    requires Accounted(setup, workers, views) && p < |views|
    ensures |views[p].pool| + |views[p].fifo| <= views[p].capacity
    ensures Accounted(setup, workers, views[p := Channel.Clear(views[p])])
  {
    hide Conserved;
    assert Kept(setup, workers, views, p);
    FifoCleared(setup.buffers[p], workers[p], views[p], workers[p + 1]);
    var views' := views[p := Channel.Clear(views[p])];
    forall q | 0 <= q < |views| ensures Kept(setup, workers, views', q) {
      assert Kept(setup, workers, views, q);
    }
  }

  lemma InputIsAccounted(setup: Setup, workers: seq<Worker>, views: seq<Channel.Pipe>, k: nat, granted: bool)
    requires Accounted(setup, workers, views) && 0 < k < |workers| && workers[k].input.Some?
    ensures var q := views[k - 1];
            && |q.pool| < q.capacity
            && Accounted(setup, workers[k := workers[k].(input := None)],
                         views[k - 1 := Channel.PutBack(q, workers[k].input.value, granted)])
  {
    hide Conserved;
    var w, q := workers[k].(input := None), views[k - 1];
    assert Kept(setup, workers, views, k - 1);
    InputReturned(setup.buffers[k - 1], workers[k - 1], q, workers[k], granted);
    if k < |views| {
      assert Kept(setup, workers, views, k);
      OtherHand(setup.buffers[k], workers[k], w, views[k], workers[k + 1], workers[k + 1]);
    }
    var workers', views' := workers[k := w], views[k - 1 := Channel.PutBack(q, workers[k].input.value, granted)];
    forall p | 0 <= p < |views| ensures Kept(setup, workers', views', p) {
      assert Kept(setup, workers, views, p);
    }
  }

  lemma OutputIsAccounted(setup: Setup, workers: seq<Worker>, views: seq<Channel.Pipe>, k: nat, granted: bool)
    requires Accounted(setup, workers, views) && k < |views| && workers[k].output.Some?
    ensures var q := views[k];
            && |q.pool| < q.capacity
            && Accounted(setup, workers[k := workers[k].(output := None)],
                         views[k := Channel.PutBack(q, workers[k].output.value, granted)])
  {
    hide Conserved;
    var w, q := workers[k].(output := None), views[k];
    assert Kept(setup, workers, views, k);
    OutputReturned(setup.buffers[k], workers[k], q, workers[k + 1], granted);
    if k > 0 {
      assert Kept(setup, workers, views, k - 1);
      OtherHand(setup.buffers[k - 1], workers[k - 1], workers[k - 1], views[k - 1], workers[k], w);
    }
    var workers', views' := workers[k := w], views[k := Channel.PutBack(q, workers[k].output.value, granted)];
    forall p | 0 <= p < |views| ensures Kept(setup, workers', views', p) {
      assert Kept(setup, workers, views, p);
    }
  }

  lemma AllReturned(setup: Setup, workers: seq<Worker>, views: seq<Channel.Pipe>)
    requires Accounted(setup, workers, views) && AllEmpty(views)
    requires forall k | 0 <= k < |workers| :: workers[k].input == None && workers[k].output == None
    ensures forall p | 0 <= p < |views| :: AllHome(setup.buffers[p], views[p])
  {
    hide Conserved, AllHome;
    forall p | 0 <= p < |views| ensures AllHome(setup.buffers[p], views[p]) {
      assert Kept(setup, workers, views, p);
      HandsEmpty(setup.buffers[p], workers[p], views[p], workers[p + 1]);
    }
  }

  // ------------------------------------------------------------------------------------------
  // How far the clearing has come
  // ------------------------------------------------------------------------------------------

  predicate AllEmpty(views: seq<Channel.Pipe>) {
    forall p | 0 <= p < |views| :: views[p].fifo == []
  }

  /** What has been popped so far is still the same. */
  predicate SameReceived(views: seq<Channel.Pipe>, views': seq<Channel.Pipe>) {
    |views'| == |views| && forall p | 0 <= p < |views| :: views'[p].received == views[p].received
  }

  predicate SameFifos(views: seq<Channel.Pipe>, views': seq<Channel.Pipe>) {
    SameReceived(views, views') && forall p | 0 <= p < |views| :: views'[p].fifo == views[p].fifo
  }

  lemma StillEmpty(was: seq<Channel.Pipe>, views: seq<Channel.Pipe>, views': seq<Channel.Pipe>)
    requires AllEmpty(views) && SameReceived(was, views) && SameFifos(views, views')
    ensures AllEmpty(views') && SameReceived(was, views')
  {
  }

  lemma PutBackKeepsFifos(views: seq<Channel.Pipe>, p: nat, b: Buffer, granted: bool)
    requires p < |views|
    ensures SameFifos(views, views[p := Channel.PutBack(views[p], b, granted)])
  {
  }

  function Reset(w: Worker): Worker {
    w.(input := None, output := None)
  }

  /** The contexts of the workers after `i` are reset, the others are as they were. */
  predicate ResetAfter(i: nat, was: seq<Worker>, workers: seq<Worker>) {
    |workers| == |was| && forall k | 0 <= k < |was| :: workers[k] == if i < k then Reset(was[k]) else was[k]
  }

  lemma SinkReset(n: nat, was: seq<Worker>)
    requires |was| == n + 2 && was[n + 1].output == None
    ensures ResetAfter(n, was, was[n + 1 := was[n + 1].(input := None)])
  {
  }

  lemma OneMoreReset(i: nat, next: nat, was: seq<Worker>, workers: seq<Worker>)
    requires next + 1 == i < |was| && ResetAfter(i, was, workers)
    ensures ResetAfter(next, was, workers[i := Reset(workers[i])])
  {
  }

  lemma SourceReset(was: seq<Worker>, workers: seq<Worker>)
    requires |was| > 0 && ResetAfter(0, was, workers) && was[0].input == None
    ensures var workers' := workers[0 := workers[0].(output := None)];
            |workers'| == |was| && forall k | 0 <= k < |was| :: workers'[k] == Reset(was[k])
  {
  }

  // ------------------------------------------------------------------------------------------
  // On the real pipes and contexts
  // ------------------------------------------------------------------------------------------

  /** The real pipes and contexts, with every buffer accounted for; the threads have exited. */
  ghost predicate Joined(session: Session)
    reads session, session.Repr
  {
    session.Linked() && Accounted(session.setup, session.workers, session.state.pipes)
  }

  lemma Sizes(session: Session)
    requires Joined(session)
    ensures |session.setup.buffers| == |session.state.pipes| == |session.pipes| == session.setup.prog.n + 1
    ensures |session.workers| == session.setup.prog.n + 2
    ensures session.workers[0].input == None && session.workers[session.setup.prog.n + 1].output == None
  {
    hide Kept, Pipe.Valid, Pipe.View, Pipe.Array;
  }

  /** A buffer is put back into the real pipe `p`, and context `k` becomes `w`. */
  method PutBack(session: Session, p: nat, buf: Buffer, k: nat, w: Worker, granted: bool)
    requires session.Linked() && p <= session.setup.prog.n && k <= session.setup.prog.n + 1
    requires |session.state.pipes[p].pool| < session.state.pipes[p].capacity
    modifies session`workers, session`state, session`Repr, session.Repr
    ensures session.Linked() && session.Repr == old(session.Repr)
    ensures session.workers == old(session.workers)[k := w]
    ensures var views := old(session.state.pipes);
            session.state.pipes == views[p := Channel.PutBack(views[p], buf, granted)]
  {
    hide Channel.PutBack, Pipe.Valid, Pipe.View, Pipe.Array;
    var ignored := session.PutBack(p, buf, granted);
    session.workers := session.workers[k := w];
    ghost var q := session.state.pipes[p];
    session.state := State(session.workers, session.state.pipes[p := Channel.PutBack(q, buf, granted)]);
  }

  /** The real pipe `p` is cleared, src/pipe.c:130-146. */
  method ClearPipe(session: Session, p: nat, granted: bool)
    requires Joined(session) && p <= session.setup.prog.n
    modifies session`state, session`Repr, session.Repr
    ensures Joined(session) && session.Repr == old(session.Repr)
    ensures |session.state.pipes| == |old(session.state.pipes)| && session.state.pipes[p].fifo == []
    ensures session.state.pipes == old(session.state.pipes)[p := session.state.pipes[p]]
    ensures session.state.pipes[p].received == old(session.state.pipes)[p].received
  {
    hide Accounted, Pipe.Valid, Pipe.View, Pipe.Array;
    ClearedIsAccounted(session.setup, session.workers, session.state.pipes, p);
    session.ClearPipe(p, granted);
    session.state := State(session.workers, session.state.pipes[p := Channel.Clear(session.state.pipes[p])]);
  }

  /** The input of worker `k` is put back, if it has one. */
  method ReturnInput(session: Session, k: nat, granted: bool)
    requires Joined(session) && 0 < k <= session.setup.prog.n + 1 && k < |session.workers|
    modifies session`workers, session`state, session`Repr, session.Repr
    ensures Joined(session) && session.Repr == old(session.Repr)
    ensures session.workers == old(session.workers)[k := old(session.workers)[k].(input := None)]
    ensures SameFifos(old(session.state.pipes), session.state.pipes)
  {
    hide Accounted, Session.Structure, SameFifos, Channel.PutBack, Pipe.View;
    var w := session.workers[k];
    if w.input.Some? {
      InputIsAccounted(session.setup, session.workers, session.state.pipes, k, granted);
      PutBackKeepsFifos(session.state.pipes, k - 1, w.input.value, granted);
      PutBack(session, k - 1, w.input.value, k, w.(input := None), granted);
    } else {
      SameAsBefore(session.state.pipes);
    }
  }

  lemma SameAsBefore(views: seq<Channel.Pipe>)
    ensures SameFifos(views, views)
  {
  }

  /** The output of worker `k` is put back, if it has one. */
  method ReturnOutput(session: Session, k: nat, granted: bool)
    requires Joined(session) && k <= session.setup.prog.n && k < |session.workers|
    modifies session`workers, session`state, session`Repr, session.Repr
    ensures Joined(session) && session.Repr == old(session.Repr)
    ensures session.workers == old(session.workers)[k := old(session.workers)[k].(output := None)]
    ensures SameFifos(old(session.state.pipes), session.state.pipes)
  {
    hide Accounted, Session.Structure, SameFifos, Channel.PutBack, Pipe.View;
    var w := session.workers[k];
    if w.output.Some? {
      OutputIsAccounted(session.setup, session.workers, session.state.pipes, k, granted);
      PutBackKeepsFifos(session.state.pipes, k, w.output.value, granted);
      PutBack(session, k, w.output.value, k, w.(output := None), granted);
    } else {
      SameAsBefore(session.state.pipes);
    }
  }

  /** src/pipeline.c:63-65. */
  method ClearPipes(session: Session, granted: bool)
    requires Joined(session)
    modifies session`state, session`Repr, session.Repr
    ensures Joined(session) && session.Repr == old(session.Repr)
    ensures AllEmpty(session.state.pipes) && SameReceived(old(session.state.pipes), session.state.pipes)
  {
    hide Joined;
    Sizes(session);
    var i := session.setup.prog.n + 1;
    while i > 0
      invariant 0 <= i <= |session.state.pipes| == session.setup.prog.n + 1
      invariant Joined(session) && session.Repr == old(session.Repr)
      invariant SameReceived(old(session.state.pipes), session.state.pipes)
      invariant forall p | i <= p < |session.state.pipes| :: session.state.pipes[p].fifo == []
    {
      i := i - 1;
      ClearPipe(session, i, granted);
    }
  }

  /** src/pipeline.c:71-78. */
  method ReturnContext(session: Session, k: nat, granted: bool)
    requires Joined(session) && 0 < k <= session.setup.prog.n && k < |session.workers| && AllEmpty(session.state.pipes)
    modifies session`workers, session`state, session`Repr, session.Repr
    ensures Joined(session) && session.Repr == old(session.Repr)
    ensures session.workers == old(session.workers)[k := Reset(old(session.workers)[k])]
    ensures AllEmpty(session.state.pipes) && SameReceived(old(session.state.pipes), session.state.pipes)
  {
    hide Joined, AllEmpty, SameFifos;
    ghost var was := session.state.pipes;
    ReturnInput(session, k, granted);
    StillEmpty(was, was, session.state.pipes);
    ghost var between := session.state.pipes;
    ReturnOutput(session, k, granted);
    StillEmpty(was, between, session.state.pipes);
  }

  /** src/pipeline.c:66-79. */
  method ReturnContexts(session: Session, granted: bool)
    requires Joined(session) && AllEmpty(session.state.pipes)
    modifies session`workers, session`state, session`Repr, session.Repr
    ensures Joined(session) && session.Repr == old(session.Repr)
    ensures ResetAfter(0, old(session.workers), session.workers)
    ensures AllEmpty(session.state.pipes) && SameReceived(old(session.state.pipes), session.state.pipes)
  {
    hide Joined, AllEmpty, SameFifos;
    Sizes(session);
    var n := session.setup.prog.n;
    ghost var was, contexts := session.state.pipes, session.workers;
    SinkReset(n, contexts);
    ReturnInput(session, n + 1, granted);
    StillEmpty(was, was, session.state.pipes);
    var i := n;
    while i > 0
      invariant 0 <= i <= n && Joined(session) && session.Repr == old(session.Repr)
      invariant AllEmpty(session.state.pipes) && SameReceived(was, session.state.pipes)
      invariant ResetAfter(i, contexts, session.workers)
    {
      OneMoreReset(i, i - 1, contexts, session.workers);
      ReturnContext(session, i, granted);
      i := i - 1;
    }
  }

  /** What holds of the state holds of the real pipes. */
  lemma RealPipesAreHome(session: Session)
    requires session.Linked()
    requires forall p | 0 <= p < |session.state.pipes| :: AllHome(session.setup.buffers[p], session.state.pipes[p])
    ensures |session.setup.buffers| == |session.arrays| == |session.pipes|
    ensures forall p | 0 <= p < |session.pipes| ::
              && session.pipes[p].Valid()
              && AllHome(session.setup.buffers[p], session.pipes[p].View())
              && session.pipes[p].Array() == session.arrays[p]
  {
    hide AllHome, Pipe.Valid, Pipe.View, Pipe.Array;
  }

  /**
   `mtdp_pipeline_clear`: every FIFO is emptied and every context pointer reset, and each pool holds
   the buffers of its pipe again, in the very array the user was given when the pipe was sized. The
   results of the put-backs are ignored.
   */
  method Clear(session: Session, granted: bool)
    requires Joined(session)
    modifies session`workers, session`state, session`Repr, session.Repr
    ensures session.Linked() && session.Repr == old(session.Repr)
    ensures |session.workers| == |old(session.workers)|
    ensures forall k | 0 <= k < |session.workers| :: session.workers[k] == Reset(old(session.workers)[k])
    ensures |session.setup.buffers| == |session.arrays| == |session.pipes|
    ensures forall p | 0 <= p < |session.pipes| ::
              && session.pipes[p].Valid()
              && AllHome(session.setup.buffers[p], session.pipes[p].View())
              && session.pipes[p].Array() == session.arrays[p]
    ensures forall p | 0 <= p < |session.state.pipes| :: AllHome(session.setup.buffers[p], session.state.pipes[p])
    ensures SameReceived(old(session.state.pipes), session.state.pipes)
  {
    hide Accounted, AllHome, AllEmpty, SameFifos, SameReceived, Pipe.Valid, Pipe.View, Pipe.Array;
    ghost var was, contexts := session.state.pipes, session.workers;
    Sizes(session);
    ClearPipes(session, granted);
    ghost var between := session.state.pipes;
    ReturnContexts(session, granted);
    ReceivedThen(was, between, session.state.pipes);
    between := session.state.pipes;
    Sizes(session);
    SourceReset(contexts, session.workers);
    ReturnOutput(session, 0, granted);
    StillEmpty(was, between, session.state.pipes);
    AllReturned(session.setup, session.workers, session.state.pipes);
  }

  lemma ReceivedThen(x: seq<Channel.Pipe>, y: seq<Channel.Pipe>, z: seq<Channel.Pipe>)
    requires SameReceived(x, y) && SameReceived(y, z)
    ensures SameReceived(x, z)
  {
  }
}
