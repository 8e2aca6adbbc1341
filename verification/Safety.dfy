/** What holds in every reachable state of the pipeline, whatever the schedule. */
module Safety {
  import opened Buffers
  import opened Channel
  import opened Program
  import opened Machine
  import opened Invariant
  import opened Reachable

  // ------------------------------------------------------------------------------------------
  // Buffers
  // ------------------------------------------------------------------------------------------

  /** How often buffer `b` is in the pool, in the FIFO or in a hand. */
  function Places(s: State, p: nat, b: Buffer): nat
    requires p < |s.pipes| && p + 1 < |s.workers|
  {
    multiset(s.pipes[p].pool)[b] + multiset(s.pipes[p].fifo)[b]
    + multiset(ProducerHand(s.workers[p]))[b] + multiset(ConsumerHand(s.workers[p + 1]))[b]
  }

  /**
   Conservation: every buffer of a pipe is in exactly one of pool, FIFO, producer's hand and
   consumer's hand, and no other buffer is there, so the library's own assertion never fires.
   */
  lemma BufferConservation(setup: Setup, s: State, p: nat)
    requires IsReachable(setup, s) && p <= setup.prog.n
    ensures forall b: Buffer :: Places(s, p, b) == if b in setup.buffers[p] then 1 else 0
    ensures s.pipes[p].total == |setup.buffers[p]|
    ensures CheckInvariants(s.pipes[p])
  {
    ReachableInv(setup, s);
    var prod, q, cons := s.workers[p], s.pipes[p], s.workers[p + 1];
    assert PipeInv(setup.buffers[p], prod, q, cons);
    forall b: Buffer ensures Places(s, p, b) == if b in setup.buffers[p] then 1 else 0 {
      AtMostOnce(setup.buffers[p], b);
      assert b in setup.buffers[p] <==> b in multiset(setup.buffers[p]);
    }
    assert |multiset(q.pool) + multiset(q.fifo) + multiset(ProducerHand(prod)) + multiset(ConsumerHand(cons))|
        == |multiset(setup.buffers[p])|;
  }

  /**
   The semaphore counts the full buffers, up to one push and one pop in progress. A permit that
   is granted therefore always yields a buffer, and the branch that gives it back is dead.
   */
  lemma SemaphoreLedger(setup: Setup, s: State, p: nat)
    requires IsReachable(setup, s) && p <= setup.prog.n
    ensures var prod, q, cons := s.workers[p], s.pipes[p], s.workers[p + 1];
            && |q.fifo| == q.permits + (if prod.pc == Post then 1 else 0) + (if cons.pc == Pull then 1 else 0)
            && (cons.pc == Pull ==> |q.fifo| > 0)
            && cons.pc != Reput
  {
    hide RunStage, RunSink, Conserved, Intact, InHandIntact;
    ReachableInv(setup, s);
    assert PipeInv(setup.buffers[p], s.workers[p], s.pipes[p], s.workers[p + 1]);
    assert WorkerInv(setup.prog, s, p + 1);
  }

  /** Returning a buffer succeeds without the allocator, and the pool's array stays as it is. */
  lemma PutBackNeverFails(setup: Setup, s: State, k: nat)
    requires IsReachable(setup, s) && 0 < k <= setup.prog.n + 1
    requires s.workers[k].pc == PutBack && s.workers[k].readyToPull && s.workers[k].input != None
    ensures var q, b := s.pipes[k - 1], s.workers[k].input.value;
            && |q.pool| < q.capacity == q.total
            && CanPutBack(q, false)
            && Channel.PutBack(q, b, false) == q.(pool := q.pool + [b])
  {
    ReachableInv(setup, s);
    assert PipeInv(setup.buffers[k - 1], s.workers[k - 1], s.pipes[k - 1], s.workers[k]);
    PutBackHasRoom(setup.buffers[k - 1], s.workers[k - 1], s.pipes[k - 1], s.workers[k]);
  }

  // ------------------------------------------------------------------------------------------
  // Schedule independence
  // ------------------------------------------------------------------------------------------

  /** How often each callback has been called. */
  function Calls(s: State): nat -> nat {
    (k: nat) => if k < |s.workers| then s.workers[k].calls else 0
  }

  /** What was pushed to pipe `p` is a prefix of what the sequential composition gives there. */
  lemma {:induction false} SentIsComposed(setup: Setup, s: State, p: nat)
    requires Inv(setup, s) && p <= setup.prog.n
    ensures s.pipes[p].sent <= Stream(setup.prog, Calls(s), p)
  {
    hide RunSource, RunStage, RunSink, PipeInv;
    assert WorkerInv(setup.prog, s, p);
    if p > 0 {
      SentIsComposed(setup, s, p - 1);
      ReceivedIsComposed(setup, s, p - 1);
      RunStageExtends(setup.prog, p, s.pipes[p - 1].received, Stream(setup.prog, Calls(s), p - 1), s.workers[p].calls);
    }
  }

  lemma ReceivedIsComposed(setup: Setup, s: State, p: nat)
    requires Inv(setup, s) && p <= setup.prog.n
    requires s.pipes[p].sent <= Stream(setup.prog, Calls(s), p)
    ensures s.pipes[p].received <= Stream(setup.prog, Calls(s), p)
  {
    hide RunSource, RunStage, RunSink, WorkerInv, Conserved;
    assert PipeInv(setup.buffers[p], s.workers[p], s.pipes[p], s.workers[p + 1]);
    PrefixTransitive(s.pipes[p].received, s.pipes[p].sent, Stream(setup.prog, Calls(s), p));
  }

  lemma PrefixTransitive(x: seq<Value>, y: seq<Value>, z: seq<Value>)
    requires x <= y <= z
    ensures x <= z
  {
  }

  lemma StageUserIsComposed(setup: Setup, s: State, k: nat)
    requires Inv(setup, s) && 0 < k <= setup.prog.n
    ensures var r := RunStage(setup.prog, k, Stream(setup.prog, Calls(s), k - 1), s.workers[k].calls);
            s.workers[k].user == r.user && s.workers[k].calls == r.used
  {
    hide RunSource, RunStage, RunSink, PipeInv, Stream;
    assert WorkerInv(setup.prog, s, k);
    SentIsComposed(setup, s, k - 1);
    ReceivedIsComposed(setup, s, k - 1);
    RunStageExtends(setup.prog, k, s.pipes[k - 1].received, Stream(setup.prog, Calls(s), k - 1), s.workers[k].calls);
  }

  lemma SinkUserIsComposed(setup: Setup, s: State)
    requires Inv(setup, s)
    ensures var n := setup.prog.n;
            var r := RunSink(setup.prog, Stream(setup.prog, Calls(s), n), s.workers[n + 1].calls);
            s.workers[n + 1].user == r.user && s.workers[n + 1].calls == r.used
  {
    hide RunSource, RunStage, RunSink, PipeInv, Stream;
    var n := setup.prog.n;
    assert WorkerInv(setup.prog, s, n + 1);
    SentIsComposed(setup, s, n);
    ReceivedIsComposed(setup, s, n);
    RunSinkExtends(setup.prog, s.pipes[n].received, Stream(setup.prog, Calls(s), n), s.workers[n + 1].calls);
  }

  /**
   Schedule independence: in every reachable state the contents given to the sink, in order, are
   a prefix of what calling the source, then the first stage on all of that, and so on, would
   give; and the user data of stages and sink are those of the same sequential run.
   */
  lemma ScheduleIndependence(setup: Setup, s: State)
    requires IsReachable(setup, s)
    ensures var n := setup.prog.n;
            && s.pipes[n].received <= Stream(setup.prog, Calls(s), n)
            && (forall k | 0 < k <= n ::
                  s.workers[k].user ==
                    RunStage(setup.prog, k, Stream(setup.prog, Calls(s), k - 1), s.workers[k].calls).user)
            && s.workers[n + 1].user ==
                 RunSink(setup.prog, Stream(setup.prog, Calls(s), n), s.workers[n + 1].calls).user
  {
    hide RunSource, RunStage, RunSink, PipeInv, WorkerInv, Stream;
    ReachableInv(setup, s);
    SentIsComposed(setup, s, setup.prog.n);
    ReceivedIsComposed(setup, s, setup.prog.n);
    SinkUserIsComposed(setup, s);
    forall k | 0 < k <= setup.prog.n
      ensures s.workers[k].user == RunStage(setup.prog, k, Stream(setup.prog, Calls(s), k - 1), s.workers[k].calls).user
    {
      StageUserIsComposed(setup, s, k);
    }
  }

  lemma SourceUserIsPrepared(setup: Setup, s: State)
    requires Inv(setup, s)
    ensures var w := s.workers[0];
            w.user == if w.calls == 0 then setup.prog.self(0) else RunSource(Prepared(setup.prog), w.calls).user
  {
    hide PipeInv;
    assert WorkerInv(setup.prog, s, 0);
    SourceInitRunsOnce(setup.prog, s.workers[0].calls);
  }

  lemma SinkUserIsPrepared(setup: Setup, s: State)
    requires Inv(setup, s)
    ensures var n, ready := setup.prog.n, Prepared(setup.prog);
            var w := s.workers[n + 1];
            w.user == if w.calls == 0 then setup.prog.self(n + 1)
                      else RunSink(ready, Stream(ready, Calls(s), n), w.calls).user
  {
    hide Inv, Stream, Prepared;
    var n := setup.prog.n;
    InvIsShaped(setup, s);
    SinkUserIsComposed(setup, s);
    StreamIsPrepared(setup.prog, Calls(s), n);
    SinkInitRunsOnce(setup.prog, Stream(setup.prog, Calls(s), n), s.workers[n + 1].calls);
  }

  lemma StageUserIsPrepared(setup: Setup, s: State, k: nat)
    requires Inv(setup, s) && 0 < k <= setup.prog.n
    ensures var w, ready := s.workers[k], Prepared(setup.prog);
            if w.calls == 0 then w.user == setup.prog.self(k)
            else w.user == RunStage(ready, k, Stream(ready, Calls(s), k - 1), w.calls).user
  {
    hide Inv, Stream, Prepared;
    InvIsShaped(setup, s);
    StageUserIsComposed(setup, s, k);
    StreamIsPrepared(setup.prog, Calls(s), k - 1);
    StageInitRunsOnce(setup.prog, k, Stream(setup.prog, Calls(s), k - 1), s.workers[k].calls);
  }

  /**
   `init` runs exactly once, before the first call: user data that no callback has been called with
   are the user's own, all others are what the callbacks make of `init(self)`, and so is what the sink gets.
   */
  lemma InitRunsOnce(setup: Setup, s: State)
    requires IsReachable(setup, s)
    ensures var n, ready := setup.prog.n, Prepared(setup.prog);
            && s.pipes[n].received <= Stream(ready, Calls(s), n)
            && (s.workers[0].calls > 0 ==> s.workers[0].user == RunSource(ready, s.workers[0].calls).user)
            && (forall k | 0 < k <= n && s.workers[k].calls > 0 ::
                  s.workers[k].user == RunStage(ready, k, Stream(ready, Calls(s), k - 1), s.workers[k].calls).user)
            && (s.workers[n + 1].calls > 0 ==>
                  s.workers[n + 1].user == RunSink(ready, Stream(ready, Calls(s), n), s.workers[n + 1].calls).user)
            && forall k | 0 <= k <= n + 1 && s.workers[k].calls == 0 :: s.workers[k].user == setup.prog.self(k)
  {
    hide Inv, Stream, Prepared, IsReachable, RunSource, RunStage, RunSink;
    var n := setup.prog.n;
    ReachableInv(setup, s);
    InvIsShaped(setup, s);
    ScheduleIndependence(setup, s);
    StreamIsPrepared(setup.prog, Calls(s), n);
    SourceUserIsPrepared(setup, s);
    SinkUserIsPrepared(setup, s);
    forall k | 0 < k <= n
      ensures s.workers[k].calls == 0 ==> s.workers[k].user == setup.prog.self(k)
      ensures var xs := Stream(Prepared(setup.prog), Calls(s), k - 1);
              s.workers[k].calls > 0 ==>
                s.workers[k].user == RunStage(Prepared(setup.prog), k, xs, s.workers[k].calls).user
    {
      StageUserIsPrepared(setup, s, k);
    }
  }

  /**
   A pipe is a FIFO that nobody tampers with: what was pushed is what was popped followed by
   what the queued buffers hold now, and the buffer a consumer works on holds what was popped.
   */
  lemma NothingLostOrOverwritten(setup: Setup, s: State, p: nat)
    requires IsReachable(setup, s) && p <= setup.prog.n
    ensures var q, cons := s.pipes[p], s.workers[p + 1];
            && q.sent == q.received + seq(|q.fifo|, i requires 0 <= i < |q.fifo| => q.mem(q.fifo[i]))
            && (cons.input != None && !cons.readyToPull ==>
                  |q.received| > 0 && q.mem(cons.input.value) == q.received[|q.received| - 1])
  {
    hide Conserved, WorkerInv;
    ReachableInv(setup, s);
    assert PipeInv(setup.buffers[p], s.workers[p], s.pipes[p], s.workers[p + 1]);
  }

  /**
   What the source has flagged is what it has pushed and, at most, one buffer more. Once it has
   declared the end of the stream it has pushed everything flagged in earlier calls and nothing
   else: a buffer flagged in the very call that declares the end is never pushed.
   */
  lemma FinishedSourceHasSentAll(setup: Setup, s: State)
    requires IsReachable(setup, s)
    ensures var r, sent := RunSource(setup.prog, s.workers[0].calls), s.pipes[0].sent;
            && sent <= r.outs && |r.outs| <= |sent| + 1
            && (r.finished ==> sent == r.outs)
  {
    hide RunSource, PipeInv;
    ReachableInv(setup, s);
    assert WorkerInv(setup.prog, s, 0);
  }

  lemma {:induction false} FlaggedButNotPushed(prog: Program, c: nat)
    ensures |Flagged(prog, c)| == |RunSource(prog, c).outs| + if FlagsWhileFinishing(prog, c) then 1 else 0
    ensures RunSource(prog, c).outs <= Flagged(prog, c)
    ensures FlagsWhileFinishing(prog, c) ==> RunSource(prog, c).finished
  {
    if c > 0 {
      FlaggedButNotPushed(prog, c - 1);
    }
  }

  /**
   The documentation says that after the end of the stream the pipeline finishes what was filled
   in the buffers (include/mtdp/pipeline.h:57-61). Everything flagged gets into the first pipe
   exactly when the call that declares the end does not flag its buffer.
   */
  lemma NothingFlaggedIsLostExactlyWhen(setup: Setup, s: State)
    requires IsReachable(setup, s) && RunSource(setup.prog, s.workers[0].calls).finished
    ensures var prog, calls := setup.prog, s.workers[0].calls;
            s.pipes[0].sent == Flagged(prog, calls) <==> !FlagsWhileFinishing(prog, calls)
  {
    hide RunSource, Flagged, FlagsWhileFinishing, Inv;
    FinishedSourceHasSentAll(setup, s);
    FlaggedButNotPushed(setup.prog, s.workers[0].calls);
  }

  /** Whatever the schedule, nothing it has written is ever pushed. */
  lemma OneShotIsLost(setup: Setup, s: State, u: User, v: Value)
    requires setup.prog == OneShot(u, v) && IsReachable(setup, s) && s.workers[0].calls > 0
    ensures Flagged(setup.prog, s.workers[0].calls) == [v] && s.pipes[0].sent == []
  {
    hide Inv;
    OneShotRun(u, v, s.workers[0].calls);
    FinishedSourceHasSentAll(setup, s);
  }

  lemma {:induction false} OneShotRun(u: User, v: Value, c: nat)
    requires c > 0
    ensures var prog := OneShot(u, v);
            RunSource(prog, c) == SourceRun(u, [], true) && Flagged(prog, c) == [v]
  {
    if c > 1 {
      OneShotRun(u, v, c - 1);
    } else {
      assert RunSource(OneShot(u, v), 0) == SourceRun(u, [], false);
    }
  }

  lemma ExecNext(prog: Program, s: State, acts: seq<Action>, a: Action)
    requires Shaped(prog, s)
    ensures Exec(prog, s, acts + [a]) == Step(prog, Exec(prog, s, acts), a)
  {
    hide Step;
    assert (acts + [a])[..|acts|] == acts;
  }

  /** And it happens: enabled, with one buffer, the source has written after six steps, to the right pipe's buffer. */
  lemma OneShotHappens(u: User, v: Value, b: Buffer, mem: Buffer -> Value) returns (setup: Setup, s: State)
    ensures setup.prog == OneShot(u, v) && setup.buffers == [[b]] && IsReachable(setup, s)
    ensures s.workers[0].calls == 1 && s.workers[0].output == Some(b) && s.pipes[0].mem(b) == v
  {
    var prog := OneShot(u, v);
    setup := Setup(prog, [[b]], [mem]);
    var acts: seq<Action> := [];
    s := Init(setup);
    var w := s.workers[0];
    var todo: seq<Action> := [SetEnabled(0, true)] + seq(6, i => Work(0, true));
    for i := 0 to 7
      invariant Shaped(prog, s) && s == Exec(prog, Init(setup), acts)
      invariant i <= 5 ==> s.pipes[0] == FreshPipe([b], mem)
      invariant i == 0 ==> s.workers[0] == w
      invariant 0 < i <= 5 ==> s.workers[0] == w.(enabled := true, pc := [Top, Gate, Recheck, Push, Take][i - 1])
      invariant i >= 6 ==> s.workers[0].output == Some(b)
      invariant i == 6 ==> s.workers[0].pc == Call && s.workers[0].calls == 0
      invariant i == 7 ==> s.workers[0].calls == 1 && s.pipes[0].mem(b) == v
    {
      ExecNext(prog, Init(setup), acts, todo[i]);
      s := Step(prog, s, todo[i]);
      acts := acts + [todo[i]];
    }
  }

  /** What has gone through a pipe later on continues what had gone through it before. */
  ghost predicate Continues(q: Pipe, q': Pipe) {
    q.sent <= q'.sent && q.received <= q'.received
  }

  lemma SourceContinues(prog: Program, w: Worker, out: Pipe, ok: bool)
    ensures Continues(out, SourceStep(prog, w, out, ok).1)
  {
  }

  lemma StageContinues(prog: Program, k: nat, w: Worker, inp: Pipe, out: Pipe, ok: bool)
    ensures Continues(inp, StageStep(prog, k, w, inp, out, ok).1)
    ensures Continues(out, StageStep(prog, k, w, inp, out, ok).2)
  {
  }

  lemma SinkContinues(prog: Program, w: Worker, inp: Pipe, ok: bool)
    ensures Continues(inp, SinkStep(prog, w, inp, ok).1)
  {
  }

  lemma StepContinues(prog: Program, s: State, a: Action, p: nat)
    requires Shaped(prog, s) && p <= prog.n
    ensures Continues(s.pipes[p], Step(prog, s, a).pipes[p])
  {
    hide SourceStep, StageStep, SinkStep;
    if a.Work? && a.k <= prog.n + 1 {
      var w := s.workers[a.k];
      if a.k == 0 {
        SourceContinues(prog, w, s.pipes[0], a.ok);
      } else if a.k == prog.n + 1 {
        SinkContinues(prog, w, s.pipes[prog.n], a.ok);
      } else {
        StageContinues(prog, a.k, w, s.pipes[a.k - 1], s.pipes[a.k], a.ok);
      }
    }
  }

  /** No schedule, with whatever stops and restarts, takes back what has gone through a pipe. */
  lemma {:induction false} ExecContinues(prog: Program, s: State, acts: seq<Action>, p: nat)
    requires Shaped(prog, s) && p <= prog.n
    ensures Continues(s.pipes[p], Exec(prog, s, acts).pipes[p])
  {
    hide Step;
    if |acts| > 0 {
      var mid := Exec(prog, s, acts[..|acts| - 1]);
      ExecContinues(prog, s, acts[..|acts| - 1], p);
      StepContinues(prog, mid, acts[|acts| - 1], p);
      PrefixTransitive(s.pipes[p].sent, mid.pipes[p].sent, Exec(prog, s, acts).pipes[p].sent);
      PrefixTransitive(s.pipes[p].received, mid.pipes[p].received, Exec(prog, s, acts).pipes[p].received);
    }
  }

  // ------------------------------------------------------------------------------------------
  // Determinacy
  // ------------------------------------------------------------------------------------------

  lemma {:induction false} SourceGrows(prog: Program, c: nat, d: nat)
    requires c <= d
    ensures RunSource(prog, c).outs <= RunSource(prog, d).outs
  {
    if c < d {
      SourceGrows(prog, c, d - 1);
    }
  }

  lemma {:induction false} StageGrows(prog: Program, k: nat, xs: seq<Value>, c: nat, d: nat)
    requires c <= d
    ensures RunStage(prog, k, xs, c).outs <= RunStage(prog, k, xs, d).outs
  {
    if c < d {
      StageGrows(prog, k, xs, c, d - 1);
    }
  }

  /** Calls beyond those that find an input change nothing. */
  lemma {:induction false} OnlyUsedCallsCount(prog: Program, k: nat, xs: seq<Value>, c: nat)
    ensures var r := RunStage(prog, k, xs, c);
            RunStage(prog, k, xs, r.used) == r && (r.used < c ==> r.next == |xs|)
  {
    if c > 0 {
      OnlyUsedCallsCount(prog, k, xs, c - 1);
    }
  }

  /** More inputs and more calls give more outputs, never different ones. */
  lemma StageMonotone(prog: Program, k: nat, xs: seq<Value>, ys: seq<Value>, c: nat, d: nat)
    requires xs <= ys && c <= d
    ensures RunStage(prog, k, xs, c).outs <= RunStage(prog, k, ys, d).outs
  {
    var used := RunStage(prog, k, xs, c).used;
    OnlyUsedCallsCount(prog, k, xs, c);
    RunStageExtends(prog, k, xs, ys, used);
    StageGrows(prog, k, ys, used, d);
  }

  lemma {:induction false} StreamMonotone(prog: Program, c: nat -> nat, d: nat -> nat, p: nat)
    requires forall k: nat :: c(k) <= d(k)
    ensures Stream(prog, c, p) <= Stream(prog, d, p)
  {
    if p == 0 {
      SourceGrows(prog, c(0), d(0));
    } else {
      StreamMonotone(prog, c, d, p - 1);
      StageMonotone(prog, p, Stream(prog, c, p - 1), Stream(prog, d, p - 1), c(p), d(p));
    }
  }

  /**
   Determinacy: for the same callbacks, any two runs, even with different numbers of buffers,
   give the sink the same contents in the same order, one of them possibly fewer.
   */
  lemma Determinacy(setup1: Setup, s1: State, setup2: Setup, s2: State)
    requires IsReachable(setup1, s1) && IsReachable(setup2, s2) && setup1.prog == setup2.prog
    ensures var x, y := s1.pipes[setup1.prog.n].received, s2.pipes[setup1.prog.n].received;
            x <= y || y <= x
  {
    hide RunSource, RunStage, RunSink, Inv;
    var prog, n := setup1.prog, setup1.prog.n;
    ScheduleIndependence(setup1, s1);
    ScheduleIndependence(setup2, s2);
    var c, d := Calls(s1), Calls(s2);
    var both: nat -> nat := k => if c(k) < d(k) then d(k) else c(k);
    StreamMonotone(prog, c, both, n);
    StreamMonotone(prog, d, both, n);
    PrefixTransitive(s1.pipes[n].received, Stream(prog, c, n), Stream(prog, both, n));
    PrefixTransitive(s2.pipes[n].received, Stream(prog, d, n), Stream(prog, both, n));
  }

  // ------------------------------------------------------------------------------------------
  // Stages that map each item
  // ------------------------------------------------------------------------------------------

  /** Every stage turns each input `x` into one output `f(k, x)`. */
  ghost predicate MapsItems(prog: Program, f: (nat, Value) -> Value) {
    forall k: nat, u: User, x: Value ::
      var r := prog.stage(k, u, x); r.push && r.pull && r.written == f(k, x)
  }

  /** `x` after the stages 1 to `k`. */
  function Through(f: (nat, Value) -> Value, k: nat, x: Value): Value {
    if k == 0 then x else f(k, Through(f, k - 1, x))
  }

  lemma {:induction false} MappedRun(prog: Program, f: (nat, Value) -> Value, k: nat, xs: seq<Value>, c: nat)
    requires MapsItems(prog, f)
    ensures var r := RunStage(prog, k, xs, c);
            |r.outs| == r.next && forall j | 0 <= j < r.next :: r.outs[j] == f(k, xs[j])
  {
    if c > 0 {
      MappedRun(prog, f, k, xs, c - 1);
    }
  }

  lemma {:induction false} MappedStream(prog: Program, f: (nat, Value) -> Value, c: nat -> nat, p: nat)
    requires MapsItems(prog, f)
    ensures var items, out := RunSource(prog, c(0)).outs, Stream(prog, c, p);
            |out| <= |items| && forall j | 0 <= j < |out| :: out[j] == Through(f, p, items[j])
  {
    if p > 0 {
      MappedStream(prog, f, c, p - 1);
      MappedRun(prog, f, p, Stream(prog, c, p - 1), c(p));
    }
  }

  /** With one output per input, item `j` at the sink is item `j` of the source after all stages. */
  lemma SinkSeesMappedItems(setup: Setup, s: State, f: (nat, Value) -> Value)
    requires IsReachable(setup, s) && MapsItems(setup.prog, f)
    ensures var items, got := RunSource(setup.prog, s.workers[0].calls).outs, s.pipes[setup.prog.n].received;
            |got| <= |items| && forall j | 0 <= j < |got| :: got[j] == Through(f, setup.prog.n, items[j])
  {
    hide RunStage, RunSink, Inv;
    ScheduleIndependence(setup, s);
    MappedStream(setup.prog, f, Calls(s), setup.prog.n);
  }
}
