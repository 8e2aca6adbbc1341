/**
 A whole pipeline on real pipes. The threads share it. Each critical section is a method here; it
 does its work on the real pipes and contexts and records the step it stands for in a schedule, so
 that the pipes and contexts are at every moment those of the transition system after that schedule.
 Between two critical sections of one thread the others take any turns of theirs, and a turn is
 again one of these critical sections.
 */
module Session {
  import opened Buffers
  import opened Program
  import opened Machine
  import opened PipeImpl
  import opened Reachable
  import opened Safety
  import opened Turns
  import opened StepEffects
  import Channel
  import FifoShape

  class Session {
    const setup: Setup
    const pipes: seq<Pipe>
    const arrays: seq<array<Buffer>> // the arrays that the user has been given
    var workers: seq<Worker>         // the flags, the contexts and the places of the threads
    var active: bool

    ghost var schedule: seq<Action> // every step taken since the pipeline was enabled
    ghost var state: State          // what the transition system has after that schedule
    ghost var Repr: set<object>     // the pipes and everything they are made of

    ghost predicate Structure()
      reads this, Repr
    {
      && setup.Valid()
      && |pipes| == |arrays| == setup.prog.n + 1
      && this !in Repr
      && (forall i | 0 <= i < |pipes| ::
            pipes[i] in Repr && pipes[i].Repr <= Repr && pipes[i].Valid() && pipes[i].Array() == arrays[i])
      && (forall i, j | 0 <= i < j < |pipes| :: pipes[i].Repr !! pipes[j].Repr)
    }

    /** The real pipes and contexts are those of the state. */
    ghost predicate Linked()
      reads this, Repr
    {
      && Structure()
      && Shaped(setup.prog, state)
      && workers == state.workers
      && forall i | 0 <= i < |pipes| :: state.pipes[i] == pipes[i].View()
    }

    ghost predicate Valid()
      reads this, Repr
    {
      Linked() && Traces(setup, schedule, state) && Honest(setup, schedule, Policies())
    }

    /** How the deques have been configured. */
    ghost function Policies(): seq<Policy> {
      seq(|pipes|, i requires 0 <= i < |pipes| => pipes[i].fifo.policy)
    }

    /** `mtdp_pipeline_enable` on pipes that have been sized and filled, src/pipeline.c:175-198. */
    constructor Enable(setup: Setup, pipes: seq<Pipe>, arrays: seq<array<Buffer>>)
      requires setup.Valid() && |pipes| == |arrays| == setup.prog.n + 1
      requires forall i | 0 <= i < |pipes| :: pipes[i].Valid() && pipes[i].Array() == arrays[i]
      requires forall i, j | 0 <= i < j < |pipes| :: pipes[i].Repr !! pipes[j].Repr
      requires forall i | 0 <= i < |pipes| :: pipes[i].View() == Channel.FreshPipe(setup.buffers[i], setup.contents[i])
      ensures Valid() && this.setup == setup && this.pipes == pipes && this.arrays == arrays && !active
      ensures schedule == [] && state == Init(setup)
      ensures forall k | 0 <= k < |workers| ::
                var w := workers[k];
                && !w.enabled && !w.destroyed && w.input == None && w.output == None
                && w.readyToPull == (k > 0) && !w.readyToPush && w.user == setup.prog.self(k) && w.calls == 0
      ensures Repr == set i, o | 0 <= i < |pipes| && o in pipes[i].Repr :: o
    {
      hide Valid, Structure, Traces, Honest, Init, Pipe.Valid, Pipe.View, Pipe.Array, Channel.FreshPipe;
      this.setup, this.pipes, this.arrays := setup, pipes, arrays;
      workers, active := Init(setup).workers, false;
      schedule, state := [], Init(setup);
      Repr := set i, o | 0 <= i < |pipes| && o in pipes[i].Repr :: o;
      new;
      InitialContexts(setup);
      OneFootprint();
      FreshIsValid();
    }

    lemma OneFootprint()
      requires setup.Valid() && |pipes| == |arrays| == setup.prog.n + 1 && this !in Repr
      requires forall i | 0 <= i < |pipes| :: pipes[i].Valid() && pipes[i].Array() == arrays[i]
      requires forall i, j | 0 <= i < j < |pipes| :: pipes[i].Repr !! pipes[j].Repr
      requires Repr == set i, o | 0 <= i < |pipes| && o in pipes[i].Repr :: o
      ensures Structure()
    {
      hide Pipe.View, Pipe.Array;
    }

    lemma FreshIsValid()
      requires Structure() && schedule == [] && state == Init(setup) && workers == state.workers
      requires forall i | 0 <= i < |pipes| :: pipes[i].View() == Channel.FreshPipe(setup.buffers[i], setup.contents[i])
      ensures Valid()
    {
      hide Init, Traces, Honest, Pipe.Valid, Pipe.View, Pipe.Array, Channel.FreshPipe;
      NothingTraced(setup);
      NothingIsHonest(setup, Policies());
      InitialPipes(setup);
    }

    /**
     The real pipes are at every moment those of a reachable state of the transition system. So each
     buffer is in exactly one place, the library's own assertion holds, and what the sink has been
     given is a prefix of the sequential composition.
     */
    lemma RealPipesAreReachable()
      requires Valid()
      ensures IsReachable(setup, state)
      ensures forall p | 0 <= p < |pipes| :: state.pipes[p] == pipes[p].View() && pipes[p].Array() == arrays[p]
      ensures forall p, b: Buffer | 0 <= p < |pipes| :: Places(state, p, b) == if b in setup.buffers[p] then 1 else 0
      ensures forall p | 0 <= p < |pipes| :: Channel.CheckInvariants(pipes[p].View())
      ensures pipes[setup.prog.n].View().received <= Stream(setup.prog, Calls(state), setup.prog.n)
    {
      hide Traces, Honest, Stream, Pipe.Valid, Pipe.View, Pipe.Array, Places, Channel.CheckInvariants;
      TracedIsReachable(setup, schedule, state);
      forall p | 0 <= p < |pipes|
        ensures Channel.CheckInvariants(state.pipes[p])
        ensures forall b: Buffer :: Places(state, p, b) == if b in setup.buffers[p] then 1 else 0
      {
        BufferConservation(setup, state, p);
      }
      ScheduleIndependence(setup, state);
    }

    /** Every push that was ever refused found the real deque full: all the slots of its blocks taken. */
    lemma RefusedPushesWereFull(i: nat)
      requires Valid() && i < |schedule| && schedule[i].Work? && !schedule[i].ok && schedule[i].k <= setup.prog.n
      ensures var s, k := Exec(setup.prog, Init(setup), schedule[..i]), schedule[i].k;
              s.workers[k].pc == Push && s.workers[k].readyToPush ==>
                |s.pipes[k].fifo| > 0 && pipes[k].fifo.policy.b > 0 && |s.pipes[k].fifo| % pipes[k].fifo.policy.b == 0
    {
      hide Linked, Exec, Traces;
      PolicySizes();
    }

    lemma PolicySizes()
      requires Valid()
      ensures |pipes| == setup.prog.n + 1 == |Policies()| && Shaped(setup.prog, Init(setup))
    {
      hide Traces, Honest, Pipe.Valid, Pipe.View, Pipe.Array;
    }

    /** The new context of worker `k` is stored, and the step is recorded. */
    method Settle(k: nat, ghost ok: bool, w: Worker, ghost views: seq<Channel.Pipe>)
      requires Structure() && Shaped(setup.prog, state) && Traces(setup, schedule, state) && k <= setup.prog.n + 1
      requires Honest(setup, schedule, Policies()) && Plausible(Policies(), state, k, ok)
      requires Becomes(setup.prog, state, k, ok, w, views) && workers == state.workers
      requires |views| == |pipes| && forall i | 0 <= i < |pipes| :: views[i] == pipes[i].View()
      modifies this`workers, this`state, this`schedule
      ensures Valid() && Repr == old(Repr)
      ensures schedule == old(schedule) + [Work(k, ok)] && workers == old(workers)[k := w]
    {
      hide Step, Traces, Honest, Pipe.Valid, Pipe.View, Pipe.Array;
      workers := workers[k := w];
      OneMoreTraced(setup, schedule, state, Work(k, ok));
      OneMoreHonest(setup, schedule, state, Work(k, ok), Policies());
      state := Step(setup.prog, state, Work(k, ok));
      schedule := schedule + [Work(k, ok)];
    }

    /** A step that only concerns the context of worker `k`. */
    method Walk(k: nat)
      requires Valid() && k <= setup.prog.n + 1
      requires Place(setup.prog, k, workers[k].pc) && OwnStep(setup.prog, k, workers[k]).Some?
      modifies this`workers, this`state, this`schedule
      ensures Valid() && Repr == old(Repr)
      ensures schedule == old(schedule) + [Work(k, true)]
      ensures workers == old(workers)[k := OwnStep(setup.prog, k, old(workers)[k]).value]
    {
      hide Becomes, Traces, Honest, Pipe.Valid, Pipe.View, Pipe.Array;
      OwnStepIs(setup.prog, state, k);
      Settle(k, true, OwnStep(setup.prog, k, workers[k]).value, state.pipes);
    }

    // ------------------------------------------------------------------------------------------
    // Operations on one pipe; the others stay as they are
    // ------------------------------------------------------------------------------------------

    /** It is refused exactly when the deque is full and gets no memory. */
    method PushBuffer(p: nat, buf: Buffer, vectorOk: bool, blockOk: bool) returns (ok: bool)
      requires Structure() && p < |pipes|
      modifies Repr, this`Repr
      ensures Structure() && fresh(Repr - old(Repr))
      ensures forall i | 0 <= i < |pipes| ::
                var q := old(pipes[i].View());
                pipes[i].View() == if i == p && ok then Channel.PushBuffer(q, buf) else q
      ensures !ok <==> old(pipes[p].Refuses(vectorOk, blockOk))
      ensures !ok ==> pipes[p].Refuses(vectorOk, blockOk)
    {
      hide Pipe.Valid, Pipe.View, Pipe.Array, Pipe.Refuses, Channel.PushBuffer;
      ok := pipes[p].PushBuffer(buf, vectorOk, blockOk);
      Repr := Repr + pipes[p].Repr;
    }

    /** One more permit. */
    method Release(p: nat)
      requires Structure() && p < |pipes|
      modifies Repr, this`Repr
      ensures Structure() && Repr == old(Repr)
      ensures forall i | 0 <= i < |pipes| ::
                var q := old(pipes[i].View());
                pipes[i].View() == if i == p then OneMorePermit(q) else q
    {
      hide Pipe.Valid, Pipe.View, Pipe.Array, Pipe.Refuses;
      pipes[p].Release();
      Repr := Repr + pipes[p].Repr;
    }

    /** The last buffer of the pool. */
    method GetEmptyBuffer(p: nat) returns (out: Option<Buffer>)
      requires Structure() && p < |pipes|
      modifies Repr, this`Repr
      ensures Structure() && Repr == old(Repr)
      ensures forall i | 0 <= i < |pipes| ::
                var q := old(pipes[i].View());
                pipes[i].View() == if i == p then Channel.GetEmptyBuffer(q) else q
      ensures out == Channel.EmptyBuffer(old(pipes[p].View()))
    {
      hide Pipe.Valid, Pipe.View, Pipe.Array, Pipe.Refuses,
        Channel.GetEmptyBuffer, Channel.EmptyBuffer;
      out := pipes[p].GetEmptyBuffer();
      Repr := Repr + pipes[p].Repr;
    }

    /** One permit less, if there is one in time. */
    method TryAcquire(p: nat, undisturbed: bool) returns (ok: bool)
      requires Structure() && p < |pipes|
      modifies Repr, this`Repr
      ensures Structure() && Repr == old(Repr)
      ensures forall i | 0 <= i < |pipes| ::
                var q := old(pipes[i].View());
                pipes[i].View() ==
                  if i == p && undisturbed && q.permits > 0 then q.(permits := q.permits - 1) else q
      ensures ok == (undisturbed && old(pipes[p].View()).permits > 0)
    {
      hide Pipe.Valid, Pipe.View, Pipe.Array, Pipe.Refuses;
      ok := pipes[p].TryAcquire(undisturbed);
      Repr := Repr + pipes[p].Repr;
    }

    /** The oldest buffer of the FIFO. */
    method GetFullBuffer(p: nat) returns (out: Option<Buffer>)
      requires Structure() && p < |pipes|
      modifies Repr, this`Repr
      ensures Structure() && Repr == old(Repr)
      ensures forall i | 0 <= i < |pipes| ::
                var q := old(pipes[i].View());
                pipes[i].View() == if i == p then Channel.GetFullBuffer(q) else q
      ensures out == Channel.FullBuffer(old(pipes[p].View()))
    {
      hide Pipe.Valid, Pipe.View, Pipe.Array, Pipe.Refuses,
        Channel.GetFullBuffer, Channel.FullBuffer;
      out := pipes[p].GetFullBuffer();
      Repr := Repr + pipes[p].Repr;
    }

    /** Puts a buffer back into a pool with room for it. */
    method PutBack(p: nat, buf: Buffer, granted: bool) returns (ok: bool)
      requires Structure() && p < |pipes| && |pipes[p].View().pool| < pipes[p].View().capacity
      modifies Repr, this`Repr
      ensures Structure() && Repr == old(Repr)
      ensures forall i | 0 <= i < |pipes| ::
                var q := old(pipes[i].View());
                pipes[i].View() == if i == p then Channel.PutBack(q, buf, granted) else q
      ensures ok
    {
      hide Pipe.Valid, Pipe.View, Pipe.Array, Pipe.Refuses, Channel.PutBack;
      ok := pipes[p].PutBack(buf, granted);
      Repr := Repr + pipes[p].Repr;
    }

    /** What a callback writes to its output buffer. */
    method WriteBuffer(p: nat, buf: Buffer, v: Value)
      requires Structure() && p < |pipes|
      modifies Repr, this`Repr
      ensures Structure() && Repr == old(Repr)
      ensures forall i | 0 <= i < |pipes| ::
                var q := old(pipes[i].View());
                pipes[i].View() == if i == p then q.(mem := Channel.Store(q.mem, buf, v)) else q
    {
      hide Pipe.Valid, Pipe.View, Pipe.Array, Pipe.Refuses, Channel.Store;
      pipes[p].Write(buf, v);
      Repr := Repr + pipes[p].Repr;
    }

    /** Moves the queued buffers to a pool with room for them. */
    method ClearPipe(p: nat, granted: bool)
      requires Structure() && p < |pipes|
      requires |pipes[p].View().pool| + |pipes[p].View().fifo| <= pipes[p].View().capacity
      modifies Repr, this`Repr
      ensures Structure() && Repr == old(Repr)
      ensures forall i | 0 <= i < |pipes| ::
                var q := old(pipes[i].View());
                pipes[i].View() == if i == p && |q.pool| + |q.fifo| <= q.capacity then Channel.Clear(q) else q
    {
      hide Pipe.Valid, Pipe.View, Pipe.Array, Pipe.Refuses, Channel.Clear;
      pipes[p].Clear(granted);
      Repr := Repr + pipes[p].Repr;
    }

    // ------------------------------------------------------------------------------------------
    // What a thread does at its place
    // ------------------------------------------------------------------------------------------

    /** Worker `k` is about to push a flagged buffer, and the deque is full and gets no memory. */
    ghost predicate Refuses(k: nat, answers: Answers)
      reads this, Repr
      requires Structure() && k < |pipes|
    {
      pipes[k].Refuses(answers.vectorOk, answers.blockOk)
    }

    /** What a refusal by the real deque means for the recorded step. */
    lemma RefusalIsPlausible(k: nat, ok: bool, answers: Answers)
      requires Linked() && k <= setup.prog.n && state.workers[k].pc == Push && state.workers[k].readyToPush
      requires !ok <==> Refuses(k, answers)
      ensures Plausible(Policies(), state, k, ok) && Decided(Policies(), state, k, ok, answers)
    {
      hide Pipe.Valid, Pipe.View, Pipe.Array, Pipe.Full, Pipe.VectorFull;
      if !ok {
        pipes[k].FullFillsBlocks();
        PolicyIsGood(k);
      }
    }

    lemma PolicyIsGood(k: nat)
      requires Linked() && k <= setup.prog.n
      ensures pipes[k].fifo.policy.b > 0
    {
      hide Pipe.View, Pipe.Array;
    }

    /** A push; it is refused exactly when the deque is full and gets no memory. */
    method AtPush(k: nat, answers: Answers) returns (ok: bool)
      requires Valid() && k <= setup.prog.n && workers[k].pc == Push && workers[k].readyToPush
      modifies this`workers, this`state, this`schedule, this`Repr, Repr
      ensures Valid() && fresh(Repr - old(Repr))
      ensures schedule == old(schedule) + [Work(k, ok)]
      ensures workers == old(workers)[k := old(workers)[k].(pc := if ok then Post else Top)]
      ensures !ok <==> old(Refuses(k, answers))
      ensures !ok ==> Refuses(k, answers)
      ensures k < |old(state).workers| && Decided(Policies(), old(state), k, ok, answers)
    {
      hide Becomes, Traces, Honest, Plausible, Decided, Policies, Pipe.Valid, Pipe.View, Pipe.Array, Pipe.Refuses,
        Channel.PushBuffer;
      ContextFacts(setup, schedule, state, k);
      var w := workers[k];
      RefusalIsPlausible(k, !Refuses(k, answers), answers);
      ok := PushBuffer(k, w.output.value, answers.vectorOk, answers.blockOk);
      PushIs(setup.prog, state, k, ok);
      ghost var q := state.pipes[k];
      Settle(k, ok, w.(pc := if ok then Post else Top),
             state.pipes[k := if ok then Channel.PushBuffer(q, w.output.value) else q]);
    }

    /** The release of the permit for a pushed buffer. */
    method AtPost(k: nat)
      requires Valid() && k <= setup.prog.n && workers[k].pc == Post
      modifies this`workers, this`state, this`schedule, this`Repr, Repr
      ensures Valid() && Repr == old(Repr)
      ensures schedule == old(schedule) + [Work(k, true)]
      ensures workers == old(workers)[k := old(workers)[k].(pc := ResetOut)]
    {
      hide Becomes, Traces, Honest, Pipe.Valid, Pipe.View, Pipe.Array, OneMorePermit;
      Release(k);
      PostIs(setup.prog, state, k);
      Settle(k, true, workers[k].(pc := ResetOut), state.pipes[k := OneMorePermit(state.pipes[k])]);
    }

    /** Taking an empty buffer. */
    method AtTake(k: nat)
      requires Valid() && k <= setup.prog.n
      requires var w := workers[k]; w.pc == Take && w.output == None && (k == 0 || w.input.Some?)
      modifies this`workers, this`state, this`schedule, this`Repr, Repr
      ensures Valid() && Repr == old(Repr)
      ensures schedule == old(schedule) + [Work(k, true)]
      ensures var out := Channel.EmptyBuffer(old(state).pipes[k]);
              workers == old(workers)[k := old(workers)[k].(pc := PC.Call, output := out)]
    {
      hide Becomes, Traces, Honest, Pipe.Valid, Pipe.View, Pipe.Array, Channel.GetEmptyBuffer, Channel.EmptyBuffer;
      var out := GetEmptyBuffer(k);
      TakeIs(setup.prog, state, k);
      Settle(k, true, workers[k].(pc := PC.Call, output := out),
             state.pipes[k := Channel.GetEmptyBuffer(state.pipes[k])]);
    }

    /** Waiting for a permit. */
    method AtAcquire(k: nat, undisturbed: bool) returns (ok: bool)
      requires Valid() && 0 < k <= setup.prog.n + 1
      requires workers[k].pc == PC.Acquire && workers[k].readyToPull
      modifies this`workers, this`state, this`schedule, this`Repr, Repr
      ensures Valid() && Repr == old(Repr)
      ensures schedule == old(schedule) + [Work(k, undisturbed)]
      ensures workers == old(workers)[k := old(workers)[k].(pc := if ok then Pull else Top)]
      ensures ok <==> undisturbed && old(pipes[k - 1].View()).permits > 0
    {
      hide Becomes, Traces, Honest, Pipe.Valid, Pipe.View, Pipe.Array;
      ok := TryAcquire(k - 1, undisturbed);
      AcquireIs(setup.prog, state, k, undisturbed);
      ghost var q := state.pipes[k - 1];
      Settle(k, undisturbed, workers[k].(pc := if ok then Pull else Top),
             state.pipes[k - 1 := if ok then q.(permits := q.permits - 1) else q]);
    }

    /** Taking a full buffer; after a permit there always is one. */
    method AtPull(k: nat)
      requires Valid() && 0 < k <= setup.prog.n + 1 && workers[k].pc == Pull
      modifies this`workers, this`state, this`schedule, this`Repr, Repr
      ensures Valid() && Repr == old(Repr)
      ensures schedule == old(schedule) + [Work(k, true)]
      ensures var out := Channel.FullBuffer(old(state).pipes[k - 1]);
              out.Some? && workers == old(workers)[k := Pulled(setup.prog, k, old(workers)[k], out)]
    {
      hide Becomes, Traces, Honest, Pipe.Valid, Pipe.View, Pipe.Array, Channel.GetFullBuffer;
      PermitMeansBuffer(setup, schedule, state, k);
      var out := GetFullBuffer(k - 1);
      PullIs(setup.prog, state, k);
      Settle(k, true, Pulled(setup.prog, k, workers[k], out),
             state.pipes[k - 1 := Channel.GetFullBuffer(state.pipes[k - 1])]);
    }

    /** Returning a buffer; it never fails, and it never needs the allocator. */
    method AtPutBack(k: nat, granted: bool) returns (ok: bool)
      requires Valid() && 0 < k <= setup.prog.n + 1
      requires var w := workers[k]; w.pc == PC.PutBack && w.readyToPull && w.input.Some?
      modifies this`workers, this`state, this`schedule, this`Repr, Repr
      ensures Valid() && Repr == old(Repr)
      ensures schedule == old(schedule) + [Work(k, granted)] && ok
      ensures workers == old(workers)[k := old(workers)[k].(pc := ResetIn)]
    {
      hide Becomes, Traces, Honest, Pipe.Valid, Pipe.View, Pipe.Array, Channel.PutBack;
      RoomToReturn(setup, schedule, state, k);
      var b := workers[k].input.value;
      ok := PutBack(k - 1, b, granted);
      PutBackIs(setup.prog, state, k, granted);
      Settle(k, granted, workers[k].(pc := ResetIn),
             state.pipes[k - 1 := Channel.PutBack(state.pipes[k - 1], b, granted)]);
    }

    /** What a callback finds in its input buffer. */
    method Look(p: nat, buf: Buffer) returns (v: Value)
      requires Linked() && p < |pipes|
      ensures v == state.pipes[p].mem(buf)
    {
      hide Pipe.Valid, Pipe.View, Pipe.Array;
      v := pipes[p].Read(buf);
    }

    /** src/source.c:58-64: the first call runs `init`, every call runs `process`. */
    method SourceCallback(user: User, calls: nat) returns (r: SourceReply)
      ensures r == setup.prog.CallSource(user, calls)
      ensures r == setup.prog.source(if calls == 0 then setup.prog.init(0, user) else user)
    {
      var u := user;
      if calls == 0 {
        u := setup.prog.init(0, u);
      }
      r := setup.prog.source(u);
    }

    /** src/stage.c:135-141. */
    method StageCallback(k: nat, user: User, calls: nat, x: Value) returns (r: StageReply)
      ensures r == setup.prog.CallStage(k, user, calls, x)
      ensures r == setup.prog.stage(k, if calls == 0 then setup.prog.init(k, user) else user, x)
    {
      var u := user;
      if calls == 0 {
        u := setup.prog.init(k, u);
      }
      r := setup.prog.stage(k, u, x);
    }

    /** src/sink.c:83-89. */
    method SinkCallback(user: User, calls: nat, x: Value) returns (r: SinkReply)
      ensures r == setup.prog.CallSink(user, calls, x)
      ensures r == setup.prog.sink(if calls == 0 then setup.prog.init(setup.prog.n + 1, user) else user, x)
    {
      var u := user;
      if calls == 0 {
        u := setup.prog.init(setup.prog.n + 1, u);
      }
      r := setup.prog.sink(u, x);
    }

    /** The callback of the source writes its buffer and may declare the end, src/source.c:64 and 103-109. */
    method SourceAtCall()
      requires Valid() && workers[0].pc == PC.Call && workers[0].output.Some?
      modifies this`workers, this`state, this`schedule, this`Repr, Repr
      ensures Valid() && Repr == old(Repr)
      ensures schedule == old(schedule) + [Work(0, true)]
      ensures var w := old(workers)[0];
              workers == old(workers)[0 := SourceReplied(w, setup.prog.CallSource(w.user, w.calls))]
    {
      hide Becomes, Traces, Honest, Pipe.Valid, Pipe.View, Pipe.Array, SourceReplied, Program.CallSource, Channel.Store;
      var w := workers[0];
      var r := SourceCallback(w.user, w.calls);
      WriteBuffer(0, w.output.value, r.written);
      SourceCallIs(setup.prog, state);
      ghost var q := state.pipes[0];
      Settle(0, true, SourceReplied(w, r),
             state.pipes[0 := q.(mem := Channel.Store(q.mem, w.output.value, r.written))]);
    }

    /** The callback of a stage reads its input buffer and writes its output buffer, src/stage.c:141. */
    method StageAtCall(k: nat) returns (r: StageReply)
      requires Valid() && 0 < k <= setup.prog.n
      requires workers[k].pc == PC.Call && workers[k].input.Some? && workers[k].output.Some?
      modifies this`workers, this`state, this`schedule, this`Repr, Repr
      ensures Valid() && Repr == old(Repr)
      ensures schedule == old(schedule) + [Work(k, true)]
      ensures var w := old(workers)[k];
              var x := old(state).pipes[k - 1].mem(w.input.value);
              r == setup.prog.CallStage(k, w.user, w.calls, x) && workers == old(workers)[k := StageReplied(w, r)]
    {
      hide Becomes, Traces, Honest, Pipe.Valid, Pipe.View, Pipe.Array, StageReplied, Program.CallStage, Channel.Store;
      var w := workers[k];
      var x := Look(k - 1, w.input.value);
      r := StageCallback(k, w.user, w.calls, x);
      WriteBuffer(k, w.output.value, r.written);
      StageCallIs(setup.prog, state, k);
      ghost var q := state.pipes[k];
      Settle(k, true, StageReplied(w, r),
             state.pipes[k := q.(mem := Channel.Store(q.mem, w.output.value, r.written))]);
    }

    /** The callback of the sink reads its input buffer, src/sink.c:89. */
    method SinkAtCall(k: nat) returns (r: SinkReply)
      requires Valid() && k == setup.prog.n + 1 && workers[k].pc == PC.Call && workers[k].input.Some?
      modifies this`workers, this`state, this`schedule
      ensures Valid() && Repr == old(Repr)
      ensures schedule == old(schedule) + [Work(k, true)]
      ensures var w := old(workers)[k];
              var x := old(state).pipes[k - 1].mem(w.input.value);
              r == setup.prog.CallSink(w.user, w.calls, x) && workers == old(workers)[k := SinkReplied(w, r)]
    {
      hide Becomes, Traces, Honest, Pipe.Valid, Pipe.View, Pipe.Array, SinkReplied, Program.CallSink;
      var w := workers[k];
      var x := Look(k - 1, w.input.value);
      r := SinkCallback(w.user, w.calls, x);
      SinkCallIs(setup.prog, state);
      Settle(k, true, SinkReplied(w, r), state.pipes);
    }

    // ------------------------------------------------------------------------------------------
    // Turns
    // ------------------------------------------------------------------------------------------

    /** Whether the next step of the worker is on its output pipe, and asks it. */
    predicate AsksOutput(k: nat)
      reads this`workers
      requires k < |workers|
    {
      var w := workers[k];
      match w.pc
      case Push => w.readyToPush
      case Post => true
      case Take => w.output == None && (k == 0 || w.input.Some?)
      case _ => false
    }

    predicate AsksInput(k: nat)
      reads this`workers
      requires k < |workers|
    {
      var w := workers[k];
      match w.pc
      case Acquire => w.readyToPull
      case Pull => true
      case PutBack => w.readyToPull && w.input.Some?
      case _ => false
    }

    predicate CallsBack(k: nat)
      reads this`workers
      requires k < |workers|
    {
      workers[k].pc == PC.Call && if k == setup.prog.n + 1 then workers[k].input.Some? else workers[k].output.Some?
    }

    /** The next step of the worker is the push of a flagged buffer. */
    predicate FlagsPush(k: nat)
      reads this`workers
      requires k < |workers|
    {
      workers[k].pc == Push && workers[k].readyToPush
    }

    lemma Sizes()
      requires Valid()
      ensures |workers| == setup.prog.n + 2 && |pipes| == |state.pipes| == setup.prog.n + 1
      ensures setup.Valid() && Shaped(setup.prog, state) && workers == state.workers
      ensures Traces(setup, schedule, state) && Honest(setup, schedule, Policies())
      ensures this !in Repr
    {
      hide Traces, Honest, Pipe.Valid, Pipe.View, Pipe.Array;
    }

    method TurnOnOutput(k: nat, answers: Answers) returns (ok: bool)
      requires Valid() && k <= setup.prog.n && AsksOutput(k)
      modifies this`workers, this`state, this`schedule, this`Repr, Repr
      ensures Valid() && fresh(Repr - old(Repr))
      ensures schedule == old(schedule) + [Work(k, ok)]
      ensures k < |old(state).workers| && Decided(Policies(), old(state), k, ok, answers)
      ensures old(workers[k].pc) == Push ==> (!ok <==> old(Refuses(k, answers)))
    {
      hide Valid, Structure, Policies, Refuses, Pipe.View;
      Sizes();
      ok := true;
      match workers[k].pc {
        case Push => ok := AtPush(k, answers);
        case Post => AtPost(k);
        case Take => AtTake(k);
        case _ => assert false;
      }
    }

    method TurnOnInput(k: nat, answers: Answers) returns (ok: bool)
      requires Valid() && 0 < k <= setup.prog.n + 1 && AsksInput(k)
      modifies this`workers, this`state, this`schedule, this`Repr, Repr
      ensures Valid() && Repr == old(Repr)
      ensures schedule == old(schedule) + [Work(k, ok)]
      ensures k < |old(state).workers| && Decided(Policies(), old(state), k, ok, answers)
    {
      hide Valid, Policies, Pipe.View;
      Sizes();
      ok := true;
      match workers[k].pc {
        case Acquire =>
          var got := AtAcquire(k, answers.undisturbed);
          ok := answers.undisturbed;
        case Pull => AtPull(k);
        case PutBack =>
          var returned := AtPutBack(k, answers.granted);
          ok := answers.granted;
        case _ => assert false;
      }
    }

    method TurnAtCall(k: nat)
      requires Valid() && k <= setup.prog.n + 1 && CallsBack(k) && (0 < k <= setup.prog.n ==> workers[k].input.Some?)
      modifies this`workers, this`state, this`schedule, this`Repr, Repr
      ensures Valid() && Repr == old(Repr)
      ensures schedule == old(schedule) + [Work(k, true)]
    {
      hide Valid, SourceReplied, StageReplied, SinkReplied;
      Sizes();
      if k == 0 {
        SourceAtCall();
      } else if k == setup.prog.n + 1 {
        var r := SinkAtCall(k);
      } else {
        var r := StageAtCall(k);
      }
    }

    /** The facts that decide which turn worker `k` takes. */
    lemma TurnIsPossible(k: nat)
      requires Valid() && k <= setup.prog.n + 1
      ensures |workers| == setup.prog.n + 2
      ensures Place(setup.prog, k, workers[k].pc)
      ensures AsksOutput(k) ==> k <= setup.prog.n
      ensures AsksInput(k) ==> k > 0
      ensures CallsBack(k) && 0 < k <= setup.prog.n ==> workers[k].input.Some?
      ensures !AsksOutput(k) && !AsksInput(k) && !CallsBack(k) ==> OwnStep(setup.prog, k, workers[k]).Some?
    {
      hide Traces, Honest, Structure, Pipe.View;
      ContextFacts(setup, schedule, state, k);
    }

    /** A step that asks neither pipe is not refused. */
    lemma TurnIsDecided(k: nat, answers: Answers)
      requires Valid() && k <= setup.prog.n + 1
      ensures |workers| == |state.workers| == setup.prog.n + 2
      ensures !AsksOutput(k) && !AsksInput(k) ==> Decided(Policies(), state, k, true, answers) && !FlagsPush(k)
      ensures FlagsPush(k) ==> AsksOutput(k) && workers[k].pc == Push
      ensures AsksOutput(k) && !FlagsPush(k) ==> workers[k].pc != Push
      ensures AsksInput(k) ==> !FlagsPush(k)
      ensures CallsBack(k) ==> !AsksOutput(k) && !AsksInput(k)
    {
      hide Structure, Traces, Honest, Policies;
    }

    /** Thread `k` goes on by one step, whatever that is. */
    method TakeTurn(k: nat, answers: Answers) returns (ok: bool)
      requires Valid() && k <= setup.prog.n + 1
      modifies this`workers, this`state, this`schedule, this`Repr, Repr
      ensures Valid() && fresh(Repr - old(Repr))
      ensures schedule == old(schedule) + [Work(k, ok)]
      ensures k < |old(state).workers| && Decided(Policies(), old(state), k, ok, answers)
      ensures k <= setup.prog.n && old(FlagsPush(k)) ==> (!ok <==> old(Refuses(k, answers)))
    {
      hide Valid, Structure, Policies, Refuses, Place, OwnStep, AsksOutput, AsksInput, CallsBack, FlagsPush, Decided;
      TurnIsPossible(k);
      TurnIsDecided(k, answers);
      ok := true;
      if AsksOutput(k) {
        ok := TurnOnOutput(k, answers);
      } else if AsksInput(k) {
        ok := TurnOnInput(k, answers);
      } else if CallsBack(k) {
        TurnAtCall(k);
      } else {
        Walk(k);
      }
    }

    /** `mtdp_worker_enable` and `mtdp_worker_disable`, src/worker.c:127-153. */
    method SwitchWorker(k: nat, on: bool)
      requires Valid() && k <= setup.prog.n + 1
      modifies this`workers, this`state, this`schedule
      ensures Valid() && Repr == old(Repr)
      ensures schedule == old(schedule) + [SetEnabled(k, on)]
      ensures workers == old(workers)[k := old(workers)[k].(enabled := on)]
    {
      hide Traces, Honest, Pipe.Valid, Pipe.View, Pipe.Array;
      OneMoreTraced(setup, schedule, state, SetEnabled(k, on));
      OneMoreHonest(setup, schedule, state, SetEnabled(k, on), Policies());
      workers := workers[k := workers[k].(enabled := on)];
      state := Step(setup.prog, state, SetEnabled(k, on));
      schedule := schedule + [SetEnabled(k, on)];
    }

    /** `mtdp_worker_destroy`, src/worker.c:155-163. */
    method DestroyWorker(k: nat)
      requires Valid() && k <= setup.prog.n + 1
      modifies this`workers, this`state, this`schedule
      ensures Valid() && Repr == old(Repr)
      ensures schedule == old(schedule) + [SetDestroyed(k)]
      ensures workers == old(workers)[k := old(workers)[k].(destroyed := true)]
    {
      hide Traces, Honest, Pipe.Valid, Pipe.View, Pipe.Array;
      OneMoreTraced(setup, schedule, state, SetDestroyed(k));
      OneMoreHonest(setup, schedule, state, SetDestroyed(k), Policies());
      workers := workers[k := workers[k].(destroyed := true)];
      state := Step(setup.prog, state, SetDestroyed(k));
      schedule := schedule + [SetDestroyed(k)];
    }

    /** Whether the pipeline has been started. */
    method SetActive(on: bool)
      modifies this`active
      ensures active == on
      ensures old(Valid()) ==> Valid()
      ensures old(Linked()) ==> Linked()
    {
      hide Traces, Honest, Pipe.Valid, Pipe.View, Pipe.Array;
      active := on;
    }

    /** One turn, of whomever it is. */
    method Perform(t: Turn) returns (ghost a: Action)
      requires Valid() && t.k <= setup.prog.n + 1
      modifies this`workers, this`state, this`schedule, this`Repr, Repr
      ensures Valid() && fresh(Repr - old(Repr))
      ensures schedule == old(schedule) + [a] && Records(Policies(), old(state), t, a)
      ensures t.k < |old(workers)| && (t.Go? && t.k <= setup.prog.n && old(FlagsPush(t.k)) ==>
                a == Work(t.k, !old(Refuses(t.k, t.answers))))
    {
      hide Valid, Policies;
      Sizes();
      match t {
        case Go(k, answers) =>
          var ok := TakeTurn(k, answers);
          a := Work(k, ok);
        case Switch(k, on) =>
          SwitchWorker(k, on);
          a := SetEnabled(k, on);
        case Kill(k) =>
          DestroyWorker(k);
          a := SetDestroyed(k);
      }
    }

    /** Any turns, one after the other. */
    method Run(turns: seq<Turn>) returns (ghost acts: seq<Action>)
      requires Valid() && forall i | 0 <= i < |turns| :: turns[i].k <= setup.prog.n + 1
      modifies this`workers, this`state, this`schedule, this`Repr, Repr
      ensures Valid() && fresh(Repr - old(Repr))
      ensures schedule == old(schedule) + acts && Took(setup, old(schedule), turns, acts, Policies())
      ensures Shaped(setup.prog, old(state)) && state == Exec(setup.prog, old(state), acts)
    {
      hide Valid, Structure, Policies, Records, Took, Traces, Honest, Refuses, FlagsPush;
      acts := [];
      Sizes();
      ghost var before, was := schedule, state;
      TookNothing(setup, before, Policies());
      for i := 0 to |turns|
        invariant Valid() && fresh(Repr - old(Repr))
        invariant schedule == before + acts && Took(setup, before, turns[..i], acts, Policies())
      {
        Sizes();
        ghost var mid, at := schedule, state;
        ghost var a := Perform(turns[i]);
        TookOne(setup, mid, at, turns[i], a, Policies());
        TookThenTook(setup, before, turns[..i], acts, [turns[i]], [a], Policies());
        acts := acts + [a];
        assert turns[..i + 1] == turns[..i] + [turns[i]];
      }
      assert turns[..|turns|] == turns;
      Sizes();
      TracesOn(setup, before, acts, was, state);
    }

    // ------------------------------------------------------------------------------------------
    // Between two critical sections of worker `k`
    // ------------------------------------------------------------------------------------------

    ghost predicate At(k: nat, pc: PC)
      reads this, Repr
    {
      Valid() && k < |workers| && workers[k].pc == pc
    }

    /** The others take their turns; worker `k` stays where it is. */
    method Others(k: nat, ghost part: Part, turns: seq<Turn>, ghost own: set<Answers>)
      requires Valid() && k <= setup.prog.n + 1 && Theirs(setup.prog, turns, k)
      modifies this`workers, this`state, this`schedule, this`Repr, Repr
      ensures Valid() && fresh(Repr - old(Repr))
      ensures Grew(setup, old(schedule), schedule, k, part, turns, own, Policies())
      ensures k < |old(workers)| == |workers| && SameButFlags(old(workers)[k], workers[k])
    {
      hide Valid, Policies, Took, Grew, Step, Structure, Traces, Honest;
      Sizes();
      ghost var before, was := schedule, state;
      ghost var acts := Run(turns);
      Sizes();
      TookNoneOf(setup, before, turns, acts, k, Policies());
      GrewByOthers(setup, before, acts, k, part, turns, own, Policies());
      OthersLeave(setup.prog, was, acts, k);
    }

    /** The others take their turns, then worker `k` pushes. */
    method ThenPush(k: nat, turns: seq<Turn>, answers: Answers) returns (ok: bool)
      requires Valid() && k <= setup.prog.n && workers[k].pc == Push && workers[k].readyToPush
      requires Theirs(setup.prog, turns, k)
      modifies this`workers, this`state, this`schedule, this`Repr, Repr
      ensures Valid() && fresh(Repr - old(Repr)) && k < |old(workers)| == |workers|
      ensures Grew(setup, old(schedule), schedule, k, InCallback, turns, {answers}, Policies())
      ensures SameButFlags(old(workers)[k].(pc := if ok then Post else Top), workers[k])
      ensures !ok ==> Refuses(k, answers)
    {
      hide Valid, Policies, Grew, Structure, Refuses, Decided, Pipe.View;
      Sizes();
      Others(k, InCallback, turns, {answers});
      Sizes();
      ghost var mid, at := schedule, state;
      ok := AtPush(k, answers);
      GrewThenOwn(setup, old(schedule), mid, at, k, InCallback, turns, ok, answers, Policies());
    }

    /** The others take their turns, then worker `k` releases the permit. */
    method ThenPost(k: nat, turns: seq<Turn>, answers: Answers)
      requires Valid() && k <= setup.prog.n && workers[k].pc == Post
      requires Theirs(setup.prog, turns, k)
      modifies this`workers, this`state, this`schedule, this`Repr, Repr
      ensures Valid() && fresh(Repr - old(Repr)) && k < |old(workers)| == |workers|
      ensures Grew(setup, old(schedule), schedule, k, InCallback, turns, {answers}, Policies())
      ensures SameButFlags(old(workers)[k].(pc := ResetOut), workers[k])
    {
      hide Valid, Policies, Grew, Structure, Pipe.View, Pipe.Refuses;
      Sizes();
      Others(k, InCallback, turns, {answers});
      Sizes();
      ghost var mid, at := schedule, state;
      AtPost(k);
      GrewThenOwn(setup, old(schedule), mid, at, k, InCallback, turns, true, answers, Policies());
    }

    /** The others take their turns, then worker `k` asks for an empty buffer. */
    method ThenTake(k: nat, turns: seq<Turn>, answers: Answers) returns (out: Option<Buffer>)
      requires Valid() && k <= setup.prog.n
      requires var w := workers[k]; w.pc == Take && w.output == None && (k == 0 || w.input.Some?)
      requires Theirs(setup.prog, turns, k)
      modifies this`workers, this`state, this`schedule, this`Repr, Repr
      ensures Valid() && fresh(Repr - old(Repr)) && k < |old(workers)| == |workers|
      ensures Grew(setup, old(schedule), schedule, k, InCallback, turns, {answers}, Policies())
      ensures SameButFlags(old(workers)[k].(pc := PC.Call, output := out), workers[k])
    {
      hide Valid, Policies, Grew, Structure, Pipe.View, Pipe.Refuses, Channel.EmptyBuffer;
      Sizes();
      Others(k, InCallback, turns, {answers});
      Sizes();
      ghost var mid, at := schedule, state;
      AtTake(k);
      out := workers[k].output;
      GrewThenOwn(setup, old(schedule), mid, at, k, InCallback, turns, true, answers, Policies());
    }

    /** The others take their turns, then worker `k` waits for a permit. */
    method ThenAcquire(k: nat, turns: seq<Turn>, answers: Answers) returns (ok: bool)
      requires Valid() && 0 < k <= setup.prog.n + 1 && workers[k].pc == PC.Acquire && workers[k].readyToPull
      requires Theirs(setup.prog, turns, k)
      modifies this`workers, this`state, this`schedule, this`Repr, Repr
      ensures Valid() && fresh(Repr - old(Repr)) && k < |old(workers)| == |workers|
      ensures Grew(setup, old(schedule), schedule, k, InCallback, turns, {answers}, Policies())
      ensures SameButFlags(old(workers)[k].(pc := if ok then Pull else Top), workers[k])
    {
      hide Valid, Policies, Grew, Structure, Pipe.View, Pipe.Refuses;
      Sizes();
      Others(k, InCallback, turns, {answers});
      Sizes();
      ghost var mid, at := schedule, state;
      ok := AtAcquire(k, answers.undisturbed);
      GrewThenOwn(setup, old(schedule), mid, at, k, InCallback, turns, answers.undisturbed, answers, Policies());
    }

    /** The others take their turns, then worker `k` takes a full buffer. */
    method ThenPull(k: nat, turns: seq<Turn>, answers: Answers) returns (b: Buffer)
      requires Valid() && 0 < k <= setup.prog.n + 1 && workers[k].pc == Pull
      requires Theirs(setup.prog, turns, k)
      modifies this`workers, this`state, this`schedule, this`Repr, Repr
      ensures Valid() && fresh(Repr - old(Repr)) && k < |old(workers)| == |workers|
      ensures Grew(setup, old(schedule), schedule, k, InCallback, turns, {answers}, Policies())
      ensures SameButFlags(Pulled(setup.prog, k, old(workers)[k], Some(b)), workers[k])
    {
      hide Valid, Policies, Grew, Structure, Pipe.View, Pipe.Refuses, Channel.FullBuffer;
      Sizes();
      Others(k, InCallback, turns, {answers});
      Sizes();
      ghost var mid, at := schedule, state;
      AtPull(k);
      b := workers[k].input.value;
      GrewThenOwn(setup, old(schedule), mid, at, k, InCallback, turns, true, answers, Policies());
    }

    /** The others take their turns, then worker `k` returns its input. */
    method ThenPutBack(k: nat, turns: seq<Turn>, answers: Answers) returns (ok: bool)
      requires Valid() && 0 < k <= setup.prog.n + 1
      requires var w := workers[k]; w.pc == PC.PutBack && w.readyToPull && w.input.Some?
      requires Theirs(setup.prog, turns, k)
      modifies this`workers, this`state, this`schedule, this`Repr, Repr
      ensures Valid() && fresh(Repr - old(Repr)) && k < |old(workers)| == |workers|
      ensures Grew(setup, old(schedule), schedule, k, InCallback, turns, {answers}, Policies())
      ensures SameButFlags(old(workers)[k].(pc := ResetIn), workers[k])
      ensures ok
    {
      hide Valid, Policies, Grew, Structure, Pipe.View, Pipe.Refuses;
      Sizes();
      Others(k, InCallback, turns, {answers});
      Sizes();
      ghost var mid, at := schedule, state;
      ok := AtPutBack(k, answers.granted);
      GrewThenOwn(setup, old(schedule), mid, at, k, InCallback, turns, answers.granted, answers, Policies());
    }

    /** The others take their turns, then the callback of the source is called. */
    method ThenCallSource(k: nat, turns: seq<Turn>, answers: Answers)
      requires Valid() && k == 0 && workers[k].pc == PC.Call && workers[k].output.Some?
      requires Theirs(setup.prog, turns, k)
      modifies this`workers, this`state, this`schedule, this`Repr, Repr
      ensures Valid() && fresh(Repr - old(Repr)) && k < |old(workers)| == |workers|
      ensures Grew(setup, old(schedule), schedule, k, InCallback, turns, {answers}, Policies())
      ensures var w := old(workers)[k];
              var r := setup.prog.CallSource(w.user, w.calls);
              SameButFlags(SourceReplied(w, r), workers[k]) && (r.finish ==> workers[k].destroyed)
    {
      hide Valid, Policies, Grew, Structure, Pipe.View, Pipe.Refuses;
      Sizes();
      Others(k, InCallback, turns, {answers});
      Sizes();
      ghost var mid, at := schedule, state;
      SourceAtCall();
      GrewThenOwn(setup, old(schedule), mid, at, k, InCallback, turns, true, answers, Policies());
    }

    /** The others take their turns, then the callback of a stage is called; it keeps what it is given. */
    method ThenCallStage(k: nat, turns: seq<Turn>, answers: Answers) returns (r: StageReply, ghost x: Value)
      requires Valid() && 0 < k <= setup.prog.n
      requires workers[k].pc == PC.Call && workers[k].input.Some? && workers[k].output.Some?
      requires Theirs(setup.prog, turns, k)
      modifies this`workers, this`state, this`schedule, this`Repr, Repr
      ensures Valid() && fresh(Repr - old(Repr)) && k < |old(workers)| == |workers|
      ensures Grew(setup, old(schedule), schedule, k, InCallback, turns, {answers}, Policies())
      ensures var w := old(workers)[k];
              r == setup.prog.CallStage(k, w.user, w.calls, x) && SameButFlags(StageReplied(w, r), workers[k])
    {
      hide Valid, Policies, Grew, Structure, Pipe.View, Pipe.Refuses;
      Sizes();
      Others(k, InCallback, turns, {answers});
      Sizes();
      ghost var mid, at := schedule, state;
      x := state.pipes[k - 1].mem(workers[k].input.value);
      r := StageAtCall(k);
      GrewThenOwn(setup, old(schedule), mid, at, k, InCallback, turns, true, answers, Policies());
    }

    /** The others take their turns, then the callback of the sink is called. */
    method ThenCallSink(k: nat, turns: seq<Turn>, answers: Answers) returns (r: SinkReply, ghost x: Value)
      requires Valid() && k == setup.prog.n + 1 && workers[k].pc == PC.Call && workers[k].input.Some?
      requires Theirs(setup.prog, turns, k)
      modifies this`workers, this`state, this`schedule, this`Repr, Repr
      ensures Valid() && fresh(Repr - old(Repr)) && k < |old(workers)| == |workers|
      ensures Grew(setup, old(schedule), schedule, k, InCallback, turns, {answers}, Policies())
      ensures var w := old(workers)[k];
              r == setup.prog.CallSink(w.user, w.calls, x) && SameButFlags(SinkReplied(w, r), workers[k])
    {
      hide Valid, Policies, Grew, Structure, Pipe.View, Pipe.Refuses;
      Sizes();
      Others(k, InCallback, turns, {answers});
      Sizes();
      ghost var mid, at := schedule, state;
      x := state.pipes[k - 1].mem(workers[k].input.value);
      r := SinkAtCall(k);
      GrewThenOwn(setup, old(schedule), mid, at, k, InCallback, turns, true, answers, Policies());
    }

    /** Worker `k` writes to its own context, between two critical sections. */
    method Write(k: nat, w: Worker, ghost part: Part, ghost own: set<Answers>)
      requires Valid() && k <= setup.prog.n + 1 && k < |workers| && own != {}
      requires OwnStep(setup.prog, k, workers[k]) == Some(w) && Inside(part, workers[k].pc)
      modifies this`workers, this`state, this`schedule
      ensures Valid() && Repr == old(Repr) && workers == old(workers)[k := w]
      ensures Grew(setup, old(schedule), schedule, k, part, [], own, Policies())
      ensures Machine.Turns(schedule, k) == Machine.Turns(old(schedule), k) + 1
    {
      hide Valid, Policies, Grew, Structure, Decided, Pipe.View, Place, OwnStep, AsksOutput, AsksInput,
        CallsBack, Inside;
      Sizes();
      TurnIsPossible(k);
      ghost var mid, at := schedule, state;
      ghost var x :| x in own;
      OwnStepIsDecided(setup.prog, Policies(), state, k, x);
      Walk(k);
      GrewByOwn(setup, mid, at, k, part, true, x, own, Policies());
      OneMoreCounted(mid, k, true);
    }

    // ------------------------------------------------------------------------------------------
    // The worker loop, src/worker.c:86-95
    // ------------------------------------------------------------------------------------------

    /** src/worker.c:86: a destroyed worker exits, any other goes to the gate. */
    method EnterLoop(k: nat, turns: seq<Turn>, ghost own: set<Answers>) returns (exit: bool)
      requires At(k, Top) && k <= setup.prog.n + 1 && own != {} && Theirs(setup.prog, turns, k)
      modifies this`workers, this`state, this`schedule, this`Repr, Repr
      ensures Valid() && fresh(Repr - old(Repr)) && k < |old(workers)| == |workers|
      ensures Grew(setup, old(schedule), schedule, k, InLoop, turns, own, Policies())
      ensures SameButFlags(old(workers)[k].(pc := if exit then Exited else Gate), workers[k])
      ensures exit == workers[k].destroyed && Machine.Turns(schedule, k) > Machine.Turns(old(schedule), k)
    {
      hide Valid, Policies, Grew, Structure, Pipe.View;
      Sizes();
      Others(k, InLoop, turns, own);
      ghost var mid := schedule;
      Sizes();
      GrewCounts(setup, old(schedule), schedule, k, InLoop, turns, own, Policies());
      exit := workers[k].destroyed;
      Write(k, workers[k].(pc := if exit then Exited else Gate), InLoop, own);
      GrewThenGrew(setup, old(schedule), mid, schedule, k, InLoop, turns, [], own, Policies());
      assert turns + [] == turns;
    }

    /** src/worker.c:87-91: a worker that is neither enabled nor destroyed goes on waiting. */
    method OpenGate(k: nat, turns: seq<Turn>, ghost own: set<Answers>) returns (open: bool)
      requires At(k, Gate) && k <= setup.prog.n + 1 && own != {} && Theirs(setup.prog, turns, k)
      modifies this`workers, this`state, this`schedule, this`Repr, Repr
      ensures Valid() && fresh(Repr - old(Repr)) && k < |old(workers)| == |workers|
      ensures Grew(setup, old(schedule), schedule, k, InLoop, turns, own, Policies())
      ensures SameButFlags(old(workers)[k].(pc := if open then Recheck else Gate), workers[k])
      ensures open == (workers[k].enabled || workers[k].destroyed)
      ensures Machine.Turns(schedule, k) > Machine.Turns(old(schedule), k)
    {
      hide Valid, Policies, Grew, Structure, Pipe.View;
      Sizes();
      Others(k, InLoop, turns, own);
      ghost var mid := schedule;
      Sizes();
      GrewCounts(setup, old(schedule), schedule, k, InLoop, turns, own, Policies());
      open := workers[k].enabled || workers[k].destroyed;
      Write(k, workers[k].(pc := if open then Recheck else Gate), InLoop, own);
      GrewThenGrew(setup, old(schedule), mid, schedule, k, InLoop, turns, [], own, Policies());
      assert turns + [] == turns;
    }

    /** src/worker.c:92-94: a worker destroyed meanwhile exits, any other enters the callback. */
    method CheckAgain(k: nat, turns: seq<Turn>, ghost own: set<Answers>) returns (callback: bool)
      requires At(k, Recheck) && k <= setup.prog.n + 1 && own != {} && Theirs(setup.prog, turns, k)
      modifies this`workers, this`state, this`schedule, this`Repr, Repr
      ensures Valid() && fresh(Repr - old(Repr)) && k < |old(workers)| == |workers|
      ensures Grew(setup, old(schedule), schedule, k, InLoop, turns, own, Policies())
      ensures SameButFlags(old(workers)[k].(pc := if callback then Begin(k) else Exited), workers[k])
      ensures callback == !workers[k].destroyed
    {
      hide Valid, Policies, Grew, Structure, Pipe.View;
      Sizes();
      Others(k, InLoop, turns, own);
      ghost var mid := schedule;
      Sizes();
      callback := !workers[k].destroyed;
      Write(k, workers[k].(pc := if callback then Begin(k) else Exited), InLoop, own);
      GrewThenGrew(setup, old(schedule), mid, schedule, k, InLoop, turns, [], own, Policies());
      assert turns + [] == turns;
    }

    /** Where the callback of worker `k` begins. */
    function Begin(k: nat): PC {
      if k == setup.prog.n + 1 then PC.PutBack else Push
    }

    /** src/worker.c:87-94; a worker that is still at the gate has found it closed. */
    method PassGate(k: nat, atGate: seq<Turn>, atCheck: seq<Turn>, ghost own: set<Answers>) returns (callback: bool)
      requires k <= setup.prog.n + 1 && At(k, Gate) && own != {}
      requires Theirs(setup.prog, atGate, k) && Theirs(setup.prog, atCheck, k)
      modifies this`workers, this`state, this`schedule, this`Repr, Repr
      ensures Valid() && fresh(Repr - old(Repr)) && k < |old(workers)| == |workers|
      ensures Grew(setup, old(schedule), schedule, k, InLoop, atGate + atCheck, own, Policies())
      ensures SameButFlags(old(workers)[k].(pc := workers[k].pc), workers[k])
      ensures if callback then workers[k].pc == Begin(k)
              else workers[k].pc == Gate || (workers[k].pc == Exited && workers[k].destroyed)
      ensures Machine.Turns(schedule, k) > Machine.Turns(old(schedule), k)
    {
      hide Valid, Policies, Grew, Structure, Pipe.View, Theirs, Begin;
      ghost var was := schedule;
      var open := OpenGate(k, atGate, own);
      ghost var mid := schedule;
      callback := false;
      if open {
        callback := CheckAgain(k, atCheck, own);
      } else {
        Others(k, InLoop, atCheck, own);
      }
      GrewCounts(setup, mid, schedule, k, InLoop, atCheck, own, Policies());
      GrewThenGrew(setup, was, mid, schedule, k, InLoop, atGate, atCheck, own, Policies());
    }

    /**
     One turn of the worker loop up to the callback, on the real flags; a worker that waits at the
     gate goes on from there. The result says whether the callback is to be called. A worker that is
     still at the gate has found it closed.
     */
    method Pass(k: nat, atLoop: seq<Turn>, atGate: seq<Turn>, atCheck: seq<Turn>, ghost own: set<Answers>)
      returns (callback: bool)
      requires k <= setup.prog.n + 1 && (At(k, Top) || At(k, Gate)) && own != {}
      requires Theirs(setup.prog, atLoop, k) && Theirs(setup.prog, atGate, k) && Theirs(setup.prog, atCheck, k)
      modifies this`workers, this`state, this`schedule, this`Repr, Repr
      ensures Valid() && fresh(Repr - old(Repr)) && k < |old(workers)| == |workers|
      ensures Grew(setup, old(schedule), schedule, k, InLoop, atLoop + (atGate + atCheck), own, Policies())
      ensures SameButFlags(old(workers)[k].(pc := workers[k].pc), workers[k])
      ensures if callback then workers[k].pc == Begin(k)
              else workers[k].pc == Gate || (workers[k].pc == Exited && workers[k].destroyed)
      ensures Machine.Turns(schedule, k) >=
                Machine.Turns(old(schedule), k) + if old(workers)[k].pc == Top && workers[k].pc == Gate then 2 else 1
    {
      hide Valid, Policies, Grew, Structure, Pipe.View, Theirs, Begin;
      ghost var was := schedule;
      callback := false;
      var exit := false;
      if workers[k].pc == Top {
        exit := EnterLoop(k, atLoop, own);
      } else {
        Others(k, InLoop, atLoop, own);
      }
      ghost var mid := schedule;
      GrewCounts(setup, was, mid, k, InLoop, atLoop, own, Policies());
      if exit {
        BothTheirs(setup.prog, atGate, atCheck, k);
        Others(k, InLoop, atGate + atCheck, own);
      } else {
        callback := PassGate(k, atGate, atCheck, own);
      }
      GrewCounts(setup, mid, schedule, k, InLoop, atGate + atCheck, own, Policies());
      GrewThenGrew(setup, was, mid, schedule, k, InLoop, atLoop, atGate + atCheck, own, Policies());
    }
  }

  /** The first `m` pipes get no buffers. */
  ghost predicate NothingToStore(setup: Setup, m: nat) {
    m <= |setup.buffers| && forall i | 0 <= i < m :: |setup.buffers[i]| == 0
  }

  /**
   Sizes and fills the pipes of a pipeline; false when the memory was refused. `arrays` is what the
   user gets from the library to store its buffers in.
   */
  method NewPipes(setup: Setup, policy: FifoShape.Policy, totals: seq<nat>, granted: bool)
    returns (pipes: seq<Pipe>, arrays: seq<array<Buffer>>, ok: bool)
    requires setup.Valid() && policy.Valid() && |totals| == setup.prog.n + 1
    ensures ok == (granted || NothingToStore(setup, setup.prog.n + 1))
    ensures |arrays| == |pipes|
    ensures forall i | 0 <= i < |pipes| :: pipes[i].Valid() && fresh(pipes[i].Repr) && arrays[i] == pipes[i].Array()
    ensures forall i | 0 <= i < |pipes| :: pipes[i].fifo.policy == policy
    ensures forall i, j | 0 <= i < j < |pipes| :: pipes[i].Repr !! pipes[j].Repr
    ensures ok ==>
              && |pipes| == setup.prog.n + 1
              && forall i | 0 <= i < |pipes| ::
                   pipes[i].View() == Channel.FreshPipe(setup.buffers[i], setup.contents[i])
  {
    hide Pipe.Valid, Pipe.View, Pipe.Array, Channel.FreshPipe;
    pipes, arrays, ok := [], [], true;
    while ok && |pipes| < setup.prog.n + 1
      invariant |arrays| == |pipes| <= setup.prog.n + 1
      invariant if ok then granted || NothingToStore(setup, |pipes|)
                else !granted && |pipes| > 0 && |setup.buffers[|pipes| - 1]| > 0
      invariant forall i | 0 <= i < |pipes| ::
                  pipes[i].Valid() && fresh(pipes[i].Repr) && arrays[i] == pipes[i].Array()
      invariant forall i | 0 <= i < |pipes| :: pipes[i].fifo.policy == policy
      invariant forall i, j | 0 <= i < j < |pipes| :: pipes[i].Repr !! pipes[j].Repr
      invariant ok ==> forall i | 0 <= i < |pipes| ::
                          pipes[i].View() == Channel.FreshPipe(setup.buffers[i], setup.contents[i])
      decreases ok, setup.prog.n + 1 - |pipes|
    {
      var i := |pipes|;
      var pipe, given;
      pipe, given, ok := NewPipe(policy, setup.contents[i], totals[i], setup.buffers[i], granted);
      pipes, arrays := pipes + [pipe], arrays + [given];
    }
  }
}
