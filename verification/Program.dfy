/**
 What the user supplies to a pipeline of `n` internal stages: the callbacks, as deterministic
 transducers, and the buffers of every pipe. Worker 0 is the source, workers 1 to `n` are the
 stages and worker `n + 1` is the sink; pipe `p` connects worker `p` with worker `p + 1`
 (src/pipeline.c:40-44).
 */
module Program {
  import opened Buffers

  /** The contents of a buffer. */
  type Value(==, !new)

  /** The `self` data of a callback. */
  type User(==, !new)

  /** What one call of a callback leaves in its context. */
  datatype SourceReply = SourceReply(user: User, written: Value, push: bool, finish: bool)
  datatype StageReply = StageReply(user: User, written: Value, push: bool, pull: bool)
  datatype SinkReply = SinkReply(user: User, pull: bool)

  datatype Program = Program(
    n: nat,
    self: nat -> User,
    init: (nat, User) -> User,
    source: User -> SourceReply,
    stage: (nat, User, Value) -> StageReply,
    sink: (User, Value) -> SinkReply)
  {
    /** The user data a callback is given: `init` runs once, right before the first call. */
    function Given(k: nat, user: User, calls: nat): User {
      if calls == 0 then init(k, user) else user
    }

    /** The reply to call number `calls`, counted from 0. */
    function CallSource(user: User, calls: nat): SourceReply {
      source(Given(0, user, calls))
    }

    function CallStage(k: nat, user: User, calls: nat, x: Value): StageReply {
      stage(k, Given(k, user, calls), x)
    }

    function CallSink(user: User, calls: nat, x: Value): SinkReply {
      sink(Given(n + 1, user, calls), x)
    }
  }

  /** The buffers of each pipe and what is in them when the pipeline is enabled. */
  datatype Setup = Setup(prog: Program, buffers: seq<seq<Buffer>>, contents: seq<Buffer -> Value>) {
    ghost predicate Valid() {
      && |buffers| == |contents| == prog.n + 1
      && forall p | 0 <= p <= prog.n :: Distinct(buffers[p])
    }
  }

  ghost predicate Distinct(s: seq<Buffer>) {
    forall i, j | 0 <= i < j < |s| :: s[i] != s[j]
  }

  // ------------------------------------------------------------------------------------------
  // What the callbacks compute, one after the other and without any threads
  // ------------------------------------------------------------------------------------------

  /** The outcome of the first `c` calls of the source. */
  datatype SourceRun = SourceRun(user: User, outs: seq<Value>, finished: bool)

  function RunSource(prog: Program, c: nat): SourceRun {
    if c == 0 then SourceRun(prog.self(0), [], false)
    else
      var r := RunSource(prog, c - 1);
      if r.finished then r
      else
        var reply := prog.source(prog.Given(0, r.user, c - 1));
        SourceRun(reply.user, if reply.push && !reply.finish then r.outs + [reply.written] else r.outs, reply.finish)
  }

  /** Everything the source flags for pushing in its first `c` calls, the last call included. */
  function Flagged(prog: Program, c: nat): seq<Value> {
    if c == 0 then []
    else
      var r := RunSource(prog, c - 1);
      var reply := prog.source(prog.Given(0, r.user, c - 1));
      if r.finished || !reply.push then Flagged(prog, c - 1) else Flagged(prog, c - 1) + [reply.written]
  }

  /** The call that declares the end of the stream also flags a buffer. */
  predicate FlagsWhileFinishing(prog: Program, c: nat) {
    c > 0 &&
    var r := RunSource(prog, c - 1);
    var reply := prog.source(prog.Given(0, r.user, c - 1));
    if r.finished then FlagsWhileFinishing(prog, c - 1) else reply.finish && reply.push
  }

  /** A source that flags its first buffer and declares the end in the same call. */
  function OneShot(u: User, v: Value): Program {
    Program.Program(0, k => u, (k, x) => x, x => SourceReply(x, v, true, true),
                    (k, x, y) => StageReply(x, y, true, true), (x, y) => SinkReply(x, true))
  }

  /** A source that flags an item in its first call and declares the end in its second. */
  function TwoCalls(u: User, u': User, v: Value): Program {
    Program.Program(0, k => u, (k, x) => x,
                    x => if x == u then SourceReply(u', v, true, false) else SourceReply(x, v, false, true),
                    (k, x, y) => StageReply(x, y, true, true), (x, y) => SinkReply(x, true))
  }

  /**
   The outcome of at most `c` calls of stage `k` on the inputs `xs`: `used` calls were made, and
   `next` inputs are done with.
   */
  datatype StageRun = StageRun(user: User, used: nat, next: nat, outs: seq<Value>)

  function RunStage(prog: Program, k: nat, xs: seq<Value>, c: nat): (r: StageRun)
    ensures r.next <= |xs| && r.used <= c
  {
    if c == 0 then StageRun(prog.self(k), 0, 0, [])
    else
      var r := RunStage(prog, k, xs, c - 1);
      if r.next == |xs| then r
      else
        var reply := prog.stage(k, prog.Given(k, r.user, r.used), xs[r.next]);
        StageRun(reply.user, r.used + 1, if reply.pull then r.next + 1 else r.next,
                 if reply.push then r.outs + [reply.written] else r.outs)
  }

  datatype SinkRun = SinkRun(user: User, used: nat, next: nat)

  function RunSink(prog: Program, xs: seq<Value>, c: nat): (r: SinkRun)
    ensures r.next <= |xs| && r.used <= c
  {
    if c == 0 then SinkRun(prog.self(prog.n + 1), 0, 0)
    else
      var r := RunSink(prog, xs, c - 1);
      if r.next == |xs| then r
      else
        var reply := prog.sink(prog.Given(prog.n + 1, r.user, r.used), xs[r.next]);
        SinkRun(reply.user, r.used + 1, if reply.pull then r.next + 1 else r.next)
  }

  /**
   The sequential composition: what pipe `p` carries when worker 0 is called `calls(0)` times,
   then worker 1 at most `calls(1)` times on all of that, and so on up to worker `p`.
   */
  function Stream(prog: Program, calls: nat -> nat, p: nat): seq<Value> {
    if p == 0 then RunSource(prog, calls(0)).outs
    else RunStage(prog, p, Stream(prog, calls, p - 1), calls(p)).outs
  }

  /** One more call, unless the stream has ended; what the last call flags is not among what is pushed. */
  lemma RunSourceNext(prog: Program, c: nat)
    requires !RunSource(prog, c).finished
    ensures var r := RunSource(prog, c);
            var reply := prog.source(if c == 0 then prog.init(0, r.user) else r.user);
            RunSource(prog, c + 1) ==
              SourceRun(reply.user, if reply.push && !reply.finish then r.outs + [reply.written] else r.outs,
                        reply.finish)
  {
  }

  /** One more call, when there is an input for it. */
  lemma RunStageNext(prog: Program, k: nat, xs: seq<Value>, c: nat)
    requires RunStage(prog, k, xs, c).next < |xs|
    ensures var r := RunStage(prog, k, xs, c);
            var reply := prog.stage(k, prog.Given(k, r.user, r.used), xs[r.next]);
            RunStage(prog, k, xs, c + 1) ==
              StageRun(reply.user, r.used + 1, if reply.pull then r.next + 1 else r.next,
                       if reply.push then r.outs + [reply.written] else r.outs)
  {
  }

  lemma RunSinkNext(prog: Program, xs: seq<Value>, c: nat)
    requires RunSink(prog, xs, c).next < |xs|
    ensures var r := RunSink(prog, xs, c);
            var reply := prog.sink(prog.Given(prog.n + 1, r.user, r.used), xs[r.next]);
            RunSink(prog, xs, c + 1) ==
              SinkRun(reply.user, r.used + 1, if reply.pull then r.next + 1 else r.next)
  {
  }

  /** A run whose every call found an input goes the same way when more inputs follow. */
  lemma {:induction false} RunStageExtends(prog: Program, k: nat, xs: seq<Value>, ys: seq<Value>, c: nat)
    requires xs <= ys && RunStage(prog, k, xs, c).used == c
    ensures RunStage(prog, k, ys, c) == RunStage(prog, k, xs, c)
  {
    if c > 0 {
      RunStageExtends(prog, k, xs, ys, c - 1);
    }
  }

  lemma {:induction false} RunSinkExtends(prog: Program, xs: seq<Value>, ys: seq<Value>, c: nat)
    requires xs <= ys && RunSink(prog, xs, c).used == c
    ensures RunSink(prog, ys, c) == RunSink(prog, xs, c)
  {
    if c > 0 {
      RunSinkExtends(prog, xs, ys, c - 1);
    }
  }

  // ------------------------------------------------------------------------------------------
  // When `init` runs
  // ------------------------------------------------------------------------------------------

  /** The same callbacks on user data that have been initialized beforehand; `init` does nothing any more. */
  function Prepared(prog: Program): Program {
    prog.(self := (k: nat) => prog.init(k, prog.self(k)), init := (k: nat, user: User) => user)
  }

  /**
   `init` runs once, before the first call: from the first call on a run is one of the same callbacks
   on user data initialized beforehand.
   */
  lemma {:induction false} SourceInitRunsOnce(prog: Program, c: nat)
    ensures RunSource(Prepared(prog), c).outs == RunSource(prog, c).outs
    ensures c > 0 ==> RunSource(Prepared(prog), c) == RunSource(prog, c)
  {
    if c > 1 {
      SourceInitRunsOnce(prog, c - 1);
    } else if c == 1 {
      assert RunSource(prog, 0) == SourceRun(prog.self(0), [], false);
      assert RunSource(Prepared(prog), 0) == SourceRun(prog.init(0, prog.self(0)), [], false);
    }
  }

  lemma {:induction false} StageInitRunsOnce(prog: Program, k: nat, xs: seq<Value>, c: nat)
    ensures var r, r' := RunStage(prog, k, xs, c), RunStage(Prepared(prog), k, xs, c);
            && r'.outs == r.outs && r'.used == r.used && r'.next == r.next
            && r'.user == if r.used > 0 then r.user else prog.init(k, prog.self(k))
  {
    if c > 0 {
      StageInitRunsOnce(prog, k, xs, c - 1);
    }
  }

  lemma {:induction false} SinkInitRunsOnce(prog: Program, xs: seq<Value>, c: nat)
    ensures var r, r' := RunSink(prog, xs, c), RunSink(Prepared(prog), xs, c);
            && r'.used == r.used && r'.next == r.next
            && r'.user == if r.used > 0 then r.user else prog.init(prog.n + 1, prog.self(prog.n + 1))
  {
    if c > 0 {
      SinkInitRunsOnce(prog, xs, c - 1);
    }
  }

  /** So what the pipes carry is what the callbacks make of user data initialized beforehand. */
  lemma {:induction false} StreamIsPrepared(prog: Program, calls: nat -> nat, p: nat)
    ensures Stream(Prepared(prog), calls, p) == Stream(prog, calls, p)
  {
    if p == 0 {
      SourceInitRunsOnce(prog, calls(0));
    } else {
      StreamIsPrepared(prog, calls, p - 1);
      StageInitRunsOnce(prog, p, Stream(prog, calls, p - 1), calls(p));
    }
  }
}
