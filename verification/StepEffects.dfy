/** What the step of each critical section comes to, and what its thread finds there. */
module StepEffects {
  import opened Buffers
  import opened Program
  import opened Machine
  import opened Invariant
  import opened Reachable
  import opened Safety
  import opened Turns
  import Channel

  /** The state after a step that changes worker `k` and, if it has one, its pipe on the right or left. */
  ghost predicate Becomes(prog: Program, s: State, k: nat, ok: bool, w: Worker, pipes: seq<Channel.Pipe>)
    requires Shaped(prog, s) && k <= prog.n + 1
  {
    Step(prog, s, Work(k, ok)) == State(s.workers[k := w], pipes)
  }

  lemma PushIs(prog: Program, s: State, k: nat, ok: bool)
    requires Shaped(prog, s) && k <= prog.n
    requires var w := s.workers[k]; w.pc == Push && w.readyToPush && w.output.Some?
    ensures var w, q := s.workers[k], s.pipes[k];
            Becomes(prog, s, k, ok, w.(pc := if ok then Post else Top),
                    s.pipes[k := if ok then Channel.PushBuffer(q, w.output.value) else q])
  {
  }

  function OneMorePermit(q: Channel.Pipe): Channel.Pipe {
    q.(permits := q.permits + 1)
  }

  lemma PostIs(prog: Program, s: State, k: nat)
    requires Shaped(prog, s) && k <= prog.n && s.workers[k].pc == Post
    ensures Becomes(prog, s, k, true, s.workers[k].(pc := ResetOut),
                    s.pipes[k := OneMorePermit(s.pipes[k])])
  {
  }

  lemma TakeIs(prog: Program, s: State, k: nat)
    requires Shaped(prog, s) && k <= prog.n
    requires var w := s.workers[k]; w.pc == Take && w.output == None && (k == 0 || w.input.Some?)
    ensures var q := s.pipes[k];
            Becomes(prog, s, k, true, s.workers[k].(pc := PC.Call, output := Channel.EmptyBuffer(q)),
                    s.pipes[k := Channel.GetEmptyBuffer(q)])
  {
  }

  lemma AcquireIs(prog: Program, s: State, k: nat, ok: bool)
    requires Shaped(prog, s) && 0 < k <= prog.n + 1
    requires s.workers[k].pc == PC.Acquire && s.workers[k].readyToPull
    ensures var w, q := s.workers[k], s.pipes[k - 1];
            var got := ok && q.permits > 0;
            Becomes(prog, s, k, ok, w.(pc := if got then Pull else Top),
                    s.pipes[k - 1 := if got then q.(permits := q.permits - 1) else q])
  {
  }

  /** The context after a pop. */
  function Pulled(prog: Program, k: nat, w: Worker, b: Option<Buffer>): Worker {
    w.(pc := if k == prog.n + 1 then PC.Call else Take, input := b, readyToPull := false)
  }

  lemma PullIs(prog: Program, s: State, k: nat)
    requires Shaped(prog, s) && 0 < k <= prog.n + 1
    requires s.workers[k].pc == Pull && |s.pipes[k - 1].fifo| > 0
    ensures var w, q := s.workers[k], s.pipes[k - 1];
            Becomes(prog, s, k, true,
                    Pulled(prog, k, w, Channel.FullBuffer(q)),
                    s.pipes[k - 1 := Channel.GetFullBuffer(q)])
  {
  }

  lemma PutBackIs(prog: Program, s: State, k: nat, ok: bool)
    requires Shaped(prog, s) && 0 < k <= prog.n + 1
    requires var w := s.workers[k]; w.pc == PutBack && w.input.Some? && w.readyToPull
    requires Channel.CanPutBack(s.pipes[k - 1], ok)
    ensures var w, q := s.workers[k], s.pipes[k - 1];
            Becomes(prog, s, k, ok, w.(pc := ResetIn), s.pipes[k - 1 := Channel.PutBack(q, w.input.value, ok)])
  {
  }

  /** The context after a callback. */
  function SourceReplied(w: Worker, r: SourceReply): (w': Worker)
    ensures w'.enabled == w.enabled && w'.destroyed == (w.destroyed || r.finish)
  {
    w.(pc := Top, user := r.user, calls := w.calls + 1, readyToPush := r.push, destroyed := w.destroyed || r.finish)
  }

  function StageReplied(w: Worker, r: StageReply): (w': Worker)
    ensures w'.enabled == w.enabled && w'.destroyed == w.destroyed
  {
    w.(pc := if r.pull then PC.PutBack else Top, user := r.user, calls := w.calls + 1, readyToPush := r.push,
       readyToPull := r.pull)
  }

  function SinkReplied(w: Worker, r: SinkReply): (w': Worker)
    ensures w'.enabled == w.enabled && w'.destroyed == w.destroyed
  {
    w.(pc := Top, user := r.user, calls := w.calls + 1, readyToPull := r.pull)
  }

  lemma SourceCallIs(prog: Program, s: State)
    requires Shaped(prog, s) && s.workers[0].pc == PC.Call && s.workers[0].output.Some?
    ensures var w, q := s.workers[0], s.pipes[0];
            var r := prog.CallSource(w.user, w.calls);
            Becomes(prog, s, 0, true, SourceReplied(w, r),
                    s.pipes[0 := q.(mem := Channel.Store(q.mem, w.output.value, r.written))])
  {
  }

  lemma StageCallIs(prog: Program, s: State, k: nat)
    requires Shaped(prog, s) && 0 < k <= prog.n
    requires s.workers[k].pc == PC.Call && s.workers[k].input.Some? && s.workers[k].output.Some?
    ensures var w, q := s.workers[k], s.pipes[k];
            var r := prog.CallStage(k, w.user, w.calls, s.pipes[k - 1].mem(w.input.value));
            Becomes(prog, s, k, true, StageReplied(w, r),
                    s.pipes[k := q.(mem := Channel.Store(q.mem, w.output.value, r.written))])
  {
  }

  lemma SinkCallIs(prog: Program, s: State)
    requires Shaped(prog, s) && s.workers[prog.n + 1].pc == PC.Call && s.workers[prog.n + 1].input.Some?
    ensures var w := s.workers[prog.n + 1];
            var r := prog.CallSink(w.user, w.calls, s.pipes[prog.n].mem(w.input.value));
            Becomes(prog, s, prog.n + 1, true, SinkReplied(w, r), s.pipes)
  {
  }

  /** A step that only concerns the context of its worker; one that waits or has exited stays as it is. */
  function OwnStep(prog: Program, k: nat, w: Worker): Option<Worker> {
    var isSink := k == prog.n + 1;
    match w.pc
    case Push => if w.readyToPush then None else Some(w.(pc := if k == 0 then Take else PC.Acquire))
    case ResetOut => Some(w.(pc := if k == 0 then Take else PC.Acquire, output := None, readyToPush := false))
    case Acquire => if w.readyToPull then None else Some(w.(pc := if isSink then PC.Call else Take))
    case Take =>
      if k > 0 && w.input == None then Some(w.(pc := Top, readyToPull := true))
      else if w.output == None then None
      else Some(w.(pc := PC.Call))
    case Call =>
      if isSink then if w.input == None then Some(w.(pc := Top, readyToPull := true)) else None
      else if w.output == None then Some(w.(pc := Top)) else None
    case PutBack => if isSink && (!w.readyToPull || w.input == None) then Some(w.(pc := PC.Acquire)) else None
    case ResetIn => Some(w.(pc := if isSink then PC.Acquire else Top, input := None))
    case Top => Some(w.(pc := if w.destroyed then Exited else Gate))
    case Gate => Some(if w.enabled || w.destroyed then w.(pc := Recheck) else w)
    case Exited => Some(w)
    case Recheck => Some(w.(pc := if w.destroyed then Exited else if isSink then PutBack else Push))
    case _ => None
  }

  /** The program counters at which worker `k` can be. */
  predicate Place(prog: Program, k: nat, pc: PC) {
    AtLoop(pc) ||
    if k == 0 then pc in {Push, Post, ResetOut, Take, PC.Call}
    else if k == prog.n + 1 then pc in {PutBack, ResetIn, PC.Acquire, Pull, PC.Call}
    else pc != Reput
  }

  /** A step that only concerns its own context asks for nothing. */
  lemma OwnStepIsDecided(prog: Program, policies: seq<Policy>, s: State, k: nat, x: Answers)
    requires k < |s.workers| && OwnStep(prog, k, s.workers[k]).Some?
    ensures Decided(policies, s, k, true, x)
  {
  }

  lemma OwnStepIs(prog: Program, s: State, k: nat)
    requires Shaped(prog, s) && k <= prog.n + 1 && Place(prog, k, s.workers[k].pc)
    requires OwnStep(prog, k, s.workers[k]).Some?
    ensures Becomes(prog, s, k, true, OwnStep(prog, k, s.workers[k]).value, s.pipes)
  {
  }

  // ------------------------------------------------------------------------------------------
  // What a thread finds at its place
  // ------------------------------------------------------------------------------------------

  lemma PermitMeansBuffer(setup: Setup, acts: seq<Action>, s: State, k: nat)
    requires Traces(setup, acts, s) && Shaped(setup.prog, s)
    requires 0 < k <= setup.prog.n + 1 && s.workers[k].pc == Pull
    ensures |s.pipes[k - 1].fifo| > 0
  {
    hide Traces;
    TracedIsReachable(setup, acts, s);
    SemaphoreLedger(setup, s, k - 1);
  }

  /** No flag is set, every context is empty, and only the source does not ask for an input. */
  lemma InitialContexts(setup: Setup)
    requires |setup.buffers| == |setup.contents|
    ensures var workers := Init(setup).workers;
            |workers| == setup.prog.n + 2
            && forall k | 0 <= k < |workers| ::
                 var w := workers[k];
                 && !w.enabled && !w.destroyed && w.input == None && w.output == None
                 && w.readyToPull == (k > 0) && !w.readyToPush && w.user == setup.prog.self(k) && w.calls == 0
  {
  }

  lemma InitialPipes(setup: Setup)
    requires setup.Valid()
    ensures Shaped(setup.prog, Init(setup))
    ensures forall p | 0 <= p <= setup.prog.n ::
              Init(setup).pipes[p] == Channel.FreshPipe(setup.buffers[p], setup.contents[p])
  {
  }

  /** Where a worker can be, and what its context holds there. */
  lemma ContextFacts(setup: Setup, acts: seq<Action>, s: State, k: nat)
    requires Traces(setup, acts, s) && Shaped(setup.prog, s) && k <= setup.prog.n + 1
    ensures var w := s.workers[k];
            && Place(setup.prog, k, w.pc)
            && (k <= setup.prog.n && w.readyToPush ==> w.output.Some?)
            && (0 < k <= setup.prog.n && w.pc == PC.Call ==> w.input.Some?)
            && (0 < k <= setup.prog.n && w.pc == PC.PutBack ==> w.readyToPull && w.input.Some?)
  {
    hide Traces, RunSource, RunStage, RunSink, Inv;
    TracedIsReachable(setup, acts, s);
    ReachableInv(setup, s);
    WorkerHolds(setup, s, k);
  }

  lemma RoomToReturn(setup: Setup, acts: seq<Action>, s: State, k: nat)
    requires Traces(setup, acts, s) && Shaped(setup.prog, s)
    requires 0 < k <= setup.prog.n + 1
    requires s.workers[k].pc == PC.PutBack && s.workers[k].readyToPull && s.workers[k].input.Some?
    ensures |s.pipes[k - 1].pool| < s.pipes[k - 1].capacity
  {
    hide Traces;
    TracedIsReachable(setup, acts, s);
    PutBackNeverFails(setup, s, k);
  }

  lemma TracedHere(setup: Setup, acts: seq<Action>)
    requires setup.Valid()
    ensures Traces(setup, acts, Exec(setup.prog, Init(setup), acts))
  {
  }

  /** With memory granted and waits left alone, no step of a worker whose deque asks for memory is refused. */
  lemma NothingRefused(setup: Setup, x: seq<Action>, y: seq<Action>, k: nat, part: Part, others: seq<Turn>,
                       own: set<Answers>, policies: seq<Policy>, i: nat)
    requires Grew(setup, x, y, k, part, others, own, policies) && |x| <= i < |y| && Own(y[i], k)
    requires (forall a | a in own :: a.Generous()) && (k <= setup.prog.n ==> AsksWhenFull(policies, k))
    ensures y[i].ok
  {
    hide Step, Exec, Traces;
    var s := Exec(setup.prog, Init(setup), y[..i]);
    TracedHere(setup, y[..i]);
    ContextFacts(setup, y[..i], s, k);
    OwnStepsAreDecided(setup, x, y, k, part, others, own, policies, i);
  }

  /** The same for the turns of others. */
  lemma GenerousTurnIsGranted(setup: Setup, before: seq<Action>, turns: seq<Turn>, acts: seq<Action>,
                              policies: seq<Policy>, i: nat)
    requires Took(setup, before, turns, acts, policies) && i < |turns| && turns[i].Go?
    requires turns[i].answers.Generous() && turns[i].k <= setup.prog.n + 1
    requires turns[i].k <= setup.prog.n ==> AsksWhenFull(policies, turns[i].k)
    ensures acts[i] == Work(turns[i].k, true)
  {
    hide Step, Exec, Traces;
    assert RecordedAt(setup, before, turns, acts, policies, i);
    var s := Exec(setup.prog, Init(setup), before + acts[..i]);
    TracedHere(setup, before + acts[..i]);
    ContextFacts(setup, before + acts[..i], s, turns[i].k);
  }
}
