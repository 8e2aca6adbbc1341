/**
 The pipeline as a transition system. Each step of a worker is one critical section, one
 semaphore operation, one callback, or one group of writes to its own context, which no other
 thread reads. Any worker may step next; the user may enable, disable or destroy any worker at
 any time.
 */
module Machine {
  import opened Buffers
  import opened Channel
  import opened Program

  datatype PC =
    | Top      // src/worker.c:86, about to read `destroyed`
    | Gate     // src/worker.c:88, waiting until enabled or destroyed
    | Recheck  // src/worker.c:92, about to read `destroyed` again
    | Exited
    | Push     // src/stage.c:87, src/source.c:41
    | Post     // pushed, the semaphore is still to be released: src/stage.c:89, src/source.c:42
    | ResetOut // released, `output` still names the pushed buffer: src/stage.c:90, src/source.c:43
    | Acquire  // src/stage.c:99, src/sink.c:61
    | Pull     // acquired, the buffer is still to be popped: src/stage.c:122, src/sink.c:74
    | Reput    // popped nothing: src/stage.c:124, src/sink.c:76
    | Take     // src/stage.c:130, src/source.c:53
    | Call     // src/stage.c:134, src/source.c:57, src/sink.c:82
    | PutBack  // src/stage.c:143, src/sink.c:41
    | ResetIn  // put back, `input` still names the buffer: src/stage.c:144, src/sink.c:44

  datatype Worker = Worker(
    pc: PC,
    enabled: bool,
    destroyed: bool,
    input: Option<Buffer>,
    output: Option<Buffer>,
    readyToPull: bool,
    readyToPush: bool,
    user: User,
    calls: nat) // callbacks so far; `initialized` is `calls > 0`

  /** A worker whose thread has just been created (src/stage.c:157-167). */
  function FreshWorker(prog: Program, k: nat): Worker {
    Worker(Top, false, false, None, None, k > 0, false, prog.self(k), 0)
  }

  datatype State = State(workers: seq<Worker>, pipes: seq<Pipe>)

  function Init(setup: Setup): State
    requires |setup.buffers| == |setup.contents|
  {
    State(seq(setup.prog.n + 2, k requires 0 <= k => FreshWorker(setup.prog, k)),
          seq(|setup.buffers|, p requires 0 <= p < |setup.buffers| => FreshPipe(setup.buffers[p], setup.contents[p])))
  }

  // ------------------------------------------------------------------------------------------
  // The worker loop, src/worker.c:86-96
  // ------------------------------------------------------------------------------------------

  predicate AtLoop(pc: PC) {
    pc == Top || pc == Gate || pc == Recheck || pc == Exited
  }

  /** `start` is where the callback of this worker begins. */
  function LoopStep(w: Worker, start: PC): Worker {
    match w.pc
    case Top => w.(pc := if w.destroyed then Exited else Gate)
    case Gate => if w.enabled || w.destroyed then w.(pc := Recheck) else w
    case Recheck => w.(pc := if w.destroyed then Exited else start)
    case _ => w
  }

  // ------------------------------------------------------------------------------------------
  // Steps on the output pipe
  // ------------------------------------------------------------------------------------------

  /** `skip` is where the routine goes on when there is nothing to push. */
  function PushStep(w: Worker, out: Pipe, skip: PC, ok: bool): (Worker, Pipe) {
    if !w.readyToPush || w.output == None then (w.(pc := skip), out)
    else if ok then (w.(pc := Post), Channel.PushBuffer(out, w.output.value))
    else (w.(pc := Top), out)
  }

  function PostStep(w: Worker, out: Pipe): (Worker, Pipe) {
    (w.(pc := ResetOut), out.(permits := out.permits + 1))
  }

  function ResetOutStep(w: Worker, skip: PC): Worker {
    w.(pc := skip, output := None, readyToPush := false)
  }

  function TakeStep(w: Worker, out: Pipe): (Worker, Pipe) {
    if w.output != None then (w.(pc := Call), out)
    else (w.(pc := Call, output := EmptyBuffer(out)), GetEmptyBuffer(out))
  }

  // ------------------------------------------------------------------------------------------
  // Steps on the input pipe
  // ------------------------------------------------------------------------------------------

  /** `skip` is where the routine goes on when no input is asked for. */
  function AcquireStep(w: Worker, inp: Pipe, skip: PC, ok: bool): (Worker, Pipe) {
    if !w.readyToPull then (w.(pc := skip), inp)
    else if ok && inp.permits > 0 then (w.(pc := Pull), inp.(permits := inp.permits - 1))
    else (w.(pc := Top), inp)
  }

  function PullStep(w: Worker, inp: Pipe, next: PC): (Worker, Pipe) {
    match FullBuffer(inp)
    case None => (w.(pc := Reput, input := None), inp)
    case Some(b) => (w.(pc := next, input := Some(b), readyToPull := false), GetFullBuffer(inp))
  }

  function ReputStep(w: Worker, inp: Pipe): (Worker, Pipe) {
    (w.(pc := Top), inp.(permits := inp.permits + 1))
  }

  function ResetInStep(w: Worker, next: PC): Worker {
    w.(pc := next, input := None)
  }

  // ------------------------------------------------------------------------------------------
  // The three routines
  // ------------------------------------------------------------------------------------------

  /** One step of `mtdp_source_routine`, src/source.c:36-70. */
  function SourceStep(prog: Program, w: Worker, out: Pipe, ok: bool): (Worker, Pipe) {
    match w.pc
    case Push => PushStep(w, out, Take, ok)
    case Post => PostStep(w, out)
    case ResetOut => (ResetOutStep(w, Take), out)
    case Take => TakeStep(w, out)
    case Call =>
      if w.output == None then (w.(pc := Top), out)
      else
        var r := prog.source(prog.Given(0, w.user, w.calls));
        (w.(pc := Top, user := r.user, calls := w.calls + 1, readyToPush := r.push,
            destroyed := w.destroyed || r.finish),
         out.(mem := Store(out.mem, w.output.value, r.written)))
    case _ => (LoopStep(w, Push), out)
  }

  /** One step of `mtdp_stage_routine` of stage `k`, src/stage.c:82-155. */
  function StageStep(prog: Program, k: nat, w: Worker, inp: Pipe, out: Pipe, ok: bool): (Worker, Pipe, Pipe) {
    match w.pc
    case Push => var (w', out') := PushStep(w, out, Acquire, ok); (w', inp, out')
    case Post => var (w', out') := PostStep(w, out); (w', inp, out')
    case ResetOut => (ResetOutStep(w, Acquire), inp, out)
    case Acquire => var (w', inp') := AcquireStep(w, inp, Take, ok); (w', inp', out)
    case Pull => var (w', inp') := PullStep(w, inp, Take); (w', inp', out)
    case Reput => var (w', inp') := ReputStep(w, inp); (w', inp', out)
    case Take =>
      if w.input == None then (w.(pc := Top, readyToPull := true), inp, out)
      else var (w', out') := TakeStep(w, out); (w', inp, out')
    case Call =>
      if w.output == None || w.input == None then (w.(pc := Top), inp, out)
      else
        var r := prog.stage(k, prog.Given(k, w.user, w.calls), inp.mem(w.input.value));
        (w.(pc := if r.pull then PutBack else Top, user := r.user, calls := w.calls + 1,
            readyToPush := r.push, readyToPull := r.pull),
         inp,
         out.(mem := Store(out.mem, w.output.value, r.written)))
    case PutBack =>
      // The result of the put-back is ignored.
      if w.input == None then (w.(pc := ResetIn), inp, out)
      else (w.(pc := ResetIn), Channel.PutBack(inp, w.input.value, ok), out)
    case ResetIn => (ResetInStep(w, Top), inp, out)
    case _ => (LoopStep(w, Push), inp, out)
  }

  /** One step of `mtdp_sink_routine`, src/sink.c:36-96. */
  function SinkStep(prog: Program, w: Worker, inp: Pipe, ok: bool): (Worker, Pipe) {
    match w.pc
    case PutBack =>
      if !w.readyToPull || w.input == None then (w.(pc := Acquire), inp)
      else if CanPutBack(inp, ok) then (w.(pc := ResetIn), Channel.PutBack(inp, w.input.value, ok))
      else (w.(pc := Top), inp)
    case ResetIn => (ResetInStep(w, Acquire), inp)
    case Acquire => AcquireStep(w, inp, Call, ok)
    case Pull => PullStep(w, inp, Call)
    case Reput => ReputStep(w, inp)
    case Call =>
      if w.input == None then (w.(pc := Top, readyToPull := true), inp)
      else
        var r := prog.sink(prog.Given(prog.n + 1, w.user, w.calls), inp.mem(w.input.value));
        (w.(pc := Top, user := r.user, calls := w.calls + 1, readyToPull := r.pull), inp)
    case _ => (LoopStep(w, PutBack), inp)
  }

  // ------------------------------------------------------------------------------------------
  // The whole pipeline
  // ------------------------------------------------------------------------------------------

  /**
   `Work(k, ok)` is one step of worker `k`. The flag answers what the step may ask: whether the
   allocator grants the memory, or whether the semaphore is waited for undisturbed. A worker
   that is blocked, or has exited, stays where it is.
   */
  datatype Action =
    | Work(k: nat, ok: bool)
    | SetEnabled(k: nat, on: bool)
    | SetDestroyed(k: nat)

  ghost predicate Shaped(prog: Program, s: State) {
    |s.workers| == prog.n + 2 && |s.pipes| == prog.n + 1
  }

  function Step(prog: Program, s: State, a: Action): (s': State)
    requires Shaped(prog, s)
    ensures Shaped(prog, s')
  {
    if a.k > prog.n + 1 then s
    else
      var k, w := a.k, s.workers[a.k];
      match a
      case SetEnabled(_, on) => s.(workers := s.workers[k := w.(enabled := on)])
      case SetDestroyed(_) => s.(workers := s.workers[k := w.(destroyed := true)])
      case Work(_, ok) =>
        if k == 0 then
          var (w', out) := SourceStep(prog, w, s.pipes[0], ok);
          State(s.workers[k := w'], s.pipes[0 := out])
        else if k == prog.n + 1 then
          var (w', inp) := SinkStep(prog, w, s.pipes[k - 1], ok);
          State(s.workers[k := w'], s.pipes[k - 1 := inp])
        else
          var (w', inp, out) := StageStep(prog, k, w, s.pipes[k - 1], s.pipes[k], ok);
          State(s.workers[k := w'], s.pipes[k - 1 := inp][k := out])
  }

  /** The state after a schedule: any sequence of actions whatever. */
  function Exec(prog: Program, s: State, acts: seq<Action>): (s': State)
    requires Shaped(prog, s)
    ensures Shaped(prog, s')
  {
    if |acts| == 0 then s else Step(prog, Exec(prog, s, acts[..|acts| - 1]), acts[|acts| - 1])
  }

  /** How many actions of the schedule are steps of worker `k`. */
  function Turns(acts: seq<Action>, k: nat): nat {
    if |acts| == 0 then 0
    else Turns(acts[..|acts| - 1], k) + if acts[|acts| - 1].Work? && acts[|acts| - 1].k == k then 1 else 0
  }
}
