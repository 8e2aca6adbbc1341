/**
 The three routines once more, each as one function in the order of its statements (src/source.c:36-70,
 src/stage.c:82-155, src/sink.c:36-96). A thread that is left alone from the first line of its routine to
 the return does in its single steps just what the function says.
 */
module Rounds {
  import opened Buffers
  import opened Channel
  import opened Program
  import opened Machine

  // ------------------------------------------------------------------------------------------
  // The parts
  // ------------------------------------------------------------------------------------------

  /** The flagged buffer has been pushed and its permit released. */
  function PushPart(w: Worker, out: Pipe): (Worker, Pipe)
    requires w.readyToPush ==> w.output.Some?
  {
    if w.readyToPush then
      (w.(output := None, readyToPush := false),
       out.(fifo := out.fifo + [w.output.value], sent := out.sent + [out.mem(w.output.value)],
            permits := out.permits + 1))
    else (w, out)
  }

  /** An empty buffer has been taken unless there was one. */
  function TakePart(w: Worker, out: Pipe): (Worker, Pipe) {
    if w.output.Some? || |out.pool| == 0 then (w, out)
    else
      var last := |out.pool| - 1;
      (w.(output := Some(out.pool[last])), out.(pool := out.pool[..last]))
  }

  // ------------------------------------------------------------------------------------------
  // The source
  // ------------------------------------------------------------------------------------------

  function SourceRoutine(prog: Program, w: Worker, out: Pipe, pushed: bool): (Worker, Pipe)
    requires w.readyToPush ==> w.output.Some?
  {
    if w.readyToPush && !pushed then (w, out)
    else
      var (w1, out1) := PushPart(w, out);
      var (w2, out2) := TakePart(w1, out1);
      if w2.output == None then (w2, out2)
      else
        var r := prog.source(if w.calls == 0 then prog.init(0, w.user) else w.user);
        (w2.(user := r.user, calls := w.calls + 1, readyToPush := r.push, destroyed := w.destroyed || r.finish),
         out2.(mem := Store(out2.mem, w2.output.value, r.written)))
  }

  /** The steps of the source until its routine returns, at most `m` of them. */
  function SourceAlone(prog: Program, w: Worker, out: Pipe, pushed: bool, m: nat): (Worker, Pipe)
    decreases m
  {
    if m == 0 || w.pc == Top then (w, out)
    else
      var (w', out') := SourceStep(prog, w, out, w.pc == Push ==> pushed);
      SourceAlone(prog, w', out', pushed, m - 1)
  }

  lemma SourceGoesOn(prog: Program, w: Worker, out: Pipe, pushed: bool, m: nat)
    requires m > 0 && w.pc != Top
    ensures var (w', out') := SourceStep(prog, w, out, w.pc == Push ==> pushed);
            && SourceAlone(prog, w, out, pushed, m) == SourceAlone(prog, w', out', pushed, m - 1)
            && (w'.pc == Top ==> SourceAlone(prog, w, out, pushed, m) == (w', out'))
  {
    hide SourceStep;
  }

  lemma SourceFromTake(prog: Program, w: Worker, out: Pipe, pushed: bool, m: nat)
    requires w.pc == Take && m >= 2 && !w.readyToPush
    ensures SourceAlone(prog, w, out, pushed, m) == SourceRoutine(prog, w.(pc := Top), out, pushed)
  {
    hide SourceAlone;
    SourceGoesOn(prog, w, out, pushed, m);
    var (w1, out1) := SourceStep(prog, w, out, true);
    SourceGoesOn(prog, w1, out1, pushed, m - 1);
  }

  /** From its first line to its return the source does what the function says. */
  lemma SourceRoundIsRoutine(prog: Program, w: Worker, out: Pipe, pushed: bool)
    requires w.pc == Push && (w.readyToPush ==> w.output.Some?)
    ensures SourceAlone(prog, w, out, pushed, 5) == SourceRoutine(prog, w.(pc := Top), out, pushed)
  {
    hide SourceAlone, TakePart;
    SourceGoesOn(prog, w, out, pushed, 5);
    var (w1, out1) := SourceStep(prog, w, out, pushed);
    if w.readyToPush && pushed {
      SourceGoesOn(prog, w1, out1, pushed, 4);
      var (w2, out2) := SourceStep(prog, w1, out1, true);
      SourceGoesOn(prog, w2, out2, pushed, 3);
      var (w3, out3) := SourceStep(prog, w2, out2, true);
      SourceFromTake(prog, w3, out3, pushed, 2);
    } else if !w.readyToPush {
      SourceFromTake(prog, w1, out1, pushed, 4);
    }
  }

  // ------------------------------------------------------------------------------------------
  // A stage
  // ------------------------------------------------------------------------------------------

  function StageCallPart(prog: Program, k: nat, w: Worker, inp: Pipe, out: Pipe, granted: bool): (Worker, Pipe, Pipe) {
    if w.input == None then (w.(readyToPull := true), inp, out)
    else
      var (w1, out1) := TakePart(w, out);
      if w1.output == None then (w1, inp, out1)
      else
        var r := prog.stage(k, if w.calls == 0 then prog.init(k, w.user) else w.user, inp.mem(w.input.value));
        (w1.(user := r.user, calls := w.calls + 1, readyToPush := r.push, readyToPull := r.pull,
             input := if r.pull then None else w.input),
         if r.pull then Channel.PutBack(inp, w.input.value, granted) else inp,
         out1.(mem := Store(out1.mem, w1.output.value, r.written)))
  }

  function StageRoutine(prog: Program, k: nat, w: Worker, inp: Pipe, out: Pipe, pushed: bool, undisturbed: bool,
                        granted: bool): (Worker, Pipe, Pipe)
    requires w.readyToPush ==> w.output.Some?
  {
    if w.readyToPush && !pushed then (w, inp, out)
    else
      var (w1, out1) := PushPart(w, out);
      if !w.readyToPull then StageCallPart(prog, k, w1, inp, out1, granted)
      else if !undisturbed || inp.permits == 0 then (w1, inp, out1)
      else if |inp.fifo| == 0 then (w1.(input := None), inp, out1)
      else
        var inp1 := inp.(permits := inp.permits - 1, fifo := inp.fifo[1..],
                         received := inp.received + [inp.mem(inp.fifo[0])]);
        StageCallPart(prog, k, w1.(input := Some(inp.fifo[0]), readyToPull := false), inp1, out1, granted)
  }

  /** What each step asks is answered by these three flags. */
  function StageAlone(prog: Program, k: nat, w: Worker, inp: Pipe, out: Pipe, pushed: bool, undisturbed: bool,
                      granted: bool, m: nat): (Worker, Pipe, Pipe)
    decreases m
  {
    if m == 0 || w.pc == Top then (w, inp, out)
    else
      var (w', inp', out') := StageStep(prog, k, w, inp, out, Answer(w.pc, pushed, undisturbed, granted));
      StageAlone(prog, k, w', inp', out', pushed, undisturbed, granted, m - 1)
  }

  function Answer(pc: PC, pushed: bool, undisturbed: bool, granted: bool): bool {
    match pc
    case Push => pushed
    case Acquire => undisturbed
    case PutBack => granted
    case _ => true
  }

  lemma StageGoesOn(prog: Program, k: nat, w: Worker, inp: Pipe, out: Pipe, pushed: bool, undisturbed: bool,
                    granted: bool, m: nat)
    requires m > 0 && w.pc != Top
    ensures var (w', inp', out') := StageStep(prog, k, w, inp, out, Answer(w.pc, pushed, undisturbed, granted));
            var all := StageAlone(prog, k, w, inp, out, pushed, undisturbed, granted, m);
            && all == StageAlone(prog, k, w', inp', out', pushed, undisturbed, granted, m - 1)
            && (w'.pc == Top ==> all == (w', inp', out'))
  {
    hide StageStep;
  }

  lemma StageFromCall(prog: Program, k: nat, w: Worker, inp: Pipe, out: Pipe, pushed: bool, undisturbed: bool,
                      granted: bool, m: nat)
    requires w.pc == PC.Call && m >= 3 && w.input.Some? && w.output.Some?
    ensures StageAlone(prog, k, w, inp, out, pushed, undisturbed, granted, m) ==
              StageCallPart(prog, k, w.(pc := Top), inp, out, granted)
  {
    hide StageAlone, Channel.PutBack, PushStep, PostStep, AcquireStep, PullStep, ReputStep, TakeStep, LoopStep, Store;
    StageGoesOn(prog, k, w, inp, out, pushed, undisturbed, granted, m);
    var (w1, inp1, out1) := StageStep(prog, k, w, inp, out, true);
    if w1.pc == PutBack {
      StageGoesOn(prog, k, w1, inp1, out1, pushed, undisturbed, granted, m - 1);
      var (w2, inp2, out2) := StageStep(prog, k, w1, inp1, out1, granted);
      StageGoesOn(prog, k, w2, inp2, out2, pushed, undisturbed, granted, m - 2);
    }
  }

  lemma StageFromTake(prog: Program, k: nat, w: Worker, inp: Pipe, out: Pipe, pushed: bool, undisturbed: bool,
                      granted: bool, m: nat)
    requires w.pc == Take && m >= 4
    ensures StageAlone(prog, k, w, inp, out, pushed, undisturbed, granted, m) ==
              StageCallPart(prog, k, w.(pc := Top), inp, out, granted)
  {
    hide StageAlone, StageCallPart, PushStep, PostStep, AcquireStep, PullStep, ReputStep, LoopStep;
    StageGoesOn(prog, k, w, inp, out, pushed, undisturbed, granted, m);
    CallPartWithoutInput(prog, k, w.(pc := Top), inp, out, granted);
    if w.input.Some? {
      var (w1, inp1, out1) := StageStep(prog, k, w, inp, out, true);
      TakenAlready(prog, k, w.(pc := Top), inp, out, granted);
      if w1.output.Some? {
        StageFromCall(prog, k, w1, inp1, out1, pushed, undisturbed, granted, m - 1);
      } else {
        StageGoesOn(prog, k, w1, inp1, out1, pushed, undisturbed, granted, m - 1);
      }
    }
  }

  lemma CallPartWithoutInput(prog: Program, k: nat, w: Worker, inp: Pipe, out: Pipe, granted: bool)
    ensures w.input == None ==>
              StageCallPart(prog, k, w, inp, out, granted) == (w.(readyToPull := true), inp, out)
  {
  }

  lemma TakenAlready(prog: Program, k: nat, w: Worker, inp: Pipe, out: Pipe, granted: bool)
    requires w.input.Some?
    ensures var (w1, out1) := TakePart(w, out);
            StageCallPart(prog, k, w, inp, out, granted) ==
              if w1.output.Some? then StageCallPart(prog, k, w1, inp, out1, granted) else (w1, inp, out1)
  {
    hide Channel.PutBack;
  }

  lemma StageFromAcquire(prog: Program, k: nat, w: Worker, inp: Pipe, out: Pipe, pushed: bool, undisturbed: bool,
                         granted: bool, m: nat)
    requires w.pc == Acquire && m >= 6 && !w.readyToPush
    ensures StageAlone(prog, k, w, inp, out, pushed, undisturbed, granted, m) ==
              StageRoutine(prog, k, w.(pc := Top), inp, out, pushed, undisturbed, granted)
  {
    hide StageAlone, StageCallPart;
    StageGoesOn(prog, k, w, inp, out, pushed, undisturbed, granted, m);
    var (w1, inp1, out1) := StageStep(prog, k, w, inp, out, undisturbed);
    if !w.readyToPull {
      StageFromTake(prog, k, w1, inp1, out1, pushed, undisturbed, granted, m - 1);
    } else if undisturbed && inp.permits > 0 {
      StageGoesOn(prog, k, w1, inp1, out1, pushed, undisturbed, granted, m - 1);
      var (w2, inp2, out2) := StageStep(prog, k, w1, inp1, out1, true);
      if |inp.fifo| == 0 {
        StageGoesOn(prog, k, w2, inp2, out2, pushed, undisturbed, granted, m - 2);
      } else {
        StageFromTake(prog, k, w2, inp2, out2, pushed, undisturbed, granted, m - 2);
      }
    }
  }

  lemma StageAfterPush(prog: Program, k: nat, w: Worker, inp: Pipe, out: Pipe, undisturbed: bool, granted: bool,
                       pushed: bool)
    requires w.readyToPush ==> w.output.Some? && pushed
    ensures var (w1, out1) := PushPart(w, out);
            StageRoutine(prog, k, w, inp, out, pushed, undisturbed, granted) ==
              StageRoutine(prog, k, w1, inp, out1, pushed, undisturbed, granted)
  {
    hide StageCallPart;
  }

  /** From its first line to its return a stage does what the function says. */
  lemma StageRoundIsRoutine(prog: Program, k: nat, w: Worker, inp: Pipe, out: Pipe, pushed: bool, undisturbed: bool,
                            granted: bool)
    requires w.pc == Push && (w.readyToPush ==> w.output.Some?)
    ensures StageAlone(prog, k, w, inp, out, pushed, undisturbed, granted, 9) ==
              StageRoutine(prog, k, w.(pc := Top), inp, out, pushed, undisturbed, granted)
  {
    hide StageAlone, StageCallPart;
    StageGoesOn(prog, k, w, inp, out, pushed, undisturbed, granted, 9);
    var (w1, inp1, out1) := StageStep(prog, k, w, inp, out, pushed);
    if w.readyToPush ==> pushed {
      StageAfterPush(prog, k, w.(pc := Top), inp, out, undisturbed, granted, pushed);
      if w.readyToPush {
        StageGoesOn(prog, k, w1, inp1, out1, pushed, undisturbed, granted, 8);
        var (w2, inp2, out2) := StageStep(prog, k, w1, inp1, out1, true);
        StageGoesOn(prog, k, w2, inp2, out2, pushed, undisturbed, granted, 7);
        var (w3, inp3, out3) := StageStep(prog, k, w2, inp2, out2, true);
        StageFromAcquire(prog, k, w3, inp3, out3, pushed, undisturbed, granted, 6);
      } else {
        StageFromAcquire(prog, k, w1, inp1, out1, pushed, undisturbed, granted, 8);
      }
    }
  }

  // ------------------------------------------------------------------------------------------
  // The sink
  // ------------------------------------------------------------------------------------------

  function SinkCallPart(prog: Program, w: Worker, inp: Pipe): (Worker, Pipe) {
    if w.input == None then (w.(readyToPull := true), inp)
    else
      var u := if w.calls == 0 then prog.init(prog.n + 1, w.user) else w.user;
      var r := prog.sink(u, inp.mem(w.input.value));
      (w.(user := r.user, calls := w.calls + 1, readyToPull := r.pull), inp)
  }

  function SinkPullPart(prog: Program, w: Worker, inp: Pipe, undisturbed: bool): (Worker, Pipe) {
    if !undisturbed || inp.permits == 0 then (w, inp)
    else if |inp.fifo| == 0 then (w.(input := None), inp)
    else
      SinkCallPart(prog, w.(input := Some(inp.fifo[0]), readyToPull := false),
                   inp.(permits := inp.permits - 1, fifo := inp.fifo[1..],
                        received := inp.received + [inp.mem(inp.fifo[0])]))
  }

  function SinkRoutine(prog: Program, w: Worker, inp: Pipe, undisturbed: bool, granted: bool): (Worker, Pipe) {
    if !w.readyToPull then SinkCallPart(prog, w, inp)
    else if w.input == None then SinkPullPart(prog, w, inp, undisturbed)
    else if |inp.pool| == inp.capacity && !granted then (w, inp)
    else SinkPullPart(prog, w.(input := None), Channel.PutBack(inp, w.input.value, granted), undisturbed)
  }

  function SinkAlone(prog: Program, w: Worker, inp: Pipe, undisturbed: bool, granted: bool, m: nat): (Worker, Pipe)
    decreases m
  {
    if m == 0 || w.pc == Top then (w, inp)
    else
      var (w', inp') := SinkStep(prog, w, inp, Answer(w.pc, true, undisturbed, granted));
      SinkAlone(prog, w', inp', undisturbed, granted, m - 1)
  }

  lemma SinkGoesOn(prog: Program, w: Worker, inp: Pipe, undisturbed: bool, granted: bool, m: nat)
    requires m > 0 && w.pc != Top
    ensures var (w', inp') := SinkStep(prog, w, inp, Answer(w.pc, true, undisturbed, granted));
            var all := SinkAlone(prog, w, inp, undisturbed, granted, m);
            && all == SinkAlone(prog, w', inp', undisturbed, granted, m - 1)
            && (w'.pc == Top ==> all == (w', inp'))
  {
    hide SinkStep;
  }

  lemma SinkFromCall(prog: Program, w: Worker, inp: Pipe, undisturbed: bool, granted: bool, m: nat)
    requires w.pc == PC.Call && m >= 1
    ensures SinkAlone(prog, w, inp, undisturbed, granted, m) == SinkCallPart(prog, w.(pc := Top), inp)
  {
    hide SinkAlone;
    SinkGoesOn(prog, w, inp, undisturbed, granted, m);
  }

  lemma SinkFromPull(prog: Program, w: Worker, inp: Pipe, undisturbed: bool, granted: bool, m: nat)
    requires w.pc == Pull && m >= 2
    ensures SinkAlone(prog, w, inp, undisturbed, granted, m) ==
              if |inp.fifo| == 0 then (w.(pc := Top, input := None), inp.(permits := inp.permits + 1))
              else SinkCallPart(prog, w.(pc := Top, input := Some(inp.fifo[0]), readyToPull := false),
                                inp.(fifo := inp.fifo[1..], received := inp.received + [inp.mem(inp.fifo[0])]))
  {
    hide SinkAlone, SinkCallPart;
    SinkGoesOn(prog, w, inp, undisturbed, granted, m);
    var (w1, inp1) := SinkStep(prog, w, inp, true);
    if w1.pc == PC.Call {
      SinkFromCall(prog, w1, inp1, undisturbed, granted, m - 1);
    } else {
      SinkGoesOn(prog, w1, inp1, undisturbed, granted, m - 1);
    }
  }

  lemma SinkFromAcquire(prog: Program, w: Worker, inp: Pipe, undisturbed: bool, granted: bool, m: nat)
    requires w.pc == Acquire && m >= 3
    ensures SinkAlone(prog, w, inp, undisturbed, granted, m) ==
              if w.readyToPull then SinkPullPart(prog, w.(pc := Top), inp, undisturbed)
              else SinkCallPart(prog, w.(pc := Top), inp)
  {
    hide SinkAlone, SinkCallPart;
    SinkGoesOn(prog, w, inp, undisturbed, granted, m);
    var (w1, inp1) := SinkStep(prog, w, inp, undisturbed);
    if !w.readyToPull {
      SinkFromCall(prog, w1, inp1, undisturbed, granted, m - 1);
    } else if w1.pc == Pull {
      SinkFromPull(prog, w1, inp1, undisturbed, granted, m - 1);
    }
  }

  /** From its first line to its return the sink does what the function says. */
  lemma SinkRoundIsRoutine(prog: Program, w: Worker, inp: Pipe, undisturbed: bool, granted: bool)
    requires w.pc == PutBack && |inp.pool| <= inp.capacity
    ensures SinkAlone(prog, w, inp, undisturbed, granted, 5) ==
              SinkRoutine(prog, w.(pc := Top), inp, undisturbed, granted)
  {
    hide SinkAlone, SinkPullPart, SinkCallPart;
    SinkGoesOn(prog, w, inp, undisturbed, granted, 5);
    var (w1, inp1) := SinkStep(prog, w, inp, granted);
    if w1.pc == ResetIn {
      SinkGoesOn(prog, w1, inp1, undisturbed, granted, 4);
      var (w2, inp2) := SinkStep(prog, w1, inp1, true);
      SinkFromAcquire(prog, w2, inp2, undisturbed, granted, 3);
    } else if w1.pc == Acquire {
      SinkFromAcquire(prog, w1, inp1, undisturbed, granted, 4);
    }
  }
}
