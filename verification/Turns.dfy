/**
 Turns: what the threads and the user do next, and the schedules that this leads to. A thread goes
 on by one step, or the user switches or destroys a worker.
 */
module Turns {
  import opened Buffers
  import opened Program
  import opened Machine
  import opened Reachable
  import FifoShape

  // ------------------------------------------------------------------------------------------
  // Recorded schedules
  // ------------------------------------------------------------------------------------------

  /** The state is what the transition system has after the schedule. */
  ghost predicate Traces(setup: Setup, acts: seq<Action>, s: State) {
    setup.Valid() && s == Exec(setup.prog, Init(setup), acts)
  }

  lemma NothingTraced(setup: Setup)
    requires setup.Valid()
    ensures Traces(setup, [], Init(setup))
  {
  }

  lemma TracedIsReachable(setup: Setup, acts: seq<Action>, s: State)
    requires Traces(setup, acts, s)
    ensures IsReachable(setup, s)
  {
  }

  lemma TracesOn(setup: Setup, before: seq<Action>, acts: seq<Action>, s: State, s': State)
    requires Traces(setup, before, s) && Traces(setup, before + acts, s') && Shaped(setup.prog, s)
    ensures s' == Exec(setup.prog, s, acts)
  {
    ExecConcat(setup.prog, Init(setup), before, acts);
  }

  lemma OneMoreTraced(setup: Setup, acts: seq<Action>, s: State, a: Action)
    requires Traces(setup, acts, s) && Shaped(setup.prog, s)
    ensures Traces(setup, acts + [a], Step(setup.prog, s, a))
  {
    hide Step;
    assert (acts + [a])[..|acts|] == acts;
  }

  // ------------------------------------------------------------------------------------------
  // What a schedule leaves to the others
  // ------------------------------------------------------------------------------------------

  /** No step of worker `k`; its flags may be set. */
  ghost predicate NoneOf(acts: seq<Action>, k: nat) {
    forall i | 0 <= i < |acts| :: !(acts[i].Work? && acts[i].k == k)
  }

  /** Only the flags may have changed; `destroyed` is never taken back. */
  predicate SameButFlags(w: Worker, w': Worker) {
    w' == w.(enabled := w'.enabled, destroyed := w'.destroyed) && (w.destroyed ==> w'.destroyed)
  }

  lemma OtherLeaves(prog: Program, s: State, a: Action, k: nat)
    requires Shaped(prog, s) && k <= prog.n + 1 && !(a.Work? && a.k == k)
    ensures SameButFlags(s.workers[k], Step(prog, s, a).workers[k])
  {
    hide SourceStep, StageStep, SinkStep;
  }

  lemma {:induction false} OthersLeave(prog: Program, s: State, acts: seq<Action>, k: nat)
    requires Shaped(prog, s) && k <= prog.n + 1 && NoneOf(acts, k)
    ensures SameButFlags(s.workers[k], Exec(prog, s, acts).workers[k])
  {
    hide Step;
    if |acts| > 0 {
      OthersLeave(prog, s, acts[..|acts| - 1], k);
      OtherLeaves(prog, Exec(prog, s, acts[..|acts| - 1]), acts[|acts| - 1], k);
    }
  }

  // ------------------------------------------------------------------------------------------
  // Turns
  // ------------------------------------------------------------------------------------------

  /** How the deque of a pipe was configured. */
  type Policy = FifoShape.Policy

  /** What the allocator answers to the deque and to the pool, and whether a wait is left alone. */
  datatype Answers = Answers(vectorOk: bool, blockOk: bool, granted: bool, undisturbed: bool) {
    predicate Generous() {
      vectorOk && blockOk && granted && undisturbed
    }
  }

  /** What may happen next: a thread goes on, or the user switches or destroys a worker. */
  datatype Turn = Go(k: nat, answers: Answers) | Switch(k: nat, on: bool) | Kill(k: nat)

  /**
   How the flag of a step of worker `k` comes about: a flagged push is refused only if the deque does not
   ask for memory when full or some memory is refused, a wait succeeds or not as it is left alone or not,
   and a put-back carries the allocator's answer along. No other step asks for anything.
   */
  ghost predicate Decided(policies: seq<Policy>, s: State, k: nat, ok: bool, x: Answers)
    requires k < |s.workers|
  {
    var w := s.workers[k];
    match w.pc
    case Push => ok || (w.readyToPush && !(AsksWhenFull(policies, k) && x.vectorOk && x.blockOk))
    case Acquire => ok == (!w.readyToPull || x.undisturbed)
    case PutBack => ok == (!w.readyToPull || w.input == None || x.granted)
    case _ => ok
  }

  /** The filling ratio is at most 1, so a full deque asks for a block. */
  predicate AsksWhenFull(policies: seq<Policy>, k: nat) {
    k < |policies| && policies[k].num <= policies[k].den
  }

  /** The action recorded for a turn that is taken in state `s`. */
  ghost predicate Records(policies: seq<Policy>, s: State, t: Turn, a: Action) {
    match t
    case Go(k, answers) => a.Work? && a.k == k < |s.workers| && Decided(policies, s, k, a.ok, answers)
    case Switch(k, on) => a == SetEnabled(k, on)
    case Kill(k) => a == SetDestroyed(k)
  }

  /** Turn `i` was taken in the state after `before` and the turns before it. */
  ghost predicate RecordedAt(setup: Setup, before: seq<Action>, turns: seq<Turn>, acts: seq<Action>,
                             policies: seq<Policy>, i: nat)
    requires setup.Valid() && i < |turns| && i < |acts|
  {
    Records(policies, Exec(setup.prog, Init(setup), before + acts[..i]), turns[i], acts[i])
  }

  /** After `before`, these turns have been taken, one after the other. */
  ghost predicate Took(setup: Setup, before: seq<Action>, turns: seq<Turn>, acts: seq<Action>, policies: seq<Policy>) {
    && setup.Valid() && |acts| == |turns|
    && forall i | 0 <= i < |turns| :: RecordedAt(setup, before, turns, acts, policies, i)
  }

  lemma TookNothing(setup: Setup, before: seq<Action>, policies: seq<Policy>)
    requires setup.Valid()
    ensures Took(setup, before, [], [], policies)
  {
  }

  lemma TookOne(setup: Setup, before: seq<Action>, s: State, t: Turn, a: Action, policies: seq<Policy>)
    requires Traces(setup, before, s) && Records(policies, s, t, a)
    ensures Took(setup, before, [t], [a], policies)
  {
    hide Records, Exec;
    assert before + [a][..0] == before;
    assert RecordedAt(setup, before, [t], [a], policies, 0);
  }

  lemma TookThenTook(setup: Setup, before: seq<Action>, turns: seq<Turn>, acts: seq<Action>, more: seq<Turn>,
                     next: seq<Action>, policies: seq<Policy>)
    requires Took(setup, before, turns, acts, policies) && Took(setup, before + acts, more, next, policies)
    ensures Took(setup, before, turns + more, acts + next, policies)
  {
    hide Records, Exec;
    forall i | 0 <= i < |turns| + |more| ensures RecordedAt(setup, before, turns + more, acts + next, policies, i) {
      if i < |turns| {
        assert RecordedAt(setup, before, turns, acts, policies, i);
        assert (acts + next)[..i] == acts[..i];
      } else {
        assert RecordedAt(setup, before + acts, more, next, policies, i - |turns|);
        assert before + (acts + next)[..i] == before + acts + next[..i - |acts|];
      }
    }
  }

  lemma TookFirst(setup: Setup, before: seq<Action>, turns: seq<Turn>, acts: seq<Action>, m: nat, policies: seq<Policy>)
    requires Took(setup, before, turns, acts, policies) && m <= |turns|
    ensures Took(setup, before, turns[..m], acts[..m], policies)
  {
    hide Records, Exec;
    forall i | 0 <= i < m ensures RecordedAt(setup, before, turns[..m], acts[..m], policies, i) {
      assert RecordedAt(setup, before, turns, acts, policies, i);
      assert acts[..m][..i] == acts[..i];
    }
  }

  // ------------------------------------------------------------------------------------------
  // Refused pushes
  // ------------------------------------------------------------------------------------------

  /** All claimed blocks of a deque are full when it holds this many elements. */
  predicate FillsBlocks(size: nat, b: nat) {
    size > 0 && b > 0 && size % b == 0
  }

  /** If this step is a flagged push and is refused, the FIFO fills its blocks. */
  ghost predicate Plausible(policies: seq<Policy>, s: State, k: nat, ok: bool) {
    !ok && k < |policies| && k < |s.workers| && k < |s.pipes| ==>
      s.workers[k].pc == Push && s.workers[k].readyToPush ==> FillsBlocks(|s.pipes[k].fifo|, policies[k].b)
  }

  ghost predicate Honest(setup: Setup, acts: seq<Action>, policies: seq<Policy>) {
    && setup.Valid()
    && forall i | 0 <= i < |acts| && acts[i].Work? ::
         Plausible(policies, Exec(setup.prog, Init(setup), acts[..i]), acts[i].k, acts[i].ok)
  }

  lemma NothingIsHonest(setup: Setup, policies: seq<Policy>)
    requires setup.Valid()
    ensures Honest(setup, [], policies)
  {
  }

  lemma OneMoreHonest(setup: Setup, acts: seq<Action>, s: State, a: Action, policies: seq<Policy>)
    requires Honest(setup, acts, policies) && Traces(setup, acts, s)
    requires a.Work? ==> Plausible(policies, s, a.k, a.ok)
    ensures Honest(setup, acts + [a], policies)
  {
    hide Plausible, Step;
    forall i | 0 <= i < |acts| + 1 && (acts + [a])[i].Work?
      ensures var b := (acts + [a])[i];
              Plausible(policies, Exec(setup.prog, Init(setup), (acts + [a])[..i]), b.k, b.ok)
    {
      assert (acts + [a])[..i] == acts[..i];
      assert acts[..|acts|] == acts;
    }
  }

  // ------------------------------------------------------------------------------------------
  // What one thread and the others have done
  // ------------------------------------------------------------------------------------------

  predicate Own(a: Action, k: nat) {
    a.Work? && a.k == k
  }

  /** Where a thread takes its own steps: in the worker loop, inside its callback, or in both. */
  datatype Part = InLoop | InCallback | Anywhere

  predicate Inside(part: Part, pc: PC) {
    part.Anywhere? || AtLoop(pc) == part.InLoop?
  }

  /**
   The schedule has grown by steps that worker `k` took in the given part, each decided by one of its own
   answers, and by the turns of the others in this order, nothing else.
   */
  ghost predicate Grew(setup: Setup, before: seq<Action>, after: seq<Action>, k: nat, part: Part,
                       others: seq<Turn>, own: set<Answers>, policies: seq<Policy>)
    decreases |after|
  {
    && setup.Valid() && k <= setup.prog.n + 1
    && if after == before then others == []
       else
         && |before| < |after|
         && var rest, last := after[..|after| - 1], after[|after| - 1];
            var s := Exec(setup.prog, Init(setup), rest);
            if Own(last, k) then
              && Inside(part, s.workers[k].pc)
              && (exists x | x in own :: Decided(policies, s, k, last.ok, x))
              && Grew(setup, before, rest, k, part, others, own, policies)
            else
              && |others| > 0
              && Records(policies, s, others[|others| - 1], last)
              && Grew(setup, before, rest, k, part, others[..|others| - 1], own, policies)
  }

  lemma GrewNothing(setup: Setup, schedule: seq<Action>, k: nat, part: Part, own: set<Answers>, policies: seq<Policy>)
    requires setup.Valid() && k <= setup.prog.n + 1
    ensures Grew(setup, schedule, schedule, k, part, [], own, policies)
  {
  }

  lemma {:induction false} GrewExtends(setup: Setup, x: seq<Action>, y: seq<Action>, k: nat, part: Part,
                                       others: seq<Turn>, own: set<Answers>, policies: seq<Policy>)
    requires Grew(setup, x, y, k, part, others, own, policies)
    ensures x <= y
    decreases |y|
  {
    hide Decided, Records, Inside, Step;
    if y != x {
      var rest := y[..|y| - 1];
      if Own(y[|y| - 1], k) {
        GrewExtends(setup, x, rest, k, part, others, own, policies);
      } else {
        GrewExtends(setup, x, rest, k, part, others[..|others| - 1], own, policies);
      }
    }
  }

  /** A step of worker `k` itself, which was then in state `s`. */
  lemma GrewByOwn(setup: Setup, before: seq<Action>, s: State, k: nat, part: Part, ok: bool, x: Answers,
                  own: set<Answers>, policies: seq<Policy>)
    requires Traces(setup, before, s) && Shaped(setup.prog, s) && k <= setup.prog.n + 1
    requires Inside(part, s.workers[k].pc) && x in own && Decided(policies, s, k, ok, x)
    ensures Grew(setup, before, before + [Work(k, ok)], k, part, [], own, policies)
  {
    hide Exec, Inside, Decided;
    var after := before + [Work(k, ok)];
    assert after[..|after| - 1] == before && after[|after| - 1] == Work(k, ok);
    assert s == Exec(setup.prog, Init(setup), before);
    GrewNothing(setup, before, k, part, own, policies);
  }

  lemma {:induction false} GrewByOthers(setup: Setup, before: seq<Action>, acts: seq<Action>, k: nat, part: Part,
                                        others: seq<Turn>, own: set<Answers>, policies: seq<Policy>)
    requires setup.Valid() && k <= setup.prog.n + 1
    requires Took(setup, before, others, acts, policies) && NoneOf(acts, k)
    ensures Grew(setup, before, before + acts, k, part, others, own, policies)
  {
    hide Exec, Inside, Decided, Records;
    if |acts| == 0 {
      assert before + acts == before;
    } else {
      var m := |acts| - 1;
      var after := before + acts;
      assert after[..|after| - 1] == before + acts[..m] && after[|after| - 1] == acts[m];
      assert RecordedAt(setup, before, others, acts, policies, m);
      TookFirst(setup, before, others, acts, m, policies);
      GrewByOthers(setup, before, acts[..m], k, part, others[..m], own, policies);
    }
  }

  lemma {:induction false} GrewThenGrew(setup: Setup, x: seq<Action>, y: seq<Action>, z: seq<Action>, k: nat,
                                        part: Part, first: seq<Turn>, next: seq<Turn>, own: set<Answers>,
                                        policies: seq<Policy>)
    requires Grew(setup, x, y, k, part, first, own, policies) && Grew(setup, y, z, k, part, next, own, policies)
    ensures Grew(setup, x, z, k, part, first + next, own, policies)
    decreases |z|
  {
    hide Step, Inside, Decided, Records;
    GrewExtends(setup, x, y, k, part, first, own, policies);
    if z == y {
      assert first + next == first;
    } else if Own(z[|z| - 1], k) {
      GrewThenGrew(setup, x, y, z[..|z| - 1], k, part, first, next, own, policies);
    } else {
      var m := |next| - 1;
      GrewThenGrew(setup, x, y, z[..|z| - 1], k, part, first, next[..m], own, policies);
      assert (first + next)[..|first + next| - 1] == first + next[..m];
    }
  }

  lemma GrewThenOwn(setup: Setup, x: seq<Action>, y: seq<Action>, s: State, k: nat, part: Part, others: seq<Turn>,
                    ok: bool, answers: Answers, policies: seq<Policy>)
    requires Grew(setup, x, y, k, part, others, {answers}, policies)
    requires Traces(setup, y, s) && Shaped(setup.prog, s) && k <= setup.prog.n + 1
    requires Inside(part, s.workers[k].pc) && Decided(policies, s, k, ok, answers)
    ensures Grew(setup, x, y + [Work(k, ok)], k, part, others, {answers}, policies)
  {
    hide Grew, Traces, Inside, Decided;
    GrewByOwn(setup, y, s, k, part, ok, answers, {answers}, policies);
    GrewThenGrew(setup, x, y, y + [Work(k, ok)], k, part, others, [], {answers}, policies);
    assert others + [] == others;
  }

  /** Each step of worker `k` was taken in its part and decided by one of its answers. */
  lemma {:induction false} OwnStepsAreDecided(setup: Setup, x: seq<Action>, y: seq<Action>, k: nat, part: Part,
                                              others: seq<Turn>, own: set<Answers>, policies: seq<Policy>, i: nat)
    requires Grew(setup, x, y, k, part, others, own, policies) && |x| <= i < |y| && Own(y[i], k)
    ensures var s := Exec(setup.prog, Init(setup), y[..i]);
            && (part.InLoop? ==> AtLoop(s.workers[k].pc)) && (part.InCallback? ==> !AtLoop(s.workers[k].pc))
            && exists a | a in own :: Decided(policies, s, k, y[i].ok, a)
    decreases |y|
  {
    hide Step, Decided, Records, AtLoop;
    var rest := y[..|y| - 1];
    if i < |rest| {
      assert rest[i] == y[i] && rest[..i] == y[..i];
      if Own(y[|y| - 1], k) {
        OwnStepsAreDecided(setup, x, rest, k, part, others, own, policies, i);
      } else {
        OwnStepsAreDecided(setup, x, rest, k, part, others[..|others| - 1], own, policies, i);
      }
    }
  }

  lemma {:induction false} CountGrows(x: seq<Action>, y: seq<Action>, k: nat)
    requires x <= y
    ensures Machine.Turns(x, k) <= Machine.Turns(y, k)
  {
    if |x| < |y| {
      CountGrows(x, y[..|y| - 1], k);
    } else {
      assert x == y;
    }
  }

  /** Steps of worker `k` are counted, and only ever added. */
  lemma GrewCounts(setup: Setup, x: seq<Action>, y: seq<Action>, k: nat, part: Part, others: seq<Turn>,
                   own: set<Answers>, policies: seq<Policy>)
    requires Grew(setup, x, y, k, part, others, own, policies)
    ensures Machine.Turns(x, k) <= Machine.Turns(y, k)
  {
    GrewExtends(setup, x, y, k, part, others, own, policies);
    CountGrows(x, y, k);
  }

  lemma OneMoreCounted(x: seq<Action>, k: nat, ok: bool)
    ensures Machine.Turns(x + [Work(k, ok)], k) == Machine.Turns(x, k) + 1
  {
    assert (x + [Work(k, ok)])[..|x|] == x;
  }

  /** Loop and callback together. */
  lemma {:induction false} GrewAnywhere(setup: Setup, x: seq<Action>, y: seq<Action>, k: nat, part: Part,
                                        others: seq<Turn>, own: set<Answers>, all: set<Answers>,
                                        policies: seq<Policy>)
    requires Grew(setup, x, y, k, part, others, own, policies) && own <= all
    ensures Grew(setup, x, y, k, Anywhere, others, all, policies)
    decreases |y|
  {
    hide Step, Decided, Records;
    if y != x {
      var rest := y[..|y| - 1];
      if Own(y[|y| - 1], k) {
        GrewAnywhere(setup, x, rest, k, part, others, own, all, policies);
      } else {
        GrewAnywhere(setup, x, rest, k, part, others[..|others| - 1], own, all, policies);
      }
    }
  }

  /** No turn of worker `k`; its flags may be set. */
  ghost predicate NotHis(turns: seq<Turn>, k: nat) {
    forall i | 0 <= i < |turns| :: !(turns[i].Go? && turns[i].k == k)
  }

  /** Turns of others than worker `k`, all of somebody in the pipeline. */
  ghost predicate Theirs(prog: Program, turns: seq<Turn>, k: nat) {
    NotHis(turns, k) && forall i | 0 <= i < |turns| :: turns[i].k <= prog.n + 1
  }

  lemma BothTheirs(prog: Program, x: seq<Turn>, y: seq<Turn>, k: nat)
    requires Theirs(prog, x, k) && Theirs(prog, y, k)
    ensures Theirs(prog, x + y, k)
  {
  }

  lemma TookNoneOf(setup: Setup, before: seq<Action>, turns: seq<Turn>, acts: seq<Action>, k: nat,
                   policies: seq<Policy>)
    requires Took(setup, before, turns, acts, policies) && NotHis(turns, k)
    ensures NoneOf(acts, k)
  {
    hide Decided, Step;
    forall i | 0 <= i < |acts| ensures !(acts[i].Work? && acts[i].k == k) {
      assert RecordedAt(setup, before, turns, acts, policies, i);
    }
  }

  /**
   What one thread does leaves all others where they are: when the schedule has grown by steps of
   worker `j` and turns that are not of worker `k`, worker `k` has kept its context, up to its flags.
   */
  lemma {:induction false} GrewLeavesOthers(setup: Setup, before: seq<Action>, after: seq<Action>, s: State, s': State,
                                            j: nat, k: nat, part: Part, others: seq<Turn>, own: set<Answers>,
                                            policies: seq<Policy>)
    requires Grew(setup, before, after, j, part, others, own, policies)
    requires Traces(setup, before, s) && Traces(setup, after, s') && Shaped(setup.prog, s) && Shaped(setup.prog, s')
    requires j != k <= setup.prog.n + 1 && NotHis(others, k)
    ensures SameButFlags(s.workers[k], s'.workers[k])
    decreases |after|
  {
    hide Step, Inside, Decided;
    if after != before {
      var rest, last := after[..|after| - 1], after[|after| - 1];
      var m := Exec(setup.prog, Init(setup), rest);
      if Own(last, j) {
        GrewLeavesOthers(setup, before, rest, s, m, j, k, part, others, own, policies);
      } else {
        assert Records(policies, m, others[|others| - 1], last);
        GrewLeavesOthers(setup, before, rest, s, m, j, k, part, others[..|others| - 1], own, policies);
      }
      OtherLeaves(setup.prog, m, last, k);
    }
  }

}
