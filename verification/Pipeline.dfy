/**
 Starting, stopping and disabling a session, which joins the workers and gives every buffer back
 (src/pipeline.c:50-58 and 200-288).
 */
module Pipeline {
  import opened Program
  import opened Machine
  import opened Reachable
  import opened Stopping
  import opened Turns
  import opened PipeImpl
  import opened Session
  import opened Clearing

  // ------------------------------------------------------------------------------------------
  // Joining
  // ------------------------------------------------------------------------------------------

  /**
   Joining ends and leaves every buffer accounted for: from any reachable state in which all
   workers have been destroyed, every schedule that gives each of them ten turns leads to a state
   that can be cleared.
   */
  lemma JoinEnds(setup: Setup, s: State, acts: seq<Action>)
    requires IsReachable(setup, s)
    requires forall k | 0 <= k <= setup.prog.n + 1 :: s.workers[k].destroyed && Machine.Turns(acts, k) >= 10
    ensures Shaped(setup.prog, s)
    ensures var s' := Exec(setup.prog, s, acts); Accounted(setup, s'.workers, s'.pipes)
  {
    hide Accounted;
    ReachableInv(setup, s);
    ExecKeepsInv(setup, s, acts);
    forall k | 0 <= k <= setup.prog.n + 1 ensures Exec(setup.prog, s, acts).workers[k].pc == Exited {
      DestroyedExits(setup, s, acts, k);
    }
    InvIsAccounted(setup, Exec(setup.prog, s, acts));
  }

  /** How many of these turns are steps of worker `k`. */
  function StepsOf(turns: seq<Turn>, k: nat): nat {
    if |turns| == 0 then 0
    else
      var last := turns[|turns| - 1];
      StepsOf(turns[..|turns| - 1], k) + if last.Go? && last.k == k then 1 else 0
  }

  lemma {:induction false} StepsAreTaken(setup: Setup, before: seq<Action>, turns: seq<Turn>, acts: seq<Action>, k: nat,
                                         policies: seq<Policy>)
    requires Took(setup, before, turns, acts, policies)
    ensures Machine.Turns(acts, k) == StepsOf(turns, k)
  {
    if |turns| > 0 {
      var m := |turns| - 1;
      assert RecordedAt(setup, before, turns, acts, policies, m);
      TookFirst(setup, before, turns, acts, m, policies);
      StepsAreTaken(setup, before, turns[..m], acts[..m], k, policies);
    }
  }

  // ------------------------------------------------------------------------------------------
  // Flags
  // ------------------------------------------------------------------------------------------

  lemma {:induction false} DestroyedForGood(prog: Program, s: State, acts: seq<Action>)
    requires Shaped(prog, s)
    ensures var s' := Exec(prog, s, acts);
            forall j | 0 <= j <= prog.n + 1 && s.workers[j].destroyed :: s'.workers[j].destroyed
  {
    hide Step;
    if |acts| > 0 {
      DestroyedForGood(prog, s, acts[..|acts| - 1]);
      NobodyIsRevived(prog, Exec(prog, s, acts[..|acts| - 1]), acts[|acts| - 1]);
    }
  }

  /** A worker never touches its `enabled` flag and never takes back `destroyed`. */
  predicate FlagsKept(w: Worker, w': Worker) {
    w'.enabled == w.enabled && (w.destroyed ==> w'.destroyed)
  }

  lemma SourceKeepsFlags(prog: Program, w: Worker, out: Channel.Pipe, ok: bool)
    ensures FlagsKept(w, SourceStep(prog, w, out, ok).0)
  {
  }

  lemma StageKeepsFlags(prog: Program, k: nat, w: Worker, inp: Channel.Pipe, out: Channel.Pipe, ok: bool)
    ensures FlagsKept(w, StageStep(prog, k, w, inp, out, ok).0)
  {
  }

  lemma SinkKeepsFlags(prog: Program, w: Worker, inp: Channel.Pipe, ok: bool)
    ensures FlagsKept(w, SinkStep(prog, w, inp, ok).0)
  {
  }

  lemma WorkKeepsFlags(prog: Program, s: State, k: nat, ok: bool)
    requires Shaped(prog, s)
    ensures forall j | 0 <= j <= prog.n + 1 :: FlagsKept(s.workers[j], Step(prog, s, Work(k, ok)).workers[j])
  {
    hide SourceStep, StageStep, SinkStep;
    if k == 0 {
      SourceKeepsFlags(prog, s.workers[0], s.pipes[0], ok);
    } else if k == prog.n + 1 {
      SinkKeepsFlags(prog, s.workers[k], s.pipes[k - 1], ok);
    } else if k <= prog.n {
      StageKeepsFlags(prog, k, s.workers[k], s.pipes[k - 1], s.pipes[k], ok);
    }
  }

  lemma NobodyIsRevived(prog: Program, s: State, a: Action)
    requires Shaped(prog, s)
    ensures forall j | 0 <= j <= prog.n + 1 && s.workers[j].destroyed :: Step(prog, s, a).workers[j].destroyed
  {
    if a.Work? {
      hide Step;
      WorkKeepsFlags(prog, s, a.k, a.ok);
    }
  }

  /** Only the threads of the workers go on; nobody touches the flags. */
  ghost predicate OnlyWork(acts: seq<Action>) {
    forall i | 0 <= i < |acts| :: acts[i].Work?
  }

  /** Nobody but the threads takes a turn. */
  ghost predicate OnlyGo(turns: seq<Turn>) {
    forall i | 0 <= i < |turns| :: turns[i].Go?
  }

  lemma OnlyGoIsWork(setup: Setup, before: seq<Action>, turns: seq<Turn>, acts: seq<Action>, policies: seq<Policy>)
    requires Took(setup, before, turns, acts, policies) && OnlyGo(turns)
    ensures OnlyWork(acts)
  {
    forall i | 0 <= i < |acts| ensures acts[i].Work? {
      assert RecordedAt(setup, before, turns, acts, policies, i);
    }
  }

  lemma {:induction false} WorkKeepsEnabled(prog: Program, s: State, acts: seq<Action>)
    requires Shaped(prog, s) && OnlyWork(acts)
    ensures forall j | 0 <= j <= prog.n + 1 :: Exec(prog, s, acts).workers[j].enabled == s.workers[j].enabled
  {
    hide Step;
    if |acts| > 0 {
      WorkKeepsEnabled(prog, s, acts[..|acts| - 1]);
      var a := acts[|acts| - 1];
      WorkKeepsFlags(prog, Exec(prog, s, acts[..|acts| - 1]), a.k, a.ok);
      assert a == Work(a.k, a.ok);
    }
  }

  // ------------------------------------------------------------------------------------------
  // Starting and stopping
  // ------------------------------------------------------------------------------------------

  ghost predicate InRange(prog: Program, others: seq<seq<Turn>>) {
    && |others| == prog.n + 2
    && forall k | 0 <= k < |others| :: forall i | 0 <= i < |others[k]| :: others[k][i].k <= prog.n + 1
  }

  /** One worker is enabled or disabled, then the threads go on. */
  method SwitchOne(session: Session, k: nat, on: bool, others: seq<Turn>) returns (ghost acts: seq<Action>)
    requires session.Valid() && k <= session.setup.prog.n + 1 && OnlyGo(others)
    requires forall i | 0 <= i < |others| :: others[i].k <= session.setup.prog.n + 1
    modifies session`workers, session`state, session`schedule, session`Repr, session.Repr
    ensures session.Valid() && fresh(session.Repr - old(session.Repr))
    ensures session.schedule == old(session.schedule) + acts
    ensures Took(session.setup, old(session.schedule), [Switch(k, on)] + others, acts, session.Policies())
    ensures k < |session.workers| == |old(session.workers)| == session.setup.prog.n + 2
    ensures session.workers[k].enabled == on
    ensures forall j | 0 <= j < |session.workers| && j != k ::
              session.workers[j].enabled == old(session.workers)[j].enabled
  {
    hide Session.Valid, Session.Policies, Step, Traces, Honest, OnlyGo, Took;
    session.Sizes();
    ghost var before, was := session.schedule, session.state;
    session.SwitchWorker(k, on);
    session.Sizes();
    ghost var mid, switched := session.schedule, session.state;
    ghost var more := session.Run(others);
    session.Sizes();
    acts := [SetEnabled(k, on)] + more;
    OnlyGoIsWork(session.setup, mid, others, more, session.Policies());
    WorkKeepsEnabled(session.setup.prog, switched, more);
    TookOne(session.setup, before, was, Switch(k, on), SetEnabled(k, on), session.Policies());
    TookThenTook(session.setup, before, [Switch(k, on)], [SetEnabled(k, on)], others, more, session.Policies());
  }

  /** The workers from the last one down to number `k` are switched; after each the threads go on. */
  function Downwards(others: seq<seq<Turn>>, k: nat, on: bool): seq<Turn>
    requires k <= |others|
    decreases |others| - k
  {
    if k == |others| then [] else Downwards(others, k + 1, on) + ([Switch(k, on)] + others[k])
  }

  /** The workers before number `k` are switched; after each the threads go on. */
  function Upwards(others: seq<seq<Turn>>, k: nat, on: bool): seq<Turn>
    requires k <= |others|
  {
    if k == 0 then [] else Upwards(others, k - 1, on) + ([Switch(k - 1, on)] + others[k - 1])
  }

  /** Besides steps of threads these turns are switches of the workers in this range, each left of the one before. */
  ghost predicate Leftwards(turns: seq<Turn>, from: nat, to: nat) {
    && (forall i | 0 <= i < |turns| :: turns[i].Go? || (turns[i].Switch? && from <= turns[i].k < to))
    && forall i, j | 0 <= i < j < |turns| && turns[i].Switch? && turns[j].Switch? :: turns[j].k < turns[i].k
  }

  ghost predicate Rightwards(turns: seq<Turn>, to: nat) {
    && (forall i | 0 <= i < |turns| :: turns[i].Go? || (turns[i].Switch? && turns[i].k < to))
    && forall i, j | 0 <= i < j < |turns| && turns[i].Switch? && turns[j].Switch? :: turns[i].k < turns[j].k
  }

  /** A start goes from the sink to the source. */
  lemma {:induction false} StartsFromTheSink(others: seq<seq<Turn>>, k: nat, on: bool)
    requires k <= |others| && forall j | 0 <= j < |others| :: OnlyGo(others[j])
    ensures Leftwards(Downwards(others, k, on), k, |others|)
    decreases |others| - k
  {
    if k < |others| {
      StartsFromTheSink(others, k + 1, on);
      var rest, turns := Downwards(others, k + 1, on), Downwards(others, k, on);
      assert OnlyGo(others[k]);
      forall i | 0 <= i < |turns|
        ensures turns[i] ==
          if i < |rest| then rest[i] else if i == |rest| then Switch(k, on) else others[k][i - |rest| - 1]
      {
      }
    }
  }

  /** A stop goes from the source to the sink. */
  lemma {:induction false} StopsFromTheSource(others: seq<seq<Turn>>, k: nat, on: bool)
    requires k <= |others| && forall j | 0 <= j < |others| :: OnlyGo(others[j])
    ensures Rightwards(Upwards(others, k, on), k)
  {
    if k > 0 {
      StopsFromTheSource(others, k - 1, on);
      var rest, turns := Upwards(others, k - 1, on), Upwards(others, k, on);
      assert OnlyGo(others[k - 1]);
      forall i | 0 <= i < |turns|
        ensures turns[i] ==
          if i < |rest| then rest[i] else if i == |rest| then Switch(k - 1, on) else others[k - 1][i - |rest| - 1]
      {
      }
    }
  }

  /**
   `mtdp_pipeline_start` on an enabled pipeline, src/pipeline.c:232-259: enables the workers from
   the sink back to the source while those enabled already go on (`others`), and does nothing else.
   */
  method Start(session: Session, others: seq<seq<Turn>>) returns (ok: bool, ghost acts: seq<Action>)
    requires session.Valid() && InRange(session.setup.prog, others) && forall k | 0 <= k < |others| :: OnlyGo(others[k])
    modifies session`active, session`workers, session`state, session`schedule, session`Repr, session.Repr
    ensures session.Valid() && fresh(session.Repr - old(session.Repr))
    ensures session.active && ok == !old(session.active)
    ensures session.schedule == old(session.schedule) + acts
    ensures Took(session.setup, old(session.schedule), if ok then Downwards(others, 0, true) else [], acts,
                 session.Policies())
    ensures ok ==> forall k | 0 <= k < |session.workers| :: session.workers[k].enabled
  {
    hide Session.Valid, Session.Policies, Took, OnlyGo;
    session.Sizes();
    ok, acts := !session.active, [];
    TookNothing(session.setup, session.schedule, session.Policies());
    if ok {
      var k := |others|;
      while k > 0
        invariant 0 <= k <= |others| == |session.workers| == session.setup.prog.n + 2
        invariant session.Valid() && fresh(session.Repr - old(session.Repr))
        invariant session.schedule == old(session.schedule) + acts
        invariant Took(session.setup, old(session.schedule), Downwards(others, k, true), acts, session.Policies())
        invariant forall j | k <= j < |session.workers| :: session.workers[j].enabled
      {
        k := k - 1;
        ghost var more := SwitchOne(session, k, true, others[k]);
        TookThenTook(session.setup, old(session.schedule), Downwards(others, k + 1, true), acts,
                     [Switch(k, true)] + others[k], more, session.Policies());
        acts := acts + more;
      }
      session.SetActive(true);
    }
  }

  /**
   `mtdp_pipeline_stop` on an enabled pipeline, src/pipeline.c:261-288: disables the workers from
   the source on while all of them go on (`others`). Nothing else happens, so what was in the
   pipeline stays there.
   */
  method Stop(session: Session, others: seq<seq<Turn>>) returns (ok: bool, ghost acts: seq<Action>)
    requires session.Valid() && InRange(session.setup.prog, others) && forall k | 0 <= k < |others| :: OnlyGo(others[k])
    modifies session`active, session`workers, session`state, session`schedule, session`Repr, session.Repr
    ensures session.Valid() && fresh(session.Repr - old(session.Repr))
    ensures !session.active && ok == old(session.active)
    ensures session.schedule == old(session.schedule) + acts
    ensures Took(session.setup, old(session.schedule), if ok then Upwards(others, |others|, false) else [], acts,
                 session.Policies())
    ensures ok ==> forall k | 0 <= k < |session.workers| :: !session.workers[k].enabled
  {
    hide Session.Valid, Session.Policies, Took, OnlyGo;
    session.Sizes();
    ok, acts := session.active, [];
    TookNothing(session.setup, session.schedule, session.Policies());
    if ok {
      var k := 0;
      while k < |others|
        invariant 0 <= k <= |others| == |session.workers| == session.setup.prog.n + 2
        invariant session.Valid() && fresh(session.Repr - old(session.Repr))
        invariant session.schedule == old(session.schedule) + acts
        invariant Took(session.setup, old(session.schedule), Upwards(others, k, false), acts, session.Policies())
        invariant forall j | 0 <= j < k :: !session.workers[j].enabled
      {
        ghost var more := SwitchOne(session, k, false, others[k]);
        TookThenTook(session.setup, old(session.schedule), Upwards(others, k, false), acts,
                     [Switch(k, false)] + others[k], more, session.Policies());
        acts := acts + more;
        k := k + 1;
      }
      session.SetActive(false);
    }
  }

  // ------------------------------------------------------------------------------------------
  // Disabling
  // ------------------------------------------------------------------------------------------

  /** The workers before number `k` are destroyed; after each anybody goes on. */
  function Kills(others: seq<seq<Turn>>, k: nat): seq<Turn>
    requires k <= |others|
  {
    if k == 0 then [] else Kills(others, k - 1) + ([Kill(k - 1)] + others[k - 1])
  }

  /** One worker is destroyed, then anybody goes on. */
  method DestroyOne(session: Session, k: nat, others: seq<Turn>) returns (ghost acts: seq<Action>)
    requires session.Valid() && k <= session.setup.prog.n + 1
    requires forall i | 0 <= i < |others| :: others[i].k <= session.setup.prog.n + 1
    modifies session`workers, session`state, session`schedule, session`Repr, session.Repr
    ensures session.Valid() && fresh(session.Repr - old(session.Repr))
    ensures session.schedule == old(session.schedule) + acts
    ensures Took(session.setup, old(session.schedule), [Kill(k)] + others, acts, session.Policies())
    ensures k < |session.workers| == |old(session.workers)| == session.setup.prog.n + 2
    ensures session.workers[k].destroyed
    ensures forall j | 0 <= j < |session.workers| && old(session.workers)[j].destroyed :: session.workers[j].destroyed
  {
    hide Session.Valid, Session.Policies, Step, Traces, Honest, Took;
    session.Sizes();
    ghost var before, was := session.schedule, session.state;
    session.DestroyWorker(k);
    session.Sizes();
    ghost var mid, switched := session.schedule, session.state;
    ghost var more := session.Run(others);
    session.Sizes();
    acts := [SetDestroyed(k)] + more;
    DestroyedForGood(session.setup.prog, switched, more);
    TookOne(session.setup, before, was, Kill(k), SetDestroyed(k), session.Policies());
    TookThenTook(session.setup, before, [Kill(k)], [SetDestroyed(k)], others, more, session.Policies());
  }

  /** src/pipeline.c:206-210. */
  method DestroyAll(session: Session, others: seq<seq<Turn>>) returns (ghost acts: seq<Action>)
    requires session.Valid() && InRange(session.setup.prog, others)
    modifies session`workers, session`state, session`schedule, session`Repr, session.Repr
    ensures session.Valid() && fresh(session.Repr - old(session.Repr))
    ensures session.schedule == old(session.schedule) + acts
    ensures Took(session.setup, old(session.schedule), Kills(others, |others|), acts, session.Policies())
    ensures |session.workers| == session.setup.prog.n + 2
    ensures forall k | 0 <= k < |session.workers| :: session.workers[k].destroyed
  {
    hide Session.Valid, Session.Policies, Took;
    session.Sizes();
    acts := [];
    TookNothing(session.setup, session.schedule, session.Policies());
    var k := 0;
    while k < |others|
      invariant 0 <= k <= |others| == |session.workers| == session.setup.prog.n + 2
      invariant session.Valid() && fresh(session.Repr - old(session.Repr))
      invariant session.schedule == old(session.schedule) + acts
      invariant Took(session.setup, old(session.schedule), Kills(others, k), acts, session.Policies())
      invariant forall j | 0 <= j < k :: session.workers[j].destroyed
    {
      ghost var more := DestroyOne(session, k, others[k]);
      TookThenTook(session.setup, old(session.schedule), Kills(others, k), acts, [Kill(k)] + others[k], more,
                     session.Policies());
      acts := acts + more;
      k := k + 1;
    }
  }

  /** `mtdp_pipeline_join`, src/pipeline.c:50-58: each destroyed worker gets the turns it still needs. */
  method Join(session: Session, joining: seq<Turn>) returns (ghost acts: seq<Action>)
    requires session.Valid() && forall i | 0 <= i < |joining| :: joining[i].k <= session.setup.prog.n + 1
    requires forall k | 0 <= k <= session.setup.prog.n + 1 :: StepsOf(joining, k) >= 10
    requires forall k | 0 <= k < |session.workers| :: session.workers[k].destroyed
    modifies session`workers, session`state, session`schedule, session`Repr, session.Repr
    ensures session.Valid() && fresh(session.Repr - old(session.Repr)) && Joined(session)
    ensures session.schedule == old(session.schedule) + acts
    ensures Took(session.setup, old(session.schedule), joining, acts, session.Policies())
  {
    hide Session.Policies, Session.Structure, Step, Traces, Honest, Took, Accounted;
    session.Sizes();
    ghost var before, was := session.schedule, session.state;
    TracedIsReachable(session.setup, before, was);
    acts := session.Run(joining);
    forall k | 0 <= k <= session.setup.prog.n + 1 ensures Machine.Turns(acts, k) >= 10 {
      StepsAreTaken(session.setup, before, joining, acts, k, session.Policies());
    }
    JoinEnds(session.setup, was, acts);
  }

  /**
   `mtdp_pipeline_disable` on an enabled pipeline, src/pipeline.c:200-230: destroys the workers
   one after the other while anybody goes on (`others`), joins them (`joining`) and clears the pipes
   and contexts. Every buffer is back in the pool of its pipe, in the array the user was given, and
   what had been popped when the threads were joined (`joined`) is left as it is.
   */
  method Disable(session: Session, others: seq<seq<Turn>>, joining: seq<Turn>, granted: bool)
    returns (ghost acts: seq<Action>, ghost joined: State)
    requires session.Valid() && InRange(session.setup.prog, others)
    requires forall i | 0 <= i < |joining| :: joining[i].k <= session.setup.prog.n + 1
    requires forall k | 0 <= k <= session.setup.prog.n + 1 :: StepsOf(joining, k) >= 10
    modifies session`active, session`workers, session`state, session`schedule, session`Repr, session.Repr
    ensures session.Linked() && fresh(session.Repr - old(session.Repr)) && !session.active
    ensures session.schedule == old(session.schedule) + acts
    ensures Took(session.setup, old(session.schedule), Kills(others, |others|) + joining, acts, session.Policies())
    ensures Traces(session.setup, session.schedule, joined)
    ensures |session.workers| == |joined.workers| == session.setup.prog.n + 2
    ensures forall k | 0 <= k < |session.workers| ::
              joined.workers[k].pc == Exited && session.workers[k] == Reset(joined.workers[k])
    ensures |session.setup.buffers| == |session.arrays| == |session.pipes|
    ensures forall p | 0 <= p < |session.pipes| ::
              && session.pipes[p].Valid()
              && AllHome(session.setup.buffers[p], session.pipes[p].View())
              && session.pipes[p].Array() == session.arrays[p]
    ensures SameReceived(joined.pipes, session.state.pipes)
  {
    hide Session.Valid, Session.Policies, Session.Linked, Took, Traces, Honest, Step, AllHome, SameReceived,
      Pipe.Valid, Pipe.View, Pipe.Array;
    session.Sizes();
    acts := DestroyAll(session, others);
    ghost var more := Join(session, joining);
    TookThenTook(session.setup, old(session.schedule), Kills(others, |others|), acts, joining, more,
                     session.Policies());
    acts := acts + more;
    session.Sizes();
    joined := session.state;
    Clear(session, granted);
    session.SetActive(false);
    RealPipesAreHome(session);
  }
}
