/** The routine of an internal stage, src/stage.c:82-155, on the context and the pipes of a session. */
module StageRoutine {
  import opened Buffers
  import opened Program
  import opened Machine
  import opened Turns
  import opened Session
  import opened RoutineParts

  /** src/stage.c:142-145: an input that is done with is put back; the result is ignored. */
  method PutBackIfDone(session: Session, k: nat, turns: seq<Turn>, answers: Answers)
    requires session.Valid() && 0 < k <= session.setup.prog.n && k < |session.workers|
    requires Theirs(session.setup.prog, turns, k)
    requires var w := session.workers[k];
             w.input.Some? && w.pc == if w.readyToPull then PC.PutBack else Top
    modifies session`workers, session`state, session`schedule, session`Repr, session.Repr
    ensures session.Valid() && fresh(session.Repr - old(session.Repr))
    ensures Grew(session.setup, old(session.schedule), session.schedule, k, InCallback, turns, {answers},
                 session.Policies())
    ensures k < |old(session.workers)| == |session.workers|
    ensures var w := old(session.workers)[k];
            SameButFlags(if w.readyToPull then w.(pc := Top, input := None) else w, session.workers[k])
  {
    hide Session.Valid, Session.Policies, Grew, Theirs;
    session.Sizes();
    if session.workers[k].readyToPull {
      ReturnInput(session, k, turns, answers);
    } else {
      session.Others(k, InCallback, turns, {answers});
    }
  }

  /** src/stage.c:135-145. */
  method ProcessAndReturn(session: Session, k: nat, atCall: seq<Turn>, atPutBack: seq<Turn>, answers: Answers)
    requires session.At(k, PC.Call) && 0 < k <= session.setup.prog.n
    requires session.workers[k].input.Some? && session.workers[k].output.Some?
    requires Theirs(session.setup.prog, atCall, k) && Theirs(session.setup.prog, atPutBack, k)
    modifies session`workers, session`state, session`schedule, session`Repr, session.Repr
    ensures session.At(k, Top) && fresh(session.Repr - old(session.Repr))
    ensures Grew(session.setup, old(session.schedule), session.schedule, k, InCallback, atCall + atPutBack,
                 {answers}, session.Policies())
    ensures k < |old(session.workers)| && session.workers[k].calls == old(session.workers)[k].calls + 1
    ensures (session.workers[k].input == None) == session.workers[k].readyToPull
  {
    hide Session.Valid, Session.Policies, Grew, Theirs, Program.CallStage;
    session.Sizes();
    ghost var was := session.schedule;
    ghost var r, x;
    r, x := session.ThenCallStage(k, atCall, answers);
    ghost var mid := session.schedule;
    PutBackIfDone(session, k, atPutBack, answers);
    GrewThenGrew(session.setup, was, mid, session.schedule, k, InCallback, atCall, atPutBack, {answers},
                 session.Policies());
  }

  /** src/stage.c:134-149: with a buffer to fill, the callback is called. */
  method ProcessIfPossible(session: Session, k: nat, atCall: seq<Turn>, atPutBack: seq<Turn>, answers: Answers)
    requires session.At(k, PC.Call) && 0 < k <= session.setup.prog.n && session.workers[k].input.Some?
    requires Theirs(session.setup.prog, atCall, k) && Theirs(session.setup.prog, atPutBack, k)
    modifies session`workers, session`state, session`schedule, session`Repr, session.Repr
    ensures session.At(k, Top) && fresh(session.Repr - old(session.Repr))
    ensures Grew(session.setup, old(session.schedule), session.schedule, k, InCallback, atCall + atPutBack,
                 {answers}, session.Policies())
    ensures k < |old(session.workers)|
    ensures session.workers[k].calls ==
              old(session.workers)[k].calls + if old(session.workers)[k].output.Some? then 1 else 0
  {
    hide Session.Valid, Session.Policies, Grew, Theirs;
    session.Sizes();
    if session.workers[k].output.Some? {
      ProcessAndReturn(session, k, atCall, atPutBack, answers);
    } else {
      BothTheirs(session.setup.prog, atCall, atPutBack, k);
      Skip(session, k, atCall + atPutBack, Top, {answers});
    }
  }

  /** src/stage.c:131-149. */
  method TakeAndProcess(session: Session, k: nat, gaps: Gaps, answers: Answers)
    requires session.At(k, Take) && 0 < k <= session.setup.prog.n && session.workers[k].input.Some?
    requires gaps.Fit(session.setup.prog, k)
    modifies session`workers, session`state, session`schedule, session`Repr, session.Repr
    ensures session.At(k, Top) && fresh(session.Repr - old(session.Repr))
    ensures Grew(session.setup, old(session.schedule), session.schedule, k, InCallback, AtProcess(gaps),
                 {answers}, session.Policies())
    ensures k < |old(session.workers)| && 0 <= session.workers[k].calls - old(session.workers)[k].calls <= 1
  {
    hide Session.Valid, Session.Policies, Grew, Theirs;
    session.Sizes();
    ghost var was := session.schedule;
    TakeIfNone(session, k, gaps.take, answers);
    ghost var mid := session.schedule;
    ProcessIfPossible(session, k, gaps.call, gaps.putBack, answers);
    GrewThenGrew(session.setup, was, mid, session.schedule, k, InCallback, gaps.take, gaps.call + gaps.putBack,
                 {answers}, session.Policies());
  }

  /** What the others do in the parts of a round, in order. */
  function AtProcess(gaps: Gaps): seq<Turn> {
    gaps.take + (gaps.call + gaps.putBack)
  }

  function AtPull(gaps: Gaps): seq<Turn> {
    gaps.acquire + gaps.pull + AtProcess(gaps)
  }

  function Round(gaps: Gaps): seq<Turn> {
    gaps.push + gaps.post + AtPull(gaps)
  }

  lemma AllTheirs(session: Session, k: nat, gaps: Gaps)
    requires gaps.Fit(session.setup.prog, k)
    ensures Theirs(session.setup.prog, AtProcess(gaps), k) && Theirs(session.setup.prog, AtPull(gaps), k)
  {
    hide Theirs;
    BothTheirs(session.setup.prog, gaps.call, gaps.putBack, k);
    BothTheirs(session.setup.prog, gaps.take, gaps.call + gaps.putBack, k);
    BothTheirs(session.setup.prog, gaps.acquire, gaps.pull, k);
    BothTheirs(session.setup.prog, gaps.acquire + gaps.pull, AtProcess(gaps), k);
  }

  /** src/stage.c:130-153. */
  method ProcessOrAsk(session: Session, k: nat, gaps: Gaps, answers: Answers)
    requires session.At(k, Take) && 0 < k <= session.setup.prog.n && gaps.Fit(session.setup.prog, k)
    modifies session`workers, session`state, session`schedule, session`Repr, session.Repr
    ensures session.At(k, Top) && fresh(session.Repr - old(session.Repr))
    ensures Grew(session.setup, old(session.schedule), session.schedule, k, InCallback, AtProcess(gaps),
                 {answers}, session.Policies())
    ensures k < |old(session.workers)| && 0 <= session.workers[k].calls - old(session.workers)[k].calls <= 1
  {
    hide Session.Valid, Session.Policies, Grew, Theirs, Gaps.Fit, AtProcess;
    session.Sizes();
    AllTheirs(session, k, gaps);
    if session.workers[k].input.Some? {
      TakeAndProcess(session, k, gaps, answers);
    } else {
      AskForInput(session, k, AtProcess(gaps), {answers});
    }
  }

  /** src/stage.c:99-154. */
  method PullAndProcess(session: Session, k: nat, gaps: Gaps, answers: Answers)
    requires session.At(k, PC.Acquire) && 0 < k <= session.setup.prog.n && gaps.Fit(session.setup.prog, k)
    modifies session`workers, session`state, session`schedule, session`Repr, session.Repr
    ensures session.At(k, Top) && fresh(session.Repr - old(session.Repr))
    ensures Grew(session.setup, old(session.schedule), session.schedule, k, InCallback, AtPull(gaps),
                 {answers}, session.Policies())
    ensures k < |old(session.workers)| && 0 <= session.workers[k].calls - old(session.workers)[k].calls <= 1
  {
    hide Session.Valid, Session.Policies, Grew, Theirs, AtProcess;
    session.Sizes();
    AllTheirs(session, k, gaps);
    ghost var was := session.schedule;
    var goOn := PullIfReady(session, k, gaps.acquire, gaps.pull, answers);
    ghost var mid := session.schedule;
    if goOn {
      ProcessOrAsk(session, k, gaps, answers);
    } else {
      session.Others(k, InCallback, AtProcess(gaps), {answers});
    }
    GrewThenGrew(session.setup, was, mid, session.schedule, k, InCallback, gaps.acquire + gaps.pull, AtProcess(gaps),
                 {answers}, session.Policies());
  }

  /**
   `mtdp_stage_routine`, from its first line to its return: on the real pipes and the real context it
   takes steps of stage `k` inside its callback, one round of them, and lets the others take the turns
   they are given; nothing else happens in the session.
   */
  method Routine(session: Session, k: nat, gaps: Gaps, answers: Answers)
    requires session.At(k, Push) && 0 < k <= session.setup.prog.n && gaps.Fit(session.setup.prog, k)
    modifies session`workers, session`state, session`schedule, session`Repr, session.Repr
    ensures session.At(k, Top) && fresh(session.Repr - old(session.Repr))
    ensures Grew(session.setup, old(session.schedule), session.schedule, k, InCallback, Round(gaps),
                 {answers}, session.Policies())
    ensures k < |old(session.workers)| && 0 <= session.workers[k].calls - old(session.workers)[k].calls <= 1
  {
    hide Session.Valid, Session.Policies, Grew, Theirs, AtPull;
    session.Sizes();
    AllTheirs(session, k, gaps);
    ghost var was := session.schedule;
    var goOn := PushIfReady(session, k, gaps.push, gaps.post, answers);
    ghost var mid := session.schedule;
    if goOn {
      PullAndProcess(session, k, gaps, answers);
      GrewThenGrew(session.setup, was, mid, session.schedule, k, InCallback, gaps.push + gaps.post, AtPull(gaps),
                   {answers}, session.Policies());
    } else {
      var rest := gaps.post + AtPull(gaps);
      BothTheirs(session.setup.prog, gaps.post, AtPull(gaps), k);
      session.Others(k, InCallback, rest, {answers});
      GrewThenGrew(session.setup, was, mid, session.schedule, k, InCallback, gaps.push, rest, {answers},
                   session.Policies());
      assert gaps.push + rest == Round(gaps);
    }
  }
}
