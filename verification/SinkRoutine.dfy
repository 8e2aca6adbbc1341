/** The routine of the sink, src/sink.c:36-96, on the context and the pipe of a session. */
module SinkRoutine {
  import opened Buffers
  import opened Program
  import opened Machine
  import opened Turns
  import opened Session
  import opened RoutineParts

  /** src/sink.c:41-51: a buffer that is done with is given back, which never fails. */
  method PutBackIfDone(session: Session, k: nat, turns: seq<Turn>, answers: Answers)
    requires session.At(k, PC.PutBack) && k == session.setup.prog.n + 1 && Theirs(session.setup.prog, turns, k)
    modifies session`workers, session`state, session`schedule, session`Repr, session.Repr
    ensures session.Valid() && fresh(session.Repr - old(session.Repr))
    ensures Grew(session.setup, old(session.schedule), session.schedule, k, InCallback, turns, {answers},
                 session.Policies())
    ensures k < |old(session.workers)| == |session.workers|
    ensures var w := old(session.workers)[k];
            var input := if w.readyToPull then None else w.input;
            SameButFlags(w.(pc := PC.Acquire, input := input), session.workers[k])
  {
    hide Session.Valid, Session.Policies, Grew, Theirs;
    session.Sizes();
    if session.workers[k].readyToPull && session.workers[k].input.Some? {
      ReturnInput(session, k, turns, answers);
    } else {
      Skip(session, k, turns, PC.Acquire, {answers});
    }
  }

  /** src/sink.c:82-94: with an input the callback is called, otherwise one is asked for. */
  method ProcessIfPossible(session: Session, k: nat, turns: seq<Turn>, answers: Answers)
    requires session.At(k, PC.Call) && k == session.setup.prog.n + 1 && Theirs(session.setup.prog, turns, k)
    modifies session`workers, session`state, session`schedule, session`Repr, session.Repr
    ensures session.At(k, Top) && fresh(session.Repr - old(session.Repr))
    ensures Grew(session.setup, old(session.schedule), session.schedule, k, InCallback, turns, {answers},
                 session.Policies())
    ensures k < |old(session.workers)|
    ensures session.workers[k].calls ==
              old(session.workers)[k].calls + if old(session.workers)[k].input.Some? then 1 else 0
  {
    hide Session.Valid, Session.Policies, Grew, Theirs, Program.CallSink;
    session.Sizes();
    if session.workers[k].input.Some? {
      ghost var r, x;
      r, x := session.ThenCallSink(k, turns, answers);
    } else {
      AskForInput(session, k, turns, {answers});
    }
  }

  /** src/sink.c:61-95. */
  method PullAndProcess(session: Session, k: nat, gaps: Gaps, answers: Answers)
    requires session.At(k, PC.Acquire) && k == session.setup.prog.n + 1 && gaps.Fit(session.setup.prog, k)
    modifies session`workers, session`state, session`schedule, session`Repr, session.Repr
    ensures session.At(k, Top) && fresh(session.Repr - old(session.Repr))
    ensures Grew(session.setup, old(session.schedule), session.schedule, k, InCallback,
                 gaps.acquire + gaps.pull + gaps.call, {answers}, session.Policies())
    ensures k < |old(session.workers)| && 0 <= session.workers[k].calls - old(session.workers)[k].calls <= 1
  {
    hide Session.Valid, Session.Policies, Grew, Theirs;
    session.Sizes();
    ghost var was := session.schedule;
    var goOn := PullIfReady(session, k, gaps.acquire, gaps.pull, answers);
    ghost var mid := session.schedule;
    if goOn {
      ProcessIfPossible(session, k, gaps.call, answers);
    } else {
      session.Others(k, InCallback, gaps.call, {answers});
    }
    GrewThenGrew(session.setup, was, mid, session.schedule, k, InCallback, gaps.acquire + gaps.pull, gaps.call,
                 {answers}, session.Policies());
  }

  /** One round: what the others do in it, in order. */
  function Round(gaps: Gaps): seq<Turn> {
    gaps.putBack + (gaps.acquire + gaps.pull + gaps.call)
  }

  /**
   `mtdp_sink_routine`, from its first line to its return: on the real pipe and the real context it
   takes steps of the sink inside its callback, one round of them, and lets the others take the turns
   they are given; nothing else happens in the session.
   */
  method Routine(session: Session, k: nat, gaps: Gaps, answers: Answers)
    requires session.At(k, PC.PutBack) && k == session.setup.prog.n + 1 && gaps.Fit(session.setup.prog, k)
    modifies session`workers, session`state, session`schedule, session`Repr, session.Repr
    ensures session.At(k, Top) && fresh(session.Repr - old(session.Repr))
    ensures Grew(session.setup, old(session.schedule), session.schedule, k, InCallback, Round(gaps),
                 {answers}, session.Policies())
    ensures k < |old(session.workers)| && 0 <= session.workers[k].calls - old(session.workers)[k].calls <= 1
  {
    hide Session.Valid, Session.Policies, Grew, Theirs;
    session.Sizes();
    ghost var was := session.schedule;
    PutBackIfDone(session, k, gaps.putBack, answers);
    ghost var mid := session.schedule;
    PullAndProcess(session, k, gaps, answers);
    GrewThenGrew(session.setup, was, mid, session.schedule, k, InCallback, gaps.putBack,
                 gaps.acquire + gaps.pull + gaps.call, {answers}, session.Policies());
  }
}
