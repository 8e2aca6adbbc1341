/** The routine of the source, src/source.c:36-70, on the context and the pipe of a session. */
module SourceRoutine {
  import opened Program
  import opened Machine
  import opened Turns
  import opened Session
  import opened RoutineParts

  /** src/source.c:53-68: with a buffer to fill, the callback is called. */
  method ProcessIfPossible(session: Session, atTake: seq<Turn>, atCall: seq<Turn>, answers: Answers)
    requires session.At(0, Take) && Theirs(session.setup.prog, atTake, 0) && Theirs(session.setup.prog, atCall, 0)
    modifies session`workers, session`state, session`schedule, session`Repr, session.Repr
    ensures session.At(0, Top) && fresh(session.Repr - old(session.Repr))
    ensures Grew(session.setup, old(session.schedule), session.schedule, 0, InCallback, atTake + atCall,
                 {answers}, session.Policies())
    ensures 0 < |old(session.workers)|
    ensures var called := session.workers[0].calls - old(session.workers)[0].calls;
            0 <= called <= 1 && (old(session.workers)[0].output.Some? ==> called == 1)
  {
    hide Session.Valid, Session.Policies, Grew, Theirs, Program.CallSource;
    session.Sizes();
    ghost var was := session.schedule;
    TakeIfNone(session, 0, atTake, answers);
    ghost var mid := session.schedule;
    if session.workers[0].output.Some? {
      session.ThenCallSource(0, atCall, answers);
    } else {
      Skip(session, 0, atCall, Top, {answers});
    }
    GrewThenGrew(session.setup, was, mid, session.schedule, 0, InCallback, atTake, atCall, {answers},
                 session.Policies());
  }

  /** One round: what the others do in it, in order. */
  function Round(gaps: Gaps): seq<Turn> {
    gaps.push + gaps.post + (gaps.take + gaps.call)
  }

  /**
   `mtdp_source_routine`, from its first line to its return: on the real pipe and the real context it
   takes steps of the source inside its callback, one round of them, and lets the others take the
   turns they are given; nothing else happens in the session.
   */
  method Routine(session: Session, gaps: Gaps, answers: Answers)
    requires session.At(0, Push) && gaps.Fit(session.setup.prog, 0)
    modifies session`workers, session`state, session`schedule, session`Repr, session.Repr
    ensures session.At(0, Top) && fresh(session.Repr - old(session.Repr))
    ensures Grew(session.setup, old(session.schedule), session.schedule, 0, InCallback, Round(gaps),
                 {answers}, session.Policies())
    ensures 0 < |old(session.workers)|
    ensures 0 <= session.workers[0].calls - old(session.workers)[0].calls <= 1
  {
    hide Session.Valid, Session.Policies, Grew, Theirs;
    session.Sizes();
    ghost var was := session.schedule;
    var goOn := PushIfReady(session, 0, gaps.push, gaps.post, answers);
    ghost var mid := session.schedule;
    if goOn {
      ProcessIfPossible(session, gaps.take, gaps.call, answers);
      GrewThenGrew(session.setup, was, mid, session.schedule, 0, InCallback, gaps.push + gaps.post,
                   gaps.take + gaps.call, {answers}, session.Policies());
    } else {
      var rest := gaps.post + (gaps.take + gaps.call);
      BothTheirs(session.setup.prog, gaps.take, gaps.call, 0);
      BothTheirs(session.setup.prog, gaps.post, gaps.take + gaps.call, 0);
      session.Others(0, InCallback, rest, {answers});
      GrewThenGrew(session.setup, was, mid, session.schedule, 0, InCallback, gaps.push, rest, {answers},
                   session.Policies());
      assert gaps.push + rest == Round(gaps);
    }
  }
}
