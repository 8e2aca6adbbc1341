/**
 What the routines of the source, the stages and the sink have in common, on the contexts and the
 real pipes of a session. In front of each critical section the others take the turns they are
 given; a section that is skipped still gives them their turns.
 */
module RoutineParts {
  import opened Buffers
  import opened Program
  import opened Machine
  import opened Turns
  import opened StepEffects
  import opened Session

  /** What the others do in front of each critical section of one round. */
  datatype Gaps = Gaps(push: seq<Turn>, post: seq<Turn>, acquire: seq<Turn>, pull: seq<Turn>, take: seq<Turn>,
                       call: seq<Turn>, putBack: seq<Turn>)
  {
    ghost predicate Fit(prog: Program, k: nat) {
      && Theirs(prog, push, k) && Theirs(prog, post, k) && Theirs(prog, acquire, k) && Theirs(prog, pull, k)
      && Theirs(prog, take, k) && Theirs(prog, call, k) && Theirs(prog, putBack, k)
    }
  }

  /** The context after a round has got past the push. */
  function Pushed(w: Worker, next: PC): Worker {
    if w.readyToPush then w.(pc := next, output := None, readyToPush := false) else w.(pc := next)
  }

  /** Where a routine goes on when there is nothing to push any more. */
  function AfterPush(k: nat): PC {
    if k == 0 then Take else PC.Acquire
  }

  /** src/stage.c:90-91, src/source.c:44-45. */
  method ResetOutput(session: Session, k: nat, ghost own: set<Answers>)
    requires session.At(k, ResetOut) && k <= session.setup.prog.n && own != {}
    modifies session`workers, session`state, session`schedule
    ensures session.Valid() && session.Repr == old(session.Repr)
    ensures Grew(session.setup, old(session.schedule), session.schedule, k, InCallback, [], own, session.Policies())
    ensures k < |old(session.workers)|
    ensures var w := old(session.workers)[k];
            session.workers == old(session.workers)[k := w.(pc := AfterPush(k), output := None, readyToPush := false)]
  {
    hide Session.Valid, Session.Policies, Grew;
    session.Sizes();
    var w := session.workers[k];
    session.Write(k, w.(pc := AfterPush(k), output := None, readyToPush := false), InCallback, own);
  }

  /**
   src/stage.c:88-97, src/source.c:42-51. A push is refused only when the deque is full and gets no memory;
   the others then have not yet taken their turns before the release.
   */
  method PushFlagged(session: Session, k: nat, atPush: seq<Turn>, atPost: seq<Turn>, answers: Answers)
    returns (goOn: bool)
    requires session.At(k, Push) && k <= session.setup.prog.n && session.workers[k].readyToPush
    requires Theirs(session.setup.prog, atPush, k) && Theirs(session.setup.prog, atPost, k)
    modifies session`workers, session`state, session`schedule, session`Repr, session.Repr
    ensures session.Valid() && fresh(session.Repr - old(session.Repr))
    ensures Grew(session.setup, old(session.schedule), session.schedule, k, InCallback,
                 if goOn then atPush + atPost else atPush, {answers}, session.Policies())
    ensures k < |old(session.workers)| == |session.workers|
    ensures var w := old(session.workers)[k];
            SameButFlags(if goOn then Pushed(w, AfterPush(k)) else w.(pc := Top), session.workers[k])
    ensures !goOn ==> session.Refuses(k, answers)
  {
    hide Session.Valid, Session.Structure, Session.Policies, Session.Refuses, Grew, Theirs, AfterPush;
    session.Sizes();
    ghost var was := session.schedule;
    goOn := session.ThenPush(k, atPush, answers);
    if goOn {
      ghost var mid := session.schedule;
      session.ThenPost(k, atPost, answers);
      GrewThenGrew(session.setup, was, mid, session.schedule, k, InCallback, atPush, atPost, {answers},
                   session.Policies());
      mid := session.schedule;
      ResetOutput(session, k, {answers});
      GrewThenGrew(session.setup, was, mid, session.schedule, k, InCallback, atPush + atPost, [], {answers},
                   session.Policies());
      assert atPush + atPost + [] == atPush + atPost;
    }
  }

  lemma SkipsStill(session: Session, k: nat, w: Worker, w': Worker, pc: PC)
    requires !AtLoop(w.pc) && OwnStep(session.setup.prog, k, w) == Some(w.(pc := pc)) && SameButFlags(w, w')
    ensures OwnStep(session.setup.prog, k, w') == Some(w'.(pc := pc)) && Inside(InCallback, w'.pc)
  {
  }

  lemma Moves(w: Worker, w': Worker, pc: PC)
    requires SameButFlags(w, w')
    ensures SameButFlags(w.(pc := pc), w'.(pc := pc))
  {
  }

  /** The others take their turns, then the routine goes on at `pc` without any operation. */
  method Skip(session: Session, k: nat, turns: seq<Turn>, pc: PC, ghost own: set<Answers>)
    requires session.Valid() && k <= session.setup.prog.n + 1 && k < |session.workers|
    requires Theirs(session.setup.prog, turns, k) && own != {}
    requires var w := session.workers[k];
             !AtLoop(w.pc) && OwnStep(session.setup.prog, k, w) == Some(w.(pc := pc))
    modifies session`workers, session`state, session`schedule, session`Repr, session.Repr
    ensures session.Valid() && fresh(session.Repr - old(session.Repr))
    ensures Grew(session.setup, old(session.schedule), session.schedule, k, InCallback, turns, own, session.Policies())
    ensures k < |old(session.workers)| == |session.workers|
    ensures SameButFlags(old(session.workers)[k].(pc := pc), session.workers[k])
  {
    hide Session.Valid, Session.Policies, Grew, Theirs, OwnStep, SameButFlags, AtLoop, Inside;
    session.Sizes();
    ghost var was, w := session.schedule, session.workers[k];
    session.Others(k, InCallback, turns, own);
    ghost var mid := session.schedule;
    SkipsStill(session, k, w, session.workers[k], pc);
    Moves(w, session.workers[k], pc);
    session.Write(k, session.workers[k].(pc := pc), InCallback, own);
    GrewThenGrew(session.setup, was, mid, session.schedule, k, InCallback, turns, [], own, session.Policies());
    assert turns + [] == turns;
  }

  /** Nothing is flagged. */
  method SkipPush(session: Session, k: nat, atPush: seq<Turn>, atPost: seq<Turn>, ghost own: set<Answers>)
    requires session.At(k, Push) && k <= session.setup.prog.n && !session.workers[k].readyToPush && own != {}
    requires Theirs(session.setup.prog, atPush, k) && Theirs(session.setup.prog, atPost, k)
    modifies session`workers, session`state, session`schedule, session`Repr, session.Repr
    ensures session.Valid() && fresh(session.Repr - old(session.Repr))
    ensures Grew(session.setup, old(session.schedule), session.schedule, k, InCallback, atPush + atPost, own,
                 session.Policies())
    ensures k < |old(session.workers)| == |session.workers|
    ensures SameButFlags(old(session.workers)[k].(pc := AfterPush(k)), session.workers[k])
  {
    hide Session.Valid, Session.Policies, Grew, Theirs;
    session.Sizes();
    ghost var was := session.schedule;
    session.Others(k, InCallback, atPush, own);
    ghost var mid := session.schedule;
    Skip(session, k, atPost, AfterPush(k), own);
    GrewThenGrew(session.setup, was, mid, session.schedule, k, InCallback, atPush, atPost, own, session.Policies());
  }

  /**
   src/stage.c:87-98, src/source.c:41-52: a flagged buffer is pushed and its field reset; the routine
   returns only when the deque is full and gets no memory.
   */
  method PushIfReady(session: Session, k: nat, atPush: seq<Turn>, atPost: seq<Turn>, answers: Answers)
    returns (goOn: bool)
    requires session.At(k, Push) && k <= session.setup.prog.n
    requires Theirs(session.setup.prog, atPush, k) && Theirs(session.setup.prog, atPost, k)
    modifies session`workers, session`state, session`schedule, session`Repr, session.Repr
    ensures session.Valid() && fresh(session.Repr - old(session.Repr))
    ensures Grew(session.setup, old(session.schedule), session.schedule, k, InCallback,
                 if goOn then atPush + atPost else atPush, {answers}, session.Policies())
    ensures k < |old(session.workers)| == |session.workers|
    ensures var w := old(session.workers)[k];
            SameButFlags(if goOn then Pushed(w, AfterPush(k)) else w.(pc := Top), session.workers[k])
    ensures !goOn ==> old(session.workers)[k].readyToPush && session.Refuses(k, answers)
  {
    hide Session.Valid, Session.Structure, Session.Policies, Session.Refuses, Grew, Theirs, AfterPush;
    session.Sizes();
    goOn := true;
    if session.workers[k].readyToPush {
      goOn := PushFlagged(session, k, atPush, atPost, answers);
    } else {
      SkipPush(session, k, atPush, atPost, {answers});
    }
  }

  /** Where a routine goes on once it has an input. */
  function AfterPull(session: Session, k: nat): PC {
    if k == session.setup.prog.n + 1 then PC.Call else Take
  }

  /** src/stage.c:109-128, src/sink.c:61-80; after a permit there always is a buffer. */
  method PullWanted(session: Session, k: nat, atAcquire: seq<Turn>, atPull: seq<Turn>, answers: Answers)
    returns (goOn: bool)
    requires session.At(k, PC.Acquire) && 0 < k <= session.setup.prog.n + 1 && session.workers[k].readyToPull
    requires Theirs(session.setup.prog, atAcquire, k) && Theirs(session.setup.prog, atPull, k)
    modifies session`workers, session`state, session`schedule, session`Repr, session.Repr
    ensures session.Valid() && fresh(session.Repr - old(session.Repr))
    ensures Grew(session.setup, old(session.schedule), session.schedule, k, InCallback, atAcquire + atPull,
                 {answers}, session.Policies())
    ensures k < |old(session.workers)| == |session.workers|
    ensures var w := old(session.workers)[k];
            var b := session.workers[k].input;
            SameButFlags(if goOn then Pulled(session.setup.prog, k, w, b) else w.(pc := Top), session.workers[k])
    ensures goOn ==> session.workers[k].input.Some?
  {
    hide Session.Valid, Session.Policies, Grew, Theirs;
    session.Sizes();
    ghost var was, own := session.schedule, {answers};
    goOn := session.ThenAcquire(k, atAcquire, answers);
    ghost var mid := session.schedule;
    if goOn {
      var b := session.ThenPull(k, atPull, answers);
    } else {
      session.Others(k, InCallback, atPull, own);
    }
    GrewThenGrew(session.setup, was, mid, session.schedule, k, InCallback, atAcquire, atPull, own, session.Policies());
  }

  /** No input is asked for. */
  method SkipPull(session: Session, k: nat, atAcquire: seq<Turn>, atPull: seq<Turn>, ghost own: set<Answers>)
    requires session.At(k, PC.Acquire) && 0 < k <= session.setup.prog.n + 1 && !session.workers[k].readyToPull
    requires own != {}
    requires Theirs(session.setup.prog, atAcquire, k) && Theirs(session.setup.prog, atPull, k)
    modifies session`workers, session`state, session`schedule, session`Repr, session.Repr
    ensures session.Valid() && fresh(session.Repr - old(session.Repr))
    ensures Grew(session.setup, old(session.schedule), session.schedule, k, InCallback, atAcquire + atPull, own,
                 session.Policies())
    ensures k < |old(session.workers)| == |session.workers|
    ensures SameButFlags(old(session.workers)[k].(pc := AfterPull(session, k)), session.workers[k])
  {
    hide Session.Valid, Session.Policies, Grew, Theirs;
    session.Sizes();
    ghost var was := session.schedule;
    session.Others(k, InCallback, atAcquire, own);
    ghost var mid := session.schedule;
    Skip(session, k, atPull, AfterPull(session, k), own);
    GrewThenGrew(session.setup, was, mid, session.schedule, k, InCallback, atAcquire, atPull, own, session.Policies());
  }

  /** src/stage.c:99-129, src/sink.c:61-81: an input is fetched if one is wanted and comes in time. */
  method PullIfReady(session: Session, k: nat, atAcquire: seq<Turn>, atPull: seq<Turn>, answers: Answers)
    returns (goOn: bool)
    requires session.At(k, PC.Acquire) && 0 < k <= session.setup.prog.n + 1
    requires Theirs(session.setup.prog, atAcquire, k) && Theirs(session.setup.prog, atPull, k)
    modifies session`workers, session`state, session`schedule, session`Repr, session.Repr
    ensures session.Valid() && fresh(session.Repr - old(session.Repr))
    ensures Grew(session.setup, old(session.schedule), session.schedule, k, InCallback, atAcquire + atPull,
                 {answers}, session.Policies())
    ensures k < |old(session.workers)| == |session.workers|
    ensures var w := old(session.workers)[k];
            SameButFlags(if !goOn then w.(pc := Top)
                         else if w.readyToPull then Pulled(session.setup.prog, k, w, session.workers[k].input)
                         else w.(pc := AfterPull(session, k)),
                         session.workers[k])
    ensures if old(session.workers)[k].readyToPull then goOn ==> session.workers[k].input.Some? else goOn
  {
    hide Session.Valid, Session.Policies, Grew, Theirs, AfterPull, Pulled;
    session.Sizes();
    goOn := true;
    if session.workers[k].readyToPull {
      goOn := PullWanted(session, k, atAcquire, atPull, answers);
    } else {
      SkipPull(session, k, atAcquire, atPull, {answers});
    }
  }

  /** src/stage.c:131-133, src/source.c:53-55: an empty buffer is taken unless there is one already. */
  method TakeIfNone(session: Session, k: nat, turns: seq<Turn>, answers: Answers)
    requires session.At(k, Take) && k <= session.setup.prog.n && (k == 0 || session.workers[k].input.Some?)
    requires Theirs(session.setup.prog, turns, k)
    modifies session`workers, session`state, session`schedule, session`Repr, session.Repr
    ensures session.Valid() && fresh(session.Repr - old(session.Repr))
    ensures Grew(session.setup, old(session.schedule), session.schedule, k, InCallback, turns, {answers},
                 session.Policies())
    ensures k < |old(session.workers)| == |session.workers|
    ensures var w, out := old(session.workers)[k], session.workers[k].output;
            SameButFlags(w.(pc := PC.Call, output := out), session.workers[k]) && (w.output.Some? ==> out == w.output)
  {
    hide Session.Valid, Session.Policies, Grew, Theirs;
    session.Sizes();
    if session.workers[k].output == None {
      var out := session.ThenTake(k, turns, answers);
    } else {
      Skip(session, k, turns, PC.Call, {answers});
    }
  }

  /** src/stage.c:151-153, src/sink.c:91-93: there is no input. */
  method AskForInput(session: Session, k: nat, turns: seq<Turn>, ghost own: set<Answers>)
    requires 0 < k <= session.setup.prog.n + 1 && session.At(k, AfterPull(session, k))
    requires Theirs(session.setup.prog, turns, k) && session.workers[k].input == None && own != {}
    modifies session`workers, session`state, session`schedule, session`Repr, session.Repr
    ensures session.Valid() && fresh(session.Repr - old(session.Repr))
    ensures Grew(session.setup, old(session.schedule), session.schedule, k, InCallback, turns, own, session.Policies())
    ensures k < |old(session.workers)| == |session.workers|
    ensures SameButFlags(old(session.workers)[k].(pc := Top, readyToPull := true), session.workers[k])
  {
    hide Session.Valid, Session.Policies, Grew, Theirs;
    session.Sizes();
    ghost var was := session.schedule;
    session.Others(k, InCallback, turns, own);
    ghost var mid := session.schedule;
    session.Write(k, session.workers[k].(pc := Top, readyToPull := true), InCallback, own);
    GrewThenGrew(session.setup, was, mid, session.schedule, k, InCallback, turns, [], own, session.Policies());
    assert turns + [] == turns;
  }

  /** Where a routine goes on once it has put its input back. */
  function AfterPutBack(session: Session, k: nat): PC {
    if k == session.setup.prog.n + 1 then PC.Acquire else Top
  }

  /** src/stage.c:144, src/sink.c:44. */
  method ResetInput(session: Session, k: nat, ghost own: set<Answers>)
    requires session.At(k, ResetIn) && 0 < k <= session.setup.prog.n + 1 && own != {}
    modifies session`workers, session`state, session`schedule
    ensures session.Valid() && session.Repr == old(session.Repr)
    ensures Grew(session.setup, old(session.schedule), session.schedule, k, InCallback, [], own, session.Policies())
    ensures k < |old(session.workers)|
    ensures var w := old(session.workers)[k].(pc := AfterPutBack(session, k), input := None);
            session.workers == old(session.workers)[k := w]
  {
    hide Session.Valid, Session.Policies, Grew;
    session.Sizes();
    var w := session.workers[k].(pc := AfterPutBack(session, k), input := None);
    session.Write(k, w, InCallback, own);
  }

  /** src/stage.c:143-144, src/sink.c:43-44: the input is put back, which never fails, and its field reset. */
  method ReturnInput(session: Session, k: nat, turns: seq<Turn>, answers: Answers)
    requires session.At(k, PC.PutBack) && 0 < k <= session.setup.prog.n + 1 && Theirs(session.setup.prog, turns, k)
    requires session.workers[k].readyToPull && session.workers[k].input.Some?
    modifies session`workers, session`state, session`schedule, session`Repr, session.Repr
    ensures session.Valid() && fresh(session.Repr - old(session.Repr))
    ensures Grew(session.setup, old(session.schedule), session.schedule, k, InCallback, turns, {answers},
                 session.Policies())
    ensures k < |old(session.workers)| == |session.workers|
    ensures var w := old(session.workers)[k].(pc := AfterPutBack(session, k), input := None);
            SameButFlags(w, session.workers[k])
  {
    hide Session.Valid, Session.Policies, Grew, Theirs;
    session.Sizes();
    ghost var was := session.schedule;
    var ok := session.ThenPutBack(k, turns, answers);
    ghost var mid := session.schedule;
    ResetInput(session, k, {answers});
    GrewThenGrew(session.setup, was, mid, session.schedule, k, InCallback, turns, [], {answers},
                 session.Policies());
    assert turns + [] == turns;
  }
}
