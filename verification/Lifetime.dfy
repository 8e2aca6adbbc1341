/**
 A thread from its creation on, and a whole session: from the pipes of a new pipeline to the buffers
 in the user's hands again.
 */
module Lifetime {
  import opened Buffers
  import opened Program
  import opened Machine
  import opened Reachable
  import opened Safety
  import opened Turns
  import opened PipeImpl
  import opened Session
  import opened RoutineParts
  import opened Clearing
  import opened Pipeline
  import SourceRoutine
  import StageRoutine
  import SinkRoutine
  import Channel
  import FifoShape

  // ------------------------------------------------------------------------------------------
  // A thread
  // ------------------------------------------------------------------------------------------

  /** What the others do in one pass of the worker loop, and what the thread is answered in it. */
  datatype Round = Round(atLoop: seq<Turn>, atGate: seq<Turn>, atCheck: seq<Turn>, gaps: Gaps, answers: Answers) {
    ghost predicate Fit(prog: Program, k: nat) {
      Theirs(prog, atLoop, k) && Theirs(prog, atGate, k) && Theirs(prog, atCheck, k) && gaps.Fit(prog, k)
    }
  }

  /** What the others do inside the callback of worker `k`, in order. */
  function InTheCallback(prog: Program, k: nat, gaps: Gaps): seq<Turn> {
    if k == 0 then SourceRoutine.Round(gaps)
    else if k == prog.n + 1 then SinkRoutine.Round(gaps)
    else StageRoutine.Round(gaps)
  }

  /** What they do in one pass, and in all of them. */
  function InRound(prog: Program, k: nat, r: Round): seq<Turn> {
    r.atLoop + (r.atGate + r.atCheck) + InTheCallback(prog, k, r.gaps)
  }

  function InRounds(prog: Program, k: nat, rounds: seq<Round>): seq<Turn> {
    if |rounds| == 0 then []
    else InRounds(prog, k, rounds[..|rounds| - 1]) + InRound(prog, k, rounds[|rounds| - 1])
  }

  lemma CallbackTheirs(session: Session, k: nat, gaps: Gaps)
    requires gaps.Fit(session.setup.prog, k)
    ensures Theirs(session.setup.prog, InTheCallback(session.setup.prog, k, gaps), k)
  {
    hide Theirs;
    BothTheirs(session.setup.prog, gaps.push, gaps.post, k);
    BothTheirs(session.setup.prog, gaps.take, gaps.call, k);
    BothTheirs(session.setup.prog, gaps.push + gaps.post, gaps.take + gaps.call, k);
    BothTheirs(session.setup.prog, gaps.acquire, gaps.pull, k);
    BothTheirs(session.setup.prog, gaps.acquire + gaps.pull, gaps.call, k);
    BothTheirs(session.setup.prog, gaps.putBack, gaps.acquire + gaps.pull + gaps.call, k);
    StageRoutine.AllTheirs(session, k, gaps);
    BothTheirs(session.setup.prog, gaps.push + gaps.post, StageRoutine.AtPull(gaps), k);
  }

  lemma RoundTheirs(session: Session, k: nat, r: Round)
    requires r.Fit(session.setup.prog, k)
    ensures Theirs(session.setup.prog, InRound(session.setup.prog, k, r), k)
  {
    hide Theirs, InTheCallback, Gaps.Fit;
    CallbackTheirs(session, k, r.gaps);
    BothTheirs(session.setup.prog, r.atGate, r.atCheck, k);
    BothTheirs(session.setup.prog, r.atLoop, r.atGate + r.atCheck, k);
    BothTheirs(session.setup.prog, r.atLoop + (r.atGate + r.atCheck), InTheCallback(session.setup.prog, k, r.gaps), k);
  }

  /** Where worker `k` rests between two passes: before the loop, at the gate, or gone. */
  ghost predicate Between(session: Session, k: nat)
    reads session, session.Repr
  {
    session.Valid() && k < |session.workers| && session.workers[k].pc in {Top, Gate, Exited}
  }

  /** src/worker.c:95: the callback of worker `k` is the routine of its kind. */
  method Callback(session: Session, k: nat, gaps: Gaps, answers: Answers)
    requires k <= session.setup.prog.n + 1 && session.At(k, session.Begin(k)) && gaps.Fit(session.setup.prog, k)
    modifies session`workers, session`state, session`schedule, session`Repr, session.Repr
    ensures session.At(k, Top) && fresh(session.Repr - old(session.Repr))
    ensures Grew(session.setup, old(session.schedule), session.schedule, k, InCallback,
                 InTheCallback(session.setup.prog, k, gaps), {answers}, session.Policies())
  {
    hide Session.Valid, Session.Policies, Grew, Gaps.Fit, SourceRoutine.Round, StageRoutine.Round, SinkRoutine.Round;
    if k == 0 {
      SourceRoutine.Routine(session, gaps, answers);
    } else if k == session.setup.prog.n + 1 {
      SinkRoutine.Routine(session, k, gaps, answers);
    } else {
      StageRoutine.Routine(session, k, gaps, answers);
    }
  }

  /** src/worker.c:86-95, one pass of a thread that has not exited. */
  method PassAndCall(session: Session, k: nat, r: Round)
    requires k <= session.setup.prog.n + 1 && r.Fit(session.setup.prog, k)
    requires session.At(k, Top) || session.At(k, Gate)
    modifies session`workers, session`state, session`schedule, session`Repr, session.Repr
    ensures Between(session, k) && fresh(session.Repr - old(session.Repr))
    ensures Machine.Turns(session.schedule, k) > Machine.Turns(old(session.schedule), k)
    ensures Grew(session.setup, old(session.schedule), session.schedule, k, Anywhere, InRound(session.setup.prog, k, r),
                 {r.answers}, session.Policies())
  {
    hide Session.Valid, Session.Policies, Theirs, Grew, Gaps.Fit, InTheCallback;
    ghost var was, own := session.schedule, {r.answers};
    var callback := session.Pass(k, r.atLoop, r.atGate, r.atCheck, own);
    ghost var mid, before := session.schedule, r.atLoop + (r.atGate + r.atCheck);
    var inside := InTheCallback(session.setup.prog, k, r.gaps);
    GrewAnywhere(session.setup, was, mid, k, InLoop, before, own, own, session.Policies());
    if callback {
      Callback(session, k, r.gaps, r.answers);
    } else {
      CallbackTheirs(session, k, r.gaps);
      session.Others(k, InCallback, inside, own);
    }
    GrewCounts(session.setup, mid, session.schedule, k, InCallback, inside, own, session.Policies());
    GrewAnywhere(session.setup, mid, session.schedule, k, InCallback, inside, own, own, session.Policies());
    GrewThenGrew(session.setup, was, mid, session.schedule, k, Anywhere, before, inside, own, session.Policies());
  }

  /** One pass, or what the others do when the thread has exited. */
  method OneRound(session: Session, k: nat, r: Round)
    requires k <= session.setup.prog.n + 1 && r.Fit(session.setup.prog, k) && Between(session, k)
    modifies session`workers, session`state, session`schedule, session`Repr, session.Repr
    ensures Between(session, k) && fresh(session.Repr - old(session.Repr))
    ensures if old(session.workers)[k].pc == Exited then session.workers[k].pc == Exited
            else Machine.Turns(session.schedule, k) > Machine.Turns(old(session.schedule), k)
    ensures Grew(session.setup, old(session.schedule), session.schedule, k, Anywhere, InRound(session.setup.prog, k, r),
                 {r.answers}, session.Policies())
  {
    hide Session.Valid, Session.Policies, Theirs, Grew, InRound;
    if session.workers[k].pc == Exited {
      RoundTheirs(session, k, r);
      session.Others(k, Anywhere, InRound(session.setup.prog, k, r), {r.answers});
    } else {
      PassAndCall(session, k, r);
    }
  }

  /** What the thread is answered in all its passes. */
  function AllAnswers(rounds: seq<Round>): set<Answers> {
    set i | 0 <= i < |rounds| :: rounds[i].answers
  }

  /**
   The thread of worker `k`, src/worker.c:86-95 and the three routines, for any number of passes: all
   that happens in the session meanwhile is steps of this worker and the turns that the others take in
   between, of which each is such a step of theirs. Each pass takes the thread a step further, unless it
   has exited, and what its steps come to is decided by what the thread is answered.
   */
  method Thread(session: Session, k: nat, rounds: seq<Round>)
    requires k <= session.setup.prog.n + 1 && Between(session, k)
    requires forall i | 0 <= i < |rounds| :: rounds[i].Fit(session.setup.prog, k)
    modifies session`workers, session`state, session`schedule, session`Repr, session.Repr
    ensures Between(session, k) && fresh(session.Repr - old(session.Repr))
    ensures Grew(session.setup, old(session.schedule), session.schedule, k, Anywhere,
                 InRounds(session.setup.prog, k, rounds), AllAnswers(rounds), session.Policies())
    ensures session.workers[k].pc == Exited ||
            Machine.Turns(session.schedule, k) >= Machine.Turns(old(session.schedule), k) + |rounds|
  {
    hide Session.Valid, Session.Policies, Theirs, Grew, Round.Fit, InRound;
    ghost var was, all := session.schedule, AllAnswers(rounds);
    SetupIsValid(session);
    GrewNothing(session.setup, was, k, Anywhere, all, session.Policies());
    for i := 0 to |rounds|
      invariant Between(session, k) && fresh(session.Repr - old(session.Repr))
      invariant Grew(session.setup, was, session.schedule, k, Anywhere,
                     InRounds(session.setup.prog, k, rounds[..i]), all, session.Policies())
      invariant session.workers[k].pc == Exited ||
                Machine.Turns(session.schedule, k) >= Machine.Turns(was, k) + i
    {
      ghost var mid := session.schedule;
      OneRound(session, k, rounds[i]);
      assert rounds[..i + 1][..i] == rounds[..i];
      GrewAnywhere(session.setup, mid, session.schedule, k, Anywhere, InRound(session.setup.prog, k, rounds[i]),
                   {rounds[i].answers}, all, session.Policies());
      GrewThenGrew(session.setup, was, mid, session.schedule, k, Anywhere,
                   InRounds(session.setup.prog, k, rounds[..i]), InRound(session.setup.prog, k, rounds[i]), all,
                   session.Policies());
    }
    assert rounds[..|rounds|] == rounds;
  }

  lemma SetupIsValid(session: Session)
    requires session.Valid()
    ensures session.setup.Valid()
  {
  }

  /**
   Two routines one after the other: what the source does to the session leaves the sink where it was,
   and the other way round, so each may be followed while the other one waits.
   */
  method SourceThenSink(session: Session, ofSource: Gaps, answers: Answers, ofSink: Gaps, answers': Answers)
    requires session.At(0, Push) && session.At(session.setup.prog.n + 1, PC.PutBack)
    requires ofSource.Fit(session.setup.prog, 0) && ofSource.Fit(session.setup.prog, session.setup.prog.n + 1)
    requires ofSink.Fit(session.setup.prog, 0) && ofSink.Fit(session.setup.prog, session.setup.prog.n + 1)
    modifies session`workers, session`state, session`schedule, session`Repr, session.Repr
    ensures session.At(0, Top) && session.At(session.setup.prog.n + 1, Top)
  {
    hide Session.Valid, Session.Policies, Theirs, Grew, Gaps.Fit, Traces, Honest,
      SourceRoutine.Round, SinkRoutine.Round;
    var sink := session.setup.prog.n + 1;
    session.Sizes();
    ghost var before, was := session.schedule, session.state;
    SourceRoutine.Routine(session, ofSource, answers);
    session.Sizes();
    ghost var mid, between := session.schedule, session.state;
    SourceRoundTheirs(session.setup.prog, ofSource, sink);
    GrewLeavesOthers(session.setup, before, mid, was, between, 0, sink, InCallback, SourceRoutine.Round(ofSource),
                     {answers}, session.Policies());
    SinkRoutine.Routine(session, sink, ofSink, answers');
    session.Sizes();
    SinkRoundTheirs(session.setup.prog, ofSink, 0);
    GrewLeavesOthers(session.setup, mid, session.schedule, between, session.state, sink, 0, InCallback,
                     SinkRoutine.Round(ofSink), {answers'}, session.Policies());
  }

  lemma SourceRoundTheirs(prog: Program, gaps: Gaps, k: nat)
    requires gaps.Fit(prog, k)
    ensures NotHis(SourceRoutine.Round(gaps), k)
  {
  }

  lemma SinkRoundTheirs(prog: Program, gaps: Gaps, k: nat)
    requires gaps.Fit(prog, k)
    ensures NotHis(SinkRoutine.Round(gaps), k)
  {
  }

  // ------------------------------------------------------------------------------------------
  // A session
  // ------------------------------------------------------------------------------------------

  lemma {:induction false} StartIsNotHis(others: seq<seq<Turn>>, i: nat, k: nat)
    requires i <= |others| && forall j | 0 <= j < |others| :: NotHis(others[j], k)
    ensures NotHis(Downwards(others, i, true), k)
    decreases |others| - i
  {
    if i < |others| {
      StartIsNotHis(others, i + 1, k);
    }
  }

  /** Starting the pipeline while worker `k` is still about to enter its loop. */
  method StartBefore(session: Session, k: nat, others: seq<seq<Turn>>) returns (ghost acts: seq<Action>)
    requires k <= session.setup.prog.n + 1 && session.At(k, Top) && !session.active
    requires InRange(session.setup.prog, others)
    requires forall j | 0 <= j < |others| :: OnlyGo(others[j]) && NotHis(others[j], k)
    modifies session`active, session`workers, session`state, session`schedule, session`Repr, session.Repr
    ensures session.At(k, Top) && fresh(session.Repr - old(session.Repr))
    ensures session.active && forall j | 0 <= j < |session.workers| :: session.workers[j].enabled
    ensures session.schedule == old(session.schedule) + acts
    ensures Took(session.setup, old(session.schedule), Downwards(others, 0, true), acts, session.Policies())
  {
    hide Session.Valid, Session.Policies, OnlyGo, NotHis, Took, Traces, Honest, Step;
    session.Sizes();
    ghost var before, was := session.schedule, session.state;
    var ok;
    ok, acts := Start(session, others);
    session.Sizes();
    TracesOn(session.setup, before, acts, was, session.state);
    StartIsNotHis(others, 0, k);
    TookNoneOf(session.setup, before, Downwards(others, 0, true), acts, k, session.Policies());
    OthersLeave(session.setup.prog, was, acts, k);
  }

  /** The turns that the library and the user leave to the threads during a session. */
  datatype Course = Course(
    starting: seq<seq<Turn>>,  // while the workers are enabled, one after the other
    rounds: seq<Round>,        // while the thread looked at passes its loop
    stopping: seq<seq<Turn>>,  // while the workers are disabled
    disabling: seq<seq<Turn>>, // while they are destroyed
    joining: seq<Turn>)        // while they are joined
  {
    /** Each turn is of somebody in the pipeline, and joining gives every thread the turns it needs. */
    ghost predicate Fits(prog: Program, k: nat) {
      && InRange(prog, starting) && (forall j | 0 <= j < |starting| :: OnlyGo(starting[j]) && NotHis(starting[j], k))
      && (forall i | 0 <= i < |rounds| :: rounds[i].Fit(prog, k))
      && InRange(prog, stopping) && (forall j | 0 <= j < |stopping| :: OnlyGo(stopping[j]))
      && InRange(prog, disabling)
      && (forall i | 0 <= i < |joining| :: joining[i].k <= prog.n + 1)
      && forall j | 0 <= j <= prog.n + 1 :: StepsOf(joining, j) >= 10
    }
  }

  lemma {:induction false} StepsConcat(x: seq<Turn>, y: seq<Turn>, k: nat)
    ensures StepsOf(x + y, k) == StepsOf(x, k) + StepsOf(y, k)
  {
    if |y| == 0 {
      assert x + y == x;
    } else {
      StepsConcat(x, y[..|y| - 1], k);
      assert (x + y)[..|x + y| - 1] == x + y[..|y| - 1];
    }
  }

  /** `m` turns of thread `k`. */
  lemma {:induction false} TurnsOfOne(k: nat, m: nat, answers: Answers) returns (turns: seq<Turn>)
    ensures StepsOf(turns, k) == m && forall i | 0 <= i < |turns| :: turns[i].k == k
  {
    turns := [];
    if m > 0 {
      var rest := TurnsOfOne(k, m - 1, answers);
      turns := rest + [Go(k, answers)];
      assert turns[..|turns| - 1] == rest;
    }
  }

  /** Every thread can be given ten turns. */
  lemma {:induction false} TurnsOfAll(upTo: nat, answers: Answers) returns (turns: seq<Turn>)
    ensures forall i | 0 <= i < |turns| :: turns[i].k < upTo
    ensures forall k | 0 <= k < upTo :: StepsOf(turns, k) >= 10
  {
    turns := [];
    if upTo > 0 {
      var rest := TurnsOfAll(upTo - 1, answers);
      var more := TurnsOfOne(upTo - 1, 10, answers);
      turns := rest + more;
      forall k | 0 <= k < upTo ensures StepsOf(turns, k) >= 10 {
        StepsConcat(rest, more, k);
      }
    }
  }

  /** There is such a course for every pipeline and every thread of it, with any passes that fit. */
  lemma SomeCourse(prog: Program, k: nat, rounds: seq<Round>) returns (course: Course)
    requires k <= prog.n + 1 && forall i | 0 <= i < |rounds| :: rounds[i].Fit(prog, k)
    ensures course.Fits(prog, k) && course.rounds == rounds
  {
    var joining := TurnsOfAll(prog.n + 2, Answers(true, true, true, true));
    var nothing: seq<seq<Turn>> := seq(prog.n + 2, i => []);
    course := Course(nothing, rounds, nothing, nothing, joining);
  }

  /** The schedules after the start, after the passes of the thread looked at, and after the stop. */
  datatype History = History(started: seq<Action>, passed: seq<Action>, stopped: seq<Action>)

  /** A session has followed its course up to the stop: what was done, by whom and in which order, and nothing else. */
  ghost predicate FollowedToStop(setup: Setup, k: nat, course: Course, h: History, policies: seq<Policy>) {
    && Took(setup, [], Downwards(course.starting, 0, true), h.started, policies)
    && Grew(setup, h.started, h.passed, k, Anywhere, InRounds(setup.prog, k, course.rounds),
            AllAnswers(course.rounds), policies)
    && h.passed <= h.stopped
    && Took(setup, h.passed, Upwards(course.stopping, |course.stopping|, false), h.stopped[|h.passed|..], policies)
  }

  /** And up to the end. */
  ghost predicate Followed(setup: Setup, k: nat, course: Course, h: History, all: seq<Action>, policies: seq<Policy>) {
    && FollowedToStop(setup, k, course, h, policies)
    && h.stopped <= all
    && Took(setup, h.stopped, Kills(course.disabling, |course.disabling|) + course.joining, all[|h.stopped|..],
            policies)
  }

  lemma Appended(before: seq<Action>, acts: seq<Action>)
    ensures before <= before + acts && (before + acts)[|before|..] == acts
  {
  }

  /** Every buffer is back where the user put it: in the pool of its pipe, in the array the user was given. */
  ghost predicate AllBack(session: Session, arrays: seq<array<Buffer>>)
    reads session, session.Repr
  {
    && |session.setup.buffers| == |arrays| == |session.pipes|
    && forall p | 0 <= p < |session.pipes| ::
         && session.pipes[p] in session.Repr && session.pipes[p].Repr <= session.Repr
         && session.pipes[p].Valid()
         && AllHome(session.setup.buffers[p], session.pipes[p].View())
         && session.pipes[p].Array() == arrays[p]
  }

  /** What the sink has been given is a prefix of the sequential composition, once the threads have been joined. */
  lemma SinkGotPrefix(session: Session, joined: State)
    requires session.Linked() && Traces(session.setup, session.schedule, joined)
    requires SameReceived(joined.pipes, session.state.pipes)
    ensures IsReachable(session.setup, joined) && Shaped(session.setup.prog, joined)
    ensures joined == Exec(session.setup.prog, Init(session.setup), session.schedule)
    ensures |session.pipes| == session.setup.prog.n + 1 && session.pipes[session.setup.prog.n] in session.Repr
    ensures session.pipes[session.setup.prog.n].Valid()
    ensures session.pipes[session.setup.prog.n].View().received <=
              Stream(session.setup.prog, Calls(joined), session.setup.prog.n)
  {
    hide Stream, Pipe.Valid, Pipe.View, Pipe.Array;
    TracedIsReachable(session.setup, session.schedule, joined);
    ScheduleIndependence(session.setup, joined);
  }

  /** The session up to the stop. */
  method RunAndStop(session: Session, k: nat, course: Course) returns (ghost h: History)
    requires k <= session.setup.prog.n + 1 && session.At(k, Top) && course.Fits(session.setup.prog, k)
    requires session.schedule == [] && !session.active
    modifies session`active, session`workers, session`state, session`schedule, session`Repr, session.Repr
    ensures session.Valid() && fresh(session.Repr - old(session.Repr))
    ensures FollowedToStop(session.setup, k, course, h, session.Policies()) && h.stopped == session.schedule
    ensures forall j | 0 <= j < |session.workers| :: !session.workers[j].enabled
  {
    hide Session.Valid, Session.Policies, Theirs, Round.Fit, Grew, Took, OnlyGo, NotHis, InRounds, Downwards, Upwards;
    ghost var started := StartBefore(session, k, course.starting);
    session.Sizes();
    assert session.schedule == started;
    Thread(session, k, course.rounds);
    session.Sizes();
    ghost var passed := session.schedule;
    ghost var acts;
    var ok;
    ok, acts := Stop(session, course.stopping);
    h := History(started, passed, session.schedule);
    Appended(passed, acts);
  }

  /**
   An enabled session as the thread of worker `k` goes through it: started, any number of passes,
   stopped, disabled. The other threads take any turns all the time.
   */
  method Live(session: Session, k: nat, course: Course, granted: bool) returns (ghost joined: State, ghost h: History)
    requires k <= session.setup.prog.n + 1 && session.At(k, Top) && course.Fits(session.setup.prog, k)
    requires session.schedule == [] && !session.active
    modifies session`active, session`workers, session`state, session`schedule, session`Repr, session.Repr
    ensures session.Linked() && fresh(session.Repr - old(session.Repr))
    ensures Traces(session.setup, session.schedule, joined) && SameReceived(joined.pipes, session.state.pipes)
    ensures |session.workers| == |joined.workers| == session.setup.prog.n + 2
    ensures forall j | 0 <= j < |session.workers| ::
              joined.workers[j].pc == Exited && session.workers[j] == Reset(joined.workers[j])
    ensures AllBack(session, session.arrays)
    ensures Followed(session.setup, k, course, h, session.schedule, session.Policies())
  {
    hide Session.Valid, Session.Policies, Session.Linked, FollowedToStop, Took, Traces, Honest, AllHome, SameReceived,
      Pipe.Valid, Pipe.View, Pipe.Array;
    h := RunAndStop(session, k, course);
    ghost var acts;
    acts, joined := Disable(session, course.disabling, course.joining, granted);
    Appended(h.stopped, acts);
    PipesAreThere(session);
  }

  lemma PipesAreThere(session: Session)
    requires session.Linked()
    ensures forall p | 0 <= p < |session.pipes| ::
              session.pipes[p].Repr <= session.Repr && session.pipes[p] in session.Repr
  {
    hide Pipe.Valid, Pipe.View, Pipe.Array;
  }

  lemma EnabledAtTop(session: Session, k: nat)
    requires session.Valid() && session.state == Init(session.setup) && k <= session.setup.prog.n + 1
    ensures session.At(k, Top)
  {
    hide Traces, Honest, Pipe.Valid, Pipe.View, Pipe.Array;
  }

  /** A new pipeline with sized and filled pipes, enabled; false when the memory for the pools was refused. */
  method NewSession(setup: Setup, policy: FifoShape.Policy, totals: seq<nat>, sizing: bool)
    returns (session: Session?, arrays: seq<array<Buffer>>, ok: bool)
    requires setup.Valid() && policy.Valid() && |totals| == setup.prog.n + 1
    ensures ok == (sizing || NothingToStore(setup, setup.prog.n + 1))
    ensures ok ==>
              && session != null && fresh(session) && fresh(session.Repr)
              && session.Valid() && session.setup == setup && session.arrays == arrays && !session.active
              && session.schedule == [] && session.state == Init(setup)
  {
    hide Session.Valid, Channel.FreshPipe, Pipe.Valid, Pipe.View, Pipe.Array;
    session := null;
    var pipes;
    pipes, arrays, ok := NewPipes(setup, policy, totals, sizing);
    if ok {
      session := new Session.Enable(setup, pipes, arrays);
    }
  }

  /**
   A whole session on real objects: the pipes of a new pipeline are sized and filled, the pipeline is
   enabled, started, stopped and disabled, while one thread is followed through its loop and its
   routine and all others take any turns. Afterwards every buffer is in the pool of its pipe again, in
   the very arrays that the user was given, no context names a buffer, and the sink has been given a
   prefix of the sequential composition.
   */
  method WholeSession(setup: Setup, policy: FifoShape.Policy, totals: seq<nat>, sizing: bool, k: nat, course: Course,
                      granted: bool)
    returns (session: Session?, arrays: seq<array<Buffer>>, ok: bool, ghost joined: State, ghost h: History)
    requires setup.Valid() && policy.Valid() && |totals| == setup.prog.n + 1
    requires k <= setup.prog.n + 1 && course.Fits(setup.prog, k)
    ensures ok == (sizing || NothingToStore(setup, setup.prog.n + 1))
    ensures ok ==>
              && session != null && fresh(session) && fresh(session.Repr) && session.setup == setup
              && AllBack(session, arrays)
              && |session.workers| == setup.prog.n + 2
              && (forall j | 0 <= j < |session.workers| ::
                    session.workers[j].pc == Exited && session.workers[j].input == session.workers[j].output == None)
    ensures ok ==> Followed(setup, k, course, h, session.schedule, session.Policies())
    ensures ok ==>
              && joined == Exec(setup.prog, Init(setup), session.schedule)
              && IsReachable(setup, joined)
              && |session.pipes| == setup.prog.n + 1 && session.pipes[setup.prog.n].Valid()
              && session.pipes[setup.prog.n].View().received <= Stream(setup.prog, Calls(joined), setup.prog.n)
  {
    hide Session.Valid, Session.Linked, AllHome, SameReceived, Stream, Traces, Honest, Course.Fits, Step,
      Pipe.Valid, Pipe.View, Pipe.Array;
    joined, h := Init(setup), History([], [], []);
    session, arrays, ok := NewSession(setup, policy, totals, sizing);
    if ok {
      EnabledAtTop(session, k);
      joined, h := Live(session, k, course, granted);
      SinkGotPrefix(session, joined);
    }
  }
}
