/**
 The gate in front of every callback: one worker's mutex, condition variable and two flags
 (src/worker.c:67-163), with any number of threads that enable, disable and destroy the worker,
 among them the worker's own callback. What the transition system of `Machine` takes as one step
 is here every lock, test, wait, unlock and signal.
 */
module WorkerGate {
  import opened Program
  import Machine
  import Stopping

  datatype Op = Enable | Disable | Destroy

  /** A call of `mtdp_worker_enable`, `_disable` or `_destroy`, src/worker.c:127-163. */
  datatype Caller = Idle | Locking(op: Op) | Setting(op: Op) | Unlocking | Signalling

  /** The worker's thread, src/worker.c:86-96. */
  datatype Thread =
    | AtTop                  // about to read `destroyed`
    | AtLock
    | AtTest                 // holds the mutex
    | Asleep                 // in `cnd_wait`, the mutex is free for others
    | Woken                  // in `cnd_wait`, waiting for the mutex
    | AtUnlock               // holds the mutex
    | AtRecheck              // about to read `destroyed` again
    | InCallback(call: Caller)
    | Exited

  datatype Holder = Nobody | TheWorker | TheCaller(i: nat)

  datatype Gate = Gate(enabled: bool, destroyed: bool, mutex: Holder, worker: Thread, callers: seq<Caller>) {
    function Set(op: Op): Gate {
      match op
      case Enable => this.(enabled := true)
      case Disable => this.(enabled := false)
      case Destroy => this.(destroyed := true)
    }

    /** `cnd_signal`: only the worker ever waits. A signal that finds nobody waiting is lost. */
    function Signal(): Gate {
      if worker.Asleep? then this.(worker := Woken) else this
    }

    predicate Wanted() {
      enabled || destroyed
    }
  }

  function Start(n: nat): Gate {
    Gate(false, false, Nobody, AtTop, seq(n, i => Idle))
  }

  /** One step of a call made by the thread `me`. A caller that waits for the mutex stays where it is. */
  function CallStep(g: Gate, me: Holder, c: Caller): (r: (Gate, Caller))
    ensures |r.0.callers| == |g.callers|
  {
    match c
    case Idle => (g, c)
    case Locking(op) => if g.mutex == Nobody then (g.(mutex := me), Setting(op)) else (g, c)
    case Setting(op) => (g.Set(op), Unlocking)
    case Unlocking => (g.(mutex := Nobody), Signalling)
    case Signalling => (g.Signal(), Idle)
  }

  /** One step of the worker. */
  function WorkerStep(g: Gate): Gate {
    match g.worker
    case AtTop => g.(worker := if g.destroyed then Exited else AtLock)
    case AtLock => if g.mutex == Nobody then g.(mutex := TheWorker, worker := AtTest) else g
    case AtTest => if g.Wanted() then g.(worker := AtUnlock) else g.(mutex := Nobody, worker := Asleep)
    case Asleep => g
    case Woken => if g.mutex == Nobody then g.(mutex := TheWorker, worker := AtTest) else g
    case AtUnlock => g.(mutex := Nobody, worker := AtRecheck)
    case AtRecheck => g.(worker := if g.destroyed then Exited else InCallback(Idle))
    case InCallback(c) => var (g', c') := CallStep(g, TheWorker, c); g'.(worker := InCallback(c'))
    case Exited => g
  }

  datatype Action =
    | Work
    | Spurious             // `cnd_wait` may return without a signal
    | Return               // the callback returns
    | Call(i: nat, op: Op) // caller `i` begins a call
    | CallInside(op: Op)   // the callback begins a call
    | Go(i: nat)           // caller `i` goes on

  function Step(g: Gate, a: Action): (g': Gate)
    ensures |g'.callers| == |g.callers|
  {
    match a
    case Work => WorkerStep(g)
    case Spurious => g.Signal()
    case Return => if g.worker == InCallback(Idle) then g.(worker := AtTop) else g
    case CallInside(op) => if g.worker == InCallback(Idle) then g.(worker := InCallback(Locking(op))) else g
    case Call(i, op) =>
      if i < |g.callers| && g.callers[i].Idle? then g.(callers := g.callers[i := Locking(op)]) else g
    case Go(i) =>
      if i < |g.callers| then
        var (g', c') := CallStep(g, TheCaller(i), g.callers[i]);
        g'.(callers := g.callers[i := c'])
      else g
  }

  function Exec(g: Gate, acts: seq<Action>): Gate {
    if |acts| == 0 then g else Step(Exec(g, acts[..|acts| - 1]), acts[|acts| - 1])
  }

  // ------------------------------------------------------------------------------------------
  // What every step keeps
  // ------------------------------------------------------------------------------------------

  predicate CallHolds(c: Caller) {
    c.Setting? || c.Unlocking?
  }

  predicate WorkerHolds(t: Thread) {
    t.AtTest? || t.AtUnlock? || (t.InCallback? && CallHolds(t.call))
  }

  /** Past its change of a flag, with the signal still to come. */
  predicate AboutToSignal(c: Caller) {
    c.Unlocking? || c.Signalling?
  }

  ghost predicate Inv(g: Gate) {
    && (g.mutex == TheWorker <==> WorkerHolds(g.worker))
    && (forall i | 0 <= i < |g.callers| :: g.mutex == TheCaller(i) <==> CallHolds(g.callers[i]))
    && (g.mutex.TheCaller? ==> g.mutex.i < |g.callers|)
    && (g.worker.AtUnlock? ==> g.Wanted())
    && (g.worker.Asleep? && g.Wanted() ==> exists i | 0 <= i < |g.callers| :: AboutToSignal(g.callers[i]))
  }

  /** The worker's own steps; the callers stay where they are. */
  lemma WorkKeepsInv(g: Gate)
    requires Inv(g)
    ensures Inv(WorkerStep(g))
  {
    var g' := WorkerStep(g);
    assert g'.callers == g.callers;
    if g.worker.InCallback? {
      assert g'.worker.InCallback?;
    }
  }

  lemma GoKeepsInv(g: Gate, i: nat)
    requires Inv(g) && i < |g.callers|
    ensures Inv(Step(g, Go(i)))
  {
    var g' := Step(g, Go(i));
    assert forall j | 0 <= j < |g.callers| && j != i :: g'.callers[j] == g.callers[j];
    if g.callers[i].Setting? {
      assert AboutToSignal(g'.callers[i]);
    }
  }

  lemma StepKeepsInv(g: Gate, a: Action)
    requires Inv(g)
    ensures Inv(Step(g, a))
  {
    match a
    case Work => WorkKeepsInv(g);
    case Go(i) =>
      if i < |g.callers| {
        GoKeepsInv(g, i);
      }
    case _ =>
      var g' := Step(g, a);
      assert forall j | 0 <= j < |g.callers| :: AboutToSignal(g.callers[j]) ==> AboutToSignal(g'.callers[j]);
  }

  lemma {:induction false} ExecKeepsInv(g: Gate, acts: seq<Action>)
    requires Inv(g)
    ensures Inv(Exec(g, acts))
  {
    if |acts| > 0 {
      ExecKeepsInv(g, acts[..|acts| - 1]);
      StepKeepsInv(Exec(g, acts[..|acts| - 1]), acts[|acts| - 1]);
    }
  }

  ghost predicate IsReachable(g: Gate) {
    exists n: nat, acts: seq<Action> :: g == Exec(Start(n), acts)
  }

  lemma ReachableInv(g: Gate)
    requires IsReachable(g)
    ensures Inv(g)
  {
    var n: nat, acts: seq<Action> :| g == Exec(Start(n), acts);
    ExecKeepsInv(Start(n), acts);
  }

  lemma EveryScheduleIsReached(n: nat, acts: seq<Action>)
    ensures IsReachable(Exec(Start(n), acts))
  {
  }

  // ------------------------------------------------------------------------------------------
  // Wake-up safety
  // ------------------------------------------------------------------------------------------

  /**
   No wake-up is lost: while the worker sleeps with a flag set, some caller has its signal still
   to send. That caller waits for nothing, and after at most two steps of its own the worker is awake.
   */
  lemma NoLostWakeUp(g: Gate) returns (i: nat)
    requires IsReachable(g) && g.worker.Asleep? && g.Wanted()
    ensures i < |g.callers| && AboutToSignal(g.callers[i])
    ensures var g' := if g.callers[i].Unlocking? then Step(g, Go(i)) else g;
            Step(g', Go(i)).worker == Woken
  {
    ReachableInv(g);
    i :| 0 <= i < |g.callers| && AboutToSignal(g.callers[i]);
  }

  /**
   The mutex is a plain one, and a callback may itself destroy its worker: it never finds the
   mutex held by its own thread. Nobody who holds the mutex ever waits for it.
   */
  lemma CallbackWithoutMutex(g: Gate)
    requires IsReachable(g)
    ensures g.worker.InCallback? && !CallHolds(g.worker.call) ==> g.mutex != TheWorker
    ensures g.worker.AtLock? || g.worker.Asleep? || g.worker.Woken? ==> g.mutex != TheWorker
    ensures forall i | 0 <= i < |g.callers| && g.callers[i].Locking? :: g.mutex != TheCaller(i)
  {
    ReachableInv(g);
  }

  // ------------------------------------------------------------------------------------------
  // A destroyed worker can always be joined
  // ------------------------------------------------------------------------------------------

  /** A schedule can be cut after its first action. */
  lemma {:induction false} ExecFirst(g: Gate, a: Action, acts: seq<Action>)
    ensures Exec(g, [a] + acts) == Exec(Step(g, a), acts)
  {
    hide Step;
    var all := [a] + acts;
    if |acts| == 0 {
      assert all[..0] == [];
      assert Exec(g, all[..0]) == g;
    } else {
      ExecFirst(g, a, acts[..|acts| - 1]);
      assert all[..|all| - 1] == [a] + acts[..|acts| - 1];
    }
  }

  /** Steps to the exit of a destroyed worker from its place, once the mutex is free for it. */
  function ToExit(t: Thread): nat {
    match t
    case Exited => 0
    case AtTop => 1
    case AtRecheck => 1
    case AtUnlock => 2
    case AtTest => 3
    case AtLock => 4
    case Woken => 4
    case Asleep => 5
    case InCallback(c) => 2 + ToReturn(c)
  }

  function ToReturn(c: Caller): nat {
    match c
    case Idle => 0
    case Signalling => 1
    case Unlocking => 2
    case Setting(_) => 3
    case Locking(_) => 4
  }

  function CallerDebt(g: Gate): nat {
    if g.mutex.TheCaller? && g.mutex.i < |g.callers| then ToReturn(g.callers[g.mutex.i]) else 0
  }

  /** One more step towards the exit. */
  lemma Nearer(g: Gate) returns (a: Action)
    requires Inv(g) && g.destroyed && !g.worker.Exited?
    ensures a != Spurious
    ensures var g' := Step(g, a);
            g'.destroyed && ToExit(g'.worker) + CallerDebt(g') < ToExit(g.worker) + CallerDebt(g)
  {
    if g.mutex.TheCaller? {
      a := Go(g.mutex.i);
    } else if g.worker.Asleep? {
      var i :| 0 <= i < |g.callers| && AboutToSignal(g.callers[i]);
      a := Go(i);
    } else {
      a := if g.worker == InCallback(Idle) then Return else Work;
    }
  }

  /**
   From every reachable state a destroyed worker can be brought to its exit, without spurious
   wake-ups, so no sleep, signal or mutex ever keeps `mtdp_worker_join` from returning.
   */
  lemma {:induction false} DestroyedCanExit(g: Gate) returns (acts: seq<Action>)
    requires Inv(g) && g.destroyed
    ensures |acts| <= ToExit(g.worker) + CallerDebt(g) <= 9
    ensures Exec(g, acts).worker.Exited? && Spurious !in acts
    decreases ToExit(g.worker) + CallerDebt(g)
  {
    if g.worker.Exited? {
      acts := [];
    } else {
      var a := Nearer(g);
      StepKeepsInv(g, a);
      acts := DestroyedCanExit(Step(g, a));
      ExecFirst(g, a, acts);
      acts := [a] + acts;
    }
  }

  /** Steps that all the calls under way still take. */
  function Pending(callers: seq<Caller>): nat {
    if |callers| == 0 then 0 else Pending(callers[..|callers| - 1]) + ToReturn(callers[|callers| - 1])
  }

  lemma {:induction false} PendingChanges(callers: seq<Caller>, i: nat, c: Caller)
    requires i < |callers|
    ensures Pending(callers[i := c]) + ToReturn(callers[i]) == Pending(callers) + ToReturn(c)
  {
    var last := |callers| - 1;
    if i < last {
      PendingChanges(callers[..last], i, c);
      assert callers[i := c][..last] == callers[..last][i := c];
    } else {
      assert callers[i := c][..last] == callers[..last];
    }
  }

  function Remaining(g: Gate): nat {
    ToExit(g.worker) + Pending(g.callers)
  }

  /** Neither a caller nor the callback begins a new call. */
  predicate NoNewCall(a: Action) {
    !a.Call? && !a.CallInside?
  }

  /** Without new calls, every step brings a destroyed worker closer to its exit or changes nothing. */
  lemma NoStepBack(g: Gate, a: Action)
    requires Inv(g) && g.destroyed && NoNewCall(a)
    ensures var g' := Step(g, a);
            g'.destroyed && (g' == g || Remaining(g') < Remaining(g))
  {
    if a.Go? && a.i < |g.callers| {
      GoesOn(g, a.i);
    } else {
      hide Inv, Pending;
    }
  }

  lemma GoesOn(g: Gate, i: nat)
    requires g.destroyed && i < |g.callers|
    ensures var g' := Step(g, Go(i));
            g'.destroyed && (g' == g || Remaining(g') < Remaining(g))
  {
    var c := CallStep(g, TheCaller(i), g.callers[i]).1;
    PendingChanges(g.callers, i, c);
  }

  /** Unless it has exited, some thread that is given a turn brings it closer. */
  lemma SomeTurnCounts(g: Gate) returns (a: Action)
    requires Inv(g) && g.destroyed && !g.worker.Exited?
    ensures a == Work || a == Return || (a.Go? && a.i < |g.callers|)
    ensures Step(g, a) != g
  {
    if g.mutex.TheCaller? {
      a := Go(g.mutex.i);
    } else if g.worker.Asleep? {
      var i :| 0 <= i < |g.callers| && AboutToSignal(g.callers[i]);
      a := Go(i);
    } else {
      a := if g.worker == InCallback(Idle) then Return else Work;
    }
    if a.Go? {
      var c := CallStep(g, TheCaller(a.i), g.callers[a.i]).1;
      assert Step(g, a).callers[a.i] == c != g.callers[a.i];
    }
  }

  /** No new calls, and everybody gets a turn; spurious wake-ups may happen. */
  ghost predicate FairRound(n: nat, acts: seq<Action>) {
    && (forall i | 0 <= i < |acts| :: NoNewCall(acts[i]))
    && Work in acts && Return in acts && forall i: nat | i < n :: Go(i) in acts
  }

  /** Everybody can be given a turn. */
  lemma {:induction false} FairRoundExists(n: nat) returns (acts: seq<Action>)
    ensures FairRound(n, acts) && |acts| == n + 2
  {
    if n == 0 {
      acts := [Work, Return];
    } else {
      var rest := FairRoundExists(n - 1);
      acts := rest + [Go(n - 1)];
      assert forall i: nat | i < n - 1 :: Go(i) in rest;
      assert acts[|rest|] == Go(n - 1);
    }
  }

  /** A turn that counts is not lost among the others. */
  lemma {:induction false} RoundOnlyHelps(g: Gate, acts: seq<Action>, a: Action)
    requires Inv(g) && g.destroyed && Step(g, a) != g
    requires forall i | 0 <= i < |acts| :: NoNewCall(acts[i])
    ensures var g' := Exec(g, acts);
            && Inv(g') && g'.destroyed && |g'.callers| == |g.callers|
            && (g' == g || Remaining(g') < Remaining(g))
            && (a in acts ==> Remaining(g') < Remaining(g))
  {
    hide Step, Inv, Remaining;
    if |acts| > 0 {
      var pre, last := acts[..|acts| - 1], acts[|acts| - 1];
      RoundOnlyHelps(g, pre, a);
      StepKeepsInv(Exec(g, pre), last);
      NoStepBack(Exec(g, pre), last);
      assert acts == pre + [last];
    }
  }

  function ExecRounds(g: Gate, rounds: seq<seq<Action>>): Gate {
    if |rounds| == 0 then g else Exec(ExecRounds(g, rounds[..|rounds| - 1]), rounds[|rounds| - 1])
  }

  lemma {:induction false} ExitedForGood(g: Gate, acts: seq<Action>)
    requires g.worker.Exited?
    ensures Exec(g, acts).worker.Exited?
  {
    if |acts| > 0 {
      ExitedForGood(g, acts[..|acts| - 1]);
    }
  }

  lemma {:induction false} RoundsExit(g: Gate, rounds: seq<seq<Action>>)
    requires Inv(g) && g.destroyed
    requires forall i | 0 <= i < |rounds| :: FairRound(|g.callers|, rounds[i])
    ensures var g' := ExecRounds(g, rounds);
            && Inv(g') && g'.destroyed && |g'.callers| == |g.callers|
            && (g'.worker.Exited? || Remaining(g') + |rounds| <= Remaining(g))
  {
    hide Inv, Remaining, Step, Exec;
    if |rounds| > 0 {
      var last := rounds[|rounds| - 1];
      RoundsExit(g, rounds[..|rounds| - 1]);
      var mid := ExecRounds(g, rounds[..|rounds| - 1]);
      if mid.worker.Exited? {
        ExitedForGood(mid, last);
        RoundKeeps(mid, last);
      } else {
        var a := SomeTurnCounts(mid);
        RoundOnlyHelps(mid, last, a);
      }
    }
  }

  lemma {:induction false} RoundKeeps(g: Gate, acts: seq<Action>)
    requires Inv(g) && g.destroyed && forall i | 0 <= i < |acts| :: NoNewCall(acts[i])
    ensures Inv(Exec(g, acts)) && Exec(g, acts).destroyed && |Exec(g, acts).callers| == |g.callers|
  {
    hide Step, Inv, Remaining;
    if |acts| > 0 {
      RoundKeeps(g, acts[..|acts| - 1]);
      StepKeepsInv(Exec(g, acts[..|acts| - 1]), acts[|acts| - 1]);
      NoStepBack(Exec(g, acts[..|acts| - 1]), acts[|acts| - 1]);
    }
  }

  /**
   Joining returns under every fair schedule: once a worker is destroyed and nobody begins a new
   call, as many rounds as there are steps left bring it to its exit, whatever their order.
   */
  lemma DestroyedExitsFairly(g: Gate, rounds: seq<seq<Action>>)
    requires IsReachable(g) && g.destroyed
    requires forall i | 0 <= i < |rounds| :: FairRound(|g.callers|, rounds[i])
    requires |rounds| >= 9 + 4 * |g.callers|
    ensures ExecRounds(g, rounds).worker.Exited?
  {
    hide Inv, Exec, Step;
    ReachableInv(g);
    RoundsExit(g, rounds);
    PendingIsBounded(g.callers);
  }

  lemma {:induction false} PendingIsBounded(callers: seq<Caller>)
    ensures Pending(callers) <= 4 * |callers|
  {
    if |callers| > 0 {
      PendingIsBounded(callers[..|callers| - 1]);
    }
  }

  // ------------------------------------------------------------------------------------------
  // What a call does
  // ------------------------------------------------------------------------------------------

  /** The call that a thread is in. */
  function CallOf(g: Gate, who: Holder): Caller {
    match who
    case TheCaller(i) => if i < |g.callers| then g.callers[i] else Idle
    case TheWorker => if g.worker.InCallback? then g.worker.call else Idle
    case Nobody => Idle
  }

  /** This step is the assignment of a call of this kind, by whomever. */
  predicate Sets(g: Gate, a: Action, op: Op) {
    || (a.Go? && CallOf(g, TheCaller(a.i)) == Setting(op))
    || (a.Work? && CallOf(g, TheWorker) == Setting(op))
  }

  /** The flags change at the assignments of the calls and nowhere else. */
  lemma FlagsFollowCalls(g: Gate, a: Action)
    ensures var g' := Step(g, a);
            && g'.enabled == (if Sets(g, a, Enable) then true else if Sets(g, a, Disable) then false else g.enabled)
            && g'.destroyed == (g.destroyed || Sets(g, a, Destroy))
  {
  }

  /** So a destroyed worker stays destroyed, and one that nobody destroys never is. */
  lemma {:induction false} DestroyedExactlyWhen(g: Gate, acts: seq<Action>)
    ensures Exec(g, acts).destroyed <==>
              g.destroyed || exists j | 0 <= j < |acts| :: Sets(Exec(g, acts[..j]), acts[j], Destroy)
  {
    hide Step, Sets;
    if |acts| > 0 {
      var pre, a := acts[..|acts| - 1], acts[|acts| - 1];
      DestroyedExactlyWhen(g, pre);
      FlagsFollowCalls(Exec(g, pre), a);
      assert forall j | 0 <= j < |pre| :: acts[j] == pre[j] && acts[..j] == pre[..j];
      assert acts[..|pre|] == pre;
      if g.destroyed || Exec(g, pre).destroyed {
        if !g.destroyed {
          var j :| 0 <= j < |pre| && Sets(Exec(g, pre[..j]), pre[j], Destroy);
          assert Sets(Exec(g, acts[..j]), acts[j], Destroy);
        }
      }
    }
  }

  /** The beginning of a call of `mtdp_worker_enable`, `_disable` or `_destroy` by this thread. */
  function Begin(who: Holder, op: Op): Action
    requires who != Nobody
  {
    if who.TheCaller? then Call(who.i, op) else CallInside(op)
  }

  predicate Opposite(x: Op, y: Op) {
    (x == Enable && y == Disable) || (x == Disable && y == Enable)
  }

  /** The flag that a call of this kind is to set. */
  predicate Done(g: Gate, op: Op) {
    match op
    case Enable => g.enabled
    case Disable => !g.enabled
    case Destroy => g.destroyed
  }

  /** Not yet past the assignment. */
  predicate Before(g: Gate, who: Holder, op: Op) {
    CallOf(g, who) == Locking(op) || CallOf(g, who) == Setting(op)
  }

  lemma CallGoesOn(g: Gate, a: Action, who: Holder, op: Op)
    requires Before(g, who, op)
    ensures Before(Step(g, a), who, op) || (Sets(g, a, op) && Done(Step(g, a), op))
  {
  }

  lemma DoneStays(g: Gate, a: Action, op: Op)
    requires Done(g, op) && forall other | Opposite(op, other) :: !Sets(g, a, other)
    ensures Done(Step(g, a), op)
  {
    FlagsFollowCalls(g, a);
  }

  /** No step of the schedule is the assignment of an opposite call. */
  ghost predicate Unopposed(g: Gate, acts: seq<Action>, op: Op) {
    forall j, other | 0 <= j < |acts| && Opposite(op, other) :: !Sets(Exec(g, acts[..j]), acts[j], other)
  }

  lemma StillUnopposed(g: Gate, a: Action, acts: seq<Action>, op: Op)
    requires Unopposed(g, [a] + acts, op)
    ensures Unopposed(Step(g, a), acts, op)
  {
    hide Step, Sets, Opposite;
    var all := [a] + acts;
    forall j, other | 0 <= j < |acts| && Opposite(op, other)
      ensures !Sets(Exec(Step(g, a), acts[..j]), acts[j], other)
    {
      ExecFirst(g, a, acts[..j]);
      assert all[..j + 1] == [a] + acts[..j] && all[j + 1] == acts[j];
    }
  }

  lemma {:induction false} CallTakesEffect(g: Gate, acts: seq<Action>, who: Holder, op: Op)
    requires Before(g, who, op)
    requires Unopposed(g, acts, op)
    ensures Before(Exec(g, acts), who, op) || Done(Exec(g, acts), op)
  {
    hide Step, Sets, Before, Done, Opposite;
    if |acts| > 0 {
      var pre, a := acts[..|acts| - 1], acts[|acts| - 1];
      assert forall j | 0 <= j < |pre| :: acts[j] == pre[j] && acts[..j] == pre[..j];
      CallTakesEffect(g, pre, who, op);
      assert acts[..|pre|] == pre && acts[|pre|] == a;
      if Before(Exec(g, pre), who, op) {
        CallGoesOn(Exec(g, pre), a, who, op);
      } else {
        DoneStays(Exec(g, pre), a, op);
      }
    }
  }

  /**
   A call does what it is for: whatever the schedule, once a call has returned its flag is set, unless
   an opposite call has set it otherwise meanwhile; nothing takes back a destroy.
   */
  lemma ReturnedCallTookEffect(g: Gate, acts: seq<Action>, who: Holder, op: Op)
    requires who.TheCaller? ==> who.i < |g.callers|
    requires who != Nobody && (who.TheWorker? ==> g.worker.InCallback?) && CallOf(g, who).Idle?
    requires Unopposed(g, [Begin(who, op)] + acts, op)
    requires CallOf(Exec(g, [Begin(who, op)] + acts), who).Idle?
    ensures var g' := Exec(g, [Begin(who, op)] + acts);
            match op
            case Enable => g'.enabled
            case Disable => !g'.enabled
            case Destroy => g'.destroyed
  {
    hide Step, Exec, Unopposed;
    var a := Begin(who, op);
    CallBegins(g, who, op);
    ExecFirst(g, a, acts);
    StillUnopposed(g, a, acts, op);
    CallTakesEffect(Step(g, a), acts, who, op);
  }

  lemma CallBegins(g: Gate, who: Holder, op: Op)
    requires who.TheCaller? ==> who.i < |g.callers|
    requires who != Nobody && (who.TheWorker? ==> g.worker.InCallback?) && CallOf(g, who).Idle?
    ensures Before(Step(g, Begin(who, op)), who, op)
  {
  }

  /** Steps until the mutex is free. */
  function UntilFree(g: Gate): nat {
    match g.mutex
    case Nobody => 0
    case TheWorker => if g.worker.AtUnlock? || (g.worker.InCallback? && g.worker.call.Unlocking?) then 1 else 2
    case TheCaller(j) => if j < |g.callers| && g.callers[j].Unlocking? then 1 else 2
  }

  function ToTheReturn(g: Gate, i: nat): nat
    requires i < |g.callers|
  {
    ToReturn(g.callers[i]) + if g.callers[i].Locking? then UntilFree(g) else 0
  }

  lemma NearerToReturn(g: Gate, i: nat) returns (a: Action)
    requires Inv(g) && i < |g.callers| && !g.callers[i].Idle?
    ensures ToTheReturn(Step(g, a), i) < ToTheReturn(g, i) && NoNewCall(a)
  {
    if !g.callers[i].Locking? || g.mutex == Nobody {
      a := Go(i);
    } else if g.mutex.TheCaller? {
      a := Go(g.mutex.i);
    } else {
      a := Work;
    }
  }

  /** From every reachable state a call can return, within six steps and without any further call. */
  lemma {:induction false} CallCanReturn(g: Gate, i: nat) returns (acts: seq<Action>)
    requires Inv(g) && i < |g.callers|
    ensures |acts| <= ToTheReturn(g, i) <= 6
    ensures |Exec(g, acts).callers| == |g.callers| && Exec(g, acts).callers[i].Idle?
    ensures forall j | 0 <= j < |acts| :: NoNewCall(acts[j])
    decreases ToTheReturn(g, i)
  {
    hide Inv, Step;
    if g.callers[i].Idle? {
      acts := [];
    } else {
      var a := NearerToReturn(g, i);
      StepKeepsInv(g, a);
      acts := CallCanReturn(Step(g, a), i);
      ExecFirst(g, a, acts);
      acts := [a] + acts;
    }
  }

  // ------------------------------------------------------------------------------------------
  // The gate is what the transition system takes it for
  // ------------------------------------------------------------------------------------------

  /** A worker of the transition system that stands where the thread stands. */
  ghost predicate Matches(g: Gate, w: Machine.Worker) {
    && w.enabled == g.enabled
    && w.destroyed == g.destroyed
    && match g.worker
       case AtTop => w.pc == Machine.Top
       case AtUnlock => w.pc == Machine.Recheck
       case AtRecheck => w.pc == Machine.Recheck
       case InCallback(_) => !Machine.AtLoop(w.pc)
       case Exited => w.pc == Machine.Exited
       case _ => w.pc == Machine.Gate
  }

  function SetFlag(w: Machine.Worker, op: Op): Machine.Worker {
    match op
    case Enable => w.(enabled := true)
    case Disable => w.(enabled := false)
    case Destroy => w.(destroyed := true)
  }

  /** What the worker of the transition system does meanwhile. */
  function Shadow(g: Gate, a: Action, w: Machine.Worker, start: Machine.PC): Machine.Worker {
    match a
    case Work =>
      if g.worker.InCallback? then (if g.worker.call.Setting? then SetFlag(w, g.worker.call.op) else w)
      else if g.worker.AtTop? || g.worker.AtRecheck? || g.worker.AtTest? then Machine.LoopStep(w, start)
      else w
    case Return => if g.worker == InCallback(Idle) then w.(pc := Machine.Top) else w
    case Go(i) => if i < |g.callers| && g.callers[i].Setting? then SetFlag(w, g.callers[i].op) else w
    case _ => w
  }

  lemma LoopMatches(g: Gate, w: Machine.Worker, start: Machine.PC)
    requires Matches(g, w) && !Machine.AtLoop(start) && !g.worker.InCallback?
    ensures Matches(WorkerStep(g), Shadow(g, Work, w, start))
  {
    hide CallStep, SetFlag;
    match g.worker
    case AtTop =>
    case AtTest =>
    case AtRecheck =>
    case _ =>
  }

  lemma InsideMatches(g: Gate, w: Machine.Worker, start: Machine.PC)
    requires Matches(g, w) && g.worker.InCallback?
    ensures Matches(WorkerStep(g), Shadow(g, Work, w, start))
  {
    hide CallStep, Machine.LoopStep, SetFlag;
    CallMatches(g, TheWorker, g.worker.call, w);
    StaysInside(g, TheWorker, g.worker.call);
  }

  lemma StaysInside(g: Gate, me: Holder, c: Caller)
    requires g.worker.InCallback?
    ensures CallStep(g, me, c).0.worker.InCallback?
  {
  }

  /** A call changes the flags when it sets one, and wakes only a worker that sleeps. */
  lemma CallMatches(g: Gate, me: Holder, c: Caller, w: Machine.Worker)
    requires Matches(g, w)
    ensures Matches(CallStep(g, me, c).0, if c.Setting? then SetFlag(w, c.op) else w)
  {
  }

  lemma GoMatches(g: Gate, i: nat, w: Machine.Worker, start: Machine.PC)
    requires Matches(g, w) && i < |g.callers|
    ensures Matches(Step(g, Go(i)), Shadow(g, Go(i), w, start))
  {
    hide CallStep;
    CallMatches(g, TheCaller(i), g.callers[i], w);
  }

  lemma StepMatches(g: Gate, a: Action, w: Machine.Worker, start: Machine.PC)
    requires Matches(g, w) && !Machine.AtLoop(start)
    ensures Matches(Step(g, a), Shadow(g, a, w, start))
  {
    hide CallStep, WorkerStep;
    match a
    case Work =>
      if g.worker.InCallback? {
        InsideMatches(g, w, start);
      } else {
        LoopMatches(g, w, start);
      }
    case Go(i) =>
      if i < |g.callers| {
        GoMatches(g, i, w, start);
      }
    case _ =>
  }

  function Shadows(g: Gate, acts: seq<Action>, w: Machine.Worker, start: Machine.PC): Machine.Worker {
    if |acts| == 0 then w
    else Shadow(Exec(g, acts[..|acts| - 1]), acts[|acts| - 1], Shadows(g, acts[..|acts| - 1], w, start), start)
  }

  /**
   Refinement: every schedule of locks, waits and signals is seen by the transition system as
   steps of its worker loop and changes of the flags; all the rest it does not see.
   */
  lemma {:induction false} GateRefinesLoop(g: Gate, acts: seq<Action>, w: Machine.Worker, start: Machine.PC)
    requires Matches(g, w) && !Machine.AtLoop(start)
    ensures Matches(Exec(g, acts), Shadows(g, acts, w, start))
  {
    hide Step, Shadow, Matches;
    if |acts| > 0 {
      GateRefinesLoop(g, acts[..|acts| - 1], w, start);
      StepMatches(Exec(g, acts[..|acts| - 1]), acts[|acts| - 1], Shadows(g, acts[..|acts| - 1], w, start), start);
    }
  }

  /** Each assignment of a flag is a step of the transition system, and so is each test of the loop. */
  lemma ShadowIsStep(prog: Program, s: Machine.State, k: nat, g: Gate, a: Action, ok: bool)
    requires Machine.Shaped(prog, s) && k <= prog.n + 1 && Matches(g, s.workers[k])
    ensures var w := s.workers[k];
            var w' := Shadow(g, a, w, if k == prog.n + 1 then Machine.PutBack else Machine.Push);
            && (Sets(g, a, Enable) ==> w' == Machine.Step(prog, s, Machine.SetEnabled(k, true)).workers[k])
            && (Sets(g, a, Disable) ==> w' == Machine.Step(prog, s, Machine.SetEnabled(k, false)).workers[k])
            && (Sets(g, a, Destroy) ==> w' == Machine.Step(prog, s, Machine.SetDestroyed(k)).workers[k])
            && (a == Work && (g.worker.AtTop? || g.worker.AtTest? || g.worker.AtRecheck?) ==>
                  w' == Machine.Step(prog, s, Machine.Work(k, ok)).workers[k])
  {
    if a == Work && (g.worker.AtTop? || g.worker.AtTest? || g.worker.AtRecheck?) {
      Stopping.LoopIsLoopStep(prog, s, k, ok);
    } else {
      hide Machine.SourceStep, Machine.StageStep, Machine.SinkStep, Machine.LoopStep;
    }
  }
}
