/**
 The two mutexes of a pipe (src/pipe.c:28-44): any number of threads that take both with
 `mtdp_lock2`, in either argument order, mixed with threads that take only one.
 */
module Lock2 {
  import opened Buffers

  datatype Mutex = PoolMutex | FifoMutex

  function Other(m: Mutex): Mutex {
    if m.PoolMutex? then FifoMutex else PoolMutex
  }

  /** Where a thread is; the loop of `mtdp_lock2` has two halves that swap the roles of the mutexes. */
  datatype PC =
    | Idle
    | Lock(m: Mutex)    // src/pipe.c:32 and 38, `mtx_lock(m)`
    | Try(m: Mutex)     // src/pipe.c:33 and 39, holds `m` and tries the other one
    | Back(m: Mutex)    // src/pipe.c:36 and 42, about to unlock `m`
    | Both              // `mtdp_lock2` has returned
    | Half              // src/pipe.c:67, the pool's mutex is unlocked
    | LockOne(m: Mutex) // src/pipe.c:190, 204, 218 and 232
    | One(m: Mutex)

  datatype State = State(threads: seq<PC>, pool: Option<nat>, fifo: Option<nat>) {
    function Owner(m: Mutex): Option<nat> {
      if m.PoolMutex? then pool else fifo
    }

    function Own(m: Mutex, o: Option<nat>): State {
      if m.PoolMutex? then this.(pool := o) else this.(fifo := o)
    }

    function At(i: nat, pc: PC): State
      requires i < |threads|
    {
      this.(threads := threads[i := pc])
    }
  }

  function Start(n: nat): State {
    State(seq(n, i => Idle), None, None)
  }

  datatype Action =
    | CallBoth(i: nat, first: Mutex) // `mtdp_lock2(first, Other(first))`
    | CallOne(i: nat, m: Mutex)
    | Go(i: nat)

  function Step(s: State, a: Action): (s': State)
    ensures |s'.threads| == |s.threads|
  {
    if a.i >= |s.threads| then s
    else
      match a
      case CallBoth(i, first) => if s.threads[i].Idle? then s.At(i, Lock(first)) else s
      case CallOne(i, m) => if s.threads[i].Idle? then s.At(i, LockOne(m)) else s
      case Go(i) => GoOn(s, i)
  }

  /** One step of thread `i`. A thread that waits for a mutex stays where it is. */
  function GoOn(s: State, i: nat): (s': State)
    requires i < |s.threads|
    ensures |s'.threads| == |s.threads|
  {
    match s.threads[i]
    case Idle => s
    case Lock(m) => if s.Owner(m) == None then s.Own(m, Some(i)).At(i, Try(m)) else s
    case Try(m) => if s.Owner(Other(m)) == None then s.Own(Other(m), Some(i)).At(i, Both) else s.At(i, Back(m))
    case Back(m) => s.Own(m, None).At(i, Lock(Other(m)))
    case Both => s.Own(PoolMutex, None).At(i, Half)
    case Half => s.Own(FifoMutex, None).At(i, Idle)
    case LockOne(m) => if s.Owner(m) == None then s.Own(m, Some(i)).At(i, One(m)) else s
    case One(m) => s.Own(m, None).At(i, Idle)
  }

  function Exec(s: State, acts: seq<Action>): (s': State)
    ensures |s'.threads| == |s.threads|
  {
    if |acts| == 0 then s else Step(Exec(s, acts[..|acts| - 1]), acts[|acts| - 1])
  }

  /** The mutexes a thread has locked, going by its own code. */
  predicate Holds(pc: PC, m: Mutex) {
    pc == Try(m) || pc == Back(m) || pc == Both || pc == One(m) || (pc == Half && m == FifoMutex)
  }

  /** The owner of a mutex is the one thread whose code says so. */
  ghost predicate Inv(s: State) {
    forall m: Mutex ::
      && (forall i | 0 <= i < |s.threads| :: Holds(s.threads[i], m) <==> s.Owner(m) == Some(i))
      && (s.Owner(m) != None ==> s.Owner(m).value < |s.threads|)
  }

  /** A thread's step changes what it holds, and what anyone else owns stays theirs. */
  lemma GoOnIsLocal(s: State, i: nat, m: Mutex)
    requires Inv(s) && i < |s.threads|
    ensures var s' := GoOn(s, i);
            && (Holds(s'.threads[i], m) <==> s'.Owner(m) == Some(i))
            && (s'.Owner(m) == s.Owner(m) || s'.Owner(m) == None || s'.Owner(m) == Some(i))
            && (s.Owner(m) == None || s.Owner(m) == Some(i) || s'.Owner(m) == s.Owner(m))
            && s'.threads == s.threads[i := s'.threads[i]]
  {
    assert Holds(s.threads[i], m) <==> s.Owner(m) == Some(i);
    assert Holds(s.threads[i], Other(m)) <==> s.Owner(Other(m)) == Some(i);
  }

  lemma GoOnKeepsInv(s: State, i: nat)
    requires Inv(s) && i < |s.threads|
    ensures Inv(GoOn(s, i))
  {
    hide GoOn;
    var s' := GoOn(s, i);
    forall m: Mutex
      ensures forall j | 0 <= j < |s'.threads| :: Holds(s'.threads[j], m) <==> s'.Owner(m) == Some(j)
      ensures s'.Owner(m) != None ==> s'.Owner(m).value < |s'.threads|
    {
      GoOnIsLocal(s, i, m);
      assert forall j | 0 <= j < |s.threads| :: Holds(s.threads[j], m) <==> s.Owner(m) == Some(j);
    }
  }

  lemma CallKeepsInv(s: State, i: nat, pc: PC)
    requires Inv(s) && i < |s.threads| && s.threads[i].Idle? && (pc.Lock? || pc.LockOne?)
    ensures Inv(s.At(i, pc))
  {
    var s' := s.At(i, pc);
    forall m: Mutex
      ensures forall j | 0 <= j < |s'.threads| :: Holds(s'.threads[j], m) <==> s'.Owner(m) == Some(j)
      ensures s'.Owner(m) != None ==> s'.Owner(m).value < |s'.threads|
    {
      assert s'.Owner(m) == s.Owner(m) && !Holds(s.threads[i], m) && !Holds(pc, m);
    }
  }

  lemma StepKeepsInv(s: State, a: Action)
    requires Inv(s)
    ensures Inv(Step(s, a))
  {
    hide GoOn, Inv;
    if a.i < |s.threads| {
      match a
      case CallBoth(i, first) =>
        if s.threads[i].Idle? {
          CallKeepsInv(s, i, Lock(first));
        }
      case CallOne(i, m) =>
        if s.threads[i].Idle? {
          CallKeepsInv(s, i, LockOne(m));
        }
      case Go(i) => GoOnKeepsInv(s, i);
    }
  }

  lemma {:induction false} ExecKeepsInv(s: State, acts: seq<Action>)
    requires Inv(s)
    ensures Inv(Exec(s, acts))
  {
    if |acts| > 0 {
      ExecKeepsInv(s, acts[..|acts| - 1]);
      StepKeepsInv(Exec(s, acts[..|acts| - 1]), acts[|acts| - 1]);
    }
  }

  ghost predicate IsReachable(s: State) {
    exists n: nat, acts: seq<Action> :: s == Exec(Start(n), acts)
  }

  lemma ReachableInv(s: State)
    requires IsReachable(s)
    ensures Inv(s)
  {
    var n: nat, acts: seq<Action> :| s == Exec(Start(n), acts);
    ExecKeepsInv(Start(n), acts);
  }

  /** On return from `mtdp_lock2` a thread has both mutexes, and no mutex has two owners. */
  lemma BothOnReturn(s: State, i: nat)
    requires IsReachable(s) && i < |s.threads| && s.threads[i] == Both
    ensures s.Owner(PoolMutex) == s.Owner(FifoMutex) == Some(i)
    ensures forall j, m: Mutex | 0 <= j < |s.threads| && j != i :: !Holds(s.threads[j], m)
  {
    ReachableInv(s);
    assert Holds(Both, PoolMutex) && Holds(Both, FifoMutex);
  }

  // ------------------------------------------------------------------------------------------
  // Waiting
  // ------------------------------------------------------------------------------------------

  /** Thread `i` cannot go on before thread `j` has unlocked a mutex. */
  predicate Waits(s: State, i: nat, j: nat) {
    && i < |s.threads|
    && (s.threads[i].Lock? || s.threads[i].LockOne?)
    && s.Owner(s.threads[i].m) == Some(j)
  }

  /** A thread that waits holds nothing, so nobody waits for it, and the one it waits for can go on. */
  lemma WaitingHoldsNothing(s: State, i: nat, j: nat)
    requires IsReachable(s) && Waits(s, i, j)
    ensures forall m: Mutex :: s.Owner(m) != Some(i)
    ensures forall k: nat :: !Waits(s, k, i) && !Waits(s, j, k)
    ensures j < |s.threads| && Step(s, Go(j)) != s
  {
    ReachableInv(s);
    var m := s.threads[i].m;
    assert Holds(s.threads[j], m);
    assert forall m': Mutex :: !Holds(s.threads[i], m');
    var s' := Step(s, Go(j));
    assert s'.threads[j] != s.threads[j];
  }

  predicate WaitsForNext(s: State, ring: seq<nat>, x: nat)
    requires x < |ring|
  {
    Waits(s, ring[x], ring[if x + 1 < |ring| then x + 1 else 0])
  }

  /** There is no circular wait, of whatever length. */
  lemma NoCircularWait(s: State, ring: seq<nat>)
    requires IsReachable(s) && |ring| > 0
    ensures exists x | 0 <= x < |ring| :: !WaitsForNext(s, ring, x)
  {
    var next := if 1 < |ring| then 1 else 0;
    if WaitsForNext(s, ring, 0) {
      WaitingHoldsNothing(s, ring[0], ring[next]);
      assert !WaitsForNext(s, ring, next);
    }
  }

  // ------------------------------------------------------------------------------------------
  // Getting both mutexes
  // ------------------------------------------------------------------------------------------

  /** A schedule can be cut after its first action. */
  lemma {:induction false} ExecFirst(s: State, a: Action, acts: seq<Action>)
    ensures Exec(s, [a] + acts) == Exec(Step(s, a), acts)
  {
    hide Step;
    var all := [a] + acts;
    if |acts| == 0 {
      assert all[..0] == [];
      assert Exec(s, all[..0]) == s;
    } else {
      ExecFirst(s, a, acts[..|acts| - 1]);
      assert all[..|all| - 1] == [a] + acts[..|acts| - 1];
    }
  }

  lemma {:induction false} ExecConcat(s: State, x: seq<Action>, y: seq<Action>)
    ensures Exec(s, x + y) == Exec(Exec(s, x), y)
  {
    hide Step;
    if |y| == 0 {
      assert x + y == x;
    } else {
      ExecConcat(s, x, y[..|y| - 1]);
      assert (x + y)[..|x + y| - 1] == x + y[..|y| - 1];
    }
  }

  /** Steps of its own after which a thread holds nothing, if it is alone. */
  function Ticks(pc: PC): nat {
    match pc
    case Try(_) => 3
    case Both => 2
    case Back(_) => 1
    case Half => 1
    case One(_) => 1
    case _ => 0
  }

  /** `s'` is `s` without the locks of thread `j`, which has gone on; all the others are as they were. */
  ghost predicate WithoutLocksOf(s: State, s': State, j: nat) {
    && |s'.threads| == |s.threads|
    && (forall i | 0 <= i < |s.threads| && i != j :: s'.threads[i] == s.threads[i])
    && (forall m: Mutex :: s'.Owner(m) == if s.Owner(m) == Some(j) then None else s.Owner(m))
  }

  /** Whoever holds a mutex holds none after at most three steps of its own. */
  lemma {:induction false} LetsGo(s: State, j: nat) returns (acts: seq<Action>)
    requires Inv(s) && j < |s.threads|
    ensures |acts| <= Ticks(s.threads[j]) <= 3
    ensures Inv(Exec(s, acts)) && WithoutLocksOf(s, Exec(s, acts), j)
    decreases Ticks(s.threads[j])
  {
    var pc := s.threads[j];
    if Ticks(pc) == 0 {
      acts := [];
      assert forall m: Mutex :: !Holds(pc, m);
    } else {
      var s' := Step(s, Go(j));
      StepKeepsInv(s, Go(j));
      acts := LetsGo(s', j);
      ExecFirst(s, Go(j), acts);
      acts := [Go(j)] + acts;
      assert forall m: Mutex :: Holds(pc, m) <==> s.Owner(m) == Some(j);
    }
  }

  lemma FreeMutex(s: State, m: Mutex, i: nat) returns (acts: seq<Action>)
    requires Inv(s) && i < |s.threads| && s.threads[i].Lock?
    ensures |acts| <= 3
    ensures var s' := Exec(s, acts);
            && Inv(s') && |s'.threads| == |s.threads| && s'.threads[i] == s.threads[i]
            && s'.Owner(m) == None
            && (s.Owner(Other(m)) == None ==> s'.Owner(Other(m)) == None)
  {
    acts := [];
    if s.Owner(m) != None {
      assert !Holds(s.threads[i], m);
      acts := LetsGo(s, s.Owner(m).value);
    }
  }

  /**
   Nobody is ever stuck in `mtdp_lock2`: from any reachable state a thread in its loop can be
   given both mutexes by a schedule of at most eight steps.
   */
  lemma BothCanBeHad(s: State, i: nat) returns (acts: seq<Action>)
    requires IsReachable(s) && i < |s.threads| && s.threads[i].Lock?
    ensures |acts| <= 8
    ensures Exec(s, acts).threads[i] == Both
  {
    ReachableInv(s);
    var m := s.threads[i].m;
    var x := FreeMutex(s, m, i);
    var s1 := Exec(s, x);
    var y := FreeMutex(s1, Other(m), i);
    var s2 := Exec(s1, y);
    ExecConcat(s, x, y);
    ExecConcat(s, x + y, [Go(i), Go(i)]);
    ExecFirst(s2, Go(i), [Go(i)]);
    ExecFirst(Step(s2, Go(i)), Go(i), []);
    assert [Go(i)] + [] == [Go(i)];
    assert [Go(i)] + [Go(i)] == [Go(i), Go(i)];
    acts := x + y + [Go(i), Go(i)];
  }

  // ------------------------------------------------------------------------------------------
  // Fair schedules without new calls
  // ------------------------------------------------------------------------------------------

  /** In the loop of `mtdp_lock2`. */
  predicate InLoop(pc: PC) {
    pc.Lock? || pc.Try? || pc.Back?
  }

  function LoopCount(threads: seq<PC>): nat {
    if |threads| == 0 then 0
    else LoopCount(threads[..|threads| - 1]) + if InLoop(threads[|threads| - 1]) then 1 else 0
  }

  /** Every thread gets a turn, in any order, and none begins a new call. */
  ghost predicate FairRound(n: nat, acts: seq<Action>) {
    && (forall i | 0 <= i < |acts| :: acts[i].Go?)
    && forall i: nat | i < n :: Go(i) in acts
  }

  ghost predicate FairRounds(n: nat, rounds: seq<seq<Action>>) {
    forall x | 0 <= x < |rounds| :: FairRound(n, rounds[x])
  }

  function ExecRounds(s: State, rounds: seq<seq<Action>>): (s': State)
    ensures |s'.threads| == |s.threads|
  {
    if |rounds| == 0 then s else Exec(ExecRounds(s, rounds[..|rounds| - 1]), rounds[|rounds| - 1])
  }

  /** After that many fair rounds a thread has returned from the loop, whatever the order of the turns. */
  ghost predicate SomeoneReturns(s: State, bound: nat) {
    forall rounds | |rounds| >= bound && FairRounds(|s.threads|, rounds) ::
      LoopCount(ExecRounds(s, rounds).threads) < LoopCount(s.threads)
  }

  /** With at most `c` threads in the loop, one of them always returns. */
  ghost predicate LivelockFree(c: nat) {
    forall s | IsReachable(s) && 0 < LoopCount(s.threads) <= c :: exists bound: nat :: SomeoneReturns(s, bound)
  }

  // ------------------------------------------------------------------------------------------
  // One thread in the loop
  // ------------------------------------------------------------------------------------------

  ghost predicate Alone(s: State, i: nat) {
    i < |s.threads| && forall j | 0 <= j < |s.threads| :: InLoop(s.threads[j]) <==> j == i
  }

  ghost predicate AllOut(s: State) {
    forall j | 0 <= j < |s.threads| :: !InLoop(s.threads[j])
  }

  /** Steps a thread outside the loop still takes until it is idle. */
  function Left(pc: PC): nat {
    match pc
    case LockOne(_) => 2
    case One(_) => 1
    case Both => 2
    case Half => 1
    case _ => 0
  }

  function AllLeft(threads: seq<PC>): nat {
    if |threads| == 0 then 0 else AllLeft(threads[..|threads| - 1]) + Left(threads[|threads| - 1])
  }

  lemma {:induction false} AllLeftChanges(threads: seq<PC>, i: nat, pc: PC)
    requires i < |threads|
    ensures AllLeft(threads[i := pc]) + Left(threads[i]) == AllLeft(threads) + Left(pc)
  {
    var last := |threads| - 1;
    if i < last {
      AllLeftChanges(threads[..last], i, pc);
      assert threads[i := pc][..last] == threads[..last][i := pc];
    } else {
      assert threads[i := pc][..last] == threads[..last];
    }
  }

  lemma {:induction false} AllLeftIsBounded(threads: seq<PC>)
    ensures AllLeft(threads) <= 2 * |threads|
  {
    if |threads| > 0 {
      AllLeftIsBounded(threads[..|threads| - 1]);
    }
  }

  /** A mutex is held by a thread other than `i`. */
  predicate OtherHolds(s: State, i: nat) {
    (s.pool.Some? && s.pool.value != i) || (s.fifo.Some? && s.fifo.value != i)
  }

  /** What thread `i`, alone in the loop, still has to wait for. */
  function ToReturn(s: State, i: nat): nat
    requires i < |s.threads|
  {
    4 * AllLeft(s.threads) +
    if OtherHolds(s, i) then 3
    else match s.threads[i]
         case Try(_) => 1
         case Lock(_) => 2
         case _ => 3
  }

  /** Whose turn counts: another thread that holds a mutex, or else thread `i` itself. */
  ghost predicate Counts(s: State, i: nat, j: nat)
    requires i < |s.threads|
  {
    && j < |s.threads|
    && if OtherHolds(s, i) then j != i && (Holds(s.threads[j], PoolMutex) || Holds(s.threads[j], FifoMutex)) else j == i
  }

  /** Thread `i` has returned, or it has not come further away. */
  ghost predicate Helps(s: State, s': State, i: nat, j: nat, strictly: bool)
    requires Alone(s, i)
  {
    || AllOut(s')
    || (&& Alone(s', i)
        && ToReturn(s', i) <= ToReturn(s, i)
        && (strictly ==> ToReturn(s', i) < ToReturn(s, i))
        && (ToReturn(s', i) == ToReturn(s, i) ==> Counts(s', i, j)))
  }

  /** A step of the thread in the loop: unless another one holds a mutex, it cannot be sent back. */
  lemma LooperHelps(s: State, i: nat, j: nat)
    requires Inv(s) && Alone(s, i) && Counts(s, i, j)
    ensures Helps(s, GoOn(s, i), i, j, j == i)
  {
    var s' := GoOn(s, i);
    AllLeftChanges(s.threads, i, s'.threads[i]);
    assert forall m: Mutex :: Holds(s.threads[i], m) <==> s.Owner(m) == Some(i);
    assert s'.threads == s.threads[i := s'.threads[i]];
  }

  /** A thread outside the loop waits for a mutex, or it comes one step closer to its end. */
  lemma OutsideMoves(s: State, k: nat)
    requires k < |s.threads| && !InLoop(s.threads[k])
    ensures var s' := GoOn(s, k);
            && (s' == s || (!InLoop(s'.threads[k]) && Left(s'.threads[k]) + 1 == Left(s.threads[k])))
            && (s' == s ==> forall m: Mutex :: !Holds(s.threads[k], m))
            && s'.threads == s.threads[k := s'.threads[k]]
  {
    var s' := GoOn(s, k);
    if !s.threads[k].Idle? && !s.threads[k].LockOne? {
      assert s'.threads[k] != s.threads[k];
    }
  }

  lemma OtherHelps(s: State, i: nat, k: nat, j: nat)
    requires Alone(s, i) && Counts(s, i, j) && k < |s.threads| && k != i
    ensures Helps(s, GoOn(s, k), i, j, j == k)
  {
    hide GoOn, Holds;
    OutsideMoves(s, k);
    AllLeftChanges(s.threads, k, GoOn(s, k).threads[k]);
  }

  lemma StepHelps(s: State, a: Action, i: nat, j: nat)
    requires Inv(s) && Alone(s, i) && Counts(s, i, j) && a.Go?
    ensures Inv(Step(s, a)) && Helps(s, Step(s, a), i, j, a == Go(j))
  {
    hide GoOn, Inv;
    StepKeepsInv(s, a);
    if a.i < |s.threads| {
      if a.i == i {
        LooperHelps(s, i, j);
      } else {
        OtherHelps(s, i, a.i, j);
      }
    }
  }

  lemma SomeoneCounts(s: State, i: nat) returns (j: nat)
    requires Inv(s) && Alone(s, i)
    ensures Counts(s, i, j)
  {
    j := i;
    if s.pool.Some? && s.pool.value != i {
      j := s.pool.value;
      assert s.Owner(PoolMutex) == Some(j);
    } else if s.fifo.Some? && s.fifo.value != i {
      j := s.fifo.value;
      assert s.Owner(FifoMutex) == Some(j);
    }
  }

  /** Without new calls nobody gets into the loop. */
  lemma {:induction false} OutForGood(s: State, acts: seq<Action>)
    requires Inv(s) && AllOut(s) && forall x | 0 <= x < |acts| :: acts[x].Go?
    ensures Inv(Exec(s, acts)) && AllOut(Exec(s, acts))
  {
    if |acts| > 0 {
      OutForGood(s, acts[..|acts| - 1]);
      StepKeepsInv(Exec(s, acts[..|acts| - 1]), acts[|acts| - 1]);
    }
  }

  lemma {:induction false} RoundHelps(s: State, acts: seq<Action>, i: nat, j: nat)
    requires Inv(s) && Alone(s, i) && Counts(s, i, j) && forall x | 0 <= x < |acts| :: acts[x].Go?
    ensures Inv(Exec(s, acts)) && Helps(s, Exec(s, acts), i, j, Go(j) in acts)
  {
    hide Inv, Step, AllOut, Counts, ToReturn;
    if |acts| > 0 {
      var pre, last := acts[..|acts| - 1], acts[|acts| - 1];
      RoundHelps(s, pre, i, j);
      var mid := Exec(s, pre);
      assert acts == pre + [last];
      if AllOut(mid) {
        OneMoreOut(mid, last);
      } else if ToReturn(mid, i) == ToReturn(s, i) {
        StepHelps(mid, last, i, j);
      } else {
        var j' := SomeoneCounts(mid, i);
        StepHelps(mid, last, i, j');
      }
    }
  }

  lemma OneMoreOut(s: State, a: Action)
    requires Inv(s) && AllOut(s) && a.Go?
    ensures Inv(Step(s, a)) && AllOut(Step(s, a))
  {
    StepKeepsInv(s, a);
  }

  lemma {:induction false} RoundsReturn(s: State, rounds: seq<seq<Action>>, i: nat)
    requires Inv(s) && Alone(s, i) && FairRounds(|s.threads|, rounds)
    ensures var s' := ExecRounds(s, rounds);
            && Inv(s')
            && (AllOut(s') || (Alone(s', i) && ToReturn(s', i) + |rounds| <= ToReturn(s, i)))
  {
    hide Inv, Exec, AllOut, ToReturn;
    if |rounds| > 0 {
      var pre, last := rounds[..|rounds| - 1], rounds[|rounds| - 1];
      RoundsReturn(s, pre, i);
      var mid := ExecRounds(s, pre);
      if AllOut(mid) {
        OutForGood(mid, last);
      } else {
        var j := SomeoneCounts(mid, i);
        RoundHelps(mid, last, i, j);
      }
    }
  }

  lemma {:induction false} NobodyCounted(threads: seq<PC>)
    ensures LoopCount(threads) == 0 <==> forall j | 0 <= j < |threads| :: !InLoop(threads[j])
  {
    if |threads| > 0 {
      NobodyCounted(threads[..|threads| - 1]);
    }
  }

  lemma {:induction false} OneCounted(threads: seq<PC>) returns (i: nat)
    requires LoopCount(threads) == 1
    ensures i < |threads| && forall j | 0 <= j < |threads| :: InLoop(threads[j]) <==> j == i
  {
    var last := |threads| - 1;
    if InLoop(threads[last]) {
      NobodyCounted(threads[..last]);
      i := last;
    } else {
      i := OneCounted(threads[..last]);
    }
  }

  /** A thread that is alone in the loop returns after at most `8 n + 4` fair rounds of `n` threads. */
  lemma AloneReturns(s: State, rounds: seq<seq<Action>>)
    requires IsReachable(s) && LoopCount(s.threads) == 1
    requires FairRounds(|s.threads|, rounds) && |rounds| >= 8 * |s.threads| + 4
    ensures LoopCount(ExecRounds(s, rounds).threads) == 0
  {
    hide IsReachable, Inv, ExecRounds;
    ReachableInv(s);
    var i := OneCounted(s.threads);
    RoundsReturn(s, rounds, i);
    AllLeftIsBounded(s.threads);
    NobodyCounted(ExecRounds(s, rounds).threads);
  }

  // ------------------------------------------------------------------------------------------
  // Two threads in the loop
  // ------------------------------------------------------------------------------------------

  /** Threads 0 and 1 hold one mutex each and are about to try the other's. */
  function Crossed(m: Mutex): State {
    var threads := [Try(m), Try(Other(m)), Idle];
    if m.PoolMutex? then State(threads, Some(0), Some(1)) else State(threads, Some(1), Some(0))
  }

  lemma ReachableStep(s: State, a: Action, s': State)
    requires IsReachable(s) && s' == Step(s, a)
    ensures IsReachable(s')
  {
    var n: nat, acts: seq<Action> :| s == Exec(Start(n), acts);
    assert (acts + [a])[..|acts|] == acts;
    assert s' == Exec(Start(n), acts + [a]);
  }

  /** Two calls with the same argument order get crossed when a push holds the FIFO's mutex meanwhile. */
  lemma CrossedIsReachable()
    ensures IsReachable(Crossed(PoolMutex))
  {
    hide IsReachable;
    var p, f := PoolMutex, FifoMutex;
    var s0, s1 := State([Idle, Idle, Idle], None, None), State([Lock(p), Idle, Idle], None, None);
    var s2, s3 := State([Lock(p), Lock(p), Idle], None, None), State([Lock(p), Lock(p), LockOne(f)], None, None);
    var s4, s5 := State([Lock(p), Lock(p), One(f)], None, Some(2)), State([Lock(p), Try(p), One(f)], Some(1), Some(2));
    var s6, s7 := State([Lock(p), Back(p), One(f)], Some(1), Some(2)), State([Lock(p), Lock(f), One(f)], None, Some(2));
    var s8, s9 := State([Lock(p), Lock(f), Idle], None, None), State([Lock(p), Try(f), Idle], None, Some(1));
    StartIsReachable();
    ReachableStep(s0, CallBoth(0, p), s1);
    ReachableStep(s1, CallBoth(1, p), s2);
    ReachableStep(s2, CallOne(2, f), s3);
    ReachableStep(s3, Go(2), s4);
    ReachableStep(s4, Go(1), s5);
    ReachableStep(s5, Go(1), s6);
    ReachableStep(s6, Go(1), s7);
    ReachableStep(s7, Go(2), s8);
    ReachableStep(s8, Go(1), s9);
    ReachableStep(s9, Go(0), Crossed(p));
  }

  lemma StartIsReachable()
    ensures IsReachable(State([Idle, Idle, Idle], None, None))
  {
    assert Exec(Start(3), []) == State([Idle, Idle, Idle], None, None);
  }

  /** Both have given way and still hold their mutex. */
  function GivingWay(m: Mutex): State {
    Crossed(m).(threads := [Back(m), Back(Other(m)), Idle])
  }

  /** Each is about to lock what the other has left. */
  function Swapping(m: Mutex): State {
    State([Lock(Other(m)), Lock(m), Idle], None, None)
  }

  /** Threads 0 and 1 go round the loop in step. */
  ghost predicate InStep(s: State) {
    exists m: Mutex :: s == Crossed(m) || s == GivingWay(m) || s == Swapping(m)
  }

  const Turns: seq<Action> := [Go(0), Go(1), Go(2)]

  lemma CrossedGiveWay(m: Mutex)
    ensures Exec(Crossed(m), Turns) == GivingWay(m)
  {
    ThreeTurns(Crossed(m));
  }

  lemma GivingWaySwap(m: Mutex)
    ensures Exec(GivingWay(m), Turns) == Swapping(m)
  {
    ThreeTurns(GivingWay(m));
  }

  lemma SwappingCross(m: Mutex)
    ensures Exec(Swapping(m), Turns) == Crossed(Other(m))
  {
    ThreeTurns(Swapping(m));
  }

  lemma TurnsStayInStep(s: State)
    requires InStep(s)
    ensures InStep(Exec(s, Turns))
  {
    hide Exec, Step, Crossed, GivingWay, Swapping;
    var m: Mutex :| s == Crossed(m) || s == GivingWay(m) || s == Swapping(m);
    CrossedGiveWay(m);
    GivingWaySwap(m);
    SwappingCross(m);
  }

  lemma ThreeTurns(s: State)
    ensures Exec(s, Turns) == Step(Step(Step(s, Go(0)), Go(1)), Go(2))
  {
    hide Step;
    assert Turns[..2] == [Go(0), Go(1)] && Turns[..2][..1] == [Go(0)] && Turns[..2][..1][..0] == [];
    assert Exec(s, Turns[..2][..1]) == Step(s, Go(0));
  }

  function Dance(k: nat): seq<seq<Action>> {
    if k == 0 then [] else Dance(k - 1) + [Turns]
  }

  /**
   The loop of `mtdp_lock2` is not livelock free: from a reachable state two threads in step go
   round for ever, although every thread gets its turns, and neither call returns.
   */
  lemma {:induction false} LivelockIsPossible(k: nat)
    ensures IsReachable(Crossed(PoolMutex))
    ensures |Dance(k)| == k && FairRounds(3, Dance(k))
    ensures InStep(ExecRounds(Crossed(PoolMutex), Dance(k)))
    ensures LoopCount(ExecRounds(Crossed(PoolMutex), Dance(k)).threads) == LoopCount(Crossed(PoolMutex).threads) == 2
  {
    hide IsReachable, Exec, Step, InStep, Crossed, LoopCount, FairRound;
    CrossedIsReachable();
    CrossedIsInStep();
    TurnsAreFair();
    if k > 0 {
      LivelockIsPossible(k - 1);
      TurnsStayInStep(ExecRounds(Crossed(PoolMutex), Dance(k - 1)));
      assert Dance(k)[..k - 1] == Dance(k - 1);
    }
    InStepMeansTwo(Crossed(PoolMutex));
    InStepMeansTwo(ExecRounds(Crossed(PoolMutex), Dance(k)));
  }

  lemma CrossedIsInStep()
    ensures InStep(Crossed(PoolMutex)) && |Crossed(PoolMutex).threads| == 3
  {
  }

  lemma TurnsAreFair()
    ensures FairRound(3, Turns)
  {
    assert Turns[0] == Go(0) && Turns[1] == Go(1) && Turns[2] == Go(2);
  }

  lemma InStepMeansTwo(s: State)
    requires InStep(s)
    ensures LoopCount(s.threads) == 2
  {
    var t := s.threads;
    assert |t| == 3 && InLoop(t[0]) && InLoop(t[1]) && !InLoop(t[2]);
    assert LoopCount(t[..2][..1][..0]) == 0;
    assert LoopCount(t[..2][..1]) == 1;
    assert LoopCount(t[..2]) == 2;
  }

  /**
   Without new calls, every fair schedule makes a thread return from `mtdp_lock2`, from every
   reachable state with at most `c` threads in its loop, exactly when `c` is at most one.
   */
  lemma LivelockFreeExactly(c: nat)
    ensures LivelockFree(c) <==> c <= 1
  {
    hide IsReachable, ExecRounds, FairRounds;
    if c <= 1 {
      forall s | IsReachable(s) && 0 < LoopCount(s.threads) <= c ensures exists bound: nat :: SomeoneReturns(s, bound) {
        var bound := 8 * |s.threads| + 4;
        forall rounds | |rounds| >= bound && FairRounds(|s.threads|, rounds)
          ensures LoopCount(ExecRounds(s, rounds).threads) < LoopCount(s.threads)
        {
          AloneReturns(s, rounds);
        }
        assert SomeoneReturns(s, bound);
      }
    } else {
      LivelockIsPossible(0);
      if LivelockFree(c) {
        var s := Crossed(PoolMutex);
        var bound: nat :| SomeoneReturns(s, bound);
        LivelockIsPossible(bound);
        assert false;
      }
    }
  }
}
